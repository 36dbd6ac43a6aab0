/** agent/tts_rime.py: the utterance machine of RimeStreamer as a step function.

    One event is one uninterrupted segment of a task, or a move of the environment (socket, clock,
    server). The deployed callbacks do not suspend. An event that cannot happen in the current
    state leaves it alone, so every sequence of events is a run. */
module Rime {
  import opened Common
  import opened Pcm
  import opened Carry

  datatype Socket = NoSocket | Open | Closed

  /** A task waiting for, or holding, the lock. Tokens number the speak calls from 1. */
  datatype Job = Synth(token: nat) | WarmUp

  datatype Holder =
    | Free
    | Connecting(job: Job)                               // inside _connect
    | Sending(token: nat)                                // inside send_str(text)
    | Polling(token: nat, sentAt: real, last: real)      // asleep in the watchdog loop

  datatype Streamer = Streamer(
    current: nat,                 // _current; 0 is the token no speak created
    sent: Option<nat>,            // _sent
    fired: Option<nat>,           // _fired
    active: bool,
    dropped: bool,                // _dropped
    lastAudio: Option<real>,      // _last_audio_ts
    carry: seq<byte>,             // _pcm_carry
    ws: Socket,
    readers: nat,                 // live _read_loop tasks
    queue: seq<Job>,              // tasks waiting for the lock, first come first served
    holder: Holder,
    fires: seq<nat>,              // scheduled _fire_done tasks
    clears: nat,                  // scheduled _clear tasks
    dones: seq<nat>,              // history: the token of every on_done call
    wire: seq<nat>,               // history: the token of every text handed to the socket
    forwarded: seq<seq<byte>>)    // history: the frames given to on_audio

  datatype Event =
    | Speak
    | Cancel
    | StartWarmUp
    | Acquire                                      // the first waiter gets the free lock
    | Connected(ok: bool)
    | SendDone(ok: bool, now: real)
    | Poll(now: real)                              // the watchdog wakes after its 50 ms sleep
    | RunFire
    | RunClear
    | Chunk(raw: Option<seq<byte>>, now: real)     // None: undecodable data
    | DoneMsg(owner: nat)                          // `owner` is what the server finished; the code never sees it
    | ReaderEnds
    | SocketCloses
    | CloseBegins
    | CloseEnds

  function Init(): Streamer {
    Streamer(0, None, None, false, false, None, [], NoSocket, 0, [], Free, [], 0, [], [], [])
  }

  // ---- completion --------------------------------------------------------------

  /** _fire_done. */
  function FireDone(s: Streamer, token: nat): Streamer {
    if token != s.current || s.fired == Some(token) then s
    else s.(fired := Some(token), active := false, dones := s.dones + [token])
  }

  // ---- the lock-holding tasks ----------------------------------------------------

  function Release(s: Streamer): Streamer {
    s.(holder := Free)
  }

  /** _synthesize from the socket check to the send. */
  function Launch(s: Streamer, token: nat): Streamer {
    if s.ws != Open || !s.active then Release(FireDone(s, token))
    else s.(dropped := false, lastAudio := None, holder := Sending(token), wire := s.wire + [token])
  }

  /** The first segment of a task that just got the lock. */
  function Begin(s: Streamer, job: Job): Streamer {
    match job
    case Synth(token) => if s.ws.NoSocket? then s.(holder := Connecting(job)) else Launch(s, token)
    case WarmUp => if s.ws.Open? then Release(s) else s.(holder := Connecting(job))
  }

  /** A finished handshake: new socket, fresh byte stream, new reader. */
  function Wired(s: Streamer): Streamer {
    s.(ws := Open, carry := [], readers := s.readers + 1)
  }

  function AfterConnect(s: Streamer, job: Job, ok: bool): Streamer {
    match job
    case Synth(token) => if ok then Launch(Wired(s), token) else Release(FireDone(s, token))
    case WarmUp => Release(if ok then Wired(s) else s)
  }

  predicate Stalled(s: Streamer, sentAt: real, now: real) {
    || (s.lastAudio.None? && now - sentAt > 8.0)
    || (s.lastAudio.Some? && now - s.lastAudio.value > 15.0)
    || now - sentAt > 60.0
  }

  /** One turn of the watchdog loop: leave it, or sleep again. */
  function Watch(s: Streamer, token: nat, sentAt: real, now: real): Streamer {
    if s.active && token == s.current && !Stalled(s, sentAt, now)
    then s.(holder := Polling(token, sentAt, now))
    else Release(FireDone(s, token))
  }

  // ---- the reader ------------------------------------------------------------------

  function FireSent(s: Streamer): Streamer {
    if s.sent.Some? then FireDone(s, s.sent.value) else s
  }

  function EndReader(s: Streamer): Streamer
    requires s.readers > 0
  {
    FireSent(s.(readers := s.readers - 1, active := false))
  }

  function Receive(s: Streamer, raw: Option<seq<byte>>, now: real): Streamer
    requires s.readers > 0
  {
    if s.dropped then s.(carry := [])
    else if raw.None? then EndReader(s.(lastAudio := Some(now)))
    else
      var (frame, left) := Cut(s.carry, raw.value);
      s.(lastAudio := Some(now), carry := left, forwarded := s.forwarded + [frame])
  }

  // ---- steps and runs -----------------------------------------------------------------

  function Next(s: Streamer, e: Event): Streamer {
    match e
    case Speak =>
      s.(current := s.current + 1, dropped := false, lastAudio := None, active := true,
         queue := s.queue + [Synth(s.current + 1)])
    case Cancel =>
      s.(dropped := true, active := false, clears := s.clears + 1, fires := s.fires + [s.current])
    case StartWarmUp => if s.ws.Open? then s else s.(queue := s.queue + [WarmUp])
    case Acquire =>
      if s.holder.Free? && s.queue != [] then Begin(s.(queue := s.queue[1..]), s.queue[0]) else s
    case Connected(ok) => if s.holder.Connecting? then AfterConnect(s, s.holder.job, ok) else s
    case SendDone(ok, now) =>
      if !s.holder.Sending? then s
      else if ok then Watch(s.(sent := Some(s.holder.token)), s.holder.token, now, now)
      else Release(FireDone(s, s.holder.token))
    case Poll(now) =>
      if s.holder.Polling? && now >= s.holder.last + 0.05
      then Watch(s, s.holder.token, s.holder.sentAt, now) else s
    case RunFire => if s.fires == [] then s else FireDone(s.(fires := s.fires[1..]), s.fires[0])
    case RunClear => if s.clears == 0 then s else s.(clears := s.clears - 1, carry := [])
    case Chunk(raw, now) => if s.readers == 0 then s else Receive(s, raw, now)
    case DoneMsg(_) => if s.readers == 0 then s else FireSent(s)
    case ReaderEnds => if s.readers == 0 then s else EndReader(s)
    case SocketCloses => if s.ws.Open? then s.(ws := Closed) else s
    case CloseBegins => s.(carry := [])
    case CloseEnds => s.(ws := NoSocket, active := false)
  }

  function Run(s: Streamer, trace: seq<Event>): Streamer {
    if trace == [] then s else Next(Run(s, trace[..|trace| - 1]), trace[|trace| - 1])
  }
}
