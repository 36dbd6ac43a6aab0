/** The fields the tasks of a streamer share, told from the events of a run: the socket and its readers, the
    activity flag, and the tasks a cancel schedules. */
module RimeState {
  import opened Common
  import opened Rime
  import opened RimeLaws
  import opened RimeAttribution
  import opened RimeProgress

  // ---- the socket and its readers -----------------------------------------------------------------

  /** A handshake under way succeeds. */
  predicate Connects(s: Streamer, e: Event) {
    e == Connected(true) && s.holder.Connecting?
  }

  /** A reader leaves its loop: the socket ends, or it reads data it cannot decode with the latch open. */
  predicate ReaderDies(s: Streamer, e: Event, latched: bool) {
    s.readers > 0 && (e.ReaderEnds? || (e.Chunk? && e.raw.None? && !latched))
  }

  /** The socket as the last handshake, end or close of a run left it. */
  function SocketAfter(trace: seq<Event>): Socket {
    if trace == [] then NoSocket
    else
      var front, last := trace[..|trace| - 1], trace[|trace| - 1];
      if Connects(Run(Init(), front), last) then Open
      else if last.CloseEnds? then NoSocket
      else if last.SocketCloses? && SocketAfter(front).Open? then Closed
      else SocketAfter(front)
  }

  /** Successful handshakes less readers that died. */
  function ReadersAfter(trace: seq<Event>): int {
    if trace == [] then 0
    else
      var front, last := trace[..|trace| - 1], trace[|trace| - 1];
      var mid := Run(Init(), front);
      ReadersAfter(front) + (if Connects(mid, last) then 1 else 0)
      - (if ReaderDies(mid, last, Latched(false, front)) then 1 else 0)
  }

  lemma ConnectionStep(s: Streamer, e: Event)
    ensures var s' := Next(s, e);
      && s'.ws == (if Connects(s, e) then Open
                   else if e.CloseEnds? then NoSocket
                   else if e.SocketCloses? && s.ws.Open? then Closed else s.ws)
      && s'.readers == s.readers + (if Connects(s, e) then 1 else 0) - (if ReaderDies(s, e, s.dropped) then 1 else 0)
  {
    match e
    case Speak =>
    case Cancel =>
    case StartWarmUp =>
    case Acquire =>
    case Connected(_) =>
    case SendDone(_, _) =>
    case Poll(_) =>
    case RunFire =>
    case RunClear =>
    case Chunk(_, _) =>
    case DoneMsg(_) =>
    case ReaderEnds =>
    case SocketCloses =>
    case CloseBegins =>
    case CloseEnds =>
  }

  /** In every run the socket is what its last event made it, and every successful handshake has one reader until
      that reader dies: a close, a cancel or a new handshake ends none. */
  lemma {:induction false} ConnectionFromEvents(trace: seq<Event>)
    ensures var s := Run(Init(), trace); s.ws == SocketAfter(trace) && s.readers == ReadersAfter(trace)
  {
    if trace != [] {
      var front := trace[..|trace| - 1];
      ConnectionFromEvents(front);
      LatchIsLastCommand(Init(), front);
      ConnectionStep(Run(Init(), front), trace[|trace| - 1]);
    }
  }

  // ---- the activity flag ------------------------------------------------------------------------------

  /** What ends the activity of the agent: a cancel, the end of a close, a reader's death, or a completion. */
  predicate Quietens(s: Streamer, e: Event, latched: bool) {
    e.Cancel? || e.CloseEnds? || ReaderDies(s, e, latched) || Next(s, e).dones != s.dones
  }

  /** There was a speak, and none of these since. */
  predicate ActiveAfter(trace: seq<Event>) {
    trace != [] &&
    var front, last := trace[..|trace| - 1], trace[|trace| - 1];
    last.Speak? || (ActiveAfter(front) && !Quietens(Run(Init(), front), last, Latched(false, front)))
  }

  lemma ActiveStep(s: Streamer, e: Event)
    ensures Next(s, e).active <==> e.Speak? || (s.active && !Quietens(s, e, s.dropped))
  {
    match e
    case Speak =>
    case Cancel =>
    case StartWarmUp =>
    case Acquire =>
    case Connected(_) =>
    case SendDone(_, _) =>
    case Poll(_) =>
    case RunFire =>
    case RunClear =>
    case Chunk(_, _) =>
    case DoneMsg(_) =>
    case ReaderEnds =>
    case SocketCloses =>
    case CloseBegins =>
    case CloseEnds =>
  }

  lemma {:induction false} ActiveFromEvents(trace: seq<Event>)
    ensures Run(Init(), trace).active <==> ActiveAfter(trace)
  {
    if trace != [] {
      var front := trace[..|trace| - 1];
      ActiveFromEvents(front);
      LatchIsLastCommand(Init(), front);
      ActiveStep(Run(Init(), front), trace[|trace| - 1]);
    }
  }

  // ---- tokens and scheduled tasks ---------------------------------------------------------------------

  function Speaks(trace: seq<Event>): nat {
    if trace == [] then 0 else Speaks(trace[..|trace| - 1]) + (if trace[|trace| - 1].Speak? then 1 else 0)
  }

  /** The utterances cancelled, in order; 0 for a cancel before any speak. */
  function Cancelled(trace: seq<Event>): seq<nat> {
    if trace == [] then []
    else Cancelled(trace[..|trace| - 1]) + (if trace[|trace| - 1].Cancel? then [Speaks(trace[..|trace| - 1])] else [])
  }

  /** How many of the completions cancels schedule have run, and how many of the clears. */
  function FiresRun(trace: seq<Event>): nat {
    if trace == [] then 0
    else
      var front, last := trace[..|trace| - 1], trace[|trace| - 1];
      FiresRun(front) + (if last.RunFire? && FiresRun(front) < |Cancelled(front)| then 1 else 0)
  }

  function ClearsRun(trace: seq<Event>): nat {
    if trace == [] then 0
    else
      var front, last := trace[..|trace| - 1], trace[|trace| - 1];
      ClearsRun(front) + (if last.RunClear? && ClearsRun(front) < |Cancelled(front)| then 1 else 0)
  }

  lemma ScheduleStep(s: Streamer, e: Event)
    ensures var s' := Next(s, e);
      && s'.current == s.current + (if e.Speak? then 1 else 0)
      && s'.fires == (if e.Cancel? then s.fires + [s.current]
                      else if e.RunFire? && s.fires != [] then s.fires[1..] else s.fires)
      && s'.clears == s.clears + (if e.Cancel? then 1 else 0) - (if e.RunClear? && s.clears > 0 then 1 else 0)
  {
    match e
    case Speak =>
    case Cancel =>
    case StartWarmUp =>
    case Acquire =>
    case Connected(_) =>
    case SendDone(_, _) =>
    case Poll(_) =>
    case RunFire =>
    case RunClear =>
    case Chunk(_, _) =>
    case DoneMsg(_) =>
    case ReaderEnds =>
    case SocketCloses =>
    case CloseBegins =>
    case CloseEnds =>
  }

  /** In every run tokens count the speaks, and each cancel schedules one completion of the utterance then
      current and one clear of the carry, which run in the order of the cancels and never twice. */
  lemma {:induction false} ScheduledByCancels(trace: seq<Event>)
    ensures var s := Run(Init(), trace);
      && s.current == Speaks(trace)
      && FiresRun(trace) <= |Cancelled(trace)| && s.fires == Cancelled(trace)[FiresRun(trace)..]
      && ClearsRun(trace) <= |Cancelled(trace)| && s.clears == |Cancelled(trace)| - ClearsRun(trace)
  {
    if trace != [] {
      var front := trace[..|trace| - 1];
      ScheduledByCancels(front);
      ScheduleStep(Run(Init(), front), trace[|trace| - 1]);
    }
  }

  /** The utterance whose text the socket took last. */
  function LastSent(trace: seq<Event>): Option<nat> {
    if trace == [] then None
    else
      var front, last := trace[..|trace| - 1], trace[|trace| - 1];
      var holder := Run(Init(), front).holder;
      if last.SendDone? && last.ok && holder.Sending? then Some(holder.token) else LastSent(front)
  }

  lemma SentTokenStep(s: Streamer, e: Event)
    ensures Next(s, e).sent == if e.SendDone? && e.ok && s.holder.Sending? then Some(s.holder.token) else s.sent
  {
    match e
    case Speak =>
    case Cancel =>
    case StartWarmUp =>
    case Acquire =>
    case Connected(_) =>
    case SendDone(_, _) =>
    case Poll(_) =>
    case RunFire =>
    case RunClear =>
    case Chunk(_, _) =>
    case DoneMsg(_) =>
    case ReaderEnds =>
    case SocketCloses =>
    case CloseBegins =>
    case CloseEnds =>
  }

  lemma {:induction false} SentIsLastSent(trace: seq<Event>)
    ensures Run(Init(), trace).sent == LastSent(trace)
  {
    if trace != [] {
      SentIsLastSent(trace[..|trace| - 1]);
      SentTokenStep(Run(Init(), trace[..|trace| - 1]), trace[|trace| - 1]);
    }
  }

  // ---- what completes an utterance ------------------------------------------------------------------------

  /** The completions after an event that reports the end of the utterance `token`. */
  function Reported(trace: seq<Event>, token: Option<nat>): seq<nat> {
    var dones := Run(Init(), trace).dones;
    if token == Some(Speaks(trace)) && Speaks(trace) !in dones then dones + [Speaks(trace)] else dones
  }

  lemma FireDoneReports(trace: seq<Event>, s: Streamer, token: nat)
    requires var now := Run(Init(), trace);
      s.current == now.current && s.fired == now.fired && s.dones == now.dones
    ensures FireDone(s, token).dones == Reported(trace, Some(token))
  {
    InitInv();
    Reachable(Init(), trace);
    ScheduledByCancels(trace);
    FireDoneKeeps(s, token);
  }

  /** A cancel's scheduled completion ends the cancelled utterance, a done message or a dying reader the one whose
      text was sent last, and a failed handshake or send the one it was for; each if and only if no newer utterance
      has begun and it has not been completed already. */
  lemma {:induction false} CompletedBy(trace: seq<Event>, e: Event)
    ensures var s := Run(Init(), trace); var dones := Next(s, e).dones;
      && (e.RunFire? && FiresRun(trace) < |Cancelled(trace)| ==>
            dones == Reported(trace, Some(Cancelled(trace)[FiresRun(trace)])))
      && (e.DoneMsg? && s.readers > 0 ==> dones == Reported(trace, LastSent(trace)))
      && (ReaderDies(s, e, Latched(false, trace)) ==> dones == Reported(trace, LastSent(trace)))
      && (e == Connected(false) && s.holder.Connecting? && s.holder.job.Synth? ==>
            dones == Reported(trace, Some(s.holder.job.token)))
      && (e.SendDone? && !e.ok && s.holder.Sending? ==> dones == Reported(trace, Some(s.holder.token)))
  {
    var s := Run(Init(), trace);
    ScheduledByCancels(trace);
    SentIsLastSent(trace);
    LatchIsLastCommand(Init(), trace);
    match e
    case RunFire => if s.fires != [] { FireDoneReports(trace, s.(fires := s.fires[1..]), s.fires[0]); }
    case DoneMsg(_) => if s.sent.Some? { FireDoneReports(trace, s, s.sent.value); }
    case ReaderEnds => DeathReports(trace, s);
    case Chunk(_, now) => DeathReports(trace, s.(lastAudio := Some(now)));
    case Connected(_) =>
      if s.holder.Connecting? && s.holder.job.Synth? { FireDoneReports(trace, s, s.holder.job.token); }
    case SendDone(_, _) => if s.holder.Sending? { FireDoneReports(trace, s, s.holder.token); }
    case _ =>
  }

  lemma DeathReports(trace: seq<Event>, s: Streamer)
    requires var now := Run(Init(), trace);
      s.current == now.current && s.fired == now.fired && s.dones == now.dones && s.sent == now.sent
    ensures s.readers > 0 ==> EndReader(s).dones == Reported(trace, LastSent(trace))
  {
    SentIsLastSent(trace);
    if s.readers > 0 && s.sent.Some? {
      FireDoneReports(trace, s.(readers := s.readers - 1, active := false), s.sent.value);
    }
  }

  /** The watchdog's first look, when the text has been sent: it sleeps if and only if the utterance is still the
      current one, the agent active, and no frame since the text was handed over is more than 15 s old. */
  lemma {:induction false} SentTextIsWatchedIff(trace: seq<Event>, now: real)
    requires Run(Init(), trace).holder.Sending?
    ensures var s := Run(Init(), trace); var token := s.holder.token; var s' := Next(s, SendDone(true, now));
      if token == Speaks(trace) && ActiveAfter(trace)
         && (match LastFrame(trace) case None => true case Some(frame) => now - frame <= 15.0)
      then s'.holder == Polling(token, now, now) && s'.dones == s.dones
      else s'.holder.Free? && s'.dones == Reported(trace, Some(token))
  {
    var s := Run(Init(), trace);
    ScheduledByCancels(trace);
    ActiveFromEvents(trace);
    FrameTimeIsLastFrame(trace);
    FireDoneReports(trace, s.(sent := Some(s.holder.token)), s.holder.token);
  }

  /** Every later look lets go at once when a newer utterance has begun or the agent is no longer active. */
  lemma {:induction false} WatchdogYields(trace: seq<Event>, now: real)
    requires Run(Init(), trace).holder.Polling? && now >= LastLook(trace) + 0.05
    requires Run(Init(), trace).holder.token != Speaks(trace) || !ActiveAfter(trace)
    ensures var s := Run(Init(), trace); var s' := Next(s, Poll(now));
      s'.holder.Free? && s'.dones == Reported(trace, Some(s.holder.token))
  {
    var s := Run(Init(), trace);
    ScheduledByCancels(trace);
    ActiveFromEvents(trace);
    SleepIsMeasured(trace);
    FireDoneReports(trace, s, s.holder.token);
  }

  // ---- warming up ---------------------------------------------------------------------------------------

  /** A warm-up queues for the lock behind whoever waits unless the socket is open, and asks for a handshake when it
      gets the lock unless the socket is open by then; a closed socket is replaced. */
  lemma {:induction false} WarmUpConnectsIff(trace: seq<Event>)
    ensures var s := Run(Init(), trace); var s' := Next(s, StartWarmUp);
      s' == if SocketAfter(trace).Open? then s else s.(queue := s.queue + [WarmUp])
    ensures var s := Run(Init(), trace);
      s.holder.Free? && s.queue != [] && s.queue[0].WarmUp? ==>
        var s' := Next(s, Acquire);
        s' == s.(queue := s.queue[1..], holder := if SocketAfter(trace).Open? then Free else Connecting(WarmUp))
  {
    ConnectionFromEvents(trace);
  }
}
