/** The RimeStreamer object: each uninterrupted segment of its code performs one step of Rime, and
    the watchdog is the real polling loop. */
module RimeStreamers {
  import opened Common
  import opened Pcm
  import Carry
  import opened Rime
  import RimeLaws

  /** The clock of successive watchdog polls: each sleep lasts at least 50 ms. */
  ghost predicate Ticks(clock: nat -> real) {
    forall i: nat, j: nat | j == i + 1 :: clock(j) >= clock(i) + 0.05
  }

  /** The other tasks' events between polls; the polls themselves belong to the loop. */
  ghost predicate Elsewhere(env: nat -> seq<Event>) {
    forall i: nat, e | e in env(i) :: !e.Poll?
  }

  /** The first k sleeps of the watchdog: what the others did, then the poll. */
  ghost function Interleaving(env: nat -> seq<Event>, clock: nat -> real, k: nat): seq<Event> {
    if k == 0 then [] else Interleaving(env, clock, k - 1) + env(k - 1) + [Poll(clock(k))]
  }

  lemma RunOne(s: Streamer, e: Event)
    ensures Run(s, [e]) == Next(s, e)
  {
    assert [e][..0] == [];
  }

  lemma SleeperKeepsLock(s: Streamer, e: Event)
    requires s.holder.Polling? && !e.Poll?
    ensures Next(s, e).holder == s.holder
  {
    match e
    case Speak =>
    case Cancel =>
    case StartWarmUp =>
    case Acquire =>
    case Connected(_) =>
    case SendDone(_, _) =>
    case RunFire =>
    case RunClear =>
    case Chunk(_, _) =>
    case DoneMsg(_) =>
    case ReaderEnds =>
    case SocketCloses =>
    case CloseBegins =>
    case CloseEnds =>
  }

  /** One more sleep of the watchdog is one more round of the machine's run. */
  lemma OneMoreSleep(start: Streamer, env: nat -> seq<Event>, clock: nat -> real, k: nat,
                     asleep: Streamer, woken: Streamer)
    requires asleep == Run(start, Interleaving(env, clock, k)) && woken == Run(asleep, env(k))
    requires woken.holder.Polling? && clock(k + 1) >= woken.holder.last + 0.05
    ensures Watch(woken, woken.holder.token, woken.holder.sentAt, clock(k + 1))
         == Run(start, Interleaving(env, clock, k + 1))
  {
    var soFar := Interleaving(env, clock, k);
    RimeLaws.RunAppend(start, soFar, env(k));
    RimeLaws.RunAppend(start, soFar + env(k), [Poll(clock(k + 1))]);
    RunOne(woken, Poll(clock(k + 1)));
  }

  class RimeStreamer {
    var current: nat
    var sent: Option<nat>
    var fired: Option<nat>
    var active: bool
    var dropped: bool
    var lastAudio: Option<real>
    var carry: seq<byte>
    var ws: Socket
    var readers: nat
    // the event loop's share: waiters and holder of the lock, scheduled one-shot tasks
    var queue: seq<Job>
    var holder: Holder
    var fires: seq<nat>
    var clears: nat
    // what the callbacks and the socket were given
    var dones: seq<nat>
    var wire: seq<nat>
    var forwarded: seq<seq<byte>>

    ghost function View(): Streamer
      reads this
    {
      Streamer(current, sent, fired, active, dropped, lastAudio, carry, ws, readers,
                queue, holder, fires, clears, dones, wire, forwarded)
    }

    constructor ()
      ensures View() == Init()
    {
      current, sent, fired, active, dropped, lastAudio := 0, None, None, false, false, None;
      carry, ws, readers, queue, holder, fires, clears := [], NoSocket, 0, [], Free, [], 0;
      dones, wire, forwarded := [], [], [];
    }

    method Speak()
      modifies this
      ensures View() == Next(old(View()), Event.Speak)
    {
      var token := current + 1;
      current := token;
      dropped := false;
      lastAudio := None;
      active := true;
      queue := queue + [Synth(token)];
    }

    method Cancel()
      modifies this
      ensures View() == Next(old(View()), Event.Cancel)
    {
      dropped := true;
      active := false;
      clears := clears + 1;
      fires := fires + [current];
    }

    method StartWarmUp()
      modifies this
      ensures View() == Next(old(View()), Event.StartWarmUp)
    {
      if ws.Open? {
        return;
      }
      queue := queue + [WarmUp];
    }

    /** _fire_done: once-only and supersede-aware. */
    method FireDone(token: nat)
      modifies this
      ensures View() == Rime.FireDone(old(View()), token)
    {
      if token != current || fired == Some(token) {
        return;
      }
      fired := Some(token);
      active := false;
      dones := dones + [token];
    }

    method Launch(token: nat)
      modifies this
      ensures View() == Rime.Launch(old(View()), token)
    {
      if ws != Open || !active {
        FireDone(token);
        holder := Free;
        return;
      }
      dropped := false;
      lastAudio := None;
      wire := wire + [token];
      holder := Sending(token);
    }

    /** The first waiter enters the locked section. */
    method LockGranted()
      modifies this
      ensures View() == Next(old(View()), Acquire)
    {
      if !holder.Free? || queue == [] {
        return;
      }
      var job := queue[0];
      queue := queue[1..];
      match job
      case Synth(token) =>
        if ws.NoSocket? {
          holder := Connecting(job);
        } else {
          Launch(token);
        }
      case WarmUp =>
        if !ws.Open? {
          holder := Connecting(job);
        } else {
          holder := Free;
        }
    }

    /** A finished handshake. */
    method Wire()
      modifies `ws, `carry, `readers
      ensures View() == Wired(old(View()))
    {
      ws := Open;
      carry := [];
      readers := readers + 1;
    }

    /** _connect returned or raised. */
    method ConnectReturned(ok: bool)
      modifies this
      ensures View() == Next(old(View()), Connected(ok))
    {
      if !holder.Connecting? {
        return;
      }
      var job := holder.job;
      if ok {
        Wire();
      }
      match job
      case Synth(token) =>
        if ok {
          Launch(token);
        } else {
          FireDone(token);
          holder := Free;
        }
      case WarmUp => holder := Free;
    }

    /** The three stall tests of the watchdog. */
    method StallDetected(sentAt: real, now: real) returns (stalled: bool)
      ensures stalled == Stalled(View(), sentAt, now)
    {
      if lastAudio.None? && now - sentAt > 8.0 {
        return true;
      }
      if lastAudio.Some? && now - lastAudio.value > 15.0 {
        return true;
      }
      return now - sentAt > 60.0;
    }

    /** One evaluation of the watchdog's guard and stall tests. */
    method WatchTurn(token: nat, sentAt: real, now: real)
      modifies this
      ensures View() == Watch(old(View()), token, sentAt, now)
    {
      var stalled := StallDetected(sentAt, now);
      if active && token == current && !stalled {
        holder := Polling(token, sentAt, now);
      } else {
        FireDone(token);
        holder := Free;
      }
    }

    method SendReturned(ok: bool, now: real)
      modifies this
      ensures View() == Next(old(View()), SendDone(ok, now))
    {
      if !holder.Sending? {
        return;
      }
      var token := holder.token;
      if ok {
        sent := Some(token);
        WatchTurn(token, now, now);
      } else {
        FireDone(token);
        holder := Free;
      }
    }

    method SleepOver(now: real)
      modifies this
      ensures View() == Next(old(View()), Poll(now))
    {
      if holder.Polling? && now >= holder.last + 0.05 {
        WatchTurn(holder.token, holder.sentAt, now);
      }
    }

    method FireTaskRuns()
      modifies this
      ensures View() == Next(old(View()), RunFire)
    {
      if fires != [] {
        var token := fires[0];
        fires := fires[1..];
        FireDone(token);
      }
    }

    method ClearTaskRuns()
      modifies this
      ensures View() == Next(old(View()), RunClear)
    {
      if clears > 0 {
        clears := clears - 1;
        carry := [];
      }
    }

    /** The chunk branch of the reader loop. */
    method OnChunk(raw: Option<seq<byte>>, now: real)
      modifies this
      ensures View() == Next(old(View()), Chunk(raw, now))
    {
      if readers == 0 {
        return;
      }
      if dropped {
        carry := [];
        return;
      }
      lastAudio := Some(now);
      if raw.None? {
        OnReaderEnd();
        return;
      }
      Forward(raw.value);
    }

    /** Whole samples go to on_audio, a last odd byte is kept. */
    method Forward(raw: seq<byte>)
      modifies `carry, `forwarded
      ensures forwarded == old(forwarded) + [Carry.Cut(old(carry), raw).0] && carry == Carry.Cut(old(carry), raw).1
    {
      var frame := carry + raw;
      if |frame| % 2 == 1 {
        carry := frame[|frame| - 1..];
        frame := frame[..|frame| - 1];
      } else {
        carry := [];
      }
      forwarded := forwarded + [frame];
    }

    method OnDone(owner: nat)
      modifies this
      ensures View() == Next(old(View()), DoneMsg(owner))
    {
      if readers > 0 && sent.Some? {
        FireDone(sent.value);
      }
    }

    /** The `finally` of the reader loop. */
    method OnReaderEnd()
      modifies this
      ensures View() == Next(old(View()), ReaderEnds)
    {
      if readers == 0 {
        return;
      }
      readers := readers - 1;
      active := false;
      if sent.Some? {
        FireDone(sent.value);
      }
    }

    method OnSocketClose()
      modifies this
      ensures View() == Next(old(View()), SocketCloses)
    {
      if ws.Open? {
        ws := Closed;
      }
    }

    method CloseBegins()
      modifies this
      ensures View() == Next(old(View()), Event.CloseBegins)
    {
      carry := [];
    }

    method CloseEnds()
      modifies this
      ensures View() == Next(old(View()), Event.CloseEnds)
    {
      ws := NoSocket;
      active := false;
    }

    /** The segment an event of the loop runs. */
    method Handle(e: Event)
      modifies this
      ensures View() == Next(old(View()), e)
    {
      match e
      case Speak => Speak();
      case Cancel => Cancel();
      case StartWarmUp => StartWarmUp();
      case Acquire => LockGranted();
      case Connected(ok) => ConnectReturned(ok);
      case SendDone(ok, now) => SendReturned(ok, now);
      case Poll(now) => SleepOver(now);
      case RunFire => FireTaskRuns();
      case RunClear => ClearTaskRuns();
      case Chunk(raw, now) => OnChunk(raw, now);
      case DoneMsg(owner) => OnDone(owner);
      case ReaderEnds => OnReaderEnd();
      case SocketCloses => OnSocketClose();
      case CloseBegins => CloseBegins();
      case CloseEnds => CloseEnds();
    }

    /** The event loop working through a list of segments: every whole-run law of Rime is a law of
        this object. */
    method HandleAll(trace: seq<Event>)
      modifies this
      ensures View() == Run(old(View()), trace)
      ensures old(holder).Polling? && (forall e | e in trace :: !e.Poll?) ==> holder == old(holder)
    {
      for i := 0 to |trace|
        invariant View() == Run(old(View()), trace[..i])
        invariant old(holder).Polling? && (forall e | e in trace :: !e.Poll?) ==> holder == old(holder)
      {
        if holder.Polling? && !trace[i].Poll? {
          SleeperKeepsLock(View(), trace[i]);
        }
        Handle(trace[i]);
        assert trace[..i + 1][..i] == trace[..i];
      }
      assert trace[..|trace|] == trace;
    }

    /** `await asyncio.sleep(0.05)`: the other tasks run while the watchdog keeps the lock. */
    method SleepWhile(token: nat, sentAt: real, now: real, others: seq<Event>)
      requires forall e | e in others :: !e.Poll?
      modifies this
      ensures View() == Run(old(View()).(holder := Polling(token, sentAt, now)), others)
      ensures holder == Polling(token, sentAt, now)
    {
      holder := Polling(token, sentAt, now);
      HandleAll(others);
    }

    /** One sleep of the watchdog is one more round of the machine's run of the schedule. */
    method SleepOnce(ghost start: Streamer, token: nat, sentAt: real, now: real,
                     env: nat -> seq<Event>, ghost clock: nat -> real, polls: nat)
      requires Ticks(clock) && Elsewhere(env) && now == clock(polls)
      requires Watch(View(), token, sentAt, now) == Run(start, Interleaving(env, clock, polls))
      requires active && token == current && !Stalled(View(), sentAt, now)
      modifies this
      ensures Watch(View(), token, sentAt, clock(polls + 1)) == Run(start, Interleaving(env, clock, polls + 1))
    {
      ghost var asleep := View().(holder := Polling(token, sentAt, now));
      SleepWhile(token, sentAt, now, env(polls));
      OneMoreSleep(start, env, clock, polls, asleep, View());
    }

    /** The polling loop itself, up to the look at the clock that ends it. */
    method PollUntilOver(ghost start: Streamer, token: nat, env: nat -> seq<Event>, clock: nat -> real)
      returns (polls: nat)
      requires Ticks(clock) && Elsewhere(env) && Watch(View(), token, clock(0), clock(0)) == start
      modifies this
      ensures polls <= 1201 && !(active && token == current && !Stalled(View(), clock(0), clock(polls)))
      ensures Watch(View(), token, clock(0), clock(polls)) == Run(start, Interleaving(env, clock, polls))
    {
      var sentAt := clock(0);
      var now := sentAt;
      polls := 0;
      var stalled := StallDetected(sentAt, now);
      while active && token == current && !stalled
        invariant now == clock(polls) && now - sentAt >= 0.05 * polls as real && polls <= 1201
        invariant stalled == Stalled(View(), sentAt, now)
        invariant Watch(View(), token, sentAt, now) == Run(start, Interleaving(env, clock, polls))
        decreases (60.0 - (now - sentAt)) * 20.0
      {
        SleepOnce(start, token, sentAt, now, env, clock, polls);
        polls := polls + 1;
        now := clock(polls);
        stalled := StallDetected(sentAt, now);
      }
    }

    method MarkSent(token: nat, ghost now: real)
      requires holder == Sending(token)
      modifies `sent
      ensures Watch(View(), token, now, now) == Next(old(View()), SendDone(true, now))
    {
      sent := Some(token);
    }

    /** The last lines of the locked section. */
    method EndUtterance(token: nat, ghost sentAt: real, ghost now: real)
      requires !(active && token == current && !Stalled(View(), sentAt, now))
      modifies this
      ensures View() == Watch(old(View()), token, sentAt, now)
      ensures holder.Free? && (token == current ==> fired == Some(token))
    {
      FireDone(token);
      holder := Free;
    }

    /** The lock-holding watchdog loop from the moment the text was sent. For every pattern of
        events between its polls it stops after at most 1201 polls, ends its utterance and frees
        the lock; and it is the machine's own run of that schedule. */
    method Watchdog(token: nat, env: nat -> seq<Event>, clock: nat -> real) returns (polls: nat)
      requires holder == Sending(token) && Ticks(clock) && Elsewhere(env)
      modifies this
      ensures polls <= 1201
      ensures holder.Free? && (token == current ==> fired == Some(token))
      ensures View() == Run(Next(old(View()), SendDone(true, clock(0))), Interleaving(env, clock, polls))
    {
      ghost var start := Next(View(), SendDone(true, clock(0)));
      MarkSent(token, clock(0));
      polls := PollUntilOver(start, token, env, clock);
      EndUtterance(token, clock(0), clock(polls));
    }
  }
}
