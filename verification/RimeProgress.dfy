/** The lock is always given back: the watchdog bounds every utterance and the queue drains. */
module RimeProgress {
  import opened Common
  import opened Rime
  import opened RimeLaws
  import opened RimeAttribution

  /** While the watchdog sleeps, its last look at the clock was within 60 s of the send. */
  ghost predicate ClockOk(s: Streamer) {
    s.holder.Polling? ==> 0.0 <= s.holder.last - s.holder.sentAt <= 60.0
  }

  lemma ClockStep(s: Streamer, e: Event)
    requires ClockOk(s)
    ensures ClockOk(Next(s, e))
  {
    match e
    case Acquire =>
    case Connected(_) =>
    case SendDone(_, _) =>
    case Poll(_) =>
    case Speak =>
    case Cancel =>
    case StartWarmUp =>
    case RunFire =>
    case RunClear =>
    case Chunk(_, _) =>
    case DoneMsg(_) =>
    case ReaderEnds =>
    case SocketCloses =>
    case CloseBegins =>
    case CloseEnds =>
  }

  lemma {:induction false} ClockReachable(s: Streamer, trace: seq<Event>)
    requires ClockOk(s)
    ensures ClockOk(Run(s, trace))
  {
    if trace != [] {
      ClockReachable(s, trace[..|trace| - 1]);
      ClockStep(Run(s, trace[..|trace| - 1]), trace[|trace| - 1]);
    }
  }

  /** The watchdog lets go at the first look at the clock later than 60 s after the send, whatever
      audio arrived and whoever cancelled or spoke; and it only goes back to sleep within 60 s. */
  lemma {:induction false} WatchdogLetsGo(trace: seq<Event>, now: real)
    requires var s := Run(Init(), trace); s.holder.Polling? && now >= s.holder.last + 0.05
    ensures var s := Run(Init(), trace); var s' := Next(s, Poll(now));
      && s.holder.last - s.holder.sentAt <= 60.0
      && (s'.holder.Free? || s'.holder == Polling(s.holder.token, s.holder.sentAt, now))
      && (now > s.holder.sentAt + 60.0 ==> s'.holder.Free?)
  {
    ClockReachable(Init(), trace);
  }

  // ---- what the clock is compared with --------------------------------------------------------

  /** A reader took this frame: the latch was open. */
  predicate TakesFrame(trace: seq<Event>, e: Event) {
    e.Chunk? && Run(Init(), trace).readers > 0 && !Latched(false, trace)
  }

  /** The time of the last frame since the last speak and the last text handed to the socket. */
  function LastFrame(trace: seq<Event>): Option<real> {
    if trace == [] then None
    else
      var front, last := trace[..|trace| - 1], trace[|trace| - 1];
      if last.Speak? || Run(Init(), trace).wire != Run(Init(), front).wire then None
      else if TakesFrame(front, last) then Some(last.now)
      else LastFrame(front)
  }

  /** When the text on the wire had been sent. */
  function LastSend(trace: seq<Event>): real {
    if trace == [] then 0.0
    else
      var front, last := trace[..|trace| - 1], trace[|trace| - 1];
      if last.SendDone? && last.ok && Run(Init(), front).holder.Sending? then last.now else LastSend(front)
  }

  /** When the watchdog last looked at the clock. */
  function LastLook(trace: seq<Event>): real {
    if trace == [] then 0.0
    else
      var front, last := trace[..|trace| - 1], trace[|trace| - 1];
      var mid := Run(Init(), front);
      if last.SendDone? && last.ok && mid.holder.Sending? then last.now
      else if last.Poll? && mid.holder.Polling? && last.now >= mid.holder.last + 0.05 then last.now
      else LastLook(front)
  }

  lemma FrameTimeStep(s: Streamer, e: Event)
    ensures var s' := Next(s, e);
      if e.Speak? || s'.wire != s.wire then s'.lastAudio.None?
      else if e.Chunk? && s.readers > 0 && !s.dropped then s'.lastAudio == Some(e.now)
      else s'.lastAudio == s.lastAudio
  {
    match e
    case Acquire =>
    case Connected(_) =>
    case SendDone(_, _) =>
    case Poll(_) =>
    case Speak =>
    case Cancel =>
    case StartWarmUp =>
    case RunFire =>
    case RunClear =>
    case Chunk(_, _) =>
    case DoneMsg(_) =>
    case ReaderEnds =>
    case SocketCloses =>
    case CloseBegins =>
    case CloseEnds =>
  }

  /** In every run the recorded frame time is that of the last frame taken. */
  lemma {:induction false} FrameTimeIsLastFrame(trace: seq<Event>)
    ensures Run(Init(), trace).lastAudio == LastFrame(trace)
  {
    if trace != [] {
      var front := trace[..|trace| - 1];
      FrameTimeIsLastFrame(front);
      LatchIsLastCommand(Init(), front);
      FrameTimeStep(Run(Init(), front), trace[|trace| - 1]);
    }
  }

  lemma SleepStep(s: Streamer, e: Event)
    requires Next(s, e).holder.Polling?
    ensures var h := Next(s, e).holder;
      if e.SendDone? && e.ok && s.holder.Sending? then h == Polling(s.holder.token, e.now, e.now)
      else if e.Poll? && s.holder.Polling? && e.now >= s.holder.last + 0.05
      then h == Polling(s.holder.token, s.holder.sentAt, e.now)
      else h == s.holder
  {
    match e
    case Acquire =>
    case Connected(_) =>
    case SendDone(_, _) =>
    case Poll(_) =>
    case Speak =>
    case Cancel =>
    case StartWarmUp =>
    case RunFire =>
    case RunClear =>
    case Chunk(_, _) =>
    case DoneMsg(_) =>
    case ReaderEnds =>
    case SocketCloses =>
    case CloseBegins =>
    case CloseEnds =>
  }

  /** In every run a sleeping watchdog measures from the moment its text was sent. */
  lemma {:induction false} SleepIsMeasured(trace: seq<Event>)
    requires Run(Init(), trace).holder.Polling?
    ensures var h := Run(Init(), trace).holder; h.sentAt == LastSend(trace) && h.last == LastLook(trace)
  {
    var front, last := trace[..|trace| - 1], trace[|trace| - 1];
    var mid := Run(Init(), front);
    SleepStep(mid, last);
    if !(last.SendDone? && last.ok && mid.holder.Sending?) {
      SleepIsMeasured(front);
    }
  }

  /** While the current utterance is being spoken, a look at the clock ends it exactly when no frame of it has
      come for more than 8 s since its text was sent, or its last frame is more than 15 s old, or the text
      was sent more than 60 s ago; it then completes, once, and the agent is idle. All times are those of
      the events of the run. */
  lemma {:induction false} WatchdogEndsIff(trace: seq<Event>, now: real)
    requires var s := Run(Init(), trace);
      s.active && s.holder.Polling? && s.holder.token == s.current && now >= LastLook(trace) + 0.05
    ensures var s := Run(Init(), trace); var s' := Next(s, Poll(now));
            var late := match LastFrame(trace)
                        case None => now - LastSend(trace) > 8.0
                        case Some(frame) => now - frame > 15.0;
      if late || now - LastSend(trace) > 60.0
      then s'.holder.Free? && !s'.active && s'.dones == s.dones + [s.current] && s.current !in s.dones
      else s'.active && s'.holder.Polling? && s'.dones == s.dones
  {
    FrameTimeIsLastFrame(trace);
    SleepIsMeasured(trace);
    InitInv();
    Reachable(Init(), trace);
    DonesStep(Run(Init(), trace), Poll(now));
  }

  // ---- a bound on the work of the lock ------------------------------------------------------

  /** The 50 ms polls left before the 60 s limit. */
  function PollsLeft(spent: real): nat {
    if spent > 60.0 then 0 else ((60.0 - spent) * 20.0).Floor
  }

  /** The steps k waiting tasks may take: two waits, at most 1201 polls and a hand-over each. */
  function Jobs(k: nat): nat {
    1204 * k
  }

  function HolderWork(h: Holder): nat {
    match h
    case Free => 0
    case Connecting(WarmUp) => 1
    case Connecting(Synth(_)) => 1203
    case Sending(_) => 1202
    case Polling(_, sentAt, last) => 1 + PollsLeft(last - sentAt)
  }

  function Work(s: Streamer): nat {
    HolderWork(s.holder) + Jobs(|s.queue|)
  }

  /** The event moves the lock-holding task on: a connect or send that returns, a poll, a hand-over. */
  predicate Advances(s: Streamer, e: Event) {
    match e
    case Acquire => s.holder.Free? && s.queue != []
    case Connected(_) => s.holder.Connecting?
    case SendDone(_, _) => s.holder.Sending?
    case Poll(now) => s.holder.Polling? && now >= s.holder.last + 0.05
    case _ => false
  }

  lemma PollSpends(spent: real, spent': real)
    requires 0.0 <= spent && spent + 0.05 <= spent' <= 60.0
    ensures PollsLeft(spent') < PollsLeft(spent) <= 1200
  {
  }

  lemma WorkStep(s: Streamer, e: Event)
    requires ClockOk(s)
    ensures Advances(s, e) ==> Work(Next(s, e)) < Work(s)
    ensures !Advances(s, e) ==> Work(Next(s, e)) <= Work(s) + (if e.Speak? || e.StartWarmUp? then Jobs(1) else 0)
  {
    match e
    case Poll(now) =>
      if Advances(s, e) && Next(s, e).holder.Polling? {
        PollSpends(s.holder.last - s.holder.sentAt, now - s.holder.sentAt);
      }
    case SendDone(_, _) =>
    case Acquire =>
    case Connected(_) =>
    case Speak =>
    case Cancel =>
    case StartWarmUp =>
    case RunFire =>
    case RunClear =>
    case Chunk(_, _) =>
    case DoneMsg(_) =>
    case ReaderEnds =>
    case SocketCloses =>
    case CloseBegins =>
    case CloseEnds =>
  }

  function Advancing(s: Streamer, trace: seq<Event>): nat {
    if trace == [] then 0
    else
      var front, last := trace[..|trace| - 1], trace[|trace| - 1];
      Advancing(s, front) + (if Advances(Run(s, front), last) then 1 else 0)
  }

  function Arrivals(trace: seq<Event>): nat {
    if trace == [] then 0
    else
      var last := trace[|trace| - 1];
      Arrivals(trace[..|trace| - 1]) + (if last.Speak? || last.StartWarmUp? then 1 else 0)
  }

  /** Termination: in every run, the steps the lock-holding tasks have taken and the work left never
      exceed 1204 steps for each speak and warm-up. */
  lemma {:induction false} LockWorkIsBounded(s: Streamer, trace: seq<Event>)
    requires ClockOk(s)
    ensures Advancing(s, trace) + Work(Run(s, trace)) <= Work(s) + Jobs(Arrivals(trace))
  {
    if trace != [] {
      var front := trace[..|trace| - 1];
      LockWorkIsBounded(s, front);
      ClockReachable(s, front);
      WorkStep(Run(s, front), trace[|trace| - 1]);
    }
  }

  /** A move of the lock that is always open to some task. */
  function NextMove(s: Streamer): Event {
    match s.holder
    case Free => Acquire
    case Connecting(_) => Connected(true)
    case Sending(_) => SendDone(true, 0.0)
    case Polling(_, _, last) => Poll(last + 1.0)
  }

  /** While anything waits for or holds the lock, some task can move: no deadlock. */
  lemma SomethingCanMove(s: Streamer) returns (e: Event)
    requires s.queue != [] || !s.holder.Free?
    ensures Advances(s, e)
  {
    e := NextMove(s);
  }

  // ---- fair schedules ----------------------------------------------------------------------------

  predicate Idle(s: Streamer) {
    s.queue == [] && s.holder.Free?
  }

  /** A schedule cut into rounds, in each of which the lock moves on at least once unless it is idle
      when the round begins. What else happens in a round, and for how long, is arbitrary. */
  ghost predicate Fair(s: Streamer, rounds: seq<seq<Event>>) {
    rounds != [] ==>
      var front, last := rounds[..|rounds| - 1], rounds[|rounds| - 1];
      var mid := Run(s, Flatten(front));
      Fair(s, front) && (Idle(mid) || Advancing(mid, last) >= 1)
  }

  ghost predicate NoArrivals(rounds: seq<seq<Event>>) {
    forall round | round in rounds :: Arrivals(round) == 0
  }

  lemma IdleMeansNoWork(s: Streamer)
    ensures Idle(s) <==> Work(s) == 0
  {
    assert |s.queue| == 0 <==> s.queue == [];
  }

  lemma OneMoreRound(s: Streamer, rounds: seq<seq<Event>>)
    requires rounds != []
    ensures Flatten(rounds) == Flatten(rounds[..|rounds| - 1]) + rounds[|rounds| - 1]
    ensures Run(s, Flatten(rounds)) == Run(Run(s, Flatten(rounds[..|rounds| - 1])), rounds[|rounds| - 1])
  {
    RunAppend(s, Flatten(rounds[..|rounds| - 1]), rounds[|rounds| - 1]);
  }

  lemma {:induction false} WorkRunsOut(s: Streamer, rounds: seq<seq<Event>>)
    requires ClockOk(s) && Fair(s, rounds) && NoArrivals(rounds)
    ensures var s' := Run(s, Flatten(rounds)); Work(s') == 0 || Work(s') + |rounds| <= Work(s)
  {
    if rounds != [] {
      var front, last := rounds[..|rounds| - 1], rounds[|rounds| - 1];
      var mid := Run(s, Flatten(front));
      assert last in rounds && forall round | round in front :: round in rounds;
      WorkRunsOut(s, front);
      OneMoreRound(s, rounds);
      ClockReachable(s, Flatten(front));
      LockWorkIsBounded(mid, last);
      IdleMeansNoWork(mid);
    }
  }

  /** The queue drains: on every fair schedule without new arrivals the lock is idle after as many
      rounds as there is work, whatever else happens in them. */
  lemma {:induction false} QueueDrains(s: Streamer, rounds: seq<seq<Event>>)
    requires ClockOk(s) && Fair(s, rounds) && NoArrivals(rounds) && |rounds| >= Work(s)
    ensures Idle(Run(s, Flatten(rounds)))
  {
    WorkRunsOut(s, rounds);
    IdleMeansNoWork(Run(s, Flatten(rounds)));
  }

  /** Every utterance ends: after any history, a fair continuation without a new speak leaves the
      latest utterance completed, every other one completed or superseded, and the agent idle. */
  lemma {:induction false} LatestUtteranceCompletes(before: seq<Event>, rounds: seq<seq<Event>>)
    requires var s := Run(Init(), before); Fair(s, rounds) && NoArrivals(rounds) && |rounds| >= Work(s)
    ensures var s := Run(Init(), before + Flatten(rounds));
      Idle(s) && !s.active && (s.current > 0 ==> s.current in s.dones)
  {
    ClockReachable(Init(), before);
    QueueDrains(Run(Init(), before), rounds);
    RunAppend(Init(), before, Flatten(rounds));
    NothingHangs(before + Flatten(rounds));
  }

  lemma OneMove(s: Streamer) returns (round: seq<Event>)
    ensures Arrivals(round) == 0 && (Idle(s) || Advancing(s, round) >= 1)
  {
    var e := if Idle(s) then RunClear else NextMove(s);
    round := [e];
    assert round[..0] == [];
  }

  /** Such continuations exist in every state, of every length. */
  lemma {:induction false} FairSchedulesExist(s: Streamer, n: nat) returns (rounds: seq<seq<Event>>)
    ensures |rounds| == n && Fair(s, rounds) && NoArrivals(rounds)
  {
    rounds := [];
    if n > 0 {
      var front := FairSchedulesExist(s, n - 1);
      var round := OneMove(Run(s, Flatten(front)));
      rounds := front + [round];
      assert rounds[..|rounds| - 1] == front;
    }
  }

  // ---- no waiter is overtaken -----------------------------------------------------------------

  /** How many waiters got the lock. */
  function Grants(s: Streamer, trace: seq<Event>): nat {
    if trace == [] then 0
    else
      var front, last := trace[..|trace| - 1], trace[|trace| - 1];
      Grants(s, front) + (if last.Acquire? && Advances(Run(s, front), last) then 1 else 0)
  }

  /** The work to be done before the k-th waiter has the lock. */
  function Ahead(s: Streamer, k: nat): nat {
    HolderWork(s.holder) + Jobs(k)
  }

  lemma QueueStep(s: Streamer, e: Event)
    ensures var s' := Next(s, e);
      if e.Acquire? && Advances(s, e) then s'.queue == s.queue[1..] else s.queue <= s'.queue
  {
    match e
    case Acquire =>
    case Connected(_) =>
    case SendDone(_, _) =>
    case Poll(_) =>
    case Speak =>
    case Cancel =>
    case StartWarmUp =>
    case RunFire =>
    case RunClear =>
    case Chunk(_, _) =>
    case DoneMsg(_) =>
    case ReaderEnds =>
    case SocketCloses =>
    case CloseBegins =>
    case CloseEnds =>
  }

  /** The k-th of the original waiters still waits, in its place, unless it was granted the lock. */
  ghost predicate KeepsPlace(original: seq<Job>, waiting: seq<Job>, k: nat, granted: nat)
    requires k < |original|
  {
    granted <= k ==> k - granted < |waiting| && waiting[k - granted] == original[k]
  }

  lemma PlaceStep(original: seq<Job>, waiting: seq<Job>, after: seq<Job>, k: nat, granted: nat)
    requires k < |original| && KeepsPlace(original, waiting, k, granted)
    ensures waiting != [] && after == waiting[1..] ==> KeepsPlace(original, after, k, granted + 1)
    ensures waiting <= after ==> KeepsPlace(original, after, k, granted)
  {
  }

  lemma {:induction false} WaitersKeepTheirPlace(s: Streamer, trace: seq<Event>, k: nat)
    requires k < |s.queue|
    ensures KeepsPlace(s.queue, Run(s, trace).queue, k, Grants(s, trace))
  {
    if trace != [] {
      var front, last := trace[..|trace| - 1], trace[|trace| - 1];
      var mid := Run(s, front);
      WaitersKeepTheirPlace(s, front, k);
      QueueStep(mid, last);
      PlaceStep(s.queue, mid.queue, Next(mid, last).queue, k, Grants(s, front));
    }
  }

  lemma HolderStep(s: Streamer, e: Event)
    requires ClockOk(s)
    ensures var s' := Next(s, e);
      if e.Acquire? && Advances(s, e) then HolderWork(s'.holder) < Jobs(1) && HolderWork(s.holder) == 0
      else if Advances(s, e) then HolderWork(s'.holder) < HolderWork(s.holder)
      else s'.holder == s.holder
  {
    match e
    case Poll(now) =>
      if Advances(s, e) && Next(s, e).holder.Polling? {
        PollSpends(s.holder.last - s.holder.sentAt, now - s.holder.sentAt);
      }
    case Acquire =>
    case Connected(_) =>
    case SendDone(_, _) =>
    case Speak =>
    case Cancel =>
    case StartWarmUp =>
    case RunFire =>
    case RunClear =>
    case Chunk(_, _) =>
    case DoneMsg(_) =>
    case ReaderEnds =>
    case SocketCloses =>
    case CloseBegins =>
    case CloseEnds =>
  }

  lemma AheadStep(s: Streamer, e: Event, k: nat)
    requires ClockOk(s)
    ensures var s' := Next(s, e);
      if e.Acquire? && Advances(s, e) then k > 0 ==> Ahead(s', k - 1) + 1 <= Ahead(s, k)
      else Ahead(s', k) + (if Advances(s, e) then 1 else 0) <= Ahead(s, k)
  {
    HolderStep(s, e);
  }

  /** From s to s' there were g grants, and the work ahead of s's k-th waiter, if it still waits,
      shrank by at least n. */
  ghost predicate Closer(s: Streamer, k: nat, s': Streamer, g: nat, n: nat) {
    g <= k ==> Ahead(s', k - g) + n <= Ahead(s, k)
  }

  lemma CloserStill(s: Streamer, k: nat, mid: Streamer, g: nat, n: nat, s': Streamer, g': nat, n': nat)
    requires Closer(s, k, mid, g, n) && (g <= k ==> Closer(mid, k - g, s', g', n'))
    ensures Closer(s, k, s', g + g', n + n')
  {
  }

  lemma CloserStep(s: Streamer, e: Event, k: nat)
    requires ClockOk(s)
    ensures Closer(s, k, Next(s, e), if e.Acquire? && Advances(s, e) then 1 else 0, if Advances(s, e) then 1 else 0)
  {
    AheadStep(s, e, k);
  }

  /** Later arrivals add nothing to the work ahead of a waiter. */
  lemma {:induction false} AheadShrinks(s: Streamer, trace: seq<Event>, k: nat)
    requires ClockOk(s)
    ensures Closer(s, k, Run(s, trace), Grants(s, trace), Advancing(s, trace))
  {
    if trace != [] {
      var front, e := trace[..|trace| - 1], trace[|trace| - 1];
      var mid, g := Run(s, front), Grants(s, front);
      AheadShrinks(s, front, k);
      ClockReachable(s, front);
      if g <= k { CloserStep(mid, e, k - g); }
      CloserStill(s, k, mid, g, Advancing(s, front), Next(mid, e),
                  if e.Acquire? && Advances(mid, e) then 1 else 0, if Advances(mid, e) then 1 else 0);
    }
  }

  lemma {:induction false} GrantsAppend(s: Streamer, a: seq<Event>, b: seq<Event>)
    ensures Grants(s, a + b) == Grants(s, a) + Grants(Run(s, a), b)
  {
    if b == [] {
      assert a + b == a;
    } else {
      GrantsAppend(s, a, b[..|b| - 1]);
      RunAppend(s, a, b[..|b| - 1]);
      assert (a + b)[..|a + b| - 1] == a + b[..|b| - 1];
    }
  }

  lemma RoundBringsCloser(s: Streamer, round: seq<Event>, k: nat)
    requires ClockOk(s) && k < |s.queue| && (Idle(s) || Advancing(s, round) >= 1)
    ensures Closer(s, k, Run(s, round), Grants(s, round), 1)
  {
    AheadShrinks(s, round, k);
  }

  lemma {:induction false} WaiterComesCloser(s: Streamer, rounds: seq<seq<Event>>, k: nat)
    requires ClockOk(s) && Fair(s, rounds) && k < |s.queue|
    ensures Closer(s, k, Run(s, Flatten(rounds)), Grants(s, Flatten(rounds)), |rounds|)
  {
    if rounds != [] {
      var front, last := rounds[..|rounds| - 1], rounds[|rounds| - 1];
      var mid, g := Run(s, Flatten(front)), Grants(s, Flatten(front));
      WaiterComesCloser(s, front, k);
      OneMoreRound(s, rounds);
      GrantsAppend(s, Flatten(front), last);
      if g <= k {
        ClockReachable(s, Flatten(front));
        WaitersKeepTheirPlace(s, Flatten(front), k);
        RoundBringsCloser(mid, last, k - g);
      }
      CloserStill(s, k, mid, g, |front|, Run(mid, last), Grants(mid, last), 1);
    }
  }

  /** First come, first served: on every fair schedule, however many utterances keep arriving, the
      k-th waiter has the lock within 1204 (k + 1) rounds. */
  lemma {:induction false} EveryWaiterGetsTheLock(s: Streamer, rounds: seq<seq<Event>>, k: nat)
    requires ClockOk(s) && Fair(s, rounds) && k < |s.queue| && |rounds| >= Jobs(k + 1)
    ensures Grants(s, Flatten(rounds)) > k
  {
    WaiterComesCloser(s, rounds, k);
    assert HolderWork(s.holder) < Jobs(1);
  }
}
