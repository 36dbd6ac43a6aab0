/** Whole-run laws of the utterance machine. */
module RimeLaws {
  import opened Common
  import opened Pcm
  import opened Carry
  import opened Rime

  // ---- the invariant ---------------------------------------------------------------

  ghost predicate Increasing(xs: seq<nat>) {
    forall i, j | 0 <= i < j < |xs| :: xs[i] < xs[j]
  }

  ghost predicate UpTo(xs: seq<nat>, bound: nat) {
    forall x | x in xs :: x <= bound
  }

  /** Only the last fired token is remembered, yet it is the largest that ever fired. */
  ghost predicate DonesOk(s: Streamer) {
    && Increasing(s.dones)
    && UpTo(s.dones, s.current)
    && s.fired == (if s.dones == [] then None else Some(s.dones[|s.dones| - 1]))
  }

  predicate HolderOwns(h: Holder, token: nat) {
    match h
    case Free => false
    case Connecting(job) => job == Synth(token)
    case Sending(t) => t == token
    case Polling(t, _, _) => t == token
  }

  /** Some task still carries the current utterance to its end. */
  ghost predicate Owned(s: Streamer) {
    Synth(s.current) in s.queue || HolderOwns(s.holder, s.current)
  }

  ghost predicate FlagsOk(s: Streamer) {
    && (s.active ==> !s.dropped && s.current > 0 && s.fired != Some(s.current))
    && (s.current > 0 && s.fired != Some(s.current) ==> Owned(s))
    && (s.fired.Some? ==> s.fired.value <= s.current)
  }

  ghost predicate AudioOk(s: Streamer) {
    |s.carry| <= 1 && AllEven(s.forwarded)
  }

  lemma FireDoneKeeps(s: Streamer, token: nat)
    requires DonesOk(s)
    ensures DonesOk(FireDone(s, token))
    ensures FireDone(s, token).dones != s.dones ==> token == s.current && token !in s.dones
  {
    if token == s.current && s.fired != Some(token) && s.dones != [] {
      var last := s.dones[|s.dones| - 1];
      assert last in s.dones && last < token;
      forall x | x in s.dones ensures x <= last {
        var i :| 0 <= i < |s.dones| && s.dones[i] == x;
      }
    }
  }

  /** What an event does to the completion record: nothing, a new utterance, or one _fire_done. */
  ghost predicate Completes(s: Streamer, s': Streamer, token: Option<nat>) {
    match token
    case Some(t) =>
      s'.dones == FireDone(s, t).dones && s'.fired == FireDone(s, t).fired && s'.current == s.current
    case None => s'.dones == s.dones && s'.fired == s.fired
  }

  /** The lock-holding task completes with its own token. */
  lemma LockCompletionOf(s: Streamer, e: Event) returns (token: Option<nat>)
    requires e.Acquire? || e.Connected? || e.SendDone? || e.Poll?
    ensures Completes(s, Next(s, e), token) && Next(s, e).current == s.current
  {
    token := None;
    match e
    case Acquire =>
      if s.holder.Free? && s.queue != [] && s.queue[0].Synth? && !s.ws.NoSocket? && (!s.ws.Open? || !s.active) {
        token := Some(s.queue[0].token);
      }
    case Connected(ok) =>
      if s.holder.Connecting? && s.holder.job.Synth? && (!ok || !s.active) { token := Some(s.holder.job.token); }
    case SendDone(ok, now) =>
      if s.holder.Sending? {
        var sent := s.(sent := Some(s.holder.token));
        if !ok || !Watch(sent, s.holder.token, now, now).holder.Polling? { token := Some(s.holder.token); }
      }
    case Poll(now) =>
      if s.holder.Polling? && now >= s.holder.last + 0.05
        && !Watch(s, s.holder.token, s.holder.sentAt, now).holder.Polling? { token := Some(s.holder.token); }
  }

  /** Every completion goes through _fire_done, with the token the event is about. */
  lemma CompletionOf(s: Streamer, e: Event) returns (token: Option<nat>)
    ensures Completes(s, Next(s, e), token)
    ensures Next(s, e).current == s.current + (if e.Speak? then 1 else 0)
    ensures e.DoneMsg? || e.ReaderEnds? || e.Chunk? ==> token.None? || token == s.sent
    ensures e.Speak? || e.Cancel? || e.RunClear? ==> token.None?
  {
    token := None;
    if e.Acquire? || e.Connected? || e.SendDone? || e.Poll? {
      token := LockCompletionOf(s, e);
      return;
    }
    match e
    case RunFire => if s.fires != [] { token := Some(s.fires[0]); }
    case Chunk(raw, now) => if s.readers > 0 && !s.dropped && raw.None? { token := s.sent; }
    case DoneMsg(_) => if s.readers > 0 { token := s.sent; }
    case ReaderEnds => if s.readers > 0 { token := s.sent; }
    case Speak =>
    case Cancel =>
    case StartWarmUp =>
    case RunClear =>
    case SocketCloses =>
    case CloseBegins =>
    case CloseEnds =>
  }

  lemma DonesStep(s: Streamer, e: Event)
    requires DonesOk(s)
    ensures DonesOk(Next(s, e))
    ensures Next(s, e).dones == s.dones || (Next(s, e).dones == s.dones + [s.current] && s.current !in s.dones)
  {
    var token := CompletionOf(s, e);
    if token.Some? {
      FireDoneKeeps(s, token.value);
    }
  }

  lemma LaunchFlags(s: Streamer, token: nat)
    requires FlagsOk(s.(holder := Sending(token)))
    ensures FlagsOk(Launch(s, token))
  {
  }

  lemma WatchFlags(s: Streamer, token: nat, sentAt: real, now: real)
    requires FlagsOk(s) && HolderOwns(s.holder, token) && s.holder != Connecting(Synth(token))
    ensures FlagsOk(Watch(s, token, sentAt, now))
  {
  }

  lemma AcquireFlags(s: Streamer)
    requires FlagsOk(s)
    ensures FlagsOk(Next(s, Acquire))
  {
    if s.holder.Free? && s.queue != [] {
      var head, rest := s.queue[0], s.(queue := s.queue[1..]);
      assert s.queue == [head] + s.queue[1..];
      if head.Synth? {
        assert FlagsOk(rest.(holder := Sending(head.token)));
        LaunchFlags(rest, head.token);
      }
    }
  }

  lemma ConnectedFlags(s: Streamer, ok: bool)
    requires FlagsOk(s)
    ensures FlagsOk(Next(s, Connected(ok)))
  {
    if s.holder.Connecting? && s.holder.job.Synth? {
      assert FlagsOk(Wired(s).(holder := Sending(s.holder.job.token)));
      LaunchFlags(Wired(s), s.holder.job.token);
    }
  }

  lemma SendDoneFlags(s: Streamer, ok: bool, now: real)
    requires FlagsOk(s)
    ensures FlagsOk(Next(s, SendDone(ok, now)))
  {
    if s.holder.Sending? {
      WatchFlags(s.(sent := Some(s.holder.token)), s.holder.token, now, now);
    }
  }

  lemma FlagsStep(s: Streamer, e: Event)
    requires FlagsOk(s)
    ensures FlagsOk(Next(s, e))
  {
    match e
    case Acquire => AcquireFlags(s);
    case Connected(ok) => ConnectedFlags(s, ok);
    case SendDone(ok, now) => SendDoneFlags(s, ok, now);
    case Poll(now) =>
      if s.holder.Polling? { WatchFlags(s, s.holder.token, s.holder.sentAt, now); }
    case Speak => assert Synth(s.current + 1) in Next(s, e).queue;
    case Cancel =>
    case StartWarmUp =>
    case RunFire =>
    case RunClear =>
    case Chunk(_, _) =>
    case DoneMsg(_) =>
    case ReaderEnds =>
    case SocketCloses =>
    case CloseBegins =>
    case CloseEnds =>
  }

  lemma AudioStep(s: Streamer, e: Event)
    requires AudioOk(s)
    ensures AudioOk(Next(s, e))
  {
    match e
    case Speak =>
    case Cancel =>
    case StartWarmUp =>
    case Acquire =>
    case Connected(_) =>
    case SendDone(_, _) =>
    case Poll(_) =>
    case RunFire =>
    case RunClear =>
    case Chunk(_, _) =>
    case DoneMsg(_) =>
    case ReaderEnds =>
    case SocketCloses =>
    case CloseBegins =>
    case CloseEnds =>
  }

  /** The tokens whose text was sent, is about to be, or may still be: in the order of the speaks. */
  function Pipeline(s: Streamer): seq<nat> {
    s.wire + (if s.holder.Connecting? && s.holder.job.Synth? then [s.holder.job.token] else []) + Tokens(s.queue)
  }

  function Tokens(jobs: seq<Job>): seq<nat> {
    if jobs == [] then []
    else Tokens(jobs[..|jobs| - 1]) + (if jobs[|jobs| - 1].Synth? then [jobs[|jobs| - 1].token] else [])
  }

  ghost predicate OrderOk(s: Streamer) {
    Increasing(Pipeline(s)) && UpTo(Pipeline(s), s.current)
  }

  lemma {:induction false} TokensUncons(job: Job, jobs: seq<Job>)
    ensures Tokens([job] + jobs) == (if job.Synth? then [job.token] else []) + Tokens(jobs)
  {
    if jobs == [] {
      assert [job] + jobs == [job] && [job][..0] == [];
    } else {
      var front := jobs[..|jobs| - 1];
      TokensUncons(job, front);
      assert ([job] + jobs)[..|jobs|] == [job] + front;
    }
  }

  lemma TokensSnoc(jobs: seq<Job>, job: Job)
    ensures Tokens(jobs + [job]) == Tokens(jobs) + (if job.Synth? then [job.token] else [])
  {
    assert (jobs + [job])[..|jobs|] == jobs;
  }

  lemma DropOne(a: seq<nat>, x: nat, b: seq<nat>, bound: nat)
    requires Increasing(a + [x] + b) && UpTo(a + [x] + b, bound)
    ensures Increasing(a + b) && UpTo(a + b, bound)
  {
    var xs, ys := a + [x] + b, a + b;
    forall i, j | 0 <= i < j < |ys| ensures ys[i] < ys[j] {
      assert ys[i] == xs[if i < |a| then i else i + 1];
      assert ys[j] == xs[if j < |a| then j else j + 1];
    }
    forall y | y in ys ensures y <= bound {
      assert y in xs;
    }
  }

  /** What a task that just got the lock can do to the wire and the holder. */
  ghost predicate Begun(s: Streamer, job: Job, s': Streamer) {
    && s'.queue == s.queue
    && (|| (s'.wire == s.wire && (s'.holder == Connecting(job) || s'.holder.Free?))
        || (job.Synth? && s'.wire == s.wire + [job.token] && s'.holder.Sending?))
  }

  lemma BeginBegins(s: Streamer, job: Job)
    ensures Begun(s, job, Begin(s, job))
  {
  }

  lemma BegunPipeline(s: Streamer, job: Job, s': Streamer)
    requires !s.holder.Connecting? && Begun(s, job, s')
    ensures var x := if job.Synth? then [job.token] else [];
      Pipeline(s') == s.wire + x + Tokens(s.queue) || Pipeline(s') == s.wire + Tokens(s.queue)
  {
    assert s.wire + [] == s.wire && s'.wire + [] == s'.wire;
  }

  lemma AcquirePipeline(s: Streamer) returns (a: seq<nat>, x: nat, b: seq<nat>)
    ensures var p, p' := Pipeline(s), Pipeline(Next(s, Acquire)); p' == p || (p == a + [x] + b && p' == a + b)
  {
    a, x, b := [], 0, [];
    if s.holder.Free? && s.queue != [] {
      var head, rest := s.queue[0], s.queue[1..];
      TokensUncons(head, rest);
      assert s.queue == [head] + rest;
      BeginBegins(s.(queue := rest), head);
      BegunPipeline(s.(queue := rest), head, Next(s, Acquire));
      WaitingPipeline(s, head, rest);
      if head.Synth? {
        a, x, b := s.wire, head.token, Tokens(rest);
      }
    }
  }

  lemma WaitingPipeline(s: Streamer, head: Job, rest: seq<Job>)
    requires s.holder.Free? && Tokens(s.queue) == (if head.Synth? then [head.token] else []) + Tokens(rest)
    ensures Pipeline(s) == s.wire + (if head.Synth? then [head.token] else []) + Tokens(rest)
  {
    assert s.wire + [] == s.wire;
  }

  lemma ConnectedPipeline(s: Streamer, ok: bool) returns (a: seq<nat>, x: nat, b: seq<nat>)
    ensures var p, p' := Pipeline(s), Pipeline(Next(s, Connected(ok))); p' == p || (p == a + [x] + b && p' == a + b)
  {
    a, x, b := [], 0, [];
    if s.holder.Connecting? && s.holder.job.Synth? {
      a, x, b := s.wire, s.holder.job.token, Tokens(s.queue);
      assert Pipeline(s) == a + [x] + b;
    }
  }

  lemma LockUntouched(s: Streamer, e: Event)
    requires !e.Speak? && !e.Acquire? && !e.Connected?
    ensures var s' := Next(s, e);
      && s'.wire == s.wire
      && (s'.queue == s.queue || s'.queue == s.queue + [WarmUp])
      && (s'.holder == s.holder || (!s.holder.Connecting? && !s'.holder.Connecting?))
  {
    match e
    case Cancel =>
    case StartWarmUp =>
    case SendDone(_, _) =>
    case Poll(_) =>
    case RunFire =>
    case RunClear =>
    case Chunk(_, _) =>
    case DoneMsg(_) =>
    case ReaderEnds =>
    case SocketCloses =>
    case CloseBegins =>
    case CloseEnds =>
  }

  lemma QuietPipeline(s: Streamer, e: Event)
    requires !e.Speak? && !e.Acquire? && !e.Connected?
    ensures Pipeline(Next(s, e)) == Pipeline(s)
  {
    LockUntouched(s, e);
    TokensSnoc(s.queue, WarmUp);
  }

  /** A step leaves the pipeline alone, adds the new utterance, or drops a job that gave up. */
  lemma OrderStep(s: Streamer, e: Event)
    requires OrderOk(s)
    ensures OrderOk(Next(s, e))
  {
    var p, p' := Pipeline(s), Pipeline(Next(s, e));
    var token := CompletionOf(s, e);
    if e.Speak? {
      TokensSnoc(s.queue, Synth(s.current + 1));
      assert p' == p + [s.current + 1];
      assert forall i | 0 <= i < |p| :: p[i] in p && p[i] <= s.current;
    } else if e.Acquire? {
      var a, x, b := AcquirePipeline(s);
      if p' != p { DropOne(a, x, b, s.current); }
    } else if e.Connected? {
      var a, x, b := ConnectedPipeline(s, e.ok);
      if p' != p { DropOne(a, x, b, s.current); }
    } else {
      QuietPipeline(s, e);
    }
  }

  ghost predicate Inv(s: Streamer) {
    DonesOk(s) && FlagsOk(s) && AudioOk(s) && OrderOk(s)
  }

  lemma {:induction false} Reachable(s: Streamer, trace: seq<Event>)
    requires Inv(s)
    ensures Inv(Run(s, trace))
  {
    if trace != [] {
      var mid := Run(s, trace[..|trace| - 1]);
      Reachable(s, trace[..|trace| - 1]);
      DonesStep(mid, trace[|trace| - 1]);
      FlagsStep(mid, trace[|trace| - 1]);
      AudioStep(mid, trace[|trace| - 1]);
      OrderStep(mid, trace[|trace| - 1]);
    }
  }

  lemma InitInv()
    ensures Inv(Init())
  {
  }

  lemma {:induction false} RunAppend(s: Streamer, a: seq<Event>, b: seq<Event>)
    ensures Run(s, a + b) == Run(Run(s, a), b)
  {
    if b == [] {
      assert a + b == a;
    } else {
      RunAppend(s, a, b[..|b| - 1]);
      assert (a + b)[..|a + b| - 1] == a + b[..|b| - 1];
    }
  }

  // ---- completion ---------------------------------------------------------------------

  /** Once-only completion: in every run on_done fires at most once per utterance, in the order of
      the speaks, and the event that fires it finds that utterance still the current one. */
  lemma {:induction false} CompletionFiresOnce(trace: seq<Event>, e: Event)
    ensures Increasing(Run(Init(), trace).dones)
    ensures var s := Run(Init(), trace);
      Next(s, e).dones == s.dones || (Next(s, e).dones == s.dones + [s.current] && s.current !in s.dones)
  {
    InitInv();
    Reachable(Init(), trace);
    DonesStep(Run(Init(), trace), e);
  }

  /** No utterance is left hanging: once no task waits for or holds the lock, the latest utterance
      has completed, so every utterance has completed or was superseded, and the agent is idle. */
  lemma {:induction false} NothingHangs(trace: seq<Event>)
    ensures var s := Run(Init(), trace);
      s.queue == [] && s.holder.Free? ==> !s.active && (s.current > 0 ==> s.current in s.dones)
  {
    InitInv();
    Reachable(Init(), trace);
  }

  /** Texts reach the socket at most once each and in the order of the speak calls. */
  lemma {:induction false} TextsAreSentInOrder(trace: seq<Event>)
    ensures Increasing(Run(Init(), trace).wire)
  {
    InitInv();
    Reachable(Init(), trace);
    var s := Run(Init(), trace);
    assert s.wire == Pipeline(s)[..|s.wire|];
    forall i, j | 0 <= i < j < |s.wire| ensures s.wire[i] < s.wire[j] {
      assert s.wire[i] == Pipeline(s)[i] && s.wire[j] == Pipeline(s)[j];
    }
  }

  // ---- the drop latch --------------------------------------------------------------------

  ghost predicate NoSpeak(trace: seq<Event>) {
    forall i | 0 <= i < |trace| :: !trace[i].Speak?
  }

  lemma SilentStep(s: Streamer, e: Event)
    requires s.dropped && !s.active && !e.Speak?
    ensures var s' := Next(s, e); s'.dropped && !s'.active && s'.forwarded == s.forwarded && s'.wire == s.wire
  {
    match e
    case _ =>
  }

  lemma {:induction false} StaysSilent(s: Streamer, trace: seq<Event>)
    requires s.dropped && !s.active && NoSpeak(trace)
    ensures var s' := Run(s, trace); s'.dropped && !s'.active && s'.forwarded == s.forwarded && s'.wire == s.wire
  {
    if trace != [] {
      StaysSilent(s, trace[..|trace| - 1]);
      SilentStep(Run(s, trace[..|trace| - 1]), trace[|trace| - 1]);
    }
  }

  /** The drop latch: whatever tasks are pending and whatever the server and the socket do, from a
      cancel to the next speak no frame is forwarded, no text is sent and the agent stays idle. */
  lemma {:induction false} CancelSilences(s: Streamer, trace: seq<Event>)
    requires NoSpeak(trace)
    ensures var s' := Run(Next(s, Cancel), trace);
      s'.forwarded == s.forwarded && s'.wire == s.wire && s'.dropped && !s'.active
  {
    StaysSilent(Next(s, Cancel), trace);
  }

  /** In every reachable state an active agent forwards what it receives. */
  lemma {:induction false} ActiveMeansOpen(trace: seq<Event>)
    ensures var s := Run(Init(), trace); s.active ==> !s.dropped
  {
    InitInv();
    Reachable(Init(), trace);
  }
}
