/** Whole-run laws of the turn-versioning protocol. */
module TurnLaws {
  import opened Common
  import opened Bookings
  import opened ToolClient
  import opened Turns

  // ---- the version counter -----------------------------------------------------

  function Interrupts(trace: seq<Event>): nat {
    if trace == [] then 0
    else Interrupts(trace[..|trace| - 1]) + (if trace[|trace| - 1].Interrupt? then 1 else 0)
  }

  /** Only interrupts move the version, each by one, and each cancels the speech once. */
  lemma {:induction false} VersionCountsInterrupts(cfg: Config, s: TurnState, trace: seq<Event>)
    ensures Run(cfg, s, trace).version == s.version + Interrupts(trace)
    ensures Run(cfg, s, trace).cancels == s.cancels + Interrupts(trace)
  {
    if trace != [] {
      VersionCountsInterrupts(cfg, s, trace[..|trace| - 1]);
    }
  }

  // ---- the pending table -------------------------------------------------------

  /** The calls whose result has not reached _on_tool_result: still running, or raised. */
  function Outstanding(s: TurnState): map<string, int> {
    map id | id in s.tasks && (s.tasks[id].phase.Running? || s.tasks[id].phase.Raised?) :: s.tasks[id].call.version
  }

  lemma PendingArrival(cfg: Config, s: TurnState, id: string)
    requires s.pending == Outstanding(s) && id in s.tasks && s.tasks[id].phase.Running?
    ensures Next(cfg, s, Arrive(id)).pending == Outstanding(Next(cfg, s, Arrive(id)))
  {
    var s' := Next(cfg, s, Arrive(id));
    CallKept(cfg, s, Arrive(id), id);
    assert s'.tasks == s.tasks[id := s'.tasks[id]];
    assert s'.pending == if s'.tasks[id].phase.Raised? then s.pending else s.pending - {id};
  }

  lemma PendingStep(cfg: Config, s: TurnState, e: Event)
    requires s.pending == Outstanding(s)
    ensures Next(cfg, s, e).pending == Outstanding(Next(cfg, s, e))
  {
    match e
    case UserSpeech(_) =>
    case Interrupt(_) =>
    case Dispatch(_, _, _) =>
    case Arrive(id) =>
      if id in s.tasks && s.tasks[id].phase.Running? { PendingArrival(cfg, s, id); }
    case Reply(_, _) =>
  }

  /** The pending hash is exactly the outstanding calls with their dispatch versions. */
  lemma {:induction false} PendingIsOutstanding(cfg: Config, t: Table, trace: seq<Event>)
    ensures var s := Run(cfg, Init(t), trace); s.pending == Outstanding(s)
  {
    if trace != [] {
      PendingIsOutstanding(cfg, t, trace[..|trace| - 1]);
      PendingStep(cfg, Run(cfg, Init(t), trace[..|trace| - 1]), trace[|trace| - 1]);
    }
  }

  // ---- tags ----------------------------------------------------------------------

  ghost predicate TagsInPast(s: TurnState) {
    forall id | id in s.tasks :: s.tasks[id].call.version <= s.version
  }

  lemma {:induction false} TagsStayInPast(cfg: Config, s: TurnState, trace: seq<Event>)
    requires TagsInPast(s)
    ensures TagsInPast(Run(cfg, s, trace))
  {
    if trace != [] {
      TagsStayInPast(cfg, s, trace[..|trace| - 1]);
    }
  }

  /** A dispatched call keeps its tool, arguments and tag. */
  lemma CallKept(cfg: Config, s: TurnState, e: Event, id: string)
    requires id in s.tasks
    ensures id in Next(cfg, s, e).tasks && Next(cfg, s, e).tasks[id].call == s.tasks[id].call
  {
  }

  lemma {:induction false} CallKeptOverRun(cfg: Config, s: TurnState, trace: seq<Event>, id: string)
    requires id in s.tasks
    ensures id in Run(cfg, s, trace).tasks && Run(cfg, s, trace).tasks[id].call == s.tasks[id].call
  {
    if trace != [] {
      CallKeptOverRun(cfg, s, trace[..|trace| - 1], id);
      CallKept(cfg, Run(cfg, s, trace[..|trace| - 1]), trace[|trace| - 1], id);
    }
  }

  /** The call does not raise on this table, and neither does committing what it proposes. */
  predicate Succeeds(cfg: Config, t: Table, call: Call) {
    var result := Perform(cfg.find, t, call.tool, call.args);
    result.Some? && Settle(t, result.value).Some?
  }

  /** A running call whose tool and commit succeed is applied exactly if its tag is current. */
  lemma ArrivalAppliesIffCurrent(cfg: Config, s: TurnState, id: string)
    requires id in s.tasks && s.tasks[id].phase.Running? && Succeeds(cfg, s.table, s.tasks[id].call)
    ensures var s' := Next(cfg, s, Arrive(id)); var call := s.tasks[id].call;
      && (Applied(s'.tasks[id].phase) <==> call.version == s.version)
      && s'.table == (if call.version == s.version then OwnEffect(s.table, call.tool, call.args) else s.table)
  {
    SettledIsOwnEffect(cfg.find, s.table, s.tasks[id].call.tool, s.tasks[id].call.args);
  }

  /** A fresh call whose commit raises is popped, but nothing is logged, confirmed or spoken for it. */
  lemma FailedCommitIsUnlogged(cfg: Config, s: TurnState, id: string)
    requires id in s.tasks && s.tasks[id].phase.Running? && s.tasks[id].call.version == s.version
    requires var result := Perform(cfg.find, s.table, s.tasks[id].call.tool, s.tasks[id].call.args);
      result.Some? && Settle(s.table, result.value).None?
    ensures var s' := Next(cfg, s, Arrive(id));
      && s' == s.(pending := s.pending - {id}, tasks := s'.tasks)
      && s'.tasks == s.tasks[id := Task(s.tasks[id].call, CommitFailed)]
  {
  }

  // ---- the event log ---------------------------------------------------------------

  /** The current version an entry records. */
  function VersionField(entry: Entry): Option<int> {
    match entry
    case SpeechStart(v, _) => Some(v)
    case InterruptStart(v) => Some(v)
    case TtsCancel(_) => None
    case DispatchEntry(_, _, v) => Some(v)
    case ResultEntry(_, _, _, current, _) => Some(current)
  }

  ghost predicate Ordered(s: TurnState) {
    && (forall i, j | 0 <= i < j < |s.log| && VersionField(s.log[i]).Some? && VersionField(s.log[j]).Some? ::
          VersionField(s.log[i]).value <= VersionField(s.log[j]).value)
    && (forall i | 0 <= i < |s.log| && VersionField(s.log[i]).Some? :: VersionField(s.log[i]).value <= s.version)
  }

  lemma OrderedStep(cfg: Config, s: TurnState, e: Event)
    requires Ordered(s)
    ensures Ordered(Next(cfg, s, e))
  {
    var s' := Next(cfg, s, e);
    assert s.log <= s'.log;
    forall i | 0 <= i < |s'.log| && VersionField(s'.log[i]).Some?
      ensures VersionField(s'.log[i]).value <= s'.version
      ensures i >= |s.log| ==> VersionField(s'.log[i]).value == s'.version
    {
      if i < |s.log| { assert s'.log[i] == s.log[i]; }
    }
    forall i, j | 0 <= i < j < |s'.log| && VersionField(s'.log[i]).Some? && VersionField(s'.log[j]).Some?
      ensures VersionField(s'.log[i]).value <= VersionField(s'.log[j]).value
    {
      if j < |s.log| { assert s'.log[i] == s.log[i] && s'.log[j] == s.log[j]; }
    }
  }

  function InterruptEntries(log: seq<Entry>): nat {
    if log == [] then 0
    else InterruptEntries(log[..|log| - 1]) + (if log[|log| - 1].InterruptStart? then 1 else 0)
  }

  lemma InterruptEntriesSnoc(log: seq<Entry>, entry: Entry)
    ensures InterruptEntries(log + [entry]) == InterruptEntries(log) + (if entry.InterruptStart? then 1 else 0)
  {
    assert (log + [entry])[..|log|] == log;
  }

  /** What a logged result must satisfy at position i of a log. */
  ghost predicate ResultSound(log: seq<Entry>, i: int)
    requires 0 <= i < |log|
  {
    log[i].ResultEntry? ==>
      && (log[i].action.AppliedFresh? <==> log[i].tag == log[i].current)
      && log[i].current == 1 + InterruptEntries(log[..i])
      && DispatchEntry(log[i].id, log[i].tool, log[i].tag) in log[..i]
      && (forall j | 0 <= j < i && log[j].ResultEntry? :: log[j].id != log[i].id)
  }

  /** The logged action a settled call must show. */
  function Verdict(p: Phase): Option<Action> {
    if p.Discarded? then Some(DiscardedStale) else if Applied(p) then Some(AppliedFresh) else None
  }

  ghost predicate DispatchesLogged(s: TurnState) {
    forall id | id in s.tasks :: DispatchEntry(id, s.tasks[id].call.tool, s.tasks[id].call.version) in s.log
  }

  ghost predicate ResultsMatchTasks(s: TurnState) {
    forall entry | entry in s.log && entry.ResultEntry? ::
      && entry.id in s.tasks
      && entry.tag == s.tasks[entry.id].call.version
      && Verdict(s.tasks[entry.id].phase) == Some(entry.action)
  }

  /** How the log and the tasks describe each other. */
  ghost predicate LogMatchesTasks(s: TurnState) {
    s.version == 1 + InterruptEntries(s.log) && DispatchesLogged(s) && ResultsMatchTasks(s)
  }

  ghost predicate LogSound(s: TurnState) {
    && LogMatchesTasks(s)
    && (forall i | 0 <= i < |s.log| :: ResultSound(s.log, i))
  }

  /** The one entry an event other than an interrupt can log. */
  ghost predicate Loggable(s: TurnState, e: Event, entry: Entry) {
    match entry
    case ResultEntry(id, tool, tag, current, action) =>
      && e == Arrive(id)
      && id in s.tasks && s.tasks[id].phase.Running?
      && tool == s.tasks[id].call.tool && tag == s.tasks[id].call.version && current == s.version
      && (action.AppliedFresh? <==> tag == current)
    case DispatchEntry(id, tool, version) =>
      e.Dispatch? && id == e.id && tool == e.tool && version == s.version && id !in s.tasks
    case SpeechStart(version, _) => version == s.version
    case _ => false
  }

  /** An interrupt logs two entries, a speech start and a fresh dispatch one, an arrival at most one. */
  lemma EntriesLogged(cfg: Config, s: TurnState, e: Event) returns (more: seq<Entry>)
    ensures Next(cfg, s, e).log == s.log + more
    ensures e.Interrupt? ==> more == [InterruptStart(s.version + 1), TtsCancel(e.reason)]
    ensures e.UserSpeech? ==> more == [SpeechStart(s.version, e.transcript)]
    ensures e.Dispatch? ==> more == if e.id in s.tasks then [] else [DispatchEntry(e.id, e.tool, s.version)]
    ensures !e.Interrupt? ==> more == [] || (|more| == 1 && Loggable(s, e, more[0]))
    ensures Next(cfg, s, e).version == s.version + (if e.Interrupt? then 1 else 0)
  {
    more := Next(cfg, s, e).log[|s.log|..];
    match e
    case UserSpeech(_) =>
    case Interrupt(_) =>
    case Dispatch(_, _, _) =>
    case Arrive(_) =>
    case Reply(_, _) =>
  }

  lemma CountEntries(log: seq<Entry>, more: seq<Entry>)
    requires |more| <= 2 && (|more| == 2 ==> !more[1].InterruptStart?)
    ensures InterruptEntries(log + more)
         == InterruptEntries(log) + (if more != [] && more[0].InterruptStart? then 1 else 0)
  {
    if |more| == 0 {
      assert log + more == log;
    } else if |more| == 1 {
      InterruptEntriesSnoc(log, more[0]);
      assert log + more == log + [more[0]];
    } else {
      InterruptEntriesSnoc(log, more[0]);
      InterruptEntriesSnoc(log + [more[0]], more[1]);
      assert log + more == log + [more[0]] + [more[1]];
    }
  }

  lemma CountStep(cfg: Config, s: TurnState, e: Event)
    requires s.version == 1 + InterruptEntries(s.log)
    ensures Next(cfg, s, e).version == 1 + InterruptEntries(Next(cfg, s, e).log)
  {
    var more := EntriesLogged(cfg, s, e);
    CountEntries(s.log, more);
  }

  lemma DispatchesLoggedStep(cfg: Config, s: TurnState, e: Event)
    requires DispatchesLogged(s)
    ensures DispatchesLogged(Next(cfg, s, e))
  {
    var s' := Next(cfg, s, e);
    var more := EntriesLogged(cfg, s, e);
    forall id | id in s'.tasks
      ensures DispatchEntry(id, s'.tasks[id].call.tool, s'.tasks[id].call.version) in s'.log
    {
      if id in s.tasks {
        CallKept(cfg, s, e, id);
      }
    }
  }

  lemma ResultsMatchArrival(cfg: Config, s: TurnState, id: string)
    requires ResultsMatchTasks(s)
    requires id in s.tasks && s.tasks[id].phase.Running?
    ensures ResultsMatchTasks(Next(cfg, s, Arrive(id)))
  {
    var s' := Next(cfg, s, Arrive(id));
    var more := EntriesLogged(cfg, s, Arrive(id));
    forall entry | entry in s'.log && entry.ResultEntry?
      ensures entry.id in s'.tasks && entry.tag == s'.tasks[entry.id].call.version
      ensures Verdict(s'.tasks[entry.id].phase) == Some(entry.action)
    {
      if entry in s.log {
        assert entry.id != id;
      } else {
        assert entry == more[0];
      }
    }
  }

  lemma ResultsMatchOther(cfg: Config, s: TurnState, e: Event)
    requires ResultsMatchTasks(s) && !e.Arrive?
    ensures ResultsMatchTasks(Next(cfg, s, e))
  {
    var s' := Next(cfg, s, e);
    var more := EntriesLogged(cfg, s, e);
    forall entry | entry in s'.log && entry.ResultEntry?
      ensures entry.id in s'.tasks && entry.tag == s'.tasks[entry.id].call.version
      ensures Verdict(s'.tasks[entry.id].phase) == Some(entry.action)
    {
      assert entry in s.log;
    }
  }

  lemma MatchesStep(cfg: Config, s: TurnState, e: Event)
    requires LogMatchesTasks(s)
    ensures LogMatchesTasks(Next(cfg, s, e))
  {
    CountStep(cfg, s, e);
    DispatchesLoggedStep(cfg, s, e);
    match e
    case Arrive(id) =>
      if id in s.tasks && s.tasks[id].phase.Running? {
        ResultsMatchArrival(cfg, s, id);
      }
    case _ => ResultsMatchOther(cfg, s, e);
  }

  lemma SoundPrefix(log: seq<Entry>, more: seq<Entry>, i: int)
    requires 0 <= i < |log| && ResultSound(log, i)
    ensures ResultSound(log + more, i)
  {
    assert (log + more)[..i] == log[..i];
  }

  lemma NewResultSound(s: TurnState, e: Event, entry: Entry)
    requires LogSound(s) && Loggable(s, e, entry) && entry.ResultEntry?
    ensures ResultSound(s.log + [entry], |s.log|)
  {
    var log := s.log + [entry];
    assert log[..|s.log|] == s.log;
    assert Verdict(s.tasks[entry.id].phase).None?;
    forall j | 0 <= j < |s.log| && log[j].ResultEntry? ensures log[j].id != entry.id {
      assert log[j] == s.log[j] && s.log[j] in s.log;
    }
  }

  /** A log stays sound when the entries one event adds are. */
  lemma SoundAppend(s: TurnState, e: Event, more: seq<Entry>)
    requires LogSound(s)
    requires e.Interrupt? ==> more == [InterruptStart(s.version + 1), TtsCancel(e.reason)]
    requires !e.Interrupt? ==> more == [] || (|more| == 1 && Loggable(s, e, more[0]))
    ensures forall i | 0 <= i < |s.log + more| :: ResultSound(s.log + more, i)
  {
    forall i | 0 <= i < |s.log + more| ensures ResultSound(s.log + more, i) {
      if i < |s.log| {
        SoundPrefix(s.log, more, i);
      } else if (s.log + more)[i].ResultEntry? {
        assert i == |s.log| && more == [more[0]];
        NewResultSound(s, e, more[0]);
      }
    }
  }

  lemma SoundStep(cfg: Config, s: TurnState, e: Event)
    requires LogSound(s)
    ensures LogSound(Next(cfg, s, e))
  {
    MatchesStep(cfg, s, e);
    var more := EntriesLogged(cfg, s, e);
    SoundAppend(s, e, more);
  }

  /** The log of every run: version fields never decrease; a result is applied exactly when its
      tag equals the version at its arrival; that version is one more than the interrupts
      logged before it; the tag is the one logged at the call's dispatch; and no call gets a
      second result. */
  lemma {:induction false} LogLaw(cfg: Config, t: Table, trace: seq<Event>)
    ensures Ordered(Run(cfg, Init(t), trace))
    ensures LogSound(Run(cfg, Init(t), trace))
  {
    if trace != [] {
      LogLaw(cfg, t, trace[..|trace| - 1]);
      OrderedStep(cfg, Run(cfg, Init(t), trace[..|trace| - 1]), trace[|trace| - 1]);
      SoundStep(cfg, Run(cfg, Init(t), trace[..|trace| - 1]), trace[|trace| - 1]);
    }
  }

  /** Calls are applied in the order of the turns that made them. */
  lemma {:induction false} AppliedTagsNeverDecrease(cfg: Config, t: Table, trace: seq<Event>, i: int, j: int)
    requires var log := Run(cfg, Init(t), trace).log;
      && 0 <= i < j < |log| && log[i].ResultEntry? && log[j].ResultEntry?
      && log[i].action.AppliedFresh? && log[j].action.AppliedFresh?
    ensures var log := Run(cfg, Init(t), trace).log; log[i].tag <= log[j].tag
  {
    LogLaw(cfg, t, trace);
    var log := Run(cfg, Init(t), trace).log;
    assert ResultSound(log, i) && ResultSound(log, j);
    assert VersionField(log[i]).value <= VersionField(log[j]).value;
  }

  // ---- stale calls leave no trace ----------------------------------------------------

  /** The calls whose result was logged as discarded_stale. */
  function StaleCalls(log: seq<Entry>): set<string> {
    set entry | entry in log && entry.ResultEntry? && entry.action.DiscardedStale? :: entry.id
  }

  /** Stale erasure: deleting every stale call from a run (its dispatch and its arrival) changes
      nothing but those calls' own log entries: same bookings, same confirmed state, same
      spoken confirmations, same version, same remaining log. */
  lemma {:induction false} StaleErasure(cfg: Config, t: Table, trace: seq<Event>)
    ensures var full := Run(cfg, Init(t), trace);
            var clean := Run(cfg, Init(t), Erase(trace, StaleCalls(full.log)));
      && clean.table == full.table
      && clean.confirmed == full.confirmed
      && clean.spoken == full.spoken
      && clean.version == full.version
      && clean.log == EraseLog(full.log, StaleCalls(full.log))
  {
    var full := Run(cfg, Init(t), trace);
    var E := StaleCalls(full.log);
    LogLaw(cfg, t, trace);
    EraseUnapplied(cfg, Init(t), trace, E);
    assert Without(Init(t), E) == Init(t);
  }

  // ---- only the latest request counts ----------------------------------------------

  ghost predicate Outdated(s: TurnState, E: set<string>) {
    forall id | id in E :: id in s.tasks && s.tasks[id].call.version < s.version && !Applied(s.tasks[id].phase)
  }

  lemma OutdatedStep(cfg: Config, s: TurnState, e: Event, id: string)
    requires id in s.tasks && s.tasks[id].call.version < s.version && !Applied(s.tasks[id].phase)
    ensures var s' := Next(cfg, s, e);
      id in s'.tasks && s'.tasks[id].call.version < s'.version && !Applied(s'.tasks[id].phase)
  {
    match e
    case UserSpeech(_) =>
    case Interrupt(_) =>
    case Dispatch(_, _, _) =>
    case Arrive(_) =>
    case Reply(_, _) =>
  }

  /** A call from an earlier turn that was not applied yet never will be. */
  lemma {:induction false} OutdatedForever(cfg: Config, s: TurnState, trace: seq<Event>, E: set<string>)
    requires Outdated(s, E)
    ensures Outdated(Run(cfg, s, trace), E)
  {
    if trace != [] {
      var mid := Run(cfg, s, trace[..|trace| - 1]);
      OutdatedForever(cfg, s, trace[..|trace| - 1], E);
      forall id | id in E
        ensures var s' := Run(cfg, s, trace);
          id in s'.tasks && s'.tasks[id].call.version < s'.version && !Applied(s'.tasks[id].phase)
      {
        OutdatedStep(cfg, mid, trace[|trace| - 1], id);
      }
    }
  }

  ghost predicate NothingApplied(s: TurnState) {
    forall id | id in s.tasks :: !Applied(s.tasks[id].phase)
  }

  lemma {:induction false} NothingAppliedNothingChanged(cfg: Config, t: Table, trace: seq<Event>)
    requires NothingApplied(Run(cfg, Init(t), trace))
    ensures var s := Run(cfg, Init(t), trace); s.table == t && s.confirmed.None? && s.spoken == []
  {
    if trace != [] {
      var front, last := trace[..|trace| - 1], trace[|trace| - 1];
      var mid := Run(cfg, Init(t), front);
      forall id | id in mid.tasks ensures !Applied(mid.tasks[id].phase) {
        CallKept(cfg, mid, last, id);
        if Applied(mid.tasks[id].phase) { AppliedStays(cfg, mid, last, id); }
      }
      NothingAppliedNothingChanged(cfg, t, front);
      if last.Arrive? && last.id in mid.tasks {
        CallKept(cfg, mid, last, last.id);
      }
    }
  }

  /** Everything but the log and the cancel count. */
  predicate SameCore(a: TurnState, b: TurnState) {
    a.(log := b.log, cancels := b.cancels) == b
  }

  lemma SameCoreStep(cfg: Config, a: TurnState, b: TurnState, e: Event)
    requires SameCore(a, b)
    ensures SameCore(Next(cfg, a, e), Next(cfg, b, e))
  {
    match e
    case UserSpeech(_) =>
    case Interrupt(_) =>
    case Dispatch(_, _, _) =>
    case Arrive(_) =>
    case Reply(_, _) =>
  }

  lemma {:induction false} LogDoesNotSteer(cfg: Config, a: TurnState, b: TurnState, trace: seq<Event>)
    requires SameCore(a, b)
    ensures SameCore(Run(cfg, a, trace), Run(cfg, b, trace))
  {
    if trace != [] {
      LogDoesNotSteer(cfg, a, b, trace[..|trace| - 1]);
      SameCoreStep(cfg, Run(cfg, a, trace[..|trace| - 1]), Run(cfg, b, trace[..|trace| - 1]), trace[|trace| - 1]);
    }
  }

  lemma RunThrough(cfg: Config, s: TurnState, before: seq<Event>, e: Event, after: seq<Event>)
    ensures Run(cfg, s, before + [e] + after) == Run(cfg, Next(cfg, Run(cfg, s, before), e), after)
  {
    assert (before + [e])[..|before|] == before;
    RunAppend(cfg, s, before + [e], after);
  }

  lemma OutdatedAtInterrupt(cfg: Config, t: Table, before: seq<Event>, reason: string)
    requires NothingApplied(Run(cfg, Init(t), before))
    ensures var s := Run(cfg, Init(t), before); Outdated(Next(cfg, s, Interrupt(reason)), s.tasks.Keys)
  {
    TagsStayInPast(cfg, Init(t), before);
  }

  lemma EraseOutdated(cfg: Config, s: TurnState, trace: seq<Event>, E: set<string>)
    requires Outdated(s, E)
    ensures Run(cfg, Without(s, E), Erase(trace, E)) == Without(Run(cfg, s, trace), E)
  {
    OutdatedForever(cfg, s, trace, E);
    EraseUnapplied(cfg, s, trace, E);
  }

  /** An interrupt before which nothing was applied leaves a fresh session, but for its log. */
  lemma {:induction false} RebornAtInterrupt(cfg: Config, t: Table, before: seq<Event>, reason: string)
    requires NothingApplied(Run(cfg, Init(t), before))
    ensures var s := Run(cfg, Init(t), before);
      SameCore(Without(Next(cfg, s, Interrupt(reason)), s.tasks.Keys), Init(t).(version := 2 + Interrupts(before)))
  {
    var s := Run(cfg, Init(t), before);
    NothingAppliedNothingChanged(cfg, t, before);
    VersionCountsInterrupts(cfg, Init(t), before);
    PendingIsOutstanding(cfg, t, before);
    assert s.tasks - s.tasks.Keys == map[] && s.pending - s.tasks.Keys == map[];
  }

  /** Latest request only: if nothing dispatched before an interrupt was applied by then, the final
      bookings, confirmed state and speech of every continuation are those of a session that
      starts at the interrupt, on the original table, and never hears of the earlier calls. */
  lemma {:induction false} LatestRequestOnly(cfg: Config, t: Table, before: seq<Event>, reason: string, after: seq<Event>)
    requires NothingApplied(Run(cfg, Init(t), before))
    ensures var full := Run(cfg, Init(t), before + [Interrupt(reason)] + after);
            var earlier := Run(cfg, Init(t), before).tasks.Keys;
            var reborn := Init(t).(version := 2 + Interrupts(before));
            var only := Run(cfg, reborn, Erase(after, earlier));
      full.table == only.table && full.confirmed == only.confirmed && full.spoken == only.spoken
  {
    var s := Run(cfg, Init(t), before);
    var E := s.tasks.Keys;
    var s1 := Next(cfg, s, Interrupt(reason));
    RunThrough(cfg, Init(t), before, Interrupt(reason), after);
    OutdatedAtInterrupt(cfg, t, before, reason);
    EraseOutdated(cfg, s1, after, E);
    RebornAtInterrupt(cfg, t, before, reason);
    LogDoesNotSteer(cfg, Without(s1, E), Init(t).(version := 2 + Interrupts(before)), Erase(after, E));
  }

  // ---- what is spoken ------------------------------------------------------------------

  function AppliedVersions(log: seq<Entry>): seq<int> {
    if log == [] then []
    else
      var front, last := log[..|log| - 1], log[|log| - 1];
      if last.ResultEntry? && last.action.AppliedFresh? then AppliedVersions(front) + [last.current]
      else AppliedVersions(front)
  }

  function SpokenVersions(spoken: seq<Utterance>): seq<int> {
    if spoken == [] then [] else SpokenVersions(spoken[..|spoken| - 1]) + [spoken[|spoken| - 1].version]
  }

  lemma AppliedVersionsSnoc(log: seq<Entry>, entry: Entry)
    ensures AppliedVersions(log + [entry])
         == AppliedVersions(log) + (if entry.ResultEntry? && entry.action.AppliedFresh? then [entry.current] else [])
  {
    assert (log + [entry])[..|log|] == log;
  }

  ghost predicate SpeechMatchesLog(s: TurnState) {
    && SpokenVersions(s.spoken) == AppliedVersions(s.log)
    && (forall id | id in s.tasks :: !s.tasks[id].phase.Confirming?)
  }

  /** Without a hook an arrival speaks exactly when it logs an applied result. */
  lemma ArrivalSpeaks(cfg: Config, s: TurnState, id: string)
    requires !cfg.hooked && id in s.tasks && s.tasks[id].phase.Running?
    ensures var s' := Next(cfg, s, Arrive(id)); var call := s.tasks[id].call;
      && s'.tasks == s.tasks[id := s'.tasks[id]] && !s'.tasks[id].phase.Confirming?
      && (|| (s'.spoken == s.spoken && s'.log == s.log)
          || (s'.spoken == s.spoken
              && s'.log == s.log + [ResultEntry(id, call.tool, call.version, s.version, DiscardedStale)])
          || (s'.spoken == s.spoken + [Utterance(s'.spoken[|s'.spoken| - 1].text, s.version)]
              && s'.log == s.log + [ResultEntry(id, call.tool, call.version, s.version, AppliedFresh)]))
  {
  }

  lemma SpokenVersionsSnoc(spoken: seq<Utterance>, u: Utterance)
    ensures SpokenVersions(spoken + [u]) == SpokenVersions(spoken) + [u.version]
  {
    assert (spoken + [u])[..|spoken|] == spoken;
  }

  lemma SpokenArrival(cfg: Config, s: TurnState, id: string)
    requires !cfg.hooked && SpeechMatchesLog(s)
    requires id in s.tasks && s.tasks[id].phase.Running?
    ensures SpeechMatchesLog(Next(cfg, s, Arrive(id)))
  {
    var s' := Next(cfg, s, Arrive(id));
    ArrivalSpeaks(cfg, s, id);
    if s'.log != s.log {
      AppliedVersionsSnoc(s.log, s'.log[|s.log|]);
    }
    if s'.spoken != s.spoken {
      SpokenVersionsSnoc(s.spoken, s'.spoken[|s.spoken|]);
    }
  }

  lemma SpokenInterrupt(cfg: Config, s: TurnState, reason: string)
    requires SpeechMatchesLog(s)
    ensures SpeechMatchesLog(Next(cfg, s, Interrupt(reason)))
  {
    var start, cancel := InterruptStart(s.version + 1), TtsCancel(reason);
    AppliedVersionsSnoc(s.log, start);
    AppliedVersionsSnoc(s.log + [start], cancel);
    assert s.log + [start, cancel] == s.log + [start] + [cancel];
  }

  lemma SpokenSpeech(cfg: Config, s: TurnState, transcript: string)
    requires SpeechMatchesLog(s)
    ensures SpeechMatchesLog(Next(cfg, s, UserSpeech(transcript)))
  {
    AppliedVersionsSnoc(s.log, SpeechStart(s.version, transcript));
  }

  lemma SpokenDispatch(cfg: Config, s: TurnState, id: string, tool: Tool, args: Args)
    requires SpeechMatchesLog(s)
    ensures SpeechMatchesLog(Next(cfg, s, Dispatch(id, tool, args)))
  {
    AppliedVersionsSnoc(s.log, DispatchEntry(id, tool, s.version));
  }

  lemma SpokenStep(cfg: Config, s: TurnState, e: Event)
    requires !cfg.hooked && SpeechMatchesLog(s)
    ensures SpeechMatchesLog(Next(cfg, s, e))
  {
    match e
    case Interrupt(reason) => SpokenInterrupt(cfg, s, reason);
    case UserSpeech(transcript) => SpokenSpeech(cfg, s, transcript);
    case Dispatch(id, tool, args) => SpokenDispatch(cfg, s, id, tool, args);
    case Arrive(id) =>
      if id in s.tasks && s.tasks[id].phase.Running? {
        SpokenArrival(cfg, s, id);
      }
    case Reply(_, _) =>
  }

  /** Without a reply hook the agent speaks exactly once per applied result, in log order and under
      the version current at that moment: nothing stale is ever spoken. */
  lemma {:induction false} SpeechFollowsAppliedResults(cfg: Config, t: Table, trace: seq<Event>)
    requires !cfg.hooked
    ensures SpeechMatchesLog(Run(cfg, Init(t), trace))
  {
    if trace != [] {
      SpeechFollowsAppliedResults(cfg, t, trace[..|trace| - 1]);
      SpokenStep(cfg, Run(cfg, Init(t), trace[..|trace| - 1]), trace[|trace| - 1]);
    }
  }

  lemma {:induction false} HookWaits(cfg: Config, s: TurnState, trace: seq<Event>, id: string)
    requires id in s.tasks && s.tasks[id].phase.Confirming?
    requires id in Run(cfg, s, trace).tasks && Run(cfg, s, trace).tasks[id].phase.Confirming?
    ensures Run(cfg, s, trace).tasks[id] == s.tasks[id]
  {
    if trace != [] {
      var front, last := trace[..|trace| - 1], trace[|trace| - 1];
      var mid := Run(cfg, s, front);
      AppliedStaysOverRun(cfg, s, front, id);
      HookWaits(cfg, s, front, id);
    }
  }

  lemma {:induction false} AppliedStaysOverRun(cfg: Config, s: TurnState, trace: seq<Event>, id: string)
    requires id in s.tasks && Applied(s.tasks[id].phase)
    ensures id in Run(cfg, s, trace).tasks && Applied(Run(cfg, s, trace).tasks[id].phase)
  {
    if trace != [] {
      AppliedStaysOverRun(cfg, s, trace[..|trace| - 1], id);
      AppliedStays(cfg, Run(cfg, s, trace[..|trace| - 1]), trace[|trace| - 1], id);
    }
  }

  /** The utterance is the template over what this state has confirmed. */
  ghost predicate TemplateOver(u: Utterance, tool: Tool, s: TurnState) {
    s.confirmed.Some? && u.text == Rendered(tool, s.confirmed.value)
  }

  /** With a reply hook the version is not checked again after the hook: the confirmation is
      spoken once, under the arrival version, and that version is current exactly when
      no interrupt came while the hook was composing. */
  lemma {:induction false} HookedSpeechIsCurrentIff(cfg: Config, s: TurnState, id: string, meanwhile: seq<Event>,
                                                    text: Option<string>)
    requires id in s.tasks && s.tasks[id].phase.Running?
    requires Next(cfg, s, Arrive(id)).tasks[id].phase.Confirming?
    requires var waiting := Run(cfg, Next(cfg, s, Arrive(id)), meanwhile);
      id in waiting.tasks && waiting.tasks[id].phase.Confirming?
    ensures var waiting := Run(cfg, Next(cfg, s, Arrive(id)), meanwhile);
            var done := Next(cfg, waiting, Reply(id, text));
      && |done.spoken| == |waiting.spoken| + 1
      && done.spoken[..|waiting.spoken|] == waiting.spoken
      && done.spoken[|waiting.spoken|].version == s.version
      && (text.Some? ==> done.spoken[|waiting.spoken|].text == Composed(text.value))
      && (text.None? ==> TemplateOver(done.spoken[|waiting.spoken|], s.tasks[id].call.tool, Next(cfg, s, Arrive(id))))
      && (done.spoken[|waiting.spoken|].version == done.version <==> Interrupts(meanwhile) == 0)
  {
    var arrived := Next(cfg, s, Arrive(id));
    HookWaits(cfg, arrived, meanwhile, id);
    VersionCountsInterrupts(cfg, arrived, meanwhile);
  }

  /** A run where the hooked confirmation is spoken under a version that is no longer current. */
  lemma HookedSpeechCanBeStale(find: Finder, t: Table)
    ensures var name := Some(Some("Asha"));
            var args := Args(None, map[], name, name, name, None, None);
            var trace := [Dispatch("tc_1", CreateBooking, args), Arrive("tc_1"), Interrupt("barge_in"), Reply("tc_1", None)];
            var s := Run(Config(true, find), Init(t), trace);
      |s.spoken| == 1 && s.spoken[0].version == 1 && s.version == 2
  {
    var name := Some(Some("Asha"));
    var args := Args(None, map[], name, name, name, None, None);
    var trace := [Dispatch("tc_1", CreateBooking, args), Arrive("tc_1"), Interrupt("barge_in"), Reply("tc_1", None)];
    var cfg := Config(true, find);
    var s1 := Next(cfg, Init(t), trace[0]);
    var s2 := Next(cfg, s1, trace[1]);
    var s3 := Next(cfg, s2, trace[2]);
    assert trace[..1][..0] == [] && trace[..2][..1] == trace[..1] && trace[..3][..2] == trace[..2] && trace[..4] == trace;
    assert Run(cfg, Init(t), trace[..0]) == Init(t);
    assert Run(cfg, Init(t), trace[..1]) == s1;
    assert Run(cfg, Init(t), trace[..2]) == s2;
    assert Run(cfg, Init(t), trace[..3]) == s3;
    assert s2.tasks["tc_1"].phase.Confirming?;
  }
}
