/** agent/turn_manager.py: the turn-versioning protocol as a step function over arbitrary traces.

    One event is one uninterrupted segment of the event loop. An event that cannot happen in the
    current state (a second dispatch under a call id already used, the arrival of a call that is
    not running) leaves the state alone, so every sequence of events is a run. */
module Turns {
  import opened Common
  import opened Bookings
  import opened ToolClient

  datatype Call = Call(tool: Tool, args: Args, version: int)

  datatype Phase =
    | Running                                   // dispatched, result not arrived
    | Raised                                    // the tool itself raised
    | Discarded                                 // arrived stale
    | CommitFailed                              // arrived fresh, the commit raised
    | Confirming(payload: Payload, spokenAs: int)  // applied, waiting for the reply hook
    | Finished                                  // applied and confirmed

  predicate Applied(p: Phase) {
    p.Confirming? || p.Finished?
  }

  datatype Task = Task(call: Call, phase: Phase)

  /** The confirmation: the render template, or the text the reply hook composed. */
  datatype Text = Rendered(tool: Tool, payload: Payload) | Composed(text: string)

  datatype Utterance = Utterance(text: Text, version: int)

  datatype Action = DiscardedStale | AppliedFresh

  /** The entries of the event log, without their timestamps. */
  datatype Entry =
    | SpeechStart(version: int, transcript: string)
    | InterruptStart(version: int)
    | TtsCancel(reason: string)
    | DispatchEntry(id: string, tool: Tool, version: int)
    | ResultEntry(id: string, tool: Tool, tag: int, current: int, action: Action)

  datatype TurnState = TurnState(
    version: int,                    // turn_version
    pending: map<string, int>,       // pending_tools
    confirmed: Option<Payload>,      // last confirmed state
    table: Table,                    // the bookings
    tasks: map<string, Task>,        // spawned calls by call id
    spoken: seq<Utterance>,
    cancels: nat,
    log: seq<Entry>)

  datatype Event =
    | UserSpeech(transcript: string)
    | Interrupt(reason: string)
    | Dispatch(id: string, tool: Tool, args: Args)
    | Arrive(id: string)                          // the delay is over
    | Reply(id: string, text: Option<string>)     // the reply hook returned, or raised

  /** `hooked` says whether a reply hook is installed. */
  datatype Config = Config(hooked: bool, find: Finder)

  /** A manager over a reset and created session. */
  function Init(t: Table): TurnState {
    TurnState(1, map[], None, t, map[], [], 0, [])
  }

  function Next(cfg: Config, s: TurnState, e: Event): TurnState {
    match e
    case UserSpeech(transcript) => s.(log := s.log + [SpeechStart(s.version, transcript)])
    case Interrupt(reason) =>
      s.(version := s.version + 1, cancels := s.cancels + 1,
         log := s.log + [InterruptStart(s.version + 1), TtsCancel(reason)])
    case Dispatch(id, tool, args) =>
      if id in s.tasks then s
      else s.(pending := s.pending[id := s.version],
              tasks := s.tasks[id := Task(Call(tool, args, s.version), Running)],
              log := s.log + [DispatchEntry(id, tool, s.version)])
    case Arrive(id) =>
      if id in s.tasks && s.tasks[id].phase.Running? then Arrival(cfg, s, id, s.tasks[id].call) else s
    case Reply(id, text) =>
      if id in s.tasks && s.tasks[id].phase.Confirming? then Confirmation(s, id, text) else s
  }

  function SetPhase(s: TurnState, id: string, phase: Phase): TurnState
    requires id in s.tasks
  {
    s.(tasks := s.tasks[id := s.tasks[id].(phase := phase)])
  }

  /** _execute from the end of the delay: run, pop the tag, compare, apply or discard. */
  function Arrival(cfg: Config, s: TurnState, id: string, call: Call): TurnState
    requires id in s.tasks
  {
    match Perform(cfg.find, s.table, call.tool, call.args)
    case None => SetPhase(s, id, Raised)
    case Some(result) =>
      var popped := s.(pending := s.pending - {id});
      if call.version != s.version then
        SetPhase(popped, id, Discarded)
          .(log := s.log + [ResultEntry(id, call.tool, call.version, s.version, DiscardedStale)])
      else
        match Settle(s.table, result)
        case None => SetPhase(popped, id, CommitFailed)
        case Some((table, payload)) => ApplyFreshly(cfg, popped.(table := table), id, call, payload)
  }

  /** The end of a fresh result's arrival: confirm, log, and speak or wait for the reply hook. */
  function ApplyFreshly(cfg: Config, s: TurnState, id: string, call: Call, payload: Payload): TurnState
    requires id in s.tasks
  {
    var phase := if cfg.hooked then Confirming(payload, s.version) else Finished;
    var said := if cfg.hooked then [] else [Utterance(Rendered(call.tool, payload), s.version)];
    SetPhase(s, id, phase)
      .(confirmed := Some(payload), spoken := s.spoken + said,
        log := s.log + [ResultEntry(id, call.tool, call.version, s.version, AppliedFresh)])
  }

  /** _on_tool_result after the reply hook: speak under the version checked on arrival. */
  function Confirmation(s: TurnState, id: string, text: Option<string>): TurnState
    requires id in s.tasks && s.tasks[id].phase.Confirming?
  {
    var task := s.tasks[id];
    var said := if text.Some? then Composed(text.value) else Rendered(task.call.tool, task.phase.payload);
    SetPhase(s, id, Finished).(spoken := s.spoken + [Utterance(said, task.phase.spokenAs)])
  }

  function Run(cfg: Config, s: TurnState, trace: seq<Event>): TurnState {
    if trace == [] then s else Next(cfg, Run(cfg, s, trace[..|trace| - 1]), trace[|trace| - 1])
  }

  lemma {:induction false} RunAppend(cfg: Config, s: TurnState, a: seq<Event>, b: seq<Event>)
    ensures Run(cfg, s, a + b) == Run(cfg, Run(cfg, s, a), b)
  {
    if b == [] {
      assert a + b == a;
    } else {
      RunAppend(cfg, s, a, b[..|b| - 1]);
      assert (a + b)[..|a + b| - 1] == a + b[..|b| - 1];
    }
  }

  // ---- erasing calls from a run --------------------------------------------------

  /** The event belongs to one of the calls in E. */
  predicate About(e: Event, E: set<string>) {
    match e
    case Dispatch(id, _, _) => id in E
    case Arrive(id) => id in E
    case Reply(id, _) => id in E
    case _ => false
  }

  function Erase(trace: seq<Event>, E: set<string>): seq<Event> {
    if trace == [] then []
    else
      var front, last := trace[..|trace| - 1], trace[|trace| - 1];
      if About(last, E) then Erase(front, E) else Erase(front, E) + [last]
  }

  predicate EntryAbout(entry: Entry, E: set<string>) {
    match entry
    case DispatchEntry(id, _, _) => id in E
    case ResultEntry(id, _, _, _, _) => id in E
    case _ => false
  }

  function EraseLog(log: seq<Entry>, E: set<string>): seq<Entry> {
    if log == [] then []
    else
      var front, last := log[..|log| - 1], log[|log| - 1];
      if EntryAbout(last, E) then EraseLog(front, E) else EraseLog(front, E) + [last]
  }

  lemma EraseLogSnoc(log: seq<Entry>, last: Entry, E: set<string>)
    ensures EraseLog(log + [last], E) == if EntryAbout(last, E) then EraseLog(log, E) else EraseLog(log, E) + [last]
  {
    assert (log + [last])[..|log|] == log;
  }

  /** The state as if the calls in E had never been made. */
  function Without(s: TurnState, E: set<string>): TurnState {
    s.(pending := s.pending - E, tasks := s.tasks - E, log := EraseLog(s.log, E))
  }

  ghost predicate NoneApplied(s: TurnState, E: set<string>) {
    forall id | id in E && id in s.tasks :: !Applied(s.tasks[id].phase)
  }

  /** A call that was applied stays applied. */
  lemma AppliedStays(cfg: Config, s: TurnState, e: Event, id: string)
    requires id in s.tasks && Applied(s.tasks[id].phase)
    ensures id in Next(cfg, s, e).tasks && Applied(Next(cfg, s, e).tasks[id].phase)
  {
  }

  lemma EraseLogTwo(log: seq<Entry>, one: Entry, two: Entry, E: set<string>)
    requires !EntryAbout(one, E) && !EntryAbout(two, E)
    ensures EraseLog(log + [one, two], E) == EraseLog(log, E) + [one, two]
  {
    EraseLogSnoc(log, one, E);
    EraseLogSnoc(log + [one], two, E);
    assert log + [one, two] == log + [one] + [two];
  }

  lemma EraseInterrupt(cfg: Config, s: TurnState, reason: string, E: set<string>)
    ensures Without(Next(cfg, s, Interrupt(reason)), E) == Next(cfg, Without(s, E), Interrupt(reason))
  {
    EraseLogTwo(s.log, InterruptStart(s.version + 1), TtsCancel(reason), E);
  }

  lemma EraseDispatch(cfg: Config, s: TurnState, id: string, tool: Tool, args: Args, E: set<string>)
    ensures Without(Next(cfg, s, Dispatch(id, tool, args)), E)
         == if id in E then Without(s, E) else Next(cfg, Without(s, E), Dispatch(id, tool, args))
  {
    if id !in s.tasks {
      var task := Task(Call(tool, args, s.version), Running);
      EraseLogSnoc(s.log, DispatchEntry(id, tool, s.version), E);
      if id in E {
        assert s.pending[id := s.version] - E == s.pending - E;
        assert s.tasks[id := task] - E == s.tasks - E;
      } else {
        assert s.pending[id := s.version] - E == (s.pending - E)[id := s.version];
        assert s.tasks[id := task] - E == (s.tasks - E)[id := task];
      }
    }
  }

  /** Settling one call commutes with erasing E from the two call tables. */
  lemma EraseSettled(pending: map<string, int>, tasks: map<string, Task>, id: string, task: Task, E: set<string>)
    ensures id in E ==> pending - {id} - E == pending - E && tasks[id := task] - E == tasks - E
    ensures id !in E ==> pending - {id} - E == pending - E - {id} && tasks[id := task] - E == (tasks - E)[id := task]
  {
  }

  lemma EraseArrival(cfg: Config, s: TurnState, id: string, E: set<string>)
    requires id in s.tasks && s.tasks[id].phase.Running?
    requires NoneApplied(Next(cfg, s, Arrive(id)), E)
    ensures Without(Next(cfg, s, Arrive(id)), E)
         == if id in E then Without(s, E) else Next(cfg, Without(s, E), Arrive(id))
  {
    var call := s.tasks[id].call;
    EraseSettled(s.pending, s.tasks, id, Next(cfg, s, Arrive(id)).tasks[id], E);
    match Perform(cfg.find, s.table, call.tool, call.args)
    case None =>
    case Some(result) =>
      if call.version != s.version {
        EraseLogSnoc(s.log, ResultEntry(id, call.tool, call.version, s.version, DiscardedStale), E);
      } else if Settle(s.table, result).Some? {
        EraseLogSnoc(s.log, ResultEntry(id, call.tool, call.version, s.version, AppliedFresh), E);
        assert id !in E;
      }
  }

  lemma EraseReply(cfg: Config, s: TurnState, id: string, text: Option<string>, E: set<string>)
    requires NoneApplied(s, E)
    ensures Without(Next(cfg, s, Reply(id, text)), E)
         == if id in E then Without(s, E) else Next(cfg, Without(s, E), Reply(id, text))
  {
    if id in s.tasks && s.tasks[id].phase.Confirming? {
      var task := s.tasks[id].(phase := Finished);
      assert s.tasks[id := task] - E == (s.tasks - E)[id := task];
    }
  }

  /** One step commutes with erasure: an event of an erased call that applied nothing is
      invisible, and every other event acts alike. */
  lemma EraseStep(cfg: Config, s: TurnState, e: Event, E: set<string>)
    requires NoneApplied(s, E) && NoneApplied(Next(cfg, s, e), E)
    ensures Without(Next(cfg, s, e), E) == if About(e, E) then Without(s, E) else Next(cfg, Without(s, E), e)
  {
    match e
    case UserSpeech(transcript) => EraseLogSnoc(s.log, SpeechStart(s.version, transcript), E);
    case Interrupt(reason) => EraseInterrupt(cfg, s, reason, E);
    case Dispatch(id, tool, args) => EraseDispatch(cfg, s, id, tool, args, E);
    case Arrive(id) =>
      if id in s.tasks && s.tasks[id].phase.Running? {
        EraseArrival(cfg, s, id, E);
      }
    case Reply(id, text) => EraseReply(cfg, s, id, text, E);
  }

  /** Erasure: for every interleaving and every set of calls none of which is applied, the run
      without those calls ends in the same state without those calls. */
  lemma {:induction false} EraseUnapplied(cfg: Config, s: TurnState, trace: seq<Event>, E: set<string>)
    requires NoneApplied(Run(cfg, s, trace), E)
    ensures NoneApplied(s, E)
    ensures Run(cfg, Without(s, E), Erase(trace, E)) == Without(Run(cfg, s, trace), E)
  {
    if trace != [] {
      var front, last := trace[..|trace| - 1], trace[|trace| - 1];
      var mid := Run(cfg, s, front);
      forall id | id in E && id in mid.tasks ensures !Applied(mid.tasks[id].phase) {
        if Applied(mid.tasks[id].phase) { AppliedStays(cfg, mid, last, id); }
      }
      EraseUnapplied(cfg, s, front, E);
      EraseStep(cfg, mid, last, E);
      if !About(last, E) {
        var kept := Erase(trace, E);
        assert kept[..|kept| - 1] == Erase(front, E);
      }
    }
  }
}
