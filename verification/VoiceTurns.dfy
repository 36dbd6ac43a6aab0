/** The conversation turns of a call: which transcripts start one, how each proceeds, and what is remembered. */
module VoiceTurns {
  import opened Common
  import Bookings
  import Turns
  import Rime
  import opened VoiceCall
  import VoiceLaws

  /** The final transcripts of a run, in order. */
  function Finals(trace: seq<Event>): seq<string> {
    if trace == [] then []
    else
      var last := trace[|trace| - 1];
      Finals(trace[..|trace| - 1]) + (if last.Heard? && last.final then [last.text] else [])
  }

  /** What one more event makes of the k-th turn, when there are already `count` turns. */
  function Moved(phase: Option<Phase>, e: Event, k: nat, count: nat, version: int): Option<Phase> {
    match phase
    case None => if e.Heard? && e.final && count == k then Some(Spawned(e.text)) else None
    case Some(Spawned(text)) => Some(if e == TurnStarts(k) then Thinking(text, version) else Spawned(text))
    case Some(Thinking(text, began)) => Some(if e.Decided? && e.turn == k then Ended else Thinking(text, began))
    case Some(Ended) => Some(Ended)
  }

  /** The k-th turn as the events about it tell: begun by the k-th final transcript, waiting for the model from
      its first step, over from the model's first answer. */
  function TurnPhase(cfg: Turns.Config, t: Bookings.Table, trace: seq<Event>, k: nat): Option<Phase> {
    if trace == [] then None
    else
      var front, last := trace[..|trace| - 1], trace[|trace| - 1];
      Moved(TurnPhase(cfg, t, front, k), last, k, |Finals(front)|, Run(cfg, Init(t), front).turns.version)
  }

  function TurnAt(running: seq<Phase>, k: nat): Option<Phase> {
    if k < |running| then Some(running[k]) else None
  }

  /** The tasks after one more event. */
  ghost predicate TasksMove(running: seq<Phase>, e: Event, version: int, after: seq<Phase>) {
    match e
    case Heard(text, final) => after == running + (if final then [Spawned(text)] else [])
    case TurnStarts(k) =>
      after == (if k < |running| && running[k].Spawned? then running[k := Thinking(running[k].text, version)] else running)
    case Decided(k, _) => after == (if k < |running| && running[k].Thinking? then running[k := Ended] else running)
    case _ => after == running
  }

  lemma RunningStep(cfg: Turns.Config, c: Call, e: Event)
    ensures TasksMove(c.running, e, c.turns.version, Next(cfg, c, e).running)
  {
    match e
    case Opened =>
    case Greet =>
    case Heard(_, _) =>
    case TurnStarts(_) =>
    case Decided(_, _) =>
    case ToolReturns(_) =>
    case HookReturns(_, _) =>
    case Speech(_) =>
    case WriterRuns(_) =>
  }

  lemma EachTurnMoves(running: seq<Phase>, e: Event, version: int, after: seq<Phase>, k: nat)
    requires TasksMove(running, e, version, after)
    ensures TurnAt(after, k) == Moved(TurnAt(running, k), e, k, |running|, version)
    ensures |after| == |running| + (if e.Heard? && e.final then 1 else 0)
  {
  }

  /** In every call there is one turn for each final transcript and none for any other, and each turn is where the
      events about it have brought it. */
  lemma {:induction false} TurnsAreFinals(cfg: Turns.Config, t: Bookings.Table, trace: seq<Event>)
    ensures var c := Run(cfg, Init(t), trace);
      |c.running| == |Finals(trace)| && forall k: nat :: TurnPhase(cfg, t, trace, k) == TurnAt(c.running, k)
  {
    if trace != [] {
      var front, last := trace[..|trace| - 1], trace[|trace| - 1];
      var mid := Run(cfg, Init(t), front);
      TurnsAreFinals(cfg, t, front);
      RunningStep(cfg, mid, last);
      EachTurnMoves(mid.running, last, mid.turns.version, Next(cfg, mid, last).running, 0);
      forall k: nat ensures TurnPhase(cfg, t, trace, k) == TurnAt(Run(cfg, Init(t), trace).running, k) {
        EachTurnMoves(mid.running, last, mid.turns.version, Next(cfg, mid, last).running, k);
      }
    }
  }

  /** The turn of the k-th final transcript works on that transcript. */
  lemma {:induction false} TurnHasItsTranscript(cfg: Turns.Config, t: Bookings.Table, trace: seq<Event>, k: nat)
    requires k < |Finals(trace)|
    ensures TurnPhase(cfg, t, trace, k).Some?
    ensures var phase := TurnPhase(cfg, t, trace, k).value; phase.Ended? || phase.text == Finals(trace)[k]
  {
    TurnsAreFinals(cfg, t, trace);
    var front, last := trace[..|trace| - 1], trace[|trace| - 1];
    TurnsAreFinals(cfg, t, front);
    if k < |Finals(front)| {
      TurnHasItsTranscript(cfg, t, front, k);
    }
  }

  // ---- what the answers leave -------------------------------------------------------------------------

  /** What one more event adds to the conversation: at the first answer of the model to a turn, its transcript, and
      for a text also the text, spoken or not. */
  function Remembered(cfg: Turns.Config, t: Bookings.Table, front: seq<Event>, last: Event): seq<string> {
    if !last.Decided? then []
    else
      match TurnPhase(cfg, t, front, last.turn)
      case Some(Thinking(transcript, _)) =>
        (match last.decision
         case CallTool(_, _, _) => [transcript]
         case Say(text) => [transcript, text]
         case Failed => [])
      case _ => []
  }

  function Conversation(cfg: Turns.Config, t: Bookings.Table, trace: seq<Event>): seq<string> {
    if trace == [] then []
    else Conversation(cfg, t, trace[..|trace| - 1]) + Remembered(cfg, t, trace[..|trace| - 1], trace[|trace| - 1])
  }

  /** The direct reply one more event makes: a text for a turn whose version is still current. */
  function Answered(cfg: Turns.Config, t: Bookings.Table, front: seq<Event>, last: Event): seq<Reply> {
    if !(last.Decided? && last.decision.Say?) then []
    else
      match TurnPhase(cfg, t, front, last.turn)
      case Some(Thinking(_, version)) =>
        if version == Run(cfg, Init(t), front).turns.version then [Reply(last.turn, version, last.decision.text)] else []
      case _ => []
  }

  function Answers(cfg: Turns.Config, t: Bookings.Table, trace: seq<Event>): seq<Reply> {
    if trace == [] then []
    else Answers(cfg, t, trace[..|trace| - 1]) + Answered(cfg, t, trace[..|trace| - 1], trace[|trace| - 1])
  }

  lemma MemoryStep(cfg: Turns.Config, c: Call, e: Event)
    ensures var c' := Next(cfg, c, e);
      if e.Decided? && e.turn < |c.running| && c.running[e.turn].Thinking?
      then
        var transcript, current := c.running[e.turn].text, c.running[e.turn].version == c.turns.version;
        (match e.decision
         case CallTool(_, _, _) => c'.history == c.history + [transcript] && c'.replies == c.replies
         case Say(text) => c'.history == c.history + [transcript, text]
           && c'.replies == c.replies + (if current then [Reply(e.turn, c.turns.version, text)] else [])
         case Failed => c'.history == c.history && c'.replies == c.replies)
      else c'.history == c.history && c'.replies == c.replies
  {
    match e
    case Opened =>
    case Greet =>
    case Heard(_, _) =>
    case TurnStarts(_) =>
    case Decided(_, _) =>
    case ToolReturns(_) =>
    case HookReturns(_, _) =>
    case Speech(_) =>
    case WriterRuns(_) =>
  }

  /** In every call the conversation kept for the model and the direct replies spoken are exactly those. */
  lemma {:induction false} MemoryIsConversation(cfg: Turns.Config, t: Bookings.Table, trace: seq<Event>)
    ensures Run(cfg, Init(t), trace).history == Conversation(cfg, t, trace)
    ensures Run(cfg, Init(t), trace).replies == Answers(cfg, t, trace)
  {
    if trace != [] {
      var front, last := trace[..|trace| - 1], trace[|trace| - 1];
      MemoryIsConversation(cfg, t, front);
      TurnsAreFinals(cfg, t, front);
      MemoryStep(cfg, Run(cfg, Init(t), front), last);
    }
  }
}
