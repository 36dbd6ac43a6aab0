/** Whole-call laws: barge-in discipline, the reply gate, and what the composition inherits. */
module VoiceLaws {
  import opened Common
  import Bookings
  import ToolClient
  import Turns
  import TurnLaws
  import Rime
  import RimeLaws
  import Outbound
  import opened VoiceCall

  // ---- the components of a call are runs of the component machines ------------------------

  /** The protocol event a call event amounts to, if any. */
  function TurnEvent(c: Call, e: Event): seq<Turns.Event> {
    match e
    case Heard(text, _) =>
      if Blank(text) then [] else if c.busy then [Turns.Interrupt("barge_in")] else [Turns.UserSpeech(Strip(text))]
    case Decided(turn, CallTool(id, tool, args)) =>
      if turn < |c.running| && c.running[turn].Thinking? then [Turns.Dispatch(id, tool, args)] else []
    case ToolReturns(id) => [Turns.Arrive(id)]
    case HookReturns(id, text) => [Turns.Reply(id, text)]
    case _ => []
  }

  /** The streamer event a call event amounts to, if any. */
  function SpeechEvent(cfg: Turns.Config, c: Call, e: Event): seq<Rime.Event> {
    match e
    case Greet => [Rime.Speak]
    case Heard(text, _) => if BargesIn(c, e) then [Rime.Cancel] else []
    case Decided(turn, Say(_)) =>
      if turn < |c.running| && c.running[turn].Thinking? && c.running[turn].version == c.turns.version
      then [Rime.Speak] else []
    case ToolReturns(id) =>
      if Turns.Next(cfg, c.turns, Turns.Arrive(id)).spoken != c.turns.spoken then [Rime.Speak] else []
    case HookReturns(id, text) =>
      if Turns.Next(cfg, c.turns, Turns.Reply(id, text)).spoken != c.turns.spoken then [Rime.Speak] else []
    case Speech(inner) => if inner.Speak? || inner.Cancel? then [] else [inner]
    case _ => []
  }

  function TurnTrace(cfg: Turns.Config, c: Call, trace: seq<Event>): seq<Turns.Event> {
    if trace == [] then []
    else
      var front, last := trace[..|trace| - 1], trace[|trace| - 1];
      TurnTrace(cfg, c, front) + TurnEvent(Run(cfg, c, front), last)
  }

  function SpeechTrace(cfg: Turns.Config, c: Call, trace: seq<Event>): seq<Rime.Event> {
    if trace == [] then []
    else
      var front, last := trace[..|trace| - 1], trace[|trace| - 1];
      SpeechTrace(cfg, c, front) + SpeechEvent(cfg, Run(cfg, c, front), last)
  }

  lemma OtherTurnEventsDoNotSpeak(cfg: Turns.Config, s: Turns.TurnState, e: Turns.Event)
    requires !e.Arrive? && !e.Reply?
    ensures Turns.Next(cfg, s, e).spoken == s.spoken
  {
  }

  lemma StepProjects(cfg: Turns.Config, c: Call, e: Event)
    ensures var c' := Next(cfg, c, e); var te, se := TurnEvent(c, e), SpeechEvent(cfg, c, e);
      && |te| <= 1 && |se| <= 1
      && c'.turns == (if te == [] then c.turns else Turns.Next(cfg, c.turns, te[0]))
      && c'.tts == (if se == [] then c.tts else Rime.Next(c.tts, se[0]))
  {
    var te := TurnEvent(c, e);
    if te != [] && !te[0].Arrive? && !te[0].Reply? {
      OtherTurnEventsDoNotSpeak(cfg, c.turns, te[0]);
    }
    match e
    case Opened =>
    case Greet =>
    case Heard(_, _) =>
    case TurnStarts(_) =>
    case Decided(_, _) =>
    case ToolReturns(_) =>
    case HookReturns(_, _) =>
    case Speech(_) =>
    case WriterRuns(_) =>
  }

  lemma TurnRunMore(cfg: Turns.Config, s: Turns.TurnState, events: seq<Turns.Event>, more: seq<Turns.Event>)
    requires |more| <= 1
    ensures Turns.Run(cfg, s, events + more)
         == (if more == [] then Turns.Run(cfg, s, events) else Turns.Next(cfg, Turns.Run(cfg, s, events), more[0]))
  {
    if more == [] {
      assert events + more == events;
    } else {
      assert (events + more)[..|events|] == events;
    }
  }

  lemma SpeechRunMore(s: Rime.Streamer, events: seq<Rime.Event>, more: seq<Rime.Event>)
    requires |more| <= 1
    ensures Rime.Run(s, events + more)
         == (if more == [] then Rime.Run(s, events) else Rime.Next(Rime.Run(s, events), more[0]))
  {
    if more == [] {
      assert events + more == events;
    } else {
      assert (events + more)[..|events|] == events;
    }
  }

  /** In every call the turn state is a run of the turn protocol and the streamer a run of the
      utterance machine, so every law of either holds of every call. */
  lemma {:induction false} ComponentsAreRuns(cfg: Turns.Config, c: Call, trace: seq<Event>)
    ensures Run(cfg, c, trace).turns == Turns.Run(cfg, c.turns, TurnTrace(cfg, c, trace))
    ensures Run(cfg, c, trace).tts == Rime.Run(c.tts, SpeechTrace(cfg, c, trace))
  {
    if trace != [] {
      var front, last := trace[..|trace| - 1], trace[|trace| - 1];
      var mid := Run(cfg, c, front);
      ComponentsAreRuns(cfg, c, front);
      StepProjects(cfg, mid, last);
      TurnRunMore(cfg, c.turns, TurnTrace(cfg, c, front), TurnEvent(mid, last));
      SpeechRunMore(c.tts, SpeechTrace(cfg, c, front), SpeechEvent(cfg, mid, last));
    }
  }

  // ---- barge-in discipline -------------------------------------------------------------------

  /** The version moves exactly when non-blank speech meets a set busy flag. */
  lemma VersionMovesIffBargeIn(cfg: Turns.Config, c: Call, e: Event)
    ensures Next(cfg, c, e).turns.version == c.turns.version + (if BargesIn(c, e) then 1 else 0)
  {
    StepProjects(cfg, c, e);
  }

  function BargeIns(cfg: Turns.Config, c: Call, trace: seq<Event>): nat {
    if trace == [] then 0
    else
      var front, last := trace[..|trace| - 1], trace[|trace| - 1];
      BargeIns(cfg, c, front) + (if BargesIn(Run(cfg, c, front), last) then 1 else 0)
  }

  /** The event sets the busy flag: the opening, a tool dispatch, or a direct reply. */
  predicate SetsBusy(c: Call, e: Event) {
    || e.Opened?
    || (e.Decided? && e.turn < |c.running| && c.running[e.turn].Thinking?
        && (e.decision.CallTool? || (e.decision.Say? && c.running[e.turn].version == c.turns.version)))
  }

  function Settings(cfg: Turns.Config, c: Call, trace: seq<Event>): nat {
    if trace == [] then 0
    else
      var front, last := trace[..|trace| - 1], trace[|trace| - 1];
      Settings(cfg, c, front) + (if SetsBusy(Run(cfg, c, front), last) then 1 else 0)
  }

  predicate CompletesUtterance(cfg: Turns.Config, c: Call, e: Event) {
    Next(cfg, c, e).tts.dones != c.tts.dones
  }

  /** The busy flag after one event. */
  lemma BusyStep(cfg: Turns.Config, c: Call, e: Event)
    ensures Next(cfg, c, e).busy ==
      (SetsBusy(c, e) || (c.busy && !BargesIn(c, e) && !CompletesUtterance(cfg, c, e)))
    ensures BargesIn(c, e) ==> !SetsBusy(c, e) && !CompletesUtterance(cfg, c, e)
    ensures SetsBusy(c, e) ==> !CompletesUtterance(cfg, c, e)
  {
    var te := TurnEvent(c, e);
    if te != [] && !te[0].Arrive? && !te[0].Reply? {
      OtherTurnEventsDoNotSpeak(cfg, c.turns, te[0]);
    }
    match e
    case Opened =>
    case Greet =>
    case Heard(_, _) =>
    case TurnStarts(_) =>
    case Decided(_, _) =>
    case ToolReturns(_) =>
    case HookReturns(_, _) =>
    case Speech(_) =>
    case WriterRuns(_) =>
  }

  /** At most one barge-in per setting of the flag, so the version moves at most once between two. */
  lemma {:induction false} OneBargeInPerSetting(cfg: Turns.Config, c: Call, trace: seq<Event>)
    ensures var c' := Run(cfg, c, trace);
      && BargeIns(cfg, c, trace) + (if c'.busy then 1 else 0)
           <= Settings(cfg, c, trace) + (if c.busy then 1 else 0)
      && c'.turns.version == c.turns.version + BargeIns(cfg, c, trace)
  {
    if trace != [] {
      var front, last := trace[..|trace| - 1], trace[|trace| - 1];
      OneBargeInPerSetting(cfg, c, front);
      BusyStep(cfg, Run(cfg, c, front), last);
      VersionMovesIffBargeIn(cfg, Run(cfg, c, front), last);
    }
  }

  lemma ClearedByCompletion(cfg: Turns.Config, c: Call, inner: Rime.Event)
    requires c.busy && !Next(cfg, c, Speech(inner)).busy
    ensures Next(cfg, c, Speech(inner)).tts == Rime.Next(c.tts, inner)
    ensures Rime.Next(c.tts, inner).dones != c.tts.dones && !inner.Speak?
  {
  }

  lemma CompletionKeepsCurrent(s: Rime.Streamer, e: Rime.Event)
    requires !e.Speak?
    ensures Rime.Next(s, e).current == s.current
  {
    var _ := RimeLaws.CompletionOf(s, e);
  }

  /** A completion clears the flag only for the utterance that is current: one of a superseded
      utterance never does. */
  lemma {:induction false} OnlyTheCurrentUtteranceClears(cfg: Turns.Config, t: Bookings.Table, trace: seq<Event>,
                                                         inner: Rime.Event)
    requires var c := Run(cfg, Init(t), trace); c.busy && !Next(cfg, c, Speech(inner)).busy
    ensures var c := Run(cfg, Init(t), trace); var c' := Next(cfg, c, Speech(inner));
      c'.tts.dones == c.tts.dones + [c.tts.current] && c'.tts.current == c.tts.current
  {
    var c := Run(cfg, Init(t), trace);
    ComponentsAreRuns(cfg, Init(t), trace);
    ClearedByCompletion(cfg, c, inner);
    RimeLaws.CompletionFiresOnce(SpeechTrace(cfg, Init(t), trace), inner);
    CompletionKeepsCurrent(c.tts, inner);
  }

  function Clearings(cfg: Turns.Config, c: Call, trace: seq<Event>): nat {
    if trace == [] then 0
    else
      var front, last := trace[..|trace| - 1], trace[|trace| - 1];
      var mid := Run(cfg, c, front);
      Clearings(cfg, c, front) + (if BargesIn(mid, last) || CompletesUtterance(cfg, mid, last) then 1 else 0)
  }

  /** Over any continuation that does not set the flag, speech interrupts exactly as long as the flag was set
      before and no barge-in and no completion of any utterance has come in between. */
  lemma {:induction false} BusyUntilCleared(cfg: Turns.Config, c: Call, trace: seq<Event>)
    requires Settings(cfg, c, trace) == 0
    ensures Run(cfg, c, trace).busy <==> c.busy && Clearings(cfg, c, trace) == 0
  {
    if trace != [] {
      var front, last := trace[..|trace| - 1], trace[|trace| - 1];
      BusyUntilCleared(cfg, c, front);
      BusyStep(cfg, Run(cfg, c, front), last);
    }
  }

  lemma UnsetUtterance(cfg: Turns.Config, c: Call, e: Event)
    requires SpeechEvent(cfg, c, e) == [Rime.Speak] && !e.Decided?
    ensures Next(cfg, c, e).tts.active && Next(cfg, c, e).busy == c.busy
  {
    StepProjects(cfg, c, e);
    BusyStep(cfg, c, e);
    SpeakCompletesNothing(c.tts);
  }

  lemma SpeakCompletesNothing(s: Rime.Streamer)
    ensures Rime.Next(s, Rime.Speak).active && Rime.Next(s, Rime.Speak).dones == s.dones
  {
  }

  /** The greeting and the confirmation of a tool do not set the flag. Such an utterance can be interrupted
      exactly as long as the flag was set before it, and nothing cleared it since. */
  lemma {:induction false} UtteranceIsGuardedIff(cfg: Turns.Config, c: Call, e: Event, after: seq<Event>)
    requires SpeechEvent(cfg, c, e) == [Rime.Speak] && !e.Decided?
    requires Settings(cfg, Next(cfg, c, e), after) == 0
    ensures Next(cfg, c, e).tts.active
    ensures Run(cfg, Next(cfg, c, e), after).busy <==> c.busy && Clearings(cfg, Next(cfg, c, e), after) == 0
  {
    UnsetUtterance(cfg, c, e);
    BusyUntilCleared(cfg, Next(cfg, c, e), after);
  }

  // ---- the reply gate ---------------------------------------------------------------------------

  ghost predicate StillThinking(c: Call, turn: nat, version: int) {
    turn < |c.running| && c.running[turn].Thinking? && c.running[turn].version == version
  }

  /** The reply gate: a turn's direct reply is spoken exactly when no barge-in came since that turn
      began, and then under the version that is current. */
  lemma {:induction false} ReplyIsSpokenIff(cfg: Turns.Config, c: Call, turn: nat, thinking: seq<Event>, text: string)
    requires turn < |c.running| && c.running[turn].Spawned?
    requires StillThinking(Run(cfg, Next(cfg, c, TurnStarts(turn)), thinking), turn, c.turns.version)
    ensures var begun := Next(cfg, c, TurnStarts(turn));
            var asked := Run(cfg, begun, thinking); var done := Next(cfg, asked, Decided(turn, Say(text)));
      && (done.replies == (if BargeIns(cfg, begun, thinking) == 0
                           then asked.replies + [Reply(turn, asked.turns.version, text)] else asked.replies))
      && (done.tts.current == asked.tts.current + 1 <==> BargeIns(cfg, begun, thinking) == 0)
  {
    OneBargeInPerSetting(cfg, Next(cfg, c, TurnStarts(turn)), thinking);
  }

  lemma ToolStep(cfg: Turns.Config, c: Call, turn: nat, version: int,
                 id: string, tool: ToolClient.Tool, args: ToolClient.Args)
    requires StillThinking(c, turn, version) && id !in c.turns.tasks
    ensures var c' := Next(cfg, c, Decided(turn, CallTool(id, tool, args)));
      && id in c'.turns.tasks && c'.turns.tasks[id] == Turns.Task(Turns.Call(tool, args, c.turns.version), Turns.Running)
      && c'.turns.version == c.turns.version
  {
  }

  /** The call's delay is over, and neither its tool nor committing its proposal raises. */
  ghost predicate WillSucceed(cfg: Turns.Config, s: Turns.TurnState, id: string) {
    id in s.tasks && s.tasks[id].phase.Running? && TurnLaws.Succeeds(cfg, s.table, s.tasks[id].call)
  }

  lemma {:induction false} DispatchedCall(cfg: Turns.Config, c: Call, turn: nat, version: int,
                                          id: string, tool: ToolClient.Tool, args: ToolClient.Args,
                                          meanwhile: seq<Event>, sent: Call, waiting: Call)
    requires StillThinking(c, turn, version) && id !in c.turns.tasks
    requires sent == Next(cfg, c, Decided(turn, CallTool(id, tool, args))) && waiting == Run(cfg, sent, meanwhile)
    ensures id in waiting.turns.tasks
    ensures waiting.turns.tasks[id].call == Turns.Call(tool, args, c.turns.version)
    ensures waiting.turns.version == c.turns.version <==> BargeIns(cfg, sent, meanwhile) == 0
  {
    ToolStep(cfg, c, turn, version, id, tool, args);
    ComponentsAreRuns(cfg, sent, meanwhile);
    TurnLaws.CallKeptOverRun(cfg, sent.turns, TurnTrace(cfg, sent, meanwhile), id);
    OneBargeInPerSetting(cfg, sent, meanwhile);
  }

  lemma ToolReturnsIsArrival(cfg: Turns.Config, c: Call, id: string)
    ensures Next(cfg, c, ToolReturns(id)).turns == Turns.Next(cfg, c.turns, Turns.Arrive(id))
  {
    StepProjects(cfg, c, ToolReturns(id));
  }

  /** A tool decision has no such gate. Whatever barge-ins came while the model was thinking, and whatever
      follows the dispatch: a call whose tool and commit succeed when its delay is over is applied exactly
      when no barge-in came since its dispatch, and then it makes its change to the bookings. */
  lemma {:induction false} ToolIsAppliedIff(cfg: Turns.Config, c: Call, turn: nat, version: int,
                                            id: string, tool: ToolClient.Tool, args: ToolClient.Args,
                                            meanwhile: seq<Event>, sent: Call, waiting: Call)
    requires StillThinking(c, turn, version) && id !in c.turns.tasks
    requires sent == Next(cfg, c, Decided(turn, CallTool(id, tool, args))) && waiting == Run(cfg, sent, meanwhile)
    requires WillSucceed(cfg, waiting.turns, id)
    ensures waiting.turns.tasks[id].call == Turns.Call(tool, args, c.turns.version)
    ensures var done := Next(cfg, waiting, ToolReturns(id)).turns; var current := BargeIns(cfg, sent, meanwhile) == 0;
      && id in done.tasks && (Turns.Applied(done.tasks[id].phase) <==> current)
      && done.table == (if current then ToolClient.OwnEffect(waiting.turns.table, tool, args) else waiting.turns.table)
  {
    DispatchedCall(cfg, c, turn, version, id, tool, args, meanwhile, sent, waiting);
    TurnLaws.ArrivalAppliesIffCurrent(cfg, waiting.turns, id);
    ToolReturnsIsArrival(cfg, waiting, id);
  }

  // ---- silence after a barge-in ---------------------------------------------------------------------

  /** Nothing in the continuation starts a new utterance. */
  ghost predicate NothingSpoken(cfg: Turns.Config, c: Call, trace: seq<Event>) {
    RimeLaws.NoSpeak(SpeechTrace(cfg, c, trace))
  }

  /** From a barge-in to the next utterance, whatever tool calls return and whatever the server
      still sends, the streamer forwards no frame and sends no text. */
  lemma {:induction false} BargeInSilences(cfg: Turns.Config, c: Call, e: Event, trace: seq<Event>)
    requires BargesIn(c, e) && NothingSpoken(cfg, Next(cfg, c, e), trace)
    ensures var c' := Run(cfg, Next(cfg, c, e), trace);
      c'.tts.forwarded == c.tts.forwarded && c'.tts.wire == c.tts.wire && !c'.tts.active
  {
    StepProjects(cfg, c, e);
    ComponentsAreRuns(cfg, Next(cfg, c, e), trace);
    RimeLaws.CancelSilences(c.tts, SpeechTrace(cfg, Next(cfg, c, e), trace));
  }

  // ---- what the browser is told --------------------------------------------------------------------------

  /** The outbound events a call event amounts to. */
  function OutEvents(cfg: Turns.Config, c: Call, e: Event): seq<Outbound.Event> {
    match e
    case Greet => [Outbound.SendJson(Outbound.Ready)]
    case Heard(text, final) => if Blank(text) then [] else [Outbound.SendJson(Outbound.Transcript(text, final))]
    case Speech(_) => Callbacks(c.tts, Next(cfg, c, e).tts)
    case WriterRuns(ok) => [Outbound.WriterTurn(ok)]
    case _ => []
  }

  lemma SpeakAndCancelCallNothing(s: Rime.Streamer, e: Rime.Event)
    requires e.Speak? || e.Cancel?
    ensures Callbacks(s, Rime.Next(s, e)) == []
  {
  }

  lemma OutStep(cfg: Turns.Config, c: Call, e: Event)
    ensures var events := OutEvents(cfg, c, e);
      && |events| <= 1
      && Next(cfg, c, e).out == (if events == [] then c.out else Outbound.Next(c.out, events[0]))
  {
    SpeakAndCancelCallNothing(c.tts, Rime.Speak);
    SpeakAndCancelCallNothing(c.tts, Rime.Cancel);
    match e
    case Opened =>
    case Greet =>
    case Heard(_, _) =>
    case TurnStarts(_) =>
    case Decided(_, _) =>
    case ToolReturns(_) =>
    case HookReturns(_, _) =>
    case Speech(_) =>
    case WriterRuns(_) =>
  }

  function OutTrace(cfg: Turns.Config, c: Call, trace: seq<Event>): seq<Outbound.Event> {
    if trace == [] then []
    else
      var front, last := trace[..|trace| - 1], trace[|trace| - 1];
      OutTrace(cfg, c, front) + OutEvents(cfg, Run(cfg, c, front), last)
  }

  lemma OutRunMore(o: Outbound.Outbox, events: seq<Outbound.Event>, more: seq<Outbound.Event>)
    requires |more| <= 1
    ensures Outbound.Run(o, events + more)
         == (if more == [] then Outbound.Run(o, events) else Outbound.Next(Outbound.Run(o, events), more[0]))
  {
    if more == [] {
      assert events + more == events;
    } else {
      assert (events + more)[..|events|] == events;
    }
  }

  /** In every call the outbound queue is a run of the outbound machine. */
  lemma {:induction false} OutIsRun(cfg: Turns.Config, c: Call, trace: seq<Event>)
    ensures Run(cfg, c, trace).out == Outbound.Run(c.out, OutTrace(cfg, c, trace))
  {
    if trace != [] {
      var front, last := trace[..|trace| - 1], trace[|trace| - 1];
      OutIsRun(cfg, c, front);
      OutStep(cfg, Run(cfg, c, front), last);
      OutRunMore(c.out, OutTrace(cfg, c, front), OutEvents(cfg, Run(cfg, c, front), last));
    }
  }

  /** Frames as audio messages. */
  function AsAudio(frames: seq<seq<int>>): (ms: seq<Outbound.Message>)
    ensures |ms| == |frames| && forall i | 0 <= i < |ms| :: ms[i] == Outbound.Audio(frames[i])
  {
    seq(|frames|, i requires 0 <= i < |frames| => Outbound.Audio(frames[i]))
  }

  function SpeechEnds(ms: seq<Outbound.Message>): nat {
    if ms == [] then 0
    else SpeechEnds(ms[..|ms| - 1]) + (if ms[|ms| - 1] == Outbound.Json(Outbound.SpeechEnd) then 1 else 0)
  }

  lemma MessagesSnoc(ms: seq<Outbound.Message>, m: Outbound.Message)
    ensures Outbound.Audios(ms + [m]) == Outbound.Audios(ms) + (if m.Audio? then [m] else [])
    ensures SpeechEnds(ms + [m]) == SpeechEnds(ms) + (if m == Outbound.Json(Outbound.SpeechEnd) then 1 else 0)
  {
    assert (ms + [m])[..|ms|] == ms;
  }

  /** Every frame forwarded and every completion reached the outbound queue, once and in order. */
  ghost predicate HandedOver(c: Call) {
    && Outbound.Audios(c.out.produced) == AsAudio(c.tts.forwarded)
    && SpeechEnds(c.out.produced) == |c.tts.dones|
  }

  /** One streamer step forwards at most one frame or completes at most one utterance, not both. */
  lemma OneCallback(s: Rime.Streamer, e: Rime.Event)
    ensures var s' := Rime.Next(s, e);
      && (|| (s'.forwarded == s.forwarded && |s.dones| <= |s'.dones| <= |s.dones| + 1
              && (s'.dones == s.dones <==> |s'.dones| == |s.dones|))
          || (|s'.forwarded| == |s.forwarded| + 1 && s'.forwarded[..|s.forwarded|] == s.forwarded && s'.dones == s.dones))
  {
    match e
    case Speak =>
    case Cancel =>
    case StartWarmUp =>
    case Acquire =>
    case Connected(_) =>
    case SendDone(_, _) =>
    case Poll(_) =>
    case RunFire =>
    case RunClear =>
    case Chunk(_, _) =>
    case DoneMsg(_) =>
    case ReaderEnds =>
    case SocketCloses =>
    case CloseBegins =>
    case CloseEnds =>
  }

  lemma ProducedByOne(o: Outbound.Outbox, e: Outbound.Event)
    ensures Outbound.Next(o, e).produced
         == (match e
             case SendAudio(pcm) => o.produced + [Outbound.Audio(pcm)]
             case SendJson(msg) => o.produced + [Outbound.Json(msg)]
             case WriterTurn(_) => o.produced)
  {
  }

  lemma FrameHandsOver(c: Call, c': Call, frame: seq<int>)
    requires HandedOver(c) && c'.out.produced == c.out.produced + [Outbound.Audio(frame)]
    requires |c'.tts.forwarded| == |c.tts.forwarded| + 1 && c'.tts.forwarded[..|c.tts.forwarded|] == c.tts.forwarded
    requires c'.tts.forwarded[|c.tts.forwarded|] == frame && |c'.tts.dones| == |c.tts.dones|
    ensures HandedOver(c')
  {
    MessagesSnoc(c.out.produced, Outbound.Audio(frame));
    assert AsAudio(c'.tts.forwarded) == AsAudio(c.tts.forwarded) + [Outbound.Audio(frame)];
  }

  lemma EndHandsOver(c: Call, c': Call)
    requires HandedOver(c) && c'.out.produced == c.out.produced + [Outbound.Json(Outbound.SpeechEnd)]
    requires c'.tts.forwarded == c.tts.forwarded && |c'.tts.dones| == |c.tts.dones| + 1
    ensures HandedOver(c')
  {
    MessagesSnoc(c.out.produced, Outbound.Json(Outbound.SpeechEnd));
  }

  lemma CallbacksHandOver(c: Call, c': Call, e: Rime.Event)
    requires HandedOver(c) && c'.tts == Rime.Next(c.tts, e) && c' == Heed(c, c'.tts)
    ensures HandedOver(c')
  {
    OneCallback(c.tts, e);
    if |c'.tts.forwarded| > |c.tts.forwarded| {
      FrameHandsOver(c, c', c'.tts.forwarded[|c.tts.forwarded|]);
    } else if c'.tts.dones != c.tts.dones {
      EndHandsOver(c, c');
    }
  }

  lemma OtherStepsHandOver(cfg: Turns.Config, c: Call, e: Event)
    requires HandedOver(c) && !e.Speech?
    ensures HandedOver(Next(cfg, c, e))
  {
    OutStep(cfg, c, e);
    StepProjects(cfg, c, e);
    var events, se := OutEvents(cfg, c, e), SpeechEvent(cfg, c, e);
    if se != [] { SpeakAndCancelKeepHistory(c.tts, se[0]); }
    if events != [] {
      ProducedByOne(c.out, events[0]);
      if events[0].SendJson? { MessagesSnoc(c.out.produced, Outbound.Json(events[0].msg)); }
    }
  }

  lemma SpeakAndCancelKeepHistory(s: Rime.Streamer, e: Rime.Event)
    requires e.Speak? || e.Cancel?
    ensures Rime.Next(s, e).forwarded == s.forwarded && Rime.Next(s, e).dones == s.dones
  {
  }

  lemma {:induction false} AlwaysHandedOver(cfg: Turns.Config, t: Bookings.Table, trace: seq<Event>)
    ensures HandedOver(Run(cfg, Init(t), trace))
  {
    if trace != [] {
      var front, last := trace[..|trace| - 1], trace[|trace| - 1];
      var c := Run(cfg, Init(t), front);
      AlwaysHandedOver(cfg, t, front);
      if last.Speech? {
        OutStep(cfg, c, last);
        if !last.inner.Speak? && !last.inner.Cancel? { CallbacksHandOver(c, Next(cfg, c, last), last.inner); }
      } else {
        OtherStepsHandOver(cfg, c, last);
      }
    }
  }

  lemma {:induction false} SpeechEndsAreJson(ms: seq<Outbound.Message>)
    ensures SpeechEnds(ms) == SpeechEnds(Outbound.Jsons(ms))
  {
    if ms != [] {
      SpeechEndsAreJson(ms[..|ms| - 1]);
      MessagesSnoc(Outbound.Jsons(ms[..|ms| - 1]), ms[|ms| - 1]);
    }
  }

  ghost predicate SocketAccepts(trace: seq<Event>) {
    forall i | 0 <= i < |trace| && trace[i].WriterRuns? :: trace[i].ok
  }

  lemma {:induction false} AcceptedRounds(cfg: Turns.Config, c: Call, trace: seq<Event>)
    requires SocketAccepts(trace)
    ensures Outbound.AllAccepted(OutTrace(cfg, c, trace))
  {
    if trace != [] {
      var front, last := trace[..|trace| - 1], trace[|trace| - 1];
      assert forall i | 0 <= i < |front| :: front[i] == trace[i];
      AcceptedRounds(cfg, c, front);
      OutStep(cfg, Run(cfg, c, front), last);
      assert last.WriterRuns? ==> last.ok;
    }
  }

  /** In every call, whatever the browser's pace: each completed utterance has exactly one speech_end taken
      by the writer or waiting, and the audio taken or waiting is, in order, a part of the frames the
      streamer forwarded. While the browser's socket accepts every item, taken means delivered. */
  lemma {:induction false} EveryCompletionIsTakenOrWaits(cfg: Turns.Config, t: Bookings.Table, trace: seq<Event>)
    ensures var c := Run(cfg, Init(t), trace); var kept := c.out.taken + c.out.queue;
      && SpeechEnds(kept) == |c.tts.dones|
      && Outbound.Subsequence(Outbound.Audios(kept), AsAudio(c.tts.forwarded))
      && (SocketAccepts(trace) ==> c.out.delivered == c.out.taken)
  {
    var c := Run(cfg, Init(t), trace);
    var kept := c.out.taken + c.out.queue;
    AlwaysHandedOver(cfg, t, trace);
    OutIsRun(cfg, Init(t), trace);
    Outbound.AudioIsShedControlIsNot(OutTrace(cfg, Init(t), trace));
    SpeechEndsAreJson(kept);
    SpeechEndsAreJson(c.out.produced);
    if SocketAccepts(trace) {
      AcceptedRounds(cfg, Init(t), trace);
      Outbound.AcceptedIsDelivered(Outbound.Init(), OutTrace(cfg, Init(t), trace));
    }
  }

  // ---- the backlog at a barge-in ------------------------------------------------------------------------

  lemma FrameIsForwarded(cfg: Turns.Config, c: Call, e: Event)
    requires OutEvents(cfg, c, e) != [] && OutEvents(cfg, c, e)[0].SendAudio?
    ensures Next(cfg, c, e).tts.forwarded != c.tts.forwarded
  {
  }

  lemma NothingSpokenPrefix(cfg: Turns.Config, c: Call, trace: seq<Event>)
    requires trace != [] && NothingSpoken(cfg, c, trace)
    ensures NothingSpoken(cfg, c, trace[..|trace| - 1])
  {
    var front := trace[..|trace| - 1];
    var speech, more := SpeechTrace(cfg, c, front), SpeechEvent(cfg, Run(cfg, c, front), trace[|trace| - 1]);
    assert forall i | 0 <= i < |speech| :: (speech + more)[i] == speech[i];
  }

  lemma {:induction false} NoAudioAfterBargeIn(cfg: Turns.Config, c: Call, e: Event, after: seq<Event>)
    requires BargesIn(c, e) && NothingSpoken(cfg, Next(cfg, c, e), after)
    ensures Outbound.NoAudioSent(OutTrace(cfg, Next(cfg, c, e), after))
  {
    if after != [] {
      var c1, front, last := Next(cfg, c, e), after[..|after| - 1], after[|after| - 1];
      NothingSpokenPrefix(cfg, c1, after);
      NoAudioAfterBargeIn(cfg, c, e, front);
      BargeInSilences(cfg, c, e, front);
      BargeInSilences(cfg, c, e, after);
      OutStep(cfg, Run(cfg, c1, front), last);
      var more := OutEvents(cfg, Run(cfg, c1, front), last);
      if more != [] && more[0].SendAudio? { FrameIsForwarded(cfg, Run(cfg, c1, front), last); }
    }
  }

  function WriterRounds(trace: seq<Event>): nat {
    if trace == [] then 0
    else WriterRounds(trace[..|trace| - 1]) + (if trace[|trace| - 1].WriterRuns? then 1 else 0)
  }

  lemma RoundsOfEvent(cfg: Turns.Config, c: Call, e: Event)
    ensures var events := OutEvents(cfg, c, e); |events| <= 1 && (events != [] && events[0].WriterTurn? <==> e.WriterRuns?)
  {
  }

  lemma {:induction false} RoundsOfTrace(cfg: Turns.Config, c: Call, trace: seq<Event>)
    ensures Outbound.Rounds(OutTrace(cfg, c, trace)) == WriterRounds(trace)
  {
    if trace != [] {
      var front, last := trace[..|trace| - 1], trace[|trace| - 1];
      RoundsOfTrace(cfg, c, front);
      RoundsOfEvent(cfg, Run(cfg, c, front), last);
      OneMoreRounds(OutTrace(cfg, c, front), OutEvents(cfg, Run(cfg, c, front), last));
    }
  }

  lemma OneMoreRounds(events: seq<Outbound.Event>, more: seq<Outbound.Event>)
    requires |more| <= 1
    ensures Outbound.Rounds(events + more)
         == Outbound.Rounds(events) + (if more != [] && more[0].WriterTurn? then 1 else 0)
  {
    if more == [] {
      assert events + more == events;
    } else {
      assert (events + more)[..|events|] == events;
    }
  }

  /** The first n messages waiting for the browser. */
  function FirstWaiting(o: Outbound.Outbox, n: nat): seq<Outbound.Message> {
    o.queue[..Outbound.Least(n, |o.queue|)]
  }

  /** A barge-in does not empty the outbound queue. From the barge-in to the next utterance no audio joins it,
      yet after n writer rounds exactly the audio among the first n waiting messages has gone to the browser,
      and has been delivered if the socket accepts it. So the browser still gets a frame exactly if one of
      the first n waiting messages is one. */
  lemma {:induction false} BacklogOutlivesBargeIn(cfg: Turns.Config, c: Call, e: Event, after: seq<Event>)
    requires BargesIn(c, e) && NothingSpoken(cfg, Next(cfg, c, e), after)
    ensures var c1 := Next(cfg, c, e); var c' := Run(cfg, c1, after);
            var sent := Outbound.Audios(FirstWaiting(c1.out, WriterRounds(after)));
      && Outbound.Audios(c'.out.taken) == Outbound.Audios(c1.out.taken) + sent
      && (SocketAccepts(after) ==> Outbound.Audios(c'.out.delivered) == Outbound.Audios(c1.out.delivered) + sent)
  {
    var c1 := Next(cfg, c, e);
    OutIsRun(cfg, c1, after);
    NoAudioAfterBargeIn(cfg, c, e, after);
    RoundsOfTrace(cfg, c1, after);
    Outbound.BacklogIsTaken(c1.out, OutTrace(cfg, c1, after));
    if SocketAccepts(after) {
      AcceptedRounds(cfg, c1, after);
      Outbound.BacklogIsDelivered(c1.out, OutTrace(cfg, c1, after));
    }
  }

  /** From a barge-in to the next utterance no audio is handed to the outbound queue. */
  lemma {:induction false} BargeInStopsAudio(cfg: Turns.Config, t: Bookings.Table, before: seq<Event>, e: Event,
                                             after: seq<Event>)
    requires var c := Run(cfg, Init(t), before); BargesIn(c, e) && NothingSpoken(cfg, Next(cfg, c, e), after)
    ensures var c, c' := Run(cfg, Init(t), before), Run(cfg, Init(t), before + [e] + after);
      Outbound.Audios(c'.out.produced) == Outbound.Audios(c.out.produced)
  {
    var c := Run(cfg, Init(t), before);
    BargeInSilences(cfg, c, e, after);
    RunThrough(cfg, Init(t), before, e, after);
    AlwaysHandedOver(cfg, t, before);
    AlwaysHandedOver(cfg, t, before + [e] + after);
  }

  lemma {:induction false} RunAppend(cfg: Turns.Config, c: Call, a: seq<Event>, b: seq<Event>)
    ensures Run(cfg, c, a + b) == Run(cfg, Run(cfg, c, a), b)
  {
    if b == [] {
      assert a + b == a;
    } else {
      RunAppend(cfg, c, a, b[..|b| - 1]);
      assert (a + b)[..|a + b| - 1] == a + b[..|b| - 1];
    }
  }

  lemma {:induction false} RunThrough(cfg: Turns.Config, c: Call, before: seq<Event>, e: Event, after: seq<Event>)
    ensures Run(cfg, c, before + [e] + after) == Run(cfg, Next(cfg, Run(cfg, c, before), e), after)
  {
    assert (before + [e])[..|before|] == before;
    RunAppend(cfg, c, before + [e], after);
  }

  // ---- runs in which a promise of the comments fails -----------------------------------------------------

  lemma Extend(cfg: Turns.Config, t: Bookings.Table, trace: seq<Event>, c: Call, e: Event)
    returns (trace': seq<Event>, c': Call)
    requires c == Run(cfg, Init(t), trace)
    ensures trace' == trace + [e] && c' == Next(cfg, c, e) && c' == Run(cfg, Init(t), trace')
  {
    trace', c' := trace + [e], Next(cfg, c, e);
    assert trace'[..|trace|] == trace;
  }

  lemma GreetingRequested(cfg: Turns.Config, t: Bookings.Table) returns (trace: seq<Event>, c: Call)
    ensures c == Run(cfg, Init(t), trace) && c.busy && c.tts == Rime.Next(Rime.Init(), Rime.Speak)
    ensures c.out.queue == [] && Outbound.Audios(c.out.taken) == []
  {
    trace, c := [], Init(t);
    trace, c := Extend(cfg, t, trace, c, Opened);
    trace, c := Extend(cfg, t, trace, c, Greet);
    trace, c := Extend(cfg, t, trace, c, WriterRuns(true));
  }

  /** The text of an utterance is on the wire and the reader waits for its frames. */
  ghost predicate OnTheWire(s: Rime.Streamer) {
    && s.active && !s.dropped && s.readers == 1 && s.carry == [] && s.dones == [] && s.forwarded == []
    && s.current == 1 && s.sent == Some(1) && s.fired.None?
  }

  lemma FirstTextIsSent(s: Rime.Streamer) returns (s1: Rime.Streamer, s2: Rime.Streamer, s3: Rime.Streamer)
    requires s == Rime.Next(Rime.Init(), Rime.Speak)
    ensures s1 == Rime.Next(s, Rime.Acquire) && s2 == Rime.Next(s1, Rime.Connected(true))
    ensures s3 == Rime.Next(s2, Rime.SendDone(true, 0.0)) && OnTheWire(s3)
    ensures forall x | x in [s1, s2, s3] :: x.forwarded == [] && x.dones == []
  {
    s1 := Rime.Next(s, Rime.Acquire);
    s2 := Rime.Next(s1, Rime.Connected(true));
    s3 := Rime.Next(s2, Rime.SendDone(true, 0.0));
  }

  /** From a call whose first utterance was just requested to one where it is on the wire. */
  lemma SendFirstText(cfg: Turns.Config, t: Bookings.Table, trace: seq<Event>, c: Call)
    returns (trace': seq<Event>, c': Call)
    requires c == Run(cfg, Init(t), trace) && c.tts == Rime.Next(Rime.Init(), Rime.Speak)
    ensures c' == Run(cfg, Init(t), trace') && OnTheWire(c'.tts) && c' == c.(tts := c'.tts)
  {
    var s1, s2, s3 := FirstTextIsSent(c.tts);
    assert s1 in [s1, s2, s3] && s2 in [s1, s2, s3];
    trace', c' := Extend(cfg, t, trace, c, Speech(Rime.Acquire));
    trace', c' := Extend(cfg, t, trace', c', Speech(Rime.Connected(true)));
    trace', c' := Extend(cfg, t, trace', c', Speech(Rime.SendDone(true, 0.0)));
  }

  lemma OneFrame(s: Rime.Streamer)
    requires OnTheWire(s)
    ensures var s' := Rime.Next(s, Rime.Chunk(Some([1, 2]), 0.1)); s'.forwarded == [[1, 2]] && s'.dones == []
  {
    assert s.carry + [1, 2] == [1, 2];
  }

  /** A frame of the greeting waits for the writer. */
  lemma FrameWaits(cfg: Turns.Config, t: Bookings.Table) returns (trace: seq<Event>, c: Call)
    ensures c == Run(cfg, Init(t), trace) && c.busy
    ensures c.out.queue == [Outbound.Audio([1, 2])] && Outbound.Audios(c.out.taken) == []
  {
    trace, c := GreetingRequested(cfg, t);
    trace, c := SendFirstText(cfg, t, trace, c);
    OneFrame(c.tts);
    trace, c := Extend(cfg, t, trace, c, Speech(Rime.Chunk(Some([1, 2]), 0.1)));
  }

  lemma StopIsSpeech()
    ensures !Blank("stop") && !Blank("hi")
  {
    assert Strip("stop") == "stop" && Strip("hi") == "hi";
  }

  /** A run in which the browser gets its first frame of an utterance after the barge-in that ended it. */
  lemma FrameAfterBargeIn(cfg: Turns.Config, t: Bookings.Table) returns (trace: seq<Event>, c: Call)
    ensures c == Run(cfg, Init(t), trace) && BargesIn(c, Heard("stop", false))
    ensures var c' := Run(cfg, Next(cfg, c, Heard("stop", false)), [WriterRuns(true)]);
      Outbound.Audios(c.out.taken) == [] && Outbound.Audios(c'.out.taken) == [Outbound.Audio([1, 2])]
  {
    trace, c := FrameWaits(cfg, t);
    StopIsSpeech();
    var stop := Heard("stop", false);
    var c1 := Next(cfg, c, stop);
    var rounds := [WriterRuns(true)];
    assert rounds[..0] == [];
    assert SpeechTrace(cfg, c1, rounds) == [];
    BargeInKeepsQueue(cfg, c, "stop", false);
    BacklogOutlivesBargeIn(cfg, c, stop, rounds);
    assert FirstWaiting(c1.out, 1) == [Outbound.Audio([1, 2])];
    Outbound.AudiosSnoc([], Outbound.Audio([1, 2]));
    assert [] + [Outbound.Audio([1, 2])] == [Outbound.Audio([1, 2])];
  }

  lemma BargeInKeepsQueue(cfg: Turns.Config, c: Call, text: string, final: bool)
    requires BargesIn(c, Heard(text, final))
    ensures var o := Next(cfg, c, Heard(text, final)).out;
      o.queue == c.out.queue + [Outbound.Json(Outbound.Transcript(text, final))] && o.taken == c.out.taken
  {
    OutStep(cfg, c, Heard(text, final));
  }

  /** One final transcript was heard and the model thinks about it. */
  lemma OneTurnThinking(cfg: Turns.Config, t: Bookings.Table) returns (trace: seq<Event>, c: Call)
    ensures c == Run(cfg, Init(t), trace)
    ensures c.turns.(log := []) == Turns.Init(t) && c.running == [Thinking("book me", 1)] && !c.busy && c.tts == Rime.Init()
  {
    trace, c := [], Init(t);
    trace, c := Extend(cfg, t, trace, c, Heard("book me", true));
    trace, c := Extend(cfg, t, trace, c, TurnStarts(0));
  }

  lemma TwoTurnsThinking(cfg: Turns.Config, t: Bookings.Table) returns (trace: seq<Event>, c: Call)
    ensures c == Run(cfg, Init(t), trace)
    ensures c.turns.(log := []) == Turns.Init(t) && c.running == [Thinking("book me", 1), Thinking("hello?", 1)]
    ensures !c.busy && c.tts == Rime.Init()
  {
    trace, c := OneTurnThinking(cfg, t);
    trace, c := Extend(cfg, t, trace, c, Heard("hello?", true));
    trace, c := Extend(cfg, t, trace, c, TurnStarts(1));
  }

  /** A first request is still being thought about while a second is answered aloud. */
  lemma TwoTurnsUnderWay(cfg: Turns.Config, t: Bookings.Table) returns (trace: seq<Event>, c: Call)
    ensures c == Run(cfg, Init(t), trace)
    ensures c.turns.(log := []) == Turns.Init(t) && c.running == [Thinking("book me", 1), Ended] && c.busy
    ensures c.tts == Rime.Next(Rime.Init(), Rime.Speak)
  {
    trace, c := TwoTurnsThinking(cfg, t);
    trace, c := Extend(cfg, t, trace, c, Decided(1, Say("One moment")));
  }

  /** The reply is being spoken and the tool call of the first request runs. */
  lemma ReplyWhileToolRuns(cfg: Turns.Config, t: Bookings.Table, tool: ToolClient.Tool, args: ToolClient.Args)
    returns (trace: seq<Event>, c: Call)
    ensures c == Run(cfg, Init(t), trace) && c.turns.version == 1 && c.turns.table == t
    ensures "tc_1" in c.turns.tasks && c.turns.tasks["tc_1"] == Turns.Task(Turns.Call(tool, args, 1), Turns.Running)
    ensures c.tts == Rime.Next(Rime.Init(), Rime.Speak)
  {
    trace, c := TwoTurnsUnderWay(cfg, t);
    ToolStep(cfg, c, 0, 1, "tc_1", tool, args);
    trace, c := Extend(cfg, t, trace, c, Decided(0, CallTool("tc_1", tool, args)));
  }

  lemma DoneCompletes(s: Rime.Streamer)
    requires OnTheWire(s)
    ensures var s' := Rime.Next(s, Rime.DoneMsg(1)); s'.dones == [1] && s'.forwarded == []
  {
    assert s.dones + [1] == [1];
  }

  /** A run in which a tool call is pending while the flag is clear, so the next speech is not taken
      for an interrupt: the reply of another turn completed in the meantime. */
  lemma PendingToolCanBeUnguarded(cfg: Turns.Config, t: Bookings.Table, tool: ToolClient.Tool, args: ToolClient.Args)
    returns (trace: seq<Event>, c: Call)
    ensures c == Run(cfg, Init(t), trace) && c.turns.version == 1 && c.turns.table == t
    ensures "tc_1" in c.turns.tasks && c.turns.tasks["tc_1"] == Turns.Task(Turns.Call(tool, args, 1), Turns.Running)
    ensures !c.busy && !BargesIn(c, Heard("stop", false))
  {
    trace, c := ReplyWhileToolRuns(cfg, t, tool, args);
    trace, c := SendFirstText(cfg, t, trace, c);
    DoneCompletes(c.tts);
    trace, c := Extend(cfg, t, trace, c, Speech(Rime.DoneMsg(1)));
  }

  /** A run in which the greeting is spoken while the flag is clear: the user spoke before it. */
  lemma GreetingCanBeUnguarded(cfg: Turns.Config, t: Bookings.Table) returns (trace: seq<Event>, c: Call)
    ensures c == Run(cfg, Init(t), trace) && c.tts.active && !c.busy && !BargesIn(c, Heard("stop", false))
  {
    trace, c := [], Init(t);
    trace, c := Extend(cfg, t, trace, c, Opened);
    StopIsSpeech();
    assert BargesIn(c, Heard("hi", false));
    BusyStep(cfg, c, Heard("hi", false));
    trace, c := Extend(cfg, t, trace, c, Heard("hi", false));
    UnsetUtterance(cfg, c, Greet);
    trace, c := Extend(cfg, t, trace, c, Greet);
  }

  function BookForAsha(): ToolClient.Args {
    var name := Some(Some("Asha"));
    ToolClient.Args(None, map[], name, name, name, None, None)
  }

  lemma BookingSucceeds(cfg: Turns.Config, t: Bookings.Table)
    ensures TurnLaws.Succeeds(cfg, t, Turns.Call(ToolClient.CreateBooking, BookForAsha(), 1))
  {
  }

  lemma HookedArrival(cfg: Turns.Config, s: Turns.TurnState, id: string)
    requires cfg.hooked && id in s.tasks && s.tasks[id].phase.Running? && s.tasks[id].call.version == s.version
    requires TurnLaws.Succeeds(cfg, s.table, s.tasks[id].call)
    ensures var s' := Turns.Next(cfg, s, Turns.Arrive(id));
      id in s'.tasks && s'.tasks[id].phase.Confirming? && s'.spoken == s.spoken
  {
  }

  lemma HookSpeaks(cfg: Turns.Config, c: Call, id: string, text: Option<string>)
    requires id in c.turns.tasks && c.turns.tasks[id].phase.Confirming?
    ensures SpeechEvent(cfg, c, HookReturns(id, text)) == [Rime.Speak]
  {
    assert |Turns.Next(cfg, c.turns, Turns.Reply(id, text)).spoken| == |c.turns.spoken| + 1;
  }

  /** A run in which the confirmation of a booking is spoken while the flag is clear. */
  lemma ConfirmationCanBeUnguarded(find: ToolClient.Finder, t: Bookings.Table, text: Option<string>)
    returns (trace: seq<Event>, c: Call)
    ensures c == Run(Turns.Config(true, find), Init(t), trace)
    ensures c.tts.active && !c.busy && !BargesIn(c, Heard("stop", false))
  {
    var cfg := Turns.Config(true, find);
    trace, c := PendingToolCanBeUnguarded(cfg, t, ToolClient.CreateBooking, BookForAsha());
    BookingSucceeds(cfg, t);
    HookedArrival(cfg, c.turns, "tc_1");
    StepProjects(cfg, c, ToolReturns("tc_1"));
    BusyStep(cfg, c, ToolReturns("tc_1"));
    trace, c := Extend(cfg, t, trace, c, ToolReturns("tc_1"));
    HookSpeaks(cfg, c, "tc_1", text);
    UnsetUtterance(cfg, c, HookReturns("tc_1", text));
    trace, c := Extend(cfg, t, trace, c, HookReturns("tc_1", text));
  }

  /** And the user barges in over the answer to a second request. */
  lemma BargeInWhileThinking(cfg: Turns.Config, t: Bookings.Table) returns (trace: seq<Event>, c: Call)
    ensures c == Run(cfg, Init(t), trace)
    ensures c.turns.version == 2 && c.running == [Thinking("book me", 1), Ended, Spawned("no, wait")]
    ensures c.turns.tasks == map[] && c.turns.table == t
  {
    trace, c := TwoTurnsUnderWay(cfg, t);
    trace, c := Extend(cfg, t, trace, c, Heard("no, wait", true));
  }

  /** A run in which the tool call of an interrupted turn is applied as fresh: the barge-in came while
      the model was still thinking about the earlier request. */
  lemma InterruptedTurnCanStillWrite(find: ToolClient.Finder, t: Bookings.Table)
    returns (trace: seq<Event>, c: Call)
    ensures c == Run(Turns.Config(true, find), Init(t), trace)
    ensures c.turns.version == 2 && c.running == [Ended, Ended, Spawned("no, wait")]
    ensures t.nextId in c.turns.table.rows && c.turns.table.nextId == t.nextId + 1
  {
    var cfg := Turns.Config(true, find);
    trace, c := BargeInWhileThinking(cfg, t);
    trace, c := Extend(cfg, t, trace, c, Decided(0, CallTool("tc_1", ToolClient.CreateBooking, BookForAsha())));
    trace, c := Extend(cfg, t, trace, c, ToolReturns("tc_1"));
  }
}
