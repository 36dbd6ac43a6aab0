/** backend/voice.py and the InterruptionDetector of agent/stt_pipeline.py: one live call, composed of
    the turn protocol, the utterance machine and the busy flag between them. */
module VoiceCall {
  import opened Common
  import Bookings
  import ToolClient
  import Turns
  import Rime
  import Outbound

  // ---- what counts as speech -----------------------------------------------------------

  predicate IsSpace(c: char) {
    c == ' ' || '\t' <= c <= '\r' || '\U{1c}' <= c <= '\U{1f}'
  }

  /** str.strip on ASCII white space. */
  function Strip(text: string): string {
    if text == [] then []
    else if IsSpace(text[0]) then Strip(text[1..])
    else if IsSpace(text[|text| - 1]) then Strip(text[..|text| - 1])
    else text
  }

  /** The detector's noise gate with its default minimum of one character. */
  predicate Blank(text: string) {
    |Strip(text)| < 1
  }

  /** The codes of the ASCII white space. */
  predicate White(c: char) {
    c as int in {9, 10, 11, 12, 13, 28, 29, 30, 31, 32}
  }

  lemma SpaceIsWhite(c: char)
    ensures IsSpace(c) <==> White(c)
  {
  }

  /** The slice from i to j is the text without the white space at both ends, and nothing else is missing. */
  ghost predicate Stripped(text: string, i: nat, j: nat, stripped: string) {
    && i <= j <= |text| && stripped == text[i..j]
    && (forall k | 0 <= k < |text| && !(i <= k < j) :: White(text[k]))
    && (i < j ==> !White(text[i]) && !White(text[j - 1]))
  }

  lemma StrippedAfter(text: string, i: nat, j: nat, stripped: string)
    requires text != [] && White(text[0]) && Stripped(text[1..], i, j, stripped)
    ensures Stripped(text, i + 1, j + 1, stripped)
  {
    assert forall k | 0 < k < |text| :: text[k] == text[1..][k - 1];
  }

  lemma StrippedBefore(text: string, i: nat, j: nat, stripped: string)
    requires text != [] && White(text[|text| - 1]) && Stripped(text[..|text| - 1], i, j, stripped)
    ensures Stripped(text, i, j, stripped)
  {
    assert forall k | 0 <= k < |text| - 1 :: text[k] == text[..|text| - 1][k];
  }

  lemma {:induction false} StripCuts(text: string) returns (i: nat, j: nat)
    ensures Stripped(text, i, j, Strip(text))
  {
    i, j := 0, |text|;
    if text != [] {
      SpaceIsWhite(text[0]);
      SpaceIsWhite(text[|text| - 1]);
      if IsSpace(text[0]) {
        i, j := StripCuts(text[1..]);
        StrippedAfter(text, i, j, Strip(text));
        i, j := i + 1, j + 1;
      } else if IsSpace(text[|text| - 1]) {
        i, j := StripCuts(text[..|text| - 1]);
        StrippedBefore(text, i, j, Strip(text));
      }
    }
  }

  /** Only white space is no speech; one other character is. */
  lemma {:induction false} BlankIff(text: string)
    ensures Blank(text) <==> forall k | 0 <= k < |text| :: White(text[k])
  {
    var i, j := StripCuts(text);
  }

  // ---- the state of a call ----------------------------------------------------------------

  /** What the language model made of a transcript. */
  datatype Decision = CallTool(id: string, tool: ToolClient.Tool, args: ToolClient.Args) | Say(text: string) | Failed

  /** A _run_turn task: not begun, waiting for the model under the version of its beginning, or over. */
  datatype Phase = Spawned(text: string) | Thinking(text: string, version: int) | Ended

  /** A directly spoken reply: of which turn, under which version, and its words. */
  datatype Reply = Reply(turn: nat, version: int, text: string)

  datatype Call = Call(
    turns: Turns.TurnState,
    tts: Rime.Streamer,
    busy: bool,                    // _agent_busy
    running: seq<Phase>,           // the _run_turn tasks, in order of their transcripts
    replies: seq<Reply>,           // every direct reply spoken
    history: seq<string>,          // the conversation so far, for the model
    out: Outbound.Outbox)          // the queue to the browser

  datatype Event =
    | Opened                       // start: busy while the transcriber connects
    | Greet                        // start: the greeting
    | Heard(text: string, final: bool)
    | TurnStarts(turn: nat)
    | Decided(turn: nat, decision: Decision)
    | ToolReturns(id: string)
    | HookReturns(id: string, composed: Option<string>)
    | Speech(inner: Rime.Event)    // a task, the socket or the server of the streamer
    | WriterRuns(ok: bool)         // a round of the writer task

  function Init(t: Bookings.Table): Call {
    Call(Turns.Init(t), Rime.Init(), false, [], [], [], Outbound.Init())
  }

  function Tell(c: Call, msg: Outbound.Control): Call {
    c.(out := Outbound.Next(c.out, Outbound.SendJson(msg)))
  }

  /** What a step of the streamer gives its two callbacks: a frame, or the end of an utterance. */
  function Callbacks(before: Rime.Streamer, after: Rime.Streamer): seq<Outbound.Event> {
    if |after.forwarded| > |before.forwarded| then [Outbound.SendAudio(after.forwarded[|after.forwarded| - 1])]
    else if after.dones != before.dones then [Outbound.SendJson(Outbound.SpeechEnd)]
    else []
  }

  /** The streamer moved. A frame goes to the outbound queue; a completion runs _speech_done, which
      clears the flag and tells the browser. */
  function Heed(c: Call, tts: Rime.Streamer): Call {
    var calls := Callbacks(c.tts, tts);
    c.(tts := tts, busy := c.busy && tts.dones == c.tts.dones,
       out := if calls == [] then c.out else Outbound.Next(c.out, calls[0]))
  }

  function TtsStep(c: Call, e: Rime.Event): Call {
    Heed(c, Rime.Next(c.tts, e))
  }

  function TurnStep(cfg: Turns.Config, c: Call, e: Turns.Event): Call {
    var turns := Turns.Next(cfg, c.turns, e);
    var c' := c.(turns := turns);
    if turns.spoken != c.turns.spoken then TtsStep(c', Rime.Speak) else c'
  }

  predicate BargesIn(c: Call, e: Event) {
    e.Heard? && !Blank(e.text) && c.busy
  }

  /** on_user_speech: silence is ignored, speech over a busy agent is an interrupt. */
  function Detect(cfg: Turns.Config, c: Call, text: string): Call {
    if Blank(text) then c
    else if c.busy then TtsStep(TurnStep(cfg, c.(busy := false), Turns.Interrupt("barge_in")), Rime.Cancel)
    else TurnStep(cfg, c, Turns.UserSpeech(Strip(text)))
  }

  /** _run_turn after the model answered. */
  function Act(cfg: Turns.Config, c: Call, turn: nat, transcript: string, version: int, decision: Decision): Call
    requires turn < |c.running|
  {
    var c' := c.(running := c.running[turn := Ended]);
    match decision
    case Failed => c'
    case CallTool(id, tool, args) =>
      TurnStep(cfg, c'.(busy := true, history := c.history + [transcript]), Turns.Dispatch(id, tool, args))
    case Say(text) =>
      var told := c'.(history := c.history + [transcript, text]);
      if c.turns.version == version
      then TtsStep(told.(busy := true, replies := c.replies + [Reply(turn, version, text)]), Rime.Speak)
      else told
  }

  function Next(cfg: Turns.Config, c: Call, e: Event): Call {
    match e
    case Opened => c.(busy := true)
    case Greet => TtsStep(Tell(c, Outbound.Ready), Rime.Speak)
    case Heard(text, final) =>
      var echoed := if Blank(text) then c else Tell(c, Outbound.Transcript(text, final));
      var heard := Detect(cfg, echoed, text);
      if final then heard.(running := heard.running + [Spawned(text)]) else heard
    case TurnStarts(turn) =>
      if turn < |c.running| && c.running[turn].Spawned?
      then c.(running := c.running[turn := Thinking(c.running[turn].text, c.turns.version)]) else c
    case Decided(turn, decision) =>
      if turn < |c.running| && c.running[turn].Thinking?
      then Act(cfg, c, turn, c.running[turn].text, c.running[turn].version, decision) else c
    case ToolReturns(id) => TurnStep(cfg, c, Turns.Arrive(id))
    case HookReturns(id, composed) => TurnStep(cfg, c, Turns.Reply(id, composed))
    case Speech(inner) => if inner.Speak? || inner.Cancel? then c else TtsStep(c, inner)
    case WriterRuns(ok) => c.(out := Outbound.Next(c.out, Outbound.WriterTurn(ok)))
  }

  function Run(cfg: Turns.Config, c: Call, trace: seq<Event>): Call {
    if trace == [] then c else Next(cfg, Run(cfg, c, trace[..|trace| - 1]), trace[|trace| - 1])
  }
}
