/** Which utterance a server message, a text or a frame is charged to. The comments of
    agent/tts_rime.py promise more than the code does here; each promise is shown to fail on a
    concrete run and the exact condition under which it holds is proved. */
module RimeAttribution {
  import opened Common
  import Pcm
  import opened Rime
  import opened RimeLaws

  lemma RunSnoc(s: Streamer, trace: seq<Event>, e: Event)
    ensures Run(s, trace + [e]) == Next(Run(s, trace), e)
  {
    assert (trace + [e])[..|trace|] == trace;
  }

  /** The sent token is one whose text was handed to the socket. */
  ghost predicate SentOk(s: Streamer) {
    && (s.sent.Some? ==> s.sent.value in s.wire)
    && (s.holder.Sending? ==> s.holder.token in s.wire)
  }

  lemma SentStep(s: Streamer, e: Event)
    requires SentOk(s)
    ensures SentOk(Next(s, e))
  {
    match e
    case Acquire =>
    case Connected(_) =>
    case SendDone(_, _) =>
    case _ =>
      if !e.Speak? { LockUntouched(s, e); }
  }

  lemma {:induction false} SentReachable(trace: seq<Event>)
    ensures SentOk(Run(Init(), trace))
  {
    if trace != [] {
      SentReachable(trace[..|trace| - 1]);
      SentStep(Run(Init(), trace[..|trace| - 1]), trace[|trace| - 1]);
    }
  }

  /** In every run, a done (or the death of the reader) that comes before the current utterance's
      text was handed to the socket never completes that utterance. */
  lemma {:induction false} DoneBeforeTextCompletesNothing(trace: seq<Event>, e: Event)
    requires e.DoneMsg? || e.ReaderEnds?
    requires Run(Init(), trace).current !in Run(Init(), trace).wire
    ensures Next(Run(Init(), trace), e).dones == Run(Init(), trace).dones
  {
    SentReachable(trace);
    var token := CompletionOf(Run(Init(), trace), e);
  }

  /** A done the server meant for an earlier utterance ends the current one exactly when the current
      text is already sent and not yet completed; the code cannot tell the two apart. */
  lemma StrayDoneEndsCurrentIff(s: Streamer, owner: nat)
    requires s.readers > 0 && owner < s.current
    ensures Next(s, DoneMsg(owner)).dones != s.dones <==> s.sent == Some(s.current) && s.fired != Some(s.current)
    ensures Next(s, DoneMsg(owner)) == Next(s, DoneMsg(s.current))
  {
  }

  /** A first utterance is on the wire. */
  lemma FirstOnTheWire() returns (trace: seq<Event>, s: Streamer)
    ensures s == Run(Init(), trace) && s.holder == Polling(1, 0.0, 0.0) && s.ws.Open? && s.readers == 1
    ensures s.current == 1 && s.sent == Some(1) && s.wire == [1] && s.dones == [] && s.fired.None?
    ensures s.queue == [] && s.fires == [] && s.active && !s.dropped
  {
    trace, s := [], Init();
    trace, s := Extend(trace, s, Speak);
    trace, s := Extend(trace, s, Acquire);
    trace, s := Extend(trace, s, Connected(true));
    trace, s := Extend(trace, s, SendDone(true, 0.0));
  }

  /** It was cancelled, and gave the lock back. */
  lemma FirstCancelled() returns (trace: seq<Event>, s: Streamer)
    ensures s == Run(Init(), trace) && s.holder.Free? && s.ws.Open? && s.readers == 1
    ensures s.current == 1 && s.sent == Some(1) && s.dones == [1] && s.fired == Some(1) && s.queue == []
  {
    trace, s := FirstOnTheWire();
    trace, s := Extend(trace, s, Cancel);
    trace, s := Extend(trace, s, RunFire);
    trace, s := Extend(trace, s, Poll(1.0));
  }

  /** A run in which the done of a cancelled utterance ends the next one early. */
  lemma StrayDoneHappens() returns (trace: seq<Event>, s: Streamer)
    ensures s == Run(Init(), trace) && s.readers > 0
    ensures s.current == 2 && s.active && s.dones == [1]
    ensures Next(s, DoneMsg(1)).dones == [1, 2] && !Next(s, DoneMsg(1)).active
  {
    trace, s := FirstCancelled();
    trace, s := Extend(trace, s, Speak);
    trace, s := Extend(trace, s, Acquire);
    trace, s := Extend(trace, s, SendDone(true, 2.0));
  }

  lemma Extend(trace: seq<Event>, s: Streamer, e: Event) returns (trace': seq<Event>, s': Streamer)
    requires s == Run(Init(), trace)
    ensures trace' == trace + [e] && s' == Next(s, e) && s' == Run(Init(), trace')
  {
    trace', s' := trace + [e], Next(s, e);
    RunSnoc(Init(), trace, e);
  }

  /** The event gives the lock's holder a socket to send a text on. */
  predicate ReadyToSend(s: Streamer, e: Event, token: nat) {
    match e
    case Acquire => s.holder.Free? && s.queue != [] && s.queue[0] == Synth(token) && s.ws.Open?
    case Connected(ok) => ok && s.holder == Connecting(Synth(token))
    case _ => false
  }

  /** A text goes out exactly when its task has the lock and a socket and some utterance is active;
      its own token is not compared with the current one. */
  lemma TextIsSentIff(s: Streamer, e: Event, token: nat)
    ensures Next(s, e).wire != s.wire <==> s.active && exists t: nat :: ReadyToSend(s, e, t)
    ensures s.active && ReadyToSend(s, e, token) ==> Next(s, e).wire == s.wire + [token]
  {
    match e
    case Acquire =>
      if s.queue != [] && s.queue[0].Synth? {
        assert ReadyToSend(s, e, s.queue[0].token) || !s.holder.Free? || !s.ws.Open?;
      }
    case Connected(ok) =>
      if s.holder.Connecting? && s.holder.job.Synth? { assert ReadyToSend(s, e, s.holder.job.token) || !ok; }
    case _ =>
      if !e.Speak? { LockUntouched(s, e); }
  }

  /** A run in which the text of a superseded utterance is sent. */
  lemma SupersededTextIsSent() returns (trace: seq<Event>, s: Streamer)
    ensures s == Run(Init(), trace) && s.wire == [1] && s.current == 2
  {
    trace, s := [], Init();
    trace, s := Extend(trace, s, Speak);
    trace, s := Extend(trace, s, Speak);
    trace, s := Extend(trace, s, Acquire);
    trace, s := Extend(trace, s, Connected(true));
  }

  /** The drop latch as the last cancel or speak of a run left it. */
  predicate Latched(before: bool, trace: seq<Event>) {
    if trace == [] then before
    else
      var last := trace[|trace| - 1];
      if last.Cancel? then true else if last.Speak? then false else Latched(before, trace[..|trace| - 1])
  }

  lemma LatchStep(s: Streamer, e: Event)
    requires s.active ==> !s.dropped
    ensures var s' := Next(s, e);
      && (s'.active ==> !s'.dropped)
      && s'.dropped == (if e.Cancel? then true else if e.Speak? then false else s.dropped)
  {
    match e
    case Speak =>
    case Cancel =>
    case StartWarmUp =>
    case Acquire =>
    case Connected(_) =>
    case SendDone(_, _) =>
    case Poll(_) =>
    case RunFire =>
    case RunClear =>
    case Chunk(_, _) =>
    case DoneMsg(_) =>
    case ReaderEnds =>
    case SocketCloses =>
    case CloseBegins =>
    case CloseEnds =>
  }

  /** Under every schedule only cancel and speak move the latch, although sending a text writes it. */
  lemma {:induction false} LatchIsLastCommand(s: Streamer, trace: seq<Event>)
    requires s.active ==> !s.dropped
    ensures var s' := Run(s, trace); s'.dropped == Latched(s.dropped, trace) && (s'.active ==> !s'.dropped)
  {
    if trace != [] {
      LatchIsLastCommand(s, trace[..|trace| - 1]);
      LatchStep(Run(s, trace[..|trace| - 1]), trace[|trace| - 1]);
    }
  }

  /** In every run a decodable frame read from the socket is dropped exactly when the last of all
      cancels and speaks was a cancel, whichever utterance the frame belongs to. */
  lemma {:induction false} FrameIsForwardedIff(trace: seq<Event>, raw: seq<Pcm.byte>, now: real)
    requires Run(Init(), trace).readers > 0
    ensures var s := Run(Init(), trace); var s' := Next(s, Chunk(Some(raw), now));
      if Latched(false, trace) then s'.forwarded == s.forwarded
      else |s'.forwarded| == |s.forwarded| + 1 && s'.forwarded[..|s.forwarded|] == s.forwarded
  {
    LatchIsLastCommand(Init(), trace);
  }

  ghost predicate NoCancel(trace: seq<Event>) {
    forall i | 0 <= i < |trace| :: !trace[i].Cancel?
  }

  lemma {:induction false} LatchedUntilSpeak(trace: seq<Event>)
    requires NoCancel(trace)
    ensures Latched(true, trace) <==> NoSpeak(trace)
  {
    if trace != [] {
      var front := trace[..|trace| - 1];
      LatchedUntilSpeak(front);
      assert trace[|trace| - 1].Speak? || NoSpeak(trace) == NoSpeak(front) by {
        assert forall i | 0 <= i < |front| :: front[i] == trace[i];
      }
    }
  }

  /** After a cancel a frame is forwarded exactly once a new speak was made, sent or not. */
  lemma {:induction false} FrameAfterCancelIsForwardedIff(s: Streamer, trace: seq<Event>, raw: seq<Pcm.byte>, now: real)
    requires NoCancel(trace) && Run(Next(s, Cancel), trace).readers > 0
    ensures var s' := Run(Next(s, Cancel), trace);
      Next(s', Chunk(Some(raw), now)).forwarded != s'.forwarded <==> !NoSpeak(trace)
  {
    LatchIsLastCommand(Next(s, Cancel), trace);
    LatchedUntilSpeak(trace);
  }

  /** A run in which a frame that arrives after the next speak, before that utterance's text was
      even sent, is forwarded: speak reopens the latch at once. */
  lemma OldFrameAfterSpeakIsForwarded(raw: seq<Pcm.byte>) returns (trace: seq<Event>, s: Streamer)
    ensures s == Run(Init(), trace) && s.current == 2 && s.wire == [1]
    ensures |Next(s, Chunk(Some(raw), 3.0)).forwarded| == |s.forwarded| + 1
  {
    trace, s := FirstOnTheWire();
    trace, s := Extend(trace, s, Cancel);
    trace, s := Extend(trace, s, Speak);
  }

  /** A warm-up whose handshake succeeds leaves an open socket with a reader and a fresh byte stream, and the
      next text goes out on it without another handshake. */
  lemma WarmUpPays(s: Streamer)
    requires s.holder == Connecting(WarmUp)
    ensures var s' := Next(s, Connected(true));
      && s'.ws.Open? && s'.readers == s.readers + 1 && s'.carry == [] && s'.holder.Free? && s'.queue == s.queue
      && (s.active && s.queue != [] && s.queue[0].Synth? ==>
            Next(s', Acquire).wire == s.wire + [s.queue[0].token] && Next(s', Acquire).holder == Sending(s.queue[0].token))
    ensures var s' := Next(s, Connected(false)); s' == s.(holder := Free)
  {
  }

  // ---- a dead socket --------------------------------------------------------------------

  ghost predicate NoReopening(trace: seq<Event>) {
    forall i | 0 <= i < |trace| :: !trace[i].StartWarmUp? && !trace[i].CloseEnds?
  }

  /** A socket that closed, with no warm-up under way to replace it. */
  ghost predicate Dead(s: Streamer) {
    s.ws.Closed? && !s.holder.Connecting? && WarmUp !in s.queue
  }

  lemma DeadStep(s: Streamer, e: Event)
    requires Dead(s) && !e.StartWarmUp? && !e.CloseEnds?
    ensures Dead(Next(s, e)) && Next(s, e).wire == s.wire
  {
    match e
    case Acquire => if s.queue != [] { assert s.queue == [s.queue[0]] + s.queue[1..]; }
    case Speak =>
    case Cancel =>
    case Connected(_) =>
    case SendDone(_, _) =>
    case Poll(_) =>
    case RunFire =>
    case RunClear =>
    case Chunk(_, _) =>
    case DoneMsg(_) =>
    case ReaderEnds =>
    case SocketCloses =>
    case CloseBegins =>
  }

  /** A closed socket is never replaced by speaking: until another warm-up or a close, every later
      utterance completes without its text being sent. */
  lemma {:induction false} DeadSocketStaysDead(s: Streamer, trace: seq<Event>)
    requires Dead(s) && NoReopening(trace)
    ensures Dead(Run(s, trace)) && Run(s, trace).wire == s.wire
  {
    if trace != [] {
      DeadSocketStaysDead(s, trace[..|trace| - 1]);
      DeadStep(Run(s, trace[..|trace| - 1]), trace[|trace| - 1]);
    }
  }

  /** A run that reaches such a state in the middle of an utterance; the next one is never sent. */
  lemma SocketCanDie() returns (trace: seq<Event>, s: Streamer)
    ensures s == Run(Init(), trace) && Dead(s) && s.wire == [1] && s.active
    ensures forall later | NoReopening(later) :: Run(s, later).wire == [1]
  {
    trace, s := [], Init();
    trace, s := Extend(trace, s, Speak);
    trace, s := Extend(trace, s, Acquire);
    trace, s := Extend(trace, s, Connected(true));
    trace, s := Extend(trace, s, SocketCloses);
    forall later | NoReopening(later) ensures Run(s, later).wire == [1] {
      DeadSocketStaysDead(s, later);
    }
  }
}
