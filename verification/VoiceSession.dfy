/** The objects of one live call: the InterruptionDetector of agent/stt_pipeline.py and the
    VoiceCallSession of backend/voice.py around one TurnManager and one RimeStreamer. Each
    uninterrupted segment of their code performs one step of VoiceCall. */
module VoiceSessions {
  import opened Common
  import Turns
  import Rime
  import RimeStreamers
  import Outbound
  import opened TurnManagers
  import opened VoiceCall
  import VoiceLaws

  class InterruptionDetector {
    const tm: TurnManager
    var busy: bool

    constructor (manager: TurnManager)
      ensures tm == manager && !busy
    {
      tm, busy := manager, false;
    }

    method SetAgentBusy(b: bool)
      modifies this
      ensures busy == b
    {
      busy := b;
    }

    /** Fires an interrupt exactly on non-blank speech over a busy agent; the flag is spent by it. */
    method OnUserSpeech(transcript: string) returns (fired: bool)
      requires tm.Valid()
      modifies this, tm.store.r, tm.events, tm.tts, tm.tts.rime
      ensures tm.Valid()
      ensures fired <==> !Blank(transcript) && old(busy)
      ensures busy == (old(busy) && !fired)
      ensures tm.View() == if fired then Turns.Next(tm.cfg, old(tm.View()), Turns.Interrupt("barge_in"))
                           else if Blank(transcript) then old(tm.View())
                           else Turns.Next(tm.cfg, old(tm.View()), Turns.UserSpeech(Strip(transcript)))
      ensures tm.tts.rime.View() == if fired then Rime.Next(old(tm.tts.rime.View()), Rime.Cancel)
                                    else old(tm.tts.rime.View())
    {
      var text := Strip(transcript);
      if |text| < 1 {
        return false;
      }
      if busy {
        busy := false;
        var _ := tm.OnInterrupt("barge_in");
        return true;
      }
      var _ := tm.OnUserSpeechStart(text);
      return false;
    }
  }

  class VoiceCallSession {
    const tm: TurnManager
    const tts: RimeStreamers.RimeStreamer
    const detector: InterruptionDetector
    const out: Outbound.OutboundQueue
    // the turn tasks, the direct replies spoken, and the conversation so far
    var running: seq<Phase>
    var replies: seq<Reply>
    var history: seq<string>

    ghost predicate Valid()
      reads tm, tm.store.r
    {
      tm.Valid() && detector.tm == tm && tm.tts.rime == tts
    }

    ghost function View(): Call
      reads this, detector, out, tts, tm, tm.store.r, tm.events, tm.tts, tm.tools.db
    {
      Call(tm.View(), tts.View(), detector.busy, running, replies, history, out.View())
    }

    constructor (manager: TurnManager)
      requires manager.Valid()
      ensures Valid() && tm == manager
      ensures View() == Call(manager.View(), manager.tts.rime.View(), false, [], [], [], Outbound.Init())
    {
      tm, tts := manager, manager.tts.rime;
      detector := new InterruptionDetector(manager);
      out := new Outbound.OutboundQueue();
      running, replies, history := [], [], [];
    }

    /** The first segment of start. */
    method Open()
      requires Valid()
      modifies detector
      ensures Valid() && View() == Next(tm.cfg, old(View()), Opened)
    {
      detector.SetAgentBusy(true);
    }

    /** The rest of start, once the transcriber is open or failed to open. */
    method SpeakGreeting()
      requires Valid()
      modifies tts, out
      ensures Valid() && View() == Next(tm.cfg, old(View()), Greet)
    {
      out.SendJsonMessage(Outbound.Ready);
      tts.Speak();
    }

    /** _on_stt: what was heard is echoed; a final transcript always starts a turn, also when it just
        interrupted. */
    method OnStt(text: string, final: bool)
      requires Valid()
      modifies this, detector, out, tm.store.r, tm.events, tm.tts, tts
      ensures Valid() && View() == Next(tm.cfg, old(View()), Heard(text, final))
    {
      Echo(text, final);
      NoticeSpeech(text);
      if final {
        running := running + [Spawned(text)];
      }
    }

    method Echo(text: string, final: bool)
      requires Valid()
      modifies out
      ensures Valid()
      ensures View() == if Blank(text) then old(View()) else Tell(old(View()), Outbound.Transcript(text, final))
    {
      if Strip(text) != [] {
        out.SendJsonMessage(Outbound.Transcript(text, final));
      }
    }

    method NoticeSpeech(text: string)
      requires Valid()
      modifies detector, tm.store.r, tm.events, tm.tts, tts
      ensures Valid() && View() == Detect(tm.cfg, old(View()), text)
    {
      var _ := detector.OnUserSpeech(text);
    }

    /** _run_turn up to the model: read the gate's version. */
    method TurnBegins(turn: nat)
      requires Valid() && turn < |running| && running[turn].Spawned?
      modifies this
      ensures Valid() && View() == Next(tm.cfg, old(View()), TurnStarts(turn))
    {
      var version := tm.store.GetTurnVersion();
      running := running[turn := Thinking(running[turn].text, version)];
    }

    /** _run_turn once the model answered, or failed. */
    method TurnDecides(turn: nat, decision: Decision)
      requires Valid() && turn < |running| && running[turn].Thinking?
      requires decision.CallTool? ==> decision.id !in tm.tasks
      modifies this, detector, tm, tm.store.r, tm.events, tts
      ensures Valid() && View() == Next(tm.cfg, old(View()), Decided(turn, decision))
    {
      var transcript, version := running[turn].text, running[turn].version;
      running := running[turn := Ended];
      match decision
      case Failed =>
      case CallTool(id, tool, args) =>
        detector.SetAgentBusy(true);
        history := history + [transcript];
        tm.DispatchTool(id, tool, args);
      case Say(text) =>
        history := history + [transcript, text];
        var now := tm.store.GetTurnVersion();
        if now == version {
          SpeakReply(turn, version, text);
        }
    }

    method SpeakReply(turn: nat, version: int, text: string)
      requires Valid()
      modifies `replies, detector, tts
      ensures Valid()
      ensures View() == TtsStep(old(View()).(busy := true, replies := old(replies) + [Reply(turn, version, text)]), Rime.Speak)
    {
      detector.SetAgentBusy(true);
      replies := replies + [Reply(turn, version, text)];
      tts.Speak();
    }

    method ToolArrives(id: string)
      requires Valid() && id in tm.tasks && tm.tasks[id].phase.Running?
      modifies tm, tm.store.r, tm.events, tm.tts, tts, tm.tools.db
      ensures Valid() && View() == Next(tm.cfg, old(View()), ToolReturns(id))
    {
      tm.Execute(id);
    }

    method HookAnswers(id: string, composed: Option<string>)
      requires Valid() && id in tm.tasks && tm.tasks[id].phase.Confirming?
      modifies tm, tm.tts, tts
      ensures Valid() && View() == Next(tm.cfg, old(View()), HookReturns(id, composed))
    {
      tm.ReplyReady(id, composed);
    }

    /** A segment of the streamer; its callbacks run inside it. */
    method StreamerRuns(inner: Rime.Event)
      requires Valid() && !inner.Speak? && !inner.Cancel?
      modifies tts, detector, out
      ensures Valid() && View() == Next(tm.cfg, old(View()), Speech(inner))
    {
      ghost var before := View();
      var frames, dones := |tts.forwarded|, tts.dones;
      MoveStreamer(inner);
      RunCallbacks(before, frames, dones);
    }

    method MoveStreamer(inner: Rime.Event)
      requires Valid()
      modifies tts
      ensures Valid() && View() == old(View()).(tts := Rime.Next(old(tts.View()), inner))
      ensures |tts.forwarded| > |old(tts.forwarded)| ==> tts.dones == old(tts.dones)
    {
      VoiceLaws.OneCallback(tts.View(), inner);
      tts.Handle(inner);
    }

    /** on_audio for a new frame, on_done for a new completion. */
    method RunCallbacks(ghost before: Call, frames: nat, dones: seq<nat>)
      requires Valid() && View() == before.(tts := tts.View())
      requires frames == |before.tts.forwarded| && dones == before.tts.dones
      requires |tts.forwarded| > frames ==> tts.dones == dones
      modifies detector, out
      ensures Valid() && View() == Heed(before, tts.View())
    {
      if |tts.forwarded| > frames {
        out.SendAudioFrame(tts.forwarded[|tts.forwarded| - 1]);
      } else if tts.dones != dones {
        SpeechDone();
      }
    }

    /** _speech_done. */
    method SpeechDone()
      modifies detector, out
      ensures !detector.busy
      ensures out.View() == Outbound.Next(old(out.View()), Outbound.SendJson(Outbound.SpeechEnd))
    {
      detector.SetAgentBusy(false);
      out.SendJsonMessage(Outbound.SpeechEnd);
    }

    /** A round of the writer task; the browser's socket accepts the item or raises. */
    method WriterRound(ok: bool)
      requires Valid()
      modifies out
      ensures Valid() && View() == Next(tm.cfg, old(View()), WriterRuns(ok))
    {
      out.WriterRound(ok);
    }
  }
}
