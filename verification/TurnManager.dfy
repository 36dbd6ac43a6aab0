/** The TurnManager object itself, over the shared Redis, the database, the event log and the
    speech facade: each uninterrupted segment of its code performs one step of Turns. */
module TurnManagers {
  import opened Common
  import opened Bookings
  import opened ToolClient
  import opened SessionStore
  import opened Turns
  import Rime
  import RimeStreamers

  /** agent/event_log.py: entries are only ever appended. */
  class EventLogger {
    var events: seq<Entry>

    constructor ()
      ensures events == []
    {
      events := [];
    }

    method Log(entry: Entry)
      modifies this
      ensures events == old(events) + [entry]
    {
      events := events + [entry];
    }
  }

  /** The `tts` handed to the manager: the streamer, with a history of what was asked of it. */
  class Speaker {
    const rime: RimeStreamers.RimeStreamer
    var spoken: seq<Utterance>
    var cancels: nat

    constructor (streamer: RimeStreamers.RimeStreamer)
      ensures rime == streamer && spoken == [] && cancels == 0
    {
      rime, spoken, cancels := streamer, [], 0;
    }

    method Speak(text: Text, version: int)
      modifies this, rime
      ensures spoken == old(spoken) + [Utterance(text, version)] && cancels == old(cancels)
      ensures rime.View() == Rime.Next(old(rime.View()), Rime.Speak)
    {
      spoken := spoken + [Utterance(text, version)];
      rime.Speak();
    }

    method Cancel()
      modifies this, rime
      ensures cancels == old(cancels) + 1 && spoken == old(spoken)
      ensures rime.View() == Rime.Next(old(rime.View()), Rime.Cancel)
    {
      cancels := cancels + 1;
      rime.Cancel();
    }
  }

  /** The streamer after a segment that did or did not speak. */
  ghost function Voiced(s: Rime.Streamer, spoke: bool): Rime.Streamer {
    if spoke then Rime.Next(s, Rime.Speak) else s
  }

  class TurnManager {
    const store: SessionStore<Payload>
    const events: EventLogger
    const tts: Speaker
    const tools: LocalToolClient
    const cfg: Config
    var tasks: map<string, Task>

    ghost predicate Valid()
      reads this, store.r
    {
      Live(store.r.data, store.sid)
    }

    /** The protocol state these objects hold together. */
    ghost function View(): TurnState
      reads this, store.r, events, tts, tools.db
    {
      TurnState(VersionIn(store.r.data, store.sid), PendingIn(store.r.data, store.sid),
                StateIn(store.r.data, store.sid), tools.db.table, tasks, tts.spoken, tts.cancels, events.events)
    }

    /** The data of every other session. */
    ghost function Others(): Keyspace<Payload>
      reads store.r
    {
      Elsewhere(store.r.data, store.sid)
    }

    constructor (sessionStore: SessionStore<Payload>, eventLog: EventLogger, speaker: Speaker,
                 client: LocalToolClient, config: Config)
      requires CellsOf(sessionStore.r.data, sessionStore.sid) == Cells(None, None, None)
      requires eventLog.events == [] && speaker.spoken == [] && speaker.cancels == 0
      modifies sessionStore.r
      ensures Valid() && View() == Init(client.db.table)
      ensures store == sessionStore && events == eventLog && tts == speaker && tools == client && cfg == config
      ensures Others() == old(Elsewhere(sessionStore.r.data, sessionStore.sid))
    {
      store, events, tts, tools, cfg := sessionStore, eventLog, speaker, client, config;
      tasks := map[];
      new;
      ghost var before := store.r.data;
      store.CreateSession();
      OwnCells(before, store.sid, Create);
      ElsewhereUnchanged(before, store.sid, Create);
      assert CellsOf(store.r.data, store.sid) == Cells(Some(Number(1)), None, None);
    }

    method OnUserSpeechStart(transcript: string) returns (v: int)
      requires Valid()
      modifies events
      ensures Valid() && View() == Next(cfg, old(View()), UserSpeech(transcript))
      ensures v == View().version
    {
      v := store.GetTurnVersion();
      events.Log(SpeechStart(v, transcript));
    }

    method OnInterrupt(reason: string) returns (newVersion: int)
      requires Valid()
      modifies store.r, events, tts, tts.rime
      ensures Valid() && View() == Next(cfg, old(View()), Interrupt(reason))
      ensures newVersion == old(View()).version + 1
      ensures tts.rime.View() == Rime.Next(old(tts.rime.View()), Rime.Cancel)
      ensures Others() == old(Others())
    {
      ghost var before := store.r.data;
      newVersion := store.IncrementTurnVersion();
      ReadsAfter(before, store.sid, Increment);
      ElsewhereUnchanged(before, store.sid, Increment);
      events.Log(InterruptStart(newVersion));
      tts.Cancel();
      events.Log(TtsCancel(reason));
      assert events.events == old(events.events) + [InterruptStart(newVersion), TtsCancel(reason)];
    }

    /** dispatch_tool under a fresh call id: tag, register, log, spawn. */
    method DispatchTool(id: string, tool: Tool, args: Args)
      requires Valid() && id !in tasks
      modifies this, store.r, events
      ensures Valid() && View() == Next(cfg, old(View()), Dispatch(id, tool, args))
      ensures Others() == old(Others())
    {
      ghost var before := store.r.data;
      var version := store.GetTurnVersion();
      store.RegisterPendingTool(id, version);
      ReadsAfter(before, store.sid, Register(id, version));
      ElsewhereUnchanged(before, store.sid, Register(id, version));
      events.Log(DispatchEntry(id, tool, version));
      tasks := tasks[id := Task(Call(tool, args, version), Running)];
    }

    /** _execute when the call's delay is over, through _on_tool_result up to the reply hook. */
    method Execute(id: string)
      requires Valid() && id in tasks && tasks[id].phase.Running?
      modifies this, store.r, events, tts, tts.rime, tools.db
      ensures Valid() && View() == Next(cfg, old(View()), Arrive(id))
      ensures tts.rime.View() == Voiced(old(tts.rime.View()), View().spoken != old(View()).spoken)
      ensures Others() == old(Others())
    {
      var call := tasks[id].call;
      var result := tools.RunTool(cfg.find, call.tool, call.args);
      if result.None? {
        tasks := tasks[id := Task(call, Raised)];
        return;
      }
      OnToolResult(id, call, result.value);
    }

    method OnToolResult(id: string, call: Call, result: ToolResult)
      requires Valid() && id in tasks && tasks[id] == Task(call, Running)
      requires Perform(cfg.find, tools.db.table, call.tool, call.args) == Some(result)
      modifies this, store.r, events, tts, tts.rime, tools.db
      ensures Valid() && View() == Next(cfg, old(View()), Arrive(id))
      ensures tts.rime.View() == Voiced(old(tts.rime.View()), View().spoken != old(View()).spoken)
      ensures Others() == old(Others())
    {
      ghost var before := store.r.data;
      var tagged := store.PopPendingTool(id);
      ReadsAfter(before, store.sid, Pop(id));
      ElsewhereUnchanged(before, store.sid, Pop(id));
      var current := store.GetTurnVersion();
      if call.version != current {
        events.Log(ResultEntry(id, call.tool, call.version, current, DiscardedStale));
        tasks := tasks[id := Task(call, Discarded)];
        return;
      }
      var payload := ApplyResult(result);
      if payload.None? {
        tasks := tasks[id := Task(call, CommitFailed)];
        return;
      }
      ConfirmResult(id, call, payload.value, current);
    }

    /** A fresh result after its commit or read, up to the reply hook. */
    method ConfirmResult(id: string, call: Call, payload: Payload, current: int)
      requires Valid() && id in tasks && tasks[id] == Task(call, Running)
      requires current == VersionIn(store.r.data, store.sid) == call.version
      modifies this, store.r, events, tts, tts.rime
      ensures Valid() && View() == ApplyFreshly(cfg, old(View()), id, call, payload)
      ensures tts.rime.View() == Voiced(old(tts.rime.View()), !cfg.hooked)
      ensures View().spoken == old(View()).spoken <==> cfg.hooked
      ensures Others() == old(Others())
    {
      ghost var before := store.r.data;
      store.SetConfirmedState(payload);
      ReadsAfter(before, store.sid, Confirm(payload));
      ElsewhereUnchanged(before, store.sid, Confirm(payload));
      events.Log(ResultEntry(id, call.tool, call.version, current, AppliedFresh));
      if cfg.hooked {
        tasks := tasks[id := Task(call, Confirming(payload, current))];
      } else {
        tasks := tasks[id := Task(call, Finished)];
        tts.Speak(Rendered(call.tool, payload), current);
      }
    }

    /** The commit or read of a fresh result; None when the commit raises. */
    method ApplyResult(result: ToolResult) returns (payload: Option<Payload>)
      modifies tools.db
      ensures payload.None? <==> Settle(old(tools.db.table), result).None?
      ensures payload.None? ==> tools.db.table == old(tools.db.table)
      ensures payload.Some? ==> Settle(old(tools.db.table), result) == Some((tools.db.table, payload.value))
    {
      match result
      case Read(b) => payload := Some(Record(b));
      case Listed(bs) => payload := Some(Found(bs));
      case Proposed(p) =>
        var booking := tools.CommitProposal(p);
        payload := if booking.Some? then Some(Record(booking.value)) else None;
    }

    /** The rest of _on_tool_result once the reply hook returned a text, or raised. */
    method ReplyReady(id: string, text: Option<string>)
      requires Valid() && id in tasks && tasks[id].phase.Confirming?
      modifies this, tts, tts.rime
      ensures Valid() && View() == Next(cfg, old(View()), Reply(id, text))
      ensures tts.rime.View() == Rime.Next(old(tts.rime.View()), Rime.Speak)
    {
      var task := tasks[id];
      var said := if text.Some? then Composed(text.value) else Rendered(task.call.tool, task.phase.payload);
      tasks := tasks[id := task.(phase := Finished)];
      tts.Speak(said, task.phase.spokenAs);
    }
  }
}
