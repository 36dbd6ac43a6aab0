/** What applied calls leave behind, over whole runs of the turn protocol: the confirmed state and the words
    spoken, stated by the booking a request is about and not by how proposals are committed. */
module TurnAnswers {
  import opened Common
  import opened Bookings
  import opened ToolClient
  import opened Turns
  import opened TurnLaws
  import Serializability

  /** The value under a key of the argument dict, or the default if the key is absent. */
  ghost predicate Asked(arg: Option<Value>, default: string, v: Value) {
    match arg
    case Some(given) => v == given
    case None => v == Some(default)
  }

  /** The search was asked for this name and phone, and found these bookings. */
  ghost predicate Finds(find: Finder, t: Table, args: Args, name: Value, phone: Value, found: seq<Booking>) {
    Asked(args.customerName, "", name) && Asked(args.phone, "", phone) && find(t, name, phone) == Some(found)
  }

  /** The payload is what the call asked to hear, given the bookings before and after it. */
  ghost predicate Answers(find: Finder, before: Table, after: Table, call: Call, payload: Payload) {
    match call.tool
    case LookupBooking =>
      && call.args.bookingId.Some? && call.args.bookingId.value in before.rows
      && payload == Record(Booking(call.args.bookingId.value, before.rows[call.args.bookingId.value]))
    case FindBookings =>
      payload.Found? && exists name, phone :: Finds(find, before, call.args, name, phone, payload.bookings)
    case CreateBooking =>
      && before.nextId in after.rows
      && payload == Record(Booking(before.nextId, after.rows[before.nextId]))
    case UnknownTool(_) => false
    case _ =>
      && call.args.bookingId.Some? && call.args.bookingId.value in after.rows
      && payload == Record(Booking(call.args.bookingId.value, after.rows[call.args.bookingId.value]))
  }

  lemma SettledAnswers(find: Finder, t: Table, call: Call)
    requires Perform(find, t, call.tool, call.args).Some?
    requires Settle(t, Perform(find, t, call.tool, call.args).value).Some?
    ensures var (after, payload) := Settle(t, Perform(find, t, call.tool, call.args).value).value;
      Answers(find, t, after, call, payload)
  {
    if call.tool.FindBookings? {
      var name, phone := GetOr(call.args.customerName, ""), GetOr(call.args.phone, "");
      assert Finds(find, t, call.args, name, phone, find(t, name, phone).value);
    }
  }

  /** The event is the arrival that applies a call. */
  predicate AppliesAt(cfg: Config, s: TurnState, e: Event) {
    && e.Arrive? && e.id in s.tasks && s.tasks[e.id].phase.Running?
    && e.id in Next(cfg, s, e).tasks && Applied(Next(cfg, s, e).tasks[e.id].phase)
  }

  /** One step confirms the answer of the call it applies, and otherwise nothing. */
  lemma AnswerStep(cfg: Config, s: TurnState, e: Event)
    ensures var s' := Next(cfg, s, e);
      if AppliesAt(cfg, s, e)
      then s'.confirmed.Some? && Answers(cfg.find, s.table, s'.table, s.tasks[e.id].call, s'.confirmed.value)
      else s'.confirmed == s.confirmed
  {
    match e
    case UserSpeech(_) =>
    case Interrupt(_) =>
    case Dispatch(_, _, _) =>
    case Arrive(id) => if AppliesAt(cfg, s, e) { SettledAnswers(cfg.find, s.table, s.tasks[id].call); }
    case Reply(_, _) =>
  }

  /** The position of the last event that applied a call. */
  function LastApplied(cfg: Config, t: Table, trace: seq<Event>): (i: Option<nat>)
    ensures i.Some? ==> i.value < |trace|
  {
    if trace == [] then None
    else
      var front := trace[..|trace| - 1];
      if AppliesAt(cfg, Run(cfg, Init(t), front), trace[|trace| - 1]) then Some(|front|) else LastApplied(cfg, t, front)
  }

  predicate IsApplied(entry: Entry) {
    entry.ResultEntry? && entry.action.AppliedFresh?
  }

  lemma AppliedEntryStep(cfg: Config, s: TurnState, e: Event)
    ensures var s' := Next(cfg, s, e);
      (exists entry :: entry in s'.log && IsApplied(entry))
      <==> AppliesAt(cfg, s, e) || exists entry :: entry in s.log && IsApplied(entry)
  {
    var more := EntriesLogged(cfg, s, e);
    var s' := Next(cfg, s, e);
    if e.Arrive? && e.id in s.tasks && s.tasks[e.id].phase.Running? {
      Serializability.ArrivalAppliesOwnEffect(cfg, s, e.id);
      if AppliesAt(cfg, s, e) {
        assert s'.log[|s.log|] in s'.log && IsApplied(s'.log[|s.log|]);
      }
    }
    assert forall entry | entry in s.log :: entry in s'.log;
  }

  lemma {:induction false} AppliedEntriesAreLogged(cfg: Config, t: Table, trace: seq<Event>)
    ensures (exists entry :: entry in Run(cfg, Init(t), trace).log && IsApplied(entry))
        <==> LastApplied(cfg, t, trace).Some?
  {
    if trace != [] {
      AppliedEntriesAreLogged(cfg, t, trace[..|trace| - 1]);
      AppliedEntryStep(cfg, Run(cfg, Init(t), trace[..|trace| - 1]), trace[|trace| - 1]);
    }
  }

  /** Event i applied a call, and the payload is the answer to it. */
  ghost predicate AnsweredAt(cfg: Config, t: Table, trace: seq<Event>, i: nat, payload: Payload)
    requires i < |trace|
  {
    var before, after := Run(cfg, Init(t), trace[..i]), Run(cfg, Init(t), trace[..i + 1]);
    AppliesAt(cfg, before, trace[i]) && Answers(cfg.find, before.table, after.table, before.tasks[trace[i].id].call, payload)
  }

  lemma AnsweredEarlier(cfg: Config, t: Table, trace: seq<Event>, i: nat, payload: Payload)
    requires i < |trace| - 1 && AnsweredAt(cfg, t, trace[..|trace| - 1], i, payload)
    ensures AnsweredAt(cfg, t, trace, i, payload)
  {
    var front := trace[..|trace| - 1];
    assert trace[..i] == front[..i] && trace[..i + 1] == front[..i + 1];
  }

  lemma AnsweredNow(cfg: Config, t: Table, trace: seq<Event>)
    requires trace != []
    requires var mid := Run(cfg, Init(t), trace[..|trace| - 1]); AppliesAt(cfg, mid, trace[|trace| - 1])
    ensures var s := Run(cfg, Init(t), trace);
      s.confirmed.Some? && AnsweredAt(cfg, t, trace, |trace| - 1, s.confirmed.value)
  {
    AnswerStep(cfg, Run(cfg, Init(t), trace[..|trace| - 1]), trace[|trace| - 1]);
    assert trace[..|trace| - 1 + 1] == trace;
  }

  /** In every run the confirmed state is there exactly if a result was logged as applied, and it is then the
      answer of the last call that was applied, to the bookings as they stood when it arrived. */
  lemma {:induction false} ConfirmedIsLastAnswer(cfg: Config, t: Table, trace: seq<Event>)
    ensures var s := Run(cfg, Init(t), trace);
      s.confirmed.Some? <==> exists entry :: entry in s.log && IsApplied(entry)
    ensures var s := Run(cfg, Init(t), trace);
      match LastApplied(cfg, t, trace)
      case None => s.confirmed.None?
      case Some(i) => s.confirmed.Some? && AnsweredAt(cfg, t, trace, i, s.confirmed.value)
  {
    AppliedEntriesAreLogged(cfg, t, trace);
    if trace != [] {
      var front, last := trace[..|trace| - 1], trace[|trace| - 1];
      var mid := Run(cfg, Init(t), front);
      ConfirmedIsLastAnswer(cfg, t, front);
      if AppliesAt(cfg, mid, last) {
        AnsweredNow(cfg, t, trace);
      } else {
        AnswerStep(cfg, mid, last);
        if LastApplied(cfg, t, front).Some? {
          AnsweredEarlier(cfg, t, trace, LastApplied(cfg, t, front).value, mid.confirmed.value);
        }
      }
    }
  }

  // ---- what is said ------------------------------------------------------------------------------------

  /** What a call that was applied had confirmed, and the version it was applied under. */
  function AppliedAs(cfg: Config, t: Table, trace: seq<Event>, id: string): Option<(Payload, int)> {
    if trace == [] then None
    else
      var front, last := trace[..|trace| - 1], trace[|trace| - 1];
      var mid, s := Run(cfg, Init(t), front), Run(cfg, Init(t), trace);
      if AppliesAt(cfg, mid, last) && last.id == id && s.confirmed.Some? then Some((s.confirmed.value, mid.version))
      else AppliedAs(cfg, t, front, id)
  }

  /** The words of a reply hook, or the template over what the call had confirmed. */
  function Words(text: Option<string>, tool: Tool, payload: Payload): Text {
    match text
    case Some(composed) => Composed(composed)
    case None => Rendered(tool, payload)
  }

  /** What one more event makes the agent say: without a hook, the template at the arrival that applies a call;
      with one, the words of the hook when it answers. Both under the version the call was applied under. */
  function Said(cfg: Config, t: Table, front: seq<Event>, last: Event): seq<Utterance> {
    var mid, s := Run(cfg, Init(t), front), Next(cfg, Run(cfg, Init(t), front), last);
    if AppliesAt(cfg, mid, last) && !cfg.hooked && s.confirmed.Some? then
      [Utterance(Rendered(mid.tasks[last.id].call.tool, s.confirmed.value), mid.version)]
    else if last.Reply? && last.id in mid.tasks && mid.tasks[last.id].phase.Confirming?
         && AppliedAs(cfg, t, front, last.id).Some? then
      var (payload, version) := AppliedAs(cfg, t, front, last.id).value;
      [Utterance(Words(last.text, mid.tasks[last.id].call.tool, payload), version)]
    else []
  }

  function AllSaid(cfg: Config, t: Table, trace: seq<Event>): seq<Utterance> {
    if trace == [] then []
    else AllSaid(cfg, t, trace[..|trace| - 1]) + Said(cfg, t, trace[..|trace| - 1], trace[|trace| - 1])
  }

  lemma PhaseStep(cfg: Config, s: TurnState, e: Event, id: string)
    requires id in Next(cfg, s, e).tasks && Next(cfg, s, e).tasks[id].phase.Confirming?
    ensures var s' := Next(cfg, s, e);
      if AppliesAt(cfg, s, e) && e.id == id
      then s'.confirmed.Some? && s'.tasks[id].phase == Confirming(s'.confirmed.value, s.version)
      else id in s.tasks && s.tasks[id].phase == s'.tasks[id].phase
  {
    match e
    case UserSpeech(_) =>
    case Interrupt(_) =>
    case Dispatch(_, _, _) =>
    case Arrive(_) =>
    case Reply(_, _) =>
  }

  lemma {:induction false} ConfirmingIsAppliedAs(cfg: Config, t: Table, trace: seq<Event>, id: string)
    requires var s := Run(cfg, Init(t), trace); id in s.tasks && s.tasks[id].phase.Confirming?
    ensures var s := Run(cfg, Init(t), trace); var a := AppliedAs(cfg, t, trace, id);
      a.Some? && s.tasks[id].phase == Confirming(a.value.0, a.value.1)
  {
    var front, last := trace[..|trace| - 1], trace[|trace| - 1];
    var mid := Run(cfg, Init(t), front);
    PhaseStep(cfg, mid, last, id);
    if !(AppliesAt(cfg, mid, last) && last.id == id) {
      ConfirmingIsAppliedAs(cfg, t, front, id);
    }
  }

  lemma SpeechStep(cfg: Config, s: TurnState, e: Event)
    ensures var s' := Next(cfg, s, e);
      if AppliesAt(cfg, s, e) && !cfg.hooked
      then s'.confirmed.Some?
        && s'.spoken == s.spoken + [Utterance(Rendered(s.tasks[e.id].call.tool, s'.confirmed.value), s.version)]
      else if e.Reply? && e.id in s.tasks && s.tasks[e.id].phase.Confirming?
      then var phase := s.tasks[e.id].phase;
        s'.spoken == s.spoken + [Utterance(Words(e.text, s.tasks[e.id].call.tool, phase.payload), phase.spokenAs)]
      else s'.spoken == s.spoken
  {
    match e
    case UserSpeech(_) =>
    case Interrupt(_) =>
    case Dispatch(_, _, _) =>
    case Arrive(_) =>
    case Reply(_, _) =>
  }

  /** In every run the agent has said exactly that: each word, its order and its version. */
  lemma {:induction false} SpokenIsAllSaid(cfg: Config, t: Table, trace: seq<Event>)
    ensures Run(cfg, Init(t), trace).spoken == AllSaid(cfg, t, trace)
  {
    if trace != [] {
      var front, last := trace[..|trace| - 1], trace[|trace| - 1];
      var mid := Run(cfg, Init(t), front);
      SpokenIsAllSaid(cfg, t, front);
      SpeechStep(cfg, mid, last);
      if last.Reply? && last.id in mid.tasks && mid.tasks[last.id].phase.Confirming? {
        ConfirmingIsAppliedAs(cfg, t, front, last.id);
      }
    }
  }

  lemma FinishedStep(cfg: Config, s: TurnState, e: Event, id: string)
    requires id in s.tasks && s.tasks[id].phase.Finished?
    ensures id in Next(cfg, s, e).tasks && Next(cfg, s, e).tasks[id].phase.Finished?
  {
    match e
    case UserSpeech(_) =>
    case Interrupt(_) =>
    case Dispatch(_, _, _) =>
    case Arrive(_) =>
    case Reply(_, _) =>
  }

  lemma {:induction false} StaysFinished(cfg: Config, s: TurnState, later: seq<Event>, id: string)
    requires id in s.tasks && s.tasks[id].phase.Finished?
    ensures id in Run(cfg, s, later).tasks && Run(cfg, s, later).tasks[id].phase.Finished?
  {
    if later != [] {
      StaysFinished(cfg, s, later[..|later| - 1], id);
      FinishedStep(cfg, Run(cfg, s, later[..|later| - 1]), later[|later| - 1], id);
    }
  }

  /** A hook's answer is taken once: whatever follows, another one for the same call says and changes nothing. */
  lemma {:induction false} HookIsHeardOnce(cfg: Config, s: TurnState, id: string, text: Option<string>,
                                           later: seq<Event>, again: Option<string>)
    requires id in s.tasks && s.tasks[id].phase.Confirming?
    ensures var s' := Run(cfg, Next(cfg, s, Reply(id, text)), later); Next(cfg, s', Reply(id, again)) == s'
  {
    StaysFinished(cfg, Next(cfg, s, Reply(id, text)), later, id);
  }

  /** The read tools: a lookup gives the stored row under the asked id, a search asks for name then phone. */
  lemma ReadsAnswer(find: Finder, t: Table, args: Args, id: int, name: Value, phone: Value)
    requires Asked(args.customerName, "", name) && Asked(args.phone, "", phone)
    ensures args.bookingId == Some(id) ==>
      Perform(find, t, LookupBooking, args) == (if id in t.rows then Some(Read(Booking(id, t.rows[id]))) else None)
    ensures args.bookingId.None? ==> Perform(find, t, LookupBooking, args).None?
    ensures Perform(find, t, FindBookings, args)
         == (if find(t, name, phone).Some? then Some(Listed(find(t, name, phone).value)) else None)
  {
  }
}
