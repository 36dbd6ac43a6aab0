/** No lost updates: although every commit rewrites a whole row from a snapshot, the bookings
    after any run are the applied requests' own effects, replayed in the order of the log. */
module Serializability {
  import opened Common
  import opened Bookings
  import opened ToolClient
  import opened Turns
  import opened TurnLaws

  /** The calls the log says were applied, in the order of their results. */
  function AppliedCalls(log: seq<Entry>, tasks: map<string, Task>): seq<Call> {
    if log == [] then []
    else
      var front, last := log[..|log| - 1], log[|log| - 1];
      if last.ResultEntry? && last.action.AppliedFresh? && last.id in tasks
      then AppliedCalls(front, tasks) + [tasks[last.id].call]
      else AppliedCalls(front, tasks)
  }

  /** The serial execution: one request's own effect after another, no snapshots. */
  function Replay(t: Table, calls: seq<Call>): Table {
    if calls == [] then t
    else
      var last := calls[|calls| - 1];
      OwnEffect(Replay(t, calls[..|calls| - 1]), last.tool, last.args)
  }

  lemma AppliedCallsSnoc(log: seq<Entry>, entry: Entry, tasks: map<string, Task>)
    ensures AppliedCalls(log + [entry], tasks)
         == AppliedCalls(log, tasks) + (if entry.ResultEntry? && entry.action.AppliedFresh? && entry.id in tasks
                                        then [tasks[entry.id].call] else [])
  {
    assert (log + [entry])[..|log|] == log;
  }

  /** Only the calls of logged results matter. */
  lemma {:induction false} AppliedCallsAgree(log: seq<Entry>, a: map<string, Task>, b: map<string, Task>)
    requires forall entry | entry in log && entry.ResultEntry? ::
               entry.id in a && entry.id in b && a[entry.id].call == b[entry.id].call
    ensures AppliedCalls(log, a) == AppliedCalls(log, b)
  {
    if log != [] {
      var front := log[..|log| - 1];
      assert forall entry | entry in front :: entry in log;
      AppliedCallsAgree(front, a, b);
    }
  }

  /** What one event does to the table and the list of applied calls. */
  lemma ArrivalAppliesOwnEffect(cfg: Config, s: TurnState, id: string)
    requires id in s.tasks && s.tasks[id].phase.Running?
    ensures var s' := Next(cfg, s, Arrive(id)); var call := s.tasks[id].call;
      if Applied(s'.tasks[id].phase) then
        && s'.table == OwnEffect(s.table, call.tool, call.args)
        && s'.log == s.log + [ResultEntry(id, call.tool, call.version, s.version, AppliedFresh)]
      else
        && s'.table == s.table
        && (s'.log == s.log || s'.log == s.log + [ResultEntry(id, call.tool, call.version, s.version, DiscardedStale)])
  {
    var call := s.tasks[id].call;
    if Applied(Next(cfg, s, Arrive(id)).tasks[id].phase) {
      SettledIsOwnEffect(cfg.find, s.table, call.tool, call.args);
    }
  }

  lemma ReplaySnoc(t: Table, calls: seq<Call>, call: Call)
    ensures Replay(t, calls + [call]) == OwnEffect(Replay(t, calls), call.tool, call.args)
  {
    assert (calls + [call])[..|calls|] == calls;
  }

  ghost predicate Serial(t: Table, s: TurnState) {
    s.table == Replay(t, AppliedCalls(s.log, s.tasks))
  }

  lemma SerialArrival(cfg: Config, t: Table, s: TurnState, id: string)
    requires Serial(t, s) && LogSound(s)
    requires id in s.tasks && s.tasks[id].phase.Running?
    ensures Serial(t, Next(cfg, s, Arrive(id)))
  {
    var s' := Next(cfg, s, Arrive(id));
    ArrivalAppliesOwnEffect(cfg, s, id);
    CallKept(cfg, s, Arrive(id), id);
    forall entry | entry in s.log && entry.ResultEntry?
      ensures entry.id in s.tasks && entry.id in s'.tasks && s.tasks[entry.id].call == s'.tasks[entry.id].call
    {
      CallKept(cfg, s, Arrive(id), entry.id);
    }
    AppliedCallsAgree(s.log, s.tasks, s'.tasks);
    if s'.log != s.log {
      AppliedCallsSnoc(s.log, s'.log[|s.log|], s'.tasks);
      if Applied(s'.tasks[id].phase) {
        ReplaySnoc(t, AppliedCalls(s.log, s.tasks), s.tasks[id].call);
      } else {
        assert AppliedCalls(s'.log, s'.tasks) == AppliedCalls(s.log, s'.tasks);
      }
    }
  }

  lemma SerialOther(cfg: Config, t: Table, s: TurnState, e: Event)
    requires Serial(t, s) && LogSound(s) && !e.Arrive?
    ensures Serial(t, Next(cfg, s, e))
  {
    var s' := Next(cfg, s, e);
    var more := EntriesLogged(cfg, s, e);
    forall entry | entry in s.log && entry.ResultEntry?
      ensures entry.id in s.tasks && entry.id in s'.tasks && s.tasks[entry.id].call == s'.tasks[entry.id].call
    {
      CallKept(cfg, s, e, entry.id);
    }
    AppliedCallsAgree(s.log, s.tasks, s'.tasks);
    NoResultsNoCalls(s.log, more, s'.tasks);
  }

  lemma {:induction false} NoResultsNoCalls(log: seq<Entry>, more: seq<Entry>, tasks: map<string, Task>)
    requires forall entry | entry in more :: !entry.ResultEntry?
    ensures AppliedCalls(log + more, tasks) == AppliedCalls(log, tasks)
  {
    if more == [] {
      assert log + more == log;
    } else {
      var front, last := more[..|more| - 1], more[|more| - 1];
      assert log + more == log + front + [last];
      AppliedCallsSnoc(log + front, last, tasks);
      NoResultsNoCalls(log, front, tasks);
    }
  }

  /** Serialisability: for every interleaving the final bookings are the applied calls' own
      effects over the initial bookings, in arrival order. */
  lemma {:induction false} RunIsSerial(cfg: Config, t: Table, trace: seq<Event>)
    ensures var s := Run(cfg, Init(t), trace); s.table == Replay(t, AppliedCalls(s.log, s.tasks))
  {
    if trace != [] {
      var front, last := trace[..|trace| - 1], trace[|trace| - 1];
      var mid := Run(cfg, Init(t), front);
      RunIsSerial(cfg, t, front);
      LogLaw(cfg, t, front);
      if last.Arrive? {
        if last.id in mid.tasks && mid.tasks[last.id].phase.Running? {
          SerialArrival(cfg, t, mid, last.id);
        }
      } else {
        SerialOther(cfg, t, mid, last);
      }
    }
  }

  // ---- what a serial execution leaves in each column ----------------------------------

  ghost predicate IdsBelow(t: Table) {
    forall id | id in t.rows :: id < t.nextId
  }

  /** The value a call asks for in one column of one row, if it asks for one. */
  function CallWish(call: Call, id: int, f: Field): Value {
    match call.tool
    case UpdateBooking => if call.args.bookingId == Some(id) then Wish(call.args.changes, f) else None
    case CancelBooking => if call.args.bookingId == Some(id) && f == Status then Some("cancelled") else None
    case _ => None
  }

  function LastWish(calls: seq<Call>, id: int, f: Field): Value {
    if calls == [] then None
    else
      var last := CallWish(calls[|calls| - 1], id, f);
      if last.Some? then last else LastWish(calls[..|calls| - 1], id, f)
  }

  function Creates(calls: seq<Call>): nat {
    if calls == [] then 0
    else Creates(calls[..|calls| - 1]) + (if calls[|calls| - 1].tool == CreateBooking then 1 else 0)
  }

  /** Every column of every original row holds the last value asked for, or its original value; and
      the table has grown by exactly the creates. */
  lemma {:induction false} ReplayKeepsLastWrites(t: Table, calls: seq<Call>)
    requires IdsBelow(t)
    ensures var r := Replay(t, calls);
      && IdsBelow(r)
      && r.nextId == t.nextId + Creates(calls)
      && |r.rows| == |t.rows| + Creates(calls)
      && t.rows.Keys <= r.rows.Keys
      && (forall id, f: Field | id in t.rows :: r.rows[id].Get(f) ==
            if LastWish(calls, id, f).Some? then LastWish(calls, id, f) else t.rows[id].Get(f))
  {
    if calls != [] {
      var front, last := calls[..|calls| - 1], calls[|calls| - 1];
      ReplayKeepsLastWrites(t, front);
      var mid, r := Replay(t, front), Replay(t, calls);
      OneEffect(mid, last);
    }
  }

  lemma OneEffect(t: Table, call: Call)
    requires IdsBelow(t)
    ensures var r := OwnEffect(t, call.tool, call.args); var added := if call.tool == CreateBooking then 1 else 0;
      && IdsBelow(r)
      && r.nextId == t.nextId + added
      && |r.rows| == |t.rows| + added
      && t.rows.Keys <= r.rows.Keys
      && (forall id, f: Field | id in t.rows :: r.rows[id].Get(f) ==
            if CallWish(call, id, f).Some? then CallWish(call, id, f) else t.rows[id].Get(f))
  {
    var r := OwnEffect(t, call.tool, call.args);
    match call.tool
    case CreateBooking => assert t.nextId !in t.rows;
    case UpdateBooking =>
      if call.args.bookingId.Some? && call.args.bookingId.value in t.rows {
        assert r.rows.Keys == t.rows.Keys;
        assert |r.rows| == |r.rows.Keys| == |t.rows|;
      }
    case CancelBooking =>
      if call.args.bookingId.Some? && call.args.bookingId.value in t.rows {
        assert r.rows.Keys == t.rows.Keys;
        assert |r.rows| == |r.rows.Keys| == |t.rows|;
      }
    case _ =>
  }

  /** No lost updates, column by column: after any interleaving each column of an original booking
      holds the last non-null value an applied call asked for, or its initial value when none
      did, and the row count is the initial one plus the applied creates. */
  lemma {:induction false} NoLostUpdates(cfg: Config, t: Table, trace: seq<Event>, id: int, f: Field)
    requires IdsBelow(t) && id in t.rows
    ensures var s := Run(cfg, Init(t), trace); var calls := AppliedCalls(s.log, s.tasks);
      && |s.table.rows| == |t.rows| + Creates(calls)
      && id in s.table.rows
      && s.table.rows[id].Get(f) == if LastWish(calls, id, f).Some? then LastWish(calls, id, f) else t.rows[id].Get(f)
  {
    RunIsSerial(cfg, t, trace);
    var s := Run(cfg, Init(t), trace);
    ReplayKeepsLastWrites(t, AppliedCalls(s.log, s.tasks));
  }

  // ---- rows created during the run ------------------------------------------------------------

  lemma {:induction false} ReplayAppend(t: Table, a: seq<Call>, b: seq<Call>)
    ensures Replay(t, a + b) == Replay(Replay(t, a), b)
  {
    if b == [] {
      assert a + b == a;
    } else {
      ReplayAppend(t, a, b[..|b| - 1]);
      assert (a + b)[..|a + b| - 1] == a + b[..|b| - 1];
    }
  }

  /** The id the i-th call gets, if it is a create. */
  function CreatedId(t: Table, calls: seq<Call>, i: nat): int
    requires i < |calls|
  {
    t.nextId + Creates(calls[..i])
  }

  lemma RowAfterCreate(t: Table, calls: seq<Call>, i: nat)
    requires IdsBelow(t) && i < |calls| && calls[i].tool == CreateBooking
    ensures var mid := Replay(t, calls[..i + 1]); var id := CreatedId(t, calls, i);
      IdsBelow(mid) && id in mid.rows && mid.rows[id] == Requested(calls[i].args)
  {
    ReplayKeepsLastWrites(t, calls[..i]);
    OneEffect(Replay(t, calls[..i]), calls[i]);
    assert calls[..i + 1] == calls[..i] + [calls[i]];
    ReplaySnoc(t, calls[..i], calls[i]);
  }

  /** Every column of a row created on the way holds the last value a later call asked for, or the value the
      create asked for. */
  lemma {:induction false} CreatedRowsKeepLastWrites(t: Table, calls: seq<Call>, i: nat, f: Field)
    requires IdsBelow(t) && i < |calls| && calls[i].tool == CreateBooking
    ensures var r := Replay(t, calls); var id := CreatedId(t, calls, i); var later := LastWish(calls[i + 1..], id, f);
      && id in r.rows
      && r.rows[id].Get(f) == if later.Some? then later else Requested(calls[i].args).Get(f)
  {
    RowAfterCreate(t, calls, i);
    assert calls == calls[..i + 1] + calls[i + 1..];
    ReplayAppend(t, calls[..i + 1], calls[i + 1..]);
    ReplayKeepsLastWrites(Replay(t, calls[..i + 1]), calls[i + 1..]);
  }

  /** There are no other rows: each is an original or the row of one of the creates. */
  lemma {:induction false} RowsHaveOrigins(t: Table, calls: seq<Call>, id: int) returns (i: nat)
    requires IdsBelow(t) && id in Replay(t, calls).rows && id !in t.rows
    ensures i < |calls| && calls[i].tool == CreateBooking && id == CreatedId(t, calls, i)
  {
    var front, last := calls[..|calls| - 1], calls[|calls| - 1];
    ReplayKeepsLastWrites(t, front);
    if id in Replay(t, front).rows {
      i := RowsHaveOrigins(t, front, id);
      assert calls[..i] == front[..i];
    } else {
      i := |calls| - 1;
    }
  }

  /** No lost updates for new bookings: after any interleaving each column of the booking an applied create made
      holds the last non-null value an applied call asked for since, or the created value. */
  lemma {:induction false} NoLostUpdatesOfCreated(cfg: Config, t: Table, trace: seq<Event>, i: nat, f: Field)
    requires IdsBelow(t)
    requires var s := Run(cfg, Init(t), trace); var calls := AppliedCalls(s.log, s.tasks);
      i < |calls| && calls[i].tool == CreateBooking
    ensures var s := Run(cfg, Init(t), trace); var calls := AppliedCalls(s.log, s.tasks);
            var id := CreatedId(t, calls, i); var later := LastWish(calls[i + 1..], id, f);
      && id in s.table.rows
      && s.table.rows[id].Get(f) == if later.Some? then later else Requested(calls[i].args).Get(f)
  {
    RunIsSerial(cfg, t, trace);
    var s := Run(cfg, Init(t), trace);
    CreatedRowsKeepLastWrites(t, AppliedCalls(s.log, s.tasks), i, f);
  }
}
