/** The booking table and the validate / commit split of backend/tools.py.

    A proposal is computed from a read of the row and persisted only by a later commit
    that rewrites the whole row from that snapshot. */
module Bookings {
  import opened Common

  /** A nullable column or JSON value. */
  type Value = Option<string>

  datatype Field = CustomerName | Phone | Date | Time | ServiceType | Status

  /** The columns in the order the commit loop visits them. */
  const COLUMNS: seq<Field> := [CustomerName, Phone, Date, Time, ServiceType, Status]

  /** A stored row, or the body of a proposal dict: a value for every column. */
  datatype Row = Row(customerName: Value, phone: Value, date: Value, time: Value, serviceType: Value, status: Value) {
    function Get(f: Field): Value {
      match f
      case CustomerName => customerName
      case Phone => phone
      case Date => date
      case Time => time
      case ServiceType => serviceType
      case Status => status
    }

    function With(f: Field, v: Value): Row {
      match f
      case CustomerName => this.(customerName := v)
      case Phone => this.(phone := v)
      case Date => this.(date := v)
      case Time => this.(time := v)
      case ServiceType => this.(serviceType := v)
      case Status => this.(status := v)
    }

    /** The schema's NOT NULL columns; only the phone is nullable. */
    predicate NotNull() {
      customerName.Some? && date.Some? && time.Some? && serviceType.Some? && status.Some?
    }
  }

  /** The row whose column f holds g(f). */
  function Build(g: Field -> Value): Row {
    Row(g(CustomerName), g(Phone), g(Date), g(Time), g(ServiceType), g(Status))
  }

  lemma SameColumnsSameRow(a: Row, b: Row)
    requires forall f: Field :: a.Get(f) == b.Get(f)
    ensures a == b
  {
    assert a == Build(f => a.Get(f));
    assert b == Build(f => b.Get(f));
    assert a.Get(CustomerName) == b.Get(CustomerName) && a.Get(Phone) == b.Get(Phone);
    assert a.Get(Date) == b.Get(Date) && a.Get(Time) == b.Get(Time);
    assert a.Get(ServiceType) == b.Get(ServiceType) && a.Get(Status) == b.Get(Status);
  }

  /** A key of the caller's `changes` dict: a column, or anything else ("id", a typo, ...). */
  datatype Key = Column(field: Field) | Other(name: string)

  datatype Table = Table(rows: map<int, Row>, nextId: int)

  /** The dict booking_to_dict builds. */
  datatype Booking = Booking(id: int, row: Row)

  datatype Proposal = Proposal(id: Option<int>, fields: Row)

  ghost predicate ValidTable(t: Table) {
    forall id | id in t.rows :: id < t.nextId && t.rows[id].NotNull()
  }

  // ---- reads and proposals -------------------------------------------------

  function Lookup(t: Table, id: int): Option<Booking> {
    if id in t.rows then Some(Booking(id, t.rows[id])) else None
  }

  function ValidateCreate(customerName: Value, date: Value, time: Value, serviceType: Value, phone: Value): Proposal {
    var storedPhone := if phone == Some("") then None else phone;
    Proposal(None, Row(customerName, storedPhone, date, time, serviceType, Some("confirmed")))
  }

  function ValidateUpdate(t: Table, id: int, changes: map<Key, Value>): Option<Proposal> {
    if id in t.rows then Some(Proposal(Some(id), Replaced(t.rows[id], changes))) else None
  }

  /** A row with every column named in `changes` replaced, nulls included. */
  function Replaced(row: Row, changes: map<Key, Value>): Row {
    Build(f => if Column(f) in changes then changes[Column(f)] else row.Get(f))
  }

  function ValidateCancel(t: Table, id: int): Option<Proposal> {
    if id in t.rows then Some(Proposal(Some(id), t.rows[id].(status := Some("cancelled")))) else None
  }

  // ---- commit --------------------------------------------------------------

  /** The row an insert stores; the schema default fills a null status. */
  function Inserted(fields: Row): Row {
    if fields.status.None? then fields.(status := Some("confirmed")) else fields
  }

  /** The row a commit leaves: every non-null proposed column overwrites the stored one. */
  function Rewritten(stored: Row, fields: Row): Row {
    Build(f => if fields.Get(f).Some? then fields.Get(f) else stored.Get(f))
  }

  /** None stands for an exception: a missing row, or a null in a NOT NULL column. */
  function Commit(t: Table, p: Proposal): Option<(Table, Booking)> {
    match p.id
    case None =>
      var row := Inserted(p.fields);
      if row.NotNull() then
        Some((Table(t.rows[t.nextId := row], t.nextId + 1), Booking(t.nextId, row)))
      else None
    case Some(id) =>
      if id in t.rows then
        var row := Rewritten(t.rows[id], p.fields);
        Some((t.(rows := t.rows[id := row]), Booking(id, row)))
      else None
  }

  // ---- what each request means on its own ----------------------------------

  /** The caller's own intent for one column: a non-null change, if there is one. */
  function Wish(changes: map<Key, Value>, f: Field): Value {
    if Column(f) in changes then changes[Column(f)] else None
  }

  /** The stored row with only the requested columns changed. */
  function Overlay(row: Row, changes: map<Key, Value>): Row {
    Build(f => if Wish(changes, f).Some? then Wish(changes, f) else row.Get(f))
  }

  /** Validating and committing against the same table is exactly the caller's overlay. */
  lemma UpdateIsOverlay(t: Table, id: int, changes: map<Key, Value>)
    requires id in t.rows
    ensures ValidateUpdate(t, id, changes).Some?
    ensures Commit(t, ValidateUpdate(t, id, changes).value)
         == Some((t.(rows := t.rows[id := Overlay(t.rows[id], changes)]), Booking(id, Overlay(t.rows[id], changes))))
  {
    var row := t.rows[id];
    forall f: Field ensures Rewritten(row, Replaced(row, changes)).Get(f) == Overlay(row, changes).Get(f) {}
    SameColumnsSameRow(Rewritten(row, Replaced(row, changes)), Overlay(row, changes));
  }

  lemma CancelIsStatusWrite(t: Table, id: int)
    requires id in t.rows
    ensures ValidateCancel(t, id).Some?
    ensures Commit(t, ValidateCancel(t, id).value)
         == Some((t.(rows := t.rows[id := t.rows[id].(status := Some("cancelled"))]),
                  Booking(id, t.rows[id].(status := Some("cancelled")))))
  {
    var row := t.rows[id].(status := Some("cancelled"));
    forall f: Field ensures Rewritten(t.rows[id], row).Get(f) == row.Get(f) {}
    SameColumnsSameRow(Rewritten(t.rows[id], row), row);
  }

  /** No write is lost: every column this caller did not set is as the snapshot read it, or was
      null there, which the commit skips. */
  ghost predicate Unmoved(snapshot: Row, current: Row, changes: map<Key, Value>) {
    forall f: Field | Column(f) !in changes :: snapshot.Get(f).None? || snapshot.Get(f) == current.Get(f)
  }

  /** When the row moved between validate and commit, the whole-row rewrite keeps the other
      writer's work exactly when the columns this caller left alone did not move. */
  lemma SnapshotCommitKeepsConcurrentWrites(snapshot: Table, current: Table, id: int, changes: map<Key, Value>)
    requires id in snapshot.rows && id in current.rows
    ensures Commit(current, ValidateUpdate(snapshot, id, changes).value).Some?
    ensures Commit(current, ValidateUpdate(snapshot, id, changes).value).value.1.row == Overlay(current.rows[id], changes)
        <==> Unmoved(snapshot.rows[id], current.rows[id], changes)
  {
    var got := Rewritten(current.rows[id], Replaced(snapshot.rows[id], changes));
    var want := Overlay(current.rows[id], changes);
    if Unmoved(snapshot.rows[id], current.rows[id], changes) {
      forall f: Field ensures got.Get(f) == want.Get(f) {}
      SameColumnsSameRow(got, want);
    } else {
      var f: Field :| Column(f) !in changes
        && !(snapshot.rows[id].Get(f).None? || snapshot.rows[id].Get(f) == current.rows[id].Get(f));
      assert got.Get(f) != want.Get(f);
    }
  }

  /** An insert raises exactly if its name, date, time or service type is null. Otherwise it adds one row under the
      next id, as proposed but for a null status, and answers with it. */
  lemma InsertStoresProposed(t: Table, fields: Row)
    ensures Commit(t, Proposal(None, fields)).None?
        <==> fields.customerName.None? || fields.date.None? || fields.time.None? || fields.serviceType.None?
    ensures Commit(t, Proposal(None, fields)).Some? ==>
      var (t', booking) := Commit(t, Proposal(None, fields)).value;
      && t'.rows.Keys == t.rows.Keys + {t.nextId} && t'.nextId == t.nextId + 1
      && (forall id | id in t.rows && id != t.nextId :: t'.rows[id] == t.rows[id])
      && booking == Booking(t.nextId, t'.rows[t.nextId])
      && booking.row.status == (if fields.status.None? then Some("confirmed") else fields.status)
      && forall f: Field | f != Status :: booking.row.Get(f) == fields.Get(f)
  {
    if Commit(t, Proposal(None, fields)).Some? {
      assert Inserted(fields).Get(Status) == Inserted(fields).status;
    }
  }

  lemma CommitKeepsTableValid(t: Table, p: Proposal)
    requires ValidTable(t) && Commit(t, p).Some?
    ensures ValidTable(Commit(t, p).value.0)
  {
  }

  // ---- the imperative code ---------------------------------------------------

  /** The `for k, v in changes.items()` loop of validate_update over a local dict. */
  method EditProposal(row: Row, changes: map<Key, Value>) returns (proposal: Row)
    ensures proposal == Replaced(row, changes)
  {
    proposal := row;
    var todo := changes.Keys;
    while todo != {}
      invariant todo <= changes.Keys
      invariant forall f: Field ::
        proposal.Get(f) == if Column(f) in changes.Keys - todo then changes[Column(f)] else row.Get(f)
      decreases todo
    {
      var k :| k in todo;
      todo := todo - {k};
      match k
      case Column(f) => proposal := proposal.With(f, changes[k]);
      case Other(_) =>
    }
    SameColumnsSameRow(proposal, Replaced(row, changes));
  }

  /** The bookings database as the tools see it. */
  class Database {
    var table: Table

    constructor (t: Table)
      ensures table == t
    {
      table := t;
    }

    /** commit_booking: insert, or set the non-null columns of the stored row one by one. */
    method CommitBooking(p: Proposal) returns (booking: Option<Booking>)
      modifies this
      ensures booking.None? <==> Commit(old(table), p).None?
      ensures booking.None? ==> table == old(table)
      ensures booking.Some? ==> Commit(old(table), p) == Some((table, booking.value))
    {
      if p.id.None? {
        var row := Inserted(p.fields);
        if !row.NotNull() {
          return None;
        }
        table := Table(table.rows[table.nextId := row], table.nextId + 1);
        return Some(Booking(table.nextId - 1, row));
      }
      var id := p.id.value;
      if id !in table.rows {
        return None;
      }
      var b := table.rows[id];
      for i := 0 to |COLUMNS|
        invariant forall f: Field ::
          b.Get(f) == if f in COLUMNS[..i] && p.fields.Get(f).Some? then p.fields.Get(f) else table.rows[id].Get(f)
        invariant table == old(table)
      {
        if p.fields.Get(COLUMNS[i]).Some? {
          b := b.With(COLUMNS[i], p.fields.Get(COLUMNS[i]));
        }
      }
      EveryColumnVisited();
      SameColumnsSameRow(b, Rewritten(table.rows[id], p.fields));
      table := table.(rows := table.rows[id := b]);
      booking := Some(Booking(id, b));
    }
  }

  lemma EveryColumnVisited()
    ensures forall f: Field :: f in COLUMNS[..|COLUMNS|]
  {
    assert COLUMNS[..|COLUMNS|] == COLUMNS;
    forall f: Field ensures f in COLUMNS {
      match f
      case CustomerName => assert COLUMNS[0] == f;
      case Phone => assert COLUMNS[1] == f;
      case Date => assert COLUMNS[2] == f;
      case Time => assert COLUMNS[3] == f;
      case ServiceType => assert COLUMNS[4] == f;
      case Status => assert COLUMNS[5] == f;
    }
  }
}
