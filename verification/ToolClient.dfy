/** agent/tool_client.py, LocalToolClient: what a tool call computes once its injected delay is
    over, and what committing its proposal does. Everything here happens between two suspension
    points, so it reads and writes one table. */
module ToolClient {
  import opened Common
  import opened Bookings

  datatype Tool = LookupBooking | FindBookings | CreateBooking | UpdateBooking | CancelBooking | UnknownTool(name: string)

  /** The argument dict. For create and find the outer Option says whether the key is present, the
      Value whether it is null. A missing or unusable booking id is None; a missing, null or
      empty `changes` is the empty map. */
  datatype Args = Args(bookingId: Option<int>, changes: map<Key, Value>, customerName: Option<Value>,
                       date: Option<Value>, time: Option<Value>, serviceType: Option<Value>, phone: Option<Value>)

  function GetOr(arg: Option<Value>, default: string): Value {
    if arg.Some? then arg.value else Some(default)
  }

  /** The text search of find_bookings by (table, name, phone): any deterministic search, which
      may also raise (None). */
  type Finder = (Table, Value, Value) -> Option<seq<Booking>>

  datatype ToolResult = Read(booking: Booking) | Listed(bookings: seq<Booking>) | Proposed(proposal: Proposal)

  datatype Payload = Record(booking: Booking) | Found(bookings: seq<Booking>)

  function AsProposed(p: Option<Proposal>): Option<ToolResult> {
    if p.Some? then Some(Proposed(p.value)) else None
  }

  /** LocalToolClient.run after the delay; None stands for a raised exception. */
  function Perform(find: Finder, t: Table, tool: Tool, args: Args): Option<ToolResult> {
    match tool
    case LookupBooking =>
      if args.bookingId.None? || Lookup(t, args.bookingId.value).None? then None
      else Some(Read(Lookup(t, args.bookingId.value).value))
    case FindBookings =>
      var found := find(t, GetOr(args.customerName, ""), GetOr(args.phone, ""));
      if found.Some? then Some(Listed(found.value)) else None
    case CreateBooking =>
      if args.customerName.None? || args.date.None? || args.time.None? then None
      else Some(Proposed(ValidateCreate(args.customerName.value, args.date.value, args.time.value,
                                        GetOr(args.serviceType, "Haircut"), GetOr(args.phone, ""))))
    case UpdateBooking =>
      if args.bookingId.None? then None else AsProposed(ValidateUpdate(t, args.bookingId.value, args.changes))
    case CancelBooking =>
      if args.bookingId.None? then None else AsProposed(ValidateCancel(t, args.bookingId.value))
    case UnknownTool(_) => None
  }

  /** What applying a fresh result leaves behind; None when the commit raises. */
  function Settle(t: Table, result: ToolResult): Option<(Table, Payload)> {
    match result
    case Read(b) => Some((t, Record(b)))
    case Listed(bs) => Some((t, Found(bs)))
    case Proposed(p) =>
      match Commit(t, p)
      case None => None
      case Some((t', b)) => Some((t', Record(b)))
  }

  // ---- the meaning of a request, without snapshots or proposals -----------------

  /** The new row a create request asks for. */
  function Requested(args: Args): Row {
    Row(GetOr(args.customerName, ""), if GetOr(args.phone, "") == Some("") then None else GetOr(args.phone, ""),
        GetOr(args.date, ""), GetOr(args.time, ""), GetOr(args.serviceType, "Haircut"), Some("confirmed"))
  }

  /** The change a request makes to the table on its own: a column overlay, a status write or an
      insert, and nothing else. */
  function OwnEffect(t: Table, tool: Tool, args: Args): Table {
    match tool
    case CreateBooking => Table(t.rows[t.nextId := Requested(args)], t.nextId + 1)
    case UpdateBooking =>
      if args.bookingId.Some? && args.bookingId.value in t.rows then
        t.(rows := t.rows[args.bookingId.value := Overlay(t.rows[args.bookingId.value], args.changes)])
      else t
    case CancelBooking =>
      if args.bookingId.Some? && args.bookingId.value in t.rows then
        t.(rows := t.rows[args.bookingId.value := t.rows[args.bookingId.value].(status := Some("cancelled"))])
      else t
    case _ => t
  }

  /** The snapshot, the proposal and the whole-row commit together amount to the own effect. */
  lemma SettledIsOwnEffect(find: Finder, t: Table, tool: Tool, args: Args)
    requires Perform(find, t, tool, args).Some?
    requires Settle(t, Perform(find, t, tool, args).value).Some?
    ensures Settle(t, Perform(find, t, tool, args).value).value.0 == OwnEffect(t, tool, args)
  {
    if tool == UpdateBooking {
      UpdateIsOverlay(t, args.bookingId.value, args.changes);
    } else if tool == CancelBooking {
      CancelIsStatusWrite(t, args.bookingId.value);
    }
  }

  /** When applying a fresh result can still raise: a create whose name, date, time or service type was
      passed as null. */
  lemma OnlyNullInsertsFailToCommit(find: Finder, t: Table, tool: Tool, args: Args)
    requires Perform(find, t, tool, args).Some?
    ensures Settle(t, Perform(find, t, tool, args).value).None?
        <==> tool == CreateBooking && (args.customerName == Some(None) || args.date == Some(None)
                                       || args.time == Some(None) || args.serviceType == Some(None))
  {
  }

  /** The in-process client. */
  class LocalToolClient {
    const db: Database

    constructor (database: Database)
      ensures db == database
    {
      db := database;
    }

    /** `run` after its delay: reads only. */
    method RunTool(find: Finder, tool: Tool, args: Args) returns (result: Option<ToolResult>)
      ensures result == Perform(find, db.table, tool, args)
    {
      if tool == UpdateBooking && args.bookingId.Some? && args.bookingId.value in db.table.rows {
        var fields := EditProposal(db.table.rows[args.bookingId.value], args.changes);
        result := Some(Proposed(Proposal(Some(args.bookingId.value), fields)));
      } else {
        result := Perform(find, db.table, tool, args);
      }
    }

    method CommitProposal(p: Proposal) returns (booking: Option<Booking>)
      modifies db
      ensures booking.None? <==> Commit(old(db.table), p).None?
      ensures booking.None? ==> db.table == old(db.table)
      ensures booking.Some? ==> Commit(old(db.table), p) == Some((db.table, booking.value))
    {
      booking := db.CommitBooking(p);
    }
  }
}
