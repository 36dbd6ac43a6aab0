/** redis_state/session_store.py: every session's turn version, pending-tool hash and confirmed
    state live in one flat key space shared by all sessions. */
module SessionStore {
  import opened Common

  /** What a Redis key can hold here; J is the JSON document type of the confirmed state. */
  datatype Stored<J> = Number(n: int) | Hash(fields: map<string, int>) | Json(doc: J)

  type Keyspace<J> = map<string, Stored<J>>

  datatype Suffix = TurnVersion | PendingTools | State

  function Text(suffix: Suffix): string {
    match suffix
    case TurnVersion => "turn_version"
    case PendingTools => "pending_tools"
    case State => "state"
  }

  /** The key builder `_k`. */
  function Key(sid: string, suffix: Suffix): string {
    "session:" + sid + ":" + Text(suffix)
  }

  lemma KeyTexts(sid: string)
    ensures Key(sid, TurnVersion) == "session:" + sid + ":turn_version"
    ensures Key(sid, PendingTools) == "session:" + sid + ":pending_tools"
    ensures Key(sid, State) == "session:" + sid + ":state"
  {
    assert forall tail: string :: "session:" + sid + ":" + tail == "session:" + sid + (":" + tail);
    assert ":" + "turn_version" == ":turn_version";
    assert ":" + "pending_tools" == ":pending_tools";
    assert ":" + "state" == ":state";
  }

  /** No two (session, suffix) pairs share a key, whatever colons the session ids contain. */
  lemma KeyInjective(sid1: string, suffix1: Suffix, sid2: string, suffix2: Suffix)
    requires Key(sid1, suffix1) == Key(sid2, suffix2)
    ensures sid1 == sid2 && suffix1 == suffix2
  {
    var k1, k2 := Key(sid1, suffix1), Key(sid2, suffix2);
    assert k1[|k1| - 1] == Text(suffix1)[|Text(suffix1)| - 1];
    assert k2[|k2| - 1] == Text(suffix2)[|Text(suffix2)| - 1];
    assert suffix1 == suffix2;
    assert sid1 == k1[8..8 + |sid1|] && sid2 == k2[8..8 + |sid2|];
  }

  // ---- operations on the shared key space ------------------------------------

  datatype Op<J> =
    | Create                                  // setnx turn_version 1
    | Increment                               // incr turn_version
    | Register(id: string, version: int)      // hset pending_tools
    | Pop(id: string)                         // hget + hdel pending_tools
    | Confirm(doc: J)                         // set state
    | Reset                                   // delete the three keys

  /** The effect of one operation. A command against a key of the wrong type is an error that
      leaves the data alone, as Redis has it; a hash that loses its last field disappears. */
  function Apply<J>(data: Keyspace<J>, sid: string, op: Op<J>): Keyspace<J> {
    match op
    case Create => if Key(sid, TurnVersion) in data then data else data[Key(sid, TurnVersion) := Number(1)]
    case Increment => Put(data, Key(sid, TurnVersion), Bumped(At(data, Key(sid, TurnVersion))))
    case Register(id, version) =>
      Put(data, Key(sid, PendingTools), WithField(At(data, Key(sid, PendingTools)), id, version))
    case Pop(id) => Put(data, Key(sid, PendingTools), WithoutField(At(data, Key(sid, PendingTools)), id))
    case Confirm(doc) => data[Key(sid, State) := Json(doc)]
    case Reset => data - {Key(sid, TurnVersion), Key(sid, PendingTools), Key(sid, State)}
  }

  function At<J>(data: Keyspace<J>, key: string): Option<Stored<J>> {
    if key in data then Some(data[key]) else None
  }

  function Put<J>(data: Keyspace<J>, key: string, v: Option<Stored<J>>): Keyspace<J> {
    if v.Some? then data[key := v.value] else data - {key}
  }

  function Bumped<J>(v: Option<Stored<J>>): Option<Stored<J>> {
    match v
    case None => Some(Number(1))
    case Some(Number(n)) => Some(Number(n + 1))
    case Some(_) => v
  }

  function WithField<J>(v: Option<Stored<J>>, id: string, version: int): Option<Stored<J>> {
    match v
    case None => Some(Hash(map[id := version]))
    case Some(Hash(h)) => Some(Hash(h[id := version]))
    case Some(_) => v
  }

  function WithoutField<J>(v: Option<Stored<J>>, id: string): Option<Stored<J>> {
    match v
    case Some(Hash(h)) => if id in h && h - {id} == map[] then None else Some(Hash(h - {id}))
    case _ => v
  }

  // ---- one session's own cells -----------------------------------------------

  /** What one session can reach. */
  datatype Cells<J> = Cells(version: Option<Stored<J>>, pending: Option<Stored<J>>, state: Option<Stored<J>>)

  function CellsOf<J>(data: Keyspace<J>, sid: string): Cells<J> {
    Cells(At(data, Key(sid, TurnVersion)), At(data, Key(sid, PendingTools)), At(data, Key(sid, State)))
  }

  /** The same operation on a private record, with no keys at all. */
  function ApplyPrivately<J>(c: Cells<J>, op: Op<J>): Cells<J> {
    match op
    case Create => if c.version.Some? then c else c.(version := Some(Number(1)))
    case Increment => c.(version := Bumped(c.version))
    case Register(id, version) => c.(pending := WithField(c.pending, id, version))
    case Pop(id) => c.(pending := WithoutField(c.pending, id))
    case Confirm(doc) => c.(state := Some(Json(doc)))
    case Reset => Cells(None, None, None)
  }

  lemma OwnCells<J>(data: Keyspace<J>, sid: string, op: Op<J>)
    ensures CellsOf(Apply(data, sid, op), sid) == ApplyPrivately(CellsOf(data, sid), op)
  {
    DistinctSuffixes(sid);
  }

  lemma DistinctSuffixes(sid: string)
    ensures Key(sid, TurnVersion) != Key(sid, PendingTools)
    ensures Key(sid, TurnVersion) != Key(sid, State)
    ensures Key(sid, PendingTools) != Key(sid, State)
  {
    if Key(sid, TurnVersion) == Key(sid, PendingTools) { KeyInjective(sid, TurnVersion, sid, PendingTools); }
    if Key(sid, TurnVersion) == Key(sid, State) { KeyInjective(sid, TurnVersion, sid, State); }
    if Key(sid, PendingTools) == Key(sid, State) { KeyInjective(sid, PendingTools, sid, State); }
  }

  /** The key space without one session's keys. */
  function Elsewhere<J>(data: Keyspace<J>, sid: string): Keyspace<J> {
    data - {Key(sid, TurnVersion), Key(sid, PendingTools), Key(sid, State)}
  }

  /** An operation touches nothing outside its own session's three keys. */
  lemma ElsewhereUnchanged<J>(data: Keyspace<J>, sid: string, op: Op<J>)
    ensures Elsewhere(Apply(data, sid, op), sid) == Elsewhere(data, sid)
  {
  }

  lemma OtherCells<J>(data: Keyspace<J>, sid: string, op: Op<J>, other: string)
    requires other != sid
    ensures CellsOf(Apply(data, sid, op), other) == CellsOf(data, other)
  {
    forall mine: Suffix, theirs: Suffix ensures Key(sid, mine) != Key(other, theirs) {
      if Key(sid, mine) == Key(other, theirs) { KeyInjective(sid, mine, other, theirs); }
    }
  }

  // ---- whole runs of many sessions --------------------------------------------

  /** An interleaving: each operation with the session that issued it. */
  function RunAll<J>(data: Keyspace<J>, ops: seq<(string, Op<J>)>): Keyspace<J> {
    if ops == [] then data
    else
      var last := ops[|ops| - 1];
      Apply(RunAll(data, ops[..|ops| - 1]), last.0, last.1)
  }

  function RunPrivately<J>(c: Cells<J>, ops: seq<Op<J>>): Cells<J> {
    if ops == [] then c else ApplyPrivately(RunPrivately(c, ops[..|ops| - 1]), ops[|ops| - 1])
  }

  function OpsOf<J>(ops: seq<(string, Op<J>)>, sid: string): seq<Op<J>> {
    if ops == [] then []
    else
      var last := ops[|ops| - 1];
      OpsOf(ops[..|ops| - 1], sid) + (if last.0 == sid then [last.1] else [])
  }

  /** Session isolation: in every interleaving over the one flat map, what a session sees is
      exactly its own operations run alone on a private record. */
  lemma {:induction false} SessionsAreIsolated<J>(data: Keyspace<J>, ops: seq<(string, Op<J>)>, sid: string)
    ensures CellsOf(RunAll(data, ops), sid) == RunPrivately(CellsOf(data, sid), OpsOf(ops, sid))
  {
    if ops != [] {
      var front, last := ops[..|ops| - 1], ops[|ops| - 1];
      SessionsAreIsolated(data, front, sid);
      var before := RunAll(data, front);
      if last.0 == sid {
        OwnCells(before, sid, last.1);
        var own := OpsOf(ops, sid);
        assert own[..|own| - 1] == OpsOf(front, sid);
      } else {
        OtherCells(before, last.0, last.1, sid);
        assert OpsOf(ops, sid) == OpsOf(front, sid);
      }
    }
  }

  // ---- reads -------------------------------------------------------------------

  function VersionIn<J>(data: Keyspace<J>, sid: string): int {
    match At(data, Key(sid, TurnVersion))
    case Some(Number(n)) => n
    case _ => 0
  }

  function PendingIn<J>(data: Keyspace<J>, sid: string): map<string, int> {
    match At(data, Key(sid, PendingTools))
    case Some(Hash(h)) => h
    case _ => map[]
  }

  function StateIn<J>(data: Keyspace<J>, sid: string): Option<J> {
    match At(data, Key(sid, State))
    case Some(Json(doc)) => Some(doc)
    case _ => None
  }

  /** The session's keys, where present, hold the types this module writes. */
  predicate Typed<J>(data: Keyspace<J>, sid: string) {
    && (At(data, Key(sid, TurnVersion)).Some? ==> At(data, Key(sid, TurnVersion)).value.Number?)
    && (At(data, Key(sid, PendingTools)).Some? ==> At(data, Key(sid, PendingTools)).value.Hash?)
    && (At(data, Key(sid, State)).Some? ==> At(data, Key(sid, State)).value.Json?)
  }

  /** A created session. */
  predicate Live<J>(data: Keyspace<J>, sid: string) {
    Typed(data, sid) && At(data, Key(sid, TurnVersion)).Some?
  }

  /** What each operation does to the three reads of a session, created or not. */
  lemma ReadsAfter<J>(data: Keyspace<J>, sid: string, op: Op<J>)
    requires Typed(data, sid)
    ensures var data' := Apply(data, sid, op);
      && Typed(data', sid)
      && (Live(data', sid) <==> !op.Reset? && (Live(data, sid) || op.Create? || op.Increment?))
      && VersionIn(data', sid) == (if op.Reset? then 0
                                   else if op.Increment? || (op.Create? && !Live(data, sid)) then VersionIn(data, sid) + 1
                                   else VersionIn(data, sid))
      && PendingIn(data', sid) == (if op.Register? then PendingIn(data, sid)[op.id := op.version]
                                   else if op.Pop? then PendingIn(data, sid) - {op.id}
                                   else if op.Reset? then map[]
                                   else PendingIn(data, sid))
      && StateIn(data', sid) == (if op.Confirm? then Some(op.doc) else if op.Reset? then None else StateIn(data, sid))
  {
    OwnCells(data, sid, op);
    var c, c' := CellsOf(data, sid), CellsOf(Apply(data, sid, op), sid);
    assert c' == ApplyPrivately(c, op);
    if op.Pop? && c.pending.Some? {
      assert PendingIn(data, sid) == c.pending.value.fields;
    }
  }

  /** No empty pending table is kept: the hash goes with its last field. */
  lemma NoEmptyHash<J>(data: Keyspace<J>, sid: string, op: Op<J>)
    requires Typed(data, sid) && (At(data, Key(sid, PendingTools)).Some? ==> PendingIn(data, sid) != map[])
    ensures var data' := Apply(data, sid, op);
      At(data', Key(sid, PendingTools)).Some? ==> PendingIn(data', sid) != map[]
  {
    OwnCells(data, sid, op);
    var c, c' := CellsOf(data, sid), CellsOf(Apply(data, sid, op), sid);
    assert c' == ApplyPrivately(c, op);
    if op.Register? {
      assert op.id in PendingIn(Apply(data, sid, op), sid);
    } else if op.Pop? && c.pending.Some? {
      var h := c.pending.value.fields;
      assert PendingIn(data, sid) == h;
      assert op.id !in h ==> h - {op.id} == h;
    }
  }

  /** From a reset, created session the version is 1 and nothing is pending or confirmed. */
  lemma FreshSession<J>(data: Keyspace<J>, sid: string)
    ensures var data' := Apply(Apply(data, sid, Reset), sid, Create);
      Live(data', sid) && VersionIn(data', sid) == 1 && PendingIn(data', sid) == map[] && StateIn(data', sid).None?
  {
    OwnCells(data, sid, Reset);
    var mid := Apply(data, sid, Reset);
    OwnCells(mid, sid, Create);
    assert CellsOf(Apply(mid, sid, Create), sid) == Cells(Some(Number(1)), None, None);
  }

  // ---- the imperative client ------------------------------------------------------

  /** The Redis server: one mutable key space. */
  class Redis<J> {
    var data: Keyspace<J>

    constructor (initial: Keyspace<J>)
      ensures data == initial
    {
      data := initial;
    }
  }

  class SessionStore<J> {
    const r: Redis<J>
    const sid: string

    constructor (client: Redis<J>, sessionId: string)
      ensures r == client && sid == sessionId
    {
      r := client;
      sid := sessionId;
    }

    method CreateSession()
      modifies r
      ensures r.data == Apply(old(r.data), sid, Create)
    {
      var k := Key(sid, TurnVersion);
      if k !in r.data {
        r.data := r.data[k := Number(1)];
      }
    }

    method GetTurnVersion() returns (v: int)
      ensures v == VersionIn(r.data, sid)
    {
      var k := Key(sid, TurnVersion);
      v := if k in r.data && r.data[k].Number? then r.data[k].n else 0;
    }

    method IncrementTurnVersion() returns (v: int)
      requires Typed(r.data, sid)
      modifies r
      ensures r.data == Apply(old(r.data), sid, Increment)
      ensures v == VersionIn(r.data, sid)
    {
      var k := Key(sid, TurnVersion);
      v := if k in r.data then r.data[k].n + 1 else 1;
      r.data := r.data[k := Number(v)];
    }

    method RegisterPendingTool(id: string, version: int)
      requires Typed(r.data, sid)
      modifies r
      ensures r.data == Apply(old(r.data), sid, Register(id, version))
    {
      var k := Key(sid, PendingTools);
      var h := if k in r.data then r.data[k].fields else map[];
      assert k !in r.data ==> h[id := version] == map[id := version];
      r.data := r.data[k := Hash(h[id := version])];
    }

    /** hget then hdel, in one uninterrupted segment. */
    method PopPendingTool(id: string) returns (version: Option<int>)
      requires Typed(r.data, sid)
      modifies r
      ensures r.data == Apply(old(r.data), sid, Pop(id))
      ensures version == if id in PendingIn(old(r.data), sid) then Some(PendingIn(old(r.data), sid)[id]) else None
    {
      var k := Key(sid, PendingTools);
      if k !in r.data {
        assert r.data - {k} == r.data;
        return None;
      }
      var h := r.data[k].fields;
      if id !in h {
        assert h - {id} == h;
        assert r.data[k := Hash(h)] == r.data;
        return None;
      }
      version := Some(h[id]);
      if h - {id} == map[] {
        r.data := r.data - {k};
      } else {
        r.data := r.data[k := Hash(h - {id})];
      }
    }

    method SetConfirmedState(doc: J)
      modifies r
      ensures r.data == Apply(old(r.data), sid, Confirm(doc))
    {
      r.data := r.data[Key(sid, State) := Json(doc)];
    }

    method Reset()
      modifies r
      ensures r.data == Apply(old(r.data), sid, Op.Reset)
    {
      r.data := r.data - {Key(sid, TurnVersion), Key(sid, PendingTools), Key(sid, State)};
    }
  }
}
