/** The records of the change stream and the messages of the lock protocol on the wire. */
module ActionWire {
  import opened Common
  import opened Bytes
  import opened TupleWire

  // ---- runs of integer fields ------------------------------------------------------------

  function EncodeInts(vs: seq<int>, ws: seq<nat>): seq<Byte>
    requires |vs| == |ws|
  {
    if vs == [] then [] else BigEndian(vs[0], ws[0]) + EncodeInts(vs[1..], ws[1..])
  }

  function ReadInts(bs: seq<Byte>, ws: seq<nat>): (p: Parsed<seq<nat>>)
    ensures p.Ok? ==> |p.value| == |ws|
  {
    if ws == [] then Ok([], bs)
    else
      match GetInt(bs, ws[0])
      case Err(e) => Err(e)
      case Ok(n, r) =>
        match ReadInts(r, ws[1..])
        case Err(e) => Err(e)
        case Ok(ns, r') => Ok([n] + ns, r')
  }

  predicate InRange(vs: seq<int>, ws: seq<nat>) {
    |vs| == |ws| && forall i :: 0 <= i < |vs| ==> 0 <= vs[i] < Pow256(ws[i])
  }

  lemma {:induction false} IntsRoundTrip(vs: seq<int>, ws: seq<nat>, rest: seq<Byte>)
    requires InRange(vs, ws)
    ensures ReadInts(EncodeInts(vs, ws) + rest, ws) == Ok(vs, rest)
    decreases |vs|
  {
    if vs != [] {
      var tail := EncodeInts(vs[1..], ws[1..]) + rest;
      Regroup3(BigEndian(vs[0], ws[0]), EncodeInts(vs[1..], ws[1..]), rest);
      GetSentSmall(vs[0], ws[0], tail);
      IntsRoundTrip(vs[1..], ws[1..], rest);
      assert [vs[0]] + vs[1..] == vs;
    }
  }

  // ---- node identifiers ---------------------------------------------------------------------

  datatype NodeId = NodeId(sysid: nat, timeline: nat, dboid: nat)

  predicate ValidId(id: NodeId) {
    id.sysid < TWO64 && id.timeline < TWO32 && id.dboid < TWO32
  }

  /** Some messages carry an empty node name behind the identifier. */
  function EncodeNodeId(id: NodeId, emptyName: bool): seq<Byte> {
    EncodeInts([id.sysid, id.timeline, id.dboid], [8, 4, 4]) + (if emptyName then BigEndian(0, 4) else [])
  }

  function ReadNodeId(bs: seq<Byte>, emptyName: bool): Parsed<NodeId> {
    match ReadInts(bs, [8, 4, 4])
    case Err(e) => Err(e)
    case Ok(v, r) =>
      var id := NodeId(v[0], v[1], v[2]);
      if !emptyName then Ok(id, r)
      else
        match GetInt(r, 4)
        case Err(e) => Err(e)
        case Ok(n, r') => if n != 0 then Err(NodeNameNotEmpty) else Ok(id, r')
  }

  lemma NodeIdRoundTrip(id: NodeId, emptyName: bool, rest: seq<Byte>)
    requires ValidId(id)
    ensures ReadNodeId(EncodeNodeId(id, emptyName) + rest, emptyName) == Ok(id, rest)
  {
    var name: seq<Byte> := if emptyName then BigEndian(0, 4) else [];
    Widths();
    var ints := EncodeInts([id.sysid, id.timeline, id.dboid], [8, 4, 4]);
    Regroup3(ints, name, rest);
    IntsRoundTrip([id.sysid, id.timeline, id.dboid], [8, 4, 4], name + rest);
    if emptyName { GetSent4(0, rest); } else { assert name + rest == rest; }
  }

  // ---- names and relations --------------------------------------------------------------------

  predicate ValidName(n: seq<Byte>) {
    |n| < 65535 && forall i :: 0 <= i < |n| ==> n[i] != 0
  }

  /** A name goes with its terminator, and the length counts it. */
  function EncodeName(n: seq<Byte>): seq<Byte> {
    BigEndian(|n| + 1, 2) + (n + [0])
  }

  function UpToNul(bs: seq<Byte>): seq<Byte> {
    if bs == [] || bs[0] == 0 then [] else [bs[0]] + UpToNul(bs[1..])
  }

  function ReadName(bs: seq<Byte>): Parsed<seq<Byte>> {
    match GetInt(bs, 2)
    case Err(e) => Err(e)
    case Ok(n, r) =>
      match GetBytes(r, n)
      case Err(e) => Err(e)
      case Ok(b, r') => Ok(UpToNul(b), r')
  }

  lemma {:induction false} UpToNulOfName(n: seq<Byte>)
    requires forall i :: 0 <= i < |n| ==> n[i] != 0
    ensures UpToNul(n + [0]) == n
  {
    if n != [] {
      assert (n + [0])[1..] == n[1..] + [0];
      UpToNulOfName(n[1..]);
    }
  }

  lemma NameRoundTrip(n: seq<Byte>, rest: seq<Byte>)
    requires ValidName(n)
    ensures ReadName(EncodeName(n) + rest) == Ok(n, rest)
  {
    Regroup3(BigEndian(|n| + 1, 2), n + [0], rest);
    GetSent2(|n| + 1, (n + [0]) + rest);
    GetSentBytes(n + [0], rest);
    UpToNulOfName(n);
  }

  datatype Rel = Rel(schema: seq<Byte>, table: seq<Byte>)

  predicate ValidRel(r: Rel) { ValidName(r.schema) && ValidName(r.table) }

  function EncodeRel(r: Rel): seq<Byte> { EncodeName(r.schema) + EncodeName(r.table) }

  function ReadRel(bs: seq<Byte>): Parsed<Rel> {
    match ReadName(bs)
    case Err(e) => Err(e)
    case Ok(s, r) =>
      match ReadName(r)
      case Err(e) => Err(e)
      case Ok(t, r') => Ok(Rel(s, t), r')
  }

  lemma RelRoundTrip(rel: Rel, rest: seq<Byte>)
    requires ValidRel(rel)
    ensures ReadRel(EncodeRel(rel) + rest) == Ok(rel, rest)
  {
    Regroup3(EncodeName(rel.schema), EncodeName(rel.table), rest);
    NameRoundTrip(rel.schema, EncodeName(rel.table) + rest);
    NameRoundTrip(rel.table, rest);
  }

  // ---- the records ----------------------------------------------------------------------------

  datatype Origin = Origin(node: NodeId, lsn: nat)

  /** A record of the stream.  The sender's rows are columns, the receiver's are cells. */
  datatype Action<T> =
    | Begin(lsn: nat, time: int, xid: nat, origin: Option<Origin>)
    | Commit(lsn: nat, endLsn: nat, time: int)
    | Insert(rel: Rel, new_: T)
    | Update(rel: Rel, old_: Option<T>, new_: T)
    | Delete(rel: Rel, old_: Option<T>)
    | Message(transactional: bool, lsn: nat, payload: seq<Byte>)

  type Sent = Action<seq<Column>>
  type Received = Action<seq<Cell>>
  type Catalog = map<Rel, seq<Attribute>>

  const ACTION_BEGIN: Byte := 66
  const ACTION_COMMIT: Byte := 67
  const ACTION_INSERT: Byte := 73
  const ACTION_UPDATE: Byte := 85
  const ACTION_DELETE: Byte := 68
  const ACTION_MESSAGE: Byte := 77
  const NEW_TUPLE: Byte := 78
  const OLD_KEY: Byte := 75
  const NO_KEY: Byte := 69

  const BEGIN_WIDTHS: seq<nat> := [4, 8, 8, 4]
  const ORIGIN_WIDTHS: seq<nat> := [8, 4, 4, 8]
  const COMMIT_WIDTHS: seq<nat> := [4, 8, 8, 8]

  function EncodeBegin(a: Sent): seq<Byte>
    requires a.Begin?
  {
    var flags := if a.origin.Some? then 1 else 0;
    EncodeInts([flags, a.lsn, a.time % TWO64, a.xid], BEGIN_WIDTHS) +
    match a.origin
    case None => []
    case Some(o) => EncodeInts([o.node.sysid, o.node.timeline, o.node.dboid, o.lsn], ORIGIN_WIDTHS)
  }

  function ReadBegin(bs: seq<Byte>): Parsed<Received> {
    match ReadInts(bs, BEGIN_WIDTHS)
    case Err(e) => Err(e)
    case Ok(v, r) =>
      if v[0] % 2 == 0 then Ok(Begin(v[1], Signed64(v[2]), v[3], None), r)
      else
        match ReadInts(r, ORIGIN_WIDTHS)
        case Err(e) => Err(e)
        case Ok(w, r') => Ok(Begin(v[1], Signed64(v[2]), v[3], Some(Origin(NodeId(w[0], w[1], w[2]), w[3]))), r')
  }

  function EncodeCommit(a: Sent): seq<Byte>
    requires a.Commit?
  {
    EncodeInts([0, a.lsn, a.endLsn, a.time % TWO64], COMMIT_WIDTHS)
  }

  function ReadCommit(bs: seq<Byte>): Parsed<Received> {
    match GetInt(bs, 4)
    case Err(e) => Err(e)
    case Ok(flags, r) =>
      if flags != 0 then Err(CommitFlagsSet)
      else
        match ReadInts(r, COMMIT_WIDTHS[1..])
        case Err(e) => Err(e)
        case Ok(v, r') => Ok(Commit(v[0], v[1], Signed64(v[2])), r')
  }

  function EncodeRows(a: Sent): seq<Byte>
    requires a.Insert? || a.Update? || a.Delete?
  {
    match a
    case Insert(_, n) => [NEW_TUPLE] + EncodeTuple(n)
    case Update(_, None, n) => [NEW_TUPLE] + EncodeTuple(n)
    case Update(_, Some(o), n) => [OLD_KEY] + EncodeTuple(o) + ([NEW_TUPLE] + EncodeTuple(n))
    case Delete(_, None) => [NO_KEY]
    case Delete(_, Some(o)) => [OLD_KEY] + EncodeTuple(o)
  }

  function EncodeChange(a: Sent): seq<Byte>
    requires a.Insert? || a.Update? || a.Delete?
  {
    EncodeRel(a.rel) + EncodeRows(a)
  }

  /** A tag byte and the row behind it. */
  function ReadTagged(bs: seq<Byte>, tag: Byte, atts: seq<Attribute>, discard: bool): Parsed<seq<Cell>> {
    match GetByte(bs)
    case Err(e) => Err(e)
    case Ok(b, r) => if b != tag then Err(UnexpectedByte) else ReadTuple(r, atts, discard)
  }

  function ReadInsert(bs: seq<Byte>, rel: Rel, atts: seq<Attribute>, discard: bool): Parsed<Received> {
    match ReadTagged(bs, NEW_TUPLE, atts, discard)
    case Err(e) => Err(e)
    case Ok(n, r) => Ok(Insert(rel, n), r)
  }

  function ReadUpdate(bs: seq<Byte>, rel: Rel, atts: seq<Attribute>, discard: bool): Parsed<Received> {
    if bs != [] && bs[0] == OLD_KEY then
      match ReadTagged(bs, OLD_KEY, atts, discard)
      case Err(e) => Err(e)
      case Ok(o, r) =>
        match ReadTagged(r, NEW_TUPLE, atts, discard)
        case Err(e) => Err(e)
        case Ok(n, r') => Ok(Update(rel, Some(o), n), r')
    else
      match ReadTagged(bs, NEW_TUPLE, atts, discard)
      case Err(e) => Err(e)
      case Ok(n, r) => Ok(Update(rel, None, n), r)
  }

  function ReadDelete(bs: seq<Byte>, rel: Rel, atts: seq<Attribute>, discard: bool): Parsed<Received> {
    if bs != [] && bs[0] == NO_KEY then Ok(Delete(rel, None), bs[1..])
    else
      match ReadTagged(bs, OLD_KEY, atts, discard)
      case Err(e) => Err(e)
      case Ok(o, r) => Ok(Delete(rel, Some(o)), r)
  }

  function ReadChange(kind: Byte, bs: seq<Byte>, catalog: Catalog, discard: bool): Parsed<Received> {
    match ReadRel(bs)
    case Err(e) => Err(e)
    case Ok(rel, r) =>
      if rel !in catalog then Err(UnknownRelation)
      else if kind == ACTION_INSERT then ReadInsert(r, rel, catalog[rel], discard)
      else if kind == ACTION_UPDATE then ReadUpdate(r, rel, catalog[rel], discard)
      else ReadDelete(r, rel, catalog[rel], discard)
  }

  function EncodeEnvelope(a: Sent): seq<Byte>
    requires a.Message?
  {
    [if a.transactional then 1 else 0] + EncodeInts([a.lsn, |a.payload|], [8, 4]) + a.payload
  }

  function ReadEnvelope(bs: seq<Byte>): Parsed<Received> {
    match GetByte(bs)
    case Err(e) => Err(e)
    case Ok(t, r) =>
      match ReadInts(r, [8, 4])
      case Err(e) => Err(e)
      case Ok(v, r') =>
        match GetBytes(r', v[1])
        case Err(e) => Err(e)
        case Ok(p, r'') => Ok(Message(t != 0, v[0], p), r'')
  }

  function EncodeAction(a: Sent): seq<Byte> {
    match a
    case Begin(_, _, _, _) => [ACTION_BEGIN] + EncodeBegin(a)
    case Commit(_, _, _) => [ACTION_COMMIT] + EncodeCommit(a)
    case Insert(_, _) => [ACTION_INSERT] + EncodeChange(a)
    case Update(_, _, _) => [ACTION_UPDATE] + EncodeChange(a)
    case Delete(_, _) => [ACTION_DELETE] + EncodeChange(a)
    case Message(_, _, _) => [ACTION_MESSAGE] + EncodeEnvelope(a)
  }

  function ReadAction(bs: seq<Byte>, catalog: Catalog, discard: bool): Parsed<Received> {
    match GetByte(bs)
    case Err(e) => Err(e)
    case Ok(k, r) =>
      if k == ACTION_BEGIN then ReadBegin(r)
      else if k == ACTION_COMMIT then ReadCommit(r)
      else if k == ACTION_INSERT || k == ACTION_UPDATE || k == ACTION_DELETE then ReadChange(k, r, catalog, discard)
      else if k == ACTION_MESSAGE then ReadEnvelope(r)
      else Err(UnexpectedByte)
  }

  // ---- round trips -------------------------------------------------------------------------------

  predicate Timestamp(t: int) { -(TWO63 as int) <= t < TWO63 }

  /** What the sender can put into a record. */
  predicate WellFormed(a: Sent) {
    match a
    case Begin(lsn, time, xid, origin) =>
      lsn < TWO64 && Timestamp(time) && xid < TWO32 && (origin.Some? ==> ValidId(origin.value.node) && origin.value.lsn < TWO64)
    case Commit(lsn, endLsn, time) => lsn < TWO64 && endLsn < TWO64 && Timestamp(time)
    case Insert(rel, n) => ValidRel(rel) && AllSendable(n)
    case Update(rel, o, n) => ValidRel(rel) && AllSendable(n) && (o.Some? ==> AllSendable(o.value))
    case Delete(rel, o) => ValidRel(rel) && (o.Some? ==> AllSendable(o.value))
    case Message(_, lsn, payload) => lsn < TWO64 && |payload| < TWO31
  }

  /** The receiver has the table and every row of the record fits it. */
  predicate Acceptable(a: Sent, catalog: Catalog) {
    match a
    case Insert(rel, n) => rel in catalog && Fits(n, catalog[rel])
    case Update(rel, o, n) => rel in catalog && Fits(n, catalog[rel]) && (o.Some? ==> Fits(o.value, catalog[rel]))
    case Delete(rel, o) => rel in catalog && (o.Some? ==> Fits(o.value, catalog[rel]))
    case _ => true
  }

  /** The record as the receiver sees it. */
  function View(a: Sent, catalog: Catalog): Received
    requires Acceptable(a, catalog)
  {
    match a
    case Begin(lsn, time, xid, origin) => Begin(lsn, time, xid, origin)
    case Commit(lsn, endLsn, time) => Commit(lsn, endLsn, time)
    case Insert(rel, n) => Insert(rel, Fitted(n, |catalog[rel]|))
    case Update(rel, o, n) =>
      Update(rel, if o.Some? then Some(Fitted(o.value, |catalog[rel]|)) else None, Fitted(n, |catalog[rel]|))
    case Delete(rel, o) => Delete(rel, if o.Some? then Some(Fitted(o.value, |catalog[rel]|)) else None)
    case Message(t, lsn, payload) => Message(t, lsn, payload)
  }

  lemma BeginRoundTrip(a: Sent, catalog: Catalog)
    requires a.Begin? && WellFormed(a)
    ensures ReadBegin(EncodeBegin(a)) == Ok(View(a, catalog), [])
  {
    var flags := if a.origin.Some? then 1 else 0;
    var fields := [flags, a.lsn, a.time % TWO64, a.xid];
    var tail: seq<Byte> := match a.origin
      case None => []
      case Some(o) => EncodeInts([o.node.sysid, o.node.timeline, o.node.dboid, o.lsn], ORIGIN_WIDTHS);
    Widths();
    assert InRange(fields, BEGIN_WIDTHS);
    IntsRoundTrip(fields, BEGIN_WIDTHS, tail);
    SignedRoundTrip(a.time);
    if a.origin.Some? {
      var o := a.origin.value;
      assert InRange([o.node.sysid, o.node.timeline, o.node.dboid, o.lsn], ORIGIN_WIDTHS);
      IntsRoundTrip([o.node.sysid, o.node.timeline, o.node.dboid, o.lsn], ORIGIN_WIDTHS, []);
      assert tail + [] == tail;
    }
  }

  lemma CommitRoundTrip(a: Sent, catalog: Catalog)
    requires a.Commit? && WellFormed(a)
    ensures ReadCommit(EncodeCommit(a)) == Ok(View(a, catalog), [])
  {
    var fields := [a.lsn, a.endLsn, a.time % TWO64];
    Widths();
    assert [0, a.lsn, a.endLsn, a.time % TWO64][1..] == fields;
    GetSent4(0, EncodeInts(fields, COMMIT_WIDTHS[1..]));
    assert InRange(fields, COMMIT_WIDTHS[1..]);
    IntsRoundTrip(fields, COMMIT_WIDTHS[1..], []);
    assert EncodeInts(fields, COMMIT_WIDTHS[1..]) + [] == EncodeInts(fields, COMMIT_WIDTHS[1..]);
    SignedRoundTrip(a.time);
  }

  lemma EnvelopeRoundTrip(a: Sent, catalog: Catalog)
    requires a.Message? && WellFormed(a)
    ensures ReadEnvelope(EncodeEnvelope(a)) == Ok(View(a, catalog), [])
  {
    var ints := EncodeInts([a.lsn, |a.payload|], [8, 4]);
    Widths();
    Regroup3([if a.transactional then 1 else 0], ints, a.payload);
    assert InRange([a.lsn, |a.payload|], [8, 4]);
    IntsRoundTrip([a.lsn, |a.payload|], [8, 4], a.payload);
    GetSentBytes(a.payload, []);
    assert a.payload + [] == a.payload;
  }

  lemma TaggedRoundTrip(tag: Byte, cols: seq<Column>, atts: seq<Attribute>, rest: seq<Byte>)
    requires AllSendable(cols)
    ensures var p := ReadTagged([tag] + EncodeTuple(cols) + rest, tag, atts, false);
            (p.Ok? <==> Fits(cols, atts)) && (p.Ok? ==> p == Ok(Fitted(cols, |atts|), rest))
  {
    Regroup3([tag], EncodeTuple(cols), rest);
    TupleRoundTrip(cols, atts, rest);
  }

  lemma TaggedLast(tag: Byte, cols: seq<Column>, atts: seq<Attribute>)
    requires AllSendable(cols)
    ensures var p := ReadTagged([tag] + EncodeTuple(cols), tag, atts, false);
            (p.Ok? <==> Fits(cols, atts)) && (p.Ok? ==> p == Ok(Fitted(cols, |atts|), []))
  {
    TaggedRoundTrip(tag, cols, atts, []);
    assert [tag] + EncodeTuple(cols) + [] == [tag] + EncodeTuple(cols);
  }

  lemma InsertRoundTrip(a: Sent, catalog: Catalog)
    requires WellFormed(a) && a.Insert? && a.rel in catalog
    ensures var p := ReadInsert(EncodeRows(a), a.rel, catalog[a.rel], false);
            (p.Ok? <==> Acceptable(a, catalog)) && (p.Ok? ==> p == Ok(View(a, catalog), []))
  {
    TaggedLast(NEW_TUPLE, a.new_, catalog[a.rel]);
  }

  lemma UpdateRoundTrip(a: Sent, catalog: Catalog)
    requires WellFormed(a) && a.Update? && a.rel in catalog
    ensures var p := ReadUpdate(EncodeRows(a), a.rel, catalog[a.rel], false);
            (p.Ok? <==> Acceptable(a, catalog)) && (p.Ok? ==> p == Ok(View(a, catalog), []))
  {
    TaggedLast(NEW_TUPLE, a.new_, catalog[a.rel]);
    if a.old_.Some? {
      TaggedRoundTrip(OLD_KEY, a.old_.value, catalog[a.rel], [NEW_TUPLE] + EncodeTuple(a.new_));
    }
  }

  lemma DeleteRoundTrip(a: Sent, catalog: Catalog)
    requires WellFormed(a) && a.Delete? && a.rel in catalog
    ensures var p := ReadDelete(EncodeRows(a), a.rel, catalog[a.rel], false);
            (p.Ok? <==> Acceptable(a, catalog)) && (p.Ok? ==> p == Ok(View(a, catalog), []))
  {
    if a.old_.Some? { TaggedLast(OLD_KEY, a.old_.value, catalog[a.rel]); }
  }

  lemma ChangeRoundTrip(a: Sent, catalog: Catalog, kind: Byte)
    requires WellFormed(a) && (a.Insert? || a.Update? || a.Delete?)
    requires kind == if a.Insert? then ACTION_INSERT else if a.Update? then ACTION_UPDATE else ACTION_DELETE
    ensures var p := ReadChange(kind, EncodeChange(a), catalog, false);
            (p.Ok? <==> Acceptable(a, catalog)) && (p.Ok? ==> p == Ok(View(a, catalog), []))
  {
    RelRoundTrip(a.rel, EncodeRows(a));
    if a.rel in catalog {
      match a
      case Insert(_, _) => InsertRoundTrip(a, catalog);
      case Update(_, _, _) => UpdateRoundTrip(a, catalog);
      case Delete(_, _) => DeleteRoundTrip(a, catalog);
    }
  }

  lemma ReadBehindTag(kind: Byte, body: seq<Byte>, catalog: Catalog)
    requires kind == ACTION_INSERT || kind == ACTION_UPDATE || kind == ACTION_DELETE
    ensures ReadAction([kind] + body, catalog, false) == ReadChange(kind, body, catalog, false)
  {
    assert ([kind] + body)[1..] == body;
  }

  lemma ControlRoundTrip(a: Sent, catalog: Catalog)
    requires WellFormed(a) && (a.Begin? || a.Commit? || a.Message?)
    ensures ReadAction(EncodeAction(a), catalog, false) == Ok(View(a, catalog), [])
  {
    var bs := EncodeAction(a);
    match a
    case Begin(_, _, _, _) => BeginRoundTrip(a, catalog); assert bs[1..] == EncodeBegin(a);
    case Commit(_, _, _) => CommitRoundTrip(a, catalog); assert bs[1..] == EncodeCommit(a);
    case Message(_, _, _) => EnvelopeRoundTrip(a, catalog); assert bs[1..] == EncodeEnvelope(a);
  }

  /** A record that was sent is taken exactly when its table exists and its rows fit; it
      arrives as it was sent and nothing of the record is left over. */
  lemma ActionRoundTrip(a: Sent, catalog: Catalog)
    requires WellFormed(a)
    ensures ReadAction(EncodeAction(a), catalog, false).Ok? <==> Acceptable(a, catalog)
    ensures Acceptable(a, catalog) ==> ReadAction(EncodeAction(a), catalog, false) == Ok(View(a, catalog), [])
  {
    if a.Begin? || a.Commit? || a.Message? {
      ControlRoundTrip(a, catalog);
    } else {
      var kind := if a.Insert? then ACTION_INSERT else if a.Update? then ACTION_UPDATE else ACTION_DELETE;
      ChangeRoundTrip(a, catalog, kind);
      ReadBehindTag(kind, EncodeChange(a), catalog);
    }
  }

  // ---- the writers ------------------------------------------------------------------------------

  /** The record as the rows of the sender's table make it. */
  function Sending(a: Action<seq<Source>>): Sent {
    match a
    case Begin(lsn, time, xid, origin) => Begin(lsn, time, xid, origin)
    case Commit(lsn, endLsn, time) => Commit(lsn, endLsn, time)
    case Insert(rel, n) => Insert(rel, Columns(n))
    case Update(rel, o, n) => Update(rel, if o.Some? then Some(Columns(o.value)) else None, Columns(n))
    case Delete(rel, o) => Delete(rel, if o.Some? then Some(Columns(o.value)) else None)
    case Message(t, lsn, payload) => Message(t, lsn, payload)
  }

  predicate IsChange<T>(a: Action<T>) { a.Insert? || a.Update? || a.Delete? }

  function NewRow<T>(a: Action<T>): Option<T>
    requires IsChange(a)
  {
    if a.Delete? then None else Some(a.new_)
  }

  function OldRow<T>(a: Action<T>): Option<T>
    requires IsChange(a)
  {
    if a.Insert? then None else a.old_
  }

  predicate SendableChange(a: Action<seq<Source>>)
    requires IsChange(a)
  {
    && ValidRel(a.rel) && (NewRow(a).Some? ==> SendableRow(NewRow(a).value))
    && (OldRow(a).Some? ==> SendableRow(OldRow(a).value))
  }

  /** The receiver has the table and the rows of the change fit it. */
  predicate ChangeFits(a: Action<seq<Source>>, catalog: Catalog)
    requires IsChange(a)
  {
    && a.rel in catalog && (NewRow(a).Some? ==> RowFits(NewRow(a).value, catalog[a.rel]))
    && (OldRow(a).Some? ==> RowFits(OldRow(a).value, catalog[a.rel]))
  }

  /** The same kind of change of the same table, with a new and an old row exactly where the
      sender had one, each as the sender's table had it. */
  predicate ChangeArrived(a: Action<seq<Source>>, r: Received, n: nat)
    requires IsChange(a)
  {
    && (r.Insert? <==> a.Insert?) && (r.Update? <==> a.Update?) && (r.Delete? <==> a.Delete?)
    && IsChange(r) && r.rel == a.rel
    && (NewRow(r).Some? <==> NewRow(a).Some?) && (OldRow(r).Some? <==> OldRow(a).Some?)
    && (NewRow(a).Some? ==> RowArrived(NewRow(a).value, NewRow(r).value, n))
    && (OldRow(a).Some? ==> RowArrived(OldRow(a).value, OldRow(r).value, n))
  }

  predicate TakenAsChange(bs: seq<Byte>, a: Action<seq<Source>>, catalog: Catalog)
    requires IsChange(a)
  {
    var p := ReadAction(bs, catalog, false);
    (p.Ok? <==> ChangeFits(a, catalog)) && (p.Ok? ==> p.rest == [] && ChangeArrived(a, p.value, |catalog[a.rel]|))
  }

  /** Whatever tables the receiver has, `bs` is taken as this change or refused. */
  ghost predicate CarriesChange(bs: seq<Byte>, a: Action<seq<Source>>)
    requires IsChange(a)
  {
    forall catalog: Catalog :: TakenAsChange(bs, a, catalog)
  }

  lemma RowsAsColumns(row: Option<seq<Source>>, atts: seq<Attribute>)
    ensures row.Some? ==> (SendableRow(row.value) ==> AllSendable(Columns(row.value)))
    ensures row.Some? ==> (Fits(Columns(row.value), atts) <==> RowFits(row.value, atts))
    ensures row.Some? ==> RowArrived(row.value, Fitted(Columns(row.value), |atts|), |atts|)
  {
    if row.Some? { RowAsColumns(row.value, atts); }
  }

  /** A change of a row of the sender's table is taken exactly when the receiver's table is
      there and fits, and arrives with all its rows. */
  lemma ChangeIsTaken(a: Action<seq<Source>>, catalog: Catalog)
    requires IsChange(a) && SendableChange(a)
    ensures TakenAsChange(EncodeAction(Sending(a)), a, catalog)
  {
    hide RowFits, Fits, SendableRow, RowArrived, AllSendable, EncodeAction, ReadAction, EncodeTuple;
    var atts := if a.rel in catalog then catalog[a.rel] else [];
    RowsAsColumns(NewRow(a), atts);
    RowsAsColumns(OldRow(a), atts);
    ActionRoundTrip(Sending(a), catalog);
  }

  lemma ChangeIsCarried(a: Action<seq<Source>>)
    requires IsChange(a)
    ensures SendableChange(a) ==> CarriesChange(EncodeAction(Sending(a)), a)
  {
    hide TakenAsChange;
    if SendableChange(a) {
      forall catalog: Catalog ensures TakenAsChange(EncodeAction(Sending(a)), a, catalog) { ChangeIsTaken(a, catalog); }
    }
  }

  method WriteRel(out: StringInfo, rel: Rel)
    modifies out`data
    ensures out.data == old(out.data) + EncodeRel(rel)
  {
    out.SendInt(|rel.schema| + 1, 2);
    out.AppendBinary(rel.schema + [0]);
    out.SendInt(|rel.table| + 1, 2);
    out.AppendBinary(rel.table + [0]);
  }

  method WriteTagged(out: StringInfo, tag: Byte, row: seq<Source>)
    modifies out`data
    ensures out.data == old(out.data) + ([tag] + EncodeTuple(Columns(row)))
  {
    out.SendByte(tag);
    WriteTuple(out, row);
    Regroup3(old(out.data), [tag], EncodeTuple(Columns(row)));
  }

  method WriteRows(out: StringInfo, a: Action<seq<Source>>)
    requires IsChange(a)
    modifies out`data
    ensures out.data == old(out.data) + EncodeRows(Sending(a))
  {
    match a
    case Insert(_, n) =>
      WriteTagged(out, NEW_TUPLE, n);
    case Update(_, o, n) =>
      if o.Some? { WriteTagged(out, OLD_KEY, o.value); }
      WriteTagged(out, NEW_TUPLE, n);
      if o.Some? {
        Regroup3(old(out.data), [OLD_KEY] + EncodeTuple(Columns(o.value)), [NEW_TUPLE] + EncodeTuple(Columns(n)));
      }
    case Delete(_, o) =>
      if o.Some? { WriteTagged(out, OLD_KEY, o.value); } else { out.SendByte(NO_KEY); }
  }

  method WriteChange(out: StringInfo, a: Action<seq<Source>>)
    requires IsChange(a)
    modifies out`data
    ensures out.data == old(out.data) + EncodeAction(Sending(a))
    ensures SendableChange(a) ==> CarriesChange(out.data[|old(out.data)|..], a)
  {
    hide CarriesChange, SendableChange, CarriesRow, SendableRow;
    var kind := if a.Insert? then ACTION_INSERT else if a.Update? then ACTION_UPDATE else ACTION_DELETE;
    out.SendByte(kind);
    WriteRel(out, a.rel);
    WriteRows(out, a);
    Regroup(old(out.data), [kind], EncodeRel(a.rel), EncodeRows(Sending(a)));
    assert out.data[|old(out.data)|..] == EncodeAction(Sending(a));
    ChangeIsCarried(a);
  }

  // ---- messages of the lock protocol ---------------------------------------------------------------

  datatype LockMessage =
    | Start
    | AcquireLock(lockType: nat)
    | ReleaseLock(peer: NodeId)
    | ConfirmLock(peer: NodeId, lockType: nat)
    | DeclineLock(peer: NodeId, lockType: nat)
    | RequestReplayConfirm(lsn: nat)
    | ReplayConfirm(lsn: nat)
    | Unhandled(number: nat)

  const LOCK_WRITE: nat := 2

  function Number(m: LockMessage): nat {
    match m
    case Start => 0
    case AcquireLock(_) => 1
    case ReleaseLock(_) => 2
    case ConfirmLock(_, _) => 3
    case DeclineLock(_, _) => 4
    case RequestReplayConfirm(_) => 5
    case ReplayConfirm(_) => 6
    case Unhandled(n) => n
  }

  function EncodeMessageBody(m: LockMessage): seq<Byte> {
    match m
    case Start => []
    case AcquireLock(t) => BigEndian(t, 4)
    case ReleaseLock(peer) => EncodeNodeId(peer, false)
    case ConfirmLock(peer, t) => EncodeNodeId(peer, false) + BigEndian(t, 4)
    case DeclineLock(peer, t) => EncodeNodeId(peer, false) + BigEndian(t, 4)
    case RequestReplayConfirm(lsn) => BigEndian(lsn, 8)
    case ReplayConfirm(lsn) => BigEndian(lsn, 8)
    case Unhandled(_) => []
  }

  function EncodeMessage(from: NodeId, m: LockMessage): seq<Byte> {
    BigEndian(Number(m), 4) + (EncodeNodeId(from, true) + EncodeMessageBody(m))
  }

  /** Senders of an older protocol leave the lock type out and mean the write lock. */
  function ReadLockType(bs: seq<Byte>): Parsed<nat> {
    if bs == [] then Ok(LOCK_WRITE, bs) else GetInt(bs, 4)
  }

  function ReadPeerAndType(bs: seq<Byte>): Parsed<(NodeId, nat)> {
    match ReadNodeId(bs, false)
    case Err(e) => Err(e)
    case Ok(peer, r) =>
      match ReadLockType(r)
      case Err(e) => Err(e)
      case Ok(t, r') => Ok((peer, t), r')
  }

  function ReadMessageBody(n: nat, bs: seq<Byte>): Parsed<LockMessage> {
    if n == 0 then Ok(Start, bs)
    else if n == 1 then
      match ReadLockType(bs) case Err(e) => Err(e) case Ok(t, r) => Ok(AcquireLock(t), r)
    else if n == 2 then
      match ReadNodeId(bs, false) case Err(e) => Err(e) case Ok(peer, r) => Ok(ReleaseLock(peer), r)
    else if n == 3 then
      match ReadPeerAndType(bs) case Err(e) => Err(e) case Ok(p, r) => Ok(ConfirmLock(p.0, p.1), r)
    else if n == 4 then
      match ReadPeerAndType(bs) case Err(e) => Err(e) case Ok(p, r) => Ok(DeclineLock(p.0, p.1), r)
    else if n == 5 then
      match GetInt(bs, 8) case Err(e) => Err(e) case Ok(lsn, r) => Ok(RequestReplayConfirm(lsn), r)
    else if n == 6 then
      match GetInt(bs, 8) case Err(e) => Err(e) case Ok(lsn, r) => Ok(ReplayConfirm(lsn), r)
    else Ok(Unhandled(n), bs)
  }

  /** The origin and the message; bytes behind it are ignored by the caller. */
  function ReadMessage(bs: seq<Byte>): Parsed<(NodeId, LockMessage)> {
    match GetInt(bs, 4)
    case Err(e) => Err(e)
    case Ok(n, r) =>
      match ReadNodeId(r, true)
      case Err(e) => Err(e)
      case Ok(from, r') =>
        match ReadMessageBody(n, r')
        case Err(e) => Err(e)
        case Ok(m, r'') => Ok((from, m), r'')
  }

  predicate ValidMessage(m: LockMessage) {
    match m
    case Start => true
    case AcquireLock(t) => t < TWO32
    case ReleaseLock(peer) => ValidId(peer)
    case ConfirmLock(peer, t) => ValidId(peer) && t < TWO32
    case DeclineLock(peer, t) => ValidId(peer) && t < TWO32
    case RequestReplayConfirm(lsn) => lsn < TWO64
    case ReplayConfirm(lsn) => lsn < TWO64
    case Unhandled(n) => 6 < n < TWO32
  }

  lemma PeerAndTypeRoundTrip(peer: NodeId, t: nat, rest: seq<Byte>)
    requires ValidId(peer) && t < TWO32
    ensures ReadPeerAndType(EncodeNodeId(peer, false) + BigEndian(t, 4) + rest) == Ok((peer, t), rest)
  {
    Regroup3(EncodeNodeId(peer, false), BigEndian(t, 4), rest);
    NodeIdRoundTrip(peer, false, BigEndian(t, 4) + rest);
    GetSent4(t, rest);
    assert |BigEndian(t, 4) + rest| > 0;
  }

  lemma BodyRoundTripOf(m: LockMessage, rest: seq<Byte>)
    requires ValidMessage(m)
    ensures ReadMessageBody(Number(m), EncodeMessageBody(m) + rest) == Ok(m, rest)
  {
    match m
    case Start => assert [] + rest == rest;
    case Unhandled(_) => assert [] + rest == rest;
    case AcquireLock(t) => GetSent4(t, rest); assert |BigEndian(t, 4) + rest| > 0;
    case ReleaseLock(peer) => NodeIdRoundTrip(peer, false, rest);
    case ConfirmLock(peer, t) => PeerAndTypeRoundTrip(peer, t, rest);
    case DeclineLock(peer, t) => PeerAndTypeRoundTrip(peer, t, rest);
    case RequestReplayConfirm(lsn) => GetSent8(lsn, rest);
    case ReplayConfirm(lsn) => GetSent8(lsn, rest);
  }

  /** A protocol message arrives as it was sent, with its sender, and what later versions
      add behind it changes nothing. */
  lemma MessageRoundTrip(from: NodeId, m: LockMessage, more: seq<Byte>)
    requires ValidId(from) && ValidMessage(m)
    ensures ReadMessage(EncodeMessage(from, m) + more) == Ok((from, m), more)
  {
    var id, body := EncodeNodeId(from, true), EncodeMessageBody(m);
    Regroup3(BigEndian(Number(m), 4), id + body, more);
    Regroup3(id, body, more);
    GetSent4(Number(m), id + body + more);
    NodeIdRoundTrip(from, true, body + more);
    BodyRoundTripOf(m, more);
  }

  /** Without a lock type an ACQUIRE, CONFIRM or DECLINE is about lock type 2, the write lock. */
  lemma OldProtocolMeansWrite(from: NodeId, peer: NodeId)
    requires ValidId(from) && ValidId(peer)
    ensures ReadMessage(BigEndian(1, 4) + EncodeNodeId(from, true)) == Ok((from, AcquireLock(2)), [])
    ensures ReadMessage(BigEndian(3, 4) + (EncodeNodeId(from, true) + EncodeNodeId(peer, false))) ==
              Ok((from, ConfirmLock(peer, 2)), [])
    ensures ReadMessage(BigEndian(4, 4) + (EncodeNodeId(from, true) + EncodeNodeId(peer, false))) ==
              Ok((from, DeclineLock(peer, 2)), [])
  {
    GetSent4(1, EncodeNodeId(from, true));
    NodeIdRoundTrip(from, true, []);
    assert EncodeNodeId(from, true) + [] == EncodeNodeId(from, true);
    GetSent4(3, EncodeNodeId(from, true) + EncodeNodeId(peer, false));
    GetSent4(4, EncodeNodeId(from, true) + EncodeNodeId(peer, false));
    NodeIdRoundTrip(from, true, EncodeNodeId(peer, false));
    NodeIdRoundTrip(peer, false, []);
    assert EncodeNodeId(peer, false) + [] == EncodeNodeId(peer, false);
  }

  /** A message of the protocol, wrapped into a record of the stream and back. */
  lemma WrappedMessage(from: NodeId, m: LockMessage, transactional: bool, lsn: nat, catalog: Catalog)
    requires ValidId(from) && ValidMessage(m) && lsn < TWO64
    ensures var p := ReadAction(EncodeAction(Message(transactional, lsn, EncodeMessage(from, m))), catalog, false);
            p.Ok? && p.value.Message? && p.value.transactional == transactional && p.value.lsn == lsn
            && ReadMessage(p.value.payload) == Ok((from, m), [])
  {
    var a: Sent := Message(transactional, lsn, EncodeMessage(from, m));
    MessageLength(from, m);
    ActionRoundTrip(a, catalog);
    MessageRoundTrip(from, m, []);
    assert EncodeMessage(from, m) + [] == EncodeMessage(from, m);
  }

  lemma NodeIdLength(id: NodeId, emptyName: bool)
    ensures |EncodeNodeId(id, emptyName)| <= 20
  {
    IntsLength([id.sysid, id.timeline, id.dboid], [8, 4, 4]);
    assert Sum([8, 4, 4]) == 16 by { assert [8, 4, 4][1..] == [4, 4] && [4, 4][1..] == [4]; }
  }

  function Sum(ws: seq<nat>): nat { if ws == [] then 0 else ws[0] + Sum(ws[1..]) }

  lemma {:induction false} IntsLength(vs: seq<int>, ws: seq<nat>)
    requires |vs| == |ws|
    ensures |EncodeInts(vs, ws)| == Sum(ws)
    decreases |vs|
  {
    if vs != [] { IntsLength(vs[1..], ws[1..]); }
  }

  lemma MessageLength(from: NodeId, m: LockMessage)
    ensures |EncodeMessage(from, m)| < TWO31
  {
    NodeIdLength(from, true);
    if m.ReleaseLock? || m.ConfirmLock? || m.DeclineLock? { NodeIdLength(m.peer, false); }
  }

  // ---- the same on buffers ------------------------------------------------------------------------

  lemma IntsOfThree(a: int, b: int, c: int)
    ensures EncodeInts([a, b, c], [8, 4, 4]) == BigEndian(a, 8) + BigEndian(b, 4) + BigEndian(c, 4)
  {
    assert EncodeInts([c], [4]) == BigEndian(c, 4) by { assert [c][1..] == []; assert BigEndian(c, 4) + [] == BigEndian(c, 4); }
    assert [b, c][1..] == [c] && [4, 4][1..] == [4];
    assert EncodeInts([b, c], [4, 4]) == BigEndian(b, 4) + BigEndian(c, 4);
    assert [a, b, c][1..] == [b, c] && [8, 4, 4][1..] == [4, 4];
    Regroup3(BigEndian(a, 8), BigEndian(b, 4), BigEndian(c, 4));
  }

  method SendNodeId(out: StringInfo, id: NodeId, emptyName: bool)
    modifies out`data
    ensures out.data == old(out.data) + EncodeNodeId(id, emptyName)
  {
    out.SendInt(id.sysid, 8);
    out.SendInt(id.timeline, 4);
    out.SendInt(id.dboid, 4);
    IntsOfThree(id.sysid, id.timeline, id.dboid);
    ghost var ints := BigEndian(id.sysid, 8) + BigEndian(id.timeline, 4) + BigEndian(id.dboid, 4);
    Regroup(old(out.data), BigEndian(id.sysid, 8), BigEndian(id.timeline, 4), BigEndian(id.dboid, 4));
    Regroup3(BigEndian(id.sysid, 8), BigEndian(id.timeline, 4), BigEndian(id.dboid, 4));
    assert out.data == old(out.data) + ints;
    if emptyName {
      out.SendInt(0, 4);
      Regroup3(old(out.data), ints, BigEndian(0, 4));
    } else {
      assert ints + [] == ints;
    }
  }

  function Prefixed(n: nat, p: Parsed<seq<nat>>): Parsed<seq<nat>> {
    if p.Err? then Err(p.error) else Ok([n] + p.value, p.rest)
  }

  lemma ReadOneInt(bs: seq<Byte>, w: nat, ws: seq<nat>)
    ensures var g := GetInt(bs, w);
            ReadInts(bs, [w] + ws) == if g.Err? then Err(g.error) else Prefixed(g.value, ReadInts(g.rest, ws))
  {
    assert ([w] + ws)[1..] == ws;
  }

  /** Three integers in a row, as the reader takes them. */
  function ReadThree(bs: seq<Byte>): Parsed<seq<nat>> {
    var a := GetInt(bs, 8);
    if a.Err? then Err(a.error)
    else
      var b := GetInt(a.rest, 4);
      if b.Err? then Err(b.error)
      else
        var c := GetInt(b.rest, 4);
        if c.Err? then Err(c.error) else Ok([a.value, b.value, c.value], c.rest)
  }

  lemma ReadThreeInts(bs: seq<Byte>)
    ensures ReadInts(bs, [8, 4, 4]) == ReadThree(bs)
  {
    assert [8] + [4, 4] == [8, 4, 4] && [4] + [4] == [4, 4] && [4] + [] == [4];
    ReadOneInt(bs, 8, [4, 4]);
    if GetInt(bs, 8).Ok? {
      var r := GetInt(bs, 8).rest;
      ReadOneInt(r, 4, [4]);
      if GetInt(r, 4).Ok? {
        var r' := GetInt(r, 4).rest;
        ReadOneInt(r', 4, []);
        if GetInt(r', 4).Ok? {
          var a, b, c := GetInt(bs, 8).value, GetInt(r, 4).value, GetInt(r', 4).value;
          assert [a] + ([b] + ([c] + [])) == [a, b, c];
        }
      }
    }
  }

  method GetMsgNodeId(s: StringInfo, emptyName: bool) returns (p: Parsed<NodeId>)
    requires s.Valid()
    modifies s`cursor
    ensures s.Valid() && p == ReadNodeId(old(s.Rest()), emptyName)
    ensures p.Ok? ==> s.Rest() == p.rest
  {
    ReadThreeInts(s.Rest());
    var sysid := s.GetMsgInt(8);
    if sysid.Err? { return Err(sysid.error); }
    var timeline := s.GetMsgInt(4);
    if timeline.Err? { return Err(timeline.error); }
    var dboid := s.GetMsgInt(4);
    if dboid.Err? { return Err(dboid.error); }
    var id := NodeId(sysid.value, timeline.value, dboid.value);
    if !emptyName { return Ok(id, dboid.rest); }
    var name := s.GetMsgInt(4);
    if name.Err? { return Err(name.error); }
    if name.value != 0 { return Err(NodeNameNotEmpty); }
    p := Ok(id, name.rest);
  }

  /** The header that every message starts with. */
  method PrepareMessage(out: StringInfo, number: nat, from: NodeId)
    modifies out`data
    ensures out.data == old(out.data) + (BigEndian(number, 4) + EncodeNodeId(from, true))
  {
    out.SendInt(number, 4);
    SendNodeId(out, from, true);
    Regroup3(old(out.data), BigEndian(number, 4), EncodeNodeId(from, true));
  }

  method SendMessageBody(out: StringInfo, m: LockMessage)
    modifies out`data
    ensures out.data == old(out.data) + EncodeMessageBody(m)
  {
    match m
    case Start => assert old(out.data) + [] == old(out.data);
    case Unhandled(_) => assert old(out.data) + [] == old(out.data);
    case AcquireLock(t) => out.SendInt(t, 4);
    case ReleaseLock(peer) => SendNodeId(out, peer, false);
    case ConfirmLock(peer, t) =>
      SendNodeId(out, peer, false);
      out.SendInt(t, 4);
      Regroup3(old(out.data), EncodeNodeId(peer, false), BigEndian(t, 4));
    case DeclineLock(peer, t) =>
      SendNodeId(out, peer, false);
      out.SendInt(t, 4);
      Regroup3(old(out.data), EncodeNodeId(peer, false), BigEndian(t, 4));
    case RequestReplayConfirm(lsn) => out.SendInt(lsn, 8);
    case ReplayConfirm(lsn) => out.SendInt(lsn, 8);
  }

  method SendMessage(out: StringInfo, from: NodeId, m: LockMessage)
    modifies out`data
    ensures out.data == old(out.data) + EncodeMessage(from, m)
  {
    PrepareMessage(out, Number(m), from);
    SendMessageBody(out, m);
    ghost var head := BigEndian(Number(m), 4) + EncodeNodeId(from, true);
    Regroup3(old(out.data), head, EncodeMessageBody(m));
    Regroup3(BigEndian(Number(m), 4), EncodeNodeId(from, true), EncodeMessageBody(m));
  }

  method GetLockType(s: StringInfo) returns (p: Parsed<nat>)
    requires s.Valid()
    modifies s`cursor
    ensures s.Valid() && p == ReadLockType(old(s.Rest()))
    ensures p.Ok? ==> s.Rest() == p.rest
  {
    if s.cursor == |s.data| { return Ok(LOCK_WRITE, []); }
    p := s.GetMsgInt(4);
  }

  method GetPeerAndType(s: StringInfo) returns (p: Parsed<(NodeId, nat)>)
    requires s.Valid()
    modifies s`cursor
    ensures s.Valid() && p == ReadPeerAndType(old(s.Rest()))
    ensures p.Ok? ==> s.Rest() == p.rest
  {
    var peer := GetMsgNodeId(s, false);
    if peer.Err? { return Err(peer.error); }
    var t := GetLockType(s);
    if t.Err? { return Err(t.error); }
    p := Ok((peer.value, t.value), t.rest);
  }

  method ProcessMessageBody(s: StringInfo, n: nat) returns (p: Parsed<LockMessage>)
    requires s.Valid()
    modifies s`cursor
    ensures s.Valid() && p == ReadMessageBody(n, old(s.Rest()))
    ensures p.Ok? ==> s.Rest() == p.rest
  {
    if n == 0 {
      p := Ok(Start, s.data[s.cursor..]);
    } else if n == 1 {
      var t := GetLockType(s);
      p := if t.Err? then Err(t.error) else Ok(AcquireLock(t.value), t.rest);
    } else if n == 2 {
      var peer := GetMsgNodeId(s, false);
      p := if peer.Err? then Err(peer.error) else Ok(ReleaseLock(peer.value), peer.rest);
    } else if n == 3 || n == 4 {
      var q := GetPeerAndType(s);
      if q.Err? { return Err(q.error); }
      p := Ok(if n == 3 then ConfirmLock(q.value.0, q.value.1) else DeclineLock(q.value.0, q.value.1), q.rest);
    } else if n == 5 || n == 6 {
      var lsn := s.GetMsgInt(8);
      if lsn.Err? { return Err(lsn.error); }
      p := Ok(if n == 5 then RequestReplayConfirm(lsn.value) else ReplayConfirm(lsn.value), lsn.rest);
    } else {
      p := Ok(Unhandled(n), s.data[s.cursor..]);
    }
  }

  /** Type, sender and body of a message. */
  method ProcessMessage(s: StringInfo) returns (p: Parsed<(NodeId, LockMessage)>)
    requires s.Valid()
    modifies s`cursor
    ensures s.Valid() && p == ReadMessage(old(s.Rest()))
    ensures p.Ok? ==> s.Rest() == p.rest
  {
    var n := s.GetMsgInt(4);
    if n.Err? { return Err(n.error); }
    var from := GetMsgNodeId(s, true);
    if from.Err? { return Err(from.error); }
    var m := ProcessMessageBody(s, n.value);
    if m.Err? { return Err(m.error); }
    p := Ok((from.value, m.value), m.rest);
  }
}
