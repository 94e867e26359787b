/** Where each field of a record and of a lock message lies, in the letters and numbers of the
    protocol: what a peer of another build relies on. */
module WireLayout {
  import opened Common
  import opened Bytes
  import opened TupleWire
  import opened ActionWire

  predicate IsChar(b: Byte, c: char) { b as int == c as int }

  /** The `w` bytes from `pos` on are this number in network order. */
  predicate NumberAt(bs: seq<Byte>, pos: nat, w: nat, n: int) {
    pos + w <= |bs| && Value(bs[pos..pos + w]) == n
  }

  lemma NumberBehind(pre: seq<Byte>, n: int, w: nat, post: seq<Byte>)
    requires 0 <= n < Pow256(w)
    ensures NumberAt(pre + BigEndian(n, w) + post, |pre|, w, n)
  {
    ValueOfBigEndian(n, w);
    ModUnique(n, Pow256(w), 0, n);
    assert (pre + BigEndian(n, w) + post)[|pre|..|pre| + w] == BigEndian(n, w);
  }

  /** A number found in a part is found in the whole. */
  lemma NumberWithin(pre: seq<Byte>, part: seq<Byte>, post: seq<Byte>, pos: nat, w: nat, n: int)
    requires NumberAt(part, pos, w, n)
    ensures NumberAt(pre + part + post, |pre| + pos, w, n)
  {
    assert (pre + part + post)[|pre| + pos..|pre| + pos + w] == part[pos..pos + w];
  }

  /** The fields lie one behind the other from `pos` on. */
  predicate IntsAt(bs: seq<Byte>, pos: nat, vs: seq<int>, ws: seq<nat>)
    requires |vs| == |ws|
    decreases |vs|
  {
    vs == [] || (NumberAt(bs, pos, ws[0], vs[0]) && IntsAt(bs, pos + ws[0], vs[1..], ws[1..]))
  }

  lemma {:induction false} IntsBehind(pre: seq<Byte>, vs: seq<int>, ws: seq<nat>, post: seq<Byte>)
    requires InRange(vs, ws)
    ensures IntsAt(pre + EncodeInts(vs, ws) + post, |pre|, vs, ws)
    decreases |vs|
  {
    hide NumberAt, BigEndian;
    if vs != [] {
      var n, more := BigEndian(vs[0], ws[0]), EncodeInts(vs[1..], ws[1..]);
      NumberBehind(pre, vs[0], ws[0], more + post);
      IntsBehind(pre + n, vs[1..], ws[1..], post);
      assert pre + EncodeInts(vs, ws) + post == pre + n + (more + post) == pre + n + more + post;
    }
  }

  lemma FieldsAt(bs: seq<Byte>, pos: nat, vs: seq<int>, ws: seq<nat>)
    requires |vs| == |ws| <= 4 && IntsAt(bs, pos, vs, ws)
    ensures |vs| > 0 ==> NumberAt(bs, pos, ws[0], vs[0])
    ensures |vs| > 1 ==> NumberAt(bs, pos + ws[0], ws[1], vs[1])
    ensures |vs| > 2 ==> NumberAt(bs, pos + ws[0] + ws[1], ws[2], vs[2])
    ensures |vs| > 3 ==> NumberAt(bs, pos + ws[0] + ws[1] + ws[2], ws[3], vs[3])
    decreases |vs|
  {
    hide NumberAt;
    if vs != [] { FieldsAt(bs, pos + ws[0], vs[1..], ws[1..]); }
  }

  lemma FieldsBehind(pre: seq<Byte>, vs: seq<int>, ws: seq<nat>, post: seq<Byte>)
    requires InRange(vs, ws) && |vs| <= 4
    ensures var bs := pre + EncodeInts(vs, ws) + post;
            && (|vs| > 0 ==> NumberAt(bs, |pre|, ws[0], vs[0]))
            && (|vs| > 1 ==> NumberAt(bs, |pre| + ws[0], ws[1], vs[1]))
            && (|vs| > 2 ==> NumberAt(bs, |pre| + ws[0] + ws[1], ws[2], vs[2]))
            && (|vs| > 3 ==> NumberAt(bs, |pre| + ws[0] + ws[1] + ws[2], ws[3], vs[3]))
  {
    hide NumberAt, EncodeInts;
    IntsBehind(pre, vs, ws, post);
    FieldsAt(pre + EncodeInts(vs, ws) + post, |pre|, vs, ws);
  }

  lemma FourWidths()
    ensures Sum(BEGIN_WIDTHS) == 24 && Sum(ORIGIN_WIDTHS) == 24 && Sum(COMMIT_WIDTHS) == 28 && Sum([8, 4, 4]) == 16
  {
    assert Sum([]) == 0;
    assert [4, 8, 8, 4][1..] == [8, 8, 4] && [8, 8, 4][1..] == [8, 4] && [8, 4][1..] == [4] && [4][1..] == [];
    assert Sum([4]) == 4 && Sum([8, 4]) == 12 && Sum([8, 8, 4]) == 20;
    assert [8, 4, 4, 8][1..] == [4, 4, 8] && [4, 4, 8][1..] == [4, 8] && [4, 8][1..] == [8] && [8][1..] == [];
    assert Sum([8]) == 8 && Sum([4, 8]) == 12 && Sum([4, 4, 8]) == 16;
    assert [4, 8, 8, 8][1..] == [8, 8, 8] && [8, 8, 8][1..] == [8, 8] && [8, 8][1..] == [8];
    assert Sum([8, 8]) == 16 && Sum([8, 8, 8]) == 24;
    assert [8, 4, 4][1..] == [4, 4] && [4, 4][1..] == [4];
    assert Sum([4, 4]) == 8;
  }

  /** BEGIN: the letter B, flags, end position, commit time and transaction, and for a
      forwarded transaction the node it comes from and its position there. */
  lemma BeginLayout(a: Sent)
    requires a.Begin? && WellFormed(a)
    ensures var bs := EncodeAction(a);
            && |bs| == (if a.origin.Some? then 49 else 25) && IsChar(bs[0], 'B')
            && NumberAt(bs, 1, 4, if a.origin.Some? then 1 else 0) && NumberAt(bs, 5, 8, a.lsn)
            && NumberAt(bs, 13, 8, a.time % TWO64) && NumberAt(bs, 21, 4, a.xid)
    ensures a.origin.Some? ==>
              var bs, o := EncodeAction(a), a.origin.value;
              && NumberAt(bs, 25, 8, o.node.sysid) && NumberAt(bs, 33, 4, o.node.timeline)
              && NumberAt(bs, 37, 4, o.node.dboid) && NumberAt(bs, 41, 8, o.lsn)
  {
    hide NumberAt, EncodeInts;
    Widths();
    FourWidths();
    var fields := [if a.origin.Some? then 1 else 0, a.lsn, a.time % TWO64, a.xid];
    var bs, head := EncodeAction(a), EncodeInts(fields, BEGIN_WIDTHS);
    var tail: seq<Byte> := match a.origin
      case None => []
      case Some(o) => EncodeInts([o.node.sysid, o.node.timeline, o.node.dboid, o.lsn], ORIGIN_WIDTHS);
    IntsLength(fields, BEGIN_WIDTHS);
    assert InRange(fields, BEGIN_WIDTHS);
    FieldsBehind(['B' as int as Byte], fields, BEGIN_WIDTHS, tail);
    assert bs == ['B' as int as Byte] + head + tail;
    if a.origin.Some? {
      var o := a.origin.value;
      var ids := [o.node.sysid, o.node.timeline, o.node.dboid, o.lsn];
      IntsLength(ids, ORIGIN_WIDTHS);
      assert InRange(ids, ORIGIN_WIDTHS);
      FieldsBehind(bs[..25], ids, ORIGIN_WIDTHS, []);
      assert bs == bs[..25] + tail + [];
    }
  }

  /** COMMIT: the letter C, no flags, position, end position and commit time. */
  lemma CommitLayout(a: Sent)
    requires a.Commit? && WellFormed(a)
    ensures var bs := EncodeAction(a);
            && |bs| == 29 && IsChar(bs[0], 'C') && NumberAt(bs, 1, 4, 0)
            && NumberAt(bs, 5, 8, a.lsn) && NumberAt(bs, 13, 8, a.endLsn) && NumberAt(bs, 21, 8, a.time % TWO64)
  {
    hide NumberAt, EncodeInts;
    Widths();
    FourWidths();
    var fields := [0, a.lsn, a.endLsn, a.time % TWO64];
    IntsLength(fields, COMMIT_WIDTHS);
    assert InRange(fields, COMMIT_WIDTHS);
    FieldsBehind(['C' as int as Byte], fields, COMMIT_WIDTHS, []);
    assert EncodeAction(a) == ['C' as int as Byte] + EncodeInts(fields, COMMIT_WIDTHS) + [];
  }

  /** A row: the letter T, the number of columns, and each column behind the ones before it:
      n, u, or a format letter with the length and the bytes. */
  lemma TupleLayout(cols: seq<Column>, i: nat)
    requires AllSendable(cols) && i < |cols|
    ensures var bs := EncodeTuple(cols);
            && |bs| >= 5 && IsChar(bs[0], 'T') && NumberAt(bs, 1, 4, |cols|)
            && var at := 5 + |EncodeFirst(cols, i)|;
               && at < |bs|
               && match cols[i]
                  case Null => IsChar(bs[at], 'n')
                  case Unchanged => IsChar(bs[at], 'u')
                  case Data(k, d) =>
                    && bs[at] == k && (IsChar(k, 'b') || IsChar(k, 's') || IsChar(k, 't'))
                    && NumberAt(bs, at + 1, 4, |d|) && at + 5 + |d| <= |bs| && bs[at + 5..at + 5 + |d|] == d
  {
    hide NumberAt, EncodeColumn;
    Widths();
    var bs := EncodeTuple(cols);
    var body, pre, c, post := EncodeFirst(cols, |cols|), EncodeFirst(cols, i), EncodeColumn(cols[i]), EncodeFrom(cols, i + 1);
    NumberBehind(['T' as int as Byte], |cols|, 4, body);
    SplitColumns(cols, i);
    var front := bs[..5] + pre;
    assert bs == bs[..5] + body;
    Regroup3(bs[..5], pre, c + post);
    Regroup3(front, c, post);
    assert bs == front + c + post;
    ColumnLayout(cols[i]);
    assert bs[|front|] == c[0];
    if cols[i].Data? {
      var d := cols[i].bytes;
      NumberWithin(front, c, post, 1, 4, |d|);
      assert bs[|front| + 5..|front| + 5 + |d|] == c[5..];
    }
  }

  lemma ColumnLayout(c: Column)
    requires Sendable(c)
    ensures var bs := EncodeColumn(c);
            match c
            case Null => |bs| == 1 && IsChar(bs[0], 'n')
            case Unchanged => |bs| == 1 && IsChar(bs[0], 'u')
            case Data(k, d) =>
              && |bs| == 5 + |d| && bs[0] == k && (IsChar(k, 'b') || IsChar(k, 's') || IsChar(k, 't'))
              && NumberAt(bs, 1, 4, |d|) && bs[5..] == d
  {
    if c.Data? {
      Widths();
      NumberBehind([c.kind], |c.bytes|, 4, c.bytes);
    }
  }

  /** A change: its letter, the table, and behind it the letter of each row. */
  lemma ChangeLayout(a: Sent)
    requires IsChange(a)
    ensures var bs, at := EncodeAction(a), 1 + |EncodeRel(a.rel)|;
            && at < |bs| && IsChar(bs[0], if a.Insert? then 'I' else if a.Update? then 'U' else 'D')
            && bs[1..at] == EncodeRel(a.rel)
            && IsChar(bs[at], if a.Insert? || (a.Update? && a.old_.None?) then 'N' else if a.old_.Some? then 'K' else 'E')
            && (a.Update? && a.old_.Some? ==>
                  var next := at + 1 + |EncodeTuple(a.old_.value)|; next < |bs| && IsChar(bs[next], 'N'))
  {
    hide EncodeTuple, EncodeRel;
    var rel, rows := EncodeRel(a.rel), EncodeRows(a);
    assert EncodeAction(a) == EncodeAction(a)[..1] + rel + rows;
  }

  /** A node identifier: system, timeline and database, and an empty name if asked for. */
  predicate IdAt(bs: seq<Byte>, pos: nat, id: NodeId) {
    NumberAt(bs, pos, 8, id.sysid) && NumberAt(bs, pos + 8, 4, id.timeline) && NumberAt(bs, pos + 12, 4, id.dboid)
  }

  lemma IdBehind(pre: seq<Byte>, id: NodeId, emptyName: bool, post: seq<Byte>)
    requires ValidId(id)
    ensures |EncodeNodeId(id, emptyName)| == (if emptyName then 20 else 16)
    ensures IdAt(pre + EncodeNodeId(id, emptyName) + post, |pre|, id)
    ensures emptyName ==> NumberAt(pre + EncodeNodeId(id, emptyName) + post, |pre| + 16, 4, 0)
  {
    hide NumberAt, EncodeInts, BigEndian;
    Widths();
    FourWidths();
    var fields := [id.sysid, id.timeline, id.dboid];
    var name: seq<Byte> := if emptyName then BigEndian(0, 4) else [];
    var bs, ints := pre + EncodeNodeId(id, emptyName) + post, EncodeInts(fields, [8, 4, 4]);
    IntsLength(fields, [8, 4, 4]);
    assert InRange(fields, [8, 4, 4]);
    FieldsBehind(pre, fields, [8, 4, 4], name + post);
    assert bs == pre + ints + (name + post);
    if emptyName {
      NumberBehind(pre + ints, 0, 4, post);
      assert bs == pre + ints + name + post;
    }
  }

  /** A lock message starts with its number, then the sender with an empty name. */
  lemma MessageHeader(from: NodeId, m: LockMessage)
    requires ValidId(from) && ValidMessage(m)
    ensures var bs := EncodeMessage(from, m);
            && |bs| == 24 + |EncodeMessageBody(m)| && bs[24..] == EncodeMessageBody(m)
            && NumberAt(bs, 0, 4, Number(m)) && IdAt(bs, 4, from) && NumberAt(bs, 20, 4, 0)
  {
    hide NumberAt, IdAt, EncodeNodeId, EncodeMessageBody, BigEndian;
    Widths();
    var bs, n, id, body := EncodeMessage(from, m), BigEndian(Number(m), 4), EncodeNodeId(from, true), EncodeMessageBody(m);
    NumberBehind([], Number(m), 4, id + body);
    assert bs == [] + n + (id + body);
    IdBehind(n, from, true, body);
    assert bs == n + id + body;
  }

  lemma PeerAndTypeLayout(pre: seq<Byte>, peer: NodeId, t: nat)
    requires ValidId(peer) && t < TWO32
    ensures var bs := pre + (EncodeNodeId(peer, false) + BigEndian(t, 4));
            |bs| == |pre| + 20 && IdAt(bs, |pre|, peer) && NumberAt(bs, |pre| + 16, 4, t)
  {
    Widths();
    var id := EncodeNodeId(peer, false);
    IdBehind(pre, peer, false, BigEndian(t, 4));
    Regroup3(pre, id, BigEndian(t, 4));
    NumberBehind(pre + id, t, 4, []);
    assert pre + id + BigEndian(t, 4) + [] == pre + id + BigEndian(t, 4);
  }

  /** The number of each message and what lies behind the sender. */
  lemma MessageLayout(from: NodeId, m: LockMessage)
    requires ValidId(from) && ValidMessage(m)
    ensures var bs := EncodeMessage(from, m);
            && |bs| >= 24 && IdAt(bs, 4, from) && NumberAt(bs, 20, 4, 0)
            && match m
               case Start => NumberAt(bs, 0, 4, 0) && |bs| == 24
               case AcquireLock(t) => NumberAt(bs, 0, 4, 1) && |bs| == 28 && NumberAt(bs, 24, 4, t)
               case ReleaseLock(peer) => NumberAt(bs, 0, 4, 2) && |bs| == 40 && IdAt(bs, 24, peer)
               case ConfirmLock(peer, t) =>
                 NumberAt(bs, 0, 4, 3) && |bs| == 44 && IdAt(bs, 24, peer) && NumberAt(bs, 40, 4, t)
               case DeclineLock(peer, t) =>
                 NumberAt(bs, 0, 4, 4) && |bs| == 44 && IdAt(bs, 24, peer) && NumberAt(bs, 40, 4, t)
               case RequestReplayConfirm(lsn) => NumberAt(bs, 0, 4, 5) && |bs| == 32 && NumberAt(bs, 24, 8, lsn)
               case ReplayConfirm(lsn) => NumberAt(bs, 0, 4, 6) && |bs| == 32 && NumberAt(bs, 24, 8, lsn)
               case Unhandled(n) => NumberAt(bs, 0, 4, n) && |bs| == 24
  {
    hide NumberAt, IdAt, EncodeMessage, EncodeNodeId;
    Widths();
    MessageHeader(from, m);
    var bs, body := EncodeMessage(from, m), EncodeMessageBody(m);
    var pre := bs[..24];
    assert bs == pre + body && pre + body + [] == pre + body;
    match m
    case Start =>
    case AcquireLock(t) => NumberBehind(pre, t, 4, []);
    case ReleaseLock(peer) => IdBehind(pre, peer, false, []);
    case ConfirmLock(peer, t) => PeerAndTypeLayout(pre, peer, t);
    case DeclineLock(peer, t) => PeerAndTypeLayout(pre, peer, t);
    case RequestReplayConfirm(lsn) => NumberBehind(pre, lsn, 8, []);
    case ReplayConfirm(lsn) => NumberBehind(pre, lsn, 8, []);
    case Unhandled(_) =>
  }
}
