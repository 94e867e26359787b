/** Global sequence values: a millisecond timestamp, the sequence id of the node and the
    low part of a local sequence in one 64-bit number. */
module Snowflake {
  import opened Common

  const EPOCH_MS: int := 529111339634
  const MAX_TIMESTAMP: int := 0xFF_FFFF_FFFF // 40 bits
  const MAX_NODE_ID: int := 1023             // 10 bits
  const MAX_SEQ_ID: int := 16383             // 14 bits
  const TWO24: int := 0x100_0000
  const TWO14: int := 0x4000
  const TWO39: int := 0x80_0000_0000

  datatype Generated = Value(id: int) | Refused

  /** Division and remainder that truncate towards zero, as on the machine. */
  function TruncDiv(a: int, b: int): int
    requires b > 0
  {
    if a >= 0 then a / b else -(-a / b)
  }

  function TruncMod(a: int, b: int): int
    requires b > 0
  {
    a - b * TruncDiv(a, b)
  }

  function Milliseconds(micros: int): int { TruncDiv(micros, 1000) - EPOCH_MS }

  /** Bitwise or. */
  function Or(a: nat, b: nat): nat {
    if a == 0 then b
    else if b == 0 then a
    else 2 * Or(a / 2, b / 2) + (if a % 2 == 1 || b % 2 == 1 then 1 else 0)
  }

  function Shift(a: nat, bits: nat): (r: nat)
    ensures a > 0 <==> r > 0
  {
    if bits == 0 then a else 2 * Shift(a, bits - 1)
  }

  /** The machine puts the fields together with shifts and ors. */
  function PackBits(ts: nat, node: nat, seq_: nat): nat {
    Or(Or(Shift(ts, 24), Shift(node, 14)), seq_)
  }

  /** The three fields, if they do not overlap. */
  function Pack(ts: int, node: int, seq_: int): int { ts * TWO24 + node * TWO14 + seq_ }

  function AsSigned64(n: int): int { if n < TWO63 then n else n - TWO64 }

  /** A value for a clock reading, the node's sequence id and the next local value; refused
      outside the ranges of the fields. */
  function NextValue(micros: int, node: int, nextval: int): Generated {
    var ts, seq_ := Milliseconds(micros), TruncMod(nextval, MAX_SEQ_ID);
    if ts < 0 || ts > MAX_TIMESTAMP || node < 0 || node > MAX_NODE_ID || seq_ < 0 then Refused
    else Value(AsSigned64(PackBits(ts, node, seq_)))
  }

  // ---- the fields ---------------------------------------------------------------------

  /** A number below the lowest set bit of another is added by an or. */
  lemma {:induction false} OrShift(a: nat, b: nat, bits: nat)
    requires b < Shift(1, bits)
    ensures Or(Shift(a, bits), b) == Shift(a, bits) + b
  {
    if bits > 0 && a > 0 && b > 0 {
      OrShift(a, b / 2, bits - 1);
      assert Shift(a, bits) / 2 == Shift(a, bits - 1) && Shift(a, bits) % 2 == 0;
    }
  }

  lemma {:induction false} ShiftIsProduct(a: nat, bits: nat)
    ensures Shift(a, bits) == a * Shift(1, bits)
  {
    if bits > 0 { ShiftIsProduct(a, bits - 1); }
  }

  lemma Powers()
    ensures Shift(1, 10) == 1024 && Shift(1, 14) == TWO14 && Shift(1, 24) == TWO24
  {
    assert Shift(1, 4) == 16;
    assert Shift(1, 8) == 256;
    assert Shift(1, 12) == 4096;
    assert Shift(1, 16) == 65536;
    assert Shift(1, 20) == 0x10_0000;
  }

  /** With each field in its range no field disturbs another: the ors add up. */
  lemma OrIsSum(ts: nat, node: nat, seq_: nat)
    requires node <= MAX_NODE_ID && seq_ < TWO14
    ensures PackBits(ts, node, seq_) == Pack(ts, node, seq_)
  {
    Powers();
    ShiftIsProduct(node, 14);
    ShiftIsProduct(ts, 24);
    OrShift(ts, Shift(node, 14), 24);
    var high := Shift(ts, 24) + Shift(node, 14);
    var both := ts * 1024 + node;
    ShiftIsProduct(both, 14);
    assert high == Shift(both, 14);
    OrShift(both, seq_, 14);
  }

  lemma DivBy(q: int, m: int, r: int)
    requires 0 <= r < m
    ensures (q * m + r) / m == q && (q * m + r) % m == r
  {
    var n := q * m + r;
    var d := n / m - q;
    assert n == (n / m) * m + n % m;
    assert d * m == (n / m) * m - q * m;
    assert d >= 1 ==> d * m >= m;
    assert d <= -1 ==> d * m <= -m;
  }

  lemma Unpack(ts: int, node: int, seq_: int)
    requires 0 <= node <= MAX_NODE_ID && 0 <= seq_ < TWO14
    ensures Pack(ts, node, seq_) / TWO24 == ts
    ensures Pack(ts, node, seq_) % TWO24 / TWO14 == node
    ensures Pack(ts, node, seq_) % TWO14 == seq_
  {
    var low := node * TWO14 + seq_;
    DivBy(ts, TWO24, low);
    DivBy(node, TWO14, seq_);
    DivBy(ts * 1024 + node, TWO14, seq_);
    assert ts * TWO24 == ts * 1024 * TWO14;
  }

  lemma TruncModRange(a: int, b: int)
    requires b > 0
    ensures -b < TruncMod(a, b) < b
    ensures a >= 0 ==> TruncMod(a, b) == a % b
  {
    if a < 0 {
      var c := -a;
      assert c == (c / b) * b + c % b;
      assert b * -(c / b) == -((c / b) * b);
    }
  }

  lemma PackRange(ts: int, node: int, seq_: int)
    requires 0 <= ts <= MAX_TIMESTAMP && 0 <= node <= MAX_NODE_ID && 0 <= seq_ < TWO14
    ensures 0 <= Pack(ts, node, seq_) < TWO64
  {
  }

  /** When two calls yield the same value: same millisecond, same node and local values
      that leave the same remainder. */
  lemma SameValueExactly(micros: int, node: int, nextval: int, micros': int, node': int, nextval': int)
    requires NextValue(micros, node, nextval).Value? && NextValue(micros', node', nextval').Value?
    ensures NextValue(micros, node, nextval) == NextValue(micros', node', nextval') <==>
              Milliseconds(micros) == Milliseconds(micros') && node == node'
              && TruncMod(nextval, MAX_SEQ_ID) == TruncMod(nextval', MAX_SEQ_ID)
  {
    var ts, s := Milliseconds(micros), TruncMod(nextval, MAX_SEQ_ID);
    var ts', s' := Milliseconds(micros'), TruncMod(nextval', MAX_SEQ_ID);
    TruncModRange(nextval, MAX_SEQ_ID);
    TruncModRange(nextval', MAX_SEQ_ID);
    OrIsSum(ts, node, s);
    OrIsSum(ts', node', s');
    Unpack(ts, node, s);
    Unpack(ts', node', s');
    PackRange(ts, node, s);
    PackRange(ts', node', s');
  }

  lemma TruncModSign(a: int, b: int)
    requires b > 0
    ensures TruncMod(a, b) >= 0 <==> a >= 0 || a % b == 0
    ensures TruncMod(a, b) >= 0 ==> TruncMod(a, b) == a % b
  {
    TruncModRange(a, b);
    if a < 0 {
      var c := -a;
      assert c == (c / b) * b + c % b;
      assert b * -(c / b) == -((c / b) * b);
      if c % b == 0 {
        DivBy(-(c / b), b, 0);
      } else {
        assert -(c / b) * b - b == (-(c / b) - 1) * b;
        DivBy(-(c / b) - 1, b, b - c % b);
      }
    }
  }

  lemma MillisecondsRange(micros: int)
    ensures 0 <= Milliseconds(micros) <= MAX_TIMESTAMP <==>
              529_111_339_634_000 <= micros < (529_111_339_634 + 1_099_511_627_776) * 1000
    ensures 0 <= Milliseconds(micros) ==> Milliseconds(micros) == micros / 1000 - 529_111_339_634
  {
  }

  lemma DrawnExactly(micros: int, node: int, nextval: int)
    ensures NextValue(micros, node, nextval).Value? <==>
              && 529_111_339_634_000 <= micros < (529_111_339_634 + 1_099_511_627_776) * 1000
              && 0 <= node < 1024 && (nextval >= 0 || nextval % 16383 == 0)
  {
    hide Milliseconds, TruncMod, PackBits;
    MillisecondsRange(micros);
    TruncModSign(nextval, MAX_SEQ_ID);
  }

  lemma Unsigned(n: int)
    requires 0 <= n < TWO64
    ensures AsSigned64(n) % 18_446_744_073_709_551_616 == n
  {
    DivBy(if n < TWO63 then 0 else -1, TWO64, n);
  }

  lemma FieldsOf(micros: int, node: int, nextval: int)
    requires NextValue(micros, node, nextval).Value?
    ensures var u := NextValue(micros, node, nextval).id % 18_446_744_073_709_551_616;
            && u / 16_777_216 == micros / 1000 - 529_111_339_634
            && u % 16_777_216 / 16_384 == node && u % 16_384 == nextval % 16383
  {
    hide TruncMod, PackBits, Milliseconds, Pack, AsSigned64;
    var ts, seq_ := Milliseconds(micros), TruncMod(nextval, MAX_SEQ_ID);
    MillisecondsRange(micros);
    TruncModSign(nextval, MAX_SEQ_ID);
    TruncModRange(nextval, MAX_SEQ_ID);
    OrIsSum(ts, node, seq_);
    Unpack(ts, node, seq_);
    PackRange(ts, node, seq_);
    Unsigned(Pack(ts, node, seq_));
  }

  /** A value is drawn exactly from October 7, 2016, for 2^40 milliseconds, with a node id of
      ten bits and a local value that leaves no negative remainder; and taken as an unsigned
      number it is the milliseconds since then, the node id and the local value modulo 16383
      side by side. */
  lemma ValueHasFields(micros: int, node: int, nextval: int)
    ensures NextValue(micros, node, nextval).Value? <==>
              && 529_111_339_634_000 <= micros < (529_111_339_634 + 1_099_511_627_776) * 1000
              && 0 <= node < 1024 && (nextval >= 0 || nextval % 16383 == 0)
    ensures NextValue(micros, node, nextval).Value? ==>
              var u := NextValue(micros, node, nextval).id % 18_446_744_073_709_551_616;
              && u / 16_777_216 == micros / 1000 - 529_111_339_634
              && u % 16_777_216 / 16_384 == node && u % 16_384 == nextval % 16383
  {
    DrawnExactly(micros, node, nextval);
    if NextValue(micros, node, nextval).Value? { FieldsOf(micros, node, nextval); }
  }

  /** Two calls on one node differ while the local sequence has moved on by less than its
      period, however fast the calls come. */
  lemma DistinctWithinPeriod(micros: int, micros': int, node: int, n: nat, n': nat)
    requires NextValue(micros, node, n).Value? && NextValue(micros', node, n').Value?
    requires n < n' < n + MAX_SEQ_ID
    ensures NextValue(micros, node, n) != NextValue(micros', node, n')
  {
    SameValueExactly(micros, node, n, micros', node, n');
    TruncModRange(n, MAX_SEQ_ID);
    TruncModRange(n', MAX_SEQ_ID);
  }

  /** Nodes with different sequence ids never yield the same value. */
  lemma DistinctAcrossNodes(micros: int, node: int, nextval: int, micros': int, node': int, nextval': int)
    requires node != node'
    requires NextValue(micros, node, nextval).Value? && NextValue(micros', node', nextval').Value?
    ensures NextValue(micros, node, nextval) != NextValue(micros', node', nextval')
  {
    SameValueExactly(micros, node, nextval, micros', node', nextval');
  }

  /** A later millisecond gives a larger value unless the two lie on different sides of
      2^39 ms after the epoch, where the sign bit is set. */
  lemma LaterIsLargerExactly(micros: int, node: int, nextval: int, micros': int, node': int, nextval': int)
    requires NextValue(micros, node, nextval).Value? && NextValue(micros', node', nextval').Value?
    requires Milliseconds(micros) < Milliseconds(micros')
    ensures NextValue(micros, node, nextval).id < NextValue(micros', node', nextval').id <==>
              !(Milliseconds(micros) < TWO39 <= Milliseconds(micros'))
  {
    TruncModRange(nextval, MAX_SEQ_ID);
    TruncModRange(nextval', MAX_SEQ_ID);
    OrIsSum(Milliseconds(micros), node, TruncMod(nextval, MAX_SEQ_ID));
    OrIsSum(Milliseconds(micros'), node', TruncMod(nextval', MAX_SEQ_ID));
  }

  // ---- the session ------------------------------------------------------------------------

  /** A backend keeps the sequence id of its node once it has read it. */
  class Session {
    var node: int
    var database: Option<nat>

    constructor ()
      ensures database == None
    {
      node, database := -1, None;
    }

    /** The id in use: the kept one, or the one the table of nodes has now. */
    ghost function Used(db: nat, stored: Option<int>): Option<int>
      reads this
    {
      if database == Some(db) then Some(node)
      else if stored == None || stored.value < 0 || stored.value > MAX_NODE_ID then None
      else stored
    }

    method GetNodeId(db: nat, stored: Option<int>) returns (r: Option<int>)
      modifies this
      ensures r == old(Used(db, stored))
      ensures r.None? <==> old(database) != Some(db) && (stored == None || !(0 <= stored.value < 1024))
      ensures r.Some? ==> database == Some(db) && node == r.value
      ensures r.None? ==> database == old(database) && node == old(node)
    {
      if database != Some(db) {
        if stored == None || stored.value < 0 || stored.value > MAX_NODE_ID { return None; }
        node, database := stored.value, Some(db);
      }
      r := Some(node);
    }

    /** The next value for the kept id; nothing without an id. */
    method NextVal(db: nat, stored: Option<int>, micros: int, nextval: int) returns (g: Generated)
      modifies this
      ensures g == match old(Used(db, stored)) case None => Refused case Some(id) => NextValue(micros, id, nextval)
      ensures old(Used(db, stored)).Some? ==> database == Some(db) && Some(node) == old(Used(db, stored))
    {
      var id := GetNodeId(db, stored);
      if id == None { return Refused; }
      var ts := Milliseconds(micros);
      var seq_ := TruncMod(nextval, MAX_SEQ_ID);
      if ts < 0 || ts > MAX_TIMESTAMP || id.value < 0 || id.value > MAX_NODE_ID || seq_ < 0 { return Refused; }
      g := Value(AsSigned64(PackBits(ts, id.value, seq_)));
    }
  }
}
