/** The byte buffers that messages are built in and read from, and integers in network
    byte order. */
module Bytes {
  import opened Common

  newtype Byte = b: int | 0 <= b < 256

  datatype Error =
    | InsufficientData
    | ExpectedTuple
    | NegativeCount
    | UnknownColumnKind
    | DataForDroppedColumn
    | MismatchedColumns
    | UnexpectedByte
    | CommitFlagsSet
    | UnknownRelation
    | NodeNameNotEmpty

  /** What reading yields: a value and the bytes behind it. */
  datatype Parsed<+T> = Ok(value: T, rest: seq<Byte>) | Err(error: Error)

  // ---- integers ------------------------------------------------------------------------

  function Pow256(w: nat): (p: nat)
    ensures p > 0
  {
    if w == 0 then 1 else 256 * Pow256(w - 1)
  }

  /** The `w` low bytes of an integer, high byte first, a negative one in two's complement. */
  function BigEndian(n: int, w: nat): (bs: seq<Byte>)
    ensures |bs| == w
    decreases w, n
  {
    if w == 0 then [] else BigEndian(n / 256, w - 1) + [(n % 256) as Byte]
  }

  function Value(bs: seq<Byte>): nat {
    if bs == [] then 0 else Value(bs[..|bs| - 1]) * 256 + bs[|bs| - 1] as nat
  }

  lemma {:induction false} ValueBound(bs: seq<Byte>)
    ensures Value(bs) < Pow256(|bs|)
  {
    if bs != [] { ValueBound(bs[..|bs| - 1]); }
  }

  /** Euclidean division by 256 p, a digit at a time. */
  lemma SplitMod(n: int, p: nat)
    requires p > 0
    ensures n % (256 * p) == (n / 256 % p) * 256 + n % 256
  {
    var q, r := n / 256 / p, n / 256 % p;
    assert n / 256 == q * p + r;
    assert n == (q * p + r) * 256 + n % 256;
    assert n == q * (256 * p) + (r * 256 + n % 256) by {
      assert (q * p + r) * 256 == q * (256 * p) + r * 256;
    }
    assert 0 <= r * 256 + n % 256 < 256 * p;
    ModUnique(n, 256 * p, q, r * 256 + n % 256);
  }

  /** A multiple of `m` strictly between -m and m is zero. */
  lemma SmallMultiple(d: int, m: nat)
    requires -(m as int) < d * m < m
    ensures d == 0
  {
    assert d >= 1 ==> d * m >= m;
    assert d <= -1 ==> d * m <= -(m as int);
  }

  lemma ModUnique(n: int, m: nat, q: int, r: nat)
    requires m > 0 && r < m && n == q * m + r
    ensures n % m == r
  {
    var q', r' := n / m, n % m;
    assert q * m - q' * m == r' - r;
    assert (q - q') * m == q * m - q' * m;
    SmallMultiple(q - q', m);
  }

  /** What is read back is the integer modulo the width it was sent with. */
  lemma {:induction false} ValueOfBigEndian(n: int, w: nat)
    ensures Value(BigEndian(n, w)) == n % Pow256(w)
    decreases w
  {
    if w > 0 {
      var bs := BigEndian(n, w);
      assert bs[..w - 1] == BigEndian(n / 256, w - 1);
      ValueOfBigEndian(n / 256, w - 1);
      SplitMod(n, Pow256(w - 1));
    }
  }

  /** Every byte string is the encoding of its value. */
  lemma {:induction false} BigEndianOfValue(bs: seq<Byte>)
    ensures BigEndian(Value(bs), |bs|) == bs
  {
    if bs != [] {
      var n := Value(bs);
      assert n / 256 == Value(bs[..|bs| - 1]);
      BigEndianOfValue(bs[..|bs| - 1]);
    }
  }

  lemma Widths()
    ensures Pow256(2) == 65536 && Pow256(4) == TWO32 && Pow256(8) == TWO64
  {
    assert Pow256(1) == 256;
    assert Pow256(3) == 256 * Pow256(2);
    assert Pow256(5) == 256 * Pow256(4);
    assert Pow256(6) == 256 * Pow256(5);
    assert Pow256(7) == 256 * Pow256(6);
  }

  // ---- reading -------------------------------------------------------------------------

  function GetByte(bs: seq<Byte>): Parsed<Byte> {
    if bs == [] then Err(InsufficientData) else Ok(bs[0], bs[1..])
  }

  function GetBytes(bs: seq<Byte>, n: nat): Parsed<seq<Byte>> {
    if n >= TWO31 || n > |bs| then Err(InsufficientData) else Ok(bs[..n], bs[n..])
  }

  function GetInt(bs: seq<Byte>, w: nat): Parsed<nat> {
    if w > |bs| then Err(InsufficientData) else Ok(Value(bs[..w]), bs[w..])
  }

  /** A 64-bit field that the reader takes as signed. */
  function Signed64(n: nat): int {
    if n < TWO63 then n else n - TWO64
  }

  lemma GetSentInt(n: int, w: nat, rest: seq<Byte>)
    ensures GetInt(BigEndian(n, w) + rest, w) == Ok(n % Pow256(w), rest)
  {
    ValueOfBigEndian(n, w);
    assert (BigEndian(n, w) + rest)[..w] == BigEndian(n, w);
  }

  lemma GetSentSmall(n: nat, w: nat, rest: seq<Byte>)
    requires n < Pow256(w)
    ensures GetInt(BigEndian(n, w) + rest, w) == Ok(n, rest)
  {
    GetSentInt(n, w, rest);
    ModUnique(n, Pow256(w), 0, n);
  }

  lemma GetSent2(n: nat, rest: seq<Byte>)
    requires n < 65536
    ensures GetInt(BigEndian(n, 2) + rest, 2) == Ok(n, rest)
  {
    Widths();
    GetSentSmall(n, 2, rest);
  }

  lemma GetSent4(n: nat, rest: seq<Byte>)
    requires n < TWO32
    ensures GetInt(BigEndian(n, 4) + rest, 4) == Ok(n, rest)
  {
    Widths();
    GetSentSmall(n, 4, rest);
  }

  lemma GetSent8(n: nat, rest: seq<Byte>)
    requires n < TWO64
    ensures GetInt(BigEndian(n, 8) + rest, 8) == Ok(n, rest)
  {
    Widths();
    GetSentSmall(n, 8, rest);
  }

  lemma SignedRoundTrip(n: int)
    requires -(TWO63 as int) <= n < TWO63
    ensures Signed64(n % TWO64) == n
  {
    if n >= 0 { ModUnique(n, TWO64, 0, n); } else { ModUnique(n, TWO64, -1, n + TWO64); }
  }

  lemma GetSentBytes(data: seq<Byte>, rest: seq<Byte>)
    requires |data| < TWO31
    ensures GetBytes(data + rest, |data|) == Ok(data, rest)
  {
  }

  /** An integer that was read is what its bytes encode. */
  lemma GotIntIsSent(bs: seq<Byte>, w: nat)
    requires w <= |bs|
    ensures GetInt(bs, w).Ok? && GetInt(bs, w).value < Pow256(w)
    ensures bs == BigEndian(GetInt(bs, w).value, w) + GetInt(bs, w).rest
  {
    BigEndianOfValue(bs[..w]);
    ValueBound(bs[..w]);
  }

  // ---- the buffer ------------------------------------------------------------------------

  /** A buffer with a cursor: writers append, readers advance the cursor. */
  class StringInfo {
    var data: seq<Byte>
    var cursor: nat

    ghost predicate Valid()
      reads this
    {
      cursor <= |data|
    }

    ghost function Rest(): seq<Byte>
      reads this
      requires Valid()
    {
      data[cursor..]
    }

    constructor (bytes: seq<Byte>)
      ensures Valid() && Rest() == bytes && data == bytes
    {
      data := bytes;
      cursor := 0;
    }

    method AppendBinary(bytes: seq<Byte>)
      modifies this`data
      ensures data == old(data) + bytes
    {
      data := data + bytes;
    }

    method SendByte(b: Byte)
      modifies this`data
      ensures data == old(data) + [b]
    {
      data := data + [b];
    }

    /** The low byte goes last, so the bytes are laid down from the end. */
    method SendInt(n: int, w: nat)
      modifies this`data
      ensures data == old(data) + BigEndian(n, w)
    {
      var bytes: seq<Byte> := [];
      var left, m := w, n;
      while left > 0
        invariant 0 <= left <= w
        invariant BigEndian(n, w) == BigEndian(m, left) + bytes
      {
        bytes := [(m % 256) as Byte] + bytes;
        assert BigEndian(m, left) + bytes[1..] == BigEndian(m / 256, left - 1) + bytes;
        m := m / 256;
        left := left - 1;
      }
      data := data + bytes;
    }

    method GetMsgByte() returns (r: Parsed<Byte>)
      requires Valid()
      modifies this`cursor
      ensures Valid() && r == GetByte(old(Rest()))
      ensures r.Ok? ==> Rest() == r.rest
    {
      if cursor == |data| { return Err(InsufficientData); }
      cursor := cursor + 1;
      r := Ok(data[cursor - 1], data[cursor..]);
    }

    method GetMsgBytes(n: nat) returns (r: Parsed<seq<Byte>>)
      requires Valid()
      modifies this`cursor
      ensures Valid() && r == GetBytes(old(Rest()), n)
      ensures r.Ok? ==> Rest() == r.rest
    {
      if n >= TWO31 || n > |data| - cursor { return Err(InsufficientData); }
      cursor := cursor + n;
      assert old(Rest())[..n] == data[cursor - n..cursor];
      r := Ok(data[cursor - n..cursor], data[cursor..]);
    }

    /** High byte first: each byte shifts what came before. */
    method GetMsgInt(w: nat) returns (r: Parsed<nat>)
      requires Valid()
      modifies this`cursor
      ensures Valid() && r == GetInt(old(Rest()), w)
      ensures r.Ok? ==> Rest() == r.rest
    {
      if w > |data| - cursor { return Err(InsufficientData); }
      var n, k := 0, 0;
      while k < w
        invariant 0 <= k <= w && cursor == old(cursor) && n == Value(data[cursor..cursor + k])
      {
        assert data[cursor..cursor + k + 1][..k] == data[cursor..cursor + k];
        n := n * 256 + data[cursor + k] as nat;
        k := k + 1;
      }
      cursor := cursor + w;
      assert old(Rest())[..w] == data[old(cursor)..cursor];
      assert old(Rest())[w..] == data[cursor..];
      r := Ok(n, data[cursor..]);
    }
  }
}
