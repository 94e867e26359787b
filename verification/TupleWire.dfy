/** Rows on the wire: how a tuple is written column by column, and how a node reads it
    into a table that may have fewer or more columns. */
module TupleWire {
  import opened Common
  import opened Bytes

  const KIND_TUPLE: Byte := 84      // 'T'
  const KIND_NULL: Byte := 110      // 'n'
  const KIND_UNCHANGED: Byte := 117 // 'u'
  const KIND_BINARY: Byte := 98     // 'b'
  const KIND_SEND: Byte := 115      // 's'
  const KIND_TEXT: Byte := 116      // 't'

  predicate DataKind(k: Byte) {
    k == KIND_BINARY || k == KIND_SEND || k == KIND_TEXT
  }

  /** A column as sent: null, an out-of-line value that did not change, or data in one of
      the three formats. */
  datatype Column = Null | Unchanged | Data(kind: Byte, bytes: seq<Byte>)

  /** The column of the table that is being read into. */
  datatype Attribute = Attribute(dropped: bool, notNull: bool)

  /** What the reader keeps of a column; there is no value when it is null. */
  datatype Cell = Cell(isNull: bool, changed: bool, kind: Byte, bytes: seq<Byte>)

  function NoValue(changed: bool): Cell { Cell(true, changed, 0, []) }

  function CellOf(c: Column): Cell {
    match c
    case Null => NoValue(true)
    case Unchanged => NoValue(false)
    case Data(kind, bytes) => Cell(false, true, kind, bytes)
  }

  // ---- writing -------------------------------------------------------------------------

  /** A column of the row that is sent; `external` says that the value is stored out of
      line and was not touched. */
  datatype Source = Source(isNull: bool, dropped: bool, external: bool, kind: Byte, bytes: seq<Byte>)

  function ColumnOf(a: Source): Column {
    if a.isNull || a.dropped then Null
    else if a.external then Unchanged
    else Data(a.kind, a.bytes)
  }

  function Columns(row: seq<Source>): (cols: seq<Column>)
    ensures |cols| == |row| && forall i :: 0 <= i < |row| ==> cols[i] == ColumnOf(row[i])
  {
    seq(|row|, i requires 0 <= i < |row| => ColumnOf(row[i]))
  }

  function EncodeColumn(c: Column): seq<Byte> {
    match c
    case Null => [KIND_NULL]
    case Unchanged => [KIND_UNCHANGED]
    case Data(kind, bytes) => [kind] + BigEndian(|bytes|, 4) + bytes
  }

  /** The first `m` columns. */
  function EncodeFirst(cols: seq<Column>, m: nat): seq<Byte>
    requires m <= |cols|
  {
    if m == 0 then [] else EncodeFirst(cols, m - 1) + EncodeColumn(cols[m - 1])
  }

  function EncodeTuple(cols: seq<Column>): seq<Byte> {
    [KIND_TUPLE] + BigEndian(|cols|, 4) + EncodeFirst(cols, |cols|)
  }

  /** Lengths and counts are sent as 32-bit numbers and read as signed ones. */
  predicate Sendable(c: Column) {
    c.Data? ==> DataKind(c.kind) && |c.bytes| < TWO31
  }

  predicate AllSendable(cols: seq<Column>) {
    |cols| < TWO31 && forall i :: 0 <= i < |cols| ==> Sendable(cols[i])
  }

  // ---- reading -------------------------------------------------------------------------

  function ReadData(kind: Byte, bs: seq<Byte>): Parsed<Column> {
    match GetInt(bs, 4)
    case Err(e) => Err(e)
    case Ok(n, r) =>
      match GetBytes(r, n)
      case Err(e) => Err(e)
      case Ok(d, r') => Ok(Data(kind, d), r')
  }

  function ReadColumn(bs: seq<Byte>): Parsed<Column> {
    match GetByte(bs)
    case Err(e) => Err(e)
    case Ok(k, r) =>
      if k == KIND_NULL then Ok(Null, r)
      else if k == KIND_UNCHANGED then Ok(Unchanged, r)
      else if DataKind(k) then ReadData(k, r)
      else Err(UnknownColumnKind)
  }

  /** A column for a dropped attribute must not carry data. */
  function ReadCell(bs: seq<Byte>, att: Attribute): Parsed<Cell> {
    match ReadColumn(bs)
    case Err(e) => Err(e)
    case Ok(c, r) => if att.dropped && c.Data? then Err(DataForDroppedColumn) else Ok(CellOf(c), r)
  }

  /** The first `m` columns, all of which have a place in the table. */
  function ReadCells(bs: seq<Byte>, atts: seq<Attribute>, m: nat): Parsed<seq<Cell>>
    requires m <= |atts|
  {
    if m == 0 then Ok([], bs)
    else
      match ReadCells(bs, atts, m - 1)
      case Err(e) => Err(e)
      case Ok(cells, r) =>
        match ReadCell(r, atts[m - 1])
        case Err(e) => Err(e)
        case Ok(cell, r') => Ok(cells + [cell], r')
  }

  /** Columns that were not sent, from `m` on, may only be dropped or nullable ones. */
  predicate Paddable(atts: seq<Attribute>, m: nat) {
    forall i :: m <= i < |atts| ==> atts[i].dropped || !atts[i].notNull
  }

  function Padding(n: nat): (cells: seq<Cell>)
    ensures |cells| == n && forall i :: 0 <= i < n ==> cells[i] == NoValue(true)
  {
    seq(n, i => NoValue(true))
  }

  /** One byte is taken for each column that has no place, and it has to say null unless
      mismatched columns are to be discarded. */
  function SkipExtras(bs: seq<Byte>, n: nat, discard: bool): Parsed<()> {
    if n == 0 then Ok((), bs)
    else
      match GetByte(bs)
      case Err(e) => Err(e)
      case Ok(k, r) =>
        if k != KIND_NULL && !discard then Err(MismatchedColumns) else SkipExtras(r, n - 1, discard)
  }

  function Min(a: nat, b: nat): nat { if a < b then a else b }

  function ReadBody(bs: seq<Byte>, n: nat, atts: seq<Attribute>, discard: bool): Parsed<seq<Cell>> {
    var m := Min(n, |atts|);
    match ReadCells(bs, atts, m)
    case Err(e) => Err(e)
    case Ok(cells, r) =>
      if !Paddable(atts, m) then Err(MismatchedColumns)
      else
        match SkipExtras(r, n - m, discard)
        case Err(e) => Err(e)
        case Ok(_, r') => Ok(cells + Padding(|atts| - m), r')
  }

  function ReadTuple(bs: seq<Byte>, atts: seq<Attribute>, discard: bool): Parsed<seq<Cell>> {
    match GetByte(bs)
    case Err(e) => Err(e)
    case Ok(k, r) =>
      if k != KIND_TUPLE then Err(ExpectedTuple)
      else
        match GetInt(r, 4)
        case Err(e) => Err(e)
        case Ok(n, r') => if n >= TWO31 then Err(NegativeCount) else ReadBody(r', n, atts, discard)
  }

  // ---- one column --------------------------------------------------------------------------

  lemma Regroup(a: seq<Byte>, b: seq<Byte>, c: seq<Byte>, d: seq<Byte>)
    ensures a + b + c + d == a + (b + (c + d))
  {
  }

  lemma Regroup3(a: seq<Byte>, b: seq<Byte>, c: seq<Byte>)
    ensures a + b + c == a + (b + c)
  {
  }

  lemma DataRoundTrip(kind: Byte, bytes: seq<Byte>, rest: seq<Byte>)
    requires |bytes| < TWO31
    ensures ReadData(kind, BigEndian(|bytes|, 4) + (bytes + rest)) == Ok(Data(kind, bytes), rest)
  {
    GetSent4(|bytes|, bytes + rest);
    GetSentBytes(bytes, rest);
  }

  lemma ColumnRoundTrip(c: Column, rest: seq<Byte>)
    requires Sendable(c)
    ensures ReadColumn(EncodeColumn(c) + rest) == Ok(c, rest)
  {
    if c.Data? {
      Regroup([c.kind], BigEndian(|c.bytes|, 4), c.bytes, rest);
      DataRoundTrip(c.kind, c.bytes, rest);
    }
  }

  lemma DataIsEncoding(kind: Byte, bs: seq<Byte>)
    requires ReadData(kind, bs).Ok?
    ensures var c := ReadData(kind, bs).value;
            c.Data? && c.kind == kind && |c.bytes| < TWO31
            && bs == BigEndian(|c.bytes|, 4) + (c.bytes + ReadData(kind, bs).rest)
  {
    GotIntIsSent(bs, 4);
    var n, r := GetInt(bs, 4).value, GetInt(bs, 4).rest;
    assert r[..n] + r[n..] == r;
  }

  /** A column that was read is one that could have been sent in these bytes. */
  lemma ColumnIsEncoding(bs: seq<Byte>)
    requires ReadColumn(bs).Ok?
    ensures Sendable(ReadColumn(bs).value)
    ensures bs == EncodeColumn(ReadColumn(bs).value) + ReadColumn(bs).rest
  {
    var k, r := bs[0], bs[1..];
    assert bs == [k] + r;
    if k != KIND_NULL && k != KIND_UNCHANGED {
      DataIsEncoding(k, r);
      var c := ReadData(k, r).value;
      Regroup([k], BigEndian(|c.bytes|, 4), c.bytes, ReadData(k, r).rest);
    }
  }

  // ---- a row against a table ----------------------------------------------------------------

  /** No data is sent for a column that is dropped here. */
  predicate DropsRespected(cols: seq<Column>, atts: seq<Attribute>) {
    forall i :: 0 <= i < |cols| && i < |atts| ==> !(atts[i].dropped && cols[i].Data?)
  }

  /** Columns from `m` on are null. */
  predicate NullFrom(cols: seq<Column>, m: nat) {
    forall i :: m <= i < |cols| ==> cols[i] == Null
  }

  /** When a row can be taken into a table, whatever the two column counts are. */
  predicate Fits(cols: seq<Column>, atts: seq<Attribute>) {
    DropsRespected(cols, atts) && Paddable(atts, |cols|) && NullFrom(cols, |atts|)
  }

  function CellAt(cols: seq<Column>, i: nat): Cell {
    if i < |cols| then CellOf(cols[i]) else NoValue(true)
  }

  /** The row as it ends up in a table of `n` columns. */
  function Fitted(cols: seq<Column>, n: nat): (cells: seq<Cell>)
    ensures |cells| == n && forall i :: 0 <= i < n ==> cells[i] == CellAt(cols, i)
  {
    seq(n, i requires 0 <= i < n => CellAt(cols, i))
  }

  /** The check on dropped columns, as far as reading has come. */
  predicate DropsUpTo(cols: seq<Column>, atts: seq<Attribute>, m: nat)
    requires m <= |cols| && m <= |atts|
  {
    forall i :: 0 <= i < m ==> !(atts[i].dropped && cols[i].Data?)
  }

  lemma FittedNext(cols: seq<Column>, m: nat)
    requires m < |cols|
    ensures Fitted(cols, m + 1) == Fitted(cols, m) + [CellOf(cols[m])]
  {
  }

  lemma {:induction false} CellsRoundTrip(cols: seq<Column>, atts: seq<Attribute>, m: nat, rest: seq<Byte>)
    requires AllSendable(cols) && m <= |cols| && m <= |atts|
    ensures ReadCells(EncodeFirst(cols, m) + rest, atts, m) ==
              if DropsUpTo(cols, atts, m) then Ok(Fitted(cols, m), rest) else Err(DataForDroppedColumn)
  {
    hide EncodeColumn;
    if m == 0 {
      assert [] + rest == rest;
    } else {
      var c := EncodeColumn(cols[m - 1]);
      Regroup3(EncodeFirst(cols, m - 1), c, rest);
      CellsRoundTrip(cols, atts, m - 1, c + rest);
      ColumnRoundTrip(cols[m - 1], rest);
      FittedNext(cols, m - 1);
    }
  }

  /** The columns from `i` on, first one first. */
  function EncodeFrom(cols: seq<Column>, i: nat): seq<Byte>
    requires i <= |cols|
    decreases |cols| - i
  {
    if i == |cols| then [] else EncodeColumn(cols[i]) + EncodeFrom(cols, i + 1)
  }

  lemma {:induction false} SplitColumns(cols: seq<Column>, i: nat)
    requires i <= |cols|
    ensures EncodeFirst(cols, |cols|) == EncodeFirst(cols, i) + EncodeFrom(cols, i)
    decreases |cols| - i
  {
    hide EncodeColumn;
    if i < |cols| {
      SplitColumns(cols, i + 1);
      Regroup3(EncodeFirst(cols, i), EncodeColumn(cols[i]), EncodeFrom(cols, i + 1));
    }
  }

  /** The first byte of what is left says whether the column is null. */
  lemma FirstByte(cols: seq<Column>, i: nat, rest: seq<Byte>)
    requires i < |cols| && Sendable(cols[i])
    ensures var bs := EncodeFrom(cols, i) + rest;
            bs != [] && (bs[0] == KIND_NULL <==> cols[i] == Null)
            && (cols[i] == Null ==> bs[1..] == EncodeFrom(cols, i + 1) + rest)
  {
    Regroup3(EncodeColumn(cols[i]), EncodeFrom(cols, i + 1), rest);
  }

  lemma {:induction false} ExtrasRoundTrip(cols: seq<Column>, i: nat, rest: seq<Byte>)
    requires AllSendable(cols) && i <= |cols|
    ensures SkipExtras(EncodeFrom(cols, i) + rest, |cols| - i, false) ==
              if NullFrom(cols, i) then Ok((), rest) else Err(MismatchedColumns)
    decreases |cols| - i
  {
    hide EncodeColumn;
    if i == |cols| {
      assert [] + rest == rest;
    } else {
      FirstByte(cols, i, rest);
      if cols[i] == Null { ExtrasRoundTrip(cols, i + 1, rest); }
    }
  }

  lemma TupleHeader(cols: seq<Column>, rest: seq<Byte>, atts: seq<Attribute>, discard: bool)
    requires AllSendable(cols)
    ensures ReadTuple(EncodeTuple(cols) + rest, atts, discard) ==
              ReadBody(EncodeFirst(cols, |cols|) + rest, |cols|, atts, discard)
  {
    Regroup([KIND_TUPLE], BigEndian(|cols|, 4), EncodeFirst(cols, |cols|), rest);
    GetSent4(|cols|, EncodeFirst(cols, |cols|) + rest);
  }

  lemma PaddedFit(cols: seq<Column>, n: nat)
    ensures var m := Min(|cols|, n); Fitted(cols, m) + Padding(n - m) == Fitted(cols, n)
  {
  }

  lemma FitsInParts(cols: seq<Column>, atts: seq<Attribute>)
    ensures var m := Min(|cols|, |atts|);
            Fits(cols, atts) <==> DropsUpTo(cols, atts, m) && Paddable(atts, m) && NullFrom(cols, m)
  {
  }

  lemma BodyRoundTrip(cols: seq<Column>, atts: seq<Attribute>, rest: seq<Byte>)
    requires AllSendable(cols)
    ensures var r := ReadBody(EncodeFirst(cols, |cols|) + rest, |cols|, atts, false);
            if Fits(cols, atts) then r == Ok(Fitted(cols, |atts|), rest) else r.Err?
  {
    hide EncodeColumn, ReadCell, Fits, DropsUpTo, Paddable, NullFrom, SkipExtras, ReadCells;
    FitsInParts(cols, atts);
    var m := Min(|cols|, |atts|);
    var tail := EncodeFrom(cols, m) + rest;
    SplitColumns(cols, m);
    Regroup3(EncodeFirst(cols, m), EncodeFrom(cols, m), rest);
    CellsRoundTrip(cols, atts, m, tail);
    ExtrasRoundTrip(cols, m, rest);
    PaddedFit(cols, |atts|);
  }

  /** A row is taken exactly when it fits the table, every flag and byte of it arrives, and
      reading stops where writing stopped. */
  lemma TupleRoundTrip(cols: seq<Column>, atts: seq<Attribute>, rest: seq<Byte>)
    requires AllSendable(cols)
    ensures ReadTuple(EncodeTuple(cols) + rest, atts, false).Ok? <==> Fits(cols, atts)
    ensures Fits(cols, atts) ==> ReadTuple(EncodeTuple(cols) + rest, atts, false) == Ok(Fitted(cols, |atts|), rest)
  {
    TupleHeader(cols, rest, atts, false);
    BodyRoundTrip(cols, atts, rest);
  }

  // ---- discarding mismatched columns -----------------------------------------------------------

  /** With mismatched columns discarded, one byte is skipped for every column without a
      place, whatever was sent for it. */
  lemma {:induction false} SkipsOneByteEach(bs: seq<Byte>, n: nat)
    requires n <= |bs|
    ensures SkipExtras(bs, n, true) == Ok((), bs[n..])
    decreases n
  {
    if n > 0 {
      SkipsOneByteEach(bs[1..], n - 1);
      assert bs[1..][n - 1..] == bs[n..];
    }
  }

  predicate NoDataFrom(cols: seq<Column>, i: nat) {
    forall k :: i <= k < |cols| ==> !cols[k].Data?
  }

  lemma ColumnLength(c: Column)
    ensures |EncodeColumn(c)| >= 1 && (|EncodeColumn(c)| == 1 <==> !c.Data?)
  {
  }

  lemma {:induction false} EncodedLength(cols: seq<Column>, i: nat)
    requires i <= |cols|
    ensures |EncodeFrom(cols, i)| >= |cols| - i
    ensures |EncodeFrom(cols, i)| == |cols| - i <==> NoDataFrom(cols, i)
    decreases |cols| - i
  {
    hide EncodeColumn;
    if i < |cols| {
      ColumnLength(cols[i]);
      EncodedLength(cols, i + 1);
    }
  }

  lemma SkippedRest(code: seq<Byte>, rest: seq<Byte>, n: nat)
    requires n <= |code|
    ensures (code + rest)[n..] == rest <==> |code| == n
  {
    assert |(code + rest)[n..]| == |code| - n + |rest|;
  }

  lemma DiscardedBody(cols: seq<Column>, atts: seq<Attribute>, rest: seq<Byte>)
    requires AllSendable(cols) && |cols| >= |atts| && DropsRespected(cols, atts)
    ensures var m := |atts|;
            |cols| - m <= |EncodeFrom(cols, m) + rest|
            && ReadBody(EncodeFirst(cols, |cols|) + rest, |cols|, atts, true) ==
                 Ok(Fitted(cols, m), (EncodeFrom(cols, m) + rest)[|cols| - m..])
  {
    hide EncodeColumn;
    var m := |atts|;
    var tail := EncodeFrom(cols, m) + rest;
    SplitColumns(cols, m);
    Regroup3(EncodeFirst(cols, m), EncodeFrom(cols, m), rest);
    CellsRoundTrip(cols, atts, m, tail);
    EncodedLength(cols, m);
    SkipsOneByteEach(tail, |cols| - m);
    assert Fitted(cols, m) + Padding(0) == Fitted(cols, m);
  }

  /** A row wider than the table, with mismatched columns discarded, is always taken, but
      reading stops where writing stopped only if none of the extra columns carried data. */
  lemma DiscardIsExact(cols: seq<Column>, atts: seq<Attribute>, rest: seq<Byte>)
    requires AllSendable(cols) && |cols| >= |atts| && DropsRespected(cols, atts)
    ensures var r := ReadTuple(EncodeTuple(cols) + rest, atts, true);
            r.Ok? && r.value == Fitted(cols, |atts|) && (r.rest == rest <==> NoDataFrom(cols, |atts|))
  {
    TupleHeader(cols, rest, atts, true);
    DiscardedBody(cols, atts, rest);
    EncodedLength(cols, |atts|);
    SkippedRest(EncodeFrom(cols, |atts|), rest, |cols| - |atts|);
  }

  // ---- every row that is taken was sent -------------------------------------------------------

  lemma CellIsEncoding(bs: seq<Byte>, att: Attribute) returns (c: Column)
    requires ReadCell(bs, att).Ok?
    ensures Sendable(c) && !(att.dropped && c.Data?)
    ensures ReadCell(bs, att).value == CellOf(c) && bs == EncodeColumn(c) + ReadCell(bs, att).rest
  {
    ColumnIsEncoding(bs);
    c := ReadColumn(bs).value;
  }

  lemma {:induction false} EncodePrefix(cols: seq<Column>, more: seq<Column>, m: nat)
    requires m <= |cols|
    ensures EncodeFirst(cols + more, m) == EncodeFirst(cols, m)
  {
    hide EncodeColumn;
    if m > 0 { EncodePrefix(cols, more, m - 1); }
  }

  /** The columns read so far. */
  ghost predicate ReadSoFar(bs: seq<Byte>, atts: seq<Attribute>, m: nat, cols: seq<Column>, rest: seq<Byte>)
    requires m <= |atts|
  {
    && |cols| == m && (forall i :: 0 <= i < m ==> Sendable(cols[i])) && DropsUpTo(cols, atts, m)
    && bs == EncodeFirst(cols, m) + rest
  }

  lemma ReadOneMore(bs: seq<Byte>, atts: seq<Attribute>, m: nat, cols: seq<Column>, c: Column, rest: seq<Byte>)
    requires m < |atts| && ReadSoFar(bs, atts, m, cols, EncodeColumn(c) + rest)
    requires Sendable(c) && !(atts[m].dropped && c.Data?)
    ensures ReadSoFar(bs, atts, m + 1, cols + [c], rest)
    ensures Fitted(cols + [c], m + 1) == Fitted(cols, m) + [CellOf(c)]
  {
    hide EncodeColumn;
    EncodePrefix(cols, [c], m);
    Regroup3(EncodeFirst(cols, m), EncodeColumn(c), rest);
  }

  lemma {:induction false} CellsAreEncoding(bs: seq<Byte>, atts: seq<Attribute>, m: nat) returns (cols: seq<Column>)
    requires m <= |atts| && ReadCells(bs, atts, m).Ok?
    ensures ReadSoFar(bs, atts, m, cols, ReadCells(bs, atts, m).rest)
    ensures ReadCells(bs, atts, m).value == Fitted(cols, m)
  {
    hide EncodeColumn;
    if m == 0 {
      cols := [];
      assert [] + bs == bs;
    } else {
      var head := CellsAreEncoding(bs, atts, m - 1);
      var r := ReadCells(bs, atts, m - 1).rest;
      var c := CellIsEncoding(r, atts[m - 1]);
      ReadOneMore(bs, atts, m - 1, head, c, ReadCell(r, atts[m - 1]).rest);
      cols := head + [c];
    }
  }

  lemma {:induction false} ExtrasAreNull(bs: seq<Byte>, cols: seq<Column>, i: nat)
    requires i <= |cols| && NullFrom(cols, i) && SkipExtras(bs, |cols| - i, false).Ok?
    ensures bs == EncodeFrom(cols, i) + SkipExtras(bs, |cols| - i, false).rest
    decreases |cols| - i
  {
    if i == |cols| {
      assert [] + bs == bs;
    } else {
      ExtrasAreNull(bs[1..], cols, i + 1);
      assert bs == [bs[0]] + bs[1..];
      Regroup3(EncodeColumn(cols[i]), EncodeFrom(cols, i + 1), SkipExtras(bs, |cols| - i, false).rest);
    }
  }

  function Nulls(n: nat): (cols: seq<Column>)
    ensures |cols| == n && forall i :: 0 <= i < n ==> cols[i] == Null
  {
    seq(n, i => Null)
  }

  /** Columns that were read, padded with nulls to the number of columns sent. */
  lemma WidenColumns(here: seq<Column>, atts: seq<Attribute>, n: nat) returns (cols: seq<Column>)
    requires |here| == Min(n, |atts|) && n < TWO31 && Paddable(atts, |here|)
    requires (forall i :: 0 <= i < |here| ==> Sendable(here[i])) && DropsUpTo(here, atts, |here|)
    ensures |cols| == n && AllSendable(cols) && Fits(cols, atts) && NullFrom(cols, |here|)
    ensures EncodeFirst(cols, |here|) == EncodeFirst(here, |here|)
    ensures Fitted(here, |here|) + Padding(|atts| - |here|) == Fitted(cols, |atts|)
  {
    var more := Nulls(n - |here|);
    cols := here + more;
    EncodePrefix(here, more, |here|);
  }

  lemma BodyIsEncoding(bs: seq<Byte>, n: nat, atts: seq<Attribute>) returns (cols: seq<Column>)
    requires n < TWO31 && ReadBody(bs, n, atts, false).Ok?
    ensures |cols| == n && AllSendable(cols) && Fits(cols, atts)
    ensures bs == EncodeFirst(cols, n) + ReadBody(bs, n, atts, false).rest
    ensures ReadBody(bs, n, atts, false).value == Fitted(cols, |atts|)
  {
    hide EncodeColumn;
    var m := Min(n, |atts|);
    var here := CellsAreEncoding(bs, atts, m);
    var r := ReadCells(bs, atts, m).rest;
    cols := WidenColumns(here, atts, n);
    ExtrasAreNull(r, cols, m);
    SplitColumns(cols, m);
    Regroup3(EncodeFirst(cols, m), EncodeFrom(cols, m), SkipExtras(r, n - m, false).rest);
  }

  lemma HeaderIsEncoding(bs: seq<Byte>, atts: seq<Attribute>) returns (n: nat, body: seq<Byte>)
    requires ReadTuple(bs, atts, false).Ok?
    ensures n < TWO31 && bs == [KIND_TUPLE] + (BigEndian(n, 4) + body)
    ensures ReadTuple(bs, atts, false) == ReadBody(body, n, atts, false)
  {
    GotIntIsSent(bs[1..], 4);
    n, body := GetInt(bs[1..], 4).value, GetInt(bs[1..], 4).rest;
    assert bs == [bs[0]] + bs[1..];
  }

  /** Bytes that a node takes as a row are the encoding of a row that fits, so that no two
      rows are mistaken for each other. */
  lemma TupleIsEncoding(bs: seq<Byte>, atts: seq<Attribute>) returns (cols: seq<Column>)
    requires ReadTuple(bs, atts, false).Ok?
    ensures AllSendable(cols) && Fits(cols, atts)
    ensures bs == EncodeTuple(cols) + ReadTuple(bs, atts, false).rest
    ensures ReadTuple(bs, atts, false).value == Fitted(cols, |atts|)
  {
    hide EncodeColumn;
    var n, body := HeaderIsEncoding(bs, atts);
    cols := BodyIsEncoding(body, n, atts);
    Regroup([KIND_TUPLE], BigEndian(n, 4), EncodeFirst(cols, n), ReadTuple(bs, atts, false).rest);
  }

  // ---- from the sender's row to the receiver's ------------------------------------------------

  /** A column that carries a value can be sent if the value has a format, b, s or t, and a
      length. */
  predicate SendableRow(row: seq<Source>) {
    |row| < TWO31 && forall i :: 0 <= i < |row| && !row[i].isNull && !row[i].dropped && !row[i].external ==>
      (row[i].kind == 98 || row[i].kind == 115 || row[i].kind == 116) && |row[i].bytes| < TWO31
  }

  /** When the row of the sender's table can be taken into a table here. */
  predicate RowFits(row: seq<Source>, atts: seq<Attribute>) {
    && (forall i :: 0 <= i < |row| && i < |atts| && atts[i].dropped ==>
          row[i].isNull || row[i].dropped || row[i].external)
    && (forall i :: |row| <= i < |atts| ==> atts[i].dropped || !atts[i].notNull)
    && forall i :: |atts| <= i < |row| ==> row[i].isNull || row[i].dropped
  }

  /** What the receiver keeps of a column of the sender's row: an out-of-line value that was
      not touched is neither a value nor a change, everything else is a change. */
  predicate CellFrom(a: Source, c: Cell) {
    && (c.isNull <==> a.isNull || a.dropped || a.external)
    && (c.changed <==> a.isNull || a.dropped || !a.external)
    && (!c.isNull ==> c.kind == a.kind && c.bytes == a.bytes)
  }

  /** The row in a table of `n` columns; those that were not sent are null. */
  predicate RowArrived(row: seq<Source>, cells: seq<Cell>, n: nat) {
    && |cells| == n
    && forall i :: 0 <= i < n ==> if i < |row| then CellFrom(row[i], cells[i]) else cells[i].isNull && cells[i].changed
  }

  /** Read into this table and with these bytes behind it, `bs` is taken exactly when the row
      fits, as that row, and nothing behind it is touched. */
  predicate TakenAsRow(bs: seq<Byte>, row: seq<Source>, atts: seq<Attribute>, rest: seq<Byte>) {
    var p := ReadTuple(bs + rest, atts, false);
    (p.Ok? <==> RowFits(row, atts)) && (p.Ok? ==> p.rest == rest && RowArrived(row, p.value, |atts|))
  }

  ghost predicate CarriesRow(bs: seq<Byte>, row: seq<Source>) {
    forall atts: seq<Attribute>, rest: seq<Byte> :: TakenAsRow(bs, row, atts, rest)
  }

  lemma RowAsColumns(row: seq<Source>, atts: seq<Attribute>)
    ensures SendableRow(row) ==> AllSendable(Columns(row))
    ensures Fits(Columns(row), atts) <==> RowFits(row, atts)
    ensures RowArrived(row, Fitted(Columns(row), |atts|), |atts|)
  {
    var cols := Columns(row);
    assert NullFrom(cols, |atts|) <==> (forall i :: |atts| <= i < |row| ==> row[i].isNull || row[i].dropped) by {
      forall i | |atts| <= i < |row| ensures cols[i] == Null <==> row[i].isNull || row[i].dropped {}
    }
    assert DropsRespected(cols, atts) <==> (forall i :: 0 <= i < |row| && i < |atts| && atts[i].dropped ==>
                                              row[i].isNull || row[i].dropped || row[i].external) by {
      forall i | 0 <= i < |row| ensures cols[i].Data? <==> !(row[i].isNull || row[i].dropped || row[i].external) {}
    }
  }

  /** A row of the sender's table is taken exactly when it fits the receiver's, and arrives
      column by column. */
  lemma RowRoundTrip(row: seq<Source>, atts: seq<Attribute>, rest: seq<Byte>)
    requires SendableRow(row)
    ensures TakenAsRow(EncodeTuple(Columns(row)), row, atts, rest)
  {
    RowAsColumns(row, atts);
    TupleRoundTrip(Columns(row), atts, rest);
  }

  lemma RowIsCarried(row: seq<Source>)
    ensures SendableRow(row) ==> CarriesRow(EncodeTuple(Columns(row)), row)
  {
    if SendableRow(row) {
      forall atts: seq<Attribute>, rest: seq<Byte> ensures TakenAsRow(EncodeTuple(Columns(row)), row, atts, rest) {
        RowRoundTrip(row, atts, rest);
      }
    }
  }

  // ---- the loops ------------------------------------------------------------------------------

  method WriteColumn(out: StringInfo, a: Source)
    modifies out`data
    ensures out.data == old(out.data) + EncodeColumn(ColumnOf(a))
  {
    if a.isNull || a.dropped {
      out.SendByte(KIND_NULL);
    } else if a.external {
      out.SendByte(KIND_UNCHANGED);
    } else {
      out.SendByte(a.kind);
      out.SendInt(|a.bytes|, 4);
      out.AppendBinary(a.bytes);
      Regroup(old(out.data), [a.kind], BigEndian(|a.bytes|, 4), a.bytes);
      Regroup3([a.kind], BigEndian(|a.bytes|, 4), a.bytes);
    }
  }

  method WriteColumns(out: StringInfo, row: seq<Source>)
    modifies out`data
    ensures out.data == old(out.data) + EncodeFirst(Columns(row), |row|)
  {
    hide EncodeColumn;
    ghost var cols := Columns(row);
    for i := 0 to |row|
      invariant out.data == old(out.data) + EncodeFirst(cols, i)
    {
      WriteColumn(out, row[i]);
      Regroup3(old(out.data), EncodeFirst(cols, i), EncodeColumn(cols[i]));
    }
  }

  method WriteTuple(out: StringInfo, row: seq<Source>)
    modifies out`data
    ensures out.data == old(out.data) + EncodeTuple(Columns(row))
    ensures SendableRow(row) ==> CarriesRow(out.data[|old(out.data)|..], row)
  {
    hide EncodeColumn, CarriesRow, SendableRow;
    out.SendByte(KIND_TUPLE);
    out.SendInt(|row|, 4);
    WriteColumns(out, row);
    Regroup(old(out.data), [KIND_TUPLE], BigEndian(|row|, 4), EncodeFirst(Columns(row), |row|));
    Regroup3([KIND_TUPLE], BigEndian(|row|, 4), EncodeFirst(Columns(row), |row|));
    assert out.data[|old(out.data)|..] == EncodeTuple(Columns(row));
    RowIsCarried(row);
  }

  datatype Outcome = Done | Failed(error: Error)

  /** An error in one column is the error of the row. */
  lemma {:induction false} ErrorStays(bs: seq<Byte>, atts: seq<Attribute>, i: nat, m: nat)
    requires i <= m <= |atts| && ReadCells(bs, atts, i).Err?
    ensures ReadCells(bs, atts, m) == ReadCells(bs, atts, i)
  {
    if i < m { ErrorStays(bs, atts, i, m - 1); }
  }

  method ReadColumnInto(s: StringInfo, att: Attribute, tup: array<Cell>, i: nat) returns (out: Outcome)
    requires s.Valid() && i < tup.Length
    requires tup[i] == NoValue(true)
    modifies s`cursor, tup
    ensures s.Valid() && forall k :: 0 <= k < tup.Length && k != i ==> tup[k] == old(tup[k])
    ensures match ReadCell(old(s.Rest()), att)
            case Err(e) => out == Failed(e)
            case Ok(cell, r) => out == Done && tup[i] == cell && s.Rest() == r
  {
    var kind := s.GetMsgByte();
    if kind.Err? { return Failed(kind.error); }
    if kind.value == KIND_NULL {
      // already marked as null
    } else if kind.value == KIND_UNCHANGED {
      tup[i] := NoValue(false);
    } else if DataKind(kind.value) {
      var len := s.GetMsgInt(4);
      if len.Err? { return Failed(len.error); }
      var data := s.GetMsgBytes(len.value);
      if data.Err? { return Failed(data.error); }
      tup[i] := Cell(false, true, kind.value, data.value);
    } else {
      return Failed(UnknownColumnKind);
    }
    if att.dropped && !tup[i].isNull { return Failed(DataForDroppedColumn); }
    out := Done;
  }

  /** The columns with a place. */
  method ReadCellsInto(s: StringInfo, atts: seq<Attribute>, m: nat, tup: array<Cell>) returns (out: Outcome)
    requires s.Valid() && m <= |atts| <= tup.Length
    requires forall k :: 0 <= k < tup.Length ==> tup[k] == NoValue(true)
    modifies s`cursor, tup
    ensures s.Valid() && forall k :: m <= k < tup.Length ==> tup[k] == NoValue(true)
    ensures match ReadCells(old(s.Rest()), atts, m)
            case Err(e) => out == Failed(e)
            case Ok(cells, r) => out == Done && tup[..m] == cells && s.Rest() == r
  {
    hide ReadCell;
    ghost var start := s.Rest();
    for i := 0 to m
      invariant s.Valid() && ReadCells(start, atts, i) == Ok(tup[..i], s.Rest())
      invariant forall k :: i <= k < tup.Length ==> tup[k] == NoValue(true)
    {
      ghost var cells := tup[..i];
      out := ReadColumnInto(s, atts[i], tup, i);
      assert tup[..i] == cells;
      if out.Failed? {
        ErrorStays(start, atts, i + 1, m);
        return;
      }
      assert tup[..i + 1] == cells + [tup[i]];
    }
    out := Done;
  }

  /** Columns that were not sent. */
  method PadMissing(atts: seq<Attribute>, n: nat, tup: array<Cell>) returns (out: Outcome)
    requires n <= |atts| <= tup.Length
    modifies tup
    ensures out == if Paddable(atts, n) then Done else Failed(MismatchedColumns)
    ensures out == Done ==> tup[..|atts|] == old(tup[..n]) + Padding(|atts| - n)
  {
    for i := n to |atts|
      invariant forall k :: 0 <= k < n ==> tup[k] == old(tup[k])
      invariant forall k :: n <= k < i ==> (atts[k].dropped || !atts[k].notNull) && tup[k] == NoValue(true)
    {
      if !atts[i].dropped && atts[i].notNull { return Failed(MismatchedColumns); }
      tup[i] := NoValue(true);
    }
    out := Done;
  }

  /** Columns without a place. */
  method DiscardExtras(s: StringInfo, n: nat, discard: bool) returns (out: Outcome)
    requires s.Valid()
    modifies s`cursor
    ensures s.Valid()
    ensures match SkipExtras(old(s.Rest()), n, discard)
            case Err(e) => out == Failed(e)
            case Ok(_, r) => out == Done && s.Rest() == r
  {
    for i := 0 to n
      invariant s.Valid() && SkipExtras(old(s.Rest()), n, discard) == SkipExtras(s.Rest(), n - i, discard)
    {
      var kind := s.GetMsgByte();
      if kind.Err? { return Failed(kind.error); }
      if kind.value != KIND_NULL && !discard { return Failed(MismatchedColumns); }
    }
    out := Done;
  }

  method ReadBodyInto(s: StringInfo, n: nat, atts: seq<Attribute>, discard: bool, tup: array<Cell>) returns (out: Outcome)
    requires s.Valid() && |atts| <= tup.Length
    requires forall k :: 0 <= k < tup.Length ==> tup[k] == NoValue(true)
    modifies s`cursor, tup
    ensures s.Valid()
    ensures match ReadBody(old(s.Rest()), n, atts, discard)
            case Err(e) => out == Failed(e)
            case Ok(cells, r) => out == Done && tup[..|atts|] == cells && s.Rest() == r
  {
    hide ReadCell;
    var m := Min(n, |atts|);
    out := ReadCellsInto(s, atts, m, tup);
    if out.Failed? { return; }
    out := PadMissing(atts, m, tup);
    if out.Failed? { return; }
    out := DiscardExtras(s, n - m, discard);
  }

  /** Reading a row into the arrays of the tuple, which start out all null and changed. */
  method ReadTupleParts(s: StringInfo, atts: seq<Attribute>, discard: bool, tup: array<Cell>) returns (out: Outcome)
    requires s.Valid() && |atts| <= tup.Length
    modifies s`cursor, tup
    ensures s.Valid()
    ensures match ReadTuple(old(s.Rest()), atts, discard)
            case Err(e) => out == Failed(e)
            case Ok(cells, r) => out == Done && tup[..|atts|] == cells && s.Rest() == r
  {
    hide ReadCell;
    var action := s.GetMsgByte();
    if action.Err? { return Failed(action.error); }
    if action.value != KIND_TUPLE { return Failed(ExpectedTuple); }
    forall k | 0 <= k < tup.Length { tup[k] := NoValue(true); }
    var count := s.GetMsgInt(4);
    if count.Err? { return Failed(count.error); }
    if count.value >= TWO31 { return Failed(NegativeCount); }
    out := ReadBodyInto(s, count.value, atts, discard, tup);
  }
}
