/** What the readers refuse: bytes that are taken as a change, a node identifier or a control
    record are what a sender can have written. */
module WireRefusals {
  import opened Common
  import opened Bytes
  import opened TupleWire
  import opened ActionWire

  lemma TaggedIsEncoding(bs: seq<Byte>, tag: Byte, atts: seq<Attribute>) returns (cols: seq<Column>)
    requires ReadTagged(bs, tag, atts, false).Ok?
    ensures AllSendable(cols) && Fits(cols, atts)
    ensures bs == [tag] + EncodeTuple(cols) + ReadTagged(bs, tag, atts, false).rest
    ensures ReadTagged(bs, tag, atts, false).value == Fitted(cols, |atts|)
  {
    cols := TupleIsEncoding(bs[1..], atts);
    Regroup3([tag], EncodeTuple(cols), ReadTagged(bs, tag, atts, false).rest);
    assert bs == [bs[0]] + bs[1..];
  }

  function ReadRows(kind: Byte, bs: seq<Byte>, rel: Rel, atts: seq<Attribute>): Parsed<Received> {
    if kind == ACTION_INSERT then ReadInsert(bs, rel, atts, false)
    else if kind == ACTION_UPDATE then ReadUpdate(bs, rel, atts, false)
    else ReadDelete(bs, rel, atts, false)
  }

  /** The rows that were read are rows that were sent, in these bytes. */
  ghost predicate RowsSent(kind: Byte, bs: seq<Byte>, a: Sent, p: Parsed<Received>, rel: Rel, catalog: Catalog) {
    && p.Ok? && IsChange(a) && a.rel == rel && rel in catalog
    && kind == (if a.Insert? then 73 else if a.Update? then 85 else 68)
    && (NewRow(a).Some? ==> AllSendable(NewRow(a).value)) && (OldRow(a).Some? ==> AllSendable(OldRow(a).value))
    && Acceptable(a, catalog) && p.value == View(a, catalog) && bs == EncodeRows(a) + p.rest
  }

  lemma UpdateIsEncoding(bs: seq<Byte>, rel: Rel, catalog: Catalog) returns (a: Sent)
    requires rel in catalog && ReadUpdate(bs, rel, catalog[rel], false).Ok?
    ensures RowsSent(ACTION_UPDATE, bs, a, ReadUpdate(bs, rel, catalog[rel], false), rel, catalog)
  {
    hide EncodeTuple, Fits, AllSendable, ReadTagged, Fitted;
    var atts := catalog[rel];
    if bs != [] && bs[0] == OLD_KEY {
      var o := TaggedIsEncoding(bs, OLD_KEY, atts);
      var r := ReadTagged(bs, OLD_KEY, atts, false).rest;
      var n := TaggedIsEncoding(r, NEW_TUPLE, atts);
      a := Update(rel, Some(o), n);
      Regroup3([OLD_KEY] + EncodeTuple(o), [NEW_TUPLE] + EncodeTuple(n), ReadTagged(r, NEW_TUPLE, atts, false).rest);
    } else {
      var n := TaggedIsEncoding(bs, NEW_TUPLE, atts);
      a := Update(rel, None, n);
    }
  }

  lemma RowsAreEncoding(kind: Byte, bs: seq<Byte>, rel: Rel, catalog: Catalog) returns (a: Sent)
    requires kind == ACTION_INSERT || kind == ACTION_UPDATE || kind == ACTION_DELETE
    requires rel in catalog && ReadRows(kind, bs, rel, catalog[rel]).Ok?
    ensures RowsSent(kind, bs, a, ReadRows(kind, bs, rel, catalog[rel]), rel, catalog)
  {
    hide EncodeTuple, Fits, AllSendable, ReadTagged, Fitted;
    if kind == ACTION_INSERT {
      var n := TaggedIsEncoding(bs, NEW_TUPLE, catalog[rel]);
      a := Insert(rel, n);
    } else if kind == ACTION_UPDATE {
      a := UpdateIsEncoding(bs, rel, catalog);
    } else if bs != [] && bs[0] == NO_KEY {
      a := Delete(rel, None);
      assert bs == [bs[0]] + bs[1..];
    } else {
      var o := TaggedIsEncoding(bs, OLD_KEY, catalog[rel]);
      a := Delete(rel, Some(o));
    }
  }

  lemma NameIsPrefix(bs: seq<Byte>)
    requires ReadName(bs).Ok?
    ensures |ReadName(bs).rest| <= |bs| && bs == bs[..|bs| - |ReadName(bs).rest|] + ReadName(bs).rest
  {
  }

  /** Names lie in front of what is read behind them. */
  lemma RelIsPrefix(bs: seq<Byte>)
    requires ReadRel(bs).Ok?
    ensures |ReadRel(bs).rest| <= |bs| && bs == bs[..|bs| - |ReadRel(bs).rest|] + ReadRel(bs).rest
  {
    NameIsPrefix(bs);
    NameIsPrefix(ReadName(bs).rest);
  }

  ghost predicate ChangeSent(bs: seq<Byte>, names: seq<Byte>, a: Sent, p: Parsed<Received>, catalog: Catalog) {
    && bs != [] && p.Ok? && IsChange(a)
    && var rows := EncodeRows(a) + p.rest;
       bs == [bs[0]] + names + rows && ReadRel(names + rows) == Ok(a.rel, rows) && RowsSent(bs[0], rows, a, p, a.rel, catalog)
  }

  /** Bytes that are taken as a change are its letter, the names of a table that is here, and
      the encoding of rows that fit it. */
  lemma ChangeIsEncoding(bs: seq<Byte>, catalog: Catalog) returns (names: seq<Byte>, a: Sent)
    requires ReadAction(bs, catalog, false).Ok? && IsChange(ReadAction(bs, catalog, false).value)
    ensures ChangeSent(bs, names, a, ReadAction(bs, catalog, false), catalog)
  {
    hide RowsSent, ReadRel, ReadRows, ReadBegin, ReadCommit, ReadEnvelope;
    ChangeByRows(bs, catalog);
    var r := ReadRel(bs[1..]);
    RelIsPrefix(bs[1..]);
    names := bs[1..][..|bs[1..]| - |r.rest|];
    a := RowsAreEncoding(bs[0], r.rest, r.value, catalog);
    SentParts(bs[0], r.rest, a, ReadRows(bs[0], r.rest, r.value, catalog[r.value]), r.value, catalog);
    assert bs[1..] == names + r.rest && bs == [bs[0]] + bs[1..];
    Regroup3([bs[0]], names, r.rest);
  }

  lemma SentParts(kind: Byte, bs: seq<Byte>, a: Sent, p: Parsed<Received>, rel: Rel, catalog: Catalog)
    requires RowsSent(kind, bs, a, p, rel, catalog)
    ensures IsChange(a) && a.rel == rel && bs == EncodeRows(a) + p.rest
  {
  }

  lemma ChangeByRows(bs: seq<Byte>, catalog: Catalog)
    requires ReadAction(bs, catalog, false).Ok? && IsChange(ReadAction(bs, catalog, false).value)
    ensures bs != [] && (bs[0] == ACTION_INSERT || bs[0] == ACTION_UPDATE || bs[0] == ACTION_DELETE)
    ensures ReadRel(bs[1..]).Ok? && ReadRel(bs[1..]).value in catalog
    ensures var r := ReadRel(bs[1..]); ReadAction(bs, catalog, false) == ReadRows(bs[0], r.rest, r.value, catalog[r.value])
  {
    hide ReadRel, ReadInsert, ReadUpdate, ReadDelete;
    LetterDecides(bs, catalog, false);
  }

  /** The first letter says what a record is, and there are six letters. */
  lemma LetterDecides(bs: seq<Byte>, catalog: Catalog, discard: bool)
    requires ReadAction(bs, catalog, discard).Ok?
    ensures var a := ReadAction(bs, catalog, discard).value;
            bs != [] && bs[0] as int == (match a
                                         case Begin(_, _, _, _) => 'B'
                                         case Commit(_, _, _) => 'C'
                                         case Insert(_, _) => 'I'
                                         case Update(_, _, _) => 'U'
                                         case Delete(_, _) => 'D'
                                         case Message(_, _, _) => 'M') as int
  {
    hide ReadRel, ReadTagged, ReadInts;
  }

  /** COMMIT has no flags; in BEGIN the lowest one announces an origin and others are ignored. */
  lemma FlagsDecide(flags: nat, rest: seq<Byte>, catalog: Catalog)
    requires flags < TWO32
    ensures flags != 0 ==> ReadAction([67] + (BigEndian(flags, 4) + rest), catalog, false).Err?
    ensures var p := ReadAction([66] + (BigEndian(flags, 4) + rest), catalog, false);
            p.Ok? ==> p.value.Begin? && (p.value.origin.Some? <==> flags % 2 == 1)
  {
    var body := BigEndian(flags, 4) + rest;
    GetSent4(flags, rest);
    assert ([67] + body)[1..] == body && ([66] + body)[1..] == body;
    assert BEGIN_WIDTHS == [4] + [8, 8, 4];
    ReadOneInt(body, 4, [8, 8, 4]);
  }

  /** The name behind an identifier has to be empty. */
  lemma NameMustBeEmpty(id: NodeId, n: nat, rest: seq<Byte>)
    requires ValidId(id) && n < TWO32
    ensures var p := ReadNodeId(EncodeNodeId(id, false) + (BigEndian(n, 4) + rest), true);
            if n == 0 then p == Ok(id, rest) else p.Err?
  {
    NodeIdRoundTrip(id, false, BigEndian(n, 4) + rest);
    GetSent4(n, rest);
  }
}
