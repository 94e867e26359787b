/** Names of replication slots and replication origins: node identifiers printed into a
    name and scanned back out of it. */
module Names {
  import opened Common

  /** The longest name that fits a name field of 64 bytes with its terminator. */
  const NAME_CHARS: nat := 63

  /** The node at the other end and the database at this end. */
  datatype Ident = Ident(sysid: nat, timeline: nat, dboid: nat, localDboid: nat)

  predicate ValidIdent(id: Ident) {
    id.sysid < TWO64 && id.timeline < TWO32 && id.dboid < TWO32 && id.localDboid < TWO32
  }

  // ---- decimal numbers -----------------------------------------------------------------

  predicate IsDigit(c: char) { '0' <= c <= '9' }

  function DigitOf(n: nat): (c: char)
    requires n < 10
    ensures IsDigit(c) && c as int - '0' as int == n
  {
    (n + '0' as int) as char
  }

  function Digits(n: nat): (s: string)
    ensures |s| > 0 && forall i :: 0 <= i < |s| ==> IsDigit(s[i])
  {
    if n < 10 then [DigitOf(n)] else Digits(n / 10) + [DigitOf(n % 10)]
  }

  function NumberOf(s: string): nat
    requires forall i :: 0 <= i < |s| ==> IsDigit(s[i])
  {
    if s == "" then 0 else assert IsDigit(s[|s| - 1]); NumberOf(s[..|s| - 1]) * 10 + (s[|s| - 1] as int - '0' as int)
  }

  function LeadingDigits(s: string): (k: nat)
    ensures k <= |s| && (forall i :: 0 <= i < k ==> IsDigit(s[i])) && (k < |s| ==> !IsDigit(s[k]))
  {
    if s == "" || !IsDigit(s[0]) then 0 else 1 + LeadingDigits(s[1..])
  }

  lemma {:induction false} NumberOfDigits(n: nat)
    ensures NumberOf(Digits(n)) == n
  {
    var s := Digits(n);
    if n < 10 {
      assert s[..0] == "";
    } else {
      assert s[..|s| - 1] == Digits(n / 10);
      NumberOfDigits(n / 10);
    }
  }

  function Pow10(k: nat): nat { if k == 0 then 1 else 10 * Pow10(k - 1) }

  lemma {:induction false} DigitsLength(n: nat, k: nat)
    requires n < Pow10(k) && k > 0
    ensures |Digits(n)| <= k
  {
    if n >= 10 { DigitsLength(n / 10, k - 1); }
  }

  lemma WidestNumbers(n: nat)
    ensures n < TWO32 ==> |Digits(n)| <= 10
    ensures n < TWO64 ==> |Digits(n)| <= 20
  {
    assert Pow10(10) == 10_000_000_000 && Pow10(20) == 100_000_000_000_000_000_000;
    if n < TWO32 { DigitsLength(n, 10); }
    if n < TWO64 { DigitsLength(n, 20); }
  }

  // ---- printing and scanning a format ------------------------------------------------------

  datatype Piece = Literal(text: string) | Number | Text

  function Print(format: seq<Piece>, numbers: seq<nat>, text: string): string
  {
    if format == [] then ""
    else
      match format[0]
      case Literal(t) => t + Print(format[1..], numbers, text)
      case Text => text + Print(format[1..], numbers, text)
      case Number =>
        if numbers == [] then "" else Digits(numbers[0]) + Print(format[1..], numbers[1..], text)
  }

  /** Scanning stops at the first piece that does not match; `count` is how many numbers
      and texts were converted. */
  datatype Scanned = Scanned(numbers: seq<nat>, count: nat)

  function Scan(format: seq<Piece>, s: string): Scanned {
    if format == [] then Scanned([], 0)
    else
      match format[0]
      case Literal(t) =>
        if |t| <= |s| && s[..|t|] == t then Scan(format[1..], s[|t|..]) else Scanned([], 0)
      case Number =>
        var k := LeadingDigits(s);
        if k == 0 then Scanned([], 0)
        else
          var more := Scan(format[1..], s[k..]);
          Scanned([NumberOf(s[..k])] + more.numbers, 1 + more.count)
      case Text =>
        var k := WordLength(s);
        if k == 0 then Scanned([], 0)
        else
          var more := Scan(format[1..], s[k..]);
          Scanned(more.numbers, 1 + more.count)
  }

  predicate IsBlank(c: char) { c == ' ' || '\t' <= c <= '\r' }

  /** A text is a run of characters other than blanks, and blanks before it are skipped. */
  function WordLength(s: string): (k: nat)
    ensures k <= |s|
  {
    if s == "" then 0
    else if IsBlank(s[0]) then (if WordLength(s[1..]) == 0 then 0 else 1 + WordLength(s[1..]))
    else 1 + RunLength(s[1..])
  }

  function RunLength(s: string): (k: nat)
    ensures k <= |s|
  {
    if s == "" || IsBlank(s[0]) then 0 else 1 + RunLength(s[1..])
  }

  predicate StartsWithDigit(s: string) { s != "" && IsDigit(s[0]) }

  /** No text, and between two numbers there is something that is not a digit. */
  predicate Separated(format: seq<Piece>) {
    format == [] || (format[0] != Text && (format[0] == Number ==> NotANumber(format[1..])) && Separated(format[1..]))
  }

  predicate NotANumber(format: seq<Piece>) {
    format == [] || (format[0].Literal? && format[0].text != "" && !IsDigit(format[0].text[0]))
  }

  function Numbers(format: seq<Piece>): nat {
    if format == [] then 0 else (if format[0] == Number then 1 else 0) + Numbers(format[1..])
  }

  lemma ScanOneNumber(n: nat, rest: string)
    requires !StartsWithDigit(rest)
    ensures LeadingDigits(Digits(n) + rest) == |Digits(n)|
    ensures NumberOf((Digits(n) + rest)[..|Digits(n)|]) == n
  {
    var s, k := Digits(n) + rest, LeadingDigits(Digits(n) + rest);
    assert forall i :: 0 <= i < |Digits(n)| ==> s[i] == Digits(n)[i];
    assert rest != "" ==> s[|Digits(n)|] == rest[0];
    assert s[..|Digits(n)|] == Digits(n);
    NumberOfDigits(n);
  }

  lemma ScanNumber(format: seq<Piece>, n: nat, rest: string)
    requires format != [] && format[0] == Number && !StartsWithDigit(rest)
    ensures var more := Scan(format[1..], rest);
            Scan(format, Digits(n) + rest) == Scanned([n] + more.numbers, 1 + more.count)
  {
    ScanOneNumber(n, rest);
    assert (Digits(n) + rest)[|Digits(n)|..] == rest;
  }

  lemma ScanLiteral(format: seq<Piece>, t: string, rest: string)
    requires format != [] && format[0] == Literal(t)
    ensures Scan(format, t + rest) == Scan(format[1..], rest)
  {
    assert (t + rest)[..|t|] == t && (t + rest)[|t|..] == rest;
  }

  lemma NoDigitFollows(format: seq<Piece>, numbers: seq<nat>, tail: string)
    requires NotANumber(format) && !StartsWithDigit(tail)
    ensures !StartsWithDigit(Print(format, numbers, "") + tail)
  {
    if format == [] { assert Print(format, numbers, "") + tail == tail; }
  }

  lemma PrintNumber(format: seq<Piece>, numbers: seq<nat>, tail: string)
    requires format != [] && format[0] == Number && numbers != []
    ensures Print(format, numbers, "") + tail == Digits(numbers[0]) + (Print(format[1..], numbers[1..], "") + tail)
  {
  }

  lemma Prepend(numbers: seq<nat>, more: seq<nat>)
    requires numbers != []
    ensures [numbers[0]] + (numbers[1..] + more) == numbers + more
  {
  }

  lemma PrintedNumber(f: seq<Piece>, s: string, rest: string, numbers: seq<nat>, m: Scanned)
    requires f != [] && f[0] == Number && numbers != [] && !StartsWithDigit(rest) && s == Digits(numbers[0]) + rest
    requires Scan(f[1..], rest) == Scanned(numbers[1..] + m.numbers, |numbers| - 1 + m.count)
    ensures Scan(f, s) == Scanned(numbers + m.numbers, |numbers| + m.count)
  {
    ScanNumber(f, numbers[0], rest);
    Prepend(numbers, m.numbers);
  }

  lemma PrintedLiteral(format: seq<Piece>, more: seq<Piece>, numbers: seq<nat>, tail: string)
    requires format != [] && format[0].Literal?
    ensures Scan(format + more, Print(format, numbers, "") + tail) ==
              Scan(format[1..] + more, Print(format[1..], numbers, "") + tail)
  {
    var t, s' := format[0].text, Print(format[1..], numbers, "") + tail;
    assert (format + more)[1..] == format[1..] + more;
    ScanLiteral(format + more, t, s');
    assert Print(format, numbers, "") + tail == t + s';
  }

  /** Numbers printed by a format are scanned back by it, whatever the scan then finds
      behind them. */
  lemma {:induction false} ScanPrinted(format: seq<Piece>, more: seq<Piece>, numbers: seq<nat>, tail: string)
    requires Separated(format) && |numbers| == Numbers(format) && !StartsWithDigit(tail)
    ensures Scan(format + more, Print(format, numbers, "") + tail) ==
              Scanned(numbers + Scan(more, tail).numbers, |numbers| + Scan(more, tail).count)
    decreases |format|
  {
    if format == [] {
      assert format + more == more && Print(format, numbers, "") + tail == tail && numbers == [];
    } else if format[0] == Number {
      ScanPrinted(format[1..], more, numbers[1..], tail);
      NoDigitFollows(format[1..], numbers[1..], tail);
      PrintNumber(format, numbers, tail);
      assert (format + more)[1..] == format[1..] + more;
      PrintedNumber(format + more, Print(format, numbers, "") + tail, Print(format[1..], numbers[1..], "") + tail,
                    numbers, Scan(more, tail));
    } else {
      ScanPrinted(format[1..], more, numbers, tail);
      PrintedLiteral(format, more, numbers, tail);
    }
  }

  // ---- the two kinds of names --------------------------------------------------------------

  function SlotNumbers(): seq<Piece> {
    [Literal("pgactive_"), Number, Literal("_"), Number, Literal("_"), Number, Literal("_"), Number]
  }

  function SlotFormat(): seq<Piece> { SlotNumbers() + [Literal("__"), Text] }

  function OriginFormat(): seq<Piece> { SlotNumbers() + [Literal("_"), Text] }

  /** Printing into a name field keeps what fits. */
  function Truncated(s: string): string { if |s| > NAME_CHARS then s[..NAME_CHARS] else s }

  function SlotName(id: Ident, name: string): string {
    Truncated(Print(SlotFormat(), [id.localDboid, id.sysid, id.timeline, id.dboid], name))
  }

  function OriginName(id: Ident, name: string): string {
    Print(OriginFormat(), [id.sysid, id.timeline, id.dboid, id.localDboid], name)
  }

  /** Exactly four conversions, so that a name with a text at its end is refused. */
  function ParseSlotName(s: string): Option<Ident> {
    var r := Scan(SlotFormat(), s);
    if r.count != 4 || |r.numbers| != 4 then None
    else Some(Ident(r.numbers[1], r.numbers[2], r.numbers[3], r.numbers[0]))
  }

  function ParseOriginName(s: string): Option<Ident> {
    var r := Scan(OriginFormat(), s);
    if r.count != 4 || |r.numbers| != 4 then None
    else Some(Ident(r.numbers[0], r.numbers[1], r.numbers[2], r.numbers[3]))
  }

  lemma SlotNumbersSeparated()
    ensures Separated(SlotNumbers()) && Numbers(SlotNumbers()) == 4 && LiteralChars(SlotNumbers()) == 12
  {
    var u := Literal("_");
    AddNumber([]);
    assert [Number] + [] == [Number];
    AddNumber([u, Number]);
    assert [Number] + [u, Number] == [Number, u, Number];
    AddNumber([u, Number, u, Number]);
    assert [Number] + [u, Number, u, Number] == [Number, u, Number, u, Number];
    AddNumber([u, Number, u, Number, u, Number]);
    var f := [Number, u, Number, u, Number, u, Number];
    assert [Number] + [u, Number, u, Number, u, Number] == f;
    assert SlotNumbers()[1..] == f;
  }

  /** A number in front of nothing, or of a literal and a format known already. */
  lemma AddNumber(format: seq<Piece>)
    requires format == [] || (format[0] == Literal("_") && Separated(format[1..]))
    ensures var g := [Number] + format;
            Separated(g) && Numbers(g) == 1 + Numbers(format) && LiteralChars(g) == LiteralChars(format)
    ensures format != [] ==> Numbers(format) == Numbers(format[1..]) && LiteralChars(format) == 1 + LiteralChars(format[1..])
  {
    assert ([Number] + format)[1..] == format;
  }

  function LiteralChars(format: seq<Piece>): nat {
    if format == [] then 0 else (if format[0].Literal? then |format[0].text| else 0) + LiteralChars(format[1..])
  }

  function DigitCount(numbers: seq<nat>): nat {
    if numbers == [] then 0 else |Digits(numbers[0])| + DigitCount(numbers[1..])
  }

  lemma {:induction false} PrintLength(format: seq<Piece>, numbers: seq<nat>)
    requires Separated(format) && |numbers| == Numbers(format)
    ensures |Print(format, numbers, "")| == LiteralChars(format) + DigitCount(numbers)
    decreases |format|
  {
    if format != [] { PrintLength(format[1..], if format[0] == Number then numbers[1..] else numbers); }
  }

  lemma {:induction false} PrintAppend(format: seq<Piece>, more: seq<Piece>, numbers: seq<nat>, text: string)
    requires Separated(format) && |numbers| == Numbers(format)
    ensures Print(format + more, numbers, text) == Print(format, numbers, "") + Print(more, [], text)
    decreases |format|
  {
    if format == [] {
      assert format + more == more;
    } else {
      assert (format + more)[1..] == format[1..] + more;
      PrintAppend(format[1..], more, if format[0] == Number then numbers[1..] else numbers, text);
    }
  }

  lemma FourDigitCounts(a: nat, b: nat, c: nat, d: nat)
    ensures DigitCount([a, b, c, d]) == |Digits(a)| + |Digits(b)| + |Digits(c)| + |Digits(d)|
  {
    assert DigitCount([d]) == |Digits(d)| by { assert [d][1..] == []; }
    assert [c, d][1..] == [d];
    assert DigitCount([c, d]) == |Digits(c)| + |Digits(d)|;
    assert [b, c, d][1..] == [c, d] && [a, b, c, d][1..] == [b, c, d];
    assert DigitCount([b, c, d]) == |Digits(b)| + DigitCount([c, d]);
  }

  /** What the end of a format prints, and what it finds in a cut-off name. */
  lemma PrintEnd(sep: string, text: string)
    ensures Print([Literal(sep), Text], [], text) == sep + text
  {
    assert Print([Text], [], text) == text by { assert [Text][1..] == [] && text + "" == text; }
    assert [Literal(sep), Text][1..] == [Text];
  }

  lemma ScanText(s: string)
    ensures Scan([Text], s) == Scanned([], if WordLength(s) > 0 then 1 else 0)
  {
    assert [Text][1..] == [];
  }

  lemma ScanEnd(sep: string, tail: string)
    ensures var r := Scan([Literal(sep), Text], tail);
            r.numbers == [] && r.count == if sep <= tail && WordLength(tail[|sep|..]) > 0 then 1 else 0
  {
    assert [Literal(sep), Text][1..] == [Text];
    if sep <= tail {
      var rest := tail[|sep|..];
      assert tail == sep + rest;
      ScanLiteral([Literal(sep), Text], sep, rest);
      ScanText(rest);
    } else {
      assert !(|sep| <= |tail| && tail[..|sep|] == sep);
    }
  }

  lemma ScanName(sep: string, numbers: seq<nat>, tail: string)
    requires |numbers| == 4 && !StartsWithDigit(tail)
    ensures var r := Scan(SlotNumbers() + [Literal(sep), Text], Print(SlotNumbers(), numbers, "") + tail);
            r.numbers == numbers && r.count == if sep <= tail && WordLength(tail[|sep|..]) > 0 then 5 else 4
  {
    SlotNumbersSeparated();
    ScanPrinted(SlotNumbers(), [Literal(sep), Text], numbers, tail);
    ScanEnd(sep, tail);
  }

  /** Numbers in the widest form leave room for one character of the separator. */
  lemma SlotNameFits(id: Ident)
    requires ValidIdent(id)
    ensures |Print(SlotNumbers(), [id.localDboid, id.sysid, id.timeline, id.dboid], "")| < NAME_CHARS
  {
    SlotNumbersSeparated();
    PrintLength(SlotNumbers(), [id.localDboid, id.sysid, id.timeline, id.dboid]);
    FourDigitCounts(id.localDboid, id.sysid, id.timeline, id.dboid);
    WidestNumbers(id.localDboid);
    WidestNumbers(id.sysid);
    WidestNumbers(id.timeline);
    WidestNumbers(id.dboid);
  }

  /** Every node identifier can be read back from its slot name, even from one that did
      not fit the field and lost its last character. */
  lemma SlotNameRoundTrip(id: Ident)
    requires ValidIdent(id)
    ensures ParseSlotName(SlotName(id, "")) == Some(id) && |SlotName(id, "")| <= NAME_CHARS
  {
    var numbers := [id.localDboid, id.sysid, id.timeline, id.dboid];
    var head := Print(SlotNumbers(), numbers, "");
    SlotNumbersSeparated();
    PrintAppend(SlotNumbers(), [Literal("__"), Text], numbers, "");
    PrintEnd("__", "");
    SlotNameFits(id);
    var full := head + "__";
    assert Print(SlotFormat(), numbers, "") == full;
    var tail := Truncated(full)[|head|..];
    assert Truncated(full) == head + tail;
    assert tail == "_" || tail == "__";
    ScanName("__", numbers, tail);
  }

  /** A replication origin name is read back the same way; with a text at its end, other
      than blanks, it is refused. */
  lemma OriginNameRoundTrip(id: Ident, name: string)
    ensures ParseOriginName(OriginName(id, name)) == if WordLength(name) == 0 then Some(id) else None
  {
    var numbers := [id.sysid, id.timeline, id.dboid, id.localDboid];
    var head := Print(SlotNumbers(), numbers, "");
    SlotNumbersSeparated();
    PrintAppend(SlotNumbers(), [Literal("_"), Text], numbers, name);
    PrintEnd("_", name);
    assert ("_" + name)[1..] == name && "_" <= "_" + name;
    ScanName("_", numbers, "_" + name);
  }

  lemma PrintsNumber(n: nat, numbers: seq<nat>, format: seq<Piece>)
    ensures Print([Number] + format, [n] + numbers, "") == Digits(n) + Print(format, numbers, "")
  {
    assert ([Number] + format)[1..] == format && ([n] + numbers)[1..] == numbers;
  }

  lemma PrintsLiteral(t: string, numbers: seq<nat>, format: seq<Piece>)
    ensures Print([Literal(t)] + format, numbers, "") == t + Print(format, numbers, "")
  {
    assert ([Literal(t)] + format)[1..] == format;
  }

  /** A number, and then the rest behind an underscore. */
  lemma PrintsPair(n: nat, numbers: seq<nat>, format: seq<Piece>)
    ensures Print([Number] + ([Literal("_")] + format), [n] + numbers, "") == Digits(n) + "_" + Print(format, numbers, "")
  {
    hide Print;
    PrintsNumber(n, numbers, [Literal("_")] + format);
    PrintsLiteral("_", numbers, format);
  }

  lemma Joined(p: string, a: string, b: string, c: string, d: string, u: string)
    ensures p + (a + u + (b + u + (c + u + d))) == p + a + u + b + u + c + u + d
  {
  }

  lemma PrintedNumbers(a: nat, b: nat, c: nat, d: nat)
    ensures Print(SlotNumbers(), [a, b, c, d], "") ==
              "pgactive_" + Digits(a) + "_" + Digits(b) + "_" + Digits(c) + "_" + Digits(d)
  {
    hide Digits, Print;
    PrintedLast(d);
    PrintsPair(c, [d], [Number]);
    var f := [Number] + ([Literal("_")] + [Number]);
    PrintsPair(b, [c, d], f);
    var g := [Number] + ([Literal("_")] + f);
    PrintsPair(a, [b, c, d], g);
    var h := [Number] + ([Literal("_")] + g);
    PrintsLiteral("pgactive_", [a, b, c, d], h);
    assert [c] + [d] == [c, d] && [b] + [c, d] == [b, c, d] && [a] + [b, c, d] == [a, b, c, d];
    SlotNumbersAre();
    Joined("pgactive_", Digits(a), Digits(b), Digits(c), Digits(d), "_");
  }

  lemma PrintedLast(d: nat)
    ensures Print([Number], [d], "") == Digits(d)
  {
    PrintsNumber(d, [], []);
    assert [Number] + [] == [Number] && [d] + [] == [d] && Digits(d) + "" == Digits(d);
  }

  lemma SlotNumbersAre()
    ensures var u := [Literal("_")]; var f := [Number] + (u + [Number]); var g := [Number] + (u + f);
            SlotNumbers() == [Literal("pgactive_")] + ([Number] + (u + g))
  {
  }

  /** The names as other nodes and tools know them: a slot name is cut off behind 63 characters
      and starts with the local database, an origin name ends with it. */
  lemma NamesAre(id: Ident, name: string)
    ensures var full := "pgactive_" + Digits(id.localDboid) + "_" + Digits(id.sysid) + "_" + Digits(id.timeline) + "_"
                        + Digits(id.dboid) + "__" + name;
            SlotName(id, name) == if |full| > 63 then full[..63] else full
    ensures OriginName(id, name) == "pgactive_" + Digits(id.sysid) + "_" + Digits(id.timeline) + "_" + Digits(id.dboid) + "_"
                                    + Digits(id.localDboid) + "_" + name
  {
    hide Print, Digits;
    SlotNumbersSeparated();
    PrintedNumbers(id.localDboid, id.sysid, id.timeline, id.dboid);
    PrintAppend(SlotNumbers(), [Literal("__"), Text], [id.localDboid, id.sysid, id.timeline, id.dboid], name);
    PrintEnd("__", name);
    PrintedNumbers(id.sysid, id.timeline, id.dboid, id.localDboid);
    PrintAppend(SlotNumbers(), [Literal("_"), Text], [id.sysid, id.timeline, id.dboid, id.localDboid], name);
    PrintEnd("_", name);
  }

  /** So two nodes, or two local databases, never share a slot or an origin. */
  lemma NamesAreDistinct(a: Ident, b: Ident)
    requires ValidIdent(a) && ValidIdent(b) && a != b
    ensures SlotName(a, "") != SlotName(b, "") && OriginName(a, "") != OriginName(b, "")
  {
    SlotNameRoundTrip(a);
    SlotNameRoundTrip(b);
    OriginNameRoundTrip(a, "");
    OriginNameRoundTrip(b, "");
  }
}
