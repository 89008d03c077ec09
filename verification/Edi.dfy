/** The ANSI X12 slice (internal/edi/edi.go): outbound 855, 810 and 856 documents, and reading segments and 850s. */
module Edi {
  import opened Prelude

  /** A segment: its name and its elements. */
  type Segment = s: seq<string> | s != [] witness [""]

  const ELEM_SEP := '*'
  const SEG_TERM := '~'

  // ---- text ---------------------------------------------------------------

  /** Parts joined by a separator. */
  function Join(parts: seq<string>, c: char): string
    requires parts != []
  {
    if |parts| == 1 then parts[0] else parts[0] + [c] + Join(parts[1..], c)
  }

  /** Every part between separators, empty ones included: one more part than separators. */
  function Split(s: string, c: char): (r: seq<string>)
    ensures r != []
  {
    if s == "" then [""]
    else if s[0] == c then [""] + Split(s[1..], c)
    else var rest := Split(s[1..], c); [[s[0]] + rest[0]] + rest[1..]
  }

  predicate Without(s: string, c: char) { forall i | 0 <= i < |s| :: s[i] != c }

  lemma {:induction false} SplitAtSeparator(a: string, c: char, b: string)
    requires Without(a, c)
    ensures Split(a + [c] + b, c) == [a] + Split(b, c)
  {
    var s := a + [c] + b;
    if a == "" {
      assert s[1..] == b;
    } else {
      assert s[1..] == a[1..] + [c] + b;
      SplitAtSeparator(a[1..], c, b);
      assert [a[0]] + a[1..] == a;
    }
  }

  lemma {:induction false} SplitWhole(a: string, c: char)
    requires Without(a, c)
    ensures Split(a, c) == [a]
  {
    if a != "" {
      SplitWhole(a[1..], c);
      assert [a[0]] + a[1..] == a;
    }
  }

  lemma {:induction false} SplitJoin(parts: seq<string>, c: char)
    requires parts != [] && forall i | 0 <= i < |parts| :: Without(parts[i], c)
    ensures Split(Join(parts, c), c) == parts
  {
    if |parts| == 1 {
      SplitWhole(parts[0], c);
    } else {
      SplitJoin(parts[1..], c);
      SplitAtSeparator(parts[0], c, Join(parts[1..], c));
    }
  }

  lemma {:induction false} JoinAppend(parts: seq<string>, e: string, c: char)
    requires parts != []
    ensures Join(parts + [e], c) == Join(parts, c) + [c] + e
  {
    if |parts| == 1 {
      assert (parts + [e])[1..] == [e];
    } else {
      assert (parts + [e])[1..] == parts[1..] + [e];
      JoinAppend(parts[1..], e, c);
      calc {
        Join(parts + [e], c);
        parts[0] + [c] + (Join(parts[1..], c) + [c] + e);
        (parts[0] + [c] + Join(parts[1..], c)) + [c] + e;
      }
    }
  }

  /** A document as text: each segment's elements joined and terminated. */
  function Text(doc: seq<Segment>): string {
    if doc == [] then "" else Join(doc[0], ELEM_SEP) + [SEG_TERM] + Text(doc[1..])
  }

  lemma {:induction false} TextConcat(a: seq<Segment>, b: seq<Segment>)
    ensures Text(a + b) == Text(a) + Text(b)
  {
    if a == [] {
      assert a + b == b;
    } else {
      assert (a + b)[1..] == a[1..] + b;
      TextConcat(a[1..], b);
    }
  }

  lemma {:induction false} TextAppend(doc: seq<Segment>, s: Segment)
    ensures Text(doc + [s]) == Text(doc) + Join(s, ELEM_SEP) + [SEG_TERM]
  {
    TextConcat(doc, [s]);
    assert Text([s]) == Join(s, ELEM_SEP) + [SEG_TERM] + Text([]);
  }

  // ---- reading segments ---------------------------------------------------

  function Trimmed(parts: seq<string>): seq<Segment> {
    if parts == [] then []
    else
      var part := TrimSpace(parts[|parts| - 1]);
      Trimmed(parts[..|parts| - 1]) + if part == "" then [] else [Split(part, ELEM_SEP)]
  }

  method Segments(raw: string) returns (out: seq<Segment>)
    ensures out == Trimmed(Split(raw, SEG_TERM))
  {
    var parts := Split(raw, SEG_TERM);
    out := [];
    for i := 0 to |parts|
      invariant out == Trimmed(parts[..i])
    {
      assert parts[..i + 1][..i] == parts[..i];
      var part := TrimSpace(parts[i]);
      if part != "" { out := out + [Split(part, ELEM_SEP)]; }
    }
    assert parts[..|parts|] == parts;
  }

  /** An element free of both separators. */
  predicate Plain(e: string) { Without(e, ELEM_SEP) && Without(e, SEG_TERM) }

  /** A segment whose name and last element keep white space off its ends; inner elements may be padded. */
  predicate Readable(s: Segment) {
    (forall i | 0 <= i < |s| :: Plain(s[i])) && s[0] != "" && !IsSpace(s[0][0]) &&
    var last := s[|s| - 1]; last == "" || !IsSpace(last[|last| - 1])
  }

  lemma {:induction false} JoinReadable(s: Segment)
    requires Readable(s)
    ensures Join(s, ELEM_SEP) != "" && Tight(Join(s, ELEM_SEP)) && Without(Join(s, ELEM_SEP), SEG_TERM)
  {
    JoinEnds(s);
    JoinWithout(s);
  }

  lemma {:induction false} JoinEnds(s: Segment)
    ensures s[0] <= Join(s, ELEM_SEP)
    ensures var j, last := Join(s, ELEM_SEP), s[|s| - 1];
            |j| >= |last| && (last != "" ==> j[|j| - 1] == last[|last| - 1]) &&
            (last == "" && |s| > 1 ==> j != "" && j[|j| - 1] == ELEM_SEP)
  {
    if |s| > 1 { JoinEnds(s[1..]); }
  }

  lemma {:induction false} JoinWithout(s: Segment)
    requires forall i | 0 <= i < |s| :: Plain(s[i])
    ensures Without(Join(s, ELEM_SEP), SEG_TERM)
  {
    if |s| > 1 { JoinWithout(s[1..]); }
  }

  function Lines(doc: seq<Segment>): (r: seq<string>)
    ensures |r| == |doc| && forall i | 0 <= i < |doc| :: r[i] == Join(doc[i], ELEM_SEP)
  {
    seq(|doc|, i requires 0 <= i < |doc| => Join(doc[i], ELEM_SEP))
  }

  lemma {:induction false} SplitText(doc: seq<Segment>)
    requires forall i | 0 <= i < |doc| :: Readable(doc[i])
    ensures Split(Text(doc), SEG_TERM) == Lines(doc) + [""]
  {
    if doc != [] {
      SplitText(doc[1..]);
      JoinReadable(doc[0]);
      SplitAtSeparator(Join(doc[0], ELEM_SEP), SEG_TERM, Text(doc[1..]));
      assert [Lines(doc)[0]] + Lines(doc[1..]) == Lines(doc);
    }
  }

  lemma {:induction false} TrimmedLines(doc: seq<Segment>)
    requires forall i | 0 <= i < |doc| :: Readable(doc[i])
    ensures Trimmed(Lines(doc)) == doc
  {
    if doc != [] {
      var n := |doc| - 1;
      TrimmedLines(doc[..n]);
      assert Lines(doc)[..n] == Lines(doc[..n]);
      JoinReadable(doc[n]);
      TightTrims(Join(doc[n], ELEM_SEP));
      SplitJoin(doc[n], ELEM_SEP);
      assert doc == doc[..n] + [doc[n]];
    }
  }

  /** Reading a written document gives back exactly its segments. */
  lemma {:induction false} ReadsBack(doc: seq<Segment>)
    requires forall i | 0 <= i < |doc| :: Readable(doc[i])
    ensures Trimmed(Split(Text(doc), SEG_TERM)) == doc
  {
    SplitText(doc);
    TrimmedLines(doc);
    var parts := Lines(doc) + [""];
    assert parts[..|parts| - 1] == Lines(doc);
    assert TrimSpace("") == "";
  }

  // ---- the writer ---------------------------------------------------------

  datatype Envelope = Envelope(senderId: string, receiverId: string, controlNumber: string, date: string, time: string)

  datatype AckLine = AckLine(lineNo: string, sku: string, quantity: string, uom: string, unitPrice: string, status: string)

  datatype InvoiceLine = InvoiceLine(lineNo: string, sku: string, quantity: string, uom: string, unitPrice: string)

  datatype ShipLine = ShipLine(sku: string, quantity: string, uom: string)

  function Def(v: string, d: string): string { if v == "" then d else v }

  /** Right-pads with spaces up to a width. */
  function PadSpaces(s: string, width: nat): string
    decreases if |s| < width then width - |s| else 0
  {
    if |s| < width then PadSpaces(s + " ", width) else s
  }

  method PadR(s: string, width: nat) returns (r: string)
    ensures r == PadSpaces(s, width)
  {
    r := s;
    while |r| < width
      invariant PadSpaces(r, width) == PadSpaces(s, width)
    {
      r := r + " ";
    }
  }

  method PadL(s: string, width: nat) returns (r: string)
    ensures r == PadZeros(s, width)
  {
    r := s;
    while |r| < width
      invariant PadZeros(r, width) == PadZeros(s, width)
    {
      r := "0" + r;
    }
  }

  /** The interchange header. The date is YYYYMMDD; its century is dropped, so at least two characters are needed. */
  function Isa(env: Envelope): Segment
    requires |env.date| >= 2
  {
    ["ISA", "00", PadSpaces("", 10), "00", PadSpaces("", 10), "ZZ", PadSpaces(env.senderId, 15),
     "ZZ", PadSpaces(env.receiverId, 15), env.date[2..], env.time, "U", "00401", PadZeros(env.controlNumber, 9), "0", "P", ">"]
  }

  /** The openers ISA, GS and ST. */
  function Header(env: Envelope, txnSet: string, functionalId: string): seq<Segment>
    requires |env.date| >= 2
  {
    [Isa(env),
     ["GS", functionalId, env.senderId, env.receiverId, env.date, env.time, env.controlNumber, "X", "004010"],
     ["ST", txnSet, PadZeros(env.controlNumber, 4)]]
  }

  /** The trailers SE, GE and IEA, with the number of segments from ST to SE. */
  function Trailer(env: Envelope, count: nat): seq<Segment> {
    [["SE", Itoa(count), PadZeros(env.controlNumber, 4)], ["GE", "1", env.controlNumber],
     ["IEA", "1", PadZeros(env.controlNumber, 9)]]
  }

  /** A whole interchange around a transaction set's body. */
  function Document(env: Envelope, txnSet: string, functionalId: string, body: seq<Segment>): seq<Segment>
    requires |env.date| >= 2
  {
    Header(env, txnSet, functionalId) + body + Trailer(env, |body| + 2)
  }

  class Writer {
    var sb: string
    var segCount: nat
    ghost var written: seq<Segment>

    ghost predicate Valid()
      reads this
    {
      sb == Text(written)
    }

    constructor ()
      ensures Valid() && written == [] && segCount == 0
    {
      sb, segCount, written := "", 0, [];
    }

    /** Writes a segment without counting it. */
    method Raw(s: Segment)
      requires Valid()
      modifies this`sb, this`written
      ensures Valid() && written == old(written) + [s]
    {
      sb := sb + s[0];
      for i := 1 to |s|
        invariant written == old(written) && sb == old(sb) + Join(s[..i], ELEM_SEP)
      {
        JoinAppend(s[..i], s[i], ELEM_SEP);
        assert s[..i + 1] == s[..i] + [s[i]];
        sb := sb + [ELEM_SEP];
        sb := sb + s[i];
      }
      assert s[..|s|] == s;
      sb := sb + [SEG_TERM];
      TextAppend(written, s);
      written := written + [s];
    }

    /** Writes a counted transaction-set segment. */
    method Seg(s: Segment)
      requires Valid()
      modifies this
      ensures Valid() && written == old(written) + [s] && segCount == old(segCount) + 1
    {
      segCount := segCount + 1;
      Raw(s);
    }

    method OpenEnvelope(env: Envelope, txnSet: string, functionalId: string)
      requires Valid() && written == [] && segCount == 0 && |env.date| >= 2
      modifies this
      ensures Valid() && written == Header(env, txnSet, functionalId) && segCount == 1
    {
      hide Text, PadSpaces, PadZeros;
      var blank := PadR("", 10);
      var sender := PadR(env.senderId, 15);
      var receiver := PadR(env.receiverId, 15);
      var control9 := PadL(env.controlNumber, 9);
      var control4 := PadL(env.controlNumber, 4);
      Raw(["ISA", "00", blank, "00", blank, "ZZ", sender, "ZZ", receiver, env.date[2..], env.time, "U", "00401",
           control9, "0", "P", ">"]);
      Raw(["GS", functionalId, env.senderId, env.receiverId, env.date, env.time, env.controlNumber, "X", "004010"]);
      Seg(["ST", txnSet, control4]);
    }

    /** Writes the trailers; the SE count includes ST and SE. */
    method Close(env: Envelope) returns (r: string)
      requires Valid()
      modifies this
      ensures Valid() && r == sb
      ensures written == old(written) + Trailer(env, old(segCount) + 1)
    {
      var control4 := PadL(env.controlNumber, 4);
      var control9 := PadL(env.controlNumber, 9);
      Raw(["SE", Itoa(segCount + 1), control4]);
      Raw(["GE", "1", env.controlNumber]);
      Raw(["IEA", "1", control9]);
      r := sb;
    }
  }

  // ---- the documents ------------------------------------------------------

  function Po1(l: AckLine): Segment { ["PO1", l.lineNo, l.quantity, Def(l.uom, "EA"), l.unitPrice, "", "VP", l.sku] }

  function Ack(l: AckLine): Segment { ["ACK", Def(l.status, "IA"), l.quantity, Def(l.uom, "EA")] }

  function AckSegments(lines: seq<AckLine>): seq<Segment> {
    if lines == [] then []
    else AckSegments(lines[..|lines| - 1]) + [Po1(lines[|lines| - 1]), Ack(lines[|lines| - 1])]
  }

  function Bak(env: Envelope, poNumber: string): Segment { ["BAK", "00", "AC", poNumber, "", env.date] }

  function Ctt(n: nat): Segment { ["CTT", Itoa(n)] }

  function Body855(env: Envelope, poNumber: string, lines: seq<AckLine>): seq<Segment> {
    [Bak(env, poNumber)] + AckSegments(lines) + [Ctt(|lines|)]
  }

  function It1(l: InvoiceLine): Segment { ["IT1", l.lineNo, l.quantity, Def(l.uom, "EA"), l.unitPrice, "", "VP", l.sku] }

  function InvoiceSegments(lines: seq<InvoiceLine>): seq<Segment> {
    if lines == [] then [] else InvoiceSegments(lines[..|lines| - 1]) + [It1(lines[|lines| - 1])]
  }

  function Big(env: Envelope, invoiceNumber: string, poNumber: string): Segment {
    ["BIG", env.date, invoiceNumber, "", poNumber]
  }

  function Tds(total: string): Segment { ["TDS", total] }

  function Body810(env: Envelope, invoiceNumber: string, poNumber: string, total: string, lines: seq<InvoiceLine>): seq<Segment> {
    [Big(env, invoiceNumber, poNumber)] + InvoiceSegments(lines) + [Tds(total), Ctt(|lines|)]
  }

  /** A hierarchical level: its id, its parent's id, and what it is. */
  function Hl(id: nat, parent: string, level: string): Segment { ["HL", Itoa(id), parent, level] }

  function Lin(l: ShipLine): Segment { ["LIN", "", "VP", l.sku] }

  function Sn1(l: ShipLine): Segment { ["SN1", "", l.quantity, Def(l.uom, "EA")] }

  function ShipSegments(lines: seq<ShipLine>): seq<Segment> {
    if lines == [] then []
    else
      var n := |lines| - 1;
      ShipSegments(lines[..n]) + [Hl(3 + n, "2", "I"), Lin(lines[n]), Sn1(lines[n])]
  }

  function Bsn(env: Envelope, shipmentRef: string): Segment { ["BSN", "00", shipmentRef, env.date, env.time] }

  function Prf(poNumber: string): Segment { ["PRF", poNumber] }

  function ShipHead(env: Envelope, shipmentRef: string, poNumber: string): seq<Segment> {
    [Bsn(env, shipmentRef), Hl(1, "", "S"), Hl(2, "1", "O"), Prf(poNumber)]
  }

  function Body856(env: Envelope, shipmentRef: string, poNumber: string, lines: seq<ShipLine>): seq<Segment> {
    ShipHead(env, shipmentRef, poNumber) + ShipSegments(lines)
  }

  method Encode855(env: Envelope, poNumber: string, lines: seq<AckLine>) returns (r: string)
    requires |env.date| >= 2
    ensures r == Text(Document(env, "855", "PR", Body855(env, poNumber, lines)))
  {
    hide Text, Header, Trailer, Po1, Ack, Bak, Ctt;
    var w := new Writer();
    w.OpenEnvelope(env, "855", "PR");
    ghost var head := w.written;
    var bak := Bak(env, poNumber);
    w.Seg(bak);
    for i := 0 to |lines|
      invariant w.Valid() && fresh(w) && w.segCount == 2 + |AckSegments(lines[..i])|
      invariant w.written == head + ([bak] + AckSegments(lines[..i]))
    {
      assert lines[..i + 1][..i] == lines[..i];
      w.Seg(Po1(lines[i]));
      w.Seg(Ack(lines[i]));
    }
    assert lines[..|lines|] == lines;
    w.Seg(Ctt(|lines|));
    r := w.Close(env);
    assert w.written == Document(env, "855", "PR", Body855(env, poNumber, lines));
  }

  method Encode810(env: Envelope, invoiceNumber: string, poNumber: string, total: string, lines: seq<InvoiceLine>)
    returns (r: string)
    requires |env.date| >= 2
    ensures r == Text(Document(env, "810", "IN", Body810(env, invoiceNumber, poNumber, total, lines)))
  {
    hide Text, Header, Trailer, It1, Big, Tds, Ctt;
    var w := new Writer();
    w.OpenEnvelope(env, "810", "IN");
    ghost var head := w.written;
    var big := Big(env, invoiceNumber, poNumber);
    w.Seg(big);
    for i := 0 to |lines|
      invariant w.Valid() && fresh(w) && w.segCount == 2 + |InvoiceSegments(lines[..i])|
      invariant w.written == head + ([big] + InvoiceSegments(lines[..i]))
    {
      assert lines[..i + 1][..i] == lines[..i];
      w.Seg(It1(lines[i]));
    }
    assert lines[..|lines|] == lines;
    w.Seg(Tds(total));
    w.Seg(Ctt(|lines|));
    r := w.Close(env);
    assert w.written == Document(env, "810", "IN", Body810(env, invoiceNumber, poNumber, total, lines));
  }

  method Encode856(env: Envelope, shipmentRef: string, poNumber: string, lines: seq<ShipLine>) returns (r: string)
    requires |env.date| >= 2
    ensures r == Text(Document(env, "856", "SH", Body856(env, shipmentRef, poNumber, lines)))
  {
    hide Text, Header, Trailer, Hl, Lin, Sn1, Bsn, Prf;
    var w := new Writer();
    w.OpenEnvelope(env, "856", "SH");
    ghost var head := w.written;
    w.Seg(Bsn(env, shipmentRef));
    w.Seg(Hl(1, "", "S"));
    w.Seg(Hl(2, "1", "O"));
    w.Seg(Prf(poNumber));
    assert w.written == head + ShipHead(env, shipmentRef, poNumber);
    assert |ShipHead(env, shipmentRef, poNumber)| == 4;
    hide ShipHead;
    for i := 0 to |lines|
      invariant w.Valid() && fresh(w) && w.segCount == 5 + |ShipSegments(lines[..i])|
      invariant w.written == head + (ShipHead(env, shipmentRef, poNumber) + ShipSegments(lines[..i]))
    {
      assert lines[..i + 1][..i] == lines[..i];
      w.Seg(Hl(3 + i, "2", "I"));
      w.Seg(Lin(lines[i]));
      w.Seg(Sn1(lines[i]));
    }
    assert lines[..|lines|] == lines;
    r := w.Close(env);
    assert w.written == Document(env, "856", "SH", Body856(env, shipmentRef, poNumber, lines));
  }
}
