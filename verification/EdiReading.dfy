/** Reading X12 (internal/edi/edi.go): the 850 parser, and what a reader finds in the documents the encoders write. */
module EdiReading {
  import opened Prelude
  import opened Edi

  datatype POLine = POLine(lineNo: string, sku: string, uom: string, quantity: string, unitPrice: string)

  datatype PurchaseOrder = PurchaseOrder(number: string, date: string, currency: string, lines: seq<POLine>)

  datatype Error = NotAn850 | MissingNumber | NoLines | BadLine(index: nat)

  /** The i-th element, trimmed; empty when absent. */
  function At(s: Segment, i: nat): string { if i < |s| then TrimSpace(s[i]) else "" }

  // ---- the product of a PO1 -----------------------------------------------

  /** The first non-empty value of a qualifier/value pair from position i on; with `vendor`, only VP and VN pairs. */
  function FirstValue(s: Segment, i: nat, vendor: bool): string
    decreases |s| - i
  {
    if i + 1 >= |s| then ""
    else if s[i + 1] != "" && (!vendor || s[i] == "VP" || s[i] == "VN") then s[i + 1]
    else FirstValue(s, i + 2, vendor)
  }

  /** A vendor part number if there is one, else the first number given at all. */
  function ProductId(s: Segment): string {
    var vendor := FirstValue(s, 6, true);
    if vendor != "" then vendor else FirstValue(s, 6, false)
  }

  /** The source's single pass with a fallback. */
  method FindProductId(s: Segment) returns (r: string)
    ensures r == ProductId(s)
  {
    var fallback := "";
    var i := 6;
    while i + 1 < |s|
      invariant 6 <= i
      invariant FirstValue(s, 6, true) == FirstValue(s, i, true)
      invariant FirstValue(s, 6, false) == if fallback != "" then fallback else FirstValue(s, i, false)
    {
      var qual, val := s[i], s[i + 1];
      if val != "" {
        if qual == "VP" || qual == "VN" { return val; }
        if fallback == "" { fallback := val; }
      }
      i := i + 2;
    }
    return fallback;
  }

  // ---- the 850 ------------------------------------------------------------

  function LineOf(s: Segment): POLine { POLine(At(s, 1), ProductId(s), At(s, 3), At(s, 2), At(s, 4)) }

  /** The segments with a given name, in order. */
  function Named(segs: seq<Segment>, name: string): seq<Segment> {
    if segs == [] then []
    else Named(segs[..|segs| - 1], name) + if segs[|segs| - 1][0] == name then [segs[|segs| - 1]] else []
  }

  function LinesOf(segs: seq<Segment>): (r: seq<POLine>)
    ensures |r| == |segs| && forall i | 0 <= i < |segs| :: r[i] == LineOf(segs[i])
  {
    seq(|segs|, i requires 0 <= i < |segs| => LineOf(segs[i]))
  }

  /** An element of the last segment with a given name. */
  function LastField(segs: seq<Segment>, name: string, i: nat): string {
    var found := Named(segs, name);
    if found == [] then "" else At(found[|found| - 1], i)
  }

  predicate Is850(segs: seq<Segment>) {
    exists i | 0 <= i < |segs| :: segs[i][0] == "ST" && |segs[i]| > 1 && segs[i][1] == "850"
  }

  predicate Usable(l: POLine) { l.sku != "" && l.quantity != "" }

  function FirstUnusable(lines: seq<POLine>): (k: nat)
    ensures k <= |lines| && (k < |lines| ==> !Usable(lines[k])) && forall i | 0 <= i < k :: Usable(lines[i])
  {
    if lines == [] || !Usable(lines[0]) then 0 else 1 + FirstUnusable(lines[1..])
  }

  /** What an 850 says, read off its segments: header fields from the last BEG and CUR, one line per PO1, the
      currency USD when none is given; refused as a whole when it is not a usable 850. */
  function Order(segs: seq<Segment>): Result<PurchaseOrder, Error> {
    var lines := LinesOf(Named(segs, "PO1"));
    if !Is850(segs) then Err(NotAn850)
    else if LastField(segs, "BEG", 3) == "" then Err(MissingNumber)
    else if lines == [] then Err(NoLines)
    else if FirstUnusable(lines) < |lines| then Err(BadLine(FirstUnusable(lines)))
    else Ok(PurchaseOrder(LastField(segs, "BEG", 3), LastField(segs, "BEG", 5), Def(LastField(segs, "CUR", 2), "USD"), lines))
  }

  method Parse850(raw: string) returns (r: Result<PurchaseOrder, Error>)
    ensures r == Order(Trimmed(Split(raw, SEG_TERM)))
  {
    hide TrimSpace, At, ProductId, Split, Trimmed, Is850;
    assert !Is850([]) by { NoneIs850(); }
    var segs := Segments(raw);
    var number, date, currency, isPO := "", "", "", false;
    var lines: seq<POLine> := [];
    for i := 0 to |segs|
      invariant isPO <==> Is850(segs[..i])
      invariant number == LastField(segs[..i], "BEG", 3) && date == LastField(segs[..i], "BEG", 5)
      invariant currency == LastField(segs[..i], "CUR", 2)
      invariant lines == LinesOf(Named(segs[..i], "PO1"))
    {
      var s := segs[i];
      ghost var seen := segs[..i];
      assert segs[..i + 1] == seen + [s] && segs[..i + 1][..i] == seen;
      Is850Grows(seen, s);
      if s[0] == "ST" {
        if |s| > 1 && s[1] == "850" { isPO := true; }
      } else if s[0] == "BEG" {
        number, date := At(s, 3), At(s, 5);
      } else if s[0] == "CUR" {
        currency := At(s, 2);
      } else if s[0] == "PO1" {
        var sku := FindProductId(s);
        lines := lines + [POLine(At(s, 1), sku, At(s, 3), At(s, 2), At(s, 4))];
      }
    }
    assert segs[..|segs|] == segs;
    if !isPO { return Err(NotAn850); }
    if number == "" { return Err(MissingNumber); }
    if lines == [] { return Err(NoLines); }
    for i := 0 to |lines|
      invariant forall j | 0 <= j < i :: Usable(lines[j])
    {
      if lines[i].sku == "" || lines[i].quantity == "" { return Err(BadLine(i)); }
    }
    if currency == "" { currency := "USD"; }
    return Ok(PurchaseOrder(number, date, currency, lines));
  }

  lemma {:induction false} NoneIs850()
    ensures !Is850([])
  {
  }

  lemma {:induction false} Is850Grows(segs: seq<Segment>, s: Segment)
    ensures Is850(segs + [s]) <==> Is850(segs) || (s[0] == "ST" && |s| > 1 && s[1] == "850")
  {
    var more := segs + [s];
    assert more[|segs|] == s;
    if Is850(segs) {
      var i :| 0 <= i < |segs| && segs[i][0] == "ST" && |segs[i]| > 1 && segs[i][1] == "850";
      assert more[i] == segs[i];
    }
  }

  /** A partial order is never returned: every accepted order has a number and at least one line, and every line a
      product and a quantity. */
  lemma {:induction false} AcceptedIsUsable(segs: seq<Segment>)
    requires Order(segs).Ok?
    ensures var po := Order(segs).value;
            po.number != "" && po.lines != [] && po.currency != "" && |po.lines| == |Named(segs, "PO1")| &&
            forall i | 0 <= i < |po.lines| :: Usable(po.lines[i])
  {
  }

  // ---- clean inputs -------------------------------------------------------

  /** Free of separators and of surrounding white space. */
  predicate Clean(e: string) { Plain(e) && Tight(e) }

  predicate CleanEnvelope(env: Envelope) {
    Clean(env.senderId) && Clean(env.receiverId) && Clean(env.controlNumber) && Clean(env.date) && Clean(env.time) &&
    |env.date| >= 2
  }

  predicate CleanAck(l: AckLine) {
    Clean(l.lineNo) && Clean(l.sku) && Clean(l.quantity) && Clean(l.uom) && Clean(l.unitPrice) && Clean(l.status)
  }

  predicate CleanInvoice(l: InvoiceLine) {
    Clean(l.lineNo) && Clean(l.sku) && Clean(l.quantity) && Clean(l.uom) && Clean(l.unitPrice)
  }

  predicate CleanShip(l: ShipLine) { Clean(l.sku) && Clean(l.quantity) && Clean(l.uom) }

  ghost predicate AllReadable(segs: seq<Segment>) { forall i | 0 <= i < |segs| :: Readable(segs[i]) }

  lemma {:induction false} DigitsClean(s: string)
    requires AllDigits(s)
    ensures Clean(s)
  {
  }

  lemma {:induction false} ZerosClean(s: string, width: nat)
    requires Clean(s)
    ensures Clean(PadZeros(s, width))
    decreases if |s| < width then width - |s| else 0
  {
    if |s| < width {
      assert Clean("0" + s);
      ZerosClean("0" + s, width);
    }
  }

  lemma {:induction false} SpacesPlain(s: string, width: nat)
    requires Plain(s)
    ensures Plain(PadSpaces(s, width))
    decreases if |s| < width then width - |s| else 0
  {
    if |s| < width { SpacesPlain(s + " ", width); }
  }

  /** A word of capitals and digits, as segment names and codes are. */
  predicate Word(s: string) { forall i | 0 <= i < |s| :: 'A' <= s[i] <= 'Z' || IsDigit(s[i]) }

  lemma {:induction false} WordClean(s: string)
    requires Word(s)
    ensures Clean(s)
  {
  }

  lemma {:induction false} BodyWords()
    ensures Word("") && Word("00") && Word("AC") && Word("EA") && Word("IA") && Word("VP") && Word("S")
    ensures Word("O") && Word("I") && Word("1") && Word("2")
  {
  }

  lemma {:induction false} NameWords()
    ensures Word("BAK") && Word("PO1") && Word("ACK") && Word("CTT") && Word("BIG") && Word("IT1") && Word("TDS")
    ensures Word("BSN") && Word("HL") && Word("PRF") && Word("LIN") && Word("SN1")
    ensures Word("855") && Word("PR") && Word("810") && Word("IN") && Word("856") && Word("SH")
  {
  }

  lemma {:induction false} FrameWords()
    ensures Word("ISA") && Word("GS") && Word("ST") && Word("SE") && Word("GE") && Word("IEA")
    ensures Word("00") && Word("ZZ") && Word("U") && Word("00401") && Word("0") && Word("P") && Word("X")
    ensures Word("004010") && Word("1")
  {
  }

  lemma {:induction false} WordsClean()
    ensures Clean("") && Clean("00") && Clean("AC") && Clean("EA") && Clean("IA") && Clean("VP") && Clean("S")
    ensures Clean("O") && Clean("I") && Clean("1") && Clean("2")
    ensures Clean("BAK") && Clean("PO1") && Clean("ACK") && Clean("CTT") && Clean("BIG") && Clean("IT1") && Clean("TDS")
    ensures Clean("BSN") && Clean("HL") && Clean("PRF") && Clean("LIN") && Clean("SN1")
    ensures Clean("855") && Clean("PR") && Clean("810") && Clean("IN") && Clean("856") && Clean("SH")
  {
    BodyWords();
    NameWords();
    hide Word, Clean;
    forall s | Word(s) ensures Clean(s) { WordClean(s); }
  }

  lemma {:induction false} FrameWordsClean()
    ensures Clean("ISA") && Clean("GS") && Clean("ST") && Clean("SE") && Clean("GE") && Clean("IEA")
    ensures Clean("00") && Clean("ZZ") && Clean("U") && Clean("00401") && Clean("0") && Clean("P") && Clean(">")
    ensures Clean("X") && Clean("004010") && Clean("1")
  {
    FrameWords();
    assert Clean(">");
    hide Word, Clean;
    forall s | Word(s) ensures Clean(s) { WordClean(s); }
  }

  /** A segment whose last element is clean is readable whatever white space pads the inner ones. */
  lemma {:induction false} ReadableSegment(s: Segment)
    requires s[0] != "" && Clean(s[0]) && Clean(s[|s| - 1]) && forall i | 0 <= i < |s| :: Plain(s[i])
    ensures Readable(s)
  {
  }

  lemma {:induction false} ReadableClean(s: Segment)
    requires s[0] != "" && forall i | 0 <= i < |s| :: Clean(s[i])
    ensures Readable(s)
  {
    ReadableSegment(s);
  }

  lemma {:induction false} IsaReadable(env: Envelope)
    requires CleanEnvelope(env)
    ensures Readable(Isa(env))
  {
    FrameWordsClean();
    SpacesPlain("", 10);
    SpacesPlain(env.senderId, 15);
    SpacesPlain(env.receiverId, 15);
    ZerosClean(env.controlNumber, 9);
    assert Plain(env.date[2..]);
    hide PadSpaces, PadZeros, Without, Tight;
    ReadableSegment(Isa(env));
  }

  lemma {:induction false} HeaderReadable(env: Envelope, txnSet: string, functionalId: string)
    requires CleanEnvelope(env) && Clean(txnSet) && Clean(functionalId)
    ensures AllReadable(Header(env, txnSet, functionalId))
  {
    IsaReadable(env);
    FrameWordsClean();
    ZerosClean(env.controlNumber, 4);
    var header := Header(env, txnSet, functionalId);
    hide Isa, PadZeros, Clean, Readable;
    ReadableClean(header[1]);
    ReadableClean(header[2]);
  }

  lemma {:induction false} TrailerReadable(env: Envelope, count: nat)
    requires CleanEnvelope(env)
    ensures AllReadable(Trailer(env, count))
  {
    FrameWordsClean();
    DigitsClean(Itoa(count));
    ZerosClean(env.controlNumber, 4);
    ZerosClean(env.controlNumber, 9);
    var trailer := Trailer(env, count);
    hide PadZeros, Itoa, Clean, Readable;
    ReadableClean(trailer[0]);
    ReadableClean(trailer[1]);
    ReadableClean(trailer[2]);
  }

  lemma {:induction false} DocumentReadable(env: Envelope, txnSet: string, functionalId: string, body: seq<Segment>)
    requires CleanEnvelope(env) && Clean(txnSet) && Clean(functionalId) && AllReadable(body)
    ensures AllReadable(Document(env, txnSet, functionalId, body))
  {
    HeaderReadable(env, txnSet, functionalId);
    TrailerReadable(env, |body| + 2);
    hide Header, Trailer, Readable, Clean;
  }

  lemma {:induction false} AckReadable(lines: seq<AckLine>)
    requires forall i | 0 <= i < |lines| :: CleanAck(lines[i])
    ensures AllReadable(AckSegments(lines))
  {
    if lines != [] {
      var n := |lines| - 1;
      assert AckSegments(lines) == AckSegments(lines[..n]) + [Po1(lines[n])] + [Ack(lines[n])];
      hide Readable, Po1, Ack, CleanAck, AckSegments;
      AckReadable(lines[..n]);
      AckPairReadable(lines[n]);
    }
  }

  lemma {:induction false} AckPairReadable(l: AckLine)
    requires CleanAck(l)
    ensures Readable(Po1(l)) && Readable(Ack(l))
  {
    WordsClean();
    hide Clean, Readable;
    ReadableClean(Po1(l));
    ReadableClean(Ack(l));
  }

  lemma {:induction false} InvoiceReadable(lines: seq<InvoiceLine>)
    requires forall i | 0 <= i < |lines| :: CleanInvoice(lines[i])
    ensures AllReadable(InvoiceSegments(lines))
  {
    if lines != [] {
      var n := |lines| - 1;
      InvoiceReadable(lines[..n]);
      It1Readable(lines[n]);
      hide Readable, It1;
    }
  }

  lemma {:induction false} It1Readable(l: InvoiceLine)
    requires CleanInvoice(l)
    ensures Readable(It1(l))
  {
    WordsClean();
    hide Clean, Readable;
    ReadableClean(It1(l));
  }

  lemma {:induction false} ShipReadable(lines: seq<ShipLine>)
    requires forall i | 0 <= i < |lines| :: CleanShip(lines[i])
    ensures AllReadable(ShipSegments(lines))
  {
    if lines != [] {
      var n := |lines| - 1;
      ShipReadable(lines[..n]);
      ShipTripleReadable(lines[n], 3 + n);
      hide Readable, Hl, Lin, Sn1;
    }
  }

  lemma {:induction false} ShipTripleReadable(l: ShipLine, id: nat)
    requires CleanShip(l)
    ensures Readable(Hl(id, "2", "I")) && Readable(Lin(l)) && Readable(Sn1(l))
  {
    WordsClean();
    DigitsClean(Itoa(id));
    hide Clean, Readable, Itoa;
    ReadableClean(Hl(id, "2", "I"));
    ReadableClean(Lin(l));
    ReadableClean(Sn1(l));
  }

  // ---- what a reader finds ------------------------------------------------

  /** Reading an encoded acknowledgement gives exactly the segments that were written. */
  lemma {:induction false} Reads855(env: Envelope, poNumber: string, lines: seq<AckLine>)
    requires CleanEnvelope(env) && Clean(poNumber) && forall i | 0 <= i < |lines| :: CleanAck(lines[i])
    ensures var doc := Document(env, "855", "PR", Body855(env, poNumber, lines));
            Trimmed(Split(Text(doc), SEG_TERM)) == doc
  {
    WordsClean();
    AckReadable(lines);
    DigitsClean(Itoa(|lines|));
    hide Clean, Readable, AckSegments, Itoa, Text, Trimmed, Split;
    ReadableClean(Bak(env, poNumber));
    ReadableClean(Ctt(|lines|));
    hide Bak, Ctt;
    assert AllReadable(Body855(env, poNumber, lines));
    DocumentReadable(env, "855", "PR", Body855(env, poNumber, lines));
    ReadsBack(Document(env, "855", "PR", Body855(env, poNumber, lines)));
  }

  lemma {:induction false} Reads810(env: Envelope, invoiceNumber: string, poNumber: string, total: string, lines: seq<InvoiceLine>)
    requires CleanEnvelope(env) && Clean(invoiceNumber) && Clean(poNumber) && Clean(total)
    requires forall i | 0 <= i < |lines| :: CleanInvoice(lines[i])
    ensures var doc := Document(env, "810", "IN", Body810(env, invoiceNumber, poNumber, total, lines));
            Trimmed(Split(Text(doc), SEG_TERM)) == doc
  {
    WordsClean();
    InvoiceReadable(lines);
    DigitsClean(Itoa(|lines|));
    hide Clean, Readable, InvoiceSegments, Itoa, Text, Trimmed, Split;
    ReadableClean(Big(env, invoiceNumber, poNumber));
    ReadableClean(Tds(total));
    ReadableClean(Ctt(|lines|));
    hide Big, Tds, Ctt;
    assert AllReadable(Body810(env, invoiceNumber, poNumber, total, lines));
    DocumentReadable(env, "810", "IN", Body810(env, invoiceNumber, poNumber, total, lines));
    ReadsBack(Document(env, "810", "IN", Body810(env, invoiceNumber, poNumber, total, lines)));
  }

  lemma {:induction false} Reads856(env: Envelope, shipmentRef: string, poNumber: string, lines: seq<ShipLine>)
    requires CleanEnvelope(env) && Clean(shipmentRef) && Clean(poNumber)
    requires forall i | 0 <= i < |lines| :: CleanShip(lines[i])
    ensures var doc := Document(env, "856", "SH", Body856(env, shipmentRef, poNumber, lines));
            Trimmed(Split(Text(doc), SEG_TERM)) == doc
  {
    WordsClean();
    ShipReadable(lines);
    DigitsClean(Itoa(1));
    DigitsClean(Itoa(2));
    hide Clean, Readable, ShipSegments, Itoa, Text, Trimmed, Split;
    ReadableClean(Bsn(env, shipmentRef));
    ReadableClean(Hl(1, "", "S"));
    ReadableClean(Hl(2, "1", "O"));
    ReadableClean(Prf(poNumber));
    hide Bsn, Prf, Hl;
    assert AllReadable(Body856(env, shipmentRef, poNumber, lines));
    DocumentReadable(env, "856", "SH", Body856(env, shipmentRef, poNumber, lines));
    ReadsBack(Document(env, "856", "SH", Body856(env, shipmentRef, poNumber, lines)));
  }

  /** In every interchange SE01 counts the segments from ST to SE, and the control numbers of ISA and IEA, GS and GE,
      ST and SE match. */
  lemma {:induction false} EnvelopeConsistent(env: Envelope, txnSet: string, functionalId: string, body: seq<Segment>)
    requires |env.date| >= 2
    ensures var doc := Document(env, txnSet, functionalId, body);
            var n := |doc|;
            n >= 6 && doc[2][..2] == ["ST", txnSet] && |doc[n - 3]| == 3 && doc[n - 3][0] == "SE" &&
            doc[n - 3][1] == Itoa(|doc[2..n - 2]|) &&
            |doc[0]| == 17 && |doc[1]| == 9 && |doc[2]| == 3 && |doc[n - 2]| == 3 && |doc[n - 1]| == 3 &&
            doc[0][0] == "ISA" && doc[n - 1][0] == "IEA" && doc[0][13] == doc[n - 1][2] &&
            doc[1][0] == "GS" && doc[n - 2][0] == "GE" && doc[1][6] == doc[n - 2][2] &&
            doc[2][2] == doc[n - 3][2]
  {
    hide PadSpaces, PadZeros, Itoa;
    var doc := Document(env, txnSet, functionalId, body);
    var n := |doc|;
    var header, trailer := Header(env, txnSet, functionalId), Trailer(env, |body| + 2);
    assert doc[0] == header[0] && doc[1] == header[1] && doc[2] == header[2];
    assert doc[n - 3] == trailer[0] && doc[n - 2] == trailer[1] && doc[n - 1] == trailer[2];
    assert |doc[2..n - 2]| == |body| + 2;
  }

  lemma {:induction false} NamedConcat(a: seq<Segment>, b: seq<Segment>, name: string)
    ensures Named(a + b, name) == Named(a, name) + Named(b, name)
  {
    if b == [] {
      assert a + b == a;
    } else {
      var n := |b| - 1;
      assert (a + b)[..|a + b| - 1] == a + b[..n];
      NamedConcat(a, b[..n], name);
    }
  }

  lemma {:induction false} NamedPush(segs: seq<Segment>, s: Segment, name: string)
    ensures Named(segs + [s], name) == Named(segs, name) + if s[0] == name then [s] else []
  {
    assert (segs + [s])[..|segs|] == segs;
  }

  lemma {:induction false} NamedNone(segs: seq<Segment>, name: string)
    requires forall i | 0 <= i < |segs| :: segs[i][0] != name
    ensures Named(segs, name) == []
  {
    if segs != [] { NamedNone(segs[..|segs| - 1], name); }
  }

  /** The named segments of a document are those of its body when no envelope segment has the name. */
  lemma {:induction false} NamedInDocument(env: Envelope, txnSet: string, functionalId: string, body: seq<Segment>, name: string)
    requires |env.date| >= 2 && name !in {"ISA", "GS", "ST", "SE", "GE", "IEA"}
    ensures Named(Document(env, txnSet, functionalId, body), name) == Named(body, name)
  {
    hide PadSpaces, PadZeros, Itoa;
    var header, trailer := Header(env, txnSet, functionalId), Trailer(env, |body| + 2);
    assert header[0][0] == "ISA" && header[1][0] == "GS" && header[2][0] == "ST";
    assert trailer[0][0] == "SE" && trailer[1][0] == "GE" && trailer[2][0] == "IEA";
    NamedNone(header, name);
    NamedNone(trailer, name);
    NamedConcat(header, body, name);
    NamedConcat(header + body, trailer, name);
  }

  function Po1s(lines: seq<AckLine>): (r: seq<Segment>)
    ensures |r| == |lines| && forall i | 0 <= i < |lines| :: r[i] == Po1(lines[i])
  {
    seq(|lines|, i requires 0 <= i < |lines| => Po1(lines[i]))
  }

  lemma {:induction false} AckNames(lines: seq<AckLine>, name: string)
    requires lines != []
    ensures var n := |lines| - 1;
            Named(AckSegments(lines), name) ==
            Named(AckSegments(lines[..n]), name) +
            (if name == "PO1" then [Po1(lines[n])] else []) + (if name == "ACK" then [Ack(lines[n])] else [])
  {
    var n := |lines| - 1;
    var earlier, po1, ack := AckSegments(lines[..n]), Po1(lines[n]), Ack(lines[n]);
    assert po1[0] == "PO1" && ack[0] == "ACK";
    assert AckSegments(lines) == earlier + [po1] + [ack];
    hide AckSegments, Po1, Ack, Named;
    NamedPush(earlier, po1, name);
    NamedPush(earlier + [po1], ack, name);
  }

  lemma {:induction false} NamedPo1(lines: seq<AckLine>)
    ensures Named(AckSegments(lines), "PO1") == Po1s(lines)
  {
    if lines != [] {
      var n := |lines| - 1;
      NamedPo1(lines[..n]);
      AckNames(lines, "PO1");
    }
  }

  /** What a buyer reads in an acknowledgement's PO1: the line as it was acknowledged, in eaches by default. */
  function Acknowledged(l: AckLine): POLine { POLine(l.lineNo, l.sku, Def(l.uom, "EA"), l.quantity, l.unitPrice) }

  lemma {:induction false} Po1ReadsBack(l: AckLine)
    requires CleanAck(l)
    ensures LineOf(Po1(l)) == Acknowledged(l)
  {
    TightTrims(l.lineNo);
    TightTrims(l.quantity);
    TightTrims(l.unitPrice);
    TightTrims(Def(l.uom, "EA"));
    hide TrimSpace;
    var s := Po1(l);
    assert |s| == 8 && s[6] == "VP" && s[7] == l.sku;
    assert FirstValue(s, 8, true) == "" && FirstValue(s, 8, false) == "";
  }

  /** Reading the PO1 segments of an encoded 855 as the 850 parser does recovers every acknowledged line, and CTT01 is
      their number. */
  lemma {:induction false} AckLinesRecovered(env: Envelope, poNumber: string, lines: seq<AckLine>)
    requires CleanEnvelope(env) && Clean(poNumber) && forall i | 0 <= i < |lines| :: CleanAck(lines[i])
    ensures var segs := Trimmed(Split(Text(Document(env, "855", "PR", Body855(env, poNumber, lines))), SEG_TERM));
            var found := LinesOf(Named(segs, "PO1"));
            |found| == |lines| && (forall i | 0 <= i < |lines| :: found[i] == Acknowledged(lines[i])) &&
            Named(segs, "CTT") == [["CTT", Itoa(|found|)]]
  {
    Reads855(env, poNumber, lines);
    NamedInDocument(env, "855", "PR", Body855(env, poNumber, lines), "PO1");
    NamedInDocument(env, "855", "PR", Body855(env, poNumber, lines), "CTT");
    NamedBody855(env, poNumber, lines);
    hide Document, Body855, Text, Split, Trimmed, Named, LineOf, Po1, Itoa;
    forall i | 0 <= i < |lines| ensures LineOf(Po1(lines[i])) == Acknowledged(lines[i]) {
      assert CleanAck(lines[i]);
      Po1ReadsBack(lines[i]);
    }
  }

  lemma {:induction false} NamedBody855(env: Envelope, poNumber: string, lines: seq<AckLine>)
    ensures Named(Body855(env, poNumber, lines), "PO1") == Po1s(lines)
    ensures Named(Body855(env, poNumber, lines), "CTT") == [Ctt(|lines|)]
  {
    var bak, ctt := Bak(env, poNumber), Ctt(|lines|);
    assert bak[0] == "BAK" && ctt[0] == "CTT";
    NamedPo1(lines);
    NoCtt(lines);
    assert Body855(env, poNumber, lines) == [bak] + AckSegments(lines) + [ctt];
    hide Bak, Ctt, AckSegments, Named;
    forall name ensures Named([bak] + AckSegments(lines) + [ctt], name) ==
      Named([bak], name) + Named(AckSegments(lines), name) + if ctt[0] == name then [ctt] else []
    {
      NamedConcat([bak], AckSegments(lines), name);
      NamedPush([bak] + AckSegments(lines), ctt, name);
    }
    NamedNone([bak], "PO1");
    NamedNone([bak], "CTT");
  }

  lemma {:induction false} NoCtt(lines: seq<AckLine>)
    ensures Named(AckSegments(lines), "CTT") == []
  {
    if lines != [] {
      var n := |lines| - 1;
      NoCtt(lines[..n]);
      AckNames(lines, "CTT");
    }
  }

  lemma {:induction false} NamedInvoice(lines: seq<InvoiceLine>)
    ensures |Named(InvoiceSegments(lines), "IT1")| == |lines| && Named(InvoiceSegments(lines), "CTT") == []
  {
    if lines != [] {
      var n := |lines| - 1;
      NamedInvoice(lines[..n]);
      assert It1(lines[n])[0] == "IT1";
    }
  }

  /** In an invoice CTT01 is the number of IT1 segments. */
  lemma {:induction false} InvoiceCounted(env: Envelope, invoiceNumber: string, poNumber: string, total: string, lines: seq<InvoiceLine>)
    requires |env.date| >= 2
    ensures var doc := Document(env, "810", "IN", Body810(env, invoiceNumber, poNumber, total, lines));
            |Named(doc, "IT1")| == |lines| && Named(doc, "CTT") == [["CTT", Itoa(|Named(doc, "IT1")|)]]
  {
    var big, tds, ctt := Big(env, invoiceNumber, poNumber), Tds(total), Ctt(|lines|);
    assert big[0] == "BIG" && tds[0] == "TDS" && ctt[0] == "CTT";
    NamedInvoice(lines);
    var body := Body810(env, invoiceNumber, poNumber, total, lines);
    var it1s := InvoiceSegments(lines);
    assert body == [big] + it1s + [tds] + [ctt];
    NamedInDocument(env, "810", "IN", body, "IT1");
    NamedInDocument(env, "810", "IN", body, "CTT");
    hide Document, Big, Tds, Body810, InvoiceSegments, Itoa, Named;
    forall name ensures Named(body, name) ==
      Named([big], name) + Named(it1s, name) + (if tds[0] == name then [tds] else []) + (if ctt[0] == name then [ctt] else [])
    {
      NamedConcat([big], it1s, name);
      NamedPush([big] + it1s, tds, name);
      NamedPush([big] + it1s + [tds], ctt, name);
    }
    NamedNone([big], "IT1");
    NamedNone([big], "CTT");
  }

  lemma {:induction false} NamedShip(lines: seq<ShipLine>)
    ensures var hls := Named(ShipSegments(lines), "HL");
            |hls| == |lines| && forall i | 0 <= i < |lines| :: hls[i] == Hl(3 + i, "2", "I")
  {
    if lines != [] {
      var n := |lines| - 1;
      NamedShip(lines[..n]);
      var hl, lin, sn1 := Hl(3 + n, "2", "I"), Lin(lines[n]), Sn1(lines[n]);
      assert hl[0] == "HL" && lin[0] == "LIN" && sn1[0] == "SN1";
      var earlier := ShipSegments(lines[..n]);
      assert ShipSegments(lines) == earlier + [hl] + [lin] + [sn1];
      hide Hl, Lin, Sn1, ShipSegments, Named;
      NamedPush(earlier, hl, "HL");
      NamedPush(earlier + [hl], lin, "HL");
      NamedPush(earlier + [hl] + [lin], sn1, "HL");
    }
  }

  /** The hierarchy of an advance ship notice: ids 1 to n+2 in order, the shipment without a parent, the order under
      the shipment, every item under the order. */
  lemma {:induction false} HierarchyWellFormed(env: Envelope, shipmentRef: string, poNumber: string, lines: seq<ShipLine>)
    requires |env.date| >= 2
    ensures var hls := Named(Document(env, "856", "SH", Body856(env, shipmentRef, poNumber, lines)), "HL");
            |hls| == |lines| + 2 &&
            (forall i | 0 <= i < |hls| :: |hls[i]| == 4 && hls[i][1] == Itoa(i + 1)) &&
            hls[0][2] == "" && hls[1][2] == hls[0][1] && (forall i | 2 <= i < |hls| :: hls[i][2] == hls[1][1])
  {
    NamedInDocument(env, "856", "SH", Body856(env, shipmentRef, poNumber, lines), "HL");
    NamedShip(lines);
    NamedHead(env, shipmentRef, poNumber);
    NamedConcat(ShipHead(env, shipmentRef, poNumber), ShipSegments(lines), "HL");
    hide Document, ShipHead, ShipSegments, Named;
    var hls := Named(Document(env, "856", "SH", Body856(env, shipmentRef, poNumber, lines)), "HL");
    assert hls == [Hl(1, "", "S"), Hl(2, "1", "O")] + Named(ShipSegments(lines), "HL");
    SmallNumerals();
  }

  lemma {:induction false} NamedHead(env: Envelope, shipmentRef: string, poNumber: string)
    ensures Named(ShipHead(env, shipmentRef, poNumber), "HL") == [Hl(1, "", "S"), Hl(2, "1", "O")]
  {
    var bsn, h1, h2, prf := Bsn(env, shipmentRef), Hl(1, "", "S"), Hl(2, "1", "O"), Prf(poNumber);
    assert bsn[0] == "BSN" && h1[0] == "HL" && h2[0] == "HL" && prf[0] == "PRF";
    assert ShipHead(env, shipmentRef, poNumber) == [bsn] + [h1] + [h2] + [prf];
    hide Bsn, Hl, Prf, ShipHead, Named;
    NamedNone([bsn], "HL");
    NamedPush([bsn], h1, "HL");
    NamedPush([bsn] + [h1], h2, "HL");
    NamedPush([bsn] + [h1] + [h2], prf, "HL");
  }

  lemma {:induction false} SmallNumerals()
    ensures Itoa(1) == "1" && Itoa(2) == "2"
  {
  }

  // ---- what each document says, element by element ------------------------

  /** A fixed-width text: the value, then spaces up to the width. */
  predicate Padded(r: string, s: string, width: nat) {
    s <= r && |r| == (if |s| < width then width else |s|) && forall i | |s| <= i < |r| :: r[i] == ' '
  }

  lemma {:induction false} PadSpacesIs(s: string, width: nat)
    ensures Padded(PadSpaces(s, width), s, width)
    decreases if |s| < width then width - |s| else 0
  {
    if |s| < width { PadSpacesIs(s + " ", width); }
  }

  /** A control number: zeros up to the width, then the value. */
  predicate ZeroPadded(r: string, s: string, width: nat) {
    |r| == (if |s| < width then width else |s|) && r[|r| - |s|..] == s && forall i | 0 <= i < |r| - |s| :: r[i] == '0'
  }

  lemma {:induction false} PadZerosIs(s: string, width: nat)
    ensures ZeroPadded(PadZeros(s, width), s, width)
    decreases if |s| < width then width - |s| else 0
  {
    if |s| < width { PadZerosIs("0" + s, width); }
  }

  lemma {:induction false} InterchangeSays(env: Envelope)
    requires |env.date| >= 2
    ensures var isa := Isa(env);
            && |isa| == 17 && isa[0] == "ISA" && isa[1] == "00" && isa[3] == "00" && Padded(isa[2], "", 10) && Padded(isa[4], "", 10)
            && isa[5] == "ZZ" && Padded(isa[6], env.senderId, 15) && isa[7] == "ZZ" && Padded(isa[8], env.receiverId, 15)
            && isa[9] == env.date[2..] && isa[10] == env.time && isa[11] == "U" && isa[12] == "00401"
            && ZeroPadded(isa[13], env.controlNumber, 9) && isa[14] == "0" && isa[15] == "P" && isa[16] == ">"
  {
    hide PadSpaces, PadZeros, Padded, ZeroPadded;
    PadSpacesIs("", 10);
    PadSpacesIs(env.senderId, 15);
    PadSpacesIs(env.receiverId, 15);
    PadZerosIs(env.controlNumber, 9);
    var isa := Isa(env);
    assert isa[2] == isa[4] == PadSpaces("", 10) && isa[6] == PadSpaces(env.senderId, 15);
    assert isa[8] == PadSpaces(env.receiverId, 15) && isa[13] == PadZeros(env.controlNumber, 9);
  }

  /** The envelope of every document: qualified sender and receiver in fifteen characters each, date (without its century in
      ISA) and time, usage and version, the control number in nine digits, plain, and four digits, the set's own number and
      functional group; then the body, then the trailers with the number of segments in the set. */
  lemma {:induction false} EnvelopeSays(env: Envelope, txnSet: string, functionalId: string, body: seq<Segment>)
    requires |env.date| >= 2
    ensures var doc := Document(env, txnSet, functionalId, body);
            && |doc| == |body| + 6 && doc[3..|body| + 3] == body
            && (var isa := doc[0];
                && |isa| == 17 && isa[0] == "ISA" && isa[1] == "00" && isa[3] == "00" && Padded(isa[2], "", 10) && Padded(isa[4], "", 10)
                && isa[5] == "ZZ" && Padded(isa[6], env.senderId, 15) && isa[7] == "ZZ" && Padded(isa[8], env.receiverId, 15)
                && isa[9] == env.date[2..] && isa[10] == env.time && isa[11] == "U" && isa[12] == "00401"
                && ZeroPadded(isa[13], env.controlNumber, 9) && isa[14] == "0" && isa[15] == "P" && isa[16] == ">")
            && doc[1] == ["GS", functionalId, env.senderId, env.receiverId, env.date, env.time, env.controlNumber, "X", "004010"]
            && |doc[2]| == 3 && doc[2][0] == "ST" && doc[2][1] == txnSet && ZeroPadded(doc[2][2], env.controlNumber, 4)
            && |doc[|body| + 3]| == 3 && doc[|body| + 3][0] == "SE" && doc[|body| + 3][1] == Itoa(|body| + 2)
            && doc[|body| + 3][2] == doc[2][2] && doc[|body| + 4] == ["GE", "1", env.controlNumber]
            && |doc[|body| + 5]| == 3 && doc[|body| + 5][0] == "IEA" && doc[|body| + 5][1] == "1" && doc[|body| + 5][2] == doc[0][13]
  {
    InterchangeSays(env);
    PadZerosIs(env.controlNumber, 4);
    FramesSay(env, txnSet, functionalId, |body| + 2);
    var header, trailer := Header(env, txnSet, functionalId), Trailer(env, |body| + 2);
    assert Document(env, txnSet, functionalId, body) == header + body + trailer;
    hide *;
    var doc := header + body + trailer;
    assert doc[0] == header[0] && doc[1] == header[1] && doc[2] == header[2] && doc[3..|body| + 3] == body;
    assert doc[|body| + 3] == trailer[0] && doc[|body| + 4] == trailer[1] && doc[|body| + 5] == trailer[2];
  }

  lemma {:induction false} FramesSay(env: Envelope, txnSet: string, functionalId: string, count: nat)
    requires |env.date| >= 2
    ensures var h, t := Header(env, txnSet, functionalId), Trailer(env, count);
            && |h| == 3 && h[0] == Isa(env)
            && h[1] == ["GS", functionalId, env.senderId, env.receiverId, env.date, env.time, env.controlNumber, "X", "004010"]
            && h[2] == ["ST", txnSet, PadZeros(env.controlNumber, 4)]
            && |t| == 3 && t[0] == ["SE", Itoa(count), PadZeros(env.controlNumber, 4)] && t[1] == ["GE", "1", env.controlNumber]
            && t[2] == ["IEA", "1", PadZeros(env.controlNumber, 9)] && Isa(env)[13] == PadZeros(env.controlNumber, 9)
  {
    hide PadSpaces, PadZeros, Itoa;
  }

  function Unit(uom: string): string { if uom == "" then "EA" else uom }

  lemma {:induction false} AckSegmentAt(lines: seq<AckLine>, i: nat)
    requires i < |lines|
    ensures |AckSegments(lines)| == 2 * |lines|
    ensures var l := lines[i];
            && AckSegments(lines)[2 * i] == ["PO1", l.lineNo, l.quantity, Unit(l.uom), l.unitPrice, "", "VP", l.sku]
            && AckSegments(lines)[2 * i + 1] == ["ACK", if l.status == "" then "IA" else l.status, l.quantity, Unit(l.uom)]
  {
    var n := |lines| - 1;
    if n > 0 { AckSegmentAt(lines[..n], if i < n then i else 0); } else { assert AckSegments(lines[..0]) == []; }
  }

  /** An acknowledgement names the order it answers and its date, acknowledges every line in order with its item number,
      quantity, unit, price, product and status, and counts the lines. */
  lemma {:induction false} AcknowledgementSays(env: Envelope, poNumber: string, lines: seq<AckLine>)
    ensures var body := Body855(env, poNumber, lines);
            && |body| == 2 * |lines| + 2 && body[0] == ["BAK", "00", "AC", poNumber, "", env.date] && body[2 * |lines| + 1] == ["CTT", Itoa(|lines|)]
            && forall i | 0 <= i < |lines| ::
                 var l := lines[i];
                 && body[2 * i + 1] == ["PO1", l.lineNo, l.quantity, Unit(l.uom), l.unitPrice, "", "VP", l.sku]
                 && body[2 * i + 2] == ["ACK", if l.status == "" then "IA" else l.status, l.quantity, Unit(l.uom)]
  {
    hide Itoa, AckSegments;
    if lines == [] { assert AckSegments([]) == [] by { NoAcks(); } } else { AckSegmentAt(lines, 0); }
    forall i | 0 <= i < |lines|
      ensures var l, body := lines[i], Body855(env, poNumber, lines);
              && body[2 * i + 1] == ["PO1", l.lineNo, l.quantity, Unit(l.uom), l.unitPrice, "", "VP", l.sku]
              && body[2 * i + 2] == ["ACK", if l.status == "" then "IA" else l.status, l.quantity, Unit(l.uom)]
    {
      AckSegmentAt(lines, i);
    }
  }

  lemma {:induction false} NoAcks()
    ensures AckSegments([]) == []
  {
  }

  lemma {:induction false} InvoiceSegmentAt(lines: seq<InvoiceLine>, i: nat)
    requires i < |lines|
    ensures |InvoiceSegments(lines)| == |lines|
    ensures var l := lines[i]; InvoiceSegments(lines)[i] == ["IT1", l.lineNo, l.quantity, Unit(l.uom), l.unitPrice, "", "VP", l.sku]
  {
    var n := |lines| - 1;
    if n > 0 { InvoiceSegmentAt(lines[..n], if i < n then i else 0); } else { assert InvoiceSegments(lines[..0]) == []; }
  }

  /** An invoice names its date, its number and the order, bills every line in order, and gives the total and the count. */
  lemma {:induction false} InvoiceSays(env: Envelope, invoiceNumber: string, poNumber: string, total: string, lines: seq<InvoiceLine>)
    ensures var body := Body810(env, invoiceNumber, poNumber, total, lines);
            && |body| == |lines| + 3 && body[0] == ["BIG", env.date, invoiceNumber, "", poNumber]
            && body[|lines| + 1] == ["TDS", total] && body[|lines| + 2] == ["CTT", Itoa(|lines|)]
            && forall i | 0 <= i < |lines| ::
                 var l := lines[i]; body[i + 1] == ["IT1", l.lineNo, l.quantity, Unit(l.uom), l.unitPrice, "", "VP", l.sku]
  {
    if lines == [] { assert InvoiceSegments([]) == []; } else { InvoiceSegmentAt(lines, 0); }
    hide Itoa, InvoiceSegments;
    forall i | 0 <= i < |lines|
      ensures var l := lines[i]; Body810(env, invoiceNumber, poNumber, total, lines)[i + 1] == ["IT1", l.lineNo, l.quantity, Unit(l.uom), l.unitPrice, "", "VP", l.sku]
    {
      InvoiceSegmentAt(lines, i);
    }
  }

  lemma {:induction false} ShipSegmentAt(lines: seq<ShipLine>, i: nat)
    requires i < |lines|
    ensures |ShipSegments(lines)| == 3 * |lines|
    ensures var l := lines[i];
            && ShipSegments(lines)[3 * i] == ["HL", Itoa(i + 3), "2", "I"]
            && ShipSegments(lines)[3 * i + 1] == ["LIN", "", "VP", l.sku]
            && ShipSegments(lines)[3 * i + 2] == ["SN1", "", l.quantity, Unit(l.uom)]
  {
    hide Itoa;
    var n := |lines| - 1;
    if n > 0 { ShipSegmentAt(lines[..n], if i < n then i else 0); } else { assert ShipSegments(lines[..0]) == []; }
  }

  /** Three segments for one product: its level under the order, its number, its quantity and unit. */
  predicate ListsLine(body: seq<Segment>, l: ShipLine, i: nat) {
    3 * i + 6 < |body| && body[3 * i + 4] == ["HL", Itoa(i + 3), "2", "I"] && body[3 * i + 5] == ["LIN", "", "VP", l.sku] &&
    body[3 * i + 6] == ["SN1", "", l.quantity, Unit(l.uom)]
  }

  lemma {:induction false} ListsLineAt(head: seq<Segment>, lines: seq<ShipLine>, i: nat)
    requires |head| == 4 && i < |lines|
    ensures ListsLine(head + ShipSegments(lines), lines[i], i)
  {
    ShipSegmentAt(lines, i);
    hide Itoa, ShipSegments;
    var segs := ShipSegments(lines);
    assert (head + segs)[3 * i + 4] == segs[3 * i] && (head + segs)[3 * i + 5] == segs[3 * i + 1] && (head + segs)[3 * i + 6] == segs[3 * i + 2];
  }

  /** A ship notice names the shipment, its date and time, and the order, and lists every product with its quantity and unit
      at a level of its own. */
  lemma {:induction false} ShipNoticeSays(env: Envelope, shipmentRef: string, poNumber: string, lines: seq<ShipLine>)
    ensures var body := Body856(env, shipmentRef, poNumber, lines);
            && |body| == 3 * |lines| + 4 && body[0] == ["BSN", "00", shipmentRef, env.date, env.time]
            && body[1] == ["HL", "1", "", "S"] && body[2] == ["HL", "2", "1", "O"] && body[3] == ["PRF", poNumber]
            && forall i | 0 <= i < |lines| :: ListsLine(body, lines[i], i)
  {
    SmallNumerals();
    if lines == [] { assert ShipSegments([]) == []; } else { ShipSegmentAt(lines, 0); }
    var head := ShipHead(env, shipmentRef, poNumber);
    assert |head| == 4;
    hide Itoa, ShipSegments, ListsLine;
    forall i | 0 <= i < |lines| ensures ListsLine(Body856(env, shipmentRef, poNumber, lines), lines[i], i) { ListsLineAt(head, lines, i); }
  }

  // ---- what is read from an 850 -------------------------------------------

  /** A pair of a PO1 holds a number: from element 6 on, a qualifier and a value that is not empty. */
  predicate PairAt(s: Segment, m: nat) { 7 + 2 * m < |s| && s[7 + 2 * m] != "" }

  predicate VendorPairAt(s: Segment, m: nat) { PairAt(s, m) && s[6 + 2 * m] in {"VP", "VN"} }

  lemma {:induction false} FirstValueIs(s: Segment, m: nat, vendor: bool) returns (k: nat)
    ensures var r := FirstValue(s, 6 + 2 * m, vendor);
            if r == "" then forall j: nat | m <= j :: !(if vendor then VendorPairAt(s, j) else PairAt(s, j))
            else m <= k && (if vendor then VendorPairAt(s, k) else PairAt(s, k)) && r == s[7 + 2 * k] &&
                 forall j | m <= j < k :: !(if vendor then VendorPairAt(s, j) else PairAt(s, j))
    decreases |s| - 2 * m
  {
    k := m;
    if 7 + 2 * m < |s| && !(s[7 + 2 * m] != "" && (!vendor || s[6 + 2 * m] == "VP" || s[6 + 2 * m] == "VN")) {
      k := FirstValueIs(s, m + 1, vendor);
    }
  }

  /** The product of a PO1 is the first vendor part number, else the first number of any kind, else nothing. */
  lemma {:induction false} ProductIs(s: Segment) returns (k: nat)
    ensures if exists j: nat :: VendorPairAt(s, j) then
              VendorPairAt(s, k) && ProductId(s) == s[7 + 2 * k] && forall j | 0 <= j < k :: !VendorPairAt(s, j)
            else if exists j: nat :: PairAt(s, j) then
              PairAt(s, k) && ProductId(s) == s[7 + 2 * k] && forall j | 0 <= j < k :: !PairAt(s, j)
            else ProductId(s) == ""
  {
    var a := FirstValueIs(s, 0, true);
    var b := FirstValueIs(s, 0, false);
    hide FirstValue;
    k := if FirstValue(s, 6, true) != "" then a else b;
  }

  /** The i-th segment is the last of its name. */
  predicate LastOf(segs: seq<Segment>, name: string, i: nat) {
    i < |segs| && segs[i][0] == name && forall j | i < j < |segs| :: segs[j][0] != name
  }

  lemma {:induction false} NoneNamed(segs: seq<Segment>, name: string)
    ensures Named(segs, name) == [] <==> forall i | 0 <= i < |segs| :: segs[i][0] != name
  {
    if segs != [] {
      var n := |segs| - 1;
      NoneNamed(segs[..n], name);
      assert forall i | 0 <= i < n :: segs[..n][i] == segs[i];
    }
  }

  lemma {:induction false} LastNamed(segs: seq<Segment>, name: string, i: nat)
    requires LastOf(segs, name, i)
    ensures Named(segs, name) != [] && Named(segs, name)[|Named(segs, name)| - 1] == segs[i]
  {
    var n := |segs| - 1;
    if i < n {
      assert LastOf(segs[..n], name, i);
      LastNamed(segs[..n], name, i);
    }
  }

  /** The element of the last segment of a name, without surrounding white space; empty when there is none. */
  ghost predicate Reads(segs: seq<Segment>, name: string, element: nat, value: string) {
    if exists i | 0 <= i < |segs| :: segs[i][0] == name then
      exists i: nat :: LastOf(segs, name, i) && value == if element < |segs[i]| then TrimSpace(segs[i][element]) else ""
    else value == ""
  }

  lemma {:induction false} FieldReads(segs: seq<Segment>, name: string, element: nat)
    ensures Reads(segs, name, element, LastField(segs, name, element))
  {
    NoneNamed(segs, name);
    hide Named, TrimSpace;
    if exists i | 0 <= i < |segs| :: segs[i][0] == name {
      var i := FindLast(segs, name);
      LastNamed(segs, name, i);
    }
  }

  lemma {:induction false} FindLast(segs: seq<Segment>, name: string) returns (i: nat)
    requires exists j | 0 <= j < |segs| :: segs[j][0] == name
    ensures LastOf(segs, name, i)
  {
    var n := |segs| - 1;
    if segs[n][0] == name { i := n; } else { i := FindLast(segs[..n], name); }
  }

  /** What an 850 is read as.  It is refused when no ST announces an 850, then when no number is given in the last BEG, then
      when there is no PO1, then for the first PO1 without product or quantity; else number and date are those of the last
      BEG, the currency that of the last CUR, USD when none is given, and there is one line for each PO1, in order, with its
      elements and its product. */
  lemma {:induction false} OrderReads(segs: seq<Segment>)
    ensures var po1s := Named(segs, "PO1");
            match Order(segs)
            case Err(NotAn850) => forall i | 0 <= i < |segs| && segs[i][0] == "ST" :: |segs[i]| < 2 || segs[i][1] != "850"
            case Err(MissingNumber) => (exists i | 0 <= i < |segs| :: segs[i][0] == "ST" && |segs[i]| > 1 && segs[i][1] == "850") && Reads(segs, "BEG", 3, "")
            case Err(NoLines) => !Reads(segs, "BEG", 3, "") && po1s == []
            case Err(BadLine(k)) => k < |po1s| && !GivesLine(po1s[k]) && forall i | 0 <= i < k :: GivesLine(po1s[i])
            case Ok(po) =>
              && (exists i | 0 <= i < |segs| :: segs[i][0] == "ST" && |segs[i]| > 1 && segs[i][1] == "850")
              && po.number != "" && Reads(segs, "BEG", 3, po.number) && Reads(segs, "BEG", 5, po.date)
              && (Reads(segs, "CUR", 2, "") ==> po.currency == "USD") && (!Reads(segs, "CUR", 2, "") ==> Reads(segs, "CUR", 2, po.currency))
              && |po.lines| == |po1s| > 0
              && forall k | 0 <= k < |po1s| ::
                   GivesLine(po1s[k]) &&
                   po.lines[k] == POLine(Element(po1s[k], 1), ProductId(po1s[k]), Element(po1s[k], 3), Element(po1s[k], 2), Element(po1s[k], 4))
  {
    FieldReads(segs, "BEG", 3);
    FieldReads(segs, "BEG", 5);
    FieldReads(segs, "CUR", 2);
    forall a, b | Reads(segs, "BEG", 3, a) && Reads(segs, "BEG", 3, b) ensures a == b { ReadsOne(segs, "BEG", 3, a, b); }
    forall a, b | Reads(segs, "CUR", 2, a) && Reads(segs, "CUR", 2, b) ensures a == b { ReadsOne(segs, "CUR", 2, a, b); }
    var lines := LinesOf(Named(segs, "PO1"));
    forall k | 0 <= k < |lines| ensures Usable(lines[k]) <==> GivesLine(Named(segs, "PO1")[k]) { LineGives(Named(segs, "PO1")[k]); }
    hide Named, LastField, Reads, TrimSpace, ProductId, GivesLine, Usable;
  }

  function Element(s: Segment, i: nat): string { if i < |s| then TrimSpace(s[i]) else "" }

  predicate GivesLine(s: Segment) { ProductId(s) != "" && Element(s, 2) != "" }

  lemma {:induction false} LineGives(s: Segment)
    ensures Usable(LineOf(s)) <==> GivesLine(s)
  {
    hide ProductId, TrimSpace;
  }

  lemma {:induction false} ReadsOne(segs: seq<Segment>, name: string, element: nat, a: string, b: string)
    requires Reads(segs, name, element, a) && Reads(segs, name, element, b)
    ensures a == b
  {
    hide TrimSpace;
    if exists i | 0 <= i < |segs| :: segs[i][0] == name {
      var i: nat :| LastOf(segs, name, i) && a == if element < |segs[i]| then TrimSpace(segs[i][element]) else "";
      var j: nat :| LastOf(segs, name, j) && b == if element < |segs[j]| then TrimSpace(segs[j][element]) else "";
      assert i == j;
    }
  }
}
