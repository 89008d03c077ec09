/** A reader for the sheets internal/export/xlsx.go emits, and the proof that it gets every cell back. */
module SheetReading {
  import opened Prelude
  import opened Sheet

  // ---- the reader ---------------------------------------------------------

  /** The rest of s after a literal. */
  function After(p: string, s: string): Option<string> { if p <= s then Some(s[|p|..]) else None }

  /** The part of s before a character, and the rest starting with it; the whole of s when it is absent. */
  function UpTo(s: string, c: char): nat { if s == "" || s[0] == c then 0 else 1 + UpTo(s[1..], c) }

  lemma {:induction false} UpToBound(s: string, c: char)
    ensures UpTo(s, c) <= |s|
  {
    if s != "" && s[0] != c { UpToBound(s[1..], c); }
  }

  /** A cell's content: the closing literal must follow the text that runs up to the next tag. */
  function ReadContent(ref: string, numeric: bool, s: string, close: string): Option<(Cell, string)> {
    UpToBound(s, '<');
    var k := UpTo(s, '<');
    match After(close, s[k..])
    case None => None
    case Some(rest) => Some((Cell(ref, numeric, Unescape(s[..k])), rest))
  }

  function ReadCell(s: string): Option<(Cell, string)> {
    match After(CELL_OPEN, s)
    case None => None
    case Some(t) =>
      UpToBound(t, '"');
      var k := UpTo(t, '"');
      var ref, u := t[..k], t[k..];
      match After(TEXT_MID, u)
      case Some(v) => ReadContent(ref, false, v, TEXT_CLOSE)
      case None =>
        match After(NUM_MID, u)
        case Some(v) => ReadContent(ref, true, v, NUM_CLOSE)
        case None => None
  }

  lemma {:induction false} ReadCellShrinks(s: string)
    ensures ReadCell(s).Some? ==> |ReadCell(s).value.1| < |s|
  {
    assert |CELL_OPEN| == 6;
    if After(CELL_OPEN, s).Some? {
      var t := After(CELL_OPEN, s).value;
      UpToBound(t, '"');
      var u := t[UpTo(t, '"')..];
      if After(TEXT_MID, u).Some? { UpToBound(After(TEXT_MID, u).value, '<'); }
      if After(NUM_MID, u).Some? { UpToBound(After(NUM_MID, u).value, '<'); }
    }
  }

  /** Cells as long as one starts here. */
  function ReadCells(s: string): (seq<Cell>, string)
    decreases |s|
  {
    ReadCellShrinks(s);
    match ReadCell(s)
    case None => ([], s)
    case Some((c, rest)) => var (more, end) := ReadCells(rest); ([c] + more, end)
  }

  lemma {:induction false} ReadCellsShrinks(s: string)
    ensures |ReadCells(s).1| <= |s|
    decreases |s|
  {
    ReadCellShrinks(s);
    hide ReadCell;
    if ReadCell(s).Some? { ReadCellsShrinks(ReadCell(s).value.1); }
  }

  function ReadRow(s: string): Option<(Row, string)> {
    match After(ROW_OPEN, s)
    case None => None
    case Some(t) =>
      UpToBound(t, '"');
      var k := UpTo(t, '"');
      if !AllDigits(t[..k]) then None
      else match After(ROW_MID, t[k..])
        case None => None
        case Some(u) =>
          var (cells, v) := ReadCells(u);
          match After(ROW_CLOSE, v)
          case None => None
          case Some(rest) => Some((Row(Atoi(t[..k]), cells), rest))
  }

  lemma {:induction false} ReadRowShrinks(s: string)
    ensures ReadRow(s).Some? ==> |ReadRow(s).value.1| < |s|
  {
    hide ReadCells;
    if After(ROW_OPEN, s).Some? {
      var t := After(ROW_OPEN, s).value;
      UpToBound(t, '"');
      if After(ROW_MID, t[UpTo(t, '"')..]).Some? { ReadCellsShrinks(After(ROW_MID, t[UpTo(t, '"')..]).value); }
    }
  }

  function ReadRows(s: string): (seq<Row>, string)
    decreases |s|
  {
    ReadRowShrinks(s);
    match ReadRow(s)
    case None => ([], s)
    case Some((r, rest)) => var (more, end) := ReadRows(rest); ([r] + more, end)
  }

  /** A whole sheet: prolog, rows, epilog and nothing else. */
  function ReadSheet(s: string): Option<seq<Row>> {
    match After(PROLOG, s)
    case None => None
    case Some(t) => var (rows, end) := ReadRows(t); if end == EPILOG then Some(rows) else None
  }

  // ---- reading what was written -------------------------------------------

  lemma {:induction false} AfterOwn(p: string, s: string)
    ensures After(p, p + s) == Some(s)
  {
  }

  lemma {:induction false} UpToFirst(a: string, c: char, b: string)
    requires Without(a, c) && b != "" && b[0] == c
    ensures UpTo(a + b, c) == |a| && (a + b)[..|a|] == a && (a + b)[|a|..] == b
  {
    if a != "" {
      assert (a + b)[1..] == a[1..] + b;
      UpToFirst(a[1..], c, b);
    } else {
      assert a + b == b;
    }
  }

  /** A cell the writer can emit: no quote in its reference, and no markup in a value it writes raw. */
  predicate Writable(c: Cell) {
    Without(c.ref, '"') && (c.numeric ==> Without(c.value, '<') && Without(c.value, '&'))
  }

  lemma {:induction false} ContentReadsBack(ref: string, numeric: bool, text: string, value: string, close: string, rest: string)
    requires Without(text, '<') && Unescape(text) == value && close != "" && close[0] == '<'
    ensures ReadContent(ref, numeric, text + (close + rest), close) == Some((Cell(ref, numeric, value), rest))
  {
    UpToFirst(text, '<', close + rest);
    AfterOwn(close, rest);
  }

  lemma {:induction false} Markers()
    ensures TEXT_MID[0] == '"' && NUM_MID[0] == '"' && TEXT_CLOSE[0] == '<' && NUM_CLOSE[0] == '<'
    ensures TEXT_MID[1] != NUM_MID[1] && ROW_MID[0] == '"'
  {
  }

  lemma {:induction false} NotTextMid(s: string)
    ensures After(TEXT_MID, NUM_MID + s) == None
  {
    Markers();
    assert (NUM_MID + s)[1] == NUM_MID[1];
  }

  lemma {:induction false} TextCellReadsBack(c: Cell, rest: string)
    requires Writable(c) && !c.numeric
    ensures ReadCell(CellXml(c) + rest) == Some((c, rest))
  {
    EscapeReadsBack(c.value);
    Markers();
    var text := EscapeText(c.value);
    var tail := TEXT_MID + (text + (TEXT_CLOSE + rest));
    assert CellXml(c) + rest == CELL_OPEN + (c.ref + tail) by {
      Tails(CELL_OPEN, c.ref, TEXT_MID, text, TEXT_CLOSE, rest);
    }
    hide EscapeText, Unescape, CellXml;
    AfterOwn(CELL_OPEN, c.ref + tail);
    assert tail[0] == '"';
    UpToFirst(c.ref, '"', tail);
    AfterOwn(TEXT_MID, text + (TEXT_CLOSE + rest));
    ContentReadsBack(c.ref, false, text, c.value, TEXT_CLOSE, rest);
    hide UpTo, After, ReadContent;
  }

  lemma {:induction false} NumberCellReadsBack(c: Cell, rest: string)
    requires Writable(c) && c.numeric
    ensures ReadCell(CellXml(c) + rest) == Some((c, rest))
  {
    UnescapePlain(c.value);
    Markers();
    var tail := NUM_MID + (c.value + (NUM_CLOSE + rest));
    assert CellXml(c) + rest == CELL_OPEN + (c.ref + tail) by {
      Tails(CELL_OPEN, c.ref, NUM_MID, c.value, NUM_CLOSE, rest);
    }
    hide Unescape, CellXml;
    AfterOwn(CELL_OPEN, c.ref + tail);
    assert tail[0] == '"';
    UpToFirst(c.ref, '"', tail);
    NotTextMid(c.value + (NUM_CLOSE + rest));
    AfterOwn(NUM_MID, c.value + (NUM_CLOSE + rest));
    ContentReadsBack(c.ref, true, c.value, c.value, NUM_CLOSE, rest);
    hide UpTo, After, ReadContent;
  }

  lemma {:induction false} Tails(a: string, b: string, c: string, d: string, e: string, rest: string)
    ensures (a + (b + (c + (d + e)))) + rest == a + (b + (c + (d + (e + rest))))
  {
  }

  lemma {:induction false} CellReadsBack(c: Cell, rest: string)
    requires Writable(c)
    ensures ReadCell(CellXml(c) + rest) == Some((c, rest))
  {
    if c.numeric { NumberCellReadsBack(c, rest); } else { TextCellReadsBack(c, rest); }
  }

  lemma {:induction false} NoCellHere(rest: string)
    ensures ReadCell(ROW_CLOSE + rest) == None
  {
    assert (ROW_CLOSE + rest)[1] == '/' && CELL_OPEN[1] == 'c';
  }

  lemma {:induction false} CellsReadBack(cells: seq<Cell>, rest: string)
    requires forall i | 0 <= i < |cells| :: Writable(cells[i])
    ensures ReadCells(CellsXml(cells) + (ROW_CLOSE + rest)) == (cells, ROW_CLOSE + rest)
  {
    hide ReadCell, CellXml, Writable;
    if cells == [] {
      NoCellHere(rest);
      assert CellsXml(cells) + (ROW_CLOSE + rest) == ROW_CLOSE + rest;
    } else {
      var tail := CellsXml(cells[1..]) + (ROW_CLOSE + rest);
      assert CellsXml(cells) + (ROW_CLOSE + rest) == CellXml(cells[0]) + tail;
      CellReadsBack(cells[0], tail);
      CellsReadBack(cells[1..], rest);
      assert [cells[0]] + cells[1..] == cells;
    }
  }

  lemma {:induction false} RowReadsBack(r: Row, rest: string)
    requires forall i | 0 <= i < |r.cells| :: Writable(r.cells[i])
    ensures ReadRow(RowXml(r) + rest) == Some((r, rest))
  {
    hide Writable;
    var digits := Itoa(r.number);
    AtoiItoa(r.number);
    assert Without(digits, '"');
    hide Itoa;
    var body := CellsXml(r.cells) + (ROW_CLOSE + rest);
    var tail := ROW_MID + body;
    Tails(ROW_OPEN, digits, ROW_MID, CellsXml(r.cells), ROW_CLOSE, rest);
    assert RowXml(r) + rest == ROW_OPEN + (digits + tail);
    CellsReadBack(r.cells, rest);
    Markers();
    hide RowXml, CellsXml, ReadCells;
    AfterOwn(ROW_OPEN, digits + tail);
    assert tail[0] == '"';
    UpToFirst(digits, '"', tail);
    AfterOwn(ROW_MID, body);
    AfterOwn(ROW_CLOSE, rest);
    hide UpTo, After;
  }

  lemma {:induction false} NoRowHere()
    ensures ReadRow(EPILOG) == None
  {
    assert EPILOG[1] == '/' && ROW_OPEN[1] == 'r';
  }

  lemma {:induction false} RowsReadBack(rows: seq<Row>)
    requires forall k, i | 0 <= k < |rows| && 0 <= i < |rows[k].cells| :: Writable(rows[k].cells[i])
    ensures ReadRows(RowsXml(rows) + EPILOG) == (rows, EPILOG)
  {
    hide ReadRow, RowXml, Writable;
    if rows == [] {
      NoRowHere();
      assert RowsXml(rows) + EPILOG == EPILOG;
    } else {
      var tail := RowsXml(rows[1..]) + EPILOG;
      assert RowsXml(rows) + EPILOG == RowXml(rows[0]) + tail;
      RowReadsBack(rows[0], tail);
      RowsReadBack(rows[1..]);
      assert [rows[0]] + rows[1..] == rows;
    }
  }

  /** A text the source takes for a number has no markup in it: digits, letters, sign, point, underscore. */
  ghost predicate NumbersPlain(parses: string -> bool) {
    forall s: string | parses(s) :: Without(s, '<') && Without(s, '&')
  }

  lemma {:induction false} SheetWritable(t: Table, parses: string -> bool, k: nat, i: nat)
    requires NumbersPlain(parses) && k < |SheetOf(t, parses)| && i < |SheetOf(t, parses)[k].cells|
    ensures Writable(SheetOf(t, parses)[k].cells[i])
    ensures ReadRef(SheetOf(t, parses)[k].cells[i].ref) == Some((i, k + 1))
  {
    RefReadsBack(i, k + 1);
    hide CellRef, ReadRef;
  }

  lemma {:induction false} ReadsRendered(rows: seq<Row>)
    requires forall k, i | 0 <= k < |rows| && 0 <= i < |rows[k].cells| :: Writable(rows[k].cells[i])
    ensures ReadSheet(SheetXml(rows)) == Some(rows)
  {
    RowsReadBack(rows);
    AfterOwn(PROLOG, RowsXml(rows) + EPILOG);
    hide RowsXml, ReadRows, Writable, After;
  }

  /** Reading the emitted sheet recovers it cell by cell: header names, every value, and which cells are numeric. */
  lemma {:induction false} SheetReadsBack(t: Table, parses: string -> bool)
    requires NumbersPlain(parses)
    ensures ReadSheet(SheetXml(SheetOf(t, parses))) == Some(SheetOf(t, parses))
    ensures |SheetOf(t, parses)| == |t.rows| + 1
    ensures forall i | 0 <= i < |t.columns| :: SheetOf(t, parses)[0].cells[i].value == t.columns[i].name
    ensures forall k, i | 0 <= k < |t.rows| && 0 <= i < |t.rows[k]| ::
              SheetOf(t, parses)[k + 1].cells[i].value == t.rows[k][i] &&
              (SheetOf(t, parses)[k + 1].cells[i].numeric <==>
                 i < |t.columns| && t.columns[i].numeric && t.rows[k][i] != "" && parses(t.rows[k][i]))
    ensures |SheetOf(t, parses)[0].cells| == |t.columns| && forall i | 0 <= i < |t.columns| :: !SheetOf(t, parses)[0].cells[i].numeric
    ensures forall k | 0 <= k < |t.rows| :: |SheetOf(t, parses)[k + 1].cells| == |t.rows[k]|
    ensures forall k | 0 <= k <= |t.rows| :: SheetOf(t, parses)[k].number == k + 1
  {
    var rows := SheetOf(t, parses);
    forall k, i | 0 <= k < |rows| && 0 <= i < |rows[k].cells| ensures Writable(rows[k].cells[i]) {
      SheetWritable(t, parses, k, i);
    }
    ReadsRendered(rows);
    hide CellRef, SheetXml, ReadSheet, Writable;
  }

  /** No two cells of a sheet share a reference, and each reference names its own column and row. */
  lemma {:induction false} RefsDistinct(t: Table, parses: string -> bool, k: nat, i: nat, m: nat, j: nat)
    requires NumbersPlain(parses)
    requires k < |SheetOf(t, parses)| && i < |SheetOf(t, parses)[k].cells|
    requires m < |SheetOf(t, parses)| && j < |SheetOf(t, parses)[m].cells|
    ensures ReadRef(SheetOf(t, parses)[k].cells[i].ref) == Some((i, k + 1))
    ensures SheetOf(t, parses)[k].cells[i].ref == SheetOf(t, parses)[m].cells[j].ref <==> k == m && i == j
  {
    SheetWritable(t, parses, k, i);
    SheetWritable(t, parses, m, j);
    hide CellRef, ReadRef;
  }
}
