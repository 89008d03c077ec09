/** The worksheet writer (internal/export/xlsx.go): A1 references, escaping, and a reader for the grammar it emits. */
module Sheet {
  import opened Prelude

  datatype Column = Column(name: string, numeric: bool)

  datatype Table = Table(columns: seq<Column>, rows: seq<seq<string>>)

  // ---- references ---------------------------------------------------------

  function Letter(d: nat): char
    requires d < 26
  {
    'A' + d as char
  }

  /** Bijective base 26: A, B, ..., Z, AA, ... for 1, 2, ..., 26, 27, ... and nothing for 0. */
  function Letters(k: nat): string {
    if k == 0 then "" else Letters((k - 1) / 26) + [Letter((k - 1) % 26)]
  }

  method ColLetters(col: nat) returns (s: string)
    ensures s == Letters(col + 1)
  {
    s := "";
    var c: nat := col + 1;
    while c > 0
      invariant Letters(c) + s == Letters(col + 1)
    {
      var k := c - 1;
      assert Letters(c) + s == Letters(k / 26) + ([Letter(k % 26)] + s);
      s := [Letter(k % 26)] + s;
      c := k / 26;
    }
  }

  predicate Capitals(s: string) { forall i | 0 <= i < |s| :: 'A' <= s[i] <= 'Z' }

  function Number(s: string): nat
    requires Capitals(s)
  {
    if s == "" then 0 else Number(s[..|s| - 1]) * 26 + (s[|s| - 1] as int - 'A' as int + 1)
  }

  lemma {:induction false} LettersNumber(k: nat)
    ensures Capitals(Letters(k)) && Number(Letters(k)) == k
  {
    if k > 0 {
      var rest, last := Letters((k - 1) / 26), Letter((k - 1) % 26);
      LettersNumber((k - 1) / 26);
      assert (rest + [last])[..|rest|] == rest;
    }
  }

  lemma {:induction false} NumberLetters(s: string)
    requires Capitals(s)
    ensures Letters(Number(s)) == s
  {
    if s != "" {
      var n := |s| - 1;
      NumberLetters(s[..n]);
      assert s == s[..n] + [s[n]];
      var d := s[n] as int - 'A' as int;
      assert Number(s) - 1 == Number(s[..n]) * 26 + d;
      assert (Number(s) - 1) / 26 == Number(s[..n]) && (Number(s) - 1) % 26 == d;
    }
  }

  /** Column is 0-based, row 1-based. */
  function CellRef(col: nat, row: nat): string { Letters(col + 1) + Itoa(row) }

  function LettersLength(s: string): (k: nat)
    ensures k <= |s| && Capitals(s[..k]) && (k < |s| ==> !('A' <= s[k] <= 'Z'))
  {
    if s == "" || !('A' <= s[0] <= 'Z') then 0 else 1 + LettersLength(s[1..])
  }

  /** The (column, row) an A1 reference names. */
  function ReadRef(ref: string): Option<(nat, nat)> {
    var k := LettersLength(ref);
    if k == 0 || k == |ref| || !AllDigits(ref[k..]) then None
    else Some((Number(ref[..k]) - 1, Atoi(ref[k..])))
  }

  /** A reference decodes to the column and row it was built from, so distinct cells have distinct references. */
  lemma {:induction false} RefReadsBack(col: nat, row: nat)
    ensures ReadRef(CellRef(col, row)) == Some((col, row))
    ensures forall i | 0 <= i < |CellRef(col, row)| :: CellRef(col, row)[i] != '"'
  {
    var letters, digits := Letters(col + 1), Itoa(row);
    LettersNumber(col + 1);
    AtoiItoa(row);
    hide Letters, Itoa;
    LettersThenDigits(letters, digits);
    assert (letters + digits)[..|letters|] == letters && (letters + digits)[|letters|..] == digits;
  }

  lemma {:induction false} LettersThenDigits(letters: string, digits: string)
    requires Capitals(letters) && AllDigits(digits)
    ensures LettersLength(letters + digits) == |letters|
  {
    if letters != "" {
      assert (letters + digits)[1..] == letters[1..] + digits;
      LettersThenDigits(letters[1..], digits);
    }
  }

  /** The letters of a column: every non-empty word of capitals names exactly one column, and back. */
  lemma {:induction false} ColumnsBijective(col: nat, s: string)
    requires Capitals(s) && s != ""
    ensures Letters(col + 1) == s <==> Number(s) == col + 1
    ensures Number(s) > 0
  {
    LettersNumber(col + 1);
    NumberLetters(s);
  }

  // ---- escaping -----------------------------------------------------------

  const AMP := "&amp;"
  const LT := "&lt;"
  const GT := "&gt;"

  function EscapeChar(c: char): string { if c == '&' then AMP else if c == '<' then LT else if c == '>' then GT else [c] }

  function EscapeText(s: string): string { if s == "" then "" else EscapeChar(s[0]) + EscapeText(s[1..]) }

  /** Character data back to text, for the three entities the writer uses. */
  function Unescape(s: string): string
    decreases |s|
  {
    if s == "" then ""
    else if AMP <= s then "&" + Unescape(s[5..])
    else if LT <= s then "<" + Unescape(s[4..])
    else if GT <= s then ">" + Unescape(s[4..])
    else [s[0]] + Unescape(s[1..])
  }

  predicate Without(s: string, c: char) { forall i | 0 <= i < |s| :: s[i] != c }

  lemma {:induction false} EscapeReadsBack(s: string)
    ensures Unescape(EscapeText(s)) == s && Without(EscapeText(s), '<')
  {
    if s != "" {
      EscapeReadsBack(s[1..]);
      var rest := EscapeText(s[1..]);
      UnescapeStep(s[0], rest);
    }
  }

  lemma {:induction false} UnescapeStep(c: char, rest: string)
    ensures Unescape(EscapeChar(c) + rest) == [c] + Unescape(rest)
    ensures Without(rest, '<') ==> Without(EscapeChar(c) + rest, '<')
  {
    var s := EscapeChar(c) + rest;
    if c == '&' {
      assert s[5..] == rest;
    } else if c == '<' {
      assert s[1] == 'l' && s[4..] == rest;
    } else if c == '>' {
      assert s[1] == 'g' && s[4..] == rest;
    } else {
      assert s[0] == c && s[1..] == rest;
    }
  }

  lemma {:induction false} UnescapePlain(s: string)
    requires Without(s, '&')
    ensures Unescape(s) == s
  {
    if s != "" {
      UnescapePlain(s[1..]);
      assert s[0] != '&' && AMP[0] == '&' && LT[0] == '&' && GT[0] == '&';
      assert [s[0]] + s[1..] == s;
    }
  }

  // ---- the emitted grammar ------------------------------------------------

  datatype Cell = Cell(ref: string, numeric: bool, value: string)

  datatype Row = Row(number: nat, cells: seq<Cell>)

  const PROLOG := "<?xml version=\"1.0\" encoding=\"UTF-8\" standalone=\"yes\"?><worksheet xmlns=\"http://schemas.openxmlformats.org/spreadsheetml/2006/main\"><sheetData>"
  const EPILOG := "</sheetData></worksheet>"
  const ROW_OPEN := "<row r=\""
  const ROW_MID := "\">"
  const ROW_CLOSE := "</row>"
  const CELL_OPEN := "<c r=\""
  const TEXT_MID := "\" t=\"inlineStr\"><is><t xml:space=\"preserve\">"
  const TEXT_CLOSE := "</t></is></c>"
  const NUM_MID := "\"><v>"
  const NUM_CLOSE := "</v></c>"

  function CellXml(c: Cell): string {
    if c.numeric then CELL_OPEN + (c.ref + (NUM_MID + (c.value + NUM_CLOSE)))
    else CELL_OPEN + (c.ref + (TEXT_MID + (EscapeText(c.value) + TEXT_CLOSE)))
  }

  function CellsXml(cells: seq<Cell>): string {
    if cells == [] then "" else CellXml(cells[0]) + CellsXml(cells[1..])
  }

  function RowXml(r: Row): string { ROW_OPEN + (Itoa(r.number) + (ROW_MID + (CellsXml(r.cells) + ROW_CLOSE))) }

  function RowsXml(rows: seq<Row>): string { if rows == [] then "" else RowXml(rows[0]) + RowsXml(rows[1..]) }

  function SheetXml(rows: seq<Row>): string { PROLOG + (RowsXml(rows) + EPILOG) }

  /** What a table becomes: a header row of text cells, then its rows; a cell is numeric when its column is and its
      text is a number. `parses` is the source's number test. */
  function HeaderCells(t: Table): (r: seq<Cell>)
    ensures |r| == |t.columns|
    ensures forall i | 0 <= i < |r| :: r[i] == Cell(CellRef(i, 1), false, t.columns[i].name)
  {
    seq(|t.columns|, i requires 0 <= i < |t.columns| => Cell(CellRef(i, 1), false, t.columns[i].name))
  }

  predicate IsNumeric(t: Table, parses: string -> bool, i: nat, val: string) {
    i < |t.columns| && t.columns[i].numeric && val != "" && parses(val)
  }

  function RowCells(t: Table, parses: string -> bool, row: seq<string>, number: nat): (r: seq<Cell>)
    ensures |r| == |row|
    ensures forall i | 0 <= i < |r| :: r[i] == Cell(CellRef(i, number), IsNumeric(t, parses, i, row[i]), row[i])
  {
    seq(|row|, i requires 0 <= i < |row| => Cell(CellRef(i, number), IsNumeric(t, parses, i, row[i]), row[i]))
  }

  function DataRows(t: Table, parses: string -> bool): (r: seq<Row>)
    ensures |r| == |t.rows|
    ensures forall k | 0 <= k < |r| :: r[k] == Row(k + 2, RowCells(t, parses, t.rows[k], k + 2))
  {
    seq(|t.rows|, k requires 0 <= k < |t.rows| => Row(k + 2, RowCells(t, parses, t.rows[k], k + 2)))
  }

  function SheetOf(t: Table, parses: string -> bool): seq<Row> { [Row(1, HeaderCells(t))] + DataRows(t, parses) }

  // ---- the writer ---------------------------------------------------------

  lemma {:induction false} CellsAppend(cells: seq<Cell>, c: Cell)
    ensures CellsXml(cells + [c]) == CellsXml(cells) + CellXml(c)
  {
    hide CellXml;
    if cells == [] {
      assert [c][1..] == [];
    } else {
      assert (cells + [c])[1..] == cells[1..] + [c];
      CellsAppend(cells[1..], c);
    }
  }

  lemma {:induction false} RowsAppend(rows: seq<Row>, r: Row)
    ensures RowsXml(rows + [r]) == RowsXml(rows) + RowXml(r)
  {
    hide RowXml;
    if rows == [] {
      assert [r][1..] == [];
    } else {
      assert (rows + [r])[1..] == rows[1..] + [r];
      RowsAppend(rows[1..], r);
    }
  }

  method WriteStringCell(b: string, ref: string, val: string) returns (r: string)
    ensures r == b + CellXml(Cell(ref, false, val))
  {
    hide EscapeText;
    r := b + CELL_OPEN;
    r := r + ref;
    r := r + TEXT_MID;
    r := r + EscapeText(val);
    r := r + TEXT_CLOSE;
    Regroup(b, CELL_OPEN, ref, TEXT_MID, EscapeText(val), TEXT_CLOSE);
  }

  method WriteNumberCell(b: string, ref: string, val: string) returns (r: string)
    ensures r == b + CellXml(Cell(ref, true, val))
  {
    hide EscapeText;
    r := b + CELL_OPEN;
    r := r + ref;
    r := r + NUM_MID;
    r := r + val;
    r := r + NUM_CLOSE;
    Regroup(b, CELL_OPEN, ref, NUM_MID, val, NUM_CLOSE);
  }

  lemma {:induction false} Regroup(a: string, b: string, c: string, d: string, e: string, f: string)
    ensures a + b + c + d + e + f == a + (b + (c + (d + (e + f))))
  {
  }

  method WriteSheet(t: Table, parses: string -> bool) returns (b: string)
    ensures b == SheetXml(SheetOf(t, parses))
  {
    hide CellXml, CellsXml, RowXml, RowsXml, CellRef, Letters, Itoa;
    var rows := "";
    var header := HeaderRow(t);
    rows := rows + header;
    ghost var done := [Row(1, HeaderCells(t))];
    assert rows == RowsXml(done) by { RowsAppend([], done[0]); RowsEmpty(); assert [] + done == done; }
    for k := 0 to |t.rows|
      invariant done == [Row(1, HeaderCells(t))] + DataRows(t, parses)[..k]
      invariant rows == RowsXml(done)
    {
      var row := DataRow(t, parses, t.rows[k], k + 2);
      RowsAppend(done, Row(k + 2, RowCells(t, parses, t.rows[k], k + 2)));
      rows := rows + row;
      done := done + [Row(k + 2, RowCells(t, parses, t.rows[k], k + 2))];
    }
    assert done == SheetOf(t, parses);
    b := PROLOG + (rows + EPILOG);
  }

  lemma {:induction false} RowsEmpty()
    ensures RowsXml([]) == "" && CellsXml([]) == ""
  {
  }

  method HeaderRow(t: Table) returns (b: string)
    ensures b == RowXml(Row(1, HeaderCells(t)))
  {
    hide CellXml, CellsXml, CellRef, Itoa;
    var cells := "";
    RowsEmpty();
    for i := 0 to |t.columns|
      invariant cells == CellsXml(HeaderCells(t)[..i])
    {
      var ref := WriteRef(i, 1);
      assert HeaderCells(t)[..i + 1] == HeaderCells(t)[..i] + [Cell(ref, false, t.columns[i].name)];
      CellsAppend(HeaderCells(t)[..i], Cell(ref, false, t.columns[i].name));
      cells := WriteStringCell(cells, ref, t.columns[i].name);
    }
    assert HeaderCells(t)[..|t.columns|] == HeaderCells(t);
    b := ROW_OPEN + (Itoa(1) + (ROW_MID + (cells + ROW_CLOSE)));
  }

  method DataRow(t: Table, parses: string -> bool, row: seq<string>, number: nat) returns (b: string)
    ensures b == RowXml(Row(number, RowCells(t, parses, row, number)))
  {
    hide CellXml, CellsXml, CellRef, Itoa;
    var cells := "";
    RowsEmpty();
    ghost var all := RowCells(t, parses, row, number);
    for i := 0 to |row|
      invariant cells == CellsXml(all[..i])
    {
      var ref := WriteRef(i, number);
      assert all[..i + 1] == all[..i] + [all[i]];
      CellsAppend(all[..i], all[i]);
      if i < |t.columns| && t.columns[i].numeric && row[i] != "" && parses(row[i]) {
        cells := WriteNumberCell(cells, ref, row[i]);
      } else {
        cells := WriteStringCell(cells, ref, row[i]);
      }
    }
    assert all[..|row|] == all;
    b := ROW_OPEN + (Itoa(number) + (ROW_MID + (cells + ROW_CLOSE)));
  }

  method WriteRef(col: nat, row: nat) returns (r: string)
    ensures r == CellRef(col, row)
  {
    var letters := ColLetters(col);
    r := letters + Itoa(row);
  }
}
