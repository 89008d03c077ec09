/** The fragment of SQL a report compiles to: its abstract form, the text the compiler writes for it, and a reader that
    recovers the form from the text. */
module Sql {
  import opened Prelude

  datatype Column = Column(alias: string, name: string)

  datatype Expr = Field(col: Column) | Trunc(unit: string, col: Column)

  datatype Aggregate = CountRows | Fold(fn: string, col: Column)

  /** A selected key or measure with its output name. */
  datatype Item = Key(expr: Expr, name: string) | Measure(agg: Aggregate, name: string)

  /** One table, or a table joined to another where left = right. */
  datatype Source =
    | Table(table: string, alias: string)
    | Join(table: string, alias: string, joined: string, joinedAlias: string, left: Column, right: Column)

  /** A column compared with a numbered parameter. */
  datatype Condition = Condition(col: Column, op: string, param: nat)

  datatype Query = Query(items: seq<Item>, from: Source, where: seq<Condition>, groupBy: seq<Expr>, orderBy: Aggregate, limit: nat)

  // ---- text ---------------------------------------------------------------

  function ColumnText(c: Column): string { c.alias + "." + c.name }

  function ExprText(e: Expr): string {
    match e
    case Field(c) => ColumnText(c)
    case Trunc(unit, c) => "date_trunc('" + unit + "', " + ColumnText(c) + ")::date"
  }

  function AggregateText(a: Aggregate): string {
    match a
    case CountRows => "count(*)"
    case Fold(fn, c) => fn + "(" + ColumnText(c) + ")"
  }

  /** A selected expression, cast to text, with its output name. */
  function SelectText(expr: string, name: string): string { "(" + expr + ")::text AS " + name }

  function ItemText(i: Item): string {
    match i case Key(e, name) => SelectText(ExprText(e), name) case Measure(a, name) => SelectText(AggregateText(a), name)
  }

  function SourceText(s: Source): string {
    match s
    case Table(t, a) => t + " " + a
    case Join(t, a, u, b, l, r) => t + " " + a + " JOIN " + u + " " + b + " ON " + ColumnText(l) + " = " + ColumnText(r)
  }

  function ConditionText(c: Condition): string { ColumnText(c.col) + " " + c.op + " $" + Itoa(c.param) }

  function Joined(ss: seq<string>, sep: string): string {
    if ss == [] then "" else if |ss| == 1 then ss[0] else ss[0] + sep + Joined(ss[1..], sep)
  }

  function Texts<T>(text: T -> string, xs: seq<T>): (r: seq<string>)
    ensures |r| == |xs| && forall i | 0 <= i < |xs| :: r[i] == text(xs[i])
  {
    seq(|xs|, i requires 0 <= i < |xs| => text(xs[i]))
  }

  function GroupText(es: seq<Expr>): string { if es == [] then "" else " GROUP BY " + Joined(Texts(ExprText, es), ", ") }

  function QueryText(q: Query): string {
    "SELECT " + Joined(Texts(ItemText, q.items), ", ") + " FROM " + SourceText(q.from) + " WHERE "
    + Joined(Texts(ConditionText, q.where), " AND ") + GroupText(q.groupBy)
    + " ORDER BY " + AggregateText(q.orderBy) + " DESC LIMIT " + Itoa(q.limit)
  }

  // ---- reading ------------------------------------------------------------

  datatype Read<T> = Done(value: T, rest: string) | Bad

  predicate IsWordChar(c: char) { 'a' <= c <= 'z' || 'A' <= c <= 'Z' || IsDigit(c) || c == '_' }

  predicate IsOpChar(c: char) { c == '<' || c == '>' || c == '=' }

  predicate IsWord(s: string) { s != "" && forall i | 0 <= i < |s| :: IsWordChar(s[i]) }

  predicate IsOp(s: string) { s != "" && forall i | 0 <= i < |s| :: IsOpChar(s[i]) }

  /** Length of the longest prefix of matching characters. */
  function Run(p: char -> bool, s: string): (n: nat)
    ensures n <= |s|
  {
    if s != "" && p(s[0]) then 1 + Run(p, s[1..]) else 0
  }

  function ReadRun(p: char -> bool, s: string): Read<string> { Done(s[..Run(p, s)], s[Run(p, s)..]) }

  function ReadWord(s: string): Read<string> { ReadRun(IsWordChar, s) }

  /** Skips a literal. */
  function Skip(lit: string, s: string): Option<string> {
    if |lit| <= |s| && s[..|lit|] == lit then Some(s[|lit|..]) else None
  }

  function ReadNumber(s: string): Read<nat> {
    var w := ReadWord(s);
    if AllDigits(w.value) then Done(Atoi(w.value), w.rest) else Bad
  }

  function ReadColumn(s: string): Read<Column> {
    var a := ReadWord(s);
    match Skip(".", a.rest)
    case None => Bad
    case Some(r) => var n := ReadWord(r); Done(Column(a.value, n.value), n.rest)
  }

  function ReadExpr(s: string): Read<Expr> {
    var w := ReadWord(s);
    if w.value == "date_trunc" then
      match Skip("('", w.rest)
      case None => Bad
      case Some(r) =>
        var u := ReadWord(r);
        match Skip("', ", u.rest)
        case None => Bad
        case Some(r2) =>
          match ReadColumn(r2)
          case Bad => Bad
          case Done(c, r3) =>
            match Skip(")::date", r3)
            case None => Bad
            case Some(r4) => Done(Trunc(u.value, c), r4)
    else
      match ReadColumn(s)
      case Bad => Bad
      case Done(c, r) => Done(Field(c), r)
  }

  function ReadAggregate(s: string): Read<Aggregate> {
    var f := ReadWord(s);
    match Skip("(", f.rest)
    case None => Bad
    case Some(r) =>
      match Skip("*)", r)
      case Some(r2) => if f.value == "count" then Done(CountRows, r2) else Bad
      case None =>
        match ReadColumn(r)
        case Bad => Bad
        case Done(c, r3) =>
          match Skip(")", r3)
          case None => Bad
          case Some(r4) => Done(Fold(f.value, c), r4)
  }

  function ReadName(s: string): Read<string> {
    match Skip(")::text AS ", s)
    case None => Bad
    case Some(r) => ReadWord(r)
  }

  /** A measure is told from a key by the parenthesis after its first word. */
  function ReadItem(s: string): Read<Item> {
    match Skip("(", s)
    case None => Bad
    case Some(r) =>
      var w := ReadWord(r);
      if w.value != "date_trunc" && Skip("(", w.rest).Some? then
        match ReadAggregate(r)
        case Bad => Bad
        case Done(a, r2) =>
          match ReadName(r2)
          case Bad => Bad
          case Done(name, r3) => Done(Measure(a, name), r3)
      else
        match ReadExpr(r)
        case Bad => Bad
        case Done(e, r2) =>
          match ReadName(r2)
          case Bad => Bad
          case Done(name, r3) => Done(Key(e, name), r3)
  }

  function ReadSource(s: string): Read<Source> {
    var t := ReadWord(s);
    match Skip(" ", t.rest)
    case None => Bad
    case Some(r) =>
      var a := ReadWord(r);
      match Skip(" JOIN ", a.rest)
      case None => Done(Table(t.value, a.value), a.rest)
      case Some(r2) => ReadJoined(t.value, a.value, r2)
  }

  function ReadJoined(t: string, a: string, s: string): Read<Source> {
    var u := ReadWord(s);
    match Skip(" ", u.rest)
    case None => Bad
    case Some(r) =>
      var b := ReadWord(r);
      match Skip(" ON ", b.rest)
      case None => Bad
      case Some(r2) =>
        match ReadColumn(r2)
        case Bad => Bad
        case Done(left, r3) =>
          match Skip(" = ", r3)
          case None => Bad
          case Some(r4) =>
            match ReadColumn(r4)
            case Bad => Bad
            case Done(right, r5) => Done(Join(t, a, u.value, b.value, left, right), r5)
  }

  function ReadCondition(s: string): Read<Condition> {
    match ReadColumn(s)
    case Bad => Bad
    case Done(c, r) =>
      match Skip(" ", r)
      case None => Bad
      case Some(r2) =>
        var o := ReadRun(IsOpChar, r2);
        match Skip(" $", o.rest)
        case None => Bad
        case Some(r3) =>
          match ReadNumber(r3)
          case Bad => Bad
          case Done(k, r4) => Done(Condition(c, o.value, k), r4)
  }

  /** A non-empty list with a separator. */
  function ReadList<T>(read: string -> Read<T>, sep: string, s: string): Read<seq<T>>
    decreases |s|
  {
    match read(s)
    case Bad => Bad
    case Done(x, r) =>
      var more := Skip(sep, r);
      if more.Some? && |more.value| < |s| then
        match ReadList(read, sep, more.value)
        case Bad => Bad
        case Done(xs, r2) => Done([x] + xs, r2)
      else Done([x], r)
  }

  function ReadGroup(s: string): Read<seq<Expr>> {
    match Skip(" GROUP BY ", s)
    case None => Done([], s)
    case Some(r) => ReadList(ReadExpr, ", ", r)
  }

  function ReadTail(items: seq<Item>, from: Source, where: seq<Condition>, s: string): Option<Query> {
    match ReadGroup(s)
    case Bad => None
    case Done(groupBy, r) =>
      match Skip(" ORDER BY ", r)
      case None => None
      case Some(r2) =>
        match ReadAggregate(r2)
        case Bad => None
        case Done(orderBy, r3) =>
          match Skip(" DESC LIMIT ", r3)
          case None => None
          case Some(r4) =>
            var n := ReadNumber(r4);
            if n.Done? && n.rest == "" then Some(Query(items, from, where, groupBy, orderBy, n.value)) else None
  }

  function ReadQuery(s: string): Option<Query> {
    match Skip("SELECT ", s)
    case None => None
    case Some(r) =>
      match ReadList(ReadItem, ", ", r)
      case Bad => None
      case Done(items, r2) =>
        match Skip(" FROM ", r2)
        case None => None
        case Some(r3) =>
          match ReadSource(r3)
          case Bad => None
          case Done(from, r4) =>
            match Skip(" WHERE ", r4)
            case None => None
            case Some(r5) =>
              match ReadList(ReadCondition, " AND ", r5)
              case Bad => None
              case Done(where, r6) => ReadTail(items, from, where, r6)
  }

  // ---- names that can be read back ----------------------------------------

  predicate PlainColumn(c: Column) { IsWord(c.alias) && IsWord(c.name) && c.alias != "date_trunc" }

  predicate PlainExpr(e: Expr) { PlainColumn(e.col) && (e.Trunc? ==> IsWord(e.unit)) }

  predicate PlainAggregate(a: Aggregate) { a.Fold? ==> IsWord(a.fn) && a.fn != "date_trunc" && PlainColumn(a.col) }

  predicate PlainItem(i: Item) {
    IsWord(i.name) && match i case Key(e, _) => PlainExpr(e) case Measure(a, _) => PlainAggregate(a)
  }

  predicate PlainSource(s: Source) {
    IsWord(s.table) && IsWord(s.alias) &&
    (s.Join? ==> IsWord(s.joined) && IsWord(s.joinedAlias) && PlainColumn(s.left) && PlainColumn(s.right))
  }

  predicate PlainCondition(c: Condition) { PlainColumn(c.col) && IsOp(c.op) }

  predicate Plain(q: Query) {
    && q.items != [] && (forall i | 0 <= i < |q.items| :: PlainItem(q.items[i]))
    && PlainSource(q.from)
    && q.where != [] && (forall i | 0 <= i < |q.where| :: PlainCondition(q.where[i]))
    && (forall i | 0 <= i < |q.groupBy| :: PlainExpr(q.groupBy[i]))
    && PlainAggregate(q.orderBy)
  }

  // ---- reading back -------------------------------------------------------

  /** The text after a word, where the word must end. */
  predicate Stops(s: string) { s != "" ==> !IsWordChar(s[0]) }

  lemma {:induction false} RunReads(p: char -> bool, w: string, rest: string)
    requires forall i | 0 <= i < |w| :: p(w[i])
    requires rest != "" ==> !p(rest[0])
    ensures ReadRun(p, w + rest) == Done(w, rest)
  {
    if w == "" {
      assert w + rest == rest;
    } else {
      assert (w + rest)[1..] == w[1..] + rest;
      RunReads(p, w[1..], rest);
      assert ReadRun(p, w[1..] + rest) == Done(w[1..], rest);
      var n := Run(p, w[1..] + rest);
      assert (w[1..] + rest)[..n] == w[1..];
      assert Run(p, w + rest) == |w|;
    }
    assert (w + rest)[..|w|] == w && (w + rest)[|w|..] == rest;
  }

  lemma {:induction false} WordReads(w: string, rest: string)
    requires IsWord(w) && Stops(rest)
    ensures ReadWord(w + rest) == Done(w, rest)
  {
    RunReads(IsWordChar, w, rest);
  }

  lemma {:induction false} SkipReads(lit: string, rest: string)
    ensures Skip(lit, lit + rest) == Some(rest)
  {
    assert (lit + rest)[..|lit|] == lit && (lit + rest)[|lit|..] == rest;
  }

  lemma {:induction false} NumberReads(n: nat, rest: string)
    requires Stops(rest)
    ensures ReadNumber(Itoa(n) + rest) == Done(n, rest)
  {
    WordReads(Itoa(n), rest);
    AtoiItoa(n);
    hide Itoa, Atoi, ReadWord;
  }

  lemma {:induction false} Assoc(a: string, b: string, c: string)
    ensures a + b + c == a + (b + c)
  {
  }

  /** A concatenation, regrouped to the right. */
  lemma {:induction false} Assoc4(a: string, b: string, c: string, d: string)
    ensures a + b + c + d == a + (b + (c + d))
  {
  }

  lemma {:induction false} ColumnReads(c: Column, rest: string)
    requires PlainColumn(c) && Stops(rest)
    ensures ReadColumn(ColumnText(c) + rest) == Done(c, rest)
  {
    hide ReadWord, Skip, IsWord;
    var dot := "." + (c.name + rest);
    Assoc4(c.alias, ".", c.name, rest);
    assert dot[0] == '.';
    WordReads(c.alias, dot);
    SkipReads(".", c.name + rest);
    WordReads(c.name, rest);
  }

  lemma {:induction false} ColumnStarts(c: Column, rest: string)
    requires PlainColumn(c)
    ensures ReadWord(ColumnText(c) + rest) == Done(c.alias, "." + (c.name + rest))
  {
    hide ReadWord, IsWord;
    Assoc4(c.alias, ".", c.name, rest);
    assert ("." + (c.name + rest))[0] == '.';
    WordReads(c.alias, "." + (c.name + rest));
  }

  lemma {:induction false} TruncWord()
    ensures IsWord("date_trunc") && IsWord("count")
  {
  }

  lemma {:induction false} TruncReads(unit: string, c: Column, rest: string)
    requires IsWord(unit) && PlainColumn(c) && Stops(rest)
    ensures ReadExpr(ExprText(Trunc(unit, c)) + rest) == Done(Trunc(unit, c), rest)
    ensures ReadWord(ExprText(Trunc(unit, c)) + rest).value == "date_trunc"
  {
    hide ReadWord, Skip, IsWord, ReadColumn, ColumnText;
    var col := ColumnText(c);
    var s4 := ")::date" + rest;
    var s3 := col + s4;
    var s2 := "', " + s3;
    var s1 := unit + s2;
    var s0 := "('" + s1;
    TruncWord();
    assert ExprText(Trunc(unit, c)) + rest == "date_trunc" + s0 by {
      assert "date_trunc('" == "date_trunc" + "('";
      Assoc("date_trunc", "('", s1);
      assert ExprText(Trunc(unit, c)) + rest == "date_trunc('" + s1;
    }
    assert s0[0] == '(' && s2[0] == '\'' && s4[0] == ')';
    WordReads("date_trunc", s0);
    SkipReads("('", s1);
    WordReads(unit, s2);
    SkipReads("', ", s3);
    ColumnReads(c, s4);
    SkipReads(")::date", rest);
  }

  lemma {:induction false} ExprReads(e: Expr, rest: string)
    requires PlainExpr(e) && Stops(rest)
    ensures ReadExpr(ExprText(e) + rest) == Done(e, rest)
  {
    hide ReadWord, Skip, IsWord, ReadColumn, ColumnText;
    if e.Trunc? {
      TruncReads(e.unit, e.col, rest);
    } else {
      ColumnStarts(e.col, rest);
      ColumnReads(e.col, rest);
    }
  }

  lemma {:induction false} AggregateReads(a: Aggregate, rest: string)
    requires PlainAggregate(a)
    ensures ReadAggregate(AggregateText(a) + rest) == Done(a, rest)
    ensures var w := ReadWord(AggregateText(a) + rest);
            w.value != "date_trunc" && Skip("(", w.rest).Some?
  {
    hide ReadWord, Skip, IsWord, ReadColumn, ColumnText;
    TruncWord();
    match a
    case CountRows =>
      var s1 := "*)" + rest;
      var s0 := "(" + s1;
      assert "count(*)" + rest == "count" + s0;
      assert s0[0] == '(';
      WordReads("count", s0);
      SkipReads("(", s1);
      SkipReads("*)", rest);
    case Fold(fn, c) =>
      var s2 := ")" + rest;
      var s1 := ColumnText(c) + s2;
      var s0 := "(" + s1;
      assert AggregateText(a) + rest == fn + s0;
      assert s0[0] == '(' && s2[0] == ')';
      WordReads(fn, s0);
      SkipReads("(", s1);
      NoStar(c, s2);
      ColumnReads(c, s2);
      SkipReads(")", rest);
  }

  lemma {:induction false} NoStar(c: Column, rest: string)
    requires PlainColumn(c)
    ensures Skip("*)", ColumnText(c) + rest) == None
  {
    var s := ColumnText(c) + rest;
    assert s[0] == c.alias[0] && IsWordChar(s[0]);
    assert |s| >= 2 ==> s[..2][0] == s[0] && "*)"[0] == '*';
  }

  lemma {:induction false} NameReads(name: string, rest: string)
    requires IsWord(name) && Stops(rest)
    ensures ReadName(")::text AS " + (name + rest)) == Done(name, rest)
  {
    SkipReads(")::text AS ", name + rest);
    WordReads(name, rest);
    hide ReadWord, Skip;
  }

  lemma {:induction false} ItemReads(i: Item, rest: string)
    requires PlainItem(i) && Stops(rest)
    ensures ReadItem(ItemText(i) + rest) == Done(i, rest)
  {
    hide ReadWord, Skip, IsWord, ReadName, ReadExpr, ReadAggregate, ExprText, AggregateText;
    var body := match i case Key(e, _) => ExprText(e) case Measure(a, _) => AggregateText(a);
    var s1 := ")::text AS " + (i.name + rest);
    assert ItemText(i) + rest == "(" + (body + s1);
    SkipReads("(", body + s1);
    assert s1[0] == ')';
    NameReads(i.name, rest);
    match i
    case Key(e, _) =>
      ExprReads(e, s1);
      KeyStarts(e, s1);
    case Measure(a, _) => AggregateReads(a, s1);
  }

  lemma {:induction false} KeyStarts(e: Expr, rest: string)
    requires PlainExpr(e) && Stops(rest)
    ensures var w := ReadWord(ExprText(e) + rest); w.value == "date_trunc" || Skip("(", w.rest) == None
  {
    if e.Trunc? {
      TruncReads(e.unit, e.col, rest);
    } else {
      ColumnStarts(e.col, rest);
      hide ReadWord, IsWord;
      assert ("." + (e.col.name + rest))[..1][0] == '.' && "("[0] == '(';
    }
  }

  lemma {:induction false} ConditionReads(c: Condition, rest: string)
    requires PlainCondition(c) && Stops(rest)
    ensures ReadCondition(ConditionText(c) + rest) == Done(c, rest)
  {
    hide ReadRun, ReadNumber, Skip, ReadColumn, ColumnText, Itoa, PlainColumn;
    var s3 := Itoa(c.param) + rest;
    var s2 := " $" + s3;
    var s1 := c.op + s2;
    var s0 := " " + s1;
    assert ConditionText(c) + rest == ColumnText(c.col) + s0;
    assert s0[0] == ' ' && s2[0] == ' ';
    ColumnReads(c.col, s0);
    SkipReads(" ", s1);
    RunReads(IsOpChar, c.op, s2);
    SkipReads(" $", s3);
    NumberReads(c.param, rest);
  }

  lemma {:induction false} SourceReads(s: Source, rest: string)
    requires PlainSource(s) && Stops(rest) && Skip(" JOIN ", rest) == None
    ensures ReadSource(SourceText(s) + rest) == Done(s, rest)
  {
    hide ReadWord, Skip, IsWord, ReadJoined, ReadColumn, ColumnText;
    match s
    case Table(t, a) =>
      var s0 := " " + (a + rest);
      assert SourceText(s) + rest == t + s0 && s0[0] == ' ';
      WordReads(t, s0);
      SkipReads(" ", a + rest);
      WordReads(a, rest);
    case Join(t, a, u, b, l, r) =>
      var s2 := JoinTail(u, b, l, r, rest);
      var s1 := " JOIN " + s2;
      var s0 := " " + (a + s1);
      JoinRegroup(t, a, u, b, l, r, rest);
      assert s0[0] == ' ' && s1[0] == ' ';
      WordReads(t, s0);
      SkipReads(" ", a + s1);
      WordReads(a, s1);
      SkipReads(" JOIN ", s2);
      JoinedReads(t, a, u, b, l, r, rest);
  }

  function JoinTail(u: string, b: string, l: Column, r: Column, rest: string): string {
    u + (" " + (b + (" ON " + (ColumnText(l) + (" = " + (ColumnText(r) + rest))))))
  }

  lemma {:induction false} JoinRegroup(t: string, a: string, u: string, b: string, l: Column, r: Column, rest: string)
    ensures SourceText(Join(t, a, u, b, l, r)) + rest == t + (" " + (a + (" JOIN " + JoinTail(u, b, l, r, rest))))
  {
    hide ColumnText;
  }

  lemma {:induction false} JoinedReads(t: string, a: string, u: string, b: string, l: Column, r: Column, rest: string)
    requires IsWord(u) && IsWord(b) && PlainColumn(l) && PlainColumn(r) && Stops(rest)
    ensures ReadJoined(t, a, JoinTail(u, b, l, r, rest)) == Done(Join(t, a, u, b, l, r), rest)
  {
    hide ReadWord, Skip, IsWord, ReadColumn, ColumnText, PlainColumn;
    var s4 := " = " + (ColumnText(r) + rest);
    var s2 := " ON " + (ColumnText(l) + s4);
    var s0 := " " + (b + s2);
    assert s0[0] == ' ' && s2[0] == ' ' && s4[0] == ' ';
    WordReads(u, s0);
    SkipReads(" ", b + s2);
    WordReads(b, s2);
    SkipReads(" ON ", ColumnText(l) + s4);
    ColumnReads(l, s4);
    SkipReads(" = ", ColumnText(r) + rest);
    ColumnReads(r, rest);
  }

  /** A reader that recovers each element, whatever non-word follows, recovers the list. */
  lemma {:induction false} ListReads<T>(read: string -> Read<T>, text: T -> string, sep: string, xs: seq<T>, rest: string)
    requires xs != [] && sep != "" && Stops(sep) && Stops(rest) && Skip(sep, rest) == None
    requires forall i, r: string | 0 <= i < |xs| && Stops(r) :: read(text(xs[i]) + r) == Done(xs[i], r)
    ensures ReadList(read, sep, Joined(Texts(text, xs), sep) + rest) == Done(xs, rest)
    decreases |xs|
  {
    hide Skip;
    var texts := Texts(text, xs);
    if |xs| == 1 {
      assert texts[0] == text(xs[0]) && xs == [xs[0]];
    } else {
      var tail := Joined(Texts(text, xs[1..]), sep) + rest;
      var s := text(xs[0]) + (sep + tail);
      assert texts[1..] == Texts(text, xs[1..]);
      assert Joined(texts, sep) + rest == s;
      assert (sep + tail)[0] == sep[0];
      assert Stops(sep + tail);
      assert read(text(xs[0]) + (sep + tail)) == Done(xs[0], sep + tail);
      forall i, r: string | 0 <= i < |xs[1..]| && Stops(r) ensures read(text(xs[1..][i]) + r) == Done(xs[1..][i], r) {
        assert xs[1..][i] == xs[i + 1];
      }
      ListReads(read, text, sep, xs[1..], rest);
      OneMore(read, sep, s, xs[0], tail, xs[1..], rest);
      assert xs == [xs[0]] + xs[1..];
    }
  }

  lemma {:induction false} OneMore<T>(read: string -> Read<T>, sep: string, s: string, x: T, tail: string, xs: seq<T>, rest: string)
    requires sep != "" && |sep + tail| <= |s|
    requires read(s) == Done(x, sep + tail) && ReadList(read, sep, tail) == Done(xs, rest)
    ensures ReadList(read, sep, s) == Done([x] + xs, rest)
  {
    SkipReads(sep, tail);
    hide Skip;
  }

  lemma {:induction false} SkipOther(lit: string, s: string, k: nat)
    requires k < |lit| && (k < |s| ==> s[k] != lit[k])
    ensures Skip(lit, s) == None
  {
    assert k < |s| && |lit| <= |s| ==> s[..|lit|][k] == s[k];
  }

  lemma {:induction false} GroupReads(es: seq<Expr>, rest: string)
    requires forall i | 0 <= i < |es| :: PlainExpr(es[i])
    ensures ReadGroup(GroupText(es) + (" ORDER BY " + rest)) == Done(es, " ORDER BY " + rest)
  {
    var after := " ORDER BY " + rest;
    assert after[0] == ' ' && after[1] == 'O';
    hide Skip, PlainExpr;
    if es == [] {
      assert " GROUP BY "[1] == 'G';
      SkipOther(" GROUP BY ", after, 1);
      assert "" + after == after;
    } else {
      var list := Joined(Texts(ExprText, es), ", ");
      assert GroupText(es) + after == " GROUP BY " + (list + after);
      SkipReads(" GROUP BY ", list + after);
      assert ", "[0] == ',';
      SkipOther(", ", after, 0);
      forall i, r: string | 0 <= i < |es| && Stops(r) ensures ReadExpr(ExprText(es[i]) + r) == Done(es[i], r) {
        ExprReads(es[i], r);
      }
      hide ReadExpr, ExprText;
      ListReads(ReadExpr, ExprText, ", ", es, after);
    }
  }

  function TailText(q: Query): string {
    GroupText(q.groupBy) + (" ORDER BY " + (AggregateText(q.orderBy) + (" DESC LIMIT " + Itoa(q.limit))))
  }

  lemma {:induction false} TailReads(q: Query)
    requires Plain(q)
    ensures ReadTail(q.items, q.from, q.where, TailText(q)) == Some(q)
  {
    hide Skip, ReadGroup, GroupText, ReadAggregate, AggregateText, ReadNumber, Itoa, PlainExpr, PlainAggregate, PlainItem, PlainCondition, PlainSource;
    var s2 := " DESC LIMIT " + Itoa(q.limit);
    var s1 := AggregateText(q.orderBy) + s2;
    GroupReads(q.groupBy, s1);
    SkipReads(" ORDER BY ", s1);
    AggregateReads(q.orderBy, s2);
    SkipReads(" DESC LIMIT ", Itoa(q.limit));
    assert Itoa(q.limit) + "" == Itoa(q.limit);
    NumberReads(q.limit, "");
  }

  lemma {:induction false} TailStarts(q: Query)
    ensures |TailText(q)| >= 2 && TailText(q)[0] == ' ' && (TailText(q)[1] == 'G' || TailText(q)[1] == 'O')
  {
    hide AggregateText, Itoa, Joined;
    if q.groupBy != [] {
      assert GroupText(q.groupBy)[0] == " GROUP BY "[0] && GroupText(q.groupBy)[1] == " GROUP BY "[1];
    } else {
      assert TailText(q)[0] == " ORDER BY "[0] && TailText(q)[1] == " ORDER BY "[1];
    }
  }

  function WhereText(q: Query): string { Joined(Texts(ConditionText, q.where), " AND ") + TailText(q) }

  lemma {:induction false} WhereReads(q: Query)
    requires Plain(q)
    ensures ReadList(ReadCondition, " AND ", WhereText(q)) == Done(q.where, TailText(q))
  {
    TailStarts(q);
    hide Skip, TailText, PlainItem, PlainExpr, PlainSource, PlainAggregate;
    assert " AND "[1] == 'A' && " AND "[0] == ' ';
    SkipOther(" AND ", TailText(q), 1);
    forall i, r: string | 0 <= i < |q.where| && Stops(r)
      ensures ReadCondition(ConditionText(q.where[i]) + r) == Done(q.where[i], r)
    {
      ConditionReads(q.where[i], r);
    }
    hide ReadCondition, ConditionText;
    ListReads(ReadCondition, ConditionText, " AND ", q.where, TailText(q));
  }

  function FromText(q: Query): string { SourceText(q.from) + (" WHERE " + WhereText(q)) }

  lemma {:induction false} ItemsRead(q: Query)
    requires Plain(q)
    ensures ReadList(ReadItem, ", ", Joined(Texts(ItemText, q.items), ", ") + (" FROM " + FromText(q))) == Done(q.items, " FROM " + FromText(q))
  {
    hide Skip, FromText, PlainCondition, PlainExpr, PlainSource, PlainAggregate;
    var after := " FROM " + FromText(q);
    assert after[0] == ' ' && ", "[0] == ',';
    SkipOther(", ", after, 0);
    forall i, r: string | 0 <= i < |q.items| && Stops(r) ensures ReadItem(ItemText(q.items[i]) + r) == Done(q.items[i], r) {
      ItemReads(q.items[i], r);
    }
    hide ReadItem, ItemText;
    ListReads(ReadItem, ItemText, ", ", q.items, after);
  }

  lemma {:induction false} Regroup(q: Query)
    ensures QueryText(q) == "SELECT " + (Joined(Texts(ItemText, q.items), ", ") + (" FROM " + FromText(q)))
  {
    hide Joined, Texts, SourceText, GroupText, AggregateText, Itoa;
    var items, from, where := Joined(Texts(ItemText, q.items), ", "), SourceText(q.from), Joined(Texts(ConditionText, q.where), " AND ");
    RegroupTail("SELECT " + items + " FROM " + from + " WHERE " + where, q);
    hide TailText;
    assert "SELECT " + items + " FROM " + from + " WHERE " + where + TailText(q)
        == "SELECT " + (items + (" FROM " + (from + (" WHERE " + (where + TailText(q))))));
  }

  lemma {:induction false} RegroupTail(s: string, q: Query)
    ensures s + GroupText(q.groupBy) + " ORDER BY " + AggregateText(q.orderBy) + " DESC LIMIT " + Itoa(q.limit) == s + TailText(q)
  {
    hide GroupText, AggregateText, Itoa;
  }

  /** The text of a query determines it: reading it back recovers exactly the query. */
  lemma {:induction false} QueryReadsBack(q: Query)
    requires Plain(q)
    ensures ReadQuery(QueryText(q)) == Some(q)
  {
    hide Skip, ReadList, ReadTail, ReadSource, SourceText, TailText, WhereText, Joined, Texts, QueryText, PlainItem, PlainCondition, PlainExpr, PlainAggregate;
    Regroup(q);
    SkipReads("SELECT ", Joined(Texts(ItemText, q.items), ", ") + (" FROM " + FromText(q)));
    ItemsRead(q);
    SkipReads(" FROM ", FromText(q));
    var after := " WHERE " + WhereText(q);
    assert after[0] == ' ' && after[1] == 'W' && " JOIN "[1] == 'J';
    SkipOther(" JOIN ", after, 1);
    SourceReads(q.from, after);
    SkipReads(" WHERE ", WhereText(q));
    WhereReads(q);
    TailReads(q);
  }
}
