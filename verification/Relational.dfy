/** The meaning of a report query on stored tables: scanning, joining, filtering with bound arguments, grouping,
    aggregating, ordering and limiting.  Cells are the values before their cast to text. */
module Relational {
  import opened Prelude
  import opened Calendar
  import opened Sql

  // ---- values -------------------------------------------------------------

  /** Instants are microseconds, in UTC, from the start of day 0. */
  datatype Value = Null | Text(text: string) | Int(i: int) | Num(n: real) | Time(at: int) | Date(day: int)

  const DAY_MICROS: int := 86_400_000_000

  /** The day, the Monday or the first of the month an instant falls in or after. */
  function Truncated(unit: string, v: Value): Value {
    if !v.Time? then Null
    else
      var day := v.at / DAY_MICROS;
      if unit == "day" then Date(day)
      else if unit == "week" then Date(day - (day - 2) % 7)
      else if unit == "month" then Date(FirstOfMonth(MonthOf(day)))
      else Null
  }

  predicate TextBefore(s: string, t: string) {
    t != "" && (s == "" || s[0] < t[0] || (s[0] == t[0] && TextBefore(s[1..], t[1..])))
  }

  function Number(v: Value): real { if v.Int? then v.i as real else if v.Num? then v.n else 0.0 }

  /** Values a column and an argument can be compared as. */
  predicate SameKind(a: Value, b: Value) {
    || (a.Text? && b.Text?) || (a.Time? && b.Time?) || (a.Date? && b.Date?)
    || ((a.Int? || a.Num?) && (b.Int? || b.Num?))
  }

  predicate Before(a: Value, b: Value) {
    if a.Text? && b.Text? then TextBefore(a.text, b.text)
    else if a.Time? && b.Time? then a.at < b.at
    else if a.Date? && b.Date? then a.day < b.day
    else Number(a) < Number(b)
  }

  predicate Equal(a: Value, b: Value) { if a.Text? || a.Time? || a.Date? then a == b else Number(a) == Number(b) }

  /** A comparison is true of two comparable values only; with Null it is not true. */
  predicate Compare(op: string, a: Value, b: Value) {
    SameKind(a, b) &&
    if op == "=" then Equal(a, b)
    else if op == "<>" then !Equal(a, b)
    else if op == ">" then Before(b, a)
    else if op == ">=" then Before(b, a) || Equal(a, b)
    else if op == "<" then Before(a, b)
    else if op == "<=" then Before(a, b) || Equal(a, b)
    else false
  }

  // ---- tables -------------------------------------------------------------

  datatype Order = Order(
    id: int, org: int, customer: int, status: string, currency: string,
    subtotal: real, taxTotal: real, grandTotal: real, createdAt: int)

  datatype Invoice = Invoice(
    id: int, order: int, status: string, currency: string, subtotal: real, taxTotal: real, grandTotal: real, createdAt: int)

  datatype Opportunity = Opportunity(id: int, org: int, stage: int, amount: real, currency: string, createdAt: int)

  datatype Stage = Stage(id: int, code: string, caption: string)

  datatype Database = Database(orders: seq<Order>, invoices: seq<Invoice>, opportunities: seq<Opportunity>, stages: seq<Stage>)

  datatype Row = OrderRow(o: Order) | InvoiceRow(i: Invoice) | OpportunityRow(p: Opportunity) | StageRow(s: Stage)

  function OrderRows(orders: seq<Order>): (r: seq<Row>)
    ensures |r| == |orders| && forall k | 0 <= k < |orders| :: r[k] == OrderRow(orders[k])
  {
    seq(|orders|, k requires 0 <= k < |orders| => OrderRow(orders[k]))
  }

  function StageRows(stages: seq<Stage>): (r: seq<Row>)
    ensures |r| == |stages| && forall k | 0 <= k < |stages| :: r[k] == StageRow(stages[k])
  {
    seq(|stages|, k requires 0 <= k < |stages| => StageRow(stages[k]))
  }

  function InvoiceRows(invoices: seq<Invoice>): (r: seq<Row>)
    ensures |r| == |invoices| && forall k | 0 <= k < |invoices| :: r[k] == InvoiceRow(invoices[k])
  {
    seq(|invoices|, k requires 0 <= k < |invoices| => InvoiceRow(invoices[k]))
  }

  function OpportunityRows(ps: seq<Opportunity>): (r: seq<Row>)
    ensures |r| == |ps| && forall k | 0 <= k < |ps| :: r[k] == OpportunityRow(ps[k])
  {
    seq(|ps|, k requires 0 <= k < |ps| => OpportunityRow(ps[k]))
  }

  function Rows(db: Database, table: string): seq<Row> {
    if table == "orders" then OrderRows(db.orders)
    else if table == "invoices" then InvoiceRows(db.invoices)
    else if table == "opportunities" then OpportunityRows(db.opportunities)
    else if table == "pipeline_stages" then StageRows(db.stages)
    else []
  }

  /** A cell by column name; None when the table has no such column. */
  function Cell(r: Row, column: string): Option<Value> {
    match r
    case OrderRow(o) =>
      if column == "id" then Some(Int(o.id))
      else if column == "organization_id" then Some(Int(o.org))
      else if column == "customer_id" then Some(Int(o.customer))
      else if column == "status" then Some(Text(o.status))
      else if column == "currency" then Some(Text(o.currency))
      else if column == "subtotal" then Some(Num(o.subtotal))
      else if column == "tax_total" then Some(Num(o.taxTotal))
      else if column == "grand_total" then Some(Num(o.grandTotal))
      else if column == "created_at" then Some(Time(o.createdAt))
      else None
    case InvoiceRow(i) =>
      if column == "id" then Some(Int(i.id))
      else if column == "order_id" then Some(Int(i.order))
      else if column == "status" then Some(Text(i.status))
      else if column == "currency" then Some(Text(i.currency))
      else if column == "subtotal" then Some(Num(i.subtotal))
      else if column == "tax_total" then Some(Num(i.taxTotal))
      else if column == "grand_total" then Some(Num(i.grandTotal))
      else if column == "created_at" then Some(Time(i.createdAt))
      else None
    case OpportunityRow(p) =>
      if column == "id" then Some(Int(p.id))
      else if column == "organization_id" then Some(Int(p.org))
      else if column == "stage_id" then Some(Int(p.stage))
      else if column == "amount" then Some(Num(p.amount))
      else if column == "currency" then Some(Text(p.currency))
      else if column == "created_at" then Some(Time(p.createdAt))
      else None
    case StageRow(s) =>
      if column == "id" then Some(Int(s.id))
      else if column == "code" then Some(Text(s.code))
      else if column == "label" then Some(Text(s.caption))
      else None
  }

  /** The columns of the stored tables that the registry draws on. */
  predicate HasColumn(table: string, column: string) {
    if table == "orders" then
      column in {"id", "organization_id", "customer_id", "status", "currency", "subtotal", "tax_total", "grand_total", "created_at"}
    else if table == "invoices" then
      column in {"id", "order_id", "status", "currency", "subtotal", "tax_total", "grand_total", "created_at"}
    else if table == "opportunities" then
      column in {"id", "organization_id", "stage_id", "amount", "currency", "created_at"}
    else if table == "pipeline_stages" then column in {"id", "code", "label"}
    else false
  }

  function TableOf(r: Row): string {
    match r case OrderRow(_) => "orders" case InvoiceRow(_) => "invoices" case OpportunityRow(_) => "opportunities" case StageRow(_) => "pipeline_stages"
  }

  lemma {:induction false} CellIffColumn(r: Row, column: string)
    ensures Cell(r, column).Some? <==> HasColumn(TableOf(r), column)
  {
  }

  // ---- names --------------------------------------------------------------

  predicate ColumnResolves(s: Source, c: Column) {
    || (c.alias == s.alias && HasColumn(s.table, c.name))
    || (s.Join? && c.alias == s.joinedAlias && HasColumn(s.joined, c.name))
  }

  predicate AggregateResolves(s: Source, a: Aggregate) { a.Fold? ==> ColumnResolves(s, a.col) }

  predicate ItemResolves(s: Source, i: Item) {
    match i case Key(e, _) => ColumnResolves(s, e.col) case Measure(a, _) => AggregateResolves(s, a)
  }

  /** Every column the query names exists; otherwise the database refuses it. */
  predicate Resolves(q: Query) {
    && (q.from.Join? ==> ColumnResolves(q.from, q.from.left) && ColumnResolves(q.from, q.from.right))
    && (forall k | 0 <= k < |q.items| :: ItemResolves(q.from, q.items[k]))
    && (forall k | 0 <= k < |q.where| :: ColumnResolves(q.from, q.where[k].col))
    && (forall k | 0 <= k < |q.groupBy| :: ColumnResolves(q.from, q.groupBy[k].col))
    && AggregateResolves(q.from, q.orderBy)
  }

  // ---- rows of the FROM clause --------------------------------------------

  datatype Binding = Binding(alias: string, row: Row)

  type Scope = seq<Binding>

  function ColumnValue(scope: Scope, c: Column): Value {
    if scope == [] then Null
    else if scope[0].alias == c.alias then (match Cell(scope[0].row, c.name) case Some(v) => v case None => Null)
    else ColumnValue(scope[1..], c)
  }

  function ExprValue(scope: Scope, e: Expr): Value {
    match e case Field(c) => ColumnValue(scope, c) case Trunc(unit, c) => Truncated(unit, ColumnValue(scope, c))
  }

  /** A row paired with each row of the other table that matches it. */
  function Matches(s: Source, l: Row, rights: seq<Row>): seq<Scope>
    requires s.Join?
  {
    if rights == [] then []
    else
      var scope := [Binding(s.alias, l), Binding(s.joinedAlias, rights[|rights| - 1])];
      Matches(s, l, rights[..|rights| - 1])
      + if Compare("=", ColumnValue(scope, s.left), ColumnValue(scope, s.right)) then [scope] else []
  }

  function Scan(s: Source, lefts: seq<Row>, rights: seq<Row>): seq<Scope> {
    if lefts == [] then []
    else
      var l := lefts[|lefts| - 1];
      Scan(s, lefts[..|lefts| - 1], rights) + if s.Table? then [[Binding(s.alias, l)]] else Matches(s, l, rights)
  }

  function FromRows(s: Source, db: Database): seq<Scope> {
    Scan(s, Rows(db, s.table), if s.Join? then Rows(db, s.joined) else [])
  }

  /** The argument a parameter number names. */
  function Argument(args: seq<Value>, param: nat): Value { if 0 < param <= |args| then args[param - 1] else Null }

  predicate Holds(scope: Scope, c: Condition, args: seq<Value>) {
    Compare(c.op, ColumnValue(scope, c.col), Argument(args, c.param))
  }

  predicate AllHold(scope: Scope, where: seq<Condition>, args: seq<Value>) {
    forall k | 0 <= k < |where| :: Holds(scope, where[k], args)
  }

  function Kept(scopes: seq<Scope>, where: seq<Condition>, args: seq<Value>): seq<Scope> {
    if scopes == [] then []
    else
      var n := |scopes| - 1;
      Kept(scopes[..n], where, args) + if AllHold(scopes[n], where, args) then [scopes[n]] else []
  }

  /** Some row of the scope has the column. */
  predicate Found(scope: Scope, c: Column) {
    exists k | 0 <= k < |scope| :: scope[k].alias == c.alias && Cell(scope[k].row, c.name).Some?
  }

  predicate Binds(s: Source, scope: Scope) {
    if s.Join? then
      |scope| == 2 && scope[0].alias == s.alias && scope[1].alias == s.joinedAlias &&
      TableOf(scope[0].row) == s.table && TableOf(scope[1].row) == s.joined
    else |scope| == 1 && scope[0].alias == s.alias && TableOf(scope[0].row) == s.table
  }

  lemma {:induction false} RowsOfTable(db: Database, table: string, k: nat)
    requires k < |Rows(db, table)|
    ensures TableOf(Rows(db, table)[k]) == table
  {
  }

  lemma {:induction false} MatchesBind(s: Source, l: Row, rights: seq<Row>)
    requires s.Join? && TableOf(l) == s.table && forall k | 0 <= k < |rights| :: TableOf(rights[k]) == s.joined
    ensures forall k | 0 <= k < |Matches(s, l, rights)| :: Binds(s, Matches(s, l, rights)[k])
  {
    hide Compare, ColumnValue, TableOf;
    if rights != [] { MatchesBind(s, l, rights[..|rights| - 1]); }
  }

  lemma {:induction false} ScanBinds(s: Source, lefts: seq<Row>, rights: seq<Row>)
    requires forall k | 0 <= k < |lefts| :: TableOf(lefts[k]) == s.table
    requires s.Join? ==> forall k | 0 <= k < |rights| :: TableOf(rights[k]) == s.joined
    ensures forall k | 0 <= k < |Scan(s, lefts, rights)| :: Binds(s, Scan(s, lefts, rights)[k])
  {
    hide TableOf;
    if lefts != [] {
      ScanBinds(s, lefts[..|lefts| - 1], rights);
      if s.Join? { MatchesBind(s, lefts[|lefts| - 1], rights); }
    }
  }

  /** A column resolves exactly when the scanned rows have it: no query that runs meets a missing cell. */
  lemma {:induction false} ResolvesIffFound(s: Source, db: Database, c: Column, k: nat)
    requires k < |FromRows(s, db)|
    ensures ColumnResolves(s, c) <==> Found(FromRows(s, db)[k], c)
  {
    var rights := if s.Join? then Rows(db, s.joined) else [];
    forall i | 0 <= i < |Rows(db, s.table)| ensures TableOf(Rows(db, s.table)[i]) == s.table { RowsOfTable(db, s.table, i); }
    if s.Join? { forall i | 0 <= i < |rights| ensures TableOf(rights[i]) == s.joined { RowsOfTable(db, s.joined, i); } }
    ScanBinds(s, Rows(db, s.table), rights);
    var scope := FromRows(s, db)[k];
    assert Binds(s, scope);
    forall b | 0 <= b < |scope| ensures Cell(scope[b].row, c.name).Some? <==> HasColumn(TableOf(scope[b].row), c.name) {
      CellIffColumn(scope[b].row, c.name);
    }
    hide Cell, HasColumn, TableOf, FromRows;
    assert ColumnResolves(s, c) ==> (scope[0].alias == c.alias && Cell(scope[0].row, c.name).Some?) ||
                                    (s.Join? && scope[1].alias == c.alias && Cell(scope[1].row, c.name).Some?);
  }

  // ---- grouping -----------------------------------------------------------

  datatype Group<T> = Group(key: seq<Value>, members: seq<T>)

  function Find<T>(gs: seq<Group<T>>, key: seq<Value>): (k: nat)
    ensures k <= |gs| && (k < |gs| ==> gs[k].key == key)
    ensures forall j | 0 <= j < k :: gs[j].key != key
  {
    if gs == [] || gs[0].key == key then 0 else 1 + Find(gs[1..], key)
  }

  /** Adds a member to its group, a new one at the end for a new key. */
  function AddTo<T>(gs: seq<Group<T>>, key: seq<Value>, x: T): seq<Group<T>> {
    var k := Find(gs, key);
    if k < |gs| then gs[k := Group(key, gs[k].members + [x])] else gs + [Group(key, [x])]
  }

  function Grouped<T>(xs: seq<T>, keys: seq<seq<Value>>): seq<Group<T>>
    requires |xs| == |keys|
  {
    if xs == [] then []
    else
      var n := |xs| - 1;
      AddTo(Grouped(xs[..n], keys[..n]), keys[n], xs[n])
  }

  function ExprValues(scope: Scope, es: seq<Expr>): (r: seq<Value>)
    ensures |r| == |es| && forall k | 0 <= k < |es| :: r[k] == ExprValue(scope, es[k])
  {
    seq(|es|, k requires 0 <= k < |es| => ExprValue(scope, es[k]))
  }

  function KeysOf(scopes: seq<Scope>, es: seq<Expr>): (r: seq<seq<Value>>)
    ensures |r| == |scopes| && forall k | 0 <= k < |scopes| :: r[k] == ExprValues(scopes[k], es)
  {
    seq(|scopes|, k requires 0 <= k < |scopes| => ExprValues(scopes[k], es))
  }

  /** The groups of a query; without GROUP BY there is exactly one, even when nothing is left. */
  function QueryGroups(q: Query, rows: seq<Scope>): seq<Group<Scope>> {
    if q.groupBy == [] then [Group([], rows)] else Grouped(rows, KeysOf(rows, q.groupBy))
  }

  // ---- aggregates ---------------------------------------------------------

  function NonNull(vs: seq<Value>): seq<Value> {
    if vs == [] then [] else NonNull(vs[..|vs| - 1]) + if vs[|vs| - 1].Null? then [] else [vs[|vs| - 1]]
  }

  function SumOf(vs: seq<Value>): real { if vs == [] then 0.0 else SumOf(vs[..|vs| - 1]) + Number(vs[|vs| - 1]) }

  function LeastOf(vs: seq<Value>): real
    requires vs != []
  {
    var last := Number(vs[|vs| - 1]);
    if |vs| == 1 then last else var m := LeastOf(vs[..|vs| - 1]); if last < m then last else m
  }

  function MostOf(vs: seq<Value>): real
    requires vs != []
  {
    var last := Number(vs[|vs| - 1]);
    if |vs| == 1 then last else var m := MostOf(vs[..|vs| - 1]); if last > m then last else m
  }

  /** An aggregate of numeric values; of none at all it is Null, save that a count is zero. */
  function Aggregated(fn: string, values: seq<Value>): Value {
    var vs := NonNull(values);
    if fn == "count" then Int(|vs|)
    else if vs == [] then Null
    else if fn == "sum" then Num(SumOf(vs))
    else if fn == "avg" then Num(SumOf(vs) / |vs| as real)
    else if fn == "min" then Num(LeastOf(vs))
    else if fn == "max" then Num(MostOf(vs))
    else Null
  }

  // ---- aggregates do not see the order of rows ----------------------------

  lemma {:induction false} LeastIs(vs: seq<Value>)
    requires vs != []
    ensures forall k | 0 <= k < |vs| :: LeastOf(vs) <= Number(vs[k])
    ensures exists k | 0 <= k < |vs| :: LeastOf(vs) == Number(vs[k])
  {
    var n := |vs| - 1;
    hide Number;
    if n > 0 {
      LeastIs(vs[..n]);
      var k :| 0 <= k < n && LeastOf(vs[..n]) == Number(vs[..n][k]);
      assert vs[..n][k] == vs[k];
      assert forall j | 0 <= j < n :: vs[..n][j] == vs[j];
      assert LeastOf(vs) == Number(vs[n]) || LeastOf(vs) == Number(vs[k]);
    } else {
      assert LeastOf(vs) == Number(vs[0]);
    }
  }

  lemma {:induction false} MostIs(vs: seq<Value>)
    requires vs != []
    ensures forall k | 0 <= k < |vs| :: Number(vs[k]) <= MostOf(vs)
    ensures exists k | 0 <= k < |vs| :: MostOf(vs) == Number(vs[k])
  {
    var n := |vs| - 1;
    hide Number;
    if n > 0 {
      MostIs(vs[..n]);
      var k :| 0 <= k < n && MostOf(vs[..n]) == Number(vs[..n][k]);
      assert vs[..n][k] == vs[k];
      assert forall j | 0 <= j < n :: vs[..n][j] == vs[j];
      assert MostOf(vs) == Number(vs[n]) || MostOf(vs) == Number(vs[k]);
    } else {
      assert MostOf(vs) == Number(vs[0]);
    }
  }

  lemma {:induction false} SumOfConcat(a: seq<Value>, b: seq<Value>)
    ensures SumOf(a + b) == SumOf(a) + SumOf(b)
  {
    hide Number;
    if b == [] {
      assert a + b == a;
    } else {
      var n := |b| - 1;
      assert (a + b)[..|a + b| - 1] == a + b[..n];
      SumOfConcat(a, b[..n]);
    }
  }

  lemma {:induction false} SumOfSame(a: seq<Value>, b: seq<Value>)
    requires multiset(a) == multiset(b)
    ensures |a| == |b| && SumOf(a) == SumOf(b)
  {
    hide Number;
    if a == [] {
      assert |multiset(b)| == 0;
    } else {
      var n := |a| - 1;
      var x := a[n];
      assert a == a[..n] + [x];
      assert x in multiset(b);
      var k :| 0 <= k < |b| && b[k] == x;
      var front, back := b[..k], b[k + 1..];
      SplitAt(b, k);
      assert multiset(front + back) == multiset(b) - multiset{x};
      assert multiset(a[..n]) == multiset(a) - multiset{x};
      SumOfSame(a[..n], front + back);
      SumOfConcat(front, back);
      SumOfConcat(front + [x], back);
      SumOfConcat(front, [x]);
      assert [x][..0] == [];
    }
  }

  lemma {:induction false} NonNullCounts(vs: seq<Value>, v: Value)
    ensures multiset(NonNull(vs))[v] == if v.Null? then 0 else multiset(vs)[v]
  {
    if vs != [] {
      var n := |vs| - 1;
      NonNullCounts(vs[..n], v);
      assert vs == vs[..n] + [vs[n]];
    }
  }

  /** An aggregate depends on the values alone, not on the order the rows are met in. */
  lemma {:induction false} AggregatedIgnoresOrder(fn: string, a: seq<Value>, b: seq<Value>)
    requires multiset(a) == multiset(b)
    ensures Aggregated(fn, a) == Aggregated(fn, b)
  {
    hide SumOf, LeastOf, MostOf, NonNull;
    NonNullSame(a, b);
    SumOfSame(NonNull(a), NonNull(b));
    if NonNull(a) != [] { SameBounds(NonNull(a), NonNull(b)); }
  }

  lemma {:induction false} NonNullSame(a: seq<Value>, b: seq<Value>)
    requires multiset(a) == multiset(b)
    ensures multiset(NonNull(a)) == multiset(NonNull(b))
    ensures forall v :: v in NonNull(a) <==> v in NonNull(b)
  {
    hide NonNull;
    forall v ensures multiset(NonNull(a))[v] == multiset(NonNull(b))[v] {
      NonNullCounts(a, v);
      NonNullCounts(b, v);
    }
    assert multiset(NonNull(a)) == multiset(NonNull(b));
    assert forall v :: v in NonNull(a) <==> v in multiset(NonNull(a));
    assert forall v :: v in NonNull(b) <==> v in multiset(NonNull(b));
  }

  lemma {:induction false} SameBounds(x: seq<Value>, y: seq<Value>)
    requires x != [] && y != [] && forall v :: v in x <==> v in y
    ensures LeastOf(x) == LeastOf(y) && MostOf(x) == MostOf(y)
  {
    hide LeastOf, MostOf, Number;
    BoundsWithin(x, y);
    BoundsWithin(y, x);
  }

  lemma {:induction false} BoundsWithin(x: seq<Value>, y: seq<Value>)
    requires x != [] && y != [] && forall v :: v in x ==> v in y
    ensures LeastOf(y) <= LeastOf(x) && MostOf(x) <= MostOf(y)
  {
    LeastIs(x);
    LeastIs(y);
    MostIs(x);
    MostIs(y);
    hide LeastOf, MostOf, Number;
    var i :| 0 <= i < |x| && LeastOf(x) == Number(x[i]);
    var j :| 0 <= j < |x| && MostOf(x) == Number(x[j]);
    assert x[i] in y && x[j] in y;
  }

  function ColumnValues(scopes: seq<Scope>, c: Column): (r: seq<Value>)
    ensures |r| == |scopes| && forall k | 0 <= k < |scopes| :: r[k] == ColumnValue(scopes[k], c)
  {
    seq(|scopes|, k requires 0 <= k < |scopes| => ColumnValue(scopes[k], c))
  }

  function AggregateValue(scopes: seq<Scope>, a: Aggregate): Value {
    match a case CountRows => Int(|scopes|) case Fold(fn, c) => Aggregated(fn, ColumnValues(scopes, c))
  }

  function ItemValue(g: Group<Scope>, i: Item): Value {
    match i
    case Key(e, _) => if g.members == [] then Null else ExprValue(g.members[0], e)
    case Measure(a, _) => AggregateValue(g.members, a)
  }

  function OutputRow(q: Query, g: Group<Scope>): (r: seq<Value>)
    ensures |r| == |q.items| && forall k | 0 <= k < |q.items| :: r[k] == ItemValue(g, q.items[k])
  {
    seq(|q.items|, k requires 0 <= k < |q.items| => ItemValue(g, q.items[k]))
  }

  // ---- order and limit ----------------------------------------------------

  /** Descending order puts Null first. */
  predicate AtLeast(a: Value, b: Value) { a.Null? || (!b.Null? && Number(a) >= Number(b)) }

  /** An arrangement of all of n things whose sort keys do not increase. */
  ghost predicate Arranges(order: seq<nat>, ranks: seq<Value>) {
    && (forall i | 0 <= i < |order| :: order[i] < |ranks|)
    && (forall i, j | 0 <= i < j < |order| :: order[i] != order[j])
    && (forall g: nat | g < |ranks| :: g in order)
    && (forall i, j | 0 <= i < j < |order| :: AtLeast(ranks[order[i]], ranks[order[j]]))
  }

  function FirstOf<T>(xs: seq<T>, limit: nat): seq<T> { if |xs| <= limit then xs else xs[..limit] }

  function Ranks(q: Query, gs: seq<Group<Scope>>): (r: seq<Value>)
    ensures |r| == |gs| && forall k | 0 <= k < |gs| :: r[k] == AggregateValue(gs[k].members, q.orderBy)
  {
    seq(|gs|, k requires 0 <= k < |gs| => AggregateValue(gs[k].members, q.orderBy))
  }

  /** A result the database may return: groups with equal sort keys come in any order. */
  ghost predicate Returns(q: Query, args: seq<Value>, db: Database, out: seq<seq<Value>>) {
    Resolves(q) &&
    var gs := QueryGroups(q, Kept(FromRows(q.from, db), q.where, args));
    exists order: seq<nat> | Arranges(order, Ranks(q, gs)) ::
      && |out| == |FirstOf(order, q.limit)|
      && forall i | 0 <= i < |out| :: order[i] < |gs| && out[i] == OutputRow(q, gs[order[i]])
  }

  // ---- the best n up to ties ----------------------------------------------

  /** A choice of at most limit things, best first, that leaves out nothing better, and nothing at all while there is
      room. */
  ghost predicate Top(chosen: seq<nat>, ranks: seq<Value>, limit: nat) {
    && (forall i | 0 <= i < |chosen| :: chosen[i] < |ranks|)
    && (forall i, j | 0 <= i < j < |chosen| :: chosen[i] != chosen[j])
    && (forall i, j | 0 <= i < j < |chosen| :: AtLeast(ranks[chosen[i]], ranks[chosen[j]]))
    && (forall g: nat, i | g < |ranks| && g !in chosen && 0 <= i < |chosen| :: AtLeast(ranks[chosen[i]], ranks[g]))
    && |chosen| <= limit
    && (|chosen| < limit ==> forall g: nat | g < |ranks| :: g in chosen)
  }

  lemma {:induction false} SortedTakeIsTop(order: seq<nat>, ranks: seq<Value>, limit: nat)
    requires Arranges(order, ranks)
    ensures Top(FirstOf(order, limit), ranks, limit)
  {
    var chosen := FirstOf(order, limit);
    forall g: nat, i | g < |ranks| && g !in chosen && 0 <= i < |chosen| ensures AtLeast(ranks[chosen[i]], ranks[g]) {
      assert g in order;
      var k :| 0 <= k < |order| && order[k] == g;
      assert forall m | 0 <= m < |chosen| :: chosen[m] in chosen && chosen[m] == order[m];
    }
  }

  predicate SortedBy(order: seq<nat>, ranks: seq<Value>) {
    && (forall i | 0 <= i < |order| :: order[i] < |ranks|)
    && (forall i, j | 0 <= i < j < |order| :: AtLeast(ranks[order[i]], ranks[order[j]]))
  }

  function InsertByRank(order: seq<nat>, g: nat, ranks: seq<Value>): (r: seq<nat>)
    requires g < |ranks| && (forall i | 0 <= i < |order| :: order[i] < |ranks|)
    ensures |r| == |order| + 1 && forall i | 0 <= i < |r| :: r[i] < |ranks|
  {
    if order == [] then [g]
    else if AtLeast(ranks[g], ranks[order[0]]) then [g] + order
    else [order[0]] + InsertByRank(order[1..], g, ranks)
  }

  lemma {:induction false} InsertHolds(order: seq<nat>, g: nat, ranks: seq<Value>)
    requires g < |ranks| && (forall i | 0 <= i < |order| :: order[i] < |ranks|)
    ensures forall x :: x in InsertByRank(order, g, ranks) <==> x == g || x in order
  {
    if order != [] {
      InsertHolds(order[1..], g, ranks);
      assert order == [order[0]] + order[1..];
    }
  }

  lemma {:induction false} AtLeastOrder(a: Value, b: Value, c: Value)
    ensures AtLeast(a, b) || AtLeast(b, a)
    ensures AtLeast(a, b) && AtLeast(b, c) ==> AtLeast(a, c)
  {
  }

  lemma {:induction false} InsertStaysSorted(order: seq<nat>, g: nat, ranks: seq<Value>)
    requires g < |ranks| && SortedBy(order, ranks)
    ensures SortedBy(InsertByRank(order, g, ranks), ranks)
  {
    hide AtLeast;
    if order != [] {
      var r := InsertByRank(order, g, ranks);
      if AtLeast(ranks[g], ranks[order[0]]) {
        forall j | 0 <= j < |order| ensures AtLeast(ranks[g], ranks[order[j]]) {
          AtLeastOrder(ranks[g], ranks[order[0]], ranks[order[j]]);
        }
      } else {
        AtLeastOrder(ranks[g], ranks[order[0]], ranks[g]);
        InsertStaysSorted(order[1..], g, ranks);
        InsertHolds(order[1..], g, ranks);
        var rest := InsertByRank(order[1..], g, ranks);
        forall j | 0 <= j < |rest| ensures AtLeast(ranks[order[0]], ranks[rest[j]]) {
          assert rest[j] in rest;
        }
      }
    }
  }

  predicate Distinct(xs: seq<nat>) { forall i, j | 0 <= i < j < |xs| :: xs[i] != xs[j] }

  lemma {:induction false} InsertStaysDistinct(order: seq<nat>, g: nat, ranks: seq<Value>)
    requires g < |ranks| && (forall i | 0 <= i < |order| :: order[i] < |ranks|)
    requires Distinct(order) && g !in order
    ensures Distinct(InsertByRank(order, g, ranks))
  {
    hide AtLeast;
    if order != [] {
      InsertStaysDistinct(order[1..], g, ranks);
      InsertHolds(order[1..], g, ranks);
      var rest := InsertByRank(order[1..], g, ranks);
      forall j | 0 <= j < |rest| ensures rest[j] != order[0] {
        assert rest[j] in rest;
      }
    }
  }

  /** Those of the first n not chosen, best first. */
  lemma {:induction false} SortRest(chosen: seq<nat>, ranks: seq<Value>, n: nat) returns (rest: seq<nat>)
    requires n <= |ranks|
    ensures SortedBy(rest, ranks) && Distinct(rest)
    ensures forall g: nat :: g in rest <==> g < n && g !in chosen
  {
    hide AtLeast;
    rest := [];
    for k := 0 to n
      invariant SortedBy(rest, ranks) && Distinct(rest)
      invariant forall g: nat :: g in rest <==> g < k && g !in chosen
    {
      if k !in chosen {
        InsertStaysSorted(rest, k, ranks);
        InsertStaysDistinct(rest, k, ranks);
        InsertHolds(rest, k, ranks);
        rest := InsertByRank(rest, k, ranks);
      }
    }
  }

  lemma {:induction false} TopExtends(chosen: seq<nat>, ranks: seq<Value>, limit: nat) returns (order: seq<nat>)
    requires Top(chosen, ranks, limit)
    ensures Arranges(order, ranks) && FirstOf(order, limit) == chosen
  {
    var rest := SortRest(chosen, ranks, |ranks|);
    hide AtLeast;
    order := chosen + rest;
    assert forall g: nat | g < |ranks| :: g in chosen || g in rest;
    forall i, j | 0 <= i < |chosen| && 0 <= j < |rest| ensures AtLeast(ranks[chosen[i]], ranks[rest[j]]) && chosen[i] != rest[j] {
      assert rest[j] in rest && chosen[i] in chosen;
    }
    assert rest != [] ==> rest[0] in rest;
  }

  // ---- grouping is exact --------------------------------------------------

  /** The members with a key, in order. */
  function WithKey<T>(xs: seq<T>, keys: seq<seq<Value>>, key: seq<Value>): seq<T>
    requires |xs| == |keys|
  {
    if xs == [] then []
    else
      var n := |xs| - 1;
      WithKey(xs[..n], keys[..n], key) + if keys[n] == key then [xs[n]] else []
  }

  /** One group for each key that occurs, holding exactly the members with that key. */
  predicate ExactGroups<T(==)>(gs: seq<Group<T>>, xs: seq<T>, keys: seq<seq<Value>>)
    requires |xs| == |keys|
  {
    && (forall i, j | 0 <= i < j < |gs| :: gs[i].key != gs[j].key)
    && (forall i | 0 <= i < |gs| :: gs[i].key in keys && gs[i].members == WithKey(xs, keys, gs[i].key))
    && (forall k | 0 <= k < |keys| :: HasKey(gs, keys[k]))
  }

  predicate HasKey<T>(gs: seq<Group<T>>, key: seq<Value>) { exists j | 0 <= j < |gs| :: gs[j].key == key }

  lemma {:induction false} WithKeyNone<T>(xs: seq<T>, keys: seq<seq<Value>>, key: seq<Value>)
    requires |xs| == |keys| && key !in keys
    ensures WithKey(xs, keys, key) == []
  {
    if xs != [] {
      var n := |xs| - 1;
      assert keys[n] in keys;
      WithKeyNone(xs[..n], keys[..n], key);
    }
  }

  lemma {:induction false} AddToExact<T>(gs: seq<Group<T>>, xs: seq<T>, keys: seq<seq<Value>>, key: seq<Value>, x: T)
    requires |xs| == |keys| && ExactGroups(gs, xs, keys)
    ensures ExactGroups(AddTo(gs, key, x), xs + [x], keys + [key])
  {
    var k := Find(gs, key);
    forall c: seq<Value> ensures WithKey(xs + [x], keys + [key], c) == WithKey(xs, keys, c) + if key == c then [x] else [] {
      assert (xs + [x])[..|xs|] == xs && (keys + [key])[..|keys|] == keys;
    }
    hide WithKey;
    if k == |gs| {
      assert key !in keys by {
        assert forall i | 0 <= i < |keys| :: HasKey(gs, keys[i]);
      }
      WithKeyNone(xs, keys, key);
      AddNewExact(gs, xs, keys, key, x);
    } else {
      AddOldExact(gs, xs, keys, k, x);
    }
  }

  lemma {:induction false} AddNewExact<T>(gs: seq<Group<T>>, xs: seq<T>, keys: seq<seq<Value>>, key: seq<Value>, x: T)
    requires |xs| == |keys| && ExactGroups(gs, xs, keys) && key !in keys && WithKey(xs, keys, key) == []
    requires forall j | 0 <= j < |gs| :: gs[j].key != key
    requires forall c: seq<Value> :: WithKey(xs + [x], keys + [key], c) == WithKey(xs, keys, c) + if key == c then [x] else []
    ensures ExactGroups(gs + [Group(key, [x])], xs + [x], keys + [key])
  {
    hide WithKey;
    var r := gs + [Group(key, [x])];
    assert HasKey(r, key) by { assert r[|gs|].key == key; }
    hide HasKey;
    forall i | 0 <= i < |keys + [key]| ensures HasKey(r, (keys + [key])[i]) { StillHas(gs, r, keys + [key], i, key); }
  }

  lemma {:induction false} AddOldExact<T>(gs: seq<Group<T>>, xs: seq<T>, keys: seq<seq<Value>>, k: nat, x: T)
    requires |xs| == |keys| && ExactGroups(gs, xs, keys) && k < |gs|
    requires forall c: seq<Value> ::
               WithKey(xs + [x], keys + [gs[k].key], c) == WithKey(xs, keys, c) + if gs[k].key == c then [x] else []
    ensures ExactGroups(gs[k := Group(gs[k].key, gs[k].members + [x])], xs + [x], keys + [gs[k].key])
  {
    hide WithKey;
    var key := gs[k].key;
    var r := gs[k := Group(key, gs[k].members + [x])];
    assert HasKey(r, key) by { assert r[k].key == key; }
    hide HasKey;
    assert forall i | 0 <= i < |gs| :: r[i].key == gs[i].key;
    forall i | 0 <= i < |keys + [key]| ensures HasKey(r, (keys + [key])[i]) { StillHas(gs, r, keys + [key], i, key); }
  }

  lemma {:induction false} StillHas<T>(gs: seq<Group<T>>, r: seq<Group<T>>, keys: seq<seq<Value>>, i: nat, key: seq<Value>)
    requires i < |keys| && |r| >= |gs| && forall j | 0 <= j < |gs| :: r[j].key == gs[j].key
    requires HasKey(gs, keys[i]) || (keys[i] == key && HasKey(r, key))
    ensures HasKey(r, keys[i])
  {
    if HasKey(gs, keys[i]) {
      var j :| 0 <= j < |gs| && gs[j].key == keys[i];
      assert r[j].key == keys[i];
    }
  }

  lemma {:induction false} GroupedExact<T>(xs: seq<T>, keys: seq<seq<Value>>)
    requires |xs| == |keys|
    ensures ExactGroups(Grouped(xs, keys), xs, keys)
  {
    hide AddTo, ExactGroups;
    if xs == [] {
      NoGroups(xs, keys);
    } else {
      var n := |xs| - 1;
      GroupedExact(xs[..n], keys[..n]);
      AddToExact(Grouped(xs[..n], keys[..n]), xs[..n], keys[..n], keys[n], xs[n]);
      assert xs[..n] + [xs[n]] == xs && keys[..n] + [keys[n]] == keys;
    }
  }

  lemma {:induction false} NoGroups<T>(xs: seq<T>, keys: seq<seq<Value>>)
    requires xs == [] && keys == []
    ensures ExactGroups([], xs, keys)
  {
  }
}
