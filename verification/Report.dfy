/** The report compiler (internal/report/report.go): an analyst's definition, checked against allow-lists, becomes
    parameterised SQL scoped to an organisation. */
module Report {
  import opened Prelude
  import opened Sql
  import opened Relational

  // ---- definitions --------------------------------------------------------

  /** A filter value as decoded from JSON.  A string comes with its readings as a time, an integer and a number; anything
      that is neither string nor number with its default rendering. */
  datatype Json =
    | Str(text: string, instant: Option<int>, integer: Option<int>, number: Option<real>)
    | Number(value: real, shown: string)
    | Other(shown: string)

  datatype Filter = Filter(field: string, op: string, value: Json)

  datatype MeasureDef = MeasureDef(field: string, agg: string)

  datatype Definition = Definition(entity: string, dimensions: seq<string>, measures: seq<MeasureDef>, filters: seq<Filter>, limit: int)

  datatype CompileError =
    | UnknownEntity(entity: string) | NoMeasures
    | UnknownDimension(dimension: string) | UnknownAggregation(agg: string) | UnknownMeasure(field: string)
    | UnknownFilterField(field: string) | UnknownFilterOp(op: string) | BadValue(field: string)

  // ---- the registry -------------------------------------------------------

  const MAX_ROWS: nat := 10000

  datatype Entity = Orders | Invoices | Opportunities

  function EntityNamed(name: string): Option<Entity> {
    if name == "orders" then Some(Orders)
    else if name == "invoices" then Some(Invoices)
    else if name == "opportunities" then Some(Opportunities)
    else None
  }

  function SourceOf(e: Entity): Source {
    match e
    case Orders => Table("orders", "o")
    case Invoices => Join("invoices", "i", "orders", "o", Column("o", "id"), Column("i", "order_id"))
    case Opportunities => Join("opportunities", "op", "pipeline_stages", "ps", Column("ps", "id"), Column("op", "stage_id"))
  }

  /** The alias of the entity's own table. */
  function Main(e: Entity): string {
    match e case Orders => "o" case Invoices => "i" case Opportunities => "op"
  }

  function OrgColumn(e: Entity): Column { Column(if e.Opportunities? then "op" else "o", "organization_id") }

  function DimensionExpr(e: Entity, d: string): Option<Expr> {
    if d == "day" || d == "week" || d == "month" then Some(Trunc(d, Column(Main(e), "created_at")))
    else if d == "currency" then Some(Field(Column(Main(e), "currency")))
    else if d == "status" && !e.Opportunities? then Some(Field(Column(Main(e), "status")))
    else if d == "customer" && e.Orders? then Some(Field(Column("o", "customer_id")))
    else if d == "stage" && e.Opportunities? then Some(Field(Column("ps", "name")))
    else None
  }

  function MeasureColumn(e: Entity, f: string): Option<Column> {
    if !e.Opportunities? && (f == "grand_total" || f == "subtotal" || f == "tax_total") then Some(Column(Main(e), f))
    else if e.Opportunities? && f == "amount" then Some(Column("op", f))
    else None
  }

  datatype Kind = TextKind | NumKind | DateKind

  datatype FilterSpec = FilterSpec(col: Column, kind: Kind)

  function FilterField(e: Entity, f: string): Option<FilterSpec> {
    if f == "currency" then Some(FilterSpec(Column(Main(e), "currency"), TextKind))
    else if f == "created_at" then Some(FilterSpec(Column(Main(e), "created_at"), DateKind))
    else if f == "status" && !e.Opportunities? then Some(FilterSpec(Column(Main(e), "status"), TextKind))
    else if f == "customer" && e.Orders? then Some(FilterSpec(Column("o", "customer_id"), NumKind))
    else if f == "stage" && e.Opportunities? then Some(FilterSpec(Column("ps", "name"), TextKind))
    else None
  }

  predicate AllowedAgg(agg: string) { agg == "sum" || agg == "avg" || agg == "count" || agg == "min" || agg == "max" }

  function SqlOp(op: string): Option<string> {
    if op == "eq" then Some("=") else if op == "ne" then Some("<>")
    else if op == "gt" then Some(">") else if op == "gte" then Some(">=")
    else if op == "lt" then Some("<") else if op == "lte" then Some("<=")
    else None
  }

  /** The value bound for a filter of some kind; None when the value is refused. */
  function Coerce(kind: Kind, v: Json): Option<Value> {
    match kind
    case DateKind => if v.Str? && v.instant.Some? then Some(Time(v.instant.value)) else None
    case NumKind =>
      if v.Number? then Some(if FitsInteger(v.value) then Int(v.value.Floor) else Num(v.value))
      else if v.Str? && v.integer.Some? then Some(Int(v.integer.value))
      else if v.Str? && v.number.Some? then Some(Num(v.number.value))
      else None
    case TextKind => Some(Text(if v.Str? then v.text else v.shown))
  }

  /** A number that survives the round trip through a 64-bit integer. */
  predicate FitsInteger(x: real) { x == x.Floor as real && -0x8000_0000_0000_0000 <= x.Floor < 0x8000_0000_0000_0000 }

  // ---- what a JSON value says ---------------------------------------------

  function Written(v: Json): string { match v case Str(t, _, _, _) => t case Number(_, shown) => shown case Other(shown) => shown }

  /** A number, or a string that reads as one. */
  function AsNumber(v: Json): Option<real> {
    match v
    case Number(x, _) => Some(x)
    case Str(_, _, Some(i), _) => Some(i as real)
    case Str(_, _, None, x) => x
    case Other(_) => None
  }

  /** It is bound as an integer: a whole number of 64 bits, or a string that reads as an integer. */
  predicate Whole(v: Json) {
    match v
    case Number(x, _) => x == x.Floor as real && -9223372036854775808 <= x.Floor <= 9223372036854775807
    case Str(_, _, i, _) => i.Some?
    case Other(_) => false
  }

  /** The bound value says what the filter value says: its instant, its number, or its text. */
  predicate Says(field: string, v: Json, bound: Value) {
    if field == "created_at" then v.Str? && v.instant.Some? && bound == Time(v.instant.value)
    else if field == "customer" then
      AsNumber(v).Some? &&
      ((bound.Int? && Whole(v) && bound.i as real == AsNumber(v).value) || (bound.Num? && !Whole(v) && bound.n == AsNumber(v).value))
    else bound == Text(Written(v))
  }

  predicate SafeChar(c: char) { c == '_' || 'a' <= c <= 'z' || '0' <= c <= '9' }

  predicate Safe(s: string) { forall i | 0 <= i < |s| :: SafeChar(s[i]) }

  function Ident(s: string): string { if Safe(s) then s else "col" }

  // ---- specification of the compiler --------------------------------------

  function PlanDimensions(e: Entity, ds: seq<string>): (r: Result<seq<Expr>, CompileError>)
    ensures r.Ok? ==> |r.value| == |ds|
  {
    if ds == [] then Ok([])
    else
      var n := |ds| - 1;
      match PlanDimensions(e, ds[..n])
      case Err(x) => Err(x)
      case Ok(es) => match DimensionExpr(e, ds[n]) case None => Err(UnknownDimension(ds[n])) case Some(x) => Ok(es + [x])
  }

  datatype MeasurePlan = MeasurePlan(agg: Aggregate, name: string)

  function PlanMeasure(e: Entity, m: MeasureDef): Result<MeasurePlan, CompileError> {
    if !AllowedAgg(m.agg) then Err(UnknownAggregation(m.agg))
    else if m.agg == "count" && (m.field == "" || m.field == "*") then Ok(MeasurePlan(CountRows, "count"))
    else match MeasureColumn(e, m.field)
      case None => Err(UnknownMeasure(m.field))
      case Some(c) => Ok(MeasurePlan(Fold(m.agg, c), m.field + "_" + m.agg))
  }

  function PlanMeasures(e: Entity, ms: seq<MeasureDef>): (r: Result<seq<MeasurePlan>, CompileError>)
    ensures r.Ok? ==> |r.value| == |ms|
  {
    if ms == [] then Ok([])
    else
      var n := |ms| - 1;
      match PlanMeasures(e, ms[..n])
      case Err(x) => Err(x)
      case Ok(ps) => match PlanMeasure(e, ms[n]) case Err(x) => Err(x) case Ok(p) => Ok(ps + [p])
  }

  datatype FilterPlan = FilterPlan(col: Column, op: string, value: Value)

  function PlanFilter(e: Entity, f: Filter): Result<FilterPlan, CompileError> {
    match FilterField(e, f.field)
    case None => Err(UnknownFilterField(f.field))
    case Some(spec) =>
      match SqlOp(f.op)
      case None => Err(UnknownFilterOp(f.op))
      case Some(op) => match Coerce(spec.kind, f.value) case None => Err(BadValue(f.field)) case Some(v) => Ok(FilterPlan(spec.col, op, v))
  }

  function PlanFilters(e: Entity, fs: seq<Filter>): (r: Result<seq<FilterPlan>, CompileError>)
    ensures r.Ok? ==> |r.value| == |fs|
  {
    if fs == [] then Ok([])
    else
      var n := |fs| - 1;
      match PlanFilters(e, fs[..n])
      case Err(x) => Err(x)
      case Ok(ps) => match PlanFilter(e, fs[n]) case Err(x) => Err(x) case Ok(p) => Ok(ps + [p])
  }

  function KeyItems(es: seq<Expr>, ds: seq<string>): (r: seq<Item>)
    requires |es| == |ds|
    ensures |r| == |es| && forall i | 0 <= i < |es| :: r[i] == Key(es[i], Ident(ds[i]))
  {
    seq(|es|, i requires 0 <= i < |es| => Key(es[i], Ident(ds[i])))
  }

  function MeasureItems(ps: seq<MeasurePlan>): (r: seq<Item>)
    ensures |r| == |ps| && forall i | 0 <= i < |ps| :: r[i] == Measure(ps[i].agg, Ident(ps[i].name))
  {
    seq(|ps|, i requires 0 <= i < |ps| => Measure(ps[i].agg, Ident(ps[i].name)))
  }

  function Names(ps: seq<MeasurePlan>): (r: seq<string>)
    ensures |r| == |ps| && forall i | 0 <= i < |ps| :: r[i] == ps[i].name
  {
    seq(|ps|, i requires 0 <= i < |ps| => ps[i].name)
  }

  /** The organisation is parameter 1, the k-th filter parameter k + 1. */
  function Conditions(e: Entity, fs: seq<FilterPlan>): (r: seq<Condition>)
    ensures |r| == |fs| + 1 && r[0] == Condition(OrgColumn(e), "=", 1)
    ensures forall i | 0 <= i < |fs| :: r[i + 1] == Condition(fs[i].col, fs[i].op, i + 2)
  {
    [Condition(OrgColumn(e), "=", 1)] + seq(|fs|, i requires 0 <= i < |fs| => Condition(fs[i].col, fs[i].op, i + 2))
  }

  function Arguments(org: int, fs: seq<FilterPlan>): (r: seq<Value>)
    ensures |r| == |fs| + 1 && r[0] == Int(org)
    ensures forall i | 0 <= i < |fs| :: r[i + 1] == fs[i].value
  {
    [Int(org)] + seq(|fs|, i requires 0 <= i < |fs| => fs[i].value)
  }

  function Limit(limit: int): nat { if limit <= 0 || limit > MAX_ROWS then MAX_ROWS else limit }

  function MakeQuery(e: Entity, ds: seq<string>, es: seq<Expr>, ps: seq<MeasurePlan>, fs: seq<FilterPlan>, limit: int): Query
    requires |es| == |ds| && ps != []
  {
    Query(KeyItems(es, ds) + MeasureItems(ps), SourceOf(e), Conditions(e, fs), es, ps[0].agg, Limit(limit))
  }

  datatype Plan = Plan(query: Query, args: seq<Value>, cols: seq<string>)

  function PlanOf(org: int, def: Definition): Result<Plan, CompileError> {
    match EntityNamed(def.entity)
    case None => Err(UnknownEntity(def.entity))
    case Some(e) =>
      if def.measures == [] then Err(NoMeasures)
      else match PlanDimensions(e, def.dimensions)
        case Err(x) => Err(x)
        case Ok(es) =>
          match PlanMeasures(e, def.measures)
          case Err(x) => Err(x)
          case Ok(ps) =>
            match PlanFilters(e, def.filters)
            case Err(x) => Err(x)
            case Ok(fs) =>
              Ok(Plan(MakeQuery(e, def.dimensions, es, ps, fs, def.limit), Arguments(org, fs), def.dimensions + Names(ps)))
  }

  // ---- the compiler -------------------------------------------------------

  datatype Compiled = Compiled(sql: string, args: seq<Value>, cols: seq<string>)

  method Compile(org: int, def: Definition) returns (r: Result<Compiled, CompileError>)
    ensures r == match PlanOf(org, def)
                 case Err(x) => Err(x)
                 case Ok(p) => Ok(Compiled(QueryText(p.query), p.args, p.cols))
  {
    hide PlanDimensions, PlanMeasures, PlanFilters, QueryText, MakeQuery, Arguments, Texts, Names, Conditions, GroupText, KeyItems, MeasureItems, SourceOf, AggregateText;
    var entity := EntityNamed(def.entity);
    if entity.None? { return Err(UnknownEntity(def.entity)); }
    if |def.measures| == 0 { return Err(NoMeasures); }
    var e := entity.value;
    var failed, selects, groupBys, cols := AddDimensions(e, def.dimensions);
    if failed.Some? { return Err(failed.value); }
    var orderBy;
    failed, selects, cols, orderBy := AddMeasures(e, def.measures, selects, cols);
    if failed.Some? { return Err(failed.value); }
    var where, args;
    failed, where, args := AddFilters(org, e, def.filters);
    if failed.Some? { return Err(failed.value); }
    var sql := Assemble(selects, SourceText(SourceOf(e)), where, groupBys, orderBy, def.limit);
    ghost var es, ps, fs := PlanDimensions(e, def.dimensions).value, PlanMeasures(e, def.measures).value, PlanFilters(e, def.filters).value;
    AssembledText(e, def.dimensions, es, ps, fs, def.limit);
    return Ok(Compiled(sql, args, cols));
  }

  function Assembled(selects: seq<string>, from: string, where: seq<string>, groupBys: seq<string>, orderBy: string, limit: nat): string {
    "SELECT " + Joined(selects, ", ") + " FROM " + from + " WHERE " + Joined(where, " AND ")
    + (if groupBys == [] then "" else " GROUP BY " + Joined(groupBys, ", ")) + " ORDER BY " + orderBy + " LIMIT " + Itoa(limit)
  }

  method Assemble(selects: seq<string>, from: string, where: seq<string>, groupBys: seq<string>, orderBy: string, limit: int) returns (sb: string)
    ensures sb == Assembled(selects, from, where, groupBys, orderBy, Limit(limit))
  {
    hide Joined, Itoa;
    sb := "SELECT " + Joined(selects, ", ");
    sb := sb + " FROM ";
    sb := sb + from;
    sb := sb + " WHERE ";
    sb := sb + Joined(where, " AND ");
    assert sb + "" == sb;
    if |groupBys| > 0 { sb := sb + (" GROUP BY " + Joined(groupBys, ", ")); }
    sb := sb + " ORDER BY ";
    sb := sb + orderBy;
    var rows := limit;
    if rows <= 0 || rows > MAX_ROWS { rows := MAX_ROWS; }
    sb := sb + " LIMIT ";
    sb := sb + Itoa(rows);
  }

  lemma {:induction false} Shuffle(s: string, a: string, b: string, c: string, d: string)
    ensures s + (a + b) + c + d == s + a + (b + c) + d
  {
  }

  lemma {:induction false} DescLimit()
    ensures " DESC" + " LIMIT " == " DESC LIMIT "
  {
  }

  lemma {:induction false} TextsConcat<T>(text: T -> string, xs: seq<T>, ys: seq<T>)
    ensures Texts(text, xs + ys) == Texts(text, xs) + Texts(text, ys)
  {
  }

  lemma {:induction false} AssembledText(e: Entity, ds: seq<string>, es: seq<Expr>, ps: seq<MeasurePlan>, fs: seq<FilterPlan>, limit: int)
    requires |es| == |ds| && ps != []
    ensures Assembled(Texts(ItemText, KeyItems(es, ds)) + Texts(ItemText, MeasureItems(ps)), SourceText(SourceOf(e)),
                      Texts(ConditionText, Conditions(e, fs)), Texts(ExprText, es), AggregateText(ps[0].agg) + " DESC", Limit(limit))
         == QueryText(MakeQuery(e, ds, es, ps, fs, limit))
  {
    TextsConcat(ItemText, KeyItems(es, ds), MeasureItems(ps));
    DescLimit();
    var selects, where := Texts(ItemText, KeyItems(es, ds) + MeasureItems(ps)), Texts(ConditionText, Conditions(e, fs));
    assert Texts(ExprText, es) == [] <==> es == [];
    hide Joined, SourceText, SourceOf, Texts, KeyItems, MeasureItems, AggregateText, Itoa, Conditions, Limit;
    var prefix := "SELECT " + Joined(selects, ", ") + " FROM " + SourceText(SourceOf(e)) + " WHERE " + Joined(where, " AND ")
                  + GroupText(es) + " ORDER BY ";
    hide GroupText;
    Shuffle(prefix, AggregateText(ps[0].agg), " DESC", " LIMIT ", Itoa(Limit(limit)));
  }

  // ---- the compiler's loops -----------------------------------------------

  lemma {:induction false} TextsPush<T>(text: T -> string, xs: seq<T>, x: T)
    ensures Texts(text, xs + [x]) == Texts(text, xs) + [text(x)]
  {
  }

  lemma {:induction false} KeyPush(es: seq<Expr>, ds: seq<string>, x: Expr, d: string)
    requires |es| == |ds|
    ensures Texts(ItemText, KeyItems(es + [x], ds + [d])) == Texts(ItemText, KeyItems(es, ds)) + [SelectText(ExprText(x), Ident(d))]
  {
    assert KeyItems(es + [x], ds + [d]) == KeyItems(es, ds) + [Key(x, Ident(d))];
    TextsPush(ItemText, KeyItems(es, ds), Key(x, Ident(d)));
    hide Texts, KeyItems, Ident, ExprText;
  }

  lemma {:induction false} DimensionStep(e: Entity, ds: seq<string>, i: nat)
    requires i < |ds|
    ensures PlanDimensions(e, ds[..i + 1]) ==
            match PlanDimensions(e, ds[..i])
            case Err(x) => Err(x)
            case Ok(es) => match DimensionExpr(e, ds[i]) case None => Err(UnknownDimension(ds[i])) case Some(x) => Ok(es + [x])
  {
    assert ds[..i + 1][..i] == ds[..i];
    hide DimensionExpr;
  }

  lemma {:induction false} DimensionFails(e: Entity, ds: seq<string>, i: nat)
    requires i <= |ds| && PlanDimensions(e, ds[..i]).Err?
    ensures PlanDimensions(e, ds) == PlanDimensions(e, ds[..i])
    decreases |ds| - i
  {
    hide PlanDimensions;
    if i < |ds| {
      DimensionStep(e, ds, i);
      DimensionFails(e, ds, i + 1);
    } else {
      assert ds[..i] == ds;
    }
  }

  lemma {:induction false} DimensionAdded(e: Entity, ds: seq<string>, i: nat, es: seq<Expr>)
    requires i < |ds| && PlanDimensions(e, ds[..i]) == Ok(es)
    ensures DimensionExpr(e, ds[i]).None? ==> PlanDimensions(e, ds) == Err(UnknownDimension(ds[i]))
    ensures DimensionExpr(e, ds[i]).Some? ==>
              var x := DimensionExpr(e, ds[i]).value;
              && PlanDimensions(e, ds[..i + 1]) == Ok(es + [x])
              && Texts(ItemText, KeyItems(es + [x], ds[..i + 1])) == Texts(ItemText, KeyItems(es, ds[..i])) + [SelectText(ExprText(x), Ident(ds[i]))]
              && Texts(ExprText, es + [x]) == Texts(ExprText, es) + [ExprText(x)]
    ensures ds[..i + 1] == ds[..i] + [ds[i]]
  {
    hide *;
    DimensionStep(e, ds, i);
    assert ds[..i + 1] == ds[..i] + [ds[i]];
    if DimensionExpr(e, ds[i]).Some? {
      KeyPush(es, ds[..i], DimensionExpr(e, ds[i]).value, ds[i]);
      TextsPush(ExprText, es, DimensionExpr(e, ds[i]).value);
    } else {
      DimensionFails(e, ds, i + 1);
    }
  }

  lemma {:induction false} NoDimensions(e: Entity)
    ensures PlanDimensions(e, []) == Ok([]) && Texts(ItemText, KeyItems([], [])) == [] && Texts(ExprText, []) == []
  {
  }

  method AddDimensions(e: Entity, ds: seq<string>)
    returns (failed: Option<CompileError>, selects: seq<string>, groupBys: seq<string>, cols: seq<string>)
    ensures match PlanDimensions(e, ds)
            case Err(x) => failed == Some(x)
            case Ok(es) => failed == None && selects == Texts(ItemText, KeyItems(es, ds)) && groupBys == Texts(ExprText, es) && cols == ds
  {
    ghost var es: seq<Expr> := [];
    failed, selects, groupBys, cols := None, [], [], [];
    NoDimensions(e);
    assert ds[..0] == [];
    hide *;
    for i := 0 to |ds|
      invariant PlanDimensions(e, ds[..i]) == Ok(es) && |es| == i
      invariant selects == Texts(ItemText, KeyItems(es, ds[..i])) && groupBys == Texts(ExprText, es) && cols == ds[..i]
    {
      var d := ds[i];
      DimensionAdded(e, ds, i, es);
      var expr := DimensionExpr(e, d);
      if expr.None? {
        failed := Some(UnknownDimension(d));
        return;
      }
      es := es + [expr.value];
      selects := selects + [SelectText(ExprText(expr.value), Ident(d))];
      groupBys := groupBys + [ExprText(expr.value)];
      cols := cols + [d];
    }
    assert ds[..|ds|] == ds;
  }

  lemma {:induction false} MeasurePush(ps: seq<MeasurePlan>, p: MeasurePlan)
    ensures Texts(ItemText, MeasureItems(ps + [p])) == Texts(ItemText, MeasureItems(ps)) + [SelectText(AggregateText(p.agg), Ident(p.name))]
    ensures Names(ps + [p]) == Names(ps) + [p.name]
  {
    assert MeasureItems(ps + [p]) == MeasureItems(ps) + [Measure(p.agg, Ident(p.name))];
    TextsPush(ItemText, MeasureItems(ps), Measure(p.agg, Ident(p.name)));
    hide Texts, MeasureItems, Ident, AggregateText;
  }

  lemma {:induction false} MeasureStep(e: Entity, ms: seq<MeasureDef>, i: nat)
    requires i < |ms|
    ensures PlanMeasures(e, ms[..i + 1]) ==
            match PlanMeasures(e, ms[..i])
            case Err(x) => Err(x)
            case Ok(ps) => match PlanMeasure(e, ms[i]) case Err(x) => Err(x) case Ok(p) => Ok(ps + [p])
  {
    assert ms[..i + 1][..i] == ms[..i];
    hide PlanMeasure;
  }

  lemma {:induction false} MeasureFails(e: Entity, ms: seq<MeasureDef>, i: nat)
    requires i <= |ms| && PlanMeasures(e, ms[..i]).Err?
    ensures PlanMeasures(e, ms) == PlanMeasures(e, ms[..i])
    decreases |ms| - i
  {
    hide PlanMeasures;
    if i < |ms| {
      MeasureStep(e, ms, i);
      MeasureFails(e, ms, i + 1);
    } else {
      assert ms[..i] == ms;
    }
  }

  function WithMeasures(selects: seq<string>, ps: seq<MeasurePlan>): seq<string> { selects + Texts(ItemText, MeasureItems(ps)) }

  function WithNames(cols: seq<string>, ps: seq<MeasurePlan>): seq<string> { cols + Names(ps) }

  function OrderText(ps: seq<MeasurePlan>): string { if ps == [] then "" else AggregateText(ps[0].agg) + " DESC" }

  lemma {:induction false} MeasureAdded(e: Entity, ms: seq<MeasureDef>, i: nat, ps: seq<MeasurePlan>, selects: seq<string>, cols: seq<string>)
    requires i < |ms| && PlanMeasures(e, ms[..i]) == Ok(ps)
    ensures PlanMeasure(e, ms[i]).Err? ==> PlanMeasures(e, ms) == Err(PlanMeasure(e, ms[i]).error)
    ensures PlanMeasure(e, ms[i]).Ok? ==>
              var p := PlanMeasure(e, ms[i]).value;
              && PlanMeasures(e, ms[..i + 1]) == Ok(ps + [p])
              && WithMeasures(selects, ps + [p]) == WithMeasures(selects, ps) + [SelectText(AggregateText(p.agg), Ident(p.name))]
              && WithNames(cols, ps + [p]) == WithNames(cols, ps) + [p.name]
              && OrderText(ps + [p]) == if i == 0 then AggregateText(p.agg) + " DESC" else OrderText(ps)
  {
    hide Texts, MeasureItems, Names, SelectText, AggregateText, PlanMeasures, PlanMeasure, Ident, ItemText;
    MeasureStep(e, ms, i);
    if PlanMeasure(e, ms[i]).Ok? {
      MeasurePush(ps, PlanMeasure(e, ms[i]).value);
    } else {
      MeasureFails(e, ms, i + 1);
    }
  }

  lemma {:induction false} NoMeasurePlans(e: Entity, selects: seq<string>, cols: seq<string>)
    ensures PlanMeasures(e, []) == Ok([])
    ensures WithMeasures(selects, []) == selects && WithNames(cols, []) == cols && OrderText([]) == ""
  {
  }

  method AddMeasures(e: Entity, ms: seq<MeasureDef>, selects0: seq<string>, cols0: seq<string>)
    returns (failed: Option<CompileError>, selects: seq<string>, cols: seq<string>, orderBy: string)
    ensures match PlanMeasures(e, ms)
            case Err(x) => failed == Some(x)
            case Ok(ps) => failed == None && selects == WithMeasures(selects0, ps) && cols == WithNames(cols0, ps) && orderBy == OrderText(ps)
  {
    ghost var ps: seq<MeasurePlan> := [];
    failed, selects, cols, orderBy := None, selects0, cols0, "";
    NoMeasurePlans(e, selects0, cols0);
    assert ms[..0] == [];
    hide *;
    for i := 0 to |ms|
      invariant PlanMeasures(e, ms[..i]) == Ok(ps)
      invariant selects == WithMeasures(selects0, ps) && cols == WithNames(cols0, ps) && orderBy == OrderText(ps)
    {
      MeasureAdded(e, ms, i, ps, selects0, cols0);
      var err, expr, alias := MeasureText(e, ms[i]);
      if err.Some? {
        failed := err;
        return;
      }
      selects := selects + [SelectText(expr, Ident(alias))];
      cols := cols + [alias];
      if i == 0 { orderBy := expr + " DESC"; }
      ps := ps + [PlanMeasure(e, ms[i]).value];
    }
    assert ms[..|ms|] == ms;
  }

  method MeasureText(e: Entity, m: MeasureDef) returns (failed: Option<CompileError>, expr: string, alias: string)
    ensures match PlanMeasure(e, m)
            case Err(x) => failed == Some(x)
            case Ok(p) => failed == None && expr == AggregateText(p.agg) && alias == p.name
  {
    failed, expr, alias := None, "", "";
    if !AllowedAgg(m.agg) { return Some(UnknownAggregation(m.agg)), expr, alias; }
    hide MeasureColumn, ColumnText;
    if m.agg == "count" && (m.field == "" || m.field == "*") {
      expr, alias := "count(*)", "count";
    } else {
      var col := MeasureColumn(e, m.field);
      if col.None? { return Some(UnknownMeasure(m.field)), expr, alias; }
      expr := m.agg + "(" + ColumnText(col.value) + ")";
      alias := m.field + "_" + m.agg;
    }
  }

  lemma {:induction false} FilterPush(org: int, e: Entity, ps: seq<FilterPlan>, p: FilterPlan)
    ensures Texts(ConditionText, Conditions(e, ps + [p])) ==
            Texts(ConditionText, Conditions(e, ps)) + [BoundText(p.col, p.op, |ps| + 2)]
    ensures Arguments(org, ps + [p]) == Arguments(org, ps) + [p.value]
  {
    var c := Condition(p.col, p.op, |ps| + 2);
    assert Conditions(e, ps + [p]) == Conditions(e, ps) + [c];
    TextsPush(ConditionText, Conditions(e, ps), c);
    hide Texts, Conditions, Itoa, ColumnText;
  }

  lemma {:induction false} FilterStep(e: Entity, fs: seq<Filter>, i: nat)
    requires i < |fs|
    ensures PlanFilters(e, fs[..i + 1]) ==
            match PlanFilters(e, fs[..i])
            case Err(x) => Err(x)
            case Ok(ps) => match PlanFilter(e, fs[i]) case Err(x) => Err(x) case Ok(p) => Ok(ps + [p])
  {
    assert fs[..i + 1][..i] == fs[..i];
    hide PlanFilter;
  }

  lemma {:induction false} FilterFails(e: Entity, fs: seq<Filter>, i: nat)
    requires i <= |fs| && PlanFilters(e, fs[..i]).Err?
    ensures PlanFilters(e, fs) == PlanFilters(e, fs[..i])
    decreases |fs| - i
  {
    hide PlanFilters;
    if i < |fs| {
      FilterStep(e, fs, i);
      FilterFails(e, fs, i + 1);
    } else {
      assert fs[..i] == fs;
    }
  }

  lemma {:induction false} FilterAdded(org: int, e: Entity, fs: seq<Filter>, i: nat, ps: seq<FilterPlan>)
    requires i < |fs| && PlanFilters(e, fs[..i]) == Ok(ps)
    ensures PlanFilter(e, fs[i]).Err? ==> PlanFilters(e, fs) == Err(PlanFilter(e, fs[i]).error)
    ensures PlanFilter(e, fs[i]).Ok? ==>
              var p := PlanFilter(e, fs[i]).value;
              && PlanFilters(e, fs[..i + 1]) == Ok(ps + [p])
              && Texts(ConditionText, Conditions(e, ps + [p])) == Texts(ConditionText, Conditions(e, ps)) + [BoundText(p.col, p.op, |ps| + 2)]
              && Arguments(org, ps + [p]) == Arguments(org, ps) + [p.value]
              && |Arguments(org, ps + [p])| == |ps| + 2
  {
    hide *;
    FilterStep(e, fs, i);
    if PlanFilter(e, fs[i]).Ok? {
      FilterPush(org, e, ps, PlanFilter(e, fs[i]).value);
    } else {
      FilterFails(e, fs, i + 1);
    }
  }

  /** A comparison of a column with a numbered parameter, as text. */
  function BoundText(col: Column, op: string, param: nat): string { ColumnText(col) + " " + op + " $" + Itoa(param) }

  lemma {:induction false} OrgCondition(org: int, e: Entity)
    ensures [ColumnText(OrgColumn(e)) + " = $1"] == Texts(ConditionText, Conditions(e, [])) && [Int(org)] == Arguments(org, [])
  {
    assert Itoa(1) == "1";
    hide ColumnText, OrgColumn;
    var c := ColumnText(OrgColumn(e));
    assert c + " " + "=" + " $" + "1" == c + " = $1";
  }

  method AddFilters(org: int, e: Entity, fs: seq<Filter>) returns (failed: Option<CompileError>, where: seq<string>, args: seq<Value>)
    ensures match PlanFilters(e, fs)
            case Err(x) => failed == Some(x)
            case Ok(ps) => failed == None && where == Texts(ConditionText, Conditions(e, ps)) && args == Arguments(org, ps)
  {
    ghost var ps: seq<FilterPlan> := [];
    failed, args, where := None, [Int(org)], [ColumnText(OrgColumn(e)) + " = $1"];
    OrgCondition(org, e);
    assert PlanFilters(e, fs[..0]) == Ok(ps);
    hide *;
    for i := 0 to |fs|
      invariant PlanFilters(e, fs[..i]) == Ok(ps)
      invariant where == Texts(ConditionText, Conditions(e, ps)) && args == Arguments(org, ps)
    {
      FilterAdded(org, e, fs, i, ps);
      var err, col, op, val := CheckFilter(e, fs[i]);
      if err.Some? {
        failed := err;
        return;
      }
      args := args + [val];
      where := where + [BoundText(col, op, |args|)];
      ps := ps + [FilterPlan(col, op, val)];
    }
    assert fs[..|fs|] == fs;
  }

  method CheckFilter(e: Entity, f: Filter) returns (failed: Option<CompileError>, col: Column, op: string, val: Value)
    ensures match PlanFilter(e, f) case Err(x) => failed == Some(x) case Ok(p) => failed == None && p == FilterPlan(col, op, val)
  {
    hide FilterField, SqlOp, Coerce;
    failed, col, op, val := None, Column("", ""), "", Null;
    var spec := FilterField(e, f.field);
    if spec.None? { return Some(UnknownFilterField(f.field)), col, op, val; }
    var sqlOp := SqlOp(f.op);
    if sqlOp.None? { return Some(UnknownFilterOp(f.op)), col, op, val; }
    var coerced := Coerce(spec.value.kind, f.value);
    if coerced.None? { return Some(BadValue(f.field)), col, op, val; }
    return None, spec.value.col, sqlOp.value, coerced.value;
  }

  // ---- what is accepted ---------------------------------------------------

  predicate DimensionsKnown(e: Entity, ds: seq<string>) { forall i | 0 <= i < |ds| :: DimensionExpr(e, ds[i]).Some? }

  predicate MeasuresKnown(e: Entity, ms: seq<MeasureDef>) { forall i | 0 <= i < |ms| :: PlanMeasure(e, ms[i]).Ok? }

  predicate FiltersKnown(e: Entity, fs: seq<Filter>) { forall i | 0 <= i < |fs| :: PlanFilter(e, fs[i]).Ok? }

  lemma {:induction false} DimensionsPlan(e: Entity, ds: seq<string>)
    ensures PlanDimensions(e, ds).Ok? <==> DimensionsKnown(e, ds)
    ensures PlanDimensions(e, ds).Ok? ==> forall i | 0 <= i < |ds| :: DimensionExpr(e, ds[i]) == Some(PlanDimensions(e, ds).value[i])
  {
    hide DimensionExpr;
    if ds != [] { DimensionsPlan(e, ds[..|ds| - 1]); }
  }

  lemma {:induction false} MeasuresPlan(e: Entity, ms: seq<MeasureDef>)
    ensures PlanMeasures(e, ms).Ok? <==> MeasuresKnown(e, ms)
    ensures PlanMeasures(e, ms).Ok? ==> forall i | 0 <= i < |ms| :: PlanMeasure(e, ms[i]) == Ok(PlanMeasures(e, ms).value[i])
  {
    hide PlanMeasure;
    if ms != [] { MeasuresPlan(e, ms[..|ms| - 1]); }
  }

  lemma {:induction false} FiltersPlan(e: Entity, fs: seq<Filter>)
    ensures PlanFilters(e, fs).Ok? <==> FiltersKnown(e, fs)
    ensures PlanFilters(e, fs).Ok? ==> forall i | 0 <= i < |fs| :: PlanFilter(e, fs[i]) == Ok(PlanFilters(e, fs).value[i])
  {
    hide PlanFilter;
    if fs != [] { FiltersPlan(e, fs[..|fs| - 1]); }
  }

  lemma {:induction false} AcceptedParts(org: int, def: Definition)
    ensures PlanOf(org, def).Ok? <==>
            && EntityNamed(def.entity).Some? && def.measures != []
            && DimensionsKnown(EntityNamed(def.entity).value, def.dimensions)
            && MeasuresKnown(EntityNamed(def.entity).value, def.measures)
            && FiltersKnown(EntityNamed(def.entity).value, def.filters)
  {
    if EntityNamed(def.entity).Some? {
      DimensionsPlan(EntityNamed(def.entity).value, def.dimensions);
      MeasuresPlan(EntityNamed(def.entity).value, def.measures);
      FiltersPlan(EntityNamed(def.entity).value, def.filters);
    }
    hide PlanDimensions, PlanMeasures, PlanFilters, DimensionsKnown, MeasuresKnown, FiltersKnown, EntityNamed, MakeQuery, Arguments;
  }

  // ---- the allow-lists, by name -------------------------------------------

  predicate ListedDimension(entity: string, d: string) {
    || d in {"day", "week", "month", "currency"}
    || (d == "status" && entity in {"orders", "invoices"})
    || (d == "customer" && entity == "orders")
    || (d == "stage" && entity == "opportunities")
  }

  predicate ListedColumn(entity: string, field: string) {
    field in (if entity == "opportunities" then {"amount"} else {"grand_total", "subtotal", "tax_total"})
  }

  predicate ListedMeasure(entity: string, m: MeasureDef) {
    m.agg in {"sum", "avg", "count", "min", "max"} &&
    ((m.agg == "count" && m.field in {"", "*"}) || ListedColumn(entity, m.field))
  }

  predicate ListedField(entity: string, field: string) {
    || field in {"currency", "created_at"}
    || (field == "status" && entity in {"orders", "invoices"})
    || (field == "customer" && entity == "orders")
    || (field == "stage" && entity == "opportunities")
  }

  /** A date needs a string that reads as one, a customer a number; anything can be compared as text. */
  predicate Readable(f: Filter) {
    (f.field == "created_at" ==> f.value.Str? && f.value.instant.Some?) && (f.field == "customer" ==> AsNumber(f.value).Some?)
  }

  predicate ListedFilter(entity: string, f: Filter) {
    ListedField(entity, f.field) && f.op in {"eq", "ne", "gt", "gte", "lt", "lte"} && Readable(f)
  }

  lemma {:induction false} EntityListed(name: string)
    ensures EntityNamed(name).Some? <==> name in {"orders", "invoices", "opportunities"}
    ensures EntityNamed(name).Some? ==>
              (EntityNamed(name).value.Orders? <==> name == "orders") && (EntityNamed(name).value.Opportunities? <==> name == "opportunities")
  {
  }

  lemma {:induction false} DimensionListed(name: string, d: string)
    requires EntityNamed(name).Some?
    ensures DimensionExpr(EntityNamed(name).value, d).Some? <==> ListedDimension(name, d)
  {
    EntityListed(name);
    hide EntityNamed;
  }

  lemma {:induction false} MeasureListed(name: string, m: MeasureDef)
    requires EntityNamed(name).Some?
    ensures var r := PlanMeasure(EntityNamed(name).value, m);
            && (r.Ok? <==> ListedMeasure(name, m))
            && (r.Err? ==> r.error == if m.agg in {"sum", "avg", "count", "min", "max"} then UnknownMeasure(m.field) else UnknownAggregation(m.agg))
  {
    EntityListed(name);
    hide EntityNamed;
  }

  lemma {:induction false} FilterListed(name: string, f: Filter)
    requires EntityNamed(name).Some?
    ensures var r := PlanFilter(EntityNamed(name).value, f);
            && (r.Ok? <==> ListedFilter(name, f))
            && (r.Err? ==> r.error == if !ListedField(name, f.field) then UnknownFilterField(f.field)
                                      else if f.op !in {"eq", "ne", "gt", "gte", "lt", "lte"} then UnknownFilterOp(f.op)
                                      else BadValue(f.field))
  {
    EntityListed(name);
    OpListed(f.op);
    FieldListed(name, f.field);
    hide EntityNamed, SqlOp, FilterField, ListedField;
  }

  lemma {:induction false} OpListed(op: string)
    ensures SqlOp(op).Some? <==> op in {"eq", "ne", "gt", "gte", "lt", "lte"}
  {
  }

  lemma {:induction false} FieldListed(name: string, field: string)
    requires EntityNamed(name).Some?
    ensures var spec := FilterField(EntityNamed(name).value, field);
            && (spec.Some? <==> ListedField(name, field))
            && (spec.Some? ==> spec.value.kind == if field == "created_at" then DateKind else if field == "customer" then NumKind else TextKind)
  {
    EntityListed(name);
    hide EntityNamed;
  }

  /** A definition is accepted exactly when it names one of the three entities and a measure, and every dimension, measure
      and filter is on that entity's allow-lists, with a filter value that can be read. */
  lemma {:induction false} AcceptedIff(org: int, def: Definition)
    ensures PlanOf(org, def).Ok? <==>
            && def.entity in {"orders", "invoices", "opportunities"} && def.measures != []
            && (forall i | 0 <= i < |def.dimensions| :: ListedDimension(def.entity, def.dimensions[i]))
            && (forall i | 0 <= i < |def.measures| :: ListedMeasure(def.entity, def.measures[i]))
            && (forall i | 0 <= i < |def.filters| :: ListedFilter(def.entity, def.filters[i]))
  {
    AcceptedParts(org, def);
    EntityListed(def.entity);
    if EntityNamed(def.entity).Some? {
      forall i | 0 <= i < |def.dimensions| ensures DimensionExpr(EntityNamed(def.entity).value, def.dimensions[i]).Some? <==> ListedDimension(def.entity, def.dimensions[i]) {
        DimensionListed(def.entity, def.dimensions[i]);
      }
      forall i | 0 <= i < |def.measures| ensures PlanMeasure(EntityNamed(def.entity).value, def.measures[i]).Ok? <==> ListedMeasure(def.entity, def.measures[i]) {
        MeasureListed(def.entity, def.measures[i]);
      }
      forall i | 0 <= i < |def.filters| ensures PlanFilter(EntityNamed(def.entity).value, def.filters[i]).Ok? <==> ListedFilter(def.entity, def.filters[i]) {
        FilterListed(def.entity, def.filters[i]);
      }
    }
    hide PlanOf, EntityNamed, DimensionExpr, PlanMeasure, PlanFilter, ListedDimension, ListedMeasure, ListedFilter;
  }

  /** The first offending part decides the error: dimensions before measures before filters. */
  lemma {:induction false} RefusedFor(org: int, def: Definition) returns (i: nat)
    requires PlanOf(org, def).Err?
    ensures var x := PlanOf(org, def).error;
            if def.entity !in {"orders", "invoices", "opportunities"} then x == UnknownEntity(def.entity)
            else if def.measures == [] then x == NoMeasures
            else if exists k | 0 <= k < |def.dimensions| :: !ListedDimension(def.entity, def.dimensions[k]) then
              i < |def.dimensions| && x == UnknownDimension(def.dimensions[i]) && !ListedDimension(def.entity, def.dimensions[i]) &&
              forall k | 0 <= k < i :: ListedDimension(def.entity, def.dimensions[k])
            else if exists k | 0 <= k < |def.measures| :: !ListedMeasure(def.entity, def.measures[k]) then
              i < |def.measures| && !ListedMeasure(def.entity, def.measures[i]) &&
              x == (if def.measures[i].agg in {"sum", "avg", "count", "min", "max"} then UnknownMeasure(def.measures[i].field)
                    else UnknownAggregation(def.measures[i].agg)) &&
              forall k | 0 <= k < i :: ListedMeasure(def.entity, def.measures[k])
            else
              i < |def.filters| && !ListedFilter(def.entity, def.filters[i]) &&
              x == (if !ListedField(def.entity, def.filters[i].field) then UnknownFilterField(def.filters[i].field)
                    else if def.filters[i].op !in {"eq", "ne", "gt", "gte", "lt", "lte"} then UnknownFilterOp(def.filters[i].op)
                    else BadValue(def.filters[i].field)) &&
              forall k | 0 <= k < i :: ListedFilter(def.entity, def.filters[k])
  {
    EntityListed(def.entity);
    i := 0;
    if EntityNamed(def.entity).Some? && def.measures != [] {
      var e := EntityNamed(def.entity).value;
      hide EntityNamed, ListedDimension, ListedMeasure, ListedFilter, ListedField, PlanMeasure, PlanFilter, DimensionExpr, MakeQuery, Arguments, Names;
      var a := DimensionRefused(def.entity, def.dimensions);
      var b := MeasureRefused(def.entity, def.measures);
      var c := FilterRefused(def.entity, def.filters);
      i := if PlanDimensions(e, def.dimensions).Err? then a else if PlanMeasures(e, def.measures).Err? then b else c;
      hide PlanDimensions, PlanMeasures, PlanFilters;
    }
  }

  lemma {:induction false} DimensionRefused(name: string, ds: seq<string>) returns (i: nat)
    requires EntityNamed(name).Some?
    ensures var r := PlanDimensions(EntityNamed(name).value, ds);
            if r.Ok? then forall k | 0 <= k < |ds| :: ListedDimension(name, ds[k])
            else i < |ds| && r.error == UnknownDimension(ds[i]) && !ListedDimension(name, ds[i]) && forall k | 0 <= k < i :: ListedDimension(name, ds[k])
  {
    i := 0;
    hide EntityNamed, DimensionExpr, ListedDimension;
    if ds != [] {
      var n := |ds| - 1;
      i := DimensionRefused(name, ds[..n]);
      assert forall k | 0 <= k < n :: ds[..n][k] == ds[k];
      DimensionListed(name, ds[n]);
      if PlanDimensions(EntityNamed(name).value, ds[..n]).Ok? { i := n; }
    }
  }

  lemma {:induction false} MeasureRefused(name: string, ms: seq<MeasureDef>) returns (i: nat)
    requires EntityNamed(name).Some?
    ensures var r := PlanMeasures(EntityNamed(name).value, ms);
            if r.Ok? then forall k | 0 <= k < |ms| :: ListedMeasure(name, ms[k])
            else i < |ms| && PlanMeasure(EntityNamed(name).value, ms[i]) == Err(r.error) && !ListedMeasure(name, ms[i]) &&
                 r.error == (if ms[i].agg in {"sum", "avg", "count", "min", "max"} then UnknownMeasure(ms[i].field) else UnknownAggregation(ms[i].agg)) &&
                 forall k | 0 <= k < i :: ListedMeasure(name, ms[k])
  {
    i := 0;
    hide EntityNamed, PlanMeasure, ListedMeasure;
    if ms != [] {
      var n := |ms| - 1;
      i := MeasureRefused(name, ms[..n]);
      assert forall k | 0 <= k < n :: ms[..n][k] == ms[k];
      MeasureListed(name, ms[n]);
      if PlanMeasures(EntityNamed(name).value, ms[..n]).Ok? { i := n; }
    }
  }

  lemma {:induction false} FilterRefused(name: string, fs: seq<Filter>) returns (i: nat)
    requires EntityNamed(name).Some?
    ensures var r := PlanFilters(EntityNamed(name).value, fs);
            if r.Ok? then forall k | 0 <= k < |fs| :: ListedFilter(name, fs[k])
            else i < |fs| && !ListedFilter(name, fs[i]) &&
                 r.error == (if !ListedField(name, fs[i].field) then UnknownFilterField(fs[i].field)
                             else if fs[i].op !in {"eq", "ne", "gt", "gte", "lt", "lte"} then UnknownFilterOp(fs[i].op)
                             else BadValue(fs[i].field)) &&
                 forall k | 0 <= k < i :: ListedFilter(name, fs[k])
  {
    i := 0;
    hide EntityNamed, PlanFilter, ListedFilter, ListedField;
    if fs != [] {
      var n := |fs| - 1;
      i := FilterRefused(name, fs[..n]);
      assert forall k | 0 <= k < n :: fs[..n][k] == fs[k];
      FilterListed(name, fs[n]);
      if PlanFilters(EntityNamed(name).value, fs[..n]).Ok? { i := n; }
    }
  }

  /** The parts an accepted plan is made of. */
  lemma {:induction false} PlanParts(org: int, def: Definition)
    requires PlanOf(org, def).Ok?
    ensures EntityNamed(def.entity).Some? && def.measures != []
    ensures var e := EntityNamed(def.entity).value;
            && PlanDimensions(e, def.dimensions).Ok? && PlanMeasures(e, def.measures).Ok? && PlanFilters(e, def.filters).Ok?
            && PlanOf(org, def).value ==
               Plan(MakeQuery(e, def.dimensions, PlanDimensions(e, def.dimensions).value, PlanMeasures(e, def.measures).value,
                              PlanFilters(e, def.filters).value, def.limit),
                    Arguments(org, PlanFilters(e, def.filters).value), def.dimensions + Names(PlanMeasures(e, def.measures).value))
  {
    hide PlanDimensions, PlanMeasures, PlanFilters, EntityNamed, MakeQuery, Arguments, Names;
  }

  /** Each numbered parameter is bound to its own filter's value, the first to the organisation, and there are no
      others. */
  lemma {:induction false} ParametersBind(org: int, def: Definition, k: nat)
    requires PlanOf(org, def).Ok? && k < |def.filters|
    ensures var p, e := PlanOf(org, def).value, EntityNamed(def.entity).value;
            && |p.args| == |p.query.where| == |def.filters| + 1
            && p.query.where[0] == Condition(OrgColumn(e), "=", 1) && Argument(p.args, 1) == Int(org)
            && FilterField(e, def.filters[k].field).Some?
            && Says(def.filters[k].field, def.filters[k].value, Argument(p.args, p.query.where[k + 1].param))
            && p.query.where[k + 1].col == FilterField(e, def.filters[k].field).value.col
            && Some(p.query.where[k + 1].op) == SqlOp(def.filters[k].op)
  {
    hide *;
    WhereParts(org, def);
    var e := EntityNamed(def.entity).value;
    FiltersPlan(e, def.filters);
    assert PlanFilter(e, def.filters[k]) == Ok(PlanFilters(e, def.filters).value[k]);
    FilterParts(e, def.filters[k]);
    BoundSays(def.entity, def.filters[k]);
    ArgumentIs(PlanOf(org, def).value.args, 0);
    ArgumentIs(PlanOf(org, def).value.args, k + 1);
  }

  lemma {:induction false} BoundSays(name: string, f: Filter)
    requires EntityNamed(name).Some? && PlanFilter(EntityNamed(name).value, f).Ok?
    ensures Says(f.field, f.value, PlanFilter(EntityNamed(name).value, f).value.value)
  {
    FieldListed(name, f.field);
    hide FilterField, EntityNamed, SqlOp;
  }

  lemma {:induction false} ArgumentIs(args: seq<Value>, k: nat)
    requires k < |args|
    ensures Argument(args, k + 1) == args[k]
  {
  }

  lemma {:induction false} WhereParts(org: int, def: Definition)
    requires PlanOf(org, def).Ok?
    ensures EntityNamed(def.entity).Some?
    ensures var e, p := EntityNamed(def.entity).value, PlanOf(org, def).value;
            && PlanFilters(e, def.filters).Ok?
            && p.query.where == Conditions(e, PlanFilters(e, def.filters).value)
            && p.args == Arguments(org, PlanFilters(e, def.filters).value)
  {
    PlanParts(org, def);
    hide PlanOf, PlanDimensions, PlanMeasures, PlanFilters, EntityNamed, Arguments, Names, Conditions, KeyItems, MeasureItems, SourceOf;
  }

  lemma {:induction false} FilterParts(e: Entity, f: Filter)
    requires PlanFilter(e, f).Ok?
    ensures var p := PlanFilter(e, f).value;
            && FilterField(e, f.field).Some? && p.col == FilterField(e, f.field).value.col
            && Some(p.op) == SqlOp(f.op) && Some(p.value) == Coerce(FilterField(e, f.field).value.kind, f.value)
  {
    hide FilterField, SqlOp, Coerce;
  }

  lemma {:induction false} SameConditions(e: Entity, fs: seq<FilterPlan>, gs: seq<FilterPlan>)
    requires |fs| == |gs| && forall i | 0 <= i < |fs| :: fs[i].col == gs[i].col && fs[i].op == gs[i].op
    ensures Conditions(e, fs) == Conditions(e, gs)
  {
  }

  lemma {:induction false} SameQuery(e: Entity, ds: seq<string>, es: seq<Expr>, ps: seq<MeasurePlan>, fs: seq<FilterPlan>, gs: seq<FilterPlan>, limit: int)
    requires |es| == |ds| && ps != [] && Conditions(e, fs) == Conditions(e, gs)
    ensures MakeQuery(e, ds, es, ps, fs, limit) == MakeQuery(e, ds, es, ps, gs, limit)
  {
  }

  /** Two definitions that differ in filter values only. */
  predicate SameShape(a: Definition, b: Definition) {
    && a.entity == b.entity && a.dimensions == b.dimensions && a.measures == b.measures && a.limit == b.limit
    && |a.filters| == |b.filters|
    && forall i | 0 <= i < |a.filters| :: a.filters[i].field == b.filters[i].field && a.filters[i].op == b.filters[i].op
  }

  lemma {:induction false} ShapeFilters(e: Option<Entity>, a: Definition, b: Definition)
    requires SameShape(a, b)
    ensures a.entity == b.entity && a.dimensions == b.dimensions && a.measures == b.measures && a.limit == b.limit
    ensures e.Some? && PlanFilters(e.value, a.filters).Ok? && PlanFilters(e.value, b.filters).Ok? ==>
              var fs, gs := PlanFilters(e.value, a.filters).value, PlanFilters(e.value, b.filters).value;
              |fs| == |gs| && forall i | 0 <= i < |fs| :: fs[i].col == gs[i].col && fs[i].op == gs[i].op
  {
    hide PlanFilters, PlanFilter, FiltersKnown;
    if e.Some? && PlanFilters(e.value, a.filters).Ok? && PlanFilters(e.value, b.filters).Ok? {
      FiltersPlan(e.value, a.filters);
      FiltersPlan(e.value, b.filters);
      var fs, gs := PlanFilters(e.value, a.filters).value, PlanFilters(e.value, b.filters).value;
      forall i | 0 <= i < |fs| ensures fs[i].col == gs[i].col && fs[i].op == gs[i].op {
        assert PlanFilter(e.value, a.filters[i]) == Ok(fs[i]) && PlanFilter(e.value, b.filters[i]) == Ok(gs[i]);
        FilterParts(e.value, a.filters[i]);
        FilterParts(e.value, b.filters[i]);
      }
    }
  }

  /** No filter value, and no organisation, reaches the SQL text: it is the same for every value a filter may have. */
  lemma {:induction false} TextIgnoresValues(org: int, a: Definition, org': int, b: Definition)
    requires SameShape(a, b) && PlanOf(org, a).Ok? && PlanOf(org', b).Ok?
    ensures QueryText(PlanOf(org, a).value.query) == QueryText(PlanOf(org', b).value.query)
  {
    ShapeFilters(EntityNamed(a.entity), a, b);
    hide *;
    PlanParts(org, a);
    PlanParts(org', b);
    var e := EntityNamed(a.entity).value;
    var fs, gs := PlanFilters(e, a.filters).value, PlanFilters(e, b.filters).value;
    SameConditions(e, fs, gs);
    SameQuery(e, a.dimensions, PlanDimensions(e, a.dimensions).value, PlanMeasures(e, a.measures).value, fs, gs, a.limit);
  }

  // ---- names --------------------------------------------------------------

  lemma {:induction false} SafeDimensions(e: Entity, d: string)
    requires DimensionExpr(e, d).Some?
    ensures Safe(d) && d != ""
  {
    assert Safe("day") && Safe("week") && Safe("month") && Safe("currency") && Safe("status") && Safe("customer") && Safe("stage");
  }

  lemma {:induction false} SafeMeasures(e: Entity, f: string)
    requires MeasureColumn(e, f).Some?
    ensures Safe(f) && f != ""
  {
    assert Safe("grand_total") && Safe("subtotal") && Safe("tax_total") && Safe("amount");
  }

  lemma {:induction false} SafeAggs(agg: string)
    requires AllowedAgg(agg)
    ensures Safe(agg) && agg != "" && agg != "date_trunc"
  {
    assert Safe("sum") && Safe("avg") && Safe("count") && Safe("min") && Safe("max");
  }

  lemma {:induction false} SafeTables()
    ensures Safe("o") && Safe("i") && Safe("op") && Safe("ps") && Safe("orders") && Safe("invoices") && Safe("opportunities")
  {
  }

  lemma {:induction false} SafeColumns()
    ensures Safe("organization_id") && Safe("customer_id") && Safe("created_at") && Safe("order_id") && Safe("stage_id")
    ensures Safe("pipeline_stages") && Safe("name") && Safe("id") && Safe("currency") && Safe("status")
  {
  }

  lemma {:induction false} SafeWord(s: string)
    requires Safe(s) && s != ""
    ensures IsWord(s)
  {
  }

  lemma {:induction false} SafeMeasureName(e: Entity, m: MeasureDef)
    requires PlanMeasure(e, m).Ok?
    ensures Safe(PlanMeasure(e, m).value.name) && PlanMeasure(e, m).value.name != ""
  {
    SafeAggs(m.agg);
    if PlanMeasure(e, m).value.agg.Fold? { SafeMeasures(e, m.field); }
    hide AllowedAgg, MeasureColumn;
    assert Safe("count") && SafeChar('_');
  }

  /** The fallback alias is never used: every output name is the dimension's or measure's own. */
  lemma {:induction false} IdentUnchanged(org: int, def: Definition, i: nat)
    requires PlanOf(org, def).Ok? && i < |PlanOf(org, def).value.cols|
    ensures var p := PlanOf(org, def).value;
            |p.query.items| == |p.cols| && p.query.items[i].name == p.cols[i]
  {
    hide *;
    PlanParts(org, def);
    var e := EntityNamed(def.entity).value;
    DimensionsPlan(e, def.dimensions);
    MeasuresPlan(e, def.measures);
    var n := |def.dimensions|;
    ItemNames(e, def.dimensions, PlanDimensions(e, def.dimensions).value, PlanMeasures(e, def.measures).value, PlanFilters(e, def.filters).value, def.limit);
    if i < n {
      SafeDimensions(e, def.dimensions[i]);
      SafeIdent(def.dimensions[i]);
    } else {
      SafeMeasureName(e, def.measures[i - n]);
      SafeIdent(PlanMeasures(e, def.measures).value[i - n].name);
    }
  }

  lemma {:induction false} ItemNames(e: Entity, ds: seq<string>, es: seq<Expr>, ps: seq<MeasurePlan>, fs: seq<FilterPlan>, limit: int)
    requires |es| == |ds| && ps != []
    ensures var items := MakeQuery(e, ds, es, ps, fs, limit).items;
            && |items| == |ds| + |ps|
            && (forall i | 0 <= i < |ds| :: items[i].name == Ident(ds[i]))
            && (forall i | |ds| <= i < |ds| + |ps| :: items[i].name == Ident(ps[i - |ds|].name))
  {
    hide Ident;
  }

  lemma {:induction false} PlainMain(e: Entity)
    ensures PlainSource(SourceOf(e)) && PlainColumn(OrgColumn(e))
    ensures IsWord(Main(e)) && Main(e) != "date_trunc"
  {
    SafeTables();
    SafeColumns();
    hide Safe, IsWord;
    SafeWord("o"); SafeWord("i"); SafeWord("op"); SafeWord("ps");
    SafeWord("orders"); SafeWord("invoices"); SafeWord("opportunities"); SafeWord("pipeline_stages");
    SafeWord("id"); SafeWord("order_id"); SafeWord("stage_id"); SafeWord("organization_id");
  }

  lemma {:induction false} PlainNames(e: Entity)
    ensures forall d | DimensionExpr(e, d).Some? :: PlainExpr(DimensionExpr(e, d).value)
    ensures forall f | MeasureColumn(e, f).Some? :: PlainColumn(MeasureColumn(e, f).value)
    ensures forall f | FilterField(e, f).Some? :: PlainColumn(FilterField(e, f).value.col)
  {
    PlainMain(e);
    SafeTables();
    SafeColumns();
    hide Safe, IsWord, Main;
    SafeWord("created_at"); SafeWord("currency"); SafeWord("status"); SafeWord("customer_id");
    SafeWord("o"); SafeWord("op"); SafeWord("ps"); SafeWord("name");
    forall d | DimensionExpr(e, d).Some? ensures PlainExpr(DimensionExpr(e, d).value) {
      SafeDimensions(e, d);
      SafeWord(d);
    }
    forall f | MeasureColumn(e, f).Some? ensures PlainColumn(MeasureColumn(e, f).value) {
      SafeMeasures(e, f);
      SafeWord(f);
    }
  }

  lemma {:induction false} PlainOp(op: string)
    requires SqlOp(op).Some?
    ensures IsOp(SqlOp(op).value)
  {
  }

  lemma {:induction false} PlainMeasure(e: Entity, m: MeasureDef)
    requires PlanMeasure(e, m).Ok?
    ensures var p := PlanMeasure(e, m).value; PlainAggregate(p.agg) && IsWord(Ident(p.name))
  {
    PlainNames(e);
    SafeAggs(m.agg);
    SafeMeasureName(e, m);
    hide Safe, IsWord, AllowedAgg, MeasureColumn, PlainColumn, DimensionExpr, FilterField;
    SafeWord(m.agg);
    SafeWord(PlanMeasure(e, m).value.name);
  }

  lemma {:induction false} PlanPlain(org: int, def: Definition)
    requires PlanOf(org, def).Ok?
    ensures Plain(PlanOf(org, def).value.query)
  {
    PlanParts(org, def);
    var e, q := EntityNamed(def.entity).value, PlanOf(org, def).value.query;
    hide PlanOf, PlanDimensions, PlanMeasures, PlanFilters, EntityNamed, PlainItem, PlainCondition, PlainExpr, PlainAggregate, PlainSource, Arguments, Names;
    DimensionsPlan(e, def.dimensions);
    MeasuresPlan(e, def.measures);
    PlainNames(e);
    PlainMain(e);
    PlainMeasure(e, def.measures[0]);
    hide DimensionExpr, PlanMeasure, MeasureColumn, FilterField, MeasuresKnown, DimensionsKnown, SourceOf, OrgColumn, Ident, IsWord, Limit;
    var es, ps := PlanDimensions(e, def.dimensions).value, PlanMeasures(e, def.measures).value;
    PlainKeys(e, def.dimensions, es);
    PlainMeasures(e, def.measures, ps);
    PlainConditions(e, def.filters);
    hide KeyItems, MeasureItems, Conditions;
  }

  lemma {:induction false} PlainKeys(e: Entity, ds: seq<string>, es: seq<Expr>)
    requires |es| == |ds| && forall i | 0 <= i < |ds| :: DimensionExpr(e, ds[i]) == Some(es[i])
    ensures forall i | 0 <= i < |ds| :: PlainItem(KeyItems(es, ds)[i])
  {
    PlainNames(e);
    hide DimensionExpr, PlainExpr, MeasureColumn, FilterField, PlainColumn, IsWord, Ident, Safe;
    forall i | 0 <= i < |ds| ensures PlainItem(KeyItems(es, ds)[i]) {
      SafeDimensions(e, ds[i]);
      SafeWord(ds[i]);
      SafeIdent(ds[i]);
    }
  }

  lemma {:induction false} PlainMeasures(e: Entity, ms: seq<MeasureDef>, ps: seq<MeasurePlan>)
    requires |ps| == |ms| && forall i | 0 <= i < |ms| :: PlanMeasure(e, ms[i]) == Ok(ps[i])
    ensures forall i | 0 <= i < |ms| :: PlainItem(MeasureItems(ps)[i])
  {
    hide PlanMeasure, PlainAggregate, IsWord, Ident;
    forall i | 0 <= i < |ms| ensures PlainItem(MeasureItems(ps)[i]) { PlainMeasure(e, ms[i]); }
  }

  lemma {:induction false} PlainConditions(e: Entity, fs: seq<Filter>)
    requires PlanFilters(e, fs).Ok?
    ensures var cs := Conditions(e, PlanFilters(e, fs).value); forall i | 0 <= i < |cs| :: PlainCondition(cs[i])
  {
    var ps := PlanFilters(e, fs).value;
    FiltersPlan(e, fs);
    PlainNames(e);
    PlainMain(e);
    EqualsOp();
    hide PlanFilters, DimensionExpr, PlainExpr, MeasureColumn, FilterField, PlainColumn, SqlOp, Coerce, IsOp, FiltersKnown, PlainSource, OrgColumn, Conditions;
    var cs := Conditions(e, ps);
    forall i | 0 <= i < |cs| ensures PlainCondition(cs[i]) {
      if i > 0 {
        assert PlanFilter(e, fs[i - 1]) == Ok(ps[i - 1]) && cs[i] == Condition(ps[i - 1].col, ps[i - 1].op, i + 1);
        PlainOp(fs[i - 1].op);
      }
    }
  }

  lemma {:induction false} EqualsOp()
    ensures IsOp("=")
  {
  }

  lemma {:induction false} SafeIdent(s: string)
    requires Safe(s)
    ensures Ident(s) == s
  {
  }

  /** The SQL text written for an accepted definition reads back as exactly the planned query. */
  lemma {:induction false} CompiledReadsBack(org: int, def: Definition)
    requires PlanOf(org, def).Ok?
    ensures ReadQuery(QueryText(PlanOf(org, def).value.query)) == Some(PlanOf(org, def).value.query)
  {
    PlanPlain(org, def);
    hide Plain, QueryText, PlanOf;
    QueryReadsBack(PlanOf(org, def).value.query);
  }
}
