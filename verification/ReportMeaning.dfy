/** What a report definition asks for, stated on the stored entities without SQL, and the proof that the compiled text
    returns exactly that. */
module ReportMeaning {
  import opened Prelude
  import opened Sql
  import opened Relational
  import opened Report

  // ---- the direct meaning -------------------------------------------------

  /** One thing a report counts: an order, an invoice with its order, or an opportunity. */
  datatype Fact = OrderFact(order: Order) | InvoiceFact(invoice: Invoice, order: Order) | OpportunityFact(opportunity: Opportunity)

  function OrderWithId(orders: seq<Order>, id: int): Option<Order> {
    if orders == [] then None
    else if orders[|orders| - 1].id == id then Some(orders[|orders| - 1])
    else OrderWithId(orders[..|orders| - 1], id)
  }

  function OrderFacts(orders: seq<Order>): seq<Fact> {
    if orders == [] then [] else OrderFacts(orders[..|orders| - 1]) + [OrderFact(orders[|orders| - 1])]
  }

  function InvoiceFacts(invoices: seq<Invoice>, orders: seq<Order>): seq<Fact> {
    if invoices == [] then []
    else
      var i := invoices[|invoices| - 1];
      InvoiceFacts(invoices[..|invoices| - 1], orders) + OrderFor(i, orders)
  }

  function OrderFor(i: Invoice, orders: seq<Order>): seq<Fact> {
    match OrderWithId(orders, i.order) case Some(o) => [InvoiceFact(i, o)] case None => []
  }

  function OpportunityFacts(ps: seq<Opportunity>): seq<Fact> {
    if ps == [] then [] else OpportunityFacts(ps[..|ps| - 1]) + [OpportunityFact(ps[|ps| - 1])]
  }

  function AllFacts(e: Entity, db: Database): seq<Fact> {
    match e
    case Orders => OrderFacts(db.orders)
    case Invoices => InvoiceFacts(db.invoices, db.orders)
    case Opportunities => OpportunityFacts(db.opportunities)
  }

  /** The organisation a fact belongs to; an invoice to its order's. */
  function Owner(f: Fact): int { if f.OpportunityFact? then f.opportunity.org else f.order.org }

  function Attribute(f: Fact, name: string): Value {
    match f
    case OrderFact(o) =>
      if name == "status" then Text(o.status) else if name == "currency" then Text(o.currency)
      else if name == "customer" then Int(o.customer) else if name == "created_at" then Time(o.createdAt)
      else if name == "subtotal" then Num(o.subtotal) else if name == "tax_total" then Num(o.taxTotal)
      else if name == "grand_total" then Num(o.grandTotal) else Null
    case InvoiceFact(i, _) =>
      if name == "status" then Text(i.status) else if name == "currency" then Text(i.currency)
      else if name == "created_at" then Time(i.createdAt)
      else if name == "subtotal" then Num(i.subtotal) else if name == "tax_total" then Num(i.taxTotal)
      else if name == "grand_total" then Num(i.grandTotal) else Null
    case OpportunityFact(p) =>
      if name == "currency" then Text(p.currency) else if name == "created_at" then Time(p.createdAt)
      else if name == "amount" then Num(p.amount) else Null
  }

  function Dimension(f: Fact, d: string): Value {
    if d == "day" || d == "week" || d == "month" then Truncated(d, Attribute(f, "created_at")) else Attribute(f, d)
  }

  predicate Meets(op: string, a: Value, b: Value) {
    SameKind(a, b) &&
    ((op == "eq" && Equal(a, b)) || (op == "ne" && !Equal(a, b))
     || (op == "lt" && Before(a, b)) || (op == "lte" && (Before(a, b) || Equal(a, b)))
     || (op == "gt" && Before(b, a)) || (op == "gte" && (Before(b, a) || Equal(a, b))))
  }

  /** A text attribute is compared with the filter's text, a time with its instant, a number with its number. */
  predicate Passes(f: Fact, filter: Filter) {
    match Attribute(f, filter.field)
    case Text(t) => Meets(filter.op, Text(t), Text(Written(filter.value)))
    case Time(at) => filter.value.Str? && filter.value.instant.Some? && Meets(filter.op, Time(at), Time(filter.value.instant.value))
    case Int(i) => AsNumber(filter.value).Some? && Meets(filter.op, Num(i as real), Num(AsNumber(filter.value).value))
    case _ => false
  }

  predicate Selected(org: int, filters: seq<Filter>, f: Fact) {
    Owner(f) == org && forall k | 0 <= k < |filters| :: Passes(f, filters[k])
  }

  function Select(org: int, filters: seq<Filter>, facts: seq<Fact>): seq<Fact> {
    if facts == [] then []
    else
      var n := |facts| - 1;
      Select(org, filters, facts[..n]) + if Selected(org, filters, facts[n]) then [facts[n]] else []
  }

  function KeyFor(f: Fact, ds: seq<string>): (r: seq<Value>)
    ensures |r| == |ds| && forall k | 0 <= k < |ds| :: r[k] == Dimension(f, ds[k])
  {
    seq(|ds|, k requires 0 <= k < |ds| => Dimension(f, ds[k]))
  }

  function FactKeys(facts: seq<Fact>, ds: seq<string>): (r: seq<seq<Value>>)
    ensures |r| == |facts| && forall k | 0 <= k < |facts| :: r[k] == KeyFor(facts[k], ds)
  {
    seq(|facts|, k requires 0 <= k < |facts| => KeyFor(facts[k], ds))
  }

  /** The dimension values that occur; without dimensions there is the one empty key, whatever was selected. */
  predicate Occurs(facts: seq<Fact>, ds: seq<string>, key: seq<Value>) {
    if ds == [] then key == [] else key in FactKeys(facts, ds)
  }

  function Share(facts: seq<Fact>, ds: seq<string>, key: seq<Value>): seq<Fact> { WithKey(facts, FactKeys(facts, ds), key) }

  function Attributes(facts: seq<Fact>, name: string): (r: seq<Value>)
    ensures |r| == |facts| && forall k | 0 <= k < |facts| :: r[k] == Attribute(facts[k], name)
  {
    seq(|facts|, k requires 0 <= k < |facts| => Attribute(facts[k], name))
  }

  function MeasureOf(facts: seq<Fact>, m: MeasureDef): Value {
    if m.agg == "count" && (m.field == "" || m.field == "*") then Int(|facts|) else Aggregated(m.agg, Attributes(facts, m.field))
  }

  function MeasuresOf(facts: seq<Fact>, ms: seq<MeasureDef>): (r: seq<Value>)
    ensures |r| == |ms| && forall k | 0 <= k < |ms| :: r[k] == MeasureOf(facts, ms[k])
  {
    seq(|ms|, k requires 0 <= k < |ms| => MeasureOf(facts, ms[k]))
  }

  /** A report line: the dimension values, then every measure over the facts that have them. */
  function Line(def: Definition, facts: seq<Fact>, key: seq<Value>): seq<Value> {
    key + MeasuresOf(Share(facts, def.dimensions, key), def.measures)
  }

  function Rank(def: Definition, facts: seq<Fact>, key: seq<Value>): Value
    requires def.measures != []
  {
    MeasureOf(Share(facts, def.dimensions, key), def.measures[0])
  }

  /** The limit asked for, 10000 when it asks for none or for more. */
  function RowsAsked(limit: int): nat { if 1 <= limit <= 10000 then limit else 10000 }

  /** The best keys by the first measure: in descending order, none left out that is better, and none at all left out
      within the limit. */
  ghost predicate BestKeys(def: Definition, facts: seq<Fact>, ks: seq<seq<Value>>)
    requires def.measures != []
  {
    && (forall i | 0 <= i < |ks| :: Occurs(facts, def.dimensions, ks[i]))
    && (forall i, j | 0 <= i < j < |ks| :: ks[i] != ks[j])
    && (forall i, j | 0 <= i < j < |ks| :: AtLeast(Rank(def, facts, ks[i]), Rank(def, facts, ks[j])))
    && (forall key, i | Occurs(facts, def.dimensions, key) && key !in ks && 0 <= i < |ks| ::
          AtLeast(Rank(def, facts, ks[i]), Rank(def, facts, key)))
    && |ks| <= RowsAsked(def.limit)
    && (|ks| < RowsAsked(def.limit) ==> forall key | Occurs(facts, def.dimensions, key) :: key in ks)
  }

  function FactsFor(e: Entity, org: int, def: Definition, db: Database): seq<Fact> {
    Select(org, def.filters, AllFacts(e, db))
  }

  /** An acceptable answer to a definition. */
  ghost predicate Answers(e: Entity, org: int, def: Definition, db: Database, out: seq<seq<Value>>)
    requires def.measures != []
  {
    var facts := FactsFor(e, org, def, db);
    exists ks | BestKeys(def, facts, ks) :: |out| == |ks| && forall i | 0 <= i < |out| :: out[i] == Line(def, facts, ks[i])
  }

  // ---- what the database guarantees ---------------------------------------

  /** Primary and foreign keys of the joined tables. */
  predicate Consistent(db: Database) {
    && (forall i, j | 0 <= i < j < |db.orders| :: db.orders[i].id != db.orders[j].id)
    && (forall i, j | 0 <= i < j < |db.stages| :: db.stages[i].id != db.stages[j].id)
    && (forall i | 0 <= i < |db.invoices| :: OrderWithId(db.orders, db.invoices[i].order).Some?)
    && (forall i | 0 <= i < |db.opportunities| :: HasStage(db.stages, db.opportunities[i].stage))
  }

  predicate HasStage(stages: seq<Stage>, id: int) { exists k | 0 <= k < |stages| :: stages[k].id == id }

  // ---- scanned rows and facts ---------------------------------------------

  /** The bindings of one scanned row show a fact. */
  predicate Shows(scope: Scope, f: Fact) {
    match f
    case OrderFact(o) => scope == [Binding("o", OrderRow(o))]
    case InvoiceFact(i, o) => scope == [Binding("i", InvoiceRow(i)), Binding("o", OrderRow(o))]
    case OpportunityFact(p) => |scope| == 2 && scope[0] == Binding("op", OpportunityRow(p)) && scope[1].alias == "ps"
  }

  predicate OfEntity(e: Entity, f: Fact) {
    match e case Orders => f.OrderFact? case Invoices => f.InvoiceFact? case Opportunities => f.OpportunityFact?
  }

  predicate AllShow(e: Entity, scopes: seq<Scope>, facts: seq<Fact>) {
    |scopes| == |facts| && forall k | 0 <= k < |facts| :: Shows(scopes[k], facts[k]) && OfEntity(e, facts[k])
  }

  lemma {:induction false} AllShowConcat(e: Entity, a: seq<Scope>, b: seq<Scope>, f: seq<Fact>, g: seq<Fact>)
    requires AllShow(e, a, f) && AllShow(e, b, g)
    ensures AllShow(e, a + b, f + g)
  {
    hide Shows, OfEntity;
  }

  lemma {:induction false} OrdersShow(orders: seq<Order>)
    ensures AllShow(Orders, Scan(SourceOf(Orders), OrderRows(orders), []), OrderFacts(orders))
  {
    if orders != [] {
      var n := |orders| - 1;
      OrdersShow(orders[..n]);
      assert OrderRows(orders)[..n] == OrderRows(orders[..n]);
      hide OrderRows;
      AllShowConcat(Orders, Scan(SourceOf(Orders), OrderRows(orders[..n]), []), [[Binding("o", OrderRow(orders[n]))]], OrderFacts(orders[..n]), [OrderFact(orders[n])]);
    }
  }

  lemma {:induction false} CellIds(o: Order, i: Invoice, p: Opportunity, s: Stage)
    ensures Cell(OrderRow(o), "id") == Some(Int(o.id)) && Cell(InvoiceRow(i), "order_id") == Some(Int(i.order))
    ensures Cell(StageRow(s), "id") == Some(Int(s.id)) && Cell(OpportunityRow(p), "stage_id") == Some(Int(p.stage))
  {
  }

  lemma {:induction false} InvoiceJoins(i: Invoice, o: Order)
    ensures var s := SourceOf(Invoices);
            var scope := [Binding("i", InvoiceRow(i)), Binding("o", OrderRow(o))];
            Compare("=", ColumnValue(scope, s.left), ColumnValue(scope, s.right)) <==> o.id == i.order
  {
    var scope := [Binding("i", InvoiceRow(i)), Binding("o", OrderRow(o))];
    CellIds(o, i, Opportunity(0, 0, 0, 0.0, "", 0), Stage(0, "", ""));
    hide Cell;
    assert scope[1..] == [Binding("o", OrderRow(o))];
    assert ColumnValue(scope[1..], Column("o", "id")) == Int(o.id);
    assert ColumnValue(scope, Column("o", "id")) == Int(o.id) by { assert "i" != "o"; }
    assert ColumnValue(scope, Column("i", "order_id")) == Int(i.order);
  }

  lemma {:induction false} OpportunityJoins(p: Opportunity, t: Stage)
    ensures var s := SourceOf(Opportunities);
            var scope := [Binding("op", OpportunityRow(p)), Binding("ps", StageRow(t))];
            Compare("=", ColumnValue(scope, s.left), ColumnValue(scope, s.right)) <==> t.id == p.stage
  {
    var scope := [Binding("op", OpportunityRow(p)), Binding("ps", StageRow(t))];
    CellIds(Order(0, 0, 0, "", "", 0.0, 0.0, 0.0, 0), Invoice(0, 0, "", "", 0.0, 0.0, 0.0, 0), p, t);
    hide Cell;
    assert scope[1..] == [Binding("ps", StageRow(t))];
    assert ColumnValue(scope[1..], Column("ps", "id")) == Int(t.id);
    assert ColumnValue(scope, Column("ps", "id")) == Int(t.id) by { assert "op" != "ps"; }
    assert ColumnValue(scope, Column("op", "stage_id")) == Int(p.stage);
  }

  lemma {:induction false} NoOrder(orders: seq<Order>, id: int)
    requires forall k | 0 <= k < |orders| :: orders[k].id != id
    ensures OrderWithId(orders, id) == None
  {
    if orders != [] { NoOrder(orders[..|orders| - 1], id); }
  }

  /** An invoice joins its order alone. */
  lemma {:induction false} MatchesOrder(i: Invoice, orders: seq<Order>)
    requires forall a, b | 0 <= a < b < |orders| :: orders[a].id != orders[b].id
    ensures Matches(SourceOf(Invoices), InvoiceRow(i), OrderRows(orders)) ==
            match OrderWithId(orders, i.order)
            case Some(o) => [[Binding("i", InvoiceRow(i)), Binding("o", OrderRow(o))]]
            case None => []
  {
    if orders != [] {
      var n := |orders| - 1;
      MatchesOrder(i, orders[..n]);
      InvoiceJoins(i, orders[n]);
      assert OrderRows(orders)[..n] == OrderRows(orders[..n]);
      hide ColumnValue, Compare, OrderRows;
      if orders[n].id == i.order { NoOrder(orders[..n], i.order); }
    }
  }

  lemma {:induction false} MatchesStage(p: Opportunity, stages: seq<Stage>)
    requires forall a, b | 0 <= a < b < |stages| :: stages[a].id != stages[b].id
    ensures var ms := Matches(SourceOf(Opportunities), OpportunityRow(p), StageRows(stages));
            && |ms| == (if HasStage(stages, p.stage) then 1 else 0)
            && (|ms| == 1 ==> Shows(ms[0], OpportunityFact(p)))
  {
    if stages != [] {
      var n := |stages| - 1;
      MatchesStage(p, stages[..n]);
      OpportunityJoins(p, stages[n]);
      assert StageRows(stages)[..n] == StageRows(stages[..n]);
      StagePush(stages, p.stage);
      hide ColumnValue, Compare, StageRows, HasStage;
    }
  }

  lemma {:induction false} StagePush(stages: seq<Stage>, id: int)
    requires stages != [] && forall a, b | 0 <= a < b < |stages| :: stages[a].id != stages[b].id
    ensures HasStage(stages, id) <==> HasStage(stages[..|stages| - 1], id) || stages[|stages| - 1].id == id
    ensures !(HasStage(stages[..|stages| - 1], id) && stages[|stages| - 1].id == id)
  {
    if HasStage(stages[..|stages| - 1], id) {
      var k :| 0 <= k < |stages| - 1 && stages[..|stages| - 1][k].id == id;
      assert stages[k].id == id;
    }
  }

  lemma {:induction false} InvoicesShow(invoices: seq<Invoice>, orders: seq<Order>)
    requires forall a, b | 0 <= a < b < |orders| :: orders[a].id != orders[b].id
    ensures AllShow(Invoices, Scan(SourceOf(Invoices), InvoiceRows(invoices), OrderRows(orders)), InvoiceFacts(invoices, orders))
  {
    if invoices != [] {
      var n := |invoices| - 1;
      InvoicesShow(invoices[..n], orders);
      assert InvoiceRows(invoices)[..n] == InvoiceRows(invoices[..n]);
      OrderShows(invoices[n], orders);
      hide Matches, OrderRows, InvoiceRows, AllShow, OrderFor;
      AllShowConcat(Invoices, Scan(SourceOf(Invoices), InvoiceRows(invoices[..n]), OrderRows(orders)),
                    Matches(SourceOf(Invoices), InvoiceRow(invoices[n]), OrderRows(orders)), InvoiceFacts(invoices[..n], orders), OrderFor(invoices[n], orders));
    } else {
      hide OrderRows;
    }
  }

  lemma {:induction false} OrderShows(i: Invoice, orders: seq<Order>)
    requires forall a, b | 0 <= a < b < |orders| :: orders[a].id != orders[b].id
    ensures AllShow(Invoices, Matches(SourceOf(Invoices), InvoiceRow(i), OrderRows(orders)), OrderFor(i, orders))
  {
    MatchesOrder(i, orders);
    hide Matches, OrderWithId, OrderRows;
  }

  lemma {:induction false} OpportunitiesShow(ps: seq<Opportunity>, stages: seq<Stage>)
    requires forall a, b | 0 <= a < b < |stages| :: stages[a].id != stages[b].id
    requires forall k | 0 <= k < |ps| :: HasStage(stages, ps[k].stage)
    ensures AllShow(Opportunities, Scan(SourceOf(Opportunities), OpportunityRows(ps), StageRows(stages)), OpportunityFacts(ps))
  {
    if ps != [] {
      var n := |ps| - 1;
      OpportunitiesShow(ps[..n], stages);
      assert OpportunityRows(ps)[..n] == OpportunityRows(ps[..n]);
      MatchesStage(ps[n], stages);
      hide Matches, HasStage, StageRows, OpportunityRows, Shows;
      AllShowConcat(Opportunities, Scan(SourceOf(Opportunities), OpportunityRows(ps[..n]), StageRows(stages)),
                    Matches(SourceOf(Opportunities), OpportunityRow(ps[n]), StageRows(stages)), OpportunityFacts(ps[..n]), [OpportunityFact(ps[n])]);
    }
  }

  lemma {:induction false} Sources(db: Database)
    ensures FromRows(SourceOf(Orders), db) == Scan(SourceOf(Orders), OrderRows(db.orders), [])
    ensures FromRows(SourceOf(Invoices), db) == Scan(SourceOf(Invoices), InvoiceRows(db.invoices), OrderRows(db.orders))
    ensures FromRows(SourceOf(Opportunities), db) == Scan(SourceOf(Opportunities), OpportunityRows(db.opportunities), StageRows(db.stages))
  {
    hide Scan, OrderRows, InvoiceRows, OpportunityRows, StageRows;
  }

  /** The rows the FROM clause yields are the facts, one for one. */
  lemma {:induction false} ScanShows(e: Entity, db: Database)
    requires Consistent(db)
    ensures AllShow(e, FromRows(SourceOf(e), db), AllFacts(e, db))
  {
    hide Scan, FromRows, AllShow, OrderRows, InvoiceRows, OpportunityRows, StageRows, SourceOf, HasStage;
    Sources(db);
    OrdersShow(db.orders);
    InvoicesShow(db.invoices, db.orders);
    OpportunitiesShow(db.opportunities, db.stages);
  }
}
