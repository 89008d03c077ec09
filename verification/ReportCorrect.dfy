/** Compilation preserves meaning: what the SQL text returns is what the definition asks for. */
module ReportCorrect {
  import opened Prelude
  import opened Sql
  import opened Relational
  import opened Report
  import opened ReportMeaning

  // ---- columns and attributes ---------------------------------------------

  lemma {:induction false} OwnColumn(e: Entity, scope: Scope, f: Fact, name: string)
    requires Shows(scope, f) && OfEntity(e, f)
    ensures ColumnValue(scope, Column(Main(e), name)) ==
            match Cell(match f case OrderFact(o) => OrderRow(o) case InvoiceFact(i, _) => InvoiceRow(i) case OpportunityFact(p) => OpportunityRow(p), name)
            case Some(v) => v
            case None => Null
  {
    hide Cell;
  }

  lemma {:induction false} OwnerColumn(e: Entity, scope: Scope, f: Fact)
    requires Shows(scope, f) && OfEntity(e, f)
    ensures ColumnValue(scope, OrgColumn(e)) == Int(Owner(f))
  {
    if f.InvoiceFact? {
      assert Cell(OrderRow(f.order), "organization_id") == Some(Int(f.order.org));
      hide Cell;
      var o := [Binding("o", OrderRow(f.order))];
      assert scope[1..] == o;
      assert ColumnValue(o, Column("o", "organization_id")) == Int(f.order.org);
      assert "i" != "o";
    } else {
      OwnColumn(e, scope, f, "organization_id");
      hide ColumnValue;
    }
  }

  lemma {:induction false} CreatedColumn(e: Entity, scope: Scope, f: Fact)
    requires Shows(scope, f) && OfEntity(e, f)
    ensures ColumnValue(scope, Column(Main(e), "created_at")) == Attribute(f, "created_at")
    ensures ColumnValue(scope, Column(Main(e), "currency")) == Attribute(f, "currency")
    ensures !e.Opportunities? ==> ColumnValue(scope, Column(Main(e), "status")) == Attribute(f, "status")
  {
    OwnColumn(e, scope, f, "created_at");
    OwnColumn(e, scope, f, "currency");
    OwnColumn(e, scope, f, "status");
    hide ColumnValue, Main, Shows;
  }

  lemma {:induction false} CustomerColumn(scope: Scope, f: Fact)
    requires Shows(scope, f) && OfEntity(Orders, f)
    ensures ColumnValue(scope, Column("o", "customer_id")) == Attribute(f, "customer")
  {
    OwnColumn(Orders, scope, f, "customer_id");
    hide ColumnValue, Shows;
  }

  /** Every allow-listed name other than the stage is a column that holds the attribute it names. */
  lemma {:induction false} DimensionColumn(e: Entity, scope: Scope, f: Fact, d: string)
    requires Shows(scope, f) && OfEntity(e, f) && DimensionExpr(e, d).Some? && d != "stage"
    ensures ExprValue(scope, DimensionExpr(e, d).value) == Dimension(f, d)
  {
    CreatedColumn(e, scope, f);
    if e.Orders? { CustomerColumn(scope, f); }
    hide ColumnValue, Attribute, Shows, OfEntity, Main, Truncated;
  }

  lemma {:induction false} FilterColumnValue(e: Entity, scope: Scope, f: Fact, name: string)
    requires Shows(scope, f) && OfEntity(e, f) && FilterField(e, name).Some? && name != "stage"
    ensures ColumnValue(scope, FilterField(e, name).value.col) == Attribute(f, name)
  {
    CreatedColumn(e, scope, f);
    if e.Orders? { CustomerColumn(scope, f); }
    hide ColumnValue, Attribute, Shows, OfEntity, Main;
  }

  lemma {:induction false} MeasureColumnValue(e: Entity, scope: Scope, f: Fact, name: string)
    requires Shows(scope, f) && OfEntity(e, f) && MeasureColumn(e, name).Some?
    ensures ColumnValue(scope, MeasureColumn(e, name).value) == Attribute(f, name)
  {
    OwnColumn(e, scope, f, name);
    hide ColumnValue, Shows;
  }

  // ---- filtering ----------------------------------------------------------

  lemma {:induction false} OpMeets(op: string, a: Value, b: Value)
    requires SqlOp(op).Some?
    ensures Compare(SqlOp(op).value, a, b) <==> Meets(op, a, b)
  {
    hide SameKind, Equal, Before;
  }

  predicate UsesStage(def: Definition) {
    || (exists k | 0 <= k < |def.dimensions| :: def.dimensions[k] == "stage")
    || (exists k | 0 <= k < |def.filters| :: def.filters[k].field == "stage")
  }

  lemma {:induction false} FilterHolds(e: Entity, scope: Scope, f: Fact, filter: Filter, p: FilterPlan, args: seq<Value>, param: nat)
    requires Shows(scope, f) && OfEntity(e, f) && PlanFilter(e, filter) == Ok(p) && filter.field != "stage"
    requires Argument(args, param) == p.value
    ensures Holds(scope, Condition(p.col, p.op, param), args) <==> Passes(f, filter)
  {
    FilterParts(e, filter);
    FilterColumnValue(e, scope, f, filter.field);
    OpMeets(filter.op, Attribute(f, filter.field), p.value);
    var name := NameOf(e);
    BoundSays(name, filter);
    FieldListed(name, filter.field);
    AttributeKind(name, f, filter.field);
    SaysMeets(f, filter, p.value);
    hide FilterField, Attribute, Shows, OfEntity, ColumnValue, SqlOp, Coerce, Compare, Meets, Argument, PlanFilter, Passes, Says, EntityNamed;
  }

  function NameOf(e: Entity): (name: string)
    ensures EntityNamed(name) == Some(e)
  {
    match e case Orders => "orders" case Invoices => "invoices" case Opportunities => "opportunities"
  }

  lemma {:induction false} AttributeKind(name: string, f: Fact, field: string)
    requires EntityNamed(name).Some? && OfEntity(EntityNamed(name).value, f) && ListedField(name, field) && field != "stage"
    ensures var a := Attribute(f, field);
            if field == "created_at" then a.Time? else if field == "customer" then a.Int? else a.Text?
  {
    EntityListed(name);
    hide EntityNamed;
  }

  lemma {:induction false} SaysMeets(f: Fact, filter: Filter, bound: Value)
    requires Says(filter.field, filter.value, bound)
    requires var a := Attribute(f, filter.field);
             if filter.field == "created_at" then a.Time? else if filter.field == "customer" then a.Int? else a.Text?
    ensures Meets(filter.op, Attribute(f, filter.field), bound) <==> Passes(f, filter)
  {
    hide Attribute, Written, AsNumber, Whole;
  }

  lemma {:induction false} OrgHolds(e: Entity, scope: Scope, f: Fact, org: int, args: seq<Value>)
    requires Shows(scope, f) && OfEntity(e, f) && Argument(args, 1) == Int(org)
    ensures Holds(scope, Condition(OrgColumn(e), "=", 1), args) <==> Owner(f) == org
  {
    OwnerColumn(e, scope, f);
    hide ColumnValue, Owner, Shows, OfEntity, Argument, OrgColumn;
  }

  /** A row satisfies the WHERE clause exactly when its fact is the organisation's and passes every filter. */
  lemma {:induction false} WhereSelects(e: Entity, scope: Scope, f: Fact, org: int, filters: seq<Filter>)
    requires Shows(scope, f) && OfEntity(e, f) && PlanFilters(e, filters).Ok?
    requires forall k | 0 <= k < |filters| :: filters[k].field != "stage"
    ensures var ps := PlanFilters(e, filters).value;
            AllHold(scope, Conditions(e, ps), Arguments(org, ps)) <==> Selected(org, filters, f)
  {
    hide *;
    var ps := PlanFilters(e, filters).value;
    var where, args := Conditions(e, ps), Arguments(org, ps);
    FiltersPlan(e, filters);
    ArgumentIs(args, 0);
    OrgHolds(e, scope, f, org, args);
    forall k | 0 <= k < |filters| ensures Holds(scope, where[k + 1], args) <==> Passes(f, filters[k]) {
      ArgumentIs(args, k + 1);
      assert PlanFilter(e, filters[k]) == Ok(ps[k]);
      FilterHolds(e, scope, f, filters[k], ps[k], args, k + 2);
    }
    HoldsAll(e, scope, f, org, filters, where, args);
  }

  lemma {:induction false} HoldsAll(e: Entity, scope: Scope, f: Fact, org: int, filters: seq<Filter>, where: seq<Condition>, args: seq<Value>)
    requires |where| == |filters| + 1 && (Holds(scope, where[0], args) <==> Owner(f) == org)
    requires forall k | 0 <= k < |filters| :: Holds(scope, where[k + 1], args) <==> Passes(f, filters[k])
    ensures AllHold(scope, where, args) <==> Selected(org, filters, f)
  {
    hide Holds, Passes, Owner;
    if Selected(org, filters, f) {
      forall k | 0 <= k < |where| ensures Holds(scope, where[k], args) {
        if k > 0 { assert Passes(f, filters[k - 1]) && Holds(scope, where[k - 1 + 1], args); }
      }
    }
  }

  lemma {:induction false} KeptShows(e: Entity, scopes: seq<Scope>, facts: seq<Fact>, org: int, filters: seq<Filter>)
    requires AllShow(e, scopes, facts) && PlanFilters(e, filters).Ok?
    requires forall k | 0 <= k < |filters| :: filters[k].field != "stage"
    ensures var ps := PlanFilters(e, filters).value;
            AllShow(e, Kept(scopes, Conditions(e, ps), Arguments(org, ps)), Select(org, filters, facts))
  {
    hide Shows, OfEntity, PlanFilters, AllHold, Selected, Conditions, Arguments;
    if scopes != [] {
      var n := |scopes| - 1;
      KeptShows(e, scopes[..n], facts[..n], org, filters);
      WhereSelects(e, scopes[n], facts[n], org, filters);
    }
  }

  // ---- grouping and measuring ---------------------------------------------

  lemma {:induction false} SameKeys(e: Entity, scopes: seq<Scope>, facts: seq<Fact>, ds: seq<string>, es: seq<Expr>)
    requires AllShow(e, scopes, facts) && |es| == |ds|
    requires forall k | 0 <= k < |ds| :: DimensionExpr(e, ds[k]) == Some(es[k]) && ds[k] != "stage"
    ensures KeysOf(scopes, es) == FactKeys(facts, ds)
  {
    hide Shows, OfEntity, DimensionExpr, ExprValue, Dimension;
    forall k | 0 <= k < |scopes| ensures ExprValues(scopes[k], es) == KeyFor(facts[k], ds) {
      forall j | 0 <= j < |ds| ensures ExprValue(scopes[k], es[j]) == Dimension(facts[k], ds[j]) {
        DimensionColumn(e, scopes[k], facts[k], ds[j]);
      }
    }
    hide ExprValues, KeyFor;
  }

  lemma {:induction false} ShareShows(e: Entity, scopes: seq<Scope>, facts: seq<Fact>, keys: seq<seq<Value>>, key: seq<Value>)
    requires AllShow(e, scopes, facts) && |keys| == |facts|
    ensures AllShow(e, WithKey(scopes, keys, key), WithKey(facts, keys, key))
  {
    hide Shows, OfEntity;
    if scopes != [] {
      var n := |scopes| - 1;
      ShareShows(e, scopes[..n], facts[..n], keys[..n], key);
    }
  }

  lemma {:induction false} MeasureSame(e: Entity, scopes: seq<Scope>, facts: seq<Fact>, m: MeasureDef)
    requires AllShow(e, scopes, facts) && PlanMeasure(e, m).Ok?
    ensures AggregateValue(scopes, PlanMeasure(e, m).value.agg) == MeasureOf(facts, m)
  {
    hide Shows, OfEntity, MeasureColumn, Attribute, ColumnValue, Aggregated, AllowedAgg;
    var agg := PlanMeasure(e, m).value.agg;
    if agg.Fold? {
      forall k | 0 <= k < |facts| ensures ColumnValue(scopes[k], agg.col) == Attribute(facts[k], m.field) {
        MeasureColumnValue(e, scopes[k], facts[k], m.field);
      }
      assert ColumnValues(scopes, agg.col) == Attributes(facts, m.field);
    }
  }

  lemma {:induction false} FirstHasKey<T>(xs: seq<T>, keys: seq<seq<Value>>, key: seq<Value>) returns (k: nat)
    requires |xs| == |keys| && key in keys
    ensures k < |xs| && keys[k] == key && WithKey(xs, keys, key) != [] && WithKey(xs, keys, key)[0] == xs[k]
  {
    var n := |xs| - 1;
    if key in keys[..n] {
      k := FirstHasKey(xs[..n], keys[..n], key);
    } else {
      WithKeyNone(xs[..n], keys[..n], key);
      k := n;
    }
  }

  // ---- lines --------------------------------------------------------------

  /** The parts of an accepted plan that the proof works with. */
  datatype Parts = Parts(e: Entity, es: seq<Expr>, ps: seq<MeasurePlan>, fs: seq<FilterPlan>)

  function PartsOf(def: Definition): Parts
    requires EntityNamed(def.entity).Some?
    requires PlanDimensions(EntityNamed(def.entity).value, def.dimensions).Ok?
    requires PlanMeasures(EntityNamed(def.entity).value, def.measures).Ok?
    requires PlanFilters(EntityNamed(def.entity).value, def.filters).Ok?
  {
    var e := EntityNamed(def.entity).value;
    Parts(e, PlanDimensions(e, def.dimensions).value, PlanMeasures(e, def.measures).value, PlanFilters(e, def.filters).value)
  }

  /** Parts that belong to a definition. */
  predicate PlanFor(def: Definition, p: Parts) {
    && def.measures != [] && |p.es| == |def.dimensions| && |p.ps| == |def.measures|
    && (forall k | 0 <= k < |def.dimensions| :: DimensionExpr(p.e, def.dimensions[k]) == Some(p.es[k]))
    && (forall k | 0 <= k < |def.measures| :: PlanMeasure(p.e, def.measures[k]) == Ok(p.ps[k]))
    && PlanFilters(p.e, def.filters) == Ok(p.fs)
  }

  function QueryFor(def: Definition, p: Parts): Query
    requires PlanFor(def, p)
  {
    MakeQuery(p.e, def.dimensions, p.es, p.ps, p.fs, def.limit)
  }

  lemma {:induction false} PlanHasParts(org: int, def: Definition) returns (p: Parts)
    requires PlanOf(org, def).Ok?
    ensures EntityNamed(def.entity) == Some(p.e) && PlanFor(def, p)
    ensures PlanOf(org, def).value.query == QueryFor(def, p) && PlanOf(org, def).value.args == Arguments(org, p.fs)
  {
    hide PlanOf, PlanDimensions, PlanMeasures, PlanFilters, EntityNamed, MakeQuery, Arguments, DimensionExpr, PlanMeasure, DimensionsKnown, MeasuresKnown;
    PlanParts(org, def);
    p := PartsOf(def);
    DimensionsPlan(p.e, def.dimensions);
    MeasuresPlan(p.e, def.measures);
  }

  lemma {:induction false} QueryParts(def: Definition, p: Parts)
    requires PlanFor(def, p)
    ensures var q := QueryFor(def, p);
            && q.from == SourceOf(p.e) && q.where == Conditions(p.e, p.fs) && q.groupBy == p.es && q.limit == RowsAsked(def.limit)
            && |q.items| == |p.es| + |p.ps|
            && q.orderBy == p.ps[0].agg
    ensures var q := QueryFor(def, p);
            && (forall k | 0 <= k < |p.es| :: q.items[k] == Key(p.es[k], Ident(def.dimensions[k])))
            && (forall k | 0 <= k < |p.ps| :: q.items[|p.es| + k] == Measure(p.ps[k].agg, Ident(p.ps[k].name)))
  {
    hide DimensionExpr, PlanMeasure, PlanFilters, Ident, SourceOf, Conditions;
  }

  /** The output row of a group is the report line of its key. */
  lemma {:induction false} RowIsLine(def: Definition, p: Parts, g: Group<Scope>, facts: seq<Fact>, key: seq<Value>)
    requires PlanFor(def, p) && |key| == |p.es|
    requires AllShow(p.e, g.members, Share(facts, def.dimensions, key))
    requires p.es == [] || (g.members != [] && ExprValues(g.members[0], p.es) == key)
    ensures OutputRow(QueryFor(def, p), g) == Line(def, facts, key)
  {
    hide QueryFor, PlanMeasure, DimensionExpr, PlanFilters, AllShow, Share, Ident, SourceOf, Conditions, AggregateValue, MeasureOf;
    hide Line, OutputRow, MeasuresOf, Limit;
    var q := QueryFor(def, p);
    QueryParts(def, p);
    var share := Share(facts, def.dimensions, key);
    forall k | 0 <= k < |p.ps| ensures AggregateValue(g.members, p.ps[k].agg) == MeasureOf(share, def.measures[k]) {
      assert PlanMeasure(p.e, def.measures[k]) == Ok(p.ps[k]);
      MeasureSame(p.e, g.members, share, def.measures[k]);
    }
    CellsAreLine(def, p, q, g, share, key);
    LineIs(def, facts, key);
  }

  lemma {:induction false} LineIs(def: Definition, facts: seq<Fact>, key: seq<Value>)
    ensures Line(def, facts, key) == key + MeasuresOf(Share(facts, def.dimensions, key), def.measures)
  {
    hide Share, MeasuresOf;
  }

  lemma {:induction false} CellsAreLine(def: Definition, p: Parts, q: Query, g: Group<Scope>, share: seq<Fact>, key: seq<Value>)
    requires |p.es| == |def.dimensions| && |key| == |p.es| && |p.ps| == |def.measures| && |q.items| == |p.es| + |p.ps|
    requires forall k | 0 <= k < |p.es| :: q.items[k] == Key(p.es[k], Ident(def.dimensions[k]))
    requires forall k | 0 <= k < |p.ps| :: q.items[|p.es| + k] == Measure(p.ps[k].agg, Ident(p.ps[k].name))
    requires p.es == [] || (g.members != [] && ExprValues(g.members[0], p.es) == key)
    requires forall k | 0 <= k < |p.ps| :: AggregateValue(g.members, p.ps[k].agg) == MeasureOf(share, def.measures[k])
    ensures OutputRow(q, g) == key + MeasuresOf(share, def.measures)
  {
    hide Ident, ExprValue, AggregateValue, MeasureOf, OutputRow, MeasuresOf;
    var row := OutputRow(q, g);
    forall k | 0 <= k < |row| ensures row[k] == (key + MeasuresOf(share, def.measures))[k] {
      if k < |p.es| {
        assert q.items[k] == Key(p.es[k], Ident(def.dimensions[k]));
      } else {
        assert q.items[|p.es| + (k - |p.es|)] == Measure(p.ps[k - |p.es|].agg, Ident(p.ps[k - |p.es|].name));
      }
    }
  }

  lemma {:induction false} RankSame(def: Definition, p: Parts, g: Group<Scope>, facts: seq<Fact>, key: seq<Value>)
    requires PlanFor(def, p) && AllShow(p.e, g.members, Share(facts, def.dimensions, key))
    ensures AggregateValue(g.members, QueryFor(def, p).orderBy) == Rank(def, facts, key)
  {
    hide PlanMeasure, DimensionExpr, PlanFilters, AllShow, Share, AggregateValue, MeasureOf;
    QueryParts(def, p);
    hide QueryFor;
    assert PlanMeasure(p.e, def.measures[0]) == Ok(p.ps[0]);
    MeasureSame(p.e, g.members, Share(facts, def.dimensions, key), def.measures[0]);
  }

  /** What grouping the kept rows yields, told in facts: a group for each key that occurs, whose row is that key's line
      and whose sort key is that key's rank. */
  predicate GroupsTell(def: Definition, facts: seq<Fact>, q: Query, gs: seq<Group<Scope>>)
    requires def.measures != []
  {
    && (forall i, j | 0 <= i < j < |gs| :: gs[i].key != gs[j].key)
    && (forall i | 0 <= i < |gs| :: Tells(def, facts, q, gs[i]))
  }

  predicate Tells(def: Definition, facts: seq<Fact>, q: Query, g: Group<Scope>)
    requires def.measures != []
  {
    && Occurs(facts, def.dimensions, g.key)
    && OutputRow(q, g) == Line(def, facts, g.key)
    && AggregateValue(g.members, q.orderBy) == Rank(def, facts, g.key)
  }

  lemma {:induction false} EmptyKeys(facts: seq<Fact>)
    ensures WithKey(facts, FactKeys(facts, []), []) == facts
  {
    if facts != [] {
      var n := |facts| - 1;
      EmptyKeys(facts[..n]);
      assert FactKeys(facts, [])[..n] == FactKeys(facts[..n], []);
      assert FactKeys(facts, [])[n] == [];
    }
  }

  lemma {:induction false} OneGroupTells(def: Definition, p: Parts, rows: seq<Scope>, facts: seq<Fact>)
    requires PlanFor(def, p) && def.dimensions == [] && AllShow(p.e, rows, facts)
    ensures QueryGroups(QueryFor(def, p), rows) == [Group([], rows)]
    ensures Tells(def, facts, QueryFor(def, p), Group([], rows))
  {
    EmptyKeys(facts);
    QueryParts(def, p);
    hide QueryFor, AllShow, PlanFilters, PlanMeasure, DimensionExpr, OutputRow, Line, AggregateValue, Rank, SourceOf, Conditions;
    RowIsLine(def, p, Group([], rows), facts, []);
    RankSame(def, p, Group([], rows), facts, []);
  }

  lemma {:induction false} GroupTells(def: Definition, p: Parts, rows: seq<Scope>, facts: seq<Fact>, key: seq<Value>)
    requires PlanFor(def, p) && def.dimensions != [] && AllShow(p.e, rows, facts)
    requires KeysOf(rows, p.es) == FactKeys(facts, def.dimensions) && key in FactKeys(facts, def.dimensions)
    ensures Tells(def, facts, QueryFor(def, p), Group(key, WithKey(rows, KeysOf(rows, p.es), key)))
  {
    var keys := FactKeys(facts, def.dimensions);
    var g := Group(key, WithKey(rows, keys, key));
    ShareShows(p.e, rows, facts, keys, key);
    var k := FirstHasKey(rows, keys, key);
    assert g.members[0] == rows[k] && ExprValues(rows[k], p.es) == key;
    hide QueryFor, AllShow, PlanFilters, PlanMeasure, DimensionExpr, OutputRow, Line, AggregateValue, Rank, WithKey, FactKeys, KeysOf, ExprValue;
    RowIsLine(def, p, g, facts, key);
    RankSame(def, p, g, facts, key);
  }

  lemma {:induction false} QueryGroupsTell(def: Definition, p: Parts, rows: seq<Scope>, facts: seq<Fact>)
    requires PlanFor(def, p) && AllShow(p.e, rows, facts) && !UsesStage(def)
    ensures var gs := QueryGroups(QueryFor(def, p), rows);
            && GroupsTell(def, facts, QueryFor(def, p), gs)
            && forall key | Occurs(facts, def.dimensions, key) :: HasKey(gs, key)
  {
    if def.dimensions == [] {
      OneGroupTells(def, p, rows, facts);
      hide QueryFor, AllShow, PlanFor, Tells;
      assert [Group([], rows)][0].key == [];
      assert HasKey([Group([], rows)], []);
    } else {
      SameKeys(p.e, rows, facts, def.dimensions, p.es);
      QueryParts(def, p);
      var keys := KeysOf(rows, p.es);
      hide QueryFor, AllShow, PlanFor, Tells, KeysOf, FactKeys, Grouped, WithKey, HasKey, UsesStage;
      GroupedExact(rows, keys);
      var gs := Grouped(rows, keys);
      forall i | 0 <= i < |gs| ensures Tells(def, facts, QueryFor(def, p), gs[i]) {
        GroupTells(def, p, rows, facts, gs[i].key);
        assert gs[i] == Group(gs[i].key, WithKey(rows, keys, gs[i].key));
      }
    }
  }

  // ---- the best lines -----------------------------------------------------

  /** The rows of some groups. */
  predicate RowsOf(q: Query, gs: seq<Group<Scope>>, chosen: seq<nat>, out: seq<seq<Value>>) {
    |out| == |chosen| && forall i | 0 <= i < |out| :: chosen[i] < |gs| && out[i] == OutputRow(q, gs[chosen[i]])
  }

  ghost predicate TopRows(q: Query, gs: seq<Group<Scope>>, out: seq<seq<Value>>) {
    exists chosen: seq<nat> | Top(chosen, Ranks(q, gs), q.limit) :: RowsOf(q, gs, chosen, out)
  }

  ghost predicate SortedRows(q: Query, gs: seq<Group<Scope>>, out: seq<seq<Value>>) {
    exists order: seq<nat> | Arranges(order, Ranks(q, gs)) :: RowsOf(q, gs, FirstOf(order, q.limit), out)
  }

  lemma {:induction false} ReturnsSorted(q: Query, args: seq<Value>, db: Database, out: seq<seq<Value>>)
    ensures Returns(q, args, db, out) <==> Resolves(q) && SortedRows(q, QueryGroups(q, Kept(FromRows(q.from, db), q.where, args)), out)
  {
    hide Resolves, QueryGroups, Kept, FromRows, Arranges, OutputRow, Ranks;
    var gs := QueryGroups(q, Kept(FromRows(q.from, db), q.where, args));
    if Returns(q, args, db, out) {
      var order: seq<nat> :| Arranges(order, Ranks(q, gs)) && |out| == |FirstOf(order, q.limit)|
        && forall i | 0 <= i < |out| :: order[i] < |gs| && out[i] == OutputRow(q, gs[order[i]]);
      assert RowsOf(q, gs, FirstOf(order, q.limit), out);
    }
    if SortedRows(q, gs, out) && Resolves(q) {
      var order: seq<nat> :| Arranges(order, Ranks(q, gs)) && RowsOf(q, gs, FirstOf(order, q.limit), out);
      assert forall i | 0 <= i < |out| :: FirstOf(order, q.limit)[i] == order[i];
    }
  }

  /** Sorting and cutting off is choosing the best. */
  lemma {:induction false} SortedIsTop(q: Query, gs: seq<Group<Scope>>, out: seq<seq<Value>>)
    ensures SortedRows(q, gs, out) <==> TopRows(q, gs, out)
  {
    hide Arranges, Top, RowsOf, Ranks, FirstOf;
    if SortedRows(q, gs, out) {
      var order: seq<nat> :| Arranges(order, Ranks(q, gs)) && RowsOf(q, gs, FirstOf(order, q.limit), out);
      SortedTakeIsTop(order, Ranks(q, gs), q.limit);
    }
    if TopRows(q, gs, out) {
      var chosen: seq<nat> :| Top(chosen, Ranks(q, gs), q.limit) && RowsOf(q, gs, chosen, out);
      var order := TopExtends(chosen, Ranks(q, gs), q.limit);
    }
  }

  function KeysAt(gs: seq<Group<Scope>>, chosen: seq<nat>): (ks: seq<seq<Value>>)
    requires forall i | 0 <= i < |chosen| :: chosen[i] < |gs|
    ensures |ks| == |chosen| && forall i | 0 <= i < |chosen| :: ks[i] == gs[chosen[i]].key
  {
    seq(|chosen|, i requires 0 <= i < |chosen| => gs[chosen[i]].key)
  }

  lemma {:induction false} RankOfGroup(def: Definition, facts: seq<Fact>, q: Query, gs: seq<Group<Scope>>, i: nat)
    requires def.measures != [] && GroupsTell(def, facts, q, gs) && i < |gs|
    ensures Occurs(facts, def.dimensions, gs[i].key) && Ranks(q, gs)[i] == Rank(def, facts, gs[i].key)
    ensures OutputRow(q, gs[i]) == Line(def, facts, gs[i].key)
  {
    hide Occurs, Rank, AggregateValue, OutputRow, Line;
    assert Tells(def, facts, q, gs[i]);
  }

  lemma {:induction false} TopToBest(def: Definition, facts: seq<Fact>, q: Query, gs: seq<Group<Scope>>, chosen: seq<nat>)
    requires def.measures != [] && GroupsTell(def, facts, q, gs) && q.limit == RowsAsked(def.limit)
    requires forall key | Occurs(facts, def.dimensions, key) :: HasKey(gs, key)
    requires Top(chosen, Ranks(q, gs), q.limit)
    ensures (forall i | 0 <= i < |chosen| :: chosen[i] < |gs|) && BestKeys(def, facts, KeysAt(gs, chosen))
  {
    var ranks, ks := Ranks(q, gs), KeysAt(gs, chosen);
    hide Occurs, Rank, AtLeast, Tells, RowsAsked, Ranks;
    forall i | 0 <= i < |gs| ensures Occurs(facts, def.dimensions, gs[i].key) && ranks[i] == Rank(def, facts, gs[i].key) {
      RankOfGroup(def, facts, q, gs, i);
    }
    forall i, j | 0 <= i < j < |ks| ensures ks[i] != ks[j] { KeysDiffer(gs, chosen[i], chosen[j]); }
    forall key | Occurs(facts, def.dimensions, key) && key !in ks
      ensures exists g: nat :: g < |gs| && gs[g].key == key && g !in chosen
    {
      var g: nat :| g < |gs| && gs[g].key == key;
      assert forall i | 0 <= i < |chosen| :: ks[i] in ks && gs[chosen[i]].key == ks[i];
    }
  }

  lemma {:induction false} KeysDiffer(gs: seq<Group<Scope>>, a: nat, b: nat)
    requires a < |gs| && b < |gs| && forall i, j | 0 <= i < j < |gs| :: gs[i].key != gs[j].key
    ensures gs[a].key == gs[b].key ==> a == b
  {
  }

  lemma {:induction false} IndexesOf(gs: seq<Group<Scope>>, ks: seq<seq<Value>>) returns (chosen: seq<nat>)
    requires forall i | 0 <= i < |ks| :: HasKey(gs, ks[i])
    ensures |chosen| == |ks| && forall i | 0 <= i < |ks| :: chosen[i] < |gs| && gs[chosen[i]].key == ks[i]
  {
    if ks == [] {
      chosen := [];
    } else {
      var n := |ks| - 1;
      var front := IndexesOf(gs, ks[..n]);
      assert HasKey(gs, ks[n]);
      var k :| 0 <= k < |gs| && gs[k].key == ks[n];
      chosen := front + [k];
    }
  }

  lemma {:induction false} BestToTop(def: Definition, facts: seq<Fact>, q: Query, gs: seq<Group<Scope>>, ks: seq<seq<Value>>, chosen: seq<nat>)
    requires def.measures != [] && GroupsTell(def, facts, q, gs) && q.limit == RowsAsked(def.limit)
    requires BestKeys(def, facts, ks)
    requires |chosen| == |ks| && forall i | 0 <= i < |ks| :: chosen[i] < |gs| && gs[chosen[i]].key == ks[i]
    ensures Top(chosen, Ranks(q, gs), q.limit)
  {
    var ranks := Ranks(q, gs);
    hide Occurs, Rank, AtLeast, Tells, RowsAsked, Ranks;
    forall i | 0 <= i < |gs| ensures Occurs(facts, def.dimensions, gs[i].key) && ranks[i] == Rank(def, facts, gs[i].key) {
      RankOfGroup(def, facts, q, gs, i);
    }
    forall g: nat | g < |gs| && gs[g].key in ks ensures g in chosen {
      var i :| 0 <= i < |ks| && ks[i] == gs[g].key;
      KeysDiffer(gs, chosen[i], g);
    }
  }

  /** In terms of groups or of facts, the same outputs are acceptable. */
  lemma {:induction false} TopRowsIff(def: Definition, facts: seq<Fact>, q: Query, gs: seq<Group<Scope>>, out: seq<seq<Value>>)
    requires def.measures != [] && GroupsTell(def, facts, q, gs) && q.limit == RowsAsked(def.limit)
    requires forall key | Occurs(facts, def.dimensions, key) :: HasKey(gs, key)
    ensures TopRows(q, gs, out) <==>
            exists ks | BestKeys(def, facts, ks) :: |out| == |ks| && forall i | 0 <= i < |out| :: out[i] == Line(def, facts, ks[i])
  {
    hide Occurs, GroupsTell, Top, Ranks, HasKey, Line, OutputRow, RowsAsked;
    if TopRows(q, gs, out) {
      var chosen: seq<nat> :| Top(chosen, Ranks(q, gs), q.limit) && RowsOf(q, gs, chosen, out);
      hide BestKeys;
      TopToBest(def, facts, q, gs, chosen);
      var ks := KeysAt(gs, chosen);
      forall i | 0 <= i < |out| ensures out[i] == Line(def, facts, ks[i]) { RankOfGroup(def, facts, q, gs, chosen[i]); }
    }
    if ks :| BestKeys(def, facts, ks) && |out| == |ks| && forall i | 0 <= i < |out| :: out[i] == Line(def, facts, ks[i]) {
      assert forall i | 0 <= i < |ks| :: Occurs(facts, def.dimensions, ks[i]);
      hide BestKeys;
      var chosen := IndexesOf(gs, ks);
      BestToTop(def, facts, q, gs, ks, chosen);
      forall i | 0 <= i < |out| ensures chosen[i] < |gs| && out[i] == OutputRow(q, gs[chosen[i]]) {
        RankOfGroup(def, facts, q, gs, chosen[i]);
      }
      assert RowsOf(q, gs, chosen, out);
    }
  }

  // ---- names that exist ---------------------------------------------------

  lemma {:induction false} DimensionResolves(e: Entity, d: string)
    requires DimensionExpr(e, d).Some?
    ensures ColumnResolves(SourceOf(e), DimensionExpr(e, d).value.col) <==> d != "stage"
  {
  }

  lemma {:induction false} FilterResolves(e: Entity, f: string)
    requires FilterField(e, f).Some?
    ensures ColumnResolves(SourceOf(e), FilterField(e, f).value.col) <==> f != "stage"
  {
  }

  lemma {:induction false} MeasureResolves(e: Entity, m: MeasureDef)
    requires PlanMeasure(e, m).Ok?
    ensures AggregateResolves(SourceOf(e), PlanMeasure(e, m).value.agg)
  {
    if PlanMeasure(e, m).value.agg.Fold? { MeasureColumnResolves(e, m.field); }
    hide MeasureColumn, ColumnResolves, AllowedAgg, SourceOf;
  }

  lemma {:induction false} MeasureColumnResolves(e: Entity, f: string)
    requires MeasureColumn(e, f).Some?
    ensures ColumnResolves(SourceOf(e), MeasureColumn(e, f).value)
  {
  }

  lemma {:induction false} SourceResolves(e: Entity)
    ensures var s := SourceOf(e);
            ColumnResolves(s, OrgColumn(e)) && (s.Join? ==> ColumnResolves(s, s.left) && ColumnResolves(s, s.right))
  {
  }

  /** The columns of an accepted query exist exactly when the definition does not use the stage: the registry calls its
      column name, which the stages table does not have. */
  lemma {:induction false} ResolvesIff(def: Definition, p: Parts)
    requires PlanFor(def, p)
    ensures Resolves(QueryFor(def, p)) <==> !UsesStage(def)
  {
    hide DimensionExpr, PlanMeasure, PlanFilters, PlanFilter, ColumnResolves, FilterField, Ident, OrgColumn, SourceOf, Conditions, FiltersKnown, Limit;
    var q := QueryFor(def, p);
    QueryParts(def, p);
    FiltersPlan(p.e, def.filters);
    SourceResolves(p.e);
    hide QueryFor;
    forall k | 0 <= k < |def.dimensions| ensures ColumnResolves(q.from, p.es[k].col) <==> def.dimensions[k] != "stage" {
      DimensionResolves(p.e, def.dimensions[k]);
    }
    forall k | 0 <= k < |def.measures| ensures AggregateResolves(q.from, p.ps[k].agg) {
      assert PlanMeasure(p.e, def.measures[k]) == Ok(p.ps[k]);
      MeasureResolves(p.e, def.measures[k]);
    }
    forall k | 0 <= k < |def.filters| ensures ColumnResolves(q.from, p.fs[k].col) <==> def.filters[k].field != "stage" {
      assert PlanFilter(p.e, def.filters[k]) == Ok(p.fs[k]);
      FilterParts(p.e, def.filters[k]);
      FilterResolves(p.e, def.filters[k].field);
    }
    NamesResolve(def, p, q);
  }

  lemma {:induction false} NamesResolve(def: Definition, p: Parts, q: Query)
    requires |p.es| == |def.dimensions| && |p.ps| == |def.measures| && |p.fs| == |def.filters| && |p.ps| > 0
    requires q.from == SourceOf(p.e) && q.where == Conditions(p.e, p.fs) && q.groupBy == p.es && q.orderBy == p.ps[0].agg
    requires |q.items| == |p.es| + |p.ps|
    requires forall k | 0 <= k < |p.es| :: q.items[k] == Key(p.es[k], Ident(def.dimensions[k]))
    requires forall k | 0 <= k < |p.ps| :: q.items[|p.es| + k] == Measure(p.ps[k].agg, Ident(p.ps[k].name))
    requires ColumnResolves(q.from, OrgColumn(p.e)) && (q.from.Join? ==> ColumnResolves(q.from, q.from.left) && ColumnResolves(q.from, q.from.right))
    requires forall k | 0 <= k < |p.es| :: ColumnResolves(q.from, p.es[k].col) <==> def.dimensions[k] != "stage"
    requires forall k | 0 <= k < |p.ps| :: AggregateResolves(q.from, p.ps[k].agg)
    requires forall k | 0 <= k < |p.fs| :: ColumnResolves(q.from, p.fs[k].col) <==> def.filters[k].field != "stage"
    ensures Resolves(q) <==> !UsesStage(def)
  {
    hide ColumnResolves, AggregateResolves, SourceOf, OrgColumn, Conditions, Ident;
    if Resolves(q) {
      forall k | 0 <= k < |p.fs| ensures def.filters[k].field != "stage" { assert ColumnResolves(q.from, q.where[k + 1].col); }
      assert forall k | 0 <= k < |p.es| :: ColumnResolves(q.from, q.groupBy[k].col);
    }
    if !UsesStage(def) {
      forall k | 0 <= k < |q.items| ensures ItemResolves(q.from, q.items[k]) {
        if k >= |p.es| {
          assert q.items[|p.es| + (k - |p.es|)] == Measure(p.ps[k - |p.es|].agg, Ident(p.ps[k - |p.es|].name));
        }
      }
      forall k | 0 <= k < |q.where| ensures ColumnResolves(q.from, q.where[k].col) {
        if k > 0 { assert q.where[k - 1 + 1].col == p.fs[k - 1].col; }
      }
    }
  }

  // ---- main results -------------------------------------------------------

  /** What executing SQL text with bound arguments may return; nothing for text that is not such a query. */
  ghost predicate SqlReturns(sql: string, args: seq<Value>, db: Database, out: seq<seq<Value>>) {
    ReadQuery(sql).Some? && Returns(ReadQuery(sql).value, args, db, out)
  }

  lemma {:induction false} QueryMeans(org: int, def: Definition, p: Parts, db: Database, out: seq<seq<Value>>)
    requires PlanFor(def, p) && Consistent(db) && !UsesStage(def)
    ensures Returns(QueryFor(def, p), Arguments(org, p.fs), db, out) <==> Answers(p.e, org, def, db, out)
  {
    var q, args := QueryFor(def, p), Arguments(org, p.fs);
    hide *;
    var rows, facts := Kept(FromRows(q.from, db), q.where, args), FactsFor(p.e, org, def, db);
    RowsAreFacts(org, def, p, db);
    QueryGroupsTell(def, p, rows, facts);
    ResolvesIff(def, p);
    MeasuresGiven(def, p);
    var gs := QueryGroups(q, rows);
    ReturnsSorted(q, args, db, out);
    SortedIsTop(q, gs, out);
    TopRowsIff(def, facts, q, gs, out);
    AnswersAre(p.e, org, def, db, out);
  }

  lemma {:induction false} AnswersAre(e: Entity, org: int, def: Definition, db: Database, out: seq<seq<Value>>)
    requires def.measures != []
    ensures Answers(e, org, def, db, out) <==>
            exists ks | BestKeys(def, FactsFor(e, org, def, db), ks) ::
              |out| == |ks| && forall i | 0 <= i < |out| :: out[i] == Line(def, FactsFor(e, org, def, db), ks[i])
  {
    hide FactsFor, BestKeys, Line;
  }

  lemma {:induction false} MeasuresGiven(def: Definition, p: Parts)
    requires PlanFor(def, p)
    ensures def.measures != [] && QueryFor(def, p).limit == RowsAsked(def.limit)
  {
    QueryParts(def, p);
    hide QueryFor, PlanMeasure, DimensionExpr, PlanFilters;
  }

  lemma {:induction false} RowsAreFacts(org: int, def: Definition, p: Parts, db: Database)
    requires PlanFor(def, p) && Consistent(db) && !UsesStage(def)
    ensures var q := QueryFor(def, p);
            AllShow(p.e, Kept(FromRows(q.from, db), q.where, Arguments(org, p.fs)), FactsFor(p.e, org, def, db))
  {
    QueryParts(def, p);
    ScanShows(p.e, db);
    hide QueryFor, PlanMeasure, DimensionExpr, Consistent, AllShow, Kept, FromRows, SourceOf, Conditions, Arguments, AllFacts, Select, PlanFilters;
    KeptShows(p.e, FromRows(SourceOf(p.e), db), AllFacts(p.e, db), org, def.filters);
  }

  /** Compilation preserves meaning.  On any database, what the SQL text of an accepted definition returns with its bound
      arguments is exactly what the definition asks for directly, and it always fails when the definition uses the
      stage. */
  lemma {:induction false} CompiledMeans(org: int, def: Definition, db: Database, out: seq<seq<Value>>)
    requires PlanOf(org, def).Ok? && Consistent(db)
    ensures EntityNamed(def.entity).Some? && def.measures != []
    ensures var p := PlanOf(org, def).value;
            SqlReturns(QueryText(p.query), p.args, db, out) <==>
            !UsesStage(def) && Answers(EntityNamed(def.entity).value, org, def, db, out)
  {
    hide *;
    var p := PlanHasParts(org, def);
    MeasuresGiven(def, p);
    CompiledReadsBack(org, def);
    SqlIs(QueryText(PlanOf(org, def).value.query), QueryFor(def, p), Arguments(org, p.fs), db, out);
    ResolvesIff(def, p);
    if !UsesStage(def) {
      QueryMeans(org, def, p, db, out);
    } else {
      ReturnsSorted(QueryFor(def, p), Arguments(org, p.fs), db, out);
    }
  }

  /** However the database breaks ties, an accepted definition gets at most as many lines as it asks for - its limit when
      that is 1 to 10000, otherwise 10000 - and fewer only when no combination of dimension values is left out. */
  lemma {:induction false} ResultLimited(org: int, def: Definition, db: Database, out: seq<seq<Value>>)
    requires PlanOf(org, def).Ok? && Consistent(db)
    requires SqlReturns(QueryText(PlanOf(org, def).value.query), PlanOf(org, def).value.args, db, out)
    ensures EntityNamed(def.entity).Some? && def.measures != []
    ensures |out| <= (if 1 <= def.limit <= 10000 then def.limit else 10000)
    ensures |out| < (if 1 <= def.limit <= 10000 then def.limit else 10000) ==>
              var facts := FactsFor(EntityNamed(def.entity).value, org, def, db);
              forall key | Occurs(facts, def.dimensions, key) :: Line(def, facts, key) in out
  {
    hide PlanOf, QueryText, SqlReturns, Consistent, EntityNamed, FactsFor, Occurs, Line, AtLeast, Rank;
    CompiledMeans(org, def, db, out);
    var facts := FactsFor(EntityNamed(def.entity).value, org, def, db);
    AnswersAre(EntityNamed(def.entity).value, org, def, db, out);
    hide Answers;
    var ks :| BestKeys(def, facts, ks) && |out| == |ks| && forall i | 0 <= i < |out| :: out[i] == Line(def, facts, ks[i]);
    forall key | Occurs(facts, def.dimensions, key) && key in ks ensures Line(def, facts, key) in out {
      var i :| 0 <= i < |ks| && ks[i] == key;
      assert out[i] == Line(def, facts, key);
    }
  }

  /** For one: counting opportunities by stage is accepted, and its SQL never returns. */
  lemma {:induction false} StageReportFails(org: int, db: Database, out: seq<seq<Value>>)
    requires Consistent(db)
    ensures var def := Definition("opportunities", ["stage"], [MeasureDef("", "count")], [], 0);
            PlanOf(org, def).Ok? && !SqlReturns(QueryText(PlanOf(org, def).value.query), PlanOf(org, def).value.args, db, out)
  {
    var def := Definition("opportunities", ["stage"], [MeasureDef("", "count")], [], 0);
    AcceptedIff(org, def);
    assert def.dimensions[0] == "stage";
    hide PlanOf, QueryText, SqlReturns, Answers, Consistent;
    CompiledMeans(org, def, db, out);
  }

  lemma {:induction false} SqlIs(sql: string, q: Query, args: seq<Value>, db: Database, out: seq<seq<Value>>)
    requires ReadQuery(sql) == Some(q)
    ensures SqlReturns(sql, args, db, out) <==> Returns(q, args, db, out)
  {
    hide ReadQuery, Returns;
  }

  /** A query whose columns exist always returns something. */
  lemma {:induction false} SomeResult(q: Query, args: seq<Value>, db: Database) returns (out: seq<seq<Value>>)
    requires Resolves(q)
    ensures Returns(q, args, db, out)
  {
    hide Resolves, QueryGroups, Kept, FromRows, OutputRow;
    var gs := QueryGroups(q, Kept(FromRows(q.from, db), q.where, args));
    var order := SortRest([], Ranks(q, gs), |gs|);
    var first := FirstOf(order, q.limit);
    out := seq(|first|, i requires 0 <= i < |first| => OutputRow(q, gs[first[i]]));
    assert Arranges(order, Ranks(q, gs));
  }

  // ---- other organisations ------------------------------------------------

  function OwnOrders(org: int, orders: seq<Order>): seq<Order> {
    if orders == [] then []
    else OwnOrders(org, orders[..|orders| - 1]) + if orders[|orders| - 1].org == org then [orders[|orders| - 1]] else []
  }

  predicate OwnInvoice(org: int, orders: seq<Order>, i: Invoice) {
    OrderWithId(orders, i.order).Some? && OrderWithId(orders, i.order).value.org == org
  }

  function OwnInvoices(org: int, invoices: seq<Invoice>, orders: seq<Order>): seq<Invoice> {
    if invoices == [] then []
    else
      var i := invoices[|invoices| - 1];
      OwnInvoices(org, invoices[..|invoices| - 1], orders) + if OwnInvoice(org, orders, i) then [i] else []
  }

  function OwnOpportunities(org: int, ps: seq<Opportunity>): seq<Opportunity> {
    if ps == [] then [] else OwnOpportunities(org, ps[..|ps| - 1]) + if ps[|ps| - 1].org == org then [ps[|ps| - 1]] else []
  }

  /** The rows of one organisation: its orders, the invoices of those, and its opportunities. */
  function Own(org: int, db: Database): Database {
    Database(OwnOrders(org, db.orders), OwnInvoices(org, db.invoices, db.orders), OwnOpportunities(org, db.opportunities), [])
  }

  lemma {:induction false} OwnOrderFound(org: int, orders: seq<Order>, id: int)
    ensures OrderWithId(orders, id).Some? && OrderWithId(orders, id).value.org == org ==> OrderWithId(OwnOrders(org, orders), id) == OrderWithId(orders, id)
    requires forall a, b | 0 <= a < b < |orders| :: orders[a].id != orders[b].id
  {
    if orders != [] {
      OwnOrderFound(org, orders[..|orders| - 1], id);
      var own := OwnOrders(org, orders);
      if orders[|orders| - 1].org == org {
        assert own[..|own| - 1] == OwnOrders(org, orders[..|orders| - 1]);
      } else {
        assert own == OwnOrders(org, orders[..|orders| - 1]);
      }
    }
  }

  lemma {:induction false} SelectPush(org: int, filters: seq<Filter>, facts: seq<Fact>, f: Fact)
    ensures Select(org, filters, facts + [f]) ==
            if Selected(org, filters, f) then Select(org, filters, facts) + [f] else Select(org, filters, facts)
  {
    assert (facts + [f])[..|facts|] == facts;
    hide Selected;
  }

  lemma {:induction false} OwnOrderFacts(org: int, filters: seq<Filter>, orders: seq<Order>)
    ensures Select(org, filters, OrderFacts(orders)) == Select(org, filters, OrderFacts(OwnOrders(org, orders)))
  {
    hide Passes, Select;
    if orders == [] {
    } else {
      var n := |orders| - 1;
      OwnOrderFacts(org, filters, orders[..n]);
      SelectPush(org, filters, OrderFacts(orders[..n]), OrderFact(orders[n]));
      if orders[n].org == org {
        var own := OwnOrders(org, orders[..n]);
        assert (own + [orders[n]])[..|own|] == own;
        SelectPush(org, filters, OrderFacts(own), OrderFact(orders[n]));
      } else {
        assert OwnOrders(org, orders) == OwnOrders(org, orders[..n]);
      }
    }
  }

  lemma {:induction false} OwnInvoiceFacts(org: int, filters: seq<Filter>, invoices: seq<Invoice>, orders: seq<Order>)
    requires forall a, b | 0 <= a < b < |orders| :: orders[a].id != orders[b].id
    requires forall k | 0 <= k < |invoices| :: OrderWithId(orders, invoices[k].order).Some?
    ensures Select(org, filters, InvoiceFacts(invoices, orders))
         == Select(org, filters, InvoiceFacts(OwnInvoices(org, invoices, orders), OwnOrders(org, orders)))
  {
    hide Passes, Select, OrderWithId, OwnOrders, InvoiceFacts;
    if invoices == [] {
      NoInvoiceFacts(orders, OwnOrders(org, orders));
    } else {
      var n := |invoices| - 1;
      var i := invoices[n];
      OwnInvoiceFacts(org, filters, invoices[..n], orders);
      var o := OrderWithId(orders, i.order).value;
      assert invoices == invoices[..n] + [i];
      InvoiceFactsPush(invoices[..n], i, orders);
      SelectPush(org, filters, InvoiceFacts(invoices[..n], orders), InvoiceFact(i, o));
      if OwnInvoice(org, orders, i) {
        OwnOrderFound(org, orders, i.order);
        var own := OwnInvoices(org, invoices[..n], orders);
        InvoiceFactsPush(own, i, OwnOrders(org, orders));
        SelectPush(org, filters, InvoiceFacts(own, OwnOrders(org, orders)), InvoiceFact(i, o));
      } else {
        assert OwnInvoices(org, invoices, orders) == OwnInvoices(org, invoices[..n], orders);
      }
    }
  }

  lemma {:induction false} NoInvoiceFacts(orders: seq<Order>, others: seq<Order>)
    ensures InvoiceFacts([], orders) == InvoiceFacts([], others)
  {
  }

  lemma {:induction false} InvoiceFactsPush(invoices: seq<Invoice>, i: Invoice, orders: seq<Order>)
    requires OrderWithId(orders, i.order).Some?
    ensures InvoiceFacts(invoices + [i], orders) == InvoiceFacts(invoices, orders) + [InvoiceFact(i, OrderWithId(orders, i.order).value)]
  {
    hide OrderWithId;
    assert (invoices + [i])[..|invoices|] == invoices;
  }

  lemma {:induction false} OwnOpportunityFacts(org: int, filters: seq<Filter>, ps: seq<Opportunity>)
    ensures Select(org, filters, OpportunityFacts(ps))
         == Select(org, filters, OpportunityFacts(OwnOpportunities(org, ps)))
  {
    hide Passes, Select;
    if ps != [] {
      var n := |ps| - 1;
      OwnOpportunityFacts(org, filters, ps[..n]);
      SelectPush(org, filters, OpportunityFacts(ps[..n]), OpportunityFact(ps[n]));
      if ps[n].org == org {
        var own := OwnOpportunities(org, ps[..n]);
        assert (own + [ps[n]])[..|own|] == own;
        SelectPush(org, filters, OpportunityFacts(own), OpportunityFact(ps[n]));
      } else {
        assert OwnOpportunities(org, ps) == OwnOpportunities(org, ps[..n]);
      }
    }
  }

  /** An answer depends on the organisation's own rows alone. */
  lemma {:induction false} OwnRowsSuffice(e: Entity, org: int, def: Definition, db: Database)
    requires Consistent(db)
    ensures FactsFor(e, org, def, db) == FactsFor(e, org, def, Own(org, db))
  {
    hide Select, OrderFacts, InvoiceFacts, OpportunityFacts, OwnOrders, OwnInvoices, OwnOpportunities, HasStage;
    match e
    case Orders => OwnOrderFacts(org, def.filters, db.orders);
    case Invoices => OwnInvoiceFacts(org, def.filters, db.invoices, db.orders);
    case Opportunities => OwnOpportunityFacts(org, def.filters, db.opportunities);
  }

  /** Changing the rows of other organisations never changes what the compiled SQL may return. */
  lemma {:induction false} OtherOrgsIrrelevant(org: int, def: Definition, db: Database, db': Database, out: seq<seq<Value>>)
    requires PlanOf(org, def).Ok? && Consistent(db) && Consistent(db') && Own(org, db) == Own(org, db')
    ensures var p := PlanOf(org, def).value;
            SqlReturns(QueryText(p.query), p.args, db, out) <==> SqlReturns(QueryText(p.query), p.args, db', out)
  {
    hide *;
    CompiledMeans(org, def, db, out);
    CompiledMeans(org, def, db', out);
    var e := EntityNamed(def.entity).value;
    OwnRowsSuffice(e, org, def, db);
    OwnRowsSuffice(e, org, def, db');
    AnswersAre(e, org, def, db, out);
    AnswersAre(e, org, def, db', out);
  }
}
