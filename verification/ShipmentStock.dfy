/** How much stock of a product the ledger shows as drawn by shipments, against what was ordered of it. */
module ShipmentStock {
  import opened Prelude
  import opened Money
  import opened Inventory
  import opened Shipments
  import W = Workflow

  // ---- totals over a table ------------------------------------------------

  ghost function Total(m: map<int, int>): int { SumOver(m.Keys, m) }

  ghost function Any<T>(xs: set<T>): (x: T)
    requires xs != {}
    ensures x in xs
  {
    var x :| x in xs;
    x
  }

  ghost function SumOver(ks: set<int>, m: map<int, int>): int
    requires ks <= m.Keys
  {
    if ks == {} then 0 else m[Any(ks)] + SumOver(ks - {Any(ks)}, m)
  }

  lemma {:induction false} SumSplit(ks: set<int>, m: map<int, int>, k: int)
    requires ks <= m.Keys && k in ks
    ensures SumOver(ks, m) == m[k] + SumOver(ks - {k}, m)
    decreases ks
  {
    var j := Any(ks);
    if j != k {
      SumSplit(ks - {j}, m, k);
      SumSplit(ks - {k}, m, j);
      assert ks - {j} - {k} == ks - {k} - {j};
    }
  }

  lemma {:induction false} SumZero(ks: set<int>, m: map<int, int>)
    requires ks <= m.Keys && forall k | k in ks :: m[k] == 0
    ensures SumOver(ks, m) == 0
    decreases ks
  {
    if ks != {} {
      var k := Any(ks);
      SumSplit(ks, m, k);
      SumZero(ks - {k}, m);
    }
  }

  lemma {:induction false} SumMonotone(ks: set<int>, m: map<int, int>, n: map<int, int>)
    requires ks <= m.Keys && ks <= n.Keys && forall k | k in ks :: m[k] <= n[k]
    ensures SumOver(ks, m) <= SumOver(ks, n)
    decreases ks
  {
    if ks != {} {
      var k := Any(ks);
      SumSplit(ks, m, k);
      SumSplit(ks, n, k);
      SumMonotone(ks - {k}, m, n);
    }
  }

  lemma {:induction false} SumBump(ks: set<int>, m: map<int, int>, n: map<int, int>, k: int, d: int)
    requires ks <= m.Keys && ks <= n.Keys && forall x | x in ks :: n[x] == m[x] + if x == k then d else 0
    ensures SumOver(ks, n) == SumOver(ks, m) + if k in ks then d else 0
  {
    if k in ks {
      SumSplit(ks, m, k);
      SumSplit(ks, n, k);
    }
    SumMonotone(ks - {k}, m, n);
    SumMonotone(ks - {k}, n, m);
    assert k !in ks ==> ks - {k} == ks;
  }

  // ---- a product over its order lines -------------------------------------

  function OrderedLines(ctx: Context, product: int): map<int, int> {
    map k | k in ctx.orderItems && ctx.orderItems[k].product == product :: ctx.orderItems[k].quantity
  }

  /** What was ordered of a product, over all order lines. */
  ghost function OrderedOf(ctx: Context, product: int): int { Total(OrderedLines(ctx, product)) }

  function ShippedLines(ctx: Context, shipments: seq<Shipment>, items: seq<ShipItem>, product: int): map<int, int> {
    map k | k in ctx.orderItems && ctx.orderItems[k].product == product :: Shipped(shipments, k) + QuantityIn(items, k)
  }

  /** What all shipments carry of a product. */
  function Carried(ctx: Context, shipments: seq<Shipment>, product: int): int {
    if shipments == [] then 0
    else
      var n := |shipments| - 1;
      Carried(ctx, shipments[..n], product) + Ordered(Lines(ctx, shipments[n].items), product)
  }

  lemma {:induction false} OrderedAppend(items: seq<Item>, it: Item, product: int)
    ensures Ordered(items + [it], product) == Ordered(items, product) + if it.product == product then it.quantity else 0
  {
    assert (items + [it])[..|items|] == items;
  }

  lemma {:induction false} LinesTotal(ctx: Context, shipments: seq<Shipment>, items: seq<ShipItem>, product: int)
    ensures Total(ShippedLines(ctx, shipments, items, product)) ==
            Total(ShippedLines(ctx, shipments, [], product)) + Ordered(Lines(ctx, items), product)
  {
    if items != [] {
      var n := |items| - 1;
      var it := items[n];
      LinesTotal(ctx, shipments, items[..n], product);
      var before, after := ShippedLines(ctx, shipments, items[..n], product), ShippedLines(ctx, shipments, items, product);
      assert before.Keys == after.Keys;
      SumBump(before.Keys, before, after, it.orderItem, it.quantity);
      if it.orderItem in ctx.orderItems {
        OrderedAppend(Lines(ctx, items[..n]), Item(ctx.orderItems[it.orderItem].product, it.quantity), product);
      } else {
        assert Lines(ctx, items[..n]) + [] == Lines(ctx, items[..n]);
      }
    }
  }

  lemma {:induction false} CarriedTotal(ctx: Context, shipments: seq<Shipment>, product: int)
    ensures Carried(ctx, shipments, product) == Total(ShippedLines(ctx, shipments, [], product))
  {
    if shipments == [] {
      SumZero(ShippedLines(ctx, [], [], product).Keys, ShippedLines(ctx, [], [], product));
    } else {
      var n := |shipments| - 1;
      CarriedTotal(ctx, shipments[..n], product);
      LinesTotal(ctx, shipments[..n], shipments[n].items, product);
      assert ShippedLines(ctx, shipments[..n], shipments[n].items, product) == ShippedLines(ctx, shipments, [], product);
    }
  }

  /** When no line is over-shipped in total, no product is. */
  lemma {:induction false} CarriedWithin(ctx: Context, shipments: seq<Shipment>, product: int)
    requires WithinOrdered(ctx, shipments)
    ensures Carried(ctx, shipments, product) <= OrderedOf(ctx, product)
  {
    CarriedTotal(ctx, shipments, product);
    var carried, ordered := ShippedLines(ctx, shipments, [], product), OrderedLines(ctx, product);
    assert carried.Keys == ordered.Keys;
    SumMonotone(carried.Keys, carried, ordered);
  }

  // ---- the ledger ---------------------------------------------------------

  /** What the ledger shows as fulfilled of a product, in all warehouses. */
  function Fulfilled(ms: seq<Movement>, product: int): int {
    if ms == [] then 0
    else
      var m := ms[|ms| - 1];
      Fulfilled(ms[..|ms| - 1], product) + if m.kind.Fulfillment? && m.key.product == product then -m.quantity else 0
  }

  ghost predicate Named(ctx: Context, shipments: seq<Shipment>, m: Movement) {
    m.kind.Fulfillment? ==>
      m.ref.ShipmentRef? && 0 <= m.ref.id < |shipments| && DrawFrom(ctx, shipments[m.ref.id]) == Some(m.key.warehouse)
  }

  /** Every fulfilment row is of a shipment, at the warehouse it ships from. */
  ghost predicate Placed(ctx: Context, d: Domain) { AllNamed(ctx, d.shipments, d.stock.movements) }

  ghost predicate AllNamed(ctx: Context, shipments: seq<Shipment>, ms: seq<Movement>) {
    forall i | 0 <= i < |ms| :: Named(ctx, shipments, ms[i])
  }

  /** What a shipment has drawn of a product, at its own warehouse. */
  function DrawnBy(ctx: Context, ms: seq<Movement>, sh: Shipment, id: nat, product: int): int {
    match DrawFrom(ctx, sh) case Some(wh) => -Drawn(ms, id, Key(product, wh)) case None => 0
  }

  function DrawnByAll(ctx: Context, ms: seq<Movement>, shipments: seq<Shipment>, product: int): int {
    if shipments == [] then 0
    else
      var n := |shipments| - 1;
      DrawnByAll(ctx, ms, shipments[..n], product) + DrawnBy(ctx, ms, shipments[n], n, product)
  }

  lemma {:induction false} DrawnByRow(ctx: Context, ms: seq<Movement>, m: Movement, shipments: seq<Shipment>, product: int)
    requires m.kind.Fulfillment? ==> m.ref.ShipmentRef? && 0 <= m.ref.id
    requires m.kind.Fulfillment? && m.ref.id < |shipments| ==> Named(ctx, shipments, m)
    ensures DrawnByAll(ctx, ms + [m], shipments, product) ==
            DrawnByAll(ctx, ms, shipments, product) +
            if m.kind.Fulfillment? && m.ref.id < |shipments| && m.key.product == product then -m.quantity else 0
  {
    if shipments != [] {
      var n := |shipments| - 1;
      DrawnByRow(ctx, ms, m, shipments[..n], product);
      if DrawFrom(ctx, shipments[n]).Some? {
        DrawnAppend(ms, m, n, Key(product, DrawFrom(ctx, shipments[n]).value));
      }
      hide Drawn, DrawFrom;
    }
  }

  lemma {:induction false} FulfilledIsDrawn(ctx: Context, ms: seq<Movement>, shipments: seq<Shipment>, product: int)
    requires AllNamed(ctx, shipments, ms)
    ensures Fulfilled(ms, product) == DrawnByAll(ctx, ms, shipments, product)
  {
    if ms == [] {
      NothingDrawn(ctx, shipments, product);
    } else {
      var n := |ms| - 1;
      FulfilledIsDrawn(ctx, ms[..n], shipments, product);
      assert Named(ctx, shipments, ms[n]);
      DrawnByRow(ctx, ms[..n], ms[n], shipments, product);
      assert ms == ms[..n] + [ms[n]];
    }
  }

  lemma {:induction false} NothingDrawn(ctx: Context, shipments: seq<Shipment>, product: int)
    ensures DrawnByAll(ctx, [], shipments, product) == 0
  {
    if shipments != [] { NothingDrawn(ctx, shipments[..|shipments| - 1], product); }
  }

  // ---- rows stay placed ---------------------------------------------------

  lemma {:induction false} FulfilPlaced(ctx: Context, s: Stock, wh: int, lines: seq<Item>, id: int, shipments: seq<Shipment>)
    requires AllNamed(ctx, shipments, s.movements)
    requires 0 <= id < |shipments| && DrawFrom(ctx, shipments[id]) == Some(wh)
    ensures AllNamed(ctx, shipments, Fulfil(s, wh, lines, id).movements)
  {
    if lines != [] { FulfilPlaced(ctx, s, wh, lines[..|lines| - 1], id, shipments); }
  }

  lemma {:induction false} ReservePlaced(ctx: Context, s: Stock, wh: int, items: seq<Item>, order: int, shipments: seq<Shipment>)
    requires AllNamed(ctx, shipments, s.movements)
    ensures var r := Reserve(s, wh, items, order);
            r.Some? ==> AllNamed(ctx, shipments, r.value.movements)
  {
    if items != [] { ReservePlaced(ctx, s, wh, items[..|items| - 1], order, shipments); }
  }

  lemma {:induction false} RestockPlaced(ctx: Context, s: Stock, wh: int, items: seq<Item>, ret: int, shipments: seq<Shipment>)
    requires AllNamed(ctx, shipments, s.movements)
    ensures AllNamed(ctx, shipments, Restock(s, wh, items, ret).movements)
  {
    if items != [] { RestockPlaced(ctx, s, wh, items[..|items| - 1], ret, shipments); }
  }

  lemma {:induction false} StockPlaced(ctx: Context, d: Domain, op: Inventory.Op)
    requires Placed(ctx, d) && !op.FulfilOp?
    ensures Placed(ctx, d.(stock := Inventory.Apply(d.stock, op)))
  {
    match op
    case ReserveOp(wh, items, order) => ReservePlaced(ctx, d.stock, wh, items, order, d.shipments);
    case RestockOp(wh, items, ret) => RestockPlaced(ctx, d.stock, wh, items, ret, d.shipments);
    case AdjustOp(key, kind, q) =>
    case ConfigureOp(key, b) =>
  }

  lemma {:induction false} NamedIgnoresStatus(ctx: Context, shipments: seq<Shipment>, id: nat, status: string, m: Movement)
    requires id < |shipments|
    ensures Named(ctx, shipments[id := shipments[id].(status := status)], m) <==> Named(ctx, shipments, m)
  {
  }

  lemma {:induction false} HookPlaced(ctx: Context, id: nat, d: Domain, to: W.WfState)
    requires Placed(ctx, d)
    ensures ShipHook(ctx, id, d, to).Some? ==> Placed(ctx, ShipHook(ctx, id, d, to).value)
  {
    if ShipHook(ctx, id, d, to).Some? {
      var sh := d.shipments[id];
      var wh := DrawFrom(ctx, sh);
      if wh.Some? { FulfilPlaced(ctx, d.stock, wh.value, Lines(ctx, sh.items), id, d.shipments); }
      var drawn := ShipHook(ctx, id, d, to).value;
      forall i | 0 <= i < |drawn.stock.movements| ensures Named(ctx, drawn.shipments, drawn.stock.movements[i]) {
        NamedIgnoresStatus(ctx, d.shipments, id, to.code, drawn.stock.movements[i]);
      }
      hide Named;
    }
  }

  lemma {:induction false} NextPlaced(cfg: W.Config, reg: map<string, W.Guard>, ctx: Context, s: W.Store<Domain>, step: Step)
    requires Placed(ctx, s.domain) && (step.StockStep? ==> !step.op.FulfilOp?)
    ensures Placed(ctx, Next(cfg, reg, ctx, s, step).domain)
  {
    match step
    case CreateStep(order, wh, items) => hide Accepted, Stored;
    case PatchStep(id, status) =>
      forall to { HookPlaced(ctx, id, s.domain, to); }
      hide Placed, ShipHook, W.Ensure, W.Prepare;
    case StockStep(op) => StockPlaced(ctx, s.domain, op);
  }

  lemma {:induction false} RunPlaced(cfg: W.Config, reg: map<string, W.Guard>, ctx: Context, steps: seq<Step>)
    requires Serial(steps)
    ensures Placed(ctx, Shipments.Run(cfg, reg, ctx, steps).domain)
  {
    hide Next;
    if steps != [] {
      var n := |steps| - 1;
      RunPlaced(cfg, reg, ctx, steps[..n]);
      NextPlaced(cfg, reg, ctx, Shipments.Run(cfg, reg, ctx, steps[..n]), steps[n]);
    }
  }

  // ---- stock drawn against stock ordered ----------------------------------

  predicate NonNegative(shipments: seq<Shipment>) {
    forall i, j | 0 <= i < |shipments| && 0 <= j < |shipments[i].items| :: 0 <= shipments[i].items[j].quantity
  }

  lemma {:induction false} LinesNonNegative(ctx: Context, items: seq<ShipItem>, product: int)
    requires forall j | 0 <= j < |items| :: 0 <= items[j].quantity
    ensures 0 <= Ordered(Lines(ctx, items), product)
  {
    if items != [] {
      var n := |items| - 1;
      LinesNonNegative(ctx, items[..n], product);
      if items[n].orderItem in ctx.orderItems {
        OrderedAppend(Lines(ctx, items[..n]), Item(ctx.orderItems[items[n].orderItem].product, items[n].quantity), product);
      } else {
        assert Lines(ctx, items[..n]) + [] == Lines(ctx, items[..n]);
      }
    }
  }

  /** Each shipment has drawn nothing or its own lines. */
  ghost predicate DrawnRightly(ctx: Context, ms: seq<Movement>, shipments: seq<Shipment>) {
    forall id: nat, key | id < |shipments| ::
      Drawn(ms, id, key) == 0 || Drawn(ms, id, key) == -Ordered(Lines(ctx, shipments[id].items), key.product)
  }

  lemma {:induction false} DrawnWithinCarried(ctx: Context, ms: seq<Movement>, shipments: seq<Shipment>, product: int)
    requires DrawnRightly(ctx, ms, shipments) && NonNegative(shipments)
    ensures DrawnByAll(ctx, ms, shipments, product) <= Carried(ctx, shipments, product)
  {
    if shipments != [] {
      var n := |shipments| - 1;
      forall id: nat, key | id < n
        ensures Drawn(ms, id, key) == 0 || Drawn(ms, id, key) == -Ordered(Lines(ctx, shipments[..n][id].items), key.product)
      {
        assert shipments[..n][id] == shipments[id];
      }
      DrawnWithinCarried(ctx, ms, shipments[..n], product);
      LinesNonNegative(ctx, shipments[n].items, product);
    }
  }

  /** Requests without negative quantities. */
  predicate AsksNonNegative(steps: seq<Step>) {
    forall i, j | 0 <= i < |steps| && steps[i].CreateStep? && 0 <= j < |steps[i].items| :: 0.0 <= steps[i].items[j].quantity
  }

  lemma {:induction false} PatchKeepsItems(cfg: W.Config, reg: map<string, W.Guard>, ctx: Context, s: W.Store<Domain>, id: nat, status: string)
    requires NonNegative(s.domain.shipments)
    ensures NonNegative(Patch(cfg, reg, ctx, s, id, status).domain.shipments)
  {
    hide W.Ensure, W.Prepare, Draw;
  }

  lemma {:induction false} CreateNonNegative(ctx: Context, d: Domain, order: int, wh: Option<int>, items: seq<Request>)
    requires NonNegative(d.shipments) && forall j | 0 <= j < |items| :: 0.0 <= items[j].quantity
    ensures NonNegative(Create(ctx, d, order, wh, items).shipments)
  {
    forall j | 0 <= j < |items| ensures 0 <= Stored(items)[j].quantity {
      RoundMonotone(0.0, items[j].quantity);
      RoundInt(0);
    }
    hide Accepted, Round;
  }

  lemma {:induction false} RunNonNegative(cfg: W.Config, reg: map<string, W.Guard>, ctx: Context, steps: seq<Step>)
    requires AsksNonNegative(steps)
    ensures NonNegative(Shipments.Run(cfg, reg, ctx, steps).domain.shipments)
  {
    if steps != [] {
      var n := |steps| - 1;
      assert AsksNonNegative(steps[..n]) by { assert forall i | 0 <= i < n :: steps[..n][i] == steps[i]; }
      RunNonNegative(cfg, reg, ctx, steps[..n]);
      var s := Shipments.Run(cfg, reg, ctx, steps[..n]);
      match steps[n]
      case CreateStep(order, wh, items) => CreateNonNegative(ctx, s.domain, order, wh, items); hide Create, NonNegative;
      case PatchStep(id, status) => PatchKeepsItems(cfg, reg, ctx, s, id, status); hide Patch, NonNegative;
      case StockStep(op) =>
    }
  }

  /** Over every serial run under an acyclic shipment workflow, with requests that name each line once and ask for nothing
      negative, the stock that the ledger shows as drawn for a product, in all warehouses together, never exceeds what was
      ordered of it. */
  lemma {:induction false} StockDrawnWithinOrdered(cfg: W.Config, reg: map<string, W.Guard>, ctx: Context, steps: seq<Step>, product: int)
    requires W.WellFormed(cfg) && Serial(steps) && LinesOnce(steps) && AsksNonNegative(steps)
    requires DEFINITION in cfg.definitions ==> W.Acyclic(cfg, cfg.definitions[DEFINITION])
    requires forall k | k in ctx.orderItems :: 0 <= ctx.orderItems[k].quantity
    ensures Fulfilled(Shipments.Run(cfg, reg, ctx, steps).domain.stock.movements, product) <= OrderedOf(ctx, product)
  {
    var d := Shipments.Run(cfg, reg, ctx, steps).domain;
    RunPlaced(cfg, reg, ctx, steps);
    RunNonNegative(cfg, reg, ctx, steps);
    RunKeepsWithin(cfg, reg, ctx, steps);
    forall id: nat, key | id < |d.shipments|
      ensures Drawn(d.stock.movements, id, key) == 0 ||
              Drawn(d.stock.movements, id, key) == -Ordered(Lines(ctx, d.shipments[id].items), key.product)
    {
      DrawnAtMostOnce(cfg, reg, ctx, steps, id, key);
    }
    hide Shipments.Run, W.Acyclic, W.WellFormed;
    FulfilledIsDrawn(ctx, d.stock.movements, d.shipments, product);
    DrawnWithinCarried(ctx, d.stock.movements, d.shipments, product);
    CarriedWithin(ctx, d.shipments, product);
  }
}
