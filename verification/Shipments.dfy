/** Shipments (internal/modules/otc/shipments.go): the cap on creation, and the status change that runs the
    workflow engine with a hook writing the shipment's status and drawing its stock. */
module Shipments {
  import opened Prelude
  import opened Money
  import opened Inventory
  import W = Workflow

  datatype OrderItem = OrderItem(order: int, product: int, quantity: int)

  datatype ShipItem = ShipItem(orderItem: int, quantity: int)

  datatype Shipment = Shipment(order: int, status: string, warehouse: Option<int>, items: seq<ShipItem>)

  /** What the engine's hook works on: stock and shipments (a shipment's id is its position). */
  datatype Domain = Domain(stock: Stock, shipments: seq<Shipment>)

  /** What the requests do not change: the order lines and the default warehouse. */
  datatype Context = Context(orderItems: map<int, OrderItem>, warehouses: set<int>, defaultWarehouse: Option<int>)

  const DEFINITION := "shipment_default"
  const ENTITY := "shipment"

  /** The CHECK constraint on shipments.status. */
  const STATUSES: set<string> := {"pending", "shipped", "delivered", "returned"}

  // ---- creation -----------------------------------------------------------

  /** A requested line; the quantity is any decimal, in units of 1/10000. */
  datatype Request = Request(orderItem: int, quantity: real)

  function QuantityIn(items: seq<ShipItem>, item: int): int {
    if items == [] then 0
    else QuantityIn(items[..|items| - 1], item) +
         if items[|items| - 1].orderItem == item then items[|items| - 1].quantity else 0
  }

  /** ShippedQtyForOrderItem: over all shipments, whatever their status. */
  function Shipped(shipments: seq<Shipment>, item: int): int {
    if shipments == [] then 0
    else Shipped(shipments[..|shipments| - 1], item) + QuantityIn(shipments[|shipments| - 1].items, item)
  }

  predicate LineOk(ctx: Context, shipments: seq<Shipment>, order: int, it: Request) {
    it.orderItem in ctx.orderItems && ctx.orderItems[it.orderItem].order == order &&
    it.quantity <= (ctx.orderItems[it.orderItem].quantity - Shipped(shipments, it.orderItem)) as real
  }

  function Stored(items: seq<Request>): (r: seq<ShipItem>)
    ensures |r| == |items| && forall i | 0 <= i < |r| :: r[i] == ShipItem(items[i].orderItem, Round(items[i].quantity))
  {
    seq(|items|, i requires 0 <= i < |items| => ShipItem(items[i].orderItem, Round(items[i].quantity)))
  }

  predicate Accepted(ctx: Context, shipments: seq<Shipment>, order: int, wh: Option<int>, items: seq<Request>) {
    items != [] && (wh.Some? ==> wh.value in ctx.warehouses) &&
    forall i | 0 <= i < |items| :: LineOk(ctx, shipments, order, items[i])
  }

  /** The write, which does not look at quantities any more. */
  function Store(ctx: Context, d: Domain, order: int, wh: Option<int>, items: seq<Request>): Domain {
    d.(shipments := d.shipments + [Shipment(order, "pending", if wh.Some? then wh else ctx.defaultWarehouse, Stored(items))])
  }

  function Create(ctx: Context, d: Domain, order: int, wh: Option<int>, items: seq<Request>): Domain {
    if Accepted(ctx, d.shipments, order, wh, items) then Store(ctx, d, order, wh, items) else d
  }

  // ---- the status change --------------------------------------------------

  /** ListShipmentItemProducts: lines joined to the product of their order line. */
  function Lines(ctx: Context, items: seq<ShipItem>): seq<Item> {
    if items == [] then []
    else
      var it := items[|items| - 1];
      Lines(ctx, items[..|items| - 1]) +
      if it.orderItem in ctx.orderItems then [Item(ctx.orderItems[it.orderItem].product, it.quantity)] else []
  }

  function DrawFrom(ctx: Context, sh: Shipment): Option<int> {
    if sh.warehouse.Some? then sh.warehouse else ctx.defaultWarehouse
  }

  function Draw(ctx: Context, stock: Stock, sh: Shipment, id: nat): Stock {
    match DrawFrom(ctx, sh)
    case None => stock
    case Some(wh) => Fulfil(stock, wh, Lines(ctx, sh.items), id)
  }

  /** The in-transaction hook: status row (refused by the CHECK constraint) and, on shipping, the stock. */
  function ShipHook(ctx: Context, id: nat, d: Domain, to: W.WfState): Option<Domain> {
    if id >= |d.shipments| || to.code !in STATUSES then None
    else
      var sh := d.shipments[id];
      var marked := d.shipments[id := sh.(status := to.code)];
      Some(Domain(if to.code == "shipped" then Draw(ctx, d.stock, sh, id) else d.stock, marked))
  }

  function Patch(cfg: W.Config, reg: map<string, W.Guard>, ctx: Context, s: W.Store<Domain>, id: nat, status: string)
    : W.Store<Domain>
  {
    if id >= |s.domain.shipments| || status == "" then s
    else
      var (instances, inst) := W.Ensure(cfg, s.instances, DEFINITION, ENTITY, id, s.domain.shipments[id].status);
      var t := s.(instances := instances);
      match inst
      case None => t
      case Some(k) => W.ApplyTo(cfg, reg, t, k, status, (d, from, to) => ShipHook(ctx, id, d, to)).0
  }

  // ---- the handlers -------------------------------------------------------

  class ShippingDesk {
    const engine: W.Engine<Domain>
    const ctx: Context

    constructor (engine: W.Engine<Domain>, ctx: Context)
      ensures this.engine == engine && this.ctx == ctx
    {
      this.engine, this.ctx := engine, ctx;
    }

    method CreateShipment(order: int, wh: Option<int>, items: seq<Request>) returns (ok: bool)
      modifies engine
      ensures ok <==> Accepted(ctx, old(engine.domain.shipments), order, wh, items)
      ensures engine.View() == old(engine.View()).(domain := Create(ctx, old(engine.domain), order, wh, items))
    {
      if items == [] { return false; }
      var chosen := wh;
      if wh.Some? {
        if wh.value !in ctx.warehouses { return false; }
      } else {
        chosen := ctx.defaultWarehouse;
      }
      for i := 0 to |items|
        invariant unchanged(engine)
        invariant forall j | 0 <= j < i :: LineOk(ctx, engine.domain.shipments, order, items[j])
      {
        var it := items[i];
        if it.orderItem !in ctx.orderItems || ctx.orderItems[it.orderItem].order != order { return false; }
        var already := Shipped(engine.domain.shipments, it.orderItem);
        var remaining := ctx.orderItems[it.orderItem].quantity - already;
        if it.quantity > remaining as real { return false; }
      }
      var rows: seq<ShipItem> := [];
      for i := 0 to |items|
        invariant unchanged(engine)
        invariant rows == Stored(items)[..i]
      {
        rows := rows + [ShipItem(items[i].orderItem, Round(items[i].quantity))];
      }
      assert rows == Stored(items);
      var d := engine.domain;
      engine.domain := d.(shipments := d.shipments + [Shipment(order, "pending", chosen, rows)]);
      return true;
    }

    method PatchShipmentStatus(id: nat, status: string)
      modifies engine
      ensures engine.View() == Patch(engine.cfg, engine.reg, ctx, old(engine.View()), id, status)
    {
      if id >= |engine.domain.shipments| || status == "" { return; }
      var inst := engine.EnsureInstance(DEFINITION, ENTITY, id, engine.domain.shipments[id].status);
      if inst.None? { return; }
      var c := ctx;
      var r := engine.ApplyTransitionTo(inst.value, status, (d, from, to) => ShipHook(c, id, d, to));
    }
  }

  // ---- never more shipped than ordered ------------------------------------

  ghost predicate WithinOrdered(ctx: Context, shipments: seq<Shipment>) {
    forall k | k in ctx.orderItems :: Shipped(shipments, k) <= ctx.orderItems[k].quantity
  }

  predicate EachLineOnce(items: seq<Request>) {
    forall i, j | 0 <= i < j < |items| :: items[i].orderItem != items[j].orderItem
  }

  function Requested(items: seq<Request>, item: int): int { QuantityIn(Stored(items), item) }

  lemma {:induction false} ShippedAfterCreate(shipments: seq<Shipment>, sh: Shipment, item: int)
    ensures Shipped(shipments + [sh], item) == Shipped(shipments, item) + QuantityIn(sh.items, item)
  {
    assert (shipments + [sh])[..|shipments|] == shipments;
  }

  predicate Known(ctx: Context, items: seq<Request>) { forall i | 0 <= i < |items| :: items[i].orderItem in ctx.orderItems }

  /** The request fits what remains, line by line, with all its quantities of a line together. */
  predicate Fits(ctx: Context, shipments: seq<Shipment>, items: seq<Request>)
    requires Known(ctx, items)
  {
    forall i | 0 <= i < |items| ::
      Requested(items, items[i].orderItem) <=
      ctx.orderItems[items[i].orderItem].quantity - Shipped(shipments, items[i].orderItem)
  }

  /** Whenever it was checked, writing a request keeps every line within what was ordered exactly when it fits the
      shipments that are there by then. */
  lemma {:induction false} StoreWithinIff(ctx: Context, d: Domain, order: int, wh: Option<int>, items: seq<Request>)
    requires WithinOrdered(ctx, d.shipments) && Known(ctx, items)
    ensures WithinOrdered(ctx, Store(ctx, d, order, wh, items).shipments) <==> Fits(ctx, d.shipments, items)
  {
    hide Round;
    var sh := Store(ctx, d, order, wh, items).shipments[|d.shipments|];
    forall k ensures Shipped(d.shipments + [sh], k) == Shipped(d.shipments, k) + Requested(items, k) {
      ShippedAfterCreate(d.shipments, sh, k);
    }
    forall k | k in ctx.orderItems && !Mentions(items, k)
      ensures Requested(items, k) == 0
    {
      NotRequested(items, k);
    }
  }

  /** An accepted request keeps every line within what was ordered exactly when, line by line, the quantities it
      asks for together fit what remains; each one alone always fits. */
  lemma {:induction false} CreateWithinIff(ctx: Context, d: Domain, order: int, wh: Option<int>, items: seq<Request>)
    requires WithinOrdered(ctx, d.shipments) && Accepted(ctx, d.shipments, order, wh, items)
    ensures Known(ctx, items)
    ensures WithinOrdered(ctx, Create(ctx, d, order, wh, items).shipments) <==> Fits(ctx, d.shipments, items)
  {
    forall i | 0 <= i < |items| ensures items[i].orderItem in ctx.orderItems { assert LineOk(ctx, d.shipments, order, items[i]); }
    StoreWithinIff(ctx, d, order, wh, items);
    hide Fits, Store;
  }

  /** Two requests for all of a line that are both checked before either is written ship twice what was ordered. */
  lemma {:induction false} OverlappingOverships()
    ensures var ctx := Context(map[1 := OrderItem(9, 5, 10)], {}, None);
            var d := Domain(Stock(map[], []), []);
            var all := [Request(1, 10.0)];
            Accepted(ctx, d.shipments, 9, None, all) && WithinOrdered(ctx, Store(ctx, d, 9, None, all).shipments) &&
            !WithinOrdered(ctx, Store(ctx, Store(ctx, d, 9, None, all), 9, None, all).shipments)
  {
    var ctx := Context(map[1 := OrderItem(9, 5, 10)], {}, None);
    var d := Domain(Stock(map[], []), []);
    var all := [Request(1, 10.0)];
    assert EachLineOnce(all) && LineOk(ctx, [], 9, all[0]);
    RoundInt(10);
    RequestedOnce(all, 0);
    hide Round;
    var once := Store(ctx, d, 9, None, all);
    ShippedAfterCreate([], once.shipments[0], 1);
    assert [] + [once.shipments[0]] == once.shipments;
    assert Shipped(once.shipments, 1) == 10;
    hide Shipped, Stored;
    StoreWithinIff(ctx, d, 9, None, all);
    StoreWithinIff(ctx, once, 9, None, all);
  }

  predicate Mentions(items: seq<Request>, k: int) { exists i | 0 <= i < |items| :: items[i].orderItem == k }

  lemma {:induction false} NotRequested(items: seq<Request>, k: int)
    requires !Mentions(items, k)
    ensures Requested(items, k) == 0
  {
    if items != [] {
      var n := |items| - 1;
      assert forall i | 0 <= i < n :: items[..n][i] == items[i];
      NotRequested(items[..n], k);
      assert Stored(items)[..n] == Stored(items[..n]);
    }
  }

  lemma {:induction false} RequestedOnce(items: seq<Request>, i: nat)
    requires EachLineOnce(items) && i < |items|
    ensures Requested(items, items[i].orderItem) == Round(items[i].quantity)
  {
    var n := |items| - 1;
    assert Stored(items)[..n] == Stored(items[..n]);
    if i < n {
      RequestedOnce(items[..n], i);
    } else {
      NotRequested(items[..n], items[n].orderItem);
    }
  }

  /** A request naming each line at most once keeps every line within what was ordered. */
  lemma {:induction false} CreateKeepsWithin(ctx: Context, d: Domain, order: int, wh: Option<int>, items: seq<Request>)
    requires WithinOrdered(ctx, d.shipments) && EachLineOnce(items)
    ensures WithinOrdered(ctx, Create(ctx, d, order, wh, items).shipments)
  {
    if Accepted(ctx, d.shipments, order, wh, items) {
      forall i | 0 <= i < |items|
        ensures Requested(items, items[i].orderItem) <=
                ctx.orderItems[items[i].orderItem].quantity - Shipped(d.shipments, items[i].orderItem)
      {
        var remaining := ctx.orderItems[items[i].orderItem].quantity - Shipped(d.shipments, items[i].orderItem);
        assert LineOk(ctx, d.shipments, order, items[i]);
        RequestedOnce(items, i);
        RoundMonotone(items[i].quantity, remaining as real);
        RoundInt(remaining);
      }
      CreateWithinIff(ctx, d, order, wh, items);
    }
  }

  /** Naming a line twice in one request passes both checks and ships more than was ordered. */
  lemma {:induction false} RepeatedLineOverships()
    ensures var ctx := Context(map[1 := OrderItem(9, 5, 10)], {}, None);
            var items := [Request(1, 10.0), Request(1, 10.0)];
            WithinOrdered(ctx, []) && Accepted(ctx, [], 9, None, items) &&
            !WithinOrdered(ctx, Create(ctx, Domain(Stock(map[], []), []), 9, None, items).shipments)
  {
    var ctx := Context(map[1 := OrderItem(9, 5, 10)], {}, None);
    var items := [Request(1, 10.0), Request(1, 10.0)];
    var d := Domain(Stock(map[], []), []);
    RoundInt(10);
    assert Stored(items) == [ShipItem(1, 10), ShipItem(1, 10)];
    assert [ShipItem(1, 10), ShipItem(1, 10)][..1] == [ShipItem(1, 10)];
    assert [ShipItem(1, 10)][..0] == [];
    assert QuantityIn([ShipItem(1, 10)], 1) == 10;
    assert Requested(items, 1) == 20;
    CreateWithinIff(ctx, d, 9, None, items);
    assert items[0].orderItem == 1;
  }

  // ---- the shipping system ------------------------------------------------

  datatype Step =
    | CreateStep(order: int, wh: Option<int>, items: seq<Request>)
    | PatchStep(id: nat, status: string)
    | StockStep(op: Inventory.Op)

  function Next(cfg: W.Config, reg: map<string, W.Guard>, ctx: Context, s: W.Store<Domain>, step: Step): W.Store<Domain> {
    match step
    case CreateStep(order, wh, items) => s.(domain := Create(ctx, s.domain, order, wh, items))
    case PatchStep(id, status) => Patch(cfg, reg, ctx, s, id, status)
    case StockStep(op) => s.(domain := s.domain.(stock := Inventory.Apply(s.domain.stock, op)))
  }

  function Run(cfg: W.Config, reg: map<string, W.Guard>, ctx: Context, steps: seq<Step>): W.Store<Domain> {
    if steps == [] then W.Store([], [], Domain(Stock(map[], []), []))
    else Next(cfg, reg, ctx, Run(cfg, reg, ctx, steps[..|steps| - 1]), steps[|steps| - 1])
  }

  /** Quantity the ledger shows as drawn for a shipment at a key (negative, as fulfilment rows are). */
  function Drawn(ms: seq<Movement>, id: int, key: Key): int {
    if ms == [] then 0
    else Drawn(ms[..|ms| - 1], id, key) +
         if ms[|ms| - 1].kind.Fulfillment? && ms[|ms| - 1].ref == ShipmentRef(id) && ms[|ms| - 1].key == key
         then ms[|ms| - 1].quantity else 0
  }

  ghost predicate EnteredShipped(cfg: W.Config, rows: seq<W.LogEntry>) {
    exists i | 0 <= i < |rows| :: rows[i].to in cfg.states && cfg.states[rows[i].to].code == "shipped"
  }

  ghost predicate HasInstance(s: W.Store<Domain>, id: int) {
    exists k | 0 <= k < |s.instances| :: s.instances[k].entityId == id
  }

  /** Every instance belongs to one shipment, whose status is the code of the instance's state. */
  ghost predicate StatusFollows(cfg: W.Config, s: W.Store<Domain>) {
    && (forall k | 0 <= k < |s.instances| ::
          0 <= s.instances[k].entityId < |s.domain.shipments| && InstanceOf(cfg, s.instances[k]) &&
          cfg.states[s.instances[k].current].code == s.domain.shipments[s.instances[k].entityId].status)
    && (forall j, k | 0 <= j < k < |s.instances| :: s.instances[j].entityId != s.instances[k].entityId)
  }

  ghost predicate InstanceOf(cfg: W.Config, i: W.Instance) {
    DEFINITION in cfg.definitions && i.definition == cfg.definitions[DEFINITION] && i.entityType == ENTITY &&
    i.current in cfg.states && cfg.states[i.current].definition == i.definition
  }

  /** What the ledger shows for a shipment is nothing until it enters "shipped", and afterwards its own lines
      at tracked keys of the warehouse it ships from, once. */
  ghost predicate DrawnOnce(cfg: W.Config, ctx: Context, s: W.Store<Domain>) {
    && (forall id: nat, key | id >= |s.domain.shipments| || !HasInstance(s, id) ::
          Drawn(s.domain.stock.movements, id, key) == 0)
    && (forall k, key | 0 <= k < |s.instances| && 0 <= s.instances[k].entityId < |s.domain.shipments| ::
          DrawnRight(cfg, ctx, W.LogOf(s.log, k), s.domain, s.instances[k].entityId, key))
  }

  ghost predicate DrawnRight(cfg: W.Config, ctx: Context, rows: seq<W.LogEntry>, d: Domain, id: nat, key: Key)
    requires id < |d.shipments|
  {
    var sh := d.shipments[id];
    var drawn := Drawn(d.stock.movements, id, key);
    drawn == 0 ||
    (EnteredShipped(cfg, rows) && DrawFrom(ctx, sh) == Some(key.warehouse) &&
     drawn == -Ordered(Lines(ctx, sh.items), key.product))
  }

  lemma {:induction false} DrawnByFulfil(s: Stock, wh: int, lines: seq<Item>, id: int, other: int, key: Key)
    ensures Fulfil(s, wh, lines, id).levels.Keys == s.levels.Keys
    ensures Drawn(Fulfil(s, wh, lines, id).movements, other, key) ==
            Drawn(s.movements, other, key) -
            if other == id && key.warehouse == wh && key in s.levels then Ordered(lines, key.product) else 0
  {
    if lines != [] {
      var n := |lines| - 1;
      DrawnByFulfil(s, wh, lines[..n], id, other, key);
      var t := Fulfil(s, wh, lines[..n], id);
      var k := Key(lines[n].product, wh);
      if k in t.levels {
        DrawnAppend(t.movements, Movement(k, Fulfillment, -lines[n].quantity, ShipmentRef(id)), other, key);
      }
    }
  }

  lemma {:induction false} DrawnAppend(ms: seq<Movement>, m: Movement, id: int, key: Key)
    ensures Drawn(ms + [m], id, key) ==
            Drawn(ms, id, key) + if m.kind.Fulfillment? && m.ref == ShipmentRef(id) && m.key == key then m.quantity else 0
  {
    assert (ms + [m])[..|ms|] == ms;
  }

  lemma {:induction false} ReserveDrawsNothing(s: Stock, wh: int, items: seq<Item>, order: int, id: int, key: Key)
    ensures Reserve(s, wh, items, order).Some? ==>
            Drawn(Reserve(s, wh, items, order).value.movements, id, key) == Drawn(s.movements, id, key)
  {
    if items != [] {
      var n := |items| - 1;
      ReserveDrawsNothing(s, wh, items[..n], order, id, key);
      if Reserve(s, wh, items[..n], order).Some? {
        var t := Reserve(s, wh, items[..n], order).value;
        var k := Key(items[n].product, wh);
        DrawnAppend(t.movements, Movement(k, Reservation, items[n].quantity, OrderRef(order)), id, key);
      }
    }
  }

  lemma {:induction false} RestockDrawsNothing(s: Stock, wh: int, items: seq<Item>, ret: int, id: int, key: Key)
    ensures Drawn(Restock(s, wh, items, ret).movements, id, key) == Drawn(s.movements, id, key)
  {
    if items != [] {
      var n := |items| - 1;
      RestockDrawsNothing(s, wh, items[..n], ret, id, key);
      var t := Restock(s, wh, items[..n], ret);
      var k := Key(items[n].product, wh);
      DrawnAppend(t.movements, Movement(k, Returned, items[n].quantity, ReturnRef(ret)), id, key);
    }
  }

  /** No stock transaction but a shipment's own fulfilment writes a fulfilment row. */
  lemma {:induction false} StockDrawsNothing(s: Stock, op: Inventory.Op, id: int, key: Key)
    requires !op.FulfilOp?
    ensures Drawn(Inventory.Apply(s, op).movements, id, key) == Drawn(s.movements, id, key)
  {
    match op
    case ReserveOp(wh, items, order) => ReserveDrawsNothing(s, wh, items, order, id, key);
    case RestockOp(wh, items, ret) => RestockDrawsNothing(s, wh, items, ret, id, key);
    case AdjustOp(k, kind, q) => DrawnAppend(s.movements, Movement(k, kind, Round(q), Manual), id, key);
    case ConfigureOp(k, b) =>
  }

  // ---- one status change --------------------------------------------------

  ghost predicate Sound(cfg: W.Config, ctx: Context, s: W.Store<Domain>) {
    W.Traced(cfg, s) && StatusFollows(cfg, s) && DrawnOnce(cfg, ctx, s)
  }

  /** A first instance for a shipment starts in the state its status names, with nothing logged. */
  lemma {:induction false} FirstInstanceKeepsSound(cfg: W.Config, ctx: Context, s: W.Store<Domain>, id: nat, added: W.Instance)
    requires Sound(cfg, ctx, s) && id < |s.domain.shipments| && !HasInstance(s, id)
    requires added.entityId == id && InstanceOf(cfg, added)
    requires cfg.states[added.current].code == s.domain.shipments[id].status
    ensures Sound(cfg, ctx, s.(instances := s.instances + [added]))
  {
    W.NewInstanceTraced(cfg, s, added);
    FirstInstanceDrawnOnce(cfg, ctx, s, id, added);
    hide DrawnOnce, W.Traced;
  }

  lemma {:induction false} FirstInstanceDrawnOnce(cfg: W.Config, ctx: Context, s: W.Store<Domain>, id: nat, added: W.Instance)
    requires W.Traced(cfg, s) && DrawnOnce(cfg, ctx, s)
    requires id < |s.domain.shipments| && !HasInstance(s, id) && added.entityId == id
    ensures DrawnOnce(cfg, ctx, s.(instances := s.instances + [added]))
  {
    W.LogOfFresh(s.log, |s.instances|);
    hide W.Traced;
    var t := s.(instances := s.instances + [added]);
    forall other: nat, key | other >= |t.domain.shipments| || !HasInstance(t, other)
      ensures Drawn(t.domain.stock.movements, other, key) == 0
    {
      if HasInstance(s, other) {
        var i :| 0 <= i < |s.instances| && s.instances[i].entityId == other;
        assert t.instances[i].entityId == other;
      }
    }
    forall k, key | 0 <= k < |t.instances| && 0 <= t.instances[k].entityId < |t.domain.shipments|
      ensures DrawnRight(cfg, ctx, W.LogOf(t.log, k), t.domain, t.instances[k].entityId, key)
    {
      if k < |s.instances| {
        assert DrawnRight(cfg, ctx, W.LogOf(s.log, k), s.domain, s.instances[k].entityId, key);
      } else {
        assert Drawn(s.domain.stock.movements, id, key) == 0;
      }
    }
  }

  lemma {:induction false} EnsureKeepsSound(cfg: W.Config, ctx: Context, s: W.Store<Domain>, id: nat)
    requires W.WellFormed(cfg) && Sound(cfg, ctx, s) && id < |s.domain.shipments|
    ensures var (instances, k) := W.Ensure(cfg, s.instances, DEFINITION, ENTITY, id, s.domain.shipments[id].status);
            && Sound(cfg, ctx, s.(instances := instances))
            && (k.Some? ==> k.value < |instances| && instances[k.value].entityId == id)
  {
    hide DrawnOnce, W.Traced;
    var (instances, k) := W.Ensure(cfg, s.instances, DEFINITION, ENTITY, id, s.domain.shipments[id].status);
    if instances == s.instances {
      assert s.(instances := instances) == s;
    } else {
      forall i | 0 <= i < |s.instances| ensures s.instances[i].entityId != id {
        assert InstanceOf(cfg, s.instances[i]);
        assert !W.IsFor(s.instances[i], cfg.definitions[DEFINITION], ENTITY, id);
      }
      FirstInstanceKeepsSound(cfg, ctx, s, id, instances[|s.instances|]);
    }
  }

  lemma {:induction false} EnteredGrows(cfg: W.Config, rows: seq<W.LogEntry>, e: W.LogEntry)
    ensures EnteredShipped(cfg, rows) ==> EnteredShipped(cfg, rows + [e])
    ensures e.to in cfg.states && cfg.states[e.to].code == "shipped" ==> EnteredShipped(cfg, rows + [e])
  {
    if EnteredShipped(cfg, rows) {
      var i :| 0 <= i < |rows| && rows[i].to in cfg.states && cfg.states[rows[i].to].code == "shipped";
      assert (rows + [e])[i] == rows[i];
    }
    assert (rows + [e])[|rows|] == e;
  }

  /** Acyclicity: an instance that has been shipped is never planned into "shipped" again. */
  lemma {:induction false} NotShippedAgain(cfg: W.Config, def: int, rows: seq<W.LogEntry>, from: int, to: int)
    requires W.WellFormed(cfg) && W.Acyclic(cfg, def) && W.Path(cfg, def, rows, from) && W.Edge(cfg, def, from, to)
    requires cfg.states[to].code == "shipped"
    ensures !EnteredShipped(cfg, rows)
  {
    if EnteredShipped(cfg, rows) {
      var i :| 0 <= i < |rows| && rows[i].to in cfg.states && cfg.states[rows[i].to].code == "shipped";
      var longer := rows + [W.LogEntry(0, 0, from, to)];
      W.PathAppend(cfg, def, rows, W.LogEntry(0, 0, from, to));
      W.EdgeInside(cfg, def, rows[i].from, rows[i].to);
      W.EdgeInside(cfg, def, from, to);
      hide W.Edge, W.Chain;
      assert rows[i].to == to;
      W.EnteredOnce(cfg, def, longer, to, i, |rows|);
    }
  }

  /** The state after a committed status change of shipment id through its instance k. */
  function Committed(ctx: Context, s: W.Store<Domain>, id: nat, k: nat, plan: W.Plan): W.Store<Domain>
    requires k < |s.instances|
  {
    W.Commit(s, k, plan, (d, from, to) => ShipHook(ctx, id, d, to)).0
  }

  predicate Takes(ctx: Context, s: W.Store<Domain>, id: nat, plan: W.Plan) {
    ShipHook(ctx, id, s.domain, plan.to).Some?
  }

  lemma {:induction false} CommitStatusFollows(cfg: W.Config, ctx: Context, s: W.Store<Domain>, id: nat, k: nat, plan: W.Plan)
    requires StatusFollows(cfg, s) && k < |s.instances| && s.instances[k].entityId == id
    requires plan.to.id in cfg.states && cfg.states[plan.to.id] == plan.to
    requires plan.to.definition == s.instances[k].definition && Takes(ctx, s, id, plan)
    ensures StatusFollows(cfg, Committed(ctx, s, id, k, plan))
  {
    var t := Committed(ctx, s, id, k, plan);
    assert InstanceOf(cfg, s.instances[k]);
    forall j | 0 <= j < |t.instances|
      ensures 0 <= t.instances[j].entityId < |t.domain.shipments| && InstanceOf(cfg, t.instances[j]) &&
              cfg.states[t.instances[j].current].code == t.domain.shipments[t.instances[j].entityId].status
    {
      assert InstanceOf(cfg, s.instances[j]);
    }
  }

  lemma {:induction false} DrawnByCommit(ctx: Context, s: W.Store<Domain>, id: nat, k: nat, plan: W.Plan, other: int, key: Key)
    requires k < |s.instances| && Takes(ctx, s, id, plan)
    ensures var was := Drawn(s.domain.stock.movements, other, key);
            var sh := s.domain.shipments[id];
            var now := Drawn(Committed(ctx, s, id, k, plan).domain.stock.movements, other, key);
            now == was ||
            (other == id && plan.to.code == "shipped" && DrawFrom(ctx, sh) == Some(key.warehouse) &&
             now == was - Ordered(Lines(ctx, sh.items), key.product))
  {
    var sh := s.domain.shipments[id];
    if DrawFrom(ctx, sh).Some? {
      DrawnByFulfil(s.domain.stock, DrawFrom(ctx, sh).value, Lines(ctx, sh.items), id, other, key);
    }
  }

  lemma {:induction false} CommitDrawnOnce(cfg: W.Config, ctx: Context, s: W.Store<Domain>, id: nat, k: nat, plan: W.Plan)
    requires StatusFollows(cfg, s) && DrawnOnce(cfg, ctx, s) && k < |s.instances| && s.instances[k].entityId == id
    requires plan.to.id in cfg.states && cfg.states[plan.to.id] == plan.to && Takes(ctx, s, id, plan)
    requires plan.to.code == "shipped" ==> !EnteredShipped(cfg, W.LogOf(s.log, k))
    ensures DrawnOnce(cfg, ctx, Committed(ctx, s, id, k, plan))
  {
    var t := Committed(ctx, s, id, k, plan);
    var e := W.LogEntry(k, plan.transition.id, plan.from.id, plan.to.id);
    assert t.log == s.log + [e];
    forall other: nat, key | other >= |t.domain.shipments| || !HasInstance(t, other)
      ensures Drawn(t.domain.stock.movements, other, key) == 0
    {
      assert t.instances[k].entityId == id;
      assert HasInstance(t, id);
      SameEntities(s, t, other);
      DrawnByCommit(ctx, s, id, k, plan, other, key);
    }
    forall j, key | 0 <= j < |t.instances| && 0 <= t.instances[j].entityId < |t.domain.shipments|
      ensures DrawnRight(cfg, ctx, W.LogOf(t.log, j), t.domain, t.instances[j].entityId, key)
    {
      var owner := s.instances[j].entityId;
      var rows := W.LogOf(s.log, j);
      assert DrawnRight(cfg, ctx, rows, s.domain, owner, key);
      W.LogOfAppend(s.log, e, j);
      EnteredGrows(cfg, rows, e);
      DrawnByCommit(ctx, s, id, k, plan, owner, key);
      if j == k {
        assert W.LogOf(t.log, j) == rows + [e];
        assert t.domain.shipments[owner] == s.domain.shipments[owner].(status := plan.to.code);
      } else {
        assert W.LogOf(t.log, j) == rows;
        assert t.domain.shipments[owner] == s.domain.shipments[owner];
      }
    }
  }

  lemma {:induction false} SameEntities(s: W.Store<Domain>, t: W.Store<Domain>, id: int)
    requires |s.instances| == |t.instances|
    requires forall j | 0 <= j < |s.instances| :: s.instances[j].entityId == t.instances[j].entityId
    ensures HasInstance(s, id) <==> HasInstance(t, id)
  {
    if HasInstance(s, id) {
      var j :| 0 <= j < |s.instances| && s.instances[j].entityId == id;
      assert t.instances[j].entityId == id;
    }
  }

  lemma {:induction false} PatchKeepsSound(cfg: W.Config, reg: map<string, W.Guard>, ctx: Context, s: W.Store<Domain>, id: nat, status: string)
    requires W.WellFormed(cfg) && Sound(cfg, ctx, s)
    requires DEFINITION in cfg.definitions ==> W.Acyclic(cfg, cfg.definitions[DEFINITION])
    ensures Sound(cfg, ctx, Patch(cfg, reg, ctx, s, id, status))
  {
    if id < |s.domain.shipments| && status != "" {
      hide W.Traced, DrawnOnce, W.Pick, W.CheckGuards;
      EnsureKeepsSound(cfg, ctx, s, id);
      var (instances, inst) := W.Ensure(cfg, s.instances, DEFINITION, ENTITY, id, s.domain.shipments[id].status);
      var t := s.(instances := instances);
      if inst.Some? {
        var k := inst.value;
        var prepared := W.Prepare(cfg, reg, instances, k, status);
        if prepared.Ok? && Takes(ctx, t, id, prepared.value) {
          var plan := prepared.value;
          assert InstanceOf(cfg, instances[k]);
          W.PreparedEdge(cfg, reg, instances, k, status);
          W.CommitKeepsTraced(cfg, t, k, plan, (d, from, to) => ShipHook(ctx, id, d, to));
          if plan.to.code == "shipped" {
            NotShippedAgain(cfg, instances[k].definition, W.LogOf(t.log, k), plan.from.id, plan.to.id);
          }
          CommitStatusFollows(cfg, ctx, t, id, k, plan);
          CommitDrawnOnce(cfg, ctx, t, id, k, plan);
          assert Patch(cfg, reg, ctx, s, id, status) == Committed(ctx, t, id, k, plan);
        }
      }
    }
  }

  // ---- whole runs ---------------------------------------------------------

  lemma {:induction false} StockKeepsSound(cfg: W.Config, ctx: Context, s: W.Store<Domain>, op: Inventory.Op)
    requires Sound(cfg, ctx, s) && !op.FulfilOp?
    ensures Sound(cfg, ctx, s.(domain := s.domain.(stock := Inventory.Apply(s.domain.stock, op))))
  {
    var t := s.(domain := s.domain.(stock := Inventory.Apply(s.domain.stock, op)));
    forall id, key ensures Drawn(t.domain.stock.movements, id, key) == Drawn(s.domain.stock.movements, id, key) {
      StockDrawsNothing(s.domain.stock, op, id, key);
    }
    forall id: nat ensures HasInstance(s, id) <==> HasInstance(t, id) { SameEntities(s, t, id); }
    forall k, key | 0 <= k < |t.instances|
      ensures DrawnRight(cfg, ctx, W.LogOf(t.log, k), t.domain, t.instances[k].entityId, key)
    {
      assert DrawnRight(cfg, ctx, W.LogOf(s.log, k), s.domain, s.instances[k].entityId, key);
    }
  }

  lemma {:induction false} CreateKeepsSound(cfg: W.Config, ctx: Context, s: W.Store<Domain>, order: int, wh: Option<int>, items: seq<Request>)
    requires Sound(cfg, ctx, s)
    ensures Sound(cfg, ctx, s.(domain := Create(ctx, s.domain, order, wh, items)))
  {
    var t := s.(domain := Create(ctx, s.domain, order, wh, items));
    forall id: nat ensures HasInstance(s, id) <==> HasInstance(t, id) { SameEntities(s, t, id); }
    forall k, key | 0 <= k < |t.instances|
      ensures DrawnRight(cfg, ctx, W.LogOf(t.log, k), t.domain, t.instances[k].entityId, key)
    {
      assert DrawnRight(cfg, ctx, W.LogOf(s.log, k), s.domain, s.instances[k].entityId, key);
    }
  }

  /** Whole requests one after the other; stock is fulfilled by shipping only. */
  ghost predicate Serial(steps: seq<Step>) {
    forall i | 0 <= i < |steps| && steps[i].StockStep? :: !steps[i].op.FulfilOp?
  }

  ghost predicate LinesOnce(steps: seq<Step>) {
    forall i | 0 <= i < |steps| && steps[i].CreateStep? :: EachLineOnce(steps[i].items)
  }

  /** Over every serial run, under an acyclic shipment workflow: each shipment's log is a connected path ending at
      its instance's state, its status is that state's code, and its stock has been drawn at most once. */
  lemma {:induction false} RunSound(cfg: W.Config, reg: map<string, W.Guard>, ctx: Context, steps: seq<Step>)
    requires W.WellFormed(cfg) && Serial(steps)
    requires DEFINITION in cfg.definitions ==> W.Acyclic(cfg, cfg.definitions[DEFINITION])
    ensures Sound(cfg, ctx, Run(cfg, reg, ctx, steps))
  {
    if steps != [] {
      var n := |steps| - 1;
      RunSound(cfg, reg, ctx, steps[..n]);
      var s := Run(cfg, reg, ctx, steps[..n]);
      match steps[n]
      case CreateStep(order, wh, items) => CreateKeepsSound(cfg, ctx, s, order, wh, items);
      case PatchStep(id, status) => PatchKeepsSound(cfg, reg, ctx, s, id, status);
      case StockStep(op) => StockKeepsSound(cfg, ctx, s, op);
    }
  }

  /** A shipment's stock is drawn not at all or once, for exactly the quantity on its lines. */
  lemma {:induction false} DrawnAtMostOnce(cfg: W.Config, reg: map<string, W.Guard>, ctx: Context, steps: seq<Step>, id: nat, key: Key)
    requires W.WellFormed(cfg) && Serial(steps)
    requires DEFINITION in cfg.definitions ==> W.Acyclic(cfg, cfg.definitions[DEFINITION])
    requires id < |Run(cfg, reg, ctx, steps).domain.shipments|
    ensures var d := Run(cfg, reg, ctx, steps).domain;
            Drawn(d.stock.movements, id, key) == 0 ||
            Drawn(d.stock.movements, id, key) == -Ordered(Lines(ctx, d.shipments[id].items), key.product)
  {
    RunSound(cfg, reg, ctx, steps);
    var s := Run(cfg, reg, ctx, steps);
    if HasInstance(s, id) {
      var k :| 0 <= k < |s.instances| && s.instances[k].entityId == id;
      assert DrawnRight(cfg, ctx, W.LogOf(s.log, k), s.domain, id, key);
    }
  }

  lemma {:induction false} PatchKeepsWithin(cfg: W.Config, reg: map<string, W.Guard>, ctx: Context, s: W.Store<Domain>, id: nat, status: string)
    requires WithinOrdered(ctx, s.domain.shipments)
    ensures WithinOrdered(ctx, Patch(cfg, reg, ctx, s, id, status).domain.shipments)
  {
    var d := Patch(cfg, reg, ctx, s, id, status).domain;
    if id < |s.domain.shipments| && d != s.domain {
      var sh := s.domain.shipments[id];
      forall k ensures Shipped(d.shipments, k) == Shipped(s.domain.shipments, k) {
        ShippedIgnoresStatus(s.domain.shipments, id, sh.(status := d.shipments[id].status), k);
      }
    }
  }

  lemma {:induction false} PatchKeepsStock(cfg: W.Config, reg: map<string, W.Guard>, ctx: Context, s: W.Store<Domain>, id: nat, status: string)
    requires Agrees(s.domain.stock)
    ensures var d := Patch(cfg, reg, ctx, s, id, status).domain;
            Agrees(d.stock) && (NeverOversold(s.domain.stock) ==> NeverOversold(d.stock))
  {
    var d := Patch(cfg, reg, ctx, s, id, status).domain;
    if id < |s.domain.shipments| && d != s.domain {
      var sh := s.domain.shipments[id];
      var wh := DrawFrom(ctx, sh);
      if wh.Some? {
        FulfilAgrees(s.domain.stock, wh.value, Lines(ctx, sh.items), id);
        if NeverOversold(s.domain.stock) { FulfilNeverOversells(s.domain.stock, wh.value, Lines(ctx, sh.items), id); }
      }
    }
  }

  lemma {:induction false} ShippedIgnoresStatus(shipments: seq<Shipment>, id: nat, sh: Shipment, item: int)
    requires id < |shipments| && sh.items == shipments[id].items
    ensures Shipped(shipments[id := sh], item) == Shipped(shipments, item)
  {
    var n := |shipments| - 1;
    if id < n {
      ShippedIgnoresStatus(shipments[..n], id, sh, item);
      assert shipments[id := sh][..n] == shipments[..n][id := sh];
    } else {
      assert shipments[id := sh][..n] == shipments[..n];
    }
  }

  /** When requests name each line once, the signed total of a line over all shipments, whatever their status, stays
      within what was ordered. */
  lemma {:induction false} RunKeepsWithin(cfg: W.Config, reg: map<string, W.Guard>, ctx: Context, steps: seq<Step>)
    requires LinesOnce(steps) && forall k | k in ctx.orderItems :: 0 <= ctx.orderItems[k].quantity
    ensures WithinOrdered(ctx, Run(cfg, reg, ctx, steps).domain.shipments)
  {
    if steps != [] {
      var n := |steps| - 1;
      RunKeepsWithin(cfg, reg, ctx, steps[..n]);
      var s := Run(cfg, reg, ctx, steps[..n]);
      match steps[n]
      case CreateStep(order, wh, items) => CreateKeepsWithin(ctx, s.domain, order, wh, items);
      case PatchStep(id, status) => PatchKeepsWithin(cfg, reg, ctx, s, id, status);
      case StockStep(op) =>
    }
  }

  /** Along the same runs the stock cache agrees with the ledger. */
  lemma {:induction false} RunWithinOrdered(cfg: W.Config, reg: map<string, W.Guard>, ctx: Context, steps: seq<Step>)
    requires Serial(steps) && LinesOnce(steps) && forall k | k in ctx.orderItems :: 0 <= ctx.orderItems[k].quantity
    requires forall i | 0 <= i < |steps| && steps[i].StockStep? ::
               RoundsAlike(Run(cfg, reg, ctx, steps[..i]).domain.stock, steps[i].op)
    ensures WithinOrdered(ctx, Run(cfg, reg, ctx, steps).domain.shipments)
    ensures Agrees(Run(cfg, reg, ctx, steps).domain.stock)
  {
    RunKeepsWithin(cfg, reg, ctx, steps);
    if steps == [] {
      assert forall k :: LedgerOnHand([], k) == 0 && LedgerReserved([], k) == 0;
    } else {
      var n := |steps| - 1;
      assert forall i | 0 <= i < n :: steps[..n][..i] == steps[..i];
      RunWithinOrdered(cfg, reg, ctx, steps[..n]);
      var s := Run(cfg, reg, ctx, steps[..n]);
      match steps[n]
      case CreateStep(order, wh, items) =>
      case PatchStep(id, status) => PatchKeepsStock(cfg, reg, ctx, s, id, status);
      case StockStep(op) => ApplyAgreesIff(s.domain.stock, op);
    }
  }

  // ---- the shipped default ------------------------------------------------

  /** Definition 2 as seeded by migration 0015: states 1..4 and their five transitions. */
  function DefaultConfig(): W.Config {
    W.Config(
      map[DEFINITION := 2],
      map[1 := W.WfState(1, 2, "pending", false), 2 := W.WfState(2, 2, "shipped", false),
          3 := W.WfState(3, 2, "delivered", false), 4 := W.WfState(4, 2, "returned", true)],
      map[(2, "pending") := 1, (2, "shipped") := 2, (2, "delivered") := 3, (2, "returned") := 4],
      [W.Transition(1, 2, Some(1), 2, 1, []), W.Transition(2, 2, Some(2), 3, 2, []),
       W.Transition(3, 2, Some(1), 4, 3, []), W.Transition(4, 2, Some(2), 4, 4, []),
       W.Transition(5, 2, Some(3), 4, 5, [])])
  }

  /** The seeded shipment workflow meets the conditions of the run theorems: every edge leads to a larger state. */
  lemma {:induction false} DefaultAcyclic()
    ensures W.WellFormed(DefaultConfig()) && W.Acyclic(DefaultConfig(), 2)
  {
    DefaultWellFormed();
    hide DefaultConfig, W.WellFormed;
    forall c: seq<int> | |c| >= 2 && W.Chain(DefaultConfig(), 2, c)
      ensures c[0] != c[|c| - 1]
    {
      ChainRises(c);
    }
  }

  lemma {:induction false} DefaultWellFormed()
    ensures W.WellFormed(DefaultConfig())
  {
    var cfg := DefaultConfig();
    assert cfg.states.Keys == {1, 2, 3, 4};
    assert cfg.codes.Keys == {(2, "pending"), (2, "shipped"), (2, "delivered"), (2, "returned")};
    forall k | 0 <= k < |cfg.transitions|
      ensures cfg.transitions[k].to in cfg.states && cfg.transitions[k].definition == 2
    {
      assert k == 0 || k == 1 || k == 2 || k == 3 || k == 4;
    }
  }

  lemma {:induction false} EdgeRises(from: int, to: int)
    requires W.Edge(DefaultConfig(), 2, from, to)
    ensures from < to
  {
  }

  lemma {:induction false} ChainRises(c: seq<int>)
    requires |c| >= 2 && W.Chain(DefaultConfig(), 2, c)
    ensures c[0] < c[|c| - 1]
  {
    hide DefaultConfig;
    var n := |c| - 1;
    EdgeRises(c[n - 1], c[n]);
    if n > 1 {
      forall i | 0 <= i < n - 1 ensures W.Edge(DefaultConfig(), 2, c[..n][i], c[..n][i + 1]) {
        assert W.Edge(DefaultConfig(), 2, c[i], c[i + 1]);
      }
      ChainRises(c[..n]);
    }
  }

  // ---- what a created shipment holds --------------------------------------

  /** A request is stored exactly when it has a line, names a warehouse that is there if it names one, and every line is of
      the order and asks for no more than was ordered less what is on shipments; the shipment is pending, of the order, ships
      from the warehouse named or else the default one, and holds each line, its quantity rounded to stored units.  Nothing
      else changes. */
  lemma {:induction false} CreateStores(ctx: Context, d: Domain, order: int, wh: Option<int>, items: seq<Request>)
    ensures var t := Create(ctx, d, order, wh, items);
            && t.stock == d.stock
            && (|t.shipments| == |d.shipments| + 1 <==>
                  items != [] && (wh.Some? ==> wh.value in ctx.warehouses) &&
                  forall i | 0 <= i < |items| ::
                    items[i].orderItem in ctx.orderItems && ctx.orderItems[items[i].orderItem].order == order &&
                    items[i].quantity <= (ctx.orderItems[items[i].orderItem].quantity - Shipped(d.shipments, items[i].orderItem)) as real)
            && (t == d ||
                (|t.shipments| == |d.shipments| + 1 && t.shipments[..|d.shipments|] == d.shipments &&
                 var sh := t.shipments[|d.shipments|];
                 sh.order == order && sh.status == "pending" && sh.warehouse == (if wh.Some? then wh else ctx.defaultWarehouse) &&
                 |sh.items| == |items| &&
                 forall i | 0 <= i < |items| :: sh.items[i].orderItem == items[i].orderItem && sh.items[i].quantity == Round(items[i].quantity)))
  {
    hide Shipped, Round;
    assert Accepted(ctx, d.shipments, order, wh, items) <==>
           items != [] && (wh.Some? ==> wh.value in ctx.warehouses) && forall i | 0 <= i < |items| :: LineOk(ctx, d.shipments, order, items[i]);
  }
}
