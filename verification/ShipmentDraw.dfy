/** What a status change does to stock, stated on levels and ledger: shipping draws the shipment's lines, once, and nothing
    else a status change does touches stock. */
module ShipmentDraw {
  import opened Prelude
  import opened Inventory
  import opened Shipments
  import W = Workflow

  /** What a shipment carries of a product: its lines whose order line is of that product. */
  function Carries(ctx: Context, items: seq<ShipItem>, product: int): int {
    if items == [] then 0
    else
      var it := items[|items| - 1];
      Carries(ctx, items[..|items| - 1], product) +
      if it.orderItem in ctx.orderItems && ctx.orderItems[it.orderItem].product == product then it.quantity else 0
  }

  /** What shipping takes at a key: all the shipment carries of the product, if the key is tracked and at the warehouse the
      shipment names, or at the default one when it names none. */
  function Taken(ctx: Context, levels: map<Key, Level>, sh: Shipment, key: Key): int {
    var from := if sh.warehouse.Some? then sh.warehouse else ctx.defaultWarehouse;
    if key in levels && from == Some(key.warehouse) then Carries(ctx, sh.items, key.product) else 0
  }

  /** A status change was logged, and the shipment is shipped. */
  predicate Ships(s: W.Store<Domain>, t: W.Store<Domain>, id: nat) {
    id < |t.domain.shipments| && t.log != s.log && t.domain.shipments[id].status == "shipped"
  }

  lemma {:induction false} LinesCarry(ctx: Context, items: seq<ShipItem>, product: int)
    ensures Ordered(Lines(ctx, items), product) == Carries(ctx, items, product)
  {
    if items != [] {
      var n := |items| - 1;
      LinesCarry(ctx, items[..n], product);
      var front := Lines(ctx, items[..n]);
      if items[n].orderItem in ctx.orderItems {
        assert Lines(ctx, items)[..|front|] == front;
      } else {
        assert Lines(ctx, items) == front;
      }
    }
  }

  lemma {:induction false} FulfilLevels(s: Stock, wh: int, lines: seq<Item>, id: int, key: Key)
    ensures var t := Fulfil(s, wh, lines, id);
            && t.levels.Keys == s.levels.Keys
            && (key in s.levels ==>
                  var q := if key.warehouse == wh then Ordered(lines, key.product) else 0;
                  t.levels[key] == Level(s.levels[key].onHand - q, s.levels[key].reserved - q, s.levels[key].backorder))
  {
    if lines != [] { FulfilLevels(s, wh, lines[..|lines| - 1], id, key); }
  }

  lemma {:induction false} FulfilRows(s: Stock, wh: int, lines: seq<Item>, id: int)
    ensures var ms := Fulfil(s, wh, lines, id).movements;
            && |s.movements| <= |ms| && ms[..|s.movements|] == s.movements
            && forall i | |s.movements| <= i < |ms| :: ms[i].kind.Fulfillment? && ms[i].ref == ShipmentRef(id)
  {
    if lines != [] { FulfilRows(s, wh, lines[..|lines| - 1], id); }
  }

  /** A status change that ships lowers on-hand and reserved of every tracked key at the shipment's warehouse by all it
      carries of the product, books exactly that for it in fulfilment rows, and leaves every other key and shipment alone;
      any other status change leaves stock as it is. */
  lemma {:induction false} ShippingDraws(cfg: W.Config, reg: map<string, W.Guard>, ctx: Context, s: W.Store<Domain>, id: nat, to: string)
    ensures var t := Patch(cfg, reg, ctx, s, id, to);
            var was, now := s.domain.stock, t.domain.stock;
            if Ships(s, t, id) then
              id < |s.domain.shipments| && now.levels.Keys == was.levels.Keys && |was.movements| <= |now.movements| &&
              now.movements[..|was.movements|] == was.movements &&
              (forall i | |was.movements| <= i < |now.movements| :: now.movements[i].kind.Fulfillment? && now.movements[i].ref == ShipmentRef(id)) &&
              (forall key | key in was.levels ::
                 var q := Taken(ctx, was.levels, s.domain.shipments[id], key);
                 now.levels[key] == Level(was.levels[key].onHand - q, was.levels[key].reserved - q, was.levels[key].backorder)) &&
              forall other: nat, key ::
                Drawn(now.movements, other, key) ==
                Drawn(was.movements, other, key) - if other == id then Taken(ctx, was.levels, s.domain.shipments[id], key) else 0
            else now == was
  {
    var t := Patch(cfg, reg, ctx, s, id, to);
    if Ships(s, t, id) {
      var sh, was := s.domain.shipments[id], s.domain.stock;
      ShippedStock(cfg, reg, ctx, s, id, to);
      hide Patch;
      var from := if sh.warehouse.Some? then sh.warehouse else ctx.defaultWarehouse;
      var lines := Lines(ctx, sh.items);
      forall product ensures Ordered(lines, product) == Carries(ctx, sh.items, product) { LinesCarry(ctx, sh.items, product); }
      if from.Some? {
        FulfilRows(was, from.value, lines, id);
        forall key ensures t.domain.stock.levels.Keys == was.levels.Keys
                   ensures key in was.levels ==>
                     var q := Taken(ctx, was.levels, sh, key);
                     t.domain.stock.levels[key] == Level(was.levels[key].onHand - q, was.levels[key].reserved - q, was.levels[key].backorder)
        {
          FulfilLevels(was, from.value, lines, id, key);
        }
        forall other: nat, key
          ensures Drawn(t.domain.stock.movements, other, key) ==
                  Drawn(was.movements, other, key) - if other == id then Taken(ctx, was.levels, sh, key) else 0
        {
          DrawnByFulfil(was, from.value, lines, id, other, key);
        }
      }
    } else {
      NotShippedStock(cfg, reg, ctx, s, id, to);
    }
  }

  lemma {:induction false} ShippedStock(cfg: W.Config, reg: map<string, W.Guard>, ctx: Context, s: W.Store<Domain>, id: nat, to: string)
    requires Ships(s, Patch(cfg, reg, ctx, s, id, to), id)
    ensures id < |s.domain.shipments|
    ensures var sh := s.domain.shipments[id];
            var from := if sh.warehouse.Some? then sh.warehouse else ctx.defaultWarehouse;
            Patch(cfg, reg, ctx, s, id, to).domain.stock ==
            if from.Some? then Fulfil(s.domain.stock, from.value, Lines(ctx, sh.items), id) else s.domain.stock
  {
    hide W.Ensure, W.Prepare, Fulfil, Lines;
  }

  lemma {:induction false} NotShippedStock(cfg: W.Config, reg: map<string, W.Guard>, ctx: Context, s: W.Store<Domain>, id: nat, to: string)
    requires !Ships(s, Patch(cfg, reg, ctx, s, id, to), id)
    ensures Patch(cfg, reg, ctx, s, id, to).domain.stock == s.domain.stock
  {
    hide W.Ensure, W.Prepare, Fulfil, Lines;
  }

  // ---- over whole runs ----------------------------------------------------

  /** An instance of the shipment has entered "shipped". */
  ghost predicate WasShipped(cfg: W.Config, s: W.Store<Domain>, id: nat) {
    exists k | 0 <= k < |s.instances| :: s.instances[k].entityId == id && EnteredShipped(cfg, W.LogOf(s.log, k))
  }

  /** The n-th step ships the shipment. */
  predicate ShipsAt(cfg: W.Config, reg: map<string, W.Guard>, ctx: Context, steps: seq<Step>, n: nat, id: nat)
    requires n < |steps|
  {
    var s := Shipments.Run(cfg, reg, ctx, steps[..n]);
    steps[n].PatchStep? && steps[n].id == id && Ships(s, Next(cfg, reg, ctx, s, steps[n]), id)
  }

  ghost predicate Setting(cfg: W.Config, ctx: Context, s: W.Store<Domain>) {
    W.WellFormed(cfg) && Sound(cfg, ctx, s) && (DEFINITION in cfg.definitions ==> W.Acyclic(cfg, cfg.definitions[DEFINITION]))
  }

  /** A logged status change appends one row, of the shipment's own instance, into the state of its new status. */
  lemma {:induction false} PatchLogs(cfg: W.Config, reg: map<string, W.Guard>, ctx: Context, s: W.Store<Domain>, id: nat, to: string) returns (k: nat)
    requires Setting(cfg, ctx, s) && Patch(cfg, reg, ctx, s, id, to).log != s.log
    ensures var t := Patch(cfg, reg, ctx, s, id, to);
            && id < |s.domain.shipments| && |t.domain.shipments| == |s.domain.shipments|
            && k < |t.instances| && t.instances[k].entityId == id && |t.log| == |s.log| + 1 && t.log[..|s.log|] == s.log
            && t.log[|s.log|].instance == k && t.log[|s.log|].to in cfg.states
            && cfg.states[t.log[|s.log|].to].code == t.domain.shipments[id].status
            && |s.instances| <= |t.instances| && (forall j | 0 <= j < |s.instances| :: t.instances[j].entityId == s.instances[j].entityId)
            && (t.domain.shipments[id].status == "shipped" ==> !EnteredShipped(cfg, W.LogOf(s.log, k)))
            && (k < |s.instances| ==> s.instances[k].entityId == id)
  {
    hide DrawnOnce, W.Traced, W.Pick, W.CheckGuards, Draw;
    EnsureKeepsSound(cfg, ctx, s, id);
    var (instances, inst) := W.Ensure(cfg, s.instances, DEFINITION, ENTITY, id, s.domain.shipments[id].status);
    k := inst.value;
    var u := s.(instances := instances);
    var plan := W.Prepare(cfg, reg, instances, k, to).value;
    assert InstanceOf(cfg, instances[k]);
    W.PreparedEdge(cfg, reg, instances, k, to);
    if plan.to.code == "shipped" {
      InstancePath(cfg, u, k);
      NotShippedAgain(cfg, instances[k].definition, W.LogOf(s.log, k), plan.from.id, plan.to.id);
    }
  }

  lemma {:induction false} InstancePath(cfg: W.Config, s: W.Store<Domain>, k: nat)
    requires W.Traced(cfg, s) && k < |s.instances|
    ensures W.Path(cfg, s.instances[k].definition, W.LogOf(s.log, k), s.instances[k].current)
  {
  }

  /** A shipment that is shipped now was not before, has drawn nothing before, and was once this is done. */
  lemma {:induction false} ShipsFirst(cfg: W.Config, reg: map<string, W.Guard>, ctx: Context, s: W.Store<Domain>, id: nat, to: string)
    requires Setting(cfg, ctx, s) && Ships(s, Patch(cfg, reg, ctx, s, id, to), id)
    ensures !WasShipped(cfg, s, id) && WasShipped(cfg, Patch(cfg, reg, ctx, s, id, to), id)
    ensures forall key :: Drawn(s.domain.stock.movements, id, key) == 0
  {
    var t := Patch(cfg, reg, ctx, s, id, to);
    var k := PatchLogs(cfg, reg, ctx, s, id, to);
    hide Patch, W.Traced, W.WellFormed, W.Acyclic;
    var e := t.log[|s.log|];
    assert t.log == s.log + [e];
    W.LogOfAppend(s.log, e, k);
    EnteredGrows(cfg, W.LogOf(s.log, k), e);
    forall j | 0 <= j < |s.instances| && s.instances[j].entityId == id ensures j == k {
      assert t.instances[j].entityId == t.instances[k].entityId;
    }
    forall key ensures Drawn(s.domain.stock.movements, id, key) == 0 {
      if HasInstance(s, id) {
        assert DrawnRight(cfg, ctx, W.LogOf(s.log, k), s.domain, s.instances[k].entityId, key);
      }
    }
  }

  lemma {:induction false} EnteredStays(cfg: W.Config, log: seq<W.LogEntry>, e: W.LogEntry, k: nat)
    requires EnteredShipped(cfg, W.LogOf(log, k))
    ensures EnteredShipped(cfg, W.LogOf(log + [e], k))
  {
    W.LogOfAppend(log, e, k);
    EnteredGrows(cfg, W.LogOf(log, k), e);
    hide EnteredShipped;
    assert W.LogOf(log, k) + [] == W.LogOf(log, k);
  }

  lemma {:induction false} WasShippedStays(cfg: W.Config, reg: map<string, W.Guard>, ctx: Context, s: W.Store<Domain>, step: Step, id: nat)
    requires WasShipped(cfg, s, id)
    ensures WasShipped(cfg, Next(cfg, reg, ctx, s, step), id)
  {
    hide Next, EnteredShipped, W.LogOf;
    var t := Next(cfg, reg, ctx, s, step);
    var k: nat :| k < |s.instances| && s.instances[k].entityId == id && EnteredShipped(cfg, W.LogOf(s.log, k));
    PatchInstances(cfg, reg, ctx, s, step);
    if t.log != s.log { EnteredStays(cfg, s.log, t.log[|s.log|], k); }
    assert t.instances[k].entityId == id;
  }

  lemma {:induction false} PatchInstances(cfg: W.Config, reg: map<string, W.Guard>, ctx: Context, s: W.Store<Domain>, step: Step)
    ensures var t := Next(cfg, reg, ctx, s, step);
            && |s.instances| <= |t.instances| && (forall j | 0 <= j < |s.instances| :: t.instances[j].entityId == s.instances[j].entityId)
            && (t.log == s.log || (|t.log| == |s.log| + 1 && t.log == s.log + [t.log[|s.log|]]))
  {
    hide W.FindInstance, W.Prepare, Draw, Create, Inventory.Apply;
  }

  lemma {:induction false} JustDrawn(cfg: W.Config, reg: map<string, W.Guard>, ctx: Context, s: W.Store<Domain>, id: nat, to: string, key: Key)
    requires Setting(cfg, ctx, s) && Ships(s, Patch(cfg, reg, ctx, s, id, to), id)
    ensures var t := Patch(cfg, reg, ctx, s, id, to);
            && id < |s.domain.shipments| && WasShipped(cfg, t, id) && !WasShipped(cfg, s, id)
            && Drawn(t.domain.stock.movements, id, key) == -Taken(ctx, s.domain.stock.levels, s.domain.shipments[id], key)
  {
    hide Patch, Sound, WasShipped, Ships, Taken, W.WellFormed, W.Acyclic, Drawn;
    ShippingDraws(cfg, reg, ctx, s, id, to);
    ShipsFirst(cfg, reg, ctx, s, id, to);
  }

  lemma {:induction false} RunSettled(cfg: W.Config, reg: map<string, W.Guard>, ctx: Context, steps: seq<Step>)
    requires W.WellFormed(cfg) && Serial(steps) && (DEFINITION in cfg.definitions ==> W.Acyclic(cfg, cfg.definitions[DEFINITION]))
    ensures Setting(cfg, ctx, Shipments.Run(cfg, reg, ctx, steps))
  {
    hide W.WellFormed, W.Acyclic, Sound, Shipments.Run;
    RunSound(cfg, reg, ctx, steps);
  }

  lemma {:induction false} RunStep(cfg: W.Config, reg: map<string, W.Guard>, ctx: Context, steps: seq<Step>)
    requires steps != []
    ensures var m := |steps| - 1;
            Shipments.Run(cfg, reg, ctx, steps) == Next(cfg, reg, ctx, Shipments.Run(cfg, reg, ctx, steps[..m]), steps[m])
  {
    hide Next;
  }

  /** A shipment that was shipped is not shipped again, and draws nothing more. */
  lemma {:induction false} StillDrawn(cfg: W.Config, reg: map<string, W.Guard>, ctx: Context, s: W.Store<Domain>, step: Step, id: nat, key: Key)
    requires Setting(cfg, ctx, s) && WasShipped(cfg, s, id) && (step.StockStep? ==> !step.op.FulfilOp?)
    ensures WasShipped(cfg, Next(cfg, reg, ctx, s, step), id)
    ensures Drawn(Next(cfg, reg, ctx, s, step).domain.stock.movements, id, key) == Drawn(s.domain.stock.movements, id, key)
  {
    WasShippedStays(cfg, reg, ctx, s, step, id);
    if step.PatchStep? && step.id == id && Ships(s, Patch(cfg, reg, ctx, s, id, step.status), id) {
      JustDrawn(cfg, reg, ctx, s, id, step.status, key);
    }
    hide Patch, Setting, WasShipped, Drawn, Ships;
    StepDraws(cfg, reg, ctx, s, step, id, key);
  }

  lemma {:induction false} SerialFront(steps: seq<Step>)
    requires Serial(steps) && steps != []
    ensures Serial(steps[..|steps| - 1]) && (steps[|steps| - 1].StockStep? ==> !steps[|steps| - 1].op.FulfilOp?)
  {
  }

  lemma {:induction false} ShipsAtFront(cfg: W.Config, reg: map<string, W.Guard>, ctx: Context, steps: seq<Step>, n: nat, id: nat)
    requires n < |steps| - 1
    ensures steps[..|steps| - 1][..n] == steps[..n]
    ensures ShipsAt(cfg, reg, ctx, steps[..|steps| - 1], n, id) <==> ShipsAt(cfg, reg, ctx, steps, n, id)
  {
    assert steps[..|steps| - 1][..n] == steps[..n];
    hide Shipments.Run, Next;
  }

  lemma {:induction false} ShipsLast(cfg: W.Config, reg: map<string, W.Guard>, ctx: Context, steps: seq<Step>, id: nat)
    requires steps != [] && ShipsAt(cfg, reg, ctx, steps, |steps| - 1, id)
    ensures var s, last := Shipments.Run(cfg, reg, ctx, steps[..|steps| - 1]), steps[|steps| - 1];
            last.PatchStep? && last.id == id && Ships(s, Patch(cfg, reg, ctx, s, id, last.status), id) &&
            Next(cfg, reg, ctx, s, last) == Patch(cfg, reg, ctx, s, id, last.status)
  {
    hide Shipments.Run, Patch;
  }

  /** Over every serial run under an acyclic shipment workflow: once a step has shipped a shipment, what the ledger shows as
      drawn for it is exactly what it carries at the keys tracked at that moment in its warehouse, and it stays so. */
  lemma {:induction false} DrawnOnceShipped(cfg: W.Config, reg: map<string, W.Guard>, ctx: Context, steps: seq<Step>, n: nat, id: nat, key: Key)
    requires W.WellFormed(cfg) && Serial(steps) && (DEFINITION in cfg.definitions ==> W.Acyclic(cfg, cfg.definitions[DEFINITION]))
    requires n < |steps| && ShipsAt(cfg, reg, ctx, steps, n, id)
    ensures var was := Shipments.Run(cfg, reg, ctx, steps[..n]);
            && id < |was.domain.shipments| && WasShipped(cfg, Shipments.Run(cfg, reg, ctx, steps), id)
            && Drawn(Shipments.Run(cfg, reg, ctx, steps).domain.stock.movements, id, key) ==
               -Taken(ctx, was.domain.stock.levels, was.domain.shipments[id], key)
  {
    hide *;
    var front := steps[..|steps| - 1];
    var s := Shipments.Run(cfg, reg, ctx, front);
    SerialFront(steps);
    RunSettled(cfg, reg, ctx, front);
    RunStep(cfg, reg, ctx, steps);
    if n == |steps| - 1 {
      ShipsLast(cfg, reg, ctx, steps, id);
      JustDrawn(cfg, reg, ctx, s, id, steps[n].status, key);
    } else {
      ShipsAtFront(cfg, reg, ctx, steps, n, id);
      DrawnOnceShipped(cfg, reg, ctx, front, n, id, key);
      StillDrawn(cfg, reg, ctx, s, steps[|steps| - 1], id, key);
    }
  }

  lemma {:induction false} StepDraws(cfg: W.Config, reg: map<string, W.Guard>, ctx: Context, s: W.Store<Domain>, step: Step, id: nat, key: Key)
    requires step.StockStep? ==> !step.op.FulfilOp?
    requires !(step.PatchStep? && step.id == id && Ships(s, Next(cfg, reg, ctx, s, step), id))
    ensures Drawn(Next(cfg, reg, ctx, s, step).domain.stock.movements, id, key) == Drawn(s.domain.stock.movements, id, key)
  {
    match step
    case CreateStep(order, wh, items) =>
    case PatchStep(other, to) => ShippingDraws(cfg, reg, ctx, s, other, to); hide Patch, Taken;
    case StockStep(op) => StockDrawsNothing(s.domain.stock, op, id, key);
  }

  /** And what no step has shipped has drawn nothing. */
  lemma {:induction false} NothingDrawnBefore(cfg: W.Config, reg: map<string, W.Guard>, ctx: Context, steps: seq<Step>, id: nat, key: Key)
    requires Serial(steps) && forall n | 0 <= n < |steps| :: !ShipsAt(cfg, reg, ctx, steps, n, id)
    ensures Drawn(Shipments.Run(cfg, reg, ctx, steps).domain.stock.movements, id, key) == 0
  {
    if steps != [] {
      var m := |steps| - 1;
      forall n | 0 <= n < m ensures !ShipsAt(cfg, reg, ctx, steps[..m], n, id) {
        assert steps[..m][..n] == steps[..n];
        assert !ShipsAt(cfg, reg, ctx, steps, n, id);
      }
      NothingDrawnBefore(cfg, reg, ctx, steps[..m], id, key);
      assert !ShipsAt(cfg, reg, ctx, steps, m, id);
      StepDraws(cfg, reg, ctx, Shipments.Run(cfg, reg, ctx, steps[..m]), steps[m], id, key);
      hide Next;
    }
  }
}
