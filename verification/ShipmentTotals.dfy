/** What leaves the house: how much of an order line the shipments that are shipped carry, whatever is decided about the
    pending ones, and how much stock the ledger shows as drawn for a product. */
module ShipmentTotals {
  import opened Prelude
  import opened Money
  import opened Inventory
  import opened Shipments
  import W = Workflow

  // ---- the seeded workflow as a table -------------------------------------

  predicate Moves(from: string, to: string) {
    || (from == "pending" && to in {"shipped", "returned"})
    || (from == "shipped" && to in {"delivered", "returned"})
    || (from == "delivered" && to == "returned")
  }

  predicate KnownStatuses(shipments: seq<Shipment>) { forall i | 0 <= i < |shipments| :: shipments[i].status in STATUSES }

  lemma {:induction false} DefaultCodes(i: int)
    requires i in DefaultConfig().states
    ensures var st := DefaultConfig().states[i];
            st.id == i && st.definition == 2 && st.code in STATUSES && DefaultConfig().codes[(2, st.code)] == i &&
            (st.isFinal <==> st.code == "returned")
  {
  }

  lemma {:induction false} CodesOf(status: string)
    requires status in STATUSES
    ensures (2, status) in DefaultConfig().codes && DefaultConfig().codes[(2, status)] in DefaultConfig().states
    ensures DefaultConfig().states[DefaultConfig().codes[(2, status)]].code == status
  {
  }

  /** A transition to the code leads out of a state exactly when the table has the move. */
  lemma {:induction false} DefaultMoves(from: int, to: string)
    requires from in DefaultConfig().states
    ensures var cfg := DefaultConfig();
            (exists k | 0 <= k < |cfg.transitions| :: W.Matches(cfg, cfg.transitions[k], 2, to, from))
            <==> Moves(cfg.states[from].code, to)
  {
    var cfg := DefaultConfig();
    assert cfg.states.Keys == {1, 2, 3, 4};
    var ts := cfg.transitions;
    assert |ts| == 5;
    assert W.Matches(cfg, ts[0], 2, to, from) <==> from == 1 && to == "shipped";
    assert W.Matches(cfg, ts[1], 2, to, from) <==> from == 2 && to == "delivered";
    assert W.Matches(cfg, ts[2], 2, to, from) <==> from == 1 && to == "returned";
    assert W.Matches(cfg, ts[3], 2, to, from) <==> from == 2 && to == "returned";
    assert W.Matches(cfg, ts[4], 2, to, from) <==> from == 3 && to == "returned";
  }

  lemma {:induction false} NoGuards(k: nat)
    requires k < |DefaultConfig().transitions|
    ensures DefaultConfig().transitions[k].guards == [] && DefaultConfig().transitions[k].to in DefaultConfig().states
  {
    assert k == 0 || k == 1 || k == 2 || k == 3 || k == 4;
  }

  /** The shipment's instance, found or created, is in the state its status names. */
  lemma {:induction false} EnsuredAtStatus(s: W.Store<Domain>, id: nat)
    requires StatusFollows(DefaultConfig(), s) && id < |s.domain.shipments| && s.domain.shipments[id].status in STATUSES
    ensures var cfg := DefaultConfig();
            var (instances, inst) := W.Ensure(cfg, s.instances, DEFINITION, ENTITY, id, s.domain.shipments[id].status);
            inst.Some? && inst.value < |instances| && instances[inst.value].definition == 2 &&
            instances[inst.value].current in cfg.states &&
            cfg.states[instances[inst.value].current].code == s.domain.shipments[id].status
  {
    CodesOf(s.domain.shipments[id].status);
    assert DefaultConfig().definitions[DEFINITION] == 2;
    var found := W.FindInstance(s.instances, 2, ENTITY, id);
    if found.Some? { assert InstanceOf(DefaultConfig(), s.instances[found.value]); }
    hide DefaultConfig;
  }

  /** Preparing a move succeeds exactly along the table, whatever guards are registered: the seeded edges name none. */
  lemma {:induction false} PreparedIff(reg: map<string, W.Guard>, instances: seq<W.Instance>, k: nat, to: string)
    requires k < |instances| && instances[k].definition == 2 && instances[k].current in DefaultConfig().states
    ensures var cfg := DefaultConfig();
            var p := W.Prepare(cfg, reg, instances, k, to);
            (p.Ok? <==> Moves(cfg.states[instances[k].current].code, to)) && (p.Ok? ==> p.value.to.code == to)
  {
    var cfg, from := DefaultConfig(), instances[k].current;
    DefaultCodes(from);
    DefaultMoves(from, to);
    var t := W.Pick(cfg, cfg.transitions, 2, to, from);
    if t.Some? {
      var i: nat :| i < |cfg.transitions| && cfg.transitions[i] == t.value;
      NoGuards(i);
      assert W.Matches(cfg, cfg.transitions[i], 2, to, from);
    }
    hide DefaultConfig, W.Pick, W.Matches;
  }

  /** Under the seeded workflow a status change moves a shipment exactly along the table, and touches no other. */
  lemma {:induction false} PatchMovesIff(reg: map<string, W.Guard>, ctx: Context, s: W.Store<Domain>, id: nat, to: string)
    requires StatusFollows(DefaultConfig(), s) && KnownStatuses(s.domain.shipments)
    ensures var was := s.domain.shipments;
            Patch(DefaultConfig(), reg, ctx, s, id, to).domain.shipments ==
            if id < |was| && Moves(was[id].status, to) then was[id := was[id].(status := to)] else was
  {
    if id < |s.domain.shipments| && to != "" {
      EnsuredAtStatus(s, id);
      var (instances, inst) := W.Ensure(DefaultConfig(), s.instances, DEFINITION, ENTITY, id, s.domain.shipments[id].status);
      PreparedIff(reg, instances, inst.value, to);
      hide DefaultConfig, StatusFollows, W.Ensure, W.Prepare, Draw;
    }
  }

  lemma {:induction false} NextKnown(cfg: W.Config, reg: map<string, W.Guard>, ctx: Context, s: W.Store<Domain>, step: Step)
    requires KnownStatuses(s.domain.shipments)
    ensures KnownStatuses(Next(cfg, reg, ctx, s, step).domain.shipments)
  {
    hide W.Ensure, W.Prepare, Draw, Accepted, Stored;
  }

  // ---- runs under the seeded workflow -------------------------------------

  ghost predicate Ready(ctx: Context, s: W.Store<Domain>) {
    Sound(DefaultConfig(), ctx, s) && KnownStatuses(s.domain.shipments)
  }

  function Stepped(reg: map<string, W.Guard>, ctx: Context, s: W.Store<Domain>, step: Step): W.Store<Domain> {
    Next(DefaultConfig(), reg, ctx, s, step)
  }

  /** A run under the seeded workflow. */
  function Ran(reg: map<string, W.Guard>, ctx: Context, steps: seq<Step>): W.Store<Domain> {
    Shipments.Run(DefaultConfig(), reg, ctx, steps)
  }

  function RunFrom(reg: map<string, W.Guard>, ctx: Context, s: W.Store<Domain>, steps: seq<Step>): W.Store<Domain> {
    if steps == [] then s else Stepped(reg, ctx, RunFrom(reg, ctx, s, steps[..|steps| - 1]), steps[|steps| - 1])
  }

  predicate SerialStep(step: Step) { step.StockStep? ==> !step.op.FulfilOp? }

  lemma {:induction false} StepReady(reg: map<string, W.Guard>, ctx: Context, s: W.Store<Domain>, step: Step)
    requires Ready(ctx, s) && SerialStep(step)
    ensures Ready(ctx, Stepped(reg, ctx, s, step))
  {
    var cfg := DefaultConfig();
    assert cfg.definitions[DEFINITION] == 2;
    NextKnown(cfg, reg, ctx, s, step);
    DefaultAcyclic();
    hide Sound, KnownStatuses, W.Acyclic, W.WellFormed, DefaultConfig, Patch, Create;
    match step
    case CreateStep(order, wh, items) => CreateKeepsSound(cfg, ctx, s, order, wh, items);
    case PatchStep(id, status) => PatchKeepsSound(cfg, reg, ctx, s, id, status);
    case StockStep(op) => StockKeepsSound(cfg, ctx, s, op);
  }

  lemma {:induction false} RunReady(reg: map<string, W.Guard>, ctx: Context, steps: seq<Step>)
    requires Serial(steps)
    ensures Ready(ctx, Ran(reg, ctx, steps))
  {
    hide DefaultConfig;
    if steps == [] {
      NothingReady(ctx);
    } else {
      var n := |steps| - 1;
      RunReady(reg, ctx, steps[..n]);
      StepReady(reg, ctx, Ran(reg, ctx, steps[..n]), steps[n]);
      hide Next, Ready;
    }
  }

  lemma {:induction false} NothingReady(ctx: Context)
    ensures Ready(ctx, W.Store([], [], Domain(Stock(map[], []), [])))
  {
  }

  lemma {:induction false} RunSplit(reg: map<string, W.Guard>, ctx: Context, steps: seq<Step>, more: seq<Step>)
    ensures Ran(reg, ctx, steps + more) == RunFrom(reg, ctx, Ran(reg, ctx, steps), more)
  {
    hide DefaultConfig, Next;
    if more == [] {
      assert steps + more == steps;
    } else {
      var n := |more| - 1;
      assert (steps + more)[..|steps + more| - 1] == steps + more[..n];
      RunSplit(reg, ctx, steps, more[..n]);
    }
  }

  // ---- what is out, now and at the worst ----------------------------------

  /** What a shipment carries of a line while it is shipped or delivered. */
  function OutOf(sh: Shipment, item: int): int {
    if sh.status == "shipped" || sh.status == "delivered" then QuantityIn(sh.items, item) else 0
  }

  /** The most it may come to carry: a pending one may be shipped, any may be returned. */
  function MayGoOut(sh: Shipment, item: int): nat {
    if sh.status == "returned" || QuantityIn(sh.items, item) < 0 then 0 else QuantityIn(sh.items, item)
  }

  function Out(shipments: seq<Shipment>, item: int): int {
    if shipments == [] then 0 else Out(shipments[..|shipments| - 1], item) + OutOf(shipments[|shipments| - 1], item)
  }

  function Worst(shipments: seq<Shipment>, item: int): nat {
    if shipments == [] then 0 else Worst(shipments[..|shipments| - 1], item) + MayGoOut(shipments[|shipments| - 1], item)
  }

  ghost predicate OutWithin(ctx: Context, shipments: seq<Shipment>) {
    forall k | k in ctx.orderItems :: Out(shipments, k) <= ctx.orderItems[k].quantity
  }

  ghost predicate WorstFits(ctx: Context, shipments: seq<Shipment>) {
    forall k | k in ctx.orderItems :: Worst(shipments, k) <= ctx.orderItems[k].quantity
  }

  lemma {:induction false} OutBelowWorst(shipments: seq<Shipment>, item: int)
    ensures Out(shipments, item) <= Worst(shipments, item)
  {
    if shipments != [] { OutBelowWorst(shipments[..|shipments| - 1], item); }
  }

  lemma {:induction false} WorstAfterReplace(shipments: seq<Shipment>, id: nat, sh: Shipment, item: int)
    requires id < |shipments|
    ensures Worst(shipments[id := sh], item) == Worst(shipments, item) - MayGoOut(shipments[id], item) + MayGoOut(sh, item)
  {
    hide MayGoOut;
    var n := |shipments| - 1;
    if id < n {
      WorstAfterReplace(shipments[..n], id, sh, item);
      assert shipments[id := sh][..n] == shipments[..n][id := sh];
    } else {
      assert shipments[id := sh][..n] == shipments[..n];
    }
  }

  /** Status changes and stock transactions other than fulfilment. */
  predicate Decisions(steps: seq<Step>) { forall i | 0 <= i < |steps| :: SerialStep(steps[i]) && !steps[i].CreateStep? }

  lemma {:induction false} DecisionKeepsWorst(reg: map<string, W.Guard>, ctx: Context, s: W.Store<Domain>, step: Step)
    requires Ready(ctx, s) && SerialStep(step) && !step.CreateStep? && WorstFits(ctx, s.domain.shipments)
    ensures WorstFits(ctx, Stepped(reg, ctx, s, step).domain.shipments)
  {
    if step.PatchStep? {
      PatchMovesIff(reg, ctx, s, step.id, step.status);
      hide Patch, Sound, Worst, DefaultConfig;
      var was := s.domain.shipments;
      if step.id < |was| && Moves(was[step.id].status, step.status) {
        forall k | k in ctx.orderItems
          ensures Worst(was[step.id := was[step.id].(status := step.status)], k) <= ctx.orderItems[k].quantity
        {
          WorstAfterReplace(was, step.id, was[step.id].(status := step.status), k);
        }
      }
    }
  }

  lemma {:induction false} DecisionsKeepWorst(reg: map<string, W.Guard>, ctx: Context, s: W.Store<Domain>, steps: seq<Step>)
    requires Ready(ctx, s) && Decisions(steps) && WorstFits(ctx, s.domain.shipments)
    ensures var t := RunFrom(reg, ctx, s, steps);
            Ready(ctx, t) && WorstFits(ctx, t.domain.shipments) && OutWithin(ctx, t.domain.shipments)
  {
    hide Ready, Worst, Out, Stepped;
    if steps != [] {
      var n := |steps| - 1;
      DecisionsKeepWorst(reg, ctx, s, steps[..n]);
      DecisionKeepsWorst(reg, ctx, RunFrom(reg, ctx, s, steps[..n]), steps[n]);
      StepReady(reg, ctx, RunFrom(reg, ctx, s, steps[..n]), steps[n]);
    }
    var t := RunFrom(reg, ctx, s, steps);
    forall k | k in ctx.orderItems ensures Out(t.domain.shipments, k) <= ctx.orderItems[k].quantity {
      OutBelowWorst(t.domain.shipments, k);
    }
  }

  /** What to make of a shipment for the worst of a line: return it if it carries a negative quantity of it, ship it if it
      is still pending. */
  function Aim(sh: Shipment, item: int): string { if QuantityIn(sh.items, item) < 0 then "returned" else "shipped" }

  function Aimed(sh: Shipment, item: int): Shipment {
    if Moves(sh.status, Aim(sh, item)) then sh.(status := Aim(sh, item)) else sh
  }

  lemma {:induction false} AimForWorst(reg: map<string, W.Guard>, ctx: Context, s: W.Store<Domain>, item: int, n: nat) returns (steps: seq<Step>)
    requires Ready(ctx, s) && n <= |s.domain.shipments|
    ensures Decisions(steps) && Ready(ctx, RunFrom(reg, ctx, s, steps))
    ensures var was, t := s.domain.shipments, RunFrom(reg, ctx, s, steps).domain.shipments;
            && |t| == |was| && (forall i | 0 <= i < n :: t[i] == Aimed(was[i], item))
            && forall i | n <= i < |t| :: t[i] == was[i]
  {
    hide DefaultConfig, Patch, Aimed, Aim, QuantityIn, StatusFollows, DrawnOnce;
    if n == 0 {
      steps := [];
    } else {
      var front := AimForWorst(reg, ctx, s, item, n - 1);
      var mid := RunFrom(reg, ctx, s, front);
      var sh := s.domain.shipments[n - 1];
      var step := PatchStep(n - 1, Aim(sh, item));
      steps := front + [step];
      assert steps[..|steps| - 1] == front;
      PatchMovesIff(reg, ctx, mid, n - 1, Aim(sh, item));
      StepReady(reg, ctx, mid, step);
      AimedIs(sh, item);
    }
  }

  lemma {:induction false} AimedIs(sh: Shipment, item: int)
    ensures Aimed(sh, item) == if Moves(sh.status, Aim(sh, item)) then sh.(status := Aim(sh, item)) else sh
  {
  }

  lemma {:induction false} AimedIsWorst(was: seq<Shipment>, aimed: seq<Shipment>, item: int)
    requires KnownStatuses(was) && |aimed| == |was| && forall i | 0 <= i < |was| :: aimed[i] == Aimed(was[i], item)
    ensures Out(aimed, item) == Worst(was, item)
  {
    if was != [] {
      var n := |was| - 1;
      AimedIsWorst(was[..n], aimed[..n], item);
      AimedGoesOut(was[n], item);
      hide Aimed, OutOf, MayGoOut;
    }
  }

  lemma {:induction false} AimedGoesOut(sh: Shipment, item: int)
    requires sh.status in STATUSES
    ensures OutOf(Aimed(sh, item), item) == MayGoOut(sh, item)
  {
  }

  /** After any serial run under the seeded workflow, whichever shipments get shipped, delivered or returned, what is out
      of every line stays within what was ordered, exactly when for each line the positive quantities of the shipments not
      returned together fit. */
  lemma {:induction false} DecisionsWithinIff(reg: map<string, W.Guard>, ctx: Context, steps: seq<Step>)
    requires Serial(steps)
    ensures (forall more: seq<Step> | Decisions(more) :: OutWithin(ctx, Ran(reg, ctx, steps + more).domain.shipments))
            <==> WorstFits(ctx, Ran(reg, ctx, steps).domain.shipments)
  {
    var s := Ran(reg, ctx, steps);
    RunReady(reg, ctx, steps);
    hide Worst, Out, Ran, RunFrom, DefaultConfig, Sound;
    if WorstFits(ctx, s.domain.shipments) {
      forall more: seq<Step> | Decisions(more) ensures OutWithin(ctx, Ran(reg, ctx, steps + more).domain.shipments) {
        RunSplit(reg, ctx, steps, more);
        DecisionsKeepWorst(reg, ctx, s, more);
      }
    } else {
      var k :| k in ctx.orderItems && Worst(s.domain.shipments, k) > ctx.orderItems[k].quantity;
      var more := AimForWorst(reg, ctx, s, k, |s.domain.shipments|);
      RunSplit(reg, ctx, steps, more);
      AimedIsWorst(s.domain.shipments, RunFrom(reg, ctx, s, more).domain.shipments, k);
      assert !OutWithin(ctx, Ran(reg, ctx, steps + more).domain.shipments);
    }
  }

  /** The lines a request names have room for the positive part of what it asks of them together. */
  predicate RoomFor(ctx: Context, shipments: seq<Shipment>, items: seq<Request>)
    requires forall i | 0 <= i < |items| :: items[i].orderItem in ctx.orderItems
  {
    forall i | 0 <= i < |items| ::
      Requested(items, items[i].orderItem) > 0 ==>
        Worst(shipments, items[i].orderItem) + Requested(items, items[i].orderItem) <= ctx.orderItems[items[i].orderItem].quantity
  }

  lemma {:induction false} AcceptedKnown(ctx: Context, shipments: seq<Shipment>, order: int, wh: Option<int>, items: seq<Request>)
    requires Accepted(ctx, shipments, order, wh, items)
    ensures forall i | 0 <= i < |items| :: items[i].orderItem in ctx.orderItems
  {
    forall i | 0 <= i < |items| ensures items[i].orderItem in ctx.orderItems { assert LineOk(ctx, shipments, order, items[i]); }
  }

  predicate CreateHasRoom(ctx: Context, shipments: seq<Shipment>, step: Step) {
    step.CreateStep? && Accepted(ctx, shipments, step.order, step.wh, step.items) ==>
      (forall i | 0 <= i < |step.items| :: step.items[i].orderItem in ctx.orderItems) && RoomFor(ctx, shipments, step.items)
  }

  /** An accepted request keeps the worst within the order exactly when each line it names has room. */
  lemma {:induction false} CreateWorstIff(ctx: Context, d: Domain, order: int, wh: Option<int>, items: seq<Request>)
    requires WorstFits(ctx, d.shipments) && Accepted(ctx, d.shipments, order, wh, items)
    ensures forall i | 0 <= i < |items| :: items[i].orderItem in ctx.orderItems
    ensures WorstFits(ctx, Create(ctx, d, order, wh, items).shipments) <==> RoomFor(ctx, d.shipments, items)
  {
    AcceptedKnown(ctx, d.shipments, order, wh, items);
    var t := Create(ctx, d, order, wh, items).shipments;
    assert t[..|d.shipments|] == d.shipments;
    hide Round, QuantityIn, Stored, Accepted;
    forall k
      ensures Worst(t, k) == Worst(d.shipments, k) + if Requested(items, k) < 0 then 0 else Requested(items, k)
      ensures !Mentions(items, k) ==> Requested(items, k) == 0
    {
      if !Mentions(items, k) { NotRequested(items, k); }
    }
    hide Worst, Create;
  }

  lemma {:induction false} StepWorstIff(reg: map<string, W.Guard>, ctx: Context, s: W.Store<Domain>, step: Step)
    requires Ready(ctx, s) && SerialStep(step) && WorstFits(ctx, s.domain.shipments)
    ensures WorstFits(ctx, Stepped(reg, ctx, s, step).domain.shipments) <==> CreateHasRoom(ctx, s.domain.shipments, step)
  {
    hide WorstFits, Ready, DefaultConfig, RoomFor;
    match step
    case CreateStep(order, wh, items) =>
      if Accepted(ctx, s.domain.shipments, order, wh, items) { CreateWorstIff(ctx, s.domain, order, wh, items); }
      hide Accepted;
    case PatchStep(id, status) => DecisionKeepsWorst(reg, ctx, s, step);
    case StockStep(op) => DecisionKeepsWorst(reg, ctx, s, step);
  }

  /** Over any serial run under the seeded workflow, every state stays within what was ordered whichever shipments get
      shipped, exactly when each accepted request came while its lines had room for it. */
  lemma {:induction false} RunWithinIff(reg: map<string, W.Guard>, ctx: Context, steps: seq<Step>)
    requires Serial(steps) && forall k | k in ctx.orderItems :: 0 <= ctx.orderItems[k].quantity
    ensures (forall n | 0 <= n <= |steps| :: WorstFits(ctx, Ran(reg, ctx, steps[..n]).domain.shipments)) <==>
            forall n | 0 <= n < |steps| :: CreateHasRoom(ctx, Ran(reg, ctx, steps[..n]).domain.shipments, steps[n])
  {
    NothingWorst(reg, ctx, steps);
    hide *;
    forall n | 0 <= n < |steps|
      ensures var now := Ran(reg, ctx, steps[..n]).domain.shipments;
              WorstFits(ctx, now) ==>
                (WorstFits(ctx, Ran(reg, ctx, steps[..n + 1]).domain.shipments) <==> CreateHasRoom(ctx, now, steps[n]))
    {
      RunStep(reg, ctx, steps, n);
      if WorstFits(ctx, Ran(reg, ctx, steps[..n]).domain.shipments) { StepWorstIff(reg, ctx, Ran(reg, ctx, steps[..n]), steps[n]); }
    }
    if forall n | 0 <= n < |steps| :: CreateHasRoom(ctx, Ran(reg, ctx, steps[..n]).domain.shipments, steps[n]) {
      for m := 0 to |steps|
        invariant forall n | 0 <= n <= m :: WorstFits(ctx, Ran(reg, ctx, steps[..n]).domain.shipments)
      {
        assert WorstFits(ctx, Ran(reg, ctx, steps[..m]).domain.shipments);
      }
    } else {
      var n :| 0 <= n < |steps| && !CreateHasRoom(ctx, Ran(reg, ctx, steps[..n]).domain.shipments, steps[n]);
      assert WorstFits(ctx, Ran(reg, ctx, steps[..n]).domain.shipments) ==>
             !WorstFits(ctx, Ran(reg, ctx, steps[..n + 1]).domain.shipments);
    }
  }

  lemma {:induction false} RunStep(reg: map<string, W.Guard>, ctx: Context, steps: seq<Step>, n: nat)
    requires n < |steps| && Serial(steps)
    ensures SerialStep(steps[n]) && Ready(ctx, Ran(reg, ctx, steps[..n]))
    ensures Ran(reg, ctx, steps[..n + 1]) == Stepped(reg, ctx, Ran(reg, ctx, steps[..n]), steps[n])
  {
    RunReady(reg, ctx, steps[..n]);
    assert steps[..n + 1][..n] == steps[..n];
    hide Ready, DefaultConfig, Next;
  }

  lemma {:induction false} NothingWorst(reg: map<string, W.Guard>, ctx: Context, steps: seq<Step>)
    requires forall k | k in ctx.orderItems :: 0 <= ctx.orderItems[k].quantity
    ensures WorstFits(ctx, Ran(reg, ctx, steps[..0]).domain.shipments)
  {
  }

  /** A negative quantity, which every check passes, makes room for another shipment to carry twice what was ordered. */
  lemma {:induction false} NegativeQuantityOverships(reg: map<string, W.Guard>)
    ensures var ctx := Context(map[1 := OrderItem(9, 5, 10)], {}, None);
            var start := W.Store([], [], Domain(Stock(map[], []), []));
            var a := Stepped(reg, ctx, start, CreateStep(9, None, [Request(1, -10.0)]));
            var b := Stepped(reg, ctx, a, CreateStep(9, None, [Request(1, 20.0)]));
            var c := Stepped(reg, ctx, b, PatchStep(1, "shipped"));
            && Accepted(ctx, [], 9, None, [Request(1, -10.0)]) && Accepted(ctx, a.domain.shipments, 9, None, [Request(1, 20.0)])
            && WithinOrdered(ctx, a.domain.shipments) && WithinOrdered(ctx, b.domain.shipments)
            && Out(c.domain.shipments, 1) == 20
  {
    var ctx := Context(map[1 := OrderItem(9, 5, 10)], {}, None);
    var start := W.Store([], [], Domain(Stock(map[], []), []));
    var minus, plus := Shipment(9, "pending", None, [ShipItem(1, -10)]), Shipment(9, "pending", None, [ShipItem(1, 20)]);
    var a := Stepped(reg, ctx, start, CreateStep(9, None, [Request(1, -10.0)]));
    var b := Stepped(reg, ctx, a, CreateStep(9, None, [Request(1, 20.0)]));
    MinusThenPlus(ctx);
    NothingReady(ctx);
    StepReady(reg, ctx, start, CreateStep(9, None, [Request(1, -10.0)]));
    StepReady(reg, ctx, a, CreateStep(9, None, [Request(1, 20.0)]));
    assert a.domain.shipments == [minus] && b.domain.shipments == [minus, plus];
    PatchMovesIff(reg, ctx, b, 1, "shipped");
    ShippedPlus();
    hide *;
  }

  lemma {:induction false} MinusThenPlus(ctx: Context)
    requires ctx == Context(map[1 := OrderItem(9, 5, 10)], {}, None)
    ensures var minus, plus := Shipment(9, "pending", None, [ShipItem(1, -10)]), Shipment(9, "pending", None, [ShipItem(1, 20)]);
            var d := Domain(Stock(map[], []), []);
            && Accepted(ctx, [], 9, None, [Request(1, -10.0)]) && Accepted(ctx, [minus], 9, None, [Request(1, 20.0)])
            && Create(ctx, d, 9, None, [Request(1, -10.0)]) == d.(shipments := [minus])
            && Create(ctx, d.(shipments := [minus]), 9, None, [Request(1, 20.0)]) == d.(shipments := [minus, plus])
            && WithinOrdered(ctx, [minus]) && WithinOrdered(ctx, [minus, plus])
  {
    RoundInt(-10);
    RoundInt(20);
    hide Round;
    var minus, plus := Shipment(9, "pending", None, [ShipItem(1, -10)]), Shipment(9, "pending", None, [ShipItem(1, 20)]);
    assert Stored([Request(1, -10.0)]) == minus.items && Stored([Request(1, 20.0)]) == plus.items;
    QuantityOfOne(-10);
    QuantityOfOne(20);
    hide QuantityIn, Stored;
    ShippedAfterCreate([], minus, 1);
    ShippedAfterCreate([minus], plus, 1);
    assert [] + [minus] == [minus] && [minus] + [plus] == [minus, plus];
  }

  lemma {:induction false} QuantityOfOne(q: int)
    ensures QuantityIn([ShipItem(1, q)], 1) == q
  {
    assert [ShipItem(1, q)][..0] == [];
  }

  lemma {:induction false} ShippedPlus()
    ensures var minus, plus := Shipment(9, "pending", None, [ShipItem(1, -10)]), Shipment(9, "pending", None, [ShipItem(1, 20)]);
            Moves("pending", "shipped") && [minus, plus][1 := plus.(status := "shipped")] == [minus, plus.(status := "shipped")] &&
            Out([minus, plus.(status := "shipped")], 1) == 20
  {
    var minus, plus := Shipment(9, "pending", None, [ShipItem(1, -10)]), Shipment(9, "pending", None, [ShipItem(1, 20)]);
    var both := [minus, plus.(status := "shipped")];
    assert both[..1] == [minus] && [minus][..0] == [];
    QuantityOfOne(20);
    assert OutOf(both[1], 1) == 20 && Out([minus], 1) == 0;
  }
}
