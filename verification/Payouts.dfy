/** Vendor fulfilment and payouts (internal/modules/marketplace/vendor.go and payout.go). */
module Payouts {
  import opened Prelude

  datatype Order = Order(vendor: int, status: string, net: int, currency: string, payout: Option<nat>)

  datatype PayoutStatus = PendingPayout | PaidPayout

  datatype Payout = Payout(vendor: int, currency: string, amount: int, status: PayoutStatus)

  datatype State = State(orders: seq<Order>, payouts: seq<Payout>)

  /** The fulfilment lifecycle of a vendor's sub-order. */
  const TRANSITIONS: map<string, seq<string>> := map[
    "pending" := ["accepted", "cancelled"],
    "accepted" := ["shipped", "cancelled"],
    "shipped" := ["delivered"]
  ]

  predicate Allowed(from: string, to: string) { from in TRANSITIONS && to in TRANSITIONS[from] }

  // ---- specification of the four operations -------------------------------

  datatype Op =
    | Place(vendor: int, net: int, currency: string)
    | SetStatus(vendor: int, id: nat, to: string)
    | Generate(vendor: int)
    | MarkPaid(payout: nat)

  predicate Unpaid(o: Order, v: int) { o.vendor == v && o.status == "delivered" && o.payout.None? }

  /** Net of v's delivered orders that no payout has settled. */
  function UnpaidNet(os: seq<Order>, v: int): int {
    if os == [] then 0
    else UnpaidNet(os[..|os| - 1], v) + if Unpaid(os[|os| - 1], v) then os[|os| - 1].net else 0
  }

  /** ListSettledUnpaidVendorOrders: v's delivered orders without a payout, in id order. */
  function UnpaidRows(os: seq<Order>, v: int): seq<Order> {
    if os == [] then []
    else UnpaidRows(os[..|os| - 1], v) + if Unpaid(os[|os| - 1], v) then [os[|os| - 1]] else []
  }

  function NetOf(rows: seq<Order>): int {
    if rows == [] then 0 else NetOf(rows[..|rows| - 1]) + rows[|rows| - 1].net
  }

  /** The settling update: every delivered, unpaid order of v joins payout p. */
  function Attach(os: seq<Order>, v: int, p: nat): (r: seq<Order>)
    ensures |r| == |os|
    ensures forall i | 0 <= i < |os| :: r[i] == if Unpaid(os[i], v) then os[i].(payout := Some(p)) else os[i]
  {
    seq(|os|, i requires 0 <= i < |os| => if Unpaid(os[i], v) then os[i].(payout := Some(p)) else os[i])
  }

  function Apply(s: State, op: Op): State {
    match op
    case Place(v, net, c) => s.(orders := s.orders + [Order(v, "pending", net, c, None)])
    case SetStatus(v, id, to) =>
      if id < |s.orders| && s.orders[id].vendor == v && Allowed(s.orders[id].status, to) then
        s.(orders := s.orders[id := s.orders[id].(status := to)])
      else s
    case Generate(v) =>
      var rows := UnpaidRows(s.orders, v);
      if rows == [] then s
      else State(Attach(s.orders, v, |s.payouts|),
                 s.payouts + [Payout(v, rows[0].currency, NetOf(rows), PendingPayout)])
    case MarkPaid(p) =>
      if p < |s.payouts| && s.payouts[p].status == PendingPayout then
        s.(payouts := s.payouts[p := s.payouts[p].(status := PaidPayout)])
      else s
  }

  function Run(s: State, ops: seq<Op>): State {
    if ops == [] then s else Apply(Run(s, ops[..|ops| - 1]), ops[|ops| - 1])
  }

  // ---- the handlers -------------------------------------------------------

  class Marketplace {
    var orders: seq<Order>
    var payouts: seq<Payout>

    function View(): State
      reads this
    {
      State(orders, payouts)
    }

    constructor ()
      ensures View() == State([], [])
    {
      orders, payouts := [], [];
    }

    method PlaceOrder(v: int, net: int, currency: string)
      modifies this
      ensures View() == Apply(old(View()), Place(v, net, currency))
    {
      orders := orders + [Order(v, "pending", net, currency, None)];
    }

    /** vendorOrderStatus: scans the allowed targets of the current status. */
    method VendorOrderStatus(v: int, id: nat, to: string) returns (ok: bool)
      modifies this
      ensures View() == Apply(old(View()), SetStatus(v, id, to))
      ensures ok <==> id < |old(orders)| && old(orders)[id].vendor == v && Allowed(old(orders)[id].status, to)
    {
      if id >= |orders| || orders[id].vendor != v { return false; }
      var vo := orders[id];
      var targets := if vo.status in TRANSITIONS then TRANSITIONS[vo.status] else [];
      var allowed := false;
      for i := 0 to |targets|
        invariant !allowed && to !in targets[..i]
      {
        if targets[i] == to {
          allowed := true;
          break;
        }
      }
      if !allowed { return false; }
      orders := orders[id := vo.(status := to)];
      return true;
    }

    /** generatePayout: list, total, create, attach, in one transaction. */
    method GeneratePayout(v: int) returns (ok: bool)
      modifies this
      ensures View() == Apply(old(View()), Generate(v))
      ensures ok <==> UnpaidRows(old(orders), v) != []
    {
      var rows := UnpaidRows(orders, v);
      if rows == [] { return false; }
      var amount := 0;
      for i := 0 to |rows|
        invariant amount == NetOf(rows[..i])
      {
        assert rows[..i + 1][..i] == rows[..i];
        amount := amount + rows[i].net;
      }
      assert rows[..|rows|] == rows;
      payouts := payouts + [Payout(v, rows[0].currency, amount, PendingPayout)];
      AttachOrders(v, |payouts| - 1);
      return true;
    }

    method AttachOrders(v: int, p: nat)
      modifies this`orders
      ensures orders == Attach(old(orders), v, p)
    {
      ghost var was := orders;
      for i := 0 to |orders|
        invariant |orders| == |was|
        invariant orders[..i] == Attach(was, v, p)[..i] && orders[i..] == was[i..]
      {
        assert orders[i] == was[i..][0] == was[i];
        if Unpaid(orders[i], v) {
          orders := orders[i := orders[i].(payout := Some(p))];
        }
      }
    }

    method MarkPayoutPaid(p: nat) returns (ok: bool)
      modifies this`payouts
      ensures View() == Apply(old(View()), MarkPaid(p))
      ensures ok <==> p < |old(payouts)| && old(payouts)[p].status == PendingPayout
    {
      ok := p < |payouts| && payouts[p].status == PendingPayout;
      if ok { payouts := payouts[p := payouts[p].(status := PaidPayout)]; }
    }
  }

  // ---- conservation over whole runs ---------------------------------------

  function DeliveredNet(os: seq<Order>, v: int): int {
    if os == [] then 0
    else DeliveredNet(os[..|os| - 1], v) +
         if os[|os| - 1].vendor == v && os[|os| - 1].status == "delivered" then os[|os| - 1].net else 0
  }

  /** Net of the orders a payout has settled. */
  function SettledNet(os: seq<Order>, p: nat): int {
    if os == [] then 0
    else SettledNet(os[..|os| - 1], p) + if os[|os| - 1].payout == Some(p) then os[|os| - 1].net else 0
  }

  function AttachedNet(os: seq<Order>, v: int): int {
    if os == [] then 0
    else AttachedNet(os[..|os| - 1], v) +
         if os[|os| - 1].vendor == v && os[|os| - 1].payout.Some? then os[|os| - 1].net else 0
  }

  function PaidOut(ps: seq<Payout>, v: int): int {
    if ps == [] then 0
    else PaidOut(ps[..|ps| - 1], v) + if ps[|ps| - 1].vendor == v then ps[|ps| - 1].amount else 0
  }

  /** A settled order is delivered and belongs to an existing payout of its vendor. */
  ghost predicate Linked(s: State) {
    forall i | 0 <= i < |s.orders| && s.orders[i].payout.Some? ::
      s.orders[i].status == "delivered" && s.orders[i].payout.value < |s.payouts| &&
      s.payouts[s.orders[i].payout.value].vendor == s.orders[i].vendor
  }

  ghost predicate Totalled(s: State) {
    && (forall p | 0 <= p < |s.payouts| :: s.payouts[p].amount == SettledNet(s.orders, p))
    && (forall v :: AttachedNet(s.orders, v) == PaidOut(s.payouts, v))
  }

  ghost predicate Inv(s: State) { Linked(s) && Totalled(s) }

  /** The listed rows carry exactly the unpaid net. */
  lemma {:induction false} ListedNet(os: seq<Order>, v: int)
    ensures NetOf(UnpaidRows(os, v)) == UnpaidNet(os, v)
  {
    if os != [] {
      var n := |os| - 1;
      ListedNet(os[..n], v);
      assert (UnpaidRows(os[..n], v) + [os[n]])[..|UnpaidRows(os[..n], v)|] == UnpaidRows(os[..n], v);
      assert UnpaidRows(os[..n], v) + [] == UnpaidRows(os[..n], v);
    }
  }

  lemma {:induction false} DeliveredSplits(os: seq<Order>, v: int)
    requires forall i | 0 <= i < |os| && os[i].payout.Some? :: os[i].status == "delivered"
    ensures DeliveredNet(os, v) == UnpaidNet(os, v) + AttachedNet(os, v)
  {
    if os != [] { DeliveredSplits(os[..|os| - 1], v); }
  }

  lemma {:induction false} SumsAfterAttach(os: seq<Order>, v: int, p: nat, w: int, q: nat)
    requires forall i | 0 <= i < |os| :: os[i].payout != Some(p)
    ensures AttachedNet(Attach(os, v, p), w) == AttachedNet(os, w) + if w == v then UnpaidNet(os, v) else 0
    ensures SettledNet(Attach(os, v, p), q) == if q == p then UnpaidNet(os, v) else SettledNet(os, q)
  {
    if os != [] {
      var n := |os| - 1;
      SumsAfterAttach(os[..n], v, p, w, q);
      assert Attach(os, v, p)[..n] == Attach(os[..n], v, p);
    }
  }

  /** Replacing one order by another that is attached alike changes no payout sum. */
  lemma {:induction false} SumsAfterReplace(os: seq<Order>, k: nat, o: Order, w: int, q: nat)
    requires k < |os| && o.vendor == os[k].vendor && o.net == os[k].net && o.payout == os[k].payout
    ensures AttachedNet(os[k := o], w) == AttachedNet(os, w)
    ensures SettledNet(os[k := o], q) == SettledNet(os, q)
  {
    var n := |os| - 1;
    if k < n {
      SumsAfterReplace(os[..n], k, o, w, q);
      assert os[k := o][..n] == os[..n][k := o];
    } else {
      assert os[k := o][..n] == os[..n];
    }
  }

  lemma {:induction false} PaidOutAfterMark(ps: seq<Payout>, k: nat, v: int)
    requires k < |ps|
    ensures PaidOut(ps[k := ps[k].(status := PaidPayout)], v) == PaidOut(ps, v)
  {
    var n := |ps| - 1;
    var marked := ps[k := ps[k].(status := PaidPayout)];
    if k < n {
      PaidOutAfterMark(ps[..n], k, v);
      assert marked[..n] == ps[..n][k := ps[k].(status := PaidPayout)];
    } else {
      assert marked[..n] == ps[..n];
    }
  }

  lemma {:induction false} SetStatusKeepsInv(s: State, id: nat, to: string)
    requires Inv(s) && id < |s.orders| && Allowed(s.orders[id].status, to)
    ensures Inv(s.(orders := s.orders[id := s.orders[id].(status := to)]))
  {
    var o := s.orders[id].(status := to);
    assert s.orders[id].payout.None?;
    forall w ensures AttachedNet(s.orders[id := o], w) == AttachedNet(s.orders, w) {
      SumsAfterReplace(s.orders, id, o, w, 0);
    }
    forall q: nat ensures SettledNet(s.orders[id := o], q) == SettledNet(s.orders, q) {
      SumsAfterReplace(s.orders, id, o, 0, q);
    }
  }

  lemma {:induction false} GenerateKeepsInv(s: State, v: int)
    requires Inv(s)
    ensures Inv(Apply(s, Generate(v)))
  {
    var t, p := Apply(s, Generate(v)), |s.payouts|;
    if t != s {
      ListedNet(s.orders, v);
      forall w
        ensures AttachedNet(t.orders, w) == AttachedNet(s.orders, w) + if w == v then UnpaidNet(s.orders, v) else 0
      {
        SumsAfterAttach(s.orders, v, p, w, 0);
      }
      forall q: nat
        ensures SettledNet(t.orders, q) == if q == p then UnpaidNet(s.orders, v) else SettledNet(s.orders, q)
      {
        SumsAfterAttach(s.orders, v, p, v, q);
      }
      assert t.payouts[..p] == s.payouts;
    }
  }

  lemma {:induction false} StepKeepsInv(s: State, op: Op)
    requires Inv(s)
    ensures Inv(Apply(s, op))
  {
    var t := Apply(s, op);
    match op
    case Place(v, net, c) =>
      assert t.orders[..|s.orders|] == s.orders;
    case SetStatus(v, id, to) =>
      if t != s { SetStatusKeepsInv(s, id, to); }
    case Generate(v) =>
      GenerateKeepsInv(s, v);
    case MarkPaid(p) =>
      if t != s {
        forall v ensures PaidOut(t.payouts, v) == PaidOut(s.payouts, v) {
          PaidOutAfterMark(s.payouts, p, v);
        }
      }
  }

  lemma {:induction false} RunKeepsInv(ops: seq<Op>)
    ensures Inv(Run(State([], []), ops))
  {
    if ops != [] {
      RunKeepsInv(ops[..|ops| - 1]);
      StepKeepsInv(Run(State([], []), ops[..|ops| - 1]), ops[|ops| - 1]);
    }
  }

  /** Over any run, what a vendor earned on delivered orders is what was paid out plus what is still unpaid. */
  lemma {:induction false} PayoutsConserve(ops: seq<Op>, v: int)
    ensures var s := Run(State([], []), ops);
            DeliveredNet(s.orders, v) == PaidOut(s.payouts, v) + UnpaidNet(s.orders, v)
  {
    RunKeepsInv(ops);
    DeliveredSplits(Run(State([], []), ops).orders, v);
  }

  /** Once settled, an order stays in the same payout at the same net for ever: no order is paid twice. */
  lemma {:induction false} SettledOnce(before: seq<Op>, after: seq<Op>, id: nat)
    requires id < |Run(State([], []), before).orders|
    requires Run(State([], []), before).orders[id].payout.Some?
    ensures id < |Run(State([], []), before + after).orders|
    ensures Run(State([], []), before + after).orders[id] == Run(State([], []), before).orders[id]
  {
    if after == [] {
      assert before + after == before;
    } else {
      var n := |after| - 1;
      assert (before + after)[..|before + after| - 1] == before + after[..n];
      SettledOnce(before, after[..n], id);
      RunKeepsInv(before + after[..n]);
    }
  }

  // ---- listing and attaching under concurrent transactions ----------------

  /** What other transactions may do to orders between the listing and the attach: place new ones, write any status - the
      status handler writes what it once read as allowed - and settle those without a payout.  Vendor and net stay. */
  ghost predicate Advanced(os: seq<Order>, later: seq<Order>) {
    && |os| <= |later|
    && (forall i | 0 <= i < |os| ::
          later[i].vendor == os[i].vendor && later[i].net == os[i].net &&
          (os[i].payout.Some? ==> later[i].payout == os[i].payout))
  }

  predicate NewAt(os: seq<Order>, later: seq<Order>, v: int, i: nat)
    requires i < |later|
  {
    Unpaid(later[i], v) && !(i < |os| && Unpaid(os[i], v))
  }

  predicate TakenAt(os: seq<Order>, later: seq<Order>, v: int, i: nat)
    requires i < |later|
  {
    i < |os| && Unpaid(os[i], v) && !Unpaid(later[i], v)
  }

  /** Some order became payable in between; some listed order no longer is, being settled or not delivered any more. */
  ghost predicate NewlyUnpaid(os: seq<Order>, later: seq<Order>, v: int) {
    exists i | 0 <= i < |later| :: NewAt(os, later, v, i)
  }

  ghost predicate Taken(os: seq<Order>, later: seq<Order>, v: int) {
    exists i | 0 <= i < |later| :: TakenAt(os, later, v, i)
  }

  /** Net of the orders that became payable in between, and of those taken away. */
  function NewlyNet(os: seq<Order>, later: seq<Order>, v: int): int {
    if later == [] then 0
    else
      var n := |later| - 1;
      NewlyNet(os, later[..n], v) + if NewAt(os, later, v, n) then later[n].net else 0
  }

  function TakenNet(os: seq<Order>, later: seq<Order>, v: int): int {
    if later == [] then 0
    else
      var n := |later| - 1;
      TakenNet(os, later[..n], v) + if TakenAt(os, later, v, n) then os[n].net else 0
  }

  /** The positions of the orders that are listed and totalled, and of those a payout has settled. */
  function ListedSet(os: seq<Order>, v: int): set<nat> { set i: nat | i < |os| && Unpaid(os[i], v) }

  function SettledSet(os: seq<Order>, p: nat): set<nat> { set i: nat | i < |os| && os[i].payout == Some(p) }

  /** The source takes the totalled set and the settled set to be identical because both statements share a transaction.
      They are, exactly when no order of the vendor becomes payable in between and none that is listed is taken away; and
      the settled net is the total, plus the net of the former, less the net of the latter. */
  lemma {:induction false} AmountMatchesSettledSet(os: seq<Order>, later: seq<Order>, v: int, p: nat)
    requires Advanced(os, later)
    requires forall i | 0 <= i < |later| :: later[i].payout != Some(p)
    ensures ListedSet(os, v) == SettledSet(Attach(later, v, p), p) <==> !NewlyUnpaid(os, later, v) && !Taken(os, later, v)
    ensures SettledNet(Attach(later, v, p), p) == NetOf(UnpaidRows(os, v)) + NewlyNet(os, later, v) - TakenNet(os, later, v)
  {
    ListedNet(os, v);
    SumsAfterAttach(later, v, p, v, p);
    UnpaidMoves(os, later, v);
    SettledIsUnpaid(later, v, p);
    SameListedIff(os, later, v);
  }

  lemma {:induction false} SameListedIff(os: seq<Order>, later: seq<Order>, v: int)
    requires |os| <= |later|
    ensures ListedSet(os, v) == ListedSet(later, v) <==> !NewlyUnpaid(os, later, v) && !Taken(os, later, v)
  {
    var before, after := ListedSet(os, v), ListedSet(later, v);
    if NewlyUnpaid(os, later, v) {
      var i: nat :| i < |later| && NewAt(os, later, v, i);
      assert i in after && i !in before;
    } else if Taken(os, later, v) {
      var i: nat :| i < |later| && TakenAt(os, later, v, i);
      assert i in before && i !in after;
    } else {
      forall i: nat ensures i in before <==> i in after {
        if i < |later| { assert !NewAt(os, later, v, i) && !TakenAt(os, later, v, i); }
      }
    }
  }

  lemma {:induction false} SettledIsUnpaid(os: seq<Order>, v: int, p: nat)
    requires forall i | 0 <= i < |os| :: os[i].payout != Some(p)
    ensures SettledSet(Attach(os, v, p), p) == ListedSet(os, v)
  {
  }

  lemma {:induction false} UnpaidMoves(os: seq<Order>, later: seq<Order>, v: int)
    requires Advanced(os, later)
    ensures UnpaidNet(later, v) == UnpaidNet(os, v) + NewlyNet(os, later, v) - TakenNet(os, later, v)
    decreases |later|
  {
    if later != [] {
      var n := |later| - 1;
      var rest := if |os| == |later| then os[..n] else os;
      UnpaidMoves(rest, later[..n], v);
      if |os| == |later| { MovesIgnoreBeyond(os, later[..n], v); }
    }
  }

  /** Only orders within the later table matter. */
  lemma {:induction false} MovesIgnoreBeyond(os: seq<Order>, later: seq<Order>, v: int)
    requires |later| < |os|
    ensures NewlyNet(os[..|os| - 1], later, v) == NewlyNet(os, later, v)
    ensures TakenNet(os[..|os| - 1], later, v) == TakenNet(os, later, v)
    decreases |later|
  {
    if later != [] { MovesIgnoreBeyond(os, later[..|later| - 1], v); }
  }

  /** A delivery in between is attached but not totalled: the order is settled at no pay. */
  lemma {:induction false} DeliveryInBetweenUnpaid()
    ensures var os := [Order(7, "delivered", 50, "USD", None), Order(7, "shipped", 30, "USD", None)];
            var later := os[1 := os[1].(status := "delivered")];
            Advanced(os, later) && NetOf(UnpaidRows(os, 7)) == 50 && SettledNet(Attach(later, 7, 0), 0) == 80
  {
    var os := [Order(7, "delivered", 50, "USD", None), Order(7, "shipped", 30, "USD", None)];
    var later := os[1 := os[1].(status := "delivered")];
    assert os[..1] == [os[0]] && later[..1] == [os[0]];
    ListedNet(os, 7);
    SumsAfterAttach(later, 7, 0, 7, 0);
  }

  // ---- runs of overlapping transactions -----------------------------------

  /** A payout under way: what its listing saw. */
  datatype Listing = Listing(vendor: int, seen: seq<Order>)

  /** A status write under way: its request was allowed when it read the order. */
  datatype Write = Write(id: nat, to: string)

  /** The tables, what is under way, and for each payout the positions it totalled. */
  datatype Shared = Shared(
    orders: seq<Order>, payouts: seq<Payout>, writes: seq<Write>, listings: seq<Listing>, totalled: seq<set<nat>>)

  /** Every statement on its own; a payout is created and its orders attached in one step, at its commit. */
  datatype Step =
    | PlaceStep(vendor: int, net: int, currency: string)
    | ReadStatus(vendor: int, id: nat, to: string)
    | WriteStatus(write: nat)
    | ListStep(vendor: int)
    | CommitStep(listing: nat)
    | MarkStep(payout: nat)

  predicate Commits(s: Shared, a: Step) {
    a.CommitStep? && a.listing < |s.listings| &&
    UnpaidRows(s.listings[a.listing].seen, s.listings[a.listing].vendor) != []
  }

  function Next(s: Shared, a: Step): Shared {
    match a
    case PlaceStep(v, net, c) => s.(orders := s.orders + [Order(v, "pending", net, c, None)])
    case ReadStatus(v, id, to) =>
      if id < |s.orders| && s.orders[id].vendor == v && Allowed(s.orders[id].status, to) then
        s.(writes := s.writes + [Write(id, to)])
      else s
    case WriteStatus(k) =>
      if k < |s.writes| && s.writes[k].id < |s.orders| then
        var w := s.writes[k];
        s.(orders := s.orders[w.id := s.orders[w.id].(status := w.to)], writes := s.writes[..k] + s.writes[k + 1..])
      else s
    case MarkStep(p) =>
      if p < |s.payouts| && s.payouts[p].status == PendingPayout then
        s.(payouts := s.payouts[p := s.payouts[p].(status := PaidPayout)])
      else s
    case ListStep(v) => s.(listings := s.listings + [Listing(v, s.orders)])
    case CommitStep(k) =>
      if !Commits(s, a) then s
      else
        var l := s.listings[k];
        var rows := UnpaidRows(l.seen, l.vendor);
        Shared(Attach(s.orders, l.vendor, |s.payouts|),
               s.payouts + [Payout(l.vendor, rows[0].currency, NetOf(rows), PendingPayout)],
               s.writes, s.listings[..k] + s.listings[k + 1..], s.totalled + [ListedSet(l.seen, l.vendor)])
  }

  function RunShared(steps: seq<Step>): Shared {
    if steps == [] then Shared([], [], [], [], []) else Next(RunShared(steps[..|steps| - 1]), steps[|steps| - 1])
  }

  /** Every listing under way is of orders that have only advanced since, and orders belong to payouts that exist. */
  ghost predicate Sane(s: Shared) {
    && |s.totalled| == |s.payouts|
    && (forall k | 0 <= k < |s.listings| :: Advanced(s.listings[k].seen, s.orders))
    && (forall i | 0 <= i < |s.orders| && s.orders[i].payout.Some? :: s.orders[i].payout.value < |s.payouts|)
  }

  lemma {:induction false} AdvancedOn(os: seq<Order>, mid: seq<Order>, later: seq<Order>)
    requires Advanced(os, mid) && Advanced(mid, later)
    ensures Advanced(os, later)
  {
  }

  lemma {:induction false} NextAdvances(s: Shared, a: Step)
    ensures Advanced(s.orders, Next(s, a).orders)
  {
  }

  lemma {:induction false} NextSane(s: Shared, a: Step)
    requires Sane(s)
    ensures Sane(Next(s, a))
  {
    var t := Next(s, a);
    NextAdvances(s, a);
    hide UnpaidRows, NetOf;
    forall k | 0 <= k < |t.listings| ensures Advanced(t.listings[k].seen, t.orders) {
      if t.listings[k] in s.listings {
        var j :| 0 <= j < |s.listings| && s.listings[j] == t.listings[k];
        AdvancedOn(s.listings[j].seen, s.orders, t.orders);
      }
    }
  }

  lemma {:induction false} RunSane(steps: seq<Step>)
    ensures Sane(RunShared(steps))
  {
    if steps != [] {
      RunSane(steps[..|steps| - 1]);
      NextSane(RunShared(steps[..|steps| - 1]), steps[|steps| - 1]);
    }
  }

  /** The payout totals exactly what it attaches. */
  ghost predicate CommitsClean(s: Shared, a: Step) {
    Commits(s, a) ==>
      var l := s.listings[a.listing];
      !NewlyUnpaid(l.seen, s.orders, l.vendor) && !Taken(l.seen, s.orders, l.vendor)
  }

  ghost predicate SetsMatch(s: Shared) {
    |s.totalled| == |s.payouts| && forall p | 0 <= p < |s.payouts| :: s.totalled[p] == SettledSet(s.orders, p)
  }

  lemma {:induction false} NextMatchesIff(s: Shared, a: Step)
    requires Sane(s) && SetsMatch(s)
    ensures SetsMatch(Next(s, a)) <==> CommitsClean(s, a)
  {
    var t := Next(s, a);
    forall p: nat | p < |s.payouts| ensures SettledSet(t.orders, p) == SettledSet(s.orders, p) { SettledStays(s, a, p); }
    if Commits(s, a) {
      var l, p := s.listings[a.listing], |s.payouts|;
      hide SettledSet, ListedSet, NewlyUnpaid, Taken, UnpaidRows, NetOf, Attach;
      AmountMatchesSettledSet(l.seen, s.orders, l.vendor, p);
      assert t.totalled[p] == ListedSet(l.seen, l.vendor) && t.orders == Attach(s.orders, l.vendor, p);
    }
  }

  lemma {:induction false} SettledStays(s: Shared, a: Step, p: nat)
    requires p < |s.payouts|
    ensures SettledSet(Next(s, a).orders, p) == SettledSet(s.orders, p)
  {
    hide UnpaidRows, NetOf;
  }

  /** Whatever overlaps, every payout totals exactly the orders it settles, in every state passed through, exactly when
      at every commit no order of the vendor has become payable since its listing and none listed has been taken away. */
  lemma {:induction false} SharedMatchesIff(steps: seq<Step>)
    ensures (forall n | 0 <= n <= |steps| :: SetsMatch(RunShared(steps[..n])))
            <==> forall n | 0 <= n < |steps| :: CommitsClean(RunShared(steps[..n]), steps[n])
  {
    hide *;
    forall n | 0 <= n < |steps|
      ensures SetsMatch(RunShared(steps[..n])) ==>
                (SetsMatch(RunShared(steps[..n + 1])) <==> CommitsClean(RunShared(steps[..n]), steps[n]))
    {
      SharedStep(steps, n);
      if SetsMatch(RunShared(steps[..n])) { NextMatchesIff(RunShared(steps[..n]), steps[n]); }
    }
    NothingShared(steps);
    if forall n | 0 <= n < |steps| :: CommitsClean(RunShared(steps[..n]), steps[n]) {
      for m := 0 to |steps|
        invariant forall n | 0 <= n <= m :: SetsMatch(RunShared(steps[..n]))
      {
        assert SetsMatch(RunShared(steps[..m]));
      }
    } else {
      var n :| 0 <= n < |steps| && !CommitsClean(RunShared(steps[..n]), steps[n]);
      assert SetsMatch(RunShared(steps[..n])) ==> !SetsMatch(RunShared(steps[..n + 1]));
    }
  }

  lemma {:induction false} SharedStep(steps: seq<Step>, n: nat)
    requires n < |steps|
    ensures Sane(RunShared(steps[..n])) && RunShared(steps[..n + 1]) == Next(RunShared(steps[..n]), steps[n])
  {
    RunSane(steps[..n]);
    assert steps[..n + 1][..n] == steps[..n];
    hide Next, Sane;
  }

  lemma {:induction false} NothingShared(steps: seq<Step>)
    ensures SetsMatch(RunShared(steps[..0])) && SettledDelivered(RunShared(steps[..0]))
  {
  }

  /** What the commits of a run paid out beyond what they settled. */
  function Drift(steps: seq<Step>, v: int): int {
    if steps == [] then 0
    else
      var n := |steps| - 1;
      var s, a := RunShared(steps[..n]), steps[n];
      Drift(steps[..n], v) +
      if Commits(s, a) && s.listings[a.listing].vendor == v then
        TakenNet(s.listings[a.listing].seen, s.orders, v) - NewlyNet(s.listings[a.listing].seen, s.orders, v)
      else 0
  }

  lemma {:induction false} NextPays(s: Shared, a: Step, v: int)
    requires Sane(s)
    ensures var t := Next(s, a);
            PaidOut(t.payouts, v) - AttachedNet(t.orders, v) == PaidOut(s.payouts, v) - AttachedNet(s.orders, v) +
            if Commits(s, a) && s.listings[a.listing].vendor == v then
              TakenNet(s.listings[a.listing].seen, s.orders, v) - NewlyNet(s.listings[a.listing].seen, s.orders, v)
            else 0
  {
    var t, p := Next(s, a), |s.payouts|;
    match a
    case PlaceStep(w, net, c) => assert t.orders[..|s.orders|] == s.orders;
    case ReadStatus(w, id, to) =>
    case WriteStatus(k) =>
      if t != s { SumsAfterReplace(s.orders, s.writes[k].id, t.orders[s.writes[k].id], v, 0); }
    case ListStep(w) =>
    case MarkStep(q) =>
      if t != s { PaidOutAfterMark(s.payouts, q, v); }
    case CommitStep(k) =>
      if Commits(s, a) {
        var l := s.listings[k];
        hide Attach, NewlyNet, TakenNet, UnpaidNet, UnpaidRows, NetOf, AttachedNet;
        ListedNet(l.seen, l.vendor);
        UnpaidMoves(l.seen, s.orders, l.vendor);
        SumsAfterAttach(s.orders, l.vendor, p, v, p);
        assert t.payouts[..p] == s.payouts;
      }
  }

  /** However transactions overlap, what was paid out is the net of the settled orders and the drift of the commits; while
      settled orders are delivered ones, delivered net is what was paid out, less the drift, plus what is unpaid. */
  lemma {:induction false} SharedConserves(steps: seq<Step>, v: int)
    ensures PaidOut(RunShared(steps).payouts, v) == AttachedNet(RunShared(steps).orders, v) + Drift(steps, v)
    ensures SettledDelivered(RunShared(steps)) ==>
              var s := RunShared(steps);
              DeliveredNet(s.orders, v) == PaidOut(s.payouts, v) - Drift(steps, v) + UnpaidNet(s.orders, v)
  {
    if SettledDelivered(RunShared(steps)) { DeliveredSplits(RunShared(steps).orders, v); }
    if steps != [] {
      var n := |steps| - 1;
      SharedConserves(steps[..n], v);
      RunSane(steps[..n]);
      NextPays(RunShared(steps[..n]), steps[n], v);
      hide Next, Commits, PaidOut, AttachedNet, NewlyNet, TakenNet;
    }
  }

  ghost predicate SettledDelivered(s: Shared) {
    forall i | 0 <= i < |s.orders| && s.orders[i].payout.Some? :: s.orders[i].status == "delivered"
  }

  /** A status written on a settled order is "delivered" again. */
  predicate WritesFresh(s: Shared, a: Step) {
    a.WriteStatus? && a.write < |s.writes| && s.writes[a.write].id < |s.orders| && s.orders[s.writes[a.write].id].payout.Some? ==>
      s.writes[a.write].to == "delivered"
  }

  lemma {:induction false} NextDeliveredIff(s: Shared, a: Step)
    requires SettledDelivered(s)
    ensures SettledDelivered(Next(s, a)) <==> WritesFresh(s, a)
  {
    hide UnpaidRows, NetOf, ListedSet;
    if !WritesFresh(s, a) {
      var w := s.writes[a.write];
      assert Next(s, a).orders[w.id].status == w.to;
    }
  }

  /** Every settled order is a delivered one, in every state passed through, exactly when no write that was allowed before
      lands on an order settled since, but for "delivered" itself. */
  lemma {:induction false} SharedDeliveredIff(steps: seq<Step>)
    ensures (forall n | 0 <= n <= |steps| :: SettledDelivered(RunShared(steps[..n])))
            <==> forall n | 0 <= n < |steps| :: WritesFresh(RunShared(steps[..n]), steps[n])
  {
    hide *;
    forall n | 0 <= n < |steps|
      ensures SettledDelivered(RunShared(steps[..n])) ==>
                (SettledDelivered(RunShared(steps[..n + 1])) <==> WritesFresh(RunShared(steps[..n]), steps[n]))
    {
      SharedStep(steps, n);
      if SettledDelivered(RunShared(steps[..n])) { NextDeliveredIff(RunShared(steps[..n]), steps[n]); }
    }
    NothingShared(steps);
    if forall n | 0 <= n < |steps| :: WritesFresh(RunShared(steps[..n]), steps[n]) {
      for m := 0 to |steps|
        invariant forall n | 0 <= n <= m :: SettledDelivered(RunShared(steps[..n]))
      {
        assert SettledDelivered(RunShared(steps[..m]));
      }
    } else {
      var n :| 0 <= n < |steps| && !WritesFresh(RunShared(steps[..n]), steps[n]);
      assert SettledDelivered(RunShared(steps[..n])) ==> !SettledDelivered(RunShared(steps[..n + 1]));
    }
  }

  /** A cancellation that was allowed when the order was accepted lands after the order was settled. */
  lemma {:induction false} CancelledAfterPayout()
    ensures var order := Order(7, "delivered", 50, "USD", None);
            var s := Shared([order], [], [Write(0, "cancelled")], [Listing(7, [order])], []);
            var t := Next(Next(s, CommitStep(0)), WriteStatus(0));
            t.orders == [Order(7, "cancelled", 50, "USD", Some(0))] && |t.payouts| == 1 && t.payouts[0].amount == 50
  {
    FirstCommit([Write(0, "cancelled")], []);
  }

  lemma {:induction false} FirstCommit(writes: seq<Write>, others: seq<Listing>)
    ensures var os := [Order(7, "delivered", 50, "USD", None)];
            var l := Listing(7, os);
            UnpaidRows(os, 7) == os && NetOf(os) == 50 &&
            Next(Shared(os, [], writes, [l] + others, []), CommitStep(0)) ==
            Shared([Order(7, "delivered", 50, "USD", Some(0))], [Payout(7, "USD", 50, PendingPayout)], writes, others, [ListedSet(os, 7)])
  {
    var os := [Order(7, "delivered", 50, "USD", None)];
    var l := Listing(7, os);
    assert os[..0] == [] && UnpaidRows(os, 7) == os && NetOf(os) == 50;
    hide UnpaidRows, NetOf, ListedSet;
    assert ([l] + others)[..0] + ([l] + others)[1..] == others;
    assert Attach(os, 7, 0) == [Order(7, "delivered", 50, "USD", Some(0))];
  }

  /** Two payouts listed before either commits total the same order: the second is stored at the full amount with nothing
      attached, and the vendor is paid 100 for 50 delivered. */
  lemma {:induction false} PaidTwice()
    ensures var os := [Order(7, "delivered", 50, "USD", None)];
            var l := Listing(7, os);
            var s := Next(Next(Shared(os, [], [], [], []), ListStep(7)), ListStep(7));
            var u := Next(s, CommitStep(0));
            var t := Next(u, CommitStep(0));
            s.listings == [l, l] && Taken(os, u.orders, 7) && !NewlyUnpaid(os, u.orders, 7) &&
            PaidOut(t.payouts, 7) == 100 && DeliveredNet(t.orders, 7) == 50 && SettledSet(t.orders, 1) == {}
  {
    FirstCommit([], [Listing(7, [Order(7, "delivered", 50, "USD", None)])]);
    SecondCommit();
    ListedTwice();
    TwicePaid();
    hide *;
  }

  lemma {:induction false} ListedTwice()
    ensures var os := [Order(7, "delivered", 50, "USD", None)];
            var l := Listing(7, os);
            Next(Next(Shared(os, [], [], [], []), ListStep(7)), ListStep(7)) == Shared(os, [], [], [l] + [l], []) &&
            [l] + [l] == [l, l]
  {
  }

  lemma {:induction false} SecondCommit()
    ensures var os, settled := [Order(7, "delivered", 50, "USD", None)], [Order(7, "delivered", 50, "USD", Some(0))];
            var first := Payout(7, "USD", 50, PendingPayout);
            var t := Next(Shared(settled, [first], [], [Listing(7, os)], [ListedSet(os, 7)]), CommitStep(0));
            t.orders == settled && t.payouts == [first, first]
  {
    FirstCommit([], []);
    var settled := [Order(7, "delivered", 50, "USD", Some(0))];
    assert Attach(settled, 7, 1) == settled;
    hide UnpaidRows, NetOf, ListedSet, Attach;
  }

  lemma {:induction false} TwicePaid()
    ensures var os, settled := [Order(7, "delivered", 50, "USD", None)], [Order(7, "delivered", 50, "USD", Some(0))];
            var first := Payout(7, "USD", 50, PendingPayout);
            PaidOut([first, first], 7) == 100 && DeliveredNet(settled, 7) == 50 && SettledSet(settled, 1) == {} &&
            Taken(os, settled, 7) && !NewlyUnpaid(os, settled, 7)
  {
    var os, settled := [Order(7, "delivered", 50, "USD", None)], [Order(7, "delivered", 50, "USD", Some(0))];
    var first := Payout(7, "USD", 50, PendingPayout);
    assert TakenAt(os, settled, 7, 0);
    assert [first, first][..1] == [first] && [first][..0] == [] && settled[..0] == [];
    assert PaidOut([first], 7) == 50;
  }

  // ---- what each operation writes -----------------------------------------

  /** A sub-order moves as a vendor works it off. */
  predicate MovesTo(from: string, to: string) {
    (from == "pending" && to in {"accepted", "cancelled"}) || (from == "accepted" && to in {"shipped", "cancelled"}) ||
    (from == "shipped" && to == "delivered")
  }

  lemma {:induction false} AllowedIs(from: string, to: string)
    ensures Allowed(from, to) <==> MovesTo(from, to)
  {
    if from in TRANSITIONS {
      var targets := TRANSITIONS[from];
      assert from == "pending" ==> targets == ["accepted", "cancelled"];
      assert from == "accepted" ==> targets == ["shipped", "cancelled"];
      assert from == "shipped" ==> targets == ["delivered"];
    }
  }

  /** Placing adds a pending, unpaid sub-order; a status is written for the vendor's own order along the table only, and
      touches nothing but the status; marking makes a pending payout paid and touches nothing else. */
  lemma {:induction false} OpEffect(s: State, op: Op)
    ensures var t := Apply(s, op);
            match op
            case Place(v, net, c) => t == State(s.orders + [Order(v, "pending", net, c, None)], s.payouts)
            case SetStatus(v, id, to) =>
              t == if id < |s.orders| && s.orders[id].vendor == v && MovesTo(s.orders[id].status, to)
                   then State(s.orders[id := s.orders[id].(status := to)], s.payouts) else s
            case Generate(v) => true
            case MarkPaid(p) =>
              t == if p < |s.payouts| && s.payouts[p].status == PendingPayout
                   then State(s.orders, s.payouts[p := s.payouts[p].(status := PaidPayout)]) else s
  {
    if op.SetStatus? && op.id < |s.orders| { AllowedIs(s.orders[op.id].status, op.to); }
    hide UnpaidRows, NetOf, Attach, Allowed;
  }

  predicate Owing(o: Order, v: int) { o.vendor == v && o.status == "delivered" && o.payout == None }

  lemma {:induction false} OwingListed(os: seq<Order>, v: int)
    ensures UnpaidRows(os, v) == [] <==> forall i | 0 <= i < |os| :: !Owing(os[i], v)
    ensures UnpaidRows(os, v) != [] ==> exists i | 0 <= i < |os| :: Owing(os[i], v) && UnpaidRows(os, v)[0] == os[i] && forall j | 0 <= j < i :: !Owing(os[j], v)
  {
    if os != [] {
      var n := |os| - 1;
      OwingListed(os[..n], v);
      assert forall i | 0 <= i < n :: os[..n][i] == os[i];
      assert UnpaidRows(os, v) == UnpaidRows(os[..n], v) + if Owing(os[n], v) then [os[n]] else [];
      hide UnpaidRows;
      if UnpaidRows(os[..n], v) != [] {
        var i :| 0 <= i < n && Owing(os[..n][i], v) && UnpaidRows(os[..n], v)[0] == os[..n][i] && forall j | 0 <= j < i :: !Owing(os[..n][j], v);
        assert Owing(os[i], v) && forall j | 0 <= j < i :: !Owing(os[j], v);
      } else if Owing(os[n], v) {
        assert forall j | 0 <= j < n :: !Owing(os[j], v);
      }
    }
  }

  /** Generating a payout pays everything the vendor is owed: when there is something, one pending payout of the vendor is
      added, in the currency of the first order owed, and exactly the orders owed are linked to it, so that none is left; when
      there is nothing, nothing happens. */
  lemma {:induction false} GeneratePaysAll(s: State, v: int)
    ensures var t := Apply(s, Generate(v));
            if forall i | 0 <= i < |s.orders| :: !Owing(s.orders[i], v) then t == s
            else
              && |t.payouts| == |s.payouts| + 1 && t.payouts[..|s.payouts|] == s.payouts && |t.orders| == |s.orders|
              && t.payouts[|s.payouts|] == Payout(v, t.payouts[|s.payouts|].currency, UnpaidNet(s.orders, v), PendingPayout)
              && (exists i | 0 <= i < |s.orders| ::
                    Owing(s.orders[i], v) && t.payouts[|s.payouts|].currency == s.orders[i].currency &&
                    forall j | 0 <= j < i :: !Owing(s.orders[j], v))
              && (forall i | 0 <= i < |t.orders| ::
                    t.orders[i] == (if Owing(s.orders[i], v) then s.orders[i].(payout := Some(|s.payouts|)) else s.orders[i]) &&
                    !Owing(t.orders[i], v))
  {
    OwingListed(s.orders, v);
    ListedNet(s.orders, v);
    hide UnpaidRows, NetOf, UnpaidNet;
  }
}
