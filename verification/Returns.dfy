/** Returns and credit notes (internal/modules/otc/returns.go).  Quantities and amounts are in units of 1/10000;
    a return's id and an order line's id are positions. */
module Returns {
  import opened Prelude
  import opened Money
  import I = Inventory

  datatype OrderLine = OrderLine(order: int, product: int, quantity: int, unitPrice: int)

  datatype ReturnItem = ReturnItem(line: nat, quantity: int)

  datatype Return = Return(order: int, status: string, items: seq<ReturnItem>)

  datatype CreditNote = CreditNote(ret: nat, amount: int)

  datatype State = State(rmas: seq<Return>, credits: seq<CreditNote>)

  /** A requested line; the quantity is any decimal, in units of 1/10000. */
  datatype Request = Request(line: int, quantity: real)

  // ---- specification ------------------------------------------------------

  function QuantityIn(items: seq<ReturnItem>, line: int): int {
    if items == [] then 0
    else QuantityIn(items[..|items| - 1], line) +
         if items[|items| - 1].line == line then items[|items| - 1].quantity else 0
  }

  /** SumReturnedForOrderItem: everything asked back and not rejected. */
  function Returned(rmas: seq<Return>, line: int): int {
    if rmas == [] then 0
    else
      var last := rmas[|rmas| - 1];
      Returned(rmas[..|rmas| - 1], line) + if last.status == "rejected" then 0 else QuantityIn(last.items, line)
  }

  predicate LineOk(lines: seq<OrderLine>, rmas: seq<Return>, order: int, it: Request) {
    0 <= it.line < |lines| && lines[it.line].order == order &&
    it.quantity <= (lines[it.line].quantity - Returned(rmas, it.line)) as real
  }

  predicate Accepted(lines: seq<OrderLine>, rmas: seq<Return>, order: int, items: seq<Request>) {
    items != [] && forall i | 0 <= i < |items| :: LineOk(lines, rmas, order, items[i])
  }

  function Stored(items: seq<Request>): (r: seq<ReturnItem>)
    requires forall i | 0 <= i < |items| :: 0 <= items[i].line
    ensures |r| == |items| && forall i | 0 <= i < |r| :: r[i] == ReturnItem(items[i].line, Round(items[i].quantity))
  {
    seq(|items|, i requires 0 <= i < |items| => ReturnItem(items[i].line, Round(items[i].quantity)))
  }

  /** What the credit note pays: each line priced and rounded, then added exactly. */
  function CreditOf(lines: seq<OrderLine>, items: seq<ReturnItem>): int {
    if items == [] then 0
    else
      var it := items[|items| - 1];
      CreditOf(lines, items[..|items| - 1]) + if it.line < |lines| then LineUnits(it.quantity, lines[it.line].unitPrice) else 0
  }

  datatype Op =
    | CreateOp(order: int, items: seq<Request>)
    | ApproveOp(id: nat)
    | RejectOp(id: nat)
    | ReceiveOp(id: nat)

  function Mark(s: State, id: nat, from: string, to: string): State {
    if id < |s.rmas| && s.rmas[id].status == from then
      s.(rmas := s.rmas[id := s.rmas[id].(status := to)])
    else s
  }

  /** The write, which does not look at quantities any more. */
  function Store(s: State, order: int, items: seq<Request>): State
    requires forall i | 0 <= i < |items| :: 0 <= items[i].line
  {
    s.(rmas := s.rmas + [Return(order, "requested", Stored(items))])
  }

  function Apply(lines: seq<OrderLine>, s: State, op: Op): State {
    match op
    case CreateOp(order, items) => if Accepted(lines, s.rmas, order, items) then Store(s, order, items) else s
    case ApproveOp(id) => Mark(s, id, "requested", "approved")
    case RejectOp(id) => Mark(s, id, "requested", "rejected")
    case ReceiveOp(id) =>
      if id < |s.rmas| && s.rmas[id].status == "approved" then
        Mark(s, id, "approved", "received").(credits := s.credits + [CreditNote(id, CreditOf(lines, s.rmas[id].items))])
      else s
  }

  function Run(lines: seq<OrderLine>, ops: seq<Op>): State {
    if ops == [] then State([], []) else Apply(lines, Run(lines, ops[..|ops| - 1]), ops[|ops| - 1])
  }

  /** The restocked lines of a return. */
  function RestockLines(lines: seq<OrderLine>, items: seq<ReturnItem>): seq<I.Item> {
    if items == [] then []
    else
      var it := items[|items| - 1];
      RestockLines(lines, items[..|items| - 1]) +
      if it.line < |lines| then [I.Item(lines[it.line].product, it.quantity)] else []
  }

  /** What some return lines bring back of a product. */
  function QuantityOf(lines: seq<OrderLine>, items: seq<ReturnItem>, product: int): int {
    if items == [] then 0
    else
      var it := items[|items| - 1];
      QuantityOf(lines, items[..|items| - 1], product) +
      if it.line < |lines| && lines[it.line].product == product then it.quantity else 0
  }

  /** Receiving raises on-hand of every tracked product at the default warehouse by exactly what comes back of it, books
      that in the ledger, and changes no other level, no reservation and no backorder setting. */
  lemma {:induction false} RestockRaises(lines: seq<OrderLine>, s: I.Stock, wh: int, items: seq<ReturnItem>, ret: int)
    ensures var t := I.Restock(s, wh, RestockLines(lines, items), ret);
            && t.levels.Keys == s.levels.Keys
            && (forall key | key in s.levels ::
                  var back := if key.warehouse == wh then QuantityOf(lines, items, key.product) else 0;
                  t.levels[key] == I.Level(s.levels[key].onHand + back, s.levels[key].reserved, s.levels[key].backorder))
            && (forall key | key in s.levels ::
                  I.LedgerOnHand(t.movements, key) == I.LedgerOnHand(s.movements, key) +
                  if key.warehouse == wh then QuantityOf(lines, items, key.product) else 0)
            && |s.movements| <= |t.movements| && t.movements[..|s.movements|] == s.movements
            && forall i | |s.movements| <= i < |t.movements| :: t.movements[i].kind == I.Returned && t.movements[i].ref == I.ReturnRef(ret)
  {
    var rows := RestockLines(lines, items);
    forall product ensures I.Ordered(rows, product) == QuantityOf(lines, items, product) { RestockOrdered(lines, items, product); }
    hide RestockLines, QuantityOf, I.Ordered, I.Restock, I.LedgerOnHand;
    forall key { I.RestockEffect(s, wh, rows, ret, key); }
    I.RestockRows(s, wh, rows, ret);
  }

  lemma {:induction false} RestockOrdered(lines: seq<OrderLine>, items: seq<ReturnItem>, product: int)
    ensures I.Ordered(RestockLines(lines, items), product) == QuantityOf(lines, items, product)
  {
    if items != [] {
      var n := |items| - 1;
      RestockOrdered(lines, items[..n], product);
      var front := RestockLines(lines, items[..n]);
      if items[n].line < |lines| {
        assert RestockLines(lines, items)[..|front|] == front;
      } else {
        assert RestockLines(lines, items) == front;
      }
    }
  }

  // ---- the handlers -------------------------------------------------------

  class ReturnsDesk {
    var rmas: seq<Return>
    var credits: seq<CreditNote>
    const lines: seq<OrderLine>
    const stock: I.Warehouse

    function View(): State
      reads this
    {
      State(rmas, credits)
    }

    constructor (lines: seq<OrderLine>, stock: I.Warehouse)
      ensures View() == State([], []) && this.lines == lines && this.stock == stock
    {
      this.lines, this.stock := lines, stock;
      rmas, credits := [], [];
    }

    method ValidateAndCreateReturn(order: int, items: seq<Request>) returns (ok: bool)
      modifies this`rmas
      ensures View() == Apply(lines, old(View()), CreateOp(order, items))
      ensures ok <==> Accepted(lines, old(rmas), order, items)
    {
      if items == [] { return false; }
      for i := 0 to |items|
        invariant unchanged(this)
        invariant forall j | 0 <= j < i :: LineOk(lines, rmas, order, items[j])
      {
        var it := items[i];
        if !(0 <= it.line < |lines|) || lines[it.line].order != order { return false; }
        var remaining := lines[it.line].quantity - Returned(rmas, it.line);
        if it.quantity > remaining as real { return false; }
      }
      var rows: seq<ReturnItem> := [];
      for i := 0 to |items|
        invariant unchanged(this)
        invariant rows == Stored(items)[..i]
      {
        rows := rows + [ReturnItem(items[i].line, Round(items[i].quantity))];
      }
      assert rows == Stored(items);
      rmas := rmas + [Return(order, "requested", rows)];
      return true;
    }

    method ApproveReturn(id: nat) returns (ok: bool)
      modifies this`rmas
      ensures View() == Apply(lines, old(View()), ApproveOp(id))
      ensures ok <==> id < |old(rmas)| && old(rmas)[id].status == "requested"
    {
      ok := id < |rmas| && rmas[id].status == "requested";
      if ok { rmas := rmas[id := rmas[id].(status := "approved")]; }
    }

    method RejectReturn(id: nat) returns (ok: bool)
      modifies this`rmas
      ensures View() == Apply(lines, old(View()), RejectOp(id))
      ensures ok <==> id < |old(rmas)| && old(rmas)[id].status == "requested"
    {
      ok := id < |rmas| && rmas[id].status == "requested";
      if ok { rmas := rmas[id := rmas[id].(status := "rejected")]; }
    }

    /** receiveReturn: status, restock into the default warehouse, and one credit note. */
    method ReceiveReturn(id: nat, wh: Option<int>) returns (ok: bool)
      modifies this, stock
      ensures View() == Apply(lines, old(View()), ReceiveOp(id))
      ensures ok <==> id < |old(rmas)| && old(rmas)[id].status == "approved"
      ensures stock.View() ==
              if ok && wh.Some? then I.Restock(old(stock.View()), wh.value, RestockLines(lines, old(rmas)[id].items), id)
              else old(stock.View())
      ensures stock.levels.Keys == old(stock.levels.Keys)
      ensures forall key | key in stock.levels ::
                var back := if ok && wh == Some(key.warehouse) then QuantityOf(lines, old(rmas)[id].items, key.product) else 0;
                var was := old(stock.levels[key]);
                stock.levels[key] == I.Level(was.onHand + back, was.reserved, was.backorder)
    {
      ghost var before := stock.View();
      if id >= |rmas| || rmas[id].status != "approved" { return false; }
      var items := rmas[id].items;
      var total := 0;
      for i := 0 to |items|
        invariant unchanged(this) && unchanged(stock)
        invariant total == CreditOf(lines, items[..i])
      {
        assert items[..i + 1][..i] == items[..i];
        if items[i].line < |lines| {
          total := total + LineUnits(items[i].quantity, lines[items[i].line].unitPrice);
        }
      }
      assert items[..|items|] == items;
      rmas := rmas[id := rmas[id].(status := "received")];
      if wh.Some? { RestockRaises(lines, before, wh.value, items, id); }
      stock.RestockReturn(wh, RestockLines(lines, items), id);
      credits := credits + [CreditNote(id, total)];
      return true;
    }
  }

  // ---- never more returned than ordered -----------------------------------

  predicate EachLineOnce(items: seq<Request>) {
    forall i, j | 0 <= i < j < |items| :: items[i].line != items[j].line
  }

  predicate NonNegative(items: seq<Request>) { forall i | 0 <= i < |items| :: 0.0 <= items[i].quantity }

  predicate Careful(ops: seq<Op>) {
    forall i | 0 <= i < |ops| && ops[i].CreateOp? :: EachLineOnce(ops[i].items) && NonNegative(ops[i].items)
  }

  ghost predicate WithinOrdered(lines: seq<OrderLine>, s: State) {
    forall k | 0 <= k < |lines| :: Returned(s.rmas, k) <= lines[k].quantity
  }

  /** Return items name lines of their own order, with non-negative quantities. */
  ghost predicate WellPlaced(lines: seq<OrderLine>, s: State) {
    forall r, i | 0 <= r < |s.rmas| && 0 <= i < |s.rmas[r].items| ::
      s.rmas[r].items[i].line < |lines| && lines[s.rmas[r].items[i].line].order == s.rmas[r].order &&
      0 <= s.rmas[r].items[i].quantity
  }

  lemma {:induction false} StoredQuantity(items: seq<Request>, line: int)
    requires EachLineOnce(items) && forall i | 0 <= i < |items| :: 0 <= items[i].line
    ensures (forall i | 0 <= i < |items| :: items[i].line != line) ==> QuantityIn(Stored(items), line) == 0
    ensures forall i | 0 <= i < |items| && items[i].line == line :: QuantityIn(Stored(items), line) == Round(items[i].quantity)
  {
    hide Round;
    if items != [] {
      var n := |items| - 1;
      StoredQuantity(items[..n], line);
      assert Stored(items)[..n] == Stored(items[..n]);
      assert forall i | 0 <= i < n :: items[..n][i] == items[i];
    }
  }

  lemma {:induction false} CreateKeepsWithin(lines: seq<OrderLine>, s: State, order: int, items: seq<Request>)
    requires WithinOrdered(lines, s) && EachLineOnce(items) && Accepted(lines, s.rmas, order, items)
    ensures WithinOrdered(lines, Apply(lines, s, CreateOp(order, items)))
  {
    hide Round;
    var t := Apply(lines, s, CreateOp(order, items));
    assert t.rmas[..|s.rmas|] == s.rmas;
    forall k | 0 <= k < |lines|
      ensures Returned(t.rmas, k) <= lines[k].quantity
    {
      StoredQuantity(items, k);
      if i :| 0 <= i < |items| && items[i].line == k {
        var remaining := lines[k].quantity - Returned(s.rmas, k);
        assert LineOk(lines, s.rmas, order, items[i]);
        RoundMonotone(items[i].quantity, remaining as real);
        RoundInt(remaining);
      }
    }
  }

  lemma {:induction false} QuantityNonNegative(items: seq<ReturnItem>, line: int)
    requires forall i | 0 <= i < |items| :: 0 <= items[i].quantity
    ensures 0 <= QuantityIn(items, line)
  {
    if items != [] { QuantityNonNegative(items[..|items| - 1], line); }
  }

  /** Changing one return's status changes the returned total only by rejecting it. */
  lemma {:induction false} ReturnedAfterMark(rmas: seq<Return>, id: nat, to: string, line: int)
    requires id < |rmas| && rmas[id].status != "rejected"
    ensures Returned(rmas[id := rmas[id].(status := to)], line) ==
            Returned(rmas, line) - if to == "rejected" then QuantityIn(rmas[id].items, line) else 0
  {
    var n := |rmas| - 1;
    var marked := rmas[id := rmas[id].(status := to)];
    if id < n {
      ReturnedAfterMark(rmas[..n], id, to, line);
      assert marked[..n] == rmas[..n][id := rmas[id].(status := to)];
    } else {
      assert marked[..n] == rmas[..n];
    }
  }

  lemma {:induction false} MarkKeepsWithin(lines: seq<OrderLine>, s: State, id: nat, from: string, to: string)
    requires WithinOrdered(lines, s) && WellPlaced(lines, s) && from != "rejected"
    ensures WithinOrdered(lines, Mark(s, id, from, to)) && WellPlaced(lines, Mark(s, id, from, to))
  {
    if id < |s.rmas| && s.rmas[id].status == from {
      forall k | 0 <= k < |lines|
        ensures Returned(Mark(s, id, from, to).rmas, k) <= Returned(s.rmas, k)
      {
        ReturnedAfterMark(s.rmas, id, to, k);
        QuantityNonNegative(s.rmas[id].items, k);
      }
    }
  }

  /** Over every serial run of non-negative requests naming each line at most once, no line has more returned
      (and not rejected) than was ordered. */
  lemma {:induction false} RunWithinOrdered(lines: seq<OrderLine>, ops: seq<Op>)
    requires Careful(ops) && forall k | 0 <= k < |lines| :: 0 <= lines[k].quantity
    ensures WithinOrdered(lines, Run(lines, ops)) && WellPlaced(lines, Run(lines, ops))
  {
    if ops != [] {
      var n := |ops| - 1;
      RunWithinOrdered(lines, ops[..n]);
      var s := Run(lines, ops[..n]);
      match ops[n]
      case CreateOp(order, items) =>
        if Accepted(lines, s.rmas, order, items) {
          CreateKeepsWithin(lines, s, order, items);
          forall i | 0 <= i < |items| ensures 0 <= Round(items[i].quantity) {
            assert LineOk(lines, s.rmas, order, items[i]);
          }
        }
      case ApproveOp(id) => MarkKeepsWithin(lines, s, id, "requested", "approved");
      case RejectOp(id) => MarkKeepsWithin(lines, s, id, "requested", "rejected");
      case ReceiveOp(id) => MarkKeepsWithin(lines, s, id, "approved", "received");
    }
  }

  /** A negative quantity would break it: reject the return that carries it and the rest exceeds the order. */
  lemma {:induction false} NegativeQuantityOverReturns()
    ensures var lines := [OrderLine(9, 5, 10, 1)];
            var negative := Return(9, "requested", [ReturnItem(0, -5)]);
            var items := [Request(0, 15.0)];
            var both := [negative, Return(9, "requested", [ReturnItem(0, 15)])];
            && Apply(lines, State([negative], []), CreateOp(9, items)) == State(both, [])
            && Returned(both, 0) == 10
            && Returned(Mark(State(both, []), 0, "requested", "rejected").rmas, 0) == 15
  {
    var negative, large := Return(9, "requested", [ReturnItem(0, -5)]), Return(9, "requested", [ReturnItem(0, 15)]);
    RoundInt(15);
    assert Stored([Request(0, 15.0)]) == [ReturnItem(0, 15)];
    assert [ReturnItem(0, -5)][..0] == [] && [ReturnItem(0, 15)][..0] == [];
    assert QuantityIn([ReturnItem(0, -5)], 0) == -5 && QuantityIn([ReturnItem(0, 15)], 0) == 15;
    assert [negative][..0] == [] && Returned([negative], 0) == -5;
    assert [negative, large][..1] == [negative];
    assert [negative] + [large] == [negative, large];
    ReturnedAfterMark([negative, large], 0, "rejected", 0);
  }

  // ---- the exact conditions -----------------------------------------------

  /** What a request asks back of a line, over all its entries. */
  function Asked(items: seq<Request>, line: int): int
    requires forall i | 0 <= i < |items| :: 0 <= items[i].line
  {
    QuantityIn(Stored(items), line)
  }

  lemma {:induction false} NotAsked(items: seq<Request>, line: int)
    requires forall i | 0 <= i < |items| :: 0 <= items[i].line && items[i].line != line
    ensures Asked(items, line) == 0
  {
    hide Round;
    if items != [] {
      NotAsked(items[..|items| - 1], line);
      assert Stored(items)[..|items| - 1] == Stored(items[..|items| - 1]);
    }
  }

  lemma {:induction false} ReturnedAfterCreate(rmas: seq<Return>, r: Return, line: int)
    requires r.status != "rejected"
    ensures Returned(rmas + [r], line) == Returned(rmas, line) + QuantityIn(r.items, line)
  {
    assert (rmas + [r])[..|rmas|] == rmas;
  }

  predicate Known(lines: seq<OrderLine>, items: seq<Request>) { forall i | 0 <= i < |items| :: 0 <= items[i].line < |lines| }

  /** The request fits what remains, line by line, with all its quantities of a line together. */
  predicate Fits(lines: seq<OrderLine>, rmas: seq<Return>, items: seq<Request>)
    requires Known(lines, items)
  {
    forall i | 0 <= i < |items| :: Returned(rmas, items[i].line) + Asked(items, items[i].line) <= lines[items[i].line].quantity
  }

  /** Whenever it was checked, writing a request keeps every line within what was ordered exactly when it fits the returns
      that are there by then. */
  lemma {:induction false} StoreWithinIff(lines: seq<OrderLine>, s: State, order: int, items: seq<Request>)
    requires WithinOrdered(lines, s) && Known(lines, items)
    ensures WithinOrdered(lines, Store(s, order, items)) <==> Fits(lines, s.rmas, items)
  {
    hide Round, Returned, QuantityIn, Stored;
    var t := Store(s, order, items);
    forall k | 0 <= k < |lines|
      ensures Returned(t.rmas, k) == Returned(s.rmas, k) + Asked(items, k)
      ensures (forall i | 0 <= i < |items| :: items[i].line != k) ==> Asked(items, k) == 0
    {
      ReturnedAfterCreate(s.rmas, t.rmas[|s.rmas|], k);
      if forall i | 0 <= i < |items| :: items[i].line != k { NotAsked(items, k); }
    }
  }

  /** An accepted request keeps every line within what was ordered exactly when, line by line, the quantities it names
      together fit what remains; each one alone always fits. */
  lemma {:induction false} CreateWithinIff(lines: seq<OrderLine>, s: State, order: int, items: seq<Request>)
    requires WithinOrdered(lines, s) && Accepted(lines, s.rmas, order, items)
    ensures Known(lines, items)
    ensures WithinOrdered(lines, Apply(lines, s, CreateOp(order, items))) <==> Fits(lines, s.rmas, items)
  {
    forall i | 0 <= i < |items| ensures 0 <= items[i].line < |lines| { assert LineOk(lines, s.rmas, order, items[i]); }
    StoreWithinIff(lines, s, order, items);
    hide Fits, Store;
  }

  /** Two requests for all of a line that are both checked before either is written return twice what was ordered. */
  lemma {:induction false} OverlappingOverReturns()
    ensures var lines := [OrderLine(9, 5, 10, 1)];
            var all := [Request(0, 10.0)];
            var once := Store(State([], []), 9, all);
            Accepted(lines, [], 9, all) && WithinOrdered(lines, once) && !WithinOrdered(lines, Store(once, 9, all))
  {
    var lines := [OrderLine(9, 5, 10, 1)];
    var all := [Request(0, 10.0)];
    assert LineOk(lines, [], 9, all[0]);
    AskedOnce();
    hide Round, Stored, QuantityIn;
    var once := Store(State([], []), 9, all);
    ReturnedAfterCreate([], once.rmas[0], 0);
    assert [] + [once.rmas[0]] == once.rmas;
    assert Returned(once.rmas, 0) == 10;
    hide Returned;
    StoreWithinIff(lines, State([], []), 9, all);
    StoreWithinIff(lines, once, 9, all);
  }

  lemma {:induction false} AskedOnce()
    ensures Asked([Request(0, 10.0)], 0) == 10
    ensures Returned([], 0) == 0
  {
    RoundInt(10);
    var stored := Stored([Request(0, 10.0)]);
    hide Round;
    assert stored == [ReturnItem(0, 10)] && stored[..0] == [];
  }

  /** Rejecting a return keeps every line within what was ordered exactly when the rest fits without it. */
  lemma {:induction false} RejectWithinIff(lines: seq<OrderLine>, s: State, id: nat)
    requires id < |s.rmas| && s.rmas[id].status == "requested"
    ensures WithinOrdered(lines, Apply(lines, s, RejectOp(id))) <==>
            forall k | 0 <= k < |lines| :: Returned(s.rmas, k) - QuantityIn(s.rmas[id].items, k) <= lines[k].quantity
  {
    forall k | 0 <= k < |lines|
      ensures Returned(Apply(lines, s, RejectOp(id)).rmas, k) == Returned(s.rmas, k) - QuantityIn(s.rmas[id].items, k)
    {
      ReturnedAfterMark(s.rmas, id, "rejected", k);
    }
    hide Returned, QuantityIn;
  }

  /** What a return counts for now, and the most it may come to count for: an open request may still be rejected. */
  function Counts(r: Return, line: int): int { if r.status == "rejected" then 0 else QuantityIn(r.items, line) }

  function MayCount(r: Return, line: int): int {
    if r.status == "requested" && QuantityIn(r.items, line) < 0 then 0 else Counts(r, line)
  }

  /** The settled quantities of a line and the positive ones among the open requests. */
  function Worst(rmas: seq<Return>, line: int): int {
    if rmas == [] then 0 else Worst(rmas[..|rmas| - 1], line) + MayCount(rmas[|rmas| - 1], line)
  }

  predicate WorstFits(lines: seq<OrderLine>, s: State) {
    forall k | 0 <= k < |lines| :: Worst(s.rmas, k) <= lines[k].quantity
  }

  /** Approvals, rejections and receipts. */
  predicate Decisions(ops: seq<Op>) { forall i | 0 <= i < |ops| :: !ops[i].CreateOp? }

  function RunFrom(lines: seq<OrderLine>, s: State, ops: seq<Op>): State {
    if ops == [] then s else Apply(lines, RunFrom(lines, s, ops[..|ops| - 1]), ops[|ops| - 1])
  }

  lemma {:induction false} RunSplit(lines: seq<OrderLine>, ops: seq<Op>, more: seq<Op>)
    ensures Run(lines, ops + more) == RunFrom(lines, Run(lines, ops), more)
  {
    if more == [] {
      assert ops + more == ops;
    } else {
      var n := |more| - 1;
      assert (ops + more)[..|ops + more| - 1] == ops + more[..n];
      RunSplit(lines, ops, more[..n]);
    }
  }

  lemma {:induction false} ReturnedBelowWorst(rmas: seq<Return>, line: int)
    ensures Returned(rmas, line) <= Worst(rmas, line)
  {
    if rmas != [] { ReturnedBelowWorst(rmas[..|rmas| - 1], line); }
  }

  lemma {:induction false} WorstAfterReplace(rmas: seq<Return>, id: nat, r: Return, line: int)
    requires id < |rmas|
    ensures Worst(rmas[id := r], line) == Worst(rmas, line) - MayCount(rmas[id], line) + MayCount(r, line)
  {
    hide MayCount;
    var n := |rmas| - 1;
    if id < n {
      WorstAfterReplace(rmas[..n], id, r, line);
      assert rmas[id := r][..n] == rmas[..n][id := r];
    } else {
      assert rmas[id := r][..n] == rmas[..n];
    }
  }

  lemma {:induction false} DecisionKeepsWorst(lines: seq<OrderLine>, s: State, op: Op)
    requires !op.CreateOp? && WorstFits(lines, s)
    ensures WorstFits(lines, Apply(lines, s, op))
  {
    var t := Apply(lines, s, op);
    if t.rmas != s.rmas {
      forall k | 0 <= k < |lines| ensures Worst(t.rmas, k) <= lines[k].quantity {
        WorstAfterReplace(s.rmas, op.id, t.rmas[op.id], k);
      }
    }
  }

  lemma {:induction false} DecisionsKeepWorst(lines: seq<OrderLine>, s: State, ops: seq<Op>)
    requires Decisions(ops) && WorstFits(lines, s)
    ensures WorstFits(lines, RunFrom(lines, s, ops)) && WithinOrdered(lines, RunFrom(lines, s, ops))
  {
    hide Worst, Returned, Apply;
    if ops != [] {
      var n := |ops| - 1;
      DecisionsKeepWorst(lines, s, ops[..n]);
      DecisionKeepsWorst(lines, RunFrom(lines, s, ops[..n]), ops[n]);
    }
    var t := RunFrom(lines, s, ops);
    forall k | 0 <= k < |lines| ensures Returned(t.rmas, k) <= lines[k].quantity { ReturnedBelowWorst(t.rmas, k); }
  }

  /** An open request that counts negatively for a line, rejected. */
  function Lowered(r: Return, line: int): Return {
    if r.status == "requested" && QuantityIn(r.items, line) < 0 then r.(status := "rejected") else r
  }

  /** Rejections that leave just the worst of a line. */
  lemma {:induction false} RejectNegatives(lines: seq<OrderLine>, s: State, line: int, n: nat) returns (ops: seq<Op>)
    requires n <= |s.rmas|
    ensures Decisions(ops)
    ensures var t := RunFrom(lines, s, ops).rmas;
            && |t| == |s.rmas| && (forall i | 0 <= i < n :: t[i] == Lowered(s.rmas[i], line))
            && forall i | n <= i < |t| :: t[i] == s.rmas[i]
  {
    hide QuantityIn;
    if n == 0 {
      ops := [];
    } else {
      var front := RejectNegatives(lines, s, line, n - 1);
      if Lowered(s.rmas[n - 1], line) == s.rmas[n - 1] {
        ops := front;
      } else {
        ops := front + [RejectOp(n - 1)];
        assert ops[..|ops| - 1] == front;
      }
    }
  }

  lemma {:induction false} LoweredIsWorst(rmas: seq<Return>, lowered: seq<Return>, line: int)
    requires |lowered| == |rmas| && forall i | 0 <= i < |rmas| :: lowered[i] == Lowered(rmas[i], line)
    ensures Returned(lowered, line) == Worst(rmas, line)
  {
    if rmas != [] { LoweredIsWorst(rmas[..|rmas| - 1], lowered[..|rmas| - 1], line); }
  }

  /** After any run whatever, every way of deciding the open requests keeps all lines within what was ordered exactly
      when, for each line, the settled quantities and the positive open ones together fit. */
  lemma {:induction false} DecisionsWithinIff(lines: seq<OrderLine>, ops: seq<Op>)
    ensures (forall more: seq<Op> | Decisions(more) :: WithinOrdered(lines, Run(lines, ops + more))) <==> WorstFits(lines, Run(lines, ops))
  {
    hide Worst, Returned, Run, RunFrom, WithinOrdered;
    var s := Run(lines, ops);
    if WorstFits(lines, s) {
      forall more: seq<Op> | Decisions(more) ensures WithinOrdered(lines, Run(lines, ops + more)) {
        RunSplit(lines, ops, more);
        DecisionsKeepWorst(lines, s, more);
      }
    } else {
      var k :| 0 <= k < |lines| && Worst(s.rmas, k) > lines[k].quantity;
      var more := RejectNegatives(lines, s, k, |s.rmas|);
      RunSplit(lines, ops, more);
      LoweredIsWorst(s.rmas, RunFrom(lines, s, more).rmas, k);
      NotWithin(lines, RunFrom(lines, s, more), k);
    }
  }

  lemma {:induction false} NotWithin(lines: seq<OrderLine>, s: State, k: nat)
    requires k < |lines| && Returned(s.rmas, k) > lines[k].quantity
    ensures !WithinOrdered(lines, s)
  {
  }

  /** The lines a request names have room for the positive part of what it asks of them together. */
  predicate RoomFor(lines: seq<OrderLine>, s: State, order: int, items: seq<Request>)
    requires Accepted(lines, s.rmas, order, items)
  {
    forall i | 0 <= i < |items| ::
      LineOk(lines, s.rmas, order, items[i]) &&
      (Asked(items, items[i].line) > 0 ==>
         Worst(s.rmas, items[i].line) + Asked(items, items[i].line) <= lines[items[i].line].quantity)
  }

  /** A create keeps it so exactly when each line it names has room for the positive part of what is asked of it. */
  lemma {:induction false} CreateWorstIff(lines: seq<OrderLine>, s: State, order: int, items: seq<Request>)
    requires WorstFits(lines, s) && Accepted(lines, s.rmas, order, items)
    ensures WorstFits(lines, Apply(lines, s, CreateOp(order, items))) <==> RoomFor(lines, s, order, items)
  {
    hide Round, Returned, QuantityIn, Stored;
    var t := Apply(lines, s, CreateOp(order, items));
    assert t.rmas[..|s.rmas|] == s.rmas;
    forall i | 0 <= i < |items| ensures 0 <= items[i].line < |lines| { assert LineOk(lines, s.rmas, order, items[i]); }
    forall k | 0 <= k < |lines|
      ensures Worst(t.rmas, k) == Worst(s.rmas, k) + if Asked(items, k) < 0 then 0 else Asked(items, k)
      ensures (forall i | 0 <= i < |items| :: items[i].line != k) ==> Asked(items, k) == 0
    {
      if forall i | 0 <= i < |items| :: items[i].line != k { NotAsked(items, k); }
    }
    hide Worst;
  }

  /** Over any run whatever, every state stays within what was ordered however its open requests are decided, exactly
      when each accepted request came while its lines had room for it. */
  lemma {:induction false} RunWithinIff(lines: seq<OrderLine>, ops: seq<Op>)
    requires forall k | 0 <= k < |lines| :: 0 <= lines[k].quantity
    ensures (forall n | 0 <= n <= |ops| :: WorstFits(lines, Run(lines, ops[..n]))) <==>
            (forall n | 0 <= n < |ops| && ops[n].CreateOp? && Accepted(lines, Run(lines, ops[..n]).rmas, ops[n].order, ops[n].items) ::
               RoomFor(lines, Run(lines, ops[..n]), ops[n].order, ops[n].items))
  {
    hide Worst, Run, RoomFor, Accepted, WorstFits;
    forall n | 0 <= n < |ops| ensures Run(lines, ops[..n + 1]) == Apply(lines, Run(lines, ops[..n]), ops[n]) { RunStep(lines, ops, n); }
    hide Apply;
    if forall n | 0 <= n <= |ops| :: WorstFits(lines, Run(lines, ops[..n])) {
      forall n | 0 <= n < |ops| && ops[n].CreateOp? && Accepted(lines, Run(lines, ops[..n]).rmas, ops[n].order, ops[n].items)
        ensures RoomFor(lines, Run(lines, ops[..n]), ops[n].order, ops[n].items)
      {
        CreateWorstIff(lines, Run(lines, ops[..n]), ops[n].order, ops[n].items);
        assert WorstFits(lines, Run(lines, ops[..n + 1]));
      }
    }
    if forall n | 0 <= n < |ops| && ops[n].CreateOp? && Accepted(lines, Run(lines, ops[..n]).rmas, ops[n].order, ops[n].items) ::
         RoomFor(lines, Run(lines, ops[..n]), ops[n].order, ops[n].items)
    {
      forall n | 0 <= n <= |ops| ensures WorstFits(lines, Run(lines, ops[..n])) { RoomySoFar(lines, ops, n); }
    }
  }

  lemma {:induction false} RunStep(lines: seq<OrderLine>, ops: seq<Op>, n: nat)
    requires n < |ops|
    ensures Run(lines, ops[..n + 1]) == Apply(lines, Run(lines, ops[..n]), ops[n])
  {
    assert ops[..n + 1][..n] == ops[..n];
    hide Apply;
  }

  lemma {:induction false} RoomySoFar(lines: seq<OrderLine>, ops: seq<Op>, n: nat)
    requires n <= |ops| && forall k | 0 <= k < |lines| :: 0 <= lines[k].quantity
    requires forall i | 0 <= i < |ops| && ops[i].CreateOp? && Accepted(lines, Run(lines, ops[..i]).rmas, ops[i].order, ops[i].items) ::
               RoomFor(lines, Run(lines, ops[..i]), ops[i].order, ops[i].items)
    ensures WorstFits(lines, Run(lines, ops[..n]))
  {
    hide RoomFor, Worst;
    if n > 0 {
      RoomySoFar(lines, ops, n - 1);
      RunStep(lines, ops, n - 1);
      var s := Run(lines, ops[..n - 1]);
      if ops[n - 1].CreateOp? {
        if Accepted(lines, s.rmas, ops[n - 1].order, ops[n - 1].items) { CreateWorstIff(lines, s, ops[n - 1].order, ops[n - 1].items); }
      } else {
        DecisionKeepsWorst(lines, s, ops[n - 1]);
      }
    } else {
      assert ops[..0] == [];
      NothingWorst(lines);
    }
  }

  lemma {:induction false} NothingWorst(lines: seq<OrderLine>)
    requires forall k | 0 <= k < |lines| :: 0 <= lines[k].quantity
    ensures WorstFits(lines, State([], []))
  {
  }

  /** Naming a line twice in one request passes both checks and returns more than was ordered. */
  lemma {:induction false} RepeatedLineOverReturns()
    ensures var lines := [OrderLine(9, 5, 10, 1)];
            var items := [Request(0, 10.0), Request(0, 10.0)];
            && WithinOrdered(lines, State([], [])) && Accepted(lines, [], 9, items)
            && !WithinOrdered(lines, Apply(lines, State([], []), CreateOp(9, items)))
  {
    var lines, items := [OrderLine(9, 5, 10, 1)], [Request(0, 10.0), Request(0, 10.0)];
    assert LineOk(lines, [], 9, items[0]) && LineOk(lines, [], 9, items[1]);
    assert Asked(items, 0) == 20 by { AskedTwice(); }
    hide QuantityIn, Stored, Round;
    var t := Apply(lines, State([], []), CreateOp(9, items));
    ReturnedAfterCreate([], Return(9, "requested", Stored(items)), 0);
    assert t.rmas == [] + [Return(9, "requested", Stored(items))];
    hide Returned, Apply;
    NotWithin(lines, t, 0);
  }

  lemma {:induction false} AskedTwice()
    ensures Asked([Request(0, 10.0), Request(0, 10.0)], 0) == 20
  {
    RoundInt(10);
    var stored := Stored([Request(0, 10.0), Request(0, 10.0)]);
    hide Round;
    assert stored == [ReturnItem(0, 10), ReturnItem(0, 10)];
    assert stored[..1] == [ReturnItem(0, 10)] && stored[..1][..0] == [];
    assert QuantityIn(stored[..1], 0) == 10;
  }

  // ---- credit -------------------------------------------------------------

  /** Exact value, in units, of a quantity at a line's price. */
  function Exact(quantity: int, price: int): real { Product(quantity as real, price as real) / 10000.0 }

  function Received(rmas: seq<Return>, line: int): int {
    if rmas == [] then 0
    else
      var last := rmas[|rmas| - 1];
      Received(rmas[..|rmas| - 1], line) + if last.status == "received" then QuantityIn(last.items, line) else 0
  }

  predicate Pays(r: Return, order: int) { r.status == "received" && r.order == order }

  /** Credit due for the received returns of an order, and the number of lines on them. */
  function CreditDue(lines: seq<OrderLine>, rmas: seq<Return>, order: int): int {
    if rmas == [] then 0
    else
      var last := rmas[|rmas| - 1];
      CreditDue(lines, rmas[..|rmas| - 1], order) + if Pays(last, order) then CreditOf(lines, last.items) else 0
  }

  function LinesReceived(rmas: seq<Return>, order: int): nat {
    if rmas == [] then 0
    else
      var last := rmas[|rmas| - 1];
      LinesReceived(rmas[..|rmas| - 1], order) + if Pays(last, order) then |last.items| else 0
  }

  /** Credit notes actually issued for an order's returns. */
  function Credited(s: State, order: int): int { CreditedUpTo(s.rmas, s.credits, order) }

  function CreditedUpTo(rmas: seq<Return>, credits: seq<CreditNote>, order: int): int {
    if credits == [] then 0
    else
      var c := credits[|credits| - 1];
      CreditedUpTo(rmas, credits[..|credits| - 1], order) +
      if c.ret < |rmas| && rmas[c.ret].order == order then c.amount else 0
  }

  /** Value by order line: the price of each line times a quantity for that line. */
  function ByLine(lines: seq<OrderLine>, order: int, quantities: seq<int>): real
    requires |quantities| == |lines|
  {
    if lines == [] then 0.0
    else
      var n := |lines| - 1;
      ByLine(lines[..n], order, quantities[..n]) +
      if lines[n].order == order then Exact(quantities[n], lines[n].unitPrice) else 0.0
  }

  function OrderedQuantities(lines: seq<OrderLine>): (r: seq<int>)
    ensures |r| == |lines| && forall k | 0 <= k < |lines| :: r[k] == lines[k].quantity
  {
    seq(|lines|, k requires 0 <= k < |lines| => lines[k].quantity)
  }

  function ReceivedQuantities(lines: seq<OrderLine>, rmas: seq<Return>, order: int): (r: seq<int>)
    ensures |r| == |lines|
    ensures forall k | 0 <= k < |lines| :: r[k] == if lines[k].order == order then Received(rmas, k) else 0
  {
    seq(|lines|, k requires 0 <= k < |lines| => if lines[k].order == order then Received(rmas, k) else 0)
  }

  lemma {:induction false} ByLineMonotone(lines: seq<OrderLine>, order: int, a: seq<int>, b: seq<int>)
    requires |a| == |b| == |lines|
    requires forall k | 0 <= k < |lines| :: 0 <= lines[k].unitPrice && (lines[k].order == order ==> 0 <= a[k] <= b[k])
    ensures ByLine(lines, order, a) <= ByLine(lines, order, b)
  {
    if lines != [] {
      var n := |lines| - 1;
      ByLineMonotone(lines[..n], order, a[..n], b[..n]);
      if lines[n].order == order {
        ProductMonotone(lines[n].unitPrice as real, a[n] as real, b[n] as real);
      }
    }
  }

  lemma {:induction false} ByLineAdd(lines: seq<OrderLine>, order: int, qs: seq<int>, k: nat, q: int)
    requires |qs| == |lines| && k < |lines| && lines[k].order == order
    ensures ByLine(lines, order, qs[k := qs[k] + q]) == ByLine(lines, order, qs) + Exact(q, lines[k].unitPrice)
  {
    var n := |lines| - 1;
    var more := qs[k := qs[k] + q];
    if k < n {
      ByLineAdd(lines[..n], order, qs[..n], k, q);
      assert more[..n] == qs[..n][k := qs[k] + q];
    } else {
      assert more[..n] == qs[..n];
      ExactAdds(qs[n], q, lines[n].unitPrice);
    }
  }

  lemma {:induction false} ExactAdds(a: int, b: int, price: int)
    ensures Exact(a + b, price) == Exact(a, price) + Exact(b, price)
  {
    assert (a + b) as real == a as real + b as real;
  }

  /** Adding a return's items to the per-line quantities. */
  function AddItems(qs: seq<int>, items: seq<ReturnItem>): (r: seq<int>)
    ensures |r| == |qs| && forall k | 0 <= k < |qs| :: r[k] == qs[k] + QuantityIn(items, k)
  {
    seq(|qs|, k requires 0 <= k < |qs| => qs[k] + QuantityIn(items, k))
  }

  /** A return of the order is credited within half a unit per line of its exact value. */
  lemma {:induction false} CreditNearExact(lines: seq<OrderLine>, order: int, qs: seq<int>, items: seq<ReturnItem>)
    requires |qs| == |lines|
    requires forall i | 0 <= i < |items| :: items[i].line < |lines| && lines[items[i].line].order == order
    ensures var exact := ByLine(lines, order, AddItems(qs, items)) - ByLine(lines, order, qs);
            exact - |items| as real / 2.0 <= CreditOf(lines, items) as real <= exact + |items| as real / 2.0
  {
    hide Round, Product;
    if items == [] {
      assert AddItems(qs, items) == qs;
    } else {
      var n := |items| - 1;
      var it := items[n];
      CreditNearExact(lines, order, qs, items[..n]);
      var before := AddItems(qs, items[..n]);
      assert AddItems(qs, items) == before[it.line := before[it.line] + it.quantity];
      ByLineAdd(lines, order, before, it.line, it.quantity);
      RoundWithinHalf(Exact(it.quantity, lines[it.line].unitPrice));
    }
  }

  lemma {:induction false} CreditDueBounded(lines: seq<OrderLine>, rmas: seq<Return>, order: int)
    requires OnOwnLines(lines, rmas)
    ensures var exact := ByLine(lines, order, ReceivedQuantities(lines, rmas, order));
            exact - LinesReceived(rmas, order) as real / 2.0 <= CreditDue(lines, rmas, order) as real <=
            exact + LinesReceived(rmas, order) as real / 2.0
  {
    hide Round, Product, ByLine;
    var now := ReceivedQuantities(lines, rmas, order);
    if rmas == [] {
      ByLineZero(lines, order, now);
    } else {
      var n := |rmas| - 1;
      var last := rmas[n];
      assert OnOwnLines(lines, rmas[..n]);
      CreditDueBounded(lines, rmas[..n], order);
      var before := ReceivedQuantities(lines, rmas[..n], order);
      if Pays(last, order) {
        CreditNearExact(lines, order, before, last.items);
        forall k | 0 <= k < |lines| && lines[k].order != order ensures QuantityIn(last.items, k) == 0 {
          NotOnOrder(lines, last.items, order, k);
        }
        assert now == AddItems(before, last.items);
      } else if last.status == "received" {
        forall k | 0 <= k < |lines| && lines[k].order == order ensures QuantityIn(last.items, k) == 0 {
          NotOnOrder(lines, last.items, last.order, k);
        }
        assert now == before;
      } else {
        assert now == before;
      }
    }
  }

  lemma {:induction false} ByLineZero(lines: seq<OrderLine>, order: int, qs: seq<int>)
    requires |qs| == |lines| && forall k | 0 <= k < |qs| :: qs[k] == 0
    ensures ByLine(lines, order, qs) == 0.0
  {
    if lines != [] {
      ByLineZero(lines[..|lines| - 1], order, qs[..|lines| - 1]);
    }
  }

  lemma {:induction false} NotOnOrder(lines: seq<OrderLine>, items: seq<ReturnItem>, order: int, k: nat)
    requires forall i | 0 <= i < |items| :: items[i].line < |lines| && lines[items[i].line].order == order
    requires k < |lines| && lines[k].order != order
    ensures QuantityIn(items, k) == 0
  {
    if items != [] { NotOnOrder(lines, items[..|items| - 1], order, k); }
  }

  lemma {:induction false} ReceivedWithinReturned(rmas: seq<Return>, line: int)
    requires forall r, i | 0 <= r < |rmas| && 0 <= i < |rmas[r].items| :: 0 <= rmas[r].items[i].quantity
    ensures 0 <= Received(rmas, line) <= Returned(rmas, line)
  {
    if rmas != [] {
      var n := |rmas| - 1;
      assert forall r | 0 <= r < n :: rmas[..n][r] == rmas[r];
      ReceivedWithinReturned(rmas[..n], line);
      QuantityNonNegative(rmas[n].items, line);
    }
  }

  lemma {:induction false} CreditDueAfterMark(lines: seq<OrderLine>, rmas: seq<Return>, id: nat, to: string, order: int)
    requires id < |rmas| && rmas[id].status != "received"
    ensures CreditDue(lines, rmas[id := rmas[id].(status := to)], order) ==
            CreditDue(lines, rmas, order) +
            if to == "received" && rmas[id].order == order then CreditOf(lines, rmas[id].items) else 0
  {
    var n := |rmas| - 1;
    var marked := rmas[id := rmas[id].(status := to)];
    if id < n {
      CreditDueAfterMark(lines, rmas[..n], id, to, order);
      assert marked[..n] == rmas[..n][id := rmas[id].(status := to)];
    } else {
      assert marked[..n] == rmas[..n];
    }
  }

  ghost predicate CreditsMatch(lines: seq<OrderLine>, s: State) {
    (forall c | 0 <= c < |s.credits| :: s.credits[c].ret < |s.rmas|) &&
    forall order :: Credited(s, order) == CreditDue(lines, s.rmas, order)
  }

  lemma {:induction false} CreditedSameOrders(rmas: seq<Return>, others: seq<Return>, credits: seq<CreditNote>, order: int)
    requires |rmas| <= |others| && forall i | 0 <= i < |rmas| :: others[i].order == rmas[i].order
    requires forall c | 0 <= c < |credits| :: credits[c].ret < |rmas|
    ensures CreditedUpTo(others, credits, order) == CreditedUpTo(rmas, credits, order)
  {
    if credits != [] { CreditedSameOrders(rmas, others, credits[..|credits| - 1], order); }
  }

  /** A return is credited once, when it is received: credit notes add up to what received returns are due. */
  lemma {:induction false} RunCreditsMatch(lines: seq<OrderLine>, ops: seq<Op>)
    ensures CreditsMatch(lines, Run(lines, ops))
  {
    if ops != [] {
      var n := |ops| - 1;
      RunCreditsMatch(lines, ops[..n]);
      StepCreditsMatch(lines, Run(lines, ops[..n]), ops[n]);
    }
  }

  lemma {:induction false} StepCreditsMatch(lines: seq<OrderLine>, s: State, op: Op)
    requires CreditsMatch(lines, s)
    ensures CreditsMatch(lines, Apply(lines, s, op))
  {
    hide Accepted, Stored, Round, CreditOf;
    var t := Apply(lines, s, op);
    if t != s {
      forall order ensures Credited(t, order) == CreditDue(lines, t.rmas, order) {
        CreditedSameOrders(s.rmas, t.rmas, s.credits, order);
        match op
        case CreateOp(o, items) => assert t.rmas[..|s.rmas|] == s.rmas;
        case ApproveOp(id) => CreditDueAfterMark(lines, s.rmas, id, "approved", order);
        case RejectOp(id) => CreditDueAfterMark(lines, s.rmas, id, "rejected", order);
        case ReceiveOp(id) =>
          CreditDueAfterMark(lines, s.rmas, id, "received", order);
          assert t.credits[..|s.credits|] == s.credits;
      }
    }
  }

  /** Return items name lines of their own order. */
  ghost predicate OnOwnLines(lines: seq<OrderLine>, rmas: seq<Return>) {
    forall r, i | 0 <= r < |rmas| && 0 <= i < |rmas[r].items| ::
      rmas[r].items[i].line < |lines| && lines[rmas[r].items[i].line].order == rmas[r].order
  }

  lemma {:induction false} RunOnOwnLines(lines: seq<OrderLine>, ops: seq<Op>)
    ensures OnOwnLines(lines, Run(lines, ops).rmas)
  {
    if ops != [] {
      var n := |ops| - 1;
      RunOnOwnLines(lines, ops[..n]);
      hide Round, Returned;
      var s := Run(lines, ops[..n]);
      if ops[n].CreateOp? && Accepted(lines, s.rmas, ops[n].order, ops[n].items) {
        forall i | 0 <= i < |ops[n].items| ensures LineOk(lines, s.rmas, ops[n].order, ops[n].items[i]) { }
      }
    }
  }

  /** Over every run whatever, what is credited for an order is the exact value of the goods received back, within half a
      unit (0.00005) for each return line received, in both directions. */
  lemma {:induction false} CreditNearValue(lines: seq<OrderLine>, ops: seq<Op>, order: int)
    ensures var s := Run(lines, ops);
            var exact, slack := ByLine(lines, order, ReceivedQuantities(lines, s.rmas, order)), LinesReceived(s.rmas, order) as real / 2.0;
            exact - slack <= Credited(s, order) as real <= exact + slack
  {
    RunOnOwnLines(lines, ops);
    RunCreditsMatch(lines, ops);
    CreditDueBounded(lines, Run(lines, ops).rmas, order);
  }

  /** The exact value of some return lines at the prices of their order lines. */
  function ValueOf(lines: seq<OrderLine>, items: seq<ReturnItem>): real {
    if items == [] then 0.0
    else
      var it := items[|items| - 1];
      ValueOf(lines, items[..|items| - 1]) + if it.line < |lines| then Exact(it.quantity, lines[it.line].unitPrice) else 0.0
  }

  lemma {:induction false} CreditValue(lines: seq<OrderLine>, items: seq<ReturnItem>)
    ensures ValueOf(lines, items) - |items| as real / 2.0 <= CreditOf(lines, items) as real <= ValueOf(lines, items) + |items| as real / 2.0
  {
    hide Round, Product;
    if items != [] {
      var it := items[|items| - 1];
      CreditValue(lines, items[..|items| - 1]);
      if it.line < |lines| { RoundWithinHalf(Exact(it.quantity, lines[it.line].unitPrice)); }
    }
  }

  /** What each operation does to returns and credit notes.  A created return is requested and holds each line asked for,
      its quantity rounded to stored units; approving and rejecting take a requested one, receiving an approved one; and
      receiving alone writes a credit note, for that return, within half a unit per line of its value. */
  lemma {:induction false} OpEffect(lines: seq<OrderLine>, s: State, op: Op)
    ensures var t := Apply(lines, s, op);
            match op
            case CreateOp(order, items) =>
              && t.credits == s.credits
              && (t.rmas == s.rmas ||
                  (|t.rmas| == |s.rmas| + 1 && t.rmas[..|s.rmas|] == s.rmas &&
                   var r := t.rmas[|s.rmas|];
                   r.order == order && r.status == "requested" && |r.items| == |items| > 0 &&
                   forall i | 0 <= i < |items| :: r.items[i].line == items[i].line && r.items[i].quantity == Round(items[i].quantity)))
            case ApproveOp(id) =>
              && t.credits == s.credits
              && t.rmas == if id < |s.rmas| && s.rmas[id].status == "requested" then s.rmas[id := s.rmas[id].(status := "approved")] else s.rmas
            case RejectOp(id) =>
              && t.credits == s.credits
              && t.rmas == if id < |s.rmas| && s.rmas[id].status == "requested" then s.rmas[id := s.rmas[id].(status := "rejected")] else s.rmas
            case ReceiveOp(id) =>
              if id < |s.rmas| && s.rmas[id].status == "approved" then
                && t.rmas == s.rmas[id := s.rmas[id].(status := "received")]
                && |t.credits| == |s.credits| + 1 && t.credits[..|s.credits|] == s.credits && t.credits[|s.credits|].ret == id
                && var items, amount := s.rmas[id].items, t.credits[|s.credits|].amount as real;
                   ValueOf(lines, items) - |items| as real / 2.0 <= amount <= ValueOf(lines, items) + |items| as real / 2.0
              else t == s
  {
    hide Round, CreditOf, ValueOf, LineOk;
    if op.ReceiveOp? && op.id < |s.rmas| { CreditValue(lines, s.rmas[op.id].items); }
  }

  /** A request is stored exactly when it has a line, and every line is of the order and asks for no more than was ordered
      less what is on returns that are not rejected. */
  lemma {:induction false} CreatedIff(lines: seq<OrderLine>, s: State, order: int, items: seq<Request>)
    ensures |Apply(lines, s, CreateOp(order, items)).rmas| == |s.rmas| + 1 <==>
            items != [] && forall i | 0 <= i < |items| ::
              0 <= items[i].line < |lines| && lines[items[i].line].order == order &&
              items[i].quantity <= (lines[items[i].line].quantity - Returned(s.rmas, items[i].line)) as real
  {
    hide Returned, Stored;
    assert Accepted(lines, s.rmas, order, items) <==> items != [] && forall i | 0 <= i < |items| :: LineOk(lines, s.rmas, order, items[i]);
  }

  /** Over every such run, the credit issued for an order exceeds the exact value of the goods ordered by at most
      half a unit (0.00005) for each return line received. */
  lemma {:induction false} CreditBounded(lines: seq<OrderLine>, ops: seq<Op>, order: int)
    requires Careful(ops) && forall k | 0 <= k < |lines| :: 0 <= lines[k].quantity && 0 <= lines[k].unitPrice
    ensures var s := Run(lines, ops);
            Credited(s, order) as real <=
            ByLine(lines, order, OrderedQuantities(lines)) + LinesReceived(s.rmas, order) as real / 2.0
  {
    var s := Run(lines, ops);
    RunWithinOrdered(lines, ops);
    RunCreditsMatch(lines, ops);
    assert OnOwnLines(lines, s.rmas);
    CreditDueBounded(lines, s.rmas, order);
    forall k | 0 <= k < |lines| ensures 0 <= Received(s.rmas, k) <= lines[k].quantity {
      ReceivedWithinReturned(s.rmas, k);
    }
    ByLineMonotone(lines, order, ReceivedQuantities(lines, s.rmas, order), OrderedQuantities(lines));
  }
}
