/** The stock domain: the movement ledger is the source of truth and the levels are its cache
    (internal/inventory/service.go, the adjust handler, and the restock of a received return).
    Quantities are in units of 1/10000. */
module Inventory {
  import opened Prelude
  import opened Money

  datatype Kind = Receipt | Reservation | Fulfillment | Adjustment | Returned

  datatype Ref = OrderRef(id: int) | ShipmentRef(id: int) | ReturnRef(id: int) | Manual

  datatype Key = Key(product: int, warehouse: int)

  datatype Level = Level(onHand: int, reserved: int, backorder: bool)

  datatype Movement = Movement(key: Key, kind: Kind, quantity: int, ref: Ref)

  /** One line of an order, a shipment or a return. */
  datatype Item = Item(product: int, quantity: int)

  datatype Stock = Stock(levels: map<Key, Level>, movements: seq<Movement>)

  function Available(l: Level): int { l.onHand - l.reserved }

  // ---- specification ------------------------------------------------------

  /** A cache update together with its ledger row. */
  function Post(s: Stock, key: Key, onHand: int, reserved: int, m: Movement): Stock
    requires key in s.levels
  {
    var l := s.levels[key];
    Stock(s.levels[key := Level(l.onHand + onHand, l.reserved + reserved, l.backorder)], s.movements + [m])
  }

  /** Reserves every tracked line at the warehouse; None when some line exceeds what is available. */
  function Reserve(s: Stock, wh: int, items: seq<Item>, order: int): Option<Stock> {
    if items == [] then Some(s)
    else match Reserve(s, wh, items[..|items| - 1], order)
      case None => None
      case Some(t) =>
        var it := items[|items| - 1];
        var key := Key(it.product, wh);
        if key !in t.levels then Some(t)
        else if it.quantity > Available(t.levels[key]) && !t.levels[key].backorder then None
        else Some(Post(t, key, 0, it.quantity, Movement(key, Reservation, it.quantity, OrderRef(order))))
  }

  /** Converts reservations to fulfilment: on-hand and reserved both drop by the shipped quantity. */
  function Fulfil(s: Stock, wh: int, lines: seq<Item>, shipment: int): Stock {
    if lines == [] then s
    else
      var t := Fulfil(s, wh, lines[..|lines| - 1], shipment);
      var ln := lines[|lines| - 1];
      var key := Key(ln.product, wh);
      if key !in t.levels then t
      else Post(t, key, -ln.quantity, -ln.quantity, Movement(key, Fulfillment, -ln.quantity, ShipmentRef(shipment)))
  }

  function Restock(s: Stock, wh: int, items: seq<Item>, ret: int): Stock {
    if items == [] then s
    else
      var t := Restock(s, wh, items[..|items| - 1], ret);
      var it := items[|items| - 1];
      var key := Key(it.product, wh);
      if key !in t.levels then t
      else Post(t, key, it.quantity, 0, Movement(key, Returned, it.quantity, ReturnRef(ret)))
  }

  /** The row the ledger may be adjusted with by hand; reservations and fulfilment are not among them. */
  predicate ManualKind(k: Kind) { k.Receipt? || k.Returned? || k.Adjustment? }

  function EnsureLevel(s: Stock, key: Key): Stock {
    if key in s.levels then s else s.(levels := s.levels[key := Level(0, 0, false)])
  }

  /** The requested quantity q is arbitrary: the level stores the rounded sum, the ledger the rounded quantity. */
  function Adjust(s: Stock, key: Key, kind: Kind, q: real): Stock {
    var t := EnsureLevel(s, key);
    var l := t.levels[key];
    Stock(t.levels[key := l.(onHand := Round(l.onHand as real + q))],
          t.movements + [Movement(key, kind, Round(q), Manual)])
  }

  function Configure(s: Stock, key: Key, backorder: bool): Stock {
    var t := EnsureLevel(s, key);
    t.(levels := t.levels[key := t.levels[key].(backorder := backorder)])
  }

  // ---- the service --------------------------------------------------------

  class Warehouse {
    var levels: map<Key, Level>
    var movements: seq<Movement>

    function View(): Stock
      reads this
    {
      Stock(levels, movements)
    }

    constructor ()
      ensures View() == Stock(map[], [])
    {
      levels, movements := map[], [];
    }

    /** AdjustInventoryLevel and AddInventoryMovement, as the three services call them back to back. */
    method PostMovement(key: Key, onHand: int, reserved: int, m: Movement)
      requires key in levels
      modifies this
      ensures View() == Post(old(View()), key, onHand, reserved, m)
    {
      var l := levels[key];
      levels := levels[key := Level(l.onHand + onHand, l.reserved + reserved, l.backorder)];
      movements := movements + [m];
    }

    /** ReserveForOrder in its transaction: insufficient stock undoes the lines already reserved.
        Without a default warehouse stock is not tracked. */
    method ReserveForOrder(wh: Option<int>, items: seq<Item>, order: int) returns (ok: bool)
      modifies this
      ensures wh.None? ==> ok && View() == old(View())
      ensures wh.Some? && ok ==> Reserve(old(View()), wh.value, items, order) == Some(View())
      ensures wh.Some? && !ok ==> Reserve(old(View()), wh.value, items, order) == None && View() == old(View())
    {
      if wh.None? { return true; }
      var saved := (levels, movements);
      for i := 0 to |items|
        invariant Reserve(old(View()), wh.value, items[..i], order) == Some(View())
      {
        assert items[..i + 1][..i] == items[..i];
        var it := items[i];
        var key := Key(it.product, wh.value);
        if key in levels {
          if it.quantity > Available(levels[key]) && !levels[key].backorder {
            ReserveStops(old(View()), wh.value, items, order, i + 1);
            levels, movements := saved.0, saved.1;
            return false;
          }
          PostMovement(key, 0, it.quantity, Movement(key, Reservation, it.quantity, OrderRef(order)));
        }
      }
      assert items[..|items|] == items;
      return true;
    }

    /** FulfilShipment: the shipment's warehouse, else the default one, else nothing is tracked. */
    method FulfilShipment(wh: Option<int>, lines: seq<Item>, shipment: int)
      modifies this
      ensures View() == if wh.None? then old(View()) else Fulfil(old(View()), wh.value, lines, shipment)
    {
      if wh.None? { return; }
      for i := 0 to |lines|
        invariant View() == Fulfil(old(View()), wh.value, lines[..i], shipment)
      {
        assert lines[..i + 1][..i] == lines[..i];
        var ln := lines[i];
        var key := Key(ln.product, wh.value);
        if key in levels {
          PostMovement(key, -ln.quantity, -ln.quantity, Movement(key, Fulfillment, -ln.quantity, ShipmentRef(shipment)));
        }
      }
      assert lines[..|lines|] == lines;
    }

    /** The restock of a received return. */
    method RestockReturn(wh: Option<int>, items: seq<Item>, ret: int)
      modifies this
      ensures View() == if wh.None? then old(View()) else Restock(old(View()), wh.value, items, ret)
    {
      if wh.None? { return; }
      for i := 0 to |items|
        invariant View() == Restock(old(View()), wh.value, items[..i], ret)
      {
        assert items[..i + 1][..i] == items[..i];
        var it := items[i];
        var key := Key(it.product, wh.value);
        if key in levels {
          PostMovement(key, it.quantity, 0, Movement(key, Returned, it.quantity, ReturnRef(ret)));
        }
      }
      assert items[..|items|] == items;
    }

    method ManualAdjust(key: Key, kind: Kind, q: real) returns (ok: bool)
      modifies this
      ensures ok <==> ManualKind(kind)
      ensures View() == if ok then Adjust(old(View()), key, kind, q) else old(View())
    {
      if !ManualKind(kind) { return false; }
      if key !in levels { levels := levels[key := Level(0, 0, false)]; }
      levels := levels[key := levels[key].(onHand := Round(levels[key].onHand as real + q))];
      movements := movements + [Movement(key, kind, Round(q), Manual)];
      return true;
    }
  }

  lemma {:induction false} ReserveStops(s: Stock, wh: int, items: seq<Item>, order: int, k: nat)
    requires k <= |items| && Reserve(s, wh, items[..k], order).None?
    ensures Reserve(s, wh, items, order).None?
  {
    if k < |items| {
      assert items[..|items| - 1][..k] == items[..k];
      ReserveStops(s, wh, items[..|items| - 1], order, k);
    } else {
      assert items[..k] == items;
    }
  }

  // ---- cache and ledger agree ---------------------------------------------

  predicate OnHandKind(k: Kind) { !k.Reservation? }

  predicate ReservedKind(k: Kind) { k.Reservation? || k.Fulfillment? }

  /** Sum of the movements of a key that count towards on-hand. */
  function LedgerOnHand(ms: seq<Movement>, key: Key): int {
    if ms == [] then 0
    else LedgerOnHand(ms[..|ms| - 1], key) +
         if ms[|ms| - 1].key == key && OnHandKind(ms[|ms| - 1].kind) then ms[|ms| - 1].quantity else 0
  }

  function LedgerReserved(ms: seq<Movement>, key: Key): int {
    if ms == [] then 0
    else LedgerReserved(ms[..|ms| - 1], key) +
         if ms[|ms| - 1].key == key && ReservedKind(ms[|ms| - 1].kind) then ms[|ms| - 1].quantity else 0
  }

  /** Every level is the sum of its ledger rows, and only levels have rows. */
  ghost predicate Agrees(s: Stock) {
    && (forall k | k in s.levels ::
          s.levels[k].onHand == LedgerOnHand(s.movements, k) && s.levels[k].reserved == LedgerReserved(s.movements, k))
    && (forall k | k !in s.levels :: LedgerOnHand(s.movements, k) == 0 && LedgerReserved(s.movements, k) == 0)
  }

  lemma {:induction false} LedgerAppend(ms: seq<Movement>, m: Movement, key: Key)
    ensures LedgerOnHand(ms + [m], key) ==
            LedgerOnHand(ms, key) + if m.key == key && OnHandKind(m.kind) then m.quantity else 0
    ensures LedgerReserved(ms + [m], key) ==
            LedgerReserved(ms, key) + if m.key == key && ReservedKind(m.kind) then m.quantity else 0
  {
    assert (ms + [m])[..|ms|] == ms;
  }

  lemma {:induction false} PostAgrees(s: Stock, key: Key, onHand: int, reserved: int, m: Movement)
    requires Agrees(s) && key in s.levels && m.key == key
    requires onHand == if OnHandKind(m.kind) then m.quantity else 0
    requires reserved == if ReservedKind(m.kind) then m.quantity else 0
    ensures Agrees(Post(s, key, onHand, reserved, m))
  {
    forall k ensures LedgerOnHand(s.movements + [m], k) == LedgerOnHand(s.movements, k) + if k == key then onHand else 0
             ensures LedgerReserved(s.movements + [m], k) == LedgerReserved(s.movements, k) + if k == key then reserved else 0
    {
      LedgerAppend(s.movements, m, k);
    }
  }

  lemma {:induction false} ReserveAgrees(s: Stock, wh: int, items: seq<Item>, order: int)
    requires Agrees(s)
    ensures Reserve(s, wh, items, order).Some? ==> Agrees(Reserve(s, wh, items, order).value)
  {
    if items != [] {
      var n := |items| - 1;
      ReserveAgrees(s, wh, items[..n], order);
      var t := Reserve(s, wh, items[..n], order);
      var key := Key(items[n].product, wh);
      if t.Some? && key in t.value.levels {
        PostAgrees(t.value, key, 0, items[n].quantity, Movement(key, Reservation, items[n].quantity, OrderRef(order)));
      }
    }
  }

  lemma {:induction false} FulfilAgrees(s: Stock, wh: int, lines: seq<Item>, shipment: int)
    requires Agrees(s)
    ensures Agrees(Fulfil(s, wh, lines, shipment))
  {
    if lines != [] {
      var n := |lines| - 1;
      FulfilAgrees(s, wh, lines[..n], shipment);
      var t := Fulfil(s, wh, lines[..n], shipment);
      var key, q := Key(lines[n].product, wh), -lines[n].quantity;
      if key in t.levels { PostAgrees(t, key, q, q, Movement(key, Fulfillment, q, ShipmentRef(shipment))); }
    }
  }

  lemma {:induction false} RestockAgrees(s: Stock, wh: int, items: seq<Item>, ret: int)
    requires Agrees(s)
    ensures Agrees(Restock(s, wh, items, ret))
  {
    if items != [] {
      var n := |items| - 1;
      RestockAgrees(s, wh, items[..n], ret);
      var t := Restock(s, wh, items[..n], ret);
      var key := Key(items[n].product, wh);
      if key in t.levels { PostAgrees(t, key, items[n].quantity, 0, Movement(key, Returned, items[n].quantity, ReturnRef(ret))); }
    }
  }

  /** Restocking raises on-hand of a tracked key at the warehouse by all the lines bring of its product, in level and ledger,
      and changes nothing else. */
  lemma {:induction false} RestockEffect(s: Stock, wh: int, items: seq<Item>, ret: int, key: Key)
    ensures var t := Restock(s, wh, items, ret);
            && t.levels.Keys == s.levels.Keys
            && (key in s.levels ==>
                  var back := if key.warehouse == wh then Ordered(items, key.product) else 0;
                  && t.levels[key] == Level(s.levels[key].onHand + back, s.levels[key].reserved, s.levels[key].backorder)
                  && LedgerOnHand(t.movements, key) == LedgerOnHand(s.movements, key) + back)
  {
    if items != [] {
      var n := |items| - 1;
      RestockEffect(s, wh, items[..n], ret, key);
      var t := Restock(s, wh, items[..n], ret);
      var k := Key(items[n].product, wh);
      LedgerAppend(t.movements, Movement(k, Returned, items[n].quantity, ReturnRef(ret)), key);
    }
  }

  lemma {:induction false} RestockRows(s: Stock, wh: int, items: seq<Item>, ret: int)
    ensures var ms := Restock(s, wh, items, ret).movements;
            && |s.movements| <= |ms| && ms[..|s.movements|] == s.movements
            && forall i | |s.movements| <= i < |ms| :: ms[i].kind == Returned && ms[i].ref == ReturnRef(ret)
  {
    if items != [] { RestockRows(s, wh, items[..|items| - 1], ret); }
  }

  lemma {:induction false} ReserveRows(s: Stock, wh: int, items: seq<Item>, order: int)
    requires Reserve(s, wh, items, order).Some?
    ensures var ms := Reserve(s, wh, items, order).value.movements;
            && |s.movements| <= |ms| && ms[..|s.movements|] == s.movements
            && forall i | |s.movements| <= i < |ms| :: ms[i].kind == Reservation && ms[i].ref == OrderRef(order) && ms[i].key.warehouse == wh
  {
    if items != [] { ReserveRows(s, wh, items[..|items| - 1], order); }
  }

  /** A manual row of one of the three kinds adds its quantity to on-hand, rounded as the level stores it, and appears in the
      ledger under its kind, rounded by itself; a level that was not there starts empty.  Any other kind does nothing. */
  lemma {:induction false} AdjustEffect(s: Stock, key: Key, kind: Kind, q: real)
    ensures var t := Apply(s, AdjustOp(key, kind, q));
            if kind in {Receipt, Returned, Adjustment} then
              && t.movements == s.movements + [Movement(key, kind, Round(q), Manual)] && t.levels.Keys == s.levels.Keys + {key}
              && t.levels[key].onHand == Round((if key in s.levels then s.levels[key].onHand else 0) as real + q)
              && t.levels[key].reserved == (if key in s.levels then s.levels[key].reserved else 0)
              && t.levels[key].backorder == (key in s.levels && s.levels[key].backorder)
              && forall k | k in s.levels && k != key :: t.levels[k] == s.levels[k]
            else t == s
  {
    hide Round;
  }

  /** Configuring sets whether a level takes backorders, creating an empty one if there is none, and moves no stock. */
  lemma {:induction false} ConfigureEffect(s: Stock, key: Key, backorder: bool)
    ensures var t := Apply(s, ConfigureOp(key, backorder));
            && t.movements == s.movements && t.levels.Keys == s.levels.Keys + {key} && t.levels[key].backorder == backorder
            && t.levels[key].onHand == (if key in s.levels then s.levels[key].onHand else 0)
            && t.levels[key].reserved == (if key in s.levels then s.levels[key].reserved else 0)
            && forall k | k in s.levels && k != key :: t.levels[k] == s.levels[k]
  {
  }

  function OnHandOf(s: Stock, key: Key): int { if key in s.levels then s.levels[key].onHand else 0 }

  /** The adjustment is rounded on the same side in the level and in the ledger. */
  predicate SameRounding(onHand: int, q: real) { IsTie(q) ==> (q > 0.0 <==> onHand as real + q > 0.0) }

  /** A manual adjustment keeps cache and ledger in step exactly when its quantity is not half a unit
      past the fourth decimal with the level on the other side of zero; every four-decimal quantity qualifies. */
  lemma {:induction false} AdjustAgreesIff(s: Stock, key: Key, kind: Kind, q: real)
    requires Agrees(s) && ManualKind(kind)
    ensures Agrees(Adjust(s, key, kind, q)) <==> SameRounding(OnHandOf(s, key), q)
  {
    var t := EnsureLevel(s, key);
    var m := Movement(key, kind, Round(q), Manual);
    forall k ensures LedgerOnHand(t.movements + [m], k) == LedgerOnHand(t.movements, k) + if k == key then Round(q) else 0
             ensures LedgerReserved(t.movements + [m], k) == LedgerReserved(t.movements, k)
    {
      LedgerAppend(t.movements, m, k);
    }
    RoundShift(OnHandOf(s, key), q);
    assert Adjust(s, key, kind, q).levels[key].onHand == Round(OnHandOf(s, key) as real + q);
  }

  lemma {:induction false} WholeUnitsRoundAlike(onHand: int, u: int)
    ensures SameRounding(onHand, u as real)
  {
  }

  /** Below the fourth decimal the two can part: -0.00005 on one unit of stock leaves the level at one but
      books minus one ten-thousandth in the ledger. */
  lemma {:induction false} HalfUnitParts()
    ensures var s := Stock(map[Key(1, 1) := Level(1, 0, false)], [Movement(Key(1, 1), Receipt, 1, Manual)]);
            Agrees(s) && Adjust(s, Key(1, 1), Adjustment, -0.5).levels[Key(1, 1)].onHand == 1 &&
            !Agrees(Adjust(s, Key(1, 1), Adjustment, -0.5))
  {
    var s := Stock(map[Key(1, 1) := Level(1, 0, false)], [Movement(Key(1, 1), Receipt, 1, Manual)]);
    forall k ensures LedgerOnHand(s.movements, k) == (if k == Key(1, 1) then 1 else 0) && LedgerReserved(s.movements, k) == 0 {
      LedgerAppend([], s.movements[0], k);
    }
    AdjustAgreesIff(s, Key(1, 1), Adjustment, -0.5);
  }

  // ---- whole runs ---------------------------------------------------------

  datatype Op =
    | ReserveOp(wh: int, items: seq<Item>, order: int)
    | FulfilOp(wh: int, items: seq<Item>, shipment: int)
    | RestockOp(wh: int, items: seq<Item>, ret: int)
    | AdjustOp(key: Key, kind: Kind, quantity: real)
    | ConfigureOp(key: Key, backorder: bool)

  /** One committed or rolled-back transaction. */
  function Apply(s: Stock, op: Op): Stock {
    match op
    case ReserveOp(wh, items, order) =>
      (match Reserve(s, wh, items, order) case Some(t) => t case None => s)
    case FulfilOp(wh, lines, shipment) => Fulfil(s, wh, lines, shipment)
    case RestockOp(wh, items, ret) => Restock(s, wh, items, ret)
    case AdjustOp(key, kind, q) => if ManualKind(kind) then Adjust(s, key, kind, q) else s
    case ConfigureOp(key, b) => Configure(s, key, b)
  }

  function Run(s: Stock, ops: seq<Op>): Stock {
    if ops == [] then s else Apply(Run(s, ops[..|ops| - 1]), ops[|ops| - 1])
  }

  /** A manual quantity is rounded alike in level and ledger; every four-decimal quantity is. */
  predicate RoundsAlike(s: Stock, op: Op) {
    op.AdjustOp? && ManualKind(op.kind) ==> SameRounding(OnHandOf(s, op.key), op.quantity)
  }

  lemma {:induction false} ApplyAgreesIff(s: Stock, op: Op)
    requires Agrees(s)
    ensures Agrees(Apply(s, op)) <==> RoundsAlike(s, op)
  {
    match op
    case ReserveOp(wh, items, order) => ReserveAgrees(s, wh, items, order);
    case FulfilOp(wh, lines, shipment) => FulfilAgrees(s, wh, lines, shipment);
    case RestockOp(wh, items, ret) => RestockAgrees(s, wh, items, ret);
    case AdjustOp(key, kind, q) =>
      if ManualKind(kind) { AdjustAgreesIff(s, key, kind, q); }
    case ConfigureOp(key, b) =>
  }

  /** In every reachable state on-hand is the sum of the receipt, return, adjustment and fulfilment rows,
      and reserved the sum of the reservation and fulfilment rows. */
  lemma {:induction false} RunAgrees(ops: seq<Op>)
    requires forall i | 0 <= i < |ops| :: RoundsAlike(Run(Stock(map[], []), ops[..i]), ops[i])
    ensures Agrees(Run(Stock(map[], []), ops))
  {
    if ops != [] {
      var n := |ops| - 1;
      assert forall i | 0 <= i < n :: ops[..n][..i] == ops[..i];
      RunAgrees(ops[..n]);
      ApplyAgreesIff(Run(Stock(map[], []), ops[..n]), ops[n]);
    } else {
      assert forall k :: LedgerOnHand([], k) == 0 && LedgerReserved([], k) == 0;
    }
  }

  /** Along any run cache and ledger agree in every state passed through exactly when every manual quantity is rounded
      alike in both. */
  lemma {:induction false} RunAgreesIff(ops: seq<Op>)
    ensures (forall i | 0 <= i <= |ops| :: Agrees(Run(Stock(map[], []), ops[..i])))
            <==> forall i | 0 <= i < |ops| :: RoundsAlike(Run(Stock(map[], []), ops[..i]), ops[i])
  {
    hide *;
    if forall i | 0 <= i < |ops| :: RoundsAlike(Run(Stock(map[], []), ops[..i]), ops[i]) {
      forall i | 0 <= i <= |ops| ensures Agrees(Run(Stock(map[], []), ops[..i])) {
        assert forall k | 0 <= k < i :: ops[..i][..k] == ops[..k];
        RunAgrees(ops[..i]);
      }
    }
    if forall i | 0 <= i <= |ops| :: Agrees(Run(Stock(map[], []), ops[..i])) {
      forall i | 0 <= i < |ops| ensures RoundsAlike(Run(Stock(map[], []), ops[..i]), ops[i]) {
        RunPush(ops[..i], ops[i]);
        assert ops[..i + 1] == ops[..i] + [ops[i]];
        assert Agrees(Run(Stock(map[], []), ops[..i + 1]));
        ApplyAgreesIff(Run(Stock(map[], []), ops[..i]), ops[i]);
      }
    }
  }

  lemma {:induction false} RunPush(ops: seq<Op>, op: Op)
    ensures Run(Stock(map[], []), ops + [op]) == Apply(Run(Stock(map[], []), ops), op)
  {
    assert (ops + [op])[..|ops|] == ops;
  }

  /** In particular when manual quantities have four decimals at most, which is a whole number of stored units. */
  lemma {:induction false} FourDecimalsAgree(ops: seq<Op>)
    requires forall i | 0 <= i < |ops| && ops[i].AdjustOp? :: ops[i].quantity == ops[i].quantity.Floor as real
    ensures Agrees(Run(Stock(map[], []), ops))
  {
    forall i | 0 <= i < |ops| ensures RoundsAlike(Run(Stock(map[], []), ops[..i]), ops[i]) {
      if ops[i].AdjustOp? {
        WholeUnitsRoundAlike(OnHandOf(Run(Stock(map[], []), ops[..i]), ops[i].key), ops[i].quantity.Floor);
      }
    }
    RunAgrees(ops);
  }

  // ---- stock is never promised twice --------------------------------------

  ghost predicate NeverOversold(s: Stock) {
    forall k | k in s.levels && !s.levels[k].backorder :: 0 <= Available(s.levels[k])
  }

  /** Returns bring back, and manual rows add, non-negative quantities; configuration does not withdraw
      backorder from an oversold level. */
  predicate Forward(s: Stock, op: Op) {
    match op
    case RestockOp(_, items, _) => forall i | 0 <= i < |items| :: 0 <= items[i].quantity
    case AdjustOp(_, _, q) => 0.0 <= q
    case ConfigureOp(key, b) => b || key !in s.levels || 0 <= Available(s.levels[key])
    case _ => true
  }

  lemma {:induction false} ReserveNeverOversells(s: Stock, wh: int, items: seq<Item>, order: int)
    requires NeverOversold(s)
    ensures Reserve(s, wh, items, order).Some? ==> NeverOversold(Reserve(s, wh, items, order).value)
  {
    if items != [] { ReserveNeverOversells(s, wh, items[..|items| - 1], order); }
  }

  lemma {:induction false} FulfilNeverOversells(s: Stock, wh: int, lines: seq<Item>, shipment: int)
    requires NeverOversold(s)
    ensures NeverOversold(Fulfil(s, wh, lines, shipment))
  {
    if lines != [] { FulfilNeverOversells(s, wh, lines[..|lines| - 1], shipment); }
  }

  lemma {:induction false} RestockNeverOversells(s: Stock, wh: int, items: seq<Item>, ret: int)
    requires NeverOversold(s) && forall i | 0 <= i < |items| :: 0 <= items[i].quantity
    ensures NeverOversold(Restock(s, wh, items, ret))
  {
    if items != [] { RestockNeverOversells(s, wh, items[..|items| - 1], ret); }
  }

  lemma {:induction false} ApplyNeverOversells(s: Stock, op: Op)
    requires NeverOversold(s) && Forward(s, op)
    ensures NeverOversold(Apply(s, op))
  {
    match op
    case ReserveOp(wh, items, order) => ReserveNeverOversells(s, wh, items, order);
    case FulfilOp(wh, lines, shipment) => FulfilNeverOversells(s, wh, lines, shipment);
    case RestockOp(wh, items, ret) => RestockNeverOversells(s, wh, items, ret);
    case AdjustOp(key, kind, q) =>
      RoundInt(OnHandOf(s, key));
      RoundMonotone(OnHandOf(s, key) as real, OnHandOf(s, key) as real + q);
    case ConfigureOp(key, b) =>
  }

  ghost predicate AllForward(s: Stock, ops: seq<Op>) {
    forall i | 0 <= i < |ops| :: Forward(Run(s, ops[..i]), ops[i])
  }

  /** Over every serial run, what is available of a product without backorder never goes below zero. */
  lemma {:induction false} RunNeverOversells(ops: seq<Op>)
    requires AllForward(Stock(map[], []), ops)
    ensures NeverOversold(Run(Stock(map[], []), ops))
  {
    if ops != [] {
      var n := |ops| - 1;
      assert forall i | 0 <= i < n :: ops[..n][..i] == ops[..i];
      RunNeverOversells(ops[..n]);
      ApplyNeverOversells(Run(Stock(map[], []), ops[..n]), ops[n]);
    }
  }

  // ---- an order reserves all of its tracked lines or none ------------------

  function Ordered(items: seq<Item>, product: int): int {
    if items == [] then 0
    else Ordered(items[..|items| - 1], product) +
         if items[|items| - 1].product == product then items[|items| - 1].quantity else 0
  }

  /** A successful reservation raises each tracked product's reserved stock by the order's whole quantity of it,
      however many lines repeat the product, and touches nothing else. */
  lemma {:induction false} ReservesWhole(s: Stock, wh: int, items: seq<Item>, order: int, key: Key)
    requires Reserve(s, wh, items, order).Some?
    ensures var t := Reserve(s, wh, items, order).value;
            && t.levels.Keys == s.levels.Keys
            && (key in s.levels ==>
                  t.levels[key].onHand == s.levels[key].onHand &&
                  t.levels[key].backorder == s.levels[key].backorder &&
                  t.levels[key].reserved == s.levels[key].reserved +
                    if key.warehouse == wh then Ordered(items, key.product) else 0)
  {
    if items != [] { ReservesWhole(s, wh, items[..|items| - 1], order, key); }
  }

  /** With positive lines, an order is accepted exactly when every tracked product without backorder has the
      order's whole quantity of it available: repeated lines cannot slip past the check one by one. */
  lemma {:induction false} ReserveIff(s: Stock, wh: int, items: seq<Item>, order: int)
    requires forall i | 0 <= i < |items| :: 0 < items[i].quantity
    ensures Reserve(s, wh, items, order).Some? <==>
            forall i | 0 <= i < |items| :: Fits(s, wh, items, items[i].product)
  {
    if items != [] {
      var n := |items| - 1;
      var it := items[n];
      ReserveIff(s, wh, items[..n], order);
      forall p ensures Ordered(items[..n], p) >= 0 { OrderedNonNegative(items[..n], p); }
      if Reserve(s, wh, items[..n], order).Some? {
        ReservesWhole(s, wh, items[..n], order, Key(it.product, wh));
        FitsAfterLine(s, wh, items);
      } else {
        var i :| 0 <= i < n && !Fits(s, wh, items[..n], items[..n][i].product);
        assert items[i].product == items[..n][i].product;
        assert !Fits(s, wh, items, items[i].product);
      }
    }
  }

  predicate Fits(s: Stock, wh: int, items: seq<Item>, product: int) {
    var key := Key(product, wh);
    key in s.levels && !s.levels[key].backorder ==> Ordered(items, product) <= Available(s.levels[key])
  }

  lemma {:induction false} FitsAfterLine(s: Stock, wh: int, items: seq<Item>)
    requires items != [] && forall i | 0 <= i < |items| - 1 :: Fits(s, wh, items[..|items| - 1], items[i].product)
    ensures (forall i | 0 <= i < |items| :: Fits(s, wh, items, items[i].product)) <==>
            Fits(s, wh, items, items[|items| - 1].product)
  {
  }

  lemma {:induction false} OrderedNonNegative(items: seq<Item>, p: int)
    requires forall i | 0 <= i < |items| :: 0 < items[i].quantity
    ensures 0 <= Ordered(items, p)
  {
    if items != [] { OrderedNonNegative(items[..|items| - 1], p); }
  }
}
