/** Recurring orders: the run cadence and the daily sweep (internal/subscriptions/service.go).  Dates are day numbers of
    the calendar; what a sweep meets at one subscription (a failing database call, or the prices found) is an argument. */
module Subscriptions {
  import opened Prelude
  import opened Calendar
  import Money

  // ---- cadence ------------------------------------------------------------

  function AdvanceDate(cadence: string, from: int): int {
    if cadence == "weekly" then AddDate(from, 0, 0, 7)
    else if cadence == "biweekly" then AddDate(from, 0, 0, 14)
    else if cadence == "quarterly" then AddDate(from, 0, 3, 0)
    else AddDate(from, 0, 1, 0)
  }

  /** Months a cadence adds; zero for the weekly ones. */
  function MonthsOf(cadence: string): nat {
    if cadence == "weekly" || cadence == "biweekly" then 0 else if cadence == "quarterly" then 3 else 1
  }

  lemma {:induction false} ThreeLengths(m: int, a: bool, b: bool, c: bool)
    requires 0 <= m < 12
    ensures 89 <= LengthIn(a, m) + LengthIn(b, if m == 11 then 0 else m + 1) + LengthIn(c, if m >= 10 then m - 10 else m + 2) <= 92
  {
  }

  lemma {:induction false} ThreeMonths(k: int)
    ensures 89 <= MonthLength(k) + MonthLength(k + 1) + MonthLength(k + 2) <= 92
  {
    hide LengthIn, Leap;
    ThreeLengths(k % 12, Leap(k / 12), Leap((k + 1) / 12), Leap((k + 2) / 12));
  }

  /** How far each cadence moves: a week, two weeks, exactly the starting month's length, or exactly the lengths of the
      starting month and the two after it. */
  lemma {:induction false} AdvanceBy(cadence: string, from: int)
    ensures var k := MonthOf(from);
            AdvanceDate(cadence, from) - from ==
            if cadence == "weekly" then 7
            else if cadence == "biweekly" then 14
            else if cadence == "quarterly" then MonthLength(k) + MonthLength(k + 1) + MonthLength(k + 2)
            else MonthLength(k)
  {
    hide FirstOfMonth, MonthLength, MonthOf, AddDate;
    var k := MonthOf(from);
    AddDateShift(from, 0, 0, 7);
    AddDateShift(from, 0, 0, 14);
    AddDateShift(from, 0, 3, 0);
    AddDateShift(from, 0, 1, 0);
    NextMonth(k);
    NextMonth(k + 1);
    NextMonth(k + 2);
  }

  lemma {:induction false} AdvanceLater(cadence: string, from: int)
    ensures 7 <= AdvanceDate(cadence, from) - from <= 92
    ensures cadence != "weekly" && cadence != "biweekly" && cadence != "quarterly" ==> 28 <= AdvanceDate(cadence, from) - from <= 31
    ensures cadence == "quarterly" ==> 89 <= AdvanceDate(cadence, from) - from
  {
    AdvanceBy(cadence, from);
    ThreeMonths(MonthOf(from));
    hide AdvanceDate, MonthOf;
  }

  /** A monthly or quarterly step keeps the day of the month exactly when the month it aims at is long enough; from a day
      past that month's end it lands in the month after, so the month aimed at gets no run. */
  lemma {:induction false} StepKeepsDayIff(cadence: string, from: int)
    requires MonthsOf(cadence) > 0
    ensures var n, aim := AdvanceDate(cadence, from), MonthOf(from) + MonthsOf(cadence);
            if DayOfMonth(from) <= MonthLength(aim)
            then MonthOf(n) == aim && DayOfMonth(n) == DayOfMonth(from)
            else MonthOf(n) == aim + 1 && DayOfMonth(n) == DayOfMonth(from) - MonthLength(aim)
  {
    hide FirstOfMonth, MonthOf, MonthLength, AddDate;
    var months := MonthsOf(cadence);
    var aim := MonthOf(from) + months;
    AddDateShift(from, 0, months, 0);
    var n := FirstOfMonth(aim) + DayOfMonth(from) - 1;
    assert AdvanceDate(cadence, from) == n;
    NextMonth(aim);
    NextMonth(aim + 1);
    MonthsApart(aim + 1, aim + 2);
    if DayOfMonth(from) <= MonthLength(aim) {
      MonthUnique(n, aim);
    } else {
      ShortestMonth(MonthOf(from), aim);
      MonthUnique(n, aim + 1);
    }
  }

  /** For instance: a monthly schedule from 31 January 2026 runs next on 3 March, two months on; February gets no run. */
  lemma {:induction false} FebruaryGetsNoRun()
    ensures AdvanceDate("monthly", Civil(2026, 1, 31)) == Civil(2026, 3, 3)
    ensures MonthOf(Civil(2026, 3, 3)) == MonthOf(Civil(2026, 1, 31)) + 2
  {
    var january := 12 * 2026;
    FirstMonths();
    assert "monthly"[0] == 'm' && "weekly"[0] == 'w' && "biweekly"[0] == 'b' && "quarterly"[0] == 'q';
    hide FirstOfMonth, MonthOf, MonthLength, AdvanceDate, Leap;
    NextMonth(january);
    NextMonth(january + 1);
    NextMonth(january + 2);
    MonthUnique(Civil(2026, 1, 31), january);
    MonthUnique(Civil(2026, 3, 3), january + 2);
    AdvanceBy("monthly", Civil(2026, 1, 31));
  }

  lemma {:induction false} FirstMonths()
    ensures var january := 12 * 2026;
            MonthLength(january) == 31 && MonthLength(january + 1) == 28 && MonthLength(january + 2) == 31
  {
  }

  lemma {:induction false} ShortestMonth(j: int, k: int)
    ensures MonthLength(j) - MonthLength(k) <= 3
  {
  }

  // ---- the sweep ----------------------------------------------------------

  datatype Item = Item(product: int, quantity: string, unit: string)

  datatype Subscription = Subscription(active: bool, cadence: string, items: seq<Item>, next: int)

  datatype Run = Run(subscription: nat, date: int, success: bool)

  datatype Order = Order(subscription: nat, date: int, rowTotals: seq<string>, subtotal: string)

  /** Subscriptions by id, and the runs and orders written so far. */
  datatype Db = Db(subs: seq<Subscription>, runs: seq<Run>, orders: seq<Order>)

  /** What a transaction meets: some database call fails and all of it is rolled back, or these unit prices are found. */
  datatype Attempt = Broken | Reached(prices: map<Item, string>)

  predicate Due(s: Subscription, today: int) { s.active && s.next <= today }

  function RowTotal(it: Item, prices: map<Item, string>): Option<string> {
    if it in prices then Money.RowTotal(it.quantity, prices[it], "0") else None
  }

  /** The row totals of every item, or None at the first without a price or with a bad amount. */
  function Priced(items: seq<Item>, prices: map<Item, string>): Option<seq<string>> {
    if items == [] then Some([])
    else match (Priced(items[..|items| - 1], prices), RowTotal(items[|items| - 1], prices))
      case (Some(totals), Some(rt)) => Some(totals + [rt])
      case _ => None
  }

  predicate Orderable(s: Subscription, a: Attempt) {
    a.Reached? && Priced(s.items, a.prices).Some? && Priced(s.items, a.prices).value != []
  }

  function Subtotal(totals: seq<string>): string {
    match Money.Total(totals) case Some(t) => Money.Format(t) case None => ""
  }

  /** One subscription's transaction: nothing when broken; otherwise a run is recorded and the schedule advanced from
      today, with an order if there is one to place. */
  function RunOne(db: Db, id: nat, today: int, a: Attempt): Db
    requires id < |db.subs|
  {
    var s := db.subs[id];
    if a.Broken? then db
    else if !Orderable(s, a) then Db(Advanced(db.subs, id, today), db.runs + [Run(id, today, false)], db.orders)
    else
      var totals := Priced(s.items, a.prices).value;
      Db(Advanced(db.subs, id, today), db.runs + [Run(id, today, true)],
         db.orders + [Order(id, today, totals, Subtotal(totals))])
  }

  function Advanced(subs: seq<Subscription>, id: nat, today: int): seq<Subscription>
    requires id < |subs|
  {
    subs[id := subs[id].(next := AdvanceDate(subs[id].cadence, today))]
  }

  /** The sweep over the first n subscriptions; attempts[id] is what each would meet. */
  function Sweep(db: Db, today: int, attempts: seq<Attempt>, n: nat): (r: Db)
    requires n <= |db.subs| == |attempts|
    ensures |r.subs| == |db.subs|
    ensures forall i | n <= i < |db.subs| :: r.subs[i] == db.subs[i]
  {
    if n == 0 then db
    else
      var before := Sweep(db, today, attempts, n - 1);
      if Due(before.subs[n - 1], today) then RunOne(before, n - 1, today, attempts[n - 1]) else before
  }

  class Scheduler {
    var subs: seq<Subscription>
    var runs: seq<Run>
    var orders: seq<Order>

    function Contents(): Db
      reads this
    {
      Db(subs, runs, orders)
    }

    /** Runs every subscription that was due when the sweep began, each on its own. */
    method MaterializeDue(today: int, attempts: seq<Attempt>) returns (created: nat)
      requires |attempts| == |subs|
      modifies this
      ensures Contents() == Sweep(old(Contents()), today, attempts, |attempts|)
      ensures created == |orders| - |old(orders)|
    {
      hide AdvanceDate, RunOne, Due, Sweep;
      ghost var start := Contents();
      var due := ListDue(today);
      created := 0;
      ghost var done := 0;
      SweepNone(start, today, attempts);
      for i := 0 to |due|
        invariant 0 <= done <= |attempts| && |subs| == |attempts|
        invariant Contents() == Sweep(start, today, attempts, done)
        invariant forall j | i <= j < |due| :: done <= due[j]
        invariant forall id | done <= id < |attempts| && Due(start.subs[id], today) :: id in due[i..]
        invariant created == |orders| - |start.orders|
      {
        var id := due[i];
        assert due[i..] == [id] + due[i + 1..];
        SweepTo(start, today, attempts, done, id);
        var ok := RunOneNow(id, today, attempts[id]);
        if ok { created := created + 1; }
        done := id + 1;
      }
      NothingBetween(start, today, attempts, done, |attempts|);
    }

    /** Ids due today, ascending. */
    method ListDue(today: int) returns (due: seq<nat>)
      ensures forall i | 0 <= i < |due| :: due[i] < |subs|
      ensures forall i, j | 0 <= i < j < |due| :: due[i] < due[j]
      ensures forall id | 0 <= id < |subs| :: Due(subs[id], today) <==> id in due
    {
      due := [];
      for id := 0 to |subs|
        invariant forall i | 0 <= i < |due| :: due[i] < id
        invariant forall i, j | 0 <= i < j < |due| :: due[i] < due[j]
        invariant forall k | 0 <= k < id :: Due(subs[k], today) <==> k in due
      {
        if Due(subs[id], today) { due := due + [id]; }
      }
    }

    method RunOneNow(id: nat, today: int, a: Attempt) returns (created: bool)
      requires id < |subs|
      modifies this
      ensures Contents() == RunOne(old(Contents()), id, today, a)
      ensures |orders| == |old(orders)| + if created then 1 else 0
    {
      if a.Broken? { return false; }
      hide AdvanceDate, Priced;
      var s := subs[id];
      var totals := PriceItems(s.items, a.prices);
      if totals.None? || totals.value == [] {
        runs := runs + [Run(id, today, false)];
        subs := subs[id := s.(next := AdvanceDate(s.cadence, today))];
        return false;
      }
      var subtotal := Money.SumText(totals.value);
      orders := orders + [Order(id, today, totals.value, if subtotal.Some? then subtotal.value else "")];
      runs := runs + [Run(id, today, true)];
      subs := subs[id := s.(next := AdvanceDate(s.cadence, today))];
      return true;
    }

    /** Prices the items in order, stopping at the first that cannot be priced. */
    method PriceItems(items: seq<Item>, prices: map<Item, string>) returns (r: Option<seq<string>>)
      ensures r == Priced(items, prices)
    {
      var totals: seq<string> := [];
      for i := 0 to |items|
        invariant Priced(items[..i], prices) == Some(totals)
      {
        var it := items[i];
        assert items[..i + 1][..i] == items[..i];
        if it !in prices {
          PricedNone(items, prices, i);
          return None;
        }
        var rt := Money.RowTotal(it.quantity, prices[it], "0");
        if rt.None? {
          PricedNone(items, prices, i);
          return None;
        }
        totals := totals + [rt.value];
      }
      assert items[..|items|] == items;
      return Some(totals);
    }
  }

  lemma {:induction false} PricedNone(items: seq<Item>, prices: map<Item, string>, k: nat)
    requires k < |items| && RowTotal(items[k], prices).None?
    ensures Priced(items, prices).None?
  {
    hide RowTotal;
    if k < |items| - 1 { PricedNone(items[..|items| - 1], prices, k); }
  }

  lemma {:induction false} PricedEach(items: seq<Item>, prices: map<Item, string>)
    requires Priced(items, prices).Some?
    ensures var totals := Priced(items, prices).value;
            |totals| == |items| && (forall i | 0 <= i < |items| :: RowTotal(items[i], prices) == Some(totals[i])) && Money.Total(totals).Some?
  {
    hide RowTotal, Money.Parse;
    if items != [] {
      var n := |items| - 1;
      PricedEach(items[..n], prices);
      RowTotalParses(items[n], prices);
      TotalPush(Priced(items[..n], prices).value, RowTotal(items[n], prices).value);
      hide Money.Total;
    }
  }

  lemma {:induction false} TotalPush(totals: seq<string>, rt: string)
    requires Money.Total(totals).Some? && Money.Parse(rt).Some?
    ensures Money.Total(totals + [rt]).Some?
  {
    assert (totals + [rt])[..|totals|] == totals;
    hide Money.Parse;
  }

  lemma {:induction false} RowTotalParses(it: Item, prices: map<Item, string>)
    requires RowTotal(it, prices).Some?
    ensures Money.Parse(RowTotal(it, prices).value).Some?
  {
    hide Money.Parse, Money.Format, Money.Product;
    var q, p, d := Money.Parse(it.quantity).value, Money.Parse(prices[it]).value, Money.Parse("0").value;
    Money.ParseFormat(Money.Product(q, p) - d);
  }

  /** A row total is the text of quantity times price, rounded once to four decimals. */
  predicate Worth(it: Item, prices: map<Item, string>, rowTotal: string) {
    it in prices && Money.Parse(it.quantity).Some? && Money.Parse(prices[it]).Some? &&
    Money.Parse(rowTotal) ==
    Some(Money.Amount(Money.ToUnits(Money.Product(Money.Parse(it.quantity).value, Money.Parse(prices[it]).value))))
  }

  lemma {:induction false} RowWorth(it: Item, prices: map<Item, string>)
    requires RowTotal(it, prices).Some?
    ensures Worth(it, prices, RowTotal(it, prices).value)
  {
    ZeroIsZero();
    hide Money.Parse, Money.Format, Money.Product, Money.ToUnits, Money.Amount;
    var q, p := Money.Parse(it.quantity).value, Money.Parse(prices[it]).value;
    assert Money.Product(q, p) - 0.0 == Money.Product(q, p);
    Money.ParseFormat(Money.Product(q, p));
  }

  lemma {:induction false} ZeroIsZero()
    ensures Money.Parse("0") == Some(0.0)
  {
    assert "0"[..1] == "0" && "0"[0] == '0' && "0"[..0] == "" && "0" + "" == "0";
    assert Money.DotIndex("0") == 1;
    assert Atoi("0") == 0 && Money.Pow10(0) == 1;
  }

  /** An order a run places has one row total for every item, at the price found, and their exact sum, rounded once to
      four decimals, as its subtotal. */
  lemma {:induction false} OrderPriced(db: Db, id: nat, today: int, a: Attempt)
    requires id < |db.subs| && Orderable(db.subs[id], a)
    ensures var r, items := RunOne(db, id, today, a), db.subs[id].items;
            && |r.orders| == |db.orders| + 1 && r.orders[..|db.orders|] == db.orders
            && var o := r.orders[|db.orders|];
               && o.subscription == id && o.date == today && |o.rowTotals| == |items| > 0
               && (forall i | 0 <= i < |items| :: items[i] in a.prices && Some(o.rowTotals[i]) == Money.RowTotal(items[i].quantity, a.prices[items[i]], "0"))
               && (forall i | 0 <= i < |items| :: Worth(items[i], a.prices, o.rowTotals[i]))
               && Money.Total(o.rowTotals).Some?
               && Money.Parse(o.subtotal) == Some(Money.Amount(Money.ToUnits(Money.Total(o.rowTotals).value)))
  {
    hide AdvanceDate, Money.Parse, Money.Format, Money.Total, Money.Amount, Money.ToUnits, Priced;
    PricedEach(db.subs[id].items, a.prices);
    forall i | 0 <= i < |db.subs[id].items| ensures Worth(db.subs[id].items[i], a.prices, RowTotal(db.subs[id].items[i], a.prices).value) {
      RowWorth(db.subs[id].items[i], a.prices);
    }
    hide Worth;
    Money.ParseFormat(Money.Total(Priced(db.subs[id].items, a.prices).value).value);
  }

  lemma {:induction false} NothingBetween(db: Db, today: int, attempts: seq<Attempt>, m: nat, n: nat)
    requires m <= n <= |db.subs| == |attempts|
    requires forall id | m <= id < n :: !Due(db.subs[id], today)
    ensures Sweep(db, today, attempts, n) == Sweep(db, today, attempts, m)
  {
    hide RunOne, AdvanceDate, Due;
    if m < n {
      NothingBetween(db, today, attempts, m, n - 1);
      assert Sweep(db, today, attempts, n - 1).subs[n - 1] == db.subs[n - 1];
      assert !Due(db.subs[n - 1], today);
    }
  }

  lemma {:induction false} SweepNone(db: Db, today: int, attempts: seq<Attempt>)
    requires |db.subs| == |attempts|
    ensures Sweep(db, today, attempts, 0) == db
  {
  }

  /** The next due subscription may be run at once: those skipped were not due, and it is still due. */
  lemma {:induction false} SweepTo(db: Db, today: int, attempts: seq<Attempt>, m: nat, n: nat)
    requires m <= n < |db.subs| == |attempts|
    requires forall id | m <= id < n :: !Due(db.subs[id], today)
    requires Due(db.subs[n], today)
    ensures Sweep(db, today, attempts, n + 1) == RunOne(Sweep(db, today, attempts, m), n, today, attempts[n])
  {
    hide RunOne;
    NothingBetween(db, today, attempts, m, n);
  }

  // ---- once per date ------------------------------------------------------

  function RunsOf(runs: seq<Run>, id: nat): nat {
    if runs == [] then 0 else RunsOf(runs[..|runs| - 1], id) + if runs[|runs| - 1].subscription == id then 1 else 0
  }

  function OrdersOf(orders: seq<Order>, id: nat): nat {
    if orders == [] then 0 else OrdersOf(orders[..|orders| - 1], id) + if orders[|orders| - 1].subscription == id then 1 else 0
  }

  lemma {:induction false} RunsOfPush(runs: seq<Run>, r: Run, id: nat)
    ensures RunsOf(runs + [r], id) == RunsOf(runs, id) + if r.subscription == id then 1 else 0
  {
    assert (runs + [r])[..|runs|] == runs;
  }

  lemma {:induction false} OrdersOfPush(orders: seq<Order>, o: Order, id: nat)
    ensures OrdersOf(orders + [o], id) == OrdersOf(orders, id) + if o.subscription == id then 1 else 0
  {
    assert (orders + [o])[..|orders|] == orders;
  }

  /** What one transaction does to each subscription. */
  lemma {:induction false} RunOneEffect(db: Db, id: nat, today: int, a: Attempt, k: nat)
    requires id < |db.subs| && k < |db.subs|
    ensures var r := RunOne(db, id, today, a);
            if k == id && a.Reached? then
              && r.subs[k] == db.subs[k].(next := AdvanceDate(db.subs[k].cadence, today))
              && RunsOf(r.runs, k) == RunsOf(db.runs, k) + 1
              && OrdersOf(r.orders, k) == OrdersOf(db.orders, k) + if Orderable(db.subs[k], a) then 1 else 0
            else
              r.subs[k] == db.subs[k] && RunsOf(r.runs, k) == RunsOf(db.runs, k) && OrdersOf(r.orders, k) == OrdersOf(db.orders, k)
  {
    hide AdvanceDate, Priced, RunsOf, OrdersOf;
    var r := RunOne(db, id, today, a);
    if a.Reached? {
      RunsOfPush(db.runs, r.runs[|r.runs| - 1], k);
      if Orderable(db.subs[id], a) { OrdersOfPush(db.orders, r.orders[|r.orders| - 1], k); }
    }
  }

  /** What a sweep does to one subscription depends on that subscription and its attempt alone, so no failure elsewhere
      holds it back. */
  lemma {:induction false} SweepEffect(db: Db, today: int, attempts: seq<Attempt>, n: nat, k: nat)
    requires n <= |db.subs| == |attempts| && k < |db.subs|
    ensures var r := Sweep(db, today, attempts, n);
            if k < n && db.subs[k].active && db.subs[k].next <= today && attempts[k].Reached? then
              && r.subs[k] == db.subs[k].(next := AdvanceDate(db.subs[k].cadence, today))
              && RunsOf(r.runs, k) == RunsOf(db.runs, k) + 1
              && OrdersOf(r.orders, k) == OrdersOf(db.orders, k) + if Orderable(db.subs[k], attempts[k]) then 1 else 0
            else
              r.subs[k] == db.subs[k] && RunsOf(r.runs, k) == RunsOf(db.runs, k) && OrdersOf(r.orders, k) == OrdersOf(db.orders, k)
  {
    hide AdvanceDate, RunOne, RunsOf, OrdersOf, Orderable;
    if n > 0 {
      SweepEffect(db, today, attempts, n - 1, k);
      RunOneEffect(Sweep(db, today, attempts, n - 1), n - 1, today, attempts[n - 1], k);
    }
  }

  /** Sweeps on one date, each with what it meets. */
  function Sweeps(db: Db, today: int, rounds: seq<seq<Attempt>>): (r: Db)
    requires forall i | 0 <= i < |rounds| :: |rounds[i]| == |db.subs|
    ensures |r.subs| == |db.subs|
  {
    if rounds == [] then db
    else
      var n := |rounds| - 1;
      Sweep(Sweeps(db, today, rounds[..n]), today, rounds[n], |db.subs|)
  }

  /** The first sweep whose transaction for a subscription is not broken; the number of sweeps if there is none. */
  function FirstReached(rounds: seq<seq<Attempt>>, k: nat): (i: nat)
    requires forall i | 0 <= i < |rounds| :: k < |rounds[i]|
    ensures i <= |rounds|
    ensures i < |rounds| ==> rounds[i][k].Reached?
    ensures forall j | 0 <= j < i :: rounds[j][k].Broken?
  {
    if rounds == [] then 0
    else
      var n := |rounds| - 1;
      var i := FirstReached(rounds[..n], k);
      if i < n then i else if rounds[n][k].Reached? then n else n + 1
  }

  /** However often a date is swept, and whatever fails, a subscription gets exactly one run if it was due and some sweep
      got through to it, otherwise none; and an order at most once, decided by the first sweep that got through. */
  lemma {:induction false} OncePerDate(db: Db, today: int, rounds: seq<seq<Attempt>>, k: nat)
    requires forall i | 0 <= i < |rounds| :: |rounds[i]| == |db.subs|
    requires k < |db.subs|
    ensures var r, i := Sweeps(db, today, rounds), FirstReached(rounds, k);
            if db.subs[k].active && db.subs[k].next <= today && i < |rounds| then
              && r.subs[k] == db.subs[k].(next := AdvanceDate(db.subs[k].cadence, today))
              && RunsOf(r.runs, k) == RunsOf(db.runs, k) + 1
              && OrdersOf(r.orders, k) == OrdersOf(db.orders, k) + if Orderable(db.subs[k], rounds[i][k]) then 1 else 0
            else
              r.subs[k] == db.subs[k] && RunsOf(r.runs, k) == RunsOf(db.runs, k) && OrdersOf(r.orders, k) == OrdersOf(db.orders, k)
  {
    hide AdvanceDate, Sweep, RunsOf, OrdersOf, Orderable;
    if rounds != [] {
      var n := |rounds| - 1;
      OncePerDate(db, today, rounds[..n], k);
      SweepEffect(Sweeps(db, today, rounds[..n]), today, rounds[n], |db.subs|, k);
      AdvanceLater(db.subs[k].cadence, today);
    }
  }

  // ---- spacing over any run ----------------------------------------------

  datatype Day = Day(today: int, attempts: seq<Attempt>)

  function History(db: Db, days: seq<Day>): (r: Db)
    requires forall i | 0 <= i < |days| :: |days[i].attempts| == |db.subs|
    ensures |r.subs| == |db.subs|
  {
    if days == [] then db
    else
      var n := |days| - 1;
      Sweep(History(db, days[..n]), days[n].today, days[n].attempts, |db.subs|)
  }

  /** Runs of a subscription are at least one cadence step apart, and its next run one step after every earlier one. */
  ghost predicate Spaced(db: Db) {
    && (forall i | 0 <= i < |db.runs| :: db.runs[i].subscription < |db.subs| && StepBy(db, db.runs[i], db.subs[db.runs[i].subscription].next))
    && (forall i, j | 0 <= i < j < |db.runs| && db.runs[i].subscription == db.runs[j].subscription :: StepBy(db, db.runs[i], db.runs[j].date))
  }

  predicate StepBy(db: Db, r: Run, date: int) {
    r.subscription < |db.subs| && AdvanceDate(db.subs[r.subscription].cadence, r.date) <= date
  }

  lemma {:induction false} RunOneSpaced(db: Db, id: nat, today: int, a: Attempt)
    requires Spaced(db) && id < |db.subs| && db.subs[id].next <= today
    ensures Spaced(RunOne(db, id, today, a))
  {
    hide AdvanceDate, Priced;
    AdvanceLater(db.subs[id].cadence, today);
    if a.Reached? {
      var r := RunOne(db, id, today, a);
      assert forall i | 0 <= i < |db.runs| :: r.runs[i] == db.runs[i] && StepBy(db, db.runs[i], db.subs[db.runs[i].subscription].next);
      assert r.runs[|db.runs|].subscription == id;
    }
  }

  lemma {:induction false} SweepSpaced(db: Db, today: int, attempts: seq<Attempt>, n: nat)
    requires Spaced(db) && n <= |db.subs| == |attempts|
    ensures Spaced(Sweep(db, today, attempts, n))
  {
    hide Spaced, RunOne;
    if n > 0 {
      SweepSpaced(db, today, attempts, n - 1);
      var before := Sweep(db, today, attempts, n - 1);
      if Due(before.subs[n - 1], today) { RunOneSpaced(before, n - 1, today, attempts[n - 1]); }
    }
  }

  /** Over any history of sweeps, on whatever dates and with whatever failures, no two runs of a subscription are closer
      than one step of its cadence. */
  lemma {:induction false} HistorySpaced(db: Db, days: seq<Day>)
    requires Spaced(db)
    requires forall i | 0 <= i < |days| :: |days[i].attempts| == |db.subs|
    ensures Spaced(History(db, days))
  {
    hide Spaced, Sweep;
    if days != [] {
      var n := |days| - 1;
      HistorySpaced(db, days[..n]);
      SweepSpaced(History(db, days[..n]), days[n].today, days[n].attempts, |db.subs|);
    }
  }

  // ---- runs and orders ----------------------------------------------------

  datatype Mark = Mark(subscription: nat, date: int)

  /** The successful runs and the orders, as subscription and date, oldest first. */
  function Successes(runs: seq<Run>): seq<Mark> {
    if runs == [] then []
    else
      var r := runs[|runs| - 1];
      Successes(runs[..|runs| - 1]) + if r.success then [Mark(r.subscription, r.date)] else []
  }

  function Placed(orders: seq<Order>): (r: seq<Mark>)
    ensures |r| == |orders| && forall i | 0 <= i < |orders| :: r[i] == Mark(orders[i].subscription, orders[i].date)
  {
    seq(|orders|, i requires 0 <= i < |orders| => Mark(orders[i].subscription, orders[i].date))
  }

  /** The successful runs are the orders, one for one. */
  predicate Booked(db: Db) { Successes(db.runs) == Placed(db.orders) }

  /** Every item has a price, and quantity and price read as numbers. */
  predicate CanPrice(items: seq<Item>, prices: map<Item, string>) {
    forall i | 0 <= i < |items| :: items[i] in prices && Money.Parse(items[i].quantity).Some? && Money.Parse(prices[items[i]]).Some?
  }

  lemma {:induction false} PricedIff(items: seq<Item>, prices: map<Item, string>)
    ensures Priced(items, prices).Some? <==> CanPrice(items, prices)
    ensures Priced(items, prices).Some? ==> |Priced(items, prices).value| == |items|
  {
    ZeroParses();
    hide Money.Parse, Money.Format;
    if items != [] { PricedIff(items[..|items| - 1], prices); }
  }

  lemma {:induction false} ZeroParses()
    ensures Money.Parse("0").Some?
  {
  }

  /** What a transaction that is not broken writes: one run of the subscription on that date, a success exactly when there
      is an item and all can be priced; then, and only then, one order of the subscription on that date. */
  lemma {:induction false} RunOneWrites(db: Db, id: nat, today: int, prices: map<Item, string>)
    requires id < |db.subs|
    ensures var r := RunOne(db, id, today, Reached(prices));
            var success := db.subs[id].items != [] && CanPrice(db.subs[id].items, prices);
            && r.runs == db.runs + [Run(id, today, success)]
            && r.subs == db.subs[id := db.subs[id].(next := AdvanceDate(db.subs[id].cadence, today))]
            && (if success then
                  |r.orders| == |db.orders| + 1 && r.orders[..|db.orders|] == db.orders &&
                  r.orders[|db.orders|].subscription == id && r.orders[|db.orders|].date == today
                else r.orders == db.orders)
  {
    PricedIff(db.subs[id].items, prices);
    hide AdvanceDate, Priced, CanPrice;
  }

  lemma {:induction false} RunOneBooked(db: Db, id: nat, today: int, a: Attempt)
    requires Booked(db) && id < |db.subs|
    ensures Booked(RunOne(db, id, today, a))
  {
    if a.Reached? {
      RunOneWrites(db, id, today, a.prices);
      hide RunOne, AdvanceDate, CanPrice;
      var r := RunOne(db, id, today, a);
      assert r.runs[..|db.runs|] == db.runs;
      assert Successes(db.runs) + [] == Successes(db.runs);
      if |r.orders| > |db.orders| { assert Placed(r.orders) == Placed(db.orders) + [Mark(id, today)]; }
    }
  }

  lemma {:induction false} SweepBooked(db: Db, today: int, attempts: seq<Attempt>, n: nat)
    requires Booked(db) && n <= |db.subs| == |attempts|
    ensures Booked(Sweep(db, today, attempts, n))
  {
    hide Booked, RunOne;
    if n > 0 {
      SweepBooked(db, today, attempts, n - 1);
      RunOneBooked(Sweep(db, today, attempts, n - 1), n - 1, today, attempts[n - 1]);
    }
  }

  /** Over any history of sweeps, with whatever failures, the successful runs are the orders, one for one and in order: no
      failed run has an order, and no order lacks its successful run. */
  lemma {:induction false} HistoryBooked(db: Db, days: seq<Day>)
    requires Booked(db) && forall i | 0 <= i < |days| :: |days[i].attempts| == |db.subs|
    ensures Booked(History(db, days))
  {
    hide Booked, Sweep;
    if days != [] {
      var n := |days| - 1;
      HistoryBooked(db, days[..n]);
      SweepBooked(History(db, days[..n]), days[n].today, days[n].attempts, |db.subs|);
    }
  }

  // ---- sweeps that overlap ------------------------------------------------

  /** A listed subscription that its sweep has still to run; the run does not look again whether it is due. */
  datatype Task = Task(id: nat, today: int)

  datatype Floor = Floor(db: Db, tasks: seq<Task>)

  /** A sweep lists what is due; a listed subscription is run; an administrator runs one at once. */
  datatype Move = ListMove(today: int) | RunMove(task: nat, attempt: Attempt) | NowMove(id: nat, today: int, attempt: Attempt)

  function Listed(subs: seq<Subscription>, today: int, n: nat): (r: seq<Task>)
    requires n <= |subs|
    ensures forall i | 0 <= i < |r| :: r[i].id < n
  {
    if n == 0 then []
    else Listed(subs, today, n - 1) + if Due(subs[n - 1], today) then [Task(n - 1, today)] else []
  }

  /** The run a move makes, if it makes one. */
  function Makes(f: Floor, m: Move): Option<(nat, int, Attempt)> {
    match m
    case ListMove(_) => None
    case RunMove(k, a) =>
      if k < |f.tasks| && f.tasks[k].id < |f.db.subs| then Some((f.tasks[k].id, f.tasks[k].today, a)) else None
    case NowMove(id, today, a) => if id < |f.db.subs| then Some((id, today, a)) else None
  }

  function Next(f: Floor, m: Move): Floor {
    var db := match Makes(f, m) case Some((id, today, a)) => RunOne(f.db, id, today, a) case None => f.db;
    match m
    case ListMove(today) => Floor(db, f.tasks + Listed(f.db.subs, today, |f.db.subs|))
    case RunMove(k, _) => Floor(db, if k < |f.tasks| then f.tasks[..k] + f.tasks[k + 1..] else f.tasks)
    case NowMove(_, _, _) => Floor(db, f.tasks)
  }

  function RunMoves(db: Db, moves: seq<Move>): Floor {
    if moves == [] then Floor(db, []) else Next(RunMoves(db, moves[..|moves| - 1]), moves[|moves| - 1])
  }

  predicate NeverRan(db: Db, id: nat) { forall i | 0 <= i < |db.runs| :: db.runs[i].subscription != id }

  predicate LastRun(db: Db, i: nat) {
    i < |db.runs| && forall j | i < j < |db.runs| :: db.runs[j].subscription != db.runs[i].subscription
  }

  /** A subscription that has run is next due one step after its last run. */
  ghost predicate NextFollows(db: Db) {
    forall i: nat | LastRun(db, i) ::
      db.runs[i].subscription < |db.subs| &&
      db.subs[db.runs[i].subscription].next == AdvanceDate(db.subs[db.runs[i].subscription].cadence, db.runs[i].date)
  }

  lemma {:induction false} HasLast(db: Db, id: nat) returns (i: nat)
    requires !NeverRan(db, id)
    ensures LastRun(db, i) && db.runs[i].subscription == id
  {
    var n := |db.runs|;
    while n > 0 && db.runs[n - 1].subscription != id
      invariant 0 <= n <= |db.runs|
      invariant forall j | n <= j < |db.runs| :: db.runs[j].subscription != id
    {
      n := n - 1;
    }
    i := n - 1;
  }

  lemma {:induction false} RunOneFollows(db: Db, id: nat, today: int, a: Attempt)
    requires NextFollows(db) && id < |db.subs|
    ensures NextFollows(RunOne(db, id, today, a))
  {
    hide AdvanceDate, Priced;
    var r := RunOne(db, id, today, a);
    if a.Reached? {
      var n := |db.runs|;
      assert r.runs[n].subscription == id;
      forall i: nat | LastRun(r, i)
        ensures r.runs[i].subscription < |r.subs| &&
                r.subs[r.runs[i].subscription].next == AdvanceDate(r.subs[r.runs[i].subscription].cadence, r.runs[i].date)
      {
        if i < n {
          assert forall j | i < j < n :: r.runs[j] == db.runs[j];
          assert LastRun(db, i);
        }
      }
    }
  }

  /** Running a subscription keeps its runs a step apart exactly when it is its first run, or it is still due. */
  lemma {:induction false} RunOneSpacedIff(db: Db, id: nat, today: int, a: Attempt)
    requires Spaced(db) && NextFollows(db) && id < |db.subs|
    ensures Spaced(RunOne(db, id, today, a)) <==> a.Broken? || NeverRan(db, id) || db.subs[id].next <= today
  {
    hide AdvanceDate, Priced;
    var r := RunOne(db, id, today, a);
    if a.Reached? {
      if db.subs[id].next <= today {
        RunOneSpaced(db, id, today, a);
      } else if NeverRan(db, id) {
        FirstSpaced(db, id, today, a);
      } else {
        var i := HasLast(db, id);
        assert r.runs[i] == db.runs[i] && r.runs[|db.runs|].date == today && r.runs[|db.runs|].subscription == id;
        assert !StepBy(r, r.runs[i], today);
      }
    }
  }

  lemma {:induction false} FirstSpaced(db: Db, id: nat, today: int, a: Attempt)
    requires Spaced(db) && id < |db.subs| && NeverRan(db, id) && a.Reached?
    ensures Spaced(RunOne(db, id, today, a))
  {
    hide AdvanceDate, Priced;
    var r := RunOne(db, id, today, a);
    assert forall i | 0 <= i < |db.runs| :: r.runs[i] == db.runs[i] && StepBy(db, db.runs[i], db.subs[db.runs[i].subscription].next);
    assert r.runs[|db.runs|].subscription == id;
  }

  /** The move runs nothing, or what it runs is due at that moment or has never run. */
  predicate StillDue(f: Floor, m: Move) {
    match Makes(f, m)
    case Some((id, today, a)) => a.Broken? || NeverRan(f.db, id) || f.db.subs[id].next <= today
    case None => true
  }

  lemma {:induction false} NextSpacedIff(f: Floor, m: Move)
    requires Spaced(f.db) && NextFollows(f.db)
    ensures NextFollows(Next(f, m).db) && (Spaced(Next(f, m).db) <==> StillDue(f, m))
  {
    hide Spaced, NextFollows, RunOne, NeverRan;
    match Makes(f, m)
    case Some((id, today, a)) =>
      RunOneSpacedIff(f.db, id, today, a);
      RunOneFollows(f.db, id, today, a);
    case None =>
  }

  /** However sweeps and immediate runs overlap, the runs of every subscription stay at least one cadence step apart, in
      every state passed through, exactly when each run that goes through is a first one or comes while the subscription is
      still due: then no date gets two orders. */
  lemma {:induction false} OverlapSpacedIff(db: Db, moves: seq<Move>)
    requires Spaced(db) && NextFollows(db)
    ensures (forall n | 0 <= n <= |moves| :: Spaced(RunMoves(db, moves[..n]).db))
            <==> forall n | 0 <= n < |moves| :: StillDue(RunMoves(db, moves[..n]), moves[n])
  {
    NothingMoved(db, moves);
    hide *;
    forall n | 0 <= n < |moves|
      ensures Spaced(RunMoves(db, moves[..n]).db) ==>
                (Spaced(RunMoves(db, moves[..n + 1]).db) <==> StillDue(RunMoves(db, moves[..n]), moves[n]))
    {
      MoveStep(db, moves, n);
      if Spaced(RunMoves(db, moves[..n]).db) { NextSpacedIff(RunMoves(db, moves[..n]), moves[n]); }
    }
    if forall n | 0 <= n < |moves| :: StillDue(RunMoves(db, moves[..n]), moves[n]) {
      for m := 0 to |moves|
        invariant forall n | 0 <= n <= m :: Spaced(RunMoves(db, moves[..n]).db)
      {
        assert Spaced(RunMoves(db, moves[..m]).db);
      }
    } else {
      var n :| 0 <= n < |moves| && !StillDue(RunMoves(db, moves[..n]), moves[n]);
      assert Spaced(RunMoves(db, moves[..n]).db) ==> !Spaced(RunMoves(db, moves[..n + 1]).db);
    }
  }

  lemma {:induction false} NothingMoved(db: Db, moves: seq<Move>)
    ensures RunMoves(db, moves[..0]).db == db
  {
  }

  lemma {:induction false} MovesFollow(db: Db, moves: seq<Move>)
    requires NextFollows(db)
    ensures NextFollows(RunMoves(db, moves).db)
  {
    hide NextFollows, RunOne;
    if moves != [] {
      var n := |moves| - 1;
      MovesFollow(db, moves[..n]);
      var f := RunMoves(db, moves[..n]);
      match Makes(f, moves[n])
      case Some((id, today, a)) => RunOneFollows(f.db, id, today, a);
      case None =>
    }
  }

  lemma {:induction false} MoveStep(db: Db, moves: seq<Move>, n: nat)
    requires n < |moves| && NextFollows(db)
    ensures RunMoves(db, moves[..n + 1]) == Next(RunMoves(db, moves[..n]), moves[n])
    ensures NextFollows(RunMoves(db, moves[..n]).db)
  {
    MovesFollow(db, moves[..n]);
    assert moves[..n + 1][..n] == moves[..n];
    hide Next, NextFollows;
  }

  /** Two sweeps of a date that both list before either runs place two orders for any subscription that is due and can be
      priced; so do a sweep and an immediate run. */
  lemma {:induction false} TwoOrders(s: Subscription, today: int, a: Attempt)
    requires Due(s, today) && Orderable(s, a)
    ensures var db := Db([s], [], []);
            var listed := Next(Next(Floor(db, []), ListMove(today)), ListMove(today));
            var swept := Next(Next(listed, RunMove(0, a)), RunMove(0, a)).db;
            var atOnce := Next(Next(listed, RunMove(0, a)), NowMove(0, today, a)).db;
            && |listed.tasks| == 2 && OrdersOf(swept.orders, 0) == 2 && OrdersOf(atOnce.orders, 0) == 2
            && forall i | 0 <= i < |swept.orders| :: swept.orders[i].date == today
  {
    ListedTwice(s, today);
    RunTwice(s, today, a);
    var listed := Floor(Db([s], [], []), [Task(0, today), Task(0, today)]);
    hide RunOne, Orderable, OrdersOf, Listed;
    assert Next(listed, RunMove(0, a)) == Floor(RunOne(listed.db, 0, today, a), [Task(0, today)]);
  }

  lemma {:induction false} ListedTwice(s: Subscription, today: int)
    requires Due(s, today)
    ensures Next(Next(Floor(Db([s], [], []), []), ListMove(today)), ListMove(today)) ==
            Floor(Db([s], [], []), [Task(0, today), Task(0, today)])
  {
    assert Listed([s], today, 0) == [];
    assert Listed([s], today, 1) == [Task(0, today)];
  }

  lemma {:induction false} RunTwice(s: Subscription, today: int, a: Attempt)
    requires Orderable(s, a)
    ensures var r := RunOne(RunOne(Db([s], [], []), 0, today, a), 0, today, a);
            |r.subs| == 1 && OrdersOf(r.orders, 0) == 2 && forall i | 0 <= i < |r.orders| :: r.orders[i].date == today
  {
    hide AdvanceDate, Priced;
    var once := RunOne(Db([s], [], []), 0, today, a);
    RunOneEffect(Db([s], [], []), 0, today, a, 0);
    RunOneEffect(once, 0, today, a, 0);
    assert OrdersOf([], 0) == 0;
    hide OrdersOf;
    assert once.subs == [s.(next := AdvanceDate(s.cadence, today))];
  }

  /** So they are however sweeps and immediate runs overlap. */
  lemma {:induction false} OverlapBooked(db: Db, moves: seq<Move>)
    requires Booked(db)
    ensures Booked(RunMoves(db, moves).db)
  {
    hide Booked, RunOne;
    if moves != [] {
      var n := |moves| - 1;
      OverlapBooked(db, moves[..n]);
      var f := RunMoves(db, moves[..n]);
      match Makes(f, moves[n])
      case Some((id, today, a)) => RunOneBooked(f.db, id, today, a);
      case None =>
    }
  }
}
