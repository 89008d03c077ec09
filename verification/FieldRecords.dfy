/** What a pushed change leaves in the records, field by field, and exactly when it is applied. */
module FieldRecords {
  import opened Prelude
  import opened FieldPush
  import M = Money

  /** The change is not answered from the log. */
  predicate Unanswered(s: State, a: Arrival) { a.change.uuid.Some? && !(a.logRead && Key(a) in s.pushLog) }

  predicate Applied(r: Reply) { r.outcome.status == "applied" && !r.replayed }

  // ---- activities ---------------------------------------------------------

  /** An edit is applied exactly when the activity is there, is the representative's, is not newer than the base, and gets
      a known status.  It stores the subject and the status that were sent, or keeps the old ones where an empty text was
      sent; the body is the one sent; kind, customer and owner stay. */
  lemma {:induction false} EditStores(ctx: Context, s: State, a: Arrival, p: ActivityFields)
    requires Unanswered(s, a) && a.change.entity == "activity" && a.change.asActivity == Some(p) && p.id > 0
    ensures var (t, r) := ApplyOne(ctx, s, a);
            && (Applied(r) <==>
                  p.id <= |s.activities| &&
                  var was := s.activities[p.id - 1];
                  was.owner == Some(a.rep) && (a.change.base.Some? ==> was.updatedAt <= a.change.base.value) &&
                  (if p.status == "" then was.status else p.status) in {"open", "done", "cancelled"})
            && (if Applied(r) then
                  && |s.activities| == |t.activities| && r.outcome.serverId == Some(p.id)
                  && var was, now := s.activities[p.id - 1], t.activities[p.id - 1];
                     && now.subject == (if p.subject == "" then was.subject else p.subject)
                     && now.body == p.body
                     && now.status == (if p.status == "" then was.status else p.status)
                     && now.kind == was.kind && now.customer == was.customer && now.owner == was.owner && now.updatedAt == a.now
                     && t.activities == s.activities[p.id - 1 := now]
                     && t.orders == s.orders && t.changes == s.changes + [ChangeRow("activity", p.id, a.rep)]
                else r.outcome.status in {"conflict", "rejected"} && SameRecords(s, t))
  {
  }

  /** What is neither an activity nor an order, or has a payload or a change id that cannot be read, is rejected. */
  lemma {:induction false} OthersRejected(ctx: Context, s: State, a: Arrival)
    requires a.change.uuid.None? || (Unanswered(s, a) && a.change.entity !in {"activity", "order"}) ||
             (Unanswered(s, a) && a.change.entity == "activity" && a.change.asActivity.None?) ||
             (Unanswered(s, a) && a.change.entity == "order" && a.change.asOrder.None?)
    ensures var (t, r) := ApplyOne(ctx, s, a);
            r.outcome.status == "rejected" && r.outcome.serverId.None? && !r.replayed && SameRecords(s, t)
  {
  }

  /** An activity is created exactly when it has a subject and a known type, its customer is known if it names one, and its
      status is a known one or left out; the record holds what was sent, open unless it says otherwise, and belongs to the
      representative. */
  lemma {:induction false} CreateStores(ctx: Context, s: State, a: Arrival, p: ActivityFields)
    requires Unanswered(s, a) && a.change.entity == "activity" && a.change.asActivity == Some(p) && p.id <= 0
    ensures var (t, r) := ApplyOne(ctx, s, a);
            && (Applied(r) <==>
                  p.subject != "" && p.kind in {"call", "email", "meeting", "task", "note"} &&
                  (p.customer.Some? ==> p.customer.value in ctx.customers) && p.status in {"", "open", "done", "cancelled"})
            && (if Applied(r) then
                  && t.activities == s.activities + [Activity(p.kind, p.subject, p.body, if p.status == "" then "open" else p.status,
                                                              p.customer, Some(a.rep), a.now)]
                  && t.orders == s.orders && t.changes == s.changes + [ChangeRow("activity", |s.activities| + 1, a.rep)]
                  && r.outcome.serverId == Some(|s.activities| + 1)
                else r.outcome.status == "rejected" && r.outcome.serverId.None? && SameRecords(s, t))
  {
  }

  // ---- orders -------------------------------------------------------------

  function UnitPrice(l: LineFields): string { if l.unitPrice == "" then "0" else l.unitPrice }

  /** A line whose quantity and price read as numbers; a price left out is zero. */
  predicate Priced(l: LineFields) { M.Parse(l.quantity).Some? && M.Parse(UnitPrice(l)).Some? }

  /** The exact product of a line, rounded once to stored units. */
  function LineUnits(l: LineFields): int
    requires Priced(l)
  {
    M.ToUnits(M.Product(M.Parse(l.quantity).value, M.Parse(UnitPrice(l)).value))
  }

  function SumUnits(lines: seq<LineFields>): int
    requires forall i | 0 <= i < |lines| :: Priced(lines[i])
  {
    if lines == [] then 0 else SumUnits(lines[..|lines| - 1]) + LineUnits(lines[|lines| - 1])
  }

  /** The client id up to its first dash, all of it when it has none. */
  predicate UpToFirstDash(s: string, front: string) {
    front <= s && '-' !in front && (|front| < |s| ==> s[|front|] == '-')
  }

  predicate StoresLine(it: OrderItem, l: LineFields) {
    Priced(l) && it.sku == l.sku && it.quantity == l.quantity && it.unitPrice == UnitPrice(l) &&
    M.Parse(it.rowTotal) == Some(M.Amount(LineUnits(l)))
  }

  /** The stored order: whose it is, the currency (USD when left out) in its three characters, the number made of the
      client id, one item for each line, and a subtotal that is the sum of the row totals. */
  ghost predicate StoresOrder(o: Order, a: Arrival, p: OrderFields) {
    && o.customer == p.customer && o.rep == a.rep
    && |o.currency| == 3
    && (forall i | 0 <= i < 3 ::
          var sent := if p.currency == "" then "USD" else p.currency; o.currency[i] == if i < |sent| then sent[i] else ' ')
    && (exists front :: UpToFirstDash(a.change.clientId, front) && o.poNumber == "FIELD-" + front)
    && |o.items| == |p.lines| && (forall i | 0 <= i < |p.lines| :: StoresLine(o.items[i], p.lines[i]))
    && M.Parse(o.subtotal) == Some(M.Amount(SumUnits(p.lines)))
  }

  lemma {:induction false} DashFront(s: string)
    ensures UpToFirstDash(s, UpToDash(s))
  {
    if s != "" && s[0] != '-' {
      DashFront(s[1..]);
      assert s == [s[0]] + s[1..];
    }
  }

  lemma {:induction false} ItemStores(l: LineFields)
    requires Priced(l)
    ensures StoresLine(ItemOf(l), l)
  {
    M.ParseFormat(M.Product(M.Parse(l.quantity).value, M.Parse(UnitPrice(l)).value));
    hide M.Parse, M.Format, M.ToUnits, M.Product;
  }

  lemma {:induction false} RowsTotal(lines: seq<LineFields>)
    requires forall i | 0 <= i < |lines| :: Priced(lines[i])
    ensures M.Total(RowTotals(ItemsOf(lines))) == Some(M.Amount(SumUnits(lines)))
  {
    hide M.Parse, M.ToUnits, M.Product, ItemOf;
    if lines != [] {
      var n := |lines| - 1;
      RowsTotal(lines[..n]);
      ItemStores(lines[n]);
      M.AmountSum(SumUnits(lines[..n]), LineUnits(lines[n]));
      assert RowTotals(ItemsOf(lines))[..n] == RowTotals(ItemsOf(lines[..n]));
    } else {
      assert M.Amount(0) == 0.0;
    }
  }

  lemma {:induction false} SubtotalIs(lines: seq<LineFields>)
    requires forall i | 0 <= i < |lines| :: Priced(lines[i])
    ensures M.Parse(Subtotal(ItemsOf(lines))) == Some(M.Amount(SumUnits(lines)))
  {
    RowsTotal(lines);
    M.ParseFormat(M.Amount(SumUnits(lines)));
    M.RoundInt(SumUnits(lines));
    assert M.ToUnits(M.Amount(SumUnits(lines))) == SumUnits(lines);
    hide M.Parse, M.Format, M.Total, SumUnits;
  }

  /** An order is created exactly when it is a new one with a known customer and at least one line, every line names a known
      product and has numbers for quantity and price, and the currency fits; what is stored then is told above. */
  lemma {:induction false} OrderStores(ctx: Context, s: State, a: Arrival, p: OrderFields)
    requires Unanswered(s, a) && a.change.entity == "order" && a.change.asOrder == Some(p)
    ensures var (t, r) := ApplyOne(ctx, s, a);
            && (Applied(r) <==>
                  p.id <= 0 && p.customer != 0 && p.customer in ctx.customers && p.lines != [] &&
                  (forall i | 0 <= i < |p.lines| :: p.lines[i].sku in ctx.skus && Priced(p.lines[i])) &&
                  forall i | 3 <= i < |p.currency| :: p.currency[i] == ' ')
            && (if Applied(r) then
                  && |t.orders| == |s.orders| + 1 && t.orders[..|s.orders|] == s.orders && StoresOrder(t.orders[|s.orders|], a, p)
                  && t.activities == s.activities && t.changes == s.changes + [ChangeRow("order", |s.orders| + 1, a.rep)]
                  && r.outcome.serverId == Some(|s.orders| + 1)
                else r.outcome.status == "rejected" && r.outcome.serverId.None? && SameRecords(s, t))
  {
    OrderApplied(ctx, s, a, p);
    OrderCreated(ctx, s, a, p);
    hide CreateOrder, StoresOrder, OrderWanted;
  }

  predicate OrderWanted(ctx: Context, p: OrderFields) {
    p.id <= 0 && p.customer != 0 && p.customer in ctx.customers && p.lines != [] &&
    (forall i | 0 <= i < |p.lines| :: p.lines[i].sku in ctx.skus && Priced(p.lines[i])) &&
    forall i | 3 <= i < |p.currency| :: p.currency[i] == ' '
  }

  lemma {:induction false} OrderApplied(ctx: Context, s: State, a: Arrival, p: OrderFields)
    ensures var (t, o) := CreateOrder(ctx, s, a, p);
            && (o.status == "applied" <==> OrderWanted(ctx, p)) && (o.status != "applied" ==> o.status == "rejected" && o.serverId.None? && t == s)
    ensures OrderWanted(ctx, p) <==>
                  p.id <= 0 && p.customer != 0 && p.customer in ctx.customers && p.lines != [] &&
                  (forall i | 0 <= i < |p.lines| :: p.lines[i].sku in ctx.skus && Priced(p.lines[i])) &&
                  forall i | 3 <= i < |p.currency| :: p.currency[i] == ' '
  {
    hide ItemsOf, Subtotal, PoNumber, Three, M.Parse;
    forall i | 0 <= i < |p.lines| ensures Def(p.lines[i].unitPrice, "0") == UnitPrice(p.lines[i]) { }
  }

  lemma {:induction false} OrderCreated(ctx: Context, s: State, a: Arrival, p: OrderFields)
    ensures var (t, o) := CreateOrder(ctx, s, a, p);
            o.status == "applied" ==>
              && |t.orders| == |s.orders| + 1 && t.orders[..|s.orders|] == s.orders && StoresOrder(t.orders[|s.orders|], a, p)
              && t.activities == s.activities && t.changes == s.changes + [ChangeRow("order", |s.orders| + 1, a.rep)]
              && t.pushLog == s.pushLog && o.serverId == Some(|s.orders| + 1)
  {
    if CreateOrder(ctx, s, a, p).1.status == "applied" {
      OrderApplied(ctx, s, a, p);
      DashFront(a.change.clientId);
      SubtotalIs(p.lines);
      forall i | 0 <= i < |p.lines| ensures StoresLine(ItemsOf(p.lines)[i], p.lines[i]) { ItemStores(p.lines[i]); }
      hide ItemOf, Subtotal, UpToDash, StoresLine, SumUnits, M.Parse, UpToFirstDash, Insertable, KnownSkus;
    }
  }
}
