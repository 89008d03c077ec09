/** Idempotent push of a device's offline changes (internal/modules/field/push.go), for one organization. */
module FieldPush {
  import opened Prelude
  import M = Money

  // ---- what is stored -----------------------------------------------------

  datatype Activity = Activity(
    kind: string, subject: string, body: Option<string>, status: string, customer: Option<int>,
    owner: Option<int>, updatedAt: int)

  datatype OrderItem = OrderItem(sku: string, quantity: string, unitPrice: string, rowTotal: string)

  datatype Order = Order(customer: int, rep: int, currency: string, poNumber: string, subtotal: string, items: seq<OrderItem>)

  /** A change-log row: which entity moved, visible to which representative. */
  datatype ChangeRow = ChangeRow(entity: string, id: nat, rep: int)

  datatype PushRow = PushRow(status: string, serverId: Option<nat>)

  /** A push-log key: the device and the parsed client change id. */
  datatype LogKey = LogKey(device: int, change: int)

  /** Activity and order ids are positions plus one, so every id is positive. */
  datatype State = State(
    activities: seq<Activity>, orders: seq<Order>, changes: seq<ChangeRow>, pushLog: map<LogKey, PushRow>)

  /** The rest of the database that a push only reads. */
  datatype Context = Context(skus: set<string>, customers: set<int>)

  // ---- what a device sends ------------------------------------------------

  datatype ActivityFields = ActivityFields(
    id: int, kind: string, subject: string, body: Option<string>, status: string, customer: Option<int>)

  datatype LineFields = LineFields(sku: string, quantity: string, unitPrice: string)

  datatype OrderFields = OrderFields(id: int, customer: int, currency: string, lines: seq<LineFields>)

  /** A change, with its texts already decoded: the parsed id, the payload read as either entity, the parsed base time. */
  datatype Change = Change(
    clientId: string, uuid: Option<int>, entity: string,
    asActivity: Option<ActivityFields>, asOrder: Option<OrderFields>, base: Option<int>)

  /** One change reaching the server: from which device and representative, at what time, whether its reading of the push
      log sees the row that is there (not when it fails, and not when it came before the row was written, as in two
      simultaneous pushes), and whether the write of its own row, whose error is ignored, succeeds. */
  datatype Arrival = Arrival(device: int, rep: int, change: Change, now: int, logRead: bool, logged: bool)

  datatype Outcome = Outcome(status: string, serverId: Option<nat>, detail: string)

  datatype Reply = Reply(outcome: Outcome, replayed: bool)

  // ---- dispatch -----------------------------------------------------------

  const READ_ONLY: set<string> := {"product", "catalog", "category", "customer", "price", "pricing"}

  const ACTIVITY_TYPES: set<string> := {"call", "email", "meeting", "task", "note"}

  /** What the database lets an activity's status be. */
  const STATUSES: set<string> := {"open", "done", "cancelled"}

  function Def(v: string, d: string): string { if v == "" then d else v }

  function Rejected(detail: string): Outcome { Outcome("rejected", None, detail) }

  function Log(s: State, entity: string, id: nat, rep: int): State {
    s.(changes := s.changes + [ChangeRow(entity, id, rep)])
  }

  function EditActivity(s: State, a: Arrival, p: ActivityFields): (State, Outcome)
    requires p.id > 0
  {
    if p.id > |s.activities| then (s, Rejected("activity not found"))
    else
      var act := s.activities[p.id - 1];
      if act.owner != Some(a.rep) then (s, Rejected("not your activity"))
      else if a.change.base.Some? && act.updatedAt > a.change.base.value then
        (s, Outcome("conflict", Some(p.id), "server record is newer"))
      else if Def(p.status, act.status) !in STATUSES then (s, Rejected("update failed"))
      else
        var upd := act.(subject := Def(p.subject, act.subject), body := p.body,
                        status := Def(p.status, act.status), updatedAt := a.now);
        (Log(s.(activities := s.activities[p.id - 1 := upd]), "activity", p.id, a.rep), Outcome("applied", Some(p.id), ""))
  }

  function CreateActivity(ctx: Context, s: State, a: Arrival, p: ActivityFields): (State, Outcome) {
    if p.subject == "" || p.kind !in ACTIVITY_TYPES then (s, Rejected("type and subject are required"))
    else if (p.customer.Some? && p.customer.value !in ctx.customers) || Def(p.status, "open") !in STATUSES then
      (s, Rejected("create failed"))
    else
      var act := Activity(p.kind, p.subject, p.body, Def(p.status, "open"), p.customer, Some(a.rep), a.now);
      var id := |s.activities| + 1;
      (Log(s.(activities := s.activities + [act]), "activity", id, a.rep), Outcome("applied", Some(id), ""))
  }

  function ItemOf(l: LineFields): OrderItem {
    var price := Def(l.unitPrice, "0");
    var total := M.LineTotal(l.quantity, price);
    OrderItem(l.sku, l.quantity, price, if total.Some? then total.value else "")
  }

  function ItemsOf(lines: seq<LineFields>): (r: seq<OrderItem>)
    ensures |r| == |lines| && forall i | 0 <= i < |lines| :: r[i] == ItemOf(lines[i])
  {
    seq(|lines|, i requires 0 <= i < |lines| => ItemOf(lines[i]))
  }

  function RowTotals(items: seq<OrderItem>): (r: seq<string>)
    ensures |r| == |items| && forall i | 0 <= i < |items| :: r[i] == items[i].rowTotal
  {
    seq(|items|, i requires 0 <= i < |items| => items[i].rowTotal)
  }

  predicate KnownSkus(ctx: Context, lines: seq<LineFields>) {
    forall i | 0 <= i < |lines| :: lines[i].sku in ctx.skus
  }

  /** A text a three-character column takes: nothing but blanks beyond the third. */
  predicate FitsThree(s: string) { forall i | 3 <= i < |s| :: s[i] == ' ' }

  /** The text as such a column stores it, cut or padded with blanks. */
  function Three(s: string): (r: string)
    ensures |r| == 3
  {
    if |s| >= 3 then s[..3] else s + seq(3 - |s|, i => ' ')
  }

  /** The database refuses a customer it does not know, a currency longer than three characters, and a quantity or price
      that is no number. */
  predicate Insertable(ctx: Context, p: OrderFields) {
    p.customer in ctx.customers && FitsThree(Def(p.currency, "USD")) &&
    forall i | 0 <= i < |p.lines| ::
      M.Parse(p.lines[i].quantity).Some? && M.Parse(Def(p.lines[i].unitPrice, "0")).Some?
  }

  /** "FIELD-" and the client id up to its first dash. */
  function PoNumber(clientId: string): string { "FIELD-" + UpToDash(clientId) }

  function UpToDash(s: string): string {
    if s == "" || s[0] == '-' then "" else [s[0]] + UpToDash(s[1..])
  }

  function Subtotal(items: seq<OrderItem>): string {
    match M.Total(RowTotals(items)) case Some(t) => M.Format(t) case None => "0"
  }

  function CreateOrder(ctx: Context, s: State, a: Arrival, p: OrderFields): (State, Outcome) {
    if p.id > 0 then (s, Rejected("offline order edits are not supported"))
    else if p.customer == 0 || p.lines == [] then (s, Rejected("customer_id and at least one line required"))
    else if !KnownSkus(ctx, p.lines) then (s, Rejected("unknown SKU"))
    else if !Insertable(ctx, p) then (s, Rejected("could not create order"))
    else
      var items := ItemsOf(p.lines);
      var o := Order(p.customer, a.rep, Three(Def(p.currency, "USD")), PoNumber(a.change.clientId), Subtotal(items), items);
      var id := |s.orders| + 1;
      (Log(s.(orders := s.orders + [o]), "order", id, a.rep), Outcome("applied", Some(id), ""))
  }

  function Dispatch(ctx: Context, s: State, a: Arrival): (State, Outcome) {
    var ch := a.change;
    if ch.entity in READ_ONLY then (s, Rejected("entity is read-only on device"))
    else if ch.entity == "activity" then
      match ch.asActivity
      case None => (s, Rejected("invalid activity payload"))
      case Some(p) => if p.id > 0 then EditActivity(s, a, p) else CreateActivity(ctx, s, a, p)
    else if ch.entity == "order" then
      match ch.asOrder
      case None => (s, Rejected("invalid order payload"))
      case Some(p) => CreateOrder(ctx, s, a, p)
    else (s, Rejected("unsupported entity type"))
  }

  // ---- one change, once ---------------------------------------------------

  function Key(a: Arrival): LogKey
    requires a.change.uuid.Some?
  {
    LogKey(a.device, a.change.uuid.value)
  }

  /** The change is answered from the log. */
  predicate Seen(s: State, a: Arrival) { a.change.uuid.Some? && a.logRead && Key(a) in s.pushLog }

  /** The log keeps one row for each device and change id. */
  function Logged(log: map<LogKey, PushRow>, a: Arrival, o: Outcome): map<LogKey, PushRow>
    requires a.change.uuid.Some?
  {
    if a.logged && Key(a) !in log then log[Key(a) := PushRow(o.status, o.serverId)] else log
  }

  function ApplyOne(ctx: Context, s: State, a: Arrival): (State, Reply) {
    if a.change.uuid.None? then (s, Reply(Rejected("invalid client_change_id"), false))
    else if Seen(s, a) then
      var prior := s.pushLog[Key(a)];
      (s, Reply(Outcome(prior.status, prior.serverId, ""), true))
    else
      var (t, o) := Dispatch(ctx, s, a);
      (t.(pushLog := Logged(t.pushLog, a, o)), Reply(o, false))
  }

  function Run(ctx: Context, s: State, arrivals: seq<Arrival>): State {
    if arrivals == [] then s
    else ApplyOne(ctx, Run(ctx, s, arrivals[..|arrivals| - 1]), arrivals[|arrivals| - 1]).0
  }

  function ReplyAt(ctx: Context, s: State, arrivals: seq<Arrival>, i: nat): Reply
    requires i < |arrivals|
  {
    ApplyOne(ctx, Run(ctx, s, arrivals[..i]), arrivals[i]).1
  }

  // ---- the handler --------------------------------------------------------

  class FieldServer {
    var activities: seq<Activity>
    var orders: seq<Order>
    var changes: seq<ChangeRow>
    var pushLog: map<LogKey, PushRow>
    const ctx: Context

    function View(): State
      reads this
    {
      State(activities, orders, changes, pushLog)
    }

    constructor (ctx: Context)
      ensures View() == State([], [], [], map[]) && this.ctx == ctx
    {
      this.ctx := ctx;
      activities, orders, changes, pushLog := [], [], [], map[];
    }

    /** push: the changes of a batch in order, one reply each. */
    method Push(batch: seq<Arrival>) returns (results: seq<Reply>)
      modifies this
      ensures View() == Run(ctx, old(View()), batch)
      ensures |results| == |batch|
      ensures forall i | 0 <= i < |batch| :: results[i] == ReplyAt(ctx, old(View()), batch, i)
    {
      results := [];
      for i := 0 to |batch|
        invariant View() == Run(ctx, old(View()), batch[..i])
        invariant |results| == i
        invariant forall j | 0 <= j < i :: results[j] == ReplyAt(ctx, old(View()), batch, j)
      {
        assert batch[..i + 1][..i] == batch[..i];
        var r := ApplyChange(batch[i]);
        results := results + [r];
      }
      assert batch[..|batch|] == batch;
    }

    method ApplyChange(a: Arrival) returns (r: Reply)
      modifies this
      ensures (View(), r) == ApplyOne(ctx, old(View()), a)
    {
      if a.change.uuid.None? { return Reply(Rejected("invalid client_change_id"), false); }
      if a.logRead && Key(a) in pushLog {
        var prior := pushLog[Key(a)];
        return Reply(Outcome(prior.status, prior.serverId, ""), true);
      }
      var o := DispatchChange(a);
      if a.logged && Key(a) !in pushLog { pushLog := pushLog[Key(a) := PushRow(o.status, o.serverId)]; }
      return Reply(o, false);
    }

    method DispatchChange(a: Arrival) returns (o: Outcome)
      modifies this`activities, this`orders, this`changes
      ensures (View(), o) == Dispatch(ctx, old(View()), a)
    {
      var ch := a.change;
      if ch.entity in READ_ONLY { return Rejected("entity is read-only on device"); }
      if ch.entity == "activity" {
        o := PushActivity(a);
      } else if ch.entity == "order" {
        o := PushOrder(a);
      } else {
        o := Rejected("unsupported entity type");
      }
    }

    method PushActivity(a: Arrival) returns (o: Outcome)
      requires a.change.entity == "activity"
      modifies this`activities, this`changes
      ensures (View(), o) == Dispatch(ctx, old(View()), a)
    {
      if a.change.asActivity.None? { return Rejected("invalid activity payload"); }
      var p := a.change.asActivity.value;
      if p.id > 0 {
        if p.id > |activities| { return Rejected("activity not found"); }
        var act := activities[p.id - 1];
        if act.owner != Some(a.rep) { return Rejected("not your activity"); }
        if a.change.base.Some? && act.updatedAt > a.change.base.value {
          return Outcome("conflict", Some(p.id), "server record is newer");
        }
        if Def(p.status, act.status) !in STATUSES { return Rejected("update failed"); }
        activities := activities[p.id - 1 := act.(subject := Def(p.subject, act.subject), body := p.body,
                                                  status := Def(p.status, act.status), updatedAt := a.now)];
        changes := changes + [ChangeRow("activity", p.id, a.rep)];
        return Outcome("applied", Some(p.id), "");
      }
      if p.subject == "" || p.kind !in ACTIVITY_TYPES { return Rejected("type and subject are required"); }
      if p.customer.Some? && p.customer.value !in ctx.customers { return Rejected("create failed"); }
      if Def(p.status, "open") !in STATUSES { return Rejected("create failed"); }
      activities := activities + [Activity(p.kind, p.subject, p.body, Def(p.status, "open"), p.customer, Some(a.rep), a.now)];
      changes := changes + [ChangeRow("activity", |activities|, a.rep)];
      return Outcome("applied", Some(|activities|), "");
    }

    /** applyOrder: maps and prices the lines, then inserts order and items in one transaction. */
    method PushOrder(a: Arrival) returns (o: Outcome)
      requires a.change.entity == "order"
      modifies this`orders, this`changes
      ensures (View(), o) == Dispatch(ctx, old(View()), a)
    {
      hide M.LineTotal, M.Parse, M.Format, Insertable, Three, PoNumber, KnownSkus, ItemsOf, RowTotals;
      if a.change.asOrder.None? { return Rejected("invalid order payload"); }
      var p := a.change.asOrder.value;
      if p.id > 0 { return Rejected("offline order edits are not supported"); }
      if p.customer == 0 || p.lines == [] { return Rejected("customer_id and at least one line required"); }
      var known, mapped, totals := MapLines(p.lines);
      if !known { return Rejected("unknown SKU"); }
      var sum := M.SumText(totals);
      var subtotal := if sum.Some? then sum.value else "0";
      if !Insertable(ctx, p) { return Rejected("could not create order"); }
      orders := orders + [Order(p.customer, a.rep, Three(Def(p.currency, "USD")), PoNumber(a.change.clientId), subtotal, mapped)];
      changes := changes + [ChangeRow("order", |orders|, a.rep)];
      return Outcome("applied", Some(|orders|), "");
    }

    /** The lines mapped to products and priced, up to the first unknown one. */
    method MapLines(lines: seq<LineFields>) returns (known: bool, mapped: seq<OrderItem>, totals: seq<string>)
      ensures known <==> KnownSkus(ctx, lines)
      ensures known ==> mapped == ItemsOf(lines) && totals == RowTotals(ItemsOf(lines))
    {
      hide M.LineTotal, M.Parse, M.Format;
      mapped, totals := [], [];
      for i := 0 to |lines|
        invariant KnownSkus(ctx, lines[..i])
        invariant mapped == ItemsOf(lines)[..i]
        invariant totals == RowTotals(ItemsOf(lines))[..i]
      {
        if lines[i].sku !in ctx.skus { return false, mapped, totals; }
        var item := ItemOf(lines[i]);
        totals := totals + [item.rowTotal];
        mapped := mapped + [item];
      }
      known := true;
      assert lines[..|lines|] == lines;
    }
  }

  // ---- exactly once -------------------------------------------------------

  predicate Repeat(arrivals: seq<Arrival>, i: nat)
    requires i < |arrivals|
  {
    arrivals[i].change.uuid.Some? &&
    exists j | 0 <= j < i :: arrivals[j].change.uuid.Some? && Key(arrivals[j]) == Key(arrivals[i])
  }

  /** The arrivals that are the first with their device and change id. */
  function FirstOccurrences(arrivals: seq<Arrival>): seq<Arrival> {
    if arrivals == [] then []
    else
      var n := |arrivals| - 1;
      FirstOccurrences(arrivals[..n]) + if Repeat(arrivals, n) then [] else [arrivals[n]]
  }

  /** The log row of every first occurrence is written, and every repeat can read the log. */
  predicate FirstsLogged(arrivals: seq<Arrival>) {
    forall i | 0 <= i < |arrivals| && arrivals[i].change.uuid.Some? ::
      if Repeat(arrivals, i) then arrivals[i].logRead else arrivals[i].logged
  }

  lemma {:induction false} FirstsLoggedPrefix(arrivals: seq<Arrival>)
    requires arrivals != [] && FirstsLogged(arrivals)
    ensures FirstsLogged(arrivals[..|arrivals| - 1])
  {
    forall i | 0 <= i < |arrivals| - 1 ensures Repeat(arrivals[..|arrivals| - 1], i) <==> Repeat(arrivals, i) {
      RepeatPrefix(arrivals, i);
    }
    hide Repeat;
  }

  lemma {:induction false} RepeatPrefix(arrivals: seq<Arrival>, i: nat)
    requires i < |arrivals| - 1
    ensures Repeat(arrivals[..|arrivals| - 1], i) <==> Repeat(arrivals, i)
  {
    var front := arrivals[..|arrivals| - 1];
    assert forall j | 0 <= j <= i :: front[j] == arrivals[j];
  }

  /** A row once in the log stays as it is, and a logged arrival's is there afterwards. */
  lemma {:induction false} StepLogs(ctx: Context, s: State, a: Arrival)
    ensures forall k | k in s.pushLog :: k in ApplyOne(ctx, s, a).0.pushLog && ApplyOne(ctx, s, a).0.pushLog[k] == s.pushLog[k]
    ensures a.change.uuid.Some? && a.logged ==> Key(a) in ApplyOne(ctx, s, a).0.pushLog
  {
    DispatchKeepsLog(ctx, s, a);
    hide Dispatch;
  }

  lemma {:induction false} SeenIsLogged(ctx: Context, s: State, arrivals: seq<Arrival>, i: nat)
    requires i < |arrivals| && arrivals[i].change.uuid.Some? && FirstsLogged(arrivals)
    ensures Key(arrivals[i]) in Run(ctx, s, arrivals).pushLog
  {
    hide ApplyOne;
    var n := |arrivals| - 1;
    FirstsLoggedPrefix(arrivals);
    StepLogs(ctx, Run(ctx, s, arrivals[..n]), arrivals[n]);
    if i < n {
      SeenIsLogged(ctx, s, arrivals[..n], i);
    } else if Repeat(arrivals, n) {
      var j :| 0 <= j < n && arrivals[j].change.uuid.Some? && Key(arrivals[j]) == Key(arrivals[n]);
      SeenIsLogged(ctx, s, arrivals[..n], j);
    }
  }

  lemma {:induction false} DispatchKeepsLog(ctx: Context, s: State, a: Arrival)
    ensures Dispatch(ctx, s, a).0.pushLog == s.pushLog
  {
  }

  /** As long as first occurrences are logged and repeats can read the log, repeats, in any order and from any retry, change nothing: orders,
      activities, change log and push log are those of the first occurrences alone. */
  lemma {:induction false} ExactlyOnce(ctx: Context, s: State, arrivals: seq<Arrival>)
    requires FirstsLogged(arrivals)
    ensures Run(ctx, s, arrivals) == Run(ctx, s, FirstOccurrences(arrivals))
  {
    if arrivals != [] {
      var n := |arrivals| - 1;
      FirstsLoggedPrefix(arrivals);
      ExactlyOnce(ctx, s, arrivals[..n]);
      if Repeat(arrivals, n) {
        var j :| 0 <= j < n && arrivals[j].change.uuid.Some? && Key(arrivals[j]) == Key(arrivals[n]);
        SeenIsLogged(ctx, s, arrivals[..n], j);
        assert FirstOccurrences(arrivals) == FirstOccurrences(arrivals[..n]);
      } else {
        var firsts := FirstOccurrences(arrivals[..n]);
        assert (firsts + [arrivals[n]])[..|firsts|] == firsts;
      }
    }
  }

  lemma {:induction false} LoggedStays(ctx: Context, s: State, arrivals: seq<Arrival>, key: LogKey)
    requires key in s.pushLog
    ensures key in Run(ctx, s, arrivals).pushLog && Run(ctx, s, arrivals).pushLog[key] == s.pushLog[key]
  {
    hide Dispatch;
    if arrivals != [] {
      var n := |arrivals| - 1;
      LoggedStays(ctx, s, arrivals[..n], key);
      DispatchKeepsLog(ctx, Run(ctx, s, arrivals[..n]), arrivals[n]);
    }
  }

  lemma {:induction false} RunSplit(ctx: Context, s: State, a: seq<Arrival>, b: seq<Arrival>)
    ensures Run(ctx, s, a + b) == Run(ctx, Run(ctx, s, a), b)
  {
    if b == [] {
      assert a + b == a;
    } else {
      var n := |b| - 1;
      assert (a + b)[..|a + b| - 1] == a + b[..n];
      RunSplit(ctx, s, a, b[..n]);
    }
  }

  /** Once an arrival has written its row or was answered from it, every later one with the same device and change id that
      can read the log is answered with its status and server id. */
  lemma {:induction false} ReplaysAgree(ctx: Context, s: State, arrivals: seq<Arrival>, i: nat, j: nat)
    requires i < j < |arrivals|
    requires arrivals[i].change.uuid.Some? && arrivals[j].change.uuid.Some? && Key(arrivals[i]) == Key(arrivals[j])
    requires arrivals[j].logRead
    requires if Key(arrivals[i]) in Run(ctx, s, arrivals[..i]).pushLog then arrivals[i].logRead else arrivals[i].logged
    ensures var first, later := ReplyAt(ctx, s, arrivals, i), ReplyAt(ctx, s, arrivals, j);
            later.replayed && later.outcome.status == first.outcome.status &&
            later.outcome.serverId == first.outcome.serverId
  {
    hide Dispatch;
    var upTo := arrivals[..i + 1];
    assert upTo[..i] == arrivals[..i];
    DispatchKeepsLog(ctx, Run(ctx, s, arrivals[..i]), arrivals[i]);
    assert arrivals[..j] == upTo + arrivals[i + 1..j];
    RunSplit(ctx, s, upTo, arrivals[i + 1..j]);
    LoggedStays(ctx, Run(ctx, s, upTo), arrivals[i + 1..j], Key(arrivals[i]));
  }

  // ---- retries ------------------------------------------------------------

  /** The records a push writes, without its own log. */
  predicate SameRecords(s: State, t: State) { s.activities == t.activities && s.orders == t.orders && s.changes == t.changes }

  /** An edit whose base is older than the time it is applied at. */
  predicate StaleOnceApplied(a: Arrival) {
    a.change.entity == "activity" && a.change.asActivity.Some? && a.change.asActivity.value.id > 0 &&
    a.change.base.Some? && a.change.base.value < a.now
  }

  /** The same change from the same device again, at whatever later time. */
  predicate RetryOf(a: Arrival, b: Arrival) { b.change == a.change && b.device == a.device && b.rep == a.rep }

  lemma {:induction false} RefusedAgain(ctx: Context, s: State, a: Arrival, b: Arrival)
    requires RetryOf(a, b) && Dispatch(ctx, s, a).1.status != "applied"
    ensures Dispatch(ctx, s, a).0 == s && Dispatch(ctx, s, b).0 == s
  {
    hide Insertable, ItemsOf, Subtotal, PoNumber, KnownSkus, Three;
  }

  /** Whether an order is created does not depend on what is stored. */
  lemma {:induction false} OrderAgain(ctx: Context, s: State, a: Arrival, t: State, b: Arrival, p: OrderFields)
    ensures CreateOrder(ctx, s, a, p).1.status == "applied" ==>
              CreateOrder(ctx, t, b, p).1.status == "applied" && |CreateOrder(ctx, t, b, p).0.changes| == |t.changes| + 1 &&
              |CreateOrder(ctx, t, b, p).0.orders| == |t.orders| + 1
  {
    hide Insertable, ItemsOf, Subtotal, PoNumber, KnownSkus, Three;
  }

  lemma {:induction false} AppliedTwice(ctx: Context, s: State, a: Arrival, b: Arrival)
    requires RetryOf(a, b) && Dispatch(ctx, s, a).1.status == "applied"
    ensures var s1 := Dispatch(ctx, s, a).0; SameRecords(s1, Dispatch(ctx, s1, b).0) <==> StaleOnceApplied(a)
  {
    var s1 := Dispatch(ctx, s, a).0;
    if a.change.asOrder.Some? { OrderAgain(ctx, s, a, s1, b, a.change.asOrder.value); }
    hide CreateOrder;
    if a.change.entity != "activity" {
      assert a.change.entity == "order";
    } else {
      ActivityAgain(ctx, s, a, b, a.change.asActivity.value);
    }
  }

  lemma {:induction false} ActivityAgain(ctx: Context, s: State, a: Arrival, b: Arrival, p: ActivityFields)
    requires RetryOf(a, b) && a.change.entity == "activity" && a.change.asActivity == Some(p)
    requires Dispatch(ctx, s, a).1.status == "applied"
    ensures var s1 := Dispatch(ctx, s, a).0; SameRecords(s1, Dispatch(ctx, s1, b).0) <==> StaleOnceApplied(a)
  {
    hide CreateOrder, Insertable;
    var s1 := Dispatch(ctx, s, a).0;
    assert |s1.changes| == |s.changes| + 1;
    assert !StaleOnceApplied(a) ==> |Dispatch(ctx, s1, b).0.changes| == |s1.changes| + 1;
  }

  /** A retry leaves every record as after the first arrival exactly when the first one's log row was written and can be
      read, or the first was not applied, or it was an edit whose base its own application has outdated.  The source
      ignores an error of the write, and takes one of the read for a change not seen yet. */
  lemma {:induction false} RetryHarmlessIff(ctx: Context, s: State, a: Arrival, b: Arrival)
    requires a.change.uuid.Some? && Key(a) !in s.pushLog && RetryOf(a, b)
    ensures var s1 := ApplyOne(ctx, s, a).0;
            SameRecords(s1, ApplyOne(ctx, s1, b).0) <==>
            (a.logged && b.logRead) || Dispatch(ctx, s, a).1.status != "applied" || StaleOnceApplied(a)
  {
    hide Dispatch, StaleOnceApplied;
    var (t, o) := Dispatch(ctx, s, a);
    DispatchKeepsLog(ctx, s, a);
    DispatchIgnoresLog(ctx, t, Logged(t.pushLog, a, o), b);
    if o.status != "applied" { RefusedAgain(ctx, s, a, b); } else { AppliedTwice(ctx, s, a, b); }
  }

  /** What a change does to the records does not depend on the push log. */
  lemma {:induction false} DispatchIgnoresLog(ctx: Context, s: State, log: map<LogKey, PushRow>, a: Arrival)
    ensures SameRecords(Dispatch(ctx, s.(pushLog := log), a).0, Dispatch(ctx, s, a).0)
  {
    if a.change.asOrder.Some? { OrderIgnoresLog(ctx, s, log, a, a.change.asOrder.value); }
    hide CreateOrder;
  }

  lemma {:induction false} OrderIgnoresLog(ctx: Context, s: State, log: map<LogKey, PushRow>, a: Arrival, p: OrderFields)
    ensures SameRecords(CreateOrder(ctx, s.(pushLog := log), a, p).0, CreateOrder(ctx, s, a, p).0)
  {
    hide Insertable, ItemsOf, Subtotal, PoNumber, KnownSkus, Three;
  }

  // ---- a retry after other changes ----------------------------------------

  lemma {:induction false} AppliedShows(ctx: Context, s: State, a: Arrival)
    ensures if Dispatch(ctx, s, a).1.status == "applied" then |Dispatch(ctx, s, a).0.changes| == |s.changes| + 1
            else Dispatch(ctx, s, a).0 == s
  {
    hide Insertable, ItemsOf, Subtotal, PoNumber, KnownSkus, Three;
  }

  predicate Edits(a: Arrival) {
    a.change.entity == "activity" && a.change.asActivity.Some? && a.change.asActivity.value.id > 0
  }

  /** The edited activity is there, is the representative's, is not newer than the base, and gets a known status. */
  predicate EditApplies(s: State, a: Arrival)
    requires Edits(a)
  {
    var p := a.change.asActivity.value;
    p.id <= |s.activities| &&
    var act := s.activities[p.id - 1];
    act.owner == Some(a.rep) && !(a.change.base.Some? && act.updatedAt > a.change.base.value) && Def(p.status, act.status) in STATUSES
  }

  lemma {:induction false} AppliesWhen(ctx: Context, s: State, a: Arrival, t: State, b: Arrival)
    requires RetryOf(a, b)
    ensures Dispatch(ctx, t, b).1.status == "applied" <==>
            if Edits(b) then EditApplies(t, b) else Dispatch(ctx, s, a).1.status == "applied"
  {
    if a.change.asOrder.Some? {
      OrderAgain(ctx, s, a, t, b, a.change.asOrder.value);
      OrderAgain(ctx, t, b, s, a, a.change.asOrder.value);
    }
    hide CreateOrder;
  }

  predicate LogsKey(a: Arrival, key: LogKey) { a.change.uuid.Some? && Key(a) == key && a.logged }

  /** A change id is in the log exactly when it was before or some arrival has written it. */
  lemma {:induction false} InLogIff(ctx: Context, s: State, arrivals: seq<Arrival>, key: LogKey)
    ensures key in Run(ctx, s, arrivals).pushLog <==>
            key in s.pushLog || exists i | 0 <= i < |arrivals| :: LogsKey(arrivals[i], key)
  {
    hide Dispatch;
    if arrivals != [] {
      var n := |arrivals| - 1;
      InLogIff(ctx, s, arrivals[..n], key);
      DispatchKeepsLog(ctx, Run(ctx, s, arrivals[..n]), arrivals[n]);
      assert forall i | 0 <= i < n :: arrivals[..n][i] == arrivals[i];
      hide LogsKey, Run;
      assert (exists i | 0 <= i < |arrivals| :: LogsKey(arrivals[i], key)) <==>
             (exists i | 0 <= i < n :: LogsKey(arrivals[..n][i], key)) || LogsKey(arrivals[n], key);
      RunPush(ctx, s, arrivals);
      StepLogsIff(ctx, Run(ctx, s, arrivals[..n]), arrivals[n], key);
    } else {
      assert Run(ctx, s, arrivals) == s;
    }
  }

  lemma {:induction false} RunPush(ctx: Context, s: State, arrivals: seq<Arrival>)
    requires arrivals != []
    ensures Run(ctx, s, arrivals) == ApplyOne(ctx, Run(ctx, s, arrivals[..|arrivals| - 1]), arrivals[|arrivals| - 1]).0
  {
    hide ApplyOne;
  }

  lemma {:induction false} StepLogsIff(ctx: Context, s: State, a: Arrival, key: LogKey)
    ensures key in ApplyOne(ctx, s, a).0.pushLog <==> key in s.pushLog || LogsKey(a, key)
  {
    DispatchKeepsLog(ctx, s, a);
    hide Dispatch;
  }

  /** A retry that comes after any other changes leaves every record as it finds it exactly when it can read a row that the
      first arrival, or another of the same id in between, has written; or when it does not apply: an edit depends on what
      it finds, anything else applies exactly when the first arrival did. */
  lemma {:induction false} RetryLaterIff(ctx: Context, s: State, a: Arrival, between: seq<Arrival>, b: Arrival)
    requires a.change.uuid.Some? && Key(a) !in s.pushLog && RetryOf(a, b)
    ensures var t := Run(ctx, ApplyOne(ctx, s, a).0, between);
            SameRecords(t, ApplyOne(ctx, t, b).0) <==>
            || (b.logRead && (a.logged || exists i | 0 <= i < |between| :: LogsKey(between[i], Key(a))))
            || !(if Edits(b) then EditApplies(t, b) else Dispatch(ctx, s, a).1.status == "applied")
  {
    var s1 := ApplyOne(ctx, s, a).0;
    var t := Run(ctx, s1, between);
    StepLogsIff(ctx, s, a, Key(a));
    InLogIff(ctx, s1, between, Key(a));
    AppliesWhen(ctx, s, a, t, b);
    AppliedShows(ctx, t, b);
    hide Dispatch, Run, EditApplies, Edits;
  }

  /** A retried order is created again when the write of its row, or the reading of it, was lost. */
  lemma {:induction false} LostLogWriteDuplicates(ctx: Context, s: State, a: Arrival, b: Arrival)
    requires a.change.uuid.Some? && Key(a) !in s.pushLog && RetryOf(a, b) && a.change.entity == "order" && !(a.logged && b.logRead)
    requires Dispatch(ctx, s, a).1.status == "applied"
    ensures var s1 := ApplyOne(ctx, s, a).0;
            |s1.orders| == |s.orders| + 1 && |ApplyOne(ctx, s1, b).0.orders| == |s.orders| + 2
  {
    var s1 := ApplyOne(ctx, s, a).0;
    OrderAgain(ctx, s, a, s, a, a.change.asOrder.value);
    OrderAgain(ctx, s, a, s1, b, a.change.asOrder.value);
    hide CreateOrder;
  }

  /** For instance a note: pushed, its row lost, pushed again - and there are two. */
  lemma {:induction false} NoteTwice()
    ensures var note := Change("c1", Some(1), "activity", Some(ActivityFields(0, "note", "hello", None, "", None)), None, None);
            var first, retry := Arrival(5, 7, note, 10, true, false), Arrival(5, 7, note, 11, true, true);
            |Run(Context({}, {}), State([], [], [], map[]), [first, retry]).activities| == 2
  {
    var ctx, s := Context({}, {}), State([], [], [], map[]);
    var note := Change("c1", Some(1), "activity", Some(ActivityFields(0, "note", "hello", None, "", None)), None, None);
    var first, retry := Arrival(5, 7, note, 10, true, false), Arrival(5, 7, note, 11, true, true);
    assert [first, retry][..1] == [first] && [first][..0] == [];
    assert Run(ctx, s, [first]) == ApplyOne(ctx, s, first).0;
    assert |Run(ctx, s, [first]).activities| == 1;
  }

  // ---- last write wins ----------------------------------------------------

  predicate IsEdit(a: Arrival, id: nat) {
    a.change.entity == "activity" && a.change.asActivity.Some? && 0 < id == a.change.asActivity.value.id
  }

  /** An edit of one's own activity meets one of three ends: a conflict exactly when it is based on an older copy than
      the server's, else a rejection exactly when its status is none the database knows, else it is applied.  Only an
      applied one changes a record, and then that activity alone. */
  lemma {:induction false} EditConflictsIff(ctx: Context, s: State, a: Arrival, id: nat)
    requires IsEdit(a, id) && id <= |s.activities| && s.activities[id - 1].owner == Some(a.rep)
    requires a.change.uuid.Some? && Key(a) !in s.pushLog
    ensures var (t, r) := ApplyOne(ctx, s, a);
            var newer := a.change.base.Some? && s.activities[id - 1].updatedAt > a.change.base.value;
            var known := Def(a.change.asActivity.value.status, s.activities[id - 1].status) in STATUSES;
            && (r.outcome.status == "conflict" <==> newer)
            && (r.outcome.status == "rejected" <==> !newer && !known)
            && (r.outcome.status == "applied" <==> !newer && known)
            && (r.outcome.status != "applied" ==> SameRecords(s, t))
            && (r.outcome.status == "applied" ==>
                t.orders == s.orders && |t.activities| == |s.activities| &&
                t.changes == s.changes + [ChangeRow("activity", id, a.rep)] &&
                t.activities[id - 1].updatedAt == a.now &&
                forall i | 0 <= i < |s.activities| && i != id - 1 :: t.activities[i] == s.activities[i])
  {
  }

  lemma {:induction false} NewerStays(ctx: Context, s: State, arrivals: seq<Arrival>, id: nat, base: int)
    requires 0 < id <= |s.activities| && s.activities[id - 1].updatedAt > base
    requires forall i | 0 <= i < |arrivals| :: arrivals[i].now > base
    ensures var t := Run(ctx, s, arrivals);
            |s.activities| <= |t.activities| && t.activities[id - 1].updatedAt > base &&
            t.activities[id - 1].owner == s.activities[id - 1].owner
  {
    hide Dispatch;
    if arrivals != [] {
      var n := |arrivals| - 1;
      NewerStays(ctx, s, arrivals[..n], id, base);
      StepKeepsActivity(ctx, Run(ctx, s, arrivals[..n]), arrivals[n], id);
    }
  }

  /** One change leaves an activity as it was or stamps it with its own time, and never changes its owner. */
  lemma {:induction false} StepKeepsActivity(ctx: Context, s: State, a: Arrival, id: nat)
    requires 0 < id <= |s.activities|
    ensures var t := Dispatch(ctx, s, a).0;
            |s.activities| <= |t.activities| && t.activities[id - 1].owner == s.activities[id - 1].owner &&
            (t.activities[id - 1] == s.activities[id - 1] || t.activities[id - 1].updatedAt == a.now)
  {
    OrdersKeepActivities(ctx, s, a);
    hide CreateOrder;
  }

  lemma {:induction false} OrdersKeepActivities(ctx: Context, s: State, a: Arrival)
    ensures a.change.asOrder.Some? ==> CreateOrder(ctx, s, a, a.change.asOrder.value).0.activities == s.activities
  {
    hide ItemsOf, Subtotal, PoNumber;
  }

  /** Of two edits made offline from the same base, at most one is applied, whatever arrives in between. */
  lemma {:induction false} SecondEditConflicts(ctx: Context, s: State, first: Arrival, between: seq<Arrival>, second: Arrival, id: nat)
    requires IsEdit(first, id) && IsEdit(second, id)
    requires second.change.uuid.Some? && second.change.base.Some?
    requires first.now > second.change.base.value
    requires forall i | 0 <= i < |between| :: between[i].now > second.change.base.value
    requires first.change.uuid.Some? && Key(first) !in s.pushLog && ApplyOne(ctx, s, first).1.outcome.status == "applied"
    requires second.rep == first.rep
    requires Key(second) !in Run(ctx, ApplyOne(ctx, s, first).0, between).pushLog
    ensures ApplyOne(ctx, Run(ctx, ApplyOne(ctx, s, first).0, between), second).1.outcome.status == "conflict"
  {
    AppliedEdit(ctx, s, first, id);
    hide Dispatch;
    var mid := ApplyOne(ctx, s, first).0;
    NewerStays(ctx, mid, between, id, second.change.base.value);
    EditConflictsIff(ctx, Run(ctx, mid, between), second, id);
  }

  lemma {:induction false} AppliedEdit(ctx: Context, s: State, a: Arrival, id: nat)
    requires IsEdit(a, id) && a.change.uuid.Some? && Key(a) !in s.pushLog
    requires ApplyOne(ctx, s, a).1.outcome.status == "applied"
    ensures var t := ApplyOne(ctx, s, a).0;
            id <= |t.activities| && t.activities[id - 1].owner == Some(a.rep) && t.activities[id - 1].updatedAt == a.now
  {
  }
}
