/** Plan features and usage quotas (internal/billing/gate.go and the meter of internal/billing/billing.go). */
module Gate {
  import opened Prelude

  const POST := "POST"
  const ORDERS := "orders"
  const AI_CALLS := "ai_calls"
  const STORAGE := "storage_bytes"

  /** What one route enforces: a feature, a metered metric, or both; bytes meters by content length. */
  datatype Rule = Rule(feature: string, metric: string, bytes: bool)

  /** An organization's plan; no plan row means unmetered. */
  datatype Plan = Plan(features: set<string>, limits: map<string, int>)

  predicate HasPrefix(s: string, p: string) { p <= s }

  predicate HasSuffix(s: string, p: string) { |p| <= |s| && s[|s| - |p|..] == p }

  function RuleFor(verb: string, path: string): Option<Rule> {
    var post := verb == POST;
    if post && (path == "/admin/assistant" || path == "/storefront/assistant") then Some(Rule("assistant", AI_CALLS, false))
    else if post && (path == "/admin/orders" || path == "/storefront/orders") then Some(Rule("", ORDERS, false))
    else if post && HasPrefix(path, "/storefront/quotes/") && HasSuffix(path, "/accept") then Some(Rule("", ORDERS, false))
    else if post && path == "/admin/media" then Some(Rule("", STORAGE, true))
    else if HasPrefix(path, "/admin/subscriptions") || HasPrefix(path, "/storefront/subscriptions") then
      Some(Rule("subscriptions", "", false))
    else if HasPrefix(path, "/admin/rebates") || HasPrefix(path, "/storefront/rebates") then Some(Rule("rebates", "", false))
    else if HasPrefix(path, "/admin/fx-rates") then Some(Rule("fx", "", false))
    else if HasPrefix(path, "/admin/search-synonyms") || HasPrefix(path, "/admin/search-redirects") ||
            HasPrefix(path, "/admin/merchandising-rules") then Some(Rule("merchandising", "", false))
    else None
  }

  function Allows(plan: Option<Plan>, feature: string): bool { plan.None? || feature in plan.value.features }

  function Limit(plan: Option<Plan>, metric: string): Option<int> {
    if plan.Some? && metric in plan.value.limits then Some(plan.value.limits[metric]) else None
  }

  /** A metric's counter is monthly, except storage, whose counter never rolls over. */
  datatype Period = Lifetime | Month(index: int)

  function PeriodFor(metric: string, month: int): Period { if metric == STORAGE then Lifetime else Month(month) }

  datatype Counter = Counter(org: int, metric: string, period: Period)

  /** An admitted request between its quota check and its recording. */
  datatype Flight = Flight(org: int, metric: string, amount: int)

  datatype State = State(usage: map<Counter, int>, month: int, inFlight: seq<Flight>)

  function Usage(s: State, c: Counter): int { if c in s.usage then s.usage[c] else 0 }

  function CounterNow(s: State, org: int, metric: string): Counter { Counter(org, metric, PeriodFor(metric, s.month)) }

  /** Over: would adding n pass the cap?  A read of the counter that fails counts as no usage. */
  predicate Over(s: State, plan: Option<Plan>, org: int, metric: string, n: int, readFails: bool) {
    match Limit(plan, metric)
    case None => false
    case Some(cap) => (if readFails then 0 else Usage(s, CounterNow(s, org, metric))) + n > cap
  }

  function RecordUsage(s: State, org: int, metric: string, n: int): State {
    if org == 0 || n == 0 then s
    else s.(usage := s.usage[CounterNow(s, org, metric) := Usage(s, CounterNow(s, org, metric)) + n])
  }

  datatype Outcome = Served | NotInPlan | QuotaExceeded

  datatype Request = Request(org: int, verb: string, path: string, contentLength: int)

  function Amount(rule: Rule, r: Request): nat {
    if rule.bytes then if r.contentLength < 0 then 0 else r.contentLength else 1
  }

  /** The gate before the handler runs: the outcome, and the flight a metered request becomes. */
  function Check(s: State, plan: Option<Plan>, r: Request, readFails: bool): (Outcome, Option<Flight>) {
    match RuleFor(r.verb, r.path)
    case None => (Served, None)
    case Some(rule) =>
      if rule.feature != "" && !Allows(plan, rule.feature) then (NotInPlan, None)
      else if rule.metric == "" then (Served, None)
      else if Over(s, plan, r.org, rule.metric, Amount(rule, r), readFails) then (QuotaExceeded, None)
      else (Served, Some(Flight(r.org, rule.metric, Amount(rule, r))))
  }

  function Without(fs: seq<Flight>, i: nat): seq<Flight>
    requires i < |fs|
  {
    fs[..i] + fs[i + 1..]
  }

  datatype Action =
    | Begin(plan: Option<Plan>, request: Request, readFails: bool)
    | End(flight: nat, status: int, stored: bool)
    | NextMonth

  function Step(s: State, a: Action): State {
    match a
    case Begin(plan, r, readFails) =>
      (match Check(s, plan, r, readFails).1 case Some(f) => s.(inFlight := s.inFlight + [f]) case None => s)
    case End(i, status, stored) =>
      if i >= |s.inFlight| then s
      else
        var f := s.inFlight[i];
        var t := s.(inFlight := Without(s.inFlight, i));
        if status < 300 && stored then RecordUsage(t, f.org, f.metric, f.amount) else t
    case NextMonth => s.(month := s.month + 1)
  }

  function Run(month: int, actions: seq<Action>): State {
    if actions == [] then State(map[], month, []) else Step(Run(month, actions[..|actions| - 1]), actions[|actions| - 1])
  }

  // ---- the middleware -----------------------------------------------------

  class Meter {
    var usage: map<Counter, int>
    var month: int
    var inFlight: seq<Flight>

    function View(): State
      reads this
    {
      State(usage, month, inFlight)
    }

    constructor (month: int)
      ensures View() == State(map[], month, [])
    {
      usage, inFlight := map[], [];
      this.month := month;
    }

    /** The gate up to the handler: feature, then quota. */
    method BeginRequest(plan: Option<Plan>, r: Request, readFails: bool) returns (o: Outcome)
      modifies this`inFlight
      ensures View() == Step(old(View()), Begin(plan, r, readFails)) && o == Check(old(View()), plan, r, readFails).0
    {
      hide RuleFor;
      var ru := RuleFor(r.verb, r.path);
      if ru.None? { return Served; }
      if ru.value.feature != "" && !Allows(plan, ru.value.feature) { return NotInPlan; }
      if ru.value.metric == "" { return Served; }
      var n := 1;
      if ru.value.bytes {
        n := r.contentLength;
        if n < 0 { n := 0; }
      }
      var limit := Limit(plan, ru.value.metric);
      if limit.Some? {
        var key := Counter(r.org, ru.value.metric, PeriodFor(ru.value.metric, month));
        var current := if key in usage && !readFails then usage[key] else 0;
        if current + n > limit.value { return QuotaExceeded; }
      }
      inFlight := inFlight + [Flight(r.org, ru.value.metric, n)];
      return Served;
    }

    /** After the handler: consumption is recorded only for a success, and recording is best effort. */
    method EndRequest(i: nat, status: int, stored: bool)
      requires i < |inFlight|
      modifies this`inFlight, this`usage
      ensures View() == Step(old(View()), End(i, status, stored))
    {
      var f := inFlight[i];
      inFlight := inFlight[..i] + inFlight[i + 1..];
      if status < 300 && stored && f.org != 0 && f.amount != 0 {
        var key := Counter(f.org, f.metric, PeriodFor(f.metric, month));
        usage := usage[key := (if key in usage then usage[key] else 0) + f.amount];
      }
    }
  }

  // ---- the route table ----------------------------------------------------

  /** The conditions of the table, in its order. */
  function Cases(verb: string, path: string): (r: seq<bool>)
    ensures |r| == 8
  {
    var post := verb == POST;
    [post && (path == "/admin/assistant" || path == "/storefront/assistant"),
     post && (path == "/admin/orders" || path == "/storefront/orders"),
     post && HasPrefix(path, "/storefront/quotes/") && HasSuffix(path, "/accept"),
     post && path == "/admin/media",
     HasPrefix(path, "/admin/subscriptions") || HasPrefix(path, "/storefront/subscriptions"),
     HasPrefix(path, "/admin/rebates") || HasPrefix(path, "/storefront/rebates"),
     HasPrefix(path, "/admin/fx-rates"),
     HasPrefix(path, "/admin/search-synonyms") || HasPrefix(path, "/admin/search-redirects") ||
     HasPrefix(path, "/admin/merchandising-rules")]
  }

  const RULES: seq<Rule> := [
    Rule("assistant", AI_CALLS, false), Rule("", ORDERS, false), Rule("", ORDERS, false), Rule("", STORAGE, true),
    Rule("subscriptions", "", false), Rule("rebates", "", false), Rule("fx", "", false), Rule("merchandising", "", false)]

  /** The first three characters after the area of the path, which tell the cases apart. */
  function Tag(path: string): string {
    if |path| >= 10 && path[1] == 'a' then path[7..10] else if |path| >= 15 then path[12..15] else ""
  }

  lemma {:induction false} CaseTags(verb: string, path: string)
    ensures var c := Cases(verb, path);
            && (c[0] ==> Tag(path) == "ass") && (c[1] ==> Tag(path) == "ord") && (c[2] ==> Tag(path) == "quo")
            && (c[3] ==> Tag(path) == "med") && (c[4] ==> Tag(path) == "sub") && (c[5] ==> Tag(path) == "reb")
            && (c[6] ==> Tag(path) == "fx-") && (c[7] ==> Tag(path) == "sea" || Tag(path) == "mer")
  {
    ExactTags(path);
    PlainTags(path);
    SearchTags(path);
    assert HasPrefix(path, path);
    hide Tag, HasPrefix, HasSuffix;
  }

  lemma {:induction false} ExactTags(path: string)
    ensures HasPrefix(path, "/admin/assistant") || HasPrefix(path, "/storefront/assistant") ==> Tag(path) == "ass"
    ensures HasPrefix(path, "/admin/orders") || HasPrefix(path, "/storefront/orders") ==> Tag(path) == "ord"
    ensures HasPrefix(path, "/storefront/quotes/") ==> Tag(path) == "quo"
    ensures HasPrefix(path, "/admin/media") ==> Tag(path) == "med"
  {
    hide Tag, HasPrefix;
    TagFrom(path, "/admin/assistant", 7, "ass");
    TagFrom(path, "/storefront/assistant", 12, "ass");
    TagFrom(path, "/admin/orders", 7, "ord");
    TagFrom(path, "/storefront/orders", 12, "ord");
    TagFrom(path, "/storefront/quotes/", 12, "quo");
    TagFrom(path, "/admin/media", 7, "med");
  }

  lemma {:induction false} PlainTags(path: string)
    ensures HasPrefix(path, "/admin/subscriptions") || HasPrefix(path, "/storefront/subscriptions") ==> Tag(path) == "sub"
    ensures HasPrefix(path, "/admin/rebates") || HasPrefix(path, "/storefront/rebates") ==> Tag(path) == "reb"
    ensures HasPrefix(path, "/admin/fx-rates") ==> Tag(path) == "fx-"
  {
    hide Tag, HasPrefix;
    TagFrom(path, "/admin/subscriptions", 7, "sub");
    TagFrom(path, "/storefront/subscriptions", 12, "sub");
    TagFrom(path, "/admin/rebates", 7, "reb");
    TagFrom(path, "/storefront/rebates", 12, "reb");
    TagFrom(path, "/admin/fx-rates", 7, "fx-");
  }

  lemma {:induction false} SearchTags(path: string)
    ensures HasPrefix(path, "/admin/search-synonyms") || HasPrefix(path, "/admin/search-redirects") ==> Tag(path) == "sea"
    ensures HasPrefix(path, "/admin/merchandising-rules") ==> Tag(path) == "mer"
  {
    hide Tag, HasPrefix;
    TagFrom(path, "/admin/search-synonyms", 7, "sea");
    TagFrom(path, "/admin/search-redirects", 7, "sea");
    TagFrom(path, "/admin/merchandising-rules", 7, "mer");
  }

  /** A path that begins with p has the tag that p shows at its slot. */
  lemma {:induction false} TagFrom(path: string, p: string, slot: nat, tag: string)
    requires |tag| == 3 && slot + 3 <= |p|
    requires slot == (if p[1] == 'a' then 7 else 12)
    requires p[slot] == tag[0] && p[slot + 1] == tag[1] && p[slot + 2] == tag[2]
    ensures HasPrefix(path, p) ==> Tag(path) == tag
  {
    if HasPrefix(path, p) {
      assert path[1] == p[1];
      assert path[slot..slot + 3] == tag;
    }
  }

  /** No route is shadowed: the table's conditions exclude one another, so each request gets the rule of whichever
      condition holds, in whatever order they are tried, and none exactly when no condition holds. */
  lemma {:induction false} RouteTable(verb: string, path: string, i: nat)
    requires i < 8
    ensures Cases(verb, path)[i] ==> RuleFor(verb, path) == Some(RULES[i])
    ensures RuleFor(verb, path).None? ==> !Cases(verb, path)[i]
    ensures Cases(verb, path)[i] ==> forall j | 0 <= j < 8 && j != i :: !Cases(verb, path)[j]
  {
    CaseTags(verb, path);
    var c := Cases(verb, path);
    TagsDiffer();
    assert i == 0 || i == 1 || i == 2 || i == 3 || i == 4 || i == 5 || i == 6 || i == 7;
    hide Tag, HasPrefix, HasSuffix;
    if c[i] {
      forall j | 0 <= j < 8 && j != i ensures !c[j] {
        assert j == 0 || j == 1 || j == 2 || j == 3 || j == 4 || j == 5 || j == 6 || j == 7;
      }
    }
  }

  lemma {:induction false} TagsDiffer()
    ensures var tags := ["ass", "ord", "quo", "med", "sub", "reb", "fx-", "sea", "mer"];
            forall i, j | 0 <= i < j < 9 :: tags[i] != tags[j]
  {
    assert "ass"[0] == 'a' && "ord"[0] == 'o' && "quo"[0] == 'q' && "med"[0] == 'm' && "med"[2] == 'd';
    assert "sub"[0] == 's' && "sub"[1] == 'u' && "reb"[0] == 'r' && "fx-"[0] == 'f';
    assert "sea"[0] == 's' && "sea"[1] == 'e' && "mer"[0] == 'm' && "mer"[2] == 'r';
  }

  // ---- what a request meets -----------------------------------------------

  /** What a metered request adds: one, or for an upload the length it announces, nothing when it announces none. */
  function Adds(i: nat, r: Request): int { if i != 3 then 1 else if r.contentLength < 0 then 0 else r.contentLength }

  /** The counter's value as the check sees it. */
  function Seen(s: State, org: int, metric: string, readFails: bool): int {
    var c := Counter(org, metric, if metric == STORAGE then Lifetime else Month(s.month));
    if readFails || c !in s.usage then 0 else s.usage[c]
  }

  /** A request of the i-th route is refused for its plan exactly when there is a plan that lacks the route's feature; else
      for its quota exactly when the plan caps the route's metric and what is seen of it with what the request adds passes
      the cap; else it is served, and is under way with its amount if the route is metered. */
  lemma {:induction false} OutcomeIff(s: State, plan: Option<Plan>, r: Request, readFails: bool, i: nat)
    requires i < 8 && Cases(r.verb, r.path)[i]
    ensures var (o, f) := Check(s, plan, r, readFails);
            var feature, metric := RULES[i].feature, RULES[i].metric;
            var lacks := plan.Some? && feature != "" && feature !in plan.value.features;
            var full := plan.Some? && metric != "" && metric in plan.value.limits &&
                        Seen(s, r.org, metric, readFails) + Adds(i, r) > plan.value.limits[metric];
            && (o.NotInPlan? <==> lacks) && (o.QuotaExceeded? <==> !lacks && full)
            && f == (if lacks || full || metric == "" then None else Some(Flight(r.org, metric, Adds(i, r))))
  {
    RouteTable(r.verb, r.path, i);
    UploadsByLength(i);
    hide RuleFor, Cases, RULES;
  }

  lemma {:induction false} UploadsByLength(i: nat)
    requires i < 8
    ensures RULES[i].bytes <==> i == 3
  {
    assert i == 0 || i == 1 || i == 2 || i == 3 || i == 4 || i == 5 || i == 6 || i == 7;
  }

  /** Any other request is served and not metered. */
  lemma {:induction false} OtherServed(s: State, plan: Option<Plan>, r: Request, readFails: bool)
    requires forall i | 0 <= i < 8 :: !Cases(r.verb, r.path)[i]
    ensures Check(s, plan, r, readFails) == (Served, None)
  {
    var c := Cases(r.verb, r.path);
    assert !c[0] && !c[1] && !c[2] && !c[3] && !c[4] && !c[5] && !c[6] && !c[7];
    hide HasPrefix, HasSuffix;
  }

  /** A request that ends well and is recorded raises the current counter of its organisation and metric by its amount, and
      no other; any other end leaves usage as it is.  It is under way no longer. */
  lemma {:induction false} EndEffect(s: State, i: nat, status: int, stored: bool)
    requires i < |s.inFlight|
    ensures var t := Step(s, End(i, status, stored));
            var f := s.inFlight[i];
            var c := Counter(f.org, f.metric, if f.metric == STORAGE then Lifetime else Month(s.month));
            && t.month == s.month && t.inFlight == s.inFlight[..i] + s.inFlight[i + 1..]
            && t.usage == if status < 300 && stored && f.org != 0 && f.amount != 0
                          then s.usage[c := (if c in s.usage then s.usage[c] else 0) + f.amount] else s.usage
  {
  }

  // ---- the quota bound ----------------------------------------------------

  predicate Mine(f: Flight, org: int, metric: string) { f.org == org && f.metric == metric }

  function Pending(fs: seq<Flight>, org: int, metric: string): int {
    if fs == [] then 0
    else Pending(fs[..|fs| - 1], org, metric) + if Mine(fs[|fs| - 1], org, metric) then fs[|fs| - 1].amount else 0
  }

  function InFlightCount(fs: seq<Flight>, org: int, metric: string): nat {
    if fs == [] then 0
    else InFlightCount(fs[..|fs| - 1], org, metric) + if Mine(fs[|fs| - 1], org, metric) then 1 else 0
  }

  function Max(a: int, b: int): int { if a < b then b else a }

  /** The run's circumstances for one counter: a fixed cap, at most K of its requests in flight at once, none of
      them metering more than N. */
  ghost predicate Within(month: int, actions: seq<Action>, org: int, metric: string, cap: int, K: nat, N: nat) {
    && (forall i | 0 <= i < |actions| && actions[i].Begin? && actions[i].request.org == org ::
          Limit(actions[i].plan, metric) == Some(cap))
    && (forall i | 0 <= i <= |actions| :: Light(Run(month, actions[..i]), org, metric, K, N))
  }

  predicate Light(s: State, org: int, metric: string, K: nat, N: nat) {
    InFlightCount(s.inFlight, org, metric) <= K && forall j | 0 <= j < |s.inFlight| :: s.inFlight[j].amount <= N
  }

  /** The requests of the run metered on this counter whose read of it failed. */
  function Failures(actions: seq<Action>, org: int, metric: string): nat {
    if actions == [] then 0
    else
      Failures(actions[..|actions| - 1], org, metric) +
      if FailedRead(actions[|actions| - 1], org, metric) then 1 else 0
  }

  predicate FailedRead(a: Action, org: int, metric: string) {
    a.Begin? && a.readFails && a.request.org == org &&
    match RuleFor(a.request.verb, a.request.path) case Some(rule) => rule.metric == metric case None => false
  }

  function Bound(cap: int, K: nat, N: nat, failures: nat): int { Max(0, cap + (K - 1) * N) + failures * N }

  ghost predicate Bounded(s: State, org: int, metric: string, bound: int) {
    && (forall j | 0 <= j < |s.inFlight| :: 0 <= s.inFlight[j].amount)
    && (forall c | c in s.usage :: 0 <= s.usage[c])
    && (forall c | c in s.usage && c.org == org && c.metric == metric :: s.usage[c] <= bound)
    && (forall c | c in s.usage && c.period.Month? :: c.period.index <= s.month)
    && (forall c | c in s.usage && c.metric == STORAGE :: c.period == Lifetime)
    && (forall c | c in s.usage && c.metric != STORAGE :: c.period.Month?)
    && Usage(s, CounterNow(s, org, metric)) + Pending(s.inFlight, org, metric) <= bound
  }

  lemma {:induction false} PendingAppend(fs: seq<Flight>, f: Flight, org: int, metric: string)
    ensures Pending(fs + [f], org, metric) == Pending(fs, org, metric) + if Mine(f, org, metric) then f.amount else 0
    ensures InFlightCount(fs + [f], org, metric) == InFlightCount(fs, org, metric) + if Mine(f, org, metric) then 1 else 0
  {
    assert (fs + [f])[..|fs|] == fs;
  }

  lemma {:induction false} PendingConcat(a: seq<Flight>, b: seq<Flight>, org: int, metric: string)
    ensures Pending(a + b, org, metric) == Pending(a, org, metric) + Pending(b, org, metric)
  {
    if b == [] {
      assert a + b == a;
    } else {
      var n := |b| - 1;
      assert a + b == (a + b[..n]) + [b[n]];
      PendingAppend(a + b[..n], b[n], org, metric);
      PendingConcat(a, b[..n], org, metric);
    }
  }

  lemma {:induction false} PendingWithout(fs: seq<Flight>, i: nat, org: int, metric: string)
    requires i < |fs|
    ensures Pending(Without(fs, i), org, metric) ==
            Pending(fs, org, metric) - if Mine(fs[i], org, metric) then fs[i].amount else 0
  {
    SplitAt(fs, i);
    PendingConcat(fs[..i], fs[i + 1..], org, metric);
    PendingConcat(fs[..i] + [fs[i]], fs[i + 1..], org, metric);
    PendingAppend(fs[..i], fs[i], org, metric);
  }

  lemma {:induction false} PendingBounded(fs: seq<Flight>, org: int, metric: string, N: nat)
    requires forall j | 0 <= j < |fs| :: 0 <= fs[j].amount <= N
    ensures 0 <= Pending(fs, org, metric) <= InFlightCount(fs, org, metric) * N
  {
    if fs != [] {
      PendingBounded(fs[..|fs| - 1], org, metric, N);
    }
  }

  lemma {:induction false} OneMore(k: nat, n: int)
    requires 0 < k
    ensures (k - 1) * n + n == k * n
  {
  }

  lemma {:induction false} ProductMonotone(a: int, b: int, n: nat)
    requires a <= b
    ensures a * n <= b * n
  {
  }

  lemma {:induction false} BoundFacts(cap: int, K: nat, N: nat, failures: nat)
    ensures 0 <= Bound(cap, K, N, failures) && cap + (K - 1) * N <= Bound(cap, K, N, failures)
    ensures Bound(cap, K, N, failures + 1) == Bound(cap, K, N, failures) + N
  {
    ProductMonotone(0, failures, N);
    assert (failures + 1) * N == failures * N + N;
  }

  /** An admitted request: the cap leaves room for it beside what other requests hold, or the read failed and the bound
      moves by at least its amount. */
  lemma {:induction false} BeginFits(s: State, a: Action, org: int, metric: string, cap: int, held: int, bound: int, next: int)
    requires a.Begin? && (a.request.org == org ==> Limit(a.plan, metric) == Some(cap))
    requires Bounded(s, org, metric, bound) && bound <= next
    requires (Pending(s.inFlight, org, metric) <= held && cap + held <= next) || FailedRead(a, org, metric) ||
             InFlightCount(Step(s, a).inFlight, org, metric) == InFlightCount(s.inFlight, org, metric)
    requires FailedRead(a, org, metric) ==> forall j | 0 <= j < |Step(s, a).inFlight| :: bound + Step(s, a).inFlight[j].amount <= next
    ensures Bounded(Step(s, a), org, metric, next)
  {
    hide RuleFor;
    var t := Step(s, a);
    if t != s {
      var f := Check(s, a.plan, a.request, a.readFails).1.value;
      assert t.inFlight == s.inFlight + [f] && t.inFlight[|s.inFlight|] == f;
      PendingAppend(s.inFlight, f, org, metric);
    }
  }

  lemma {:induction false} BeginKeepsBounded(s: State, a: Action, org: int, metric: string, cap: int, K: nat, N: nat, failures: nat)
    requires a.Begin? && 0 < K
    requires a.request.org == org ==> Limit(a.plan, metric) == Some(cap)
    requires Bounded(s, org, metric, Bound(cap, K, N, failures))
    requires InFlightCount(Step(s, a).inFlight, org, metric) <= K
    requires forall j | 0 <= j < |s.inFlight| :: s.inFlight[j].amount <= N
    requires forall j | 0 <= j < |Step(s, a).inFlight| :: Step(s, a).inFlight[j].amount <= N
    ensures Bounded(Step(s, a), org, metric, Bound(cap, K, N, failures + if FailedRead(a, org, metric) then 1 else 0))
  {
    BoundFacts(cap, K, N, failures);
    var bound := Bound(cap, K, N, failures);
    var next := Bound(cap, K, N, failures + if FailedRead(a, org, metric) then 1 else 0);
    assert forall j | 0 <= j < |s.inFlight| :: 0 <= s.inFlight[j].amount;
    hide *;
    var held := (K - 1) * N;
    if !FailedRead(a, org, metric) && InFlightCount(Step(s, a).inFlight, org, metric) != InFlightCount(s.inFlight, org, metric) {
      BeginCounts(s, a, org, metric);
      PendingBounded(s.inFlight, org, metric, N);
      ProductMonotone(InFlightCount(s.inFlight, org, metric), K - 1, N);
    }
    BeginFits(s, a, org, metric, cap, held, bound, next);
  }

  lemma {:induction false} BeginCounts(s: State, a: Action, org: int, metric: string)
    requires a.Begin?
    ensures var before := InFlightCount(s.inFlight, org, metric);
            before <= InFlightCount(Step(s, a).inFlight, org, metric) <= before + 1
  {
    hide RuleFor;
    if Step(s, a) != s { PendingAppend(s.inFlight, Check(s, a.plan, a.request, a.readFails).1.value, org, metric); }
  }

  lemma {:induction false} EndKeepsBounded(s: State, i: nat, status: int, stored: bool, org: int, metric: string, bound: int)
    requires i < |s.inFlight| && Bounded(s, org, metric, bound)
    ensures Bounded(Step(s, End(i, status, stored)), org, metric, bound)
  {
    var f := s.inFlight[i];
    var t := s.(inFlight := Without(s.inFlight, i));
    PendingWithout(s.inFlight, i, org, metric);
    PendingNonNegative(t.inFlight, org, metric);
    assert Bounded(t, org, metric, bound);
  }

  lemma {:induction false} PendingNonNegative(fs: seq<Flight>, org: int, metric: string)
    requires forall j | 0 <= j < |fs| :: 0 <= fs[j].amount
    ensures 0 <= Pending(fs, org, metric)
  {
    if fs != [] { PendingNonNegative(fs[..|fs| - 1], org, metric); }
  }

  /** A month change only ever opens a fresh counter, whose headroom the requests still in flight already respect. */
  lemma {:induction false} MonthKeepsBounded(s: State, org: int, metric: string, bound: int)
    requires Bounded(s, org, metric, bound)
    ensures Bounded(s.(month := s.month + 1), org, metric, bound)
  {
    var t := s.(month := s.month + 1);
    if metric != STORAGE {
      assert CounterNow(t, org, metric) !in s.usage;
      assert 0 <= Usage(s, CounterNow(s, org, metric));
    }
  }

  /** With a fixed cap, at most K requests in flight and none metering more than N, no counter of any month ever
      passes cap + (K-1)*N by more than N for each read of usage that failed, even when requests straddle the month's
      end. */
  lemma {:induction false} UsageBounded(month: int, actions: seq<Action>, org: int, metric: string, cap: int, K: nat, N: nat)
    requires 0 < K && Within(month, actions, org, metric, cap, K, N)
    ensures Bounded(Run(month, actions), org, metric, Bound(cap, K, N, Failures(actions, org, metric)))
  {
    hide Bounded, Bound;
    if actions == [] {
      BoundFacts(cap, K, N, 0);
      StartBounded(month, org, metric, Bound(cap, K, N, 0));
    } else {
      var n := |actions| - 1;
      WithinPrefix(month, actions, org, metric, cap, K, N);
      UsageBounded(month, actions[..n], org, metric, cap, K, N);
      assert actions[..n + 1] == actions;
      assert Light(Run(month, actions[..n]), org, metric, K, N) && Light(Run(month, actions[..n + 1]), org, metric, K, N);
      assert Run(month, actions) == Step(Run(month, actions[..n]), actions[n]);
      assert Failures(actions, org, metric) ==
             Failures(actions[..n], org, metric) + if FailedRead(actions[n], org, metric) then 1 else 0;
      hide *;
      StepKeepsBounded(Run(month, actions[..n]), actions[n], org, metric, cap, K, N, Failures(actions[..n], org, metric));
    }
  }

  lemma {:induction false} StartBounded(month: int, org: int, metric: string, bound: int)
    requires 0 <= bound
    ensures Bounded(State(map[], month, []), org, metric, bound)
  {
  }

  lemma {:induction false} StepKeepsBounded(s: State, a: Action, org: int, metric: string, cap: int, K: nat, N: nat, failures: nat)
    requires 0 < K && (a.Begin? && a.request.org == org ==> Limit(a.plan, metric) == Some(cap))
    requires Light(s, org, metric, K, N) && Light(Step(s, a), org, metric, K, N)
    requires Bounded(s, org, metric, Bound(cap, K, N, failures))
    ensures Bounded(Step(s, a), org, metric, Bound(cap, K, N, failures + if FailedRead(a, org, metric) then 1 else 0))
  {
    hide Bounded, Bound, RuleFor, Check, InFlightCount;
    match a
    case Begin(plan, r, readFails) => BeginKeepsBounded(s, a, org, metric, cap, K, N, failures);
    case End(i, status, stored) =>
      if i < |s.inFlight| { EndKeepsBounded(s, i, status, stored, org, metric, Bound(cap, K, N, failures)); }
    case NextMonth => MonthKeepsBounded(s, org, metric, Bound(cap, K, N, failures));
  }

  lemma {:induction false} WithinPrefix(month: int, actions: seq<Action>, org: int, metric: string, cap: int, K: nat, N: nat)
    requires actions != [] && Within(month, actions, org, metric, cap, K, N)
    ensures Within(month, actions[..|actions| - 1], org, metric, cap, K, N)
  {
    var n := |actions| - 1;
    forall i | 0 <= i <= n
      ensures Light(Run(month, actions[..n][..i]), org, metric, K, N)
    {
      assert actions[..n][..i] == actions[..i];
    }
  }

  /** Requests served one at a time never take a counter past its cap, but for the reads that failed. */
  lemma {:induction false} SerialWithinCap(month: int, actions: seq<Action>, org: int, metric: string, cap: int, N: nat, c: Counter)
    requires Within(month, actions, org, metric, cap, 1, N) && c.org == org && c.metric == metric
    ensures Usage(Run(month, actions), c) <= Max(0, cap) + Failures(actions, org, metric) * N
  {
    UsageBounded(month, actions, org, metric, cap, 1, N);
    ProductMonotone(0, Failures(actions, org, metric), N);
  }

  /** However many requests begin and fail or go unrecorded, and whatever months pass, usage stays what it was: only a
      recorded success burns any. */
  lemma {:induction false} FailureBurnsNothing(month: int, actions: seq<Action>, more: seq<Action>)
    requires forall k | 0 <= k < |more| && more[k].End? :: 300 <= more[k].status || !more[k].stored
    ensures Run(month, actions + more).usage == Run(month, actions).usage
  {
    if more == [] {
      assert actions + more == actions;
    } else {
      var n := |more| - 1;
      assert (actions + more)[..|actions| + n] == actions + more[..n];
      FailureBurnsNothing(month, actions, more[..n]);
    }
  }

  // ---- the bound is reached -----------------------------------------------

  function Begins(plan: Option<Plan>, r: Request, k: nat, s: State): State {
    if k == 0 then s else Step(Begins(plan, r, k - 1, s), Begin(plan, r, false))
  }

  function Ends(k: nat, s: State): State {
    if k == 0 then s else Step(Ends(k - 1, s), End(0, 200, true))
  }

  /** Requests one after the other, each with a failing read of usage. */
  function Unread(plan: Option<Plan>, r: Request, k: nat, s: State): State {
    if k == 0 then s else Step(Step(Unread(plan, r, k - 1, s), Begin(plan, r, true)), End(0, 200, true))
  }

  /** K uploads of N bytes that start together one upload short of the cap all pass the check, and take the counter to
      cap + (K-1)*N: checking apart from recording costs exactly that much.  Each further upload whose read of usage
      fails adds another N. */
  lemma {:induction false} BoundReached(s: State, org: int, cap: int, K: nat, N: nat, failures: nat)
    requires s.inFlight == [] && org != 0 && 0 < N <= cap
    requires Usage(s, Counter(org, STORAGE, Lifetime)) == cap - N
    ensures var plan := Some(Plan({}, map[STORAGE := cap]));
            var r := Request(org, POST, "/admin/media", N);
            Usage(Unread(plan, r, failures, Ends(K, Begins(plan, r, K, s))), Counter(org, STORAGE, Lifetime)) ==
            cap - N + K * N + failures * N
  {
    var plan := Some(Plan({}, map[STORAGE := cap]));
    var r := Request(org, POST, "/admin/media", N);
    MediaRule();
    hide RuleFor;
    BeginsPile(plan, r, K, s);
    EndsPile(K, K, Begins(plan, r, K, s), Flight(org, STORAGE, N));
    UnreadPile(plan, r, cap, failures, Ends(K, Begins(plan, r, K, s)));
  }

  lemma {:induction false} UnreadPile(plan: Option<Plan>, r: Request, cap: int, k: nat, s: State)
    requires s.inFlight == [] && RuleFor(r.verb, r.path) == Some(Rule("", STORAGE, true)) && r.org != 0
    requires Limit(plan, STORAGE) == Some(cap) && 0 < r.contentLength <= cap
    ensures var t := Unread(plan, r, k, s);
            var c := Counter(r.org, STORAGE, Lifetime);
            t.inFlight == [] && Usage(t, c) == Usage(s, c) + k * r.contentLength
  {
    if k > 0 {
      assert Unread(plan, r, k, s) == Step(Step(Unread(plan, r, k - 1, s), Begin(plan, r, true)), End(0, 200, true));
      hide *;
      UnreadPile(plan, r, cap, k - 1, s);
      UnreadOnce(plan, r, cap, Unread(plan, r, k - 1, s));
      OneMore(k, r.contentLength);
    }
  }

  lemma {:induction false} UnreadOnce(plan: Option<Plan>, r: Request, cap: int, s: State)
    requires s.inFlight == [] && RuleFor(r.verb, r.path) == Some(Rule("", STORAGE, true)) && r.org != 0
    requires Limit(plan, STORAGE) == Some(cap) && 0 < r.contentLength <= cap
    ensures var t := Step(Step(s, Begin(plan, r, true)), End(0, 200, true));
            var c := Counter(r.org, STORAGE, Lifetime);
            t.inFlight == [] && Usage(t, c) == Usage(s, c) + r.contentLength
  {
    hide RuleFor;
    var f := Flight(r.org, STORAGE, r.contentLength);
    assert Step(s, Begin(plan, r, true)).inFlight == [f];
    assert Without([f], 0) == [];
  }

  lemma {:induction false} MediaRule()
    ensures RuleFor(POST, "/admin/media") == Some(Rule("", STORAGE, true))
  {
    var path := "/admin/media";
    assert path[1] == 'a';
  }

  lemma {:induction false} BeginsPile(plan: Option<Plan>, r: Request, k: nat, s: State)
    requires s.inFlight == [] && RuleFor(r.verb, r.path) == Some(Rule("", STORAGE, true)) && 0 <= r.contentLength
    requires !Over(s, plan, r.org, STORAGE, r.contentLength, false)
    ensures var t := Begins(plan, r, k, s);
            t.usage == s.usage && t.month == s.month && |t.inFlight| == k &&
            forall j | 0 <= j < k :: t.inFlight[j] == Flight(r.org, STORAGE, r.contentLength)
  {
    hide RuleFor;
    if k > 0 { BeginsPile(plan, r, k - 1, s); }
  }

  lemma {:induction false} EndsPile(k: nat, total: nat, s: State, f: Flight)
    requires k <= total == |s.inFlight| && f.org != 0 && f.amount != 0 && f.metric == STORAGE
    requires forall j | 0 <= j < total :: s.inFlight[j] == f
    ensures var t := Ends(k, s);
            var c := Counter(f.org, STORAGE, Lifetime);
            Usage(t, c) == Usage(s, c) + k * f.amount && |t.inFlight| == total - k &&
            forall j | 0 <= j < total - k :: t.inFlight[j] == f
  {
    if k > 0 {
      EndsPile(k - 1, total, s, f);
      assert k * f.amount == (k - 1) * f.amount + f.amount;
    }
  }
}
