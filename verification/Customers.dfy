/** The customer hierarchy (internal/modules/customers/handler.go, the ancestor query of customers.sql).  Customers are
    numbered by id in order of creation, and rows are never removed, only marked deleted. */
module Customers {
  import opened Prelude

  datatype Customer = Customer(org: int, parent: Option<nat>, deleted: bool)

  // ---- graphs of parent links ---------------------------------------------

  predicate Closed(links: seq<Option<nat>>) { forall i | 0 <= i < |links| && links[i].Some? :: links[i].value < |links| }

  /** Where n steps up lead, None when there are not that many. */
  function Up(links: seq<Option<nat>>, x: nat, n: nat): (r: Option<nat>)
    requires Closed(links) && x < |links|
    ensures r.Some? ==> r.value < |links|
    decreases n
  {
    if n == 0 then Some(x) else if links[x].None? then None else Up(links, links[x].value, n - 1)
  }

  ghost predicate Reaches(links: seq<Option<nat>>, x: nat, y: nat)
    requires Closed(links) && x < |links|
  {
    exists n: nat :: Up(links, x, n) == Some(y)
  }

  /** No customer is its own ancestor. */
  ghost predicate Acyclic(links: seq<Option<nat>>)
    requires Closed(links)
  {
    forall x, n: nat | 0 <= x < |links| && n > 0 :: Up(links, x, n) != Some(x)
  }

  /** Every walk up comes to an end. */
  ghost predicate WalksEnd(links: seq<Option<nat>>)
    requires Closed(links)
  {
    forall x | 0 <= x < |links| :: WalkEnds(links, x)
  }

  ghost predicate WalkEnds(links: seq<Option<nat>>, x: nat)
    requires Closed(links) && x < |links|
  {
    exists n: nat :: Up(links, x, n) == None
  }

  predicate Ranked(links: seq<Option<nat>>, rank: seq<nat>) {
    && |rank| == |links| && Closed(links)
    && forall i | 0 <= i < |links| && links[i].Some? :: rank[links[i].value] < rank[i]
  }

  ghost predicate Forest(links: seq<Option<nat>>) { exists rank :: Ranked(links, rank) }

  lemma {:induction false} UpLowers(links: seq<Option<nat>>, rank: seq<nat>, x: nat, n: nat)
    requires Ranked(links, rank) && x < |links|
    ensures Up(links, x, n).Some? ==> rank[Up(links, x, n).value] + n <= rank[x]
    decreases n
  {
    if n > 0 && links[x].Some? { UpLowers(links, rank, links[x].value, n - 1); }
  }

  /** In a forest nothing is its own ancestor and every walk ends. */
  lemma {:induction false} ForestWalks(links: seq<Option<nat>>)
    requires Forest(links)
    ensures Closed(links) && Acyclic(links) && WalksEnd(links)
  {
    var rank :| Ranked(links, rank);
    hide Up;
    forall x, n: nat | 0 <= x < |links| && n > 0 ensures Up(links, x, n) != Some(x) { UpLowers(links, rank, x, n); }
    forall x | 0 <= x < |links| ensures WalkEnds(links, x) {
      UpLowers(links, rank, x, rank[x] + 1);
      assert Up(links, x, rank[x] + 1) == None;
    }
  }

  function Height(links: seq<Option<nat>>, x: nat, n: nat): nat
    requires Closed(links) && x < |links|
    decreases n
  {
    if n == 0 || links[x].None? then 0 else Height(links, links[x].value, n - 1) + 1
  }

  ghost function Enough(links: seq<Option<nat>>, x: nat): (n: nat)
    requires Closed(links) && x < |links| && WalkEnds(links, x)
    ensures Up(links, x, n) == None
  {
    var n: nat :| Up(links, x, n) == None;
    n
  }

  lemma {:induction false} HeightSettled(links: seq<Option<nat>>, x: nat, m: nat, n: nat)
    requires Closed(links) && x < |links| && Up(links, x, m) == None && Up(links, x, n) == None
    ensures Height(links, x, m) == Height(links, x, n)
    decreases m
  {
    if links[x].Some? { HeightSettled(links, links[x].value, m - 1, n - 1); }
  }

  /** The links form a forest exactly when every walk ends. */
  lemma {:induction false} ForestIff(links: seq<Option<nat>>)
    requires Closed(links)
    ensures Forest(links) <==> WalksEnd(links)
  {
    if Forest(links) { ForestWalks(links); }
    if WalksEnd(links) {
      var rank := seq(|links|, x requires 0 <= x < |links| => assert WalkEnds(links, x); Height(links, x, Enough(links, x)));
      forall x | 0 <= x < |links| && links[x].Some? ensures rank[links[x].value] < rank[x] {
        assert WalkEnds(links, x) && WalkEnds(links, links[x].value);
        HeightSettled(links, links[x].value, Enough(links, x) - 1, Enough(links, links[x].value));
      }
      assert Ranked(links, rank);
    }
  }

  lemma {:induction false} UpSplit(links: seq<Option<nat>>, x: nat, n: nat)
    requires Closed(links) && x < |links| && Up(links, x, n).Some?
    ensures Up(links, x, n + 1) == links[Up(links, x, n).value]
    decreases n
  {
    if n > 0 {
      UpSplit(links, links[x].value, n - 1);
    } else if links[x].Some? {
      assert Up(links, links[x].value, 0) == Some(links[x].value);
    }
  }

  lemma {:induction false} ReachesStep(links: seq<Option<nat>>, x: nat, y: nat)
    requires Closed(links) && x < |links|
    ensures Reaches(links, x, y) <==> x == y || (links[x].Some? && Reaches(links, links[x].value, y))
  {
    assert Up(links, x, 0) == Some(x);
    if Reaches(links, x, y) && x != y {
      var n: nat :| Up(links, x, n) == Some(y);
      assert Up(links, links[x].value, n - 1) == Some(y);
    }
    if links[x].Some? && Reaches(links, links[x].value, y) {
      var n: nat :| Up(links, links[x].value, n) == Some(y);
      assert Up(links, x, n + 1) == Some(y);
    }
  }

  /** Up to the relinked node a walk is as before. */
  lemma {:induction false} ReachKept(links: seq<Option<nat>>, x: nat, id: nat, p: nat, n: nat) returns (m: nat)
    requires Closed(links) && x < |links| && id < |links| && p < |links| && Up(links, x, n) == Some(id)
    ensures Closed(links[id := Some(p)]) && Up(links[id := Some(p)], x, m) == Some(id)
    decreases n
  {
    if x == id {
      m := 0;
    } else {
      m := ReachKept(links, links[x].value, id, p, n - 1);
      m := m + 1;
    }
  }

  lemma {:induction false} RelinkRanked(links: seq<Option<nat>>, rank: seq<nat>, id: nat, p: nat) returns (lifted: seq<nat>)
    requires Ranked(links, rank) && id < |links| && p < |links| && !Reaches(links, p, id)
    ensures Ranked(links[id := Some(p)], lifted)
  {
    lifted := [];
    for k := 0 to |rank|
      invariant |lifted| == k
      invariant forall x | 0 <= x < k :: lifted[x] == rank[x] + if Reaches(links, x, id) then rank[p] + 1 else 0
    {
      lifted := lifted + [rank[k] + if Reaches(links, k, id) then rank[p] + 1 else 0];
    }
    var relinked := links[id := Some(p)];
    forall x | 0 <= x < |links| && relinked[x].Some?
      ensures relinked[x].value < |links| && lifted[relinked[x].value] < lifted[x]
    {
      ReachesStep(links, x, id);
      hide Reaches;
    }
  }

  /** Hanging a node under another keeps a forest a forest exactly when the new parent is not the node itself or one of
      its descendants. */
  lemma {:induction false} RelinkIff(links: seq<Option<nat>>, id: nat, p: nat)
    requires Forest(links) && id < |links| && p < |links|
    ensures Closed(links)
    ensures Forest(links[id := Some(p)]) <==> !Reaches(links, p, id)
  {
    var rank :| Ranked(links, rank);
    if Reaches(links, p, id) {
      var n: nat :| Up(links, p, n) == Some(id);
      var m := ReachKept(links, p, id, p, n);
      var relinked := links[id := Some(p)];
      assert Up(relinked, id, m + 1) == Some(id);
      if Forest(relinked) {
        ForestWalks(relinked);
        assert false;
      }
    } else {
      var lifted := RelinkRanked(links, rank, id, p);
    }
  }

  lemma {:induction false} CutKeeps(links: seq<Option<nat>>, id: nat)
    requires Forest(links) && id < |links|
    ensures Forest(links[id := None])
  {
    var rank :| Ranked(links, rank);
    assert Ranked(links[id := None], rank);
  }

  lemma {:induction false} LeafKeeps(links: seq<Option<nat>>, parent: Option<nat>)
    requires Forest(links) && (parent.Some? ==> parent.value < |links|)
    ensures Forest(links + [parent])
  {
    var rank :| Ranked(links, rank);
    assert Ranked(links + [parent], rank + [if parent.Some? then rank[parent.value] + 1 else 0]);
  }

  // ---- the stored table ---------------------------------------------------

  /** A parent link as the organisation-scoped ancestor query follows it: only to a customer of the same organisation. */
  function ScopedLink(cs: seq<Customer>, c: Customer): Option<nat> {
    if c.parent.Some? && c.parent.value < |cs| && cs[c.parent.value].org == c.org then c.parent else None
  }

  function Scoped(cs: seq<Customer>): (r: seq<Option<nat>>)
    ensures |r| == |cs| && Closed(r)
    ensures forall i | 0 <= i < |cs| :: r[i] == ScopedLink(cs, cs[i])
  {
    seq(|cs|, i requires 0 <= i < |cs| => ScopedLink(cs, cs[i]))
  }

  /** Every parent link, whatever the organisations. */
  function Links(cs: seq<Customer>): (r: seq<Option<nat>>)
    ensures |r| == |cs| && forall i | 0 <= i < |cs| :: r[i] == cs[i].parent
  {
    seq(|cs|, i requires 0 <= i < |cs| => cs[i].parent)
  }

  /** The foreign key: a parent exists. */
  predicate ParentsExist(cs: seq<Customer>) {
    forall i | 0 <= i < |cs| && cs[i].parent.Some? :: cs[i].parent.value < |cs|
  }

  datatype Op = Create(org: int, parent: Option<nat>) | Update(org: int, id: nat, parent: Option<nat>) | Delete(org: int, id: nat)

  datatype Reply = Saved | SelfParent | WouldCycle | NotFound | ParentNotFound | Failed

  predicate Live(cs: seq<Customer>, org: int, id: nat) { id < |cs| && cs[id].org == org && !cs[id].deleted }

  /** The ancestors the query returns for a customer: none at all when it is not of the organisation. */
  ghost predicate IsAncestor(cs: seq<Customer>, org: int, a: nat, x: nat) {
    x < |cs| && cs[x].org == org && exists n: nat :: n > 0 && Up(Scoped(cs), x, n) == Some(a)
  }

  ghost function Answer(cs: seq<Customer>, op: Op): Reply {
    match op
    case Create(org, parent) => if parent.Some? && !Live(cs, org, parent.value) then ParentNotFound else Saved
    case Update(org, id, parent) =>
      if parent == Some(id) then SelfParent
      else if parent.Some? && IsAncestor(cs, org, id, parent.value) then WouldCycle
      else if !Live(cs, org, id) then NotFound
      else if parent.Some? && parent.value >= |cs| then Failed
      else Saved
    case Delete(org, id) => if Live(cs, org, id) then Saved else NotFound
  }

  ghost function Apply(cs: seq<Customer>, op: Op): seq<Customer> {
    if Answer(cs, op) != Saved then cs
    else match op
      case Create(org, parent) => cs + [Customer(org, parent, false)]
      case Update(org, id, parent) => cs[id := cs[id].(parent := parent)]
      case Delete(org, id) => cs[id := cs[id].(deleted := true)]
  }

  class Directory {
    var customers: seq<Customer>

    ghost predicate Valid()
      reads this
    {
      ParentsExist(customers) && Forest(Scoped(customers))
    }

    /** The recursive query: nearest ancestor first, following links inside the organisation until there is none. */
    method CustomerAncestors(org: int, id: nat) returns (chain: seq<nat>)
      requires Valid()
      ensures forall a :: a in chain <==> IsAncestor(customers, org, a, id)
    {
      chain := [];
      if id >= |customers| || customers[id].org != org { return; }
      hide Up, Forest;
      ghost var links := Scoped(customers);
      ghost var rank := RankOf(links);
      assert Up(links, id, 0) == Some(id) by { UpZero(links, id); }
      var at: nat := id;
      while ScopedLink(customers, customers[at]).Some?
        invariant at < |customers| && customers[at].org == org
        invariant Up(links, id, |chain|) == Some(at)
        invariant forall k | 0 <= k < |chain| :: Up(links, id, k + 1) == Some(chain[k])
        decreases rank[at]
      {
        UpSplit(links, id, |chain|);
        at := customers[at].parent.value;
        chain := chain + [at];
      }
      UpSplit(links, id, |chain|);
      forall a ensures a in chain <==> IsAncestor(customers, org, a, id) {
        if IsAncestor(customers, org, a, id) {
          var n: nat :| n > 0 && Up(links, id, n) == Some(a);
          if n > |chain| { UpEnded(links, id, |chain| + 1, n); }
          assert chain[n - 1] == a;
        }
      }
    }

    method CreateCustomer(org: int, parent: Option<nat>) returns (reply: Reply)
      requires Valid()
      modifies this
      ensures reply == Answer(old(customers), Create(org, parent)) && customers == Apply(old(customers), Create(org, parent))
      ensures Valid()
    {
      ApplyKeepsForest(customers, Create(org, parent));
      if parent.Some? && !Live(customers, org, parent.value) { return ParentNotFound; }
      customers := customers + [Customer(org, parent, false)];
      return Saved;
    }

    method UpdateCustomer(org: int, id: nat, parent: Option<nat>) returns (reply: Reply)
      requires Valid()
      modifies this
      ensures reply == Answer(old(customers), Update(org, id, parent)) && customers == Apply(old(customers), Update(org, id, parent))
      ensures Valid()
    {
      ApplyKeepsForest(customers, Update(org, id, parent));
      hide IsAncestor, Forest;
      if parent.Some? {
        if parent.value == id { return SelfParent; }
        var ancestors := CustomerAncestors(org, parent.value);
        for i := 0 to |ancestors|
          invariant id !in ancestors[..i]
        {
          if ancestors[i] == id { return WouldCycle; }
        }
        assert ancestors[..|ancestors|] == ancestors;
      }
      if !Live(customers, org, id) { return NotFound; }
      if parent.Some? && parent.value >= |customers| { return Failed; }
      customers := customers[id := customers[id].(parent := parent)];
      return Saved;
    }

    method DeleteCustomer(org: int, id: nat) returns (reply: Reply)
      requires Valid()
      modifies this
      ensures reply == Answer(old(customers), Delete(org, id)) && customers == Apply(old(customers), Delete(org, id))
      ensures Valid()
    {
      ApplyKeepsForest(customers, Delete(org, id));
      if !Live(customers, org, id) { return NotFound; }
      customers := customers[id := customers[id].(deleted := true)];
      return Saved;
    }
  }

  ghost function RankOf(links: seq<Option<nat>>): (rank: seq<nat>)
    requires Forest(links)
    ensures Ranked(links, rank)
  {
    var rank :| Ranked(links, rank);
    rank
  }

  lemma {:induction false} UpZero(links: seq<Option<nat>>, x: nat)
    requires Closed(links) && x < |links|
    ensures Up(links, x, 0) == Some(x)
  {
  }

  lemma {:induction false} UpEnded(links: seq<Option<nat>>, x: nat, m: nat, n: nat)
    requires Closed(links) && x < |links| && m <= n && Up(links, x, m) == None
    ensures Up(links, x, n) == None
    decreases n
  {
    if m > 0 && links[x].Some? { UpEnded(links, links[x].value, m - 1, n - 1); }
  }

  // ---- laws ---------------------------------------------------------------

  lemma {:induction false} ScopedUpdate(cs: seq<Customer>, id: nat, parent: Option<nat>)
    requires id < |cs|
    ensures var after := cs[id := cs[id].(parent := parent)];
            Scoped(after) == Scoped(cs)[id := ScopedLink(cs, cs[id].(parent := parent))]
  {
  }

  lemma {:induction false} ReachesIsAncestor(cs: seq<Customer>, org: int, a: nat, x: nat)
    requires x < |cs| && cs[x].org == org
    ensures Reaches(Scoped(cs), x, a) <==> x == a || IsAncestor(cs, org, a, x)
  {
    assert Up(Scoped(cs), x, 0) == Some(x);
  }

  /** The cycle check is exact: naming an existing parent for a live customer is accepted exactly when the links inside
      organisations remain a forest. */
  lemma {:induction false} AcceptedIffForest(cs: seq<Customer>, org: int, id: nat, p: nat)
    requires Forest(Scoped(cs)) && Live(cs, org, id) && p < |cs|
    ensures Answer(cs, Update(org, id, Some(p))) == Saved <==> Forest(Scoped(cs[id := cs[id].(parent := Some(p))]))
  {
    ScopedUpdate(cs, id, Some(p));
    if cs[p].org == org {
      ReachesIsAncestor(cs, org, id, p);
      hide Reaches, IsAncestor, Forest;
      RelinkIff(Scoped(cs), id, p);
    } else {
      hide Forest;
      CutKeeps(Scoped(cs), id);
    }
  }

  lemma {:induction false} ApplyKeepsForest(cs: seq<Customer>, op: Op)
    requires ParentsExist(cs) && Forest(Scoped(cs))
    ensures ParentsExist(Apply(cs, op)) && Forest(Scoped(Apply(cs, op)))
  {
    hide Forest, IsAncestor;
    var after := Apply(cs, op);
    if Answer(cs, op) == Saved {
      match op
      case Create(org, parent) =>
        LeafKeeps(Scoped(cs), parent);
        assert Scoped(after) == Scoped(cs) + [parent];
      case Update(org, id, parent) =>
        if parent.Some? {
          AcceptedIffForest(cs, org, id, parent.value);
        } else {
          ScopedUpdate(cs, id, parent);
          CutKeeps(Scoped(cs), id);
        }
      case Delete(org, id) =>
        assert Scoped(after) == Scoped(cs);
    }
  }

  ghost function Run(cs: seq<Customer>, ops: seq<Op>): seq<Customer> {
    if ops == [] then cs else Apply(Run(cs, ops[..|ops| - 1]), ops[|ops| - 1])
  }

  /** After any sequence of creations, re-parentings and deletions, by any organisations, the ancestor query ends from
      every customer and never meets its starting point again. */
  lemma {:induction false} RunWalksEnd(ops: seq<Op>)
    ensures ParentsExist(Run([], ops)) && Forest(Scoped(Run([], ops)))
    ensures Acyclic(Scoped(Run([], ops))) && WalksEnd(Scoped(Run([], ops)))
  {
    if ops == [] {
      assert Ranked(Scoped([]), []);
    } else {
      RunWalksEnd(ops[..|ops| - 1]);
      ApplyKeepsForest(Run([], ops[..|ops| - 1]), ops[|ops| - 1]);
    }
    hide Forest;
    ForestWalks(Scoped(Run([], ops)));
  }

  // ---- re-parentings that overlap -----------------------------------------

  /** A re-parenting whose check has passed and whose write is still to come. */
  datatype Pending = Pending(org: int, id: nat, parent: nat)

  datatype Shared = Shared(customers: seq<Customer>, pending: seq<Pending>)

  /** Whole operations, and re-parentings under an existing parent as the two statements they are. */
  datatype Step = Whole(op: Op) | CheckStep(org: int, id: nat, parent: nat) | WriteStep(index: nat)

  /** The update statement knows of no cycle: it only looks for a live customer of the organisation. */
  function Written(cs: seq<Customer>, w: Pending): seq<Customer> {
    if Live(cs, w.org, w.id) && w.parent < |cs| then cs[w.id := cs[w.id].(parent := Some(w.parent))] else cs
  }

  ghost predicate Passes(cs: seq<Customer>, org: int, id: nat, parent: nat) {
    parent != id && !IsAncestor(cs, org, id, parent)
  }

  ghost function Next(s: Shared, a: Step): Shared {
    match a
    case Whole(op) => s.(customers := Apply(s.customers, op))
    case CheckStep(org, id, parent) =>
      if Passes(s.customers, org, id, parent) then s.(pending := s.pending + [Pending(org, id, parent)]) else s
    case WriteStep(k) =>
      if k >= |s.pending| then s
      else Shared(Written(s.customers, s.pending[k]), s.pending[..k] + s.pending[k + 1..])
  }

  ghost function RunShared(steps: seq<Step>): Shared {
    if steps == [] then Shared([], []) else Next(RunShared(steps[..|steps| - 1]), steps[|steps| - 1])
  }

  /** A write that has an effect would pass its check again. */
  ghost predicate StillPasses(s: Shared, a: Step) {
    a.WriteStep? && a.index < |s.pending| ==>
      var w := s.pending[a.index];
      Live(s.customers, w.org, w.id) && w.parent < |s.customers| ==> Passes(s.customers, w.org, w.id, w.parent)
  }

  ghost predicate ScopedForest(cs: seq<Customer>) { ParentsExist(cs) && Forest(Scoped(cs)) }

  lemma {:induction false} NextForestIff(s: Shared, a: Step)
    requires ScopedForest(s.customers)
    ensures ScopedForest(Next(s, a).customers) <==> StillPasses(s, a)
  {
    hide Forest, IsAncestor;
    match a
    case Whole(op) => ApplyKeepsForest(s.customers, op);
    case CheckStep(org, id, parent) =>
    case WriteStep(k) =>
      if k < |s.pending| {
        var w := s.pending[k];
        if Live(s.customers, w.org, w.id) && w.parent < |s.customers| {
          AcceptedIffForest(s.customers, w.org, w.id, w.parent);
        }
      }
  }

  /** However re-parentings overlap, the links inside organisations are a forest in every state passed through exactly when
      each write that has an effect would pass its check again. */
  lemma {:induction false} SharedForestIff(steps: seq<Step>)
    ensures (forall n | 0 <= n <= |steps| :: ScopedForest(RunShared(steps[..n]).customers))
            <==> forall n | 0 <= n < |steps| :: StillPasses(RunShared(steps[..n]), steps[n])
  {
    NothingShared(steps);
    hide *;
    forall n | 0 <= n < |steps|
      ensures ScopedForest(RunShared(steps[..n]).customers) ==>
                (ScopedForest(RunShared(steps[..n + 1]).customers) <==> StillPasses(RunShared(steps[..n]), steps[n]))
    {
      SharedStep(steps, n);
      if ScopedForest(RunShared(steps[..n]).customers) { NextForestIff(RunShared(steps[..n]), steps[n]); }
    }
    if forall n | 0 <= n < |steps| :: StillPasses(RunShared(steps[..n]), steps[n]) {
      for m := 0 to |steps|
        invariant forall n | 0 <= n <= m :: ScopedForest(RunShared(steps[..n]).customers)
      {
        assert ScopedForest(RunShared(steps[..m]).customers);
      }
    } else {
      var n :| 0 <= n < |steps| && !StillPasses(RunShared(steps[..n]), steps[n]);
      assert ScopedForest(RunShared(steps[..n]).customers) ==> !ScopedForest(RunShared(steps[..n + 1]).customers);
    }
  }

  lemma {:induction false} SharedStep(steps: seq<Step>, n: nat)
    requires n < |steps|
    ensures RunShared(steps[..n + 1]) == Next(RunShared(steps[..n]), steps[n])
  {
    assert steps[..n + 1][..n] == steps[..n];
    hide Next;
  }

  lemma {:induction false} NothingShared(steps: seq<Step>)
    ensures ScopedForest(RunShared(steps[..0]).customers)
  {
    assert Ranked(Scoped([]), []);
  }

  /** Two customers of one organisation, each put under the other by overlapping requests: both checks pass, and from
      neither does the ancestor query end. */
  lemma {:induction false} CycleInside()
    ensures var both := Shared([Customer(1, None, false), Customer(1, None, false)], []);
            var checked := Next(Next(both, CheckStep(1, 0, 1)), CheckStep(1, 1, 0));
            var s := Next(Next(checked, WriteStep(0)), WriteStep(0));
            |checked.pending| == 2 && Scoped(s.customers) == [Some(1), Some(0)] &&
            !WalkEnds(Scoped(s.customers), 0) && !WalkEnds(Scoped(s.customers), 1)
  {
    var cs := [Customer(1, None, false), Customer(1, None, false)];
    var both := Shared(cs, []);
    NoParents(cs, 1, 0, 1);
    NoParents(cs, 1, 1, 0);
    hide IsAncestor;
    var checked := Next(Next(both, CheckStep(1, 0, 1)), CheckStep(1, 1, 0));
    assert checked.pending == [Pending(1, 0, 1), Pending(1, 1, 0)];
    var first := Next(checked, WriteStep(0));
    assert first == Shared([Customer(1, Some(1), false), Customer(1, None, false)], [Pending(1, 1, 0)]);
    var s := Next(first, WriteStep(0));
    assert s.customers == [Customer(1, Some(1), false), Customer(1, Some(0), false)];
    assert Scoped(s.customers) == [Some(1), Some(0)];
    hide Up, Next;
    forall x, n: nat | 0 <= x < 2 ensures Up([Some(1), Some(0)], x, n).Some? { TwoRoundWalk(x, n); }
  }

  lemma {:induction false} NoParents(cs: seq<Customer>, org: int, a: nat, x: nat)
    requires x < |cs| && cs[x].parent.None?
    ensures !IsAncestor(cs, org, a, x)
  {
  }

  // ---- links between organisations ----------------------------------------

  /** Every parent is of its child's organisation. */
  predicate WithinOrgs(cs: seq<Customer>) {
    forall i | 0 <= i < |cs| && cs[i].parent.Some? :: cs[i].parent.value < |cs| && cs[cs[i].parent.value].org == cs[i].org
  }

  /** The parent an operation sets is of the same organisation.  Create checks this itself; update does not. */
  predicate NamesOwn(cs: seq<Customer>, op: Op) {
    op.Update? && op.parent.Some? && op.parent.value < |cs| ==> cs[op.parent.value].org == op.org
  }

  /** A step leaves every link inside its organisation exactly when it is refused or names a parent of its own. */
  lemma {:induction false} WithinOrgsIff(cs: seq<Customer>, op: Op)
    requires WithinOrgs(cs)
    ensures WithinOrgs(Apply(cs, op)) <==> Answer(cs, op) != Saved || NamesOwn(cs, op)
  {
    hide IsAncestor;
    var after := Apply(cs, op);
    if Answer(cs, op) == Saved {
      match op
      case Create(org, parent) =>
        assert forall i | 0 <= i < |cs| :: after[i] == cs[i];
      case Update(org, id, parent) =>
        assert after[id].parent == parent && after[id].org == org;
        assert forall i | 0 <= i < |cs| :: after[i].org == cs[i].org && (i != id ==> after[i] == cs[i]);
        if parent.Some? && !NamesOwn(cs, op) {
          assert after[parent.value].org != after[id].org;
        }
      case Delete(org, id) =>
        assert forall i | 0 <= i < |cs| :: after[i].org == cs[i].org && after[i].parent == cs[i].parent;
    }
  }

  ghost predicate AllNameOwn(cs: seq<Customer>, ops: seq<Op>) {
    ops != [] ==>
      AllNameOwn(cs, ops[..|ops| - 1]) && NamesOwn(Run(cs, ops[..|ops| - 1]), ops[|ops| - 1])
  }

  /** When every update names a parent of its own organisation, the whole parent relation stays acyclic. */
  lemma {:induction false} OwnParentsAcyclic(ops: seq<Op>)
    requires AllNameOwn([], ops)
    ensures WithinOrgs(Run([], ops)) && Closed(Links(Run([], ops))) && Acyclic(Links(Run([], ops))) && WalksEnd(Links(Run([], ops)))
  {
    OwnParentsWithin(ops);
    RunWalksEnd(ops);
    var cs := Run([], ops);
    assert Links(cs) == Scoped(cs);
  }

  lemma {:induction false} OwnParentsWithin(ops: seq<Op>)
    requires AllNameOwn([], ops)
    ensures WithinOrgs(Run([], ops))
  {
    if ops != [] {
      OwnParentsWithin(ops[..|ops| - 1]);
      WithinOrgsIff(Run([], ops[..|ops| - 1]), ops[|ops| - 1]);
    }
  }

  /** A re-parenting that goes through and hangs the customer below itself, counting the links between organisations. */
  ghost predicate ClosesCycle(cs: seq<Customer>, op: Op) {
    Answer(cs, op) == Saved && op.Update? && op.parent.Some? && Closed(Links(cs)) && Reaches(Links(cs), op.parent.value, op.id)
  }

  ghost predicate PriceWalksEnd(cs: seq<Customer>) { Closed(Links(cs)) && WalksEnd(Links(cs)) }

  /** The price queries walk up every parent link when no organisation is set on the session, as in the daily sweep.
      These walks keep ending after a step exactly when it is not a re-parenting under a customer that already lies
      below, through whatever organisations. */
  lemma {:induction false} PriceWalksEndIff(cs: seq<Customer>, op: Op)
    requires ParentsExist(cs) && PriceWalksEnd(cs)
    ensures PriceWalksEnd(Apply(cs, op)) <==> !ClosesCycle(cs, op)
  {
    hide IsAncestor, Forest, Reaches, WalksEnd;
    var after := Apply(cs, op);
    ForestIff(Links(cs));
    if Answer(cs, op) == Saved {
      match op
      case Create(org, parent) =>
        LeafKeeps(Links(cs), parent);
        assert Links(after) == Links(cs) + [parent];
      case Update(org, id, parent) =>
        assert Links(after) == Links(cs)[id := parent];
        if parent.Some? { RelinkIff(Links(cs), id, parent.value); } else { CutKeeps(Links(cs), id); }
      case Delete(org, id) =>
        assert Links(after) == Links(cs);
    }
    ForestIff(Links(after));
  }

  /** Along any run they end in every state passed through exactly when no step closes a cycle. */
  lemma {:induction false} RunPriceWalksIff(ops: seq<Op>)
    ensures (forall k | 0 <= k <= |ops| :: PriceWalksEnd(Run([], ops[..k])))
            <==> forall k | 0 <= k < |ops| :: !ClosesCycle(Run([], ops[..k]), ops[k])
  {
    hide *;
    forall k | 0 <= k < |ops|
      ensures PriceWalksEnd(Run([], ops[..k])) ==> (PriceWalksEnd(Run([], ops[..k + 1])) <==> !ClosesCycle(Run([], ops[..k]), ops[k]))
    {
      RunStep(ops, k);
      if PriceWalksEnd(Run([], ops[..k])) { PriceWalksEndIff(Run([], ops[..k]), ops[k]); }
    }
    EmptyWalks(ops);
    if forall k | 0 <= k < |ops| :: !ClosesCycle(Run([], ops[..k]), ops[k]) {
      for n := 0 to |ops|
        invariant forall k | 0 <= k <= n :: PriceWalksEnd(Run([], ops[..k]))
      {
        assert PriceWalksEnd(Run([], ops[..n]));
      }
    } else {
      var k :| 0 <= k < |ops| && ClosesCycle(Run([], ops[..k]), ops[k]);
      assert PriceWalksEnd(Run([], ops[..k])) ==> !PriceWalksEnd(Run([], ops[..k + 1]));
    }
  }

  lemma {:induction false} RunStep(ops: seq<Op>, k: nat)
    requires k < |ops|
    ensures ParentsExist(Run([], ops[..k])) && Run([], ops[..k + 1]) == Apply(Run([], ops[..k]), ops[k])
  {
    assert ops[..k + 1] == ops[..k] + [ops[k]];
    hide *;
    RunWalksEnd(ops[..k]);
    RunPush([], ops[..k], ops[k]);
  }

  lemma {:induction false} EmptyWalks(ops: seq<Op>)
    ensures PriceWalksEnd(Run([], ops[..0]))
  {
  }

  lemma {:induction false} TwoRoundWalk(x: nat, n: nat)
    requires x < 2
    ensures Closed([Some(1), Some(0)]) && Up([Some(1), Some(0)], x, n).Some?
    decreases n
  {
    if n > 0 { TwoRoundWalk(1 - x, n - 1); }
  }

  /** Two organisations that each name the other's customer close a cycle: the organisation-scoped query stops at the
      border, the price walks from either customer never end. */
  lemma {:induction false} CycleAcrossOrgs()
    ensures var ops := [Create(1, None), Create(2, None), Update(1, 0, Some(1)), Update(2, 1, Some(0))];
            ParentsExist(Run([], ops)) && Links(Run([], ops)) == [Some(1), Some(0)] && Closed(Links(Run([], ops))) &&
            !Acyclic(Links(Run([], ops))) && !WalkEnds(Links(Run([], ops)), 0) && !WalkEnds(Links(Run([], ops)), 1)
  {
    CrossedRun();
    RoundLinks();
    hide *;
  }

  lemma {:induction false} CrossedRun()
    ensures var ops := [Create(1, None), Create(2, None), Update(1, 0, Some(1)), Update(2, 1, Some(0))];
            ParentsExist(Run([], ops)) && Links(Run([], ops)) == [Some(1), Some(0)]
  {
    var ops := [Create(1, None), Create(2, None), Update(1, 0, Some(1)), Update(2, 1, Some(0))];
    TwoCustomers();
    hide Apply, Run;
    assert ops[..1] == [ops[0]] && ops[..2] == ops[..1] + [ops[1]] && ops[..3] == ops[..2] + [ops[2]] && ops == ops[..3] + [ops[3]];
    assert [] + [ops[0]] == [ops[0]];
    NoOps();
    RunPush([], [], ops[0]);
    RunPush([], ops[..1], ops[1]);
    RunPush([], ops[..2], ops[2]);
    RunPush([], ops[..3], ops[3]);
  }

  lemma {:induction false} NoOps()
    ensures Run([], []) == []
  {
  }

  lemma {:induction false} RoundLinks()
    ensures var links := [Some(1), Some(0)];
            Closed(links) && !Acyclic(links) && !WalkEnds(links, 0) && !WalkEnds(links, 1)
  {
    var links := [Some(1), Some(0)];
    assert Up(links, 0, 2) == Up(links, 1, 1) == Up(links, 0, 0) == Some(0);
    hide Up;
    forall x, n: nat | 0 <= x < 2 ensures Up(links, x, n).Some? { TwoRoundWalk(x, n); }
  }

  lemma {:induction false} TwoCustomers()
    ensures Apply([], Create(1, None)) == [Customer(1, None, false)]
    ensures Apply([Customer(1, None, false)], Create(2, None)) == [Customer(1, None, false), Customer(2, None, false)]
    ensures Apply([Customer(1, None, false), Customer(2, None, false)], Update(1, 0, Some(1))) == [Customer(1, Some(1), false), Customer(2, None, false)]
    ensures Apply([Customer(1, Some(1), false), Customer(2, None, false)], Update(2, 1, Some(0))) == [Customer(1, Some(1), false), Customer(2, Some(0), false)]
  {
    OtherOrg([Customer(1, None, false), Customer(2, None, false)], 1, 0, 1);
    OtherOrg([Customer(1, Some(1), false), Customer(2, None, false)], 2, 1, 0);
    hide IsAncestor;
  }

  lemma {:induction false} RunPush(cs: seq<Customer>, ops: seq<Op>, op: Op)
    ensures Run(cs, ops + [op]) == Apply(Run(cs, ops), op)
  {
    assert (ops + [op])[..|ops|] == ops;
  }

  lemma {:induction false} OtherOrg(cs: seq<Customer>, org: int, a: nat, x: nat)
    requires x < |cs| && cs[x].org != org
    ensures !IsAncestor(cs, org, a, x)
  {
  }

  // ---- what each operation answers and writes -----------------------------

  /** A customer that exists, is of the organisation and is not deleted. */
  predicate Present(cs: seq<Customer>, org: int, id: nat) { id < |cs| && cs[id].org == org && !cs[id].deleted }

  /** Creating needs a parent, if one is named, that is present; updating refuses the customer itself and its descendants,
      then needs the customer present and the parent existing; deleting needs the customer present.  A created customer is
      new, of the organisation, below the parent named and not deleted; an update writes the parent and nothing else, also
      when it names none; a deletion marks the row and nothing else; and what is refused writes nothing. */
  lemma {:induction false} OpEffect(cs: seq<Customer>, op: Op)
    ensures var t := Apply(cs, op);
            match op
            case Create(org, parent) =>
              && Answer(cs, op) == (if parent.Some? && !Present(cs, org, parent.value) then ParentNotFound else Saved)
              && t == (if Answer(cs, op) == Saved then cs + [Customer(org, parent, false)] else cs)
            case Update(org, id, parent) =>
              && (parent == Some(id) ==> Answer(cs, op) == SelfParent)
              && (parent.Some? && parent != Some(id) && IsAncestor(cs, org, id, parent.value) ==> Answer(cs, op) == WouldCycle)
              && (Answer(cs, op) == Saved <==>
                    Present(cs, org, id) && (parent.Some? ==> parent.value < |cs| && parent != Some(id) && !IsAncestor(cs, org, id, parent.value)))
              && (if Answer(cs, op) == Saved then
                    |t| == |cs| && t[id] == Customer(cs[id].org, parent, cs[id].deleted) && forall i | 0 <= i < |cs| && i != id :: t[i] == cs[i]
                  else t == cs)
            case Delete(org, id) =>
              && Answer(cs, op) == (if Present(cs, org, id) then Saved else NotFound)
              && (if Answer(cs, op) == Saved then
                    |t| == |cs| && t[id] == Customer(cs[id].org, cs[id].parent, true) && forall i | 0 <= i < |cs| && i != id :: t[i] == cs[i]
                  else t == cs)
  {
    hide IsAncestor;
  }
}
