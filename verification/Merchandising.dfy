/** Pin, boost and bury reordering of a result page (internal/merchandising/engine.go). */
module Merchandising {

  datatype Rule = Rule(productId: int, action: string, position: int)

  // ---- specification ------------------------------------------------------

  /** The first pin of each product on the page, in rule order. */
  function Pins(ids: seq<int>, rules: seq<Rule>): seq<Rule> {
    if rules == [] then []
    else
      var earlier, r := Pins(ids, rules[..|rules| - 1]), rules[|rules| - 1];
      if r.productId in ids && r.action == "pin" && !HasPin(earlier, r.productId) then earlier + [r] else earlier
  }

  predicate HasPin(pins: seq<Rule>, id: int) { exists i | 0 <= i < |pins| :: pins[i].productId == id }

  predicate Marked(rules: seq<Rule>, id: int, action: string) {
    exists i | 0 <= i < |rules| :: rules[i].productId == id && rules[i].action == action
  }

  /** Inserts behind every pin of the same or a smaller position. */
  function Insert(sorted: seq<Rule>, r: Rule): seq<Rule> {
    if sorted == [] then [r]
    else
      var n := |sorted| - 1;
      if sorted[n].position <= r.position then sorted + [r] else Insert(sorted[..n], r) + [sorted[n]]
  }

  /** The stable order by position. */
  function SortPins(pins: seq<Rule>): seq<Rule> {
    if pins == [] then [] else Insert(SortPins(pins[..|pins| - 1]), pins[|pins| - 1])
  }

  datatype Tier = Pinned | Boosted | Normal | Buried

  function TierOf(rules: seq<Rule>, id: int): Tier {
    if Marked(rules, id, "pin") then Pinned
    else if Marked(rules, id, "bury") then Buried
    else if Marked(rules, id, "boost") then Boosted
    else Normal
  }

  /** The page's ids of one tier, in page order. */
  function InTier(ids: seq<int>, rules: seq<Rule>, t: Tier): seq<int> {
    if ids == [] then []
    else InTier(ids[..|ids| - 1], rules, t) + if TierOf(rules, ids[|ids| - 1]) == t then [ids[|ids| - 1]] else []
  }

  function Products(pins: seq<Rule>): (r: seq<int>)
    ensures |r| == |pins| && forall i | 0 <= i < |pins| :: r[i] == pins[i].productId
  {
    seq(|pins|, i requires 0 <= i < |pins| => pins[i].productId)
  }

  function Reordered(ids: seq<int>, rules: seq<Rule>): seq<int> {
    Products(SortPins(Pins(ids, rules))) + InTier(ids, rules, Boosted) + InTier(ids, rules, Normal) + InTier(ids, rules, Buried)
  }

  // ---- the method ---------------------------------------------------------

  method Reorder(ids: seq<int>, rules: seq<Rule>) returns (out: seq<int>)
    ensures out == Reordered(ids, rules)
  {
    if |rules| == 0 || |ids| == 0 {
      Untouched(ids, rules);
      return ids;
    }
    var pins, pinned, boost, bury := ReadRules(ids, rules);
    if |pins| == 0 && boost == {} && bury == {} {
      assert forall id | id in ids :: (id in boost <==> Marked(rules, id, "boost")) && (id in bury <==> Marked(rules, id, "bury"));
      Unmarked(ids, rules);
      return ids;
    }
    var boosted, normal, buried := Distribute(ids, rules, pinned, boost, bury);
    hide InTier, Pins, SortPins;
    out := Products(SortPins(pins));
    out := out + boosted + normal + buried;
  }

  /** The products of the page that the rules mark with an action. */
  ghost predicate Marks(s: set<int>, ids: seq<int>, rules: seq<Rule>, action: string) {
    forall id :: id in s <==> id in ids && Marked(rules, id, action)
  }

  method ReadRules(ids: seq<int>, rules: seq<Rule>) returns (pins: seq<Rule>, pinned: set<int>, boost: set<int>, bury: set<int>)
    ensures pins == Pins(ids, rules)
    ensures Marks(pinned, ids, rules, "pin") && Marks(boost, ids, rules, "boost") && Marks(bury, ids, rules, "bury")
  {
    pins, pinned, boost, bury := [], {}, {}, {};
    assert rules[..|rules|] == rules;
    for i := 0 to |rules|
      invariant pins == Pins(ids, rules[..i])
      invariant Marks(pinned, ids, rules[..i], "pin")
      invariant Marks(boost, ids, rules[..i], "boost")
      invariant Marks(bury, ids, rules[..i], "bury")
    {
      var r := rules[i];
      assert rules[..i + 1] == rules[..i] + [r] && rules[..i + 1][..i] == rules[..i];
      PinsExact(ids, rules[..i], r.productId);
      MarkRead(pinned, ids, rules[..i], r, "pin");
      MarkRead(boost, ids, rules[..i], r, "boost");
      MarkRead(bury, ids, rules[..i], r, "bury");
      assert r.productId in pinned <==> r.productId in ids && Marked(rules[..i], r.productId, "pin");
      hide Marks, Marked, HasPin;
      if r.productId in ids {
        if r.action == "pin" {
          if r.productId !in pinned {
            pinned := pinned + {r.productId};
            pins := pins + [r];
          }
        } else if r.action == "boost" {
          boost := boost + {r.productId};
        } else if r.action == "bury" {
          bury := bury + {r.productId};
        }
      }
    }
  }

  lemma {:induction false} MarkRead(s: set<int>, ids: seq<int>, rules: seq<Rule>, r: Rule, action: string)
    requires Marks(s, ids, rules, action)
    ensures Marks(if r.productId in ids && r.action == action then s + {r.productId} else s, ids, rules + [r], action)
    ensures r.productId in s ==> s + {r.productId} == s
  {
    MarkedGrows(rules, r);
    hide Marked;
  }

  method Distribute(ids: seq<int>, rules: seq<Rule>, pinned: set<int>, boost: set<int>, bury: set<int>)
    returns (boosted: seq<int>, normal: seq<int>, buried: seq<int>)
    requires Marks(pinned, ids, rules, "pin") && Marks(boost, ids, rules, "boost") && Marks(bury, ids, rules, "bury")
    ensures boosted == InTier(ids, rules, Boosted) && normal == InTier(ids, rules, Normal) && buried == InTier(ids, rules, Buried)
  {
    boosted, normal, buried := [], [], [];
    assert ids[..|ids|] == ids;
    for i := 0 to |ids|
      invariant boosted == InTier(ids[..i], rules, Boosted)
      invariant normal == InTier(ids[..i], rules, Normal)
      invariant buried == InTier(ids[..i], rules, Buried)
    {
      var id := ids[i];
      assert ids[..i + 1][..i] == ids[..i] && id in ids;
      assert TierOf(rules, id) == if id in pinned then Pinned else if id in bury then Buried else if id in boost then Boosted else Normal;
      hide TierOf, Marks;
      if id !in pinned {
        if id in bury {
          buried := buried + [id];
        } else if id in boost {
          boosted := boosted + [id];
        } else {
          normal := normal + [id];
        }
      }
    }
  }

  lemma {:induction false} MarkedGrows(rules: seq<Rule>, r: Rule)
    ensures forall id, action :: Marked(rules + [r], id, action) <==> Marked(rules, id, action) || (r.productId == id && r.action == action)
  {
    forall id, action
      ensures Marked(rules + [r], id, action) <==> Marked(rules, id, action) || (r.productId == id && r.action == action)
    {
      assert (rules + [r])[|rules|] == r;
      if Marked(rules, id, action) {
        var i :| 0 <= i < |rules| && rules[i].productId == id && rules[i].action == action;
        assert (rules + [r])[i] == rules[i];
      }
    }
  }

  lemma {:induction false} HasPinGrows(pins: seq<Rule>, r: Rule)
    ensures forall id :: HasPin(pins + [r], id) <==> HasPin(pins, id) || r.productId == id
  {
    forall id ensures HasPin(pins + [r], id) <==> HasPin(pins, id) || r.productId == id {
      assert (pins + [r])[|pins|] == r;
      if HasPin(pins, id) {
        var i :| 0 <= i < |pins| && pins[i].productId == id;
        assert (pins + [r])[i] == pins[i];
      }
    }
  }

  lemma {:induction false} AllNormal(ids: seq<int>, rules: seq<Rule>)
    requires forall i | 0 <= i < |ids| :: TierOf(rules, ids[i]) == Normal
    ensures InTier(ids, rules, Boosted) == [] && InTier(ids, rules, Normal) == ids && InTier(ids, rules, Buried) == []
  {
    hide TierOf;
    if ids != [] {
      AllNormal(ids[..|ids| - 1], rules);
      assert ids == ids[..|ids| - 1] + [ids[|ids| - 1]];
    }
  }

  lemma {:induction false} Unmarked(ids: seq<int>, rules: seq<Rule>)
    requires Pins(ids, rules) == []
    requires forall id | id in ids :: !Marked(rules, id, "boost") && !Marked(rules, id, "bury")
    ensures Reordered(ids, rules) == ids
  {
    forall i | 0 <= i < |ids| ensures TierOf(rules, ids[i]) == Normal { PinsExact(ids, rules, ids[i]); }
    AllNormal(ids, rules);
    hide TierOf, Marked, HasPin;
  }

  lemma {:induction false} NoPinsOnEmptyPage(rules: seq<Rule>)
    ensures Pins([], rules) == []
  {
    if rules != [] { NoPinsOnEmptyPage(rules[..|rules| - 1]); }
  }

  lemma {:induction false} Untouched(ids: seq<int>, rules: seq<Rule>)
    requires rules == [] || ids == []
    ensures Reordered(ids, rules) == ids
  {
    if ids == [] { NoPinsOnEmptyPage(rules); }
    Unmarked(ids, rules);
  }

  // ---- pins ---------------------------------------------------------------

  lemma {:induction false} PinsExact(ids: seq<int>, rules: seq<Rule>, id: int)
    ensures HasPin(Pins(ids, rules), id) <==> id in ids && Marked(rules, id, "pin")
  {
    if rules != [] {
      var n := |rules| - 1;
      PinsExact(ids, rules[..n], id);
      MarkedGrows(rules[..n], rules[n]);
      HasPinGrows(Pins(ids, rules[..n]), rules[n]);
      assert rules == rules[..n] + [rules[n]];
      hide Marked, HasPin;
    }
  }

  predicate DistinctPins(pins: seq<Rule>) { forall i, j | 0 <= i < j < |pins| :: pins[i].productId != pins[j].productId }

  lemma {:induction false} PinsDistinct(ids: seq<int>, rules: seq<Rule>)
    ensures DistinctPins(Pins(ids, rules))
  {
    if rules != [] { PinsDistinct(ids, rules[..|rules| - 1]); }
  }

  predicate SortedPins(pins: seq<Rule>) { forall i, j | 0 <= i < j < |pins| :: pins[i].position <= pins[j].position }

  predicate UpTo(pins: seq<Rule>, k: int) { forall i | 0 <= i < |pins| :: pins[i].position <= k }

  lemma {:induction false} InsertBounded(sorted: seq<Rule>, r: Rule, k: int)
    requires UpTo(sorted, k) && r.position <= k
    ensures UpTo(Insert(sorted, r), k)
  {
    if sorted != [] { InsertBounded(sorted[..|sorted| - 1], r, k); }
  }

  lemma {:induction false} InsertSorts(sorted: seq<Rule>, r: Rule)
    requires SortedPins(sorted)
    ensures SortedPins(Insert(sorted, r))
  {
    if sorted != [] {
      var n := |sorted| - 1;
      InsertSorts(sorted[..n], r);
      if sorted[n].position > r.position { InsertBounded(sorted[..n], r, sorted[n].position); }
    }
  }

  lemma {:induction false} InsertAdds(sorted: seq<Rule>, r: Rule)
    ensures multiset(Insert(sorted, r)) == multiset(sorted) + multiset{r}
  {
    if sorted != [] {
      InsertAdds(sorted[..|sorted| - 1], r);
      assert sorted == sorted[..|sorted| - 1] + [sorted[|sorted| - 1]];
    }
  }

  /** The pins are put in order of position. */
  lemma {:induction false} SortPinsSorts(pins: seq<Rule>)
    ensures SortedPins(SortPins(pins)) && multiset(SortPins(pins)) == multiset(pins)
  {
    if pins != [] {
      var n := |pins| - 1;
      SortPinsSorts(pins[..n]);
      InsertSorts(SortPins(pins[..n]), pins[n]);
      InsertAdds(SortPins(pins[..n]), pins[n]);
      assert pins == pins[..n] + [pins[n]];
      hide SortedPins, Insert;
    }
  }

  function AtPosition(pins: seq<Rule>, p: int): seq<Rule> {
    if pins == [] then []
    else AtPosition(pins[..|pins| - 1], p) + if pins[|pins| - 1].position == p then [pins[|pins| - 1]] else []
  }

  lemma {:induction false} AtPositionPush(pins: seq<Rule>, r: Rule, p: int)
    ensures AtPosition(pins + [r], p) == AtPosition(pins, p) + if r.position == p then [r] else []
  {
    assert (pins + [r])[..|pins|] == pins;
  }

  lemma {:induction false} InsertStable(sorted: seq<Rule>, r: Rule, p: int)
    requires SortedPins(sorted)
    ensures AtPosition(Insert(sorted, r), p) == AtPosition(sorted, p) + if r.position == p then [r] else []
  {
    if sorted == [] {
      AtPositionPush([], r, p);
      assert [] + [r] == [r];
    } else {
      var n := |sorted| - 1;
      var last := sorted[n];
      if last.position <= r.position {
        AtPositionPush(sorted, r, p);
      } else {
        InsertStable(sorted[..n], r, p);
        AtPositionPush(Insert(sorted[..n], r), last, p);
        if p == last.position { assert r.position != p; }
      }
    }
  }

  /** Pins that share a position keep their rule order. */
  lemma {:induction false} SortPinsStable(pins: seq<Rule>, p: int)
    ensures AtPosition(SortPins(pins), p) == AtPosition(pins, p)
  {
    if pins != [] {
      var n := |pins| - 1;
      SortPinsStable(pins[..n], p);
      SortPinsSorts(pins[..n]);
      InsertStable(SortPins(pins[..n]), pins[n], p);
    }
  }

  // ---- the page -----------------------------------------------------------

  lemma {:induction false} TierCounts(ids: seq<int>, rules: seq<Rule>, t: Tier, id: int)
    ensures multiset(InTier(ids, rules, t))[id] == if TierOf(rules, id) == t then multiset(ids)[id] else 0
  {
    hide TierOf;
    if ids != [] {
      var n := |ids| - 1;
      TierCounts(ids[..n], rules, t, id);
      assert ids == ids[..n] + [ids[n]];
    }
  }

  lemma {:induction false} ProductCounts(pins: seq<Rule>, id: int)
    requires DistinctPins(pins)
    ensures multiset(Products(pins))[id] == if HasPin(pins, id) then 1 else 0
  {
    if pins != [] {
      var n := |pins| - 1;
      ProductCounts(pins[..n], id);
      assert Products(pins) == Products(pins[..n]) + [pins[n].productId];
      HasPinGrows(pins[..n], pins[n]);
      assert pins == pins[..n] + [pins[n]];
      assert !HasPin(pins[..n], pins[n].productId);
      hide HasPin, Products;
    }
  }

  lemma {:induction false} SortedStillDistinct(a: seq<Rule>, b: seq<Rule>)
    requires multiset(a) == multiset(b) && DistinctPins(a)
    ensures DistinctPins(b) && forall id :: HasPin(a, id) <==> HasPin(b, id)
  {
    forall id ensures HasPin(a, id) <==> HasPin(b, id) {
      if HasPin(a, id) {
        var i :| 0 <= i < |a| && a[i].productId == id;
        assert a[i] in multiset(b);
      }
      if HasPin(b, id) {
        var i :| 0 <= i < |b| && b[i].productId == id;
        assert b[i] in multiset(a);
      }
    }
    forall i, j | 0 <= i < j < |b| ensures b[i].productId != b[j].productId {
      if b[i].productId == b[j].productId {
        assert b[i] in multiset(a) && b[j] in multiset(a);
        assert b[i] == b[j];
        TwiceInMultiset(b, i, j);
        OnceInDistinct(a, b[i]);
      }
    }
  }

  lemma {:induction false} TwiceInMultiset(b: seq<Rule>, i: nat, j: nat)
    requires i < j < |b| && b[i] == b[j]
    ensures multiset(b)[b[i]] >= 2
  {
    assert b == b[..j] + [b[j]] + b[j + 1..];
    assert b[i] in b[..j];
    assert multiset(b) == multiset(b[..j]) + multiset{b[j]} + multiset(b[j + 1..]);
  }

  lemma {:induction false} OnceInDistinct(a: seq<Rule>, r: Rule)
    requires DistinctPins(a)
    ensures multiset(a)[r] <= 1
  {
    if a != [] {
      var n := |a| - 1;
      OnceInDistinct(a[..n], r);
      assert a == a[..n] + [a[n]];
      assert a[n] !in a[..n];
    }
  }

  /** How often each id appears after reordering: a pinned one once, every other as often as before. */
  lemma {:induction false} ReorderedCounts(ids: seq<int>, rules: seq<Rule>, id: int)
    ensures multiset(Reordered(ids, rules))[id] ==
            if TierOf(rules, id) == Pinned then (if id in ids then 1 else 0) else multiset(ids)[id]
  {
    var pins := Pins(ids, rules);
    PinsDistinct(ids, rules);
    PinsExact(ids, rules, id);
    SortPinsSorts(pins);
    SortedStillDistinct(pins, SortPins(pins));
    ProductCounts(SortPins(pins), id);
    TierCounts(ids, rules, Boosted, id);
    TierCounts(ids, rules, Normal, id);
    TierCounts(ids, rules, Buried, id);
    assert id in ids <==> multiset(ids)[id] > 0;
    hide Pins, SortPins, Products, InTier, HasPin, Marked, DistinctPins;
  }

  /** Reordering is a permutation of the page exactly when no pinned product appears on it twice. */
  lemma {:induction false} PermutationIff(ids: seq<int>, rules: seq<Rule>)
    ensures multiset(Reordered(ids, rules)) == multiset(ids) <==>
            forall id | id in ids && TierOf(rules, id) == Pinned :: multiset(ids)[id] == 1
  {
    forall id ensures multiset(Reordered(ids, rules))[id] ==
      if TierOf(rules, id) == Pinned then (if id in ids then 1 else 0) else multiset(ids)[id]
    {
      ReorderedCounts(ids, rules, id);
    }
    assert forall id :: id in ids <==> multiset(ids)[id] > 0;
    hide Reordered, TierOf;
    if forall id | id in ids && TierOf(rules, id) == Pinned :: multiset(ids)[id] == 1 {
      assert forall id :: multiset(Reordered(ids, rules))[id] == multiset(ids)[id];
    }
  }

  /** For instance: a product that is on the page twice and pinned appears once afterwards. */
  lemma {:induction false} PinnedTwiceOnce()
    ensures Reordered([7, 7], [Rule(7, "pin", 1)]) == [7]
  {
    var rules := [Rule(7, "pin", 1)];
    assert rules[..0] == [] && [7, 7][..1] == [7] && [7][..0] == [];
    assert rules[0].productId == 7 && rules[0].action == "pin";
    assert TierOf(rules, 7) == Pinned;
    assert Pins([7, 7], rules) == rules;
    assert SortPins(rules) == rules;
    forall t | t != Pinned ensures InTier([7, 7], rules, t) == [] { assert InTier([7], rules, t) == []; }
    assert Products(rules) == [7];
  }

  /** On distinct ids it always is one. */
  lemma {:induction false} DistinctPermutes(ids: seq<int>, rules: seq<Rule>)
    requires forall i, j | 0 <= i < j < |ids| :: ids[i] != ids[j]
    ensures multiset(Reordered(ids, rules)) == multiset(ids)
  {
    forall id | id in ids ensures multiset(ids)[id] == 1 { DistinctOnce(ids, id); }
    PermutationIff(ids, rules);
  }

  lemma {:induction false} DistinctOnce(ids: seq<int>, id: int)
    requires forall i, j | 0 <= i < j < |ids| :: ids[i] != ids[j]
    ensures multiset(ids)[id] == if id in ids then 1 else 0
  {
    if ids != [] {
      DistinctOnce(ids[..|ids| - 1], id);
      assert ids == ids[..|ids| - 1] + [ids[|ids| - 1]];
    }
  }

  lemma {:induction false} InTierConcat(a: seq<int>, b: seq<int>, rules: seq<Rule>, t: Tier)
    ensures InTier(a + b, rules, t) == InTier(a, rules, t) + InTier(b, rules, t)
  {
    hide TierOf;
    if b == [] {
      assert a + b == a;
    } else {
      assert (a + b)[..|a + b| - 1] == a + b[..|b| - 1];
      InTierConcat(a, b[..|b| - 1], rules, t);
    }
  }

  lemma {:induction false} InTierAgain(ids: seq<int>, rules: seq<Rule>, t: Tier, u: Tier)
    ensures InTier(InTier(ids, rules, t), rules, u) == if t == u then InTier(ids, rules, t) else []
  {
    hide TierOf;
    if ids != [] {
      var n := |ids| - 1;
      InTierAgain(ids[..n], rules, t, u);
      var last := if TierOf(rules, ids[n]) == t then [ids[n]] else [];
      InTierConcat(InTier(ids[..n], rules, t), last, rules, u);
      assert last != [] ==> last[..0] == [];
    }
  }

  lemma {:induction false} NoneOfTier(ids: seq<int>, rules: seq<Rule>, t: Tier)
    requires forall i | 0 <= i < |ids| :: TierOf(rules, ids[i]) != t
    ensures InTier(ids, rules, t) == []
  {
    hide TierOf;
    if ids != [] { NoneOfTier(ids[..|ids| - 1], rules, t); }
  }

  lemma {:induction false} PinsSameSet(a: seq<int>, b: seq<int>, rules: seq<Rule>)
    requires forall id | Marked(rules, id, "pin") :: id in a <==> id in b
    ensures Pins(a, rules) == Pins(b, rules)
  {
    if rules != [] {
      var n := |rules| - 1;
      MarkedGrows(rules[..n], rules[n]);
      assert rules == rules[..n] + [rules[n]];
      hide Marked, HasPin;
      PinsSameSet(a, b, rules[..n]);
    }
  }

  lemma {:induction false} InTierOfFour(a: seq<int>, b: seq<int>, c: seq<int>, d: seq<int>, rules: seq<Rule>, t: Tier)
    ensures InTier(a + b + c + d, rules, t) == InTier(a, rules, t) + InTier(b, rules, t) + InTier(c, rules, t) + InTier(d, rules, t)
  {
    InTierConcat(a + b + c, d, rules, t);
    InTierConcat(a + b, c, rules, t);
    InTierConcat(a, b, rules, t);
  }

  /** Within the boosted, the untouched and the buried tier the page's own order is kept. */
  lemma {:induction false} TiersKeepOrder(ids: seq<int>, rules: seq<Rule>, t: Tier)
    requires t != Pinned
    ensures InTier(Reordered(ids, rules), rules, t) == InTier(ids, rules, t)
  {
    var pins := SortPins(Pins(ids, rules));
    PinnedFirst(ids, rules);
    NoneOfTier(Products(pins), rules, t);
    InTierAgain(ids, rules, Boosted, t);
    InTierAgain(ids, rules, Normal, t);
    InTierAgain(ids, rules, Buried, t);
    InTierOfFour(Products(pins), InTier(ids, rules, Boosted), InTier(ids, rules, Normal), InTier(ids, rules, Buried), rules, t);
    hide InTier, Products, Pins, SortPins, TierOf;
  }

  /** Every id in front is pinned. */
  lemma {:induction false} PinnedFirst(ids: seq<int>, rules: seq<Rule>)
    ensures forall i | 0 <= i < |SortPins(Pins(ids, rules))| ::
              TierOf(rules, Products(SortPins(Pins(ids, rules)))[i]) == Pinned
  {
    var pins := Pins(ids, rules);
    SortPinsSorts(pins);
    PinsDistinct(ids, rules);
    SortedStillDistinct(pins, SortPins(pins));
    forall i | 0 <= i < |SortPins(pins)| ensures Marked(rules, SortPins(pins)[i].productId, "pin") {
      assert HasPin(SortPins(pins), SortPins(pins)[i].productId);
      PinsExact(ids, rules, SortPins(pins)[i].productId);
    }
    hide Marked, HasPin, Pins, SortPins;
  }

  /** Reordering again changes nothing, on any page. */
  lemma {:induction false} ReorderIdempotent(ids: seq<int>, rules: seq<Rule>)
    ensures Reordered(Reordered(ids, rules), rules) == Reordered(ids, rules)
  {
    var out := Reordered(ids, rules);
    forall id | Marked(rules, id, "pin") ensures id in out <==> id in ids {
      ReorderedCounts(ids, rules, id);
      assert id in out <==> multiset(out)[id] > 0;
    }
    PinsSameSet(out, ids, rules);
    TiersKeepOrder(ids, rules, Boosted);
    TiersKeepOrder(ids, rules, Normal);
    TiersKeepOrder(ids, rules, Buried);
  }

  // ---- the page, place by place -------------------------------------------

  /** Where a product belongs: pinned ones first, then boosted, then untouched, then buried ones; a product that is both
      boosted and buried is buried, a pinned one is pinned whatever else. */
  function Place(rules: seq<Rule>, id: int): nat {
    if exists i | 0 <= i < |rules| :: rules[i].productId == id && rules[i].action == "pin" then 0
    else if exists i | 0 <= i < |rules| :: rules[i].productId == id && rules[i].action == "bury" then 3
    else if exists i | 0 <= i < |rules| :: rules[i].productId == id && rules[i].action == "boost" then 1
    else 2
  }

  /** The position of the first rule that pins the product. */
  function PinPosition(rules: seq<Rule>, id: int): int {
    if rules == [] then 0
    else if rules[0].productId == id && rules[0].action == "pin" then rules[0].position
    else PinPosition(rules[1..], id)
  }

  lemma {:induction false} PlaceIsTier(rules: seq<Rule>, id: int)
    ensures Place(rules, id) == match TierOf(rules, id) case Pinned => 0 case Boosted => 1 case Normal => 2 case Buried => 3
  {
  }

  lemma {:induction false} PinPositionPush(rules: seq<Rule>, r: Rule, id: int)
    ensures Marked(rules, id, "pin") ==> PinPosition(rules + [r], id) == PinPosition(rules, id)
    ensures !Marked(rules, id, "pin") && r.productId == id && r.action == "pin" ==> PinPosition(rules + [r], id) == r.position
  {
    if rules != [] {
      PinPositionPush(rules[1..], r, id);
      assert (rules + [r])[1..] == rules[1..] + [r];
      if Marked(rules, id, "pin") && !(rules[0].productId == id && rules[0].action == "pin") {
        var i :| 0 <= i < |rules| && rules[i].productId == id && rules[i].action == "pin";
        assert rules[1..][i - 1] == rules[i];
      }
      if !Marked(rules, id, "pin") {
        assert forall i | 0 <= i < |rules| - 1 :: rules[1..][i] == rules[i + 1];
      }
    } else {
      assert [] + [r] == [r];
    }
  }

  lemma {:induction false} PinsAtFirst(ids: seq<int>, rules: seq<Rule>)
    ensures forall i | 0 <= i < |Pins(ids, rules)| :: Pins(ids, rules)[i].position == PinPosition(rules, Pins(ids, rules)[i].productId)
  {
    if rules != [] {
      var n := |rules| - 1;
      PinsAtFirst(ids, rules[..n]);
      var earlier, r := Pins(ids, rules[..n]), rules[n];
      assert rules == rules[..n] + [r];
      forall i | 0 <= i < |earlier| ensures earlier[i].position == PinPosition(rules, earlier[i].productId) {
        PinsExact(ids, rules[..n], earlier[i].productId);
        assert HasPin(earlier, earlier[i].productId);
        PinPositionPush(rules[..n], r, earlier[i].productId);
      }
      PinsExact(ids, rules[..n], r.productId);
      PinPositionPush(rules[..n], r, r.productId);
      hide PinPosition, Marked;
    }
  }

  lemma {:induction false} SortedAtFirst(ids: seq<int>, rules: seq<Rule>)
    ensures var pins := SortPins(Pins(ids, rules));
            && (forall i | 0 <= i < |pins| :: pins[i].position == PinPosition(rules, pins[i].productId))
            && forall i, j | 0 <= i < j < |pins| :: pins[i].position <= pins[j].position
  {
    var pins, sorted := Pins(ids, rules), SortPins(Pins(ids, rules));
    PinsAtFirst(ids, rules);
    SortPinsSorts(pins);
    hide Pins, SortPins, PinPosition;
    forall i | 0 <= i < |sorted| ensures sorted[i].position == PinPosition(rules, sorted[i].productId) {
      assert sorted[i] in multiset(sorted);
      assert sorted[i] in multiset(pins);
      assert sorted[i] in pins;
    }
  }

  lemma {:induction false} TierHolds(ids: seq<int>, rules: seq<Rule>, t: Tier)
    ensures forall i | 0 <= i < |InTier(ids, rules, t)| :: TierOf(rules, InTier(ids, rules, t)[i]) == t
  {
    hide TierOf;
    if ids != [] { TierHolds(ids[..|ids| - 1], rules, t); }
  }

  /** The k-th product of the page is a pin of its position, or of the tier its index falls into. */
  lemma {:induction false} PlaceAt(ids: seq<int>, rules: seq<Rule>, k: nat)
    requires k < |Reordered(ids, rules)|
    ensures var pins := SortPins(Pins(ids, rules));
            var b, n, id := |InTier(ids, rules, Boosted)|, |InTier(ids, rules, Normal)|, Reordered(ids, rules)[k];
            if k < |pins| then Place(rules, id) == 0 && PinPosition(rules, id) == pins[k].position
            else Place(rules, id) == if k < |pins| + b then 1 else if k < |pins| + b + n then 2 else 3
  {
    var pins := SortPins(Pins(ids, rules));
    var p, x, y, z := Products(pins), InTier(ids, rules, Boosted), InTier(ids, rules, Normal), InTier(ids, rules, Buried);
    PinnedFirst(ids, rules);
    SortedAtFirst(ids, rules);
    TierHolds(ids, rules, Boosted);
    TierHolds(ids, rules, Normal);
    TierHolds(ids, rules, Buried);
    var id := Reordered(ids, rules)[k];
    PlaceIsTier(rules, id);
    hide Place, TierOf, InTier, PinPosition, Pins, SortPins;
    assert Reordered(ids, rules) == p + x + y + z;
    if k < |p| { assert id == p[k]; }
    else if k < |p| + |x| { assert id == x[k - |p|]; }
    else if k < |p| + |x| + |y| { assert id == y[k - |p| - |x|]; }
    else { assert id == z[k - |p| - |x| - |y|]; }
  }

  /** On the page, no product stands before one of an earlier place, and pinned products stand in the order of the positions
      of their first pins. */
  lemma {:induction false} PlacesInOrder(ids: seq<int>, rules: seq<Rule>, i: nat, j: nat)
    requires i < j < |Reordered(ids, rules)|
    ensures var a, b := Reordered(ids, rules)[i], Reordered(ids, rules)[j];
            Place(rules, a) <= Place(rules, b) &&
            (Place(rules, a) == Place(rules, b) == 0 ==> PinPosition(rules, a) <= PinPosition(rules, b))
  {
    hide *;
    PlaceAt(ids, rules, i);
    PlaceAt(ids, rules, j);
    SortedAtFirst(ids, rules);
  }
}
