/** Choosing a cart discount (internal/promotions/engine.go).  Amounts are exact rationals; a discount is rounded to
    four decimals, and an unreadable decimal is None. */
module Promotions {
  import opened Prelude
  import opened Money

  datatype Candidate = Candidate(
    id: int, code: Option<string>, kind: string, value: Option<real>, minSubtotal: Option<Option<real>>,
    startsAt: Option<int>, endsAt: Option<int>, maxRedemptions: Option<int>, redeemed: int, priority: int)

  /** The cart: its subtotal, the entered coupon code as normalised, and the time. */
  datatype Cart = Cart(subtotal: real, entered: string, now: int)

  /** The winning candidate's position and its discount; no winner means no discount. */
  datatype Choice = Choice(best: Option<nat>, discount: real)

  function LowerChar(c: char): char { if 'A' <= c <= 'Z' then c + ' ' else c }

  function ToLower(s: string): string { if s == "" then "" else [LowerChar(s[0])] + ToLower(s[1..]) }

  function Normalise(code: string): string { ToLower(TrimSpace(code)) }

  // ---- one candidate ------------------------------------------------------

  predicate Eligible(c: Candidate, cart: Cart) {
    && (c.code.Some? ==> cart.entered != "" && cart.entered == Normalise(c.code.value))
    && (c.startsAt.Some? ==> c.startsAt.value <= cart.now)
    && (c.endsAt.Some? ==> cart.now <= c.endsAt.value)
    && (c.maxRedemptions.Some? ==> c.redeemed < c.maxRedemptions.value)
    && (c.minSubtotal.Some? ==> c.minSubtotal.value.Some? && c.minSubtotal.value.value <= cart.subtotal)
  }

  function Rounded(x: real): real { Amount(ToUnits(x)) }

  function DiscountFor(c: Candidate, subtotal: real): real {
    if c.value.None? then 0.0
    else if c.kind == "percent" then Rounded(Product(subtotal, c.value.value) / 100.0)
    else if c.kind == "amount" then Rounded(c.value.value)
    else 0.0
  }

  function Min(a: real, b: real): real { if a > b then b else a }

  /** What applying the candidate takes off the cart; zero when it cannot or is not worth applying. */
  function Worth(c: Candidate, cart: Cart): (r: real)
    ensures 0.0 <= r && (r > 0.0 ==> r <= cart.subtotal)
  {
    var d := Min(DiscountFor(c, cart.subtotal), cart.subtotal);
    if Eligible(c, cart) && d > 0.0 then d else 0.0
  }

  /** Larger discount first, then higher priority, then the earlier candidate. */
  predicate Beats(cs: seq<Candidate>, cart: Cart, i: nat, j: nat)
    requires i < |cs| && j < |cs|
  {
    var a, b := Worth(cs[i], cart), Worth(cs[j], cart);
    a > b || (a == b && (cs[i].priority > cs[j].priority || (cs[i].priority == cs[j].priority && i < j)))
  }

  /** Candidate k wins among the first n. */
  predicate Leads(cs: seq<Candidate>, cart: Cart, n: nat, k: nat)
    requires n <= |cs|
  {
    k < n && Worth(cs[k], cart) > 0.0 && forall j | 0 <= j < n && j != k && Worth(cs[j], cart) > 0.0 :: Beats(cs, cart, k, j)
  }

  predicate IsBest(cs: seq<Candidate>, cart: Cart, k: nat) { Leads(cs, cart, |cs|, k) }

  predicate NoneApply(cs: seq<Candidate>, cart: Cart, n: nat)
    requires n <= |cs|
  {
    forall j | 0 <= j < n :: Worth(cs[j], cart) == 0.0
  }

  lemma {:induction false} LeadKept(cs: seq<Candidate>, cart: Cart, n: nat, k: nat)
    requires n < |cs| && Leads(cs, cart, n, k)
    ensures Leads(cs, cart, n + 1, if Beats(cs, cart, n, k) then n else k)
  {
    hide Worth;
  }

  /** The largest discount on offer. */
  function BestDiscount(cs: seq<Candidate>, cart: Cart): (r: real)
    ensures 0.0 <= r
  {
    if cs == [] then 0.0
    else
      var earlier, last := BestDiscount(cs[..|cs| - 1], cart), Worth(cs[|cs| - 1], cart);
      if last > earlier then last else earlier
  }

  // ---- the evaluation loop ------------------------------------------------

  method Evaluate(subtotal: Option<real>, code: string, now: int, cs: seq<Candidate>) returns (r: Choice)
    ensures subtotal.None? ==> r == Choice(None, 0.0)
    ensures subtotal.Some? ==>
              var cart := Cart(subtotal.value, Normalise(code), now);
              && r.discount == BestDiscount(cs, cart)
              && (r.best.Some? ==> IsBest(cs, cart, r.best.value) && r.discount == Worth(cs[r.best.value], cart))
              && (r.best.None? ==> r.discount == 0.0 && NoneApply(cs, cart, |cs|))
              && (r.best.Some? ==>
                    0.0 < r.discount &&
                    forall j | 0 <= j < |cs| ::
                      Worth(cs[j], cart) < r.discount ||
                      (Worth(cs[j], cart) == r.discount &&
                       (cs[j].priority < cs[r.best.value].priority || (cs[j].priority == cs[r.best.value].priority && r.best.value <= j))))
  {
    if subtotal.None? { return Choice(None, 0.0); }
    hide Eligible, DiscountFor, Normalise;
    var cart := Cart(subtotal.value, Normalise(code), now);
    var best: Option<nat>, bestDisc := None, 0.0;
    for i := 0 to |cs|
      invariant bestDisc == BestDiscount(cs[..i], cart)
      invariant best.None? ==> bestDisc == 0.0 && NoneApply(cs, cart, i)
      invariant best.Some? ==> Leads(cs, cart, i, best.value) && bestDisc == Worth(cs[best.value], cart)
    {
      assert cs[..i + 1][..i] == cs[..i];
      var c := cs[i];
      if best.Some? { LeadKept(cs, cart, i, best.value); }
      if Eligible(c, cart) {
        var disc := DiscountFor(c, cart.subtotal);
        if disc > cart.subtotal { disc := cart.subtotal; }
        if disc > 0.0 {
          if best.None? || disc > bestDisc || (disc == bestDisc && c.priority > cs[best.value].priority) {
            best, bestDisc := Some(i), disc;
          }
        }
      }
    }
    assert cs[..|cs|] == cs;
    return Choice(best, bestDisc);
  }

  // ---- laws ---------------------------------------------------------------

  lemma {:induction false} BeatsOneWay(cs: seq<Candidate>, cart: Cart, i: nat, j: nat)
    requires i < |cs| && j < |cs|
    ensures !(Beats(cs, cart, i, j) && Beats(cs, cart, j, i))
  {
  }

  /** The best candidate is unique, so the choice is a function of the candidates alone. */
  lemma {:induction false} BestUnique(cs: seq<Candidate>, cart: Cart, a: nat, b: nat)
    requires IsBest(cs, cart, a) && IsBest(cs, cart, b)
    ensures a == b
  {
    BeatsOneWay(cs, cart, a, b);
    hide Worth, Beats;
  }

  /** The best discount is an upper bound of what is on offer, and is itself on offer or zero. */
  lemma {:induction false} BestIsMaximum(cs: seq<Candidate>, cart: Cart)
    ensures forall i | 0 <= i < |cs| :: Worth(cs[i], cart) <= BestDiscount(cs, cart)
    ensures BestDiscount(cs, cart) == 0.0 || exists i | 0 <= i < |cs| :: Worth(cs[i], cart) == BestDiscount(cs, cart)
  {
    hide Worth;
    if cs != [] {
      var n := |cs| - 1;
      BestIsMaximum(cs[..n], cart);
      assert forall i | 0 <= i < n :: cs[..n][i] == cs[i];
      if BestDiscount(cs, cart) != 0.0 {
        if Worth(cs[n], cart) > BestDiscount(cs[..n], cart) {
          assert Worth(cs[n], cart) == BestDiscount(cs, cart);
        } else {
          var i :| 0 <= i < n && Worth(cs[..n][i], cart) == BestDiscount(cs[..n], cart);
          assert Worth(cs[i], cart) == BestDiscount(cs, cart);
        }
      }
    }
  }

  lemma {:induction false} BestGrowsWithOffers(a: seq<Candidate>, b: seq<Candidate>, cart: Cart)
    requires forall c | c in a :: c in b
    ensures BestDiscount(a, cart) <= BestDiscount(b, cart)
  {
    BestIsMaximum(a, cart);
    BestIsMaximum(b, cart);
    hide Worth, BestDiscount;
    if BestDiscount(a, cart) != 0.0 {
      var i :| 0 <= i < |a| && Worth(a[i], cart) == BestDiscount(a, cart);
      assert a[i] in b;
      var j :| 0 <= j < |b| && b[j] == a[i];
      assert Worth(b[j], cart) <= BestDiscount(b, cart);
    }
  }

  /** Reordering the candidates never changes the discount. */
  lemma {:induction false} DiscountIgnoresOrder(a: seq<Candidate>, b: seq<Candidate>, cart: Cart)
    requires multiset(a) == multiset(b)
    ensures BestDiscount(a, cart) == BestDiscount(b, cart)
  {
    assert forall c :: c in a <==> c in multiset(a);
    assert forall c :: c in b <==> c in multiset(b);
    BestGrowsWithOffers(a, b, cart);
    BestGrowsWithOffers(b, a, cart);
  }

  lemma {:induction false} RoundedMonotone(x: real, y: real)
    requires x <= y
    ensures Rounded(x) <= Rounded(y)
  {
    RoundMonotone(x * 10000.0, y * 10000.0);
    hide Round;
  }

  lemma {:induction false} ScaledMonotone(x: real, y: real, p: real)
    requires x <= y && 0.0 <= p
    ensures Product(x, p) <= Product(y, p)
  {
  }

  lemma {:induction false} NegativeRateWorthless(x: real, p: real)
    requires p < 0.0
    ensures Min(Rounded(Product(x, p) / 100.0), x) <= 0.0
  {
    if x > 0.0 {
      assert Product(x, p) <= 0.0;
      RoundedMonotone(Product(x, p) / 100.0, 0.0);
      RoundInt(0);
    }
  }

  /** A larger subtotal never makes a promotion worth less. */
  lemma {:induction false} WorthGrows(c: Candidate, small: Cart, large: Cart)
    requires small.subtotal <= large.subtotal && small.entered == large.entered && small.now == large.now
    ensures Worth(c, small) <= Worth(c, large)
  {
    if Worth(c, small) > 0.0 && c.value.Some? && c.kind == "percent" {
      var p := c.value.value;
      if p < 0.0 {
        NegativeRateWorthless(small.subtotal, p);
      } else {
        ScaledMonotone(small.subtotal, large.subtotal, p);
        RoundedMonotone(Product(small.subtotal, p) / 100.0, Product(large.subtotal, p) / 100.0);
      }
    }
    hide Rounded, Normalise, Product;
  }

  /** The discount never falls when the subtotal rises. */
  lemma {:induction false} DiscountGrows(cs: seq<Candidate>, small: Cart, large: Cart)
    requires small.subtotal <= large.subtotal && small.entered == large.entered && small.now == large.now
    ensures BestDiscount(cs, small) <= BestDiscount(cs, large)
  {
    hide Worth;
    if cs != [] {
      DiscountGrows(cs[..|cs| - 1], small, large);
      WorthGrows(cs[|cs| - 1], small, large);
    }
  }

  /** What a promotion takes off a cart, said outright.  It counts only if the entered code is its own, whatever the case and
      the white space around it, the time is within its window, redemptions are left and the subtotal is at least its
      minimum; then a percentage takes that part of the subtotal and an amount takes itself, rounded to four decimals, never
      more than the subtotal and never less than nothing. */
  lemma {:induction false} WorthIs(c: Candidate, cart: Cart)
    ensures var applies :=
              && (c.code.Some? ==> cart.entered != "" && cart.entered == ToLower(TrimSpace(c.code.value)))
              && (c.startsAt.Some? ==> c.startsAt.value <= cart.now) && (c.endsAt.Some? ==> cart.now <= c.endsAt.value)
              && (c.maxRedemptions.Some? ==> c.redeemed < c.maxRedemptions.value)
              && (c.minSubtotal.Some? ==> c.minSubtotal.value.Some? && c.minSubtotal.value.value <= cart.subtotal);
            var off :=
              if c.value.None? then 0.0
              else if c.kind == "percent" then Amount(Round(Product(cart.subtotal, c.value.value) / 100.0 * 10000.0))
              else if c.kind == "amount" then Amount(Round(c.value.value * 10000.0))
              else 0.0;
            Worth(c, cart) == if !applies || off <= 0.0 || cart.subtotal <= 0.0 then 0.0 else if off > cart.subtotal then cart.subtotal else off
  {
    hide Round, Product, ToLower, TrimSpace, Amount;
  }
}
