/** Rebate periods and tiers (internal/rebates/engine.go).  An instant is a number of nanoseconds, in UTC, from the start
    of day 0. */
module Rebates {
  import opened Prelude
  import opened Calendar
  import Money

  const DAY: int := 86_400_000_000_000

  // ---- periods ------------------------------------------------------------

  datatype Window = Window(start: int, end: int, key: string)

  function DayOf(instant: int): int { instant / DAY }

  function Midnight(day: int): int { day * DAY }

  /** Four digits at least, with a minus sign before them for a negative year. */
  function YearText(y: int): string { if y < 0 then "-" + PadZeros(Itoa(-y), 4) else PadZeros(Itoa(y), 4) }

  function PeriodWindow(period: string, ref: int): Window {
    var day := DayOf(ref);
    var y, m := YearOf(day), MonthNumber(day);
    if period == "monthly" then
      var start := Civil(y, m, 1);
      Window(Midnight(start), Midnight(AddDate(start, 0, 1, 0)), YearText(y) + "-" + PadZeros(Itoa(m), 2))
    else if period == "annual" then
      var start := Civil(y, 1, 1);
      Window(Midnight(start), Midnight(AddDate(start, 1, 0, 0)), YearText(y))
    else
      var q := (m - 1) / 3;
      var start := Civil(y, q * 3 + 1, 1);
      Window(Midnight(start), Midnight(AddDate(start, 0, 3, 0)), FormatInt(y) + "-Q" + Itoa(q + 1))
  }

  /** Months in a period of the type. */
  function Span(period: string): (n: int)
    ensures n == 1 || n == 3 || n == 12
  {
    if period == "monthly" then 1 else if period == "annual" then 12 else 3
  }

  /** Number of the period, of its type, that contains an instant. */
  function PeriodNumber(period: string, ref: int): int { MonthOf(DayOf(ref)) / Span(period) }

  function StartOf(period: string, n: int): int { Midnight(FirstOfMonth(n * Span(period))) }

  lemma {:induction false} MonthStart(k: int)
    ensures MonthOf(FirstOfMonth(k)) == k
  {
    NextMonth(k);
    MonthUnique(FirstOfMonth(k), k);
  }

  /** The window is that of whole periods counted from year 0. */
  lemma {:induction false} WindowIsPeriod(period: string, ref: int)
    ensures var n := PeriodNumber(period, ref);
            var w := PeriodWindow(period, ref);
            w.start == StartOf(period, n) && w.end == StartOf(period, n + 1)
  {
    var day := DayOf(ref);
    var k := MonthOf(day);
    hide FirstOfMonth, MonthOf, YearText, PadZeros, Itoa, FormatInt, Midnight;
    var first := if period == "monthly" then k else if period == "annual" then 12 * (k / 12) else 12 * (k / 12) + k % 12 / 3 * 3;
    assert first == (k / Span(period)) * Span(period);
    MonthStart(first);
    AddDateShift(FirstOfMonth(first), 0, 1, 0);
    AddDateShift(FirstOfMonth(first), 1, 0, 0);
    AddDateShift(FirstOfMonth(first), 0, 3, 0);
    hide AddDate;
  }

  lemma {:induction false} PeriodsAdvance(period: string, i: int, j: int)
    requires i < j
    ensures StartOf(period, i) < StartOf(period, j)
  {
    hide FirstOfMonth;
    MonthsApart(i * Span(period), j * Span(period));
  }

  lemma {:induction false} InPeriod(period: string, ref: int, n: int)
    ensures StartOf(period, n) <= ref < StartOf(period, n + 1) <==> n == PeriodNumber(period, ref)
  {
    hide FirstOfMonth, MonthOf;
    var day := DayOf(ref);
    var k, s := MonthOf(day), Span(period);
    assert day * DAY <= ref < (day + 1) * DAY;
    assert s * (k / s) <= k < s * (k / s) + s;
    var p := PeriodNumber(period, ref);
    MonthsApart(p * s, k);
    MonthsApart(k + 1, (p + 1) * s);
    assert StartOf(period, p) <= ref < StartOf(period, p + 1);
    hide StartOf;
    if n < p {
      PeriodsAdvance(period, n, n + 1);
      if n + 1 < p { PeriodsAdvance(period, n + 1, p); }
    }
    if p < n {
      PeriodsAdvance(period, n, n + 1);
      if p + 1 < n { PeriodsAdvance(period, p + 1, n); }
    }
  }

  /** A window contains its reference, and every instant in it has that same window. */
  lemma {:induction false} WindowContains(period: string, ref: int, t: int)
    ensures var w := PeriodWindow(period, ref);
            && w.start <= ref < w.end
            && (w.start <= t < w.end <==> PeriodWindow(period, t).start == w.start)
            && (w.start <= t < w.end ==> PeriodWindow(period, t) == w)
  {
    hide PeriodWindow, PeriodNumber, StartOf;
    WindowIsPeriod(period, ref);
    WindowIsPeriod(period, t);
    var n, m := PeriodNumber(period, ref), PeriodNumber(period, t);
    InPeriod(period, ref, n);
    InPeriod(period, t, n);
    if m == n { SamePeriodSameKey(period, ref, t); }
    if n < m { PeriodsAdvance(period, n, m); }
    if m < n { PeriodsAdvance(period, m, n); }
  }

  lemma {:induction false} SamePeriodSameKey(period: string, r: int, t: int)
    requires PeriodNumber(period, r) == PeriodNumber(period, t)
    ensures PeriodWindow(period, r) == PeriodWindow(period, t)
  {
    var j, k := MonthOf(DayOf(r)), MonthOf(DayOf(t));
    hide FirstOfMonth, MonthOf, YearText, PadZeros, Itoa, FormatInt, AddDate;
    if period == "monthly" {
      assert j == k;
    } else if period == "annual" {
      assert j / 12 == k / 12;
    } else {
      assert j / 12 == k / 12 && j % 12 / 3 == k % 12 / 3;
    }
  }

  /** Windows of one type tile the time line: the next begins exactly where one ends, the previous ends exactly where
      it begins. */
  lemma {:induction false} WindowsTile(period: string, ref: int)
    ensures var w := PeriodWindow(period, ref);
            && PeriodWindow(period, w.end).start == w.end
            && PeriodWindow(period, w.start - 1).end == w.start
  {
    var w, n := PeriodWindow(period, ref), PeriodNumber(period, ref);
    WindowIsPeriod(period, ref);
    WindowIsPeriod(period, w.end);
    WindowIsPeriod(period, w.start - 1);
    hide PeriodWindow, PeriodNumber, StartOf;
    PeriodsAdvance(period, n + 1, n + 2);
    InPeriod(period, w.end, n + 1);
    PeriodsAdvance(period, n - 1, n);
    InPeriod(period, w.start - 1, n - 1);
  }

  // ---- keys ---------------------------------------------------------------

  lemma {:induction false} PaddedInjective(m: nat, n: nat, width: nat)
    requires PadZeros(Itoa(m), width) == PadZeros(Itoa(n), width)
    ensures m == n
  {
    PadZerosValue(Itoa(m), width);
    PadZerosValue(Itoa(n), width);
    AtoiItoa(m);
    AtoiItoa(n);
  }

  lemma {:induction false} YearTextShape(y: int)
    ensures |YearText(y)| >= 4 && (YearText(y)[0] == '-' <==> y < 0)
    ensures forall i | |YearText(y)| - 4 <= i < |YearText(y)| :: IsDigit(YearText(y)[i])
  {
    var n: nat := if y < 0 then -y else y;
    PadZerosValue(Itoa(n), 4);
    hide PadZeros, Itoa;
    assert IsDigit(PadZeros(Itoa(n), 4)[0]);
  }

  lemma {:induction false} YearTextInjective(x: int, y: int)
    requires YearText(x) == YearText(y)
    ensures x == y
  {
    YearTextShape(x);
    YearTextShape(y);
    hide PadZeros, Itoa;
    if x < 0 {
      assert YearText(x)[1..] == PadZeros(Itoa(-x), 4) && YearText(y)[1..] == PadZeros(Itoa(-y), 4);
      PaddedInjective(-x, -y, 4);
    } else {
      PaddedInjective(x, y, 4);
    }
  }

  function MonthKey(y: int, m: nat): string { YearText(y) + "-" + PadZeros(Itoa(m), 2) }

  function QuarterKey(y: int, q: nat): string { FormatInt(y) + "-Q" + Itoa(q + 1) }

  lemma {:induction false} TwoDigits(m: nat)
    requires m < 100
    ensures |PadZeros(Itoa(m), 2)| == 2 && AllDigits(PadZeros(Itoa(m), 2))
  {
    PadZerosValue(Itoa(m), 2);
    if m >= 10 { assert |Itoa(m / 10)| == 1; }
  }

  lemma {:induction false} MonthKeysDiffer(x: int, l: nat, y: int, m: nat)
    requires l < 100 && m < 100 && MonthKey(x, l) == MonthKey(y, m)
    ensures x == y && l == m
  {
    TwoDigits(l);
    TwoDigits(m);
    hide PadZeros, Itoa, YearText;
    SplitEqual(YearText(x) + "-", PadZeros(Itoa(l), 2), YearText(y) + "-", PadZeros(Itoa(m), 2));
    SplitEqual(YearText(x), "-", YearText(y), "-");
    YearTextInjective(x, y);
    PaddedInjective(l, m, 2);
  }

  lemma {:induction false} QuarterKeysDiffer(x: int, p: nat, y: int, q: nat)
    requires p < 4 && q < 4 && QuarterKey(x, p) == QuarterKey(y, q)
    ensures x == y && p == q
  {
    assert |Itoa(p + 1)| == 1 && |Itoa(q + 1)| == 1;
    hide Itoa, FormatInt;
    SplitEqual(FormatInt(x) + "-Q", Itoa(p + 1), FormatInt(y) + "-Q", Itoa(q + 1));
    SplitEqual(FormatInt(x), "-Q", FormatInt(y), "-Q");
    FormatIntInjective(x, y);
    ItoaInjective(p + 1, q + 1);
  }

  /** Seen from its end, a key tells the type of its period. */
  lemma {:induction false} KeyShapes(y: int, m: nat, q: nat)
    requires m < 100 && q < 4
    ensures var k := YearText(y); |k| >= 4 && IsDigit(k[|k| - 2]) && IsDigit(k[|k| - 3])
    ensures var k := MonthKey(y, m); |k| >= 4 && IsDigit(k[|k| - 2]) && k[|k| - 3] == '-'
    ensures var k := QuarterKey(y, q); |k| >= 3 && k[|k| - 2] == 'Q'
  {
    YearTextShape(y);
    TwoDigits(m);
    assert |Itoa(q + 1)| == 1;
    hide PadZeros, Itoa, FormatInt, YearText;
  }

  function KeyOf(period: string, k: int): string {
    if period == "monthly" then MonthKey(k / 12, k % 12 + 1)
    else if period == "annual" then YearText(k / 12)
    else QuarterKey(k / 12, k % 12 / 3)
  }

  lemma {:induction false} KeyOfWindow(period: string, ref: int)
    ensures PeriodWindow(period, ref).key == KeyOf(period, MonthOf(DayOf(ref)))
  {
    hide YearText, PadZeros, Itoa, FormatInt, MonthOf, AddDate, Civil;
  }

  lemma {:induction false} SameShape(p: string, j: int, q: string, k: int)
    requires KeyOf(p, j) == KeyOf(q, k)
    ensures Span(p) == Span(q)
  {
    KeyShapes(j / 12, j % 12 + 1, j % 12 / 3);
    KeyShapes(k / 12, k % 12 + 1, k % 12 / 3);
    hide YearText, MonthKey, QuarterKey;
  }

  lemma {:induction false} KeysApart(p: string, j: int, q: string, k: int)
    requires KeyOf(p, j) == KeyOf(q, k)
    ensures Span(p) == Span(q) && j / Span(p) == k / Span(q)
  {
    hide YearText, MonthKey, QuarterKey;
    SameShape(p, j, q, k);
    if p == "monthly" {
      MonthKeysDiffer(j / 12, j % 12 + 1, k / 12, k % 12 + 1);
      assert j == 12 * (j / 12) + j % 12 && k == 12 * (k / 12) + k % 12;
    } else if p == "annual" {
      YearTextInjective(j / 12, k / 12);
    } else {
      QuarterKeysDiffer(j / 12, j % 12 / 3, k / 12, k % 12 / 3);
      QuarterNumber(j);
      QuarterNumber(k);
    }
  }

  lemma {:induction false} QuarterNumber(k: int)
    ensures k / 3 == 4 * (k / 12) + k % 12 / 3
  {
  }

  /** A key identifies its window: two windows, of whatever types, share a key exactly when they are the same stretch
      of time. */
  lemma {:induction false} KeysIdentify(p: string, r: int, q: string, t: int)
    ensures var v, w := PeriodWindow(p, r), PeriodWindow(q, t);
            v.key == w.key <==> v.start == w.start && v.end == w.end
  {
    hide PeriodWindow, KeyOf, StartOf, MonthOf;
    WindowIsPeriod(p, r);
    WindowIsPeriod(q, t);
    KeyOfWindow(p, r);
    KeyOfWindow(q, t);
    var v, w := PeriodWindow(p, r), PeriodWindow(q, t);
    var j, k := MonthOf(DayOf(r)), MonthOf(DayOf(t));
    if v.key == w.key {
      KeysApart(p, j, q, k);
      SameSpanStart(p, q, PeriodNumber(p, r));
      SameSpanStart(p, q, PeriodNumber(p, r) + 1);
    }
    hide DayOf, Span;
    if v.start == w.start && v.end == w.end {
      SameStretch(p, PeriodNumber(p, r), q, PeriodNumber(q, t));
      SameKey(p, j, q, k);
    }
  }

  lemma {:induction false} SameSpanStart(p: string, q: string, n: int)
    requires Span(p) == Span(q)
    ensures StartOf(p, n) == StartOf(q, n)
  {
  }

  lemma {:induction false} SameStretch(p: string, m: int, q: string, n: int)
    requires StartOf(p, m) == StartOf(q, n) && StartOf(p, m + 1) == StartOf(q, n + 1)
    ensures Span(p) == Span(q) && m == n
  {
    hide FirstOfMonth, Span;
    SameFirst(m * Span(p), n * Span(q));
    SameFirst((m + 1) * Span(p), (n + 1) * Span(q));
    assert (m + 1) * Span(p) == m * Span(p) + Span(p);
    assert (n + 1) * Span(q) == n * Span(q) + Span(q);
  }

  lemma {:induction false} SameFirst(j: int, k: int)
    requires FirstOfMonth(j) == FirstOfMonth(k)
    ensures j == k
  {
    hide FirstOfMonth;
    if j < k { MonthsApart(j, k); }
    if k < j { MonthsApart(k, j); }
  }

  lemma {:induction false} SameKey(p: string, j: int, q: string, k: int)
    requires Span(p) == Span(q) && j / Span(p) == k / Span(q)
    ensures KeyOf(p, j) == KeyOf(q, k)
  {
    hide YearText, MonthKey, QuarterKey;
    if p == "monthly" {
      assert j == k;
    } else if p == "annual" {
      assert j / 12 == k / 12;
    } else {
      assert j / 12 == k / 12 && j % 12 / 3 == k % 12 / 3;
    }
  }

  // ---- tiers --------------------------------------------------------------

  datatype Tier = Tier(minAmount: string, ratePercent: string)

  function Least(t: Tier): Option<real> { Money.Parse(t.minAmount) }

  predicate Reaches(total: Option<real>, t: Tier) { total.Some? && Least(t).Some? && Least(t).value <= total.value }

  /** The reached tier with the highest threshold, the first of them on a tie, among the first n. */
  predicate Highest(total: Option<real>, tiers: seq<Tier>, n: nat, best: nat)
    requires n <= |tiers|
  {
    && best < n && Reaches(total, tiers[best])
    && forall j | 0 <= j < n && Reaches(total, tiers[j]) ::
         Least(tiers[j]).value < Least(tiers[best]).value || (Least(tiers[j]).value == Least(tiers[best]).value && best <= j)
  }

  predicate NoneReached(total: Option<real>, tiers: seq<Tier>, n: nat)
    requires n <= |tiers|
  {
    forall j | 0 <= j < n :: !Reaches(total, tiers[j])
  }

  /** Selects the tier; the rate of a reached tier is returned whatever text it is. */
  method Applicable(total: string, tiers: seq<Tier>) returns (rate: string, minAmount: string, ok: bool, ghost at: nat)
    ensures ok ==> Highest(Money.Parse(total), tiers, |tiers|, at) && rate == tiers[at].ratePercent && minAmount == tiers[at].minAmount
    ensures !ok ==> NoneReached(Money.Parse(total), tiers, |tiers|) && rate == "" && minAmount == ""
    ensures ok <==> Money.Parse(total).Some? && exists i | 0 <= i < |tiers| ::
              Money.Parse(tiers[i].minAmount).Some? && Money.Parse(tiers[i].minAmount).value <= Money.Parse(total).value
    ensures ok ==> forall i | 0 <= i < |tiers| && Money.Parse(tiers[i].minAmount).Some? &&
                     Money.Parse(tiers[i].minAmount).value <= Money.Parse(total).value ::
                     Money.Parse(tiers[i].minAmount).value <= Money.Parse(minAmount).value
  {
    hide Money.Parse;
    var best := -1;
    at := 0;
    for i := 0 to |tiers|
      invariant best == -1 ==> NoneReached(Money.Parse(total), tiers, i)
      invariant best != -1 ==> 0 <= best && Highest(Money.Parse(total), tiers, i, best)
    {
      var t := tiers[i];
      var cmp := Money.Cmp(total, t.minAmount);
      if cmp.None? || cmp.value < 0 { continue; }
      if best == -1 {
        best := i;
        continue;
      }
      var c := Money.Cmp(t.minAmount, tiers[best].minAmount);
      if c.Some? && c.value > 0 { best := i; }
    }
    if best == -1 { return "", "", false, 0; }
    at := best;
    return tiers[best].ratePercent, tiers[best].minAmount, true, at;
  }

  function Rebate(total: string, ratePercent: string): Option<string> { Money.Percent(total, ratePercent) }

  function Earned(total: real, rate: real): real { Money.Amount(Money.ToUnits(Money.Product(total, rate) / 100.0)) }

  predicate EarnsUnder(total: real, tiers: seq<Tier>, i: nat, amount: real) {
    && Highest(Some(total), tiers, |tiers|, i)
    && Rate(tiers[i]).Some? && amount == Earned(total, Rate(tiers[i]).value)
  }

  /** The amount a total earns under the tier in force, zero below all tiers. */
  predicate Earns(total: real, tiers: seq<Tier>, amount: real) {
    if NoneReached(Some(total), tiers, |tiers|) then amount == 0.0
    else exists i | 0 <= i < |tiers| :: EarnsUnder(total, tiers, i, amount)
  }

  function Rate(t: Tier): Option<real> { Money.Parse(t.ratePercent) }

  /** What Rebate writes for the tier Applicable selects is the amount earned. */
  lemma {:induction false} RebateEarned(total: string, tiers: seq<Tier>, at: nat)
    requires Money.Parse(total).Some? && Highest(Money.Parse(total), tiers, |tiers|, at) && Rate(tiers[at]).Some?
    ensures Rebate(total, tiers[at].ratePercent).Some?
    ensures Money.Parse(Rebate(total, tiers[at].ratePercent).value).Some?
    ensures Earns(Money.Parse(total).value, tiers, Money.Parse(Rebate(total, tiers[at].ratePercent).value).value)
  {
    hide Money.Parse, Money.Format, Money.Amount, Money.ToUnits;
    var t, p := Money.Parse(total).value, Rate(tiers[at]).value;
    Money.ParseFormat(Money.Product(t, p) / 100.0);
    hide Reaches, Least;
    assert EarnsUnder(t, tiers, at, Earned(t, p));
  }

  /** Higher thresholds carry rates at least as high, and no rate is negative. */
  predicate Progressive(tiers: seq<Tier>) {
    && (forall i | 0 <= i < |tiers| :: Rate(tiers[i]).Some? && Rate(tiers[i]).value >= 0.0)
    && (forall i, j | 0 <= i < |tiers| && 0 <= j < |tiers| && Least(tiers[i]).Some? && Least(tiers[j]).Some? ::
          Least(tiers[i]).value < Least(tiers[j]).value ==> Rate(tiers[i]).value <= Rate(tiers[j]).value)
  }

  lemma {:induction false} EarnedGrows(small: real, large: real, p: real, q: real)
    requires 0.0 <= small <= large && 0.0 <= p <= q
    ensures 0.0 <= Earned(small, p) <= Earned(large, q)
  {
    Money.ProductMonotone(small, p, q);
    Commutes(small, q);
    Commutes(large, q);
    Money.ProductMonotone(q, small, large);
    var x, y := Money.Product(small, p), Money.Product(large, q);
    hide Money.Product;
    Money.RoundMonotone(0.0, x / 100.0 * 10000.0);
    Money.RoundMonotone(x / 100.0 * 10000.0, y / 100.0 * 10000.0);
    Money.RoundInt(0);
  }

  lemma {:induction false} Commutes(x: real, y: real)
    ensures Money.Product(x, y) == Money.Product(y, x)
  {
  }

  /** Under progressive tiers a larger total never earns a smaller rebate, although the rate applies to the whole total
      and rebates are rounded. */
  lemma {:induction false} RebateGrows(tiers: seq<Tier>, small: real, large: real, a: real, b: real)
    requires Progressive(tiers) && 0.0 <= small <= large
    requires Earns(small, tiers, a) && Earns(large, tiers, b)
    ensures 0.0 <= a <= b
  {
    hide Money.Parse, Earned, Highest, NoneReached;
    if NoneReached(Some(large), tiers, |tiers|) {
      if !NoneReached(Some(small), tiers, |tiers|) {
        var i :| 0 <= i < |tiers| && EarnsUnder(small, tiers, i, a);
        StillReached(tiers, small, large, i);
      }
    } else {
      var j :| 0 <= j < |tiers| && EarnsUnder(large, tiers, j, b);
      EarnedGrows(large, large, Rate(tiers[j]).value, Rate(tiers[j]).value);
      if !NoneReached(Some(small), tiers, |tiers|) {
        var i :| 0 <= i < |tiers| && EarnsUnder(small, tiers, i, a);
        HigherRate(tiers, small, large, i, j);
        EarnedGrows(small, large, Rate(tiers[i]).value, Rate(tiers[j]).value);
      }
    }
  }

  lemma {:induction false} StillReached(tiers: seq<Tier>, small: real, large: real, i: nat)
    requires Highest(Some(small), tiers, |tiers|, i) && small <= large
    ensures !NoneReached(Some(large), tiers, |tiers|)
  {
    assert Reaches(Some(large), tiers[i]);
  }

  lemma {:induction false} HigherRate(tiers: seq<Tier>, small: real, large: real, i: nat, j: nat)
    requires Progressive(tiers) && small <= large
    requires Highest(Some(small), tiers, |tiers|, i) && Highest(Some(large), tiers, |tiers|, j)
    ensures Rate(tiers[i]).value <= Rate(tiers[j]).value
  {
    hide Money.Parse;
    assert Reaches(Some(large), tiers[i]);
    if Least(tiers[i]).value == Least(tiers[j]).value {
      assert Reaches(Some(small), tiers[j]);
    }
  }
}
