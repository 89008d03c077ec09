/** Exact decimal money (internal/money/money.go).  A rational is a `real`, exact as big.Rat is;
    a stored amount is an integer number of units of 1/10000. */
module Money {
  import opened Prelude

  // ---- rounding -----------------------------------------------------------

  /** Nearest integer, ties away from zero: the rounding of a fixed-point rendering. */
  function Round(x: real): int {
    if x >= 0.0 then (x + 0.5).Floor else -((0.5 - x).Floor)
  }

  function Abs(x: real): real { if x < 0.0 then -x else x }

  predicate IsTie(x: real) { x - x.Floor as real == 0.5 }

  /** Round is the one integer within half a unit of x, and on a tie the one further from zero. */
  lemma {:induction false} RoundNearest(x: real, n: int)
    ensures n == Round(x) <==>
            Abs(n as real - x) < 0.5 || (Abs(n as real - x) == 0.5 && Abs(n as real) > Abs(x))
  {
    var r := Round(x);
    assert -0.5 <= r as real - x <= 0.5;
    if Abs(n as real - x) <= 0.5 {
      assert -1.0 <= n as real - r as real <= 1.0;
      assert n == r - 1 || n == r || n == r + 1;
    }
  }

  lemma {:induction false} RoundMonotone(x: real, y: real)
    requires x <= y
    ensures Round(x) <= Round(y)
  {
  }

  lemma {:induction false} RoundInt(n: int)
    ensures Round(n as real) == n
  {
  }

  lemma {:induction false} RoundWithinHalf(x: real)
    ensures -0.5 <= Round(x) as real - x <= 0.5
  {
  }

  /** Rounding before or after adding a whole amount agree exactly when no half-unit tie changes
      the side of zero it is rounded on. */
  lemma {:induction false} RoundShift(h: int, q: real)
    ensures Round(h as real + q) == h + Round(q) <==>
            (!IsTie(q) || (q > 0.0 <==> h as real + q > 0.0))
  {
    var f := q.Floor;
    assert (h as real + q).Floor == h + f;
    if IsTie(q) {
      assert q == f as real + 0.5;
      assert q + 0.5 == (f + 1) as real;
      assert 0.5 - q == (-f) as real;
      assert h as real + q + 0.5 == (h + f + 1) as real;
      assert 0.5 - (h as real + q) == (-h - f) as real;
    } else {
      RoundWithinHalf(q);
      RoundWithinHalf(h as real + q);
      assert -1.0 <= Round(h as real + q) as real - (h + Round(q)) as real <= 1.0;
      RoundNearest(q, Round(h as real + q) - h);
      NoTieStrict(q);
      NoTieStrict(h as real + q);
    }
  }

  lemma {:induction false} NoTieStrict(x: real)
    requires !IsTie(x)
    ensures Abs(Round(x) as real - x) < 0.5
  {
    var f := x.Floor;
    if x - f as real < 0.5 {
      assert (x + 0.5).Floor == f;
      assert (0.5 - x).Floor == -f;
    } else {
      assert (x + 0.5).Floor == f + 1;
      assert (0.5 - x).Floor == -f - 1;
    }
  }

  // ---- text form ----------------------------------------------------------

  const SCALE: nat := 4

  function Amount(units: int): real { units as real / 10000.0 }

  /** The stored units of an exact value, rounded at the fourth decimal. */
  function ToUnits(r: real): int { Round(r * 10000.0) }

  function FormatNat(units: nat): string {
    Itoa(units / 10000) + "." + PadZeros(Itoa(units % 10000), SCALE)
  }

  /** Fixed four-decimal text.  The sign is that of the exact value, so a tiny negative reads "-0.0000". */
  function Format(r: real): string {
    if r < 0.0 then "-" + FormatNat(RoundNat(-r)) else FormatNat(RoundNat(r))
  }

  function RoundNat(r: real): nat
    requires r >= 0.0
  {
    Round(r * 10000.0)
  }

  function Pow10(k: nat): nat { if k == 0 then 1 else 10 * Pow10(k - 1) }

  lemma {:induction false} Pow10Positive(k: nat)
    ensures Pow10(k) > 0
  {
    if k > 0 { Pow10Positive(k - 1); }
  }

  function DotIndex(s: string): (k: nat)
    ensures k <= |s|
    ensures k < |s| ==> s[k] == '.'
    ensures forall i | 0 <= i < k :: s[i] != '.'
  {
    if s == [] || s[0] == '.' then 0 else 1 + DotIndex(s[1..])
  }

  /** digits [ "." digits ], with at least one digit. */
  function ParseUnsigned(s: string): Option<real> {
    var k := DotIndex(s);
    var whole := s[..k];
    var frac := if k < |s| then s[k + 1..] else "";
    if AllDigits(whole) && AllDigits(frac) && |whole| + |frac| > 0 then
      Pow10Positive(|frac|);
      Some(Atoi(whole + frac) as real / Pow10(|frac|) as real)
    else None
  }

  function Negate(o: Option<real>): Option<real> {
    match o case None => None case Some(v) => Some(-v)
  }

  /** Reads a plain signed decimal exactly; None is the source's invalid-decimal error. */
  function Parse(s: string): Option<real> {
    if s == [] then None
    else if s[0] == '-' then Negate(ParseUnsigned(s[1..]))
    else if s[0] == '+' then ParseUnsigned(s[1..])
    else ParseUnsigned(s)
  }

  lemma {:induction false} ItoaShort(n: nat, k: nat)
    requires 0 < k && n < Pow10(k)
    ensures |Itoa(n)| <= k
  {
    if n >= 10 {
      assert k > 1;
      ItoaShort(n / 10, k - 1);
    }
  }

  lemma {:induction false} AtoiConcat(a: string, b: string)
    requires AllDigits(a) && AllDigits(b)
    ensures AllDigits(a + b)
    ensures Atoi(a + b) == Atoi(a) * Pow10(|b|) + Atoi(b)
  {
    if b == [] {
      assert a + b == a;
    } else {
      var n := |b| - 1;
      var b', c := b[..n], b[n];
      assert b == b' + [c] && a + b == (a + b') + [c];
      AtoiConcat(a, b');
      calc {
        Atoi(a + b);
        { AtoiSnoc(a + b', c); }
        Atoi(a + b') * 10 + Atoi([c]);
        Atoi(a) * Pow10(n) * 10 + Atoi(b') * 10 + Atoi([c]);
        { AtoiSnoc(b', c); TimesTen(Atoi(a), Pow10(n)); }
        Atoi(a) * Pow10(|b|) + Atoi(b);
      }
    }
  }

  lemma {:induction false} AtoiSnoc(s: string, c: char)
    requires AllDigits(s) && IsDigit(c)
    ensures AllDigits(s + [c])
    ensures AllDigits([c]) && Atoi(s + [c]) == Atoi(s) * 10 + Atoi([c])
  {
    assert (s + [c])[..|s|] == s;
    assert [c][..0] == [];
  }

  lemma {:induction false} TimesTen(x: int, p: int)
    ensures x * (10 * p) == (x * p) * 10
  {
  }

  lemma {:induction false} DotAfterDigits(whole: string, frac: string)
    requires AllDigits(whole)
    ensures DotIndex(whole + "." + frac) == |whole|
    ensures (whole + "." + frac)[..|whole|] == whole
    ensures (whole + "." + frac)[|whole| + 1..] == frac
  {
    var s := whole + "." + frac;
    assert s[|whole|] == '.';
    assert forall i | 0 <= i < |whole| :: s[i] == whole[i] && IsDigit(whole[i]);
  }

  lemma {:induction false} ParseFormatNat(u: nat)
    ensures ParseUnsigned(FormatNat(u)) == Some(Amount(u))
    ensures FormatNat(u) != [] && IsDigit(FormatNat(u)[0])
  {
    var whole, low := Itoa(u / 10000), Itoa(u % 10000);
    var frac := PadZeros(low, 4);
    hide Itoa, PadZeros, Atoi, DotIndex;
    assert Pow10(4) == 10000 by {
      assert Pow10(0) == 1 && Pow10(1) == 10 && Pow10(2) == 100 && Pow10(3) == 1000;
    }
    ItoaShort(u % 10000, 4);
    PadZerosValue(low, 4);
    DotAfterDigits(whole, frac);
    AtoiConcat(whole, frac);
    AtoiItoa(u / 10000);
    AtoiItoa(u % 10000);
    assert FormatNat(u) == whole + "." + frac;
    assert Atoi(whole + frac) == u;
    assert Pow10(|frac|) as real == 10000.0;
  }

  /** Reading back a rendered value gives the value rounded to four decimals: formatting loses
      nothing but the rounding. */
  lemma {:induction false} ParseFormat(r: real)
    ensures Parse(Format(r)) == Some(Amount(ToUnits(r)))
  {
    hide FormatNat, ParseUnsigned;
    var u := RoundNat(Abs(r));
    ParseFormatNat(u);
    if r < 0.0 {
      assert Format(r)[1..] == FormatNat(u);
      assert ToUnits(r) == -(u as int);
      assert Amount(-(u as int)) == -Amount(u);
    } else {
      assert Format(r) == FormatNat(u) && ToUnits(r) == u;
    }
  }

  /** A stored amount survives the text form unchanged. */
  lemma {:induction false} StoredRoundTrip(u: int)
    ensures ToUnits(Amount(u)) == u
    ensures Parse(Format(Amount(u))) == Some(Amount(u))
  {
    assert Amount(u) * 10000.0 == u as real;
    RoundInt(u);
    ParseFormat(Amount(u));
  }

  // ---- operations on text -------------------------------------------------

  function Product(x: real, y: real): real { x * y }

  function LineTotal(quantity: string, unitPrice: string): Option<string> {
    match (Parse(quantity), Parse(unitPrice))
    case (Some(q), Some(p)) => Some(Format(Product(q, p)))
    case _ => None
  }

  function Sub(a: string, b: string): Option<string> {
    match (Parse(a), Parse(b))
    case (Some(x), Some(y)) => Some(Format(x - y))
    case _ => None
  }

  function Cmp(a: string, b: string): Option<int> {
    match (Parse(a), Parse(b))
    case (Some(x), Some(y)) => Some(if x < y then -1 else if x == y then 0 else 1)
    case _ => None
  }

  function RowTotal(quantity: string, unitPrice: string, discount: string): Option<string> {
    match (Parse(quantity), Parse(unitPrice), Parse(discount))
    case (Some(q), Some(p), Some(d)) => Some(Format(Product(q, p) - d))
    case _ => None
  }

  function Percent(amount: string, percent: string): Option<string> {
    match (Parse(amount), Parse(percent))
    case (Some(a), Some(p)) => Some(Format(Product(a, p) / 100.0))
    case _ => None
  }

  /** Exact total of decimal texts; None if any of them is invalid. */
  function Total(values: seq<string>): Option<real> {
    if values == [] then Some(0.0)
    else match (Total(values[..|values| - 1]), Parse(values[|values| - 1]))
      case (Some(acc), Some(r)) => Some(acc + r)
      case _ => None
  }

  lemma {:induction false} TotalNone(values: seq<string>, k: nat)
    requires k < |values| && Parse(values[k]).None?
    ensures Total(values).None?
  {
    if k < |values| - 1 { TotalNone(values[..|values| - 1], k); }
  }

  /** The accumulating loop of Sum, which stops at the first invalid text. */
  method SumText(values: seq<string>) returns (r: Option<string>)
    ensures r == match Total(values) case None => None case Some(t) => Some(Format(t))
  {
    hide Parse, Format;
    var acc := 0.0;
    for i := 0 to |values|
      invariant Total(values[..i]) == Some(acc)
    {
      var v := Parse(values[i]);
      if v.None? {
        TotalNone(values, i);
        return None;
      }
      assert values[..i + 1][..i] == values[..i];
      acc := acc + v.value;
    }
    assert values[..|values|] == values;
    return Some(Format(acc));
  }

  // ---- the same operations on stored units --------------------------------

  function Text(u: int): string { Format(Amount(u)) }

  /** Commission-style percentage of a stored amount at a stored rate (both in 1/10000). */
  function PercentUnits(amount: int, rate: int): int {
    Round(Product(amount as real, rate as real) / 1000000.0)
  }

  function LineUnits(quantity: int, price: int): int {
    Round(Product(quantity as real, price as real) / 10000.0)
  }

  predicate AreTexts(texts: seq<string>, us: seq<int>) {
    |texts| == |us| && forall i | 0 <= i < |us| :: texts[i] == Text(us[i])
  }

  lemma {:induction false} TotalOfStored(texts: seq<string>, us: seq<int>)
    requires AreTexts(texts, us)
    ensures Total(texts) == Some(Amount(Sum(us)))
  {
    hide Parse, Format, ToUnits, Text;
    if us != [] {
      var n := |us| - 1;
      TotalOfStored(texts[..n], us[..n]);
      TextRoundTrip(us[n]);
      AmountSum(Sum(us[..n]), us[n]);
      assert texts[n] == Text(us[n]);
    }
  }

  lemma {:induction false} TextRoundTrip(u: int)
    ensures Parse(Text(u)) == Some(Amount(u))
  {
    StoredRoundTrip(u);
  }

  lemma {:induction false} AmountSum(a: int, b: int)
    ensures Amount(a) + Amount(b) == Amount(a + b)
    ensures Amount(a) - Amount(b) == Amount(a - b)
  {
  }

  /** On stored amounts, subtraction and comparison of texts are exact integer arithmetic on units. */
  lemma {:induction false} StoredSubCmp(a: int, b: int)
    ensures Sub(Text(a), Text(b)) == Some(Text(a - b))
    ensures Cmp(Text(a), Text(b)) == Some(if a < b then -1 else if a == b then 0 else 1)
  {
    hide Parse, Format, ToUnits;
    StoredRoundTrip(a);
    StoredRoundTrip(b);
    AmountSum(a, b);
  }

  /** A product of stored amounts is exact until the one rounding of its text. */
  lemma {:induction false} StoredLineTotal(a: int, b: int)
    ensures LineTotal(Text(a), Text(b)).Some?
    ensures Parse(LineTotal(Text(a), Text(b)).value) == Some(Amount(LineUnits(a, b)))
  {
    hide Parse, Format, ToUnits;
    StoredRoundTrip(a);
    StoredRoundTrip(b);
    ScaleProduct(a as real, b as real);
    var r := Product(Amount(a), Amount(b));
    RescaleUnits(r, Product(a as real, b as real) / 10000.0);
    ProductsOfParsed(Text(a), Text(b), Amount(a), Amount(b));
    ParseFormat(r);
  }

  /** So is a percentage, whose rate is itself a stored amount. */
  lemma {:induction false} StoredPercent(a: int, b: int)
    ensures Percent(Text(a), Text(b)).Some?
    ensures Parse(Percent(Text(a), Text(b)).value) == Some(Amount(PercentUnits(a, b)))
  {
    hide Parse, Format, ToUnits;
    StoredRoundTrip(a);
    StoredRoundTrip(b);
    ScaleProduct(a as real, b as real);
    var r := Product(Amount(a), Amount(b)) / 100.0;
    RescaleUnits(r, Product(a as real, b as real) / 1000000.0);
    ProductsOfParsed(Text(a), Text(b), Amount(a), Amount(b));
    ParseFormat(r);
  }

  lemma {:induction false} ProductsOfParsed(s: string, t: string, x: real, y: real)
    requires Parse(s) == Some(x) && Parse(t) == Some(y)
    ensures LineTotal(s, t) == Some(Format(Product(x, y)))
    ensures Percent(s, t) == Some(Format(Product(x, y) / 100.0))
  {
    hide Parse, Format;
  }

  lemma {:induction false} RescaleUnits(r: real, x: real)
    requires r * 10000.0 == x
    ensures ToUnits(r) == Round(x)
  {
  }

  lemma {:induction false} ScaleProduct(x: real, y: real)
    ensures Product(x / 10000.0, y / 10000.0) == Product(x, y) / 100000000.0
  {
    var u, v := x / 10000.0, y / 10000.0;
    assert x == u * 10000.0 && y == v * 10000.0;
    calc {
      x * y;
      (u * 10000.0) * (v * 10000.0);
      (u * v) * 100000000.0;
    }
  }

  // ---- percentages --------------------------------------------------------

  lemma {:induction false} ProductMonotone(x: real, y: real, z: real)
    requires 0.0 <= x && 0.0 <= y <= z
    ensures 0.0 <= Product(x, y) <= Product(x, z)
  {
  }

  /** A rate in 0..100% takes between nothing and everything. */
  lemma {:induction false} PercentBounds(amount: int, rate: int)
    requires 0 <= amount && 0 <= rate <= 1000000
    ensures 0 <= PercentUnits(amount, rate) <= amount
  {
    var x := Product(amount as real, rate as real) / 1000000.0;
    ProductMonotone(amount as real, rate as real, 1000000.0);
    RoundMonotone(0.0, x);
    RoundMonotone(x, amount as real);
    RoundInt(amount);
  }
}
