/** Fanning an order out into one sub-order per vendor, with the operator's commission
    (internal/modules/marketplace/split.go).  Amounts are in units of 1/10000. */
module Split {
  import opened Prelude
  import opened Money

  datatype Line = Line(id: int, rowTotal: int, vendor: Option<int>)

  datatype VendorOrder = VendorOrder(vendor: int, gross: int, rate: int, commission: int, net: int)

  datatype Bucket = Bucket(itemIds: seq<int>, totals: seq<int>)

  // ---- specification ------------------------------------------------------

  /** The lines a vendor owns, in order. */
  function BucketOf(rows: seq<Line>, v: int): Bucket {
    if rows == [] then Bucket([], [])
    else
      var last := rows[|rows| - 1];
      var b := BucketOf(rows[..|rows| - 1], v);
      if last.vendor == Some(v) then Bucket(b.itemIds + [last.id], b.totals + [last.rowTotal]) else b
  }

  /** Vendors in first-seen order. */
  function Vendors(rows: seq<Line>): seq<int> {
    if rows == [] then []
    else
      var vs := Vendors(rows[..|rows| - 1]);
      match rows[|rows| - 1].vendor
      case None => vs
      case Some(v) => if v in vs then vs else vs + [v]
  }

  function Gross(rows: seq<Line>, v: int): int { Sum(BucketOf(rows, v).totals) }

  function SubOrder(rows: seq<Line>, v: int, rate: int): VendorOrder {
    var gross := Gross(rows, v);
    var commission := PercentUnits(gross, rate);
    VendorOrder(v, gross, rate, commission, gross - commission)
  }

  function SubOrders(rows: seq<Line>, vs: seq<int>, rates: map<int, int>): (r: seq<VendorOrder>)
    requires forall i | 0 <= i < |vs| :: vs[i] in rates
    ensures |r| == |vs|
    ensures forall i | 0 <= i < |vs| :: r[i] == SubOrder(rows, vs[i], rates[vs[i]])
  {
    if vs == [] then []
    else
      var n := |vs| - 1;
      SubOrders(rows, vs[..n], rates) + [SubOrder(rows, vs[n], rates[vs[n]])]
  }

  predicate AllKnown(vs: seq<int>, rates: map<int, int>) {
    forall i | 0 <= i < |vs| :: vs[i] in rates
  }

  function TagItems(ids: seq<int>, v: int, tags: map<int, int>): map<int, int> {
    if ids == [] then tags else TagItems(ids[..|ids| - 1], v, tags)[ids[|ids| - 1] := v]
  }

  function TagAll(rows: seq<Line>, vs: seq<int>, tags: map<int, int>): map<int, int> {
    if vs == [] then tags
    else
      var n := |vs| - 1;
      TagItems(BucketOf(rows, vs[n]).itemIds, vs[n], TagAll(rows, vs[..n], tags))
  }

  // ---- the transaction ----------------------------------------------------

  class OrderStore {
    var vendorOrders: seq<VendorOrder>
    var itemVendor: map<int, int>

    constructor ()
      ensures vendorOrders == [] && itemVendor == map[]
    {
      vendorOrders, itemVendor := [], map[];
    }

    /** SplitOrder inside its transaction: a vendor that cannot be loaded fails the whole order. */
    method SplitOrder(rows: seq<Line>, rates: map<int, int>) returns (ok: bool)
      modifies this
      ensures ok <==> AllKnown(Vendors(rows), rates)
      ensures ok ==> vendorOrders == old(vendorOrders) + SubOrders(rows, Vendors(rows), rates)
      ensures ok ==> itemVendor == TagAll(rows, Vendors(rows), old(itemVendor))
      ensures !ok ==> vendorOrders == old(vendorOrders) && itemVendor == old(itemVendor)
    {
      hide PercentUnits, Sum;
      var buckets, order := GroupByVendor(rows);
      var written, tagged := vendorOrders, itemVendor;
      for k := 0 to |order|
        invariant AllKnown(order[..k], rates)
        invariant vendorOrders == written + SubOrders(rows, order[..k], rates)
        invariant itemVendor == TagAll(rows, order[..k], tagged)
      {
        var v := order[k];
        assert order[..k + 1][..k] == order[..k];
        if v !in rates {
          vendorOrders, itemVendor := written, tagged;
          return false;
        }
        var gross := Sum(buckets[v].totals);
        var commission := PercentUnits(gross, rates[v]);
        vendorOrders := vendorOrders + [VendorOrder(v, gross, rates[v], commission, gross - commission)];
        TagLines(buckets[v].itemIds, v);
      }
      assert order[..|order|] == order;
      return true;
    }

    method TagLines(ids: seq<int>, v: int)
      modifies this`itemVendor
      ensures itemVendor == TagItems(ids, v, old(itemVendor))
    {
      for j := 0 to |ids|
        invariant itemVendor == TagItems(ids[..j], v, old(itemVendor))
      {
        assert ids[..j + 1][..j] == ids[..j];
        itemVendor := itemVendor[ids[j] := v];
      }
      assert ids[..|ids|] == ids;
    }
  }

  /** The grouping loop: line ids and totals by vendor, and the vendors in first-seen order. */
  method GroupByVendor(rows: seq<Line>) returns (buckets: map<int, Bucket>, order: seq<int>)
    ensures order == Vendors(rows)
    ensures forall v :: v in buckets <==> v in order
    ensures forall v | v in buckets :: buckets[v] == BucketOf(rows, v)
  {
    buckets, order := map[], [];
    for i := 0 to |rows|
      invariant order == Vendors(rows[..i])
      invariant forall v :: v in buckets <==> v in order
      invariant forall v | v in buckets :: buckets[v] == BucketOf(rows[..i], v)
    {
      assert rows[..i + 1][..i] == rows[..i];
      var it := rows[i];
      if it.vendor.Some? {
        var v := it.vendor.value;
        if v !in buckets {
          UnseenVendorEmpty(rows[..i], v);
          buckets := buckets[v := Bucket([], [])];
          order := order + [v];
        }
        var b := buckets[v];
        buckets := buckets[v := Bucket(b.itemIds + [it.id], b.totals + [it.rowTotal])];
      }
    }
    assert rows[..|rows|] == rows;
  }

  // ---- what the split promises --------------------------------------------

  predicate Distinct(xs: seq<int>) { forall i, j | 0 <= i < j < |xs| :: xs[i] != xs[j] }

  predicate OnOrder(rows: seq<Line>, v: int) { exists i | 0 <= i < |rows| :: rows[i].vendor == Some(v) }

  /** One sub-order per vendor appearing on the order, and for no other vendor. */
  lemma {:induction false} VendorsExact(rows: seq<Line>, v: int)
    ensures Distinct(Vendors(rows))
    ensures v in Vendors(rows) <==> OnOrder(rows, v)
  {
    if rows != [] {
      var n := |rows| - 1;
      VendorsExact(rows[..n], v);
      assert OnOrder(rows, v) <==> OnOrder(rows[..n], v) || rows[n].vendor == Some(v);
    }
  }

  function RowTotals(rows: seq<Line>): seq<int> {
    if rows == [] then [] else RowTotals(rows[..|rows| - 1]) + [rows[|rows| - 1].rowTotal]
  }

  function OperatorTotal(rows: seq<Line>): int {
    if rows == [] then 0
    else OperatorTotal(rows[..|rows| - 1]) + if rows[|rows| - 1].vendor.None? then rows[|rows| - 1].rowTotal else 0
  }

  function GrossOver(rows: seq<Line>, vs: seq<int>): int {
    if vs == [] then 0 else GrossOver(rows, vs[..|vs| - 1]) + Gross(rows, vs[|vs| - 1])
  }

  /** Commission plus net, over all sub-orders. */
  function Disbursed(os: seq<VendorOrder>): int {
    if os == [] then 0 else Disbursed(os[..|os| - 1]) + os[|os| - 1].commission + os[|os| - 1].net
  }

  /** A further line adds its total to its vendor's gross once, wherever the vendor is listed. */
  lemma {:induction false} GrossOverAddsLine(rows: seq<Line>, line: Line, vs: seq<int>)
    requires Distinct(vs)
    ensures GrossOver(rows + [line], vs) ==
            GrossOver(rows, vs) + if line.vendor.Some? && line.vendor.value in vs then line.rowTotal else 0
  {
    if vs != [] {
      var n := |vs| - 1;
      GrossOverAddsLine(rows, line, vs[..n]);
      assert (rows + [line])[..|rows|] == rows;
      SumAppend(BucketOf(rows, vs[n]).totals, line.rowTotal);
      assert vs == vs[..n] + [vs[n]];
    }
  }

  lemma {:induction false} UnseenVendorEmpty(rows: seq<Line>, v: int)
    requires v !in Vendors(rows)
    ensures BucketOf(rows, v) == Bucket([], [])
  {
    if rows != [] { UnseenVendorEmpty(rows[..|rows| - 1], v); }
  }

  lemma {:induction false} GrossConserved(rows: seq<Line>)
    ensures Sum(RowTotals(rows)) == OperatorTotal(rows) + GrossOver(rows, Vendors(rows))
  {
    if rows != [] {
      var n := |rows| - 1;
      var init, line := rows[..n], rows[n];
      assert rows == init + [line];
      GrossConserved(init);
      SumAppend(RowTotals(init), line.rowTotal);
      VendorsExact(init, 0);
      GrossOverAddsLine(init, line, Vendors(init));
      if line.vendor.Some? && line.vendor.value !in Vendors(init) {
        var v := line.vendor.value;
        UnseenVendorEmpty(init, v);
        SumAppend([], line.rowTotal);
        assert Vendors(rows)[..|Vendors(init)|] == Vendors(init);
      }
    }
  }

  lemma {:induction false} DisbursedIsGross(rows: seq<Line>, vs: seq<int>, rates: map<int, int>)
    requires AllKnown(vs, rates)
    ensures Disbursed(SubOrders(rows, vs, rates)) == GrossOver(rows, vs)
  {
    if vs != [] {
      var n := |vs| - 1;
      DisbursedIsGross(rows, vs[..n], rates);
      assert SubOrders(rows, vs, rates)[..n] == SubOrders(rows, vs[..n], rates);
    }
  }

  /** No unit of money is created or lost: every line's total is operator revenue, commission or vendor net. */
  lemma {:induction false} SplitConserves(rows: seq<Line>, rates: map<int, int>)
    requires AllKnown(Vendors(rows), rates)
    ensures Sum(RowTotals(rows)) == OperatorTotal(rows) + Disbursed(SubOrders(rows, Vendors(rows), rates))
  {
    GrossConserved(rows);
    DisbursedIsGross(rows, Vendors(rows), rates);
  }

  /** With a rate between 0 and 100% and non-negative lines, a vendor nets between nothing and its gross. */
  lemma {:induction false} NetWithinGross(rows: seq<Line>, v: int, rate: int)
    requires 0 <= rate <= 1000000
    requires forall i | 0 <= i < |rows| :: 0 <= rows[i].rowTotal
    ensures 0 <= SubOrder(rows, v, rate).net <= SubOrder(rows, v, rate).gross
  {
    BucketNonNegative(rows, v);
    SumNonNegative(BucketOf(rows, v).totals);
    PercentBounds(Gross(rows, v), rate);
  }

  lemma {:induction false} BucketNonNegative(rows: seq<Line>, v: int)
    requires forall i | 0 <= i < |rows| :: 0 <= rows[i].rowTotal
    ensures forall i | 0 <= i < |BucketOf(rows, v).totals| :: 0 <= BucketOf(rows, v).totals[i]
  {
    if rows != [] { BucketNonNegative(rows[..|rows| - 1], v); }
  }

  // ---- one rounding against many ------------------------------------------

  function PerLine(totals: seq<int>, rate: int): seq<int> {
    if totals == [] then []
    else PerLine(totals[..|totals| - 1], rate) + [PercentUnits(totals[|totals| - 1], rate)]
  }

  function ExactShare(amount: int, rate: int): real {
    Product(amount as real, rate as real) / 1000000.0
  }

  lemma {:induction false} PerLineNearExact(totals: seq<int>, rate: int)
    ensures -(|totals| as real) / 2.0 <= Sum(PerLine(totals, rate)) as real - ExactShare(Sum(totals), rate)
    ensures Sum(PerLine(totals, rate)) as real - ExactShare(Sum(totals), rate) <= |totals| as real / 2.0
  {
    hide Round;
    if totals == [] {
      assert ExactShare(0, rate) == 0.0;
    } else {
      var n := |totals| - 1;
      PerLineNearExact(totals[..n], rate);
      SumAppend(PerLine(totals[..n], rate), PercentUnits(totals[n], rate));
      ShareAdds(Sum(totals[..n]), totals[n], rate);
      RoundWithinHalf(ExactShare(totals[n], rate));
    }
  }

  lemma {:induction false} ShareAdds(a: int, b: int, rate: int)
    ensures ExactShare(a + b, rate) == ExactShare(a, rate) + ExactShare(b, rate)
  {
    assert (a + b) as real == a as real + b as real;
  }

  /** Commission on the whole bucket differs from commission line by line by at most (n+1)/2 units. */
  lemma {:induction false} CommissionNearPerLine(totals: seq<int>, rate: int)
    ensures -(|totals| + 1) <= 2 * (PercentUnits(Sum(totals), rate) - Sum(PerLine(totals, rate))) <= |totals| + 1
  {
    PerLineNearExact(totals, rate);
    RoundWithinHalf(ExactShare(Sum(totals), rate));
  }

  // ---- tagging ------------------------------------------------------------

  lemma {:induction false} TagItemsAt(ids: seq<int>, v: int, tags: map<int, int>, id: int)
    ensures id in TagItems(ids, v, tags) <==> id in tags || id in ids
    ensures id in ids ==> TagItems(ids, v, tags)[id] == v
    ensures id !in ids && id in tags ==> TagItems(ids, v, tags)[id] == tags[id]
  {
    if ids != [] {
      var n := |ids| - 1;
      TagItemsAt(ids[..n], v, tags, id);
      assert ids == ids[..n] + [ids[n]];
    }
  }

  lemma {:induction false} BucketHolds(rows: seq<Line>, v: int, id: int)
    ensures id in BucketOf(rows, v).itemIds <==>
            exists i | 0 <= i < |rows| :: rows[i].id == id && rows[i].vendor == Some(v)
  {
    if rows != [] {
      var n := |rows| - 1;
      BucketHolds(rows[..n], v, id);
      assert forall i | 0 <= i < n :: rows[..n][i] == rows[i];
    }
  }

  /** On freshly inserted lines with distinct ids, exactly the vendor-owned lines are tagged, each with its owner. */
  lemma {:induction false} TagsExact(rows: seq<Line>, vs: seq<int>, i: nat)
    requires i < |rows|
    requires forall a, b | 0 <= a < b < |rows| :: rows[a].id != rows[b].id
    ensures rows[i].id in TagAll(rows, vs, map[]) <==> rows[i].vendor.Some? && rows[i].vendor.value in vs
    ensures rows[i].id in TagAll(rows, vs, map[]) ==> Some(TagAll(rows, vs, map[])[rows[i].id]) == rows[i].vendor
  {
    if vs != [] {
      var n := |vs| - 1;
      TagsExact(rows, vs[..n], i);
      TagItemsAt(BucketOf(rows, vs[n]).itemIds, vs[n], TagAll(rows, vs[..n], map[]), rows[i].id);
      BucketHolds(rows, vs[n], rows[i].id);
      assert vs == vs[..n] + [vs[n]];
    }
  }

  /** The total of the lines a vendor owns. */
  function OwnTotal(rows: seq<Line>, v: int): int {
    if rows == [] then 0
    else OwnTotal(rows[..|rows| - 1], v) + if rows[|rows| - 1].vendor == Some(v) then rows[|rows| - 1].rowTotal else 0
  }

  lemma {:induction false} GrossIsOwn(rows: seq<Line>, v: int)
    ensures Gross(rows, v) == OwnTotal(rows, v)
  {
    if rows != [] {
      var n := |rows| - 1;
      GrossIsOwn(rows[..n], v);
      SumAppend(BucketOf(rows[..n], v).totals, rows[n].rowTotal);
    }
  }

  /** A sub-order says whose it is, the total of the vendor's own lines, the vendor's rate, that part of the total in percent
      as the commission, to the nearest unit, and the rest as net. */
  lemma {:induction false} SubOrderIs(rows: seq<Line>, vs: seq<int>, rates: map<int, int>, k: nat)
    requires k < |vs| && AllKnown(vs, rates)
    ensures |SubOrders(rows, vs, rates)| == |vs|
    ensures var o := SubOrders(rows, vs, rates)[k];
            && o.vendor == vs[k] && o.gross == OwnTotal(rows, vs[k]) && o.rate == rates[vs[k]]
            && o.commission == Round(Product(o.gross as real, o.rate as real) / 1000000.0) && o.net == o.gross - o.commission
  {
    GrossIsOwn(rows, vs[k]);
    hide Round, Product;
  }
}
