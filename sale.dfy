/** Sales orders with an order-level discount: the resolver, the totals
    recomputation and the invoice values. */
module Sale {

  import opened Vals
  import opened Discount

  datatype OrderLine = OrderLine(priceSubtotal: real, priceTax: real)

  function SumSubtotal(lines: seq<OrderLine>): real
  {
    if lines == [] then 0.0 else SumSubtotal(lines[..|lines| - 1]) + lines[|lines| - 1].priceSubtotal
  }

  function SumTax(lines: seq<OrderLine>): real
  {
    if lines == [] then 0.0 else SumTax(lines[..|lines| - 1]) + lines[|lines| - 1].priceTax
  }

  class SaleOrder {
    const discountMethod: DiscountMethod
    const discountAmount: real
    const lines: seq<OrderLine>
    var amountUntaxed: real
    var amountTax: real
    var amountTotal: real
    var discountAmt: real

    constructor (discountMethod: DiscountMethod, discountAmount: real, lines: seq<OrderLine>)
      ensures this.discountMethod == discountMethod && this.discountAmount == discountAmount
      ensures this.lines == lines
      ensures amountUntaxed == 0.0 && amountTax == 0.0 && amountTotal == 0.0 && discountAmt == 0.0
    {
      this.discountMethod := discountMethod;
      this.discountAmount := discountAmount;
      this.lines := lines;
      amountUntaxed, amountTax, amountTotal, discountAmt := 0.0, 0.0, 0.0, 0.0;
    }

    /** What the discount resolver reads of this order. */
    function View(): DiscountView
      reads this
    {
      DiscountView(discountMethod, discountAmount, amountUntaxed)
    }

    /** The invoice values: the framework's values `res` gain the three
        discount fields of this order; every other entry stays. */
    method PrepareInvoice(res: Dict)
      modifies res
      ensures res.items.Keys == old(res.items.Keys) + {"discount_method", "discount_amount", "discount_amt"}
      ensures res.items["discount_method"] == SelectionValue(discountMethod)
      ensures res.items["discount_amount"] == Num(discountAmount)
      ensures res.items["discount_amt"] == Num(discountAmt)
      ensures forall k :: k in old(res.items) && k !in {"discount_method", "discount_amount", "discount_amt"} ==>
                res.items[k] == old(res.items[k])
    {
      res.items := res.items["discount_method" := SelectionValue(discountMethod)]
                            ["discount_amount" := Num(discountAmount)]
                            ["discount_amt" := Num(discountAmt)];
    }
  }

  ghost function Views(orders: seq<SaleOrder>): (vs: seq<DiscountView>)
    reads orders
    ensures |vs| == |orders|
    ensures forall j {:trigger vs[j]} :: 0 <= j < |orders| ==> vs[j] == orders[j].View()
  {
    seq(|orders|, j requires 0 <= j < |orders| reads orders => orders[j].View())
  }

  /** The line subtotals of each order; the lines do not change, so this
      reads no mutable state. */
  function Subtotals(orders: seq<SaleOrder>): (us: seq<real>)
    ensures |us| == |orders|
    ensures forall j {:trigger us[j]} :: 0 <= j < |orders| ==> us[j] == SumSubtotal(orders[j].lines)
  {
    seq(|orders|, j requires 0 <= j < |orders| => SumSubtotal(orders[j].lines))
  }

  /** The set as the resolver sees it while the n-th order is refreshed: the
      first n orders carry their new untaxed amount, the others the old one. */
  function Refreshed(vs: seq<DiscountView>, untaxed: seq<real>, n: nat): (r: seq<DiscountView>)
    requires |untaxed| == |vs| && n <= |vs|
    ensures |r| == |vs|
    ensures forall j :: 0 <= j < n ==> r[j] == vs[j].(untaxed := untaxed[j])
    ensures forall j :: n <= j < |vs| ==> r[j] == vs[j]
  {
    seq(|vs|, j requires 0 <= j < |vs| => if j < n then vs[j].(untaxed := untaxed[j]) else vs[j])
  }

  /** `_calculate_discount` over a record set. */
  method CalculateDiscount(orders: seq<SaleOrder>) returns (res: real)
    ensures res == Carried(Views(orders))
  {
    ghost var vs := Views(orders);
    res := 0.0;
    var discount := 0.0;
    var k := 0;
    while k < |orders|
      invariant 0 <= k <= |orders|
      invariant discount == Carried(vs[..k]) && res == discount
    {
      var o := orders[k];
      if o.discountMethod == Fix {
        discount := o.discountAmount;
        res := discount;
      } else if o.discountMethod == Per {
        discount := o.amountUntaxed * (o.discountAmount / 100.0);
        res := discount;
      } else {
        res := discount;
      }
      assert vs[..k + 1][..k] == vs[..k];
      k := k + 1;
    }
    assert vs[..|orders|] == vs;
  }

  /** The line sums of `_amount_all`. */
  method SumLines(lines: seq<OrderLine>) returns (amountUntaxed: real, amountTax: real)
    ensures amountUntaxed == SumSubtotal(lines) && amountTax == SumTax(lines)
  {
    amountUntaxed, amountTax := 0.0, 0.0;
    var k := 0;
    while k < |lines|
      invariant 0 <= k <= |lines|
      invariant amountUntaxed == SumSubtotal(lines[..k]) && amountTax == SumTax(lines[..k])
    {
      amountUntaxed := amountUntaxed + lines[k].priceSubtotal;
      amountTax := amountTax + lines[k].priceTax;
      assert lines[..k + 1][..k] == lines[..k];
      k := k + 1;
    }
    assert lines[..|lines|] == lines;
  }

  /** What `_amount_all` leaves on an order: the line sums, and a total that
      is the sum less the discount it stored. */
  ghost predicate Totalled(o: SaleOrder)
    reads o
  {
    && o.amountUntaxed == SumSubtotal(o.lines)
    && o.amountTax == SumTax(o.lines)
    && o.amountTotal == o.amountUntaxed + o.amountTax - o.discountAmt
  }

  /** The views of `orders` are `vs`, element by element. */
  lemma ViewsAre(orders: seq<SaleOrder>, vs: seq<DiscountView>)
    requires |vs| == |orders|
    requires forall j :: 0 <= j < |orders| ==> orders[j].View() == vs[j]
    ensures Views(orders) == vs
  {
  }

  /** One iteration of `_amount_all` as written, on the i-th order of the
      set: the line sums are stored, then the resolver runs over the WHOLE
      set, which holds the refreshed untaxed amounts of the orders up to and
      including this one. */
  method RefreshAt(orders: seq<SaleOrder>, i: nat, ghost before: seq<DiscountView>, ghost us: seq<real>)
    requires forall a, b :: 0 <= a < |orders| && 0 <= b < |orders| && a != b ==> orders[a] != orders[b]
    requires i < |orders| && |before| == |orders| && |us| == |orders|
    requires us[i] == SumSubtotal(orders[i].lines)
    requires forall j :: 0 <= j < |orders| ==> orders[j].View() == Refreshed(before, us, i)[j]
    modifies orders[i]
    ensures Totalled(orders[i])
    ensures orders[i].discountAmt == Carried(Refreshed(before, us, i + 1))
    ensures forall j :: 0 <= j < |orders| ==> orders[j].View() == Refreshed(before, us, i + 1)[j]
  {
    var o := orders[i];
    var amountUntaxed, amountTax := SumLines(o.lines);
    o.amountUntaxed, o.amountTax, o.amountTotal := amountUntaxed, amountTax, amountUntaxed + amountTax;
    ghost var seen := Refreshed(before, us, i + 1);
    ViewsAre(orders, seen);
    var res := CalculateDiscount(orders);
    o.discountAmt, o.amountTotal := res, amountUntaxed + amountTax - res;
  }

  /** The loop of `_amount_all` as written, order by order. */
  method RefreshAll(orders: seq<SaleOrder>, ghost before: seq<DiscountView>, ghost us: seq<real>)
    requires forall a, b :: 0 <= a < |orders| && 0 <= b < |orders| && a != b ==> orders[a] != orders[b]
    requires |before| == |orders| && us == Subtotals(orders)
    requires forall j :: 0 <= j < |orders| ==> orders[j].View() == before[j]
    modifies set o | o in orders
    ensures forall j :: 0 <= j < |orders| ==> orders[j].View() == Refreshed(before, us, |orders|)[j]
    ensures forall j :: 0 <= j < |orders| ==> Totalled(orders[j])
    ensures forall j :: 0 <= j < |orders| ==> orders[j].discountAmt == Carried(Refreshed(before, us, j + 1))
  {
    var i := 0;
    while i < |orders|
      invariant 0 <= i <= |orders|
      invariant forall j :: 0 <= j < |orders| ==> orders[j].View() == Refreshed(before, us, i)[j]
      invariant forall j :: 0 <= j < i ==> Totalled(orders[j])
      invariant forall j :: 0 <= j < i ==> orders[j].discountAmt == Carried(Refreshed(before, us, j + 1))
    {
      RefreshAt(orders, i, before, us);
      i := i + 1;
    }
  }

  /** `_amount_all` as written: each order's discount is the resolver run
      over the whole set while that order is refreshed. */
  method AmountAll(orders: seq<SaleOrder>)
    requires forall a, b :: 0 <= a < |orders| && 0 <= b < |orders| && a != b ==> orders[a] != orders[b]
    modifies set o | o in orders
    ensures forall j :: 0 <= j < |orders| ==> Totalled(orders[j])
    ensures forall j :: 0 <= j < |orders| ==>
              orders[j].discountAmt == Carried(Refreshed(old(Views(orders)), Subtotals(orders), j + 1))
    ensures |orders| == 1 ==> orders[0].discountAmt == Own(orders[0].View())
    ensures |orders| > 0 ==> orders[|orders| - 1].discountAmt == Carried(Views(orders))
  {
    ghost var before := Views(orders);
    ghost var us := Subtotals(orders);
    RefreshAll(orders, before, us);
    ViewsAre(orders, Refreshed(before, us, |orders|));
    if |orders| == 1 {
      SingleRecord(orders[0].View());
      assert Refreshed(before, us, 1) == [orders[0].View()];
    }
  }

  /** `_amount_all` with each order's discount resolved on that order alone:
      the evident intent of the per-order loop. */
  method AmountAllPerOrder(orders: seq<SaleOrder>)
    requires forall a, b :: 0 <= a < |orders| && 0 <= b < |orders| && a != b ==> orders[a] != orders[b]
    modifies set o | o in orders
    ensures forall j :: 0 <= j < |orders| ==> Totalled(orders[j])
    ensures forall j :: 0 <= j < |orders| ==> orders[j].discountAmt == Own(orders[j].View())
  {
    var i := 0;
    while i < |orders|
      invariant 0 <= i <= |orders|
      invariant forall j :: 0 <= j < i ==> Totalled(orders[j])
      invariant forall j :: 0 <= j < i ==> orders[j].discountAmt == Own(orders[j].View())
    {
      var o := orders[i];
      var amountUntaxed, amountTax := SumLines(o.lines);
      o.amountUntaxed, o.amountTax, o.amountTotal := amountUntaxed, amountTax, amountUntaxed + amountTax;
      var res := CalculateDiscount([o]);
      SingleRecord(o.View());
      o.discountAmt, o.amountTotal := res, amountUntaxed + amountTax - res;
      i := i + 1;
    }
  }

  /** Two orders refreshed together, the first without a discount method and
      the second with a fixed discount of 10: the set-wide resolver charges
      the first order 10, while its own discount is 0. */
  lemma SetWideDiscountExample()
    ensures var vs := [DiscountView(Unset, 0.0, 100.0), DiscountView(Fix, 10.0, 50.0)];
            Carried(vs) == 10.0 && Own(vs[0]) == 0.0
  {
  }
}
