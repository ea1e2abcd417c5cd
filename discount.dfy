/** The discount resolver shared by sales orders and journal entries. */
module Discount {

  import opened Vals

  /** The `discount_method` selection: 'fix', 'per', or not set. */
  datatype DiscountMethod = Fix | Per | Unset

  /** How the selection is written into a dictionary of field values. */
  function SelectionValue(m: DiscountMethod): Value
  {
    match m
    case Fix => Str("fix")
    case Per => Str("per")
    case Unset => Bool(false)
  }

  /** What the resolver reads of one record. */
  datatype DiscountView = DiscountView(kind: DiscountMethod, amount: real, untaxed: real)

  /** The discount a single record asks for: a fixed amount, a percentage of
      the untaxed amount, or nothing. */
  function Own(v: DiscountView): (r: real)
    ensures v.kind == Fix ==> r == v.amount
    ensures v.kind == Per ==> r == v.untaxed * v.amount / 100.0
    ensures v.kind == Unset ==> r == 0.0
  {
    match v.kind
    case Fix => v.amount
    case Per => v.untaxed * (v.amount / 100.0)
    case Unset => 0.0
  }

  /** One iteration of the sales-order resolver: a record with a method
      replaces the carried discount, a record without one keeps it. */
  function CarriedStep(v: DiscountView, discount: real): real
  {
    if v.kind == Unset then discount else Own(v)
  }

  /** The sales-order resolver over a record set, in record order: the loop
      starts from 0 and the last iteration's value is returned. */
  function Carried(vs: seq<DiscountView>): (r: real)
    ensures vs == [] ==> r == 0.0
    ensures vs != [] && vs[|vs| - 1].kind != Unset ==> r == Own(vs[|vs| - 1])
  {
    if vs == [] then 0.0
    else CarriedStep(vs[|vs| - 1], Carried(vs[..|vs| - 1]))
  }

  /** The journal-entry resolver over a record set: every iteration
      reassigns the result, and the fallback `discount` stays 0. */
  function LastOwn(vs: seq<DiscountView>): (r: real)
    ensures vs == [] || vs[|vs| - 1].kind == Unset ==> r == 0.0
    ensures vs != [] ==> r == Carried([vs[|vs| - 1]])
  {
    if vs == [] then 0.0
    else
      assert [vs[|vs| - 1]][..0] == [];
      Own(vs[|vs| - 1])
  }

  /** A percentage between 0 and 100 of a non-negative subtotal never
      exceeds the subtotal. */
  lemma PercentageWithinSubtotal(v: DiscountView)
    requires v.kind == Per && 0.0 <= v.amount <= 100.0 && 0.0 <= v.untaxed
    ensures 0.0 <= Own(v) <= v.untaxed
  {
    var p := v.amount / 100.0;
    assert 0.0 <= p <= 1.0;
    assert v.untaxed - v.untaxed * p == v.untaxed * (1.0 - p);
    ProductNonNegative(v.untaxed, 1.0 - p);
    ProductNonNegative(v.untaxed, p);
  }

  lemma ProductNonNegative(x: real, y: real)
    requires 0.0 <= x && 0.0 <= y
    ensures 0.0 <= x * y
  {
  }

  /** The percentage discount is linear in the subtotal. */
  lemma PercentageIsLinear(v: DiscountView, a: real, b: real)
    requires v.kind == Per
    ensures Own(v.(untaxed := a + b)) == Own(v.(untaxed := a)) + Own(v.(untaxed := b))
  {
  }

  /** On one record both resolvers give the record's own discount. */
  lemma {:induction false} SingleRecord(v: DiscountView)
    ensures Carried([v]) == Own(v) && LastOwn([v]) == Own(v)
  {
    assert [v][..0] == [];
  }

  /** The sales-order resolver returns the discount of the LAST record that
      has a method; the records after it are skipped. */
  lemma {:induction false} CarriedPicksLastMethod(vs: seq<DiscountView>, j: nat)
    requires j < |vs| && vs[j].kind != Unset
    requires forall k :: j < k < |vs| ==> vs[k].kind == Unset
    ensures Carried(vs) == Own(vs[j])
  {
    if j < |vs| - 1 {
      var init := vs[..|vs| - 1];
      assert forall k :: j < k < |init| ==> init[k] == vs[k];
      CarriedPicksLastMethod(init, j);
    }
  }

  /** With no method anywhere in the set, the sales-order resolver gives 0. */
  lemma {:induction false} CarriedWithoutMethod(vs: seq<DiscountView>)
    requires forall k :: 0 <= k < |vs| ==> vs[k].kind == Unset
    ensures Carried(vs) == 0.0
  {
    if vs != [] {
      var init := vs[..|vs| - 1];
      assert forall k :: 0 <= k < |init| ==> init[k] == vs[k];
      CarriedWithoutMethod(init);
    }
  }

  /** The two resolvers agree whenever the last record has a method. */
  lemma {:induction false} ResolversAgreeOnLastMethod(vs: seq<DiscountView>)
    requires vs != [] && vs[|vs| - 1].kind != Unset
    ensures Carried(vs) == LastOwn(vs)
  {
  }

  /** They differ on a fixed-discount order followed by one without a
      method: the sales-order resolver carries the first order's discount
      over to the second. */
  lemma CarryOverExample()
    ensures var vs := [DiscountView(Fix, 5.0, 100.0), DiscountView(Unset, 0.0, 100.0)];
            Carried(vs) == 5.0 && LastOwn(vs) == 0.0
  {
    var vs := [DiscountView(Fix, 5.0, 100.0), DiscountView(Unset, 0.0, 100.0)];
    assert vs[..1] == [vs[0]];
    SingleRecord(vs[0]);
  }
}
