/** Journal entries with an invoice-level discount: the per-line totals, the
    payment state, the discount override of the totals, the creation hook
    that materialises the discount as a line, and the payment-move marker. */
module AccountMove {

  import opened Vals
  import opened Discount

  datatype MoveType = Entry | OutInvoice | OutRefund | InInvoice | InRefund | OutReceipt | InReceipt

  datatype MoveState = Draft | Posted | Cancel

  /** `invoice_payment_state`: `False` for entries, else one of three. */
  datatype PaymentState = NoPaymentState | NotPaid | InPayment | Paid

  /** `is_invoice(include_receipts=True)`: every type but a plain entry. */
  predicate IsInvoice(t: MoveType)
  {
    t != Entry
  }

  /** `is_outbound()`, the framework's outbound types: vendor bills,
      customer refunds and purchase receipts, whose invoice lines are
      debited. */
  predicate IsOutbound(t: MoveType)
  {
    t == InInvoice || t == OutRefund || t == InReceipt
  }

  predicate IsRefund(t: MoveType)
  {
    t == InRefund || t == OutRefund
  }

  function StateName(s: MoveState): string
  {
    match s
    case Draft => "draft"
    case Posted => "posted"
    case Cancel => "cancel"
  }

  predicate IsPrefix(p: string, s: string)
  {
    |p| <= |s| && p == s[..|p|]
  }

  /** Python's `needle in hay` on strings. */
  predicate IsSubstring(needle: string, hay: string)
    decreases |hay|
  {
    IsPrefix(needle, hay) || (|hay| > 0 && IsSubstring(needle, hay[1..]))
  }

  lemma {:induction false} LongerIsNoSubstring(needle: string, hay: string)
    requires |needle| > |hay|
    ensures !IsSubstring(needle, hay)
    decreases |hay|
  {
    if |hay| > 0 {
      LongerIsNoSubstring(needle, hay[1..]);
    }
  }

  /** The creation hook tests `state in 'draft'`, a substring test; of the
      three states only the draft state passes it. */
  lemma DraftTestMatchesOnlyDraft(s: MoveState)
    ensures IsSubstring(StateName(s), "draft") <==> s == Draft
  {
    if s == Draft {
      assert IsPrefix("draft", "draft");
    } else {
      LongerIsNoSubstring(StateName(s), "draft");
    }
  }

  datatype AccountKind = Receivable | Payable | OtherKind

  datatype Account = Account(id: int, kind: AccountKind)

  /** The amounts of a line that the framework derives from its price, its
      account and its move. */
  datatype LedgerAmounts = LedgerAmounts(
    balance: real, debit: real, amountCurrency: real,
    amountResidual: real, amountResidualCurrency: real,
    priceSubtotal: real, currency: Option<int>)

  datatype MoveLine = MoveLine(
    name: string, quantity: real, priceUnit: real, account: Account,
    hasProduct: bool, hasTaxLine: bool, excludeFromInvoiceTab: bool,
    ledger: LedgerAmounts)

  /** Where `_compute_amount` books a line. */
  datatype Bucket = UntaxedPart | TaxPart | ResidualPart | EntryDebit | NoPart

  function Classify(l: MoveLine, isInvoice: bool): Bucket
  {
    if isInvoice then
      if !l.excludeFromInvoiceTab then UntaxedPart
      else if l.hasTaxLine then TaxPart
      else if l.account.kind == Receivable || l.account.kind == Payable then ResidualPart
      else NoPart
    else if l.ledger.debit != 0.0 then EntryDebit
    else NoPart
  }

  /** The eight accumulators of `_compute_amount`. */
  datatype Totals = Totals(
    untaxed: real, untaxedCurrency: real, tax: real, taxCurrency: real,
    residual: real, residualCurrency: real, total: real, totalCurrency: real)

  const NoTotals := Totals(0.0, 0.0, 0.0, 0.0, 0.0, 0.0, 0.0, 0.0)

  function AddLine(t: Totals, l: MoveLine, isInvoice: bool): Totals
  {
    var a := l.ledger;
    match Classify(l, isInvoice)
    case UntaxedPart =>
      t.(untaxed := t.untaxed + a.balance, untaxedCurrency := t.untaxedCurrency + a.amountCurrency,
         total := t.total + a.balance, totalCurrency := t.totalCurrency + a.amountCurrency)
    case TaxPart =>
      t.(tax := t.tax + a.balance, taxCurrency := t.taxCurrency + a.amountCurrency,
         total := t.total + a.balance, totalCurrency := t.totalCurrency + a.amountCurrency)
    case ResidualPart =>
      t.(residual := t.residual + a.amountResidual,
         residualCurrency := t.residualCurrency + a.amountResidualCurrency)
    case EntryDebit =>
      t.(total := t.total + a.balance, totalCurrency := t.totalCurrency + a.amountCurrency)
    case NoPart => t
  }

  function Accumulate(lines: seq<MoveLine>, isInvoice: bool): Totals
  {
    if lines == [] then NoTotals
    else AddLine(Accumulate(lines[..|lines| - 1], isInvoice), lines[|lines| - 1], isInvoice)
  }

  /** The sum of the balances of the lines booked in bucket `b`. */
  function BucketBalance(lines: seq<MoveLine>, isInvoice: bool, b: Bucket): real
  {
    if lines == [] then 0.0
    else BucketBalance(lines[..|lines| - 1], isInvoice, b)
         + (if Classify(lines[|lines| - 1], isInvoice) == b then lines[|lines| - 1].ledger.balance else 0.0)
  }

  function SumBalance(lines: seq<MoveLine>): real
  {
    if lines == [] then 0.0 else SumBalance(lines[..|lines| - 1]) + lines[|lines| - 1].ledger.balance
  }

  /** Every line is booked in exactly one bucket: the buckets' balances add
      up to the balance of all lines. */
  lemma {:induction false} BucketsPartitionLines(lines: seq<MoveLine>, isInvoice: bool)
    ensures BucketBalance(lines, isInvoice, UntaxedPart) + BucketBalance(lines, isInvoice, TaxPart)
            + BucketBalance(lines, isInvoice, ResidualPart) + BucketBalance(lines, isInvoice, EntryDebit)
            + BucketBalance(lines, isInvoice, NoPart) == SumBalance(lines)
  {
    if lines != [] {
      BucketsPartitionLines(lines[..|lines| - 1], isInvoice);
    }
  }

  /** On an invoice, the untaxed and tax accumulators sum the balances of
      their buckets, the total is exactly their sum, and the same holds of
      the currency amounts. */
  lemma {:induction false} InvoiceTotals(lines: seq<MoveLine>)
    ensures var t := Accumulate(lines, true);
            && t.untaxed == BucketBalance(lines, true, UntaxedPart)
            && t.tax == BucketBalance(lines, true, TaxPart)
            && t.total == t.untaxed + t.tax
            && t.totalCurrency == t.untaxedCurrency + t.taxCurrency
  {
    if lines != [] {
      InvoiceTotals(lines[..|lines| - 1]);
    }
  }

  /** In a miscellaneous entry only lines with a nonzero debit count, and
      only towards the total. */
  lemma {:induction false} EntryTotals(lines: seq<MoveLine>)
    ensures var t := Accumulate(lines, false);
            && t.total == BucketBalance(lines, false, EntryDebit)
            && t.untaxed == 0.0 && t.untaxedCurrency == 0.0 && t.tax == 0.0 && t.taxCurrency == 0.0
            && t.residual == 0.0 && t.residualCurrency == 0.0
  {
    if lines != [] {
      EntryTotals(lines[..|lines| - 1]);
    }
  }

  function LineCurrencies(lines: seq<MoveLine>): set<int>
  {
    if lines == [] then {}
    else LineCurrencies(lines[..|lines| - 1])
         + (match lines[|lines| - 1].ledger.currency case Some(c) => {c} case None => {})
  }

  /** `invoice_line_ids`: the lines shown in the invoice tab. */
  function InvoiceLines(lines: seq<MoveLine>): seq<MoveLine>
  {
    if lines == [] then []
    else InvoiceLines(lines[..|lines| - 1])
         + (if lines[|lines| - 1].excludeFromInvoiceTab then [] else [lines[|lines| - 1]])
  }

  function SumSubtotal(lines: seq<MoveLine>): real
  {
    if lines == [] then 0.0 else SumSubtotal(lines[..|lines| - 1]) + lines[|lines| - 1].ledger.priceSubtotal
  }

  /** The sign of the unsigned amounts: positive for entries and outbound
      documents, negative for the rest. */
  function Sign(t: MoveType): (s: real)
    ensures s == 1.0 || s == -1.0
    ensures s == 1.0 <==> t == Entry || IsOutbound(t)
    ensures s == 1.0 <==> t == Entry || t == InInvoice || t == OutRefund || t == InReceipt
  {
    if t == Entry || IsOutbound(t) then 1.0 else -1.0
  }

  /** `sign * x`, written without a product (see `SignedIsProduct`). */
  function Signed(t: MoveType, x: real): real
  {
    if t == Entry || IsOutbound(t) then x else -x
  }

  lemma SignedIsProduct(t: MoveType, x: real)
    ensures Signed(t, x) == Sign(t) * x
  {
  }

  /** `x * sign` with the refund sign of the discount step: negative for
      refunds, positive for the rest. */
  function RefundSigned(t: MoveType, x: real): real
  {
    if IsRefund(t) then -x else x
  }

  /** The payment-state decision. */
  function PaymentStateOf(t: MoveType, state: MoveState, isPaid: bool, inPayment: bool): (p: PaymentState)
    ensures p == NoPaymentState <==> t == Entry
    ensures (p == Paid || p == InPayment) <==> (t != Entry && state == Posted && isPaid)
    ensures p == InPayment ==> inPayment
    ensures p == Paid ==> !inPayment
  {
    if t == Entry then NoPaymentState
    else if state == Posted && isPaid then (if inPayment then InPayment else Paid)
    else NotPaid
  }

  /** The currency whose rounding decides `is_paid`: the one line currency
      if there is exactly one, else the company's. */
  ghost function PaymentCurrency(currencies: set<int>, company: int): int
  {
    if |currencies| == 1 then (SingletonHasElement(currencies); var c :| c in currencies; c) else company
  }

  lemma SingletonHasElement(s: set<int>)
    requires |s| == 1
    ensures exists c :: c in s
  {
    if forall c :: c !in s {
      assert false;
    }
  }

  lemma SingletonElement(s: set<int>, c: int, company: int)
    requires |s| == 1 && c in s
    ensures s == {c}
    ensures PaymentCurrency(s, company) == c
  {
    assert |s - {c}| == |s| - 1 == 0;
    assert s - {c} == {};
  }

  /** One iteration of the line loop of `_compute_amount`. */
  method BookLine(t: Totals, line: MoveLine, inv: bool) returns (r: Totals)
    ensures r == AddLine(t, line, inv)
  {
    r := t;
    var a := line.ledger;
    if inv {
      if !line.excludeFromInvoiceTab {
        r := r.(untaxed := r.untaxed + a.balance, untaxedCurrency := r.untaxedCurrency + a.amountCurrency);
        r := r.(total := r.total + a.balance, totalCurrency := r.totalCurrency + a.amountCurrency);
      } else if line.hasTaxLine {
        r := r.(tax := r.tax + a.balance, taxCurrency := r.taxCurrency + a.amountCurrency);
        r := r.(total := r.total + a.balance, totalCurrency := r.totalCurrency + a.amountCurrency);
      } else if line.account.kind == Receivable || line.account.kind == Payable {
        r := r.(residual := r.residual + a.amountResidual,
                residualCurrency := r.residualCurrency + a.amountResidualCurrency);
      }
    } else if a.debit != 0.0 {
      r := r.(total := r.total + a.balance, totalCurrency := r.totalCurrency + a.amountCurrency);
    }
  }

  /** The line loop of `_compute_amount`: the eight accumulators and the
      set of line currencies. */
  method AccumulateLines(lines: seq<MoveLine>, inv: bool) returns (t: Totals, currencies: set<int>)
    ensures t == Accumulate(lines, inv)
    ensures currencies == LineCurrencies(lines)
  {
    t := NoTotals;
    currencies := {};
    var k := 0;
    while k < |lines|
      invariant 0 <= k <= |lines|
      invariant t == Accumulate(lines[..k], inv)
      invariant currencies == LineCurrencies(lines[..k])
    {
      var line := lines[k];
      if line.ledger.currency.Some? {
        currencies := currencies + {line.ledger.currency.value};
      }
      t := BookLine(t, line, inv);
      assert lines[..k + 1][..k] == lines[..k];
      k := k + 1;
    }
    assert lines[..|lines|] == lines;
  }

  /** `len(currencies) == 1 and currencies.pop() or company_currency`. */
  method PickPaymentCurrency(currencies: set<int>, company: int) returns (c: int)
    ensures c == PaymentCurrency(currencies, company)
    ensures |currencies| == 1 ==> currencies == {c}
    ensures |currencies| != 1 ==> c == company
  {
    c := company;
    if |currencies| == 1 {
      SingletonHasElement(currencies);
      var e :| e in currencies;
      SingletonElement(currencies, e, company);
      c := e;
    }
  }

  /** The fields `_compute_amount` reads. */
  datatype MoveInputs = MoveInputs(
    moveType: MoveType, state: MoveState, currencyId: Option<int>, companyCurrency: int,
    lines: seq<MoveLine>, discountMethod: DiscountMethod, discountAmount: real)

  /** The fields `_compute_amount` writes, as they stand when it returns. */
  datatype MoveAmounts = MoveAmounts(
    untaxed: real, tax: real, total: real, residual: real,
    untaxedSigned: real, taxSigned: real, totalSigned: real, residualSigned: real,
    totalCompanySigned: real, discount: real, paymentState: PaymentState)

  /** The part of the amounts that comes from the line loop: tax and
      residual, unsigned and signed, and the payment state. */
  datatype LinePart = LinePart(
    tax: real, residual: real, taxSigned: real, residualSigned: real, paymentState: PaymentState)

  /** The line part for a move, given whether the reconciliation query
      reports it as in payment and the currency zero test. */
  ghost function ExpectedLinePart(i: MoveInputs, inPayment: bool, isZero: (int, real) -> bool): LinePart
  {
    LinePartOf(i.moveType, i.state, i.companyCurrency, Accumulate(i.lines, IsInvoice(i.moveType)),
               LineCurrencies(i.lines), inPayment, isZero)
  }

  /** The line part from the accumulators `t` and the line currencies: the
      amounts in the one line currency if there is exactly one, else in the
      company currency, signed by the move type; the move is paid when its
      residual is zero in the currency the payment state is judged in. */
  ghost function LinePartOf(moveType: MoveType, state: MoveState, companyCurrency: int, t: Totals,
                            currencies: set<int>, inPayment: bool, isZero: (int, real) -> bool): LinePart
  {
    var single := |currencies| == 1;
    var tax := Signed(moveType, if single then t.taxCurrency else t.tax);
    var residual := -Signed(moveType, if single then t.residualCurrency else t.residual);
    var isPaid := isZero(PaymentCurrency(currencies, companyCurrency), residual) || residual == 0.0;
    LinePart(tax, residual, -t.tax, t.residual, PaymentStateOf(moveType, state, isPaid, inPayment))
  }

  /** The amounts `_compute_amount` leaves on a move: the line part, then
      the discount step, which sets the untaxed amount to the sum of the
      invoice lines' subtotals, the discount to the move's own, the total
      to the untaxed amount less the discount plus the tax, and the signed
      amounts from those, converted to the company currency when the move
      has another currency and negated on refunds. */
  ghost function Expected(i: MoveInputs, inPayment: bool, isZero: (int, real) -> bool,
                          convert: (int, real, int) -> real): MoveAmounts
  {
    var p := ExpectedLinePart(i, inPayment, isZero);
    var untaxed := SumSubtotal(InvoiceLines(i.lines));
    var discount := Own(DiscountView(i.discountMethod, i.discountAmount, untaxed));
    DiscountOutcome(i, MoveAmounts(untaxed, p.tax, 0.0, p.residual, 0.0, p.taxSigned, 0.0, p.residualSigned,
                                   0.0, 0.0, p.paymentState),
                    discount, convert)
  }

  /** The discount step's effect on amounts `a` whose untaxed amount and
      tax are already set, for the resolved discount `res`: the total is
      the untaxed amount less the discount plus the tax, and the signed
      amounts are converted to the company currency when the move has
      another currency, then negated on refunds. */
  function DiscountOutcome(i: MoveInputs, a: MoveAmounts, res: real, convert: (int, real, int) -> real): MoveAmounts
  {
    var total := a.untaxed - res + a.tax;
    var foreign := i.currencyId.Some? && i.currencyId.value != i.companyCurrency;
    a.(discount := res, total := total,
       totalCompanySigned := RefundSigned(i.moveType, if foreign then convert(i.currencyId.value, total, i.companyCurrency) else total),
       totalSigned := RefundSigned(i.moveType, total),
       untaxedSigned := RefundSigned(i.moveType, if foreign then convert(i.currencyId.value, a.untaxed, i.companyCurrency) else a.untaxed))
  }

  /** The discount step overwrites the total, the discount and the signed
      totals, so their earlier values do not matter. */
  lemma DiscountOutcomeOverwrites(i: MoveInputs, a: MoveAmounts, b: MoveAmounts, res: real,
                                  convert: (int, real, int) -> real)
    requires a.untaxed == b.untaxed && a.tax == b.tax && a.residual == b.residual
    requires a.taxSigned == b.taxSigned && a.residualSigned == b.residualSigned && a.paymentState == b.paymentState
    ensures DiscountOutcome(i, a, res, convert) == DiscountOutcome(i, b, res, convert)
  {
  }

  /** The signed amounts of the discount step. */
  method DiscountStep(i: MoveInputs, a: MoveAmounts, res: real, convert: (int, real, int) -> real) returns (r: MoveAmounts)
    ensures r == DiscountOutcome(i, a, res, convert)
  {
    var total := a.untaxed - res + a.tax;
    var totalCompanySigned, untaxedSigned := total, a.untaxed;
    if i.currencyId.Some? && i.currencyId.value != i.companyCurrency {
      totalCompanySigned := convert(i.currencyId.value, total, i.companyCurrency);
      untaxedSigned := convert(i.currencyId.value, a.untaxed, i.companyCurrency);
    }
    r := a.(discount := res, total := total,
            totalCompanySigned := RefundSigned(i.moveType, totalCompanySigned),
            totalSigned := RefundSigned(i.moveType, total),
            untaxedSigned := RefundSigned(i.moveType, untaxedSigned));
  }

  /** The line loop and the payment state of `_compute_amount`. The
      unsigned and signed amounts that the discount step overwrites are not
      kept. */
  method LineStep(i: MoveInputs, inPayment: bool, isZero: (int, real) -> bool) returns (p: LinePart)
    ensures p == ExpectedLinePart(i, inPayment, isZero)
  {
    var t, currencies := AccumulateLines(i.lines, IsInvoice(i.moveType));
    var single := |currencies| == 1;
    var tax := Signed(i.moveType, if single then t.taxCurrency else t.tax);
    var residual := -Signed(i.moveType, if single then t.residualCurrency else t.residual);

    var paymentCurrency := PickPaymentCurrency(currencies, i.companyCurrency);
    var isPaid := isZero(paymentCurrency, residual) || residual == 0.0;
    var payment: PaymentState;
    if i.moveType == Entry {
      payment := NoPaymentState;
    } else if i.state == Posted && isPaid {
      if inPayment {
        payment := InPayment;
      } else {
        payment := Paid;
      }
    } else {
      payment := NotPaid;
    }
    p := LinePart(tax, residual, -t.tax, t.residual, payment);
  }

  class Move {
    const id: int
    var moveType: MoveType
    var state: MoveState
    var currencyId: Option<int>
    var companyCurrency: int
    var lines: seq<MoveLine>
    var discountMethod: DiscountMethod
    var discountAmount: real
    /** The computed fields: `amount_untaxed`, `amount_tax`, `amount_total`,
        `amount_residual`, their signed versions, `amount_total_company_signed`,
        `discount_amt` and `invoice_payment_state`. */
    var amounts: MoveAmounts

    constructor (id: int, moveType: MoveType, state: MoveState, currencyId: Option<int>, companyCurrency: int,
                 lines: seq<MoveLine>, discountMethod: DiscountMethod, discountAmount: real, amounts: MoveAmounts)
      ensures this.id == id
      ensures Inputs() == MoveInputs(moveType, state, currencyId, companyCurrency, lines, discountMethod, discountAmount)
      ensures this.amounts == amounts
    {
      this.id := id;
      this.moveType, this.state, this.currencyId, this.companyCurrency := moveType, state, currencyId, companyCurrency;
      this.lines, this.discountMethod, this.discountAmount := lines, discountMethod, discountAmount;
      this.amounts := amounts;
    }

    function Inputs(): MoveInputs
      reads this
    {
      MoveInputs(moveType, state, currencyId, companyCurrency, lines, discountMethod, discountAmount)
    }

    function View(): DiscountView
      reads this
    {
      DiscountView(discountMethod, discountAmount, amounts.untaxed)
    }

    /** `_compute_amount` on this move, given the set of moves the
        reconciliation query reports as in payment, the currency zero test
        and the currency conversion. */
    method ComputeAmount(inPaymentSet: set<int>, isZero: (int, real) -> bool, convert: (int, real, int) -> real)
      modifies this
      ensures Inputs() == old(Inputs())
      ensures amounts == Expected(Inputs(), id in inPaymentSet, isZero, convert)
    {
      var i := Inputs();
      var p := LineStep(i, id in inPaymentSet, isZero);
      // The line part; the unsigned and signed amounts that the discount
      // step overwrites are not kept.
      amounts := amounts.(tax := p.tax, residual := p.residual, taxSigned := p.taxSigned,
                          residualSigned := p.residualSigned, paymentState := p.paymentState);

      // The discount step.
      amounts := amounts.(untaxed := SumSubtotal(InvoiceLines(lines)));
      var res := CalculateDiscount([this]);
      ghost var a := amounts;
      amounts := DiscountStep(Inputs(), amounts, res, convert);
      DiscountOutcomeOverwrites(i, a, MoveAmounts(a.untaxed, p.tax, 0.0, p.residual, 0.0, p.taxSigned, 0.0,
                                                  p.residualSigned, 0.0, 0.0, p.paymentState), res, convert);
    }
  }

  /** `_calculate_discount` over a set of moves: only the last move's own
      discount survives the loop, since `discount` stays zero throughout. */
  method CalculateDiscount(moves: seq<Move>) returns (res: real)
    ensures res == if moves == [] then 0.0 else Own(moves[|moves| - 1].View())
  {
    res := 0.0;
    var discount := 0.0;
    var k := 0;
    while k < |moves|
      invariant 0 <= k <= |moves|
      invariant discount == 0.0
      invariant res == if k == 0 then 0.0 else Own(moves[k - 1].View())
    {
      var m := moves[k];
      if m.discountMethod == Fix {
        res := m.discountAmount;
      } else if m.discountMethod == Per {
        res := m.amounts.untaxed * (m.discountAmount / 100.0);
      } else {
        res := discount;
      }
      k := k + 1;
    }
  }

  /** `_compute_amount` over a set of moves: each move is recomputed from its
      own fields. */
  method ComputeAmounts(moves: seq<Move>, inPaymentSet: set<int>, isZero: (int, real) -> bool,
                        convert: (int, real, int) -> real)
    modifies set m | m in moves
    ensures forall j :: 0 <= j < |moves| ==> moves[j].Inputs() == old(moves[j].Inputs())
    ensures forall j :: 0 <= j < |moves| ==>
              moves[j].amounts == Expected(moves[j].Inputs(), moves[j].id in inPaymentSet, isZero, convert)
  {
    var i := 0;
    while i < |moves|
      invariant 0 <= i <= |moves|
      invariant forall j :: 0 <= j < |moves| ==> moves[j].Inputs() == old(moves[j].Inputs())
      invariant forall j :: 0 <= j < i ==>
                  moves[j].amounts == Expected(moves[j].Inputs(), moves[j].id in inPaymentSet, isZero, convert)
    {
      moves[i].ComputeAmount(inPaymentSet, isZero, convert);
      i := i + 1;
    }
  }

  /** The account of the last line that carries a product, `None` when no
      line does. */
  function LastProductAccount(lines: seq<MoveLine>): Option<Account>
  {
    if lines == [] then None
    else if lines[|lines| - 1].hasProduct then Some(lines[|lines| - 1].account)
    else LastProductAccount(lines[..|lines| - 1])
  }

  /** `j` is the index of the last line that carries a product. */
  ghost predicate LastProductAt(lines: seq<MoveLine>, j: int)
  {
    0 <= j < |lines| && lines[j].hasProduct && forall k :: j < k < |lines| ==> !lines[k].hasProduct
  }

  /** The account found belongs to the last line with a product. */
  lemma {:induction false} LastProductAccountSound(lines: seq<MoveLine>)
    requires LastProductAccount(lines).Some?
    ensures exists j :: LastProductAt(lines, j) && lines[j].account == LastProductAccount(lines).value
  {
    var n := |lines| - 1;
    if lines[n].hasProduct {
      assert LastProductAt(lines, n);
    } else {
      var init := lines[..n];
      LastProductAccountSound(init);
      var j :| LastProductAt(init, j) && init[j].account == LastProductAccount(init).value;
      assert lines[j] == init[j];
      assert LastProductAt(lines, j);
    }
  }

  /** The last line with a product is the one whose account is found. */
  lemma {:induction false} LastProductAccountComplete(lines: seq<MoveLine>, j: int)
    requires LastProductAt(lines, j)
    ensures LastProductAccount(lines) == Some(lines[j].account)
  {
    var n := |lines| - 1;
    if j < n {
      var init := lines[..n];
      assert init[j] == lines[j];
      assert LastProductAt(init, j);
      LastProductAccountComplete(init, j);
    }
  }

  lemma {:induction false} NoProductLine(lines: seq<MoveLine>)
    ensures LastProductAccount(lines) == None <==> forall j :: 0 <= j < |lines| ==> !lines[j].hasProduct
  {
    if lines != [] {
      var n := |lines| - 1;
      NoProductLine(lines[..n]);
      assert forall j :: 0 <= j < n ==> lines[..n][j] == lines[j];
    }
  }

  /** The line the creation hook adds: one unit at minus the discount,
      kept out of the invoice tab. */
  function DiscountLine(account: Account, discountAmt: real, ledger: LedgerAmounts): MoveLine
  {
    MoveLine("Discount", 1.0, -discountAmt, account, false, false, true, ledger)
  }

  /** `res.discount_method and res.discount_amount` and `res.state in 'draft'`. */
  predicate DiscountLineWanted(m: DiscountMethod, amount: real, state: MoveState)
  {
    m != Unset && amount != 0.0 && IsSubstring(StateName(state), "draft")
  }

  /** The creation hook either completes or fails reading `account` before
      any line assigned it. */
  datatype CreateOutcome = Created | AccountUnbound

  /** The creation hook on one values dictionary `val`, where `res` is the
      move the framework created from it and `ledger` the amounts the
      framework derives for the added line. */
  method Create(val: Dict, res: Move, ledger: LedgerAmounts) returns (outcome: CreateOutcome)
    modifies val, res`lines
    ensures val.items == old(val.items) - {"flag"}
    ensures var product := LastProductAccount(InvoiceLines(old(res.lines)));
            if "flag" in old(val.items) || !DiscountLineWanted(res.discountMethod, res.discountAmount, res.state) then
              outcome == Created && res.lines == old(res.lines)
            else if product.None? then
              outcome == AccountUnbound && res.lines == old(res.lines)
            else
              outcome == Created && res.lines == old(res.lines) + [DiscountLine(product.value, res.amounts.discount, ledger)]
  {
    outcome := Created;
    if "flag" in val.items {
      val.items := val.items - {"flag"};
    } else {
      val.items := val.items - {"flag"};
      if res.discountMethod != Unset && res.discountAmount != 0.0 {
        if IsSubstring(StateName(res.state), "draft") {
          var invoiceLines := InvoiceLines(res.lines);
          var account: Option<Account> := None;
          var k := 0;
          while k < |invoiceLines|
            invariant 0 <= k <= |invoiceLines|
            invariant account == LastProductAccount(invoiceLines[..k])
          {
            if invoiceLines[k].hasProduct {
              account := Some(invoiceLines[k].account);
            }
            assert invoiceLines[..k + 1][..k] == invoiceLines[..k];
            k := k + 1;
          }
          assert invoiceLines[..|invoiceLines|] == invoiceLines;
          if account.None? {
            outcome := AccountUnbound;
          } else {
            res.lines := res.lines + [DiscountLine(account.value, res.amounts.discount, ledger)];
          }
        }
      }
    }
  }

  /** The discount line lands in no bucket of an invoice and is not an
      invoice-tab line, so the eight accumulators and the untaxed sum are
      the same with and without it. */
  lemma DiscountLineLeavesTotals(lines: seq<MoveLine>, account: Account, discountAmt: real, ledger: LedgerAmounts)
    requires account.kind == OtherKind
    ensures var extended := lines + [DiscountLine(account, discountAmt, ledger)];
            && Accumulate(extended, true) == Accumulate(lines, true)
            && InvoiceLines(extended) == InvoiceLines(lines)
            && SumSubtotal(InvoiceLines(extended)) == SumSubtotal(InvoiceLines(lines))
  {
    var extended := lines + [DiscountLine(account, discountAmt, ledger)];
    assert extended[..|extended| - 1] == lines;
  }

  /** `account.payment._prepare_payment_moves`: under a vendor-bill context
      every payment-move dictionary is marked with `flag`. */
  method PreparePaymentMoves(context: map<string, Value>, res: seq<Dict>)
    modifies set d | d in res
    ensures forall d :: d in res ==>
              d.items == if "default_type" in context && context["default_type"] == Str("in_invoice")
                         then old(d.items)["flag" := Bool(true)] else old(d.items)
  {
    if "default_type" in context && context["default_type"] == Str("in_invoice") {
      var k := 0;
      while k < |res|
        invariant 0 <= k <= |res|
        invariant forall d :: d in res ==>
                    d.items == if d in res[..k] then old(d.items)["flag" := Bool(true)] else old(d.items)
      {
        res[k].items := res[k].items["flag" := Bool(true)];
        k := k + 1;
      }
      assert res[..|res|] == res;
    }
  }

  /** A payment move created under a vendor-bill context: the marker that
      the payment preparation adds makes the creation hook add no discount
      line, and the marker does not reach the stored values. */
  method CreatePaymentMove(context: map<string, Value>, val: Dict, res: Move, ledger: LedgerAmounts)
    returns (outcome: CreateOutcome)
    requires "default_type" in context && context["default_type"] == Str("in_invoice")
    modifies val, res`lines
    ensures outcome == Created
    ensures res.lines == old(res.lines)
    ensures val.items == old(val.items) - {"flag"}
  {
    PreparePaymentMoves(context, [val]);
    outcome := Create(val, res, ledger);
  }

  /** Without a discount method the discount is zero and the total is the
      untaxed amount plus the tax. */
  lemma NoMethodNoDiscount(i: MoveInputs, inPayment: bool, isZero: (int, real) -> bool, convert: (int, real, int) -> real)
    requires i.discountMethod == Unset
    ensures var r := Expected(i, inPayment, isZero, convert);
            r.discount == 0.0 && r.total == r.untaxed + r.tax
  {
  }

  /** A fixed discount is the amount entered, whatever the lines. */
  lemma FixedDiscountIsAmount(i: MoveInputs, inPayment: bool, isZero: (int, real) -> bool, convert: (int, real, int) -> real)
    requires i.discountMethod == Fix
    ensures var r := Expected(i, inPayment, isZero, convert);
            r.discount == i.discountAmount && r.total == r.untaxed - i.discountAmount + r.tax
  {
  }

  /** A percentage between 0 and 100 of a non-negative untaxed amount takes
      at most the untaxed amount off, so the total lies between the tax and
      the untaxed amount plus the tax. */
  lemma PercentageDiscountBounded(i: MoveInputs, inPayment: bool, isZero: (int, real) -> bool,
                                  convert: (int, real, int) -> real)
    requires i.discountMethod == Per && 0.0 <= i.discountAmount <= 100.0
    requires 0.0 <= SumSubtotal(InvoiceLines(i.lines))
    ensures var r := Expected(i, inPayment, isZero, convert);
            && 0.0 <= r.discount <= r.untaxed
            && r.tax <= r.total <= r.untaxed + r.tax
  {
    PercentageWithinSubtotal(DiscountView(i.discountMethod, i.discountAmount, SumSubtotal(InvoiceLines(i.lines))));
  }

  /** Refunds carry their totals negated in the signed fields; other types
      carry them as they are. */
  lemma RefundNegatesSignedTotals(i: MoveInputs, inPayment: bool, isZero: (int, real) -> bool,
                                  convert: (int, real, int) -> real)
    ensures var r := Expected(i, inPayment, isZero, convert);
            var foreign := i.currencyId.Some? && i.currencyId.value != i.companyCurrency;
            && (IsRefund(i.moveType) ==> r.totalSigned == -r.total)
            && (!IsRefund(i.moveType) ==> r.totalSigned == r.total)
            && (!foreign && IsRefund(i.moveType) ==> r.totalCompanySigned == -r.total && r.untaxedSigned == -r.untaxed)
            && (!foreign && !IsRefund(i.moveType) ==> r.totalCompanySigned == r.total && r.untaxedSigned == r.untaxed)
  {
  }

  /** A miscellaneous entry has no tax, no residual and no payment state. */
  lemma EntryHasNoTaxNorResidual(i: MoveInputs, inPayment: bool, isZero: (int, real) -> bool,
                                 convert: (int, real, int) -> real)
    requires i.moveType == Entry
    ensures var r := Expected(i, inPayment, isZero, convert);
            && r.tax == 0.0 && r.residual == 0.0 && r.taxSigned == 0.0 && r.residualSigned == 0.0
            && r.paymentState == NoPaymentState
  {
    EntryTotals(i.lines);
  }

  /** On an invoice in one currency for the company and the lines, the tax
      is the signed balance of the tax lines. */
  lemma InvoiceTaxIsTaxLines(i: MoveInputs, inPayment: bool, isZero: (int, real) -> bool,
                             convert: (int, real, int) -> real)
    requires IsInvoice(i.moveType) && |LineCurrencies(i.lines)| != 1
    ensures var r := Expected(i, inPayment, isZero, convert);
            && r.tax == Sign(i.moveType) * BucketBalance(i.lines, true, TaxPart)
            && r.taxSigned == -BucketBalance(i.lines, true, TaxPart)
  {
    InvoiceTotals(i.lines);
    SignedIsProduct(i.moveType, BucketBalance(i.lines, true, TaxPart));
  }

  /** The two lines of the customer refund example: a product line of
      balance and subtotal 100, and a tax line of balance 10. */
  const RefundProductLine := MoveLine("Product", 1.0, 100.0, Account(1, OtherKind), true, false, false,
                                      LedgerAmounts(100.0, 100.0, 0.0, 0.0, 0.0, 100.0, None))
  const RefundTaxLine := MoveLine("Tax", 1.0, 10.0, Account(2, OtherKind), false, true, true,
                                  LedgerAmounts(10.0, 10.0, 0.0, 0.0, 0.0, 0.0, None))

  lemma RefundLines()
    ensures Accumulate([RefundProductLine, RefundTaxLine], true).tax == 10.0
    ensures LineCurrencies([RefundProductLine, RefundTaxLine]) == {}
    ensures SumSubtotal(InvoiceLines([RefundProductLine, RefundTaxLine])) == 100.0
  {
    var lines := [RefundProductLine, RefundTaxLine];
    assert lines[..|lines| - 1] == [RefundProductLine] && [RefundProductLine][..0] == [];
    assert Accumulate([RefundProductLine], true).tax == 0.0;
    assert LineCurrencies([RefundProductLine]) == {};
    assert InvoiceLines([RefundProductLine]) == [RefundProductLine];
    assert InvoiceLines(lines) == [RefundProductLine];
  }

  /** A customer refund in the company currency, without a discount
      method, with those two lines shows untaxed 100, tax 10 and total 110,
      and a signed total of -110. */
  lemma CustomerRefundExample(inPayment: bool, isZero: (int, real) -> bool, convert: (int, real, int) -> real)
    ensures var r := Expected(MoveInputs(OutRefund, Posted, None, 7, [RefundProductLine, RefundTaxLine], Unset, 0.0),
                              inPayment, isZero, convert);
            r.untaxed == 100.0 && r.tax == 10.0 && r.total == 110.0 && r.totalSigned == -110.0
  {
    RefundLines();
  }

  /** Only a posted invoice can be paid or in payment. */
  lemma UnpostedIsNotPaid(i: MoveInputs, inPayment: bool, isZero: (int, real) -> bool, convert: (int, real, int) -> real)
    requires i.moveType != Entry && i.state != Posted
    ensures Expected(i, inPayment, isZero, convert).paymentState == NotPaid
  {
  }

  lemma {:induction false} LineCurrenciesAppend(lines: seq<MoveLine>, l: MoveLine)
    ensures LineCurrencies(lines + [l])
            == LineCurrencies(lines) + (match l.ledger.currency case Some(c) => {c} case None => {})
  {
    assert (lines + [l])[..|lines|] == lines;
  }

  /** The line the creation hook adds changes none of the amounts
      `_compute_amount` derives for an invoice, as long as its account is
      neither receivable nor payable and it brings no new line currency:
      the discount is not counted twice, and is subtracted only through
      the resolver. */
  lemma DiscountLineChangesNoAmount(i: MoveInputs, account: Account, discountAmt: real, ledger: LedgerAmounts,
                                    inPayment: bool, isZero: (int, real) -> bool, convert: (int, real, int) -> real)
    requires IsInvoice(i.moveType) && account.kind == OtherKind
    requires ledger.currency.None? || ledger.currency.value in LineCurrencies(i.lines)
    ensures Expected(i.(lines := i.lines + [DiscountLine(account, discountAmt, ledger)]), inPayment, isZero, convert)
            == Expected(i, inPayment, isZero, convert)
  {
    var dl := DiscountLine(account, discountAmt, ledger);
    var i' := i.(lines := i.lines + [dl]);
    DiscountLineLeavesTotals(i.lines, account, discountAmt, ledger);
    LineCurrenciesAppend(i.lines, dl);
    assert LineCurrencies(i'.lines) == LineCurrencies(i.lines);
    assert ExpectedLinePart(i', inPayment, isZero) == ExpectedLinePart(i, inPayment, isZero);
  }
}
