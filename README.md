# Odoo add-ons: order discounts, move amounts, currency import and project plan figures

This project models the computational core of four Odoo add-ons and proves
properties of that model.

- **Order-level discounts** (`sale_account_invoice_discount`). A sales
  order or a journal entry carries a discount method (fixed or percentage)
  and an amount.
  - The discount resolver turns these into the discount in currency.
  - The order's `_amount_all` recomputes the untaxed amount, the tax and the
    total less the discount.
  - `_prepare_invoice` copies the three discount fields into the invoice
    values.
  - The journal entry's `_compute_amount` ends with the same discount step.
    Its filing of lines into untaxed, tax and residual amounts is modelled in
    full, as are its signs and its payment state.
  - The `create` hook adds a "Discount" line to a new draft entry, unless the
    values carry the `flag` that `_prepare_payment_moves` sets on
    vendor-bill payments.
- **Currency import and conversion** (`sync_xero_connector`).
  - `import_currency` reconciles a list of currency codes against the
    currency table: it reactivates an inactive record or creates a missing
    one.
  - `compute` converts an amount between currencies. It uses the rate in the
    context when there is one, else the framework's rate, then rounds when
    asked.
- **Project plan figures** (`task_to_po`).
  - `_to_action_data` builds the HTML data attributes of an action.
  - `_plan_prepare_values` does arithmetic for several tables:
    - hours and rates by billable type, with canceled hours;
    - profitability, less vendor purchase orders;
    - time repartition per employee and its maximum.

Modules:
- `Vals`: options, results, dictionary values and the mutable dictionary.
- `Discount`: the two resolvers as functions.
- `Sale`: the sales order as a class and its recomputation loop.
- `AccountMove`: the journal entry as a class, its amounts as a pure
  specification, and the `create` and payment hooks.
- `ResCurrency`: the currency table as a class with an import loop, a pure
  fold that specifies it, and the conversion.
- `Project`: action data and the plan arithmetic, as methods with loops
  over the grouped query results.

The model takes the framework's services as parameters:
- the reconciliation query's result is a set of move ids;
- the currency zero test, currency conversion, conversion rate and currency
  rounding are functions passed in;
- `float_round` to the hour precision and `round(…, 2)` are functions
  passed in;
- `json.dumps` and `clean_action(action.read()[0])` give abstract values.

Amounts are reals.

Where the source loops, the model pairs a method with a function that
specifies it, and the method's postcondition ties the two:
`Sale.CalculateDiscount` and `Discount.Carried`; in `AccountMove`,
`DiscountStep` and `DiscountOutcome`, `LineStep` and `LinePartOf`, `BookLine`
and `AddLine`; in `ResCurrency`, `CurrencyTable.Search` and `Matching`,
`CurrencyTable.ImportCode` and `ImportOne`. The lemmas are stated about the
functions.

## Model

| member | source | states |
|---|---|---|
| Discount.Own | sale_account_invoice_discount/models/sale.py:16-21 | a fixed discount is the discount amount itself, a percentage is the untaxed amount times the percentage over 100, no method gives 0 |
| Discount.Carried | sale_account_invoice_discount/models/sale.py:13-24 | the order resolver gives 0 on an empty set and the last record's own discount when that record has a method |
| Discount.LastOwn | sale_account_invoice_discount/models/account_move.py:22-31 | the entry resolver gives 0 on an empty set or when the last record has no method, and otherwise the same as the order resolver on that record alone |
| Discount.PercentageWithinSubtotal | sale_account_invoice_discount/models/sale.py:19-21 | a percentage in [0, 100] of a non-negative untaxed amount lies between 0 and that amount |
| Discount.PercentageIsLinear | sale_account_invoice_discount/models/sale.py:19-21 | the percentage discount of a sum of untaxed amounts is the sum of their discounts |
| Discount.SingleRecord | sale_account_invoice_discount/models/sale.py:12-24 | on a single record both resolvers return that record's own discount |
| Discount.CarriedPicksLastMethod | sale_account_invoice_discount/models/sale.py:15-23 | over a set, the order resolver returns the discount of the last record that has a method, whatever follows it |
| Discount.CarriedWithoutMethod | sale_account_invoice_discount/models/sale.py:13-23 | with no method anywhere in the set, the order resolver returns 0 |
| Discount.ResolversAgreeOnLastMethod | sale_account_invoice_discount/models/account_move.py:22-31 | the order and journal-entry resolvers give the same result when the last record has a method |
| Discount.CarryOverExample | sale_account_invoice_discount/models/sale.py:22-23 | a fixed 5 followed by a record without a method: the order resolver carries 5, the entry resolver gives 0 |
| Sale.CalculateDiscount | sale_account_invoice_discount/models/sale.py:12-24 | the loop returns the carried discount of the record set, in record order |
| Sale.SumLines | sale_account_invoice_discount/models/sale.py:34-37 | the untaxed amount and the tax are the sums of the lines' subtotals and taxes |
| Sale.RefreshAt | sale_account_invoice_discount/models/sale.py:34-47 | one iteration stores the line sums and a total less the discount; the discount is the set-wide resolver over the set with orders up to this one refreshed; no other order changes |
| Sale.RefreshAll | sale_account_invoice_discount/models/sale.py:34-47 | after the loop every order is totalled, and order j holds the set-wide resolver over the set with orders 0 to j refreshed |
| Sale.AmountAll | sale_account_invoice_discount/models/sale.py:28-47 | every order holds its line sums and total = untaxed + tax - discount; order j's discount is the set-wide resolver as seen when j is refreshed; a single order gets its own discount; the last order gets the resolver over the final set |
| Sale.AmountAllPerOrder | sale_account_invoice_discount/models/sale.py:28-47 | with the resolver run on each order alone, every order's discount is its own and its total is untaxed + tax - discount |
| Sale.SetWideDiscountExample | sale_account_invoice_discount/models/sale.py:44 | two orders, the first without a method and the second with a fixed 10: the set-wide resolver gives 10, the first order's own discount is 0 |
| Sale.SaleOrder.PrepareInvoice | sale_account_invoice_discount/models/sale.py:54-58 | the invoice values gain the order's discount method, amount and computed discount; every other entry stays |
| AccountMove.DraftTestMatchesOnlyDraft | sale_account_invoice_discount/models/account_move.py:158 | the substring test `state in 'draft'` holds exactly for the draft state |
| AccountMove.LongerIsNoSubstring | sale_account_invoice_discount/models/account_move.py:158 | a string longer than another is never a substring of it |
| AccountMove.BucketsPartitionLines | sale_account_invoice_discount/models/account_move.py:77-104 | each line's balance lands in exactly one of untaxed, tax, residual, entry debit or nothing |
| AccountMove.InvoiceTotals | sale_account_invoice_discount/models/account_move.py:81-95 | on an invoice, untaxed and tax sum the untaxed and tax lines, and the total is untaxed + tax, in both currencies |
| AccountMove.EntryTotals | sale_account_invoice_discount/models/account_move.py:100-104 | on a miscellaneous entry, the total sums the debit lines and every other accumulator stays 0 |
| AccountMove.Sign | sale_account_invoice_discount/models/account_move.py:106-109 | the sign is +1 exactly for entries, vendor bills, customer refunds and purchase receipts (the outbound types), -1 otherwise |
| AccountMove.SignedIsProduct | sale_account_invoice_discount/models/account_move.py:110-113 | the signed amounts equal the sign times the amount |
| AccountMove.PaymentStateOf | sale_account_invoice_discount/models/account_move.py:122-131 | no state exactly for entries; paid or in payment exactly for a posted, paid non-entry; in payment only when reconciled with a bank-posted payment |
| AccountMove.BookLine | sale_account_invoice_discount/models/account_move.py:77-104 | one line's step adds its amounts to the accumulator its classification names |
| AccountMove.AccumulateLines | sale_account_invoice_discount/models/account_move.py:75-104 | the line loop yields the accumulated totals and the set of line currencies |
| AccountMove.PickPaymentCurrency | sale_account_invoice_discount/models/account_move.py:119 | the only line currency when there is exactly one, else the company currency |
| AccountMove.LineStep | sale_account_invoice_discount/models/account_move.py:66-131 | tax, residual, their signed versions and the payment state, as the line-loop specification gives them |
| AccountMove.DiscountStep | sale_account_invoice_discount/models/account_move.py:137-146 | total = untaxed - discount + tax; signed amounts converted when the move has a foreign currency and negated on refunds |
| AccountMove.Move.ComputeAmount | sale_account_invoice_discount/models/account_move.py:66-146 | leaves every input field unchanged and sets the computed amounts to the specification of the move |
| AccountMove.CalculateDiscount | sale_account_invoice_discount/models/account_move.py:22-31 | over moves, the result is the last move's own discount (0 on an empty set) |
| AccountMove.ComputeAmounts | sale_account_invoice_discount/models/account_move.py:41-146 | every move in the set is recomputed from its own fields; no input field changes |
| AccountMove.LastProductAccountSound | sale_account_invoice_discount/models/account_move.py:159-161 | the account found is that of the last invoice line with a product |
| AccountMove.LastProductAccountComplete | sale_account_invoice_discount/models/account_move.py:159-161 | if line j is the last one with a product, its account is found |
| AccountMove.NoProductLine | sale_account_invoice_discount/models/account_move.py:159-161 | no account is found exactly when no line has a product |
| AccountMove.Create | sale_account_invoice_discount/models/account_move.py:149-173 | `flag` is removed; with the flag, or without a method and amount or draft state, nothing is added; with no product line the account is unbound; otherwise one Discount line for the move's discount is appended |
| AccountMove.DiscountLineLeavesTotals | sale_account_invoice_discount/models/account_move.py:163-169 | the discount line is excluded from the invoice tab, so adding it changes neither the invoice lines nor any accumulator |
| AccountMove.DiscountLineChangesNoAmount | sale_account_invoice_discount/models/account_move.py:159-172 | after the write, recomputing the invoice gives the same amounts as before |
| AccountMove.PreparePaymentMoves | sale_account_invoice_discount/models/account_move.py:179-186 | each payment move's values gain `flag` exactly when the context's default type is a vendor bill; nothing else changes |
| AccountMove.CreatePaymentMove | sale_account_invoice_discount/models/account_move.py:149-186 | a flagged vendor-bill payment creates its move without a discount line and loses its flag |
| AccountMove.NoMethodNoDiscount | sale_account_invoice_discount/models/account_move.py:134-137 | without a method the discount is 0 and total = untaxed + tax |
| AccountMove.FixedDiscountIsAmount | sale_account_invoice_discount/models/account_move.py:134-137 | with a fixed method the discount is the amount and total = untaxed - amount + tax |
| AccountMove.PercentageDiscountBounded | sale_account_invoice_discount/models/account_move.py:134-137 | a percentage in [0, 100] of a non-negative subtotal gives 0 <= discount <= untaxed and tax <= total <= untaxed + tax |
| AccountMove.RefundNegatesSignedTotals | sale_account_invoice_discount/models/account_move.py:138-146 | on refunds the signed total is minus the total, otherwise equal; likewise the company and untaxed signed amounts when no conversion applies |
| AccountMove.CustomerRefundExample | sale_account_invoice_discount/models/account_move.py:77-146 | a posted customer refund with an invoice line of balance 100 and a tax line of 10 has untaxed 100, tax 10, total 110 and signed total -110 |
| AccountMove.EntryHasNoTaxNorResidual | sale_account_invoice_discount/models/account_move.py:100-124 | a miscellaneous entry has no tax, no residual and no payment state |
| AccountMove.InvoiceTaxIsTaxLines | sale_account_invoice_discount/models/account_move.py:90-115 | on an invoice without a single line currency, the tax is the sign times the tax lines' balance and the signed tax its negation |
| AccountMove.UnpostedIsNotPaid | sale_account_invoice_discount/models/account_move.py:125-131 | a non-entry that is not posted is not paid |
| AccountMove.LineCurrenciesAppend | sale_account_invoice_discount/models/account_move.py:78-79 | appending a line adds its currency, if any, to the line currencies |
| ResCurrency.Matching | sync_xero_connector/models/res_currency.py:23-24 | exactly the records of that name and active flag, in increasing table order |
| ResCurrency.ImportOne | sync_xero_connector/models/res_currency.py:23-29 | one import step adds at most one record and renames none |
| ResCurrency.Import | sync_xero_connector/models/res_currency.py:22-30 | the import adds at most one record per code and renames none |
| ResCurrency.CurrencyTable.Search | sync_xero_connector/models/res_currency.py:23-24 | the search loop returns the matching records |
| ResCurrency.CurrencyTable.ImportCode | sync_xero_connector/models/res_currency.py:23-29 | one code updates the table as one import step specifies |
| ResCurrency.CurrencyTable.ImportCurrency | sync_xero_connector/models/res_currency.py:22-30 | the table becomes the fold of the import step over the code list |
| ResCurrency.ImportActivatesFirstInactive | sync_xero_connector/models/res_currency.py:25-26 | when an inactive record has the code, the first such record becomes active and nothing else changes |
| ResCurrency.ImportCreatesMissing | sync_xero_connector/models/res_currency.py:28-29 | when no record has the code, one active record is appended |
| ResCurrency.NoMatchWithoutName | sync_xero_connector/models/res_currency.py:23-24 | no record of that name means both searches are empty |
| ResCurrency.ImportKeepsActive | sync_xero_connector/models/res_currency.py:25-28 | when every record of the code is already active, the table is unchanged |
| ResCurrency.ImportOneKeepsRecords | sync_xero_connector/models/res_currency.py:22-29 | one step never removes or renames a record, never deactivates one, and leaves other codes' records alone |
| ResCurrency.ImportOneAppends | sync_xero_connector/models/res_currency.py:28-29 | one step appends at most one record, active and new by name |
| ResCurrency.ImportOneActivates | sync_xero_connector/models/res_currency.py:22-29 | after one step an active record of the code exists |
| ResCurrency.ImportKeepsRecords | sync_xero_connector/models/res_currency.py:22-30 | the import keeps the existing records with their names, never deactivates one, and leaves records of codes not listed unchanged |
| ResCurrency.ImportActivatesAll | sync_xero_connector/models/res_currency.py:22-30 | after the import every listed code has an active record |
| ResCurrency.ImportCreatesFromList | sync_xero_connector/models/res_currency.py:28-29 | every record created is active and named by a listed code |
| ResCurrency.ImportCreatesOncePerCode | sync_xero_connector/models/res_currency.py:22-30 | no created record shares its name with an earlier one |
| ResCurrency.ImportRerunCreatesNothing | sync_xero_connector/models/res_currency.py:22-30 | a second import of the same list creates no record |
| ResCurrency.ImportKeepsCount | sync_xero_connector/models/res_currency.py:22-30 | when every code is already active, the import creates nothing and keeps them active |
| ResCurrency.ImportIdempotent | sync_xero_connector/models/res_currency.py:22-30 | on a table with unique names, importing twice equals importing once, and names stay unique |
| ResCurrency.ImportKeepsUnique | sync_xero_connector/models/res_currency.py:22-30 | the import keeps currency names unique |
| ResCurrency.ImportOneKeepsUnique | sync_xero_connector/models/res_currency.py:23-29 | one step keeps currency names unique |
| ResCurrency.ImportFixes | sync_xero_connector/models/res_currency.py:22-30 | on a unique-name table where the codes are active, importing any of them changes nothing |
| ResCurrency.Compute | sync_xero_connector/models/res_currency.py:39-55 | the conversion succeeds exactly when at least one currency is known, and otherwise fails on the source assertion |
| ResCurrency.RateByAmount | sync_xero_connector/models/res_currency.py:33-37 | defined exactly for a nonzero source rate, and then the rate times the source rate is the target's rate |
| ResCurrency.SameCurrencyKeepsAmount | sync_xero_connector/models/res_currency.py:47-55 | converting to the same currency returns the amount, rounded only when asked |
| ResCurrency.ContextRateConverts | sync_xero_connector/models/res_currency.py:50-51 | with a nonzero context rate between two currencies, the result is the amount times the target rate over the context rate |
| ResCurrency.MissingCurrencySubstituted | sync_xero_connector/models/res_currency.py:43-44 | a missing side is replaced by the other (an identity conversion); with none, the source assertion fails |
| ResCurrency.TargetAssertionNeverFails | sync_xero_connector/models/res_currency.py:43-45 | after the substitution the target assertion can never be the one that fails |
| ResCurrency.RoundingOnlyWhenAsked | sync_xero_connector/models/res_currency.py:55 | between two known currencies the rounded result is the target's rounding of the exact one |
| Project.ToActionData | task_to_po/models/project.py:353-371 | an error exactly when an action comes with a model or views; model and views always present (the action's when given); context exactly when given; res id exactly when given and nonzero; domain exactly when no res id and a non-empty domain; no other key |
| Project.ResIdExcludesDomain | task_to_po/models/project.py:367-370 | res id and domain never appear together |
| Project.ActionMatchesModelAndViews | task_to_po/models/project.py:355-364 | an action gives the same attributes as its model and views passed directly |
| Project.Put | task_to_po/models/project.py:136-143 | a write to one slot of an hours or rates table changes that slot alone |
| Project.LastAmount | task_to_po/models/project.py:134-137 | the amount a kind's slot ends with is that of a group of that kind, and none exactly when no group has it |
| Project.HoursAndRates | task_to_po/models/project.py:117-148 | canceled hours rounded; each kind's hours rounded from its group; total hours = rounded canceled + sum of rounded groups; each kind's rate its share of all hours, 0 when there are none; total rate the sum; canceled rate as computed with the `or 1` guard |
| Project.BookGroup | task_to_po/models/project.py:134-144 | one group sets its kind's hours and rate and adds them to the totals |
| Project.TotalHoursAddUp | task_to_po/models/project.py:134-139 | with distinct kinds, the sum of group hours equals the sum of per-kind hours |
| Project.TotalRateAddsUp | task_to_po/models/project.py:141-144 | with distinct kinds, the total rate equals the sum of per-kind rates |
| Project.NoHoursNoRates | task_to_po/models/project.py:141-142 | with no hours at all, every rate and the total rate are 0 |
| Project.UnroundedRatesSumTo100 | task_to_po/models/project.py:132-148 | without rounding, the kind rates plus the canceled rate sum to 100 when there are hours |
| Project.RatesAreShares | task_to_po/models/project.py:132-144 | without rounding, the total rate is the groups' hours as a percentage of all hours |
| Project.SumProfitRows | task_to_po/models/project.py:151-161 | each profit column is the sum of that column over the report rows |
| Project.SumVendorOrders | task_to_po/models/project.py:165-168 | the nested loop sums the untaxed amounts of every task's purchase order across projects |
| Project.ProfitTotals | task_to_po/models/project.py:151-169 | the columns are the column sums, and the total is their sum less the vendor purchase orders |
| Project.ColumnsThenRows | task_to_po/models/project.py:162 | summing the columns of the summed rows equals summing each row's total |
| Project.Tagged | task_to_po/models/project.py:199 | the repartition data: billed groups first, then the canceled groups, tagged canceled |
| Project.SeedEmployees | task_to_po/models/project.py:202-213 | one zeroed entry per listed employee, with the employee's name |
| Project.BookRows | task_to_po/models/project.py:214-227 | after the rows, entries cover listed employees and row employees; each slot holds the rounded amount of its last row; names come from the list first, else the first row |
| Project.BookRow | task_to_po/models/project.py:214-225 | one row creates its employee's zeroed entry when missing and writes its rounded amount to its slot; other entries stay |
| Project.ListedNameIff | task_to_po/models/project.py:202-206 | a listed name exists exactly for listed employee ids |
| Project.FirstRowNameIff | task_to_po/models/project.py:216-218 | a row name exists exactly for ids that occur in the rows |
| Project.ComputeTotals | task_to_po/models/project.py:229-230 | each entry's total becomes the sum of its kind and canceled slots; nothing else changes |
| Project.Repartition | task_to_po/models/project.py:202-230 | keys are the listed and logged employees; each entry has its id, its shown name, each slot as logged and the total of the slots |
| Project.TotalsOfBooked | task_to_po/models/project.py:214-230 | totalling the booked entries gives the repartition the table promises |
| Project.HoursPerEmployee | task_to_po/models/project.py:231-232 | one total per entry: the totals follow a visiting order of distinct employee ids that covers every key, each total is its entry's, and they are exactly the entries' totals |
| Project.Max | task_to_po/models/project.py:234 | the maximum belongs to the list and bounds every element |
| Project.EmployeeMax | task_to_po/models/project.py:233-234 | never 0; 1 for no employees and 1 when the maximum is 0; the maximum when it is nonzero; positive when all totals are non-negative |

## Left out

- `_cr.commit()` after each currency write: transactions are not modelled.
- The accounting-system connection (OAuth, API calls) that supplies currency lists and rates is not modelled. The currency list enters as a sequence of codes, and the context rate as an optional real.
- ResCurrency.CurrencyTable.ImportCurrency: entries without a `Code` key (search on `False`) are not modelled; every entry is a code string.
- ResCurrency.Compute: the company and date of the context are folded into the `rate` parameter, and currencies are compared as values, not records.
- Rounding (`float_round`, `round(…, 2)`, `currency.round`, `is_zero`) and currency conversion are function parameters with no properties assumed; floating point is modelled as reals.
- The reconciliation SQL query of `_compute_amount` is modelled by its result, a set of move ids.
- AccountMove.Move.ComputeAmount: the intermediate assignments to untaxed amount, total and their signed versions are overwritten by the discount step and are not kept.
- The framework's recomputation of the receivable line after `create` writes the discount line is not modelled; ledger amounts of the new line are an input.
- AccountMove.Create: only one values dictionary is modelled. The source creates the whole list again for each dictionary, so several dictionaries, and the effect of reading fields off a multi-record set, are not modelled. An empty list (the source then returns an unbound variable) is not modelled either.
- `calc_discount` of journal entries only calls the resolver and discards its result; it has no effect and is not modelled.
- Sale.SaleOrder: the discount method, amount and lines are constant during recomputation, as nothing in the modelled code writes them.
- `json.dumps` of views, context and domain is an abstract value; `clean_action(action.read()[0])` is taken as the action's model and views.
- Search results follow table order; the framework's default ordering of currency records is not modelled.
- `.get(key, 0.0)` defaults of the profitability report are not modelled: every column is present on every row.
- A timesheet type outside the four billable types, which would create a new key in the hours, rates and repartition dictionaries, is not modelled: `TimeKind` has exactly the four.
- The `__domain_…` keys of the repartition, and `_plan_get_stat_button`, are not modelled; neither is the dictionary insertion order of the repartition.
- Project.HoursAndRates: the canceled rate key, absent until the end of the source, is a table slot holding 0 until then; no code in between reads it.
- Project.SumVendorOrders: a task without a purchase order contributes 0.0, as an empty record reads 0.0.
- `create_po_from_task`, `_compute_purchase_order_id`, the activity notification add-on and the manifests are not part of this model.

## Findings

| source | as written | input that shows it | evidently intended | confidence | as-written member | corrected member |
|---|---|---|---|---|---|---|
| sale_account_invoice_discount/models/sale.py:44 | the discount of each order in the loop over `self` is resolved over the whole record set `self`, so an order inherits the discount of later orders | two orders recomputed together, the first without a method, the second with a fixed discount of 10 (untaxed 100 and 50): the first order gets discount 10 and a total 10 lower | each order's discount is resolved on that order alone | not executed | Sale.AmountAll (with Sale.SetWideDiscountExample) | Sale.AmountAllPerOrder |

