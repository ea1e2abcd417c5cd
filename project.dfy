/** The project dashboard: the action descriptors its buttons carry, and the
    hours, rates, profitability and time repartition it shows. The query
    results the dashboard reads are inputs. */
module Project {

  import opened Vals

  // ---------------------------------------------------------------------
  // Action descriptors
  // ---------------------------------------------------------------------

  /** One entry of an action's `views`: a view id (or none) and a view type. */
  datatype ViewRef = ViewRef(viewId: Option<int>, viewType: string)

  /** A domain term `(field, operator, value)`. */
  datatype DomainTerm = DomainTerm(field: string, operator: string, value: Value)

  /** What the cleaned-up action record contributes: its model and views. */
  datatype Action = Action(resModel: string, views: seq<ViewRef>)

  /** A JSON document as `json.dumps` serialises it; the serialisation is
      kept as the value it serialises. */
  datatype Json = ViewsJson(views: Option<seq<ViewRef>>) | ContextJson(context: map<string, Value>)
                | DomainJson(domain: seq<DomainTerm>)

  /** A value of the descriptor: the model name (Python `None` included),
      a serialised document, or a record id. */
  datatype DescrValue = ModelName(model: Option<string>) | Dumped(json: Json) | ResId(id: int)

  datatype ActionError = ActionWithModelOrViews

  /** Python truthiness of an optional record id and an optional domain. */
  predicate ResIdGiven(resId: Option<int>)
  {
    resId.Some? && resId.value != 0
  }

  predicate DomainGiven(domain: Option<seq<DomainTerm>>)
  {
    domain.Some? && domain.value != []
  }

  /** `_to_action_data`: either an action, or a model and its views; the
      descriptor always names the model and views, carries the context when
      one is passed, and a record id or else a domain. */
  function ToActionData(model: Option<string>, action: Option<Action>, views: Option<seq<ViewRef>>,
                        resId: Option<int>, domain: Option<seq<DomainTerm>>,
                        context: Option<map<string, Value>>): (r: Result<map<string, DescrValue>, ActionError>)
    ensures r.Err? <==> action.Some? && (model.Some? || views.Some?)
    ensures r.Ok? ==> "data-model" in r.value && "data-views" in r.value
    ensures r.Ok? && action.Some? ==>
              r.value["data-model"] == ModelName(Some(action.value.resModel)) &&
              r.value["data-views"] == Dumped(ViewsJson(Some(action.value.views)))
    ensures r.Ok? && action.None? ==>
              r.value["data-model"] == ModelName(model) && r.value["data-views"] == Dumped(ViewsJson(views))
    ensures r.Ok? ==> ("data-context" in r.value <==> context.Some?)
    ensures r.Ok? && context.Some? ==> r.value["data-context"] == Dumped(ContextJson(context.value))
    ensures r.Ok? ==> ("data-res-id" in r.value <==> ResIdGiven(resId))
    ensures r.Ok? && ResIdGiven(resId) ==> r.value["data-res-id"] == ResId(resId.value)
    ensures r.Ok? ==> ("data-domain" in r.value <==> !ResIdGiven(resId) && DomainGiven(domain))
    ensures r.Ok? && "data-domain" in r.value ==> r.value["data-domain"] == Dumped(DomainJson(domain.value))
    ensures r.Ok? ==> r.value.Keys <= {"data-model", "data-views", "data-context", "data-res-id", "data-domain"}
  {
    if action.Some? && (model.Some? || views.Some?) then Err(ActionWithModelOrViews)
    else
      var model' := if action.Some? then Some(action.value.resModel) else model;
      var views' := if action.Some? then Some(action.value.views) else views;
      var descr := map["data-model" := ModelName(model'), "data-views" := Dumped(ViewsJson(views'))];
      var descr := if context.Some? then descr["data-context" := Dumped(ContextJson(context.value))] else descr;
      var descr :=
        if ResIdGiven(resId) then descr["data-res-id" := ResId(resId.value)]
        else if DomainGiven(domain) then descr["data-domain" := Dumped(DomainJson(domain.value))]
        else descr;
      Ok(descr)
  }

  /** A record id and a domain never appear together. */
  lemma ResIdExcludesDomain(model: Option<string>, action: Option<Action>, views: Option<seq<ViewRef>>,
                            resId: Option<int>, domain: Option<seq<DomainTerm>>,
                            context: Option<map<string, Value>>)
    ensures var r := ToActionData(model, action, views, resId, domain, context);
            r.Ok? ==> !("data-res-id" in r.value && "data-domain" in r.value)
  {
  }

  /** Passing an action gives the descriptor that passing its model and
      views directly gives. */
  lemma ActionMatchesModelAndViews(action: Action, resId: Option<int>, domain: Option<seq<DomainTerm>>,
                                   context: Option<map<string, Value>>)
    ensures ToActionData(None, Some(action), None, resId, domain, context)
            == ToActionData(Some(action.resModel), None, Some(action.views), resId, domain, context)
  {
  }

  // ---------------------------------------------------------------------
  // Hours and rates
  // ---------------------------------------------------------------------

  /** The billable types of a timesheet line. */
  datatype TimeKind = NonBillable | NonBillableProject | BillableTime | BillableFixed

  /** A key of the hours and rates tables: a billable type, the hours on
      cancelled sales orders, or the total. */
  datatype Slot = Kind(kind: TimeKind) | Canceled | Total

  /** A table keyed by the slots: the `hours` and `rates` dictionaries of
      the dashboard, and the hours of one employee in the repartition. */
  datatype Table = Table(nonBillable: real, nonBillableProject: real, billableTime: real,
                         billableFixed: real, canceled: real, total: real)

  /** `dict.fromkeys(..., 0.0)`. */
  const ZeroTable := Table(0.0, 0.0, 0.0, 0.0, 0.0, 0.0)

  function At(t: Table, s: Slot): real
  {
    match s
    case Kind(NonBillable) => t.nonBillable
    case Kind(NonBillableProject) => t.nonBillableProject
    case Kind(BillableTime) => t.billableTime
    case Kind(BillableFixed) => t.billableFixed
    case Canceled => t.canceled
    case Total => t.total
  }

  /** `t[s] = v`: the entry at `s` becomes `v`, every other entry stays. */
  function Put(t: Table, s: Slot, v: real): (r: Table)
    ensures At(r, s) == v
    ensures forall s' :: s' != s ==> At(r, s') == At(t, s')
  {
    match s
    case Kind(NonBillable) => t.(nonBillable := v)
    case Kind(NonBillableProject) => t.(nonBillableProject := v)
    case Kind(BillableTime) => t.(billableTime := v)
    case Kind(BillableFixed) => t.(billableFixed := v)
    case Canceled => t.(canceled := v)
    case Total => t.(total := v)
  }

  /** The sum of a function over the four billable types. */
  function OverKinds(f: TimeKind -> real): real
  {
    f(NonBillable) + f(NonBillableProject) + f(BillableTime) + f(BillableFixed)
  }

  /** One group of the timesheet query: the hours logged under one type. */
  datatype TypeHours = TypeHours(kind: TimeKind, unitAmount: real)

  function SumAmounts(data: seq<TypeHours>): real
  {
    if data == [] then 0.0 else SumAmounts(data[..|data| - 1]) + data[|data| - 1].unitAmount
  }

  /** The query groups by type, so no type appears twice. */
  predicate DistinctKinds(data: seq<TypeHours>)
  {
    forall i, j :: 0 <= i < j < |data| ==> data[i].kind != data[j].kind
  }

  /** The hours of the last group of type `k`, if any. */
  function LastAmount(data: seq<TypeHours>, k: TimeKind): (a: Option<real>)
    ensures a.None? <==> forall i :: 0 <= i < |data| ==> data[i].kind != k
    ensures a.Some? ==> exists i :: 0 <= i < |data| && data[i].kind == k && data[i].unitAmount == a.value
  {
    if data == [] then None
    else if data[|data| - 1].kind == k then Some(data[|data| - 1].unitAmount)
    else LastAmount(data[..|data| - 1], k)
  }

  /** The rate of `amount` hours out of `totalHours`, in percent, rounded
      to two places; 0 when there are no hours at all. */
  function RateOf(amount: real, totalHours: real, round2: real -> real): real
  {
    if totalHours != 0.0 then round2(amount / totalHours * 100.0) else 0.0
  }

  /** The hours and rate the table shows for type `k`. */
  function HoursFor(data: seq<TypeHours>, k: TimeKind, roundHours: real -> real): real
  {
    match LastAmount(data, k)
    case Some(a) => roundHours(a)
    case None => 0.0
  }

  function RateFor(data: seq<TypeHours>, k: TimeKind, totalHours: real, round2: real -> real): real
  {
    match LastAmount(data, k)
    case Some(a) => RateOf(a, totalHours, round2)
    case None => 0.0
  }

  /** What the loop adds to the `total` entries, one group at a time. */
  function SumRounded(data: seq<TypeHours>, roundHours: real -> real): real
  {
    if data == [] then 0.0 else SumRounded(data[..|data| - 1], roundHours) + roundHours(data[|data| - 1].unitAmount)
  }

  function SumRates(data: seq<TypeHours>, totalHours: real, round2: real -> real): real
  {
    if data == [] then 0.0
    else SumRates(data[..|data| - 1], totalHours, round2) + RateOf(data[|data| - 1].unitAmount, totalHours, round2)
  }

  /** The hours and rates tables of the dashboard. `canceledHours` is the
      sum of the hours on cancelled sales orders, `data` the hours grouped by
      billable type; `roundHours` rounds to the hour unit's precision and
      `round2` to two decimal places. */
  method HoursAndRates(canceledHours: real, data: seq<TypeHours>, roundHours: real -> real, round2: real -> real)
    returns (hours: Table, rates: Table)
    ensures hours.canceled == roundHours(canceledHours)
    ensures forall k :: At(hours, Kind(k)) == HoursFor(data, k, roundHours)
    ensures hours.total == roundHours(canceledHours) + SumRounded(data, roundHours)
    ensures var totalHours := SumAmounts(data) + canceledHours;
            && (forall k :: At(rates, Kind(k)) == RateFor(data, k, totalHours, round2))
            && rates.total == SumRates(data, totalHours, round2)
            && rates.canceled == roundHours(100.0 * canceledHours / (if totalHours != 0.0 then totalHours else 1.0))
  {
    hours, rates := ZeroTable, ZeroTable;
    hours := Put(hours, Canceled, roundHours(canceledHours));
    hours := Put(hours, Total, hours.total + roundHours(canceledHours));
    var totalHours := SumAmounts(data) + canceledHours;
    var i := 0;
    while i < |data|
      invariant 0 <= i <= |data|
      invariant hours.canceled == roundHours(canceledHours)
      invariant forall k :: At(hours, Kind(k)) == HoursFor(data[..i], k, roundHours)
      invariant hours.total == roundHours(canceledHours) + SumRounded(data[..i], roundHours)
      invariant forall k :: At(rates, Kind(k)) == RateFor(data[..i], k, totalHours, round2)
      invariant rates.total == SumRates(data[..i], totalHours, round2)
    {
      PrefixStep(data, i, totalHours, roundHours, round2);
      hours, rates := BookGroup(hours, rates, data[i], totalHours, roundHours, round2);
      i := i + 1;
    }
    assert data[..|data|] == data;
    rates := Put(rates, Canceled, roundHours(100.0 * canceledHours / (if totalHours != 0.0 then totalHours else 1.0)));
  }

  /** The body of the loop over the groups: the group's hours and rate are
      shown under its type and added to the totals. */
  method BookGroup(hours: Table, rates: Table, g: TypeHours, totalHours: real,
                   roundHours: real -> real, round2: real -> real)
    returns (hours': Table, rates': Table)
    ensures forall k :: At(hours', Kind(k)) == if k == g.kind then roundHours(g.unitAmount) else At(hours, Kind(k))
    ensures hours'.canceled == hours.canceled && hours'.total == hours.total + roundHours(g.unitAmount)
    ensures forall k :: At(rates', Kind(k)) == if k == g.kind then RateOf(g.unitAmount, totalHours, round2) else At(rates, Kind(k))
    ensures rates'.canceled == rates.canceled && rates'.total == rates.total + RateOf(g.unitAmount, totalHours, round2)
  {
    hours' := Put(hours, Kind(g.kind), roundHours(g.unitAmount));
    hours' := Put(hours', Total, hours'.total + roundHours(g.unitAmount));
    var rate := if totalHours != 0.0 then round2(g.unitAmount / totalHours * 100.0) else 0.0;
    rates' := Put(rates, Kind(g.kind), rate);
    rates' := Put(rates', Total, rates'.total + rate);
  }

  /** What one more group adds to the prefix sums and the shown values. */
  lemma PrefixStep(data: seq<TypeHours>, i: nat, totalHours: real, roundHours: real -> real, round2: real -> real)
    requires i < |data|
    ensures var g, p, q := data[i], data[..i], data[..i + 1];
            && SumRounded(q, roundHours) == SumRounded(p, roundHours) + roundHours(g.unitAmount)
            && SumRates(q, totalHours, round2) == SumRates(p, totalHours, round2) + RateOf(g.unitAmount, totalHours, round2)
            && (forall k :: HoursFor(q, k, roundHours) == if k == g.kind then roundHours(g.unitAmount) else HoursFor(p, k, roundHours))
            && (forall k :: RateFor(q, k, totalHours, round2)
                             == if k == g.kind then RateOf(g.unitAmount, totalHours, round2) else RateFor(p, k, totalHours, round2))
  {
    assert data[..i + 1][..i] == data[..i];
  }

  /** With one group per type, the total hours are the cancelled hours plus
      the hours shown for each type. */
  lemma {:induction false} TotalHoursAddUp(data: seq<TypeHours>, roundHours: real -> real)
    requires DistinctKinds(data)
    ensures SumRounded(data, roundHours) == OverKinds(k => HoursFor(data, k, roundHours))
  {
    if data != [] {
      var init, g := data[..|data| - 1], data[|data| - 1];
      assert DistinctKinds(init);
      TotalHoursAddUp(init, roundHours);
      assert LastAmount(init, g.kind) == None by {
        forall i | 0 <= i < |init|
          ensures init[i].kind != g.kind
        {
          assert data[i].kind != data[|data| - 1].kind;
        }
      }
      assert forall k :: k != g.kind ==> HoursFor(data, k, roundHours) == HoursFor(init, k, roundHours);
      assert HoursFor(data, g.kind, roundHours) == roundHours(g.unitAmount);
      assert HoursFor(init, g.kind, roundHours) == 0.0;
    }
  }

  /** With one group per type, the total rate is the sum of the rates
      shown for each type. */
  lemma {:induction false} TotalRateAddsUp(data: seq<TypeHours>, totalHours: real, round2: real -> real)
    requires DistinctKinds(data)
    ensures SumRates(data, totalHours, round2) == OverKinds(k => RateFor(data, k, totalHours, round2))
  {
    if data != [] {
      var init, g := data[..|data| - 1], data[|data| - 1];
      assert DistinctKinds(init);
      TotalRateAddsUp(init, totalHours, round2);
      assert LastAmount(init, g.kind) == None by {
        forall i | 0 <= i < |init|
          ensures init[i].kind != g.kind
        {
          assert data[i].kind != data[|data| - 1].kind;
        }
      }
      assert forall k :: k != g.kind ==> RateFor(data, k, totalHours, round2) == RateFor(init, k, totalHours, round2);
      assert RateFor(data, g.kind, totalHours, round2) == RateOf(g.unitAmount, totalHours, round2);
      assert RateFor(init, g.kind, totalHours, round2) == 0.0;
    }
  }

  /** Without any hours every rate is 0. */
  lemma {:induction false} NoHoursNoRates(data: seq<TypeHours>, round2: real -> real)
    ensures SumRates(data, 0.0, round2) == 0.0
    ensures forall k :: RateFor(data, k, 0.0, round2) == 0.0
  {
    if data != [] {
      NoHoursNoRates(data[..|data| - 1], round2);
    }
  }

  /** Before rounding, the rates of the types and of the cancelled hours add
      up to 100 whenever some hours were logged. */
  lemma {:induction false} UnroundedRatesSumTo100(data: seq<TypeHours>, canceledHours: real)
    requires SumAmounts(data) + canceledHours != 0.0
    ensures var totalHours := SumAmounts(data) + canceledHours;
            SumRates(data, totalHours, x => x) + 100.0 * canceledHours / totalHours == 100.0
  {
    var t := SumAmounts(data) + canceledHours;
    RatesAreShares(data, t);
    assert SumAmounts(data) / t * 100.0 + 100.0 * canceledHours / t == 100.0 * (SumAmounts(data) + canceledHours) / t;
  }

  lemma {:induction false} RatesAreShares(data: seq<TypeHours>, totalHours: real)
    requires totalHours != 0.0
    ensures SumRates(data, totalHours, x => x) == SumAmounts(data) / totalHours * 100.0
  {
    if data != [] {
      var init, g := data[..|data| - 1], data[|data| - 1];
      RatesAreShares(init, totalHours);
      assert SumAmounts(init) / totalHours * 100.0 + g.unitAmount / totalHours * 100.0
          == (SumAmounts(init) + g.unitAmount) / totalHours * 100.0;
    }
  }

  // ---------------------------------------------------------------------
  // Profitability
  // ---------------------------------------------------------------------

  /** One row of the profitability report, grouped by project. */
  datatype ProfitRow = ProfitRow(invoiced: real, toInvoice: real, cost: real,
                                 expenseCost: real, expenseInvoiced: real)

  /** The `profit` dictionary. */
  datatype Profit = Profit(invoiced: real, toInvoice: real, cost: real,
                           expenseCost: real, expenseInvoiced: real, total: real)

  /** The column sums of the report. */
  function SumRows(rows: seq<ProfitRow>): ProfitRow
  {
    if rows == [] then ProfitRow(0.0, 0.0, 0.0, 0.0, 0.0)
    else
      var p, r := SumRows(rows[..|rows| - 1]), rows[|rows| - 1];
      ProfitRow(p.invoiced + r.invoiced, p.toInvoice + r.toInvoice, p.cost + r.cost,
                p.expenseCost + r.expenseCost, p.expenseInvoiced + r.expenseInvoiced)
  }

  /** The five amounts of a row added up. */
  function RowTotal(r: ProfitRow): real
  {
    r.invoiced + r.toInvoice + r.cost + r.expenseCost + r.expenseInvoiced
  }

  function SumRowTotals(rows: seq<ProfitRow>): real
  {
    if rows == [] then 0.0 else SumRowTotals(rows[..|rows| - 1]) + RowTotal(rows[|rows| - 1])
  }

  function SumReals(xs: seq<real>): real
  {
    if xs == [] then 0.0 else SumReals(xs[..|xs| - 1]) + xs[|xs| - 1]
  }

  /** The untaxed amounts of the tasks' purchase orders, project by project
      (0 for a task without one). */
  function VendorTotal(projects: seq<seq<real>>): real
  {
    if projects == [] then 0.0 else VendorTotal(projects[..|projects| - 1]) + SumReals(projects[|projects| - 1])
  }

  /** `total_vendor_po`: the nested loop over the projects and their tasks. */
  method SumVendorOrders(projects: seq<seq<real>>) returns (total: real)
    ensures total == VendorTotal(projects)
  {
    total := 0.0;
    var i := 0;
    while i < |projects|
      invariant 0 <= i <= |projects|
      invariant total == VendorTotal(projects[..i])
    {
      var tasks := projects[i];
      ghost var before := total;
      var j := 0;
      while j < |tasks|
        invariant 0 <= j <= |tasks|
        invariant total == before + SumReals(tasks[..j])
      {
        assert tasks[..j + 1][..j] == tasks[..j];
        total := total + tasks[j];
        j := j + 1;
      }
      assert tasks[..|tasks|] == tasks;
      assert projects[..i + 1][..i] == projects[..i];
      i := i + 1;
    }
    assert projects[..|projects|] == projects;
  }

  /** The loop over the report rows: each amount is accumulated, `total`
      stays 0. */
  method SumProfitRows(rows: seq<ProfitRow>) returns (profit: Profit)
    ensures var s := SumRows(rows);
            profit == Profit(s.invoiced, s.toInvoice, s.cost, s.expenseCost, s.expenseInvoiced, 0.0)
  {
    profit := Profit(0.0, 0.0, 0.0, 0.0, 0.0, 0.0);
    var i := 0;
    while i < |rows|
      invariant 0 <= i <= |rows|
      invariant var s := SumRows(rows[..i]);
                profit == Profit(s.invoiced, s.toInvoice, s.cost, s.expenseCost, s.expenseInvoiced, 0.0)
    {
      var r := rows[i];
      assert rows[..i + 1][..i] == rows[..i];
      profit := profit.(invoiced := profit.invoiced + r.invoiced, toInvoice := profit.toInvoice + r.toInvoice,
                        cost := profit.cost + r.cost, expenseCost := profit.expenseCost + r.expenseCost,
                        expenseInvoiced := profit.expenseInvoiced + r.expenseInvoiced);
      i := i + 1;
    }
    assert rows[..|rows|] == rows;
  }

  /** The profitability block: each amount summed over the report rows, and
      a total that is the sum of those amounts less the vendor purchase
      orders of all tasks. */
  method ProfitTotals(rows: seq<ProfitRow>, projects: seq<seq<real>>) returns (profit: Profit)
    ensures var s := SumRows(rows);
            && profit.invoiced == s.invoiced && profit.toInvoice == s.toInvoice && profit.cost == s.cost
            && profit.expenseCost == s.expenseCost && profit.expenseInvoiced == s.expenseInvoiced
    ensures profit.total == RowTotal(SumRows(rows)) - VendorTotal(projects)
  {
    profit := SumProfitRows(rows);
    // `sum` over every key of the dictionary, `total` (still 0) included
    profit := profit.(total := profit.invoiced + profit.toInvoice + profit.cost + profit.expenseCost
                               + profit.expenseInvoiced + profit.total);
    var vendor := SumVendorOrders(projects);
    profit := profit.(total := profit.total - vendor);
  }

  /** Adding up the columns and then the column sums gives the sum of the
      rows' own totals: the profit total before the purchase orders. */
  lemma {:induction false} ColumnsThenRows(rows: seq<ProfitRow>)
    ensures RowTotal(SumRows(rows)) == SumRowTotals(rows)
  {
    if rows != [] {
      ColumnsThenRows(rows[..|rows| - 1]);
    }
  }

  // ---------------------------------------------------------------------
  // Time repartition per employee
  // ---------------------------------------------------------------------

  /** An employee of the project's tasks or timesheets. */
  datatype Employee = Employee(id: int, name: string)

  /** A key a repartition row can carry: a billable type or `canceled`. */
  type RowSlot = s: Slot | s != Total witness Canceled

  /** One group of the repartition query: an employee's hours under one
      billable type, or on cancelled sales orders. */
  datatype RepRow = RepRow(employeeId: int, employeeName: string, slot: RowSlot, unitAmount: real)

  /** A group of the timesheets on cancelled sales orders. */
  datatype CanceledGroup = CanceledGroup(employeeId: int, employeeName: string, unitAmount: real)

  /** One entry of `repartition_employee`. */
  datatype EmployeeHours = EmployeeHours(employeeId: int, employeeName: string, hours: Table)

  /** `repartition_data += [{**canceled, 'timesheet_invoice_type': 'canceled'} ...]`. */
  function Tagged(billed: seq<RepRow>, canceled: seq<CanceledGroup>): (rows: seq<RepRow>)
    ensures |rows| == |billed| + |canceled| && rows[..|billed|] == billed
    ensures forall j :: 0 <= j < |canceled| ==>
              rows[|billed| + j] == RepRow(canceled[j].employeeId, canceled[j].employeeName, Canceled, canceled[j].unitAmount)
  {
    billed + seq(|canceled|, j requires 0 <= j < |canceled| =>
                   RepRow(canceled[j].employeeId, canceled[j].employeeName, Canceled, canceled[j].unitAmount))
  }

  function EmployeeIds(employees: seq<Employee>): set<int>
  {
    set e | e in employees :: e.id
  }

  function RowIds(rows: seq<RepRow>): set<int>
  {
    set r | r in rows :: r.employeeId
  }

  /** The hours of the last group for employee `id` under `s`, rounded;
      0 when there is none. */
  function Logged(rows: seq<RepRow>, id: int, s: Slot, roundHours: real -> real): real
  {
    if rows == [] then 0.0
    else
      var r := rows[|rows| - 1];
      if r.employeeId == id && r.slot == s then roundHours(r.unitAmount)
      else Logged(rows[..|rows| - 1], id, s, roundHours)
  }

  /** The name the repartition shows: the employee's own when the employee
      was listed, else the name carried by the first group of theirs. */
  function ListedName(employees: seq<Employee>, id: int): Option<string>
  {
    if employees == [] then None
    else if employees[|employees| - 1].id == id then Some(employees[|employees| - 1].name)
    else ListedName(employees[..|employees| - 1], id)
  }

  function FirstRowName(rows: seq<RepRow>, id: int): Option<string>
  {
    if rows == [] then None
    else
      var earlier := FirstRowName(rows[..|rows| - 1], id);
      if earlier.None? && rows[|rows| - 1].employeeId == id then Some(rows[|rows| - 1].employeeName) else earlier
  }

  function ShownName(employees: seq<Employee>, rows: seq<RepRow>, id: int): Option<string>
  {
    if ListedName(employees, id).Some? then ListedName(employees, id) else FirstRowName(rows, id)
  }

  /** The four billable types and the cancelled hours added up. */
  function SlotSum(t: Table): real
  {
    t.nonBillableProject + t.nonBillable + t.billableTime + t.billableFixed + t.canceled
  }

  /** The first loop: every listed employee starts with all hours at 0. */
  method SeedEmployees(employees: seq<Employee>) returns (rep: map<int, EmployeeHours>)
    ensures rep.Keys == EmployeeIds(employees)
    ensures forall id :: id in rep ==>
              rep[id].employeeId == id && Some(rep[id].employeeName) == ListedName(employees, id) &&
              rep[id].hours == ZeroTable
  {
    rep := map[];
    var i := 0;
    while i < |employees|
      invariant 0 <= i <= |employees|
      invariant rep.Keys == EmployeeIds(employees[..i])
      invariant forall id :: id in rep ==>
                  rep[id].employeeId == id && Some(rep[id].employeeName) == ListedName(employees[..i], id) &&
                  rep[id].hours == ZeroTable
    {
      var e := employees[i];
      assert employees[..i + 1] == employees[..i] + [e];
      assert employees[..i + 1][..i] == employees[..i];
      rep := rep[e.id := EmployeeHours(e.id, e.name, ZeroTable)];
      i := i + 1;
    }
    assert employees[..|employees|] == employees;
  }

  /** What the second loop has built after the groups `rows`: an entry per
      listed employee or employee met in `rows`, with the name shown, no
      total yet, and the rounded hours of the last group per key. */
  ghost predicate Booked(employees: seq<Employee>, rows: seq<RepRow>, rep: map<int, EmployeeHours>,
                         roundHours: real -> real)
  {
    && rep.Keys == EmployeeIds(employees) + RowIds(rows)
    && forall id :: id in rep ==> EntryBooked(employees, rows, id, rep[id], roundHours)
  }

  ghost predicate EntryBooked(employees: seq<Employee>, rows: seq<RepRow>, id: int, e: EmployeeHours,
                              roundHours: real -> real)
  {
    && e.employeeId == id
    && Some(e.employeeName) == ShownName(employees, rows, id)
    && e.hours.total == 0.0
    && forall s: Slot :: s != Total ==> At(e.hours, s) == Logged(rows, id, s, roundHours)
  }

  /** The second loop: each group's rounded hours are set under its key
      for its employee, who is added, with the group's name, if missing. */
  method BookRows(employees: seq<Employee>, rep0: map<int, EmployeeHours>, rows: seq<RepRow>,
                  roundHours: real -> real)
    returns (rep: map<int, EmployeeHours>)
    requires rep0.Keys == EmployeeIds(employees)
    requires forall id :: id in rep0 ==>
               rep0[id].employeeId == id && Some(rep0[id].employeeName) == ListedName(employees, id) &&
               rep0[id].hours == ZeroTable
    ensures Booked(employees, rows, rep, roundHours)
  {
    rep := rep0;
    SeededIsBooked(employees, rep0, roundHours);
    var i := 0;
    while i < |rows|
      invariant 0 <= i <= |rows|
      invariant Booked(employees, rows[..i], rep, roundHours)
    {
      ghost var before := rep;
      rep := BookRow(rep, rows[i], roundHours);
      BookedStep(employees, rows, i, before, rep, roundHours);
      i := i + 1;
    }
    assert rows[..|rows|] == rows;
  }

  lemma SeededIsBooked(employees: seq<Employee>, rep: map<int, EmployeeHours>, roundHours: real -> real)
    requires rep.Keys == EmployeeIds(employees)
    requires forall id :: id in rep ==>
               rep[id].employeeId == id && Some(rep[id].employeeName) == ListedName(employees, id) &&
               rep[id].hours == ZeroTable
    ensures Booked(employees, [], rep, roundHours)
  {
    assert RowIds([]) == {};
  }

  /** One group booked keeps `Booked` with that group added. */
  lemma BookedStep(employees: seq<Employee>, rows: seq<RepRow>, i: nat, rep: map<int, EmployeeHours>,
                   rep': map<int, EmployeeHours>, roundHours: real -> real)
    requires i < |rows|
    requires Booked(employees, rows[..i], rep, roundHours)
    requires RowBooked(rep, rows[i], rep', roundHours)
    ensures Booked(employees, rows[..i + 1], rep', roundHours)
  {
    var r, p, q := rows[i], rows[..i], rows[..i + 1];
    RowStep(employees, rows, i, roundHours);
    forall id | id in rep'
      ensures EntryBooked(employees, q, id, rep'[id], roundHours)
    {
      if id != r.employeeId {
        assert EntryBooked(employees, p, id, rep[id], roundHours);
      } else if id in rep {
        assert EntryBooked(employees, p, id, rep[id], roundHours);
      }
    }
  }

  /** What the body of the second loop does with the group `r`: its
      employee's entry, created zeroed with the group's name when missing,
      gets the group's rounded hours under the group's key; every other
      entry stays. */
  ghost predicate RowBooked(rep0: map<int, EmployeeHours>, r: RepRow, rep: map<int, EmployeeHours>,
                            roundHours: real -> real)
  {
    && rep.Keys == rep0.Keys + {r.employeeId}
    && (forall id :: id in rep0 && id != r.employeeId ==> rep[id] == rep0[id])
    && var line := if r.employeeId in rep0 then rep0[r.employeeId]
                   else EmployeeHours(r.employeeId, r.employeeName, ZeroTable);
       rep[r.employeeId] == line.(hours := Put(line.hours, r.slot, roundHours(r.unitAmount)))
  }

  /** The body of the second loop: the `setdefault` and the assignment. */
  method BookRow(rep0: map<int, EmployeeHours>, r: RepRow, roundHours: real -> real)
    returns (rep: map<int, EmployeeHours>)
    ensures RowBooked(rep0, r, rep, roundHours)
    ensures r.employeeId in rep && At(rep[r.employeeId].hours, r.slot) == roundHours(r.unitAmount)
  {
    var line := if r.employeeId in rep0 then rep0[r.employeeId]
                else EmployeeHours(r.employeeId, r.employeeName, ZeroTable);
    rep := rep0[r.employeeId := line.(hours := Put(line.hours, r.slot, roundHours(r.unitAmount)))];
  }

  /** What one more group changes in the specification of the second loop. */
  lemma RowStep(employees: seq<Employee>, rows: seq<RepRow>, i: nat, roundHours: real -> real)
    requires i < |rows|
    ensures var r, p, q := rows[i], rows[..i], rows[..i + 1];
            && RowIds(q) == RowIds(p) + {r.employeeId}
            && (forall id :: ShownName(employees, q, id)
                               == if id == r.employeeId && id !in EmployeeIds(employees) && id !in RowIds(p)
                                  then Some(r.employeeName) else ShownName(employees, p, id))
            && (forall id, s :: Logged(q, id, s, roundHours)
                                  == if id == r.employeeId && s == r.slot then roundHours(r.unitAmount)
                                     else Logged(p, id, s, roundHours))
            && (r.employeeId !in RowIds(p) ==> forall s :: Logged(p, r.employeeId, s, roundHours) == 0.0)
  {
    var r, p, q := rows[i], rows[..i], rows[..i + 1];
    assert q[..i] == p && q == p + [r];
    forall id
      ensures ShownName(employees, q, id)
              == if id == r.employeeId && id !in EmployeeIds(employees) && id !in RowIds(p)
                 then Some(r.employeeName) else ShownName(employees, p, id)
    {
      ListedNameIff(employees, id);
      FirstRowNameIff(p, id);
    }
    if r.employeeId !in RowIds(p) {
      forall s | true
        ensures Logged(p, r.employeeId, s, roundHours) == 0.0
      {
        NotLogged(p, r.employeeId, s, roundHours);
      }
    }
  }

  /** An employee without any group has nothing logged. */
  lemma {:induction false} NotLogged(rows: seq<RepRow>, id: int, s: Slot, roundHours: real -> real)
    requires id !in RowIds(rows)
    ensures Logged(rows, id, s, roundHours) == 0.0
  {
    if rows != [] {
      var init := rows[..|rows| - 1];
      assert RowIds(init) <= RowIds(rows) by {
        forall x | x in RowIds(init)
          ensures x in RowIds(rows)
        {
          var r :| r in init && r.employeeId == x;
          assert r in rows;
        }
      }
      assert rows[|rows| - 1] in rows;
      NotLogged(init, id, s, roundHours);
    }
  }

  lemma {:induction false} ListedNameIff(employees: seq<Employee>, id: int)
    ensures ListedName(employees, id).Some? <==> id in EmployeeIds(employees)
  {
    if employees != [] {
      var init, e := employees[..|employees| - 1], employees[|employees| - 1];
      ListedNameIff(init, id);
      assert employees == init + [e];
      assert EmployeeIds(employees) == EmployeeIds(init) + {e.id};
    }
  }

  lemma {:induction false} FirstRowNameIff(rows: seq<RepRow>, id: int)
    ensures FirstRowName(rows, id).Some? <==> id in RowIds(rows)
  {
    if rows != [] {
      var init, r := rows[..|rows| - 1], rows[|rows| - 1];
      FirstRowNameIff(init, id);
      assert rows == init + [r];
      assert RowIds(rows) == RowIds(init) + {r.employeeId};
    }
  }

  lemma NonEmptyHasElement(s: set<int>)
    requires s != {}
    ensures exists x :: x in s
  {
    if forall x :: x !in s {
      assert false;
    }
  }

  /** The third loop: each employee's total is the sum of the four billable
      types and the cancelled hours. */
  method ComputeTotals(rep0: map<int, EmployeeHours>) returns (rep: map<int, EmployeeHours>)
    ensures rep.Keys == rep0.Keys
    ensures forall id :: id in rep ==>
              rep[id] == rep0[id].(hours := rep0[id].hours.(total := SlotSum(rep0[id].hours)))
  {
    rep := rep0;
    var todo := rep0.Keys;
    while todo != {}
      invariant todo <= rep0.Keys && rep.Keys == rep0.Keys
      invariant forall id :: id in rep && id !in todo ==>
                  rep[id] == rep0[id].(hours := rep0[id].hours.(total := SlotSum(rep0[id].hours)))
      invariant forall id :: id in todo ==> rep[id] == rep0[id]
      decreases todo
    {
      NonEmptyHasElement(todo);
      var id :| id in todo;
      var vals := rep[id];
      rep := rep[id := vals.(hours := vals.hours.(total := SlotSum(vals.hours)))];
      todo := todo - {id};
    }
  }

  /** `repartition_employee`: every employee listed or met in the groups,
      with the rounded hours of their last group per key, 0 elsewhere, and
      their total. */
  method Repartition(employees: seq<Employee>, billed: seq<RepRow>, canceled: seq<CanceledGroup>,
                     roundHours: real -> real)
    returns (rep: map<int, EmployeeHours>)
    ensures var rows := Tagged(billed, canceled);
            && rep.Keys == EmployeeIds(employees) + RowIds(rows)
            && forall id :: id in rep ==>
                 && rep[id].employeeId == id
                 && Some(rep[id].employeeName) == ShownName(employees, rows, id)
                 && (forall s: Slot :: s != Total ==> At(rep[id].hours, s) == Logged(rows, id, s, roundHours))
                 && rep[id].hours.total == SlotSum(rep[id].hours)
  {
    var rows := Tagged(billed, canceled);
    rep := SeedEmployees(employees);
    rep := BookRows(employees, rep, rows, roundHours);
    ghost var booked := rep;
    rep := ComputeTotals(rep);
    TotalsOfBooked(employees, rows, booked, rep, roundHours);
  }

  lemma TotalsOfBooked(employees: seq<Employee>, rows: seq<RepRow>, booked: map<int, EmployeeHours>,
                       rep: map<int, EmployeeHours>, roundHours: real -> real)
    requires Booked(employees, rows, booked, roundHours)
    requires rep.Keys == booked.Keys
    requires forall id :: id in rep ==>
               rep[id] == booked[id].(hours := booked[id].hours.(total := SlotSum(booked[id].hours)))
    ensures rep.Keys == EmployeeIds(employees) + RowIds(rows)
    ensures forall id :: id in rep ==>
              && rep[id].employeeId == id
              && Some(rep[id].employeeName) == ShownName(employees, rows, id)
              && (forall s: Slot :: s != Total ==> At(rep[id].hours, s) == Logged(rows, id, s, roundHours))
              && rep[id].hours.total == SlotSum(rep[id].hours)
  {
    forall id | id in rep
      ensures forall s: Slot :: s != Total ==> At(rep[id].hours, s) == Logged(rows, id, s, roundHours)
    {
      assert EntryBooked(employees, rows, id, booked[id], roundHours);
      forall s: Slot | s != Total
        ensures At(rep[id].hours, s) == Logged(rows, id, s, roundHours)
      {
        assert At(rep[id].hours, s) == At(booked[id].hours, s);
      }
    }
  }

  /** The largest of a non-empty list. */
  function Max(xs: seq<real>): (m: real)
    requires xs != []
    ensures m in xs && forall x :: x in xs ==> x <= m
  {
    if |xs| == 1 then xs[0]
    else
      var m' := Max(xs[..|xs| - 1]);
      assert forall x :: x in xs ==> x in xs[..|xs| - 1] || x == xs[|xs| - 1];
      if xs[|xs| - 1] > m' then xs[|xs| - 1] else m'
  }

  /** The employee ids a sequence lists. */
  ghost function Listed(ids: seq<int>): set<int>
  {
    set k | 0 <= k < |ids| :: ids[k]
  }

  /** `hours_per_employee`: the employees' totals, one per employee. The
      ghost `ids` gives the order in which the entries are visited. */
  method HoursPerEmployee(rep: map<int, EmployeeHours>) returns (totals: seq<real>, ghost ids: seq<int>)
    ensures |totals| == |rep| && |ids| == |totals|
    ensures forall a, b :: 0 <= a < b < |ids| ==> ids[a] != ids[b]
    ensures Listed(ids) == rep.Keys
    ensures forall k :: 0 <= k < |totals| ==> ids[k] in rep && totals[k] == rep[ids[k]].hours.total
    ensures forall x :: x in totals <==> exists id :: id in rep && rep[id].hours.total == x
  {
    totals, ids := [], [];
    var todo := rep.Keys;
    while todo != {}
      invariant |totals| + |todo| == |rep|
      invariant Visited(rep, todo, totals, ids)
      decreases todo
    {
      NonEmptyHasElement(todo);
      var id :| id in todo;
      VisitStep(rep, todo, totals, ids, id);
      totals, ids := totals + [rep[id].hours.total], ids + [id];
      todo := todo - {id};
    }
    TotalsAreValues(rep, totals, ids);
  }

  /** The loop invariant of `HoursPerEmployee`: the keys visited so far,
      each once, and the total read off for each. */
  ghost predicate Visited(rep: map<int, EmployeeHours>, todo: set<int>, totals: seq<real>, ids: seq<int>)
  {
    && todo <= rep.Keys && |ids| == |totals|
    && (forall a, b :: 0 <= a < b < |ids| ==> ids[a] != ids[b])
    && Listed(ids) == rep.Keys - todo
    && (forall k :: 0 <= k < |totals| ==> ids[k] in rep && totals[k] == rep[ids[k]].hours.total)
  }

  /** Visiting one more key keeps the invariant. */
  lemma VisitStep(rep: map<int, EmployeeHours>, todo: set<int>, totals: seq<real>, ids: seq<int>, id: int)
    requires Visited(rep, todo, totals, ids) && id in todo
    ensures Visited(rep, todo - {id}, totals + [rep[id].hours.total], ids + [id])
  {
    ListedAppend(ids, id);
    forall a | 0 <= a < |ids|
      ensures ids[a] != id
    {
      assert ids[a] in Listed(ids);
    }
  }

  lemma ListedAppend(ids: seq<int>, id: int)
    ensures Listed(ids + [id]) == Listed(ids) + {id}
  {
    assert forall k :: 0 <= k < |ids| ==> (ids + [id])[k] == ids[k];
    assert (ids + [id])[|ids|] == id;
  }

  /** Totals read off in a visiting order that covers every key are
      exactly the totals of the entries. */
  lemma TotalsAreValues(rep: map<int, EmployeeHours>, totals: seq<real>, ids: seq<int>)
    requires |ids| == |totals| && Listed(ids) == rep.Keys
    requires forall k :: 0 <= k < |totals| ==> ids[k] in rep && totals[k] == rep[ids[k]].hours.total
    ensures forall x :: x in totals <==> exists id :: id in rep && rep[id].hours.total == x
  {
    forall x | x in totals
      ensures exists id :: id in rep && rep[id].hours.total == x
    {
      var k :| 0 <= k < |totals| && totals[k] == x;
      var id := ids[k];
      assert id in rep && rep[id].hours.total == x;
    }
    forall id | id in rep
      ensures rep[id].hours.total in totals
    {
      assert id in Listed(ids);
      var k :| 0 <= k < |ids| && ids[k] == id;
      assert totals[k] == rep[id].hours.total;
    }
  }

  /** `repartition_employee_max`: the largest total, or 1 when there are no
      employees or the largest total is 0. */
  function EmployeeMax(totals: seq<real>): (m: real)
    ensures m != 0.0
    ensures totals == [] ==> m == 1.0
    ensures totals != [] && Max(totals) != 0.0 ==> m in totals && forall x :: x in totals ==> x <= m
    ensures totals != [] && Max(totals) == 0.0 ==> m == 1.0
    ensures (forall x :: x in totals ==> x >= 0.0) ==> m > 0.0
  {
    var m := if totals != [] then Max(totals) else 1.0;
    if m != 0.0 then m else 1.0
  }
}
