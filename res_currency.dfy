/** The currency side of the accounting connector: reconciling a list of
    currency codes against the currency table, and converting amounts. */
module ResCurrency {

  import opened Vals

  /** A row of the currency table. */
  datatype CurrencyRecord = CurrencyRecord(name: string, active: bool)

  /** The indices, in table order, of the records named `code` whose
      active flag is `active`: the search `[('name', '=', code),
      ('active', '=', active)]`. */
  function Matching(records: seq<CurrencyRecord>, code: string, active: bool): (ids: seq<nat>)
    ensures forall k :: 0 <= k < |ids| ==>
              ids[k] < |records| && records[ids[k]].name == code && records[ids[k]].active == active
    ensures forall j :: 0 <= j < |records| && records[j].name == code && records[j].active == active ==> j in ids
    ensures forall a, b :: 0 <= a < b < |ids| ==> ids[a] < ids[b]
  {
    if records == [] then []
    else
      var n := |records| - 1;
      Matching(records[..n], code, active)
      + (if records[n].name == code && records[n].active == active then [n] else [])
  }

  /** Searching one more record adds its index when it matches. */
  lemma MatchingStep(records: seq<CurrencyRecord>, k: nat, code: string, active: bool)
    requires k < |records|
    ensures Matching(records[..k + 1], code, active)
            == Matching(records[..k], code, active)
               + (if records[k].name == code && records[k].active == active then [k] else [])
  {
    assert records[..k + 1][..k] == records[..k];
  }

  predicate HasName(records: seq<CurrencyRecord>, code: string)
  {
    exists j :: 0 <= j < |records| && records[j].name == code
  }

  predicate HasActive(records: seq<CurrencyRecord>, code: string)
  {
    exists j :: 0 <= j < |records| && records[j].name == code && records[j].active
  }

  /** Currency names are unique in the table. */
  predicate UniqueNames(records: seq<CurrencyRecord>)
  {
    forall a, b :: 0 <= a < |records| && 0 <= b < |records| && a != b ==> records[a].name != records[b].name
  }

  /** One iteration of `import_currency`: activate the first inactive
      record named `code`; failing that, create an active one when there is
      no record of that name at all; otherwise leave the table as it is. */
  function ImportOne(records: seq<CurrencyRecord>, code: string): (out: seq<CurrencyRecord>)
    ensures |records| <= |out| <= |records| + 1
    ensures forall k :: 0 <= k < |records| ==> out[k].name == records[k].name
  {
    var inactive := Matching(records, code, false);
    var active := Matching(records, code, true);
    if |inactive| > 0 then records[inactive[0] := records[inactive[0]].(active := true)]
    else if |active| == 0 then records + [CurrencyRecord(code, true)]
    else records
  }

  /** `import_currency` over the list `codes`, in list order. */
  function Import(records: seq<CurrencyRecord>, codes: seq<string>): (out: seq<CurrencyRecord>)
    ensures |records| <= |out| <= |records| + |codes|
    ensures forall k :: 0 <= k < |records| ==> out[k].name == records[k].name
  {
    if codes == [] then records
    else ImportOne(Import(records, codes[..|codes| - 1]), codes[|codes| - 1])
  }

  /** The currency table, updated in place. */
  class CurrencyTable {
    var records: seq<CurrencyRecord>

    constructor (records: seq<CurrencyRecord>)
      ensures this.records == records
    {
      this.records := records;
    }

    /** `search`: the matching records in table order. */
    method Search(code: string, active: bool) returns (ids: seq<nat>)
      ensures ids == Matching(records, code, active)
    {
      ids := [];
      var k := 0;
      while k < |records|
        invariant 0 <= k <= |records|
        invariant ids == Matching(records[..k], code, active)
      {
        MatchingStep(records, k, code, active);
        if records[k].name == code && records[k].active == active {
          ids := ids + [k];
        }
        k := k + 1;
      }
      assert records[..|records|] == records;
    }

    /** One iteration of `import_currency`. */
    method ImportCode(code: string)
      modifies this
      ensures records == ImportOne(old(records), code)
    {
      var inactive := Search(code, false);
      var active := Search(code, true);
      if |inactive| > 0 {
        records := records[inactive[0] := records[inactive[0]].(active := true)];
      } else if |inactive| == 0 && |active| == 0 {
        records := records + [CurrencyRecord(code, true)];
      }
    }

    /** `import_currency` over a list of currency codes. */
    method ImportCurrency(codes: seq<string>)
      modifies this
      ensures records == Import(old(records), codes)
    {
      var i := 0;
      while i < |codes|
        invariant 0 <= i <= |codes|
        invariant records == Import(old(records), codes[..i])
      {
        ImportStep(old(records), codes, i);
        ImportCode(codes[i]);
        i := i + 1;
      }
      assert codes[..|codes|] == codes;
    }
  }

  /** One more code of the list is one more iteration. */
  lemma ImportStep(records: seq<CurrencyRecord>, codes: seq<string>, i: nat)
    requires i < |codes|
    ensures Import(records, codes[..i + 1]) == ImportOne(Import(records, codes[..i]), codes[i])
  {
    assert codes[..i + 1][..i] == codes[..i];
  }

  /** A code with an inactive record: the first such record becomes active,
      nothing is created and every other record stays as it was. */
  lemma ImportActivatesFirstInactive(records: seq<CurrencyRecord>, code: string, j: nat)
    requires j < |records| && records[j].name == code && !records[j].active
    requires forall k :: 0 <= k < j ==> !(records[k].name == code && !records[k].active)
    ensures ImportOne(records, code) == records[j := CurrencyRecord(code, true)]
  {
    var inactive := Matching(records, code, false);
    assert j in inactive;
  }

  /** A code without any record: exactly one active record of that name is
      appended. */
  lemma ImportCreatesMissing(records: seq<CurrencyRecord>, code: string)
    requires !HasName(records, code)
    ensures ImportOne(records, code) == records + [CurrencyRecord(code, true)]
  {
    NoMatchWithoutName(records, code, false);
    NoMatchWithoutName(records, code, true);
  }

  lemma {:induction false} NoMatchWithoutName(records: seq<CurrencyRecord>, code: string, active: bool)
    requires !HasName(records, code)
    ensures Matching(records, code, active) == []
  {
    if records != [] {
      var n := |records| - 1;
      assert records[n].name != code;
      assert !HasName(records[..n], code) by {
        forall j | 0 <= j < n
          ensures records[..n][j].name != code
        {
          assert records[..n][j] == records[j];
        }
      }
      NoMatchWithoutName(records[..n], code, active);
    }
  }

  /** A code whose records are all active leaves the table unchanged. */
  lemma ImportKeepsActive(records: seq<CurrencyRecord>, code: string)
    requires HasActive(records, code)
    requires forall k :: 0 <= k < |records| && records[k].name == code ==> records[k].active
    ensures ImportOne(records, code) == records
  {
    var j :| 0 <= j < |records| && records[j].name == code && records[j].active;
    assert j in Matching(records, code, true);
  }

  /** One iteration changes no name, only ever sets an active flag, and
      leaves records of other names alone. */
  lemma ImportOneKeepsRecords(records: seq<CurrencyRecord>, code: string)
    ensures var out := ImportOne(records, code);
            && |records| <= |out|
            && (forall k :: 0 <= k < |records| && records[k].name != code ==> out[k] == records[k])
            && (forall k :: 0 <= k < |records| ==> out[k].name == records[k].name)
            && (forall k :: 0 <= k < |records| && records[k].active ==> out[k].active)
  {
    var inactive := Matching(records, code, false);
    if |inactive| > 0 {
      var j := inactive[0];
      assert j < |records| && records[j].name == code;
      assert ImportOne(records, code) == records[j := records[j].(active := true)];
    }
  }

  /** One iteration appends at most one record, active and named `code`,
      and only when no record had that name. */
  lemma ImportOneAppends(records: seq<CurrencyRecord>, code: string)
    ensures var out := ImportOne(records, code);
            && |out| <= |records| + 1
            && (|out| == |records| + 1 ==> out[|records|] == CurrencyRecord(code, true) && !HasName(records, code))
  {
  }

  /** After one iteration the code has an active record. */
  lemma ImportOneActivates(records: seq<CurrencyRecord>, code: string)
    ensures HasActive(ImportOne(records, code), code)
  {
    var out := ImportOne(records, code);
    var inactive := Matching(records, code, false);
    var active := Matching(records, code, true);
    if |inactive| > 0 {
      assert out[inactive[0]].name == code && out[inactive[0]].active;
    } else if |active| == 0 {
      assert out[|records|].name == code && out[|records|].active;
    } else {
      assert records[active[0]].active;
    }
  }

  /** What one iteration does to the table, as the lemmas about a whole
      run use it: no name changes, no active flag is cleared, records of
      other names stay, and a record is appended only for a name the table
      did not have. */
  ghost predicate StepFrame(records: seq<CurrencyRecord>, out: seq<CurrencyRecord>, code: string)
  {
    && |records| <= |out| <= |records| + 1
    && (forall k :: 0 <= k < |records| && records[k].name != code ==> out[k] == records[k])
    && (forall k :: 0 <= k < |records| ==> out[k].name == records[k].name)
    && (forall k :: 0 <= k < |records| && records[k].active ==> out[k].active)
    && (|out| == |records| + 1 ==> out[|records|] == CurrencyRecord(code, true) && !HasName(records, code))
  }

  lemma ImportOneFrame(records: seq<CurrencyRecord>, code: string)
    ensures StepFrame(records, ImportOne(records, code), code)
    ensures HasActive(ImportOne(records, code), code)
  {
    ImportOneKeepsRecords(records, code);
    ImportOneAppends(records, code);
    ImportOneActivates(records, code);
  }

  /** Records whose name is not in the list are untouched, existing records
      keep their names and never lose their active flag. */
  lemma {:induction false} ImportKeepsRecords(records: seq<CurrencyRecord>, codes: seq<string>)
    ensures var out := Import(records, codes);
            && |records| <= |out|
            && (forall k :: 0 <= k < |records| && records[k].name !in codes ==> out[k] == records[k])
            && (forall k :: 0 <= k < |records| ==> out[k].name == records[k].name)
            && (forall k :: 0 <= k < |records| && records[k].active ==> out[k].active)
  {
    if codes != [] {
      var init, code := codes[..|codes| - 1], codes[|codes| - 1];
      assert codes == init + [code];
      ImportKeepsRecords(records, init);
      ImportOneFrame(Import(records, init), code);
      KeepsRecordsStep(records, Import(records, init), Import(records, codes), init, code);
    }
  }

  lemma KeepsRecordsStep(records: seq<CurrencyRecord>, mid: seq<CurrencyRecord>, out: seq<CurrencyRecord>,
                         init: seq<string>, code: string)
    requires |records| <= |mid|
    requires forall k :: 0 <= k < |records| && records[k].name !in init ==> mid[k] == records[k]
    requires forall k :: 0 <= k < |records| ==> mid[k].name == records[k].name
    requires forall k :: 0 <= k < |records| && records[k].active ==> mid[k].active
    requires StepFrame(mid, out, code)
    ensures |records| <= |out|
    ensures forall k :: 0 <= k < |records| && records[k].name !in init + [code] ==> out[k] == records[k]
    ensures forall k :: 0 <= k < |records| ==> out[k].name == records[k].name
    ensures forall k :: 0 <= k < |records| && records[k].active ==> out[k].active
  {
    forall k | 0 <= k < |records| && records[k].name !in init + [code]
      ensures out[k] == records[k]
    {
      assert records[k].name !in init;
    }
  }

  /** Every code of the list has an active record after the import. */
  lemma {:induction false} ImportActivatesAll(records: seq<CurrencyRecord>, codes: seq<string>)
    ensures forall c :: c in codes ==> HasActive(Import(records, codes), c)
  {
    if codes != [] {
      var init, code := codes[..|codes| - 1], codes[|codes| - 1];
      assert codes == init + [code];
      ImportActivatesAll(records, init);
      ImportOneFrame(Import(records, init), code);
      ActivatesStep(Import(records, init), Import(records, codes), init, code);
    }
  }

  lemma ActivatesStep(mid: seq<CurrencyRecord>, out: seq<CurrencyRecord>, init: seq<string>, code: string)
    requires forall c :: c in init ==> HasActive(mid, c)
    requires StepFrame(mid, out, code) && HasActive(out, code)
    ensures forall c :: c in init + [code] ==> HasActive(out, c)
  {
    forall c | c in init + [code]
      ensures HasActive(out, c)
    {
      if c != code {
        assert c in init;
        var j :| 0 <= j < |mid| && mid[j].name == c && mid[j].active;
        assert out[j].active && out[j].name == c;
      }
    }
  }

  /** The records the import creates are active and named by a code of the
      list. */
  lemma {:induction false} ImportCreatesFromList(records: seq<CurrencyRecord>, codes: seq<string>)
    ensures var out := Import(records, codes);
            && |records| <= |out|
            && (forall k :: |records| <= k < |out| ==> out[k].active && out[k].name in codes)
  {
    if codes != [] {
      var init, code := codes[..|codes| - 1], codes[|codes| - 1];
      assert codes == init + [code];
      ImportCreatesFromList(records, init);
      ImportOneFrame(Import(records, init), code);
      CreatesFromListStep(records, Import(records, init), Import(records, codes), init, code);
    }
  }

  lemma CreatesFromListStep(records: seq<CurrencyRecord>, mid: seq<CurrencyRecord>, out: seq<CurrencyRecord>,
                            init: seq<string>, code: string)
    requires |records| <= |mid|
    requires forall k :: |records| <= k < |mid| ==> mid[k].active && mid[k].name in init
    requires StepFrame(mid, out, code)
    ensures |records| <= |out|
    ensures forall k :: |records| <= k < |out| ==> out[k].active && out[k].name in init + [code]
  {
    forall k | |records| <= k < |out|
      ensures out[k].active && out[k].name in init + [code]
    {
      if k < |mid| {
        assert out[k].name == mid[k].name && out[k].active;
      }
    }
  }

  /** No record past the first `|records|` of `out` shares its name with an
      earlier record. */
  ghost predicate CreatedOnce(records: seq<CurrencyRecord>, out: seq<CurrencyRecord>)
  {
    forall a, b :: 0 <= a < b < |out| && |records| <= b ==> out[a].name != out[b].name
  }

  /** A created record never shares its name with an earlier record: never
      two for the same code, nor one for a name already in the table. */
  lemma {:induction false} ImportCreatesOncePerCode(records: seq<CurrencyRecord>, codes: seq<string>)
    ensures CreatedOnce(records, Import(records, codes))
  {
    if codes != [] {
      var init, code := codes[..|codes| - 1], codes[|codes| - 1];
      ImportCreatesOncePerCode(records, init);
      ImportOneFrame(Import(records, init), code);
      CreatesOnceStep(records, Import(records, init), Import(records, codes), code);
    }
  }

  lemma CreatesOnceStep(records: seq<CurrencyRecord>, mid: seq<CurrencyRecord>, out: seq<CurrencyRecord>,
                        code: string)
    requires CreatedOnce(records, mid)
    requires StepFrame(mid, out, code)
    ensures CreatedOnce(records, out)
  {
    forall a, b | 0 <= a < b < |out| && |records| <= b
      ensures out[a].name != out[b].name
    {
      assert out[a].name == mid[a].name;
      if b < |mid| {
        assert out[b].name == mid[b].name;
      } else {
        assert mid[a].name != code;
      }
    }
  }

  /** Running the import twice with the same list creates nothing the
      second time. */
  lemma ImportRerunCreatesNothing(records: seq<CurrencyRecord>, codes: seq<string>)
    ensures |Import(Import(records, codes), codes)| == |Import(records, codes)|
  {
    var once := Import(records, codes);
    ImportActivatesAll(records, codes);
    ImportKeepsCount(once, codes, codes);
  }

  /** Every code of `codes` having an active record, importing `part` of
      them creates nothing. */
  lemma {:induction false} ImportKeepsCount(records: seq<CurrencyRecord>, part: seq<string>, codes: seq<string>)
    requires forall c :: c in part ==> c in codes
    requires forall c :: c in codes ==> HasActive(records, c)
    ensures |Import(records, part)| == |records|
    ensures forall c :: c in codes ==> HasActive(Import(records, part), c)
  {
    if part != [] {
      var init, code := part[..|part| - 1], part[|part| - 1];
      assert forall c :: c in init ==> c in part;
      ImportKeepsCount(records, init, codes);
      ImportOneFrame(Import(records, init), code);
      KeepsCountStep(Import(records, init), Import(records, part), code, codes);
    }
  }

  lemma KeepsCountStep(mid: seq<CurrencyRecord>, out: seq<CurrencyRecord>, code: string, codes: seq<string>)
    requires code in codes
    requires forall c :: c in codes ==> HasActive(mid, c)
    requires StepFrame(mid, out, code)
    ensures |out| == |mid|
    ensures forall c :: c in codes ==> HasActive(out, c)
  {
    assert HasActive(mid, code);
    forall c | c in codes
      ensures HasActive(out, c)
    {
      var j :| 0 <= j < |mid| && mid[j].name == c && mid[j].active;
      assert out[j].active && out[j].name == c;
    }
  }

  /** With unique names, the import keeps the names unique and a second
      run with the same list leaves the table exactly as the first left it. */
  lemma ImportIdempotent(records: seq<CurrencyRecord>, codes: seq<string>)
    requires UniqueNames(records)
    ensures UniqueNames(Import(records, codes))
    ensures Import(Import(records, codes), codes) == Import(records, codes)
  {
    ImportKeepsUnique(records, codes);
    ImportActivatesAll(records, codes);
    ImportFixes(Import(records, codes), codes, codes);
  }

  lemma {:induction false} ImportKeepsUnique(records: seq<CurrencyRecord>, codes: seq<string>)
    requires UniqueNames(records)
    ensures UniqueNames(Import(records, codes))
  {
    if codes != [] {
      var init := codes[..|codes| - 1];
      ImportKeepsUnique(records, init);
      ImportOneKeepsUnique(Import(records, init), codes[|codes| - 1]);
    }
  }

  lemma ImportOneKeepsUnique(records: seq<CurrencyRecord>, code: string)
    requires UniqueNames(records)
    ensures UniqueNames(ImportOne(records, code))
  {
    var inactive := Matching(records, code, false);
    var active := Matching(records, code, true);
    if |inactive| > 0 {
      RenamingNothingKeepsUnique(records, inactive[0], records[inactive[0]].(active := true));
    } else if |active| == 0 {
      assert !HasName(records, code) by {
        if j :| 0 <= j < |records| && records[j].name == code {
          assert false;
        }
      }
      AppendingNewNameKeepsUnique(records, CurrencyRecord(code, true));
    }
  }

  lemma RenamingNothingKeepsUnique(records: seq<CurrencyRecord>, i: nat, r: CurrencyRecord)
    requires UniqueNames(records) && i < |records| && r.name == records[i].name
    ensures UniqueNames(records[i := r])
  {
    var out := records[i := r];
    assert forall k :: 0 <= k < |out| ==> out[k].name == records[k].name;
  }

  lemma AppendingNewNameKeepsUnique(records: seq<CurrencyRecord>, r: CurrencyRecord)
    requires UniqueNames(records) && !HasName(records, r.name)
    ensures UniqueNames(records + [r])
  {
    var out := records + [r];
    forall a, b | 0 <= a < |out| && 0 <= b < |out| && a != b
      ensures out[a].name != out[b].name
    {
      if a == |records| {
        assert out[b] == records[b];
      } else if b == |records| {
        assert out[a] == records[a];
      } else {
        assert out[a] == records[a] && out[b] == records[b];
      }
    }
  }

  /** In a table with unique names where every code of `codes` is active,
      importing any part of them changes nothing. */
  lemma {:induction false} ImportFixes(records: seq<CurrencyRecord>, part: seq<string>, codes: seq<string>)
    requires UniqueNames(records)
    requires forall c :: c in part ==> c in codes
    requires forall c :: c in codes ==> HasActive(records, c)
    ensures Import(records, part) == records
  {
    if part != [] {
      var init := part[..|part| - 1];
      var code := part[|part| - 1];
      assert forall c :: c in init ==> c in part;
      ImportFixes(records, init, codes);
      assert HasActive(records, code);
      var j :| 0 <= j < |records| && records[j].name == code && records[j].active;
      ImportKeepsActive(records, code);
    }
  }

  /** A currency as the conversion sees it. */
  datatype Currency = Currency(id: int, rate: real)

  datatype ComputeError = UnknownFrom | UnknownTo | ZeroDivision

  /** `_get_conversion_rate_by_amount`: the target's rate over the rate the
      accounting system supplied. */
  function RateByAmount(fromRate: real, to: Currency): (r: Result<real, ComputeError>)
    ensures r.Ok? <==> fromRate != 0.0
    ensures r.Ok? ==> r.value * fromRate == to.rate
  {
    if fromRate == 0.0 then Err(ZeroDivision) else Ok(to.rate / fromRate)
  }

  /** `compute`: convert `amount` from `from` to `to`. A missing currency on
      either side is replaced by the other; `contextRate` is the context's
      `CurrencyRate` (used when present and nonzero), `rate` the framework's
      conversion rate for the company and date of the context, and
      `roundIn` the target currency's rounding. */
  function Compute(from: Option<Currency>, amount: real, to: Option<Currency>, round: bool,
                   contextRate: Option<real>, rate: (Currency, Currency) -> real,
                   roundIn: (Currency, real) -> real): (r: Result<real, ComputeError>)
    ensures r.Ok? <==> from.Some? || to.Some?
    ensures r.Err? ==> r.error == UnknownFrom
  {
    var src := if from.Some? then from else to;
    var dst := if to.Some? then to else from;
    if src.None? then Err(UnknownFrom)
    else if dst.None? then Err(UnknownTo)
    else
      var converted :=
        if src.value == dst.value then Ok(amount)
        else if contextRate.Some? && contextRate.value != 0.0 then
          match RateByAmount(contextRate.value, dst.value)
          case Ok(r) => Ok(amount * r)
          case Err(e) => Err(e)
        else Ok(amount * rate(src.value, dst.value));
      match converted
      case Ok(x) => Ok(if round then roundIn(dst.value, x) else x)
      case Err(e) => Err(e)
  }

  /** The same currency on both sides returns the amount, rounded only when
      asked. */
  lemma SameCurrencyKeepsAmount(c: Currency, amount: real, round: bool, contextRate: Option<real>,
                                rate: (Currency, Currency) -> real, roundIn: (Currency, real) -> real)
    ensures Compute(Some(c), amount, Some(c), round, contextRate, rate, roundIn)
            == Ok(if round then roundIn(c, amount) else amount)
  {
  }

  /** With a nonzero `CurrencyRate` in the context, two different currencies
      convert at the target's rate over that rate. */
  lemma ContextRateConverts(from: Currency, amount: real, to: Currency, contextRate: real,
                            rate: (Currency, Currency) -> real, roundIn: (Currency, real) -> real)
    requires from != to && contextRate != 0.0
    ensures var c := Compute(Some(from), amount, Some(to), false, Some(contextRate), rate, roundIn);
            c.Ok? && c.value == amount * (to.rate / contextRate)
  {
    var c := Compute(Some(from), amount, Some(to), false, Some(contextRate), rate, roundIn);
    var r := RateByAmount(contextRate, to);
    assert c.Ok? && r.Ok?;
    assert c.value == amount * r.value;
  }

  /** A missing currency is replaced by the other one, so converting to or
      from nothing returns the amount; both missing fails on the source
      assertion, and the target assertion can never fail. */
  lemma MissingCurrencySubstituted(c: Option<Currency>, amount: real, round: bool, contextRate: Option<real>,
                                   rate: (Currency, Currency) -> real, roundIn: (Currency, real) -> real)
    ensures c.Some? ==> Compute(c, amount, None, round, contextRate, rate, roundIn)
                        == Compute(None, amount, c, round, contextRate, rate, roundIn)
                        == Ok(if round then roundIn(c.value, amount) else amount)
    ensures c.None? ==> Compute(c, amount, None, round, contextRate, rate, roundIn) == Err(UnknownFrom)
  {
  }

  lemma TargetAssertionNeverFails(from: Option<Currency>, amount: real, to: Option<Currency>, round: bool,
                                  contextRate: Option<real>, rate: (Currency, Currency) -> real,
                                  roundIn: (Currency, real) -> real)
    ensures Compute(from, amount, to, round, contextRate, rate, roundIn) != Err(UnknownTo)
  {
  }

  /** Rounding is applied to the converted amount exactly when asked. */
  lemma RoundingOnlyWhenAsked(from: Currency, amount: real, to: Currency, contextRate: Option<real>,
                              rate: (Currency, Currency) -> real, roundIn: (Currency, real) -> real)
    ensures var exact := Compute(Some(from), amount, Some(to), false, contextRate, rate, roundIn);
            var rounded := Compute(Some(from), amount, Some(to), true, contextRate, rate, roundIn);
            && exact.Ok? && rounded.Ok?
            && rounded.value == roundIn(to, exact.value)
  {
    var exact := Compute(Some(from), amount, Some(to), false, contextRate, rate, roundIn);
    var rounded := Compute(Some(from), amount, Some(to), true, contextRate, rate, roundIn);
    if from != to && contextRate.Some? && contextRate.value != 0.0 {
      var r := RateByAmount(contextRate.value, to);
      assert r.Ok?;
      assert exact.Ok? && exact.value == amount * r.value;
      assert rounded.Ok? && rounded.value == roundIn(to, amount * r.value);
    }
  }
}
