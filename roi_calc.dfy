/**
 * The ROI calculation of the calculator page: the fixed use-case table, the
 * user's inputs, the per-use-case costs and savings, their totals, the
 * three-year projection, the state updaters that feed it and the two
 * predicates the results view derives from it.
 *
 * Numbers are JavaScript numbers (see JsNumbers): a NaN produced by parsing an
 * empty or non-numeric field is carried through the arithmetic, exactly as the
 * page does; only the subscription cost is coerced to 0.
 */
module RoiCalc {
  import opened JsNumbers

  // ---------------------------------------------------------------------------
  // The use-case table
  // ---------------------------------------------------------------------------

  /** A predefined use case: its name (also the key of the selection map) and its savings percent. */
  datatype UseCase = UseCase(name: string, savings: nat)

  const USE_CASES: seq<UseCase> := [
    UseCase("Incident Management", 30),
    UseCase("Cloud Migration", 20),
    UseCase("Compliance and Audits", 85),
    UseCase("Software License Management", 40),
    UseCase("Disaster Recovery", 60),
    UseCase("Data Center Consolidation / DC Foot Print Reduction", 65),
    UseCase("IT Asset Management", 15),
    UseCase("IT Operational Efficiency", 60)
  ]

  function NamesOf(ucs: seq<UseCase>): set<string> {
    set uc | uc in ucs :: uc.name
  }

  function UseCaseNames(): set<string> {
    NamesOf(USE_CASES)
  }

  /** The table has eight entries with distinct names. */
  lemma UseCaseTable()
    ensures |USE_CASES| == 8
    ensures forall i, j :: 0 <= i < j < |USE_CASES| ==> USE_CASES[i].name != USE_CASES[j].name
  {
  }

  /** Every savings percent of the table is at most 100. */
  lemma SavingsAtMostHundred(i: nat)
    requires i < |USE_CASES|
    ensures USE_CASES[i].savings <= 100
  {
  }

  // ---------------------------------------------------------------------------
  // Inputs
  // ---------------------------------------------------------------------------

  /** The state of one row of the use-case grid; the two numeric fields hold the text typed in. */
  datatype Selection = Selection(selected: bool, ftes: string, hoursPerDay: string)

  type Selections = map<string, Selection>

  /** The IT employee cost is a number until the user edits the field; from then on it holds the field's text. */
  datatype EmployeeCost = NumberValue(amount: real) | TextValue(text: string)

  /** The organisation form; the company name and sector play no part in the calculation. */
  datatype OrganizationInfo = OrganizationInfo(companyName: string, businessSector: string, itEmployeeCost: EmployeeCost)

  /**
   * The host platform's string-to-number conversions, left uninterpreted:
   * `parseFloat` and the implicit conversion `*` applies to a string operand.
   * Each yields NaN for text it cannot read.
   */
  datatype Host = Host(parseFloat: string -> Number, toNumber: string -> Number)

  const BLANK_SELECTION: Selection := Selection(false, "", "")

  const INITIAL_ORGANIZATION: OrganizationInfo := OrganizationInfo("", "", NumberValue(120000.0))

  /** The map with one blank, unselected entry per name of `ucs`, and nothing else. */
  function BlankSelections(ucs: seq<UseCase>): (m: Selections)
    ensures m.Keys == NamesOf(ucs)
    ensures forall n :: n in m ==> m[n] == BLANK_SELECTION
  {
    map n | n in NamesOf(ucs) :: BLANK_SELECTION
  }

  /** One step of the page's reduce over the table: the entry for each use case is added to the accumulator. */
  function AddBlankEntries(acc: Selections, ucs: seq<UseCase>): (m: Selections)
    ensures m.Keys == acc.Keys + NamesOf(ucs)
    ensures forall n :: n in m ==> m[n] == (if n in NamesOf(ucs) then BLANK_SELECTION else acc[n])
    decreases |ucs|
  {
    if ucs == [] then acc
    else
      assert NamesOf(ucs) == {ucs[0].name} + NamesOf(ucs[1..]) by {
        assert forall uc :: uc in ucs <==> uc == ucs[0] || uc in ucs[1..];
      }
      AddBlankEntries(acc[ucs[0].name := BLANK_SELECTION], ucs[1..])
  }

  /** Reducing a table from the empty map builds exactly its blank selection map. */
  lemma ReduceBuildsBlankSelections(ucs: seq<UseCase>)
    ensures AddBlankEntries(map[], ucs) == BlankSelections(ucs)
  {
  }

  /** The initial selection map: one unselected entry with empty fields per use case, and nothing else. */
  function InitialSelections(): (m: Selections)
    ensures m.Keys == UseCaseNames()
    ensures forall n :: n in m ==> !m[n].selected && m[n].ftes == "" && m[n].hoursPerDay == ""
  {
    BlankSelections(USE_CASES)
  }

  // ---------------------------------------------------------------------------
  // Updaters
  // ---------------------------------------------------------------------------

  /**
   * An edit of one row: the checkbox yields a boolean for `selected`, the two
   * text fields yield their text for `ftes` and `hoursPerDay`.
   */
  datatype Edit = SetSelected(checked: bool) | SetFtes(ftesText: string) | SetHoursPerDay(hoursText: string)

  function ApplyEdit(s: Selection, e: Edit): Selection {
    match e
    case SetSelected(b) => s.(selected := b)
    case SetFtes(t) => s.(ftes := t)
    case SetHoursPerDay(t) => s.(hoursPerDay := t)
  }

  /** The row updater: only the edited field of the named row changes. */
  function UseCaseChange(sel: Selections, name: string, e: Edit): (sel': Selections)
    requires name in sel
    ensures sel'.Keys == sel.Keys
    ensures forall n :: n in sel && n != name ==> sel'[n] == sel[n]
    ensures sel'[name].selected == (if e.SetSelected? then e.checked else sel[name].selected)
    ensures sel'[name].ftes == (if e.SetFtes? then e.ftesText else sel[name].ftes)
    ensures sel'[name].hoursPerDay == (if e.SetHoursPerDay? then e.hoursText else sel[name].hoursPerDay)
  {
    sel[name := ApplyEdit(sel[name], e)]
  }

  /** The three named fields of the organisation form. */
  datatype OrgField = CompanyName | BusinessSector | ItEmployeeCost

  /** The organisation updater: the named field takes the typed text; the other two are unchanged. */
  function OrganizationChange(org: OrganizationInfo, field: OrgField, value: string): (org': OrganizationInfo)
    ensures org'.companyName == (if field == CompanyName then value else org.companyName)
    ensures org'.businessSector == (if field == BusinessSector then value else org.businessSector)
    ensures org'.itEmployeeCost == (if field == ItEmployeeCost then TextValue(value) else org.itEmployeeCost)
  {
    match field
    case CompanyName => org.(companyName := value)
    case BusinessSector => org.(businessSector := value)
    case ItEmployeeCost => org.(itEmployeeCost := TextValue(value))
  }

  // ---------------------------------------------------------------------------
  // Per-use-case results
  // ---------------------------------------------------------------------------

  /** A use case together with its annual current cost, residual cost with the product, and annual value. */
  datatype CaseResult = CaseResult(name: string, savings: nat, currentCost: Number, withDevice42: Number, totalValue: Number)

  /** The employee cost as the multiplication sees it. */
  function EmployeeCostOf(host: Host, c: EmployeeCost): Number {
    match c
    case NumberValue(v) => Finite(v)
    case TextValue(t) => host.toNumber(t)
  }

  /**
   * The current cost of a selected row, step by step: hours per year over 260
   * working days, the share of an 8-hour-day FTE they make, the effective FTEs
   * and their cost.
   */
  function RowCost(cost: Number, ftes: Number, hours: Number): Number {
    var hoursPerYear := Scale(hours, 260.0);
    var ftePercentage := DivBy(hoursPerYear, 8.0 * 260.0);
    var effectiveFtes := Mul(ftes, ftePercentage);
    Mul(cost, effectiveFtes)
  }

  /** The closed form of the current cost: cost times FTEs times hours per day, over an 8-hour day. */
  function AnnualCost(cost: Number, ftes: Number, hours: Number): Number {
    DivBy(Mul(Mul(cost, ftes), hours), 8.0)
  }

  /**
   * One row of the results: zeros for an unselected use case; otherwise its
   * current cost, the residual cost at the savings percent, and the difference.
   */
  function CaseResultOf(host: Host, org: OrganizationInfo, uc: UseCase, s: Selection): (r: CaseResult)
    ensures r.name == uc.name && r.savings == uc.savings
    ensures !s.selected ==> r.currentCost == r.withDevice42 == r.totalValue == Finite(0.0)
    ensures Add(r.withDevice42, r.totalValue) == r.currentCost
  {
    if !s.selected then CaseResult(uc.name, uc.savings, Finite(0.0), Finite(0.0), Finite(0.0))
    else
      var currentCost := RowCost(EmployeeCostOf(host, org.itEmployeeCost), host.parseFloat(s.ftes), host.parseFloat(s.hoursPerDay));
      var withDevice42 := Scale(currentCost, 1.0 - uc.savings as real / 100.0);
      var totalValue := Sub(currentCost, withDevice42);
      CaseResult(uc.name, uc.savings, currentCost, withDevice42, totalValue)
  }

  /** A selected row's current cost is the employee cost times FTEs times hours a day, over 8. */
  lemma SelectedRowCost(host: Host, org: OrganizationInfo, uc: UseCase, s: Selection)
    requires s.selected
    ensures CaseResultOf(host, org, uc, s).currentCost ==
      AnnualCost(EmployeeCostOf(host, org.itEmployeeCost), host.parseFloat(s.ftes), host.parseFloat(s.hoursPerDay))
  {
    RowCostIsAnnualCost(EmployeeCostOf(host, org.itEmployeeCost), host.parseFloat(s.ftes), host.parseFloat(s.hoursPerDay));
  }

  /** A row's total value is its savings percent of its current cost. */
  lemma RowValueIsSavingsShare(host: Host, org: OrganizationInfo, uc: UseCase, s: Selection)
    ensures var r := CaseResultOf(host, org, uc, s);
      r.totalValue == Scale(r.currentCost, uc.savings as real / 100.0)
  {
    ResidualComplement(CaseResultOf(host, org, uc, s).currentCost, uc.savings as real / 100.0);
  }

  /** What remains of a cost after keeping the share `1 - p` of it is the share `p`. */
  lemma ResidualComplement(cost: Number, p: real)
    ensures Sub(cost, Scale(cost, 1.0 - p)) == Scale(cost, p)
  {
  }

  /** The step-by-step current cost equals its closed form, NaN included. */
  lemma RowCostIsAnnualCost(cost: Number, ftes: Number, hours: Number)
    ensures RowCost(cost, ftes, hours) == AnnualCost(cost, ftes, hours)
  {
    if cost.Finite? && ftes.Finite? && hours.Finite? {
      var c, f, h := cost.value, ftes.value, hours.value;
      assert (h * 260.0) / (8.0 * 260.0) == h / 8.0;
      assert f * (h / 8.0) == (f * h) / 8.0;
      assert c * ((f * h) / 8.0) == (c * (f * h)) / 8.0;
      assert c * (f * h) == (c * f) * h;
      assert Scale(hours, 260.0) == Finite(h * 260.0);
      assert DivBy(Finite(h * 260.0), 8.0 * 260.0) == Finite(h / 8.0);
      assert Mul(ftes, Finite(h / 8.0)) == Finite(f * (h / 8.0));
      assert Mul(cost, Finite(f * (h / 8.0))) == Finite((c * f * h) / 8.0);
      assert AnnualCost(cost, ftes, hours) == Finite((c * f * h) / 8.0);
    }
  }

  /** A row whose value is its savings share of a nonnegative current cost keeps value and residual in 0..cost. */
  lemma RowValueBounds(r: CaseResult, savings: nat)
    requires savings <= 100
    requires r.currentCost.Finite? && r.currentCost.value >= 0.0
    requires Add(r.withDevice42, r.totalValue) == r.currentCost
    requires r.totalValue == Scale(r.currentCost, savings as real / 100.0)
    ensures r.totalValue.Finite? && r.withDevice42.Finite?
    ensures 0.0 <= r.totalValue.value <= r.currentCost.value
    ensures 0.0 <= r.withDevice42.value <= r.currentCost.value
  {
    var c, p := r.currentCost.value, savings as real / 100.0;
    ShareBounds(c, p);
    assert r.totalValue.value == c * p;
    assert r.withDevice42.value == c - c * p;
  }

  /** A share between 0 and 1 of a nonnegative amount lies between 0 and the amount. */
  lemma ShareBounds(c: real, p: real)
    requires c >= 0.0 && 0.0 <= p <= 1.0
    ensures 0.0 <= c * p <= c
  {
  }

  /** Every use case is a key of the selection map, so the page can read its row. */
  predicate CoversUseCases(sel: Selections) {
    forall i :: 0 <= i < |USE_CASES| ==> USE_CASES[i].name in sel
  }

  /** A map keyed by exactly the table's names covers the table. */
  lemma NamesCoverUseCases(sel: Selections)
    requires sel.Keys == UseCaseNames()
    ensures CoversUseCases(sel)
  {
    forall i | 0 <= i < |USE_CASES| ensures USE_CASES[i].name in sel {
      assert USE_CASES[i] in USE_CASES;
    }
  }

  /** The per-use-case results: one per table entry, in table order. */
  function CaseResults(host: Host, org: OrganizationInfo, sel: Selections): (rs: seq<CaseResult>)
    requires CoversUseCases(sel)
    ensures |rs| == |USE_CASES|
    ensures forall i {:trigger rs[i]} :: 0 <= i < |rs| ==> rs[i].name == USE_CASES[i].name && rs[i].savings == USE_CASES[i].savings
    ensures forall i {:trigger rs[i]} :: 0 <= i < |rs| && !sel[USE_CASES[i].name].selected ==>
      rs[i].currentCost == rs[i].withDevice42 == rs[i].totalValue == Finite(0.0)
  {
    seq(|USE_CASES|, i requires 0 <= i < |USE_CASES| => CaseResultOf(host, org, USE_CASES[i], sel[USE_CASES[i].name]))
  }

  /**
   * Row i of the results, in figures: its current cost is the annual cost of
   * its selected row (zero when unselected), its value is its savings percent
   * of that cost and the cost with Device42 is the rest.
   */
  lemma RowFactsAt(host: Host, org: OrganizationInfo, sel: Selections, i: nat)
    requires CoversUseCases(sel) && i < |USE_CASES|
    ensures var r, s := CaseResults(host, org, sel)[i], sel[USE_CASES[i].name];
      && r.currentCost == (if s.selected then RowCost(EmployeeCostOf(host, org.itEmployeeCost), host.parseFloat(s.ftes), host.parseFloat(s.hoursPerDay)) else Finite(0.0))
      && Add(r.withDevice42, r.totalValue) == r.currentCost
      && r.totalValue == Scale(r.currentCost, USE_CASES[i].savings as real / 100.0)
  {
    var uc := USE_CASES[i];
    var s := sel[uc.name];
    CaseResultsAt(host, org, sel, i);
    RowValueIsSavingsShare(host, org, uc, s);
  }

  /** Row i of the results is the table's entry i, computed from its own row of the map. */
  lemma CaseResultsAt(host: Host, org: OrganizationInfo, sel: Selections, i: nat)
    requires CoversUseCases(sel) && i < |USE_CASES|
    ensures CaseResults(host, org, sel)[i] == CaseResultOf(host, org, USE_CASES[i], sel[USE_CASES[i].name])
  {
  }

  // ---------------------------------------------------------------------------
  // Totals
  // ---------------------------------------------------------------------------

  datatype Totals = Totals(currentCost: Number, withDevice42: Number, totalValue: Number)

  /** The three summed columns of the results. */
  datatype Column = CurrentCost | WithDevice42 | TotalValue

  function Cell(r: CaseResult, c: Column): Number {
    match c
    case CurrentCost => r.currentCost
    case WithDevice42 => r.withDevice42
    case TotalValue => r.totalValue
  }

  function TotalIn(t: Totals, c: Column): Number {
    match c
    case CurrentCost => t.currentCost
    case WithDevice42 => t.withDevice42
    case TotalValue => t.totalValue
  }

  const ZERO_TOTALS: Totals := Totals(Finite(0.0), Finite(0.0), Finite(0.0))

  /** One step of the totals reduce: each field adds the row's figure. */
  function AddRow(acc: Totals, r: CaseResult): Totals {
    Totals(Add(acc.currentCost, r.currentCost), Add(acc.withDevice42, r.withDevice42), Add(acc.totalValue, r.totalValue))
  }

  /** The reduce over the results, left to right from the accumulator. */
  function FoldTotals(acc: Totals, rs: seq<CaseResult>): Totals
    decreases |rs|
  {
    if rs == [] then acc else FoldTotals(AddRow(acc, rs[0]), rs[1..])
  }

  /** The totals record, folded from zero. */
  function TotalsOf(rs: seq<CaseResult>): Totals {
    FoldTotals(ZERO_TOTALS, rs)
  }

  /** The sum of one column: the reference definition the fold is checked against. */
  function ColumnSum(rs: seq<CaseResult>, c: Column): Number
    decreases |rs|
  {
    if rs == [] then Finite(0.0) else Add(Cell(rs[0], c), ColumnSum(rs[1..], c))
  }

  /** Folding rows into an accumulator adds each column's sum to it. */
  lemma {:induction false} FoldTotalsIsSum(acc: Totals, rs: seq<CaseResult>, c: Column)
    ensures TotalIn(FoldTotals(acc, rs), c) == Add(TotalIn(acc, c), ColumnSum(rs, c))
    decreases |rs|
  {
    if rs != [] {
      FoldTotalsIsSum(AddRow(acc, rs[0]), rs[1..], c);
      AddAssociative(TotalIn(acc, c), Cell(rs[0], c), ColumnSum(rs[1..], c));
      assert TotalIn(AddRow(acc, rs[0]), c) == Add(TotalIn(acc, c), Cell(rs[0], c));
    }
  }

  /** Each field of the totals is the sum of that field over all the rows. */
  lemma TotalsAreColumnSums(rs: seq<CaseResult>)
    ensures TotalsOf(rs) == Totals(ColumnSum(rs, CurrentCost), ColumnSum(rs, WithDevice42), ColumnSum(rs, TotalValue))
  {
    FoldTotalsIsSum(ZERO_TOTALS, rs, CurrentCost);
    FoldTotalsIsSum(ZERO_TOTALS, rs, WithDevice42);
    FoldTotalsIsSum(ZERO_TOTALS, rs, TotalValue);
  }

  /** A total is NaN exactly when some row holds NaN in that column. */
  lemma {:induction false} ColumnSumIsNaN(rs: seq<CaseResult>, c: Column)
    ensures ColumnSum(rs, c).NaN? <==> exists i :: 0 <= i < |rs| && Cell(rs[i], c).NaN?
    decreases |rs|
  {
    if rs != [] {
      ColumnSumIsNaN(rs[1..], c);
      if ColumnSum(rs[1..], c).NaN? {
        var i :| 0 <= i < |rs[1..]| && Cell(rs[1..][i], c).NaN?;
        assert Cell(rs[i + 1], c).NaN?;
      }
      if exists i :: 0 <= i < |rs| && Cell(rs[i], c).NaN? {
        var i :| 0 <= i < |rs| && Cell(rs[i], c).NaN?;
        if i > 0 {
          assert Cell(rs[1..][i - 1], c).NaN?;
        }
      }
    }
  }

  /** When every row splits its current cost into residual cost and value, so do the totals. */
  lemma {:induction false} ColumnSumsSplit(rs: seq<CaseResult>)
    requires forall i :: 0 <= i < |rs| ==> Add(rs[i].withDevice42, rs[i].totalValue) == rs[i].currentCost
    ensures Add(ColumnSum(rs, WithDevice42), ColumnSum(rs, TotalValue)) == ColumnSum(rs, CurrentCost)
    decreases |rs|
  {
    if rs != [] {
      ColumnSumsSplit(rs[1..]);
    }
  }

  /** When every row's value lies between 0 and its current cost, the totals' does too. */
  lemma {:induction false} ColumnSumsBounded(rs: seq<CaseResult>)
    requires forall i :: 0 <= i < |rs| ==>
      rs[i].currentCost.Finite? && rs[i].totalValue.Finite? && 0.0 <= rs[i].totalValue.value <= rs[i].currentCost.value
    ensures ColumnSum(rs, CurrentCost).Finite? && ColumnSum(rs, TotalValue).Finite?
    ensures 0.0 <= ColumnSum(rs, TotalValue).value <= ColumnSum(rs, CurrentCost).value
    decreases |rs|
  {
    if rs != [] {
      ColumnSumsBounded(rs[1..]);
    }
  }

  /** Rows that are all zero sum to zero. */
  lemma {:induction false} ColumnSumOfZeros(rs: seq<CaseResult>, c: Column)
    requires forall i :: 0 <= i < |rs| ==> Cell(rs[i], c) == Finite(0.0)
    ensures ColumnSum(rs, c) == Finite(0.0)
    decreases |rs|
  {
    if rs != [] {
      ColumnSumOfZeros(rs[1..], c);
    }
  }

  // ---------------------------------------------------------------------------
  // The result record
  // ---------------------------------------------------------------------------

  datatype Results = Results(
    useCases: seq<CaseResult>,
    totals: Totals,
    annualSubscriptionCost: real,
    threeYearSubscriptionCost: real,
    threeYearGrossValue: Number,
    projectedNetValue: Number,
    paybackPeriod: Number,
    costOfMonthlyDelay: Number)

  /**
   * The three-year projection from the rows, their totals and the annual
   * subscription cost.
   */
  function Project(useCases: seq<CaseResult>, totals: Totals, annualSubscriptionCost: real): (res: Results)
    ensures res.useCases == useCases && res.totals == totals && res.annualSubscriptionCost == annualSubscriptionCost
    ensures res.threeYearSubscriptionCost == 3.0 * annualSubscriptionCost
    ensures res.threeYearGrossValue == Scale(totals.totalValue, 3.0)
    ensures res.projectedNetValue == Sub(Scale(totals.totalValue, 3.0), Finite(3.0 * annualSubscriptionCost))
    ensures annualSubscriptionCost <= 0.0 ==> res.paybackPeriod == Finite(0.0)
    ensures annualSubscriptionCost > 0.0 ==> res.paybackPeriod == DivBy(totals.totalValue, annualSubscriptionCost)
    ensures Scale(res.costOfMonthlyDelay, 36.0) == res.projectedNetValue
  {
    var threeYearSubscriptionCost := annualSubscriptionCost * 3.0;
    var threeYearGrossValue := Scale(totals.totalValue, 3.0);
    var projectedNetValue := Sub(threeYearGrossValue, Finite(threeYearSubscriptionCost));
    var paybackPeriod :=
      if annualSubscriptionCost > 0.0 then
        TripledRatio(totals.totalValue, annualSubscriptionCost);
        DivBy(threeYearGrossValue, threeYearSubscriptionCost)
      else Finite(0.0);
    var costOfMonthlyDelay := DivBy(projectedNetValue, 36.0);
    Results(useCases, totals, annualSubscriptionCost, threeYearSubscriptionCost, threeYearGrossValue,
            projectedNetValue, paybackPeriod, costOfMonthlyDelay)
  }

  /** The whole calculation: rows, totals, the coerced subscription cost and the projection. */
  function Calculate(host: Host, org: OrganizationInfo, sel: Selections, subscriptionCost: string): (res: Results)
    requires CoversUseCases(sel)
    ensures res.useCases == CaseResults(host, org, sel)
    ensures res.totals == TotalsOf(res.useCases)
    ensures host.parseFloat(subscriptionCost).NaN? ==> res.annualSubscriptionCost == 0.0
    ensures host.parseFloat(subscriptionCost).Finite? ==> res.annualSubscriptionCost == host.parseFloat(subscriptionCost).value
    ensures res == Project(res.useCases, res.totals, res.annualSubscriptionCost)
  {
    var useCases := CaseResults(host, org, sel);
    Project(useCases, TotalsOf(useCases), OrZero(host.parseFloat(subscriptionCost)))
  }

  /** Of the organisation form the calculation reads only the employee cost. */
  lemma CalculateReadsOnlyEmployeeCost(host: Host, org: OrganizationInfo, org': OrganizationInfo, sel: Selections, subscriptionCost: string)
    requires CoversUseCases(sel)
    requires org.itEmployeeCost == org'.itEmployeeCost
    ensures Calculate(host, org, sel, subscriptionCost) == Calculate(host, org', sel, subscriptionCost)
  {
    var rs, rs' := CaseResults(host, org, sel), CaseResults(host, org', sel);
    forall i | 0 <= i < |USE_CASES| ensures rs[i] == rs'[i] {
      CaseResultsAt(host, org, sel, i);
      CaseResultsAt(host, org', sel, i);
    }
    assert rs == rs';
  }

  /** Tripling both sides of a ratio leaves it unchanged. */
  lemma TripledRatio(x: Number, a: real)
    requires a != 0.0
    ensures DivBy(Scale(x, 3.0), a * 3.0) == DivBy(x, a)
  {
    if x.Finite? {
      var q := x.value / a;
      assert q * a == x.value;
      assert q * (a * 3.0) == x.value * 3.0;
    }
  }

  // ---------------------------------------------------------------------------
  // What the view derives
  // ---------------------------------------------------------------------------

  /** The Results tab is enabled when some row of the map is selected. */
  predicate ResultsTabEnabled(sel: Selections) {
    exists n :: n in sel && sel[n].selected
  }

  /** The rows of the results table: those whose current cost is greater than 0, in order. */
  function ListedRows(rs: seq<CaseResult>): (out: seq<CaseResult>)
    ensures forall r :: r in out <==> r in rs && IsPositive(r.currentCost)
    ensures |out| <= |rs|
    decreases |rs|
  {
    if rs == [] then []
    else if IsPositive(rs[0].currentCost) then [rs[0]] + ListedRows(rs[1..])
    else ListedRows(rs[1..])
  }

  /** A single row is listed exactly when its current cost is positive. */
  lemma ListedRowsOfOne(r: CaseResult)
    ensures ListedRows([r]) == (if IsPositive(r.currentCost) then [r] else [])
  {
    assert [r][1..] == [];
  }

  /**
   * Filtering distributes over concatenation: the listing keeps the results'
   * order and lists each row as often as it occurs. With ListedRowsOfOne this
   * determines the listing of every sequence of rows.
   */
  lemma {:induction false} ListedRowsAppend(a: seq<CaseResult>, b: seq<CaseResult>)
    ensures ListedRows(a + b) == ListedRows(a) + ListedRows(b)
    decreases |a|
  {
    if a != [] {
      assert (a + b)[0] == a[0];
      assert (a + b)[1..] == a[1..] + b;
      ListedRowsAppend(a[1..], b);
    } else {
      assert a + b == b;
    }
  }

  // ---------------------------------------------------------------------------
  // Properties of the calculation
  // ---------------------------------------------------------------------------

  /** The totals split the current cost into residual cost and value, as every row does. */
  lemma TotalsSplit(host: Host, org: OrganizationInfo, sel: Selections)
    requires CoversUseCases(sel)
    ensures var t := TotalsOf(CaseResults(host, org, sel));
      Add(t.withDevice42, t.totalValue) == t.currentCost
  {
    var rs := CaseResults(host, org, sel);
    forall i | 0 <= i < |rs| ensures Add(rs[i].withDevice42, rs[i].totalValue) == rs[i].currentCost {
      CaseResultsAt(host, org, sel, i);
    }
    TotalsAreColumnSums(rs);
    ColumnSumsSplit(rs);
  }

  /** The current cost of a selected row is NaN exactly when one of its three inputs is. */
  lemma RowCostIsNaN(cost: Number, ftes: Number, hours: Number)
    ensures RowCost(cost, ftes, hours).NaN? <==> cost.NaN? || ftes.NaN? || hours.NaN?
  {
  }

  /** One of row i's inputs is NaN: the employee cost, its FTEs or its hours per day. */
  predicate RowInputIsNaN(host: Host, org: OrganizationInfo, sel: Selections, i: nat)
    requires CoversUseCases(sel) && i < |USE_CASES|
  {
    var s := sel[USE_CASES[i].name];
    EmployeeCostOf(host, org.itEmployeeCost).NaN? || host.parseFloat(s.ftes).NaN? || host.parseFloat(s.hoursPerDay).NaN?
  }

  /**
   * The total current cost is NaN exactly when some selected row has a NaN
   * input: a selected row whose FTEs or hours do not parse poisons the totals,
   * while unselected rows never do.
   */
  lemma TotalsNaNFromSelectedRow(host: Host, org: OrganizationInfo, sel: Selections)
    requires CoversUseCases(sel)
    ensures TotalsOf(CaseResults(host, org, sel)).currentCost.NaN? <==>
      exists i :: 0 <= i < |USE_CASES| && sel[USE_CASES[i].name].selected && RowInputIsNaN(host, org, sel, i)
  {
    var rs := CaseResults(host, org, sel);
    forall i | 0 <= i < |rs|
      ensures Cell(rs[i], CurrentCost).NaN? <==> sel[USE_CASES[i].name].selected && RowInputIsNaN(host, org, sel, i)
    {
      RowNaNAt(host, org, sel, i);
    }
    TotalsAreColumnSums(rs);
    ColumnSumIsNaN(rs, CurrentCost);
  }

  /** Row i's current cost is NaN exactly when the row is selected and one of its inputs is NaN. */
  lemma RowNaNAt(host: Host, org: OrganizationInfo, sel: Selections, i: nat)
    requires CoversUseCases(sel) && i < |USE_CASES|
    ensures CaseResults(host, org, sel)[i].currentCost.NaN? <==>
      sel[USE_CASES[i].name].selected && RowInputIsNaN(host, org, sel, i)
  {
    var s := sel[USE_CASES[i].name];
    RowFactsAt(host, org, sel, i);
    RowCostIsNaN(EmployeeCostOf(host, org.itEmployeeCost), host.parseFloat(s.ftes), host.parseFloat(s.hoursPerDay));
  }

  /** Nonnegative inputs give a nonnegative current cost. */
  lemma RowCostNonnegative(cost: Number, ftes: Number, hours: Number)
    requires cost.Finite? && ftes.Finite? && hours.Finite?
    requires cost.value >= 0.0 && ftes.value >= 0.0 && hours.value >= 0.0
    ensures RowCost(cost, ftes, hours).Finite? && RowCost(cost, ftes, hours).value >= 0.0
  {
    RowCostIsAnnualCost(cost, ftes, hours);
    var cf := cost.value * ftes.value;
    assert cf >= 0.0;
    assert cf * hours.value >= 0.0;
  }

  /** The employee cost is a nonnegative number, and so are the FTEs and hours of every selected row. */
  predicate NonnegativeInputs(host: Host, org: OrganizationInfo, sel: Selections) {
    && EmployeeCostOf(host, org.itEmployeeCost).Finite?
    && EmployeeCostOf(host, org.itEmployeeCost).value >= 0.0
    && forall n :: n in sel && sel[n].selected ==>
         host.parseFloat(sel[n].ftes).Finite? && host.parseFloat(sel[n].ftes).value >= 0.0 &&
         host.parseFloat(sel[n].hoursPerDay).Finite? && host.parseFloat(sel[n].hoursPerDay).value >= 0.0
  }

  /** With nonnegative inputs, row i's value lies between 0 and its current cost. */
  lemma RowBoundedAt(host: Host, org: OrganizationInfo, sel: Selections, i: nat)
    requires CoversUseCases(sel) && i < |USE_CASES|
    requires NonnegativeInputs(host, org, sel)
    ensures var r := CaseResults(host, org, sel)[i];
      r.currentCost.Finite? && r.totalValue.Finite? && 0.0 <= r.totalValue.value <= r.currentCost.value
  {
    var uc := USE_CASES[i];
    var s := sel[uc.name];
    assert uc.name in sel;
    assert s.selected ==> host.parseFloat(s.ftes).Finite? && host.parseFloat(s.ftes).value >= 0.0 && host.parseFloat(s.hoursPerDay).Finite? && host.parseFloat(s.hoursPerDay).value >= 0.0;
    RowFactsAt(host, org, sel, i);
    SavingsAtMostHundred(i);
    RowFiguresBounded(CaseResults(host, org, sel)[i], uc.savings, s.selected,
      EmployeeCostOf(host, org.itEmployeeCost), host.parseFloat(s.ftes), host.parseFloat(s.hoursPerDay));
  }

  /** The figures of a row built from nonnegative inputs and a savings percent of at most 100 are bounded. */
  lemma RowFiguresBounded(r: CaseResult, savings: nat, selected: bool, cost: Number, ftes: Number, hours: Number)
    requires savings <= 100
    requires cost.Finite? && cost.value >= 0.0
    requires selected ==> ftes.Finite? && ftes.value >= 0.0 && hours.Finite? && hours.value >= 0.0
    requires r.currentCost == (if selected then RowCost(cost, ftes, hours) else Finite(0.0))
    requires Add(r.withDevice42, r.totalValue) == r.currentCost
    requires r.totalValue == Scale(r.currentCost, savings as real / 100.0)
    ensures r.currentCost.Finite? && r.totalValue.Finite? && 0.0 <= r.totalValue.value <= r.currentCost.value
  {
    if selected {
      RowCostNonnegative(cost, ftes, hours);
    }
    RowValueBounds(r, savings);
  }

  /**
   * With nonnegative inputs the totals are numbers and the total value lies
   * between 0 and the total current cost.
   */
  lemma TotalsBounded(host: Host, org: OrganizationInfo, sel: Selections)
    requires CoversUseCases(sel)
    requires NonnegativeInputs(host, org, sel)
    ensures var t := TotalsOf(CaseResults(host, org, sel));
      t.currentCost.Finite? && t.totalValue.Finite? && 0.0 <= t.totalValue.value <= t.currentCost.value
  {
    var rs := CaseResults(host, org, sel);
    forall i | 0 <= i < |rs|
      ensures rs[i].currentCost.Finite? && rs[i].totalValue.Finite?
      ensures 0.0 <= rs[i].totalValue.value <= rs[i].currentCost.value
    {
      RowBoundedAt(host, org, sel, i);
    }
    ColumnSumsBounded(rs);
    TotalsAreColumnSums(rs);
  }

  /** With no row selected every row is zero, the totals are zero and the results table lists nothing. */
  lemma NothingSelectedZeroRows(host: Host, org: OrganizationInfo, sel: Selections)
    requires CoversUseCases(sel)
    requires forall i :: 0 <= i < |USE_CASES| ==> !sel[USE_CASES[i].name].selected
    ensures var rs := CaseResults(host, org, sel);
      && (forall i :: 0 <= i < |rs| ==> rs[i].currentCost == rs[i].withDevice42 == rs[i].totalValue == Finite(0.0))
      && TotalsOf(rs) == ZERO_TOTALS
      && ListedRows(rs) == []
  {
    var rs := CaseResults(host, org, sel);
    ZeroRowsTotals(rs);
    NothingPositiveListsNothing(rs);
  }

  /** Rows that are all zero have zero totals. */
  lemma ZeroRowsTotals(rs: seq<CaseResult>)
    requires forall i :: 0 <= i < |rs| ==> rs[i].currentCost == rs[i].withDevice42 == rs[i].totalValue == Finite(0.0)
    ensures TotalsOf(rs) == ZERO_TOTALS
  {
    ColumnSumOfZeros(rs, CurrentCost);
    ColumnSumOfZeros(rs, WithDevice42);
    ColumnSumOfZeros(rs, TotalValue);
    TotalsAreColumnSums(rs);
  }

  /** A table with no positive current cost lists no row. */
  lemma {:induction false} NothingPositiveListsNothing(rs: seq<CaseResult>)
    requires forall i :: 0 <= i < |rs| ==> !IsPositive(rs[i].currentCost)
    ensures ListedRows(rs) == []
    decreases |rs|
  {
    if rs != [] {
      NothingPositiveListsNothing(rs[1..]);
    }
  }

  /**
   * Zero totals project to a zero gross value and a zero payback ratio; the
   * net value and the cost of a month's delay are the subscription's loss.
   * With a zero subscription every figure is zero.
   */
  lemma ZeroTotalsProjection(rs: seq<CaseResult>, annualSubscriptionCost: real)
    ensures var res := Project(rs, ZERO_TOTALS, annualSubscriptionCost);
      && res.threeYearSubscriptionCost == 3.0 * annualSubscriptionCost
      && res.threeYearGrossValue == Finite(0.0)
      && res.paybackPeriod == Finite(0.0)
      && res.projectedNetValue == Finite(-3.0 * annualSubscriptionCost)
      && res.costOfMonthlyDelay == Finite(-3.0 * annualSubscriptionCost / 36.0)
    ensures annualSubscriptionCost == 0.0 ==>
      var res := Project(rs, ZERO_TOTALS, annualSubscriptionCost);
      && res.threeYearSubscriptionCost == 0.0
      && res.projectedNetValue == Finite(0.0)
      && res.costOfMonthlyDelay == Finite(0.0)
  {
  }

  /** With no row selected the calculation is the projection of zero totals, whatever the subscription. */
  lemma NothingSelectedYieldsZeros(host: Host, org: OrganizationInfo, sel: Selections, subscriptionCost: string)
    requires CoversUseCases(sel)
    requires forall i :: 0 <= i < |USE_CASES| ==> !sel[USE_CASES[i].name].selected
    ensures Calculate(host, org, sel, subscriptionCost) ==
      Project(CaseResults(host, org, sel), ZERO_TOTALS, OrZero(host.parseFloat(subscriptionCost)))
  {
    NothingSelectedZeroRows(host, org, sel);
  }

  /**
   * The boundary case: nothing selected and a subscription cost that is empty
   * (or reads as 0) give the projection of zero totals and a zero subscription,
   * every figure of which is zero (ZeroTotalsProjection).
   */
  lemma EmptyFormYieldsZeros(host: Host, org: OrganizationInfo, sel: Selections, subscriptionCost: string)
    requires CoversUseCases(sel)
    requires forall i :: 0 <= i < |USE_CASES| ==> !sel[USE_CASES[i].name].selected
    requires host.parseFloat(subscriptionCost).NaN? || host.parseFloat(subscriptionCost) == Finite(0.0)
    ensures Calculate(host, org, sel, subscriptionCost) == Project(CaseResults(host, org, sel), ZERO_TOTALS, 0.0)
  {
    NothingSelectedYieldsZeros(host, org, sel, subscriptionCost);
    assert OrZero(host.parseFloat(subscriptionCost)) == 0.0;
  }

  /** Every row the results table lists belongs to a selected use case. */
  lemma ListedRowsAreSelected(host: Host, org: OrganizationInfo, sel: Selections, subscriptionCost: string)
    requires CoversUseCases(sel)
    ensures forall r :: r in ListedRows(Calculate(host, org, sel, subscriptionCost).useCases) ==>
      r.name in sel && sel[r.name].selected
  {
    var rs := CaseResults(host, org, sel);
    forall r | r in ListedRows(rs) ensures r.name in sel && sel[r.name].selected {
      var i :| 0 <= i < |rs| && rs[i] == r;
    }
  }

  /** Positive inputs give a positive current cost. */
  lemma RowCostPositive(cost: Number, ftes: Number, hours: Number)
    requires IsPositive(cost) && IsPositive(ftes) && IsPositive(hours)
    ensures IsPositive(RowCost(cost, ftes, hours))
  {
    RowCostIsAnnualCost(cost, ftes, hours);
    var cf := cost.value * ftes.value;
    assert cf > 0.0;
    assert cf * hours.value > 0.0;
  }

  /** A selected row whose employee cost, FTEs and hours are all positive numbers is listed. */
  lemma PositiveSelectedRowIsListed(host: Host, org: OrganizationInfo, sel: Selections, subscriptionCost: string, i: nat)
    requires CoversUseCases(sel)
    requires i < |USE_CASES|
    requires sel[USE_CASES[i].name].selected
    requires IsPositive(EmployeeCostOf(host, org.itEmployeeCost))
    requires IsPositive(host.parseFloat(sel[USE_CASES[i].name].ftes))
    requires IsPositive(host.parseFloat(sel[USE_CASES[i].name].hoursPerDay))
    ensures Calculate(host, org, sel, subscriptionCost).useCases[i] in ListedRows(Calculate(host, org, sel, subscriptionCost).useCases)
  {
    var rs := CaseResults(host, org, sel);
    RowPositiveAt(host, org, sel, i);
    assert rs[i] in rs;
  }

  /** Row i's current cost is positive when the row is selected and its three inputs are positive. */
  lemma RowPositiveAt(host: Host, org: OrganizationInfo, sel: Selections, i: nat)
    requires CoversUseCases(sel)
    requires i < |USE_CASES|
    requires sel[USE_CASES[i].name].selected
    requires IsPositive(EmployeeCostOf(host, org.itEmployeeCost))
    requires IsPositive(host.parseFloat(sel[USE_CASES[i].name].ftes))
    requires IsPositive(host.parseFloat(sel[USE_CASES[i].name].hoursPerDay))
    ensures IsPositive(CaseResults(host, org, sel)[i].currentCost)
  {
    var s := sel[USE_CASES[i].name];
    RowFactsAt(host, org, sel, i);
    RowCostPositive(EmployeeCostOf(host, org.itEmployeeCost), host.parseFloat(s.ftes), host.parseFloat(s.hoursPerDay));
  }

  /** The Results tab is enabled exactly when one of the eight use cases is selected. */
  lemma ResultsTabEnabledIffSomeUseCaseSelected(sel: Selections)
    requires sel.Keys == UseCaseNames()
    ensures ResultsTabEnabled(sel) <==> exists i :: 0 <= i < |USE_CASES| && sel[USE_CASES[i].name].selected
  {
    if ResultsTabEnabled(sel) {
      var n :| n in sel && sel[n].selected;
      assert n in NamesOf(USE_CASES);
      var uc :| uc in USE_CASES && uc.name == n;
      var i :| 0 <= i < |USE_CASES| && USE_CASES[i] == uc;
    }
  }

  /** Initially the tab is disabled; checking a row enables it. */
  lemma TabGatingFollowsSelection(sel: Selections, name: string)
    requires name in sel
    ensures !ResultsTabEnabled(InitialSelections())
    ensures ResultsTabEnabled(UseCaseChange(sel, name, SetSelected(true)))
  {
    var m := InitialSelections();
    assert forall n :: n in m ==> !m[n].selected;
    assert UseCaseChange(sel, name, SetSelected(true))[name].selected;
  }

  /** The Incident Management row of the worked example. */
  lemma IncidentManagementRow(host: Host, sel: Selections)
    requires host.parseFloat("2") == Finite(2.0)
    requires host.parseFloat("4") == Finite(4.0)
    requires CoversUseCases(sel)
    requires sel[USE_CASES[0].name] == Selection(true, "2", "4")
    ensures CaseResults(host, INITIAL_ORGANIZATION, sel)[0] ==
      CaseResult("Incident Management", 30, Finite(120000.0), Finite(84000.0), Finite(36000.0))
  {
    CaseResultsAt(host, INITIAL_ORGANIZATION, sel, 0);
  }

  /** Totals of a first row followed by zero rows are that row's figures. */
  lemma {:induction false} FirstRowTotals(rs: seq<CaseResult>)
    requires |rs| > 0
    requires forall i :: 1 <= i < |rs| ==> rs[i].currentCost == rs[i].withDevice42 == rs[i].totalValue == Finite(0.0)
    requires rs[0].currentCost.Finite? && rs[0].withDevice42.Finite? && rs[0].totalValue.Finite?
    ensures TotalsOf(rs) == Totals(rs[0].currentCost, rs[0].withDevice42, rs[0].totalValue)
  {
    ColumnSumOfZeros(rs[1..], CurrentCost);
    ColumnSumOfZeros(rs[1..], WithDevice42);
    ColumnSumOfZeros(rs[1..], TotalValue);
    TotalsAreColumnSums(rs);
  }

  /**
   * The worked example: employee cost 120000, only Incident Management (30%)
   * selected with 2 FTEs at 4 hours a day, and a subscription of 50000.
   */
  lemma IncidentManagementExample(host: Host, sel: Selections)
    requires host.parseFloat("2") == Finite(2.0)
    requires host.parseFloat("4") == Finite(4.0)
    requires host.parseFloat("50000") == Finite(50000.0)
    requires CoversUseCases(sel)
    requires sel[USE_CASES[0].name] == Selection(true, "2", "4")
    requires forall i :: 1 <= i < |USE_CASES| ==> !sel[USE_CASES[i].name].selected
    ensures var res := Calculate(host, INITIAL_ORGANIZATION, sel, "50000");
      && res.useCases[0].currentCost == Finite(120000.0)
      && res.useCases[0].withDevice42 == Finite(84000.0)
      && res.useCases[0].totalValue == Finite(36000.0)
      && res.totals == Totals(Finite(120000.0), Finite(84000.0), Finite(36000.0))
      && res.threeYearGrossValue == Finite(108000.0)
      && res.threeYearSubscriptionCost == 150000.0
      && res.projectedNetValue == Finite(-42000.0)
      && res.paybackPeriod == Finite(0.72)
      && res.costOfMonthlyDelay == Finite(-42000.0 / 36.0)
  {
    var res := Calculate(host, INITIAL_ORGANIZATION, sel, "50000");
    IncidentManagementRow(host, sel);
    FirstRowTotals(res.useCases);
    assert res == Project(res.useCases, Totals(Finite(120000.0), Finite(84000.0), Finite(36000.0)), 50000.0);
    ExampleProjection(res.useCases);
  }

  /** The projection of the worked example's totals with a subscription of 50000. */
  lemma ExampleProjection(rs: seq<CaseResult>)
    ensures var res := Project(rs, Totals(Finite(120000.0), Finite(84000.0), Finite(36000.0)), 50000.0);
      && res.threeYearGrossValue == Finite(108000.0)
      && res.threeYearSubscriptionCost == 150000.0
      && res.projectedNetValue == Finite(-42000.0)
      && res.paybackPeriod == Finite(0.72)
      && res.costOfMonthlyDelay == Finite(-42000.0 / 36.0)
  {
  }
}
