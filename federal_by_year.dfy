/**
 * Federal tax by year (src/tax/federalByYear.js): a 2024 baseline merged, per supported year,
 * with the year's override from the JSON tables; bracket tax without surtax; no credits yet.
 * The JSON document is the parameter `raw`, keyed by the year it names.
 */
module FederalByYear {
  import opened Wrappers
  import opened Brackets

  /** `YEARS`: the years that get a merged table. */
  const Years: set<int> := {2020, 2021, 2022, 2023, 2024, 2025}

  /** A year table after normalisation; `Unbounded` is `Infinity`. */
  datatype Table = Table(brackets: map<Status, Schedule>, standardDeduction: map<Status, real>)

  /** One year of the JSON document; an absent field is an empty map. */
  datatype RawTable = RawTable(brackets: map<Status, Option<seq<RawBracket>>>, standardDeduction: map<Status, real>)

  type RawTables = map<int, RawTable>

  const BaseSingle: Schedule := [
    Bracket(Finite(11600.0), 0.10), Bracket(Finite(47150.0), 0.12), Bracket(Finite(100525.0), 0.22),
    Bracket(Finite(191950.0), 0.24), Bracket(Finite(243725.0), 0.32), Bracket(Finite(609350.0), 0.35),
    Bracket(Unbounded, 0.37)]

  const BaseMarriedJoint: Schedule := [
    Bracket(Finite(23200.0), 0.10), Bracket(Finite(94300.0), 0.12), Bracket(Finite(201050.0), 0.22),
    Bracket(Finite(383900.0), 0.24), Bracket(Finite(487450.0), 0.32), Bracket(Finite(731200.0), 0.35),
    Bracket(Unbounded, 0.37)]

  const BaseMarriedSeparate: Schedule := [
    Bracket(Finite(11600.0), 0.10), Bracket(Finite(47150.0), 0.12), Bracket(Finite(100525.0), 0.22),
    Bracket(Finite(191950.0), 0.24), Bracket(Finite(243725.0), 0.32), Bracket(Finite(365600.0), 0.35),
    Bracket(Unbounded, 0.37)]

  const BaseHeadHousehold: Schedule := [
    Bracket(Finite(16550.0), 0.10), Bracket(Finite(63100.0), 0.12), Bracket(Finite(100500.0), 0.22),
    Bracket(Finite(191950.0), 0.24), Bracket(Finite(243700.0), 0.32), Bracket(Finite(609350.0), 0.35),
    Bracket(Unbounded, 0.37)]

  /** The baseline's own `qualifying_widow` schedule; the calculator never reads it. */
  const BaseQualifyingWidow: Schedule := [
    Bracket(Finite(23200.0), 0.10), Bracket(Finite(94300.0), 0.12), Bracket(Finite(201050.0), 0.22),
    Bracket(Finite(383900.0), 0.24), Bracket(Finite(487450.0), 0.32), Bracket(Finite(731200.0), 0.35),
    Bracket(Unbounded, 0.37)]

  /** The schedules of `BASE_2024`. */
  const BaseBrackets: map<Status, Schedule> :=
    map[Single := BaseSingle, MarriedJoint := BaseMarriedJoint, MarriedSeparate := BaseMarriedSeparate,
        HeadHousehold := BaseHeadHousehold, QualifyingWidow := BaseQualifyingWidow]

  /** `BASE_2024` */
  const Base2024: Table := Table(
    BaseBrackets,
    map[Single := 14600.0, MarriedSeparate := 14600.0, MarriedJoint := 29200.0,
        HeadHousehold := 21900.0, QualifyingWidow := 29200.0])

  /** The override of a year with no JSON entry (it overrides nothing). */
  const NoOverride: Table := Table(map[], map[])

  /**
   * The JSON normalisation: every status key keeps its key and its schedule bracket by bracket,
   * `null` bracket edges becoming unbounded; the standard deductions are kept as they are.
   */
  function Normalize(raw: RawTable): (t: Table)
    ensures t.brackets.Keys == raw.brackets.Keys
    ensures forall k :: k in raw.brackets ==> t.brackets[k] == NormalizeSchedule(raw.brackets[k])
    ensures t.standardDeduction == raw.standardDeduction
  {
    Table(NormalizeBrackets(raw.brackets), raw.standardDeduction)
  }

  /** A key-by-key merge of both fields, the override's entries winning. */
  function Merge(base: Table, override: Table): Table
  {
    Table(base.brackets + override.brackets, base.standardDeduction + override.standardDeduction)
  }

  function OverrideFor(raw: RawTables, year: int): Table
  {
    if year in raw then Normalize(raw[year]) else NoOverride
  }

  /** `TABLES`: one merged table per supported year. */
  function Tables(raw: RawTables): map<int, Table>
  {
    YearTables(Years, y => Merge(Base2024, OverrideFor(raw, y)))
  }

  /** The table of a year: its merged table when the year is supported, the baseline otherwise. */
  function GetTables(raw: RawTables, year: int): (t: Table)
    ensures Single in t.brackets && MarriedJoint in t.brackets && Single in t.standardDeduction
  {
    if year in Years then Merge(Base2024, OverrideFor(raw, year)) else Base2024
  }

  /** The table lookup reads the year's merged table when there is one, the baseline otherwise. */
  lemma GetTablesReadsStore(raw: RawTables, year: int)
    ensures GetTables(raw, year) == if year in Tables(raw) then Tables(raw)[year] else Base2024
  {
  }

  /** `getFederalStandardDeductionByYear` */
  function StandardDeduction(raw: RawTables, year: int, status: Status): real
  {
    OrSingle(GetTables(raw, year).standardDeduction, status)
  }

  /** The schedule `calculateFederalTaxBeforeCreditsByYear` walks. */
  function ScheduleOf(raw: RawTables, year: int, status: Status): Schedule
  {
    ScheduleFor(GetTables(raw, year).brackets, status)
  }

  /** What `calculateFederalTaxBeforeCreditsByYear` returns: the rounded bracket sum. */
  function BeforeCredits(raw: RawTables, year: int, taxableIncome: real, status: Status): real
  {
    Round(Accumulate(ScheduleOf(raw, year, status), taxableIncome, 0.0)) as real
  }

  /** `{ beforeCredits, nonrefundableCredits, afterCredits }` */
  datatype TaxResult = TaxResult(beforeCredits: real, nonrefundableCredits: real, afterCredits: real)

  /** What `calculateFederalTaxByYear` returns; the credits are a placeholder zero. */
  function Tax(raw: RawTables, year: int, taxableIncome: real, status: Status): TaxResult
  {
    var beforeCredits := BeforeCredits(raw, year, taxableIncome, status);
    TaxResult(beforeCredits, 0.0, Max(0.0, beforeCredits - 0.0))
  }

  method CalculateTaxBeforeCredits(raw: RawTables, year: int, taxableIncome: real, status: Status)
    returns (beforeCredits: real)
    ensures beforeCredits == BeforeCredits(raw, year, taxableIncome, status)
    ensures taxableIncome <= 0.0 ==> beforeCredits == 0.0
  {
    var tables := GetTables(raw, year);
    var brackets := ScheduleFor(tables.brackets, status);
    var tax := AccumulateBrackets(brackets, taxableIncome);
    beforeCredits := Round(tax) as real;
  }

  method CalculateTax(raw: RawTables, year: int, taxableIncome: real, status: Status) returns (r: TaxResult)
    ensures r == Tax(raw, year, taxableIncome, status)
    ensures r.nonrefundableCredits == 0.0 && r.afterCredits == Max(0.0, r.beforeCredits)
  {
    var beforeCredits := CalculateTaxBeforeCredits(raw, year, taxableIncome, status);
    var nonrefundableCredits := 0.0;
    var afterCredits := Max(0.0, beforeCredits - nonrefundableCredits);
    r := TaxResult(beforeCredits, nonrefundableCredits, afterCredits);
  }

  // ----- Properties of the table store -----

  /** Whether the JSON document overrides `year` at all. */
  predicate Overridden(raw: RawTables, year: int)
  {
    year in Years && year in raw
  }

  /** A year outside 2020–2025, or one without a JSON entry, gets the baseline exactly. */
  lemma BaselineFallback(raw: RawTables, year: int)
    requires !Overridden(raw, year)
    ensures GetTables(raw, year) == Base2024
  {
    if year in Years {
      var m := Merge(Base2024, NoOverride);
      assert m.brackets == Base2024.brackets;
      assert m.standardDeduction == Base2024.standardDeduction;
    }
  }

  /** An unoverridden year picks its schedule from the baseline. */
  lemma BaselineSchedule(raw: RawTables, year: int, status: Status)
    requires !Overridden(raw, year)
    ensures ScheduleOf(raw, year, status) == ScheduleFor(Base2024.brackets, status)
  {
    BaselineFallback(raw, year);
  }

  /** The merge, key by key: a status key named in the override takes the override's entry. */
  lemma MergeEntry(base: Table, override: Table, k: Status)
    ensures var t := Merge(base, override);
      && (k in t.brackets <==> k in base.brackets || k in override.brackets)
      && (k in override.brackets ==> t.brackets[k] == override.brackets[k])
      && (k in base.brackets && k !in override.brackets ==> t.brackets[k] == base.brackets[k])
      && (k in t.standardDeduction <==> k in base.standardDeduction || k in override.standardDeduction)
      && (k in override.standardDeduction ==> t.standardDeduction[k] == override.standardDeduction[k])
      && (k in base.standardDeduction && k !in override.standardDeduction ==>
            t.standardDeduction[k] == base.standardDeduction[k])
  {
  }

  /** Which layer supplies the standard deduction: the year's override, the baseline, or `single`. */
  lemma StandardDeductionLayers(raw: RawTables, year: int, status: Status)
    ensures StandardDeduction(raw, year, status) ==
      var over := if Overridden(raw, year) then raw[year].standardDeduction else map[];
      var base := Base2024.standardDeduction;
      if status in over then over[status]
      else if status in base then base[status]
      else if Single in over then over[Single]
      else base[Single]
  {
    if Overridden(raw, year) {
      OrSingleOverMerge(Base2024.standardDeduction, raw[year].standardDeduction, status);
    } else {
      BaselineFallback(raw, year);
    }
  }

  /** A bracket schedule named in the override replaces the baseline one for that status only. */
  lemma ScheduleLayers(raw: RawTables, year: int, status: Status)
    requires status != QualifyingWidow
    ensures ScheduleOf(raw, year, status) ==
      var over := if Overridden(raw, year) then NormalizeBrackets(raw[year].brackets) else map[];
      var base := Base2024.brackets;
      if status in over then over[status]
      else if status in base then base[status]
      else if Single in over then over[Single]
      else base[Single]
  {
    if !Overridden(raw, year) {
      BaselineFallback(raw, year);
    }
  }

  /** A JSON schedule has its `null` edges read as unbounded, bracket by bracket. */
  lemma OverrideScheduleNormalized(raw: RawTables, year: int, status: Status, i: int)
    requires Overridden(raw, year) && status != QualifyingWidow
    requires status in raw[year].brackets && raw[year].brackets[status].Some?
    requires 0 <= i < |raw[year].brackets[status].value|
    ensures |ScheduleOf(raw, year, status)| == |raw[year].brackets[status].value|
    ensures ScheduleOf(raw, year, status)[i].rate == raw[year].brackets[status].value[i].rate
    ensures ScheduleOf(raw, year, status)[i].upTo == NormalizeBound(raw[year].brackets[status].value[i].upTo)
    ensures ScheduleOf(raw, year, status)[i].upTo.Unbounded? <==> raw[year].brackets[status].value[i].upTo.None?
  {
    ScheduleLayers(raw, year, status);
  }

  // ----- Properties of the calculator -----

  /** `qualifying_widow` is taxed on the `married_joint` schedule, ignoring its own table entry. */
  lemma WidowUsesMarriedJoint(raw: RawTables, year: int, taxableIncome: real)
    ensures ScheduleOf(raw, year, QualifyingWidow) == GetTables(raw, year).brackets[MarriedJoint]
    ensures BeforeCredits(raw, year, taxableIncome, QualifyingWidow)
         == BeforeCredits(raw, year, taxableIncome, MarriedJoint)
  {
  }

  /** A status with no schedule and no deduction of its own is taxed and deducted as `single`. */
  lemma UnknownStatusUsesSingle(raw: RawTables, year: int, taxableIncome: real, status: Status)
    requires status.Other?
    requires Overridden(raw, year) ==>
      status !in raw[year].brackets && status !in raw[year].standardDeduction
    ensures ScheduleOf(raw, year, status) == ScheduleOf(raw, year, Single)
    ensures BeforeCredits(raw, year, taxableIncome, status) == BeforeCredits(raw, year, taxableIncome, Single)
    ensures StandardDeduction(raw, year, status) == StandardDeduction(raw, year, Single)
  {
    ScheduleLayers(raw, year, status);
    ScheduleLayers(raw, year, Single);
    StandardDeductionLayers(raw, year, status);
    StandardDeductionLayers(raw, year, Single);
  }

  /** Taxable income at or below zero gives no tax. */
  lemma BeforeCreditsNonPositiveIncome(raw: RawTables, year: int, taxableIncome: real, status: Status)
    requires taxableIncome <= 0.0
    ensures BeforeCredits(raw, year, taxableIncome, status) == 0.0
  {
    AccumulateNothingRemaining(ScheduleOf(raw, year, status), taxableIncome, 0.0);
  }

  /** No bracket rate in the JSON document is negative. */
  predicate RawRatesNonNegative(raw: RawTables)
  {
    forall y, k :: y in raw && k in raw[y].brackets ==> RawScheduleNonNegative(raw[y].brackets[k])
  }

  lemma BaseSingleWellFormed()
    ensures NonNegativeRates(BaseSingle) && AscendingFrom(BaseSingle, 0.0)
  {
  }

  lemma BaseMarriedJointWellFormed()
    ensures NonNegativeRates(BaseMarriedJoint) && AscendingFrom(BaseMarriedJoint, 0.0)
  {
  }

  lemma BaseMarriedSeparateWellFormed()
    ensures NonNegativeRates(BaseMarriedSeparate) && AscendingFrom(BaseMarriedSeparate, 0.0)
  {
  }

  lemma BaseHeadHouseholdWellFormed()
    ensures NonNegativeRates(BaseHeadHousehold) && AscendingFrom(BaseHeadHousehold, 0.0)
  {
  }

  lemma BaseQualifyingWidowWellFormed()
    ensures NonNegativeRates(BaseQualifyingWidow) && AscendingFrom(BaseQualifyingWidow, 0.0)
  {
  }

  /** Every baseline schedule is well formed. */
  lemma BaseBracketsWellFormed()
    ensures forall k :: k in BaseBrackets ==> WellFormed(BaseBrackets[k])
  {
    BaseSingleWellFormed();
    BaseMarriedJointWellFormed();
    BaseMarriedSeparateWellFormed();
    BaseHeadHouseholdWellFormed();
    BaseQualifyingWidowWellFormed();
  }

  /** So is every schedule the calculator can pick from the baseline. */
  lemma BaseSchedulesWellFormed(status: Status)
    ensures WellFormed(ScheduleFor(Base2024.brackets, status))
  {
    BaseBracketsWellFormed();
    ScheduleForWellFormed(BaseBrackets, status);
  }

  /** The baseline's rates, for every status key it has. */
  lemma BaseRatesNonNegative()
    ensures forall k :: k in Base2024.brackets ==> NonNegativeRates(Base2024.brackets[k])
  {
    BaseBracketsWellFormed();
  }

  /** With non-negative JSON rates, every schedule the calculator can pick has non-negative rates. */
  lemma ScheduleRatesNonNegative(raw: RawTables, year: int, status: Status)
    requires RawRatesNonNegative(raw)
    ensures NonNegativeRates(ScheduleOf(raw, year, status))
  {
    if Overridden(raw, year) {
      assert GetTables(raw, year).brackets == Base2024.brackets + NormalizeBrackets(raw[year].brackets);
      BaseRatesNonNegative();
      var over := raw[year].brackets;
      assert forall k :: k in over ==> RawScheduleNonNegative(over[k]);
      MergedRatesNonNegative(Base2024.brackets, over, status);
    } else {
      BaselineSchedule(raw, year, status);
      BaseSchedulesWellFormed(status);
    }
  }

  /** For a fixed year and status, more taxable income never gives less tax. */
  lemma BeforeCreditsMonotone(raw: RawTables, year: int, status: Status, x: real, y: real)
    requires RawRatesNonNegative(raw)
    requires x <= y
    ensures BeforeCredits(raw, year, x, status) <= BeforeCredits(raw, year, y, status)
  {
    var s := ScheduleOf(raw, year, status);
    ScheduleRatesNonNegative(raw, year, status);
    AccumulateMonotone(s, x, y, 0.0);
    RoundMonotone(Accumulate(s, x, 0.0), Accumulate(s, y, 0.0));
  }

  /** With non-negative rates the tax is never negative, so the zero credits leave it unchanged. */
  lemma AfterCreditsIsBeforeCredits(raw: RawTables, year: int, taxableIncome: real, status: Status)
    requires RawRatesNonNegative(raw)
    ensures Tax(raw, year, taxableIncome, status).beforeCredits >= 0.0
    ensures Tax(raw, year, taxableIncome, status).afterCredits == Tax(raw, year, taxableIncome, status).beforeCredits
  {
    var s := ScheduleOf(raw, year, status);
    ScheduleRatesNonNegative(raw, year, status);
    AccumulateNonNegative(s, taxableIncome, 0.0);
    RoundMonotone(0.0, Accumulate(s, taxableIncome, 0.0));
  }

  /**
   * On an ascending schedule the tax before credits is the rounded sum of rate times the income
   * inside each bracket.
   */
  lemma BeforeCreditsIsBracketSum(raw: RawTables, year: int, taxableIncome: real, status: Status)
    requires AscendingFrom(ScheduleOf(raw, year, status), 0.0)
    ensures BeforeCredits(raw, year, taxableIncome, status) ==
      Round(SliceSum(ScheduleOf(raw, year, status), taxableIncome, 0.0)) as real
  {
    BracketTaxIsSliceSum(ScheduleOf(raw, year, status), taxableIncome);
  }

  /** On an unoverridden year the tax is the rounded sum of rate times the income inside each bracket. */
  lemma BaselineBeforeCreditsIsBracketSum(raw: RawTables, year: int, taxableIncome: real, status: Status)
    requires !Overridden(raw, year)
    ensures BeforeCredits(raw, year, taxableIncome, status) ==
      Round(SliceSum(ScheduleOf(raw, year, status), taxableIncome, 0.0)) as real
  {
    var s := ScheduleOf(raw, year, status);
    BaselineSchedule(raw, year, status);
    BaseSchedulesWellFormed(status);
    BracketTaxIsSliceSum(s, taxableIncome);
  }

  /** Baseline single filer at exactly $11,600: the first bracket is filled and nothing remains. */
  lemma BaselineSingleAt11600(raw: RawTables, year: int)
    requires !Overridden(raw, year)
    ensures BeforeCredits(raw, year, 11600.0, Single) == 1160.0
  {
    BaselineSchedule(raw, year, Single);
    BaseSingleFirstBracket();
  }

  lemma BaseSingleFirstBracket()
    ensures Accumulate(BaseSingle, 11600.0, 0.0) == 1160.0
  {
    var s := BaseSingle;
    assert s[0..] == s;
    AccumulateLastBracket(s, 0, 11600.0, 0.0);
  }
}
