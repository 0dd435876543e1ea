/**
 * California tax by year (src/tax/caByYear.js): a 2024 baseline merged, per supported year,
 * with the year's override from the JSON tables; bracket tax with the 1% Mental Health
 * Services Tax; personal exemption and renter's credits.
 * The JSON document is the parameter `raw`, keyed by the year it names.
 */
module CAByYear {
  import opened Wrappers
  import opened Brackets

  /** `YEARS`: the years that get a merged table. */
  const Years: set<int> := {2020, 2021, 2022, 2023, 2024}

  /** A year table after normalisation; `Unbounded` is `Infinity`. */
  datatype Table = Table(
    brackets: map<Status, Schedule>,
    standardDeduction: map<Status, real>,
    personalExemptionCredit: map<Status, real>,
    rentersCreditAmount: map<Status, real>,
    rentersCreditIncomeLimit: map<Status, Bound>)

  /** One year of the JSON document; an absent field is an empty map. */
  datatype RawTable = RawTable(
    brackets: map<Status, Option<seq<RawBracket>>>,
    standardDeduction: map<Status, real>,
    personalExemptionCredit: map<Status, real>,
    rentersCreditAmount: map<Status, real>,
    rentersCreditIncomeLimit: map<Status, Option<real>>)

  type RawTables = map<int, RawTable>

  const BaseSingle: Schedule := [
    Bracket(Finite(10412.0), 0.01), Bracket(Finite(24684.0), 0.02), Bracket(Finite(38959.0), 0.04),
    Bracket(Finite(54081.0), 0.06), Bracket(Finite(68350.0), 0.08), Bracket(Finite(349137.0), 0.093),
    Bracket(Finite(418961.0), 0.1023), Bracket(Finite(698271.0), 0.113), Bracket(Unbounded, 0.123)]

  const BaseMarriedJoint: Schedule := [
    Bracket(Finite(20824.0), 0.01), Bracket(Finite(49368.0), 0.02), Bracket(Finite(77918.0), 0.04),
    Bracket(Finite(108162.0), 0.06), Bracket(Finite(136700.0), 0.08), Bracket(Finite(698274.0), 0.093),
    Bracket(Finite(837922.0), 0.1023), Bracket(Finite(1396542.0), 0.113), Bracket(Unbounded, 0.123)]

  const BaseHeadHousehold: Schedule := [
    Bracket(Finite(20824.0), 0.01), Bracket(Finite(32815.0), 0.02), Bracket(Finite(42792.0), 0.04),
    Bracket(Finite(54081.0), 0.06), Bracket(Finite(68350.0), 0.08), Bracket(Finite(349137.0), 0.093),
    Bracket(Finite(418961.0), 0.1023), Bracket(Finite(698271.0), 0.113), Bracket(Unbounded, 0.123)]

  /** The schedules of `BASE_2024`. */
  const BaseBrackets: map<Status, Schedule> :=
    map[Single := BaseSingle, MarriedJoint := BaseMarriedJoint, HeadHousehold := BaseHeadHousehold]

  /** `BASE_2024`; it has no `married_separate` or `qualifying_widow` schedule. */
  const Base2024: Table := Table(
    BaseBrackets,
    map[Single := 5363.0, MarriedSeparate := 5363.0, MarriedJoint := 10726.0,
        HeadHousehold := 10726.0, QualifyingWidow := 10726.0],
    map[Single := 146.0, MarriedSeparate := 146.0, MarriedJoint := 292.0,
        HeadHousehold := 292.0, QualifyingWidow := 292.0],
    map[Single := 60.0, MarriedSeparate := 60.0, MarriedJoint := 120.0,
        HeadHousehold := 120.0, QualifyingWidow := 120.0],
    map[Single := Unbounded, MarriedSeparate := Unbounded, MarriedJoint := Unbounded,
        HeadHousehold := Unbounded, QualifyingWidow := Unbounded])

  /** The override of a year with no JSON entry (it overrides nothing). */
  const NoOverride: Table := Table(map[], map[], map[], map[], map[])

  /** The JSON normalisation: `null` edges and `null` renter income limits become unbounded. */
  function Normalize(raw: RawTable): (t: Table)
    ensures t.brackets.Keys == raw.brackets.Keys
    ensures forall k :: k in raw.brackets ==> t.brackets[k] == NormalizeSchedule(raw.brackets[k])
    ensures t.standardDeduction == raw.standardDeduction
    ensures t.personalExemptionCredit == raw.personalExemptionCredit
    ensures t.rentersCreditAmount == raw.rentersCreditAmount
    ensures t.rentersCreditIncomeLimit.Keys == raw.rentersCreditIncomeLimit.Keys
    ensures forall k :: k in raw.rentersCreditIncomeLimit ==>
      t.rentersCreditIncomeLimit[k] == NormalizeBound(raw.rentersCreditIncomeLimit[k])
  {
    Table(
      NormalizeBrackets(raw.brackets),
      raw.standardDeduction,
      raw.personalExemptionCredit,
      raw.rentersCreditAmount,
      map k | k in raw.rentersCreditIncomeLimit :: NormalizeBound(raw.rentersCreditIncomeLimit[k]))
  }

  /**
   * A key-by-key merge of every field: a status key named in the
   * override replaces the baseline entry for that key; every other key keeps the baseline.
   */
  function Merge(base: Table, override: Table): Table
  {
    Table(
      base.brackets + override.brackets,
      base.standardDeduction + override.standardDeduction,
      base.personalExemptionCredit + override.personalExemptionCredit,
      base.rentersCreditAmount + override.rentersCreditAmount,
      base.rentersCreditIncomeLimit + override.rentersCreditIncomeLimit)
  }

  /** The normalised override of a year. */
  function OverrideFor(raw: RawTables, year: int): Table
  {
    if year in raw then Normalize(raw[year]) else NoOverride
  }

  /** `TABLES`: one merged table per supported year. */
  function Tables(raw: RawTables): map<int, Table>
  {
    YearTables(Years, y => Merge(Base2024, OverrideFor(raw, y)))
  }

  /** The table of a year: its merged table when the year is supported, the baseline otherwise. */
  function GetTables(raw: RawTables, year: int): (t: Table)
    ensures Single in t.brackets && MarriedJoint in t.brackets && HeadHousehold in t.brackets
    ensures Single in t.standardDeduction && Single in t.personalExemptionCredit
  {
    if year in Years then Merge(Base2024, OverrideFor(raw, year)) else Base2024
  }

  /** The table lookup reads the year's merged table when there is one, the baseline otherwise. */
  lemma GetTablesReadsStore(raw: RawTables, year: int)
    ensures GetTables(raw, year) == if year in Tables(raw) then Tables(raw)[year] else Base2024
  {
  }

  function StandardDeduction(raw: RawTables, year: int, status: Status): real
  {
    OrSingle(GetTables(raw, year).standardDeduction, status)
  }

  function PersonalExemptionCredit(raw: RawTables, year: int, status: Status): real
  {
    OrSingle(GetTables(raw, year).personalExemptionCredit, status)
  }

  /** `getCARentersCreditByYear`; a missing limit is unbounded and a missing amount is 0. */
  function RentersCredit(raw: RawTables, year: int, status: Status, isRenter: bool, estimatedAGI: real): real
  {
    if !isRenter then 0.0
    else
      var t := GetTables(raw, year);
      var limit := if status in t.rentersCreditIncomeLimit then t.rentersCreditIncomeLimit[status] else Unbounded;
      if Exceeds(estimatedAGI, limit) then 0.0
      else if status in t.rentersCreditAmount then t.rentersCreditAmount[status]
      else 0.0
  }

  /** The Mental Health Services Tax: 1% of taxable income above $1,000,000. */
  function MentalHealthSurtax(taxableIncome: real): real
  {
    if taxableIncome > 1000000.0 then (taxableIncome - 1000000.0) * 0.01 else 0.0
  }

  /** The schedule `calculateCATaxBeforeCreditsByYear` walks. */
  function ScheduleOf(raw: RawTables, year: int, status: Status): Schedule
  {
    ScheduleFor(GetTables(raw, year).brackets, status)
  }

  /** The bracket sum on a schedule plus the surtax, rounded with `Math.round`. */
  function TaxOnSchedule(brackets: Schedule, taxableIncome: real): real
  {
    Round(Accumulate(brackets, taxableIncome, 0.0) + MentalHealthSurtax(taxableIncome)) as real
  }

  /** What `calculateCATaxBeforeCreditsByYear` returns. */
  function BeforeCredits(raw: RawTables, year: int, taxableIncome: real, status: Status): real
  {
    TaxOnSchedule(ScheduleOf(raw, year, status), taxableIncome)
  }

  /** `options`: `!!options.isRenter` and `options.estimatedAGI` (absent when not supplied). */
  datatype Options = Options(isRenter: bool, estimatedAGI: Option<real>)

  /** `{ beforeCredits, personalCredit, rentersCredit, afterCredits }` */
  datatype Result = Result(beforeCredits: real, personalCredit: real, rentersCredit: real, afterCredits: real)

  /** What `calculateCAStateTaxByYear` returns. */
  function StateTax(raw: RawTables, year: int, taxableIncome: real, status: Status, options: Options): Result
  {
    var beforeCredits := BeforeCredits(raw, year, taxableIncome, status);
    var personalCredit := PersonalExemptionCredit(raw, year, status);
    var rentersCredit := RentersCredit(raw, year, status, options.isRenter, options.estimatedAGI.GetOr(taxableIncome));
    Result(beforeCredits, personalCredit, rentersCredit, Max(0.0, beforeCredits - personalCredit - rentersCredit))
  }

  method CalculateTaxBeforeCredits(raw: RawTables, year: int, taxableIncome: real, status: Status)
    returns (beforeCredits: real)
    ensures beforeCredits == BeforeCredits(raw, year, taxableIncome, status)
    ensures taxableIncome <= 0.0 ==> beforeCredits == 0.0
  {
    var tables := GetTables(raw, year);
    var brackets := ScheduleFor(tables.brackets, status);
    beforeCredits := ComputeTaxOnSchedule(brackets, taxableIncome);
  }

  /** The loop over the chosen schedule, the surtax and the rounding (lines 140-151 of the source). */
  method ComputeTaxOnSchedule(brackets: Schedule, taxableIncome: real) returns (beforeCredits: real)
    ensures beforeCredits == TaxOnSchedule(brackets, taxableIncome)
    ensures taxableIncome <= 0.0 ==> beforeCredits == 0.0
  {
    var tax := AccumulateBrackets(brackets, taxableIncome);
    if taxableIncome > 1000000.0 {
      tax := tax + (taxableIncome - 1000000.0) * 0.01;
    }
    beforeCredits := Round(tax) as real;
  }

  method CalculateStateTax(raw: RawTables, year: int, taxableIncome: real, status: Status, options: Options)
    returns (r: Result)
    ensures r == StateTax(raw, year, taxableIncome, status, options)
    ensures r.afterCredits >= 0.0
    ensures r.afterCredits == Max(0.0, r.beforeCredits - r.personalCredit - r.rentersCredit)
  {
    var beforeCredits := CalculateTaxBeforeCredits(raw, year, taxableIncome, status);
    var personalCredit := PersonalExemptionCredit(raw, year, status);
    var rentersCredit := RentersCredit(raw, year, status, options.isRenter, options.estimatedAGI.GetOr(taxableIncome));
    var afterCredits := Max(0.0, beforeCredits - personalCredit - rentersCredit);
    r := Result(beforeCredits, personalCredit, rentersCredit, afterCredits);
  }

  // ----- Properties of the table store -----

  /** Whether the JSON document overrides `year` at all. */
  predicate Overridden(raw: RawTables, year: int)
  {
    year in Years && year in raw
  }

  /** A year outside 2020–2024, or one without a JSON entry, gets the baseline exactly. */
  lemma BaselineFallback(raw: RawTables, year: int)
    requires !Overridden(raw, year)
    ensures GetTables(raw, year) == Base2024
  {
    if year in Years {
      MergeNothing(Base2024);
    }
  }

  /** The brackets of an overridden year: the JSON schedules laid over the baseline ones. */
  lemma OverriddenBrackets(raw: RawTables, year: int)
    requires Overridden(raw, year)
    ensures GetTables(raw, year).brackets == Base2024.brackets + NormalizeBrackets(raw[year].brackets)
  {
  }

  /** An unoverridden year picks its schedule from the baseline. */
  lemma BaselineSchedule(raw: RawTables, year: int, status: Status)
    requires !Overridden(raw, year)
    ensures ScheduleOf(raw, year, status) == ScheduleFor(Base2024.brackets, status)
  {
    BaselineFallback(raw, year);
  }

  lemma BaselineSingleSchedule(raw: RawTables, year: int)
    requires !Overridden(raw, year)
    ensures ScheduleOf(raw, year, Single) == BaseSingle
  {
    BaselineSchedule(raw, year, Single);
  }

  /** So the schedule of an unoverridden year is ascending with non-negative rates. */
  lemma BaselineScheduleWellFormed(raw: RawTables, year: int, status: Status)
    requires !Overridden(raw, year)
    ensures WellFormed(ScheduleOf(raw, year, status))
  {
    BaselineSchedule(raw, year, status);
    BaseSchedulesWellFormed(status);
  }

  /**
   * The merge, key by key: a status key named in the override takes the override's entry
   * (a whole schedule, for brackets); any other key keeps the baseline's.
   */
  lemma MergeEntry(base: Table, override: Table, k: Status)
    ensures var t := Merge(base, override);
      && (k in t.brackets <==> k in base.brackets || k in override.brackets)
      && (k in override.brackets ==> t.brackets[k] == override.brackets[k])
      && (k in base.brackets && k !in override.brackets ==> t.brackets[k] == base.brackets[k])
      && (k in t.standardDeduction <==> k in base.standardDeduction || k in override.standardDeduction)
      && (k in override.standardDeduction ==> t.standardDeduction[k] == override.standardDeduction[k])
      && (k in base.standardDeduction && k !in override.standardDeduction ==>
            t.standardDeduction[k] == base.standardDeduction[k])
      && (k in t.personalExemptionCredit <==> k in base.personalExemptionCredit || k in override.personalExemptionCredit)
      && (k in override.personalExemptionCredit ==> t.personalExemptionCredit[k] == override.personalExemptionCredit[k])
      && (k in base.personalExemptionCredit && k !in override.personalExemptionCredit ==>
            t.personalExemptionCredit[k] == base.personalExemptionCredit[k])
      && (k in t.rentersCreditAmount <==> k in base.rentersCreditAmount || k in override.rentersCreditAmount)
      && (k in override.rentersCreditAmount ==> t.rentersCreditAmount[k] == override.rentersCreditAmount[k])
      && (k in base.rentersCreditAmount && k !in override.rentersCreditAmount ==>
            t.rentersCreditAmount[k] == base.rentersCreditAmount[k])
      && (k in t.rentersCreditIncomeLimit <==> k in base.rentersCreditIncomeLimit || k in override.rentersCreditIncomeLimit)
      && (k in override.rentersCreditIncomeLimit ==> t.rentersCreditIncomeLimit[k] == override.rentersCreditIncomeLimit[k])
      && (k in base.rentersCreditIncomeLimit && k !in override.rentersCreditIncomeLimit ==>
            t.rentersCreditIncomeLimit[k] == base.rentersCreditIncomeLimit[k])
  {
  }

  /** Merging an empty override changes nothing. */
  lemma MergeNothing(t: Table)
    ensures Merge(t, NoOverride) == t
  {
    var m := Merge(t, NoOverride);
    assert m.brackets == t.brackets;
    assert m.standardDeduction == t.standardDeduction;
    assert m.personalExemptionCredit == t.personalExemptionCredit;
    assert m.rentersCreditAmount == t.rentersCreditAmount;
    assert m.rentersCreditIncomeLimit == t.rentersCreditIncomeLimit;
  }

  /** Which layer supplies the standard deduction: the year's override, the baseline, or `single`. */
  lemma StandardDeductionLayers(raw: RawTables, year: int, status: Status)
    ensures StandardDeduction(raw, year, status) ==
      var over := if Overridden(raw, year) then raw[year].standardDeduction else map[];
      var base := Base2024.standardDeduction;
      if status in over then over[status]
      else if status in base then base[status]
      else if Single in over then over[Single]
      else base[Single]
  {
    if Overridden(raw, year) {
      OrSingleOverMerge(Base2024.standardDeduction, raw[year].standardDeduction, status);
    } else {
      BaselineFallback(raw, year);
    }
  }

  /** Which layer supplies the personal exemption credit. */
  lemma PersonalExemptionCreditLayers(raw: RawTables, year: int, status: Status)
    ensures PersonalExemptionCredit(raw, year, status) ==
      var over := if Overridden(raw, year) then raw[year].personalExemptionCredit else map[];
      var base := Base2024.personalExemptionCredit;
      if status in over then over[status]
      else if status in base then base[status]
      else if Single in over then over[Single]
      else base[Single]
  {
    if Overridden(raw, year) {
      OrSingleOverMerge(Base2024.personalExemptionCredit, raw[year].personalExemptionCredit, status);
    } else {
      BaselineFallback(raw, year);
    }
  }

  /** A status the tables do not know falls back to the `single` deduction and credit. */
  lemma UnknownStatusUsesSingle(raw: RawTables, year: int, status: Status)
    requires status !in Base2024.standardDeduction
    requires Overridden(raw, year) ==>
      status !in raw[year].standardDeduction && status !in raw[year].personalExemptionCredit
    ensures StandardDeduction(raw, year, status) == StandardDeduction(raw, year, Single)
    ensures PersonalExemptionCredit(raw, year, status) == PersonalExemptionCredit(raw, year, Single)
  {
    StandardDeductionLayers(raw, year, status);
    StandardDeductionLayers(raw, year, Single);
    PersonalExemptionCreditLayers(raw, year, status);
    PersonalExemptionCreditLayers(raw, year, Single);
  }

  /** A bracket schedule named in the override replaces the baseline one for that status only. */
  lemma ScheduleLayers(raw: RawTables, year: int, status: Status)
    requires status != QualifyingWidow
    ensures ScheduleOf(raw, year, status) ==
      var over := if Overridden(raw, year) then NormalizeBrackets(raw[year].brackets) else map[];
      var base := Base2024.brackets;
      if status in over then over[status]
      else if status in base then base[status]
      else if Single in over then over[Single]
      else base[Single]
  {
    if !Overridden(raw, year) {
      BaselineFallback(raw, year);
    }
  }

  // ----- Properties of the calculator -----

  /** `qualifying_widow` is taxed on the `married_joint` schedule, whatever the override. */
  lemma WidowUsesMarriedJoint(raw: RawTables, year: int, taxableIncome: real)
    ensures ScheduleOf(raw, year, QualifyingWidow) == ScheduleOf(raw, year, MarriedJoint)
    ensures BeforeCredits(raw, year, taxableIncome, QualifyingWidow)
         == BeforeCredits(raw, year, taxableIncome, MarriedJoint)
  {
  }

  /** `married_separate` has no California schedule of its own, so it is taxed as `single`. */
  /**
   * Whenever the year's JSON adds no `married_separate` brackets, separate filers are taxed on
   * whatever `single` schedule the year has, baseline or override.
   */
  lemma MarriedSeparateFallsBackToSingle(raw: RawTables, year: int, taxableIncome: real)
    requires Overridden(raw, year) ==> MarriedSeparate !in raw[year].brackets
    ensures ScheduleOf(raw, year, MarriedSeparate) == ScheduleOf(raw, year, Single)
    ensures BeforeCredits(raw, year, taxableIncome, MarriedSeparate)
         == BeforeCredits(raw, year, taxableIncome, Single)
  {
    ScheduleLayers(raw, year, MarriedSeparate);
    ScheduleLayers(raw, year, Single);
  }

  lemma MarriedSeparateUsesSingle(raw: RawTables, year: int, taxableIncome: real)
    requires Overridden(raw, year) ==>
      MarriedSeparate !in raw[year].brackets && Single !in raw[year].brackets
    ensures ScheduleOf(raw, year, MarriedSeparate) == BaseSingle
    ensures BeforeCredits(raw, year, taxableIncome, MarriedSeparate)
         == BeforeCredits(raw, year, taxableIncome, Single)
  {
    ScheduleLayers(raw, year, MarriedSeparate);
    ScheduleLayers(raw, year, Single);
  }

  // The calculator on an arbitrary schedule; the table-level lemmas below instantiate these.

  lemma TaxOnScheduleNonPositive(brackets: Schedule, taxableIncome: real)
    requires taxableIncome <= 0.0
    ensures TaxOnSchedule(brackets, taxableIncome) == 0.0
  {
    AccumulateNothingRemaining(brackets, taxableIncome, 0.0);
  }

  lemma TaxOnScheduleNonNegative(brackets: Schedule, taxableIncome: real)
    requires NonNegativeRates(brackets)
    ensures TaxOnSchedule(brackets, taxableIncome) >= 0.0
  {
    AccumulateNonNegative(brackets, taxableIncome, 0.0);
  }

  lemma TaxOnScheduleMonotone(brackets: Schedule, x: real, y: real)
    requires NonNegativeRates(brackets)
    requires x <= y
    ensures TaxOnSchedule(brackets, x) <= TaxOnSchedule(brackets, y)
  {
    AccumulateMonotone(brackets, x, y, 0.0);
    RoundMonotone(Accumulate(brackets, x, 0.0) + MentalHealthSurtax(x),
                  Accumulate(brackets, y, 0.0) + MentalHealthSurtax(y));
  }

  lemma TaxOnScheduleIsBracketSum(brackets: Schedule, taxableIncome: real)
    requires AscendingFrom(brackets, 0.0)
    ensures TaxOnSchedule(brackets, taxableIncome) ==
      Round(SliceSum(brackets, taxableIncome, 0.0) + MentalHealthSurtax(taxableIncome)) as real
  {
    BracketTaxIsSliceSum(brackets, taxableIncome);
  }

  /** Taxable income at or below zero gives no tax before credits. */
  lemma BeforeCreditsNonPositiveIncome(raw: RawTables, year: int, taxableIncome: real, status: Status)
    requires taxableIncome <= 0.0
    ensures BeforeCredits(raw, year, taxableIncome, status) == 0.0
  {
    TaxOnScheduleNonPositive(ScheduleOf(raw, year, status), taxableIncome);
  }

  /** No bracket rate in the JSON document is negative. */
  predicate RawRatesNonNegative(raw: RawTables)
  {
    forall y, k :: y in raw && k in raw[y].brackets ==> RawScheduleNonNegative(raw[y].brackets[k])
  }

  /** Every baseline schedule is well formed. */
  lemma BaseBracketsWellFormed()
    ensures forall k :: k in BaseBrackets ==> WellFormed(BaseBrackets[k])
  {
    BaseSingleWellFormed();
    BaseMarriedJointWellFormed();
    BaseHeadHouseholdWellFormed();
  }

  /** So is every schedule the calculator can pick from the baseline. */
  lemma BaseSchedulesWellFormed(status: Status)
    ensures WellFormed(ScheduleFor(Base2024.brackets, status))
  {
    BaseBracketsWellFormed();
    ScheduleForWellFormed(BaseBrackets, status);
  }

  lemma BaseSingleWellFormed()
    ensures NonNegativeRates(BaseSingle) && AscendingFrom(BaseSingle, 0.0)
  {
  }

  lemma BaseMarriedJointWellFormed()
    ensures NonNegativeRates(BaseMarriedJoint) && AscendingFrom(BaseMarriedJoint, 0.0)
  {
  }

  lemma BaseHeadHouseholdWellFormed()
    ensures NonNegativeRates(BaseHeadHousehold) && AscendingFrom(BaseHeadHousehold, 0.0)
  {
  }

  /** The baseline's rates, for every status key it has. */
  lemma BaseRatesNonNegative()
    ensures forall k :: k in Base2024.brackets ==> NonNegativeRates(Base2024.brackets[k])
  {
  }

  /** With non-negative JSON rates, every schedule the calculator can pick has non-negative rates. */
  lemma ScheduleRatesNonNegative(raw: RawTables, year: int, status: Status)
    requires RawRatesNonNegative(raw)
    ensures NonNegativeRates(ScheduleOf(raw, year, status))
  {
    if Overridden(raw, year) {
      OverriddenBrackets(raw, year);
      BaseRatesNonNegative();
      var over := raw[year].brackets;
      assert forall k :: k in over ==> RawScheduleNonNegative(over[k]);
      MergedRatesNonNegative(Base2024.brackets, over, status);
    } else {
      BaselineSchedule(raw, year, status);
      BaseSchedulesWellFormed(status);
    }
  }

  /** For a fixed year and status, more taxable income never gives less tax before credits. */
  lemma BeforeCreditsMonotone(raw: RawTables, year: int, status: Status, x: real, y: real)
    requires RawRatesNonNegative(raw)
    requires x <= y
    ensures BeforeCredits(raw, year, x, status) <= BeforeCredits(raw, year, y, status)
  {
    ScheduleRatesNonNegative(raw, year, status);
    TaxOnScheduleMonotone(ScheduleOf(raw, year, status), x, y);
  }

  /**
   * On an ascending schedule the tax before credits is the rounded sum of rate times the
   * income inside each bracket, plus the surtax.
   */
  lemma BeforeCreditsIsBracketSum(raw: RawTables, year: int, taxableIncome: real, status: Status)
    requires AscendingFrom(ScheduleOf(raw, year, status), 0.0)
    ensures BeforeCredits(raw, year, taxableIncome, status) ==
      Round(SliceSum(ScheduleOf(raw, year, status), taxableIncome, 0.0) + MentalHealthSurtax(taxableIncome)) as real
  {
    TaxOnScheduleIsBracketSum(ScheduleOf(raw, year, status), taxableIncome);
  }

  /** The baseline schedules are ascending, so the bracket-sum reading holds for every unoverridden year. */
  lemma BaselineBeforeCreditsIsBracketSum(raw: RawTables, year: int, taxableIncome: real, status: Status)
    requires !Overridden(raw, year)
    ensures BeforeCredits(raw, year, taxableIncome, status) ==
      Round(SliceSum(ScheduleOf(raw, year, status), taxableIncome, 0.0) + MentalHealthSurtax(taxableIncome)) as real
  {
    BaselineScheduleWellFormed(raw, year, status);
    BeforeCreditsIsBracketSum(raw, year, taxableIncome, status);
  }

  /** The surtax adds nothing up to $1,000,000, is continuous there, and grows by 1% of each dollar above. */
  lemma SurtaxThreshold(x: real, y: real)
    requires x <= y
    ensures x <= 1000000.0 ==> MentalHealthSurtax(x) == 0.0
    ensures MentalHealthSurtax(y) - MentalHealthSurtax(x) == (Max(y, 1000000.0) - Max(x, 1000000.0)) * 0.01
  {
  }

  /** Baseline single filer at $1,200,000: the surtax adds exactly $2,000 to the bracket sum before rounding. */
  lemma SurtaxScenario(raw: RawTables, year: int)
    requires !Overridden(raw, year)
    ensures MentalHealthSurtax(1200000.0) == 2000.0
    ensures BeforeCredits(raw, year, 1200000.0, Single) == 131540.0
  {
    BaselineSingleAt1200000();
    BaselineSingleSchedule(raw, year);
  }

  /** The baseline single bracket sum at $1,200,000, and the total once the surtax is added and rounded. */
  lemma BaselineSingleAt1200000()
    ensures Accumulate(BaseSingle, 1200000.0, 0.0) == 129540.2832
    ensures TaxOnSchedule(BaseSingle, 1200000.0) == 131540.0
  {
    BaselineSingleBrackets(1200000.0);
  }

  /** The baseline single schedule, unfolded bracket by bracket, for incomes in its top bracket. */
  lemma BaselineSingleBrackets(x: real)
    requires x > 698271.0
    ensures Accumulate(BaseSingle, x, 0.0) ==
      104.12 + 285.44 + 571.0 + 907.32 + 1141.52 + 26113.191 + 7142.9952 + 31562.03 + (x - 698271.0) * 0.123
  {
    var s := BaseSingle;
    assert s[0..] == s;
    AccumulateFullBracket(s, 0, x, 0.0);
    AccumulateFullBracket(s, 1, x - 10412.0, 10412.0);
    AccumulateFullBracket(s, 2, x - 24684.0, 24684.0);
    AccumulateFullBracket(s, 3, x - 38959.0, 38959.0);
    AccumulateFullBracket(s, 4, x - 54081.0, 54081.0);
    AccumulateFullBracket(s, 5, x - 68350.0, 68350.0);
    AccumulateFullBracket(s, 6, x - 349137.0, 349137.0);
    AccumulateFullBracket(s, 7, x - 418961.0, 418961.0);
    AccumulateTopBracket(s, 8, x - 698271.0, 698271.0);
  }

  // ----- Properties of the credits -----

  /** The renter's credit is paid only to a renter whose estimated AGI is within the status's limit. */
  lemma RentersCreditEligibility(raw: RawTables, year: int, status: Status, isRenter: bool, estimatedAGI: real)
    ensures !isRenter ==> RentersCredit(raw, year, status, isRenter, estimatedAGI) == 0.0
    ensures
      var t := GetTables(raw, year);
      isRenter && status in t.rentersCreditIncomeLimit && Exceeds(estimatedAGI, t.rentersCreditIncomeLimit[status])
      ==> RentersCredit(raw, year, status, isRenter, estimatedAGI) == 0.0
    ensures
      var t := GetTables(raw, year);
      isRenter && status !in t.rentersCreditIncomeLimit && status in t.rentersCreditAmount
      ==> RentersCredit(raw, year, status, isRenter, estimatedAGI) == t.rentersCreditAmount[status]
    ensures
      var t := GetTables(raw, year);
      isRenter && status in t.rentersCreditIncomeLimit && !Exceeds(estimatedAGI, t.rentersCreditIncomeLimit[status])
      && status in t.rentersCreditAmount
      ==> RentersCredit(raw, year, status, isRenter, estimatedAGI) == t.rentersCreditAmount[status]
    ensures status !in GetTables(raw, year).rentersCreditAmount ==> RentersCredit(raw, year, status, isRenter, estimatedAGI) == 0.0
  {
  }

  /** A JSON `null` renter income limit is no limit at all: every AGI qualifies. */
  lemma NullIncomeLimitIsUnbounded(raw: RawTables, year: int, status: Status, estimatedAGI: real)
    requires Overridden(raw, year)
    requires status in raw[year].rentersCreditIncomeLimit && raw[year].rentersCreditIncomeLimit[status].None?
    requires status in raw[year].rentersCreditAmount
    ensures RentersCredit(raw, year, status, true, estimatedAGI) == raw[year].rentersCreditAmount[status]
  {
    var t := GetTables(raw, year);
    assert t.rentersCreditIncomeLimit[status] == Unbounded;
    assert t.rentersCreditAmount[status] == raw[year].rentersCreditAmount[status];
  }

  /**
   * The credits are subtracted once with a floor at zero; the record carries the components used,
   * and a caller that supplies no AGI estimate has the taxable income used as one.
   */
  lemma StateTaxComposition(raw: RawTables, year: int, taxableIncome: real, status: Status, options: Options)
    ensures
      var r := StateTax(raw, year, taxableIncome, status, options);
      && r.afterCredits >= 0.0
      && (r.beforeCredits >= r.personalCredit + r.rentersCredit ==>
            r.afterCredits == r.beforeCredits - r.personalCredit - r.rentersCredit)
      && (r.beforeCredits < r.personalCredit + r.rentersCredit ==> r.afterCredits == 0.0)
      && r.personalCredit == PersonalExemptionCredit(raw, year, status)
      && r.rentersCredit == RentersCredit(raw, year, status, options.isRenter,
                                          if options.estimatedAGI.Some? then options.estimatedAGI.value else taxableIncome)
  {
  }

  /** On an unoverridden year every filing status has a non-negative credit, so the credits never raise the tax. */
  lemma BaselineCreditsLowerTax(raw: RawTables, year: int, taxableIncome: real, status: Status, options: Options)
    requires !Overridden(raw, year)
    ensures
      var r := StateTax(raw, year, taxableIncome, status, options);
      0.0 <= r.afterCredits <= r.beforeCredits
  {
    BaselineScheduleWellFormed(raw, year, status);
    TaxOnScheduleNonNegative(ScheduleOf(raw, year, status), taxableIncome);
    BaselineCreditsNonNegative(raw, year, status, options.isRenter, options.estimatedAGI.GetOr(taxableIncome));
  }

  /** The baseline's credits are never negative. */
  lemma BaselineCreditsNonNegative(raw: RawTables, year: int, status: Status, isRenter: bool, estimatedAGI: real)
    requires !Overridden(raw, year)
    ensures PersonalExemptionCredit(raw, year, status) >= 0.0
    ensures RentersCredit(raw, year, status, isRenter, estimatedAGI) >= 0.0
  {
    BaselineFallback(raw, year);
    BaseCreditsNonNegative(status);
  }

  /** Every credit amount in the baseline is non-negative. */
  lemma BaseCreditsNonNegative(status: Status)
    ensures OrSingle(Base2024.personalExemptionCredit, status) >= 0.0
    ensures status in Base2024.rentersCreditAmount ==> Base2024.rentersCreditAmount[status] >= 0.0
  {
  }
}
