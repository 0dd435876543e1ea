/**
 * The older, table-free California 2024 engine (src/tax/ca2024.js): fixed schedules, `switch`
 * lookups for the deduction and the personal credit, and the same loop, surtax and rounding
 * as the by-year engine.
 */
module CA2024 {
  import opened Wrappers
  import opened Brackets
  import CAByYear

  const SingleSchedule: Schedule := [
    Bracket(Finite(10412.0), 0.01), Bracket(Finite(24684.0), 0.02), Bracket(Finite(38959.0), 0.04),
    Bracket(Finite(54081.0), 0.06), Bracket(Finite(68350.0), 0.08), Bracket(Finite(349137.0), 0.093),
    Bracket(Finite(418961.0), 0.1023), Bracket(Finite(698271.0), 0.113), Bracket(Unbounded, 0.123)]

  const MarriedJointSchedule: Schedule := [
    Bracket(Finite(20824.0), 0.01), Bracket(Finite(49368.0), 0.02), Bracket(Finite(77918.0), 0.04),
    Bracket(Finite(108162.0), 0.06), Bracket(Finite(136700.0), 0.08), Bracket(Finite(698274.0), 0.093),
    Bracket(Finite(837922.0), 0.1023), Bracket(Finite(1396542.0), 0.113), Bracket(Unbounded, 0.123)]

  const HeadHouseholdSchedule: Schedule := [
    Bracket(Finite(20824.0), 0.01), Bracket(Finite(32815.0), 0.02), Bracket(Finite(42792.0), 0.04),
    Bracket(Finite(54081.0), 0.06), Bracket(Finite(68350.0), 0.08), Bracket(Finite(349137.0), 0.093),
    Bracket(Finite(418961.0), 0.1023), Bracket(Finite(698271.0), 0.113), Bracket(Unbounded, 0.123)]

  /** `BRACKETS`; the `qualifying_widow` entry is `null`. */
  const Schedules: map<Status, Option<Schedule>> := map[
    Single := Some(SingleSchedule), MarriedJoint := Some(MarriedJointSchedule),
    HeadHousehold := Some(HeadHouseholdSchedule), QualifyingWidow := None]

  /** `RENTERS_CREDIT_AMOUNT` */
  const RentersCreditAmount: map<Status, real> := map[
    Single := 60.0, MarriedSeparate := 60.0, MarriedJoint := 120.0, HeadHousehold := 120.0, QualifyingWidow := 120.0]

  /** `RENTERS_CREDIT_INCOME_LIMIT`: every limit is `Infinity`. */
  const RentersCreditIncomeLimit: map<Status, Bound> := map[
    Single := Unbounded, MarriedSeparate := Unbounded, MarriedJoint := Unbounded,
    HeadHousehold := Unbounded, QualifyingWidow := Unbounded]

  /** `getCAStandardDeduction` */
  function StandardDeduction(status: Status): real
  {
    match status
    case MarriedJoint | HeadHousehold | QualifyingWidow => 10726.0
    case _ => 5363.0
  }

  /** `getCAPersonalExemptionCredit` */
  function PersonalExemptionCredit(status: Status): real
  {
    match status
    case MarriedJoint | HeadHousehold | QualifyingWidow => 292.0
    case _ => 146.0
  }

  /** `getCARentersCredit`: a missing limit is `Infinity`, a missing amount 0. */
  function RentersCredit(status: Status, isRenter: bool, estimatedAGI: real): real
  {
    if !isRenter then 0.0
    else
      var limit := if status in RentersCreditIncomeLimit then RentersCreditIncomeLimit[status] else Unbounded;
      if Exceeds(estimatedAGI, limit) then 0.0
      else if status in RentersCreditAmount then RentersCreditAmount[status]
      else 0.0
  }

  /**
   * Widow(er)s use the joint brackets, a listed status its own;
   * a missing or `null` entry falls back to `single`.
   */
  function ScheduleOf(status: Status): Schedule
  {
    if status == QualifyingWidow then MarriedJointSchedule
    else if status in Schedules && Schedules[status].Some? then Schedules[status].value
    else SingleSchedule
  }

  /** What `calculateCATaxBeforeCredits` returns: the loop, the surtax and `Math.round`. */
  function BeforeCredits(taxableIncome: real, status: Status): real
  {
    CAByYear.TaxOnSchedule(ScheduleOf(status), taxableIncome)
  }

  /** What `calculateCAStateTax` returns. */
  function StateTax(taxableIncome: real, status: Status, options: CAByYear.Options): CAByYear.Result
  {
    var beforeCredits := BeforeCredits(taxableIncome, status);
    var personalCredit := PersonalExemptionCredit(status);
    var rentersCredit := RentersCredit(status, options.isRenter, options.estimatedAGI.GetOr(taxableIncome));
    CAByYear.Result(beforeCredits, personalCredit, rentersCredit, Max(0.0, beforeCredits - personalCredit - rentersCredit))
  }

  method CalculateTaxBeforeCredits(taxableIncome: real, status: Status) returns (beforeCredits: real)
    ensures beforeCredits == BeforeCredits(taxableIncome, status)
    ensures taxableIncome <= 0.0 ==> beforeCredits == 0.0
  {
    var brackets := ScheduleOf(status);
    beforeCredits := CAByYear.ComputeTaxOnSchedule(brackets, taxableIncome);
  }

  method CalculateStateTax(taxableIncome: real, status: Status, options: CAByYear.Options) returns (r: CAByYear.Result)
    ensures r == StateTax(taxableIncome, status, options)
    ensures r.afterCredits >= 0.0
    ensures r.afterCredits == Max(0.0, r.beforeCredits - r.personalCredit - r.rentersCredit)
  {
    var beforeCredits := CalculateTaxBeforeCredits(taxableIncome, status);
    var personalCredit := PersonalExemptionCredit(status);
    var rentersCredit := RentersCredit(status, options.isRenter, options.estimatedAGI.GetOr(taxableIncome));
    r := CAByYear.Result(beforeCredits, personalCredit, rentersCredit, Max(0.0, beforeCredits - personalCredit - rentersCredit));
  }

  // ----- Properties -----

  /** The three statuses with the larger deduction and credit; everything else, unknown keys included, gets the smaller. */
  predicate JointLike(status: Status)
  {
    status == MarriedJoint || status == HeadHousehold || status == QualifyingWidow
  }

  /** The deduction and the personal credit: the larger figure exactly for the three joint-like statuses. */
  lemma DeductionAndCreditByStatus(status: Status)
    ensures StandardDeduction(status) == (if JointLike(status) then 10726.0 else 5363.0)
    ensures PersonalExemptionCredit(status) == (if JointLike(status) then 292.0 else 146.0)
  {
  }

  /** A renter gets 60 or 120 by status whatever the AGI, since no limit is finite; an unknown status gets 0. */
  lemma RentersCreditByStatus(status: Status, estimatedAGI: real)
    ensures RentersCredit(status, false, estimatedAGI) == 0.0
    ensures RentersCredit(status, true, estimatedAGI) ==
      if status.Other? then 0.0 else if JointLike(status) then 120.0 else 60.0
  {
  }

  /** `qualifying_widow` uses the `married_joint` schedule; `married_separate` and unknown statuses use `single`. */
  lemma ScheduleChoice(status: Status)
    ensures status == QualifyingWidow ==> ScheduleOf(status) == MarriedJointSchedule
    ensures status == MarriedSeparate || status.Other? ==> ScheduleOf(status) == SingleSchedule
    ensures status == Single ==> ScheduleOf(status) == SingleSchedule
    ensures status == MarriedJoint ==> ScheduleOf(status) == MarriedJointSchedule
    ensures status == HeadHousehold ==> ScheduleOf(status) == HeadHouseholdSchedule
  {
  }

  /** A single filer with $60,000 taxable income who does not rent. */
  lemma SingleAt60000()
    ensures StateTax(60000.0, Single, CAByYear.Options(false, None)) == CAByYear.Result(2341.0, 146.0, 0.0, 2195.0)
  {
    SingleBracketsAt60000();
    assert BeforeCredits(60000.0, Single) == 2341.0;
  }

  /** The bracket sum before rounding: four brackets filled, 5,919 dollars in the fifth. */
  lemma SingleBracketsAt60000()
    ensures Accumulate(SingleSchedule, 60000.0, 0.0) == 2341.4
    ensures CAByYear.TaxOnSchedule(SingleSchedule, 60000.0) == 2341.0
  {
    var s := SingleSchedule;
    assert s[0..] == s;
    AccumulateFullBracket(s, 0, 60000.0, 0.0);
    AccumulateFullBracket(s, 1, 60000.0 - 10412.0, 10412.0);
    AccumulateFullBracket(s, 2, 60000.0 - 24684.0, 24684.0);
    AccumulateFullBracket(s, 3, 60000.0 - 38959.0, 38959.0);
    AccumulateLastBracket(s, 4, 60000.0 - 54081.0, 54081.0);
  }

  /** The fixed schedules are, bracket for bracket, those of the by-year engine's baseline. */
  lemma SchedulesMatchBaseline()
    ensures SingleSchedule == CAByYear.BaseSingle
    ensures MarriedJointSchedule == CAByYear.BaseMarriedJoint
    ensures HeadHouseholdSchedule == CAByYear.BaseHeadHousehold
  {
  }

  lemma ScheduleMatchesBaseline(status: Status)
    ensures ScheduleOf(status) == ScheduleFor(CAByYear.Base2024.brackets, status)
  {
    SchedulesMatchBaseline();
  }

  /** The `switch` figures are the baseline's tables read with the `single` fallback. */
  lemma CreditsMatchBaseline(status: Status)
    ensures StandardDeduction(status) == OrSingle(CAByYear.Base2024.standardDeduction, status)
    ensures PersonalExemptionCredit(status) == OrSingle(CAByYear.Base2024.personalExemptionCredit, status)
    ensures RentersCreditAmount == CAByYear.Base2024.rentersCreditAmount
    ensures RentersCreditIncomeLimit == CAByYear.Base2024.rentersCreditIncomeLimit
  {
  }

  /**
   * Where the by-year tables are the unoverridden baseline, the two engines agree on every input:
   * same deduction, same tax before credits, same credits, same result.
   */
  lemma AgreesWithBaseline(raw: CAByYear.RawTables, year: int, taxableIncome: real, status: Status, options: CAByYear.Options)
    requires !CAByYear.Overridden(raw, year)
    ensures StandardDeduction(status) == CAByYear.StandardDeduction(raw, year, status)
    ensures StateTax(taxableIncome, status, options) == CAByYear.StateTax(raw, year, taxableIncome, status, options)
  {
    var agi := options.estimatedAGI.GetOr(taxableIncome);
    CreditsAgree(raw, year, status, options.isRenter, agi);
    BeforeCreditsAgree(raw, year, taxableIncome, status);
  }

  lemma BeforeCreditsAgree(raw: CAByYear.RawTables, year: int, taxableIncome: real, status: Status)
    requires !CAByYear.Overridden(raw, year)
    ensures BeforeCredits(taxableIncome, status) == CAByYear.BeforeCredits(raw, year, taxableIncome, status)
  {
    CAByYear.BaselineSchedule(raw, year, status);
    ScheduleMatchesBaseline(status);
  }

  lemma CreditsAgree(raw: CAByYear.RawTables, year: int, status: Status, isRenter: bool, estimatedAGI: real)
    requires !CAByYear.Overridden(raw, year)
    ensures StandardDeduction(status) == CAByYear.StandardDeduction(raw, year, status)
    ensures PersonalExemptionCredit(status) == CAByYear.PersonalExemptionCredit(raw, year, status)
    ensures RentersCredit(status, isRenter, estimatedAGI) == CAByYear.RentersCredit(raw, year, status, isRenter, estimatedAGI)
  {
    CAByYear.BaselineFallback(raw, year);
    CreditsMatchBaseline(status);
  }

  /** Every fixed schedule is ascending with non-negative rates. */
  lemma SchedulesWellFormed(status: Status)
    ensures WellFormed(ScheduleOf(status))
  {
    ScheduleMatchesBaseline(status);
    CAByYear.BaseSchedulesWellFormed(status);
  }

  /** More taxable income never gives less tax before credits. */
  lemma BeforeCreditsMonotone(status: Status, x: real, y: real)
    requires x <= y
    ensures BeforeCredits(x, status) <= BeforeCredits(y, status)
  {
    SchedulesWellFormed(status);
    CAByYear.TaxOnScheduleMonotone(ScheduleOf(status), x, y);
  }

  /** The tax before credits is the rounded sum of rate times the income inside each bracket, plus the surtax. */
  lemma BeforeCreditsIsBracketSum(taxableIncome: real, status: Status)
    ensures BeforeCredits(taxableIncome, status) ==
      Round(SliceSum(ScheduleOf(status), taxableIncome, 0.0) + CAByYear.MentalHealthSurtax(taxableIncome)) as real
  {
    SchedulesWellFormed(status);
    CAByYear.TaxOnScheduleIsBracketSum(ScheduleOf(status), taxableIncome);
  }
}
