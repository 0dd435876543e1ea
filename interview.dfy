/**
 * The interview page (pages/Interview.jsx): five steps, the form data the steps edit, and the
 * stored return that saving and completion update.  The awaited storage calls are sequential
 * updates of the `taxReturn` field; what storage sends back is what was sent.
 */
module Interview {
  import opened Wrappers
  import opened Brackets
  import opened FormData
  import CAByYear
  import FederalByYear
  import Review

  /** `STEPS` by id. */
  const Steps: seq<string> := ["personal", "income", "deductions", "california", "review"]

  /** The last step's index, `STEPS.length - 1`. */
  const LastStep: int := |Steps| - 1

  /** A stored return's `status`. */
  datatype ReturnStatus = Draft | InProgress | InReview | Completed

  function StatusText(s: ReturnStatus): string
  {
    match s
    case Draft => "draft"
    case InProgress => "in_progress"
    case InReview => "review"
    case Completed => "completed"
  }

  /** The stored strings name the statuses one to one. */
  lemma StatusTextInjective(a: ReturnStatus, b: ReturnStatus)
    ensures StatusText(a) == StatusText(b) ==> a == b
  {
  }

  /** `calculated_tax` */
  datatype CalculatedTax = CalculatedTax(federalTax: real, stateTax: real, totalTax: real, refundOwed: real)

  /** A stored return: its year, status, sections and (once completed) its calculation. */
  datatype TaxReturn = TaxReturn(taxYear: int, status: ReturnStatus, form: Form, calculatedTax: Option<CalculatedTax>)

  /** `{ ...deductions }` of a fresh return: the standard deduction is selected. */
  const DefaultDeductions: Section := [(StandardDeductionKey, Bool(true))]

  /** The California defaults: resident, twelve months, zero amounts, no renter's credit. */
  const DefaultCA: Section := [
    ("resident", Bool(true)), ("months_in_ca", Num(12.0)), ("ca_withholding", Num(0.0)),
    ("sdi_withheld", Num(0.0)), ("adjustments", Num(0.0)), ("renters_credit", Bool(false))]

  /** The form data before any return is loaded (lines 32-37). */
  const InitialForm: Form := map[
    "personal_info" := [], "income_info" := [], "deductions" := DefaultDeductions, "ca" := DefaultCA]

  /** The first name: everything before the first space. */
  function FirstWord(name: string): string
    decreases |name|
  {
    if name == [] || name[0] == ' ' then [] else [name[0]] + FirstWord(name[1..])
  }

  /** The last name: everything after the first space. */
  function OtherWords(name: string): string
    decreases |name|
  {
    if name == [] then [] else if name[0] == ' ' then name[1..] else OtherWords(name[1..])
  }

  /** The two name parts put back together with the space give the name again. */
  lemma {:induction false} NameSplit(name: string)
    ensures ' ' in name ==> name == FirstWord(name) + " " + OtherWords(name)
    ensures ' ' !in name ==> FirstWord(name) == name && OtherWords(name) == ""
    ensures ' ' !in FirstWord(name)
    decreases |name|
  {
    if name != [] && name[0] != ' ' {
      NameSplit(name[1..]);
      assert name == [name[0]] + name[1..];
    }
  }

  /** The `personal_info` of a fresh return, from the user's name (empty when there is none). */
  function FreshPersonalInfo(name: string): Section
  {
    [("first_name", Str(FirstWord(name))), ("last_name", Str(OtherWords(name)))]
  }

  /** The California taxable income of `completeReturn`: `max(0, total − deduction + adjustments)`. */
  function CompletionTaxableIncome(form: Form, year: int, caRaw: CAByYear.RawTables): real
  {
    var standardDed := CAByYear.StandardDeduction(caRaw, year, FilingStatus(form));
    var deductionAmount := ChosenDeduction(SectionOf(form, "deductions"), standardDed);
    Max(0.0, TotalIncome(form) - deductionAmount + AsNumber(Field(form, "ca", "adjustments")))
  }

  /** The California engine's result in `completeReturn`, with the total income as the AGI estimate. */
  function CompletionStateTax(form: Form, year: int, caRaw: CAByYear.RawTables): CAByYear.Result
  {
    CAByYear.StateTax(caRaw, year, CompletionTaxableIncome(form, year, caRaw), FilingStatus(form),
                      CAByYear.Options(Truthy(Field(form, "ca", "renters_credit")), Some(TotalIncome(form))))
  }

  /**
   * The arithmetic of `completeReturn` (lines 133-160): a flat 22% federal figure on the
   * California taxable income, the engine's tax after credits, and refund = CA withholding − CA tax.
   */
  function Completion(form: Form, year: int, caRaw: CAByYear.RawTables): CalculatedTax
  {
    var federalTax := Round(CompletionTaxableIncome(form, year, caRaw) * 0.22) as real;
    var caTax := CompletionStateTax(form, year, caRaw).afterCredits;
    var withholding := AsNumber(Field(form, "ca", "ca_withholding"));
    CalculatedTax(federalTax, caTax, federalTax + caTax, withholding - caTax)
  }

  /** The status `saveProgress` writes: `'review'` on the last step, `'in_progress'` before it. */
  function SavedStatus(step: int): (s: ReturnStatus)
    ensures s == InReview <==> step == LastStep
    ensures s != Completed
  {
    if step == LastStep then InReview else InProgress
  }

  /** A store update with the form, a status and a year: the form's sections replace the stored ones. */
  function Updated(ret: TaxReturn, form: Form, status: ReturnStatus, year: int): TaxReturn
  {
    ret.(form := ret.form + form, status := status, taxYear := year)
  }

  /** The return `completeReturn` stores: the form, `'completed'`, the year and the calculation. */
  function CompletedReturn(ret: TaxReturn, form: Form, year: int, caRaw: CAByYear.RawTables): TaxReturn
  {
    Updated(ret, form, Completed, year).(calculatedTax := Some(Completion(form, year, caRaw)))
  }

  /** The update writes the status and year, keeps the calculation, and replaces only the sections sent. */
  lemma UpdatedReads(ret: TaxReturn, form: Form, status: ReturnStatus, year: int, name: string)
    ensures var r := Updated(ret, form, status, year);
      && r.status == status && r.taxYear == year && r.calculatedTax == ret.calculatedTax
      && (name in form ==> SectionOf(r.form, name) == form[name])
      && (name !in form ==> SectionOf(r.form, name) == SectionOf(ret.form, name))
  {
  }

  class Interview {
    var currentStep: int
    var selectedYear: int
    var formData: Form
    var taxReturn: Option<TaxReturn>

    /** The step is one of the five, and every section is an object. */
    ghost predicate Valid()
      reads this
    {
      0 <= currentStep <= LastStep && forall name :: name in formData ==> KeysDistinct(formData[name])
    }

    /** The page's initial state; the clock's year is a parameter. */
    constructor(currentYear: int)
      ensures Valid()
      ensures currentStep == 0 && selectedYear == currentYear && formData == InitialForm && taxReturn == None
    {
      currentStep := 0;
      selectedYear := currentYear;
      formData := InitialForm;
      taxReturn := None;
    }

    /** `initializeTaxReturn` when no return exists for the year: a new draft (lines 74-86). */
    method StartFresh(year: int, userName: string)
      requires Valid()
      modifies this
      ensures Valid()
      ensures currentStep == old(currentStep) && selectedYear == old(selectedYear)
      ensures taxReturn == Some(TaxReturn(year, Draft, map["personal_info" := FreshPersonalInfo(userName)], None))
      ensures formData == map["personal_info" := FreshPersonalInfo(userName), "income_info" := [],
                              "deductions" := DefaultDeductions, "ca" := DefaultCA]
    {
      var personalInfo := FreshPersonalInfo(userName);
      taxReturn := Some(TaxReturn(year, Draft, map["personal_info" := personalInfo], None));
      formData := map["personal_info" := personalInfo, "income_info" := [],
                      "deductions" := DefaultDeductions, "ca" := DefaultCA];
    }

    /** `initializeTaxReturn` with an existing return: its sections, or the defaults where it has none. */
    method LoadExisting(existing: TaxReturn)
      requires Valid()
      requires forall name :: name in existing.form ==> KeysDistinct(existing.form[name])
      modifies this
      ensures Valid()
      ensures currentStep == old(currentStep) && selectedYear == old(selectedYear)
      ensures taxReturn == Some(existing)
      ensures formData == map[
        "personal_info" := SectionOf(existing.form, "personal_info"),
        "income_info" := SectionOf(existing.form, "income_info"),
        "deductions" := if "deductions" in existing.form then existing.form["deductions"] else DefaultDeductions,
        "ca" := if "ca" in existing.form then existing.form["ca"] else DefaultCA]
    {
      taxReturn := Some(existing);
      formData := map[
        "personal_info" := SectionOf(existing.form, "personal_info"),
        "income_info" := SectionOf(existing.form, "income_info"),
        "deductions" := if "deductions" in existing.form then existing.form["deductions"] else DefaultDeductions,
        "ca" := if "ca" in existing.form then existing.form["ca"] else DefaultCA];
    }

    /** `saveProgress`: nothing without a return; otherwise the form, a status and the year are stored. */
    method SaveProgress()
      requires Valid()
      modifies this
      ensures Valid()
      ensures currentStep == old(currentStep) && selectedYear == old(selectedYear) && formData == old(formData)
      ensures old(taxReturn).None? ==> taxReturn == None
      ensures old(taxReturn).Some? ==>
        taxReturn == Some(Updated(old(taxReturn).value, formData, SavedStatus(currentStep), selectedYear))
    {
      if taxReturn.None? {
        return;
      }
      var updatedStatus := if currentStep == LastStep then InReview else InProgress;
      taxReturn := Some(Updated(taxReturn.value, formData, updatedStatus, selectedYear));
    }

    /** `completeReturn`: nothing without a return; otherwise the calculation is stored as completed. */
    method CompleteReturn(caRaw: CAByYear.RawTables)
      requires Valid()
      modifies this
      ensures Valid()
      ensures currentStep == old(currentStep) && selectedYear == old(selectedYear) && formData == old(formData)
      ensures old(taxReturn).None? ==> taxReturn == None
      ensures old(taxReturn).Some? ==>
        taxReturn == Some(CompletedReturn(old(taxReturn).value, formData, selectedYear, caRaw))
    {
      if taxReturn.None? {
        return;
      }
      var calculated := Completion(formData, selectedYear, caRaw);
      StoreCompleted(calculated);
    }

    /** Stores the form, the year, status `completed` and the computed figures, and keeps the reply. */
    method StoreCompleted(calculated: CalculatedTax)
      requires Valid() && taxReturn.Some?
      modifies this
      ensures Valid()
      ensures currentStep == old(currentStep) && selectedYear == old(selectedYear) && formData == old(formData)
      ensures taxReturn == Some(Updated(old(taxReturn).value, formData, Completed, selectedYear).(calculatedTax := Some(calculated)))
    {
      taxReturn := Some(Updated(taxReturn.value, formData, Completed, selectedYear).(calculatedTax := Some(calculated)));
    }

    /**
     * `handleNext`: before the last step, save and advance; on the last step, complete instead.
     * Saving happens before the step changes, so `'review'` is never the status it writes.
     */
    method HandleNext(caRaw: CAByYear.RawTables)
      requires Valid()
      modifies this
      ensures Valid()
      ensures selectedYear == old(selectedYear) && formData == old(formData)
      ensures old(currentStep) < LastStep ==> currentStep == old(currentStep) + 1
      ensures old(currentStep) == LastStep ==> currentStep == LastStep
      ensures old(currentStep) < LastStep && old(taxReturn).Some? ==>
        taxReturn == Some(Updated(old(taxReturn).value, formData, InProgress, selectedYear))
      ensures old(currentStep) == LastStep && old(taxReturn).Some? ==>
        taxReturn == Some(CompletedReturn(old(taxReturn).value, formData, selectedYear, caRaw))
      ensures old(taxReturn).None? ==> taxReturn == None
    {
      if currentStep < LastStep {
        SaveProgress();
        currentStep := currentStep + 1;
      } else {
        CompleteReturn(caRaw);
      }
    }

    /** `handlePrevious`: back one step, never below the first. */
    method HandlePrevious()
      requires Valid()
      modifies this
      ensures Valid()
      ensures currentStep == if old(currentStep) > 0 then old(currentStep) - 1 else 0
      ensures selectedYear == old(selectedYear) && formData == old(formData) && taxReturn == old(taxReturn)
    {
      if currentStep > 0 {
        currentStep := currentStep - 1;
      }
    }

    /** Updating one section: `data` is spread into that one section; the others are untouched. */
    method UpdateFormData(section: string, data: Section)
      requires Valid()
      modifies this
      ensures Valid()
      ensures formData == old(formData)[section := Spread(SectionOf(old(formData), section), data)]
      ensures currentStep == old(currentStep) && selectedYear == old(selectedYear) && taxReturn == old(taxReturn)
    {
      SpreadKeysDistinct(SectionOf(formData, section), data);
      formData := formData[section := Spread(SectionOf(formData, section), data)];
    }
  }

  // ----- Properties -----

  /** Every default section is an object with the standard deduction selected. */
  lemma DefaultsAreObjects()
    ensures forall name :: name in InitialForm ==> KeysDistinct(InitialForm[name])
    ensures Get(DefaultDeductions, StandardDeductionKey) == Some(Bool(true))
    ensures Get(DefaultCA, "renters_credit") == Some(Bool(false)) && Get(DefaultCA, "months_in_ca") == Some(Num(12.0))
  {
  }

  /** After `updateFormData`, a key of the section reads as `data` has it, or as before. */
  lemma UpdateReads(form: Form, section: string, data: Section, other: string, key: string)
    requires KeysDistinct(data)
    ensures var updated := form[section := Spread(SectionOf(form, section), data)];
      && Field(updated, section, key) == (if Get(data, key).Some? then Get(data, key) else Field(form, section, key))
      && (other != section ==> Field(updated, other, key) == Field(form, other, key))
  {
    SpreadGet(SectionOf(form, section), data, key);
  }

  /**
   * The completion's state tax and refund are what the review page shows for the same sections
   * and year: both run the California engine on the same taxable income.
   */
  lemma CompletionMatchesReview(form: Form, year: int, caRaw: CAByYear.RawTables,
                                federalRaw: FederalByYear.RawTables, currentYear: int)
    requires year != 0
    ensures var c := Completion(form, year, caRaw);
      var s := Review.Settle(form, Some(year), currentYear, caRaw, federalRaw);
      && s.year == year
      && CompletionTaxableIncome(form, year, caRaw) == s.taxableCA
      && c.stateTax == s.caState.afterCredits && c.refundOwed == s.caRefund
  {
  }

  /**
   * The return `completeReturn` stores carries the completion's figures, and once the form sent
   * holds the four sections the page keeps, the review page reading that stored return shows the
   * same state tax and refund.
   */
  lemma StoredReturnMatchesReview(ret: TaxReturn, form: Form, year: int, caRaw: CAByYear.RawTables,
                                  federalRaw: FederalByYear.RawTables, currentYear: int)
    requires year != 0
    requires "personal_info" in form && "income_info" in form && "deductions" in form && "ca" in form
    ensures var r := CompletedReturn(ret, form, year, caRaw);
      var c := Completion(form, year, caRaw);
      var s := Review.Settle(r.form, Some(r.taxYear), currentYear, caRaw, federalRaw);
      && r.status == Completed && r.taxYear == year && r.calculatedTax == Some(c)
      && c.stateTax == s.caState.afterCredits && c.refundOwed == s.caRefund
  {
    var stored := ret.form + form;
    UpdatedReads(ret, form, Completed, year, "personal_info");
    UpdatedReads(ret, form, Completed, year, "income_info");
    UpdatedReads(ret, form, Completed, year, "deductions");
    UpdatedReads(ret, form, Completed, year, "ca");
    CompletionReadsSections(stored, form, year, caRaw);
    CompletionMatchesReview(stored, year, caRaw, federalRaw, currentYear);
  }

  /** The completion reads only the personal, income, deduction and California sections. */
  lemma CompletionReadsSections(a: Form, b: Form, year: int, caRaw: CAByYear.RawTables)
    requires SectionOf(a, "personal_info") == SectionOf(b, "personal_info")
    requires SectionOf(a, "income_info") == SectionOf(b, "income_info")
    requires SectionOf(a, "deductions") == SectionOf(b, "deductions")
    requires SectionOf(a, "ca") == SectionOf(b, "ca")
    ensures Completion(a, year, caRaw).federalTax == Completion(b, year, caRaw).federalTax
    ensures Completion(a, year, caRaw).stateTax == Completion(b, year, caRaw).stateTax
    ensures Completion(a, year, caRaw).totalTax == Completion(b, year, caRaw).totalTax
    ensures Completion(a, year, caRaw).refundOwed == Completion(b, year, caRaw).refundOwed
  {
    CompletionInputsAgree(a, b, year, caRaw);
    CompletionFigures(a, year, caRaw);
    CompletionFigures(b, year, caRaw);
  }

  /** What the completion reads agrees between two forms with the same four sections. */
  lemma CompletionInputsAgree(a: Form, b: Form, year: int, caRaw: CAByYear.RawTables)
    requires SectionOf(a, "personal_info") == SectionOf(b, "personal_info")
    requires SectionOf(a, "income_info") == SectionOf(b, "income_info")
    requires SectionOf(a, "deductions") == SectionOf(b, "deductions")
    requires SectionOf(a, "ca") == SectionOf(b, "ca")
    ensures FilingStatus(a) == FilingStatus(b) && TotalIncome(a) == TotalIncome(b)
    ensures Field(a, "ca", "renters_credit") == Field(b, "ca", "renters_credit")
    ensures Field(a, "ca", "ca_withholding") == Field(b, "ca", "ca_withholding")
    ensures CompletionTaxableIncome(a, year, caRaw) == CompletionTaxableIncome(b, year, caRaw)
    ensures CompletionStateTax(a, year, caRaw) == CompletionStateTax(b, year, caRaw)
  {
    assert Field(a, "personal_info", "filing_status") == Field(b, "personal_info", "filing_status");
    assert Field(a, "ca", "adjustments") == Field(b, "ca", "adjustments");
  }

  /**
   * The stored figures: the taxable income is total − deduction + adjustments, or 0 when that is
   * not positive; the federal figure is 22% of it rounded to the dollar (so within half a dollar, and
   * non-negative); the state tax is the engine's non-negative tax after credits; the total is their
   * sum; and the refund is the CA withholding less the state tax.
   */
  lemma CompletionFigures(form: Form, year: int, caRaw: CAByYear.RawTables)
    ensures var c := Completion(form, year, caRaw);
      var raw := TotalIncome(form)
                 - ChosenDeduction(SectionOf(form, "deductions"), CAByYear.StandardDeduction(caRaw, year, FilingStatus(form)))
                 + AsNumber(Field(form, "ca", "adjustments"));
      var t := CompletionTaxableIncome(form, year, caRaw);
      && t == (if raw > 0.0 then raw else 0.0)
      && c.federalTax == Round(t * 0.22) as real
      && c.federalTax >= 0.0
      && -0.5 < c.federalTax - CompletionTaxableIncome(form, year, caRaw) * 0.22 <= 0.5
      && c.stateTax == CompletionStateTax(form, year, caRaw).afterCredits
      && c.stateTax >= 0.0
      && c.totalTax == c.federalTax + c.stateTax
      && c.refundOwed == AsNumber(Field(form, "ca", "ca_withholding")) - c.stateTax
      && c.refundOwed <= AsNumber(Field(form, "ca", "ca_withholding"))
  {
    var t := CompletionTaxableIncome(form, year, caRaw);
    RoundMonotone(0.0, t * 0.22);
    var r := CompletionStateTax(form, year, caRaw);
    CAByYear.StateTaxComposition(caRaw, year, t, FilingStatus(form),
                                 CAByYear.Options(Truthy(Field(form, "ca", "renters_credit")), Some(TotalIncome(form))));
  }
}
