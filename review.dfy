/**
 * The settlement on the review page (pages/Review.jsx, lines 79-103): the income total, the
 * deduction choice per jurisdiction, the clamped taxable incomes, both engines, and
 * refund = withheld − tax after credits.
 */
module Review {
  import opened Wrappers
  import opened Brackets
  import opened FormData
  import CAByYear
  import FederalByYear
  import ReviewStep

  /** Everything the page derives from a stored return. */
  datatype Settlement = Settlement(
    totalIncome: real,
    filingStatus: Status,
    year: int,
    caStandard: real,
    federalStandard: real,
    itemized: real,
    useStandard: bool,
    caDeduction: real,
    federalDeduction: real,
    caAdjustments: real,
    taxableCA: real,
    taxableFederal: real,
    caWithheld: real,
    caState: CAByYear.Result,
    caRefund: real,
    federal: FederalByYear.TaxResult,
    federalWithheld: real,
    federalRefund: real,
    caSDI: real)

  /** The return's year, or the current year when it is missing or 0; the clock's year is a parameter. */
  function ReturnYear(taxYear: Option<int>, currentYear: int): int
  {
    if taxYear.Some? && taxYear.value != 0 then taxYear.value else currentYear
  }

  /** The derivation of lines 79-103 over the stored sections `form` of the return. */
  function Settle(form: Form, taxYear: Option<int>, currentYear: int,
                  caRaw: CAByYear.RawTables, federalRaw: FederalByYear.RawTables): Settlement
  {
    var totalIncome := TotalIncome(form);
    var filingStatus := FilingStatus(form);
    var year := ReturnYear(taxYear, currentYear);
    var caStd := CAByYear.StandardDeduction(caRaw, year, filingStatus);
    var fedStd := FederalByYear.StandardDeduction(federalRaw, year, filingStatus);
    var deductions := SectionOf(form, "deductions");
    var itemized := ItemizedTotal(deductions);
    var useStd := UseStandard(deductions);
    var caDeduction := ChosenDeduction(deductions, caStd);
    var fedDeduction := ChosenDeduction(deductions, fedStd);
    var caAdj := AsNumber(Field(form, "ca", "adjustments"));
    var taxableCA := Max(0.0, totalIncome - caDeduction + caAdj);
    var taxableFederal := Max(0.0, totalIncome - fedDeduction);
    var caWithheld := AsNumber(Field(form, "ca", "ca_withholding"));
    var caState := CAByYear.StateTax(caRaw, year, taxableCA, filingStatus,
                                     CAByYear.Options(Truthy(Field(form, "ca", "renters_credit")), Some(totalIncome)));
    var caRefund := caWithheld - caState.afterCredits;
    var federal := FederalByYear.Tax(federalRaw, year, taxableFederal, filingStatus);
    var federalWithheld := AsNumber(Field(form, "federal", "withholding"));
    var federalRefund := federalWithheld - federal.afterCredits;
    var caSDI := AsNumber(Field(form, "ca", "sdi_withheld"));
    Settlement(totalIncome, filingStatus, year, caStd, fedStd, itemized, useStd, caDeduction, fedDeduction,
               caAdj, taxableCA, taxableFederal, caWithheld, caState, caRefund, federal, federalWithheld,
               federalRefund, caSDI)
  }

  /** How a settlement figure is labelled (lines 190 and 223). */
  datatype Label = Refund | AmountDue

  function LabelOf(amount: real): (l: Label)
    ensures l == Refund <==> amount >= 0.0
  {
    if amount >= 0.0 then Refund else AmountDue
  }

  // ----- Properties -----

  /** The standard deduction is used unless the flag is exactly `false`; a missing flag means standard. */
  lemma StandardUnlessFalse(form: Form, taxYear: Option<int>, currentYear: int,
                            caRaw: CAByYear.RawTables, federalRaw: FederalByYear.RawTables)
    ensures var s := Settle(form, taxYear, currentYear, caRaw, federalRaw);
      s.useStandard <==> Field(form, "deductions", StandardDeductionKey) != Some(Bool(false))
    ensures Field(form, "deductions", StandardDeductionKey).None? ==>
      var s := Settle(form, taxYear, currentYear, caRaw, federalRaw);
      s.caDeduction == s.caStandard && s.federalDeduction == s.federalStandard
  {
  }

  /**
   * Both jurisdictions itemize with the same total, which leaves out the flag and any
   * non-number; only the standard figures differ, each read from its own engine's tables.
   */
  lemma DeductionsPerJurisdiction(form: Form, taxYear: Option<int>, currentYear: int,
                                  caRaw: CAByYear.RawTables, federalRaw: FederalByYear.RawTables)
    ensures var s := Settle(form, taxYear, currentYear, caRaw, federalRaw);
      && (!s.useStandard ==> s.caDeduction == s.federalDeduction == ItemizedTotal(SectionOf(form, "deductions")))
      && (s.useStandard ==> s.caDeduction == CAByYear.StandardDeduction(caRaw, s.year, s.filingStatus))
      && (s.useStandard ==> s.federalDeduction == FederalByYear.StandardDeduction(federalRaw, s.year, s.filingStatus))
  {
  }

  /**
   * Each taxable income is the income less that jurisdiction's deduction, or 0 when that is not
   * positive; only California's adds the adjustments.
   */
  lemma TaxableIncomes(form: Form, taxYear: Option<int>, currentYear: int,
                       caRaw: CAByYear.RawTables, federalRaw: FederalByYear.RawTables)
    ensures var s := Settle(form, taxYear, currentYear, caRaw, federalRaw);
      && s.totalIncome == TotalIncome(form)
      && s.caAdjustments == AsNumber(Field(form, "ca", "adjustments"))
      && s.taxableCA == (if s.totalIncome - s.caDeduction + s.caAdjustments > 0.0
                         then s.totalIncome - s.caDeduction + s.caAdjustments else 0.0)
      && s.taxableFederal == (if s.totalIncome - s.federalDeduction > 0.0
                              then s.totalIncome - s.federalDeduction else 0.0)
      && s.taxableCA >= 0.0 && s.taxableFederal >= 0.0
  {
  }

  /**
   * The California engine is run on the CA taxable income with the total income as its AGI
   * estimate and the `renters_credit` flag, the federal engine on the federal taxable income;
   * each refund is that jurisdiction's withholding less its tax after
   * credits, so it never exceeds the withholding, and it is labelled a refund exactly when the
   * withholding covers the tax.
   */
  lemma Refunds(form: Form, taxYear: Option<int>, currentYear: int,
                caRaw: CAByYear.RawTables, federalRaw: FederalByYear.RawTables)
    ensures var s := Settle(form, taxYear, currentYear, caRaw, federalRaw);
      && s.caState == CAByYear.StateTax(caRaw, s.year, s.taxableCA, s.filingStatus,
                                        CAByYear.Options(Truthy(Field(form, "ca", "renters_credit")), Some(s.totalIncome)))
      && s.federal == FederalByYear.Tax(federalRaw, s.year, s.taxableFederal, s.filingStatus)
      && s.caWithheld == AsNumber(Field(form, "ca", "ca_withholding"))
      && s.federalWithheld == AsNumber(Field(form, "federal", "withholding"))
      && s.caRefund == s.caWithheld - s.caState.afterCredits
      && s.federalRefund == s.federalWithheld - s.federal.afterCredits
      && s.caRefund <= s.caWithheld && s.federalRefund <= s.federalWithheld
      && (LabelOf(s.caRefund) == Refund <==> s.caWithheld >= s.caState.afterCredits)
      && (LabelOf(s.federalRefund) == Refund <==> s.federalWithheld >= s.federal.afterCredits)
  {
    var s := Settle(form, taxYear, currentYear, caRaw, federalRaw);
    CAByYear.StateTaxComposition(caRaw, s.year, s.taxableCA, s.filingStatus,
                                 CAByYear.Options(Truthy(Field(form, "ca", "renters_credit")), Some(s.totalIncome)));
  }

  /**
   * With no `standard_deduction` entry the review step itemizes while this page takes the
   * standard deduction: the two pages read the same missing flag in opposite ways.
   */
  lemma MissingFlagReadsDifferently(form: Form, taxYear: Option<int>, currentYear: int,
                                    caRaw: CAByYear.RawTables, federalRaw: FederalByYear.RawTables)
    requires KeysDistinct(SectionOf(form, "deductions"))
    requires Field(form, "deductions", StandardDeductionKey).None?
    ensures ReviewStep.Figures(form).deductionAmount == ItemizedTotal(SectionOf(form, "deductions"))
    ensures Settle(form, taxYear, currentYear, caRaw, federalRaw).federalDeduction
         == FederalByYear.StandardDeduction(federalRaw, ReturnYear(taxYear, currentYear), FilingStatus(form))
  {
    ReviewStep.FiguresDeduction(form);
  }
}
