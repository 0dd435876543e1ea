/**
 * The review step's estimate (components/interview/ReviewStep.jsx): total income, a flat
 * 13,850 standard deduction or the numeric deduction entries, and a closed-form federal
 * single-filer formula.
 */
module ReviewStep {
  import opened Brackets
  import opened FormData
  import FederalByYear

  /** `calculateEstimatedTax`: seven pieces, each a constant plus a rate on the income above its threshold. */
  function EstimatedTax(taxableIncome: real): real
  {
    if taxableIncome <= 11600.0 then taxableIncome * 0.10
    else if taxableIncome <= 47150.0 then 1160.0 + (taxableIncome - 11600.0) * 0.12
    else if taxableIncome <= 100525.0 then 5426.0 + (taxableIncome - 47150.0) * 0.22
    else if taxableIncome <= 191950.0 then 17168.50 + (taxableIncome - 100525.0) * 0.24
    else if taxableIncome <= 243725.0 then 39110.50 + (taxableIncome - 191950.0) * 0.32
    else if taxableIncome <= 609350.0 then 55678.50 + (taxableIncome - 243725.0) * 0.35
    else 183647.25 + (taxableIncome - 609350.0) * 0.37
  }

  /** What the review step displays. */
  datatype Estimate = Estimate(totalIncome: real, deductionAmount: real, taxableIncome: real, estimatedTax: real)

  /** Lines 8-13: the income total, the deduction, the clamped taxable income and the estimate. */
  function Figures(form: Form): Estimate
  {
    var totalIncome := TotalIncome(form);
    var deductions := SectionOf(form, "deductions");
    var deductionAmount := if Truthy(Get(deductions, StandardDeductionKey)) then 13850.0 else NumericTotal(deductions);
    var taxableIncome := Max(0.0, totalIncome - deductionAmount);
    Estimate(totalIncome, deductionAmount, taxableIncome, EstimatedTax(taxableIncome))
  }

  // ----- Properties -----

  /**
   * For income at or above zero the formula is the 2024 federal single-filer bracket
   * accumulation, before any rounding.
   */
  lemma EstimatedTaxIsBracketSum(x: real)
    requires x >= 0.0
    ensures EstimatedTax(x) == Accumulate(FederalByYear.BaseSingle, x, 0.0)
  {
    if x == 0.0 {
      AccumulateNothingRemaining(FederalByYear.BaseSingle, x, 0.0);
    } else if x <= 11600.0 {
      Piece1(x);
    } else if x <= 47150.0 {
      Piece2(x);
    } else if x <= 100525.0 {
      Piece3(x);
    } else if x <= 191950.0 {
      Piece4(x);
    } else if x <= 243725.0 {
      Piece5(x);
    } else if x <= 609350.0 {
      Piece6(x);
    } else {
      Piece7(x);
    }
  }

  // Piece k of the formula: the brackets below piece k are filled and the k-th takes the rest.

  lemma Piece1(x: real)
    requires 0.0 < x <= 11600.0
    ensures EstimatedTax(x) == Accumulate(FederalByYear.BaseSingle, x, 0.0)
  {
    var s := FederalByYear.BaseSingle;
    assert s[0..] == s;
    AccumulateLastBracket(s, 0, x, 0.0);
  }

  lemma Piece2(x: real)
    requires 11600.0 < x <= 47150.0
    ensures EstimatedTax(x) == Accumulate(FederalByYear.BaseSingle, x, 0.0)
  {
    var s := FederalByYear.BaseSingle;
    assert s[0..] == s;
    AccumulateFullBracket(s, 0, x, 0.0);
    AccumulateLastBracket(s, 1, x - 11600.0, 11600.0);
  }

  lemma Piece3(x: real)
    requires 47150.0 < x <= 100525.0
    ensures EstimatedTax(x) == Accumulate(FederalByYear.BaseSingle, x, 0.0)
  {
    var s := FederalByYear.BaseSingle;
    assert s[0..] == s;
    AccumulateFullBracket(s, 0, x, 0.0);
    AccumulateFullBracket(s, 1, x - 11600.0, 11600.0);
    AccumulateLastBracket(s, 2, x - 47150.0, 47150.0);
  }

  lemma Piece4(x: real)
    requires 100525.0 < x <= 191950.0
    ensures EstimatedTax(x) == Accumulate(FederalByYear.BaseSingle, x, 0.0)
  {
    var s := FederalByYear.BaseSingle;
    assert s[0..] == s;
    AccumulateFullBracket(s, 0, x, 0.0);
    AccumulateFullBracket(s, 1, x - 11600.0, 11600.0);
    AccumulateFullBracket(s, 2, x - 47150.0, 47150.0);
    AccumulateLastBracket(s, 3, x - 100525.0, 100525.0);
  }

  lemma Piece5(x: real)
    requires 191950.0 < x <= 243725.0
    ensures EstimatedTax(x) == Accumulate(FederalByYear.BaseSingle, x, 0.0)
  {
    var s := FederalByYear.BaseSingle;
    assert s[0..] == s;
    AccumulateFullBracket(s, 0, x, 0.0);
    AccumulateFullBracket(s, 1, x - 11600.0, 11600.0);
    AccumulateFullBracket(s, 2, x - 47150.0, 47150.0);
    AccumulateFullBracket(s, 3, x - 100525.0, 100525.0);
    AccumulateLastBracket(s, 4, x - 191950.0, 191950.0);
  }

  lemma Piece6(x: real)
    requires 243725.0 < x <= 609350.0
    ensures EstimatedTax(x) == Accumulate(FederalByYear.BaseSingle, x, 0.0)
  {
    var s := FederalByYear.BaseSingle;
    assert s[0..] == s;
    AccumulateFullBracket(s, 0, x, 0.0);
    AccumulateFullBracket(s, 1, x - 11600.0, 11600.0);
    AccumulateFullBracket(s, 2, x - 47150.0, 47150.0);
    AccumulateFullBracket(s, 3, x - 100525.0, 100525.0);
    AccumulateFullBracket(s, 4, x - 191950.0, 191950.0);
    AccumulateLastBracket(s, 5, x - 243725.0, 243725.0);
  }

  lemma Piece7(x: real)
    requires x > 609350.0
    ensures EstimatedTax(x) == Accumulate(FederalByYear.BaseSingle, x, 0.0)
  {
    var s := FederalByYear.BaseSingle;
    assert s[0..] == s;
    AccumulateFullBracket(s, 0, x, 0.0);
    AccumulateFullBracket(s, 1, x - 11600.0, 11600.0);
    AccumulateFullBracket(s, 2, x - 47150.0, 47150.0);
    AccumulateFullBracket(s, 3, x - 100525.0, 100525.0);
    AccumulateFullBracket(s, 4, x - 191950.0, 191950.0);
    AccumulateFullBracket(s, 5, x - 243725.0, 243725.0);
    AccumulateTopBracket(s, 6, x - 609350.0, 609350.0);
  }

  /**
   * Between two incomes at or above zero the estimate grows by at least 10% and at most 37% of
   * the difference: it is non-negative, non-decreasing and continuous (each piece's constant
   * is the previous piece at its threshold).
   */
  lemma EstimatedTaxSlope(x: real, y: real)
    requires 0.0 <= x <= y
    ensures 0.10 * (y - x) <= EstimatedTax(y) - EstimatedTax(x) <= 0.37 * (y - x)
    ensures EstimatedTax(x) >= 0.0
  {
  }

  /**
   * The estimate keeps its fractions; the federal engine's baseline single figure is the same
   * sum rounded, so the two differ by at most half a dollar.
   */
  lemma EstimateVersusEngine(raw: FederalByYear.RawTables, year: int, x: real)
    requires !FederalByYear.Overridden(raw, year)
    requires x >= 0.0
    ensures FederalByYear.BeforeCredits(raw, year, x, Single) == Round(EstimatedTax(x)) as real
    ensures -0.5 < FederalByYear.BeforeCredits(raw, year, x, Single) - EstimatedTax(x) <= 0.5
  {
    FederalByYear.BaselineSchedule(raw, year, Single);
    EstimatedTaxIsBracketSum(x);
  }

  /** Fractions survive: a dollar of taxable income is estimated at ten cents. */
  lemma EstimateIsUnrounded()
    ensures EstimatedTax(1.0) == 0.1
  {
  }

  /**
   * A truthy flag means 13,850; otherwise the numeric entries are summed, which is the itemized
   * total since a falsy flag adds nothing. The taxable income is the income less the deduction,
   * or 0 when that is not positive, and the estimate is taken on it.
   */
  lemma FiguresDeduction(form: Form)
    requires KeysDistinct(SectionOf(form, "deductions"))
    ensures
      var d := SectionOf(form, "deductions");
      var e := Figures(form);
      && (Truthy(Get(d, StandardDeductionKey)) ==> e.deductionAmount == 13850.0)
      && (!Truthy(Get(d, StandardDeductionKey)) ==> e.deductionAmount == ItemizedTotal(d))
      && e.totalIncome == TotalIncome(form)
      && e.taxableIncome == (if e.totalIncome - e.deductionAmount > 0.0 then e.totalIncome - e.deductionAmount else 0.0)
      && e.estimatedTax == EstimatedTax(e.taxableIncome)
      && e.estimatedTax >= 0.0
  {
    var d := SectionOf(form, "deductions");
    NumericTotalSplitsFlag(d);
    EstimatedTaxSlope(Figures(form).taxableIncome, Figures(form).taxableIncome);
  }
}
