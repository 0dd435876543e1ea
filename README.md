# Tax engine of tax-genius, modelled in Dafny

tax-genius is a web application for preparing a personal US federal and California income-tax
return. Its computational core is modelled here:

- the California engine keyed by year (`src/tax/caByYear.js`);
- the federal engine keyed by year (`src/tax/federalByYear.js`);
- the fixed 2024 California engine (`src/tax/ca2024.js`);
- the figures that the interview's review step and the review page derive from the form data;
- the interview's step and return state.

### California engine by year

The per-year tables are built once.

- A 2024 baseline (brackets, standard deductions, personal exemption credits, renter's-credit
  amounts and income limits) is merged, key by key, with an override read from JSON.
- A year outside 2020–2024 falls back to the baseline.
- A JSON `null` as a bracket edge or income limit means "unbounded". This is the tagged
  `Bound = Finite(x) | Unbounded` here.
- A status the tables do not list falls back to `single` for the brackets, the standard deduction
  and the personal exemption credit, but not for the renter's credit, which is then 0.
- `qualifying_widow` is taxed on the `married_joint` brackets.

The tax before credits comes from a progressive bracket loop with an early exit. Income above
1,000,000 adds the 1% mental-health surtax, and the result is rounded as `Math.round` rounds. The
personal exemption credit and the renter's credit are then subtracted, floored at zero.

### Federal engine and fixed 2024 engine

The federal engine has the same shape: years 2020–2025, five baseline schedules, no surtax and no
credits. The fixed 2024 California engine uses its own literal tables and switch statements.
Its results are proved equal to those of the year-keyed engine on baseline years.

### Form data and the interview

- Form data is a map from section names to sections.
- A section is an ordered list of JavaScript object entries. Values are numbers, booleans, strings
  or null.
- The JavaScript coercions the pages rely on are written out: `v || 0`, `!!v`, `typeof v ===
  'number'`, `|| 'single'` (so an empty status also reads as `single`), and object spread.
- The interview is a class with the component's state as fields.
- Each handler is a method. Its `ensures` states the whole new state in terms of specification
  functions, and lemmas beside it state what those functions mean.

### Modules

| module | what it holds |
|---|---|
| `Wrappers` | `Option` |
| `Brackets` | filing statuses, `Math.round`, the shared bracket loop and its specification `Accumulate`, the reference per-bracket sum `SliceSum` |
| `CAByYear` | the year-keyed California engine |
| `FederalByYear` | the year-keyed federal engine |
| `CA2024` | the fixed 2024 California engine |
| `FormData` | form sections, lookup and spread, JavaScript coercions, the derived totals |
| `ReviewStep` | the interview's review step |
| `Review` | the review page's settlement |
| `Interview` | the interview component |

### Behaviour worth knowing

- Neither California table has `married_separate` brackets. The baseline lists only `single`,
  `married_joint` and `head_household`, and the fixed 2024 engine adds only a `qualifying_widow:
  null` entry. Separate filers are therefore taxed on the `single` brackets in the fixed engine,
  and in the year-keyed engine on baseline years and on JSON years that add no `married_separate`
  brackets (`CA2024.ScheduleChoice`, `CAByYear.MarriedSeparateFallsBackToSingle`,
  `CAByYear.MarriedSeparateUsesSingle`).
- The step's estimate (`ReviewStep.EstimatedTax`) is the federal single schedule without rounding.
  It deducts a fixed 13850. It reads a missing `standard_deduction` flag as "itemize", whereas the
  review page reads the same missing flag as "standard" (`Review.MissingFlagReadsDifferently`).
- The interview's `saveProgress` chooses status `review` only on the last step. On that step,
  `handleNext` calls `completeReturn` instead, so the stored status never becomes `review` through
  `handleNext` (`Interview.Interview.HandleNext`).

## Model

| member | source | states |
|---|---|---|
| Wrappers.Option.GetOr | src/tax/caByYear.js:121 | `x ?? d` yields the value when present and the default when absent |
| Brackets.ParseStatus | src/tax/caByYear.js:139 | a filing-status string maps to a status whose name is that string; only names outside the five known ones become `Other` |
| Brackets.ParseStatusInverse | src/tax/caByYear.js:139 | parsing a status's name gives back that status |
| Brackets.Round | src/tax/caByYear.js:151 | `Math.round(x)` is an integer within half a unit of x, halves going up |
| Brackets.RoundMonotone | src/tax/caByYear.js:151 | rounding preserves order |
| Brackets.NormalizeBound | src/tax/caByYear.js:79 | a JSON `null` limit becomes unbounded; any number stays that finite bound |
| Brackets.NormalizeSchedule | src/tax/caByYear.js:84 | a missing bracket array becomes empty; otherwise the same length and, bracket by bracket, the same rate and the JSON edge normalised (`null` unbounded, a number kept as a finite edge) |
| Brackets.NormalizeBrackets | src/tax/caByYear.js:80-86 | normalising the bracket map keeps exactly its set of statuses |
| Brackets.YearTables | src/tax/caByYear.js:102-113 | the per-year store holds a table for exactly the supported years |
| Brackets.OrSingle | src/tax/caByYear.js:121 | the status's entry, or the single entry when it has none; stated over a merge by `Brackets.OrSingleOverMerge` |
| Brackets.Exceeds | src/tax/caByYear.js:133 | an income exceeds a limit only when the limit is finite and the income above it |
| Brackets.ScheduleFor | src/tax/caByYear.js:139 | `qualifying_widow` takes the `married_joint` brackets; a listed status takes its own; any other status takes `single` |
| Brackets.OrSingleOverMerge | src/tax/caByYear.js:106-121 | a `?? single` lookup on a spread merge takes, in order: the override's entry, the base's entry, the override's single, the base's single |
| Brackets.MergedRatesNonNegative | src/tax/caByYear.js:106 | merging non-negative override rates into non-negative base rates gives non-negative rates for every status's schedule |
| Brackets.Amount | src/tax/caByYear.js:144 | the income taxed in one bracket lies between 0 and max(0, remaining); an unbounded bracket absorbs all that remains |
| Brackets.Share | src/tax/caByYear.js:144-145 | the tax one bracket adds; stated non-negative by `Brackets.ShareNonNegative` and monotone by `Brackets.ShareMonotone` |
| Brackets.Accumulate | src/tax/caByYear.js:140-149 | the loop's result as a function, with the early exit; `Brackets.AccumulateBrackets` computes it and `Brackets.AccumulateIsSliceSum` equates it with the reference per-bracket sum |
| Brackets.AccumulateBrackets | src/tax/caByYear.js:140-149 | the bracket loop, with its early exit, computes `Accumulate`; income ≤ 0 gives 0 |
| Brackets.AccumulateStep | src/tax/caByYear.js:143-148 | one iteration adds the bracket's share and continues only while income remains |
| Brackets.AccumulateFullBracket | src/tax/caByYear.js:143-148 | income beyond a finite edge pays the bracket's full width at its rate, then moves on with the rest |
| Brackets.AccumulateLastBracket | src/tax/caByYear.js:143-148 | income ending inside a finite bracket pays remaining × rate and stops |
| Brackets.AccumulateTopBracket | src/tax/caByYear.js:143-148 | an unbounded bracket taxes all the remaining income at its rate |
| Brackets.ScheduleForWellFormed | src/tax/caByYear.js:139 | when every listed schedule has ascending edges and non-negative rates, the chosen schedule does too |
| Brackets.AccumulateNothingRemaining | src/tax/caByYear.js:140-149 | no remaining income gives no tax |
| Brackets.AccumulateNonNegative | src/tax/caByYear.js:140-149 | non-negative rates give non-negative tax |
| Brackets.AmountMonotone | src/tax/caByYear.js:144-146 | more income puts no less into a bracket and leaves no less income over |
| Brackets.ShareMonotone | src/tax/caByYear.js:144-145 | with a non-negative rate, a bracket's tax does not fall as income rises |
| Brackets.AccumulateMonotone | src/tax/caByYear.js:140-149 | with non-negative rates, the loop's tax does not fall as income rises |
| Brackets.AboveMonotone | src/tax/caByYear.js:146-148 | the tax on what remains after a bracket does not fall as income rises |
| Brackets.SliceSumBelow | src/tax/caByYear.js:144 | income below a schedule's lower edge falls in none of its brackets |
| Brackets.AccumulateIsSliceSum | src/tax/caByYear.js:140-149 | on ascending edges, the loop equals the sum over brackets of (income inside the bracket) × rate |
| Brackets.BracketTaxIsSliceSum | src/tax/caByYear.js:140-149 | the same from zero income: bracket tax is the reference per-bracket sum |
| FormData.Get | pages/Review.jsx:80 | reading a key finds a value exactly when the key is present in the object |
| FormData.GetFirst | pages/Review.jsx:80 | a key reads the value of its first entry, the one no earlier entry with that key shadows |
| FormData.GetFound | pages/Review.jsx:80 | every value read is the value of the key's first entry |
| FormData.Put | pages/Interview.jsx:174 | assigning one key; `FormData.PutGet` and `FormData.PutKeys` state its effect |
| FormData.Spread | pages/Interview.jsx:174 | the object spread `{...prev, ...data}`; `FormData.SpreadGet` and `FormData.SpreadKeysDistinct` state its effect |
| FormData.SectionOf | pages/Review.jsx:79 | a section, or an empty object when it is missing |
| FormData.Field | pages/Review.jsx:80 | an optional-chained field read: missing when the section or the key is |
| FormData.Truthy | pages/Review.jsx:95 | JavaScript truthiness of a field: false for missing, null, false, 0 and the empty string |
| FormData.NumberPart | pages/Review.jsx:86 | a number counts as itself, any other value as 0 |
| FormData.ValuesTotal | pages/Review.jsx:79 | the sum of a section's values, each falsy value counting 0; summed by `FormData.TotalIncome` |
| FormData.TotalIncome | pages/Review.jsx:79 | the total of the income section; the review and completion figures are stated in terms of it |
| FormData.NumericTotal | components/interview/ReviewStep.jsx:10 | the sum of a section's numeric values; `FormData.NumericTotalSplitsFlag` relates it to the itemized total |
| FormData.ItemizedTotal | pages/Review.jsx:84-86 | the numeric deduction entries other than the flag; `FormData.NumericTotalSplitsFlag` states it |
| FormData.UseStandard | pages/Review.jsx:87 | standard unless the flag is exactly `false`; `Review.StandardUnlessFalse` states it |
| FormData.PutGet | pages/Interview.jsx:174 | assigning a key changes that key's value and no other |
| FormData.PutKeys | pages/Interview.jsx:174 | assigning a key adds exactly that key, and the keys stay distinct |
| FormData.SpreadGet | pages/Interview.jsx:174 | after `{...prev, ...data}`, a key reads data's value where data has one and prev's otherwise |
| FormData.SpreadKeysDistinct | pages/Interview.jsx:174 | a spread yields an object, with distinct keys |
| FormData.AsNumber | pages/Review.jsx:90 | `Number(v \|\| 0)` is 0 for any falsy value and the number itself for a number |
| FormData.NumericTotalSplitsFlag | pages/Review.jsx:84-86 | the numeric total of the deduction entries is the itemized total plus the numeric part of the flag entry |
| FormData.ChosenDeduction | pages/Review.jsx:87-88 | the standard amount unless the flag is `false`, the itemized total otherwise |
| FormData.FilingStatus | pages/Review.jsx:80 | a falsy filing status reads as `single`; a non-empty string names the status |
| CAByYear.Normalize | src/tax/caByYear.js:87-97 | the normalised year table keeps the statuses of the JSON's brackets and limits; each schedule is the JSON schedule normalised, each limit the JSON limit normalised (`null` unbounded, a number kept); deductions, exemption credits and renter amounts are kept as they are |
| CAByYear.Tables | src/tax/caByYear.js:102-113 | the store of merged tables for 2020–2024, built with `Brackets.YearTables`; `CAByYear.GetTablesReadsStore` states how it is read |
| CAByYear.GetTables | src/tax/caByYear.js:115-117 | every looked-up table has single, married-joint and head-of-household brackets, and single deduction and credit entries |
| CAByYear.GetTablesReadsStore | src/tax/caByYear.js:115-117 | a lookup reads the year's table when it exists and the baseline otherwise |
| CAByYear.OverrideFor | src/tax/caByYear.js:104 | a year's normalised JSON override, or no override; `CAByYear.BaselineFallback` and `CAByYear.OverriddenBrackets` state its effect |
| CAByYear.Merge | src/tax/caByYear.js:102-113 | the key-by-key merge of the five maps; `CAByYear.MergeEntry` and `CAByYear.MergeNothing` state it |
| CAByYear.StandardDeduction | src/tax/caByYear.js:119-122 | `CAByYear.StandardDeductionLayers` states the four-layer lookup and `CAByYear.UnknownStatusUsesSingle` the single fallback |
| CAByYear.PersonalExemptionCredit | src/tax/caByYear.js:124-127 | `CAByYear.PersonalExemptionCreditLayers` states the four-layer lookup |
| CAByYear.RentersCredit | src/tax/caByYear.js:129-135 | `CAByYear.RentersCreditEligibility` states all its cases, and `CAByYear.NullIncomeLimitIsUnbounded` the JSON `null` limit |
| CAByYear.MentalHealthSurtax | src/tax/caByYear.js:150 | `CAByYear.SurtaxThreshold` states 0 up to 1,000,000 and 1% of the excess |
| CAByYear.ScheduleOf | src/tax/caByYear.js:138-139 | the schedule the loop walks; `CAByYear.ScheduleLayers` and `CAByYear.WidowUsesMarriedJoint` state the choice |
| CAByYear.TaxOnSchedule | src/tax/caByYear.js:140-151 | `CAByYear.TaxOnScheduleIsBracketSum` states it is the rounded per-bracket sum plus surtax, with bounds and monotonicity beside it |
| CAByYear.BeforeCredits | src/tax/caByYear.js:137-152 | computed by `CAByYear.CalculateTaxBeforeCredits`; `CAByYear.BeforeCreditsIsBracketSum` and `CAByYear.BeforeCreditsMonotone` state what it is |
| CAByYear.StateTax | src/tax/caByYear.js:154-160 | computed by `CAByYear.CalculateStateTax`; `CAByYear.StateTaxComposition` states how the credits combine |
| CAByYear.CalculateTaxBeforeCredits | src/tax/caByYear.js:137-152 | the method computes the tax before credits; income ≤ 0 gives 0 |
| CAByYear.ComputeTaxOnSchedule | src/tax/caByYear.js:140-151 | bracket loop, then surtax, then rounding, on a given schedule; income ≤ 0 gives 0 |
| CAByYear.CalculateStateTax | src/tax/caByYear.js:154-160 | the result's after-credits amount is max(0, before − personal − renter's), so never negative |
| CAByYear.BaselineFallback | src/tax/caByYear.js:104-117 | a year without a JSON override uses exactly the 2024 baseline |
| CAByYear.OverriddenBrackets | src/tax/caByYear.js:106 | an overridden year's brackets are the baseline's, with the normalised JSON entries laid over them |
| CAByYear.BaselineSchedule | src/tax/caByYear.js:139 | without an override, the schedule is chosen from the baseline's brackets |
| CAByYear.BaselineSingleSchedule | src/tax/caByYear.js:11-21 | without an override, single filers use the baseline single schedule |
| CAByYear.BaselineScheduleWellFormed | src/tax/caByYear.js:9-73 | without an override, every status's schedule has ascending edges and non-negative rates |
| CAByYear.MergeEntry | src/tax/caByYear.js:105-111 | in each of the five merged maps, a status is present if either side has it; the override's value wins, the base's stays otherwise |
| CAByYear.MergeNothing | src/tax/caByYear.js:104 | merging an empty override changes nothing |
| CAByYear.StandardDeductionLayers | src/tax/caByYear.js:119-122 | the deduction is the override's, else the baseline's, else the override's single, else the baseline's single |
| CAByYear.PersonalExemptionCreditLayers | src/tax/caByYear.js:124-127 | the same four layers for the personal exemption credit |
| CAByYear.UnknownStatusUsesSingle | src/tax/caByYear.js:121 | a status in no table gets the single deduction and credit |
| CAByYear.ScheduleLayers | src/tax/caByYear.js:139 | the schedule is chosen in four layers: override's, baseline's, override's single, baseline's single |
| CAByYear.WidowUsesMarriedJoint | src/tax/caByYear.js:139 | qualifying widow(er)s are taxed exactly as joint filers |
| CAByYear.MarriedSeparateFallsBackToSingle | src/tax/caByYear.js:139 | when the year's JSON adds no `married_separate` brackets, separate filers get the year's `single` schedule and the same tax before credits |
| CAByYear.MarriedSeparateUsesSingle | src/tax/caByYear.js:139 | without `married_separate` or `single` brackets in the override, separate filers are taxed as single filers |
| CAByYear.TaxOnScheduleNonPositive | src/tax/caByYear.js:140-151 | income ≤ 0 gives no tax |
| CAByYear.TaxOnScheduleNonNegative | src/tax/caByYear.js:140-151 | non-negative rates give non-negative tax |
| CAByYear.TaxOnScheduleMonotone | src/tax/caByYear.js:140-151 | with non-negative rates, more income never means less tax |
| CAByYear.TaxOnScheduleIsBracketSum | src/tax/caByYear.js:140-151 | the tax is round(per-bracket sum + surtax) |
| CAByYear.BeforeCreditsNonPositiveIncome | src/tax/caByYear.js:137-152 | income ≤ 0 gives 0 for every year and status |
| CAByYear.BaseBracketsWellFormed | src/tax/caByYear.js:10-44 | every baseline schedule is ascending with non-negative rates |
| CAByYear.BaseSchedulesWellFormed | src/tax/caByYear.js:10-44 | the baseline schedule chosen for any status is well formed |
| CAByYear.BaseSingleWellFormed | src/tax/caByYear.js:11-21 | the baseline single brackets ascend, with non-negative rates |
| CAByYear.BaseMarriedJointWellFormed | src/tax/caByYear.js:22-32 | the baseline joint brackets ascend, with non-negative rates |
| CAByYear.BaseHeadHouseholdWellFormed | src/tax/caByYear.js:33-43 | the baseline head-of-household brackets ascend, with non-negative rates |
| CAByYear.BaseRatesNonNegative | src/tax/caByYear.js:10-44 | every baseline rate is non-negative |
| CAByYear.ScheduleRatesNonNegative | src/tax/caByYear.js:106-139 | with non-negative JSON rates, every chosen schedule's rates are non-negative |
| CAByYear.BeforeCreditsMonotone | src/tax/caByYear.js:137-152 | with non-negative rates, the tax before credits does not fall as income rises |
| CAByYear.BeforeCreditsIsBracketSum | src/tax/caByYear.js:137-152 | on an ascending schedule, the tax equals round(per-bracket sum + surtax) |
| CAByYear.BaselineBeforeCreditsIsBracketSum | src/tax/caByYear.js:137-152 | without an override, the same holds for every status |
| CAByYear.SurtaxThreshold | src/tax/caByYear.js:150 | no surtax up to 1,000,000; above it, 1% of the excess |
| CAByYear.SurtaxScenario | src/tax/caByYear.js:137-152 | single filers in a baseline year with 1,200,000 pay a surtax of 2000, and 131540 before credits |
| CAByYear.BaselineSingleAt1200000 | src/tax/caByYear.js:11-21 | the single brackets give 129540.2832 at 1,200,000, and 131540 with surtax and rounding |
| CAByYear.BaselineSingleBrackets | src/tax/caByYear.js:11-21 | above 698271, single tax is the eight full brackets plus 12.3% of the excess |
| CAByYear.RentersCreditEligibility | src/tax/caByYear.js:129-135 | no credit for non-renters or above a listed limit; a renter within the limit, or with no listed limit, gets the listed amount; 0 for a status with no listed amount |
| CAByYear.NullIncomeLimitIsUnbounded | src/tax/caByYear.js:94-96 | a JSON `null` income limit admits every income |
| CAByYear.StateTaxComposition | src/tax/caByYear.js:154-160 | after-credits is before − credits when that is non-negative and 0 otherwise; AGI defaults to taxable income |
| CAByYear.BaselineCreditsLowerTax | src/tax/caByYear.js:154-160 | in a baseline year, 0 ≤ after-credits ≤ before-credits |
| CAByYear.BaselineCreditsNonNegative | src/tax/caByYear.js:124-135 | in a baseline year, both credits are non-negative |
| CAByYear.BaseCreditsNonNegative | src/tax/caByYear.js:52-65 | the baseline personal credits and renter's amounts are non-negative |
| FederalByYear.Tables | src/tax/federalByYear.js:87-95 | the store of merged tables for 2020–2025, built with `Brackets.YearTables`; `FederalByYear.GetTablesReadsStore` states how it is read |
| FederalByYear.GetTables | src/tax/federalByYear.js:97-99 | every looked-up table has single and joint brackets and a single deduction |
| FederalByYear.GetTablesReadsStore | src/tax/federalByYear.js:97-99 | a lookup reads the year's table when it exists and the baseline otherwise |
| FederalByYear.Normalize | src/tax/federalByYear.js:69-85 | the normalised year table keeps the statuses of the JSON's brackets, each schedule the JSON schedule normalised, and the standard deductions as they are |
| FederalByYear.OverrideFor | src/tax/federalByYear.js:89 | a year's normalised JSON override, or no override; `FederalByYear.BaselineFallback` states the fallback |
| FederalByYear.Merge | src/tax/federalByYear.js:87-95 | the key-by-key merge of both maps; `FederalByYear.MergeEntry` states it |
| FederalByYear.StandardDeduction | src/tax/federalByYear.js:101-104 | `FederalByYear.StandardDeductionLayers` states the four-layer lookup |
| FederalByYear.ScheduleOf | src/tax/federalByYear.js:107-108 | the schedule the loop walks; `FederalByYear.ScheduleLayers` and `FederalByYear.WidowUsesMarriedJoint` state the choice |
| FederalByYear.BeforeCredits | src/tax/federalByYear.js:106-120 | computed by `FederalByYear.CalculateTaxBeforeCredits`; `FederalByYear.BeforeCreditsIsBracketSum`, `FederalByYear.BaselineBeforeCreditsIsBracketSum` and `FederalByYear.BeforeCreditsMonotone` state what it is |
| FederalByYear.Tax | src/tax/federalByYear.js:122-128 | computed by `FederalByYear.CalculateTax`; `FederalByYear.AfterCreditsIsBeforeCredits` states that no credit lowers it |
| FederalByYear.CalculateTaxBeforeCredits | src/tax/federalByYear.js:106-120 | the method computes the rounded bracket tax; income ≤ 0 gives 0 |
| FederalByYear.CalculateTax | src/tax/federalByYear.js:122-128 | nonrefundable credits are 0 and after-credits is max(0, before-credits) |
| FederalByYear.BaselineFallback | src/tax/federalByYear.js:89-99 | a year without a JSON override uses exactly the 2024 baseline |
| FederalByYear.BaselineSchedule | src/tax/federalByYear.js:108 | without an override, the schedule is chosen from the baseline |
| FederalByYear.MergeEntry | src/tax/federalByYear.js:90-93 | in both merged maps, the override's value wins and the base's stays otherwise |
| FederalByYear.StandardDeductionLayers | src/tax/federalByYear.js:101-104 | the deduction comes, in order, from the override's value, the baseline's, the override's single, then the baseline's single |
| FederalByYear.ScheduleLayers | src/tax/federalByYear.js:108 | the schedule is chosen in the same four layers |
| FederalByYear.OverrideScheduleNormalized | src/tax/federalByYear.js:74 | an overriding JSON schedule is used with its length and, bracket by bracket, its rate and its edge normalised: a number kept as a finite edge, `null` unbounded |
| FederalByYear.WidowUsesMarriedJoint | src/tax/federalByYear.js:108 | qualifying widow(er)s use the joint brackets, even though the baseline lists their own |
| FederalByYear.UnknownStatusUsesSingle | src/tax/federalByYear.js:103-108 | an unknown status gets the single schedule, tax and deduction |
| FederalByYear.BeforeCreditsNonPositiveIncome | src/tax/federalByYear.js:106-120 | income ≤ 0 gives 0 |
| FederalByYear.BaseSingleWellFormed | src/tax/federalByYear.js:11-19 | the baseline single brackets ascend, with non-negative rates |
| FederalByYear.BaseMarriedJointWellFormed | src/tax/federalByYear.js:20-28 | the baseline joint brackets ascend, with non-negative rates |
| FederalByYear.BaseMarriedSeparateWellFormed | src/tax/federalByYear.js:29-37 | the baseline separate brackets ascend, with non-negative rates |
| FederalByYear.BaseHeadHouseholdWellFormed | src/tax/federalByYear.js:38-47 | the baseline head-of-household brackets ascend, with non-negative rates |
| FederalByYear.BaseQualifyingWidowWellFormed | src/tax/federalByYear.js:48-56 | the baseline widow(er) brackets ascend, with non-negative rates |
| FederalByYear.BaseBracketsWellFormed | src/tax/federalByYear.js:10-57 | all five baseline schedules are well formed |
| FederalByYear.BaseSchedulesWellFormed | src/tax/federalByYear.js:108 | the baseline schedule chosen for any status is well formed |
| FederalByYear.BaseRatesNonNegative | src/tax/federalByYear.js:10-57 | every baseline rate is non-negative |
| FederalByYear.ScheduleRatesNonNegative | src/tax/federalByYear.js:91-108 | with non-negative JSON rates, every chosen schedule's rates are non-negative |
| FederalByYear.BeforeCreditsMonotone | src/tax/federalByYear.js:106-120 | with non-negative rates, more income never means less tax |
| FederalByYear.AfterCreditsIsBeforeCredits | src/tax/federalByYear.js:122-128 | with non-negative rates, before-credits is non-negative and after-credits equals it |
| FederalByYear.BeforeCreditsIsBracketSum | src/tax/federalByYear.js:106-120 | on an ascending schedule, the tax equals the rounded per-bracket sum |
| FederalByYear.BaselineBeforeCreditsIsBracketSum | src/tax/federalByYear.js:106-120 | without an override, the tax is the rounded per-bracket sum |
| FederalByYear.BaselineSingleAt11600 | src/tax/federalByYear.js:11-12 | single filers with 11600 owe exactly 1160 |
| FederalByYear.BaseSingleFirstBracket | src/tax/federalByYear.js:12 | the first single bracket taxes 11600 at 10% |
| CA2024.CalculateTaxBeforeCredits | src/tax/ca2024.js:94-109 | the method computes the rounded bracket tax plus surtax; income ≤ 0 gives 0 |
| CA2024.CalculateStateTax | src/tax/ca2024.js:111-117 | after-credits is max(0, before − personal − renter's), so never negative |
| CA2024.StandardDeduction | src/tax/ca2024.js:43-54 | `CA2024.DeductionAndCreditByStatus` states the switch, and `CA2024.CreditsAgree` its agreement with the year-keyed engine |
| CA2024.PersonalExemptionCredit | src/tax/ca2024.js:56-67 | `CA2024.DeductionAndCreditByStatus` states the switch |
| CA2024.RentersCredit | src/tax/ca2024.js:87-92 | `CA2024.RentersCreditByStatus` states every case |
| CA2024.ScheduleOf | src/tax/ca2024.js:95 | `CA2024.ScheduleChoice` states the choice per status |
| CA2024.BeforeCredits | src/tax/ca2024.js:94-109 | computed by `CA2024.CalculateTaxBeforeCredits`; `CA2024.BeforeCreditsIsBracketSum` and `CA2024.BeforeCreditsAgree` state what it is |
| CA2024.StateTax | src/tax/ca2024.js:111-117 | computed by `CA2024.CalculateStateTax`; `CA2024.AgreesWithBaseline` and `CA2024.SingleAt60000` state it |
| CA2024.DeductionAndCreditByStatus | src/tax/ca2024.js:43-67 | joint, head-of-household and widow(er) filers get 10726 and 292; all others get 5363 and 146 |
| CA2024.RentersCreditByStatus | src/tax/ca2024.js:71-92 | non-renters get 0; renters get 120 when joint-like, 60 for single or separate, 0 for an unknown status |
| CA2024.ScheduleChoice | src/tax/ca2024.js:95 | widow(er)s use the joint brackets; separate and unknown statuses use single |
| CA2024.SingleAt60000 | src/tax/ca2024.js:94-117 | single with 60000 and not a renter: 2341 before credits, 146 personal credit, 0 renter's credit, 2195 after |
| CA2024.SingleBracketsAt60000 | src/tax/ca2024.js:5-15 | the single brackets give 2341.4 at 60000, rounded to 2341 |
| CA2024.SchedulesMatchBaseline | src/tax/ca2024.js:4-41 | the three literal schedules equal the year-keyed engine's baseline schedules |
| CA2024.ScheduleMatchesBaseline | src/tax/ca2024.js:95 | every status's schedule equals the one the year-keyed engine picks from its baseline |
| CA2024.CreditsMatchBaseline | src/tax/ca2024.js:43-85 | the switch statements and constant tables equal the baseline maps with their single fallback |
| CA2024.AgreesWithBaseline | src/tax/ca2024.js:111-117 | in a baseline year, the deduction and the state-tax result equal the year-keyed engine's |
| CA2024.BeforeCreditsAgree | src/tax/ca2024.js:94-109 | in a baseline year, the tax before credits equals the year-keyed engine's |
| CA2024.CreditsAgree | src/tax/ca2024.js:43-92 | in a baseline year, the deduction, personal credit and renter's credit equal the year-keyed engine's |
| CA2024.SchedulesWellFormed | src/tax/ca2024.js:4-41 | every schedule ascends, with non-negative rates |
| CA2024.BeforeCreditsMonotone | src/tax/ca2024.js:94-109 | more income never means less tax |
| CA2024.BeforeCreditsIsBracketSum | src/tax/ca2024.js:94-109 | the tax is round(per-bracket sum + surtax) |
| ReviewStep.EstimatedTaxIsBracketSum | components/interview/ReviewStep.jsx:97-106 | for non-negative income, the closed-form chain equals the federal 2024 single bracket loop |
| ReviewStep.EstimatedTax | components/interview/ReviewStep.jsx:97-106 | the closed-form chain; `ReviewStep.EstimatedTaxIsBracketSum` equates it with the federal single loop |
| ReviewStep.Figures | components/interview/ReviewStep.jsx:8-13 | the step's figures; `ReviewStep.FiguresDeduction` states them |
| ReviewStep.EstimatedTaxSlope | components/interview/ReviewStep.jsx:97-106 | the estimate is non-negative, and its marginal rate stays between 10% and 37% |
| ReviewStep.EstimateVersusEngine | components/interview/ReviewStep.jsx:97-106 | the federal engine's single tax in a baseline year is the estimate rounded, within half a unit of it |
| ReviewStep.EstimateIsUnrounded | components/interview/ReviewStep.jsx:99 | the estimate keeps fractions (0.1 at an income of 1) |
| ReviewStep.FiguresDeduction | components/interview/ReviewStep.jsx:8-13 | the total is the income total; a truthy flag deducts 13850, otherwise the itemized total; taxable income is total − deduction when positive, else 0; the estimate is `calculateEstimatedTax` of it and non-negative |
| Review.LabelOf | pages/Review.jsx:190-223 | an amount is labelled a refund exactly when it is non-negative, and an amount due otherwise |
| Review.ReturnYear | pages/Review.jsx:81 | the return's year, or the current year when it is missing or 0 |
| Review.Settle | pages/Review.jsx:79-104 | the page's figures; `Review.StandardUnlessFalse`, `Review.DeductionsPerJurisdiction`, `Review.TaxableIncomes` and `Review.Refunds` state them |
| Review.StandardUnlessFalse | pages/Review.jsx:87 | the standard deduction is used unless the flag is exactly `false`, so also when it is missing |
| Review.DeductionsPerJurisdiction | pages/Review.jsx:82-89 | when itemizing, both jurisdictions deduct the same itemized total; otherwise each deducts its own year's standard amount |
| Review.TaxableIncomes | pages/Review.jsx:90-92 | the CA taxable income is total − CA deduction + `ca.adjustments` when positive, else 0; the federal one is total − federal deduction when positive, else 0 |
| Review.Refunds | pages/Review.jsx:93-103 | the state figure is the year-keyed CA engine's result and the federal figure the federal engine's on the federal taxable income; each refund is that withholding (`ca_withholding`, `federal.withholding`) less its tax after credits, never above the withholding, and a refund exactly when withholding covers the tax |
| Review.MissingFlagReadsDifferently | pages/Review.jsx:87-89 | with no flag, the review step itemizes while the review page takes the federal standard deduction |
| Interview.StatusTextInjective | pages/Interview.jsx:115 | different return statuses have different stored strings |
| Interview.StatusText | pages/Interview.jsx:115 | the stored status strings; `Interview.StatusTextInjective` states they are distinct |
| Interview.FirstWord | pages/Interview.jsx:67 | the first name; `Interview.NameSplit` states it |
| Interview.OtherWords | pages/Interview.jsx:68 | the last name; `Interview.NameSplit` states it |
| Interview.FreshPersonalInfo | pages/Interview.jsx:73-76 | the personal section of a fresh return, from the split name |
| Interview.NameSplit | pages/Interview.jsx:66-68 | the first name holds no space; a name with a space is first + " " + rest; a name without one is all first name |
| Interview.SavedStatus | pages/Interview.jsx:115 | a save stores `review` exactly on the last step, and never `completed` |
| Interview.Updated | pages/Interview.jsx:116-120 | a store update; `Interview.UpdatedReads` states its effect |
| Interview.CompletionTaxableIncome | pages/Interview.jsx:133-142 | the completion's taxable income; `Interview.CompletionFigures` and `Interview.CompletionMatchesReview` state it |
| Interview.CompletionStateTax | pages/Interview.jsx:144-147 | the year-keyed state tax on it; `Interview.CompletionMatchesReview` ties it to the review page |
| Interview.Completion | pages/Interview.jsx:133-161 | the computed figures; `Interview.CompletionFigures` and `Interview.CompletionMatchesReview` state them |
| Interview.CompletedReturn | pages/Interview.jsx:152-162 | the stored return after completion, as `Interview.Interview.CompleteReturn` stores it |
| Interview.UpdatedReads | pages/Interview.jsx:116-120 | an update stores the status and year and keeps the calculated tax; sections sent replace stored ones, others stay |
| Interview.Interview.constructor | pages/Interview.jsx:29-37 | the interview starts at step 0 in the current year, with the default form and no return |
| Interview.Interview.StartFresh | pages/Interview.jsx:65-86 | a fresh draft return holds the split name; the form gets defaults for all four sections |
| Interview.Interview.LoadExisting | pages/Interview.jsx:56-64 | the form takes the return's sections, and defaults for missing deductions and California sections |
| Interview.Interview.SaveProgress | pages/Interview.jsx:110-126 | with a return, stores the form, year and status for the step; without one, nothing changes |
| Interview.Interview.CompleteReturn | pages/Interview.jsx:128-169 | with a return, stores the form, year, `completed` and the computed figures; without one, nothing changes |
| Interview.Interview.StoreCompleted | pages/Interview.jsx:152-163 | stores the form, year, `completed` and the given figures on the return |
| Interview.Interview.HandleNext | pages/Interview.jsx:95-102 | before the last step, saves as `in_progress` and advances; on the last step, completes the return and stays |
| Interview.Interview.HandlePrevious | pages/Interview.jsx:104-108 | goes back one step, never below 0; nothing else changes |
| Interview.Interview.UpdateFormData | pages/Interview.jsx:171-176 | only the named section changes, to its old entries overlaid with the new ones |
| Interview.DefaultsAreObjects | pages/Interview.jsx:81-86 | the default sections are objects; standard deduction is on, the renter's flag is off, and months in California is 12 |
| Interview.UpdateReads | pages/Interview.jsx:171-176 | after an update, the section reads the new entry where one was given and the old entry otherwise; other sections read unchanged |
| Interview.StoredReturnMatchesReview | pages/Interview.jsx:133-162 | the stored return is `completed`, has the selected year and the completion's figures; when the form sent holds the four page sections, the review page reading the stored return shows the same state tax and refund |
| Interview.CompletionReadsSections | pages/Interview.jsx:133-161 | two forms that agree on `personal_info`, `income_info`, `deductions` and `ca` give the same four completion figures |
| Interview.CompletionInputsAgree | pages/Interview.jsx:133-149 | such forms give the same filing status, income total, renter flag, withholding, taxable income and state-tax result |
| Interview.CompletionMatchesReview | pages/Interview.jsx:133-150 | for the same form and year, the completion's taxable income is the review page's CA taxable income, and its state tax and refund equal those the page shows |
| Interview.CompletionFigures | pages/Interview.jsx:142-150 | taxable income is total − deduction + adjustments when positive, else 0; federal tax is 22% of it rounded to the dollar; state tax is the engine's tax after credits, ≥ 0; total = federal + state; refund = CA withholding − state tax |

## Left out

- Rendering, routing (`navigate`), loading/saving indicators (`isLoading`, `isSaving`),
  `console.error` and the `try`/`catch` around the store calls are not modelled. The store calls
  are treated as succeeding.
- The remote store (`taxReturn.update`, `TaxReturn.filter`, `TaxReturn.create`) is a value here.
  A stored return is the record the update would write, and the store's reply is taken to be that
  record.
- The store's `state: 'CA'` and user id fields are not modelled.
- The JSON files `ca_data.json` and `fed_data.json` are not part of this model. Their contents
  are a parameter (`raw`) of every engine function.
- A JSON `null` inside the money maps (deductions, credits) is not modelled. Those values are
  plain numbers.
- The clock (`new Date().getFullYear()`) and the signed-in user's name (`user.name`) are
  parameters.
- Changing the selected year re-runs the initialisation effect through React. This is not
  modelled. `StartFresh` and `LoadExisting` are the two outcomes of that initialisation and take
  the year as a parameter.
- The default `status = 'single'` parameter of the before-credits functions is not modelled:
  every caller passes a status.
- Floating point is not modelled. Money and rates are exact reals, so rounding errors of IEEE-754
  arithmetic and `NaN` from non-numeric inputs are out of scope.
- `Math.round` is modelled exactly, halves going up.
- String values in income, withholding and `ca.adjustments` fields are read as 0 by
  `FormData.AsNumber`; the interview steps store numbers there. JavaScript treats them
  differently from place to place:
  - the income `reduce` sums would concatenate them;
  - the review page parses withholding and `ca.adjustments` with `Number`;
  - `completeReturn` adds `ca.adjustments` with `+`, which concatenates a string onto the
    number before `Math.max` parses the result.
  So for a string adjustment the review page and completion would disagree. The model does not
  capture this: `Interview.CompletionMatchesReview` holds because both read the adjustment as a
  number.
- Interview.CompletionMatchesReview: holds only for numeric adjustments, as the line above says.
- A status `Other(n)` whose name `n` is one of the five known names is never produced by
  `Brackets.ParseStatus`. Every status read from the form goes through it. Given such a value
  directly, the engine functions treat it as an unknown status; the source would see the known
  name.
- FormData.FilingStatus: a truthy non-string filing status becomes `Other("")`. JavaScript would
  use its string conversion as the key. The steps only store strings there.
- FederalByYear.AfterCreditsIsBeforeCredits: requires non-negative JSON rates. With a negative
  rate, the tax before credits can be negative and is then floored at 0.
- FederalByYear.BeforeCreditsMonotone: requires non-negative JSON rates. A negative rate can make
  the tax fall as income rises.
- CAByYear.BeforeCreditsMonotone: requires non-negative JSON rates, for the same reason.
- CAByYear.TaxOnScheduleNonNegative: requires non-negative rates. A negative rate gives a negative
  tax.
- CAByYear.BeforeCreditsIsBracketSum: requires the chosen schedule's edges to ascend from 0. Every
  literal schedule does, but an overriding JSON schedule may not.
- FederalByYear.BeforeCreditsIsBracketSum: requires the chosen schedule's edges to ascend from 0,
  as its California counterpart does; an overriding JSON schedule may not.
- Brackets.AccumulateIsSliceSum: requires ascending edges, because the per-bracket sum means
  nothing without them.
- Only the figures of `ReviewStep.jsx` (its lines 8-13 and `calculateEstimatedTax`) are modelled,
  not its markup.
- Only the settlement figures of `Review.jsx` (its lines 79-104) are modelled, not its display.
- The remaining pages and components are not modelled: dashboard, documents, forms, assistant,
  the other interview steps and the UI kit. They only display data or collect input, and none of
  them computes the tax.
