/**
 * The progressive-bracket calculator shared by the federal and California engines
 * (src/tax/caByYear.js, src/tax/federalByYear.js and src/tax/ca2024.js each carry
 * the same loop).  Money and rates are exact reals.
 */
module Brackets {
  import opened Wrappers

  /** An upper bracket edge; `Unbounded` is JavaScript's `Infinity` (`null` in the JSON tables). */
  datatype Bound = Finite(value: real) | Unbounded

  /** `{ upTo, rate }` */
  datatype Bracket = Bracket(upTo: Bound, rate: real)

  /** Brackets as read from a JSON table, before normalisation: `upTo: null` is `None`. */
  datatype RawBracket = RawBracket(upTo: Option<real>, rate: real)

  type Schedule = seq<Bracket>

  /**
   * A filing status key.  The interview stores statuses as strings and the tables are keyed by
   * them; the five names the source spells out get their own constructor, and any other string
   * (an unknown status, or a key of a JSON table) is `Other`.
   */
  datatype Status = Single | MarriedJoint | MarriedSeparate | HeadHousehold | QualifyingWidow | Other(name: string)

  /** The string a status key is spelled with. */
  function StatusName(s: Status): string
  {
    match s
    case Single => "single"
    case MarriedJoint => "married_joint"
    case MarriedSeparate => "married_separate"
    case HeadHousehold => "head_household"
    case QualifyingWidow => "qualifying_widow"
    case Other(name) => name
  }

  /** The status key a string names; `Other` only for strings that are none of the five names. */
  function ParseStatus(name: string): (s: Status)
    ensures StatusName(s) == name
    ensures s.Other? ==> name !in {"single", "married_joint", "married_separate", "head_household", "qualifying_widow"}
  {
    if name == "single" then Single
    else if name == "married_joint" then MarriedJoint
    else if name == "married_separate" then MarriedSeparate
    else if name == "head_household" then HeadHousehold
    else if name == "qualifying_widow" then QualifyingWidow
    else Other(name)
  }

  /** Two different keys are spelled differently, so a string names one key only. */
  lemma ParseStatusInverse(s: Status)
    requires s.Other? ==> s.name !in {"single", "married_joint", "married_separate", "head_household", "qualifying_widow"}
    ensures ParseStatus(StatusName(s)) == s
  {
  }

  function Max(a: real, b: real): real { if a >= b then a else b }

  function Min(a: real, b: real): real { if a <= b then a else b }

  /** `Math.round`: the nearest integer, halves rounded up. */
  function Round(x: real): (r: int)
    ensures x - 0.5 < r as real <= x + 0.5
  {
    (x + 0.5).Floor
  }

  lemma RoundMonotone(x: real, y: real)
    requires x <= y
    ensures Round(x) <= Round(y)
  {
  }

  /** `x > limit`, where an unbounded limit is never exceeded. */
  predicate Exceeds(x: real, limit: Bound)
  {
    limit.Finite? && x > limit.value
  }

  /** A JSON `null` limit becomes unbounded; a number becomes that finite bound. */
  function NormalizeBound(v: Option<real>): (b: Bound)
    ensures b.Unbounded? <==> v.None?
    ensures v.Some? ==> b == Finite(v.value)
  {
    match v
    case None => Unbounded
    case Some(x) => Finite(x)
  }

  /** A JSON bracket array, normalised: a missing array is empty, and a `null` edge is unbounded. */
  function NormalizeSchedule(arr: Option<seq<RawBracket>>): (s: Schedule)
    ensures arr.None? ==> s == []
    ensures arr.Some? ==> |s| == |arr.value|
    ensures arr.Some? ==> forall i :: 0 <= i < |s| ==>
      s[i].rate == arr.value[i].rate && s[i].upTo == NormalizeBound(arr.value[i].upTo)
  {
    match arr
    case None => []
    case Some(a) => seq(|a|, i requires 0 <= i < |a| => Bracket(NormalizeBound(a[i].upTo), a[i].rate))
  }

  /** `normalizeBrackets`: every status key of the JSON keeps its key, with a normalised schedule. */
  function NormalizeBrackets(raw: map<Status, Option<seq<RawBracket>>>): (m: map<Status, Schedule>)
    ensures m.Keys == raw.Keys
  {
    map k | k in raw :: NormalizeSchedule(raw[k])
  }

  /** The per-year table store: a table, built from the baseline and the year's override, for each supported year. */
  function YearTables<T>(years: set<int>, build: int -> T): (tables: map<int, T>)
    ensures tables.Keys == years
  {
    map y | y in years :: build(y)
  }

  /**
   * The schedule for a filing status: widow(er)s use the joint brackets, a listed status its own,
   * and any other status the single brackets.
   * An array is always truthy, so a status that has any entry (even an empty one) uses it.
   * Both keys it may fall back on must exist, or the source's `for … of` would throw.
   */
  function ScheduleFor(brackets: map<Status, Schedule>, status: Status): (s: Schedule)
    requires Single in brackets && MarriedJoint in brackets
    ensures status == QualifyingWidow ==> s == brackets[MarriedJoint]
    ensures status != QualifyingWidow && status in brackets ==> s == brackets[status]
    ensures status !in brackets && status != QualifyingWidow ==> s == brackets[Single]
  {
    if status == QualifyingWidow then brackets[MarriedJoint]
    else if status in brackets then brackets[status]
    else brackets[Single]
  }

  /** The status's entry, or the single entry when the status has none. */
  function OrSingle(m: map<Status, real>, status: Status): real
    requires Single in m
  {
    if status in m then m[status] else m[Single]
  }

  /** The lookup with single fallback over a merged map, in terms of the override and the baseline. */
  lemma OrSingleOverMerge(base: map<Status, real>, over: map<Status, real>, status: Status)
    requires Single in base
    ensures OrSingle(base + over, status) ==
      if status in over then over[status]
      else if status in base then base[status]
      else if Single in over then over[Single]
      else base[Single]
  {
  }

  predicate RawScheduleNonNegative(arr: Option<seq<RawBracket>>)
  {
    arr.Some? ==> forall i :: 0 <= i < |arr.value| ==> 0.0 <= arr.value[i].rate
  }

  /** Laying non-negative JSON schedules over non-negative ones keeps every chosen schedule non-negative. */
  lemma MergedRatesNonNegative(base: map<Status, Schedule>, over: map<Status, Option<seq<RawBracket>>>, status: Status)
    requires Single in base && MarriedJoint in base
    requires forall k :: k in base ==> NonNegativeRates(base[k])
    requires forall k :: k in over ==> RawScheduleNonNegative(over[k])
    ensures NonNegativeRates(ScheduleFor(base + NormalizeBrackets(over), status))
  {
    var m := base + NormalizeBrackets(over);
    var k := if status == QualifyingWidow then MarriedJoint else if status in m then status else Single;
    assert ScheduleFor(m, status) == m[k];
    if k in over {
      assert m[k] == NormalizeSchedule(over[k]);
      assert RawScheduleNonNegative(over[k]);
    }
  }

  /**
   * The bracket's width, capped by the remaining income and floored at 0: the part of the remaining income
   * that falls into a bracket whose lower edge is `prev`.
   */
  function Amount(remaining: real, prev: real, upTo: Bound): (a: real)
    ensures 0.0 <= a <= Max(0.0, remaining)
    ensures upTo.Unbounded? ==> remaining - a <= 0.0
  {
    match upTo
    case Finite(u) => Max(0.0, Min(remaining, u - prev))
    case Unbounded => Max(0.0, remaining)
  }

  /** `amount * b.rate`: the tax one bracket adds, given the remaining income and the previous edge. */
  function Share(b: Bracket, remaining: real, prev: real): real
  {
    Amount(remaining, prev, b.upTo) * b.rate
  }

  /**
   * What the source's bracket loop accumulates from bracket `bs[0]` on, given the income still
   * `remaining` and the previous edge `prev`: that bracket's share plus what the brackets above
   * collect.
   */
  function Accumulate(bs: Schedule, remaining: real, prev: real): real
    decreases |bs|, 1
  {
    if bs == [] then 0.0 else Share(bs[0], remaining, prev) + Above(bs, remaining, prev)
  }

  /**
   * What the brackets above `bs[0]` collect: nothing once no income remains (the `break`).
   * An unbounded bracket always consumes all that remains, so the next lower edge is finite.
   */
  function Above(bs: Schedule, remaining: real, prev: real): real
    requires bs != []
    decreases |bs|, 0
  {
    var rest := remaining - Amount(remaining, prev, bs[0].upTo);
    if rest <= 0.0 then 0.0 else Accumulate(bs[1..], rest, bs[0].upTo.value)
  }

  /** The bracket loop as written: mutable `remaining`, `prev` and `tax`, with an early `break`. */
  method AccumulateBrackets(bs: Schedule, taxableIncome: real) returns (tax: real)
    ensures tax == Accumulate(bs, taxableIncome, 0.0)
    ensures taxableIncome <= 0.0 ==> tax == 0.0
  {
    var remaining := taxableIncome;
    var prev := 0.0;
    tax := 0.0;
    var i := 0;
    while i < |bs|
      invariant 0 <= i <= |bs|
      invariant tax + Accumulate(bs[i..], remaining, prev) == Accumulate(bs, taxableIncome, 0.0)
    {
      var b := bs[i];
      var amount := Amount(remaining, prev, b.upTo);
      AccumulateStep(bs, i, remaining, prev);
      tax := tax + amount * b.rate;
      remaining := remaining - amount;
      // The source assigns `prev` before testing; `prev` is not read after the break.
      if remaining <= 0.0 {
        break;
      }
      prev := b.upTo.value;
      i := i + 1;
    }
    if taxableIncome <= 0.0 {
      AccumulateNothingRemaining(bs, taxableIncome, 0.0);
    }
  }

  /** One turn of the loop: the accumulation from bracket `i` is bracket `i`'s share plus the rest. */
  lemma AccumulateStep(bs: Schedule, i: nat, remaining: real, prev: real)
    requires i < |bs|
    ensures
      var rest := remaining - Amount(remaining, prev, bs[i].upTo);
      Accumulate(bs[i..], remaining, prev) ==
        Share(bs[i], remaining, prev) + (if rest <= 0.0 then 0.0 else Accumulate(bs[i + 1..], rest, bs[i].upTo.value))
  {
    assert bs[i..][0] == bs[i] && bs[i..][1..] == bs[i + 1..];
  }

  /** A bracket the remaining income more than fills contributes its whole width. */
  lemma AccumulateFullBracket(bs: Schedule, i: nat, remaining: real, prev: real)
    requires i < |bs| && bs[i].upTo.Finite?
    requires prev <= bs[i].upTo.value < prev + remaining
    ensures Accumulate(bs[i..], remaining, prev) ==
      (bs[i].upTo.value - prev) * bs[i].rate +
      Accumulate(bs[i + 1..], remaining - (bs[i].upTo.value - prev), bs[i].upTo.value)
  {
    AccumulateStep(bs, i, remaining, prev);
  }

  /** A finite bracket with room for all the remaining income takes it all, and the loop stops. */
  lemma AccumulateLastBracket(bs: Schedule, i: nat, remaining: real, prev: real)
    requires i < |bs| && bs[i].upTo.Finite?
    requires 0.0 < remaining <= bs[i].upTo.value - prev
    ensures Accumulate(bs[i..], remaining, prev) == remaining * bs[i].rate
  {
    AccumulateStep(bs, i, remaining, prev);
  }

  /** An unbounded bracket takes all the remaining income. */
  lemma AccumulateTopBracket(bs: Schedule, i: nat, remaining: real, prev: real)
    requires i < |bs| && bs[i].upTo.Unbounded? && remaining > 0.0
    ensures Accumulate(bs[i..], remaining, prev) == remaining * bs[i].rate
  {
    AccumulateStep(bs, i, remaining, prev);
  }

  predicate NonNegativeRates(bs: Schedule)
  {
    forall i :: 0 <= i < |bs| ==> 0.0 <= bs[i].rate
  }

  /** Finite edges strictly increase from `lo`; an unbounded edge ends what is read. */
  predicate AscendingFrom(bs: Schedule, lo: real)
    decreases |bs|
  {
    bs == [] ||
    match bs[0].upTo
    case Unbounded => true
    case Finite(u) => lo < u && AscendingFrom(bs[1..], u)
  }

  /** A schedule the bracket readings below apply to: non-negative rates, edges ascending from zero. */
  predicate WellFormed(bs: Schedule)
  {
    NonNegativeRates(bs) && AscendingFrom(bs, 0.0)
  }

  /** When every schedule of a table is well formed, so is every schedule `ScheduleFor` can pick. */
  lemma ScheduleForWellFormed(brackets: map<Status, Schedule>, status: Status)
    requires Single in brackets && MarriedJoint in brackets
    requires forall k :: k in brackets ==> WellFormed(brackets[k])
    ensures WellFormed(ScheduleFor(brackets, status))
  {
  }

  /** The income inside the bracket `(lo, upTo]`. */
  function Slice(income: real, lo: real, upTo: Bound): real
  {
    match upTo
    case Finite(hi) => Max(0.0, Min(income, hi) - lo)
    case Unbounded => Max(0.0, income - lo)
  }

  /** Reference definition: the sum of `rate × (income inside each bracket)`. */
  function SliceSum(bs: Schedule, income: real, lo: real): real
    decreases |bs|
  {
    if bs == [] then 0.0
    else
      bs[0].rate * Slice(income, lo, bs[0].upTo) +
      match bs[0].upTo
      case Unbounded => 0.0
      case Finite(hi) => SliceSum(bs[1..], income, hi)
  }

  lemma AccumulateNothingRemaining(bs: Schedule, remaining: real, prev: real)
    requires remaining <= 0.0
    ensures Accumulate(bs, remaining, prev) == 0.0
  {
  }

  lemma {:induction false} AccumulateNonNegative(bs: Schedule, remaining: real, prev: real)
    requires NonNegativeRates(bs)
    ensures Accumulate(bs, remaining, prev) >= 0.0
    decreases |bs|
  {
    if bs != [] {
      ShareNonNegative(bs[0], remaining, prev);
      var rest := remaining - Amount(remaining, prev, bs[0].upTo);
      if rest > 0.0 {
        NonNegativeRatesTail(bs);
        AccumulateNonNegative(bs[1..], rest, bs[0].upTo.value);
      }
    }
  }

  lemma ShareNonNegative(b: Bracket, remaining: real, prev: real)
    requires 0.0 <= b.rate
    ensures Share(b, remaining, prev) >= 0.0
  {
  }

  lemma MulMonotone(a: real, b: real, r: real)
    requires a <= b && 0.0 <= r
    ensures a * r <= b * r
  {
    var d := b - a;
    assert 0.0 <= d * r;
    assert b * r == a * r + d * r;
  }

  lemma NonNegativeRatesTail(bs: Schedule)
    requires bs != [] && NonNegativeRates(bs)
    ensures NonNegativeRates(bs[1..])
  {
    forall i | 0 <= i < |bs| - 1
      ensures 0.0 <= bs[1..][i].rate
    {
      assert bs[1..][i] == bs[i + 1];
    }
  }

  /** More remaining income fills a bracket no less, and leaves no less for the brackets above. */
  lemma AmountMonotone(r1: real, r2: real, prev: real, upTo: Bound)
    requires r1 <= r2
    ensures Amount(r1, prev, upTo) <= Amount(r2, prev, upTo)
    ensures r1 - Amount(r1, prev, upTo) <= r2 - Amount(r2, prev, upTo)
  {
  }

  /** A bracket's share never shrinks as the remaining income grows, when its rate is not negative. */
  lemma ShareMonotone(b: Bracket, r1: real, r2: real, prev: real)
    requires 0.0 <= b.rate && r1 <= r2
    ensures Share(b, r1, prev) <= Share(b, r2, prev)
  {
    AmountMonotone(r1, r2, prev, b.upTo);
    MulMonotone(Amount(r1, prev, b.upTo), Amount(r2, prev, b.upTo), b.rate);
  }

  /** More income never gives less tax from the brackets when no rate is negative. */
  lemma {:induction false} AccumulateMonotone(bs: Schedule, r1: real, r2: real, prev: real)
    requires NonNegativeRates(bs)
    requires r1 <= r2
    ensures Accumulate(bs, r1, prev) <= Accumulate(bs, r2, prev)
    decreases |bs|, 1
  {
    if bs != [] {
      ShareMonotone(bs[0], r1, r2, prev);
      AboveMonotone(bs, r1, r2, prev);
    }
  }

  lemma {:induction false} AboveMonotone(bs: Schedule, r1: real, r2: real, prev: real)
    requires bs != [] && NonNegativeRates(bs)
    requires r1 <= r2
    ensures Above(bs, r1, prev) <= Above(bs, r2, prev)
    decreases |bs|, 0
  {
    AmountMonotone(r1, r2, prev, bs[0].upTo);
    var rest1 := r1 - Amount(r1, prev, bs[0].upTo);
    var rest2 := r2 - Amount(r2, prev, bs[0].upTo);
    if rest2 > 0.0 {
      NonNegativeRatesTail(bs);
      AccumulateNonNegative(bs[1..], rest2, bs[0].upTo.value);
      if rest1 > 0.0 {
        AccumulateMonotone(bs[1..], rest1, rest2, bs[0].upTo.value);
      }
    }
  }

  lemma {:induction false} SliceSumBelow(bs: Schedule, income: real, lo: real)
    requires AscendingFrom(bs, lo)
    requires income <= lo
    ensures SliceSum(bs, income, lo) == 0.0
    decreases |bs|
  {
    if bs != [] {
      assert Slice(income, lo, bs[0].upTo) == 0.0;
      if bs[0].upTo.Finite? {
        SliceSumBelow(bs[1..], income, bs[0].upTo.value);
      }
    }
  }

  /**
   * For ascending edges, the loop's running accumulation (income `income - lo` left above the
   * edge `lo`) is the reference sum of rate times the income inside each bracket.
   */
  lemma {:induction false} AccumulateIsSliceSum(bs: Schedule, income: real, lo: real)
    requires AscendingFrom(bs, lo)
    ensures Accumulate(bs, income - lo, lo) == SliceSum(bs, income, lo)
    decreases |bs|
  {
    if bs != [] {
      var rem := income - lo;
      var a := Amount(rem, lo, bs[0].upTo);
      var rest := rem - a;
      if rem <= 0.0 {
        SliceSumBelow(bs, income, lo);
      } else {
        assert a == Slice(income, lo, bs[0].upTo);
        match bs[0].upTo
        case Unbounded =>
        case Finite(hi) =>
          if rest <= 0.0 {
            SliceSumBelow(bs[1..], income, hi);
          } else {
            assert rest == income - hi;
            AccumulateIsSliceSum(bs[1..], income, hi);
          }
      }
    }
  }

  /** The loop, started as the source starts it, computes the reference bracket sum. */
  lemma BracketTaxIsSliceSum(bs: Schedule, income: real)
    requires AscendingFrom(bs, 0.0)
    ensures Accumulate(bs, income, 0.0) == SliceSum(bs, income, 0.0)
  {
    AccumulateIsSliceSum(bs, income, 0.0);
    assert income - 0.0 == income;
  }
}
