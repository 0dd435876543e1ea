/**
 * The interview's form data as the pages read it: sections are JavaScript objects (entries in
 * insertion order) of JSON values, and the totals are the `reduce` expressions of
 * components/interview/ReviewStep.jsx, pages/Review.jsx and pages/Interview.jsx.
 */
module FormData {
  import opened Wrappers
  import opened Brackets

  /** A JSON value stored in a section. */
  datatype Value = Num(n: real) | Bool(b: bool) | Str(s: string) | Null

  /** An object's own entries, in insertion order; a JavaScript object never repeats a key. */
  type Section = seq<(string, Value)>

  /** The record of sections (`personal_info`, `income_info`, `deductions`, `ca`, `federal`). */
  type Form = map<string, Section>

  predicate KeysDistinct(s: Section)
  {
    forall i, j :: 0 <= i < j < |s| ==> s[i].0 != s[j].0
  }

  /** The keys of an object. */
  function Keys(s: Section): set<string>
  {
    set i | 0 <= i < |s| :: s[i].0
  }

  /** `obj[key]`, `None` for `undefined`. */
  function Get(s: Section, key: string): (r: Option<Value>)
    ensures r.Some? <==> key in Keys(s)
    decreases |s|
  {
    if s == [] then None
    else if s[0].0 == key then Some(s[0].1)
    else
      var r := Get(s[1..], key);
      KeysTail(s);
      r
  }

  /** A key reads the value of its first entry: the one no earlier entry with that key shadows. */
  lemma {:induction false} GetFirst(s: Section, key: string, i: nat)
    requires i < |s| && s[i].0 == key
    requires forall j :: 0 <= j < i ==> s[j].0 != key
    ensures Get(s, key) == Some(s[i].1)
    decreases i
  {
    if i > 0 {
      assert s[0].0 != key;
      forall j | 0 <= j < i - 1 ensures s[1..][j].0 != key {
        assert s[1..][j] == s[j + 1];
      }
      GetFirst(s[1..], key, i - 1);
    }
  }

  /** A value read from an object is that of the key's first entry. */
  lemma {:induction false} GetFound(s: Section, key: string)
    requires Get(s, key).Some?
    ensures exists i :: 0 <= i < |s| && s[i].0 == key && Get(s, key).value == s[i].1 &&
                        (forall j :: 0 <= j < i ==> s[j].0 != key)
    decreases |s|
  {
    if s[0].0 != key {
      GetFound(s[1..], key);
      var i :| 0 <= i < |s[1..]| && s[1..][i].0 == key && Get(s[1..], key).value == s[1..][i].1 &&
               (forall j :: 0 <= j < i ==> s[1..][j].0 != key);
      assert s[i + 1] == s[1..][i];
      forall j | 0 <= j < i + 1 ensures s[j].0 != key {
        if j > 0 { assert s[j] == s[1..][j - 1]; }
      }
    }
  }

  lemma KeysTail(s: Section)
    requires s != []
    ensures Keys(s) == {s[0].0} + Keys(s[1..])
  {
    forall k | k in Keys(s) ensures k in {s[0].0} + Keys(s[1..]) {
      var i :| 0 <= i < |s| && s[i].0 == k;
      if i > 0 {
        assert s[1..][i - 1] == s[i];
      }
    }
    forall k | k in Keys(s[1..]) ensures k in Keys(s) {
      var i :| 0 <= i < |s[1..]| && s[1..][i].0 == k;
      assert s[i + 1] == s[1..][i];
    }
  }

  lemma KeysDistinctTail(s: Section)
    requires s != [] && KeysDistinct(s)
    ensures KeysDistinct(s[1..]) && s[0].0 !in Keys(s[1..])
  {
    forall i, j | 0 <= i < j < |s| - 1 ensures s[1..][i].0 != s[1..][j].0 {
      assert s[1..][i] == s[i + 1] && s[1..][j] == s[j + 1];
    }
    forall i | 0 <= i < |s| - 1 ensures s[1..][i].0 != s[0].0 {
      assert s[1..][i] == s[i + 1];
    }
  }

  /** `obj[key] = value`: an existing key keeps its place, a new key goes last. */
  function Put(s: Section, key: string, value: Value): Section
    decreases |s|
  {
    if s == [] then [(key, value)]
    else if s[0].0 == key then [(key, value)] + s[1..]
    else [s[0]] + Put(s[1..], key, value)
  }

  /** After `obj[key] = value`, `key` reads `value` and every other key reads as before. */
  lemma {:induction false} PutGet(s: Section, key: string, value: Value, k: string)
    ensures Get(Put(s, key, value), k) == if k == key then Some(value) else Get(s, k)
    decreases |s|
  {
    if s != [] && s[0].0 != key {
      var r := Put(s, key, value);
      assert r[0] == s[0] && r[1..] == Put(s[1..], key, value);
      PutGet(s[1..], key, value, k);
    }
  }

  /** The assignment adds `key` to the keys and keeps them distinct. */
  lemma {:induction false} PutKeys(s: Section, key: string, value: Value)
    ensures Keys(Put(s, key, value)) == Keys(s) + {key}
    ensures KeysDistinct(s) ==> KeysDistinct(Put(s, key, value))
    decreases |s|
  {
    var r := Put(s, key, value);
    if s == [] {
      KeysTail(r);
      assert Keys(r[1..]) == {};
    } else if s[0].0 == key {
      KeysTail(s);
      KeysTail(r);
      assert r[1..] == s[1..];
      if KeysDistinct(s) {
        forall i, j | 0 <= i < j < |r| ensures r[i].0 != r[j].0 {
          assert r[j] == s[j];
          if i > 0 {
            assert r[i] == s[i];
          }
        }
      }
    } else {
      PutKeys(s[1..], key, value);
      KeysTail(s);
      assert r[0] == s[0] && r[1..] == Put(s[1..], key, value);
      KeysTail(r);
      if KeysDistinct(s) {
        KeysDistinctTail(s);
        var t := r[1..];
        assert KeysDistinct(t);
        assert r[0].0 !in Keys(t);
        forall i, j | 0 <= i < j < |r| ensures r[i].0 != r[j].0 {
          assert r[j] == t[j - 1];
          if i > 0 {
            assert r[i] == t[i - 1];
          } else {
            assert t[j - 1].0 in Keys(t);
          }
        }
      }
    }
  }

  /** An object spread of `data` over `prev`: the entries of `data`, in order, written over those of `prev`. */
  function Spread(prev: Section, data: Section): Section
    decreases |data|
  {
    if data == [] then prev else Spread(Put(prev, data[0].0, data[0].1), data[1..])
  }

  /** After the spread a key reads as in `data` when `data` has it, and as in `prev` otherwise. */
  lemma {:induction false} SpreadGet(prev: Section, data: Section, key: string)
    requires KeysDistinct(data)
    ensures Get(Spread(prev, data), key) == if Get(data, key).Some? then Get(data, key) else Get(prev, key)
    decreases |data|
  {
    if data != [] {
      var next := Put(prev, data[0].0, data[0].1);
      KeysDistinctTail(data);
      SpreadGet(next, data[1..], key);
      PutGet(prev, data[0].0, data[0].1, key);
    }
  }

  /** The spread of an object into an object is again an object. */
  lemma {:induction false} SpreadKeysDistinct(prev: Section, data: Section)
    requires KeysDistinct(prev)
    ensures KeysDistinct(Spread(prev, data))
    decreases |data|
  {
    if data != [] {
      PutKeys(prev, data[0].0, data[0].1);
      SpreadKeysDistinct(Put(prev, data[0].0, data[0].1), data[1..]);
    }
  }

  /** A section of the form; a missing section reads as an empty object. */
  function SectionOf(form: Form, name: string): Section
  {
    if name in form then form[name] else []
  }

  /** A field of a section; missing when the section or the key is. */
  function Field(form: Form, section: string, key: string): Option<Value>
  {
    Get(SectionOf(form, section), key)
  }

  /** JavaScript truthiness of a stored value; `undefined` is `None`. */
  predicate Truthy(v: Option<Value>)
  {
    match v
    case None => false
    case Some(Num(n)) => n != 0.0
    case Some(Bool(b)) => b
    case Some(Str(s)) => s != ""
    case Some(Null) => false
  }

  /** A value read as a number, a falsy value standing for 0: `true` counts 1, a falsy value 0. */
  function AsNumber(v: Option<Value>): (r: real)
    ensures !Truthy(v) ==> r == 0.0
    ensures v.Some? && v.value.Num? ==> r == v.value.n
  {
    match v
    case Some(Num(n)) => n
    case Some(Bool(b)) => if b then 1.0 else 0.0
    case _ => 0.0
  }

  /** A value's numeric part: a number is itself, anything else 0. */
  function NumberPart(v: Value): real
  {
    if v.Num? then v.n else 0.0
  }

  /** The sum of a section's values, each coerced as a falsy-to-0 addition coerces it. */
  function ValuesTotal(s: Section): real
    decreases |s|
  {
    if s == [] then 0.0 else AsNumber(Some(s[0].1)) + ValuesTotal(s[1..])
  }

  /** The sum of a section's numeric values; other values add nothing. */
  function NumericTotal(s: Section): real
    decreases |s|
  {
    if s == [] then 0.0 else NumberPart(s[0].1) + NumericTotal(s[1..])
  }

  const StandardDeductionKey: string := "standard_deduction"

  /** The itemized total: the numeric entries other than `standard_deduction`. */
  function ItemizedTotal(s: Section): real
    decreases |s|
  {
    if s == [] then 0.0
    else (if s[0].0 == StandardDeductionKey then 0.0 else NumberPart(s[0].1)) + ItemizedTotal(s[1..])
  }

  /**
   * Summing every numeric value is the itemized total plus whatever number sits under the
   * `standard_deduction` key; the `typeof` test drops the usual boolean flag.
   */
  lemma {:induction false} NumericTotalSplitsFlag(s: Section)
    requires KeysDistinct(s)
    ensures NumericTotal(s) == ItemizedTotal(s) +
      match Get(s, StandardDeductionKey) case Some(v) => NumberPart(v) case None => 0.0
    decreases |s|
  {
    if s != [] {
      KeysDistinctTail(s);
      NumericTotalSplitsFlag(s[1..]);
    }
  }

  /** The standard deduction is chosen unless the flag is exactly `false`: only an explicit `false` selects itemizing. */
  predicate UseStandard(deductions: Section)
  {
    Get(deductions, StandardDeductionKey) != Some(Bool(false))
  }

  /** The standard amount or the itemized total, as Review and completion choose a deduction. */
  function ChosenDeduction(deductions: Section, standard: real): (d: real)
    ensures UseStandard(deductions) ==> d == standard
    ensures !UseStandard(deductions) ==> d == ItemizedTotal(deductions)
  {
    if UseStandard(deductions) then standard else ItemizedTotal(deductions)
  }

  /**
   * The filing status, `single` when the field is falsy.  A truthy value that is not a string becomes a
   * key no table names (`Other("")`; no string reaches it, since `""` is falsy).
   */
  function FilingStatus(form: Form): (s: Status)
    ensures !Truthy(Field(form, "personal_info", "filing_status")) ==> s == Single
    ensures (Field(form, "personal_info", "filing_status").Some? && Field(form, "personal_info", "filing_status").value.Str?
             && Field(form, "personal_info", "filing_status").value.s != "") ==>
      StatusName(s) == Field(form, "personal_info", "filing_status").value.s
  {
    var v := Field(form, "personal_info", "filing_status");
    if !Truthy(v) then Single
    else if v.value.Str? then ParseStatus(v.value.s)
    else Other("")
  }

  /** The total income: the values of `income_info`, falsy ones as 0. */
  function TotalIncome(form: Form): real
  {
    ValuesTotal(SectionOf(form, "income_info"))
  }
}
