/**
 * The single-file validators of func_validator/_validators.py. Sign checks compare with
 * the int 0 and spell the relation out in words; the comparison factories are the same
 * code as those of func_validator/_validators/_numeric_validators.py; MustBeIn tests
 * membership in `set(value_set)`; MustBeBetween is always inclusive; and the two length
 * checks write their own messages.
 */
module LegacyValidators {
  import opened Core
  import LC = LegacyCore
  import LNV = LegacyNumericValidators
  import LCA = LegacyCollectionArgValidators

  /** A sign check: `fn(value, 0)`, else ValueError `Value <value>` followed by the check's own wording. */
  function SignCheck(value: Value, fn: CmpOp, wording: string): Outcome
  {
    match Compare(fn, value, IntV(0))
    case None => Fail(TypeError(Unorderable(fn, value, IntV(0))))
    case Some(ok) =>
      if ok then Pass else Fail(ValueError("Value " + (Show(value) + wording)))
  }

  function MustBePositive(value: Value): Outcome
  {
    SignCheck(value, Gt, " must be greater than 0.")
  }

  function MustBeNonPositive(value: Value): Outcome
  {
    SignCheck(value, Le, " must be less than or equal to 0.")
  }

  function MustBeNegative(value: Value): Outcome
  {
    SignCheck(value, Lt, " must be less than 0.")
  }

  function MustBeNonNegative(value: Value): Outcome
  {
    SignCheck(value, Ge, " must be greater than or equal to 0.")
  }

  /** `partial(_comparison_validator, to=value, fn=..., symbol=...)`; `_comparison_validator` is the generic check. */
  function MustBeEqual(value: Value): LNV.Comparison
  {
    LNV.Comparison(Eq, value, "==")
  }

  function MustBeNotEqual(value: Value): LNV.Comparison
  {
    LNV.Comparison(Ne, value, "!=")
  }

  function MustBeGreaterThan(value: Value): LNV.Comparison
  {
    LNV.Comparison(Gt, value, ">")
  }

  function MustBeGreaterThanOrEqual(value: Value): LNV.Comparison
  {
    LNV.Comparison(Ge, value, ">=")
  }

  function MustBeLessThan(value: Value): LNV.Comparison
  {
    LNV.Comparison(Lt, value, "<")
  }

  function MustBeLessThanOrEqual(value: Value): LNV.Comparison
  {
    LNV.Comparison(Le, value, "<=")
  }

  // ---------------------------------------------------------------------------
  // Membership

  /** `hash(v)` succeeds: lists are unhashable. */
  predicate Hashable(v: Value)
  {
    !v.ListV?
  }

  const UNHASHABLE_LIST := "unhashable type: 'list'"

  predicate AllHashable(xs: seq<Value>)
  {
    forall k :: 0 <= k < |xs| ==> Hashable(xs[k])
  }

  /** The elements `set(value_set)` is built from: iterating value_set, each element must be hashable. */
  function SetElements(valueSet: Value): Result<seq<Value>>
  {
    match Elements(valueSet)
    case Err(e) => Err(e)
    case Ok(xs) =>
      if AllHashable(xs) then Ok(xs) else Err(TypeError(UNHASHABLE_LIST))
  }

  /**
   * The validator MustBeIn returns. `shown` is `str(set(value_set))`: its element order
   * is CPython's hash order, so the model takes it as given.
   */
  datatype MemberValidator = MemberValidator(valueSet: Value, shown: string)
  {
    function Call(value: Value): Outcome
    {
      match SetElements(valueSet)
      case Err(e) => Fail(e)
      case Ok(xs) =>
        if !Hashable(value) then Fail(TypeError(UNHASHABLE_LIST))
        else if ListContains(xs, value) then Pass
        else Fail(ValueError("Value " + (Show(value) + (" must be in " + shown))))
    }
  }

  // ---------------------------------------------------------------------------
  // Range

  /** `_must_be_between(value, min_value=..., max_value=...)`: `min <= value <= max`, the upper bound compared only when the lower holds. */
  function MustBeBetweenCheck(value: Value, minValue: Value, maxValue: Value): Outcome
  {
    match Compare(Ge, value, minValue)
    case None => Fail(TypeError(Unorderable(Ge, value, minValue)))
    case Some(aboveMin) =>
      var belowMax := if aboveMin then Compare(Le, value, maxValue) else Some(false);
      match belowMax
      case None => Fail(TypeError(Unorderable(Le, value, maxValue)))
      case Some(ok) =>
        if ok then Pass
        else Fail(ValueError("Value " + (Show(value) + (" must be between " + (Show(minValue) + (" and " + (Show(maxValue) + ".")))))))
  }

  function BetweenCheck(minValue: Value, maxValue: Value): Value -> Outcome
  {
    value => MustBeBetweenCheck(value, minValue, maxValue)
  }

  /** What MustHaveValuesBetween's validator does: iterate, stop at the first value out of range. */
  function ValuesBetweenOutcome(minValue: Value, maxValue: Value, values: Value): Outcome
  {
    match Elements(values)
    case Err(e) => Fail(e)
    case Ok(xs) => FirstFailure(BetweenCheck(minValue, maxValue), xs)
  }

  /** `MustHaveValuesBetween(min_value=..., max_value=...)(values)`. */
  method MustHaveValuesBetween(minValue: Value, maxValue: Value, values: Value) returns (r: Outcome)
    ensures r == ValuesBetweenOutcome(minValue, maxValue, values)
  {
    var elements := Elements(values);
    if elements.Err? {
      return Fail(elements.error);
    }
    r := CheckEach(BetweenCheck(minValue, maxValue), elements.value);
  }

  // ---------------------------------------------------------------------------
  // Emptiness and length

  function MustBeEmpty(value: Value): Outcome
  {
    if Truthy(value) then Fail(ValueError("Value " + (Show(value) + " must be empty."))) else Pass
  }

  function MustBeNonEmpty(value: Value): Outcome
  {
    if !Truthy(value) then Fail(ValueError("Value " + (Show(value) + " must not be empty."))) else Pass
  }

  /** `MustHaveLengthEqual(value)(val)`. */
  function MustHaveLengthEqual(value: int, val: Value): Outcome
  {
    match Len(val)
    case Err(e) => Fail(e)
    case Ok(n) =>
      if n != value then Fail(ValueError("Length of " + (Show(val) + (" must be equal to " + (IntToString(value) + "."))))) else Pass
  }

  /** `MustHaveLengthGreaterThan(value)(val)` as written: the message is copied from the equality check, without its period. */
  function MustHaveLengthGreaterThanAsWritten(value: int, val: Value): Outcome
  {
    match Len(val)
    case Err(e) => Fail(e)
    case Ok(n) =>
      if !(n > value) then Fail(ValueError("Length of " + (Show(val) + (" must be equal to " + IntToString(value))))) else Pass
  }

  /** MustHaveLengthGreaterThan with the message naming the relation it checks. */
  function MustHaveLengthGreaterThan(value: int, val: Value): Outcome
  {
    match Len(val)
    case Err(e) => Fail(e)
    case Ok(n) =>
      if !(n > value) then Fail(ValueError("Length of " + (Show(val) + (" must be greater than " + (IntToString(value) + "."))))) else Pass
  }

  // ---------------------------------------------------------------------------
  // Properties

  /** The sign functions raise ValueError exactly when the comparison with 0 fails, the relation spelt out in words. */
  lemma SignOutcomes(v: Value)
    requires IsNumber(v)
    ensures MustBePositive(v) == if NumValue(v) > 0 then Pass
                                 else Fail(ValueError("Value " + (Show(v) + " must be greater than 0.")))
    ensures MustBeNonPositive(v) == if NumValue(v) <= 0 then Pass
                                    else Fail(ValueError("Value " + (Show(v) + " must be less than or equal to 0.")))
    ensures MustBeNegative(v) == if NumValue(v) < 0 then Pass
                                 else Fail(ValueError("Value " + (Show(v) + " must be less than 0.")))
    ensures MustBeNonNegative(v) == if NumValue(v) >= 0 then Pass
                                    else Fail(ValueError("Value " + (Show(v) + " must be greater than or equal to 0.")))
  {
  }

  /**
   * The comparison factories build the same validators as those of the numeric
   * functions module, each operator paired with its symbol, and each raises exactly
   * when `val op value` is false.
   */
  lemma ComparisonFactories(value: Value, val: Value)
    requires IsNumber(value) && IsNumber(val)
    ensures MustBeEqual(value) == LNV.MustBeEqual(value) && MustBeNotEqual(value) == LNV.MustBeNotEqual(value)
    ensures MustBeGreaterThan(value) == LNV.MustBeGreaterThan(value)
    ensures MustBeGreaterThanOrEqual(value) == LNV.MustBeGreaterThanOrEqual(value)
    ensures MustBeLessThan(value) == LNV.MustBeLessThan(value)
    ensures MustBeLessThanOrEqual(value) == LNV.MustBeLessThanOrEqual(value)
    ensures MustBeEqual(value).Call(val).Pass? <==> NumValue(val) == NumValue(value)
    ensures MustBeNotEqual(value).Call(val).Pass? <==> NumValue(val) != NumValue(value)
    ensures MustBeGreaterThan(value).Call(val).Pass? <==> NumValue(val) > NumValue(value)
    ensures MustBeGreaterThanOrEqual(value).Call(val).Pass? <==> NumValue(val) >= NumValue(value)
    ensures MustBeLessThan(value).Call(val).Pass? <==> NumValue(val) < NumValue(value)
    ensures MustBeLessThanOrEqual(value).Call(val).Pass? <==> NumValue(val) <= NumValue(value)
  {
    LNV.FactoriesPairSymbols(value);
  }

  /** Over hashable items, MustBeIn passes a hashable value exactly when some item equals it. */
  lemma MemberOfSet(xs: seq<Value>, shown: string, v: Value)
    requires AllHashable(xs) && Hashable(v)
    ensures MemberValidator(ListV(xs), shown).Call(v).Pass? <==> exists k :: 0 <= k < |xs| && Equal(xs[k], v)
    ensures MemberValidator(ListV(xs), shown).Call(v).Fail? ==>
              MemberValidator(ListV(xs), shown).Call(v).error == ValueError("Value " + (Show(v) + (" must be in " + shown)))
  {
  }

  /** Building a set drops repeats: repeating the items does not change the verdict. */
  lemma MemberIgnoresRepeats(xs: seq<Value>, shown: string, v: Value)
    ensures MemberValidator(ListV(xs + xs), shown).Call(v) == MemberValidator(ListV(xs), shown).Call(v)
  {
    DoubledHashable(xs);
    DoubledContains(xs, v);
  }

  lemma DoubledHashable(xs: seq<Value>)
    ensures AllHashable(xs + xs) <==> AllHashable(xs)
  {
    var ys := xs + xs;
    assert forall k :: 0 <= k < |ys| ==> ys[k] == xs[if k < |xs| then k else k - |xs|];
    assert forall k :: 0 <= k < |xs| ==> ys[k] == xs[k];
  }

  lemma DoubledContains(xs: seq<Value>, v: Value)
    ensures ListContains(xs + xs, v) == ListContains(xs, v)
  {
    var ys := xs + xs;
    if ListContains(ys, v) {
      var k :| 0 <= k < |ys| && Equal(ys[k], v);
      assert ys[k] == xs[if k < |xs| then k else k - |xs|];
    }
    if ListContains(xs, v) {
      var k :| 0 <= k < |xs| && Equal(xs[k], v);
      assert ys[k] == xs[k];
    }
  }

  /** A list among the items, or a list as the value, raises TypeError: lists are unhashable. */
  lemma UnhashableRaises(xs: seq<Value>, shown: string, v: Value, k: nat)
    requires k < |xs| && xs[k].ListV?
    ensures MemberValidator(ListV(xs), shown).Call(v) == Fail(TypeError(UNHASHABLE_LIST))
    ensures MemberValidator(ListV([]), shown).Call(ListV([])) == Fail(TypeError(UNHASHABLE_LIST))
  {
    assert !Hashable(xs[k]);
  }

  /** MustBeBetween is always inclusive: on numbers it accepts exactly min <= value <= max. */
  lemma BetweenInclusive(lo: Value, hi: Value, v: Value)
    requires IsNumber(lo) && IsNumber(hi) && IsNumber(v)
    ensures MustBeBetweenCheck(v, lo, hi) ==
            if NumValue(lo) <= NumValue(v) <= NumValue(hi) then Pass
            else Fail(ValueError("Value " + (Show(v) + (" must be between " + (Show(lo) + (" and " + (Show(hi) + ".")))))))
  {
  }

  /** MustBeEmpty and MustBeNonEmpty here are the truthiness checks of the collection functions module. */
  lemma EmptinessIsTruthiness(v: Value)
    ensures MustBeEmpty(v) == LCA.MustBeEmpty(v) && MustBeNonEmpty(v) == LCA.MustBeNonEmpty(v)
    ensures MustBeEmpty(v).Fail? <==> Truthy(v)
    ensures MustBeNonEmpty(v).Fail? <==> !Truthy(v)
  {
  }

  /** MustHaveLengthEqual(n) raises exactly when the length differs from n, naming the value and n. */
  lemma LengthEqualOutcome(n: int, val: Value)
    requires val.StrV? || val.ListV?
    ensures MustHaveLengthEqual(n, val) ==
            if Len(val).value == n then Pass
            else Fail(ValueError("Length of " + (Show(val) + (" must be equal to " + (IntToString(n) + ".")))))
  {
  }

  /** MustHaveLengthGreaterThan(n) raises exactly when the length is not above n; the message fix leaves the verdicts unchanged. */
  lemma LengthGreaterThanVerdicts(n: int, val: Value)
    ensures MustHaveLengthGreaterThan(n, val).Pass? <==> (val.StrV? || val.ListV?) && Len(val).value > n
    ensures MustHaveLengthGreaterThanAsWritten(n, val).Pass? <==> MustHaveLengthGreaterThan(n, val).Pass?
  {
  }

  /**
   * As written, a value whose length is exactly n fails MustHaveLengthGreaterThan(n)
   * with a message demanding that its length be equal to n, which it already is;
   * [] with n = 0 is the smallest case.
   */
  lemma GreaterThanMessageAsWritten(n: nat, val: Value)
    requires Len(val) == Ok(n)
    ensures MustHaveLengthGreaterThanAsWritten(n, val) ==
            Fail(ValueError("Length of " + (Show(val) + (" must be equal to " + IntToString(n)))))
    ensures MustHaveLengthGreaterThanAsWritten(0, ListV([])) == Fail(ValueError("Length of [] must be equal to 0"))
  {
    assert Show(ListV([])) == "[]" by {
      assert JoinComma([]) == "";
    }
    assert IntToString(0) == "0" by {
      assert DigitChar(0) == '0';
    }
    var m := "Length of " + ("[]" + (" must be equal to " + "0"));
    assert |m| == 31;
    assert forall k :: 0 <= k < 31 ==> m[k] == "Length of [] must be equal to 0"[k];
    assert m == "Length of [] must be equal to 0";
  }

  /** Corrected, the failure message names the relation checked: `Length of <val> must be greater than <n>.`. */
  lemma GreaterThanMessage(n: int, val: Value)
    requires val.StrV? || val.ListV?
    ensures MustHaveLengthGreaterThan(n, val) ==
            if Len(val).value > n then Pass
            else Fail(ValueError("Length of " + (Show(val) + (" must be greater than " + (IntToString(n) + ".")))))
  {
  }

  /** On numbers, the values check passes exactly when every value lies in [min, max]; an empty collection passes. */
  lemma ValuesBetweenPass(lo: Value, hi: Value, xs: seq<Value>)
    requires IsNumber(lo) && IsNumber(hi)
    requires forall k :: 0 <= k < |xs| ==> IsNumber(xs[k])
    ensures ValuesBetweenOutcome(lo, hi, ListV(xs)).Pass? <==>
            forall k :: 0 <= k < |xs| ==> NumValue(lo) <= NumValue(xs[k]) <= NumValue(hi)
  {
    FirstFailurePasses(BetweenCheck(lo, hi), xs);
  }

  /** The first value out of range, in iteration order, decides the error; later values are not examined. */
  lemma ValuesBetweenFirstOffender(lo: Value, hi: Value, xs: seq<Value>, k: nat)
    requires IsNumber(lo) && IsNumber(hi)
    requires k < |xs| && IsNumber(xs[k]) && !(NumValue(lo) <= NumValue(xs[k]) <= NumValue(hi))
    requires forall j :: 0 <= j < k ==> IsNumber(xs[j]) && NumValue(lo) <= NumValue(xs[j]) <= NumValue(hi)
    ensures ValuesBetweenOutcome(lo, hi, ListV(xs)) ==
            Fail(ValueError("Value " + (Show(xs[k]) + (" must be between " + (Show(lo) + (" and " + (Show(hi) + ".")))))))
  {
    FirstFailureAt(BetweenCheck(lo, hi), xs, k);
  }
}
