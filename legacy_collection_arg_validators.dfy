/**
 * The older collection validators (func_validator/_validators/_collection_arg_validators.py):
 * length checks apply a partial numeric check to `len(values)`, values checks apply it
 * to every element in turn, emptiness is plain truthiness, and MustBeIn uses `in`.
 */
module LegacyCollectionArgValidators {
  import opened Core
  import N = NumericArgValidators
  import LNA = LegacyNumericArgValidators

  /** `_iterable_len_validator(values, func=check)`. */
  function IterableLenValidator(values: Value, check: N.Check): Outcome
  {
    match Len(values)
    case Err(e) => Fail(e)
    case Ok(n) => LNA.Validate(check, IntV(n))
  }

  function ElementCheck(check: N.Check): Value -> Outcome
  {
    x => LNA.Validate(check, x)
  }

  /** What `_iterable_values_validator(values, func=check)` does: iterate, stop at the first raise. */
  function ValuesOutcome(values: Value, check: N.Check): Outcome
  {
    match Elements(values)
    case Err(e) => Fail(e)
    case Ok(xs) => FirstFailure(ElementCheck(check), xs)
  }

  /** `_iterable_values_validator(values, func=check)`: `for value in values: func(value)`. */
  method IterableValuesValidator(values: Value, check: N.Check) returns (r: Outcome)
    ensures r == ValuesOutcome(values, check)
  {
    var elements := Elements(values);
    if elements.Err? {
      return Fail(elements.error);
    }
    r := CheckEach(ElementCheck(check), elements.value);
  }

  /** The validator a length factory returns. */
  datatype LengthValidator = LengthValidator(check: N.Check)
  {
    function Call(values: Value): Outcome
    {
      IterableLenValidator(values, check)
    }
  }

  /** The validator a values factory returns. */
  datatype ValuesValidator = ValuesValidator(check: N.Check)
  {
    method Call(values: Value) returns (r: Outcome)
      ensures r == ValuesOutcome(values, check)
    {
      r := IterableValuesValidator(values, check);
    }
  }

  /** The validator MustBeIn returns: `contains(value_set, value)` or ValueError showing `repr(value_set)`. */
  datatype MemberValidator = MemberValidator(valueSet: Value)
  {
    function Call(value: Value): Outcome
    {
      match Contains(valueSet, value)
      case Err(e) => Fail(e)
      case Ok(found) =>
        if found then Pass else Fail(ValueError("Value " + (Show(value) + (" must be in " + Repr(valueSet)))))
    }
  }

  function MustBeIn(valueSet: Value): MemberValidator
  {
    MemberValidator(valueSet)
  }

  function MustBeEmpty(value: Value): Outcome
  {
    if Truthy(value) then Fail(ValueError("Value " + (Show(value) + " must be empty."))) else Pass
  }

  function MustBeNonEmpty(value: Value): Outcome
  {
    if !Truthy(value) then Fail(ValueError("Value " + (Show(value) + " must not be empty."))) else Pass
  }

  function MustHaveLengthEqual(value: int): LengthValidator
  {
    LengthValidator(LNA.MustBeEqual(IntV(value)))
  }

  function MustHaveLengthGreaterThan(value: int): LengthValidator
  {
    LengthValidator(LNA.MustBeGreaterThan(IntV(value)))
  }

  function MustHaveLengthGreaterThanOrEqual(value: int): LengthValidator
  {
    LengthValidator(LNA.MustBeGreaterThanOrEqual(IntV(value)))
  }

  function MustHaveLengthLessThan(value: int): LengthValidator
  {
    LengthValidator(LNA.MustBeLessThan(IntV(value)))
  }

  function MustHaveLengthLessThanOrEqual(value: int): LengthValidator
  {
    LengthValidator(LNA.MustBeLessThanOrEqual(IntV(value)))
  }

  function MustHaveLengthBetween(minValue: int, maxValue: int, minInclusive: bool := true,
                                 maxInclusive: bool := true): LengthValidator
  {
    LengthValidator(LNA.MustBeBetween(IntV(minValue), IntV(maxValue), minInclusive, maxInclusive))
  }

  function MustHaveValuesBetween(minValue: Value, maxValue: Value, minInclusive: bool := true,
                                 maxInclusive: bool := true): ValuesValidator
  {
    ValuesValidator(LNA.MustBeBetween(minValue, maxValue, minInclusive, maxInclusive))
  }

  function MustHaveValuesGreaterThan(minValue: Value): ValuesValidator
  {
    ValuesValidator(LNA.MustBeGreaterThan(minValue))
  }

  function MustHaveValuesGreaterThanOrEqual(minValue: Value): ValuesValidator
  {
    ValuesValidator(LNA.MustBeGreaterThanOrEqual(minValue))
  }

  function MustHaveValuesLessThan(maxValue: Value): ValuesValidator
  {
    ValuesValidator(LNA.MustBeLessThan(maxValue))
  }

  function MustHaveValuesLessThanOrEqual(maxValue: Value): ValuesValidator
  {
    ValuesValidator(LNA.MustBeLessThanOrEqual(maxValue))
  }

  // ---------------------------------------------------------------------------
  // Properties

  /** Over a list, MustBeIn passes exactly when some item equals the value; otherwise the message shows the list's repr. */
  lemma MemberOfList(xs: seq<Value>, v: Value)
    ensures MustBeIn(ListV(xs)).Call(v).Pass? <==> exists k :: 0 <= k < |xs| && Equal(xs[k], v)
    ensures MustBeIn(ListV(xs)).Call(v).Fail? ==>
              MustBeIn(ListV(xs)).Call(v).error == ValueError("Value " + (Show(v) + (" must be in " + Repr(ListV(xs)))))
  {
  }

  /**
   * Emptiness is truthiness: MustBeEmpty raises exactly on truthy values and
   * MustBeNonEmpty exactly on falsy ones, so exactly one raises; "" and [] are empty.
   */
  lemma EmptinessIsTruthiness(v: Value)
    ensures MustBeEmpty(v).Fail? <==> Truthy(v)
    ensures MustBeNonEmpty(v).Fail? <==> !Truthy(v)
    ensures MustBeEmpty(v).Fail? != MustBeNonEmpty(v).Fail?
    ensures MustBeEmpty(StrV("")) == Pass && MustBeEmpty(ListV([])) == Pass
  {
  }

  /**
   * A length check is the numeric check applied to `len(values)`; it passes exactly
   * when the length satisfies the operator, and raises TypeError on a value with no length.
   */
  lemma LengthIsNumericOnLen(fn: CmpOp, n: int, values: Value)
    ensures LengthValidator(N.Comparison(fn, IntV(n))).Call(values) ==
            match Len(values)
            case Err(e) => Fail(e)
            case Ok(len) => LNA.GenericNumberValidator(IntV(len), IntV(n), fn)
    ensures LengthValidator(N.Comparison(fn, IntV(n))).Call(values).Pass? <==>
            (values.StrV? || values.ListV?) && Holds(fn, Len(values).value, n)
  {
  }

  /**
   * MustHaveLengthEqual(3) accepts [1, 2, 3] and "abc" and rejects [1, 2] and "" with a
   * ValueError that shows the length as `x`.
   */
  lemma LengthEqualThree()
    ensures MustHaveLengthEqual(3).Call(IntList([1, 2, 3])) == Pass
    ensures MustHaveLengthEqual(3).Call(StrV("abc")) == Pass
    ensures MustHaveLengthEqual(3).Call(IntList([1, 2])) == Fail(ValueError("x=2 must be == 3."))
    ensures MustHaveLengthEqual(3).Call(StrV("")) == Fail(ValueError("x=0 must be == 3."))
  {
    LengthIsNumericOnLen(Eq, 3, IntList([1, 2, 3]));
    LengthIsNumericOnLen(Eq, 3, StrV("abc"));
    LengthIsNumericOnLen(Eq, 3, IntList([1, 2]));
    LengthIsNumericOnLen(Eq, 3, StrV(""));
    assert Len(IntList([1, 2])) == Ok(2) && Len(StrV("")) == Ok(0);
    ShortMessage(2);
    assert DigitChar(2) == '2';
    assert "x=" + (['2'] + " must be == 3.") == "x=2 must be == 3.";
    ShortMessage(0);
    assert DigitChar(0) == '0';
    assert "x=" + (['0'] + " must be == 3.") == "x=0 must be == 3.";
  }

  /** The message of a length n (a single digit) that is not 3. */
  lemma ShortMessage(n: nat)
    requires n < 3
    ensures LNA.GenericNumberValidator(IntV(n), IntV(3), Eq) ==
            Fail(ValueError("x=" + ([DigitChar(n)] + " must be == 3.")))
  {
    assert Compare(Eq, IntV(n), IntV(3)) == Some(false);
    assert IntToString(n) == [DigitChar(n)];
    assert Repr(IntV(n)) == Show(IntV(n)) == [DigitChar(n)];
    assert Show(IntV(3)) == "3" by { assert DigitChar(3) == '3'; }
    var m := LNA.XEquals(IntV(n)) + (" must be " + (Symbol(Eq) + (" " + (Show(IntV(3)) + "."))));
    var t := "x=" + ([DigitChar(n)] + " must be == 3.");
    assert LNA.GenericNumberValidator(IntV(n), IntV(3), Eq) == Fail(ValueError(m));
    assert |m| == 17 && |t| == 17;
    assert forall k :: 0 <= k < 17 ==> m[k] == t[k];
    assert m == t;
  }

  /** Length and values ranges default to inclusive bounds on both sides. */
  lemma BetweenInclusiveByDefault(lo: int, hi: int, minValue: Value, maxValue: Value)
    ensures MustHaveLengthBetween(lo, hi).check == N.Range(IntV(lo), IntV(hi), true, true)
    ensures MustHaveValuesBetween(minValue, maxValue).check == N.Range(minValue, maxValue, true, true)
  {
  }

  /** A values check passes exactly when every element passes; an empty collection passes. */
  lemma ValuesPass(check: N.Check, xs: seq<Value>)
    ensures ValuesOutcome(ListV(xs), check).Pass? <==> forall k :: 0 <= k < |xs| ==> LNA.Validate(check, xs[k]).Pass?
    ensures ValuesOutcome(ListV([]), check) == Pass
  {
    FirstFailurePasses(ElementCheck(check), xs);
  }

  /** Elements are checked in order: the first failing element decides, and later ones are never examined. */
  lemma ValuesFirstFailure(check: N.Check, xs: seq<Value>, ys: seq<Value>, k: nat)
    requires k < |xs| && LNA.Validate(check, xs[k]).Fail?
    requires forall j :: 0 <= j < k ==> LNA.Validate(check, xs[j]).Pass?
    ensures ValuesOutcome(ListV(xs + ys), check) == LNA.Validate(check, xs[k])
  {
    var f := ElementCheck(check);
    FirstFailureAt(f, xs, k);
    FirstFailureIgnoresRest(f, xs, ys);
  }
}
