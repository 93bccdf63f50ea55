/**
 * The collection validators (func_validator/validators/collection_arg_validators.py):
 * membership in a container, length checks that apply a numeric validator to
 * `len(value)`, and element checks that apply a numeric validator to every element
 * in turn, stopping at the first one that fails.
 */
module CollectionArgValidators {
  import opened Core
  import N = NumericArgValidators

  /** `${arg_name}: ${arg_value} must be ${fn_symbol} ${to}` (no final period). */
  const COMPARISON_TAIL :=
    Field(ArgName, Text(": ", Field(ArgValue, Text(" must be ", Field(FnSymbol, Text(" ", Field(To, Last(""))))))))

  /** `${arg_name}: ${arg_value} must be ${min_fn_symbol} ${min_value} and ${max_fn_symbol} ${max_value} ` */
  const BETWEEN_TAIL :=
    Field(ArgName, Text(": ", Field(ArgValue, Text(" must be ", Field(MinFnSymbol, Text(" ", Field(MinValue, Text(" and ", Field(MaxFnSymbol, Text(" ", Field(MaxValue, Last(" "))))))))))))

  const COLLECTION_LEN_VALIDATOR_ERR_MSG := Text("Length of ", COMPARISON_TAIL).Source()
  const COLLECTION_VALUES_VALIDATOR_ERR_MSG := Text("Values of ", COMPARISON_TAIL).Source()
  const LENGTH_BETWEEN_ERR_MSG := Text("Length of ", BETWEEN_TAIL).Source()
  const VALUES_BETWEEN_ERR_MSG := Text("Values of ", BETWEEN_TAIL).Source()

  /** `${arg_name}: ${arg_value} must be in ${value_set}` */
  const MEMBER_LAYOUT :=
    Field(ArgName, Text(": ", Field(ArgValue, Text(" must be in ", Field(ValueSet, Last(""))))))
  const MEMBER_OF_ERR_MSG := MEMBER_LAYOUT.Source()

  // ---------------------------------------------------------------------------
  // Membership

  /** The keywords `_must_be_member_of` renders its template with. */
  function MemberArgs(argName: string, argValue: Value, valueSet: Value): map<string, string>
  {
    map["arg_value" := Show(argValue), "arg_name" := argName, "value_set" := Repr(valueSet)]
  }

  /** `_must_be_member_of`: raise unless `contains(value_set, arg_value)`. */
  function MustBeMemberOfCheck(argValue: Value, argName: string, valueSet: Value,
                               errMsg: string, extraMsgArgs: map<string, string>): Outcome
  {
    match Contains(valueSet, argValue)
    case Err(e) => Fail(e)
    case Ok(found) =>
      if found then Pass
      else Fail(RenderedError(errMsg, MemberArgs(argName, argValue, valueSet), extraMsgArgs))
  }

  datatype MemberValidator = MemberValidator(valueSet: Value, base: ValidatorBase)
  {
    /** `__call__(arg_value, arg_name)`. */
    function Call(argValue: Value, argName: string): Outcome
    {
      MustBeMemberOfCheck(argValue, argName, valueSet, base.errMsg, base.extraMsgArgs)
    }
  }

  function MustBeMemberOf(valueSet: Value, errMsg: Option<string> := None,
                          extraMsgArgs: Option<map<string, string>> := None): MemberValidator
  {
    MemberValidator(valueSet, InitValidator(errMsg, extraMsgArgs, MEMBER_OF_ERR_MSG))
  }

  // ---------------------------------------------------------------------------
  // Length

  /**
   * A length validator: the numeric check `__call__` builds, and the `err_msg` and
   * `extra_msg_args` it hands that check. For every class but MustHaveLengthBetween
   * errMsg is the stored template; MustHaveLengthBetween stores the raw argument.
   */
  datatype LengthValidator = LengthValidator(check: N.Check, errMsg: Option<string>,
                                             extraMsgArgs: map<string, string>)
  {
    /** The numeric validator `__call__` constructs. */
    function Inner(): N.NumericValidator
    {
      match check
      case Comparison(fn, to) => N.ComparisonValidator(fn, to, errMsg, Some(extraMsgArgs))
      case Range(lo, hi, minInclusive, maxInclusive) =>
        N.MustBeBetween(lo, hi, minInclusive, maxInclusive, errMsg, Some(extraMsgArgs))
    }

    /** `_iterable_len_validator(arg_value, arg_name, func=...)`: the check on `len(arg_value)`. */
    function Call(argValue: Value, argName: string): Outcome
    {
      match Len(argValue)
      case Err(e) => Fail(e)
      case Ok(n) => Inner().Call(IntV(n), argName)
    }
  }

  /** A length class comparing with a target: it stores its template and forwards it. */
  function LengthComparison(fn: CmpOp, n: int, errMsg: Option<string>,
                            extraMsgArgs: Option<map<string, string>>): LengthValidator
  {
    var base := InitValidator(errMsg, extraMsgArgs, COLLECTION_LEN_VALIDATOR_ERR_MSG);
    LengthValidator(N.Comparison(fn, IntV(n)), Some(base.errMsg), base.extraMsgArgs)
  }

  function MustBeEmpty(errMsg: Option<string> := None, extraMsgArgs: Option<map<string, string>> := None): LengthValidator
  {
    LengthComparison(Eq, 0, errMsg, extraMsgArgs)
  }

  function MustBeNonEmpty(errMsg: Option<string> := None, extraMsgArgs: Option<map<string, string>> := None): LengthValidator
  {
    LengthComparison(Ne, 0, errMsg, extraMsgArgs)
  }

  function MustHaveLengthEqual(n: int, errMsg: Option<string> := None, extraMsgArgs: Option<map<string, string>> := None): LengthValidator
  {
    LengthComparison(Eq, n, errMsg, extraMsgArgs)
  }

  function MustHaveLengthGreaterThan(n: int, errMsg: Option<string> := None, extraMsgArgs: Option<map<string, string>> := None): LengthValidator
  {
    LengthComparison(Gt, n, errMsg, extraMsgArgs)
  }

  function MustHaveLengthGreaterThanOrEqual(n: int, errMsg: Option<string> := None, extraMsgArgs: Option<map<string, string>> := None): LengthValidator
  {
    LengthComparison(Ge, n, errMsg, extraMsgArgs)
  }

  function MustHaveLengthLessThan(n: int, errMsg: Option<string> := None, extraMsgArgs: Option<map<string, string>> := None): LengthValidator
  {
    LengthComparison(Lt, n, errMsg, extraMsgArgs)
  }

  function MustHaveLengthLessThanOrEqual(n: int, errMsg: Option<string> := None, extraMsgArgs: Option<map<string, string>> := None): LengthValidator
  {
    LengthComparison(Le, n, errMsg, extraMsgArgs)
  }

  /**
   * MustHaveLengthBetween: after Validator.__init__ it overwrites `err_msg` with the raw
   * argument, so the range check it forwards to falls back to its own template.
   */
  function MustHaveLengthBetween(minValue: int, maxValue: int, minInclusive: bool := true, maxInclusive: bool := true,
                                 errMsg: Option<string> := None,
                                 extraMsgArgs: Option<map<string, string>> := None): LengthValidator
  {
    var base := InitValidator(errMsg, extraMsgArgs, LENGTH_BETWEEN_ERR_MSG);
    LengthValidator(N.Range(IntV(minValue), IntV(maxValue), minInclusive, maxInclusive), errMsg, base.extraMsgArgs)
  }

  // ---------------------------------------------------------------------------
  // Values

  /** An element validator: the numeric check applied to each element, and the stored fields. */
  datatype ValuesValidator = ValuesValidator(check: N.Check, base: ValidatorBase)
  {
    /** The numeric validator `__call__` constructs from the stored template and keywords. */
    function Inner(): N.NumericValidator
    {
      match check
      case Comparison(fn, to) => N.ComparisonValidator(fn, to, Some(base.errMsg), Some(base.extraMsgArgs))
      case Range(lo, hi, minInclusive, maxInclusive) =>
        N.MustBeBetween(lo, hi, minInclusive, maxInclusive, Some(base.errMsg), Some(base.extraMsgArgs))
    }

    /** `func(value, arg_name)` for one element. */
    function ElementCheck(argName: string): Value -> Outcome
    {
      x => Inner().Call(x, argName)
    }

    /** What `_iterable_values_validator(values, arg_name, func=...)` does. */
    function Checked(values: Value, argName: string): Outcome
    {
      match Elements(values)
      case Err(e) => Fail(e)
      case Ok(xs) => FirstFailure(ElementCheck(argName), xs)
    }

    /** `__call__(values, arg_name)`: the loop over the elements. */
    method Call(values: Value, argName: string) returns (r: Outcome)
      ensures r == Checked(values, argName)
    {
      var elements := Elements(values);
      if elements.Err? {
        return Fail(elements.error);
      }
      r := CheckEach(ElementCheck(argName), elements.value);
    }
  }

  function ValuesComparison(fn: CmpOp, to: Value, errMsg: Option<string>,
                            extraMsgArgs: Option<map<string, string>>): ValuesValidator
  {
    ValuesValidator(N.Comparison(fn, to), InitValidator(errMsg, extraMsgArgs, COLLECTION_VALUES_VALIDATOR_ERR_MSG))
  }

  function MustHaveValuesGreaterThan(minValue: Value, errMsg: Option<string> := None,
                                     extraMsgArgs: Option<map<string, string>> := None): ValuesValidator
  {
    ValuesComparison(Gt, minValue, errMsg, extraMsgArgs)
  }

  function MustHaveValuesGreaterThanOrEqual(minValue: Value, errMsg: Option<string> := None,
                                            extraMsgArgs: Option<map<string, string>> := None): ValuesValidator
  {
    ValuesComparison(Ge, minValue, errMsg, extraMsgArgs)
  }

  function MustHaveValuesLessThan(maxValue: Value, errMsg: Option<string> := None,
                                  extraMsgArgs: Option<map<string, string>> := None): ValuesValidator
  {
    ValuesComparison(Lt, maxValue, errMsg, extraMsgArgs)
  }

  function MustHaveValuesLessThanOrEqual(maxValue: Value, errMsg: Option<string> := None,
                                         extraMsgArgs: Option<map<string, string>> := None): ValuesValidator
  {
    ValuesComparison(Le, maxValue, errMsg, extraMsgArgs)
  }

  function MustHaveValuesBetween(minValue: Value, maxValue: Value, minInclusive: bool := true, maxInclusive: bool := true,
                                 errMsg: Option<string> := None,
                                 extraMsgArgs: Option<map<string, string>> := None): ValuesValidator
  {
    ValuesValidator(N.Range(minValue, maxValue, minInclusive, maxInclusive),
                    InitValidator(errMsg, extraMsgArgs, VALUES_BETWEEN_ERR_MSG))
  }

  // ---------------------------------------------------------------------------
  // The default messages

  lemma ComparisonTailFilled(m: map<string, string>)
    requires "arg_name" in m && "arg_value" in m && "fn_symbol" in m && "to" in m
    ensures COMPARISON_TAIL.Filled(m) == m["arg_name"] + (": " + (m["arg_value"] + (" must be " + (m["fn_symbol"] + (" " + m["to"])))))
  {
  }

  /** The length template with its four keys supplied reads as one sentence. */
  lemma LengthTemplateRendered(m: map<string, string>)
    requires "arg_name" in m && "arg_value" in m && "fn_symbol" in m && "to" in m
    ensures Render(COLLECTION_LEN_VALIDATOR_ERR_MSG, m) ==
            "Length of " + (m["arg_name"] + (": " + (m["arg_value"] + (" must be " + (m["fn_symbol"] + (" " + m["to"]))))))
  {
    assert Text("Length of ", COMPARISON_TAIL).WellFormed();
    RenderLayout(Text("Length of ", COMPARISON_TAIL), m);
    ComparisonTailFilled(m);
  }

  /** The values template with its four keys supplied reads as one sentence. */
  lemma ValuesTemplateRendered(m: map<string, string>)
    requires "arg_name" in m && "arg_value" in m && "fn_symbol" in m && "to" in m
    ensures Render(COLLECTION_VALUES_VALIDATOR_ERR_MSG, m) ==
            "Values of " + (m["arg_name"] + (": " + (m["arg_value"] + (" must be " + (m["fn_symbol"] + (" " + m["to"]))))))
  {
    assert Text("Values of ", COMPARISON_TAIL).WellFormed();
    RenderLayout(Text("Values of ", COMPARISON_TAIL), m);
    ComparisonTailFilled(m);
  }

  lemma BetweenTailFilled(m: map<string, string>)
    requires "arg_name" in m && "arg_value" in m && "min_fn_symbol" in m && "min_value" in m
    requires "max_fn_symbol" in m && "max_value" in m
    ensures BETWEEN_TAIL.Filled(m) == m["arg_name"] + (": " + (m["arg_value"] + (" must be " + (m["min_fn_symbol"] + (" " + (m["min_value"] + (" and " + (m["max_fn_symbol"] + (" " + (m["max_value"] + (" ")))))))))))
  {
  }

  lemma BetweenTailWellFormed()
    ensures Text("Values of ", BETWEEN_TAIL).WellFormed()
  {
  }

  /** The values-range template with its six keys supplied reads as one sentence, ending in a space. */
  lemma ValuesBetweenTemplateRendered(m: map<string, string>)
    requires "arg_name" in m && "arg_value" in m && "min_fn_symbol" in m && "min_value" in m
    requires "max_fn_symbol" in m && "max_value" in m
    ensures Render(VALUES_BETWEEN_ERR_MSG, m) ==
            "Values of " + (m["arg_name"] + (": " + (m["arg_value"] + (" must be " + (m["min_fn_symbol"] + (" " + (m["min_value"] + (" and " + (m["max_fn_symbol"] + (" " + (m["max_value"] + (" "))))))))))))
  {
    BetweenTailWellFormed();
    RenderLayout(Text("Values of ", BETWEEN_TAIL), m);
    BetweenTailFilled(m);
  }

  lemma MemberLayoutFilled(m: map<string, string>)
    requires "arg_name" in m && "arg_value" in m && "value_set" in m
    ensures MEMBER_LAYOUT.Filled(m) == m["arg_name"] + (": " + (m["arg_value"] + (" must be in " + m["value_set"])))
  {
  }

  /** The membership template with its three keys supplied reads as one sentence. */
  lemma MemberTemplateRendered(m: map<string, string>)
    requires "arg_name" in m && "arg_value" in m && "value_set" in m
    ensures Render(MEMBER_OF_ERR_MSG, m) == m["arg_name"] + (": " + (m["arg_value"] + (" must be in " + m["value_set"])))
  {
    assert MEMBER_LAYOUT.WellFormed();
    RenderLayout(MEMBER_LAYOUT, m);
    MemberLayoutFilled(m);
  }

  // ---------------------------------------------------------------------------
  // Membership calls

  /**
   * A membership validator passes exactly when `contains` says the value is in the
   * container; a value that is not raises the rendered template, and a container
   * `contains` refuses raises its TypeError.
   */
  lemma MemberOfCall(valueSet: Value, base: ValidatorBase, v: Value, name: string)
    ensures MemberValidator(valueSet, base).Call(v, name).Pass? <==> Contains(valueSet, v) == Ok(true)
    ensures Contains(valueSet, v) == Ok(false) ==>
              MemberValidator(valueSet, base).Call(v, name) ==
              Fail(RenderedError(base.errMsg, MemberArgs(name, v, valueSet), base.extraMsgArgs))
    ensures Contains(valueSet, v).Err? ==> MemberValidator(valueSet, base).Call(v, name) == Fail(Contains(valueSet, v).error)
  {
  }

  /**
   * MustBeMemberOf(list) passes exactly when some item equals the value; otherwise the
   * default message shows the value and the list's repr.
   */
  lemma MemberOfListOutcome(xs: seq<Value>, v: Value, name: string)
    ensures MustBeMemberOf(ListV(xs)).Call(v, name) ==
            if exists k :: 0 <= k < |xs| && Equal(xs[k], v) then Pass
            else Fail(ValidationError(name + (": " + (Show(v) + (" must be in " + (Repr(ListV(xs))))))))
  {
    if !ListContains(xs, v) {
      RenderedErrorWithoutExtra(MEMBER_OF_ERR_MSG, MemberArgs(name, v, ListV(xs)));
      MemberTemplateRendered(MemberArgs(name, v, ListV(xs)));
    }
  }

  /** `MustBeMemberOf(["square", "rectangle"])` accepts "rectangle" and rejects "circle". */
  lemma ShapeMembership(name: string)
    ensures MustBeMemberOf(ListV([StrV("square"), StrV("rectangle")])).Call(StrV("rectangle"), name) == Pass
    ensures MustBeMemberOf(ListV([StrV("square"), StrV("rectangle")])).Call(StrV("circle"), name).Fail?
  {
    var xs := [StrV("square"), StrV("rectangle")];
    assert Equal(xs[1], StrV("rectangle"));
    assert !Equal(xs[0], StrV("circle")) && !Equal(xs[1], StrV("circle"));
  }

  // ---------------------------------------------------------------------------
  // Length calls

  /**
   * On a string or a list a length validator compares `len(value)` with its target:
   * it passes exactly when the operator holds, and otherwise renders its template
   * (the given one, else the numeric default) with the length as the value.
   */
  lemma LengthCall(fn: CmpOp, to: Value, errMsg: Option<string>, extraMsgArgs: map<string, string>, v: Value, name: string)
    requires IsNumber(to) && Len(v).Ok?
    ensures LengthValidator(N.Comparison(fn, to), errMsg, extraMsgArgs).Call(v, name) ==
            if Holds(fn, Len(v).value, NumValue(to)) then Pass
            else Fail(RenderedError(EffectiveTemplate(errMsg, N.DEFAULT_NUMERIC_VALIDATOR_ERR_MSG),
                                    N.NumericArgs(name, IntV(Len(v).value), to, fn), extraMsgArgs))
  {
    var inner := LengthValidator(N.Comparison(fn, to), errMsg, extraMsgArgs).Inner();
    N.ComparisonCall(fn, to, inner.base, IntV(Len(v).value), name);
  }

  /** Of anything without a length (None, a number, an object) a length validator raises len's TypeError. */
  lemma LengthOfUnsized(lv: LengthValidator, v: Value, name: string)
    requires !v.StrV? && !v.ListV?
    ensures lv.Call(v, name) == Fail(TypeError("object of type '" + TypeName(v) + "' has no len()"))
  {
  }

  lemma LengthTemplateNonEmpty()
    ensures COLLECTION_LEN_VALIDATOR_ERR_MSG != ""
  {
    assert COLLECTION_LEN_VALIDATOR_ERR_MSG[0] == 'L';
  }

  /**
   * A length class with target n is the numeric validator with target n, holding the
   * class's template and keywords, applied to `len(value)`.
   */
  lemma LengthIsNumericOnLen(fn: CmpOp, n: int, errMsg: Option<string>, extraMsgArgs: Option<map<string, string>>,
                             v: Value, name: string)
    requires Len(v).Ok?
    ensures LengthComparison(fn, n, errMsg, extraMsgArgs).Call(v, name) ==
            N.ComparisonValidator(fn, IntV(n), Some(EffectiveTemplate(errMsg, COLLECTION_LEN_VALIDATOR_ERR_MSG)),
                                  extraMsgArgs).Call(IntV(Len(v).value), name)
  {
    LengthTemplateNonEmpty();
  }

  /**
   * With the default template a length class with target n passes exactly when
   * `len(value) fn n`, and otherwise reads `Length of <name>: <len> must be <symbol> <n>`.
   */
  lemma LengthOutcome(fn: CmpOp, n: int, v: Value, name: string)
    requires Len(v).Ok?
    ensures LengthComparison(fn, n, None, None).Call(v, name) ==
            if Holds(fn, Len(v).value, n) then Pass
            else Fail(ValidationError("Length of " + (name + (": " + (IntToString(Len(v).value) + (" must be " + (Symbol(fn) + (" " + (IntToString(n))))))))))
  {
    LengthCall(fn, IntV(n), Some(COLLECTION_LEN_VALIDATOR_ERR_MSG), map[], v, name);
    LengthTemplateNonEmpty();
    if !Holds(fn, Len(v).value, n) {
      var args := N.NumericArgs(name, IntV(Len(v).value), IntV(n), fn);
      RenderedErrorWithoutExtra(COLLECTION_LEN_VALIDATOR_ERR_MSG, args);
      LengthTemplateRendered(args);
    }
  }

  /** `str(0)` is "0". */
  lemma ZeroString()
    ensures IntToString(0) == "0"
  {
    assert Digits(0) == "0";
  }

  /** MustBeEmpty() passes exactly when the value is empty; the message shows "==". */
  lemma MustBeEmptyOutcome(v: Value, name: string)
    requires Len(v).Ok?
    ensures MustBeEmpty().Call(v, name) ==
            if Len(v).value == 0 then Pass
            else Fail(ValidationError("Length of " + (name + (": " + (IntToString(Len(v).value) + (" must be " + ("==" + (" " + ("0")))))))))
  {
    ZeroString();
    LengthOutcome(Eq, 0, v, name);
  }

  /** MustBeNonEmpty() passes exactly when the value is not empty; the message shows "!=". */
  lemma MustBeNonEmptyOutcome(v: Value, name: string)
    requires Len(v).Ok?
    ensures MustBeNonEmpty().Call(v, name) ==
            if Len(v).value != 0 then Pass
            else Fail(ValidationError("Length of " + (name + (": " + (IntToString(Len(v).value) + (" must be " + ("!=" + (" " + ("0")))))))))
  {
    ZeroString();
    LengthOutcome(Ne, 0, v, name);
  }

  /** MustHaveLengthEqual(n) passes exactly when the value has length n; the message shows "==". */
  lemma MustHaveLengthEqualOutcome(n: int, v: Value, name: string)
    requires Len(v).Ok?
    ensures MustHaveLengthEqual(n).Call(v, name) ==
            if Len(v).value == n then Pass
            else Fail(ValidationError("Length of " + (name + (": " + (IntToString(Len(v).value) + (" must be " + ("==" + (" " + (IntToString(n))))))))))
  {
    LengthOutcome(Eq, n, v, name);
  }

  /** MustHaveLengthGreaterThan(n) passes exactly when the value is longer than n; the message shows ">". */
  lemma MustHaveLengthGreaterThanOutcome(n: int, v: Value, name: string)
    requires Len(v).Ok?
    ensures MustHaveLengthGreaterThan(n).Call(v, name) ==
            if Len(v).value > n then Pass
            else Fail(ValidationError("Length of " + (name + (": " + (IntToString(Len(v).value) + (" must be " + (">" + (" " + (IntToString(n))))))))))
  {
    LengthOutcome(Gt, n, v, name);
  }

  /** MustHaveLengthGreaterThanOrEqual(n) passes exactly when the value has length at least n; the message shows ">=". */
  lemma MustHaveLengthGreaterThanOrEqualOutcome(n: int, v: Value, name: string)
    requires Len(v).Ok?
    ensures MustHaveLengthGreaterThanOrEqual(n).Call(v, name) ==
            if Len(v).value >= n then Pass
            else Fail(ValidationError("Length of " + (name + (": " + (IntToString(Len(v).value) + (" must be " + (">=" + (" " + (IntToString(n))))))))))
  {
    LengthOutcome(Ge, n, v, name);
  }

  /** MustHaveLengthLessThan(n) passes exactly when the value is shorter than n; the message shows "<". */
  lemma MustHaveLengthLessThanOutcome(n: int, v: Value, name: string)
    requires Len(v).Ok?
    ensures MustHaveLengthLessThan(n).Call(v, name) ==
            if Len(v).value < n then Pass
            else Fail(ValidationError("Length of " + (name + (": " + (IntToString(Len(v).value) + (" must be " + ("<" + (" " + (IntToString(n))))))))))
  {
    LengthOutcome(Lt, n, v, name);
  }

  /** MustHaveLengthLessThanOrEqual(n) passes exactly when the value has length at most n; the message shows "<=". */
  lemma MustHaveLengthLessThanOrEqualOutcome(n: int, v: Value, name: string)
    requires Len(v).Ok?
    ensures MustHaveLengthLessThanOrEqual(n).Call(v, name) ==
            if Len(v).value <= n then Pass
            else Fail(ValidationError("Length of " + (name + (": " + (IntToString(Len(v).value) + (" must be " + ("<=" + (" " + (IntToString(n))))))))))
  {
    LengthOutcome(Le, n, v, name);
  }

  /** On every string or list exactly one of MustBeEmpty and MustBeNonEmpty fails. */
  lemma EmptyNonEmptyComplementary(v: Value, name: string)
    requires Len(v).Ok?
    ensures MustBeEmpty().Call(v, name).Pass? != MustBeNonEmpty().Call(v, name).Pass?
  {
    LengthCall(Eq, IntV(0), MustBeEmpty().errMsg, map[], v, name);
    LengthCall(Ne, IntV(0), MustBeNonEmpty().errMsg, map[], v, name);
  }

  /**
   * MustHaveLengthBetween with no err_msg uses the range validator's template, never
   * its own: the length shows as the value, with the symbols the flags chose.
   */
  lemma LengthBetweenOutcome(lo: int, hi: int, minInclusive: bool, maxInclusive: bool, v: Value, name: string)
    requires Len(v).Ok?
    ensures MustHaveLengthBetween(lo, hi, minInclusive, maxInclusive).Call(v, name) ==
            if N.InRange(Len(v).value, lo, hi, minInclusive, maxInclusive) then Pass
            else Fail(ValidationError(name + (":" + (IntToString(Len(v).value) + (" must be, " + (name + (" " + (Symbol(N.MinFn(minInclusive)) + (" " + (IntToString(lo) + (" and " + (name + (" " + (Symbol(N.MaxFn(maxInclusive)) + (" " + (IntToString(hi) + (".")))))))))))))))))
  {
    N.BetweenOutcome(IntV(lo), IntV(hi), minInclusive, maxInclusive, IntV(Len(v).value), name);
  }

  /**
   * The template MustHaveLengthBetween forwards is its err_msg argument, else the range
   * validator's; its own DEFAULT_ERROR_MSG is never used.
   */
  lemma LengthBetweenTemplate(lo: int, hi: int, minInclusive: bool, maxInclusive: bool,
                              errMsg: Option<string>, extraMsgArgs: Option<map<string, string>>)
    ensures MustHaveLengthBetween(lo, hi, minInclusive, maxInclusive, errMsg, extraMsgArgs).Inner().base.errMsg ==
            EffectiveTemplate(errMsg, N.MUST_BE_BTWN_VALIDATOR_ERR_MSG)
    ensures errMsg.None? ==>
            MustHaveLengthBetween(lo, hi, minInclusive, maxInclusive, errMsg, extraMsgArgs).Inner().base.errMsg !=
            LENGTH_BETWEEN_ERR_MSG
  {
    assert N.MUST_BE_BTWN_VALIDATOR_ERR_MSG[0] == '$';
    assert LENGTH_BETWEEN_ERR_MSG[0] == 'L';
  }

  /** MustHaveLengthBetween(2, 4) accepts the lists of length 2, 3 and 4 and no other. */
  lemma LengthBetweenTwoAndFour(xs: seq<Value>, name: string)
    ensures MustHaveLengthBetween(2, 4).Call(ListV(xs), name).Pass? <==> 2 <= |xs| <= 4
  {
    N.BetweenCall(IntV(2), IntV(4), true, true, MustHaveLengthBetween(2, 4).Inner().base, IntV(|xs|), name);
  }

  // ---------------------------------------------------------------------------
  // Values calls

  /** An element validator passes on an empty list and an empty string, whatever it checks. */
  lemma ValuesOfEmpty(vv: ValuesValidator, name: string)
    ensures vv.Checked(ListV([]), name) == Pass && vv.Checked(StrV(""), name) == Pass
  {
  }

  /** Once an element fails, appending more elements does not change the outcome: they are never examined. */
  lemma ValuesStopAtFirstFailure(vv: ValuesValidator, xs: seq<Value>, ys: seq<Value>, name: string)
    requires vv.Checked(ListV(xs), name).Fail?
    ensures vv.Checked(ListV(xs + ys), name) == vv.Checked(ListV(xs), name)
  {
    FirstFailureIgnoresRest(vv.ElementCheck(name), xs, ys);
  }

  /** A list of numbers passes an element comparison exactly when every element satisfies the operator. */
  lemma ValuesComparisonPasses(fn: CmpOp, to: Value, base: ValidatorBase, xs: seq<Value>, name: string)
    requires IsNumber(to) && forall k :: 0 <= k < |xs| ==> IsNumber(xs[k])
    ensures ValuesValidator(N.Comparison(fn, to), base).Checked(ListV(xs), name).Pass? <==>
            forall k :: 0 <= k < |xs| ==> Holds(fn, NumValue(xs[k]), NumValue(to))
  {
    var vv := ValuesValidator(N.Comparison(fn, to), base);
    FirstFailurePasses(vv.ElementCheck(name), xs);
    forall k | 0 <= k < |xs|
      ensures vv.ElementCheck(name)(xs[k]).Pass? <==> Holds(fn, NumValue(xs[k]), NumValue(to))
    {
      N.ComparisonPasses(fn, to, vv.Inner().base, xs[k], name);
    }
  }

  /**
   * With the default template a failing element comparison reports the first element
   * that fails: `Values of <name>: <element> must be <symbol> <target>`.
   */
  lemma ValuesFirstOffender(fn: CmpOp, to: Value, xs: seq<Value>, k: nat, name: string)
    requires IsNumber(to) && forall j :: 0 <= j < |xs| ==> IsNumber(xs[j])
    requires k < |xs| && !Holds(fn, NumValue(xs[k]), NumValue(to))
    requires forall j :: 0 <= j < k ==> Holds(fn, NumValue(xs[j]), NumValue(to))
    ensures ValuesComparison(fn, to, None, None).Checked(ListV(xs), name) ==
            Fail(ValidationError("Values of " + (name + (": " + (Show(xs[k]) + (" must be " + (Symbol(fn) + (" " + (Show(to))))))))))
  {
    var vv := ValuesComparison(fn, to, None, None);
    var check := vv.ElementCheck(name);
    forall j | 0 <= j < k
      ensures check(xs[j]).Pass?
    {
      N.ComparisonPasses(fn, to, vv.Inner().base, xs[j], name);
    }
    ValuesElementFails(fn, to, xs[k], name);
    FirstFailureAt(check, xs, k);
  }

  /** One failing element, checked with the default values template. */
  lemma ValuesElementFails(fn: CmpOp, to: Value, x: Value, name: string)
    requires IsNumber(to) && IsNumber(x) && !Holds(fn, NumValue(x), NumValue(to))
    ensures ValuesComparison(fn, to, None, None).Inner().Call(x, name) ==
            Fail(ValidationError("Values of " + (name + (": " + (Show(x) + (" must be " + (Symbol(fn) + (" " + (Show(to))))))))))
  {
    var vv := ValuesComparison(fn, to, None, None);
    var args := N.NumericArgs(name, x, to, fn);
    N.ComparisonCall(fn, to, vv.Inner().base, x, name);
    assert vv.Inner().base == ValidatorBase(COLLECTION_VALUES_VALIDATOR_ERR_MSG, map[]) by {
      assert COLLECTION_VALUES_VALIDATOR_ERR_MSG[0] == 'V';
    }
    RenderedErrorWithoutExtra(COLLECTION_VALUES_VALIDATOR_ERR_MSG, args);
    ValuesTemplateRendered(args);
  }

  /** MustHaveValuesGreaterThan(t) passes on a list of numbers exactly when every element is above t. */
  lemma MustHaveValuesGreaterThanPasses(t: Value, xs: seq<Value>, name: string)
    requires IsNumber(t) && forall k :: 0 <= k < |xs| ==> IsNumber(xs[k])
    ensures MustHaveValuesGreaterThan(t).Checked(ListV(xs), name).Pass? <==> forall k :: 0 <= k < |xs| ==> NumValue(xs[k]) > NumValue(t)
  {
    ValuesComparisonPasses(Gt, t, MustHaveValuesGreaterThan(t).base, xs, name);
  }

  /** MustHaveValuesGreaterThanOrEqual(t) passes on a list of numbers exactly when every element is at least t. */
  lemma MustHaveValuesGreaterThanOrEqualPasses(t: Value, xs: seq<Value>, name: string)
    requires IsNumber(t) && forall k :: 0 <= k < |xs| ==> IsNumber(xs[k])
    ensures MustHaveValuesGreaterThanOrEqual(t).Checked(ListV(xs), name).Pass? <==> forall k :: 0 <= k < |xs| ==> NumValue(xs[k]) >= NumValue(t)
  {
    ValuesComparisonPasses(Ge, t, MustHaveValuesGreaterThanOrEqual(t).base, xs, name);
  }

  /** MustHaveValuesLessThan(t) passes on a list of numbers exactly when every element is below t. */
  lemma MustHaveValuesLessThanPasses(t: Value, xs: seq<Value>, name: string)
    requires IsNumber(t) && forall k :: 0 <= k < |xs| ==> IsNumber(xs[k])
    ensures MustHaveValuesLessThan(t).Checked(ListV(xs), name).Pass? <==> forall k :: 0 <= k < |xs| ==> NumValue(xs[k]) < NumValue(t)
  {
    ValuesComparisonPasses(Lt, t, MustHaveValuesLessThan(t).base, xs, name);
  }

  /** MustHaveValuesLessThanOrEqual(t) passes on a list of numbers exactly when every element is at most t. */
  lemma MustHaveValuesLessThanOrEqualPasses(t: Value, xs: seq<Value>, name: string)
    requires IsNumber(t) && forall k :: 0 <= k < |xs| ==> IsNumber(xs[k])
    ensures MustHaveValuesLessThanOrEqual(t).Checked(ListV(xs), name).Pass? <==> forall k :: 0 <= k < |xs| ==> NumValue(xs[k]) <= NumValue(t)
  {
    ValuesComparisonPasses(Le, t, MustHaveValuesLessThanOrEqual(t).base, xs, name);
  }

  /** One element outside the range, checked with the default values-range template. */
  lemma ValuesBetweenElementFails(lo: Value, hi: Value, minInclusive: bool, maxInclusive: bool, x: Value, name: string)
    requires IsNumber(lo) && IsNumber(hi) && IsNumber(x)
    requires !N.InRange(NumValue(x), NumValue(lo), NumValue(hi), minInclusive, maxInclusive)
    ensures MustHaveValuesBetween(lo, hi, minInclusive, maxInclusive).Inner().Call(x, name) ==
            Fail(ValidationError("Values of " + (name + (": " + (Show(x) + (" must be " + (Symbol(N.MinFn(minInclusive)) + (" " + (Show(lo) + (" and " + (Symbol(N.MaxFn(maxInclusive)) + (" " + (Show(hi) + (" "))))))))))))))
  {
    var vv := MustHaveValuesBetween(lo, hi, minInclusive, maxInclusive);
    var args := N.BetweenArgs(name, x, lo, hi, N.MinFn(minInclusive), N.MaxFn(maxInclusive));
    N.BetweenCall(lo, hi, minInclusive, maxInclusive, vv.Inner().base, x, name);
    assert vv.Inner().base == ValidatorBase(VALUES_BETWEEN_ERR_MSG, map[]) by {
      assert VALUES_BETWEEN_ERR_MSG[0] == 'V';
    }
    RenderedErrorWithoutExtra(VALUES_BETWEEN_ERR_MSG, args);
    ValuesBetweenTemplateRendered(args);
  }

  /**
   * With the default template a failing range check over the values reports the first
   * element outside the range: `Values of <name>: <element> must be >= <lo> and <= <hi> `.
   */
  lemma ValuesBetweenFirstOffender(lo: Value, hi: Value, minInclusive: bool, maxInclusive: bool,
                                   xs: seq<Value>, k: nat, name: string)
    requires IsNumber(lo) && IsNumber(hi) && forall j :: 0 <= j < |xs| ==> IsNumber(xs[j])
    requires k < |xs| && !N.InRange(NumValue(xs[k]), NumValue(lo), NumValue(hi), minInclusive, maxInclusive)
    requires forall j :: 0 <= j < k ==> N.InRange(NumValue(xs[j]), NumValue(lo), NumValue(hi), minInclusive, maxInclusive)
    ensures MustHaveValuesBetween(lo, hi, minInclusive, maxInclusive).Checked(ListV(xs), name) ==
            Fail(ValidationError("Values of " + (name + (": " + (Show(xs[k]) + (" must be " + (Symbol(N.MinFn(minInclusive)) + (" " + (Show(lo) + (" and " + (Symbol(N.MaxFn(maxInclusive)) + (" " + (Show(hi) + (" "))))))))))))))
  {
    var vv := MustHaveValuesBetween(lo, hi, minInclusive, maxInclusive);
    var check := vv.ElementCheck(name);
    forall j | 0 <= j < k
      ensures check(xs[j]).Pass?
    {
      N.BetweenCall(lo, hi, minInclusive, maxInclusive, vv.Inner().base, xs[j], name);
    }
    ValuesBetweenElementFails(lo, hi, minInclusive, maxInclusive, xs[k], name);
    FirstFailureAt(check, xs, k);
  }

  /** With the default flags the message shows `>=` and `<=`, as for `MustHaveValuesBetween(min_value=2, max_value=5)`. */
  lemma ValuesBetweenDefaultMessage(lo: Value, hi: Value, xs: seq<Value>, k: nat, name: string)
    requires IsNumber(lo) && IsNumber(hi) && forall j :: 0 <= j < |xs| ==> IsNumber(xs[j])
    requires k < |xs| && !(NumValue(lo) <= NumValue(xs[k]) <= NumValue(hi))
    requires forall j :: 0 <= j < k ==> NumValue(lo) <= NumValue(xs[j]) <= NumValue(hi)
    ensures MustHaveValuesBetween(lo, hi).Checked(ListV(xs), name) ==
            Fail(ValidationError("Values of " + (name + (": " + (Show(xs[k]) + (" must be " + (">=" + (" " + (Show(lo) + (" and " + ("<=" + (" " + (Show(hi) + (" "))))))))))))))
  {
    N.BoundSymbols(true, true);
    ValuesBetweenFirstOffender(lo, hi, true, true, xs, k, name);
  }

  /** A list of numbers passes an element range check exactly when every element is in the range. */
  lemma ValuesBetweenPasses(lo: Value, hi: Value, minInclusive: bool, maxInclusive: bool, base: ValidatorBase,
                            xs: seq<Value>, name: string)
    requires IsNumber(lo) && IsNumber(hi) && forall k :: 0 <= k < |xs| ==> IsNumber(xs[k])
    ensures ValuesValidator(N.Range(lo, hi, minInclusive, maxInclusive), base).Checked(ListV(xs), name).Pass? <==>
            forall k :: 0 <= k < |xs| ==> N.InRange(NumValue(xs[k]), NumValue(lo), NumValue(hi), minInclusive, maxInclusive)
  {
    var vv := ValuesValidator(N.Range(lo, hi, minInclusive, maxInclusive), base);
    FirstFailurePasses(vv.ElementCheck(name), xs);
    forall k | 0 <= k < |xs|
      ensures vv.ElementCheck(name)(xs[k]).Pass? <==>
              N.InRange(NumValue(xs[k]), NumValue(lo), NumValue(hi), minInclusive, maxInclusive)
    {
      N.BetweenCall(lo, hi, minInclusive, maxInclusive, vv.Inner().base, xs[k], name);
    }
  }
}
