/**
 * The numeric validators (func_validator/validators/numeric_arg_validators.py):
 * six comparisons against a fixed target, four sign shortcuts against 0.0, and a
 * range check with a separate inclusive/exclusive choice on each side. A call either
 * passes, raises ValidationError with the rendered template, or raises TypeError
 * when Python cannot compare the operands.
 */
module NumericArgValidators {
  import opened Core

  /** `${arg_name}: ${arg_value} must be ${fn_symbol} ${to}.` */
  const NUMERIC_LAYOUT :=
    Field(ArgName, Text(": ", Field(ArgValue, Text(" must be ", Field(FnSymbol, Text(" ", Field(To, Last("."))))))))
  const DEFAULT_NUMERIC_VALIDATOR_ERR_MSG := NUMERIC_LAYOUT.Source()

  /** The upper half of the range template: `${arg_name} ${max_fn_symbol} ${max_value}.` */
  const BETWEEN_UPPER_LAYOUT :=
    Field(ArgName, Text(" ", Field(MaxFnSymbol, Text(" ", Field(MaxValue, Last("."))))))

  /**
   * `${arg_name}:${arg_value} must be, ${arg_name} ${min_fn_symbol} ${min_value} and
   * ${arg_name} ${max_fn_symbol} ${max_value}.` (one line).
   */
  const BETWEEN_LAYOUT :=
    Field(ArgName, Text(":", Field(ArgValue, Text(" must be, ", Field(ArgName, Text(" ", Field(MinFnSymbol, Text(" ", Field(MinValue, Text(" and ", BETWEEN_UPPER_LAYOUT))))))))))
  const MUST_BE_BTWN_VALIDATOR_ERR_MSG := BETWEEN_LAYOUT.Source()

  /** The keywords `_generic_number_validator` renders its template with. */
  function NumericArgs(argName: string, argValue: Value, to: Value, fn: CmpOp): map<string, string>
  {
    map["arg_name" := argName, "arg_value" := Show(argValue), "to" := Show(to), "fn_symbol" := Symbol(fn)]
  }

  /** `_generic_number_validator`: raise unless `fn(arg_value, to)`. */
  function GenericNumberValidator(argValue: Value, argName: string, to: Value, fn: CmpOp,
                                  errMsg: string, extraMsgArgs: map<string, string>): Outcome
  {
    match Compare(fn, argValue, to)
    case None => Fail(TypeError(Unorderable(fn, argValue, to)))
    case Some(ok) =>
      if ok then Pass
      else Fail(RenderedError(errMsg, NumericArgs(argName, argValue, to, fn), extraMsgArgs))
  }

  /** The keywords `_must_be_between` renders its template with. */
  function BetweenArgs(argName: string, argValue: Value, minValue: Value, maxValue: Value,
                       minFn: CmpOp, maxFn: CmpOp): map<string, string>
  {
    map["arg_name" := argName, "arg_value" := Show(argValue),
        "min_value" := Show(minValue), "max_value" := Show(maxValue),
        "min_fn_symbol" := Symbol(minFn), "max_fn_symbol" := Symbol(maxFn)]
  }

  /** The operator for the lower bound: `ge` when inclusive, else `gt`. */
  function MinFn(inclusive: bool): CmpOp
  {
    if inclusive then Ge else Gt
  }

  /** The operator for the upper bound: `le` when inclusive, else `lt`. */
  function MaxFn(inclusive: bool): CmpOp
  {
    if inclusive then Le else Lt
  }

  /**
   * `_must_be_between`: `min_fn(arg_value, min_value) and max_fn(arg_value, max_value)`,
   * with `>=`/`>` and `<=`/`<` chosen by the flags; the upper bound is not compared
   * when the lower one already fails.
   */
  function MustBeBetweenCheck(argValue: Value, argName: string, minValue: Value, maxValue: Value,
                              minInclusive: bool, maxInclusive: bool,
                              errMsg: string, extraMsgArgs: map<string, string>): Outcome
  {
    var minFn := MinFn(minInclusive);
    var maxFn := MaxFn(maxInclusive);
    match Compare(minFn, argValue, minValue)
    case None => Fail(TypeError(Unorderable(minFn, argValue, minValue)))
    case Some(aboveMin) =>
      var belowMax := if aboveMin then Compare(maxFn, argValue, maxValue) else Some(false);
      match belowMax
      case None => Fail(TypeError(Unorderable(maxFn, argValue, maxValue)))
      case Some(ok) =>
        if ok then Pass
        else
          Fail(RenderedError(errMsg, BetweenArgs(argName, argValue, minValue, maxValue, minFn, maxFn), extraMsgArgs))
  }

  /** What a numeric validator checks: a comparison against a target, or a range. */
  datatype Check =
    | Comparison(fn: CmpOp, to: Value)
    | Range(minValue: Value, maxValue: Value, minInclusive: bool, maxInclusive: bool)

  /** A configured numeric validator: its check plus the fields of Validator.__init__. */
  datatype NumericValidator = NumericValidator(check: Check, base: ValidatorBase)
  {
    /** `__call__(arg_value, arg_name)`. */
    function Call(argValue: Value, argName: string): Outcome
    {
      match check
      case Comparison(fn, to) =>
        GenericNumberValidator(argValue, argName, to, fn, base.errMsg, base.extraMsgArgs)
      case Range(minValue, maxValue, minInclusive, maxInclusive) =>
        MustBeBetweenCheck(argValue, argName, minValue, maxValue, minInclusive, maxInclusive,
                           base.errMsg, base.extraMsgArgs)
    }
  }

  /** A comparison validator class: `cls(value, err_msg=..., extra_msg_args=...)`. */
  function ComparisonValidator(fn: CmpOp, value: Value, errMsg: Option<string> := None,
                               extraMsgArgs: Option<map<string, string>> := None): NumericValidator
  {
    NumericValidator(Comparison(fn, value), InitValidator(errMsg, extraMsgArgs, DEFAULT_NUMERIC_VALIDATOR_ERR_MSG))
  }

  function MustBeBetween(minValue: Value, maxValue: Value, minInclusive: bool := true, maxInclusive: bool := true,
                         errMsg: Option<string> := None,
                         extraMsgArgs: Option<map<string, string>> := None): NumericValidator
  {
    NumericValidator(Range(minValue, maxValue, minInclusive, maxInclusive),
                     InitValidator(errMsg, extraMsgArgs, MUST_BE_BTWN_VALIDATOR_ERR_MSG))
  }

  /** The zero the sign validators compare against is the float 0.0. */
  const ZERO := FloatV(0)

  function MustBePositive(errMsg: Option<string> := None, extraMsgArgs: Option<map<string, string>> := None): NumericValidator
  {
    ComparisonValidator(Gt, ZERO, errMsg, extraMsgArgs)
  }

  function MustBeNonPositive(errMsg: Option<string> := None, extraMsgArgs: Option<map<string, string>> := None): NumericValidator
  {
    ComparisonValidator(Le, ZERO, errMsg, extraMsgArgs)
  }

  function MustBeNegative(errMsg: Option<string> := None, extraMsgArgs: Option<map<string, string>> := None): NumericValidator
  {
    ComparisonValidator(Lt, ZERO, errMsg, extraMsgArgs)
  }

  function MustBeNonNegative(errMsg: Option<string> := None, extraMsgArgs: Option<map<string, string>> := None): NumericValidator
  {
    ComparisonValidator(Ge, ZERO, errMsg, extraMsgArgs)
  }

  function MustBeEqual(value: Value, errMsg: Option<string> := None, extraMsgArgs: Option<map<string, string>> := None): NumericValidator
  {
    ComparisonValidator(Eq, value, errMsg, extraMsgArgs)
  }

  function MustNotBeEqual(value: Value, errMsg: Option<string> := None, extraMsgArgs: Option<map<string, string>> := None): NumericValidator
  {
    ComparisonValidator(Ne, value, errMsg, extraMsgArgs)
  }

  function MustBeGreaterThan(value: Value, errMsg: Option<string> := None, extraMsgArgs: Option<map<string, string>> := None): NumericValidator
  {
    ComparisonValidator(Gt, value, errMsg, extraMsgArgs)
  }

  function MustBeGreaterThanOrEqual(value: Value, errMsg: Option<string> := None, extraMsgArgs: Option<map<string, string>> := None): NumericValidator
  {
    ComparisonValidator(Ge, value, errMsg, extraMsgArgs)
  }

  function MustBeLessThan(value: Value, errMsg: Option<string> := None, extraMsgArgs: Option<map<string, string>> := None): NumericValidator
  {
    ComparisonValidator(Lt, value, errMsg, extraMsgArgs)
  }

  function MustBeLessThanOrEqual(value: Value, errMsg: Option<string> := None, extraMsgArgs: Option<map<string, string>> := None): NumericValidator
  {
    ComparisonValidator(Le, value, errMsg, extraMsgArgs)
  }

  // ---------------------------------------------------------------------------
  // The default messages

  lemma NumericLayoutFilled(m: map<string, string>)
    requires "arg_name" in m && "arg_value" in m && "fn_symbol" in m && "to" in m
    ensures NUMERIC_LAYOUT.Filled(m) == m["arg_name"] + (": " + (m["arg_value"] + (" must be " + (m["fn_symbol"] + (" " + (m["to"] + (".")))))))
  {
  }

  /** The comparison template with its four keys supplied reads as one sentence. */
  lemma NumericTemplateRendered(m: map<string, string>)
    requires "arg_name" in m && "arg_value" in m && "fn_symbol" in m && "to" in m
    ensures Render(DEFAULT_NUMERIC_VALIDATOR_ERR_MSG, m) == m["arg_name"] + (": " + (m["arg_value"] + (" must be " + (m["fn_symbol"] + (" " + (m["to"] + (".")))))))
  {
    assert NUMERIC_LAYOUT.WellFormed();
    RenderLayout(NUMERIC_LAYOUT, m);
    NumericLayoutFilled(m);
  }

  lemma BetweenUpperLayoutFilled(m: map<string, string>)
    requires "arg_name" in m && "max_fn_symbol" in m && "max_value" in m
    ensures BETWEEN_UPPER_LAYOUT.Filled(m) == m["arg_name"] + (" " + (m["max_fn_symbol"] + (" " + (m["max_value"] + (".")))))
  {
  }

  lemma BetweenLayoutFilled(m: map<string, string>)
    requires "arg_name" in m && "arg_value" in m && "min_fn_symbol" in m && "min_value" in m
    requires "max_fn_symbol" in m && "max_value" in m
    ensures BETWEEN_LAYOUT.Filled(m) == m["arg_name"] + (":" + (m["arg_value"] + (" must be, " + (m["arg_name"] + (" " + (m["min_fn_symbol"] + (" " + (m["min_value"] + (" and " + (m["arg_name"] + (" " + (m["max_fn_symbol"] + (" " + (m["max_value"] + (".")))))))))))))))
  {
    BetweenUpperLayoutFilled(m);
  }

  lemma BetweenLayoutWellFormed()
    ensures BETWEEN_LAYOUT.WellFormed()
  {
    assert BETWEEN_UPPER_LAYOUT.WellFormed();
  }

  /** The range template with its six keys supplied reads as one sentence. */
  lemma BetweenTemplateRendered(m: map<string, string>)
    requires "arg_name" in m && "arg_value" in m && "min_fn_symbol" in m && "min_value" in m
    requires "max_fn_symbol" in m && "max_value" in m
    ensures Render(MUST_BE_BTWN_VALIDATOR_ERR_MSG, m) == m["arg_name"] + (":" + (m["arg_value"] + (" must be, " + (m["arg_name"] + (" " + (m["min_fn_symbol"] + (" " + (m["min_value"] + (" and " + (m["arg_name"] + (" " + (m["max_fn_symbol"] + (" " + (m["max_value"] + (".")))))))))))))))
  {
    BetweenLayoutWellFormed();
    RenderLayout(BETWEEN_LAYOUT, m);
    BetweenLayoutFilled(m);
  }

  // ---------------------------------------------------------------------------
  // Calls

  /**
   * On two numbers a comparison validator passes exactly when `v fn to` holds, and
   * otherwise renders its template with the argument, the value, the target and the
   * operator's symbol, plus the extra keywords.
   */
  lemma ComparisonCall(fn: CmpOp, to: Value, base: ValidatorBase, v: Value, name: string)
    requires IsNumber(to) && IsNumber(v)
    ensures NumericValidator(Comparison(fn, to), base).Call(v, name) ==
            if Holds(fn, NumValue(v), NumValue(to)) then Pass
            else Fail(RenderedError(base.errMsg, NumericArgs(name, v, to, fn), base.extraMsgArgs))
  {
  }

  /**
   * With the default template, a failing comparison reads
   * `<name>: <value> must be <symbol> <target>.` (the pieces grouped from the right).
   */
  lemma ComparisonOutcome(fn: CmpOp, to: Value, v: Value, name: string)
    requires IsNumber(to) && IsNumber(v)
    ensures ComparisonValidator(fn, to).Call(v, name) ==
            if Holds(fn, NumValue(v), NumValue(to)) then Pass
            else Fail(ValidationError(name + (": " + (Show(v) + (" must be " + (Symbol(fn) + (" " + (Show(to) + (".")))))))))
  {
    ComparisonCall(fn, to, ComparisonValidator(fn, to).base, v, name);
    if !Holds(fn, NumValue(v), NumValue(to)) {
      RenderedErrorWithoutExtra(DEFAULT_NUMERIC_VALIDATOR_ERR_MSG, NumericArgs(name, v, to, fn));
      NumericTemplateRendered(NumericArgs(name, v, to, fn));
    }
  }

  /** MustBeEqual(to) passes exactly when the value equals the target; the message shows "==". */
  lemma MustBeEqualOutcome(to: Value, v: Value, name: string)
    requires IsNumber(to) && IsNumber(v)
    ensures MustBeEqual(to).Call(v, name) ==
            if NumValue(v) == NumValue(to) then Pass
            else Fail(ValidationError(name + (": " + (Show(v) + (" must be " + ("==" + (" " + (Show(to) + (".")))))))))
  {
    ComparisonOutcome(Eq, to, v, name);
  }

  /** MustNotBeEqual(to) passes exactly when the value differs from the target; the message shows "!=". */
  lemma MustNotBeEqualOutcome(to: Value, v: Value, name: string)
    requires IsNumber(to) && IsNumber(v)
    ensures MustNotBeEqual(to).Call(v, name) ==
            if NumValue(v) != NumValue(to) then Pass
            else Fail(ValidationError(name + (": " + (Show(v) + (" must be " + ("!=" + (" " + (Show(to) + (".")))))))))
  {
    ComparisonOutcome(Ne, to, v, name);
  }

  /** MustBeGreaterThan(to) passes exactly when the value is above the target; the message shows ">". */
  lemma MustBeGreaterThanOutcome(to: Value, v: Value, name: string)
    requires IsNumber(to) && IsNumber(v)
    ensures MustBeGreaterThan(to).Call(v, name) ==
            if NumValue(v) > NumValue(to) then Pass
            else Fail(ValidationError(name + (": " + (Show(v) + (" must be " + (">" + (" " + (Show(to) + (".")))))))))
  {
    ComparisonOutcome(Gt, to, v, name);
  }

  /** MustBeGreaterThanOrEqual(to) passes exactly when the value is at least the target; the message shows ">=". */
  lemma MustBeGreaterThanOrEqualOutcome(to: Value, v: Value, name: string)
    requires IsNumber(to) && IsNumber(v)
    ensures MustBeGreaterThanOrEqual(to).Call(v, name) ==
            if NumValue(v) >= NumValue(to) then Pass
            else Fail(ValidationError(name + (": " + (Show(v) + (" must be " + (">=" + (" " + (Show(to) + (".")))))))))
  {
    ComparisonOutcome(Ge, to, v, name);
  }

  /** MustBeLessThan(to) passes exactly when the value is below the target; the message shows "<". */
  lemma MustBeLessThanOutcome(to: Value, v: Value, name: string)
    requires IsNumber(to) && IsNumber(v)
    ensures MustBeLessThan(to).Call(v, name) ==
            if NumValue(v) < NumValue(to) then Pass
            else Fail(ValidationError(name + (": " + (Show(v) + (" must be " + ("<" + (" " + (Show(to) + (".")))))))))
  {
    ComparisonOutcome(Lt, to, v, name);
  }

  /** MustBeLessThanOrEqual(to) passes exactly when the value is at most the target; the message shows "<=". */
  lemma MustBeLessThanOrEqualOutcome(to: Value, v: Value, name: string)
    requires IsNumber(to) && IsNumber(v)
    ensures MustBeLessThanOrEqual(to).Call(v, name) ==
            if NumValue(v) <= NumValue(to) then Pass
            else Fail(ValidationError(name + (": " + (Show(v) + (" must be " + ("<=" + (" " + (Show(to) + (".")))))))))
  {
    ComparisonOutcome(Le, to, v, name);
  }

  /** `str(0.0)` is "0.0". */
  lemma ShowZero()
    ensures Show(ZERO) == "0.0"
  {
    assert Digits(0) == "0";
  }

  /** MustBePositive() compares with 0.0: it passes exactly when the value is positive. */
  lemma MustBePositiveOutcome(v: Value, name: string)
    requires IsNumber(v)
    ensures MustBePositive().Call(v, name) ==
            if NumValue(v) > 0 then Pass
            else Fail(ValidationError(name + (": " + (Show(v) + (" must be " + (">" + (" " + ("0.0" + (".")))))))))
  {
    ShowZero();
    ComparisonOutcome(Gt, ZERO, v, name);
  }

  /** MustBeNonPositive() compares with 0.0: it passes exactly when the value is not positive. */
  lemma MustBeNonPositiveOutcome(v: Value, name: string)
    requires IsNumber(v)
    ensures MustBeNonPositive().Call(v, name) ==
            if NumValue(v) <= 0 then Pass
            else Fail(ValidationError(name + (": " + (Show(v) + (" must be " + ("<=" + (" " + ("0.0" + (".")))))))))
  {
    ShowZero();
    ComparisonOutcome(Le, ZERO, v, name);
  }

  /** MustBeNegative() compares with 0.0: it passes exactly when the value is negative. */
  lemma MustBeNegativeOutcome(v: Value, name: string)
    requires IsNumber(v)
    ensures MustBeNegative().Call(v, name) ==
            if NumValue(v) < 0 then Pass
            else Fail(ValidationError(name + (": " + (Show(v) + (" must be " + ("<" + (" " + ("0.0" + (".")))))))))
  {
    ShowZero();
    ComparisonOutcome(Lt, ZERO, v, name);
  }

  /** MustBeNonNegative() compares with 0.0: it passes exactly when the value is not negative. */
  lemma MustBeNonNegativeOutcome(v: Value, name: string)
    requires IsNumber(v)
    ensures MustBeNonNegative().Call(v, name) ==
            if NumValue(v) >= 0 then Pass
            else Fail(ValidationError(name + (": " + (Show(v) + (" must be " + (">=" + (" " + ("0.0" + (".")))))))))
  {
    ShowZero();
    ComparisonOutcome(Ge, ZERO, v, name);
  }

  /** A comparison validator's call passes exactly when its operator holds, whatever its template. */
  lemma ComparisonPasses(fn: CmpOp, to: Value, base: ValidatorBase, v: Value, name: string)
    requires IsNumber(to) && IsNumber(v)
    ensures NumericValidator(Comparison(fn, to), base).Call(v, name).Pass? <==> Holds(fn, NumValue(v), NumValue(to))
  {
  }

  /** On every number exactly one of MustBePositive and MustBeNonPositive fails. */
  lemma PositiveNonPositiveComplementary(v: Value, name: string)
    requires IsNumber(v)
    ensures MustBePositive().Call(v, name).Pass? != MustBeNonPositive().Call(v, name).Pass?
  {
    ComparisonPasses(Gt, ZERO, MustBePositive().base, v, name);
    ComparisonPasses(Le, ZERO, MustBeNonPositive().base, v, name);
  }

  /** On every number exactly one of MustBeNegative and MustBeNonNegative fails. */
  lemma NegativeNonNegativeComplementary(v: Value, name: string)
    requires IsNumber(v)
    ensures MustBeNegative().Call(v, name).Pass? != MustBeNonNegative().Call(v, name).Pass?
  {
    ComparisonPasses(Lt, ZERO, MustBeNegative().base, v, name);
    ComparisonPasses(Ge, ZERO, MustBeNonNegative().base, v, name);
  }

  /** MustBeEqual(t) and MustNotBeEqual(t) give opposite outcomes on every value, of any type. */
  lemma EqualNotEqualOpposite(t: Value, v: Value, name: string)
    ensures MustBeEqual(t).Call(v, name).Pass? != MustNotBeEqual(t).Call(v, name).Pass?
    ensures MustBeEqual(t).Call(v, name).Fail? ==> MustBeEqual(t).Call(v, name).error.ValidationError?
  {
  }

  /** The range a range validator accepts: each bound inclusive or exclusive by its flag. */
  predicate InRange(x: int, lo: int, hi: int, minInclusive: bool, maxInclusive: bool)
  {
    (if minInclusive then x >= lo else x > lo) && (if maxInclusive then x <= hi else x < hi)
  }

  /**
   * On numbers a range validator passes exactly when v clears the lower bound (>= or >
   * by the flag) and the upper bound (<= or < by the flag), and otherwise renders its
   * template with both bounds and the symbols the flags chose.
   */
  lemma BetweenCall(lo: Value, hi: Value, minInclusive: bool, maxInclusive: bool, base: ValidatorBase,
                    v: Value, name: string)
    requires IsNumber(lo) && IsNumber(hi) && IsNumber(v)
    ensures NumericValidator(Range(lo, hi, minInclusive, maxInclusive), base).Call(v, name) ==
            if InRange(NumValue(v), NumValue(lo), NumValue(hi), minInclusive, maxInclusive) then Pass
            else Fail(RenderedError(base.errMsg, BetweenArgs(name, v, lo, hi, MinFn(minInclusive), MaxFn(maxInclusive)),
                                    base.extraMsgArgs))
  {
  }

  /** The default range message, with the bounds and the symbols of the two operators. */
  lemma BetweenMessage(name: string, v: Value, lo: Value, hi: Value, minFn: CmpOp, maxFn: CmpOp)
    ensures RenderedError(MUST_BE_BTWN_VALIDATOR_ERR_MSG, BetweenArgs(name, v, lo, hi, minFn, maxFn), map[]) ==
            ValidationError(name + (":" + (Show(v) + (" must be, " + (name + (" " + (Symbol(minFn) + (" " + (Show(lo) + (" and " + (name + (" " + (Symbol(maxFn) + (" " + (Show(hi) + ("."))))))))))))))))
  {
    var args := BetweenArgs(name, v, lo, hi, minFn, maxFn);
    RenderedErrorWithoutExtra(MUST_BE_BTWN_VALIDATOR_ERR_MSG, args);
    BetweenTemplateRendered(args);
  }

  /**
   * MustBeBetween with the default template: the failure message shows the symbols of
   * the operators the flags chose (BoundSymbols) and both bounds.
   */
  lemma BetweenOutcome(lo: Value, hi: Value, minInclusive: bool, maxInclusive: bool, v: Value, name: string)
    requires IsNumber(lo) && IsNumber(hi) && IsNumber(v)
    ensures MustBeBetween(lo, hi, minInclusive, maxInclusive).Call(v, name) ==
            if InRange(NumValue(v), NumValue(lo), NumValue(hi), minInclusive, maxInclusive) then Pass
            else Fail(ValidationError(name + (":" + (Show(v) + (" must be, " + (name + (" " + (Symbol(MinFn(minInclusive)) + (" " + (Show(lo) + (" and " + (name + (" " + (Symbol(MaxFn(maxInclusive)) + (" " + (Show(hi) + (".")))))))))))))))))
  {
    BetweenCall(lo, hi, minInclusive, maxInclusive, MustBeBetween(lo, hi, minInclusive, maxInclusive).base, v, name);
    if !InRange(NumValue(v), NumValue(lo), NumValue(hi), minInclusive, maxInclusive) {
      BetweenMessage(name, v, lo, hi, MinFn(minInclusive), MaxFn(maxInclusive));
    }
  }

  /** The flags choose `>=` or `>` for the lower bound and `<=` or `<` for the upper one. */
  lemma BoundSymbols(minInclusive: bool, maxInclusive: bool)
    ensures Symbol(MinFn(minInclusive)) == if minInclusive then ">=" else ">"
    ensures Symbol(MaxFn(maxInclusive)) == if maxInclusive then "<=" else "<"
  {
  }

  /** Both flags default to inclusive: [2, 4] accepts 2, 3, 4 and rejects 1 and 5. */
  lemma BetweenInclusiveByDefault(v: int, name: string)
    ensures MustBeBetween(IntV(2), IntV(4)).Call(IntV(v), name).Pass? <==> 2 <= v <= 4
  {
    BetweenCall(IntV(2), IntV(4), true, true, MustBeBetween(IntV(2), IntV(4)).base, IntV(v), name);
  }

  /** Exclusive on both sides, [2, 4] accepts only 3. */
  lemma BetweenExclusive(v: int, name: string)
    ensures MustBeBetween(IntV(2), IntV(4), false, false).Call(IntV(v), name).Pass? <==> v == 3
  {
    BetweenCall(IntV(2), IntV(4), false, false, MustBeBetween(IntV(2), IntV(4), false, false).base, IntV(v), name);
  }
}
