/**
 * The older numeric validators built with `functools.partial`
 * (func_validator/_validators/_numeric_arg_validators.py). A failure raises ValueError
 * `x=<repr> must be <symbol> <to>.`, the symbol looked up in OPERATOR_SYMBOLS by the
 * operator's name. The module imports that table from a `_core` that lacks it; the
 * model uses the table of func_validator/validators/_core.py. A factory's result is
 * the configured check, the same Check the class validators carry.
 */
module LegacyNumericArgValidators {
  import opened Core
  import N = NumericArgValidators

  /** `f"{x=}"`: the text `x=` followed by `repr(x)`. */
  function XEquals(x: Value): string
  {
    "x=" + Repr(x)
  }

  /** `_generic_number_validator(x, to=..., fn=...)`. */
  function GenericNumberValidator(x: Value, to: Value, fn: CmpOp): Outcome
  {
    match Compare(fn, x, to)
    case None => Fail(TypeError(Unorderable(fn, x, to)))
    case Some(ok) =>
      if ok then Pass
      else Fail(ValueError(XEquals(x) + (" must be " + (Symbol(fn) + (" " + (Show(to) + "."))))))
  }

  /** `x=<repr> must be, x <min symbol> <min> and x <max symbol> <max>.` */
  function BetweenMessage(x: Value, minValue: Value, maxValue: Value, minFn: CmpOp, maxFn: CmpOp): string
  {
    XEquals(x) + (" must be, x " + (Symbol(minFn) + (" " + (Show(minValue) + (" and x " + (Symbol(maxFn) + (" " + (Show(maxValue) + "."))))))))
  }

  /** `_must_be_between`: the upper bound is not compared when the lower one fails. */
  function MustBeBetweenCheck(x: Value, minValue: Value, maxValue: Value, minInclusive: bool, maxInclusive: bool): Outcome
  {
    var minFn := N.MinFn(minInclusive);
    var maxFn := N.MaxFn(maxInclusive);
    match Compare(minFn, x, minValue)
    case None => Fail(TypeError(Unorderable(minFn, x, minValue)))
    case Some(aboveMin) =>
      var belowMax := if aboveMin then Compare(maxFn, x, maxValue) else Some(false);
      match belowMax
      case None => Fail(TypeError(Unorderable(maxFn, x, maxValue)))
      case Some(ok) =>
        if ok then Pass else Fail(ValueError(BetweenMessage(x, minValue, maxValue, minFn, maxFn)))
  }

  /** Calling the partial a factory returned. */
  function Validate(c: N.Check, x: Value): Outcome
  {
    match c
    case Comparison(fn, to) => GenericNumberValidator(x, to, fn)
    case Range(minValue, maxValue, minInclusive, maxInclusive) =>
      MustBeBetweenCheck(x, minValue, maxValue, minInclusive, maxInclusive)
  }

  function MustBePositive(value: Value): Outcome
  {
    GenericNumberValidator(value, N.ZERO, Gt)
  }

  function MustBeNonPositive(value: Value): Outcome
  {
    GenericNumberValidator(value, N.ZERO, Le)
  }

  function MustBeNegative(value: Value): Outcome
  {
    GenericNumberValidator(value, N.ZERO, Lt)
  }

  function MustBeNonNegative(value: Value): Outcome
  {
    GenericNumberValidator(value, N.ZERO, Ge)
  }

  function MustBeBetween(minValue: Value, maxValue: Value, minInclusive: bool := true, maxInclusive: bool := true): N.Check
  {
    N.Range(minValue, maxValue, minInclusive, maxInclusive)
  }

  function MustBeEqual(value: Value): N.Check
  {
    N.Comparison(Eq, value)
  }

  function MustBeNotEqual(value: Value): N.Check
  {
    N.Comparison(Ne, value)
  }

  function MustBeGreaterThan(value: Value): N.Check
  {
    N.Comparison(Gt, value)
  }

  function MustBeGreaterThanOrEqual(value: Value): N.Check
  {
    N.Comparison(Ge, value)
  }

  function MustBeLessThan(value: Value): N.Check
  {
    N.Comparison(Lt, value)
  }

  function MustBeLessThanOrEqual(value: Value): N.Check
  {
    N.Comparison(Le, value)
  }

  // ---------------------------------------------------------------------------
  // Properties

  /**
   * On numbers a comparison raises exactly when `x op to` is false, with ValueError
   * `x=<repr> must be <OPERATOR_SYMBOLS[op name]> <to>.`.
   */
  lemma ComparisonOutcome(fn: CmpOp, to: Value, x: Value)
    requires IsNumber(x) && IsNumber(to)
    ensures OpName(fn) in OPERATOR_SYMBOLS
    ensures Validate(N.Comparison(fn, to), x) ==
            if Holds(fn, NumValue(x), NumValue(to)) then Pass
            else Fail(ValueError(XEquals(x) + (" must be " + (OPERATOR_SYMBOLS[OpName(fn)] + (" " + (Show(to) + "."))))))
  {
    SymbolIsTableEntry(fn);
  }

  /** The sign functions raise exactly when the comparison with 0.0 fails. */
  lemma SignsCompareWithZero(v: Value)
    requires IsNumber(v)
    ensures MustBePositive(v).Pass? <==> NumValue(v) > 0
    ensures MustBeNonPositive(v).Pass? <==> NumValue(v) <= 0
    ensures MustBeNegative(v).Pass? <==> NumValue(v) < 0
    ensures MustBeNonNegative(v).Pass? <==> NumValue(v) >= 0
  {
  }

  /**
   * On numbers a range check passes exactly when both bounds chosen by the flags hold,
   * and otherwise raises ValueError naming both bounds with their table symbols.
   */
  lemma BetweenOutcome(lo: Value, hi: Value, minInclusive: bool, maxInclusive: bool, x: Value)
    requires IsNumber(lo) && IsNumber(hi) && IsNumber(x)
    ensures OpName(N.MinFn(minInclusive)) in OPERATOR_SYMBOLS && OpName(N.MaxFn(maxInclusive)) in OPERATOR_SYMBOLS
    ensures Validate(N.Range(lo, hi, minInclusive, maxInclusive), x) ==
            if N.InRange(NumValue(x), NumValue(lo), NumValue(hi), minInclusive, maxInclusive) then Pass
            else Fail(ValueError(XEquals(x) + (" must be, x " + (OPERATOR_SYMBOLS[OpName(N.MinFn(minInclusive))] + (" " + (Show(lo) + (" and x " + (OPERATOR_SYMBOLS[OpName(N.MaxFn(maxInclusive))] + (" " + (Show(hi) + (".")))))))))))
  {
    SymbolIsTableEntry(N.MinFn(minInclusive));
    SymbolIsTableEntry(N.MaxFn(maxInclusive));
  }

  /** Both inclusivity flags default to true. */
  lemma BetweenInclusiveByDefault(lo: Value, hi: Value, x: Value)
    requires IsNumber(lo) && IsNumber(hi) && IsNumber(x)
    ensures MustBeBetween(lo, hi) == N.Range(lo, hi, true, true)
    ensures Validate(MustBeBetween(lo, hi), x).Pass? <==> NumValue(lo) <= NumValue(x) <= NumValue(hi)
  {
  }

  /**
   * The partial-based validators accept exactly the values the class validators with
   * the same check accept, on any values, whatever the class validator's template.
   */
  lemma SameVerdictAsClassValidators(c: N.Check, base: ValidatorBase, x: Value, name: string)
    ensures Validate(c, x).Pass? <==> N.NumericValidator(c, base).Call(x, name).Pass?
  {
  }
}
