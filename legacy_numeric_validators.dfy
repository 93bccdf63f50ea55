/**
 * The older numeric validators (func_validator/_validators/_numeric_validators.py):
 * sign functions that check a value against 0.0 directly, and comparison factories
 * returning a validator of one value. Each passes its own symbol to the generic check.
 */
module LegacyNumericValidators {
  import opened Core
  import LC = LegacyCore
  import N = NumericArgValidators

  function MustBePositive(value: Value): Outcome
  {
    LC.GenericNumberValidator(value, N.ZERO, Gt, ">")
  }

  function MustBeNonPositive(value: Value): Outcome
  {
    LC.GenericNumberValidator(value, N.ZERO, Le, "<=")
  }

  function MustBeNegative(value: Value): Outcome
  {
    LC.GenericNumberValidator(value, N.ZERO, Lt, "<")
  }

  function MustBeNonNegative(value: Value): Outcome
  {
    LC.GenericNumberValidator(value, N.ZERO, Ge, ">=")
  }

  /** The validator a comparison factory returns: the generic check with a fixed target, operator and symbol. */
  datatype Comparison = Comparison(fn: CmpOp, to: Value, symbol: string)
  {
    function Call(val: Value): Outcome
    {
      LC.GenericNumberValidator(val, to, fn, symbol)
    }
  }

  function MustBeEqual(value: Value): Comparison
  {
    Comparison(Eq, value, "==")
  }

  function MustBeNotEqual(value: Value): Comparison
  {
    Comparison(Ne, value, "!=")
  }

  function MustBeGreaterThan(value: Value): Comparison
  {
    Comparison(Gt, value, ">")
  }

  function MustBeGreaterThanOrEqual(value: Value): Comparison
  {
    Comparison(Ge, value, ">=")
  }

  function MustBeLessThan(value: Value): Comparison
  {
    Comparison(Lt, value, "<")
  }

  function MustBeLessThanOrEqual(value: Value): Comparison
  {
    Comparison(Le, value, "<=")
  }

  /** The sign functions raise ValueError exactly when the comparison with 0.0 fails; the message shows 0.0. */
  lemma SignOutcomes(v: Value)
    requires IsNumber(v)
    ensures MustBePositive(v) == if NumValue(v) > 0 then Pass else Fail(ValueError(LC.ValueMessage(v, ">", N.ZERO)))
    ensures MustBeNonPositive(v) == if NumValue(v) <= 0 then Pass else Fail(ValueError(LC.ValueMessage(v, "<=", N.ZERO)))
    ensures MustBeNegative(v) == if NumValue(v) < 0 then Pass else Fail(ValueError(LC.ValueMessage(v, "<", N.ZERO)))
    ensures MustBeNonNegative(v) == if NumValue(v) >= 0 then Pass else Fail(ValueError(LC.ValueMessage(v, ">=", N.ZERO)))
    ensures Show(N.ZERO) == "0.0"
  {
    N.ShowZero();
  }

  /** Every validator pairs its operator with that operator's symbol. */
  lemma FactoriesPairSymbols(value: Value)
    ensures MustBeEqual(value).fn == Eq && MustBeEqual(value).symbol == Symbol(Eq)
    ensures MustBeNotEqual(value).fn == Ne && MustBeNotEqual(value).symbol == Symbol(Ne)
    ensures MustBeGreaterThan(value).fn == Gt && MustBeGreaterThan(value).symbol == Symbol(Gt)
    ensures MustBeGreaterThanOrEqual(value).fn == Ge && MustBeGreaterThanOrEqual(value).symbol == Symbol(Ge)
    ensures MustBeLessThan(value).fn == Lt && MustBeLessThan(value).symbol == Symbol(Lt)
    ensures MustBeLessThanOrEqual(value).fn == Le && MustBeLessThanOrEqual(value).symbol == Symbol(Le)
  {
  }

  /** A factory's validator raises exactly when `val op t` is false, with the operator's own symbol in the message. */
  lemma ComparisonOutcome(c: Comparison, val: Value)
    requires IsNumber(val) && IsNumber(c.to)
    ensures c.Call(val) ==
            if Holds(c.fn, NumValue(val), NumValue(c.to)) then Pass else Fail(ValueError(LC.ValueMessage(val, c.symbol, c.to)))
  {
  }

  /** On every number exactly one of MustBePositive and MustBeNonPositive raises, and likewise Negative and NonNegative. */
  lemma SignsComplementary(v: Value)
    requires IsNumber(v)
    ensures MustBePositive(v).Fail? != MustBeNonPositive(v).Fail?
    ensures MustBeNegative(v).Fail? != MustBeNonNegative(v).Fail?
  {
  }
}
