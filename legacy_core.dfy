/**
 * The generic check of the older function-style validators
 * (func_validator/_validators/_core.py): `fn(value, to)` or a ValueError whose message
 * shows the symbol the caller passed in. func_validator/_validators/_numeric_validators.py
 * defines the same function again; both are this one.
 */
module LegacyCore {
  import opened Core

  /** `Value <value> must be <symbol> <to>.` */
  function ValueMessage(value: Value, symbol: string, to: Value): string
  {
    "Value " + (Show(value) + (" must be " + (symbol + (" " + (Show(to) + ".")))))
  }

  /** `_generic_number_validator(value, to=..., fn=..., symbol=...)`. */
  function GenericNumberValidator(value: Value, to: Value, fn: CmpOp, symbol: string): Outcome
  {
    match Compare(fn, value, to)
    case None => Fail(TypeError(Unorderable(fn, value, to)))
    case Some(ok) => if ok then Pass else Fail(ValueError(ValueMessage(value, symbol, to)))
  }

  /**
   * On numbers the check passes exactly when `fn(value, to)` holds (returning with no
   * effect), and otherwise raises ValueError `Value <value> must be <symbol> <to>.`.
   */
  lemma GenericOutcome(value: Value, to: Value, fn: CmpOp, symbol: string)
    requires IsNumber(value) && IsNumber(to)
    ensures GenericNumberValidator(value, to, fn, symbol).Pass? <==> Holds(fn, NumValue(value), NumValue(to))
    ensures GenericNumberValidator(value, to, fn, symbol).Fail? ==>
              GenericNumberValidator(value, to, fn, symbol).error == ValueError(ValueMessage(value, symbol, to))
  {
  }

  lemma Regroup(a: string, b: string, c: string, y: string)
    ensures a + (b + (c + y)) == (a + (b + c)) + y
  {
  }

  lemma DropPrefix(p: string, x: string)
    ensures (p + x)[|p|..] == x
  {
  }

  lemma TakePrefix(x: string, t: string)
    ensures (x + t)[..|x|] == x
  {
  }

  /**
   * The symbol is shown as the caller passed it, not derived from fn: two different
   * symbols give two different errors for the same failing comparison.
   */
  lemma {:induction false} SymbolShownVerbatim(value: Value, to: Value, fn: CmpOp, s1: string, s2: string)
    requires Compare(fn, value, to) == Some(false) && s1 != s2
    ensures GenericNumberValidator(value, to, fn, s1) != GenericNumberValidator(value, to, fn, s2)
  {
    var p := "Value " + (Show(value) + " must be ");
    var t := " " + (Show(to) + ".");
    Regroup("Value ", Show(value), " must be ", s1 + t);
    Regroup("Value ", Show(value), " must be ", s2 + t);
    if ValueMessage(value, s1, to) == ValueMessage(value, s2, to) {
      DropPrefix(p, s1 + t);
      DropPrefix(p, s2 + t);
      assert s1 + t == s2 + t;
      assert |s1| == |s2|;
      TakePrefix(s1, t);
      TakePrefix(s2, t);
      assert false;
    }
  }

  /** With `gt` and the symbol "<", 1 against 2 fails with a message saying `<`. */
  lemma MismatchedSymbol()
    ensures GenericNumberValidator(IntV(1), IntV(2), Gt, "<") == Fail(ValueError("Value 1 must be < 2."))
  {
    assert DigitChar(1) == '1' && DigitChar(2) == '2';
    assert Show(IntV(1)) == "1" && Show(IntV(2)) == "2";
    var m := "Value " + ("1" + (" must be " + ("<" + (" " + ("2" + ".")))));
    assert |m| == 20;
    assert forall k :: 0 <= k < 20 ==> m[k] == "Value 1 must be < 2."[k];
    assert m == "Value 1 must be < 2.";
    assert Compare(Gt, IntV(1), IntV(2)) == Some(false);
    assert ValueMessage(IntV(1), "<", IntV(2)) == m;
  }
}
