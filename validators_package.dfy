/**
 * The second DependsOn, defined in func_validator/validators/__init__.py. It resolves
 * dependencies like the module version, but builds each strategy with the class's own
 * template and no keywords (`args_strategy(value)`, `kw_strategy()`) and writes no field
 * during a call: nothing describes the dependency in the message.
 *
 * The package's default keyword strategy `MustBeTruthy` is imported from a module that
 * does not define it; it is modelled as the truthiness check MustBeProvided.
 */
module ValidatorsPackage {
  import opened Core
  import N = NumericArgValidators
  import D = DependentArgValidator

  /** One positional dependency: look it up, then `args_strategy(value)(arg_val, arg_name)`. */
  function ArgsDependency(fn: CmpOp, arguments: map<string, Value>, argVal: Value, argName: string, name: string): Outcome
  {
    match D.Resolve(arguments, name)
    case Err(e) => Fail(e)
    case Ok(d) => N.ComparisonValidator(fn, d).Call(argVal, argName)
  }

  /** One keyword dependency: look it up, and when it equals its trigger apply `kw_strategy()(arg_val, arg_name)`. */
  function KwDependency(s: D.KwStrategy, arguments: map<string, Value>, argVal: Value, argName: string,
                        dep: (string, Value)): Outcome
  {
    match D.Resolve(arguments, dep.0)
    case Err(e) => Fail(e)
    case Ok(actual) =>
      if Equal(actual, dep.1) then KwStrategyCall(s, argVal, argName) else Pass
  }

  /** `kw_strategy()(arg_val, arg_name)`: the strategy class with its own template and no keywords. */
  function KwStrategyCall(s: D.KwStrategy, argVal: Value, argName: string): Outcome
  {
    match s
    case Provided => D.MustBeProvided().Call(argVal, argName)
    case Sign(fn) => N.ComparisonValidator(fn, N.ZERO).Call(argVal, argName)
  }

  function ArgsCheck(fn: CmpOp, arguments: map<string, Value>, argVal: Value, argName: string): string -> Outcome
  {
    name => ArgsDependency(fn, arguments, argVal, argName, name)
  }

  function KwCheck(s: D.KwStrategy, arguments: map<string, Value>, argVal: Value, argName: string): ((string, Value)) -> Outcome
  {
    dep => KwDependency(s, arguments, argVal, argName, dep)
  }

  /** `__call__`: the positional dependencies in order, then, unless one failed, the keyword ones. */
  function CallOutcome(args: seq<string>, kw: seq<(string, Value)>, fn: CmpOp, s: D.KwStrategy,
                       arguments: map<string, Value>, argVal: Value, argName: string): Outcome
  {
    var first := FirstFailure(ArgsCheck(fn, arguments, argVal, argName), args);
    if first.Fail? then first else FirstFailure(KwCheck(s, arguments, argVal, argName), kw)
  }

  class DependsOn {
    const argsDependencies: seq<string>
    const kwDependencies: seq<(string, Value)>
    const argsStrategy: CmpOp
    const kwStrategy: D.KwStrategy
    var arguments: map<string, Value>

    /** `DependsOn(*args, args_strategy=MustBeLessThan, kw_strategy=MustBeTruthy, **kwargs)`. */
    constructor(args: seq<string>, kwargs: seq<(string, Value)>, argsStrategy: CmpOp := Lt,
                kwStrategy: D.KwStrategy := D.Provided)
      ensures this.argsDependencies == args && this.kwDependencies == kwargs
      ensures this.argsStrategy == argsStrategy && this.kwStrategy == kwStrategy
      ensures this.arguments == map[]
    {
      this.argsDependencies := args;
      this.kwDependencies := kwargs;
      this.argsStrategy := argsStrategy;
      this.kwStrategy := kwStrategy;
      this.arguments := map[];
    }

    /** The decorator binds the call's arguments (and `self`, for a method) before the call. */
    method SetArguments(bound: map<string, Value>)
      modifies this`arguments
      ensures arguments == bound
    {
      arguments := bound;
    }

    /** `_get_depenency_value`: the same lookup as the module version. */
    function GetDependencyValue(name: string): (r: Result<Value>)
      reads this
      ensures r.Ok? <==> name in arguments || ("self" in arguments && D.HasAttr(arguments["self"], name))
      ensures r.Err? ==> r.error == D.NotFound(name)
    {
      D.Resolve(arguments, name)
    }

    /** `_validate_args_dependencies`: writes nothing, stops at the first failure. */
    method ValidateArgsDependencies(argVal: Value, argName: string) returns (r: Outcome)
      ensures r == FirstFailure(ArgsCheck(argsStrategy, arguments, argVal, argName), argsDependencies)
    {
      ghost var check := ArgsCheck(argsStrategy, arguments, argVal, argName);
      var i := 0;
      while i < |argsDependencies|
        invariant 0 <= i <= |argsDependencies|
        invariant FirstFailure(check, argsDependencies) == FirstFailure(check, argsDependencies[i..])
      {
        assert argsDependencies[i..][0] == argsDependencies[i];
        assert argsDependencies[i..][1..] == argsDependencies[i + 1..];
        var actual := GetDependencyValue(argsDependencies[i]);
        if actual.Err? {
          return Fail(actual.error);
        }
        r := N.ComparisonValidator(argsStrategy, actual.value).Call(argVal, argName);
        if r.Fail? {
          return;
        }
        i := i + 1;
      }
      return Pass;
    }

    /** `_validate_kw_dependencies`: writes nothing, stops at the first failure. */
    method ValidateKwDependencies(argVal: Value, argName: string) returns (r: Outcome)
      ensures r == FirstFailure(KwCheck(kwStrategy, arguments, argVal, argName), kwDependencies)
    {
      ghost var check := KwCheck(kwStrategy, arguments, argVal, argName);
      var i := 0;
      while i < |kwDependencies|
        invariant 0 <= i <= |kwDependencies|
        invariant FirstFailure(check, kwDependencies) == FirstFailure(check, kwDependencies[i..])
      {
        assert kwDependencies[i..][0] == kwDependencies[i];
        assert kwDependencies[i..][1..] == kwDependencies[i + 1..];
        var (name, trigger) := kwDependencies[i];
        var actual := GetDependencyValue(name);
        if actual.Err? {
          return Fail(actual.error);
        }
        if Equal(actual.value, trigger) {
          r := KwStrategyCall(kwStrategy, argVal, argName);
          if r.Fail? {
            return;
          }
        }
        i := i + 1;
      }
      return Pass;
    }

    /** `__call__(arg_val, arg_name)`. */
    method Call(argVal: Value, argName: string) returns (r: Outcome)
      ensures r == CallOutcome(argsDependencies, kwDependencies, argsStrategy, kwStrategy, arguments, argVal, argName)
    {
      r := Pass;
      if |argsDependencies| > 0 {
        r := ValidateArgsDependencies(argVal, argName);
        if r.Fail? {
          return;
        }
      }
      if |kwDependencies| > 0 {
        r := ValidateKwDependencies(argVal, argName);
      }
    }
  }

  // ---------------------------------------------------------------------------
  // Properties

  lemma ArgsDependencyPasses(fn: CmpOp, arguments: map<string, Value>, argVal: Value, argName: string, name: string)
    ensures ArgsDependency(fn, arguments, argVal, argName, name).Pass? <==> D.ArgsDependencyHolds(fn, arguments, argVal, name)
  {
  }

  lemma KwDependencyPasses(s: D.KwStrategy, arguments: map<string, Value>, argVal: Value, argName: string, dep: (string, Value))
    ensures KwDependency(s, arguments, argVal, argName, dep).Pass? <==> D.KwDependencyHolds(s, arguments, argVal, dep)
  {
    D.KwStrategyPasses(s, D.KwDefaultErrMsg(s), map[], argVal, argName);
  }

  /** The positional dependencies pass exactly when each can be looked up and the argument compares true against it. */
  lemma ArgsPass(fn: CmpOp, arguments: map<string, Value>, argVal: Value, argName: string, deps: seq<string>)
    ensures FirstFailure(ArgsCheck(fn, arguments, argVal, argName), deps).Pass? <==>
            forall k :: 0 <= k < |deps| ==> D.ArgsDependencyHolds(fn, arguments, argVal, deps[k])
  {
    var check := ArgsCheck(fn, arguments, argVal, argName);
    FirstFailurePasses(check, deps);
    forall k | 0 <= k < |deps|
      ensures check(deps[k]).Pass? <==> D.ArgsDependencyHolds(fn, arguments, argVal, deps[k])
    {
      ArgsDependencyPasses(fn, arguments, argVal, argName, deps[k]);
    }
  }

  /**
   * The keyword dependencies pass exactly when each can be looked up and, where it
   * equals its trigger, the strategy accepts the argument.
   */
  lemma KwPass(s: D.KwStrategy, arguments: map<string, Value>, argVal: Value, argName: string, deps: seq<(string, Value)>)
    ensures FirstFailure(KwCheck(s, arguments, argVal, argName), deps).Pass? <==>
            forall k :: 0 <= k < |deps| ==> D.KwDependencyHolds(s, arguments, argVal, deps[k])
  {
    var check := KwCheck(s, arguments, argVal, argName);
    FirstFailurePasses(check, deps);
    forall k | 0 <= k < |deps|
      ensures check(deps[k]).Pass? <==> D.KwDependencyHolds(s, arguments, argVal, deps[k])
    {
      KwDependencyPasses(s, arguments, argVal, argName, deps[k]);
    }
  }

  /**
   * The package class accepts exactly the calls the module class with the same
   * dependencies and strategies accepts, whatever templates and keywords the latter carries.
   */
  lemma AgreesWithModuleVersion(args: seq<string>, kw: seq<(string, Value)>, fn: CmpOp, s: D.KwStrategy,
                                argsErrMsg: string, kwErrMsg: string, arguments: map<string, Value>,
                                extra: map<string, string>, argVal: Value, argName: string)
    ensures CallOutcome(args, kw, fn, s, arguments, argVal, argName).Pass? <==>
            D.CallRun(args, kw, fn, s, argsErrMsg, kwErrMsg, arguments, extra, argVal, argName).outcome.Pass?
  {
    ArgsPass(fn, arguments, argVal, argName, args);
    KwPass(s, arguments, argVal, argName, kw);
    var first := D.ArgsRun(args, fn, argsErrMsg, arguments, extra, argVal, argName);
    D.ArgsRunPasses(args, fn, argsErrMsg, arguments, extra, argVal, argName);
    D.KwRunPasses(kw, s, kwErrMsg, arguments, first.extra, argVal, argName);
  }

  /** A positional failure ends the call: the keyword dependencies are not looked at. */
  lemma PositionalFirst(args: seq<string>, kw: seq<(string, Value)>, fn: CmpOp, s: D.KwStrategy,
                        arguments: map<string, Value>, argVal: Value, argName: string)
    ensures var first := FirstFailure(ArgsCheck(fn, arguments, argVal, argName), args);
            first.Fail? ==> CallOutcome(args, kw, fn, s, arguments, argVal, argName) == first
    ensures CallOutcome(args, kw, fn, s, arguments, argVal, argName).Pass? <==>
            FirstFailure(ArgsCheck(fn, arguments, argVal, argName), args).Pass? &&
            FirstFailure(KwCheck(s, arguments, argVal, argName), kw).Pass?
  {
  }

  /** With no dependencies configured the call always passes. */
  lemma NoDependenciesPass(fn: CmpOp, s: D.KwStrategy, arguments: map<string, Value>, argVal: Value, argName: string)
    ensures CallOutcome([], [], fn, s, arguments, argVal, argName) == Pass
  {
  }

  /**
   * The first positional dependency that fails decides the error: a lookup error, or
   * the comparison's message with the dependency's value as its target.
   */
  lemma ArgsFailAt(fn: CmpOp, arguments: map<string, Value>, argVal: Value, argName: string, deps: seq<string>, k: nat)
    requires k < |deps| && !D.ArgsDependencyHolds(fn, arguments, argVal, deps[k])
    requires forall j :: 0 <= j < k ==> D.ArgsDependencyHolds(fn, arguments, argVal, deps[j])
    ensures FirstFailure(ArgsCheck(fn, arguments, argVal, argName), deps) == ArgsDependency(fn, arguments, argVal, argName, deps[k])
  {
    var check := ArgsCheck(fn, arguments, argVal, argName);
    forall j | 0 <= j <= k
      ensures check(deps[j]).Pass? <==> D.ArgsDependencyHolds(fn, arguments, argVal, deps[j])
    {
      ArgsDependencyPasses(fn, arguments, argVal, argName, deps[j]);
    }
    FirstFailureAt(check, deps, k);
  }

  /**
   * A triggered truthiness strategy fails on a falsy argument with the template's
   * dependency placeholders left verbatim, since nothing describes the dependency here.
   */
  lemma ProvidedMessageUndescribed(arguments: map<string, Value>, dep: (string, Value), argVal: Value, argName: string)
    requires D.Resolve(arguments, dep.0).Ok? && Equal(D.Resolve(arguments, dep.0).value, dep.1) && !Truthy(argVal)
    ensures KwDependency(D.Provided, arguments, argVal, argName, dep) ==
            Fail(ValidationError(argName + (" must be provided when " + (Placeholder("dep_arg_name") + (" has a value of " + Placeholder("dep_arg_value"))))))
  {
    D.MustBeProvidedOutcome(argVal, argName);
  }
}
