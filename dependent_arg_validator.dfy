/**
 * The dependency validators (func_validator/validators/dependent_arg_validator.py):
 * MustBeProvided, a truthiness check, and DependsOn, which validates an argument
 * against other arguments of the same call. The decorator hands DependsOn the call's
 * bound arguments before each call; a dependency is looked up there, else as an
 * attribute of the bound `self`. Positional dependencies compare the argument with
 * each dependency's value; keyword dependencies apply a strategy when the other
 * argument has a trigger value. Before each strategy DependsOn records the dependency
 * in its own `extra_msg_args`, in place.
 */
module DependentArgValidator {
  import opened Core
  import N = NumericArgValidators

  /** `${arg_name} must be provided when ${dep_arg_name} has a value of ${dep_arg_value}` */
  const PROVIDED_LAYOUT :=
    Field(ArgName, Text(" must be provided when ", Field(DepArgName, Text(" has a value of ", Field(DepArgValue, Last(""))))))
  const MUST_BE_PROVIDED_ERR_MSG := PROVIDED_LAYOUT.Source()

  // ---------------------------------------------------------------------------
  // MustBeProvided

  /** The keywords `_must_be_provided` renders its template with. */
  function ProvidedArgs(argName: string, argValue: Value): map<string, string>
  {
    map["arg_value" := Show(argValue), "arg_name" := argName]
  }

  /** `_must_be_provided`: raise unless `bool(arg_value)`. */
  function MustBeProvidedCheck(argValue: Value, argName: string, errMsg: string,
                               extraMsgArgs: map<string, string>): Outcome
  {
    if Truthy(argValue) then Pass
    else Fail(RenderedError(errMsg, ProvidedArgs(argName, argValue), extraMsgArgs))
  }

  datatype ProvidedValidator = ProvidedValidator(base: ValidatorBase)
  {
    /** `__call__(arg_value, arg_name)`. */
    function Call(argValue: Value, argName: string): Outcome
    {
      MustBeProvidedCheck(argValue, argName, base.errMsg, base.extraMsgArgs)
    }
  }

  function MustBeProvided(errMsg: Option<string> := None,
                          extraMsgArgs: Option<map<string, string>> := None): ProvidedValidator
  {
    ProvidedValidator(InitValidator(errMsg, extraMsgArgs, MUST_BE_PROVIDED_ERR_MSG))
  }

  // ---------------------------------------------------------------------------
  // Strategies

  /**
   * The classes a keyword dependency can apply, as `kw_strategy(err_msg=..., extra_msg_args=...)`:
   * MustBeProvided, or a sign class (a comparison with 0.0).
   */
  datatype KwStrategy = Provided | Sign(fn: CmpOp)

  /** The strategy class's DEFAULT_ERROR_MSG. */
  function KwDefaultErrMsg(s: KwStrategy): string
  {
    match s
    case Provided => MUST_BE_PROVIDED_ERR_MSG
    case Sign(_) => N.DEFAULT_NUMERIC_VALIDATOR_ERR_MSG
  }

  /**
   * A positional dependency: `args_strategy(dep_value, err_msg=..., extra_msg_args=...)`,
   * a comparison class with the dependency's value as its target, applied to the argument.
   */
  function ApplyArgsStrategy(fn: CmpOp, depValue: Value, errMsg: string, extraMsgArgs: map<string, string>,
                             argVal: Value, argName: string): Outcome
  {
    N.ComparisonValidator(fn, depValue, Some(errMsg), Some(extraMsgArgs)).Call(argVal, argName)
  }

  /** A triggered keyword dependency: `kw_strategy(err_msg=..., extra_msg_args=...)` applied to the argument. */
  function ApplyKwStrategy(s: KwStrategy, errMsg: string, extraMsgArgs: map<string, string>,
                           argVal: Value, argName: string): Outcome
  {
    match s
    case Provided => MustBeProvided(Some(errMsg), Some(extraMsgArgs)).Call(argVal, argName)
    case Sign(fn) => N.ComparisonValidator(fn, N.ZERO, Some(errMsg), Some(extraMsgArgs)).Call(argVal, argName)
  }

  // ---------------------------------------------------------------------------
  // Dependency lookup

  /** `getattr(instance, name)` succeeds: instance is an object with that attribute. */
  predicate HasAttr(instance: Value, name: string)
  {
    instance.ObjV? && name in instance.attrs
  }

  /** The ValidationError for a dependency found neither among the arguments nor on `self`. */
  function NotFound(name: string): Error
  {
    ValidationError("Dependency argument '" + name + "' not found.")
  }

  /** `_get_depenency_value`: the bound argument, else the attribute of the bound `self`. */
  function Resolve(arguments: map<string, Value>, name: string): Result<Value>
  {
    if name in arguments then Ok(arguments[name])
    else if "self" in arguments && HasAttr(arguments["self"], name) then Ok(arguments["self"].attrs[name])
    else Err(NotFound(name))
  }

  /** `extra_msg_args.update({"dep_arg_name": name, "dep_arg_value": value})`. */
  function Describe(extraMsgArgs: map<string, string>, name: string, value: Value): (m: map<string, string>)
    ensures m.Keys == extraMsgArgs.Keys + {"dep_arg_name", "dep_arg_value"}
    ensures m["dep_arg_name"] == name && m["dep_arg_value"] == Show(value)
    ensures forall k :: k in extraMsgArgs && k != "dep_arg_name" && k != "dep_arg_value" ==> m[k] == extraMsgArgs[k]
  {
    extraMsgArgs["dep_arg_name" := name]["dep_arg_value" := Show(value)]
  }

  // ---------------------------------------------------------------------------
  // What a call does

  /** The outcome of a call, and the `extra_msg_args` it leaves behind. */
  datatype Run = Run(outcome: Outcome, extra: map<string, string>)

  /** `_validate_args_dependencies`: each positional dependency in turn, stopping at the first failure. */
  function ArgsRun(deps: seq<string>, fn: CmpOp, errMsg: string, arguments: map<string, Value>,
                   extra: map<string, string>, argVal: Value, argName: string): Run
  {
    if deps == [] then Run(Pass, extra)
    else
      match Resolve(arguments, deps[0])
      case Err(e) => Run(Fail(e), extra)
      case Ok(d) =>
        var described := Describe(extra, deps[0], d);
        var o := ApplyArgsStrategy(fn, d, errMsg, described, argVal, argName);
        if o.Fail? then Run(o, described)
        else ArgsRun(deps[1..], fn, errMsg, arguments, described, argVal, argName)
  }

  /**
   * `_validate_kw_dependencies`: each keyword dependency in turn is looked up, and the
   * strategy applied when its value equals the trigger; the first failure stops the rest.
   */
  function KwRun(deps: seq<(string, Value)>, s: KwStrategy, errMsg: string, arguments: map<string, Value>,
                 extra: map<string, string>, argVal: Value, argName: string): Run
  {
    if deps == [] then Run(Pass, extra)
    else
      match Resolve(arguments, deps[0].0)
      case Err(e) => Run(Fail(e), extra)
      case Ok(actual) =>
        if Equal(actual, deps[0].1) then
          var described := Describe(extra, deps[0].0, deps[0].1);
          var o := ApplyKwStrategy(s, errMsg, described, argVal, argName);
          if o.Fail? then Run(o, described)
          else KwRun(deps[1..], s, errMsg, arguments, described, argVal, argName)
        else KwRun(deps[1..], s, errMsg, arguments, extra, argVal, argName)
  }

  /** `__call__`: the positional dependencies, then, unless one failed, the keyword ones. */
  function CallRun(args: seq<string>, kw: seq<(string, Value)>, fn: CmpOp, s: KwStrategy,
                   argsErrMsg: string, kwErrMsg: string, arguments: map<string, Value>,
                   extra: map<string, string>, argVal: Value, argName: string): Run
  {
    var first := ArgsRun(args, fn, argsErrMsg, arguments, extra, argVal, argName);
    if first.outcome.Fail? then first
    else KwRun(kw, s, kwErrMsg, arguments, first.extra, argVal, argName)
  }

  /**
   * DependsOn. The dependencies and strategies are fixed at construction; the decorator
   * replaces `arguments` before each call, and each call may update `extraMsgArgs`.
   */
  class DependsOn {
    const argsDependencies: seq<string>
    const kwDependencies: seq<(string, Value)>
    const argsStrategy: CmpOp
    const kwStrategy: KwStrategy
    const argsErrMsg: string
    const kwErrMsg: string
    var extraMsgArgs: map<string, string>
    var arguments: map<string, Value>

    /**
     * `DependsOn(*args, args_strategy=MustBeLessThan, kw_strategy=MustBeProvided, ..., **kwargs)`:
     * each err_msg falls back to its strategy's DEFAULT_ERROR_MSG.
     */
    constructor(args: seq<string>, kwargs: seq<(string, Value)>, argsStrategy: CmpOp := Lt,
                kwStrategy: KwStrategy := Provided, argsErrMsg: Option<string> := None,
                kwErrMsg: Option<string> := None, extraMsgArgs: Option<map<string, string>> := None)
      ensures this.argsDependencies == args && this.kwDependencies == kwargs
      ensures this.argsStrategy == argsStrategy && this.kwStrategy == kwStrategy
      ensures this.argsErrMsg == EffectiveTemplate(argsErrMsg, N.DEFAULT_NUMERIC_VALIDATOR_ERR_MSG)
      ensures this.kwErrMsg == EffectiveTemplate(kwErrMsg, KwDefaultErrMsg(kwStrategy))
      ensures this.extraMsgArgs == InitValidator(None, extraMsgArgs).extraMsgArgs
      ensures this.arguments == map[]
    {
      this.argsDependencies := args;
      this.kwDependencies := kwargs;
      this.argsStrategy := argsStrategy;
      this.kwStrategy := kwStrategy;
      this.argsErrMsg := EffectiveTemplate(argsErrMsg, N.DEFAULT_NUMERIC_VALIDATOR_ERR_MSG);
      this.kwErrMsg := EffectiveTemplate(kwErrMsg, KwDefaultErrMsg(kwStrategy));
      this.extraMsgArgs := InitValidator(None, extraMsgArgs).extraMsgArgs;
      this.arguments := map[];
    }

    /** The decorator binds the call's arguments (and `self`, for a method) before the call. */
    method SetArguments(bound: map<string, Value>)
      modifies this`arguments
      ensures arguments == bound
    {
      arguments := bound;
    }

    /** `_get_depenency_value`. */
    function GetDependencyValue(name: string): Result<Value>
      reads this
    {
      Resolve(arguments, name)
    }

    /** `_validate_args_dependencies`. */
    method ValidateArgsDependencies(argVal: Value, argName: string) returns (r: Outcome)
      modifies this`extraMsgArgs
      ensures r == ArgsRun(argsDependencies, argsStrategy, argsErrMsg, arguments, old(extraMsgArgs), argVal, argName).outcome
      ensures extraMsgArgs == ArgsRun(argsDependencies, argsStrategy, argsErrMsg, arguments, old(extraMsgArgs), argVal, argName).extra
    {
      var i := 0;
      while i < |argsDependencies|
        invariant 0 <= i <= |argsDependencies|
        invariant ArgsRun(argsDependencies, argsStrategy, argsErrMsg, arguments, old(extraMsgArgs), argVal, argName) ==
                  ArgsRun(argsDependencies[i..], argsStrategy, argsErrMsg, arguments, extraMsgArgs, argVal, argName)
      {
        assert argsDependencies[i..][0] == argsDependencies[i];
        assert argsDependencies[i..][1..] == argsDependencies[i + 1..];
        var dep := GetDependencyValue(argsDependencies[i]);
        if dep.Err? {
          return Fail(dep.error);
        }
        extraMsgArgs := Describe(extraMsgArgs, argsDependencies[i], dep.value);
        r := ApplyArgsStrategy(argsStrategy, dep.value, argsErrMsg, extraMsgArgs, argVal, argName);
        if r.Fail? {
          return;
        }
        i := i + 1;
      }
      return Pass;
    }

    /** `_validate_kw_dependencies`. */
    method ValidateKwDependencies(argVal: Value, argName: string) returns (r: Outcome)
      modifies this`extraMsgArgs
      ensures r == KwRun(kwDependencies, kwStrategy, kwErrMsg, arguments, old(extraMsgArgs), argVal, argName).outcome
      ensures extraMsgArgs == KwRun(kwDependencies, kwStrategy, kwErrMsg, arguments, old(extraMsgArgs), argVal, argName).extra
    {
      var i := 0;
      while i < |kwDependencies|
        invariant 0 <= i <= |kwDependencies|
        invariant KwRun(kwDependencies, kwStrategy, kwErrMsg, arguments, old(extraMsgArgs), argVal, argName) ==
                  KwRun(kwDependencies[i..], kwStrategy, kwErrMsg, arguments, extraMsgArgs, argVal, argName)
      {
        assert kwDependencies[i..][0] == kwDependencies[i];
        assert kwDependencies[i..][1..] == kwDependencies[i + 1..];
        var (name, trigger) := kwDependencies[i];
        var actual := GetDependencyValue(name);
        if actual.Err? {
          return Fail(actual.error);
        }
        if Equal(actual.value, trigger) {
          extraMsgArgs := Describe(extraMsgArgs, name, trigger);
          r := ApplyKwStrategy(kwStrategy, kwErrMsg, extraMsgArgs, argVal, argName);
          if r.Fail? {
            return;
          }
        }
        i := i + 1;
      }
      return Pass;
    }

    /** `__call__(arg_val, arg_name)`. */
    method Call(argVal: Value, argName: string) returns (r: Outcome)
      modifies this`extraMsgArgs
      ensures r == CallRun(argsDependencies, kwDependencies, argsStrategy, kwStrategy, argsErrMsg, kwErrMsg,
                           arguments, old(extraMsgArgs), argVal, argName).outcome
      ensures extraMsgArgs == CallRun(argsDependencies, kwDependencies, argsStrategy, kwStrategy, argsErrMsg, kwErrMsg,
                                      arguments, old(extraMsgArgs), argVal, argName).extra
    {
      r := Pass;
      if |argsDependencies| > 0 {
        r := ValidateArgsDependencies(argVal, argName);
        if r.Fail? {
          return;
        }
      }
      if |kwDependencies| > 0 {
        r := ValidateKwDependencies(argVal, argName);
      }
    }
  }

  // ---------------------------------------------------------------------------
  // Properties

  lemma ProvidedLayoutFilled(m: map<string, string>)
    requires "arg_name" in m
    ensures PROVIDED_LAYOUT.Filled(m) ==
            m["arg_name"] + (" must be provided when " + (Substitute("dep_arg_name", Placeholder("dep_arg_name"), m) + (" has a value of " + (Substitute("dep_arg_value", Placeholder("dep_arg_value"), m)))))
  {
  }

  /**
   * The MustBeProvided template with arg_name supplied: the dependency fields are
   * filled in when supplied and otherwise stay verbatim.
   */
  lemma ProvidedTemplateRendered(m: map<string, string>)
    requires "arg_name" in m
    ensures Render(MUST_BE_PROVIDED_ERR_MSG, m) ==
            m["arg_name"] + (" must be provided when " + (Substitute("dep_arg_name", Placeholder("dep_arg_name"), m) + (" has a value of " + (Substitute("dep_arg_value", Placeholder("dep_arg_value"), m)))))
  {
    assert PROVIDED_LAYOUT.WellFormed();
    RenderLayout(PROVIDED_LAYOUT, m);
    ProvidedLayoutFilled(m);
  }

  /**
   * MustBeProvided() passes exactly on truthy values; used on its own, with nothing
   * describing a dependency, its message keeps the dependency placeholders verbatim.
   */
  lemma MustBeProvidedOutcome(v: Value, name: string)
    ensures MustBeProvided().Call(v, name) ==
            if Truthy(v) then Pass
            else Fail(ValidationError(name + (" must be provided when " + (Placeholder("dep_arg_name") + (" has a value of " + (Placeholder("dep_arg_value")))))))
  {
    if !Truthy(v) {
      RenderedErrorWithoutExtra(MUST_BE_PROVIDED_ERR_MSG, ProvidedArgs(name, v));
      ProvidedTemplateRendered(ProvidedArgs(name, v));
    }
  }

  /** A MustBeProvided validator passes exactly on truthy values, whatever its template and keywords. */
  lemma ProvidedPasses(base: ValidatorBase, v: Value, name: string)
    ensures ProvidedValidator(base).Call(v, name).Pass? <==> Truthy(v)
  {
  }

  /**
   * Lookup takes the bound argument when there is one, else the attribute of the bound
   * `self`, and otherwise raises ValidationError naming the dependency.
   */
  lemma ResolveLookup(arguments: map<string, Value>, name: string)
    ensures name in arguments ==> Resolve(arguments, name) == Ok(arguments[name])
    ensures name !in arguments && "self" in arguments && HasAttr(arguments["self"], name) ==>
              Resolve(arguments, name) == Ok(arguments["self"].attrs[name])
    ensures Resolve(arguments, name).Err? <==>
              name !in arguments && !("self" in arguments && HasAttr(arguments["self"], name))
    ensures Resolve(arguments, name).Err? ==> Resolve(arguments, name).error == NotFound(name)
  {
  }

  /** A positional strategy passes exactly when `fn(arg_val, dep_value)` is true, whatever the template and keywords. */
  lemma ArgsStrategyPasses(fn: CmpOp, d: Value, errMsg: string, extra: map<string, string>, argVal: Value, argName: string)
    ensures ApplyArgsStrategy(fn, d, errMsg, extra, argVal, argName).Pass? <==> Compare(fn, argVal, d) == Some(true)
  {
  }

  /** The keyword strategy's own test: truthiness for MustBeProvided, the comparison with 0.0 for a sign class. */
  predicate KwAccepts(s: KwStrategy, v: Value)
  {
    match s
    case Provided => Truthy(v)
    case Sign(fn) => Compare(fn, v, N.ZERO) == Some(true)
  }

  lemma KwStrategyPasses(s: KwStrategy, errMsg: string, extra: map<string, string>, argVal: Value, argName: string)
    ensures ApplyKwStrategy(s, errMsg, extra, argVal, argName).Pass? <==> KwAccepts(s, argVal)
  {
  }

  /** A positional dependency is satisfied: it can be looked up and `fn(arg_val, its value)` is true. */
  predicate ArgsDependencyHolds(fn: CmpOp, arguments: map<string, Value>, argVal: Value, name: string)
  {
    Resolve(arguments, name).Ok? && Compare(fn, argVal, Resolve(arguments, name).value) == Some(true)
  }

  /** A keyword dependency is satisfied: it can be looked up and, if its value is the trigger, the strategy accepts the argument. */
  predicate KwDependencyHolds(s: KwStrategy, arguments: map<string, Value>, argVal: Value, dep: (string, Value))
  {
    Resolve(arguments, dep.0).Ok? && (Equal(Resolve(arguments, dep.0).value, dep.1) ==> KwAccepts(s, argVal))
  }

  /**
   * The positional dependencies pass exactly when every one of them can be looked up
   * and the argument compares true against each dependency's value.
   */
  lemma {:induction false} ArgsRunPasses(deps: seq<string>, fn: CmpOp, errMsg: string, arguments: map<string, Value>,
                                         extra: map<string, string>, argVal: Value, argName: string)
    ensures ArgsRun(deps, fn, errMsg, arguments, extra, argVal, argName).outcome.Pass? <==>
            forall k :: 0 <= k < |deps| ==> ArgsDependencyHolds(fn, arguments, argVal, deps[k])
  {
    if deps != [] {
      ArgsRunStep(deps, fn, errMsg, arguments, extra, argVal, argName);
      if ArgsDependencyHolds(fn, arguments, argVal, deps[0]) {
        var described := Describe(extra, deps[0], Resolve(arguments, deps[0]).value);
        ArgsRunPasses(deps[1..], fn, errMsg, arguments, described, argVal, argName);
        assert forall k :: 1 <= k < |deps| ==> deps[k] == deps[1..][k - 1];
      }
    }
  }

  /** One step of the positional dependencies: the first must hold, then the rest run on the described keywords. */
  lemma ArgsRunStep(deps: seq<string>, fn: CmpOp, errMsg: string, arguments: map<string, Value>,
                    extra: map<string, string>, argVal: Value, argName: string)
    requires deps != []
    ensures ArgsRun(deps, fn, errMsg, arguments, extra, argVal, argName).outcome.Pass? <==>
            ArgsDependencyHolds(fn, arguments, argVal, deps[0]) &&
            ArgsRun(deps[1..], fn, errMsg, arguments, Describe(extra, deps[0], Resolve(arguments, deps[0]).value),
                    argVal, argName).outcome.Pass?
  {
    var r := Resolve(arguments, deps[0]);
    if r.Ok? {
      ArgsStrategyPasses(fn, r.value, errMsg, Describe(extra, deps[0], r.value), argVal, argName);
    }
  }

  /** With the default strategy (MustBeLessThan) a positional dependency d requires the argument to be below d's value. */
  lemma DefaultPositionalIsLessThan(d: string, errMsg: string, arguments: map<string, Value>,
                                    extra: map<string, string>, argVal: Value, argName: string)
    requires Resolve(arguments, d).Ok? && IsNumber(argVal) && IsNumber(Resolve(arguments, d).value)
    ensures ArgsRun([d], Lt, errMsg, arguments, extra, argVal, argName).outcome.Pass? <==>
            NumValue(argVal) < NumValue(Resolve(arguments, d).value)
  {
    ArgsRunPasses([d], Lt, errMsg, arguments, extra, argVal, argName);
  }

  /**
   * When the k-th positional dependency is the first whose comparison fails, the call
   * fails with that strategy's outcome, rendered with extra_msg_args describing that
   * dependency, and extra_msg_args is left describing it.
   */
  lemma {:induction false} ArgsRunFailsAt(deps: seq<string>, k: nat, fn: CmpOp, errMsg: string, arguments: map<string, Value>,
                                          extra: map<string, string>, argVal: Value, argName: string)
    requires k < |deps|
    requires forall j :: 0 <= j < k ==> ArgsDependencyHolds(fn, arguments, argVal, deps[j])
    requires Resolve(arguments, deps[k]).Ok? && Compare(fn, argVal, Resolve(arguments, deps[k]).value) != Some(true)
    ensures var run := ArgsRun(deps, fn, errMsg, arguments, extra, argVal, argName);
            "dep_arg_name" in run.extra && "dep_arg_value" in run.extra &&
            run.extra["dep_arg_name"] == deps[k] &&
            run.extra["dep_arg_value"] == Show(Resolve(arguments, deps[k]).value) &&
            run.outcome == ApplyArgsStrategy(fn, Resolve(arguments, deps[k]).value, errMsg, run.extra, argVal, argName) &&
            run.outcome.Fail?
  {
    if k == 0 {
      ArgsRunFailsFirst(deps, fn, errMsg, arguments, extra, argVal, argName);
    } else {
      ArgsRunSkipsFirst(deps, fn, errMsg, arguments, extra, argVal, argName);
      assert forall j :: 0 <= j < |deps| - 1 ==> deps[1..][j] == deps[j + 1];
      var described := Describe(extra, deps[0], Resolve(arguments, deps[0]).value);
      ArgsRunFailsAt(deps[1..], k - 1, fn, errMsg, arguments, described, argVal, argName);
    }
  }

  /** A first positional dependency that fails its comparison ends the run, described. */
  lemma ArgsRunFailsFirst(deps: seq<string>, fn: CmpOp, errMsg: string, arguments: map<string, Value>,
                          extra: map<string, string>, argVal: Value, argName: string)
    requires deps != [] && Resolve(arguments, deps[0]).Ok?
    requires Compare(fn, argVal, Resolve(arguments, deps[0]).value) != Some(true)
    ensures var described := Describe(extra, deps[0], Resolve(arguments, deps[0]).value);
            ArgsRun(deps, fn, errMsg, arguments, extra, argVal, argName) ==
            Run(ApplyArgsStrategy(fn, Resolve(arguments, deps[0]).value, errMsg, described, argVal, argName), described) &&
            ApplyArgsStrategy(fn, Resolve(arguments, deps[0]).value, errMsg, described, argVal, argName).Fail?
  {
    var d := Resolve(arguments, deps[0]).value;
    ArgsStrategyPasses(fn, d, errMsg, Describe(extra, deps[0], d), argVal, argName);
  }

  /** A first positional dependency that holds passes the rest of the run its description. */
  lemma ArgsRunSkipsFirst(deps: seq<string>, fn: CmpOp, errMsg: string, arguments: map<string, Value>,
                          extra: map<string, string>, argVal: Value, argName: string)
    requires deps != [] && ArgsDependencyHolds(fn, arguments, argVal, deps[0])
    ensures ArgsRun(deps, fn, errMsg, arguments, extra, argVal, argName) ==
            ArgsRun(deps[1..], fn, errMsg, arguments, Describe(extra, deps[0], Resolve(arguments, deps[0]).value), argVal, argName)
  {
    var d := Resolve(arguments, deps[0]).value;
    ArgsStrategyPasses(fn, d, errMsg, Describe(extra, deps[0], d), argVal, argName);
  }

  /** The positional dependencies only ever set dep_arg_name and dep_arg_value; every other keyword is kept. */
  lemma {:induction false} ArgsRunKeepsOtherKeys(deps: seq<string>, fn: CmpOp, errMsg: string, arguments: map<string, Value>,
                                                 extra: map<string, string>, argVal: Value, argName: string)
    ensures var out := ArgsRun(deps, fn, errMsg, arguments, extra, argVal, argName).extra;
            extra.Keys <= out.Keys &&
            forall k :: k in extra && k != "dep_arg_name" && k != "dep_arg_value" ==> out[k] == extra[k]
  {
    if deps != [] && Resolve(arguments, deps[0]).Ok? {
      var described := Describe(extra, deps[0], Resolve(arguments, deps[0]).value);
      ArgsRunKeepsOtherKeys(deps[1..], fn, errMsg, arguments, described, argVal, argName);
    }
  }

  /**
   * The keyword dependencies pass exactly when every one of them can be looked up and,
   * for each whose value equals its trigger, the argument satisfies the strategy.
   */
  lemma {:induction false} KwRunPasses(deps: seq<(string, Value)>, s: KwStrategy, errMsg: string,
                                       arguments: map<string, Value>, extra: map<string, string>,
                                       argVal: Value, argName: string)
    ensures KwRun(deps, s, errMsg, arguments, extra, argVal, argName).outcome.Pass? <==>
            forall k :: 0 <= k < |deps| ==> KwDependencyHolds(s, arguments, argVal, deps[k])
  {
    if deps != [] {
      KwRunStep(deps, s, errMsg, arguments, extra, argVal, argName);
      if KwDependencyHolds(s, arguments, argVal, deps[0]) {
        KwRunPasses(deps[1..], s, errMsg, arguments, KwNext(deps[0], arguments, extra), argVal, argName);
        assert forall k :: 1 <= k < |deps| ==> deps[k] == deps[1..][k - 1];
      }
    }
  }

  /** The keywords the rest of the keyword dependencies run with: described when the first one triggered. */
  function KwNext(dep: (string, Value), arguments: map<string, Value>, extra: map<string, string>): map<string, string>
  {
    if Resolve(arguments, dep.0).Ok? && Equal(Resolve(arguments, dep.0).value, dep.1) then Describe(extra, dep.0, dep.1)
    else extra
  }

  /** One step of the keyword dependencies: the first must hold, then the rest run on what it left behind. */
  lemma KwRunStep(deps: seq<(string, Value)>, s: KwStrategy, errMsg: string,
                  arguments: map<string, Value>, extra: map<string, string>, argVal: Value, argName: string)
    requires deps != []
    ensures KwRun(deps, s, errMsg, arguments, extra, argVal, argName).outcome.Pass? <==>
            KwDependencyHolds(s, arguments, argVal, deps[0]) &&
            KwRun(deps[1..], s, errMsg, arguments, KwNext(deps[0], arguments, extra), argVal, argName).outcome.Pass?
  {
    KwStrategyPasses(s, errMsg, KwNext(deps[0], arguments, extra), argVal, argName);
  }

  /** Every keyword dependency is looked up before its trigger is compared: a missing one fails the call even if it would not trigger. */
  lemma KwMissingFails(deps: seq<(string, Value)>, k: nat, s: KwStrategy, errMsg: string,
                       arguments: map<string, Value>, extra: map<string, string>, argVal: Value, argName: string)
    requires k < |deps| && Resolve(arguments, deps[k].0).Err?
    ensures KwRun(deps, s, errMsg, arguments, extra, argVal, argName).outcome.Fail?
  {
    KwRunPasses(deps, s, errMsg, arguments, extra, argVal, argName);
    assert !KwDependencyHolds(s, arguments, argVal, deps[k]);
  }

  /** The keyword dependencies only ever set dep_arg_name and dep_arg_value; every other keyword is kept. */
  lemma {:induction false} KwRunKeepsOtherKeys(deps: seq<(string, Value)>, s: KwStrategy, errMsg: string,
                                               arguments: map<string, Value>, extra: map<string, string>,
                                               argVal: Value, argName: string)
    ensures var out := KwRun(deps, s, errMsg, arguments, extra, argVal, argName).extra;
            extra.Keys <= out.Keys &&
            forall k :: k in extra && k != "dep_arg_name" && k != "dep_arg_value" ==> out[k] == extra[k]
  {
    if deps != [] && Resolve(arguments, deps[0].0).Ok? {
      var next := if Equal(Resolve(arguments, deps[0].0).value, deps[0].1) then Describe(extra, deps[0].0, deps[0].1) else extra;
      KwRunKeepsOtherKeys(deps[1..], s, errMsg, arguments, next, argVal, argName);
    }
  }

  /**
   * A call runs the positional dependencies first; it passes exactly when they and then
   * the keyword dependencies pass, and a positional failure ends it untouched by the keyword ones.
   */
  lemma CallRunOrder(args: seq<string>, kw: seq<(string, Value)>, fn: CmpOp, s: KwStrategy,
                     argsErrMsg: string, kwErrMsg: string, arguments: map<string, Value>,
                     extra: map<string, string>, argVal: Value, argName: string)
    ensures var first := ArgsRun(args, fn, argsErrMsg, arguments, extra, argVal, argName);
            var call := CallRun(args, kw, fn, s, argsErrMsg, kwErrMsg, arguments, extra, argVal, argName);
            (call.outcome.Pass? <==> first.outcome.Pass? && KwRun(kw, s, kwErrMsg, arguments, first.extra, argVal, argName).outcome.Pass?) &&
            (first.outcome.Fail? ==> call == first)
  {
  }

  /** With no dependencies configured a call always passes and leaves extra_msg_args as it was. */
  lemma NoDependencies(fn: CmpOp, s: KwStrategy, argsErrMsg: string, kwErrMsg: string, arguments: map<string, Value>,
                       extra: map<string, string>, argVal: Value, argName: string)
    ensures CallRun([], [], fn, s, argsErrMsg, kwErrMsg, arguments, extra, argVal, argName) == Run(Pass, extra)
  {
  }

  /**
   * A triggered MustBeProvided with its default template and no other keywords fails
   * on a falsy argument with `<name> must be provided when <dep> has a value of <trigger>`.
   */
  lemma ProvidedDependencyMessage(dep: string, trigger: Value, arguments: map<string, Value>, argVal: Value, argName: string)
    requires Resolve(arguments, dep).Ok? && Equal(Resolve(arguments, dep).value, trigger) && !Truthy(argVal)
    ensures KwRun([(dep, trigger)], Provided, MUST_BE_PROVIDED_ERR_MSG, arguments, map[], argVal, argName).outcome ==
            Fail(ValidationError(argName + (" must be provided when " + (dep + (" has a value of " + (Show(trigger)))))))
  {
    var described := Describe(map[], dep, trigger);
    var m := ProvidedArgs(argName, argVal) + described;
    assert m["arg_name"] == argName && m["dep_arg_name"] == dep && m["dep_arg_value"] == Show(trigger);
    ProvidedTemplateRendered(m);
  }

  /**
   * The shapes example: `DependsOn(arg__2="rectangle", kw_strategy=MustBeProvided)` on
   * arg__1 fails for a rectangle without arg__1, and passes for a square without it
   * and for a rectangle with arg__1 = 10.
   */
  lemma RectangleNeedsArgument(self: Value)
    ensures var deps := [("arg__2", StrV("rectangle"))];
            var rect := map["self" := self, "arg__1" := NoneV, "arg__2" := StrV("rectangle")];
            var square := map["self" := self, "arg__1" := NoneV, "arg__2" := StrV("square")];
            var given := map["self" := self, "arg__1" := IntV(10), "arg__2" := StrV("rectangle")];
            KwRun(deps, Provided, MUST_BE_PROVIDED_ERR_MSG, rect, map[], NoneV, "arg__1").outcome.Fail? &&
            KwRun(deps, Provided, MUST_BE_PROVIDED_ERR_MSG, square, map[], NoneV, "arg__1").outcome == Pass &&
            KwRun(deps, Provided, MUST_BE_PROVIDED_ERR_MSG, given, map[], IntV(10), "arg__1").outcome == Pass
  {
    var deps := [("arg__2", StrV("rectangle"))];
    var square := map["self" := self, "arg__1" := NoneV, "arg__2" := StrV("square")];
    assert !Equal(StrV("square"), StrV("rectangle"));
    KwRunPasses(deps, Provided, MUST_BE_PROVIDED_ERR_MSG, square, map[], NoneV, "arg__1");
    assert KwDependencyHolds(Provided, square, NoneV, deps[0]);
  }
}
