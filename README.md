# func-validator validators, modelled in Dafny

func-validator checks the arguments of a decorated Python function against validators declared in its
annotations. This project models the validators themselves. The decorator that binds arguments and calls
them is not modelled.

- **Error messages** (`Core`). A validator's message is an `ErrorMsg`, which is a
  `string.Template` filled by `safe_substitute`. The model has a scanner for this: `${name}`,
  `$name` and `$$` are tokens, and unknown keys stay verbatim. Each message template is also
  written as a `Layout`, and the lemma `RenderLayout` shows that rendering the template's text
  yields the layout filled from the mapping.
- **Shared machinery** (`Core`):
  - the `OPERATOR_SYMBOLS` table;
  - the base `Validator.__init__`;
  - Python values, their truthiness, comparison, `len`, `in`, `str` and `repr`;
  - the loop that stops at the first failing element.
- **Class-based validators**:
  - the numeric validators (`NumericArgValidators`);
  - the collection validators (`CollectionArgValidators`): membership, length and values;
  - `MustBeProvided` and the stateful `DependsOn` (`DependentArgValidator`), whose
    `extra_msg_args` is updated as each dependency is checked;
  - the older `DependsOn` exported by the `validators` package (`ValidatorsPackage`).
- **Function-based validators** of the older API:
  - `_validators/_core.py` (`LegacyCore`);
  - `_validators/_numeric_validators.py` (`LegacyNumericValidators`);
  - `_validators/_numeric_arg_validators.py` (`LegacyNumericArgValidators`);
  - `_validators/_collection_arg_validators.py` (`LegacyCollectionArgValidators`);
  - `_validators.py` (`LegacyValidators`).

Validator call results:
- A validator call returns an `Outcome`: `Pass`, or `Fail(e)`.
- `e` is one of `ValidationError`, `ValueError` or `TypeError`, carrying the message that the Python
  code would raise. The exceptions to this are listed under "Messages" in "## Left out".
- A factory that returns a closure or a `functools.partial` is modelled as a datatype with a `Call`
  member.

Two behaviours of the code worth knowing:
- A dependency that is neither an argument nor an attribute of `self` raises `ValidationError`
  (func_validator/validators/dependent_arg_validator.py:89-99).
- `MustHaveLengthBetween` forwards its raw `err_msg`, so an empty one falls back to `MustBeBetween`'s
  default template (func_validator/validators/collection_arg_validators.py:367).

## Model

| member | source | states |
|---|---|---|
| Core.RenderWithoutDollar | func_validator/validators/_core.py:32-34 | A template without `$` renders to itself for every mapping. |
| Core.RenderLiteralPrefix | func_validator/validators/_core.py:32-34 | A `$`-free prefix is copied verbatim, and the rest of the template renders independently of it. |
| Core.RenderPlaceholder | func_validator/validators/_core.py:32-34 | `${k}` becomes the mapped value when `k` is supplied. Otherwise it is kept verbatim (safe substitution never raises). The rest renders independently. |
| Core.RenderEscapedDollar | func_validator/validators/_core.py:32-34 | `$$` renders as a single `$`. |
| Core.RenderDependsOnPlaceholders | func_validator/validators/_core.py:32-34 | Two mappings that agree on the template's placeholders produce the same message. |
| Core.RenderIgnoresUnusedKeys | func_validator/validators/_core.py:32-34 | Adding keys the template never mentions, such as unrelated `extra_msg_args`, leaves the message unchanged. |
| Core.RenderNothingSupplied | func_validator/validators/_core.py:32-34 | With no keys supplied, every template without `$$` is returned unchanged. |
| Core.TokenVerbatim | func_validator/validators/_core.py:32-34 | With no keys supplied, every token other than `$$` renders as its own source text. |
| Core.IdSpanOfName | func_validator/validators/_core.py:32-34 | The identifier scan after `$` ends exactly where the name ends. |
| Core.KeyNameIsIdentifier | func_validator/validators/_core.py:32-34 | Every placeholder name used by the templates is an identifier, so it is substituted. |
| Core.RenderLayout | func_validator/validators/_core.py:32-34 | Rendering a well-formed layout's template text yields the layout filled from the mapping. |
| Core.SymbolIsTableEntry | func_validator/validators/_core.py:17-25 | The symbol shown for each comparison is the `OPERATOR_SYMBOLS` entry under its function's name. |
| Core.SymbolTable | func_validator/validators/_core.py:17-25 | Gives the seven entries of `OPERATOR_SYMBOLS`, including the mis-encoded `isclose` symbol. Distinct names have distinct symbols. |
| Core.RenderedErrorWithoutExtra | func_validator/validators/numeric_arg_validators.py:41-48 | Without `extra_msg_args`, a failure raises `ValidationError` carrying the template rendered from the fixed fields. |
| Core.Len | func_validator/validators/collection_arg_validators.py:23-30 | `len` is defined exactly for strings and lists, and gives their size. |
| Core.CharValues | func_validator/validators/collection_arg_validators.py:33-41 | Iterating a string yields its one-character strings, in order. |
| Core.LenElements | func_validator/validators/collection_arg_validators.py:23-41 | A value has a length iff it is iterable, and it iterates exactly that many elements. |
| Core.ListContains | func_validator/validators/collection_arg_validators.py:56 | `x in list` holds iff some element equals `x`. |
| Core.FirstFailurePasses | func_validator/validators/collection_arg_validators.py:40-41 | A loop of checks passes iff every element passes. |
| Core.FirstFailureAt | func_validator/validators/collection_arg_validators.py:40-41 | When element `k` is the first to fail, the loop raises exactly element `k`'s error. |
| Core.FirstFailureIgnoresRest | func_validator/validators/collection_arg_validators.py:40-41 | Elements after the first failure are never reached. |
| Core.CheckEach | func_validator/validators/collection_arg_validators.py:40-41 | The `for` loop returns the first failure, and any failure it returns is some element's own error. |
| Core.ReprPlainString | func_validator/validators/collection_arg_validators.py:60 | `repr` of a string of printable ASCII characters without `'` or `\` is the text in single quotes. |
| Core.ReprDoubleQuoted | func_validator/validators/collection_arg_validators.py:60 | `repr("it's")` switches to double quotes. |
| Core.ReprControlEscapes | func_validator/validators/collection_arg_validators.py:60 | `repr` writes a newline as `\n` and the character U+0001 as `\x01`. |
| Core.CulpritsUnorderable | func_validator/validators/numeric_arg_validators.py:34 | When an ordering raises `TypeError`, the two values the message names are themselves unorderable and are never both lists. |
| Core.UnorderableNamesElements | func_validator/validators/numeric_arg_validators.py:34 | Ordering `[1]` against `['a']` names the element types `int` and `str`, not `list`. |
| Core.InitValidator | func_validator/validators/_core.py:40-44 | The stored template is `err_msg`, or the class default when `err_msg` is missing or empty. `extra_msg_args` defaults to `{}`. |
| Core.ValidatorInitAsDeclared | func_validator/validators/_core.py:40-44 | As written, `__init__` raises `TypeError` iff it is given `default_err_msg`. Otherwise it stores `err_msg` verbatim and `extra_msg_args or {}`. |
| Core.SubclassInitAsDeclared | func_validator/validators/numeric_arg_validators.py:105-109 | Every subclass's `super().__init__(..., default_err_msg=...)` raises `TypeError` against the declared base. The corrected initialiser falls back to the default. |
| Core.InitValidatorDefaults | func_validator/validators/_core.py:40-44 | With no arguments, the template is empty and there are no extra message arguments. |
| NumericArgValidators.NumericTemplateRendered | func_validator/validators/numeric_arg_validators.py:15-17 | The default numeric template renders to `name: value must be symbol to.`. |
| NumericArgValidators.BetweenTemplateRendered | func_validator/validators/numeric_arg_validators.py:18-21 | The between template renders with the argument name three times, each bound with its symbol, and a final period. |
| NumericArgValidators.ComparisonCall | func_validator/validators/numeric_arg_validators.py:24-48 | For numbers: passes iff `fn(arg_value, to)`. Otherwise raises `ValidationError` from the configured template, with `arg_name`, `arg_value`, `to`, `fn_symbol` and `extra_msg_args`. |
| NumericArgValidators.ComparisonPasses | func_validator/validators/numeric_arg_validators.py:34 | For every template, the verdict is exactly the comparison. |
| NumericArgValidators.ComparisonOutcome | func_validator/validators/numeric_arg_validators.py:247-478 | A default-configured comparison validator passes iff the comparison holds. Otherwise the full message carries the operator's symbol. |
| NumericArgValidators.MustBeEqualOutcome | func_validator/validators/numeric_arg_validators.py:247-276 | Passes iff the values are equal. Otherwise the message says `must be == to.` |
| NumericArgValidators.MustNotBeEqualOutcome | func_validator/validators/numeric_arg_validators.py:278-306 | Passes iff the values differ. Otherwise the message says `must be != to.` |
| NumericArgValidators.MustBeGreaterThanOutcome | func_validator/validators/numeric_arg_validators.py:353-382 | Passes iff the value is greater. Otherwise the message says `must be > to.` |
| NumericArgValidators.MustBeGreaterThanOrEqualOutcome | func_validator/validators/numeric_arg_validators.py:384-415 | Passes iff the value is greater or equal. Otherwise the message says `must be >= to.` |
| NumericArgValidators.MustBeLessThanOutcome | func_validator/validators/numeric_arg_validators.py:417-446 | Passes iff the value is smaller. Otherwise the message says `must be < to.` |
| NumericArgValidators.MustBeLessThanOrEqualOutcome | func_validator/validators/numeric_arg_validators.py:448-478 | Passes iff the value is smaller or equal. Otherwise the message says `must be <= to.` |
| NumericArgValidators.MustBePositiveOutcome | func_validator/validators/numeric_arg_validators.py:132-157 | Passes iff the value is > 0. Otherwise the message compares with `0.0`. |
| NumericArgValidators.MustBeNonPositiveOutcome | func_validator/validators/numeric_arg_validators.py:160-185 | Passes iff the value is <= 0. Otherwise the message compares with `0.0`. |
| NumericArgValidators.MustBeNegativeOutcome | func_validator/validators/numeric_arg_validators.py:188-213 | Passes iff the value is < 0. Otherwise the message compares with `0.0`. |
| NumericArgValidators.MustBeNonNegativeOutcome | func_validator/validators/numeric_arg_validators.py:216-241 | Passes iff the value is >= 0. Otherwise the message compares with `0.0`. |
| NumericArgValidators.PositiveNonPositiveComplementary | func_validator/validators/numeric_arg_validators.py:132-185 | Exactly one of `MustBePositive` and `MustBeNonPositive` accepts any given number. |
| NumericArgValidators.NegativeNonNegativeComplementary | func_validator/validators/numeric_arg_validators.py:188-241 | Exactly one of `MustBeNegative` and `MustBeNonNegative` accepts any given number. |
| NumericArgValidators.EqualNotEqualOpposite | func_validator/validators/numeric_arg_validators.py:247-306 | For every value (numeric or not), exactly one of `MustBeEqual` and `MustNotBeEqual` passes. Equality failures are `ValidationError`s. |
| NumericArgValidators.BetweenCall | func_validator/validators/numeric_arg_validators.py:51-78 | Passes iff the value lies in the range, each end inclusive or exclusive as configured. Otherwise the rendered template is raised as a `ValidationError`. |
| NumericArgValidators.BetweenMessage | func_validator/validators/numeric_arg_validators.py:66-76 | Gives the default between message in full: the value, then both bounds with their table symbols. |
| NumericArgValidators.BetweenOutcome | func_validator/validators/numeric_arg_validators.py:81-126 | A default-configured `MustBeBetween` passes iff the value is in range. Otherwise the message is the full between message. |
| NumericArgValidators.BoundSymbols | func_validator/validators/numeric_arg_validators.py:63-67 | The lower bound uses `>=` or `>`, and the upper bound `<=` or `<`, following the inclusive flags. |
| NumericArgValidators.BetweenInclusiveByDefault | func_validator/validators/numeric_arg_validators.py:91-92 | With the default flags, `MustBeBetween(2, 4)` accepts exactly 2..4. |
| NumericArgValidators.BetweenExclusive | func_validator/validators/numeric_arg_validators.py:63-65 | With both ends exclusive, `MustBeBetween(2, 4)` accepts exactly 3 among the integers. |
| CollectionArgValidators.LengthTemplateRendered | func_validator/validators/collection_arg_validators.py:15-17 | The length template renders to `Length of name: len must be symbol to`, with no final period. |
| CollectionArgValidators.ValuesTemplateRendered | func_validator/validators/collection_arg_validators.py:18-20 | The values template renders to `Values of name: element must be symbol to`. |
| CollectionArgValidators.ValuesBetweenTemplateRendered | func_validator/validators/collection_arg_validators.py:526-529 | The values-between template renders with both bounds and a trailing space. |
| CollectionArgValidators.MemberTemplateRendered | func_validator/validators/collection_arg_validators.py:68-70 | The membership template renders to `name: value must be in value_set`. |
| CollectionArgValidators.MemberOfCall | func_validator/validators/collection_arg_validators.py:47-63 | Passes iff `in` answers true. On false it raises the template with `repr(value_set)`. An `in` that raises propagates its error. |
| CollectionArgValidators.MemberOfListOutcome | func_validator/validators/collection_arg_validators.py:66-99 | A default `MustBeMemberOf(list)` passes iff some element equals the value. Otherwise it names the list's `repr`. |
| CollectionArgValidators.ShapeMembership | tests/test_dependent_arg_validator.py:25-27 | `"rectangle"` is in `["square", "rectangle"]`, and `"circle"` is not. |
| CollectionArgValidators.LengthCall | func_validator/validators/collection_arg_validators.py:23-30 | A length validator compares `len(value)` with the inner numeric validator. It renders the length, not the collection, as `arg_value`. |
| CollectionArgValidators.LengthOfUnsized | func_validator/validators/collection_arg_validators.py:30 | A value without `len` raises `TypeError: object of type 'T' has no len()`. |
| CollectionArgValidators.LengthIsNumericOnLen | func_validator/validators/collection_arg_validators.py:159-326 | Each length factory behaves as the numeric comparison validator applied to `len(value)`, with the length template. |
| CollectionArgValidators.LengthOutcome | func_validator/validators/collection_arg_validators.py:159-326 | Default length validators pass iff the comparison on the length holds. Otherwise they give the full `Length of ...` message. |
| CollectionArgValidators.MustBeEmptyOutcome | func_validator/validators/collection_arg_validators.py:105-129 | Passes iff the length is 0. Otherwise the message says `must be == 0`. |
| CollectionArgValidators.MustBeNonEmptyOutcome | func_validator/validators/collection_arg_validators.py:132-156 | Passes iff the length is not 0. Otherwise the message says `must be != 0`. |
| CollectionArgValidators.MustHaveLengthEqualOutcome | func_validator/validators/collection_arg_validators.py:159-190 | Passes iff `len == n`, with the full message otherwise. |
| CollectionArgValidators.MustHaveLengthGreaterThanOutcome | func_validator/validators/collection_arg_validators.py:193-224 | Passes iff `len > n`, with the full message otherwise. |
| CollectionArgValidators.MustHaveLengthGreaterThanOrEqualOutcome | func_validator/validators/collection_arg_validators.py:227-258 | Passes iff `len >= n`, with the full message otherwise. |
| CollectionArgValidators.MustHaveLengthLessThanOutcome | func_validator/validators/collection_arg_validators.py:261-292 | Passes iff `len < n`, with the full message otherwise. |
| CollectionArgValidators.MustHaveLengthLessThanOrEqualOutcome | func_validator/validators/collection_arg_validators.py:295-326 | Passes iff `len <= n`, with the full message otherwise. |
| CollectionArgValidators.EmptyNonEmptyComplementary | func_validator/validators/collection_arg_validators.py:105-156 | Exactly one of `MustBeEmpty` and `MustBeNonEmpty` accepts any sized value. |
| CollectionArgValidators.LengthBetweenOutcome | func_validator/validators/collection_arg_validators.py:329-378 | A default `MustHaveLengthBetween` passes iff the length is in range. Otherwise the message is the numeric between message, because the raw `err_msg` is forwarded. |
| CollectionArgValidators.LengthBetweenTemplate | func_validator/validators/collection_arg_validators.py:359-378 | The template actually used is `err_msg`, falling back to the numeric between template. The class's own default is never used. |
| CollectionArgValidators.LengthBetweenTwoAndFour | tests/test_collection_validators.py:113-148 | `MustHaveLengthBetween(2, 4)` accepts exactly the lists of length 2 to 4. |
| CollectionArgValidators.ValuesValidator.Call | func_validator/validators/collection_arg_validators.py:33-41 | The loop over the values returns the first element's failure, or `Pass`. |
| CollectionArgValidators.ValuesOfEmpty | func_validator/validators/collection_arg_validators.py:40-41 | Empty lists and empty strings always pass. |
| CollectionArgValidators.ValuesStopAtFirstFailure | func_validator/validators/collection_arg_validators.py:40-41 | Appending values after a failing prefix does not change the failure. |
| CollectionArgValidators.ValuesComparisonPasses | func_validator/validators/collection_arg_validators.py:381-518 | A values comparison passes iff every element satisfies the comparison. |
| CollectionArgValidators.ValuesFirstOffender | func_validator/validators/collection_arg_validators.py:381-518 | The message names the first element that breaks the comparison. |
| CollectionArgValidators.ValuesElementFails | func_validator/validators/collection_arg_validators.py:407-413 | A single failing element produces `Values of name: element must be symbol to`. |
| CollectionArgValidators.MustHaveValuesGreaterThanPasses | func_validator/validators/collection_arg_validators.py:381-413 | Passes iff every element is greater than the bound. |
| CollectionArgValidators.MustHaveValuesGreaterThanOrEqualPasses | func_validator/validators/collection_arg_validators.py:416-448 | Passes iff every element is at least the bound. |
| CollectionArgValidators.MustHaveValuesLessThanPasses | func_validator/validators/collection_arg_validators.py:451-483 | Passes iff every element is less than the bound. |
| CollectionArgValidators.MustHaveValuesLessThanOrEqualPasses | func_validator/validators/collection_arg_validators.py:486-518 | Passes iff every element is at most the bound. |
| CollectionArgValidators.ValuesBetweenPasses | func_validator/validators/collection_arg_validators.py:521-569 | Passes iff every element lies in the configured range. |
| CollectionArgValidators.ValuesBetweenElementFails | func_validator/validators/collection_arg_validators.py:526-569 | One number outside the range raises `ValidationError("Values of <name>: <x> must be <min symbol> <lo> and <max symbol> <hi> ")`. |
| CollectionArgValidators.ValuesBetweenFirstOffender | func_validator/validators/collection_arg_validators.py:521-569 | A list whose first out-of-range element is at `k` raises the error above for `xs[k]`. |
| CollectionArgValidators.ValuesBetweenDefaultMessage | func_validator/validators/collection_arg_validators.py:521-569 | With the default inclusive bounds, that error reads `Values of <name>: <xs[k]> must be >= <lo> and <= <hi> `. |
| DependentArgValidator.Describe | func_validator/validators/dependent_arg_validator.py:104-109 | The update sets `dep_arg_name` and `dep_arg_value` and keeps every other key. |
| DependentArgValidator.DependsOn.constructor | func_validator/validators/dependent_arg_validator.py:58-87 | Stores the dependencies and strategies. The two templates fall back to their strategy's default. Extra args default to `{}`, and the bound arguments start empty. |
| DependentArgValidator.DependsOn.SetArguments | func_validator/validators/dependent_arg_validator.py:87 | The bound arguments become the given mapping. |
| DependentArgValidator.DependsOn.ValidateArgsDependencies | func_validator/validators/dependent_arg_validator.py:101-115 | The loop's result and the new `extra_msg_args` are those of the positional run over the old state. |
| DependentArgValidator.DependsOn.ValidateKwDependencies | func_validator/validators/dependent_arg_validator.py:117-131 | The loop's result and the new `extra_msg_args` are those of the keyword run over the old state. |
| DependentArgValidator.DependsOn.Call | func_validator/validators/dependent_arg_validator.py:133-137 | The positional run comes first. The keyword run starts from the `extra_msg_args` that the positional run left. |
| DependentArgValidator.ProvidedTemplateRendered | func_validator/validators/dependent_arg_validator.py:23-26 | Gives the `MustBeProvided` message. The dependency fields are substituted only when supplied. |
| DependentArgValidator.MustBeProvidedOutcome | func_validator/validators/dependent_arg_validator.py:9-46 | A default `MustBeProvided` passes iff the value is truthy. Otherwise both `${dep_...}` placeholders stay verbatim. |
| DependentArgValidator.ProvidedPasses | func_validator/validators/dependent_arg_validator.py:15 | For every template, `MustBeProvided` passes iff `bool(value)`. |
| DependentArgValidator.ResolveLookup | func_validator/validators/dependent_arg_validator.py:89-99 | A bound argument wins; otherwise the attribute of `self` is used. Lookup fails iff neither exists, and the failure is the "not found" `ValidationError`. |
| DependentArgValidator.ArgsStrategyPasses | func_validator/validators/dependent_arg_validator.py:110-115 | The positional strategy passes iff the comparison of the argument with the dependency's value is true. |
| DependentArgValidator.KwStrategyPasses | func_validator/validators/dependent_arg_validator.py:127-131 | The keyword strategy passes iff the argument is truthy (`MustBeProvided`), or it compares as configured with 0 (a sign strategy). |
| DependentArgValidator.ArgsRunPasses | func_validator/validators/dependent_arg_validator.py:101-115 | The positional loop passes iff every dependency resolves and satisfies the strategy. |
| DependentArgValidator.ArgsRunStep | func_validator/validators/dependent_arg_validator.py:102-115 | One iteration: the first dependency must hold, and the rest run with the updated message arguments. |
| DependentArgValidator.DefaultPositionalIsLessThan | func_validator/validators/dependent_arg_validator.py:61 | With the default strategy, one dependency passes iff the argument is smaller than it. |
| DependentArgValidator.ArgsRunFailsAt | func_validator/validators/dependent_arg_validator.py:101-115 | When dependency `k` is the first to fail, the error comes from that strategy, and `extra_msg_args` describes dependency `k`. |
| DependentArgValidator.ArgsRunFailsFirst | func_validator/validators/dependent_arg_validator.py:102-115 | A failing first dependency ends the loop, with its description in `extra_msg_args`. |
| DependentArgValidator.ArgsRunSkipsFirst | func_validator/validators/dependent_arg_validator.py:102-115 | A satisfied first dependency leaves its description and goes on to the next. |
| DependentArgValidator.ArgsRunKeepsOtherKeys | func_validator/validators/dependent_arg_validator.py:104-109 | The positional loop keeps every caller-supplied message argument other than the two `dep_` keys. |
| DependentArgValidator.KwRunPasses | func_validator/validators/dependent_arg_validator.py:117-131 | The keyword loop passes iff every dependency resolves, and each one equal to its trigger value has an argument accepted by the strategy. |
| DependentArgValidator.KwRunStep | func_validator/validators/dependent_arg_validator.py:118-131 | One iteration of the keyword loop, and the update made only on a match. |
| DependentArgValidator.KwMissingFails | func_validator/validators/dependent_arg_validator.py:118-119 | A keyword dependency that cannot be found makes the call fail. |
| DependentArgValidator.KwRunKeepsOtherKeys | func_validator/validators/dependent_arg_validator.py:121-126 | The keyword loop keeps every caller-supplied message argument other than the two `dep_` keys. |
| DependentArgValidator.CallRunOrder | func_validator/validators/dependent_arg_validator.py:133-137 | The call passes iff both loops pass. A positional failure is returned unchanged, and the keyword loop never runs. |
| DependentArgValidator.NoDependencies | func_validator/validators/dependent_arg_validator.py:133-137 | Without dependencies, the call passes and touches nothing. |
| DependentArgValidator.ProvidedDependencyMessage | func_validator/validators/dependent_arg_validator.py:117-131 | A matched trigger with a falsy argument gives `arg must be provided when dep has a value of trigger`. |
| DependentArgValidator.RectangleNeedsArgument | tests/test_dependent_arg_validator.py:17-41 | `arg__1` is required exactly when `arg__2 == "rectangle"`. |
| ValidatorsPackage.DependsOn.constructor | func_validator/validators/__init__.py:91-113 | Stores the dependencies. The strategies default to less-than and truthiness. Arguments start empty. |
| ValidatorsPackage.DependsOn.SetArguments | func_validator/validators/__init__.py:113 | The bound arguments become the given mapping. |
| ValidatorsPackage.DependsOn.GetDependencyValue | func_validator/validators/__init__.py:115-125 | The lookup succeeds iff the name is bound or is an attribute of `self`. Otherwise it raises the "not found" error. |
| ValidatorsPackage.DependsOn.ValidateArgsDependencies | func_validator/validators/__init__.py:127-131 | The loop returns the first failing positional dependency's error, and changes no state. |
| ValidatorsPackage.DependsOn.ValidateKwDependencies | func_validator/validators/__init__.py:133-138 | The loop returns the first failing keyword dependency's error, and changes no state. |
| ValidatorsPackage.DependsOn.Call | func_validator/validators/__init__.py:140-144 | Positional dependencies are checked first, then keyword dependencies. |
| ValidatorsPackage.ArgsDependencyPasses | func_validator/validators/__init__.py:129-131 | One positional dependency passes under the same condition as in the newer `DependsOn`. |
| ValidatorsPackage.KwDependencyPasses | func_validator/validators/__init__.py:134-138 | One keyword dependency passes under the same condition as in the newer `DependsOn`. |
| ValidatorsPackage.ArgsPass | func_validator/validators/__init__.py:127-131 | The positional loop passes iff every dependency holds. |
| ValidatorsPackage.KwPass | func_validator/validators/__init__.py:133-138 | The keyword loop passes iff every dependency holds. |
| ValidatorsPackage.AgreesWithModuleVersion | func_validator/validators/__init__.py:140-144 | Accepts exactly the same calls as the `DependsOn` of `dependent_arg_validator.py`, whatever its templates. |
| ValidatorsPackage.PositionalFirst | func_validator/validators/__init__.py:140-144 | A positional failure is the call's result. The call passes iff both loops pass. |
| ValidatorsPackage.NoDependenciesPass | func_validator/validators/__init__.py:140-144 | Without dependencies, every call passes. |
| ValidatorsPackage.ArgsFailAt | func_validator/validators/__init__.py:127-131 | The first failing positional dependency's error is the loop's error. |
| ValidatorsPackage.ProvidedMessageUndescribed | func_validator/validators/__init__.py:136-138 | The strategy is built without message arguments, so the message keeps both `${dep_...}` placeholders verbatim. |
| LegacyCore.GenericOutcome | func_validator/_validators/_core.py:7-9 | Passes iff `fn(value, to)`. Otherwise raises `ValueError("Value v must be symbol to.")`. |
| LegacyCore.SymbolShownVerbatim | func_validator/_validators/_core.py:7-9 | On failure, two different symbols give different errors: the symbol is shown as given. |
| LegacyCore.MismatchedSymbol | func_validator/_validators/_core.py:7-9 | The symbol is never checked against `fn`: comparing `1` with `>` but showing `<` reports `Value 1 must be < 2.` |
| LegacyNumericValidators.SignOutcomes | func_validator/_validators/_numeric_validators.py:14-27 | Each sign check compares with `0.0` and reports its own symbol. |
| LegacyNumericValidators.FactoriesPairSymbols | func_validator/_validators/_numeric_validators.py:33-60 | Each factory pairs its comparison with that comparison's own table symbol. |
| LegacyNumericValidators.ComparisonOutcome | func_validator/_validators/_numeric_validators.py:9-11 | A returned comparison passes iff it holds. Otherwise it raises the `Value ... must be ...` error. |
| LegacyNumericValidators.SignsComplementary | func_validator/_validators/_numeric_validators.py:14-27 | Exactly one check of each complementary sign pair raises. |
| LegacyNumericArgValidators.ComparisonOutcome | func_validator/_validators/_numeric_arg_validators.py:8-11 | Passes iff `fn(x, to)`. Otherwise the message is `x=<repr> must be <table symbol> to.` |
| LegacyNumericArgValidators.SignsCompareWithZero | func_validator/_validators/_numeric_arg_validators.py:38-55 | The four sign checks compare with zero as their names say. |
| LegacyNumericArgValidators.BetweenOutcome | func_validator/_validators/_numeric_arg_validators.py:14-32 | Passes iff the value is in range. Otherwise the message uses `x` and the table symbols of the chosen bounds. |
| LegacyNumericArgValidators.BetweenInclusiveByDefault | func_validator/_validators/_numeric_arg_validators.py:58-94 | Both ends are inclusive by default, so the range accepts `lo <= x <= hi`. |
| LegacyNumericArgValidators.SameVerdictAsClassValidators | func_validator/_validators/_numeric_arg_validators.py:8-32 | Each check accepts exactly the values the class-based numeric validator accepts, whatever its template. |
| LegacyCollectionArgValidators.IterableValuesValidator | func_validator/_validators/_collection_arg_validators.py:20-22 | The `for` loop returns the first element's failure, or `Pass`. |
| LegacyCollectionArgValidators.ValuesValidator.Call | func_validator/_validators/_collection_arg_validators.py:89-123 | The values factories run the element check over the values, stopping at the first failure. |
| LegacyCollectionArgValidators.MemberOfList | func_validator/_validators/_collection_arg_validators.py:29-34 | `MustBeIn(list)` passes iff some element is equal. Otherwise it raises `ValueError` naming the list's `repr`. |
| LegacyCollectionArgValidators.EmptinessIsTruthiness | func_validator/_validators/_collection_arg_validators.py:40-47 | `MustBeEmpty` raises iff the value is truthy, and `MustBeNonEmpty` raises iff it is falsy. Exactly one of them raises. |
| LegacyCollectionArgValidators.LengthIsNumericOnLen | func_validator/_validators/_collection_arg_validators.py:16-17 | A length check is the numeric check on `len(value)`. It passes iff the value is sized and the comparison holds. |
| LegacyCollectionArgValidators.LengthEqualThree | tests/test_decorator.py:59-76 | `MustHaveLengthEqual(3)` accepts `[1, 2, 3]` and `"abc"`. It rejects `[1, 2]` with `ValueError("x=2 must be == 3.")` and `""` with `ValueError("x=0 must be == 3.")`. |
| LegacyCollectionArgValidators.ShortMessage | func_validator/_validators/_numeric_arg_validators.py:8-11 | A length `n < 3` checked for equality with 3 raises `ValueError("x=<n> must be == 3.")`. |
| LegacyCollectionArgValidators.BetweenInclusiveByDefault | func_validator/_validators/_collection_arg_validators.py:71-104 | The length and values between factories are inclusive at both ends by default. |
| LegacyCollectionArgValidators.ValuesPass | func_validator/_validators/_collection_arg_validators.py:20-22 | The values loop passes iff every element passes. |
| LegacyCollectionArgValidators.ValuesFirstFailure | func_validator/_validators/_collection_arg_validators.py:20-22 | The first failing element's error is raised, whatever follows it. |
| LegacyValidators.SignOutcomes | func_validator/_validators.py:9-27 | Each sign check compares with 0 and raises its worded message (`must be greater than 0.` etc.). |
| LegacyValidators.ComparisonFactories | func_validator/_validators.py:33-59 | The factories build the same comparisons as `_numeric_validators.py`, and each accepts exactly what its name says. |
| LegacyValidators.MemberOfSet | func_validator/_validators.py:65-70 | For hashable elements, passes iff some element equals the value. Otherwise it raises `ValueError`, showing the set. |
| LegacyValidators.MemberIgnoresRepeats | func_validator/_validators.py:65-70 | Repeating the elements does not change the outcome, because the container is turned into a set. |
| LegacyValidators.UnhashableRaises | func_validator/_validators.py:65-70 | A list element, or a list value, raises `TypeError: unhashable type: 'list'`. |
| LegacyValidators.BetweenInclusive | func_validator/_validators.py:73-82 | Passes iff `lo <= v <= hi`. Otherwise the message is `Value v must be between lo and hi.` |
| LegacyValidators.MustHaveValuesBetween | func_validator/_validators.py:114-119 | The `for` loop returns the first out-of-range element's error, or `Pass`. |
| LegacyValidators.ValuesBetweenPass | func_validator/_validators.py:114-119 | Passes iff every element lies in the inclusive range. |
| LegacyValidators.ValuesBetweenFirstOffender | func_validator/_validators.py:114-119 | The error names the first element outside the range. |
| LegacyValidators.EmptinessIsTruthiness | func_validator/_validators.py:88-95 | Same as the `_collection_arg_validators.py` versions: emptiness is falsiness. |
| LegacyValidators.LengthEqualOutcome | func_validator/_validators.py:98-103 | Passes iff `len == n`. Otherwise the message is `Length of v must be equal to n.` |
| LegacyValidators.LengthGreaterThanVerdicts | func_validator/_validators.py:106-111 | Passes iff the value is sized and `len > n`. The as-written and corrected versions agree on every verdict. |
| LegacyValidators.GreaterThanMessageAsWritten | func_validator/_validators.py:109 | As written, a too-short value reports `must be equal to n`, with no period. For example, `[]` with `n = 0` reports `Length of [] must be equal to 0`. |
| LegacyValidators.GreaterThanMessage | func_validator/_validators.py:106-111 | The corrected check reports `Length of v must be greater than n.` |

## Left out

The validators:
- `MustBeAlmostEqual`, `MustMatchRegex`, `MustBeA` and the other text and datatype validators are not part of this model.
  - They depend on floating-point tolerance, regular expressions or type objects.
- The `validate_params` decorator and argument binding are not modelled. `DependsOn.SetArguments` stands for the binding it performs.
- The re-export modules (`func_validator/__init__.py`, `_validators/__init__.py`) are not modelled.

Values:
- Python values are modelled as `None`, integers, integral floats, strings, lists and plain objects.
  - Floats with a fractional part, dicts, sets, tuples and user classes with their own `__eq__`, `__len__`, `__contains__` or `__hash__` are not modelled.
  - Objects compare structurally; Python compares them by identity.
  - Core.Show and Core.Repr render an integral float as `n.0` and do not reproduce Python's other float formats.
- `getattr` is modelled as a lookup in an object's attribute map. Properties and class attributes are not modelled.

Message arguments:
- `extra_msg_args` is a value in the model. The Python code aliases and mutates the caller's dict, which the model does not capture.
- A key of `extra_msg_args` that repeats a fixed placeholder name is treated as the `TypeError` Python raises for a duplicate keyword.

Messages:
- Core.DUPLICATE_KEYWORD_MSG ends before the key. Python appends `'<key>'`, and which duplicate it names depends on the dict's insertion order, which a map does not keep.
- Core.Show writes an object as `<cls object>`. Python writes `<module.cls object at 0x…>`, with a module name and a memory address the model does not have.
- Core.Repr escapes the quote, `\`, tab, newline, carriage return, the Latin-1 control characters, U+00A0 and U+00AD. Python also escapes every other non-printable character beyond U+00FF, and the model shows those as they are.

The older API:
- LegacyValidators.MemberValidator takes the `str(set(...))` text as a parameter. Its element order depends on CPython's hash order.
- The `_validators/_numeric_arg_validators.py` module imports `OPERATOR_SYMBOLS` from `_validators/_core.py`, which does not define it. The model uses the table of `validators/_core.py`.
- The `_generic_number_validator` of `_validators/_numeric_validators.py` (lines 9-11) and `_comparison_validator` of `_validators.py` are the same function. Both are modelled by LegacyCore.GenericNumberValidator.
- ValidatorsPackage.DependsOn: the `MustBeTruthy` default strategy is not defined by the package. It is modelled as `MustBeProvided`'s truthiness check and template.

Dependencies:
- Keyword dependencies are a sequence of pairs, in the order given.
- Strategies are limited to `MustBeProvided` and the numeric comparisons. An arbitrary validator class as a strategy is not modelled.

## Findings

| source | as written | input that shows it | evidently intended | confidence | as-written member | corrected member |
|---|---|---|---|---|---|---|
| func_validator/validators/_core.py:40-44 | `Validator.__init__` accepts only `err_msg` and `extra_msg_args`, yet every subclass passes `default_err_msg=self.DEFAULT_ERROR_MSG`, e.g. numeric_arg_validators.py:105-109 | `MustBePositive()`: the super call raises `TypeError` for the unexpected keyword | the stored template is `err_msg or DEFAULT_ERROR_MSG`, as `DependsOn` does at dependent_arg_validator.py:85-86 | high, not executed | Core.ValidatorInitAsDeclared, Core.SubclassInitAsDeclared | Core.InitValidator |
| func_validator/_validators.py:109 | `MustHaveLengthGreaterThan` reports `Length of {val} must be equal to {value}`, with no period | `MustHaveLengthGreaterThan(0)([])` raises `Length of [] must be equal to 0` | `Length of {val} must be greater than {value}.` | high, not executed | LegacyValidators.GreaterThanMessageAsWritten, LegacyValidators.MustHaveLengthGreaterThanAsWritten | LegacyValidators.GreaterThanMessage, LegacyValidators.MustHaveLengthGreaterThan |
