/**
 * The shared core of the validators (func_validator/validators/_core.py):
 * the Python values a validator sees, Python's comparison operators and `str`/`repr`
 * on them, the `${}` message templates of `string.Template.safe_substitute`, the
 * operator symbol table, the error categories, and the two fields every validator stores.
 */
module Core {

  datatype Option<+T> = None | Some(value: T)

  // ---------------------------------------------------------------------------
  // Values

  /**
   * A Python value an argument can hold. FloatV(f) is a float whose value is the
   * integer f (such as the 0.0 the sign validators compare against); ObjV is an
   * instance of class `cls` whose attributes, as `getattr` sees them, are `attrs`.
   */
  datatype Value =
    | NoneV
    | IntV(i: int)
    | FloatV(f: int)
    | StrV(s: string)
    | ListV(items: seq<Value>)
    | ObjV(cls: string, attrs: map<string, Value>)

  /** Python's `bool(v)`. */
  predicate Truthy(v: Value)
  {
    match v
    case NoneV => false
    case IntV(i) => i != 0
    case FloatV(f) => f != 0
    case StrV(s) => s != ""
    case ListV(xs) => xs != []
    case ObjV(_, _) => true
  }

  predicate IsNumber(v: Value)
  {
    v.IntV? || v.FloatV?
  }

  function NumValue(v: Value): int
    requires IsNumber(v)
  {
    if v.IntV? then v.i else v.f
  }

  /** Python's `a == b`: ints and floats compare by value, lists element-wise. */
  predicate Equal(a: Value, b: Value)
  {
    match a
    case NoneV => b.NoneV?
    case IntV(_) => IsNumber(b) && NumValue(a) == NumValue(b)
    case FloatV(_) => IsNumber(b) && NumValue(a) == NumValue(b)
    case StrV(s) => b.StrV? && s == b.s
    case ListV(xs) =>
      b.ListV? && |xs| == |b.items| &&
      forall k :: 0 <= k < |xs| ==> Equal(xs[k], b.items[k])
    case ObjV(_, _) => a == b
  }

  // ---------------------------------------------------------------------------
  // Comparison operators (the functions of Python's `operator` module)

  datatype CmpOp = Eq | Ne | Gt | Ge | Lt | Le

  /** `fn.__name__` of the operator. */
  function OpName(fn: CmpOp): string
  {
    match fn
    case Eq => "eq"
    case Ne => "ne"
    case Gt => "gt"
    case Ge => "ge"
    case Lt => "lt"
    case Le => "le"
  }

  /** The operator on integers. */
  predicate Holds(fn: CmpOp, x: int, y: int)
  {
    match fn
    case Eq => x == y
    case Ne => x != y
    case Gt => x > y
    case Ge => x >= y
    case Lt => x < y
    case Le => x <= y
  }

  /** Length of the common prefix of two lists on which the elements are equal. */
  function FirstDifference(xs: seq<Value>, ys: seq<Value>): (k: nat)
    ensures k <= |xs| && k <= |ys|
    ensures forall j :: 0 <= j < k ==> Equal(xs[j], ys[j])
    ensures k < |xs| && k < |ys| ==> !Equal(xs[k], ys[k])
  {
    if xs == [] || ys == [] || !Equal(xs[0], ys[0]) then 0
    else 1 + FirstDifference(xs[1..], ys[1..])
  }

  /** Length of the common prefix of two strings. */
  function FirstCharDifference(s: string, t: string): (k: nat)
    ensures k <= |s| && k <= |t|
    ensures forall j :: 0 <= j < k ==> s[j] == t[j]
    ensures k < |s| && k < |t| ==> s[k] != t[k]
  {
    if s == [] || t == [] || s[0] != t[0] then 0
    else 1 + FirstCharDifference(s[1..], t[1..])
  }

  /**
   * An ordering operator (<, <=, >, >=) on two values: numbers by value, strings by
   * code points and lists lexicographically (the first unequal elements decide, else
   * the lengths). None means Python raises TypeError (the types are not orderable).
   */
  function Order(fn: CmpOp, a: Value, b: Value): Option<bool>
    requires fn !in {Eq, Ne}
  {
    if IsNumber(a) && IsNumber(b) then Some(Holds(fn, NumValue(a), NumValue(b)))
    else if a.StrV? && b.StrV? then
      var k := FirstCharDifference(a.s, b.s);
      if k < |a.s| && k < |b.s| then Some(Holds(fn, a.s[k] as int, b.s[k] as int))
      else Some(Holds(fn, |a.s|, |b.s|))
    else if a.ListV? && b.ListV? then
      var k := FirstDifference(a.items, b.items);
      if k < |a.items| && k < |b.items| then Order(fn, a.items[k], b.items[k])
      else Some(Holds(fn, |a.items|, |b.items|))
    else None
  }

  /** `fn(a, b)` for one of the six comparison operators; None is a TypeError. */
  function Compare(fn: CmpOp, a: Value, b: Value): Option<bool>
  {
    match fn
    case Eq => Some(Equal(a, b))
    case Ne => Some(!Equal(a, b))
    case _ => Order(fn, a, b)
  }

  /** `type(v).__name__`. */
  function TypeName(v: Value): string
  {
    match v
    case NoneV => "NoneType"
    case IntV(_) => "int"
    case FloatV(_) => "float"
    case StrV(_) => "str"
    case ListV(_) => "list"
    case ObjV(cls, _) => cls
  }

  /**
   * The pair of values whose ordering raises: two lists defer to their first unequal
   * elements, as Order does, so the error names those elements' types.
   */
  function Culprits(a: Value, b: Value): (Value, Value)
  {
    if a.ListV? && b.ListV? then
      var k := FirstDifference(a.items, b.items);
      if k < |a.items| && k < |b.items| then Culprits(a.items[k], b.items[k]) else (a, b)
    else (a, b)
  }

  /** The message of the TypeError Python raises for an ordering of unorderable values. */
  function Unorderable(fn: CmpOp, a: Value, b: Value): string
  {
    var (x, y) := Culprits(a, b);
    "'" + Symbol(fn) + "' not supported between instances of '" + TypeName(x) + "' and '" + TypeName(y) + "'"
  }

  /** The values an unorderable comparison names are themselves unorderable, and never two lists. */
  lemma {:induction false} CulpritsUnorderable(fn: CmpOp, a: Value, b: Value)
    requires fn !in {Eq, Ne} && Order(fn, a, b) == None
    ensures Order(fn, Culprits(a, b).0, Culprits(a, b).1) == None
    ensures !(Culprits(a, b).0.ListV? && Culprits(a, b).1.ListV?)
    decreases a
  {
    if a.ListV? && b.ListV? {
      var k := FirstDifference(a.items, b.items);
      if k < |a.items| && k < |b.items| {
        CulpritsUnorderable(fn, a.items[k], b.items[k]);
      }
    }
  }

  /** Comparing `[1]` with `['a']` names the elements' types, as Python does. */
  lemma UnorderableNamesElements()
    ensures Culprits(IntList([1]), ListV([StrV("a")])) == (IntV(1), StrV("a"))
    ensures Unorderable(Lt, IntList([1]), ListV([StrV("a")])) ==
            "'" + "<" + "' not supported between instances of '" + "int" + "' and '" + "str" + "'"
  {
    var a := IntList([1]);
    var b := ListV([StrV("a")]);
    assert !Equal(a.items[0], b.items[0]);
    assert FirstDifference(a.items, b.items) == 0;
    assert Culprits(a, b) == (IntV(1), StrV("a"));
    assert Symbol(Lt) == "<" && TypeName(IntV(1)) == "int" && TypeName(StrV("a")) == "str";
  }

  // ---------------------------------------------------------------------------
  // str() and repr()

  function DigitChar(d: nat): char
    requires d < 10
  {
    "0123456789"[d]
  }

  function Digits(n: nat): string
    decreases n
  {
    if n < 10 then [DigitChar(n)] else Digits(n / 10) + [DigitChar(n % 10)]
  }

  /** `str(n)` of a Python int: decimal digits with a leading '-' when negative. */
  function IntToString(n: int): string
  {
    if n < 0 then "-" + Digits(-n) else Digits(n)
  }

  function JoinComma(parts: seq<string>): string
  {
    if parts == [] then ""
    else if |parts| == 1 then parts[0]
    else parts[0] + ", " + JoinComma(parts[1..])
  }

  /** `str(v)`; an object shows as `<cls object>`. */
  function Show(v: Value): string
    decreases v, 0
  {
    match v
    case NoneV => "None"
    case IntV(i) => IntToString(i)
    case FloatV(f) => IntToString(f) + ".0"
    case StrV(s) => s
    case ListV(xs) => "[" + JoinComma(seq(|xs|, k requires 0 <= k < |xs| => Repr(xs[k]))) + "]"
    case ObjV(cls, _) => "<" + cls + " object>"
  }

  /** A lower-case hexadecimal digit. */
  function HexDigit(d: nat): char
    requires d < 16
  {
    "0123456789abcdef"[d]
  }

  /** The quote `repr` puts around `s`: a double quote only when `s` holds a single quote and no double quote. */
  function QuoteFor(s: string): char
  {
    if '\'' in s && '"' !in s then '"' else '\''
  }

  /**
   * One character as `repr` writes it inside `quote`: the quote and the
   * backslash are escaped, tab, newline and carriage return get their short
   * escapes, and the other control characters of Latin-1 (with the
   * no-break space and the soft hyphen) become `\xhh`.
   */
  function EscapeChar(c: char, quote: char): string
  {
    if c == quote || c == '\\' then ['\\', c]
    else if c == '\t' then "\\t"
    else if c == '\n' then "\\n"
    else if c == '\r' then "\\r"
    else if c as int < 32 || 127 <= c as int <= 160 || c as int == 173 then
      "\\x" + [HexDigit(c as int / 16), HexDigit(c as int % 16)]
    else [c]
  }

  function EscapeString(s: string, quote: char): string
  {
    if s == [] then "" else EscapeChar(s[0], quote) + EscapeString(s[1..], quote)
  }

  /** `repr(v)`: as `str(v)` except that a string is quoted and escaped. */
  function Repr(v: Value): string
    decreases v, 1
  {
    match v
    case StrV(s) => [QuoteFor(s)] + EscapeString(s, QuoteFor(s)) + [QuoteFor(s)]
    case ListV(xs) => "[" + JoinComma(seq(|xs|, k requires 0 <= k < |xs| => Repr(xs[k]))) + "]"
    case _ => Show(v)
  }

  /** A printable ASCII character that `repr` leaves alone inside single quotes. */
  predicate PlainChar(c: char)
  {
    32 <= c as int <= 126 && c != '\'' && c != '\\'
  }

  /** A string of plain characters keeps its text and gets single quotes. */
  lemma {:induction false} ReprPlainString(s: string)
    requires forall k :: 0 <= k < |s| ==> PlainChar(s[k])
    ensures Repr(StrV(s)) == "'" + s + "'"
  {
    EscapePlain(s);
  }

  lemma {:induction false} EscapePlain(s: string)
    requires forall k :: 0 <= k < |s| ==> PlainChar(s[k])
    ensures EscapeString(s, '\'') == s
  {
    if s != [] {
      assert PlainChar(s[0]);
      EscapePlain(s[1..]);
      assert s == [s[0]] + s[1..];
    }
  }

  /** A string holding a single quote and no double quote is put in double quotes. */
  lemma ReprDoubleQuoted()
    ensures Repr(StrV("it's")) == "\"it's\""
  {
    var s := "it's";
    assert s[2] == '\'' && QuoteFor(s) == '"';
    assert s[1..][1..][1..][1..] == [];
    assert EscapeString(s[1..][1..][1..], '"') == "s";
    assert EscapeString(s[1..][1..], '"') == "'s";
    assert EscapeString(s[1..], '"') == "t's";
    assert EscapeString(s, '"') == "it's";
  }

  /** A newline and another control character are written as escapes. */
  lemma ReprControlEscapes()
    ensures Repr(StrV("a\nb")) == "'a\\nb'"
    ensures Repr(StrV("\U{1}")) == "'\\x01'"
  {
    var s := "a\nb";
    assert QuoteFor(s) == '\'';
    assert s[1..][1..][1..] == [];
    assert EscapeString(s[1..][1..], '\'') == "b";
    assert EscapeString(s[1..], '\'') == "\\nb";
    assert EscapeString(s, '\'') == "a\\nb";
    var c := "\U{1}";
    assert QuoteFor(c) == '\'';
    assert HexDigit(0) == '0' && HexDigit(1) == '1';
    assert c[1..] == [];
    assert EscapeString(c, '\'') == "\\x01";
  }

  /** A list of Python ints. */
  function IntList(s: seq<int>): (v: Value)
    ensures v.ListV? && |v.items| == |s|
    ensures forall k :: 0 <= k < |s| ==> v.items[k] == IntV(s[k])
  {
    ListV(seq(|s|, k requires 0 <= k < |s| => IntV(s[k])))
  }

  // ---------------------------------------------------------------------------
  // Message templates: `string.Template.safe_substitute`

  /** A character that may start a placeholder name (ASCII letters, either case, and '_'). */
  predicate IsIdStart(c: char)
  {
    c == '_' || 'a' <= c <= 'z' || 'A' <= c <= 'Z'
  }

  predicate IsIdChar(c: char)
  {
    IsIdStart(c) || '0' <= c <= '9'
  }

  /** Length of the longest prefix of s made of placeholder-name characters. */
  function IdSpan(s: string): (n: nat)
    ensures n <= |s|
  {
    if s == [] || !IsIdChar(s[0]) then 0 else 1 + IdSpan(s[1..])
  }

  /** A placeholder name: `[_a-zA-Z][_a-zA-Z0-9]*`. */
  predicate IsIdentifier(k: string)
  {
    |k| > 0 && IsIdStart(k[0]) && forall c :: c in k ==> IsIdChar(c)
  }

  /** t starts with `${name}`. */
  predicate BracedAt(t: string)
  {
    |t| > 2 && t[0] == '$' && t[1] == '{' && IsIdStart(t[2]) &&
    2 + IdSpan(t[2..]) < |t| && t[2 + IdSpan(t[2..])] == '}'
  }

  /** One piece of a template as the scanner reads it: text to copy out, or a placeholder. */
  datatype Token =
    | Chars(text: string)
    | Name(key: string, verbatim: string)

  /**
   * The first piece of a non-empty template and the number of characters it spans:
   * `$$` is an escaped `$`; `$name` and `${name}` are placeholders (kept verbatim when
   * not supplied); any other `$`, and any other character, is copied as it is.
   */
  function NextToken(t: string): (r: (Token, nat))
    requires t != []
    ensures 1 <= r.1 <= |t|
  {
    if t[0] != '$' then (Chars([t[0]]), 1)
    else if |t| > 1 && t[1] == '$' then (Chars("$"), 2)
    else if |t| > 1 && IsIdStart(t[1]) then
      var n := IdSpan(t[1..]);
      (Name(t[1..1 + n], t[..1 + n]), 1 + n)
    else if BracedAt(t) then
      var n := IdSpan(t[2..]);
      (Name(t[2..2 + n], t[..3 + n]), 3 + n)
    else (Chars("$"), 1)
  }

  /** The text a matched placeholder becomes: its value when supplied, else the match verbatim. */
  function Substitute(key: string, verbatim: string, m: map<string, string>): string
  {
    if key in m then m[key] else verbatim
  }

  /** What a piece contributes to the message. */
  function Emit(tok: Token, m: map<string, string>): string
  {
    match tok
    case Chars(s) => s
    case Name(k, v) => Substitute(k, v, m)
  }

  /**
   * `Template(t).safe_substitute(m)`: the template read left to right, piece by piece.
   * Substituted text is not rescanned.
   */
  function Render(t: string, m: map<string, string>): string
    decreases |t|, |m|  // naming m keeps a literal template from being unfolded on its own
  {
    if t == [] then ""
    else Emit(NextToken(t).0, m) + Render(t[NextToken(t).1..], m)
  }

  /** The name a piece looks up, if any. */
  function Keys(tok: Token): set<string>
  {
    if tok.Name? then {tok.key} else {}
  }

  /** The names of the placeholders `$name` and `${name}` that Render looks up in t. */
  function Placeholders(t: string): set<string>
    decreases |t|
  {
    if t == [] then {}
    else Keys(NextToken(t).0) + Placeholders(t[NextToken(t).1..])
  }

  /** Splitting the first character off a concatenation. */
  lemma ConsAppend(p: string, t: string, r: string)
    requires p != []
    ensures (p + t)[0] == p[0] && (p + t)[1..] == p[1..] + t
    ensures [p[0]] + (p[1..] + r) == p + r
  {
    assert [p[0]] + (p[1..] + r) == ([p[0]] + p[1..]) + r;
    assert [p[0]] + p[1..] == p;
  }

  lemma NoDollarTail(p: string)
    requires '$' !in p && p != []
    ensures p[0] != '$' && '$' !in p[1..]
  {
    assert p[0] in p;
    assert forall c :: c in p[1..] ==> c in p;
  }

  /** Literal text before a template is copied, and the rest renders on its own. */
  lemma {:induction false} RenderLiteralPrefix(p: string, t: string, m: map<string, string>)
    requires '$' !in p
    ensures Render(p + t, m) == p + Render(t, m)
  {
    if p == [] {
      assert p + t == t;
    } else {
      ConsAppend(p, t, Render(t, m));
      NoDollarTail(p);
      RenderLiteralPrefix(p[1..], t, m);
    }
  }

  /** Text without a `$` passes through rendering unchanged, whatever is supplied. */
  lemma RenderWithoutDollar(t: string, m: map<string, string>)
    requires '$' !in t
    ensures Render(t, m) == t
  {
    RenderLiteralPrefix(t, "", m);
    assert t + "" == t;
  }

  lemma {:induction false} IdSpanOfName(k: string, rest: string)
    requires forall j :: 0 <= j < |k| ==> IsIdChar(k[j])
    requires rest != [] && !IsIdChar(rest[0])
    ensures IdSpan(k + rest) == |k|
    decreases |k|
  {
    if k == [] {
      assert k + rest == rest;
    } else {
      assert (k + rest)[0] == k[0];
      assert (k + rest)[1..] == k[1..] + rest;
      IdSpanOfName(k[1..], rest);
    }
  }

  /** The text of a `${name}` placeholder. */
  function Placeholder(k: string): string
  {
    "${" + k + "}"
  }

  /**
   * A `${name}` placeholder becomes the supplied text for name, or stays verbatim
   * when name is not supplied; the text after it renders on its own.
   */
  lemma RenderPlaceholder(k: string, t: string, m: map<string, string>)
    requires IsIdentifier(k)
    ensures Render(Placeholder(k) + t, m) == Substitute(k, Placeholder(k), m) + Render(t, m)
  {
    var s := Placeholder(k) + t;
    assert s[2..] == k + ("}" + t);
    assert forall j :: 0 <= j < |k| ==> IsIdChar(k[j]) by {
      forall j | 0 <= j < |k| ensures IsIdChar(k[j]) { assert k[j] in k; }
    }
    IdSpanOfName(k, "}" + t);
    assert BracedAt(s);
    assert s[2..2 + |k|] == k;
    assert s[..3 + |k|] == Placeholder(k);
    assert s[3 + |k|..] == t;
  }

  /** `$$` renders as a single `$`. */
  lemma RenderEscapedDollar(t: string, m: map<string, string>)
    ensures Render("$$" + t, m) == "$" + Render(t, m)
  {
    assert ("$$" + t)[2..] == t;
  }

  /** m1 and m2 supply the same names among ks, with the same text. */
  predicate AgreeOn(ks: set<string>, m1: map<string, string>, m2: map<string, string>)
  {
    forall k :: k in ks ==> (k in m1 <==> k in m2) && (k in m1 ==> m1[k] == m2[k])
  }

  /** Rendering depends only on what is supplied for the names the template mentions. */
  lemma {:induction false} RenderDependsOnPlaceholders(t: string, m1: map<string, string>, m2: map<string, string>)
    requires AgreeOn(Placeholders(t), m1, m2)
    ensures Render(t, m1) == Render(t, m2)
    decreases |t|
  {
    if t != [] {
      var tok, n := NextToken(t).0, NextToken(t).1;
      assert Emit(tok, m1) == Emit(tok, m2) by {
        if tok.Name? {
          assert tok.key in Placeholders(t);
        }
      }
      assert AgreeOn(Placeholders(t[n..]), m1, m2);
      RenderDependsOnPlaceholders(t[n..], m1, m2);
    }
  }

  /** Supplying extra names that the template never mentions does not change the message. */
  lemma RenderIgnoresUnusedKeys(t: string, m: map<string, string>, extra: map<string, string>)
    requires extra.Keys !! Placeholders(t)
    ensures Render(t, m + extra) == Render(t, m)
  {
    assert AgreeOn(Placeholders(t), m + extra, m);
    RenderDependsOnPlaceholders(t, m + extra, m);
  }

  /** No `$$` escape anywhere in t. */
  predicate NoEscapedDollar(t: string)
  {
    forall j :: 0 <= j < |t| - 1 ==> !(t[j] == '$' && t[j + 1] == '$')
  }

  lemma NoEscapedDollarSuffix(t: string, i: nat)
    requires NoEscapedDollar(t) && i <= |t|
    ensures NoEscapedDollar(t[i..])
  {
    forall j | 0 <= j < |t[i..]| - 1
      ensures !(t[i..][j] == '$' && t[i..][j + 1] == '$')
    {
      assert t[i..][j] == t[i + j] && t[i..][j + 1] == t[i + j + 1];
    }
  }

  lemma TakeDrop(t: string, n: nat)
    requires n <= |t|
    ensures t[..n] + t[n..] == t
  {
  }

  /** Apart from `$$`, a piece read with nothing supplied is exactly the text it spans. */
  lemma TokenVerbatim(t: string)
    requires t != [] && !(|t| > 1 && t[0] == '$' && t[1] == '$')
    ensures Emit(NextToken(t).0, map[]) == t[..NextToken(t).1]
  {
  }

  /**
   * Rendering is safe: with nothing supplied, a template without `$$` comes back
   * unchanged, every placeholder left verbatim.
   */
  lemma {:induction false} RenderNothingSupplied(t: string)
    requires NoEscapedDollar(t)
    ensures Render(t, map[]) == t
    decreases |t|
  {
    if t != [] {
      var n := NextToken(t).1;
      TokenVerbatim(t);
      NoEscapedDollarSuffix(t, n);
      RenderNothingSupplied(t[n..]);
      TakeDrop(t, n);
    }
  }

  /** The keywords the validators pass to `transform`, one per placeholder of their templates. */
  datatype Key =
    | ArgName | ArgValue | FnSymbol | To
    | MinFnSymbol | MinValue | MaxFnSymbol | MaxValue
    | ValueSet | DepArgName | DepArgValue
  {
    function Name(): string
    {
      match this
      case ArgName => "arg_name"
      case ArgValue => "arg_value"
      case FnSymbol => "fn_symbol"
      case To => "to"
      case MinFnSymbol => "min_fn_symbol"
      case MinValue => "min_value"
      case MaxFnSymbol => "max_fn_symbol"
      case MaxValue => "max_value"
      case ValueSet => "value_set"
      case DepArgName => "dep_arg_name"
      case DepArgValue => "dep_arg_value"
    }
  }

  /** Every keyword is a placeholder name, so `${keyword}` is a placeholder. */
  lemma KeyNameIsIdentifier(k: Key)
    ensures IsIdentifier(k.Name())
  {
  }

  /**
   * A template laid out piece by piece, literal text and `${keyword}` fields, so that
   * its rendering can be read off field by field.
   */
  datatype Layout =
    | Last(s: string)
    | Text(s: string, next: Layout)
    | Field(key: Key, next: Layout)
  {
    /** The template text. */
    function Source(): string
    {
      match this
      case Last(s) => s
      case Text(s, next) => s + next.Source()
      case Field(k, next) => Placeholder(k.Name()) + next.Source()
    }

    /** What the template reads as once m is supplied: fields filled in, or left verbatim. */
    function Filled(m: map<string, string>): string
      decreases this
    {
      match this
      case Last(s) => s
      case Text(s, next) => s + next.Filled(m)
      case Field(k, next) => Substitute(k.Name(), Placeholder(k.Name()), m) + next.Filled(m)
    }

    /** No literal text holds a `$`. */
    predicate WellFormed()
    {
      match this
      case Last(s) => '$' !in s
      case Text(s, next) => '$' !in s && next.WellFormed()
      case Field(_, next) => next.WellFormed()
    }
  }

  /** A template laid out from dollar-free text and keywords renders field by field. */
  lemma {:induction false} RenderLayout(l: Layout, m: map<string, string>)
    requires l.WellFormed()
    ensures Render(l.Source(), m) == l.Filled(m)
  {
    match l
    case Last(s) =>
      RenderWithoutDollar(s, m);
    case Text(s, next) =>
      RenderLayout(next, m);
      RenderLiteralPrefix(s, next.Source(), m);
    case Field(k, next) =>
      RenderLayout(next, m);
      KeyNameIsIdentifier(k);
      RenderPlaceholder(k.Name(), next.Source(), m);
  }

  // ---------------------------------------------------------------------------
  // The operator symbol table

  /** OPERATOR_SYMBOLS: operator name to display symbol; the isclose entry is stored mis-encoded. */
  const OPERATOR_SYMBOLS: map<string, string> := map[
    "eq" := "==",
    "ge" := ">=",
    "gt" := ">",
    "le" := "<=",
    "lt" := "<",
    "ne" := "!=",
    "isclose" := "\U{00E2}\U{2030}\U{02C6}"
  ]

  /** `OPERATOR_SYMBOLS[fn.__name__]`, entry by entry (SymbolIsTableEntry). */
  function Symbol(fn: CmpOp): string
  {
    match fn
    case Eq => "=="
    case Ne => "!="
    case Gt => ">"
    case Ge => ">="
    case Lt => "<"
    case Le => "<="
  }

  /** Each operator's symbol is the table's entry for its name. */
  lemma SymbolIsTableEntry(fn: CmpOp)
    ensures OpName(fn) in OPERATOR_SYMBOLS && Symbol(fn) == OPERATOR_SYMBOLS[OpName(fn)]
  {
  }

  /** The table's entries, and no two names share a symbol. */
  lemma SymbolTable()
    ensures OPERATOR_SYMBOLS["eq"] == "==" && OPERATOR_SYMBOLS["ne"] == "!=" && OPERATOR_SYMBOLS["gt"] == ">"
    ensures OPERATOR_SYMBOLS["ge"] == ">=" && OPERATOR_SYMBOLS["lt"] == "<" && OPERATOR_SYMBOLS["le"] == "<="
    ensures OPERATOR_SYMBOLS["isclose"] == "\U{00E2}\U{2030}\U{02C6}"
    ensures OPERATOR_SYMBOLS.Keys == {"eq", "ne", "gt", "ge", "lt", "le", "isclose"}
    ensures forall a, b :: a in OPERATOR_SYMBOLS && b in OPERATOR_SYMBOLS && a != b ==>
              OPERATOR_SYMBOLS[a] != OPERATOR_SYMBOLS[b]
  {
    var keys := OPERATOR_SYMBOLS.Keys;
    assert keys == {"eq", "ne", "gt", "ge", "lt", "le", "isclose"};
  }

  // ---------------------------------------------------------------------------
  // Errors and the outcome of one validator call

  datatype Error =
    | ValidationError(msg: string)
    | ValueError(msg: string)
    | TypeError(msg: string)

  /** A call either returns normally or raises. */
  datatype Outcome = Pass | Fail(error: Error)

  /** The TypeError of `transform(arg_name=..., **extra_msg_args)` when extra_msg_args repeats a keyword. */
  const DUPLICATE_KEYWORD_MSG := "ErrorMsg.transform() got multiple values for keyword argument"

  /**
   * The error a new-style validator raises: `ErrorMsg(template).transform(**fixed, **extra)`,
   * which is a TypeError when extra_msg_args repeats one of the validator's own keywords.
   */
  function RenderedError(template: string, fixed: map<string, string>, extra: map<string, string>): Error
  {
    if fixed.Keys !! extra.Keys then ValidationError(Render(template, fixed + extra))
    else TypeError(DUPLICATE_KEYWORD_MSG)
  }

  /** With no extra keywords the error is a ValidationError carrying the template rendered with the validator's own. */
  lemma RenderedErrorWithoutExtra(template: string, fixed: map<string, string>)
    ensures RenderedError(template, fixed, map[]) == ValidationError(Render(template, fixed))
  {
    assert fixed + map[] == fixed;
  }

  /** A computation that returns a value or raises. */
  datatype Result<T> = Ok(value: T) | Err(error: Error)

  // ---------------------------------------------------------------------------
  // len(), iteration and `in` on values

  /** `len(v)`: strings and lists have a length; anything else raises TypeError. */
  function Len(v: Value): (r: Result<nat>)
    ensures r.Ok? <==> v.StrV? || v.ListV?
    ensures v.StrV? ==> r == Ok(|v.s|)
    ensures v.ListV? ==> r == Ok(|v.items|)
  {
    match v
    case StrV(s) => Ok(|s|)
    case ListV(xs) => Ok(|xs|)
    case _ => Err(TypeError("object of type '" + TypeName(v) + "' has no len()"))
  }

  /** The one-character strings a string iterates over. */
  function CharValues(s: string): (r: seq<Value>)
    ensures |r| == |s| && forall k :: 0 <= k < |s| ==> r[k] == StrV([s[k]])
  {
    seq(|s|, k requires 0 <= k < |s| => StrV([s[k]]))
  }

  /** `for x in v`: a list yields its items, a string its characters; anything else raises TypeError. */
  function Elements(v: Value): Result<seq<Value>>
  {
    match v
    case ListV(xs) => Ok(xs)
    case StrV(s) => Ok(CharValues(s))
    case _ => Err(TypeError("'" + TypeName(v) + "' object is not iterable"))
  }

  /** What has a length can be iterated over, and yields that many elements. */
  lemma LenElements(v: Value)
    ensures Len(v).Ok? <==> Elements(v).Ok?
    ensures Len(v).Ok? ==> |Elements(v).value| == Len(v).value
  {
  }

  /** `x in xs` on a list: some item equals x. */
  function ListContains(xs: seq<Value>, x: Value): (r: bool)
    ensures r <==> exists k :: 0 <= k < |xs| && Equal(xs[k], x)
  {
    if xs == [] then false
    else Equal(xs[0], x) || ListContains(xs[1..], x)
  }

  /** `sub in s` on strings: sub is a prefix of s or of one of its suffixes. */
  predicate Occurs(sub: string, s: string)
    decreases |s|
  {
    if |sub| > |s| then false
    else sub == s[..|sub|] || (s != [] && Occurs(sub, s[1..]))
  }

  /**
   * `operator.contains(container, x)`: membership in a list, a substring test in a
   * string; a string container refuses a non-string, and other values are not containers.
   */
  function Contains(container: Value, x: Value): Result<bool>
  {
    match container
    case ListV(xs) => Ok(ListContains(xs, x))
    case StrV(s) =>
      if x.StrV? then Ok(Occurs(x.s, s))
      else Err(TypeError("'in <string>' requires string as left operand, not " + TypeName(x)))
    case _ => Err(TypeError("argument of type '" + TypeName(container) + "' is not iterable"))
  }

  // ---------------------------------------------------------------------------
  // Applying a check to every element in turn

  /** The outcome of `for x in xs: check(x)`: the first failure, or Pass when every element passes. */
  function FirstFailure<T>(check: T -> Outcome, xs: seq<T>): Outcome
  {
    if xs == [] then Pass
    else if check(xs[0]).Fail? then check(xs[0])
    else FirstFailure(check, xs[1..])
  }

  /** The loop passes exactly when every element passes; in particular an empty sequence passes. */
  lemma {:induction false} FirstFailurePasses<T>(check: T -> Outcome, xs: seq<T>)
    ensures FirstFailure(check, xs).Pass? <==> forall k :: 0 <= k < |xs| ==> check(xs[k]).Pass?
  {
    if xs != [] {
      FirstFailurePasses(check, xs[1..]);
      assert forall k :: 1 <= k < |xs| ==> xs[k] == xs[1..][k - 1];
    }
  }

  /** A failing loop raises the error of the first element that fails. */
  lemma {:induction false} FirstFailureAt<T>(check: T -> Outcome, xs: seq<T>, k: nat)
    requires k < |xs| && check(xs[k]).Fail?
    requires forall j :: 0 <= j < k ==> check(xs[j]).Pass?
    ensures FirstFailure(check, xs) == check(xs[k])
  {
    if k > 0 {
      assert check(xs[0]).Pass?;
      assert forall j :: 0 <= j < k - 1 ==> xs[1..][j] == xs[j + 1];
      FirstFailureAt(check, xs[1..], k - 1);
    }
  }

  /** Once an element fails, the elements after it are never examined. */
  lemma {:induction false} FirstFailureIgnoresRest<T>(check: T -> Outcome, xs: seq<T>, ys: seq<T>)
    requires FirstFailure(check, xs).Fail?
    ensures FirstFailure(check, xs + ys) == FirstFailure(check, xs)
  {
    assert (xs + ys)[0] == xs[0];
    if check(xs[0]).Pass? {
      assert (xs + ys)[1..] == xs[1..] + ys;
      FirstFailureIgnoresRest(check, xs[1..], ys);
    }
  }

  /** `for x in xs: check(x)`, stopping at the first element that raises. */
  method CheckEach<T>(check: T -> Outcome, xs: seq<T>) returns (r: Outcome)
    ensures r == FirstFailure(check, xs)
    ensures r.Fail? ==> exists k :: 0 <= k < |xs| && r == check(xs[k])
  {
    var i := 0;
    while i < |xs|
      invariant 0 <= i <= |xs|
      invariant FirstFailure(check, xs) == FirstFailure(check, xs[i..])
    {
      assert xs[i..][0] == xs[i] && xs[i..][1..] == xs[i + 1..];
      var o := check(xs[i]);
      if o.Fail? {
        return o;
      }
      i := i + 1;
    }
    return Pass;
  }

  // ---------------------------------------------------------------------------
  // The fields every validator stores (Validator.__init__)

  datatype ValidatorBase = ValidatorBase(errMsg: string, extraMsgArgs: map<string, string>)

  /** `err_msg or default`: the message given, unless absent or empty. */
  function EffectiveTemplate(errMsg: Option<string>, defaultErrMsg: string): string
  {
    if errMsg.Some? && errMsg.value != "" then errMsg.value else defaultErrMsg
  }

  /**
   * Validator.__init__: the template is `err_msg` (falling back to the class's
   * DEFAULT_ERROR_MSG, empty for a class without one) and `extra_msg_args or {}`.
   */
  function InitValidator(errMsg: Option<string> := None, extraMsgArgs: Option<map<string, string>> := None,
                         defaultErrMsg: string := ""): (b: ValidatorBase)
    ensures b.errMsg == EffectiveTemplate(errMsg, defaultErrMsg)
    ensures extraMsgArgs.None? ==> b.extraMsgArgs == map[]
    ensures extraMsgArgs.Some? ==> b.extraMsgArgs == extraMsgArgs.value
  {
    ValidatorBase(EffectiveTemplate(errMsg, defaultErrMsg),
                  if extraMsgArgs.Some? then extraMsgArgs.value else map[])
  }

  /** The TypeError Python raises when a subclass passes `default_err_msg` to Validator.__init__. */
  const UNEXPECTED_DEFAULT_ERR_MSG := "Validator.__init__() got an unexpected keyword argument 'default_err_msg'"

  /**
   * Validator.__init__ as declared: keyword-only `err_msg` (default "") and
   * `extra_msg_args`, and no other keyword; passing `default_err_msg`, as every
   * subclass in the package does, raises TypeError.
   */
  function ValidatorInitAsDeclared(errMsg: string := "", extraMsgArgs: Option<map<string, string>> := None,
                                   defaultErrMsg: Option<string> := None): (r: Result<ValidatorBase>)
    ensures r.Err? <==> defaultErrMsg.Some?
    ensures r.Ok? ==> r.value.errMsg == errMsg && (extraMsgArgs.None? ==> r.value.extraMsgArgs == map[])
  {
    if defaultErrMsg.Some? then Err(TypeError(UNEXPECTED_DEFAULT_ERR_MSG))
    else Ok(ValidatorBase(errMsg, if extraMsgArgs.Some? then extraMsgArgs.value else map[]))
  }

  /**
   * As declared, constructing any validator that passes its DEFAULT_ERROR_MSG fails,
   * while the intended initialiser (InitValidator) falls back to that template.
   */
  lemma SubclassInitAsDeclared(errMsg: string, extraMsgArgs: Option<map<string, string>>, defaultErrMsg: string)
    ensures ValidatorInitAsDeclared(errMsg, extraMsgArgs, Some(defaultErrMsg)) == Err(TypeError(UNEXPECTED_DEFAULT_ERR_MSG))
    ensures InitValidator(None, extraMsgArgs, defaultErrMsg).errMsg == defaultErrMsg
  {
  }

  /** With nothing passed, err_msg is "" and extra_msg_args is empty. */
  lemma InitValidatorDefaults()
    ensures InitValidator() == ValidatorBase("", map[])
    ensures InitValidator(None, None) == ValidatorBase("", map[])
  {
  }
}
