/**
  The Python values that decoding a JSON body yields, and the few built-in
  operations the bot applies to them: truthiness (`if not x`), `dict.get`,
  `type(x)`, `str(x)` and `int(x)`.
 */
module PyValue {
  import opened Errors

  /**
    A decoded JSON value. A dict keeps its members in insertion order (its
    `str()` depends on that order); a decoded dict never holds a key twice.
    Floats are not modelled.
   */
  datatype Value =
    | PyNone
    | PyBool(b: bool)
    | PyInt(i: int)
    | PyStr(s: string)
    | PyList(items: seq<Value>)
    | PyDict(members: seq<(string, Value)>)

  /** Python's truth value: `None`, `False`, `0` and empty containers are false. */
  predicate Truthy(v: Value) {
    match v
    case PyNone => false
    case PyBool(b) => b
    case PyInt(i) => i != 0
    case PyStr(s) => s != ""
    case PyList(items) => items != []
    case PyDict(members) => members != []
  }

  /** Whether the value can be a dict key (`x in d` raises TypeError otherwise). */
  predicate Hashable(v: Value) {
    !v.PyList? && !v.PyDict?
  }

  /** The name of `type(v)`. */
  function TypeName(v: Value): string {
    match v
    case PyNone => "NoneType"
    case PyBool(_) => "bool"
    case PyInt(_) => "int"
    case PyStr(_) => "str"
    case PyList(_) => "list"
    case PyDict(_) => "dict"
  }

  /** The value stored under `key`, if any. */
  function Lookup(members: seq<(string, Value)>, key: string): (r: Option<Value>)
    ensures r.None? <==> forall k :: 0 <= k < |members| ==> members[k].0 != key
    ensures r.Some? ==> exists k :: 0 <= k < |members| && members[k] == (key, r.value)
  {
    if members == [] then None
    else if members[0].0 == key then Some(members[0].1)
    else Lookup(members[1..], key)
  }

  /** `key in d`. */
  predicate HasKey(members: seq<(string, Value)>, key: string) {
    Lookup(members, key).Some?
  }

  /** `d.get(key)`: the stored value, or None when the key is absent. */
  function Get(members: seq<(string, Value)>, key: string): Value {
    match Lookup(members, key)
    case Some(v) => v
    case None => PyNone
  }

  // ---------------------------------------------------------------------------
  // str() and repr()

  predicate IsDigit(c: char) {
    '0' <= c <= '9'
  }

  function DigitChar(d: nat): (c: char)
    requires d < 10
    ensures IsDigit(c) && c as int - '0' as int == d
  {
    ('0' as int + d) as char
  }

  /** The decimal digits of a natural number, without leading zeros. */
  function NatDecimal(n: nat): (s: string)
    ensures |s| > 0
    ensures forall k :: 0 <= k < |s| ==> IsDigit(s[k])
  {
    if n < 10 then [DigitChar(n)] else NatDecimal(n / 10) + [DigitChar(n % 10)]
  }

  /** `str(i)` for an int. */
  function Decimal(i: int): string {
    if i < 0 then "-" + NatDecimal(-i) else NatDecimal(i)
  }

  /** `s1 + ", " + s2 + ...`, that is `sep.join(parts)`. */
  function Join(sep: string, parts: seq<string>): string {
    if parts == [] then ""
    else if |parts| == 1 then parts[0]
    else parts[0] + sep + Join(sep, parts[1..])
  }

  /** `repr(v)`; a string is put between single quotes, without escaping. */
  function Repr(v: Value): string {
    match v
    case PyNone => "None"
    case PyBool(b) => if b then "True" else "False"
    case PyInt(i) => Decimal(i)
    case PyStr(s) => "'" + s + "'"
    case PyList(items) =>
      "[" + Join(", ", seq(|items|, k requires 0 <= k < |items| => Repr(items[k]))) + "]"
    case PyDict(members) =>
      "{" + Join(", ", seq(|members|, k requires 0 <= k < |members| =>
                             "'" + members[k].0 + "': " + Repr(members[k].1))) + "}"
  }

  /** `str(v)`, which is what an f-string interpolates. */
  function Display(v: Value): string {
    if v.PyStr? then v.s else Repr(v)
  }

  // ---------------------------------------------------------------------------
  // int()

  /**
    The padding `int()` of a string ignores at both ends: the C-locale white
    space among ASCII characters (tab, line feed, vertical tab, form feed,
    carriage return, space), and every non-ASCII character `str.isspace`
    accepts, which CPython turns into a space before it reads the digits.
    The ASCII separators U+001C to U+001F pass `str.isspace` but are not
    padding here.
   */
  predicate IsSpace(c: char) {
    || '\t' <= c <= '\r' || c == ' '
    || c == '\U{85}' || c == '\U{a0}' || c == '\U{1680}' || '\U{2000}' <= c <= '\U{200a}'
    || c == '\U{2028}' || c == '\U{2029}' || c == '\U{202f}' || c == '\U{205f}' || c == '\U{3000}'
  }

  function TrimStart(s: string): (t: string)
  {
    if s != [] && IsSpace(s[0]) then TrimStart(s[1..]) else s
  }

  function TrimEnd(s: string): (t: string)
  {
    if s != [] && IsSpace(s[|s| - 1]) then TrimEnd(s[..|s| - 1]) else s
  }

  function Strip(s: string): string {
    TrimEnd(TrimStart(s))
  }

  /**
    The digits of a base-10 literal: digits with single underscores between
    them (`1_000`), no underscore first or last.
   */
  predicate DigitGroups(s: string) {
    && s != []
    && IsDigit(s[0]) && IsDigit(s[|s| - 1])
    && (forall k :: 0 <= k < |s| ==> IsDigit(s[k]) || s[k] == '_')
    && (forall k :: 0 < k < |s| ==> s[k - 1] == '_' ==> s[k] != '_')
  }

  /** The number the digits of `s` spell, skipping underscores. */
  function DigitsValue(s: string): nat
    requires forall k :: 0 <= k < |s| ==> IsDigit(s[k]) || s[k] == '_'
  {
    if s == [] then 0
    else
      var init := s[..|s| - 1];
      var c := s[|s| - 1];
      if c == '_' then DigitsValue(init) else DigitsValue(init) * 10 + DigitOf(c)
  }

  function DigitOf(c: char): (d: nat)
    requires IsDigit(c)
    ensures d < 10
  {
    c as int - '0' as int
  }

  /** The integer `int(s)` gives for a string, or None when it raises ValueError. */
  function ParseIntLiteral(s: string): Option<int> {
    var t := Strip(s);
    if t != [] && (t[0] == '+' || t[0] == '-') then
      var digits := t[1..];
      if DigitGroups(digits) then
        var n: int := DigitsValue(digits);
        Some(if t[0] == '-' then -n else n)
      else None
    else if DigitGroups(t) then Some(DigitsValue(t))
    else None
  }

  /** `int(v)` of a decoded value, with the text of the exception it raises. */
  function IntOf(v: Value): (r: Result<int>)
    ensures r.Ok? <==> !v.PyNone? && !v.PyList? && !v.PyDict? && (v.PyStr? ==> ParseIntLiteral(v.s).Some?)
    ensures r.Err? ==> r.error.kind == (if v.PyStr? then ValueError else TypeError)
    ensures v.PyInt? ==> r == Ok(v.i)
  {
    match v
    case PyBool(b) => Ok(if b then 1 else 0)
    case PyInt(i) => Ok(i)
    case PyStr(s) =>
      (match ParseIntLiteral(s)
       case Some(n) => Ok(n)
       case None => Err(Error(ValueError, "invalid literal for int() with base 10: " + Repr(v))))
    case PyNone => Err(NotConvertible(v))
    case PyList(_) => Err(NotConvertible(v))
    case PyDict(_) => Err(NotConvertible(v))
  }

  /** The TypeError `int()` raises for a value that is neither a number nor a string. */
  function NotConvertible(v: Value): Error {
    Error(TypeError, "int() argument must be a string, a bytes-like object or a real number, not '"
                     + TypeName(v) + "'")
  }

  // ---------------------------------------------------------------------------
  // str() and int() are inverse on integers

  lemma {:induction false} DigitsValueOfDecimal(n: nat)
    ensures DigitsValue(NatDecimal(n)) == n
  {
    var s := NatDecimal(n);
    if n >= 10 {
      DigitsValueOfDecimal(n / 10);
      assert s[..|s| - 1] == NatDecimal(n / 10);
    }
  }

  lemma StripUnpadded(s: string)
    requires s != [] && !IsSpace(s[0]) && !IsSpace(s[|s| - 1])
    ensures Strip(s) == s
  {
  }

  lemma ParseNatDecimal(n: nat)
    ensures ParseIntLiteral(NatDecimal(n)) == Some(n)
  {
    var s := NatDecimal(n);
    DigitsValueOfDecimal(n);
    assert DigitGroups(s);
    StripUnpadded(s);
  }

  lemma ParseNegativeDecimal(n: nat)
    requires n > 0
    ensures ParseIntLiteral("-" + NatDecimal(n)) == Some(-(n as int))
  {
    var digits := NatDecimal(n);
    var s := "-" + digits;
    DigitsValueOfDecimal(n);
    assert DigitGroups(digits);
    assert s[|s| - 1] == digits[|digits| - 1];
    StripUnpadded(s);
    assert s[1..] == digits;
  }

  lemma ParseDecimal(i: int)
    ensures ParseIntLiteral(Decimal(i)) == Some(i)
  {
    if i < 0 {
      ParseNegativeDecimal(-i);
    } else {
      ParseNatDecimal(i);
    }
  }

  /** `int(" 5")` is 5, but `int("\x1c5")` raises ValueError: U+001C is not padding. */
  lemma SeparatorIsNotPadding()
    ensures IntOf(PyStr(" 5")) == Ok(5)
    ensures IntOf(PyStr("\U{1c}5")).Err? && IntOf(PyStr("\U{1c}5")).error.kind == ValueError
  {
    assert TrimStart(" 5") == TrimStart("5") == "5";
    assert TrimEnd("5") == "5";
    assert DigitsValue("5") == 5;
    assert TrimStart("\U{1c}5") == "\U{1c}5";
    assert !DigitGroups(Strip("\U{1c}5"));
  }

  /** `int(str(i)) == i`: a decimal rendered by Python reads back as the same int. */
  lemma IntOfDisplay(i: int)
    ensures IntOf(PyStr(Display(PyInt(i)))) == Ok(i)
  {
    ParseDecimal(i);
    assert Repr(PyInt(i)) == Decimal(i);
  }
}
