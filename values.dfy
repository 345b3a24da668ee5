/** Python values as the modelled code sees them: what `json.loads` produces,
    plus `datetime` instants, together with the conversions the code applies
    to them (`int()`, `float()`, truthiness, `dict.get`). */
module Values {
  import opened Text

  datatype Option<+T> = None | Some(value: T)

  /** A Python object. `Instant` is a `datetime`, counted in microseconds. */
  datatype Value =
    | Null
    | Bool(b: bool)
    | Int(i: int)
    | Float(r: real)
    | Str(s: string)
    | List(items: seq<Value>)
    | Dict(fields: map<string, Value>)
    | Instant(micros: int)

  /** `d.get(key, default)` on a dict. */
  function Get(fields: map<string, Value>, key: string, default: Value): (r: Value)
    ensures key in fields ==> r == fields[key]
    ensures key !in fields ==> r == default
  {
    if key in fields then fields[key] else default
  }

  /** Lists and dicts cannot be dict keys: using one raises `TypeError`. */
  predicate Hashable(v: Value)
  {
    !v.List? && !v.Dict?
  }

  /** `bool(v)` */
  predicate Truthy(v: Value)
  {
    match v
    case Null => false
    case Bool(b) => b
    case Int(i) => i != 0
    case Float(r) => r != 0.0
    case Str(s) => s != ""
    case List(items) => items != []
    case Dict(fields) => fields != map[]
    case Instant(_) => true
  }

  /** Truncation toward zero, as `int(x)` does on a float. */
  function Truncate(r: real): (n: int)
    ensures r >= 0.0 ==> n as real <= r < n as real + 1.0
    ensures r < 0.0 ==> n as real - 1.0 < r <= n as real
  {
    if r >= 0.0 then r.Floor else -((-r).Floor)
  }

  predicate IsDigit(c: char) { '0' <= c <= '9' }

  /** Decimal digits with single underscores between them, as `int()` accepts. */
  predicate WellFormedDigits(s: string)
  {
    && s != []
    && IsDigit(s[0]) && IsDigit(s[|s| - 1])
    && (forall i :: 0 <= i < |s| ==> IsDigit(s[i]) || s[i] == '_')
    && (forall i :: 0 <= i < |s| - 1 ==> !(s[i] == '_' && s[i + 1] == '_'))
  }

  /** The number the digits of `s` spell, underscores ignored. */
  function DigitsValue(s: string): nat
  {
    if s == [] then 0
    else
      var last := s[|s| - 1];
      if IsDigit(last) then 10 * DigitsValue(s[..|s| - 1]) + (last as int - '0' as int)
      else DigitsValue(s[..|s| - 1])
  }

  /** The number of digits `s` holds, underscores not counted. */
  function DigitCount(s: string): nat
  {
    if s == [] then 0
    else DigitCount(s[..|s| - 1]) + (if IsDigit(s[|s| - 1]) then 1 else 0)
  }

  /** `sys.get_int_max_str_digits()`: `int()` refuses a string with more
      digits than this. */
  const MAX_STR_DIGITS := 4300

  /** `str(n)` for a natural number: its decimal digits, most significant
      first. */
  function DecimalString(n: nat): (r: string)
    ensures r != [] && forall i :: 0 <= i < |r| ==> IsDigit(r[i])
  {
    if n < 10 then [('0' as int + n) as char]
    else DecimalString(n / 10) + [('0' as int + n % 10) as char]
  }

  /** `str(i)` for an integer. */
  function IntString(i: int): string
  {
    if i < 0 then "-" + DecimalString(-i) else DecimalString(i)
  }

  lemma {:induction false} DecimalStringValue(n: nat)
    ensures DigitsValue(DecimalString(n)) == n
  {
    var s := DecimalString(n);
    if n >= 10 {
      assert s[..|s| - 1] == DecimalString(n / 10);
      DecimalStringValue(n / 10);
    } else {
      assert s[..|s| - 1] == [];
    }
  }

  /** In a string of digits alone every character counts. */
  lemma {:induction false} DigitCountAllDigits(s: string)
    requires forall i :: 0 <= i < |s| ==> IsDigit(s[i])
    ensures DigitCount(s) == |s|
  {
    if s != [] {
      DigitCountAllDigits(s[..|s| - 1]);
    }
  }

  /** `int(str(n)) == n` for every `n` of at most 4300 digits: the decimal
      form reads back as the same number. */
  lemma ParseDecimalString(n: nat)
    requires |DecimalString(n)| <= MAX_STR_DIGITS
    ensures ParseInt(DecimalString(n)) == Some(n)
  {
    var s := DecimalString(n);
    assert IsDigit(s[0]) && IsDigit(s[|s| - 1]);
    IntStripNoEdges(s);
    assert WellFormedDigits(s);
    DigitCountAllDigits(s);
    DecimalStringValue(n);
  }

  /** A number of more than 4300 digits does not read back: `int()` raises. */
  lemma TooManyDigits(n: nat)
    requires |DecimalString(n)| > MAX_STR_DIGITS
    ensures ParseInt(DecimalString(n)) == None
  {
    var s := DecimalString(n);
    assert IsDigit(s[0]) && IsDigit(s[|s| - 1]);
    IntStripNoEdges(s);
    DigitCountAllDigits(s);
  }

  /** Underscores between digit groups are skipped: `int("1_000") == 1000`. */
  lemma UnderscoresAreSkipped()
    ensures ParseInt("1_000") == Some(1000)
  {
    var s := "1_000";
    assert IsDigit(s[0]) && IsDigit(s[|s| - 1]);
    IntStripNoEdges(s);
    assert WellFormedDigits(s);
    assert s[..4] == "1_00" && "1_00"[..3] == "1_0" && "1_0"[..2] == "1_" && "1_"[..1] == "1";
    assert DigitsValue("1_") == 1;
    assert DigitCount("1_") == 1;
  }

  /** An ASCII separator is not white space to `int()`: `int("\x1c5")`
      raises. */
  lemma SeparatorIsNotSpace()
    ensures ParseInt("\U{1C}5") == None
  {
    var s := "\U{1C}5";
    assert s[0] == '\U{1C}' && s[|s| - 1] == '5';
    IntStripNoEdges(s);
    assert !IsDigit(s[0]);
  }

  /** Non-ASCII white space is skipped: `int("\xa05") == 5`. */
  lemma NoBreakSpaceIsStripped()
    ensures ParseInt("\U{A0}5") == Some(5)
  {
    var s := "\U{A0}5";
    assert IntTrimStart(s) == s[1..] == "5";
    assert IntTrimEnd("5") == "5";
    assert WellFormedDigits("5");
    assert DigitsValue("5") == 5;
  }

  /** Distinct numbers have distinct decimal forms. */
  lemma DecimalStringInjective(a: nat, b: nat)
    requires DecimalString(a) == DecimalString(b)
    ensures a == b
  {
    DecimalStringValue(a);
    DecimalStringValue(b);
  }

  /** The white space `int()` skips around its digits. It turns every
      non-ASCII `str.isspace()` character into a space and then skips ASCII
      white space only, so of the characters `str.strip()` drops it refuses
      the four ASCII separators U+001C..U+001F. */
  predicate IsIntSpace(c: char)
  {
    IsSpace(c) && !('\U{1C}' <= c <= '\U{1F}')
  }

  /** Drops the leading white space `int()` skips. */
  function IntTrimStart(s: string): (r: string)
    ensures |r| <= |s| && r == s[|s| - |r|..]
    ensures r == [] || !IsIntSpace(r[0])
  {
    if s != [] && IsIntSpace(s[0]) then IntTrimStart(s[1..]) else s
  }

  /** Drops the trailing white space `int()` skips. */
  function IntTrimEnd(s: string): (r: string)
    ensures |r| <= |s| && r == s[..|r|]
    ensures r == [] || !IsIntSpace(r[|r| - 1])
  {
    if s != [] && IsIntSpace(s[|s| - 1]) then IntTrimEnd(s[..|s| - 1]) else s
  }

  /** The text `int()` reads its sign and digits from. */
  function IntStrip(s: string): string
  {
    IntTrimEnd(IntTrimStart(s))
  }

  /** A text that neither starts nor ends with white space is read as is. */
  lemma IntStripNoEdges(s: string)
    requires s == [] || (!IsIntSpace(s[0]) && !IsIntSpace(s[|s| - 1]))
    ensures IntStrip(s) == s
  {
  }

  /** `int(s)` for a string: optional white space around an optionally signed
      run of decimal digits with single underscores between them, of at most
      4300 digits. */
  function ParseInt(s: string): (r: Option<int>)
    ensures r.Some? ==> IntStrip(s) != ""
    ensures r.Some? && r.value < 0 ==> IntStrip(s)[0] == '-'
  {
    var t := IntStrip(s);
    if t == [] then None
    else
      var neg := t[0] == '-';
      var body := if t[0] == '-' || t[0] == '+' then t[1..] else t;
      if WellFormedDigits(body) && DigitCount(body) <= MAX_STR_DIGITS then
        var n: int := DigitsValue(body);
        Some(if neg then -n else n)
      else None
  }

  /** `int(v)`; `None` where Python raises. */
  function IntOf(v: Value): (r: Option<int>)
    ensures v.Null? || v.List? || v.Dict? || v.Instant? ==> r.None?
    ensures v.Int? ==> r == Some(v.i)
    ensures v.Bool? ==> r == Some(if v.b then 1 else 0)
    ensures v.Float? ==> r.Some? && (r.value as real - v.r) * (r.value as real - v.r) < 1.0
                         && (v.r >= 0.0 ==> r.value >= 0) && (v.r <= 0.0 ==> r.value <= 0)
  {
    match v
    case Int(i) => Some(i)
    case Bool(b) => Some(if b then 1 else 0)
    case Float(r) => Some(Truncate(r))
    case Str(s) => ParseInt(s)
    case _ => None
  }

  /** The representative of `v` under Python's `==` on dict keys, where
      `True == 1 == 1.0` and `False == 0 == 0.0`: booleans and integral
      floats become integers. */
  function PyKey(v: Value): (k: Value)
    ensures !k.Bool?
    ensures k.Float? ==> k.r != k.r.Floor as real
    ensures Hashable(k) == Hashable(v)
    ensures v.Str? || v.Int? || v.Null? ==> k == v
  {
    match v
    case Bool(b) => Int(if b then 1 else 0)
    case Float(r) => if r == r.Floor as real then Int(r.Floor) else v
    case _ => v
  }

  /** The text `json.dump` writes for a dict key: `None` for a value it
      cannot use as a key. A float key is written by `float.__repr__`,
      passed in as `floatRepr`. */
  function JsonKey(v: Value, floatRepr: real -> string): (r: Option<string>)
    ensures r.None? <==> v.List? || v.Dict? || v.Instant?
    ensures v.Str? ==> r == Some(v.s)
  {
    match v
    case Null => Some("null")
    case Bool(b) => Some(if b then "true" else "false")
    case Int(i) => Some(IntString(i))
    case Float(r) => Some(floatRepr(r))
    case Str(s) => Some(s)
    case _ => None
  }

  /** `float(v)`; `None` where Python raises. Parsing a float out of a
      string is a library routine and is passed in. */
  function FloatOf(v: Value, parseFloat: string -> Option<real>): Option<real>
  {
    match v
    case Int(i) => Some(i as real)
    case Bool(b) => Some(if b then 1.0 else 0.0)
    case Float(r) => Some(r)
    case Str(s) => parseFloat(s)
    case _ => None
  }
}
