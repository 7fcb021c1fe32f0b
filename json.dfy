/**
 * Scalar JSON values as the service sees them after `request.get_json()` or
 * `resp.json()`, together with the three pieces of Python semantics that the
 * handlers lean on: truthiness (`a or b`), `str(v)` and `int(v)`.
 */
module Json {
  import opened Wrappers

  /** A scalar JSON value; `Null` is Python's `None`. */
  datatype Value = Null | Bool(b: bool) | Int(i: int) | Str(s: string)

  /** A JSON object with scalar members: a request body or an ERP record. */
  type Record = map<string, Value>

  /** Python truthiness: `None`, `False`, `0` and `""` are falsy. */
  predicate Truthy(v: Value)
  {
    match v
    case Null => false
    case Bool(b) => b
    case Int(i) => i != 0
    case Str(s) => s != ""
  }

  /** `d.get(key)`. */
  function Get(d: Record, key: string): Value
  {
    if key in d then d[key] else Null
  }

  /** `d.get(key, default)`. */
  function GetOr(d: Record, key: string, default: Value): Value
  {
    if key in d then d[key] else default
  }

  /** Python's `a or b`. */
  function Or(a: Value, b: Value): Value
  {
    if Truthy(a) then a else b
  }

  lemma OrTruthy(a: Value, b: Value)
    ensures Truthy(Or(a, b)) <==> Truthy(a) || Truthy(b)
    ensures Or(a, b) == a || Or(a, b) == b
  {
  }

  // ---------------------------------------------------------------------------
  // Decimal text

  predicate IsDigit(c: char)
  {
    '0' <= c <= '9'
  }

  function DigitOf(c: char): nat
    requires IsDigit(c)
  {
    (c as int - '0' as int) as nat
  }

  function DigitChar(n: nat): char
    requires n < 10
  {
    (n + '0' as int) as char
  }

  predicate AllDigits(s: string)
  {
    forall i | 0 <= i < |s| :: IsDigit(s[i])
  }

  /** The decimal digits of `n`, without leading zeros. */
  function NatToString(n: nat): (r: string)
    ensures |r| > 0 && AllDigits(r)
    ensures n < 10 <==> |r| == 1
  {
    if n < 10 then [DigitChar(n)] else NatToString(n / 10) + [DigitChar(n % 10)]
  }

  /** `str(i)` for a Python int. */
  function IntToString(i: int): string
  {
    if i < 0 then "-" + NatToString(-i) else NatToString(i)
  }

  /** Python's `str(v)`, as used by the f-strings of the handlers. */
  function Show(v: Value): string
  {
    match v
    case Null => "None"
    case Bool(b) => if b then "True" else "False"
    case Int(i) => IntToString(i)
    case Str(s) => s
  }

  // ---------------------------------------------------------------------------
  // Whitespace and Python's int()

  /** Python's `str.isspace` for one character. */
  predicate IsSpace(c: char)
  {
    || '\U{0009}' <= c <= '\U{000D}'
    || '\U{001C}' <= c <= '\U{0020}'
    || c == '\U{0085}' || c == '\U{00A0}' || c == '\U{1680}'
    || '\U{2000}' <= c <= '\U{200A}'
    || c == '\U{2028}' || c == '\U{2029}' || c == '\U{202F}' || c == '\U{205F}' || c == '\U{3000}'
  }

  /** `s.rstrip()`. */
  function TrimEnd(s: string): (r: string)
    ensures r <= s
    ensures r == [] || !IsSpace(r[|r| - 1])
    ensures forall i | |r| <= i < |s| :: IsSpace(s[i])
  {
    if s != [] && IsSpace(s[|s| - 1]) then TrimEnd(s[..|s| - 1]) else s
  }

  /** `s.lstrip()`. */
  function TrimStart(s: string): (r: string)
    ensures |r| <= |s| && r == s[|s| - |r|..]
    ensures r == [] || !IsSpace(r[0])
    ensures forall i | 0 <= i < |s| - |r| :: IsSpace(s[i])
  {
    if s != [] && IsSpace(s[0]) then TrimStart(s[1..]) else s
  }

  /** `s.strip()`. */
  function Strip(s: string): string
  {
    TrimStart(TrimEnd(s))
  }

  /**
   * The value of a base-10 literal body as `int()` reads it: ASCII digits in
   * which single underscores may separate two digits.
   */
  function DigitsValue(s: string): Option<nat>
  {
    if s == [] || !IsDigit(s[|s| - 1]) then None
    else if |s| == 1 then Some(DigitOf(s[0]))
    else
      var init := s[..|s| - 1];
      var body := if init[|init| - 1] == '_' then init[..|init| - 1] else init;
      match DigitsValue(body)
      case None => None
      case Some(n) => Some(n * 10 + DigitOf(s[|s| - 1]))
  }

  /** Python's `int(s)` for a string: `None` where it raises `ValueError`. */
  function ParseInt(s: string): Option<int>
  {
    var t := Strip(s);
    if t != [] && (t[0] == '-' || t[0] == '+') then
      match DigitsValue(t[1..])
      case None => None
      case Some(n) => var v: int := n; Some(if t[0] == '-' then -v else v)
    else
      match DigitsValue(t)
      case None => None
      case Some(n) => var v: int := n; Some(v)
  }

  /** Python's `int(v)`: `None` where it raises. */
  function IntOf(v: Value): Option<int>
  {
    match v
    case Null => None
    case Bool(b) => Some(if b then 1 else 0)
    case Int(i) => Some(i)
    case Str(s) => ParseInt(s)
  }

  lemma {:induction false} DigitsValueOfNatToString(n: nat)
    ensures DigitsValue(NatToString(n)) == Some(n)
  {
    if n >= 10 {
      var s := NatToString(n);
      var init := NatToString(n / 10);
      assert s == init + [DigitChar(n % 10)];
      assert s[..|s| - 1] == init;
      assert IsDigit(init[|init| - 1]);
      DigitsValueOfNatToString(n / 10);
    }
  }

  lemma StripKeepsUnspaced(s: string)
    requires s != [] && !IsSpace(s[0]) && !IsSpace(s[|s| - 1])
    ensures Strip(s) == s
  {
  }

  lemma ParseIntNegative(s: string, n: nat)
    requires s != [] && s[0] == '-' && Strip(s) == s && DigitsValue(s[1..]) == Some(n)
    ensures ParseInt(s) == Some(-(n as int))
  {
    var t := Strip(s);
    assert t == s;
    assert DigitsValue(t[1..]) == Some(n);
  }

  lemma ParseIntUnsigned(s: string, n: nat)
    requires s != [] && IsDigit(s[0]) && Strip(s) == s && DigitsValue(s) == Some(n)
    ensures ParseInt(s) == Some(n)
  {
    var t := Strip(s);
    assert t == s;
    assert !(t[0] == '-' || t[0] == '+');
    assert DigitsValue(t) == Some(n);
  }

  /** `int(str(i)) == i`: the decimal text of an integer reads back as it. */
  lemma {:induction false} ParseIntOfIntToString(i: int)
    ensures ParseInt(IntToString(i)) == Some(i)
  {
    var n: nat := if i < 0 then -i else i;
    var digits := NatToString(n);
    var s := IntToString(i);
    DigitsValueOfNatToString(n);
    assert IsDigit(digits[0]) && IsDigit(digits[|digits| - 1]);
    if i < 0 {
      assert s == "-" + digits;
      assert s[|s| - 1] == digits[|digits| - 1];
      StripKeepsUnspaced(s);
      assert s[1..] == digits;
      ParseIntNegative(s, n);
    } else {
      assert s == digits;
      StripKeepsUnspaced(s);
      ParseIntUnsigned(s, n);
    }
  }
}
