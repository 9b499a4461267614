/** JavaScript values as the screens see them, with the handful of language
    operations the admin console relies on: truthiness, `||`, property access
    with and without optional chaining, `String.prototype.trim` and the
    rendering of a non-negative integer inside a template literal. */
module JsValues {

  datatype Option<+T> = None | Some(value: T)

  /** A JavaScript value. `Time(ms)` stands for a point in time, held either as
      a `Date` object or as its ISO-8601 string: both are truthy and the
      formatting itself is not modelled. Objects are compared structurally. */
  datatype Value =
    | Undefined
    | Null
    | Bool(b: bool)
    | Num(n: int)
    | Str(s: string)
    | Time(ms: int)
    | Arr(items: seq<Value>)
    | Obj(fields: map<string, Value>)

  /** JavaScript truthiness: undefined, null, false, 0 and "" are falsy. */
  function Truthy(v: Value): (t: bool)
    ensures !t <==> v == Undefined || v == Null || v == Bool(false) || v == Num(0) || v == Str("")
  {
    match v
    case Undefined => false
    case Null => false
    case Bool(b) => b
    case Num(n) => n != 0
    case Str(s) => s != ""
    case _ => true
  }

  /** `a || b` */
  function Or(a: Value, b: Value): Value {
    if Truthy(a) then a else b
  }

  lemma OrTruthy(a: Value, b: Value)
    requires Truthy(b)
    ensures Truthy(Or(a, b))
    ensures Or(a, b) == a || Or(a, b) == b
  {
  }

  /** `v.key`: reading a property of undefined or null throws a TypeError
      (None); any other value yields the property or undefined. */
  function Member(v: Value, key: string): (r: Option<Value>)
    ensures r.None? <==> v == Undefined || v == Null
    ensures v.Obj? && key in v.fields ==> r == Some(v.fields[key])
    ensures r.Some? && !(v.Obj? && key in v.fields) ==> r == Some(Undefined)
  {
    match v
    case Undefined => None
    case Null => None
    case Obj(m) => Some(if key in m then m[key] else Undefined)
    case _ => Some(Undefined)
  }

  /** `v?.key`: undefined when `v` is undefined or null. */
  function OptMember(v: Value, key: string): (r: Value)
    ensures r != Undefined ==> v.Obj? && key in v.fields && r == v.fields[key]
    ensures v.Obj? && key in v.fields ==> r == v.fields[key]
  {
    match Member(v, key)
    case None => Undefined
    case Some(x) => x
  }

  /** The characters `String.prototype.trim` removes: ECMAScript WhiteSpace
      and LineTerminator code points. */
  predicate IsWhite(c: char) {
    c == '\t' || c == '\n' || c == '\U{000B}' || c == '\U{000C}' || c == '\r' || c == ' '
    || c == '\U{00A0}' || c == '\U{1680}' || ('\U{2000}' <= c <= '\U{200A}')
    || c == '\U{2028}' || c == '\U{2029}' || c == '\U{202F}' || c == '\U{205F}'
    || c == '\U{3000}' || c == '\U{FEFF}'
  }

  /** The index of the first character at or after `k` that is not white
      space (`|s|` when there is none). */
  function TextStart(s: string, k: nat): (a: nat)
    requires k <= |s|
    ensures k <= a <= |s|
    ensures forall i :: k <= i < a ==> IsWhite(s[i])
    ensures a == |s| || !IsWhite(s[a])
    decreases |s| - k
  {
    if k < |s| && IsWhite(s[k]) then TextStart(s, k + 1) else k
  }

  /** The index just past the last character before `e` that is not white
      space, looking no further back than `a`. */
  function TextEnd(s: string, a: nat, e: nat): (b: nat)
    requires a <= e <= |s|
    ensures a <= b <= e
    ensures forall i :: b <= i < e ==> IsWhite(s[i])
    ensures b == a || !IsWhite(s[b - 1])
    decreases e - a
  {
    if a < e && IsWhite(s[e - 1]) then TextEnd(s, a, e - 1) else e
  }

  /** The number of white characters `s.trim()` drops from the front. */
  function LeadingWhite(s: string): (k: nat)
    ensures k <= |s|
  {
    TextStart(s, 0)
  }

  /** A field holding nothing but white space. */
  predicate Blank(s: string) {
    forall i :: 0 <= i < |s| ==> IsWhite(s[i])
  }

  /** `s.trim()`: a slice of `s` that neither starts nor ends with white
      space, everything outside it being white. */
  function Trim(s: string): (r: string)
    ensures LeadingWhite(s) + |r| <= |s|
    ensures forall i :: 0 <= i < |r| ==> r[i] == s[LeadingWhite(s) + i]
    ensures forall i :: 0 <= i < LeadingWhite(s) ==> IsWhite(s[i])
    ensures forall i :: LeadingWhite(s) + |r| <= i < |s| ==> IsWhite(s[i])
    ensures r == [] || (!IsWhite(r[0]) && !IsWhite(r[|r| - 1]))
    ensures r == [] <==> Blank(s)
  {
    var a := TextStart(s, 0);
    var b := TextEnd(s, a, |s|);
    assert b == a ==> Blank(s);
    s[a..b]
  }

  /** A string without leading or trailing white space is its own trim. */
  lemma TrimFixed(s: string)
    requires s == [] || (!IsWhite(s[0]) && !IsWhite(s[|s| - 1]))
    ensures Trim(s) == s
  {
  }

  lemma TrimIdempotent(s: string)
    ensures Trim(Trim(s)) == Trim(s)
  {
    TrimFixed(Trim(s));
  }

  predicate IsDigit(c: char) {
    '0' <= c <= '9'
  }

  function DigitChar(d: nat): (c: char)
    requires d < 10
    ensures IsDigit(c) && c as int - '0' as int == d
  {
    ('0' as int + d) as char
  }

  /** The decimal text JavaScript produces for a non-negative integer inside a
      template literal. */
  function DecimalString(n: nat): (s: string)
    ensures s != [] && forall i :: 0 <= i < |s| ==> IsDigit(s[i])
    ensures |s| > 1 ==> s[0] != '0'
  {
    if n < 10 then [DigitChar(n)] else DecimalString(n / 10) + [DigitChar(n % 10)]
  }

  /** Reads a string of decimal digits back as a number. */
  function ParseDecimal(s: string): nat
    requires forall i :: 0 <= i < |s| ==> IsDigit(s[i])
  {
    if s == [] then 0
    else
      var last := s[|s| - 1];
      assert IsDigit(last);
      ParseDecimal(s[..|s| - 1]) * 10 + (last as int - '0' as int)
  }

  lemma {:induction false} DecimalRoundTrip(n: nat)
    ensures ParseDecimal(DecimalString(n)) == n
  {
    if n >= 10 {
      var s := DecimalString(n);
      assert s[..|s| - 1] == DecimalString(n / 10);
      DecimalRoundTrip(n / 10);
    }
  }

  /** The decimal text determines the number. */
  lemma DecimalInjective(m: nat, n: nat)
    requires DecimalString(m) == DecimalString(n)
    ensures m == n
  {
    DecimalRoundTrip(m);
    DecimalRoundTrip(n);
  }
}
