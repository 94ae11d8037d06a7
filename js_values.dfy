/** The JavaScript-level values the data layer handles: JSON payloads as
    returned by `response.json()`, optional properties of option objects,
    truthiness, the relational `<=` of a number against a JSON value, and the
    decimal text a number becomes inside a template string. */
module JsValues {

  datatype Option<+T> = None | Some(value: T)

  datatype Result<+T, +E> = Ok(value: T) | Err(error: E)

  /** A parsed JSON value. Numbers are integers in this model. */
  datatype Json =
    | JNull
    | JBool(b: bool)
    | JNum(n: int)
    | JStr(s: string)
    | JArr(items: seq<Json>)
    | JObj(fields: map<string, Json>)

  /** One property of an options object: not present at all, present with the
      value `undefined`, or given a value. Object spread copies a present
      `undefined` over an earlier value; a default (`= d`) replaces both
      absent and `undefined`. */
  datatype Prop<+T> = Missing | Undefined | Given(value: T) {

    /** A destructuring or parameter default: `const { p = d } = o`. */
    function OrDefault(d: T): (r: T)
      ensures Given? ==> r == value
      ensures Missing? || Undefined? ==> r == d
    {
      if Given? then value else d
    }
  }

  /** `{...a, ...b}` for one property: `b`'s copy wins whenever it is present. */
  function Spread<T>(base: Prop<T>, over: Prop<T>): (r: Prop<T>)
    ensures over.Missing? ==> r == base
    // A present `undefined` is copied too, and hides the earlier value.
    ensures over.Undefined? ==> r.Undefined?
    ensures over.Given? ==> r == over
    ensures r.Missing? <==> base.Missing? && over.Missing?
  {
    if over.Missing? then base else over
  }

  /** JavaScript truthiness of a JSON value. */
  predicate Truthy(v: Json) {
    match v
    case JNull => false
    case JBool(b) => b
    case JNum(n) => n != 0
    case JStr(s) => s != ""
    case JArr(_) => true
    case JObj(_) => true
  }

  /** `o?.name` on an object that may be null; `None` is `undefined`. */
  function Member(o: Option<map<string, Json>>, name: string): Option<Json> {
    if o.Some? && name in o.value then Some(o.value[name]) else None
  }

  /** Truthiness of a value that may be `undefined`. */
  predicate TruthyOpt(v: Option<Json>) {
    v.Some? && Truthy(v.value)
  }

  /** The relational comparison `n <= v` where `v` may be `undefined`
      (which compares as NaN, so false), `null` (0), a boolean (0 or 1) or a
      number. Strings, arrays and objects are treated as not comparable. */
  function AtMost(n: int, v: Option<Json>): (r: bool)
    ensures v == None ==> !r
    ensures (v.Some? && v.value.JNum?) ==> (r <==> n <= v.value.n)
  {
    match v
    case None => false
    case Some(JNum(t)) => n <= t
    case Some(JNull) => n <= 0
    case Some(JBool(b)) => n <= (if b then 1 else 0)
    case Some(_) => false
  }

  // ---------------------------------------------------------------------
  // Decimal text of integers, as `${n}` produces it, and its inverse.
  // ---------------------------------------------------------------------

  predicate IsDigit(c: char) {
    '0' <= c <= '9'
  }

  predicate AllDigits(s: string) {
    forall i :: 0 <= i < |s| ==> IsDigit(s[i])
  }

  function DigitChar(d: nat): (c: char)
    requires d < 10
    ensures IsDigit(c)
  {
    ('0' as int + d) as char
  }

  function DigitValue(c: char): (d: nat)
    requires IsDigit(c)
    ensures d < 10 && DigitChar(d) == c
  {
    c as int - '0' as int
  }

  /** The decimal digits of `n`, most significant first, without leading zeros. */
  function NatToString(n: nat): (s: string)
    ensures |s| >= 1 && AllDigits(s)
    decreases n
  {
    if n < 10 then [DigitChar(n)] else NatToString(n / 10) + [DigitChar(n % 10)]
  }

  /** `${n}` for an integer `n`: a leading minus sign for negatives. */
  function IntToString(n: int): (s: string)
    ensures |s| >= 1
    ensures forall i :: 0 <= i < |s| ==> s[i] == '-' || IsDigit(s[i])
  {
    if n < 0 then "-" + NatToString(-n) else NatToString(n)
  }

  /** The number a non-empty string of decimal digits denotes. */
  function ParseNat(s: string): nat
    requires |s| >= 1 && AllDigits(s)
    decreases |s|
  {
    if |s| == 1 then DigitValue(s[0])
    else 10 * ParseNat(s[..|s| - 1]) + DigitValue(s[|s| - 1])
  }

  /** Reads back an optionally signed decimal integer; `None` for anything else. */
  function ParseInt(s: string): Option<int> {
    if |s| >= 2 && s[0] == '-' && AllDigits(s[1..]) then Some(0 - ParseNat(s[1..]) as int)
    else if |s| >= 1 && AllDigits(s) then Some(ParseNat(s))
    else None
  }

  lemma {:induction false} NatToStringRoundTrip(n: nat)
    ensures ParseNat(NatToString(n)) == n
    decreases n
  {
    if n >= 10 {
      var s := NatToString(n);
      var hi := NatToString(n / 10);
      assert s == hi + [DigitChar(n % 10)];
      assert s[..|s| - 1] == hi;
      NatToStringRoundTrip(n / 10);
    }
  }

  lemma IntToStringRoundTrip(n: int)
    ensures ParseInt(IntToString(n)) == Some(n)
  {
    var s := IntToString(n);
    if n < 0 {
      assert s[1..] == NatToString(-n);
      NatToStringRoundTrip(-n);
    } else {
      assert IsDigit(s[0]);
      NatToStringRoundTrip(n);
    }
  }

  /** Distinct integers have distinct decimal texts. */
  lemma IntToStringInjective(a: int, b: int)
    ensures IntToString(a) == IntToString(b) <==> a == b
  {
    IntToStringRoundTrip(a);
    IntToStringRoundTrip(b);
  }
}
