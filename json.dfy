/**
 * The values that travel between the Python host and the browser front end: what a
 * Python dict of commands becomes once serialised, and what a JavaScript command
 * object holds. `JUndefined` is what JavaScript reads for a missing property;
 * `JBytes` is a binary buffer carried beside the message.
 */
module Json {

  import opened Wrappers

  datatype Json =
    | JUndefined
    | JNull
    | JBool(b: bool)
    | JNum(n: real)
    | JStr(s: string)
    | JArr(items: seq<Json>)
    | JObj(fields: map<string, Json>)
    | JBytes(bytes: seq<bv8>)

  /** Property access `o[key]` on an object: a missing key reads as undefined. */
  function Field(o: Json, key: string): (r: Json)
    ensures o.JObj? && key in o.fields ==> r == o.fields[key]
    ensures !(o.JObj? && key in o.fields) ==> r == JUndefined
  {
    if o.JObj? && key in o.fields then o.fields[key] else JUndefined
  }

  /**
   * Property access `o.key` as JavaScript evaluates it: reading a property of null or
   * undefined throws a TypeError; any other value reads as `Field` does (a primitive
   * has none of the properties the front end asks for).
   */
  function Prop(o: Json, key: string): (r: Result<Json, string>)
    ensures r.Failure? <==> o.JNull? || o.JUndefined?
    ensures r.Success? ==> r.value == Field(o, key)
  {
    if o.JNull? || o.JUndefined? then Failure("TypeError: cannot read property " + key) else Success(Field(o, key))
  }

  /**
   * The position `a[j]` reads in a JavaScript array of length `len`: an integral
   * number in range. Anything else reads as undefined.
   */
  function ArrayIndex(j: Json, len: nat): (r: Option<nat>)
    ensures r.Some? <==> j.JNum? && j.n.Floor as real == j.n && 0 <= j.n.Floor < len
    ensures r.Some? ==> r.value as real == j.n && r.value < len
  {
    if j.JNum? && j.n.Floor as real == j.n && 0 <= j.n.Floor < len then Some(j.n.Floor) else None
  }

  /**
   * The text `"..." + j` produces. Strings give themselves; undefined, null and
   * booleans their names; an integral number below 10^21 in magnitude its decimal
   * digits; an array its elements' texts joined by commas (null and undefined
   * elements give ""); a plain object "[object Object]". Other numbers (fractions,
   * and the magnitudes JavaScript writes with an exponent) and binary buffers read as
   * "[value]" here.
   */
  function Stringify(j: Json): (r: string)
    ensures j.JStr? ==> r == j.s
    ensures j.JNum? && IsPlainInteger(j.n) ==> r == IntegerText(j.n.Floor)
    ensures j.JObj? ==> r == "[object Object]"
    decreases j, 1
  {
    match j
    case JStr(s) => s
    case JUndefined => "undefined"
    case JNull => "null"
    case JBool(b) => if b then "true" else "false"
    case JNum(n) => if IsPlainInteger(n) then IntegerText(n.Floor) else "[value]"
    case JArr(items) => Joined(items, j)
    case JObj(_) => "[object Object]"
    case JBytes(_) => "[value]"
  }

  /** `Array.prototype.join(",")` over `items`, the elements of `whole`. */
  function Joined(items: seq<Json>, whole: Json): (r: string)
    requires forall i | 0 <= i < |items| :: items[i] < whole
    decreases whole, 0, |items|
  {
    if |items| == 0 then ""
    else
      var first := if items[0].JNull? || items[0].JUndefined? then "" else Stringify(items[0]);
      if |items| == 1 then first else first + "," + Joined(items[1..], whole)
  }

  /** A number JavaScript writes as plain decimal digits: an integer below 10^21 in magnitude. */
  predicate IsPlainInteger(n: real)
  {
    n.Floor as real == n && -1000000000000000000000 < n.Floor < 1000000000000000000000
  }

  /** The decimal text of an integer, with a leading "-" when it is negative. */
  function IntegerText(n: int): (r: string)
    ensures |r| > 0 && (r[0] == '-' <==> n < 0)
    ensures n >= 0 ==> r == DecimalDigits(n)
    ensures n < 0 ==> r == "-" + DecimalDigits(-n)
  {
    if n < 0 then "-" + DecimalDigits(-n) else DecimalDigits(n)
  }

  /** The decimal digits of a natural number, most significant first, without leading zeros. */
  function DecimalDigits(n: nat): (r: string)
    ensures |r| > 0 && forall i | 0 <= i < |r| :: '0' <= r[i] <= '9'
    ensures |r| > 1 ==> r[0] != '0'
    decreases n
  {
    if n < 10 then [Digit(n)] else DecimalDigits(n / 10) + [Digit(n % 10)]
  }

  function Digit(d: nat): (c: char)
    requires d < 10
    ensures '0' <= c <= '9' && c as int - '0' as int == d
  {
    ('0' as int + d) as char
  }

  /** The number a run of decimal digits denotes. */
  function DecimalValue(s: string): nat
    requires forall i | 0 <= i < |s| :: '0' <= s[i] <= '9'
  {
    if |s| == 0 then 0 else 10 * DecimalValue(s[..|s| - 1]) + (s[|s| - 1] as int - '0' as int)
  }

  /** Reading the digits back gives the number: the text of a number names it. */
  lemma {:induction false} DecimalDigitsRoundTrip(n: nat)
    ensures DecimalValue(DecimalDigits(n)) == n
    decreases n
  {
    if n >= 10 {
      var s := DecimalDigits(n);
      assert s[..|s| - 1] == DecimalDigits(n / 10);
      DecimalDigitsRoundTrip(n / 10);
    }
  }

  /** Distinct natural numbers have distinct digits. */
  lemma DecimalDigitsInjective(x: nat, y: nat)
    requires DecimalDigits(x) == DecimalDigits(y)
    ensures x == y
  {
    DecimalDigitsRoundTrip(x);
    DecimalDigitsRoundTrip(y);
  }

  /** Distinct integers are written differently. */
  lemma IntegerTextInjective(a: int, b: int)
    requires IntegerText(a) == IntegerText(b)
    ensures a == b
  {
    if a < 0 && b < 0 {
      var x, y := DecimalDigits(-a), DecimalDigits(-b);
      assert ("-" + x)[1..] == x && ("-" + y)[1..] == y;
      DecimalDigitsInjective(-a, -b);
    } else if a >= 0 && b >= 0 {
      DecimalDigitsInjective(a, b);
    }
  }

  /** A run of decimal digits. */
  predicate IsDecimal(s: string)
  {
    forall i | 0 <= i < |s| :: '0' <= s[i] <= '9'
  }

  /**
   * `Number(s)` for the texts this model reads: the empty text is 0, and an optional
   * sign followed by decimal digits (leading zeros allowed) is that integer. None for
   * the rest: the texts that convert to NaN, and the forms not modelled here
   * (surrounding whitespace, a fraction or exponent, hexadecimal, "Infinity").
   */
  function StringNumber(s: string): (r: Option<real>)
    ensures |s| == 0 ==> r == Some(0.0)
    ensures |s| > 0 && IsDecimal(s) ==> r == Some(DecimalValue(s) as real)
    ensures r.Some? ==> r.value.Floor as real == r.value
  {
    if |s| == 0 then Some(0.0)
    else if (s[0] == '-' || s[0] == '+') && |s| > 1 && IsDecimal(s[1..]) then
      var v: int := DecimalValue(s[1..]);
      Some((if s[0] == '-' then -v else v) as real)
    else if IsDecimal(s) then Some(DecimalValue(s) as real)
    else None
  }

  /** The text of an integer converts back to it. */
  lemma StringNumberOfIntegerText(n: int)
    ensures StringNumber(IntegerText(n)) == Some(n as real)
  {
    var d := DecimalDigits(if n < 0 then -n else n);
    DecimalDigitsRoundTrip(if n < 0 then -n else n);
    if n < 0 {
      assert ("-" + d)[1..] == d;
    }
  }

  /**
   * The number `j` is compared as when JavaScript's `==` tests it against a number:
   * a number itself, a boolean as 0 or 1, a string by `StringNumber`, and an array by
   * its text (`[3]` as "3", `[]` as ""). None where `==` with a number is false
   * whatever the number: null, undefined, plain objects and texts that read as NaN.
   */
  function LooseNumber(j: Json): (r: Option<real>)
    ensures j.JNum? ==> r == Some(j.n)
    ensures j.JNull? || j.JUndefined? || j.JObj? ==> r.None?
    ensures !j.JNull? && AsNumber(j).Some? ==> r == AsNumber(j)
    ensures j.JStr? ==> r == StringNumber(j.s)
  {
    match j
    case JNum(n) => Some(n)
    case JBool(b) => Some(if b then 1.0 else 0.0)
    case JStr(s) => StringNumber(s)
    case JArr(_) => StringNumber(Stringify(j))
    case _ => None
  }

  /**
   * The values `j[0]`, `j[1]`, ... below `j.length`: an array's items, or a string's
   * one-character texts. Other values have no elements here.
   */
  function Elements(j: Json): (r: seq<Json>)
    ensures j.JArr? ==> r == j.items
    ensures j.JStr? ==> |r| == |j.s| && forall i | 0 <= i < |r| :: r[i] == JStr([j.s[i]])
    ensures !j.JArr? && !j.JStr? ==> r == []
  {
    match j
    case JArr(items) => items
    case JStr(s) => seq(|s|, i requires 0 <= i < |s| => JStr([s[i]]))
    case _ => []
  }

  /** `k == j` in JavaScript, for an integer constant k. */
  predicate LooselyEquals(j: Json, k: int)
  {
    LooseNumber(j) == Some(k as real)
  }

  /**
   * An integer, its text, and a one-element list holding either, all equal the integer
   * under `==`: the loose comparison sees through the quotes and the brackets.
   */
  lemma {:induction false} LooseEqualitySeesThrough(n: int)
    requires IsPlainInteger(n as real)
    ensures LooselyEquals(JNum(n as real), n)
    ensures LooselyEquals(JStr(IntegerText(n)), n)
    ensures LooselyEquals(JArr([JNum(n as real)]), n)
    ensures LooselyEquals(JArr([JStr(IntegerText(n))]), n)
  {
    StringNumberOfIntegerText(n);
    assert (n as real).Floor == n;
    var one, text := JArr([JNum(n as real)]), JArr([JStr(IntegerText(n))]);
    assert Stringify(one) == Joined([JNum(n as real)], one) == IntegerText(n);
    assert Stringify(text) == Joined([JStr(IntegerText(n))], text) == IntegerText(n);
  }

  /** `o` is an object whose property `key` holds `v`. */
  predicate Has(o: Json, key: string, v: Json)
  {
    o.JObj? && key in o.fields && o.fields[key] == v
  }

  /** JavaScript truthiness, as tested by `if (x)` and `x && ...`. */
  predicate Truthy(j: Json)
  {
    match j
    case JUndefined => false
    case JNull => false
    case JBool(b) => b
    case JNum(n) => n != 0.0
    case JStr(s) => s != ""
    case JArr(_) => true
    case JObj(_) => true
    case JBytes(_) => true
  }

  /**
   * The number JavaScript's relational operators compare a value as, when that
   * number is known: numbers themselves, booleans as 0 or 1 and null as 0.
   * Undefined, objects and strings give no number here (undefined compares as NaN,
   * so every comparison with it is false).
   */
  function AsNumber(j: Json): (r: Option<real>)
    ensures j.JNum? ==> r == Some(j.n)
    ensures j.JUndefined? ==> r.None?
  {
    match j
    case JNum(n) => Some(n)
    case JBool(b) => Some(if b then 1.0 else 0.0)
    case JNull => Some(0.0)
    case _ => None
  }

  /** `j >= k` for an integer constant k. */
  predicate AtLeast(j: Json, k: int)
  {
    var n := AsNumber(j);
    n.Some? && n.value >= k as real
  }

  /** `j > k` for an integer constant k. */
  predicate Above(j: Json, k: int)
  {
    var n := AsNumber(j);
    n.Some? && n.value > k as real
  }
}
