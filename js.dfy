/** The parts of the JavaScript runtime the core relies on: JSON values as
    `JSON.parse` produces them, truthiness, the string methods the core calls,
    number-to-string conversion of integers, and the host that performs
    `fetch` and the coercions the model leaves open. */
module Js {
  import opened Wrappers

  /** A JSON value, plus `undefined`, which is what reading a missing member
      gives. JSON numbers are finite, so `real` covers them. */
  datatype Json =
    | JUndefined
    | JNull
    | JBool(b: bool)
    | JNumber(n: real)
    | JString(s: string)
    | JArray(items: seq<Json>)
    | JObject(fields: map<string, Json>)
  {
    /** `v.key` on a value that is neither null nor undefined. None of the
        member names the core reads is inherited from a prototype. */
    function Member(key: string): Json
    {
      if JObject? && key in fields then fields[key] else JUndefined
    }
  }

  /** The message of the TypeError thrown when a member is read from null or
      undefined (V8's wording). */
  function NullReadMessage(receiver: Json, key: string): string
  {
    "Cannot read properties of " + (if receiver.JNull? then "null" else "undefined") + " (reading '" + key + "')"
  }

  /** JavaScript truthiness: `undefined`, `null`, `false`, `0` and `''` are
      the only falsy JSON values. */
  predicate Truthy(v: Json)
  {
    match v
    case JUndefined => false
    case JNull => false
    case JBool(b) => b
    case JNumber(n) => n != 0.0
    case JString(s) => s != ""
    case JArray(_) => true
    case JObject(_) => true
  }

  lemma FalsyValues(v: Json)
    ensures !Truthy(v) <==>
      v == JUndefined || v == JNull || v == JBool(false) || v == JNumber(0.0) || v == JString("")
  {
  }

  /** `typeof v === 'object'` (true of null and of arrays as well). */
  predicate IsObjectType(v: Json)
  {
    v.JNull? || v.JArray? || v.JObject?
  }

  /** `a || b` */
  function Or(a: Json, b: Json): Json
  {
    if Truthy(a) then a else b
  }

  /** `String(v)`: a string is itself; every other value goes through the
      host's conversion, which the model leaves uninterpreted. */
  function StringOf(v: Json, stringOf: Json -> string): string
  {
    if v.JString? then v.s else stringOf(v)
  }

  // ---------------------------------------------------------------- strings

  /** `toLowerCase` on one character, for the ASCII letters. */
  function LowerChar(c: char): char
  {
    if 'A' <= c <= 'Z' then (c as int + 32) as char else c
  }

  function Lower(s: string): (r: string)
    ensures |r| == |s|
    ensures forall i :: 0 <= i < |s| ==> r[i] == LowerChar(s[i])
  {
    seq(|s|, i requires 0 <= i < |s| => LowerChar(s[i]))
  }

  lemma LowerIdempotent(s: string)
    ensures Lower(Lower(s)) == Lower(s)
  {
  }

  /** The characters matched by `\s` in a JavaScript regular expression. */
  predicate IsWhitespace(c: char)
  {
    c == '\t' || c == '\n' || c == '\U{000B}' || c == '\U{000C}' || c == '\r' || c == ' '
    || c == '\U{00A0}' || c == '\U{1680}' || ('\U{2000}' <= c <= '\U{200A}')
    || c == '\U{2028}' || c == '\U{2029}' || c == '\U{202F}' || c == '\U{205F}'
    || c == '\U{3000}' || c == '\U{FEFF}'
  }

  predicate StartsWith(s: string, prefix: string)
  {
    prefix <= s
  }

  /** `p` occurs in `s` at index `j`. */
  predicate OccursAt(s: string, p: string, j: nat)
  {
    j + |p| <= |s| && s[j..j + |p|] == p
  }

  /** `s.indexOf(p, from)`: the first index at or after `from` where `p` occurs. */
  function IndexOfFrom(s: string, p: string, from: nat): (r: Option<nat>)
    decreases |s| - from
    ensures r.Some? ==> from <= r.value && OccursAt(s, p, r.value)
    ensures r.Some? ==> forall j :: from <= j < r.value ==> !OccursAt(s, p, j)
    ensures r.None? ==> forall j :: from <= j ==> !OccursAt(s, p, j)
  {
    if from + |p| > |s| then None
    else if s[from..from + |p|] == p then Some(from)
    else IndexOfFrom(s, p, from + 1)
  }

  function IndexOf(s: string, p: string): Option<nat>
  {
    IndexOfFrom(s, p, 0)
  }

  /** `s.replace(p, r)` with a string pattern: only the first occurrence of
      `p` is replaced. */
  function ReplaceFirst(s: string, p: string, r: string): string
  {
    match IndexOf(s, p)
    case None => s
    case Some(i) => s[..i] + r + s[i + |p|..]
  }

  /** The index of the last `c` in `s[..end]`. */
  function LastIndexOf(s: string, c: char, end: nat): (r: Option<nat>)
    requires end <= |s|
    ensures r.Some? ==> r.value < end && s[r.value] == c
    ensures r.Some? ==> forall j :: r.value < j < end ==> s[j] != c
    ensures r.None? ==> forall j :: 0 <= j < end ==> s[j] != c
  {
    if end == 0 then None
    else if s[end - 1] == c then Some(end - 1)
    else LastIndexOf(s, c, end - 1)
  }

  /** In `a + [c] + b` with no `c` in `b`, the last `c` is the one joined in. */
  lemma LastIndexOfJoin(a: string, c: char, b: string)
    requires c !in b
    ensures LastIndexOf(a + [c] + b, c, |a| + 1 + |b|) == Some(|a|)
  {
    var s := a + [c] + b;
    assert s[|a|] == c;
    assert forall j :: |a| < j < |s| ==> s[j] == b[j - |a| - 1];
  }

  /** `s.split(c).pop()`: the text after the last `c`, or all of `s`. */
  function AfterLast(s: string, c: char): string
  {
    match LastIndexOf(s, c, |s|)
    case None => s
    case Some(i) => s[i + 1..]
  }

  // ---------------------------------------------------------------- numbers

  predicate IsDigit(c: char)
  {
    '0' <= c <= '9'
  }

  predicate AllDigits(s: string)
  {
    forall i :: 0 <= i < |s| ==> IsDigit(s[i])
  }

  function DigitChar(d: nat): (c: char)
    requires d < 10
    ensures IsDigit(c)
  {
    ('0' as int + d) as char
  }

  /** The decimal digits of `n`, without leading zeros. */
  function Decimal(n: nat): (r: string)
    decreases n
    ensures |r| >= 1 && AllDigits(r)
    ensures n >= 10 ==> r[0] != '0'
  {
    if n < 10 then [DigitChar(n)] else Decimal(n / 10) + [DigitChar(n % 10)]
  }

  /** The value of a string of decimal digits; leading zeros add nothing. */
  function ParseDecimal(s: string): nat
    requires AllDigits(s)
  {
    if s == [] then 0
    else 10 * ParseDecimal(s[..|s| - 1]) + (s[|s| - 1] as int - '0' as int)
  }

  lemma {:induction false} ParseDecimalOfDecimal(n: nat)
    ensures ParseDecimal(Decimal(n)) == n
    decreases n
  {
    if n >= 10 {
      var d := Decimal(n);
      assert d[..|d| - 1] == Decimal(n / 10);
      ParseDecimalOfDecimal(n / 10);
    }
  }

  lemma DecimalInjective(a: nat, b: nat)
    requires Decimal(a) == Decimal(b)
    ensures a == b
  {
    ParseDecimalOfDecimal(a);
    ParseDecimalOfDecimal(b);
  }

  predicate IsInteger(x: real)
  {
    x.Floor as real == x
  }

  /** Below this magnitude an integral number prints as plain decimal digits. */
  const DecimalLimit: real := 1000000000000000000000.0

  /** `String(x)` for a number: integers of magnitude below 10^21 print as
      decimal digits (with a minus sign when negative); every other number
      goes through the host's conversion, which the model leaves open. */
  function NumberToString(x: real, numberText: real -> string): string
  {
    if IsInteger(x) && 0.0 <= x < DecimalLimit then Decimal(x.Floor)
    else if IsInteger(x) && -DecimalLimit < x < 0.0 then "-" + Decimal(-x.Floor)
    else numberText(x)
  }

  // ---------------------------------------------------------------- errors

  /** A value a `catch` clause can receive. */
  datatype Thrown = ErrorObject(message: string) | ThrownString(text: string) | OtherValue

  /** `getErrorMessage`: the message of an `Error`, a thrown string itself,
      and a fixed text for anything else. */
  function ErrorMessage(e: Thrown): string
  {
    match e
    case ErrorObject(m) => m
    case ThrownString(t) => t
    case OtherValue => "Unknown error occurred"
  }

  // ---------------------------------------------------------------- host

  /** What `await response.json()` gives: a parsed value or a rejection. */
  datatype Body = Parsed(json: Json) | Unparsable(message: string)

  /** What one `fetch` call gives: a response (status, status text, the URL
      finally reached, the body), a rejection with the value thrown, or an abort when the timer of
      the attempt fires first. */
  datatype Reply =
    | Response(status: nat, statusText: string, url: string, body: Body)
    | NetworkFailure(error: Thrown)
    | Aborted(message: string)

  /** `response.ok` */
  predicate IsOk(status: nat)
  {
    200 <= status <= 299
  }

  /** Everything outside the core that the core calls: the network, answering
      the metadata request (sent with JSON headers) and the media request for
      a URL, and the two conversions to text of non-string values. */
  datatype Host = Host(
    metadata: string -> Reply,
    media: string -> Reply,
    stringOf: Json -> string,
    numberText: real -> string)
}
