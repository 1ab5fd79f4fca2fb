/**
 * Shared vocabulary for the model: optional values, what a JavaScript
 * `throw` carries, a JSON value as a request body field sees it, JavaScript
 * truthiness, and the string helpers the core uses (`startsWith`, decimal
 * rendering of a number, `String.prototype.trim`'s notion of whitespace).
 */
module JsCommon {

  datatype Option<+T> = None | Some(value: T)

  /** What a `catch` clause receives: an `Error` object with its message, or any other thrown value. */
  datatype Thrown = ErrorThrown(message: string) | OtherThrown

  /** The settled state of an awaited call: it returned a value or it threw. */
  datatype Outcome<+T> = Returned(value: T) | Threw(error: Thrown)

  /**
   * How a `Promise.all` fan-out over n calls settles when the calls are taken
   * in index order: the failure of the smallest failing index below `n`, if any.
   */
  function FirstFailure<V>(failures: map<nat, V>, n: nat): (r: Option<V>)
    ensures r.None? <==> forall k :: 0 <= k < n ==> k !in failures
    ensures r.Some? ==> exists k :: 0 <= k < n && k in failures && failures[k] == r.value
  {
    if n == 0 then None
    else
      match FirstFailure(failures, n - 1)
      case Some(v) => Some(v)
      case None => if n - 1 in failures then Some(failures[n - 1]) else None
  }

  /** `error instanceof Error ? error.message : fallback` */
  function MessageOr(e: Thrown, fallback: string): (m: string)
    ensures e.ErrorThrown? ==> m == e.message
    ensures e.OtherThrown? ==> m == fallback
  {
    match e
    case ErrorThrown(msg) => msg
    case OtherThrown => fallback
  }

  /** A JSON value as it arrives in a parsed request body. Numbers are mathematical reals (no NaN). */
  datatype Json =
    | JNull
    | JBool(b: bool)
    | JNumber(n: real)
    | JString(s: string)
    | JArray(items: seq<Json>)
    /** An object; only its `length` property, if any, is ever read. */
    | JObject(length: Option<Json>)

  /** JavaScript truthiness of a field; `None` is `undefined`. */
  predicate Truthy(v: Option<Json>)
    ensures !Truthy(v) <==>
      v.None? || v == Some(JNull) || v == Some(JBool(false)) || v == Some(JNumber(0.0)) || v == Some(JString(""))
  {
    match v
    case None => false
    case Some(JNull) => false
    case Some(JBool(b)) => b
    case Some(JNumber(n)) => n != 0.0
    case Some(JString(s)) => s != ""
    case Some(JArray(_)) => true
    case Some(JObject(_)) => true
  }

  /**
   * `Array.isArray(v) && v.length > 0`: the photo guard
   * `!photos || !Array.isArray(photos) || photos.length === 0` passes exactly
   * for these values, which are all truthy.
   */
  predicate IsNonEmptyArray(v: Option<Json>)
    ensures IsNonEmptyArray(v) ==> Truthy(v)
    ensures !IsNonEmptyArray(v) <==> !Truthy(v) || !v.value.JArray? || |v.value.items| == 0
  {
    v.Some? && v.value.JArray? && |v.value.items| > 0
  }

  /** `s.startsWith(prefix)` */
  predicate StartsWith(s: string, prefix: string)
  {
    |prefix| <= |s| && s[..|prefix|] == prefix
  }

  lemma StartsWithConcat(prefix: string, rest: string)
    ensures StartsWith(prefix + rest, prefix)
  {
    assert (prefix + rest)[..|prefix|] == prefix;
  }

  function DigitChar(d: nat): (c: char)
    requires d < 10
    ensures '0' <= c <= '9'
  {
    "0123456789"[d]
  }

  /** The decimal rendering of a non-negative integer, as template literals print it. */
  function Decimal(n: nat): (r: string)
    ensures |r| > 0
    ensures forall k :: 0 <= k < |r| ==> '0' <= r[k] <= '9'
    ensures n < 10 <==> |r| == 1
    decreases n
  {
    if n < 10 then [DigitChar(n)] else Decimal(n / 10) + [DigitChar(n % 10)]
  }

  lemma DigitCharInjective(a: nat, b: nat)
    requires a < 10 && b < 10 && DigitChar(a) == DigitChar(b)
    ensures a == b
  {
  }

  /** Different numbers are rendered as different strings. */
  lemma {:induction false} DecimalInjective(a: nat, b: nat)
    requires Decimal(a) == Decimal(b)
    ensures a == b
    decreases a
  {
    var s := Decimal(a);
    if a < 10 {
      assert |Decimal(b)| == 1;
      DigitCharInjective(a, b);
    } else {
      assert b >= 10;
      var n := |s|;
      assert s[n - 1] == DigitChar(a % 10) == DigitChar(b % 10);
      DigitCharInjective(a % 10, b % 10);
      assert s[..n - 1] == Decimal(a / 10) == Decimal(b / 10);
      DecimalInjective(a / 10, b / 10);
    }
  }

  /** Equal strings built around the same prefix and suffix have equal middles. */
  lemma SameFrameSameMiddle(prefix: string, a: string, b: string, suffix: string)
    requires prefix + a + suffix == prefix + b + suffix
    ensures a == b
  {
    var s := prefix + a + suffix;
    assert |a| == |b|;
    assert a == s[|prefix|..|prefix| + |a|];
    assert b == (prefix + b + suffix)[|prefix|..|prefix| + |b|];
  }

  /** A line terminator in the sense of ECMAScript (what a regular expression's `.` refuses). */
  predicate IsLineTerminator(c: char)
  {
    c == '\n' || c == '\r' || c == '\U{2028}' || c == '\U{2029}'
  }

  /** WhiteSpace or LineTerminator in the sense of ECMAScript: what `String.prototype.trim` removes. */
  predicate IsJsWhitespace(c: char)
  {
    || c == '\t' || c == '\U{B}' || c == '\U{C}' || c == ' ' || c == '\U{A0}' || c == '\U{FEFF}'
    || c == '\U{1680}' || ('\U{2000}' <= c <= '\U{200A}') || c == '\U{202F}' || c == '\U{205F}' || c == '\U{3000}'
    || IsLineTerminator(c)
  }

  /** `s.trim() === ""`: every character of `s` is whitespace. */
  predicate TrimsToEmpty(s: string)
    ensures TrimsToEmpty(s) <==> forall c :: c in s ==> IsJsWhitespace(c)
  {
    forall k :: 0 <= k < |s| ==> IsJsWhitespace(s[k])
  }

  /** `s.filter((_, k) => k !== i)`: every element but the one at position `i`, in order. */
  function DropIndex<T>(s: seq<T>, i: int): (r: seq<T>)
    ensures |r| <= |s|
    decreases |s|
  {
    if s == [] then []
    else DropIndex(s[..|s| - 1], i) + (if |s| - 1 == i then [] else [s[|s| - 1]])
  }

  /** Dropping an index in range removes exactly that element and keeps the others in order. */
  lemma {:induction false} DropIndexInRange<T>(s: seq<T>, i: int)
    requires 0 <= i < |s|
    ensures DropIndex(s, i) == s[..i] + s[i + 1..]
    decreases |s|
  {
    var n := |s| - 1;
    if i == n {
      DropIndexOutOfRange(s[..n], i);
      assert s[i + 1..] == [];
    } else {
      DropIndexInRange(s[..n], i);
      assert s[..n][..i] == s[..i];
      assert s[..n][i + 1..] + [s[n]] == s[i + 1..];
    }
  }

  /** Dropping an index outside the sequence changes nothing. */
  lemma {:induction false} DropIndexOutOfRange<T>(s: seq<T>, i: int)
    requires !(0 <= i < |s|)
    ensures DropIndex(s, i) == s
    decreases |s|
  {
    if s != [] {
      DropIndexOutOfRange(s[..|s| - 1], i);
      assert s[..|s| - 1] + [s[|s| - 1]] == s;
    }
  }
}
