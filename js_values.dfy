/** JavaScript-level values shared by the route handlers and the browser code:
    optional values, the parsed JSON values the handlers inspect, thrown values,
    and `String.prototype.includes`. */
module JsValues {

  datatype Option<+T> = None | Some(value: T) {
    function GetOr(default: T): T {
      match this
      case Some(v) => v
      case None => default
    }
  }

  /** A JSON value as a handler sees one property of a parsed body. `Missing` is
      a property that is not there (`undefined`). Only truthiness and strings
      matter to the core, so arrays and objects are one case. */
  datatype JsonValue =
    | Missing
    | Null
    | Bool(b: bool)
    | Number(n: real)
    | Str(s: string)
    | Composite

  /** JavaScript truthiness of a JSON value (JSON has no NaN). */
  predicate Truthy(v: JsonValue) {
    match v
    case Missing => false
    case Null => false
    case Bool(b) => b
    case Number(n) => n != 0.0
    case Str(s) => s != ""
    case Composite => true
  }

  /** A value caught by a `catch` clause: an `Error` instance with its
      `message`, or any other value together with what `String(value)` gives. */
  datatype Thrown =
    | ErrorObject(message: string)
    | OtherValue(shown: string)

  /** The UTF-16 code units a character takes: two for a character beyond the
      Basic Multilingual Plane (a surrogate pair), one otherwise. */
  function CodeUnits(c: char): nat {
    if c as int > 0xFFFF then 2 else 1
  }

  /** `s.length`: JavaScript strings count UTF-16 code units, not characters. */
  function JsLength(s: string): (n: nat)
    ensures |s| <= n <= 2 * |s|
  {
    if s == [] then 0 else JsLength(s[..|s| - 1]) + CodeUnits(s[|s| - 1])
  }

  /** Without characters beyond the Basic Multilingual Plane, `length` is the
      number of characters. */
  lemma {:induction false} JsLengthBmp(s: string)
    requires forall k :: 0 <= k < |s| ==> s[k] as int <= 0xFFFF
    ensures JsLength(s) == |s|
  {
    if s != [] {
      JsLengthBmp(s[..|s| - 1]);
    }
  }

  /** A run of `n` copies of one character is `n` times its code units long. */
  lemma {:induction false} JsLengthRepeat(n: nat, c: char)
    ensures JsLength(seq(n, _ => c)) == n * CodeUnits(c)
  {
    if n > 0 {
      var s := seq(n, _ => c);
      assert s[..n - 1] == seq(n - 1, _ => c);
      JsLengthRepeat(n - 1, c);
    }
  }

  /** `sub` occurs in `s` starting at index `i`. */
  predicate OccursAt(s: string, sub: string, i: int) {
    0 <= i && i + |sub| <= |s| && s[i..i + |sub|] == sub
  }

  /** `s.includes(sub)`. */
  predicate Contains(s: string, sub: string) {
    exists i | 0 <= i <= |s| - |sub| :: OccursAt(s, sub, i)
  }

  /** If the first character of `sub` occurs nowhere in `s` after position `from`,
      then `sub` occurs nowhere in `s` after `from`. */
  lemma NoOccurrenceWithoutLead(s: string, sub: string, from: nat)
    requires sub != []
    requires forall k :: from <= k < |s| ==> s[k] != sub[0]
    ensures forall i :: from <= i ==> !OccursAt(s, sub, i)
  {
    forall i | from <= i
      ensures !OccursAt(s, sub, i)
    {
      if i + |sub| <= |s| {
        assert s[i..i + |sub|][0] == s[i];
      }
    }
  }
}
