/**
 * The slice of JavaScript semantics the route handlers rely on: the values a
 * JSON request body can hold, truthiness, and `String.prototype.trim`.
 */
module Js {
  import opened Wrappers

  /**
   * A value read out of a parsed JSON body. `Undefined` is a field the body
   * does not have; `Composite` is any object or array where a scalar was
   * expected. JSON has no NaN or Infinity, so `Num` is always a finite number.
   */
  datatype JsValue = Undefined | Null | Bool(b: bool) | Num(n: real) | Str(s: string) | Composite

  /** JavaScript truthiness: what `if (v)` and `!v` test. */
  predicate Truthy(v: JsValue) {
    match v
    case Undefined => false
    case Null => false
    case Bool(b) => b
    case Num(n) => n != 0.0
    case Str(s) => s != ""
    case Composite => true
  }

  /** The characters `trim` removes: ECMAScript WhiteSpace and LineTerminator. */
  predicate IsWhitespace(c: char) {
    || c == '\t' || c == '\n' || c == '\r' || c == ' '
    || c == '\U{000B}' || c == '\U{000C}' || c == '\U{00A0}' || c == '\U{1680}'
    || ('\U{2000}' <= c <= '\U{200A}')
    || c == '\U{2028}' || c == '\U{2029}' || c == '\U{202F}' || c == '\U{205F}'
    || c == '\U{3000}' || c == '\U{FEFF}'
  }

  /** `s` with its leading whitespace removed. */
  function TrimStart(s: string): (r: string)
    ensures |r| <= |s|
  {
    if s != [] && IsWhitespace(s[0]) then TrimStart(s[1..]) else s
  }

  /** `s` with its trailing whitespace removed. */
  function TrimEnd(s: string): (r: string)
    ensures |r| <= |s|
  {
    if s != [] && IsWhitespace(s[|s| - 1]) then TrimEnd(s[..|s| - 1]) else s
  }

  /** `s.trim()` */
  function Trim(s: string): string {
    TrimEnd(TrimStart(s))
  }

  predicate AllWhitespace(s: string) {
    forall i :: 0 <= i < |s| ==> IsWhitespace(s[i])
  }

  /** `TrimStart` keeps a suffix of `s`, drops only whitespace, and stops at a non-whitespace character. */
  lemma {:induction false} TrimStartFacts(s: string)
    ensures |TrimStart(s)| <= |s| && TrimStart(s) == s[|s| - |TrimStart(s)|..]
    ensures forall i :: 0 <= i < |s| - |TrimStart(s)| ==> IsWhitespace(s[i])
    ensures TrimStart(s) == [] || !IsWhitespace(TrimStart(s)[0])
  {
    if s != [] && IsWhitespace(s[0]) {
      TrimStartFacts(s[1..]);
    }
  }

  /** `TrimEnd` keeps a prefix of `s`, drops only whitespace, and stops at a non-whitespace character. */
  lemma {:induction false} TrimEndFacts(s: string)
    ensures |TrimEnd(s)| <= |s| && TrimEnd(s) == s[..|TrimEnd(s)|]
    ensures forall i :: |TrimEnd(s)| <= i < |s| ==> IsWhitespace(s[i])
    ensures TrimEnd(s) == [] || !IsWhitespace(TrimEnd(s)[|TrimEnd(s)| - 1])
  {
    if s != [] && IsWhitespace(s[|s| - 1]) {
      TrimEndFacts(s[..|s| - 1]);
    }
  }

  /** `s.trim()` neither starts nor ends with whitespace. */
  lemma TrimHasNoOuterWhitespace(s: string)
    ensures Trim(s) == [] || (!IsWhitespace(Trim(s)[0]) && !IsWhitespace(Trim(s)[|Trim(s)| - 1]))
  {
    var t := TrimStart(s);
    TrimStartFacts(s);
    TrimEndFacts(t);
    if Trim(s) != [] {
      assert Trim(s)[0] == t[0];
    }
  }

  /** Trimming twice is trimming once: `s.trim().trim() == s.trim()`. */
  lemma TrimIdempotent(s: string)
    ensures Trim(Trim(s)) == Trim(s)
  {
    var t := Trim(s);
    TrimHasNoOuterWhitespace(s);
    if t != [] {
      assert TrimStart(t) == t;
      assert TrimEnd(t) == t;
    }
  }

  /** `s.trim()` is empty exactly when `s` holds nothing but whitespace. */
  lemma TrimEmptyIffBlank(s: string)
    ensures Trim(s) == [] <==> AllWhitespace(s)
  {
    var t := TrimStart(s);
    TrimStartFacts(s);
    TrimEndFacts(t);
    if !AllWhitespace(s) {
      var k :| 0 <= k < |s| && !IsWhitespace(s[k]);
      assert t[k - (|s| - |t|)] == s[k];
    }
  }

  /** What `TrimStart` cuts off is whitespace. */
  lemma TrimStartCutsWhitespace(s: string)
    ensures AllWhitespace(s[..|s| - |TrimStart(s)|])
  {
    TrimStartFacts(s);
    var n := |s| - |TrimStart(s)|;
    forall k | 0 <= k < n ensures IsWhitespace(s[..n][k]) {
      assert s[..n][k] == s[k];
    }
  }

  /** What `TrimEnd` cuts off is whitespace. */
  lemma TrimEndCutsWhitespace(s: string)
    ensures AllWhitespace(s[|TrimEnd(s)|..])
  {
    TrimEndFacts(s);
    var n := |TrimEnd(s)|;
    forall k | 0 <= k < |s| - n ensures IsWhitespace(s[n..][k]) {
      assert s[n..][k] == s[n + k];
    }
  }

  /** `s.trim()` is a contiguous piece of `s`: only whitespace is cut off either end. */
  lemma TrimIsInfix(s: string)
    ensures exists i, j :: 0 <= i <= j <= |s| && Trim(s) == s[i..j]
                        && AllWhitespace(s[..i]) && AllWhitespace(s[j..])
  {
    var t := TrimStart(s);
    var u := TrimEnd(t);
    var i := |s| - |t|;
    var j := i + |u|;
    TrimStartFacts(s);
    TrimEndFacts(t);
    TrimStartCutsWhitespace(s);
    TrimEndCutsWhitespace(t);
    assert t == s[i..];
    assert u == s[i..j];
    assert s[j..] == t[|u|..];
    assert Trim(s) == s[i..j] && AllWhitespace(s[..i]) && AllWhitespace(s[j..]);
  }

  /**
   * How the guard `!v?.trim()` treats a value: nullish values and blank
   * strings make it true (`Blank`), a string with a non-whitespace character
   * makes it false (`Filled`), and on any other value `.trim` is not a
   * function, so the call throws a TypeError (`Throws`).
   */
  datatype TrimTest = Blank | Filled | Throws

  /** Decided by `AllWhitespace`, which `TestTrimMatchesTrim` ties to `trim`. */
  function TestTrim(v: JsValue): TrimTest {
    match v
    case Undefined => Blank
    case Null => Blank
    case Str(s) => if AllWhitespace(s) then Blank else Filled
    case _ => Throws
  }

  /**
   * The guard passes (`Filled`) exactly for a string whose `trim()` is not
   * empty, and throws exactly for values that are neither strings nor nullish.
   */
  lemma TestTrimMatchesTrim(v: JsValue)
    ensures TestTrim(v) == Filled <==> v.Str? && Trim(v.s) != []
    ensures TestTrim(v) == Blank <==> v.Undefined? || v.Null? || (v.Str? && Trim(v.s) == [])
    ensures TestTrim(v) == Throws <==> !(v.Str? || v.Undefined? || v.Null?)
  {
    if v.Str? {
      TrimEmptyIffBlank(v.s);
    }
  }

  /**
   * The guard `if (!v?.trim()) fail(blank)`: yields the string as given when
   * it holds a non-whitespace character, and the TypeError of `.trim` on a
   * value that is neither a string nor nullish.
   */
  function RequireText<E>(v: JsValue, blank: E, typeError: E): (r: Result<string, E>)
    ensures r.Success? <==> v.Str? && Trim(v.s) != []
    ensures r.Success? ==> v == Str(r.value)
    ensures v.Undefined? || v.Null? || (v.Str? && Trim(v.s) == []) ==> r == Failure(blank)
    ensures !(v.Str? || v.Undefined? || v.Null?) ==> r == Failure(typeError)
  {
    TestTrimMatchesTrim(v);
    match TestTrim(v)
    case Filled => Success(v.s)
    case Blank => Failure(blank)
    case Throws => Failure(typeError)
  }
}
