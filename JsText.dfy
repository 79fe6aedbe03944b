/**
 * JavaScript value and string semantics that the browser client relies on:
 * truthiness, `includes`, `startsWith`, `trim`, ASCII case folding and
 * the decimal rendering of integers inside template strings.
 */
module JsText {

  datatype Option<+T> = None | Some(value: T)

  /** A JSON-ish value as it arrives in a parsed response field. Numbers are integral here. */
  datatype JsValue = JsString(s: string) | JsNumber(n: int) | JsBool(b: bool) | JsNull | JsObject

  /** JavaScript truthiness (ToBoolean) of a value. */
  predicate Truthy(v: JsValue) {
    match v
    case JsString(s) => s != ""
    case JsNumber(n) => n != 0
    case JsBool(b) => b
    case JsNull => false
    case JsObject => true
  }

  /** Truthiness of an optional field: an absent field reads as `undefined`, which is falsy. */
  predicate Present(v: Option<JsValue>) {
    v.Some? && Truthy(v.value)
  }

  /** Truthiness of an optional string (null/undefined and "" are falsy). */
  predicate NonEmpty(s: Option<string>) {
    s.Some? && s.value != ""
  }

  /** `a || b` where `a` is an optional field: `a` when it is truthy, else `b`. */
  function Or(a: Option<JsValue>, b: JsValue): (r: JsValue)
    ensures Present(a) ==> r == a.value
    ensures !Present(a) ==> r == b
  {
    if Present(a) then a.value else b
  }

  predicate StartsWith(s: string, prefix: string) {
    |prefix| <= |s| && s[..|prefix|] == prefix
  }

  /** `s.includes(sub)`. */
  predicate Contains(s: string, sub: string)
    decreases |s|
  {
    StartsWith(s, sub) || (|s| > 0 && Contains(s[1..], sub))
  }

  /** `sub` occurs in `s` starting at index `i`. */
  predicate OccursAt(s: string, sub: string, i: int) {
    0 <= i <= |s| - |sub| && s[i..i + |sub|] == sub
  }

  /** `includes` holds exactly when `sub` occurs at some index of `s`. */
  lemma {:induction false} ContainsAt(s: string, sub: string)
    ensures Contains(s, sub) <==> exists i :: OccursAt(s, sub, i)
    decreases |s|
  {
    if StartsWith(s, sub) {
      assert OccursAt(s, sub, 0);
    }
    if |s| > 0 {
      ContainsAt(s[1..], sub);
      if Contains(s[1..], sub) {
        var i :| OccursAt(s[1..], sub, i);
        assert OccursAt(s, sub, i + 1);
      }
      if exists i :: OccursAt(s, sub, i) {
        var i :| OccursAt(s, sub, i);
        if i > 0 {
          assert OccursAt(s[1..], sub, i - 1);
        }
      }
    } else if exists i :: OccursAt(s, sub, i) {
      var i :| OccursAt(s, sub, i);
      assert i == 0 && sub == [];
    }
  }

  /** A string contains every substring of itself placed at some index. */
  lemma ContainsSlice(s: string, sub: string, i: int)
    requires OccursAt(s, sub, i)
    ensures Contains(s, sub)
  {
    ContainsAt(s, sub);
  }

  /** Every string includes itself. */
  lemma ContainsItself(s: string)
    ensures Contains(s, s)
  {
    assert s[..|s|] == s;
  }

  /** A pair of adjacent characters of `sub` that never occur side by side in `s` rules out `s.includes(sub)`. */
  lemma {:induction false} MissingPairNotContained(s: string, sub: string, k: int)
    requires 0 <= k < |sub| - 1
    requires forall j :: 0 <= j < |s| - 1 ==> !(s[j] == sub[k] && s[j + 1] == sub[k + 1])
    ensures !Contains(s, sub)
    decreases |s|
  {
    if |sub| <= |s| {
      assert s[k] != sub[k] || s[k + 1] != sub[k + 1];
      assert s[..|sub|][k] == s[k] && s[..|sub|][k + 1] == s[k + 1];
    }
    if |s| > 0 {
      MissingPairNotContained(s[1..], sub, k);
    }
  }

  /** ECMAScript WhiteSpace and LineTerminator code points, which `trim` removes. */
  predicate IsJsWhitespace(c: char) {
    c == '\t' || c == '\n' || c == '\U{B}' || c == '\U{C}' || c == '\r' || c == ' '
    || c == '\U{A0}' || c == '\U{1680}' || ('\U{2000}' <= c <= '\U{200A}')
    || c == '\U{2028}' || c == '\U{2029}' || c == '\U{202F}' || c == '\U{205F}'
    || c == '\U{3000}' || c == '\U{FEFF}'
  }

  function TrimStart(s: string): (r: string)
    ensures |r| <= |s| && r == s[|s| - |r|..]
    ensures r == "" || !IsJsWhitespace(r[0])
    ensures forall i :: 0 <= i < |s| - |r| ==> IsJsWhitespace(s[i])
  {
    if |s| > 0 && IsJsWhitespace(s[0]) then TrimStart(s[1..]) else s
  }

  function TrimEnd(s: string): (r: string)
    ensures |r| <= |s| && r == s[..|r|]
    ensures r == "" || !IsJsWhitespace(r[|r| - 1])
    ensures forall i :: |r| <= i < |s| ==> IsJsWhitespace(s[i])
  {
    if |s| > 0 && IsJsWhitespace(s[|s| - 1]) then TrimEnd(s[..|s| - 1]) else s
  }

  /** `s.trim()`. */
  function Trim(s: string): string {
    TrimEnd(TrimStart(s))
  }

  /** Trimming the end never touches a first character that is not whitespace. */
  lemma TrimEndKeepsHead(t: string)
    requires t != "" && !IsJsWhitespace(t[0])
    ensures TrimEnd(t) != "" && TrimEnd(t)[0] == t[0]
  {
    var r := TrimEnd(t);
    assert r == t[..|r|];
  }

  /** `s.trim().startsWith(c)` for a non-whitespace `c` is decided by the first non-whitespace character. */
  lemma TrimmedStartsWith(s: string, c: char)
    requires !IsJsWhitespace(c)
    ensures StartsWith(Trim(s), [c]) <==> (TrimStart(s) != "" && TrimStart(s)[0] == c)
  {
    var t := TrimStart(s);
    var r := TrimEnd(t);
    assert Trim(s) == r;
    if t != "" {
      TrimEndKeepsHead(t);
      assert StartsWith(r, [c]) <==> r[0] == c;
    } else {
      assert r == "";
    }
  }

  function LowerAscii(c: char): (r: char)
    ensures 'A' <= c <= 'Z' ==> 'a' <= r <= 'z'
    ensures !('A' <= c <= 'Z') ==> r == c
  {
    if 'A' <= c <= 'Z' then (c as int + 32) as char else c
  }

  function UpperAscii(c: char): (r: char)
    ensures 'a' <= c <= 'z' ==> 'A' <= r <= 'Z'
    ensures !('a' <= c <= 'z') ==> r == c
  {
    if 'a' <= c <= 'z' then (c as int - 32) as char else c
  }

  function LowerAsciiString(s: string): (r: string)
    ensures |r| == |s|
    ensures forall i :: 0 <= i < |s| ==> r[i] == LowerAscii(s[i])
  {
    if s == [] then [] else [LowerAscii(s[0])] + LowerAsciiString(s[1..])
  }

  /**
   * `s.toLowerCase().includes(sub)` for an all-lower-case ASCII `sub`. No code point outside
   * ASCII lower-cases to an ASCII letter other than 'k' (the Kelvin sign) and 'i' (dotted capital I),
   * so folding only ASCII decides the search for words without those letters.
   */
  predicate ContainsIgnoringCase(s: string, sub: string) {
    Contains(LowerAsciiString(s), sub)
  }

  function DigitChar(d: int): char
    requires 0 <= d < 10
  {
    "0123456789"[d]
  }

  /** Decimal rendering of a natural number, as a template string shows it. */
  function NatToString(n: nat): (r: string)
    ensures |r| >= 1
    ensures forall i :: 0 <= i < |r| ==> '0' <= r[i] <= '9'
    ensures r[0] == '0' ==> n == 0
  {
    if n < 10 then [DigitChar(n)] else NatToString(n / 10) + [DigitChar(n % 10)]
  }

  function IntToString(n: int): (r: string)
    ensures n >= 0 ==> r == NatToString(n)
    ensures n < 0 ==> r == "-" + NatToString(-n)
  {
    if n >= 0 then NatToString(n) else "-" + NatToString(-n)
  }

  /** Decimal digits determine the number back: the rendering is injective. */
  lemma {:induction false} NatToStringInjective(m: nat, n: nat)
    requires NatToString(m) == NatToString(n)
    ensures m == n
  {
    if m >= 10 && n >= 10 {
      var a, b := NatToString(m), NatToString(n);
      assert a[..|a| - 1] == NatToString(m / 10);
      assert b[..|b| - 1] == NatToString(n / 10);
      NatToStringInjective(m / 10, n / 10);
      assert DigitChar(m % 10) == a[|a| - 1] == DigitChar(n % 10);
    }
  }
}
