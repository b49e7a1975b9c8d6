/** The pieces of JavaScript's string semantics the portfolio's logic relies on: the whitespace
    class shared by `String.prototype.trim` and the regular-expression escape `\s`, `trim` itself,
    `includes`, ordered substring rules, and the decimal rendering of a non-negative integer in a
    template literal. */
module JsStrings {
  import opened Wrappers

  /** ECMAScript WhiteSpace and LineTerminator code points: exactly what `trim` strips and `\s` matches. */
  predicate IsWhitespace(c: char) {
    || c == '\t' || c == '\n' || c == '\U{000B}' || c == '\U{000C}' || c == '\r' || c == ' '
    || c == '\U{00A0}' || c == '\U{1680}' || ('\U{2000}' <= c <= '\U{200A}')
    || c == '\U{2028}' || c == '\U{2029}' || c == '\U{202F}' || c == '\U{205F}'
    || c == '\U{3000}' || c == '\U{FEFF}'
  }

  predicate AllWhitespace(s: string) {
    forall i :: 0 <= i < |s| ==> IsWhitespace(s[i])
  }

  /** Drops leading whitespace: the result is the longest suffix of `s` that does not start with whitespace. */
  function TrimStart(s: string): (r: string)
    ensures |r| <= |s| && r == s[|s| - |r|..]
    ensures forall i :: 0 <= i < |s| - |r| ==> IsWhitespace(s[i])
    ensures r == [] || !IsWhitespace(r[0])
  {
    if s != [] && IsWhitespace(s[0]) then TrimStart(s[1..]) else s
  }

  /** Drops trailing whitespace: the result is the longest prefix of `s` that does not end with whitespace. */
  function TrimEnd(s: string): (r: string)
    ensures |r| <= |s| && r == s[..|r|]
    ensures forall i :: |r| <= i < |s| ==> IsWhitespace(s[i])
    ensures r == [] || !IsWhitespace(r[|r| - 1])
  {
    if s != [] && IsWhitespace(s[|s| - 1]) then TrimEnd(s[..|s| - 1]) else s
  }

  /** `String.prototype.trim`. */
  function Trim(s: string): (r: string)
    ensures r == [] || (!IsWhitespace(r[0]) && !IsWhitespace(r[|r| - 1]))
    ensures |r| <= |s|
  {
    TrimEnd(TrimStart(s))
  }

  /** A string is falsy after `trim()` exactly when every character of it is whitespace. */
  lemma TrimEmptyIffBlank(s: string)
    ensures Trim(s) == [] <==> AllWhitespace(s)
  {
    var t := TrimStart(s);
    assert t != [] ==> t[0] == s[|s| - |t|];
  }

  /** Leading whitespace before a text that starts with a non-whitespace character is all `TrimStart`
      removes. */
  lemma {:induction false} TrimStartAround(lead: string, rest: string)
    requires AllWhitespace(lead)
    requires rest != [] && !IsWhitespace(rest[0])
    ensures TrimStart(lead + rest) == rest
  {
    if lead == [] {
      assert lead + rest == rest;
    } else {
      assert (lead + rest)[0] == lead[0];
      assert (lead + rest)[1..] == lead[1..] + rest;
      TrimStartAround(lead[1..], rest);
    }
  }

  /** Trailing whitespace after a text that ends with a non-whitespace character is all `TrimEnd`
      removes. */
  lemma {:induction false} TrimEndAround(body: string, trail: string)
    requires AllWhitespace(trail)
    requires body != [] && !IsWhitespace(body[|body| - 1])
    ensures TrimEnd(body + trail) == body
  {
    if trail == [] {
      assert body + trail == body;
    } else {
      var s := body + trail;
      assert s[|s| - 1] == trail[|trail| - 1];
      assert s[..|s| - 1] == body + trail[..|trail| - 1];
      TrimEndAround(body, trail[..|trail| - 1]);
    }
  }

  /** Trimming removes whitespace padding and nothing else from a text that starts and ends with a
      non-whitespace character. */
  lemma TrimAround(lead: string, body: string, trail: string)
    requires AllWhitespace(lead) && AllWhitespace(trail)
    requires body != [] && !IsWhitespace(body[0]) && !IsWhitespace(body[|body| - 1])
    ensures Trim(lead + body + trail) == body
  {
    assert lead + body + trail == lead + (body + trail);
    assert (body + trail)[0] == body[0];
    TrimStartAround(lead, body + trail);
    TrimEndAround(body, trail);
  }

  /** `s.includes(t)`. */
  predicate Contains(s: string, t: string) {
    exists i :: 0 <= i <= |s| - |t| && s[i..][..|t|] == t
  }

  lemma ContainsPrefix(s: string, t: string)
    requires |t| <= |s| && s[..|t|] == t
    ensures Contains(s, t)
  {
    assert s[0..][..|t|] == t;
  }

  /** Every character of a contained string occurs in the containing one; the usual way to show that a
      fixed text does not contain a keyword. */
  lemma ContainsOnlyItsChars(s: string, t: string, c: char)
    requires Contains(s, t) && c in t
    ensures c in s
  {
    var i :| 0 <= i <= |s| - |t| && s[i..][..|t|] == t;
    var k :| 0 <= k < |t| && t[k] == c;
    assert s[i + k] == c;
  }

  /** `s.includes(n0) || s.includes(n1) || ...`, the condition of one arm of a chain. */
  predicate ContainsAny(s: string, needles: seq<string>) {
    needles != [] && (Contains(s, needles[0]) || ContainsAny(s, needles[1..]))
  }

  lemma ContainsAnyOfOne(s: string, a: string)
    ensures ContainsAny(s, [a]) <==> Contains(s, a)
  {
    assert [a][1..] == [];
  }

  lemma ContainsAnyOfTwo(s: string, a: string, b: string)
    ensures ContainsAny(s, [a, b]) <==> Contains(s, a) || Contains(s, b)
  {
    assert [a, b][1..] == [b];
    ContainsAnyOfOne(s, b);
  }

  lemma ContainsAnyOfThree(s: string, a: string, b: string, c: string)
    ensures ContainsAny(s, [a, b, c]) <==> Contains(s, a) || Contains(s, b) || Contains(s, c)
  {
    assert [a, b, c][1..] == [b, c];
    ContainsAnyOfTwo(s, b, c);
  }

  /** One arm of an if/else-if chain of substring tests: if `s` contains any of `needles`, answer `text`. */
  datatype Rule = Rule(needles: seq<string>, text: string)

  /** The index of the first rule whose test `s` passes: an if/else-if chain is tried top to bottom. */
  function FirstRule(rules: seq<Rule>, s: string): (r: Option<nat>)
    ensures r.Some? ==> r.value < |rules| && ContainsAny(s, rules[r.value].needles)
    ensures r.Some? ==> forall j :: 0 <= j < r.value ==> !ContainsAny(s, rules[j].needles)
    ensures r.None? ==> forall j :: 0 <= j < |rules| ==> !ContainsAny(s, rules[j].needles)
  {
    if rules == [] then None
    else if ContainsAny(s, rules[0].needles) then Some(0)
    else match FirstRule(rules[1..], s)
      case None => None
      case Some(k) => Some(k + 1)
  }

  /** The text an if/else-if chain of substring rules produces, `fallback` when no rule applies. */
  function FirstMatch(rules: seq<Rule>, s: string, fallback: string): (r: string)
    ensures r == fallback || exists k :: 0 <= k < |rules| && r == rules[k].text
  {
    match FirstRule(rules, s)
    case None => fallback
    case Some(k) => rules[k].text
  }

  predicate IsDigit(c: char) {
    '0' <= c <= '9'
  }

  function DigitChar(d: nat): (c: char)
    requires d < 10
    ensures IsDigit(c) && c as int - '0' as int == d
  {
    ('0' as int + d) as char
  }

  /** `${n}` for a non-negative integer: its decimal digits, most significant first, without leading zeros. */
  function Decimal(n: nat): (r: string)
    ensures r != [] && forall i :: 0 <= i < |r| ==> IsDigit(r[i])
    ensures r[0] == '0' ==> n == 0
  {
    if n < 10 then [DigitChar(n)] else Decimal(n / 10) + [DigitChar(n % 10)]
  }

  function DigitOf(c: char): nat
    requires IsDigit(c)
  {
    c as int - '0' as int
  }

  /** The value of a string of decimal digits. */
  function DigitsValue(s: string): nat
    requires forall i :: 0 <= i < |s| ==> IsDigit(s[i])
  {
    if s == [] then 0 else DigitsValue(s[..|s| - 1]) * 10 + DigitOf(s[|s| - 1])
  }

  /** Reading the rendered digits back gives the number: the rendering loses nothing. */
  lemma {:induction false} DecimalRoundTrip(n: nat)
    ensures DigitsValue(Decimal(n)) == n
  {
    if n >= 10 {
      var d := Decimal(n);
      assert d[..|d| - 1] == Decimal(n / 10);
      DecimalRoundTrip(n / 10);
    }
  }

  /** Different numbers render differently, so identifiers built from distinct clock readings differ. */
  lemma DecimalInjective(a: nat, b: nat)
    requires Decimal(a) == Decimal(b)
    ensures a == b
  {
    DecimalRoundTrip(a);
    DecimalRoundTrip(b);
  }
}
