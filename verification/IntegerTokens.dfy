/**
 * Decimal tokens of a byte string, as the built-in integer conversion reads them: surrounding
 * ASCII whitespace is stripped, a sign may come first, and single underscores may separate digits.
 */
module IntegerTokens {
  import opened Prelude

  const PLUS: byte := 43
  const MINUS: byte := 45
  const UNDERSCORE: byte := 95

  /** Space, tab, line feed, vertical tab, form feed and carriage return. */
  predicate IsWhitespace(b: byte) {
    b == 32 || 9 <= b <= 13
  }

  predicate IsDigit(b: byte) {
    48 <= b <= 57
  }

  predicate AllWhitespace(s: seq<byte>) {
    forall i :: 0 <= i < |s| ==> IsWhitespace(s[i])
  }

  // ----- stripping -----

  function TrimLeft(token: seq<byte>): (r: seq<byte>)
    ensures |r| <= |token| && r == token[|token| - |r|..] && AllWhitespace(token[..|token| - |r|])
    ensures r != [] ==> !IsWhitespace(r[0])
  {
    if token == [] || !IsWhitespace(token[0]) then token else TrimLeft(token[1..])
  }

  function TrimRight(token: seq<byte>): (r: seq<byte>)
    ensures r <= token && AllWhitespace(token[|r|..])
    ensures r != [] ==> !IsWhitespace(r[|r| - 1])
  {
    if token == [] || !IsWhitespace(token[|token| - 1]) then token
    else
      var front := token[..|token| - 1];
      var r := TrimRight(front);
      assert token[|r|..] == front[|r|..] + [token[|token| - 1]];
      r
  }

  function Strip(token: seq<byte>): seq<byte> {
    TrimRight(TrimLeft(token))
  }

  /** The whitespace after the token's text. */
  function Trail(token: seq<byte>): seq<byte> {
    TrimLeft(token)[|Strip(token)|..]
  }

  // ----- values -----

  predicate DigitOrUnderscore(b: byte) {
    IsDigit(b) || b == UNDERSCORE
  }

  /** Digits, with no underscore first, last or next to another. */
  predicate IsNumeral(s: seq<byte>) {
    && s != [] && IsDigit(s[0]) && IsDigit(s[|s| - 1])
    && (forall i :: 0 <= i < |s| ==> DigitOrUnderscore(s[i]))
    && (forall i :: 0 <= i < |s| - 1 ==> !(s[i] == UNDERSCORE && s[i + 1] == UNDERSCORE))
  }

  function DigitsValue(s: seq<byte>): int {
    if s == [] then 0
    else
      var front, last := s[..|s| - 1], s[|s| - 1];
      if last == UNDERSCORE then DigitsValue(front) else DigitsValue(front) * 10 + (last as int - 48)
  }

  predicate IsSigned(s: seq<byte>) {
    s != [] && (s[0] == PLUS || s[0] == MINUS)
  }

  function ParseSigned(s: seq<byte>): Option<int> {
    var digits := if IsSigned(s) then s[1..] else s;
    if !IsNumeral(digits) then None
    else if s[0] == MINUS then Some(-DigitsValue(digits))
    else Some(DigitsValue(digits))
  }

  /** `int(token)`. */
  function ParseInt(token: seq<byte>): Option<int> {
    ParseSigned(Strip(token))
  }

  // ----- printing -----

  function Digits(n: nat): (r: seq<byte>)
    ensures r != []
    ensures forall i :: 0 <= i < |r| ==> IsDigit(r[i])
  {
    if n < 10 then [(48 + n) as byte] else Digits(n / 10) + [(48 + n % 10) as byte]
  }

  lemma NothingToStrip(s: seq<byte>)
    requires s != [] && !IsWhitespace(s[0]) && !IsWhitespace(s[|s| - 1])
    ensures Strip(s) == s && Trail(s) == []
  {}

  /** Whitespace after a text that needs no stripping is its trail. */
  lemma StripAppended(text: seq<byte>, w: byte)
    requires text != [] && !IsWhitespace(text[0]) && !IsWhitespace(text[|text| - 1]) && IsWhitespace(w)
    ensures Strip(text + [w]) == text && Trail(text + [w]) == [w]
  {
    var token := text + [w];
    assert token[0] == text[0] && token[|token| - 1] == w && token[..|token| - 1] == text;
    assert TrimLeft(token) == token;
    assert TrimRight(token) == TrimRight(text) == text;
  }

  lemma {:induction false} PrintedValue(n: nat)
    ensures DigitsValue(Digits(n)) == n
  {
    if n < 10 {
      assert Digits(n)[..0] == [];
    } else {
      PrintedValue(n / 10);
      var s, k := Digits(n), |Digits(n / 10)|;
      assert s[..k] == Digits(n / 10) && s[k] == (48 + n % 10) as byte && |s| == k + 1;
    }
  }

  /** Printing a number and reading it back is the identity. */
  lemma ParsePrinted(n: nat)
    ensures ParseInt(Digits(n)) == Some(n)
  {
    hide Digits, DigitsValue, ParseInt;
    PrintedValue(n);
    PlainDigits(Digits(n));
  }

  lemma PlainDigits(s: seq<byte>)
    requires s != [] && forall i :: 0 <= i < |s| ==> IsDigit(s[i])
    ensures ParseInt(s) == Some(DigitsValue(s))
  {
    NothingToStrip(s);
    hide DigitsValue, Strip;
  }

  // ----- which tokens are read, and as what -----

  datatype Spelling = Spelling(lead: seq<byte>, sign: seq<byte>, digits: seq<byte>, trail: seq<byte>)

  /** Whitespace, at most one sign, digits with single underscores between them, whitespace. */
  predicate Spells(t: Spelling, token: seq<byte>) {
    && token == t.lead + t.sign + t.digits + t.trail && AllWhitespace(t.lead) && AllWhitespace(t.trail)
    && (t.sign == [] || t.sign == [PLUS] || t.sign == [MINUS]) && IsNumeral(t.digits)
  }

  function ValueOf(t: Spelling): int {
    if t.sign == [MINUS] then -DigitsValue(t.digits) else DigitsValue(t.digits)
  }

  /** A token is read exactly if it is so spelled, as the value of its digits, negated by a minus sign. */
  lemma ParseExactly(token: seq<byte>, value: int)
    ensures ParseInt(token) == Some(value) <==>
      exists t :: Spells(t, token)
                  && value == if t.sign == [MINUS] then -DigitsValue(t.digits) else DigitsValue(t.digits)
  {
    hide ParseInt, Spells, DigitsValue;
    if ParseInt(token) == Some(value) {
      var t := ParsedIsSpelled(token);
    }
    if t :| Spells(t, token) && value == ValueOf(t) {
      SpelledIsParsed(t, token);
    }
  }

  lemma ParsedIsSpelled(token: seq<byte>) returns (t: Spelling)
    requires ParseInt(token).Some?
    ensures Spells(t, token) && ParseInt(token) == Some(ValueOf(t))
  {
    var lead, trail := StripParts(token);
    hide Strip, Trail, DigitsValue, IsNumeral, AllWhitespace;
    var text := Strip(token);
    t := if IsSigned(text) then Spelling(lead, [text[0]], text[1..], trail) else Spelling(lead, [], text, trail);
    assert text == t.sign + t.digits;
    Regrouped(lead, t.sign, t.digits, trail);
    SignRead(t);
  }

  lemma Regrouped(a: seq<byte>, b: seq<byte>, c: seq<byte>, d: seq<byte>)
    ensures a + b + c + d == a + (b + c) + d
  {}

  lemma SpelledIsParsed(t: Spelling, token: seq<byte>)
    requires Spells(t, token)
    ensures ParseInt(token) == Some(ValueOf(t))
  {
    SignRead(t);
    Regrouped(t.lead, t.sign, t.digits, t.trail);
    StripAround(t.lead, t.sign + t.digits, t.trail);
    hide Strip, DigitsValue, IsNumeral, AllWhitespace, IsWhitespace, ParseSigned;
  }

  /** How the text between the whitespace reads. */
  lemma SignRead(t: Spelling)
    requires (t.sign == [] || t.sign == [PLUS] || t.sign == [MINUS]) && IsNumeral(t.digits)
    ensures var text := t.sign + t.digits;
      && text != [] && !IsWhitespace(text[0]) && !IsWhitespace(text[|text| - 1])
      && ParseSigned(text) == Some(ValueOf(t))
  {
    var text, d := t.sign + t.digits, t.digits;
    assert IsDigit(d[0]) && IsDigit(d[|d| - 1]);
    hide DigitsValue, IsNumeral;
    assert text[|text| - 1] == d[|d| - 1];
    if t.sign == [] {
      assert text == d;
    } else {
      assert text[1..] == d && text[0] == t.sign[0];
    }
  }

  lemma StripAround(lead: seq<byte>, text: seq<byte>, trail: seq<byte>)
    requires text != [] && !IsWhitespace(text[0]) && !IsWhitespace(text[|text| - 1])
    requires AllWhitespace(lead) && AllWhitespace(trail)
    ensures Strip(lead + text + trail) == text
  {
    hide IsWhitespace, AllWhitespace;
    ThreeParts(lead, text, trail);
    TrimLeftOf(lead, text + trail);
    TrimRightOf(text, trail);
  }

  lemma {:induction false} TrimLeftOf(lead: seq<byte>, rest: seq<byte>)
    requires AllWhitespace(lead) && rest != [] && !IsWhitespace(rest[0])
    ensures TrimLeft(lead + rest) == rest
  {
    if lead == [] {
      assert lead + rest == rest;
    } else {
      assert (lead + rest)[1..] == lead[1..] + rest;
      TrimLeftOf(lead[1..], rest);
    }
  }

  lemma {:induction false} TrimRightOf(rest: seq<byte>, trail: seq<byte>)
    requires AllWhitespace(trail) && rest != [] && !IsWhitespace(rest[|rest| - 1])
    ensures TrimRight(rest + trail) == rest
  {
    if trail == [] {
      assert rest + trail == rest;
    } else {
      var n := |trail| - 1;
      assert (rest + trail)[..|rest + trail| - 1] == rest + trail[..n];
      TrimRightOf(rest, trail[..n]);
    }
  }

  /** Underscores only separate. */
  lemma {:induction false} UnderscoresSeparate(a: seq<byte>, b: seq<byte>)
    ensures DigitsValue(a + [UNDERSCORE] + b) == DigitsValue(a + b)
  {
    if b == [] {
      assert (a + [UNDERSCORE] + b)[..|a|] == a && a + b == a;
    } else {
      var n := |b| - 1;
      assert (a + [UNDERSCORE] + b)[..|a| + 1 + n] == a + [UNDERSCORE] + b[..n] && (a + b)[..|a| + n] == a + b[..n];
      UnderscoresSeparate(a, b[..n]);
    }
  }

  /** Leading zeros count nothing. */
  lemma {:induction false} LeadingZero(digits: seq<byte>)
    ensures DigitsValue([48] + digits) == DigitsValue(digits)
  {
    if digits == [] {
      assert ([48] + digits)[..0] == [];
    } else {
      var n := |digits| - 1;
      assert ([48] + digits)[..n + 1] == [48] + digits[..n];
      LeadingZero(digits[..n]);
    }
  }

  /** An accepted token is whitespace around a non-empty text without whitespace that means the same. */
  lemma ParsedToken(token: seq<byte>)
    requires ParseInt(token).Some?
    ensures var text := Strip(token);
      && text != [] && (forall i :: 0 <= i < |text| ==> !IsWhitespace(text[i]) && text[i] != 35)
      && ParseInt(text) == ParseInt(token)
  {
    var text := Strip(token);
    hide Strip, DigitsValue;
    assert IsNumeral(if IsSigned(text) then text[1..] else text);
    forall i | 0 <= i < |text| ensures !IsWhitespace(text[i]) && text[i] != 35 {
      if IsSigned(text) && i > 0 { assert text[i] == text[1..][i - 1]; }
    }
    NothingToStrip(text);
  }

  /** The whitespace around the text of a token. */
  lemma StripParts(token: seq<byte>) returns (lead: seq<byte>, trail: seq<byte>)
    ensures token == lead + Strip(token) + trail && trail == Trail(token)
    ensures AllWhitespace(lead) && AllWhitespace(trail)
  {
    hide AllWhitespace, TrimLeft, TrimRight;
    var left := TrimLeft(token);
    lead, trail := token[..|token| - |left|], Trail(token);
    var text := Strip(token);
    PrefixCut(text, left);
    ThreeParts(lead, text, trail);
    assert token == lead + left by { SuffixCut(token, left); }
  }

  lemma PrefixCut(r: seq<byte>, s: seq<byte>)
    requires r <= s
    ensures s == r + s[|r|..]
  {}

  lemma SuffixCut(s: seq<byte>, r: seq<byte>)
    requires |r| <= |s| && r == s[|s| - |r|..]
    ensures s == s[..|s| - |r|] + r
  {}

  lemma ThreeParts(a: seq<byte>, b: seq<byte>, c: seq<byte>)
    ensures a + b + c == a + (b + c)
  {}

  lemma Slices(a: seq<byte>, b: seq<byte>, c: seq<byte>)
    ensures var all := a + b + c;
      all[..|a|] == a && all[|a|..|a| + |b|] == b && all[|a| + |b|..] == c
  {}

  /** Where the text of a token lies inside it. */
  lemma StripPlace(token: seq<byte>) returns (low: nat, high: nat)
    ensures low <= high <= |token| && token[low..high] == Strip(token) && token[high..] == Trail(token)
    ensures AllWhitespace(token[..low]) && AllWhitespace(token[high..])
  {
    var lead, trail := StripParts(token);
    hide Strip, Trail, AllWhitespace;
    Slices(lead, Strip(token), trail);
    low, high := |lead|, |lead| + |Strip(token)|;
  }
}
