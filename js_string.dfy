/**
 * The JavaScript string built-ins the application relies on: the whitespace class of `\s`, `trim`,
 * `parseInt(s, 10)`, `Number.prototype.toString`, `toLowerCase`, `startsWith`, `includes`, and the
 * two regular-expression rewrites `replace(/\D/g, '')` and `replace(/\s+/g, c)`.
 */
module JsString {
  import opened Values

  /** The WhiteSpace and LineTerminator code points: what `\s` matches and what `trim` and `parseInt` skip. */
  predicate IsWhitespace(c: char) {
    || c == ' '
    || ('\t' <= c <= '\r')
    || c == '\U{A0}'
    || c == '\U{1680}'
    || ('\U{2000}' <= c <= '\U{200A}')
    || c == '\U{2028}'
    || c == '\U{2029}'
    || c == '\U{202F}'
    || c == '\U{205F}'
    || c == '\U{3000}'
    || c == '\U{FEFF}'
  }

  predicate IsDigit(c: char) {
    '0' <= c <= '9'
  }

  predicate AllDigits(s: string) {
    forall i :: 0 <= i < |s| ==> IsDigit(s[i])
  }

  predicate AllWhitespace(s: string) {
    forall i :: 0 <= i < |s| ==> IsWhitespace(s[i])
  }

  // ---------------------------------------------------------------- trim

  /** `s.trimStart()`: the suffix of `s` left after its leading whitespace. */
  function TrimStart(s: string): (r: string)
    ensures |r| <= |s| && r == s[|s| - |r|..]
    ensures r != [] ==> !IsWhitespace(r[0])
    ensures AllWhitespace(s[..|s| - |r|])
  {
    if s != [] && IsWhitespace(s[0]) then TrimStart(s[1..]) else s
  }

  /** `s.trimEnd()`: the prefix of `s` left after its trailing whitespace. */
  function TrimEnd(s: string): (r: string)
    ensures |r| <= |s| && r == s[..|r|]
    ensures r != [] ==> !IsWhitespace(r[|r| - 1])
    ensures AllWhitespace(s[|r|..])
  {
    if s != [] && IsWhitespace(s[|s| - 1]) then TrimEnd(s[..|s| - 1]) else s
  }

  /** `s.trim()`. */
  function Trim(s: string): string {
    TrimEnd(TrimStart(s))
  }

  /**
   * `!s.trim()`: nothing is left once the string is trimmed, which is to say every character of
   * it is whitespace (`TrimEmptyIffBlank`).
   */
  predicate IsBlank(s: string) {
    AllWhitespace(s)
  }

  lemma {:induction false} TrimStartOfWhitespace(s: string)
    requires AllWhitespace(s)
    ensures TrimStart(s) == []
  {
    if s != [] {
      TrimStartOfWhitespace(s[1..]);
    }
  }

  /** Trimming leaves the empty string exactly when every character is whitespace. */
  lemma {:induction false} TrimEmptyIffBlank(s: string)
    ensures Trim(s) == "" <==> IsBlank(s)
  {
    var t := TrimStart(s);
    if AllWhitespace(s) {
      TrimStartOfWhitespace(s);
      assert TrimEnd(t) == [];
    }
    if TrimEnd(t) == [] {
      // TrimEnd removed all of t, so t is whitespace; a non-empty t would start with a non-space.
      assert AllWhitespace(t[0..]);
      assert t == [];
      assert s[..|s| - |t|] == s;
    }
  }

  // ---------------------------------------------------------------- parseInt and toString

  /** The longest prefix of `s` made of decimal digits. */
  function DigitPrefix(s: string): (r: string)
    ensures |r| <= |s| && r == s[..|r|]
    ensures AllDigits(r)
    ensures |r| < |s| ==> !IsDigit(s[|r|])
  {
    if s != [] && IsDigit(s[0]) then [s[0]] + DigitPrefix(s[1..]) else []
  }

  function DigitValue(c: char): nat
    requires IsDigit(c)
  {
    (c as int) - ('0' as int)
  }

  /** The number that a string of decimal digits denotes (most significant digit first). */
  function DigitsValue(ds: string): nat
    requires AllDigits(ds)
  {
    if ds == [] then 0 else DigitsValue(ds[..|ds| - 1]) * 10 + DigitValue(ds[|ds| - 1])
  }

  /**
   * `parseInt(s, 10)`, with `None` for `NaN`: leading whitespace is skipped, one optional sign is
   * read, then the longest run of decimal digits; anything after that run is ignored, and no digit
   * at all gives `NaN`.
   */
  function ParseInt(s: string): Option<int> {
    var t := TrimStart(s);
    if t != [] && t[0] == '-' then Negate(ParseDigits(t[1..]))
    else if t != [] && t[0] == '+' then ParseDigits(t[1..])
    else ParseDigits(t)
  }

  /** The value of the leading digit run of `body`, or `NaN` when it does not start with a digit. */
  function ParseDigits(body: string): Option<int> {
    var ds := DigitPrefix(body);
    if ds == [] then None else Some(DigitsValue(ds))
  }

  function Negate(v: Option<int>): Option<int> {
    match v
    case None => None
    case Some(x) => Some(-x)
  }

  function DigitChar(d: nat): (c: char)
    requires d < 10
    ensures IsDigit(c) && DigitValue(c) == d
  {
    ('0' as int + d) as char
  }

  /** `n.toString()` for a non-negative integer. */
  function NatToString(n: nat): (r: string)
    ensures r != [] && AllDigits(r)
  {
    if n < 10 then [DigitChar(n)] else NatToString(n / 10) + [DigitChar(n % 10)]
  }

  /** `n.toString()` for an integer. */
  function IntToString(n: int): string {
    if n < 0 then "-" + NatToString(-n) else NatToString(n)
  }

  lemma {:induction false} DigitsValueOfNatToString(n: nat)
    ensures DigitsValue(NatToString(n)) == n
  {
    if n >= 10 {
      var s := NatToString(n);
      assert s[..|s| - 1] == NatToString(n / 10);
      DigitsValueOfNatToString(n / 10);
    }
  }

  lemma {:induction false} DigitPrefixOfDigits(ds: string, rest: string)
    requires AllDigits(ds)
    requires rest == [] || !IsDigit(rest[0])
    ensures DigitPrefix(ds + rest) == ds
  {
    if ds != [] {
      assert (ds + rest)[1..] == ds[1..] + rest;
      DigitPrefixOfDigits(ds[1..], rest);
    } else {
      assert ds + rest == rest;
    }
  }

  lemma DigitIsNotSpaceOrSign(c: char)
    requires IsDigit(c)
    ensures !IsWhitespace(c) && c != '-' && c != '+'
  {
  }

  lemma ParseIntOfDigits(ds: string, rest: string)
    requires ds != [] && AllDigits(ds)
    requires rest == [] || !IsDigit(rest[0])
    ensures ParseInt(ds + rest) == Some(DigitsValue(ds))
  {
    var s := ds + rest;
    assert s[0] == ds[0];
    DigitIsNotSpaceOrSign(s[0]);
    assert TrimStart(s) == s;
    DigitPrefixOfDigits(ds, rest);
  }

  lemma ParseIntAfterMinus(body: string)
    ensures ParseInt(['-'] + body) == Negate(ParseDigits(body))
  {
    var s := ['-'] + body;
    assert s[0] == '-' && !IsWhitespace(s[0]);
    assert TrimStart(s) == s;
    assert s[1..] == body;
  }

  lemma ParseIntOfNegatedDigits(ds: string, rest: string)
    requires ds != [] && AllDigits(ds)
    requires rest == [] || !IsDigit(rest[0])
    ensures ParseInt(['-'] + (ds + rest)) == Some(-(DigitsValue(ds) as int))
  {
    calc {
      ParseInt(['-'] + (ds + rest));
      { ParseIntAfterMinus(ds + rest); }
      Negate(ParseDigits(ds + rest));
      { ParseDigitsOfDigits(ds, rest); }
      Negate(Some(DigitsValue(ds)));
    }
  }

  lemma ParseDigitsOfDigits(ds: string, rest: string)
    requires ds != [] && AllDigits(ds)
    requires rest == [] || !IsDigit(rest[0])
    ensures ParseDigits(ds + rest) == Some(DigitsValue(ds))
  {
    DigitPrefixOfDigits(ds, rest);
  }

  /**
   * `parseInt` reads back the decimal form of any integer, whatever non-digit text follows it
   * (so `parseInt("12abc", 10)` is 12).
   */
  lemma ParseIntOfIntToString(n: int, rest: string)
    requires rest == [] || !IsDigit(rest[0])
    ensures ParseInt(IntToString(n) + rest) == Some(n)
  {
    var m: nat := if n < 0 then -n else n;
    var digits := NatToString(m);
    DigitsValueOfNatToString(m);
    var text := IntToString(n) + rest;
    if n < 0 {
      assert text == ['-'] + (digits + rest);
      ParseIntOfNegatedDigits(digits, rest);
    } else {
      assert text == digits + rest;
      ParseIntOfDigits(digits, rest);
    }
  }

  /** Text with no decimal digit anywhere parses to `NaN`. */
  lemma ParseIntWithoutDigits(s: string)
    requires forall i :: 0 <= i < |s| ==> !IsDigit(s[i])
    ensures ParseInt(s) == None
  {
    var t := TrimStart(s);
    if t != [] && (t[0] == '-' || t[0] == '+') && |t| > 1 {
      assert t[1..][0] == s[|s| - |t| + 1];
    } else if t != [] && t[0] != '-' && t[0] != '+' {
      assert t[0] == s[|s| - |t|];
    }
  }

  // ---------------------------------------------------------------- case and search

  /** `toLowerCase` on one character; only the ASCII letters are mapped. */
  function LowerChar(c: char): char {
    if 'A' <= c <= 'Z' then (c as int + 32) as char else c
  }

  function ToLower(s: string): (r: string)
    ensures |r| == |s|
  {
    if s == [] then [] else [LowerChar(s[0])] + ToLower(s[1..])
  }

  /** Lower-casing twice is lower-casing once. */
  lemma {:induction false} ToLowerIdempotent(s: string)
    ensures ToLower(ToLower(s)) == ToLower(s)
  {
    if s != [] {
      ToLowerIdempotent(s[1..]);
    }
  }

  /** `s.startsWith(prefix)`. */
  predicate StartsWith(s: string, prefix: string) {
    |prefix| <= |s| && s[..|prefix|] == prefix
  }

  /** `s.includes(needle)`. */
  predicate Contains(s: string, needle: string)
    decreases |s|
  {
    StartsWith(s, needle) || (s != [] && Contains(s[1..], needle))
  }

  /** `needle` occurs in `s` starting at position `i`. */
  predicate OccursAt(s: string, needle: string, i: int) {
    0 <= i <= |s| - |needle| && s[i..i + |needle|] == needle
  }

  /** `includes` holds exactly when `needle` occurs at some position of `s`. */
  lemma {:induction false} ContainsIff(s: string, needle: string)
    ensures Contains(s, needle) <==> exists i :: OccursAt(s, needle, i)
    decreases |s|
  {
    if StartsWith(s, needle) {
      assert OccursAt(s, needle, 0);
    } else if s != [] {
      ContainsIff(s[1..], needle);
      if Contains(s[1..], needle) {
        var i :| OccursAt(s[1..], needle, i);
        assert s[1..][i..i + |needle|] == s[i + 1..i + 1 + |needle|];
        assert OccursAt(s, needle, i + 1);
      }
      if exists i :: OccursAt(s, needle, i) {
        var i :| OccursAt(s, needle, i);
        assert i != 0;
        assert s[1..][i - 1..i - 1 + |needle|] == s[i..i + |needle|];
        assert OccursAt(s[1..], needle, i - 1);
      }
    }
  }

  // ---------------------------------------------------------------- regular-expression rewrites

  /** `s.replace(/\D/g, '')`: the digits of `s`, in order. */
  function KeepDigits(s: string): (r: string)
    ensures AllDigits(r) && |r| <= |s|
  {
    if s == [] then []
    else if IsDigit(s[0]) then [s[0]] + KeepDigits(s[1..])
    else KeepDigits(s[1..])
  }

  /** `s.replace(/\s+/g, sep)`: every maximal run of whitespace becomes the one character `sep`. */
  function CollapseWhitespace(s: string, sep: char): (r: string)
    ensures |r| <= |s|
    decreases |s|
  {
    if s == [] then []
    else if IsWhitespace(s[0]) then
      var rest := TrimStart(s);
      assert rest != s;
      [sep] + CollapseWhitespace(rest, sep)
    else [s[0]] + CollapseWhitespace(s[1..], sep)
  }

  /** `s` with every occurrence of the character `x` removed. */
  function Without(s: string, x: char): string {
    if s == [] then [] else (if s[0] == x then [] else [s[0]]) + Without(s[1..], x)
  }

  /** `s` with all whitespace removed. */
  function WithoutWhitespace(s: string): string {
    if s == [] then [] else (if IsWhitespace(s[0]) then [] else [s[0]]) + WithoutWhitespace(s[1..])
  }

  /** Dropping the non-digits of an all-digit string leaves it as it is. */
  lemma {:induction false} KeepDigitsOfDigits(s: string)
    requires AllDigits(s)
    ensures KeepDigits(s) == s
  {
    if s != [] {
      KeepDigitsOfDigits(s[1..]);
    }
  }

  /** Collapsing with a non-whitespace separator leaves no whitespace behind. */
  lemma {:induction false} CollapseWhitespaceLeavesNone(s: string, sep: char)
    requires !IsWhitespace(sep)
    ensures forall i :: 0 <= i < |CollapseWhitespace(s, sep)| ==> !IsWhitespace(CollapseWhitespace(s, sep)[i])
    decreases |s|
  {
    if s != [] {
      if IsWhitespace(s[0]) {
        CollapseWhitespaceLeavesNone(TrimStart(s), sep);
      } else {
        CollapseWhitespaceLeavesNone(s[1..], sep);
      }
    }
  }

  /** Text without whitespace is not changed by collapsing. */
  lemma {:induction false} CollapseWhitespaceOfPlain(s: string, sep: char)
    requires forall i :: 0 <= i < |s| ==> !IsWhitespace(s[i])
    ensures CollapseWhitespace(s, sep) == s
  {
    if s != [] {
      CollapseWhitespaceOfPlain(s[1..], sep);
    }
  }

  lemma {:induction false} WithoutWhitespaceOfTrimStart(s: string)
    ensures WithoutWhitespace(TrimStart(s)) == WithoutWhitespace(s)
  {
    if s != [] && IsWhitespace(s[0]) {
      WithoutWhitespaceOfTrimStart(s[1..]);
    }
  }

  /**
   * Collapsing only rewrites whitespace: once the separators are removed again, what is left
   * is the text with its whitespace removed, provided the text did not contain the separator.
   */
  lemma {:induction false} CollapseWhitespaceKeepsText(s: string, sep: char)
    requires !IsWhitespace(sep)
    requires forall i :: 0 <= i < |s| ==> s[i] != sep
    ensures Without(CollapseWhitespace(s, sep), sep) == WithoutWhitespace(s)
    decreases |s|
  {
    if s != [] {
      var r := CollapseWhitespace(s, sep);
      if IsWhitespace(s[0]) {
        var rest := TrimStart(s);
        assert forall i :: 0 <= i < |rest| ==> rest[i] == s[|s| - |rest| + i];
        CollapseWhitespaceKeepsText(rest, sep);
        WithoutWhitespaceOfTrimStart(s);
        assert r == [sep] + CollapseWhitespace(rest, sep);
        assert r[1..] == CollapseWhitespace(rest, sep);
      } else {
        CollapseWhitespaceKeepsText(s[1..], sep);
        assert r[1..] == CollapseWhitespace(s[1..], sep);
      }
    }
  }
}
