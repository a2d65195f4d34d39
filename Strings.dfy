/**
 * The JavaScript string built-ins the application uses, on `seq<char>`:
 * `trim`, `split` on one character, `toUpperCase` (ASCII letters only),
 * and the decimal `toString` of a non-negative integer.
 */
module Strings {

  /** JavaScript's WhiteSpace and LineTerminator code points: what `trim` removes. */
  predicate IsWhitespace(c: char) {
    c == '\t' || c == '\n' || c == '\U{000B}' || c == '\U{000C}' || c == '\r' || c == ' ' ||
    c == '\U{00A0}' || c == '\U{1680}' || ('\U{2000}' <= c <= '\U{200A}') ||
    c == '\U{2028}' || c == '\U{2029}' || c == '\U{202F}' || c == '\U{205F}' ||
    c == '\U{3000}' || c == '\U{FEFF}'
  }

  predicate AllWhitespace(s: string) {
    forall i :: 0 <= i < |s| ==> IsWhitespace(s[i])
  }

  /** `s.trimStart()`: drops the longest all-whitespace prefix. */
  function TrimStart(s: string): (r: string)
    ensures |r| <= |s| && r == s[|s| - |r|..]
    ensures AllWhitespace(s[..|s| - |r|])
    ensures r == [] || !IsWhitespace(r[0])
  {
    if |s| == 0 || !IsWhitespace(s[0]) then s
    else
      var r := TrimStart(s[1..]);
      assert s[1..][|s| - 1 - |r|..] == s[|s| - |r|..];
      assert s[..|s| - |r|] == [s[0]] + s[1..][..|s| - 1 - |r|];
      r
  }

  /** `s.trimEnd()`: drops the longest all-whitespace suffix. */
  function TrimEnd(s: string): (r: string)
    ensures |r| <= |s| && r == s[..|r|]
    ensures AllWhitespace(s[|r|..])
    ensures r == [] || !IsWhitespace(r[|r| - 1])
  {
    if |s| == 0 || !IsWhitespace(s[|s| - 1]) then s
    else
      var r := TrimEnd(s[..|s| - 1]);
      assert s[..|s| - 1][..|r|] == s[..|r|];
      assert s[|r|..] == s[..|s| - 1][|r|..] + [s[|s| - 1]];
      r
  }

  /** `s.trim()`: what is left once the whitespace on both ends is removed; it neither starts
      nor ends with whitespace. */
  function Trim(s: string): (r: string)
    ensures |r| <= |s|
    ensures exists k :: (0 <= k <= |s| - |r| && r == s[k..k + |r|] &&
                         AllWhitespace(s[..k]) && AllWhitespace(s[k + |r|..]))
    ensures r == [] || (!IsWhitespace(r[0]) && !IsWhitespace(r[|r| - 1]))
  {
    var t := TrimStart(s);
    var r := TrimEnd(t);
    assert r == [] || r[0] == t[0];
    var k := |s| - |t|;
    PrefixOfSuffix(s, k, r);
    assert 0 <= k <= |s| - |r| && r == s[k..k + |r|] && AllWhitespace(s[..k]) && AllWhitespace(s[k + |r|..]);
    r
  }

  /** A prefix `r` of `s[k..]` whose rest is whitespace is the slice `s[k..k + |r|]`, followed by
      whitespace only. */
  lemma PrefixOfSuffix(s: string, k: nat, r: string)
    requires k <= |s| && |r| <= |s| - k && r == s[k..][..|r|] && AllWhitespace(s[k..][|r|..])
    ensures r == s[k..k + |r|] && AllWhitespace(s[k + |r|..])
  {
    assert s[k + |r|..] == s[k..][|r|..];
  }

  /** `!s.trim()`: the string is empty once trimmed, which is exactly when every character of it
      is whitespace. */
  predicate IsBlank(s: string): (r: bool)
    ensures r <==> AllWhitespace(s)
  {
    Trim(s) == []
  }

  /** ASCII approximation of `toUpperCase` on one character. */
  function UpperChar(c: char): (r: char)
    ensures 'a' <= c <= 'z' ==> r as int == c as int - 32
    ensures !('a' <= c <= 'z') ==> r == c
  {
    if 'a' <= c <= 'z' then (c as int - 32) as char else c
  }

  /** `s.toUpperCase()`, character by character. */
  function ToUpper(s: string): (r: string)
    ensures |r| == |s|
    ensures forall i :: 0 <= i < |s| ==> r[i] == UpperChar(s[i])
  {
    if |s| == 0 then [] else [UpperChar(s[0])] + ToUpper(s[1..])
  }

  /** `s.split(sep)`: the pieces between occurrences of `sep`, empty pieces included. */
  function Split(s: string, sep: char): (r: seq<string>)
    ensures |r| >= 1
    ensures forall i :: 0 <= i < |r| ==> sep !in r[i]
    ensures Join(r, sep) == s
  {
    if |s| == 0 then [[]]
    else
      var rest := Split(s[1..], sep);
      if s[0] == sep then
        [[]] + rest
      else
        JoinExtendFirst([s[0]], rest, sep);
        [[s[0]] + rest[0]] + rest[1..]
  }

  /** The first piece of a split is the longest prefix without `sep`: it runs to the first
      `sep`, or to the end when there is none. */
  lemma SplitFirstPiece(s: string, sep: char)
    ensures var w := Split(s, sep)[0];
      |w| <= |s| && w == s[..|w|] && (|w| < |s| <==> sep in s) && (|w| < |s| ==> s[|w|] == sep)
  {
  }

  /** `words.join(sep)`, the inverse of `Split`. */
  function Join(words: seq<string>, sep: char): string {
    if |words| == 0 then []
    else if |words| == 1 then words[0]
    else words[0] + [sep] + Join(words[1..], sep)
  }

  lemma JoinExtendFirst(x: string, words: seq<string>, sep: char)
    requires |words| >= 1
    ensures Join([x + words[0]] + words[1..], sep) == x + Join(words, sep)
  {
  }

  function DigitChar(d: nat): (c: char)
    requires d < 10
    ensures '0' <= c <= '9' && DigitValue(c) == d
  {
    ('0' as int + d) as char
  }

  function DigitValue(c: char): nat {
    if '0' <= c <= '9' then c as nat - '0' as nat else 0
  }

  predicate IsDigits(s: string) {
    forall i :: 0 <= i < |s| ==> '0' <= s[i] <= '9'
  }

  /** The decimal digits of a string read back as a number. */
  function ParseDecimal(s: string): nat {
    if |s| == 0 then 0 else 10 * ParseDecimal(s[..|s| - 1]) + DigitValue(s[|s| - 1])
  }

  /** `n.toString()` for a non-negative integer: decimal digits, no leading zero. */
  function NatToString(n: nat): (r: string)
    ensures |r| >= 1 && IsDigits(r)
    ensures r[0] == '0' ==> n == 0
    ensures n == 0 ==> r == "0"
    ensures ParseDecimal(r) == n
  {
    if n < 10 then [DigitChar(n)]
    else
      var prefix := NatToString(n / 10);
      var r := prefix + [DigitChar(n % 10)];
      assert r[..|r| - 1] == prefix;
      assert ParseDecimal(r) == 10 * (n / 10) + n % 10;
      r
  }

  /** Distinct numbers print differently. */
  lemma NatToStringInjective(m: nat, n: nat)
    requires NatToString(m) == NatToString(n)
    ensures m == n
  {
  }
}
