/**
 * String operations shared by the backend (Python `str.lower`, `in`, `str.strip`) and the
 * views (JavaScript `toLowerCase`, `includes`, `toUpperCase`, number-to-text in templates).
 * Case mapping is restricted to the ASCII letters and whitespace to the ASCII characters that
 * Python's `str.isspace` accepts.
 */
module Text {

  predicate IsUpper(c: char) { 'A' <= c <= 'Z' }

  predicate IsLower(c: char) { 'a' <= c <= 'z' }

  /** ASCII lower-casing of one character; every other character is left alone. */
  function LowerChar(c: char): (d: char)
    ensures !IsUpper(d)
    ensures IsUpper(c) ==> IsLower(d)
    ensures !IsUpper(c) ==> d == c
  {
    if IsUpper(c) then (c as int + 32) as char else c
  }

  /** ASCII upper-casing of one character; every other character is left alone. */
  function UpperChar(c: char): (d: char)
    ensures !IsLower(d)
    ensures IsLower(c) ==> IsUpper(d)
    ensures !IsLower(c) ==> d == c
  {
    if IsLower(c) then (c as int - 32) as char else c
  }

  lemma LowerUpperChar(c: char)
    ensures LowerChar(UpperChar(c)) == LowerChar(c)
  {
  }

  /** `text.lower()` / `text.toLowerCase()`. */
  function Lower(s: string): (r: string)
    ensures |r| == |s|
    ensures forall i :: 0 <= i < |s| ==> r[i] == LowerChar(s[i])
  {
    seq(|s|, i requires 0 <= i < |s| => LowerChar(s[i]))
  }

  /** Lower-casing a lower-cased string changes nothing. */
  lemma LowerIdempotent(s: string)
    ensures Lower(Lower(s)) == Lower(s)
  {
    assert forall i :: 0 <= i < |s| ==> Lower(Lower(s))[i] == Lower(s)[i];
  }

  /** `word` occurs in `text` starting at position `i`. */
  predicate OccursAt(text: string, word: string, i: nat) {
    i + |word| <= |text| && text[i..i + |word|] == word
  }

  /** Substring test: Python `word in text`, JavaScript `text.includes(word)`. */
  predicate Contains(text: string, word: string) {
    exists i: nat :: i <= |text| && OccursAt(text, word, i)
  }

  /** Every string contains the empty string. */
  lemma ContainsEmpty(text: string)
    ensures Contains(text, "")
  {
    assert OccursAt(text, "", 0);
  }

  /** A word that is longer than the text cannot occur in it. */
  lemma NotContainsLonger(text: string, word: string)
    requires |text| < |word|
    ensures !Contains(text, word)
  {
  }

  /** A word occurs in a text when it occurs at a known position. */
  lemma ContainsAt(text: string, word: string, i: nat)
    requires i + |word| <= |text| && text[i..i + |word|] == word
    ensures Contains(text, word)
  {
    assert OccursAt(text, word, i);
  }

  /** A word with a character that the text lacks does not occur in the text. */
  lemma NotContainsMissingChar(text: string, word: string, c: char)
    requires c in word && c !in text
    ensures !Contains(text, word)
  {
    var k :| 0 <= k < |word| && word[k] == c;
    forall i: nat | i <= |text| ensures !OccursAt(text, word, i) {
      if i + |word| <= |text| {
        assert text[i..i + |word|][k] != word[k];
      }
    }
  }

  /** Lower-casing carries an occurrence over to the lower-cased strings. */
  lemma ContainsLower(text: string, word: string)
    requires Contains(text, word)
    ensures Contains(Lower(text), Lower(word))
  {
    var i: nat :| i <= |text| && OccursAt(text, word, i);
    assert Lower(text)[i..i + |word|] == Lower(word);
    assert OccursAt(Lower(text), Lower(word), i);
  }

  /** The whitespace characters Python's `str.strip()` removes, restricted to ASCII. */
  predicate IsSpace(c: char) {
    c == ' ' || 9 <= c as int <= 13 || 28 <= c as int <= 31
  }

  predicate AllSpace(s: string) {
    forall i :: 0 <= i < |s| ==> IsSpace(s[i])
  }

  /** The number of whitespace characters at the front of `s`. */
  function LeadingSpace(s: string): (k: nat)
    ensures k <= |s|
    ensures AllSpace(s[..k])
    ensures k < |s| ==> !IsSpace(s[k])
  {
    if s != [] && IsSpace(s[0]) then
      var k := 1 + LeadingSpace(s[1..]);
      assert forall i :: 1 <= i < k ==> s[..k][i] == s[1..][..k - 1][i - 1];
      k
    else 0
  }

  /** The length of `s` once the whitespace at its end is removed. */
  function TrailingStart(s: string): (j: nat)
    ensures j <= |s|
    ensures AllSpace(s[j..])
    ensures j > 0 ==> !IsSpace(s[j - 1])
  {
    if s != [] && IsSpace(s[|s| - 1]) then
      var j := TrailingStart(s[..|s| - 1]);
      assert s[j..] == s[..|s| - 1][j..] + [s[|s| - 1]];
      j
    else |s|
  }

  /**
   * `s.strip()`: the slice of `s` left after removing whitespace from both ends. It is
   * empty exactly when `s` is all whitespace, and otherwise starts and ends with a
   * non-whitespace character.
   */
  function Strip(s: string): (r: string)
    ensures r == [] <==> AllSpace(s)
    ensures r != [] ==> !IsSpace(r[0]) && !IsSpace(r[|r| - 1])
    ensures |r| <= |s|
  {
    var i := LeadingSpace(s);
    var t := s[i..];
    var j := TrailingStart(t);
    assert s == s[..i] + t[..j] + t[j..];
    t[..j]
  }

  /** What `strip()` removes is whitespace only: the result sits in `s` between two all-whitespace ends. */
  lemma StripSlice(s: string)
    ensures exists i, j :: 0 <= i <= j <= |s| && Strip(s) == s[i..j] && AllSpace(s[..i]) && AllSpace(s[j..])
  {
    var i := LeadingSpace(s);
    var t := s[i..];
    var j := TrailingStart(t);
    assert Strip(s) == s[i..i + j];
    assert s[i + j..] == t[j..];
  }

  /** Stripping a stripped string changes nothing. */
  lemma StripIdempotent(s: string)
    ensures Strip(Strip(s)) == Strip(s)
  {
    var r := Strip(s);
    if r != [] {
      assert LeadingSpace(r) == 0;
      assert r[0..] == r;
      assert TrailingStart(r) == |r|;
      assert r[..|r|] == r;
    }
  }

  /** The decimal digit for `d`. */
  function DigitChar(d: nat): (c: char)
    requires d < 10
    ensures '0' <= c <= '9'
  {
    ('0' as int + d) as char
  }

  /** Decimal text of a natural number, as a template literal renders it. */
  function NatToString(n: nat): (r: string)
    ensures |r| >= 1
    ensures forall i :: 0 <= i < |r| ==> '0' <= r[i] <= '9'
  {
    if n < 10 then [DigitChar(n)] else NatToString(n / 10) + [DigitChar(n % 10)]
  }

  /** Reads decimal digits back into a number: the inverse of `NatToString`. */
  function ParseDigits(s: string): nat
  {
    if s == [] then 0
    else 10 * ParseDigits(s[..|s| - 1]) + (if '0' <= s[|s| - 1] <= '9' then s[|s| - 1] as int - '0' as int else 0)
  }

  lemma {:induction false} ParseNatToString(n: nat)
    ensures ParseDigits(NatToString(n)) == n
  {
    var s := NatToString(n);
    if n < 10 {
      assert s[..|s| - 1] == [];
    } else {
      assert s[..|s| - 1] == NatToString(n / 10);
      ParseNatToString(n / 10);
    }
  }

  /** Different numbers render as different text. */
  lemma NatToStringInjective(a: nat, b: nat)
    requires a != b
    ensures NatToString(a) != NatToString(b)
  {
    ParseNatToString(a);
    ParseNatToString(b);
  }
}
