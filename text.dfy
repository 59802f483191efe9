/**
 * The string primitives the knowledge base and the engine rely on:
 * Python's `str.lower()`, the `in` substring test, `str.split()[0]`,
 * `re.findall(r'\w+', ...)` and the ordering of `str` used by `list.sort`.
 */
module Text {
  import opened Wrappers

  /** An optional string that Python treats as true: present and non-empty. */
  predicate IsGiven(o: Option<string>) {
    o.Some? && o.value != ""
  }

  /** A given track label must hold a token, since the source takes `split()[0]` of it. */
  predicate TrackHasLetter(serie: Option<string>) {
    IsGiven(serie) ==> HasToken(serie.value)
  }

  // ---------------------------------------------------------------------------
  // Whitespace and the first token of a track label (`serie_bac.split()[0]`)
  // ---------------------------------------------------------------------------

  /** The characters `str.split()` treats as separators (those for which `str.isspace()` holds). */
  predicate IsSpace(c: char) {
    || ('\t' <= c <= '\r')
    || ('\U{1C}' <= c <= '\U{1F}')
    || c == ' ' || c == '\U{85}' || c == '\U{A0}' || c == '\U{1680}'
    || ('\U{2000}' <= c <= '\U{200A}')
    || c == '\U{2028}' || c == '\U{2029}' || c == '\U{202F}' || c == '\U{205F}' || c == '\U{3000}'
  }

  /** `s.split()` is non-empty, so `s.split()[0]` does not raise. */
  predicate HasToken(s: string) {
    exists i :: 0 <= i < |s| && !IsSpace(s[i])
  }

  /** Number of leading whitespace characters. */
  function LeadingSpaces(s: string): (n: nat)
    ensures n <= |s|
    ensures forall i :: 0 <= i < n ==> IsSpace(s[i])
    ensures n < |s| ==> !IsSpace(s[n])
  {
    if s == [] || !IsSpace(s[0]) then 0 else 1 + LeadingSpaces(s[1..])
  }

  /** Number of leading non-whitespace characters. */
  function LeadingNonSpaces(s: string): (n: nat)
    ensures n <= |s|
    ensures forall i :: 0 <= i < n ==> !IsSpace(s[i])
    ensures n < |s| ==> IsSpace(s[n])
  {
    if s == [] || IsSpace(s[0]) then 0 else 1 + LeadingNonSpaces(s[1..])
  }

  /**
   * `s.split()[0]`: the first maximal run of non-whitespace characters.
   * The result is preceded in `s` only by whitespace and followed by
   * whitespace or the end of `s`.
   */
  function FirstToken(s: string): (t: string)
    requires HasToken(s)
    ensures t != []
    ensures forall i :: 0 <= i < |t| ==> !IsSpace(t[i])
    ensures exists k :: 0 <= k && k + |t| <= |s| && t <= s[k..]
                        && (forall i :: 0 <= i < k ==> IsSpace(s[i]))
                        && (k + |t| == |s| || IsSpace(s[k + |t|]))
  {
    var k := LeadingSpaces(s);
    assert k < |s| by {
      var i :| 0 <= i < |s| && !IsSpace(s[i]);
    }
    var n := LeadingNonSpaces(s[k..]);
    assert s[k..][..n] == s[k..k + n] && s[k..k + n] <= s[k..];
    s[k..k + n]
  }

  // ---------------------------------------------------------------------------
  // Lower-casing and the substring test
  // ---------------------------------------------------------------------------

  /**
   * `str.lower()` on one character, for the characters the knowledge base
   * uses: ASCII and Latin-1 capitals (French accented letters) and Œ.
   */
  function LowerChar(c: char): char {
    if 'A' <= c <= 'Z' then (c as int + 32) as char
    else if 'À' <= c <= 'Þ' && c != '×' then (c as int + 32) as char
    else if c == 'Œ' then 'œ'
    else c
  }

  /** `s.lower()`, character by character. */
  function Lower(s: string): (r: string)
    ensures |r| == |s|
    ensures forall i :: 0 <= i < |s| ==> r[i] == LowerChar(s[i])
  {
    seq(|s|, i requires 0 <= i < |s| => LowerChar(s[i]))
  }

  /** Python's `sub in s`: `sub` occurs in `s` as a contiguous block. */
  predicate Contains(s: string, sub: string) {
    exists i :: 0 <= i <= |s| && sub <= s[i..]
  }

  lemma ContainsAt(s: string, sub: string, i: nat)
    requires i + |sub| <= |s| && s[i..i + |sub|] == sub
    ensures Contains(s, sub)
  {
    assert sub <= s[i..];
  }

  /** The empty string occurs in every string, and every string in itself. */
  lemma ContainsTrivial(s: string)
    ensures Contains(s, "") && Contains(s, s)
  {
    ContainsAt(s, "", 0);
    ContainsAt(s, s, 0);
  }

  /** A non-empty `sub` whose first character is absent from `s` does not occur in `s`. */
  lemma NotContainsByFirstChar(s: string, sub: string)
    requires sub != [] && sub[0] !in s
    ensures !Contains(s, sub)
  {
    forall i | 0 <= i <= |s| ensures !(sub <= s[i..]) {
      if i < |s| {
        assert s[i] in s;
      }
    }
  }

  /** A string never occurs in a shorter one. */
  lemma NotContainsLonger(s: string, sub: string)
    requires |sub| > |s|
    ensures !Contains(s, sub)
  {
  }

  // ---------------------------------------------------------------------------
  // Word tokens: `re.findall(r'\w+', s)`
  // ---------------------------------------------------------------------------

  /**
   * Python's `\w` on `str`: letters, digits and `_`. Letters are taken
   * from ASCII, Latin-1 and Latin Extended-A.
   */
  predicate IsWordChar(c: char) {
    || ('a' <= c <= 'z') || ('A' <= c <= 'Z') || ('0' <= c <= '9') || c == '_'
    || c == 'ª' || c == '²' || c == '³' || c == 'µ' || c == '¹' || c == 'º'
    || ('¼' <= c <= '¾')
    || ('À' <= c <= 'ÿ' && c != '×' && c != '÷')
    || ('Ā' <= c <= 'ſ')
  }

  /** Length of the leading run of word characters. */
  function WordRun(s: string): (n: nat)
    ensures n <= |s|
    ensures forall i :: 0 <= i < n ==> IsWordChar(s[i])
    ensures n < |s| ==> !IsWordChar(s[n])
  {
    if s == [] || !IsWordChar(s[0]) then 0 else 1 + WordRun(s[1..])
  }

  /** The maximal runs of word characters of `s`, left to right. */
  function Tokens(s: string): seq<string>
    decreases |s|
  {
    if s == [] then []
    else if !IsWordChar(s[0]) then Tokens(s[1..])
    else
      var n := WordRun(s);
      [s[..n]] + Tokens(s[n..])
  }

  /** Each token is a non-empty run of word characters occurring in `s`. */
  lemma {:induction false} TokensAreWords(s: string, t: string)
    requires t in Tokens(s)
    ensures t != [] && Contains(s, t)
    ensures forall i :: 0 <= i < |t| ==> IsWordChar(t[i])
    decreases |s|
  {
    if !IsWordChar(s[0]) {
      TokensAreWords(s[1..], t);
      ContainsInSuffix(s, t, 1);
    } else {
      var n := WordRun(s);
      if t == s[..n] {
        ContainsAt(s, t, 0);
      } else {
        TokensAreWords(s[n..], t);
        ContainsInSuffix(s, t, n);
      }
    }
  }

  /** What occurs in a suffix occurs in the whole string. */
  lemma ContainsInSuffix(s: string, t: string, k: nat)
    requires k <= |s| && Contains(s[k..], t)
    ensures Contains(s, t)
  {
    var i :| 0 <= i <= |s[k..]| && t <= s[k..][i..];
    assert s[k..][i..] == s[k + i..];
  }

  /** A non-empty string made only of word characters is its own single token. */
  lemma TokensOfWord(s: string)
    requires s != [] && forall i :: 0 <= i < |s| ==> IsWordChar(s[i])
    ensures Tokens(s) == [s]
  {
    var n := WordRun(s);
    assert n == |s|;
    assert s[..n] == s && s[n..] == [];
    assert Tokens(s) == [s[..n]] + Tokens(s[n..]);
  }

  /** Two strings share a word token: `set(findall(a)) & set(findall(b))` is non-empty. */
  predicate SharesWord(a: string, b: string) {
    exists t :: t in Tokens(a) && t in Tokens(b)
  }

  // ---------------------------------------------------------------------------
  // Ordering of strings (`str.__lt__`: lexicographic by code point)
  // ---------------------------------------------------------------------------

  /** `a <= b` in Python's string order. */
  predicate StrLe(a: string, b: string) {
    if a == [] then true
    else if b == [] then false
    else if a[0] != b[0] then a[0] < b[0]
    else StrLe(a[1..], b[1..])
  }

  lemma {:induction false} StrLeTotal(a: string, b: string)
    ensures StrLe(a, b) || StrLe(b, a)
  {
    if a != [] && b != [] && a[0] == b[0] {
      StrLeTotal(a[1..], b[1..]);
    }
  }

  lemma {:induction false} StrLeAntisymmetric(a: string, b: string)
    requires StrLe(a, b) && StrLe(b, a)
    ensures a == b
  {
    if a != [] && b != [] {
      StrLeAntisymmetric(a[1..], b[1..]);
      assert a == [a[0]] + a[1..] && b == [b[0]] + b[1..];
    }
  }

  lemma {:induction false} StrLeTransitive(a: string, b: string, c: string)
    requires StrLe(a, b) && StrLe(b, c)
    ensures StrLe(a, c)
  {
    if a != [] && b != [] && c != [] && a[0] == b[0] && b[0] == c[0] {
      StrLeTransitive(a[1..], b[1..], c[1..]);
    }
  }
}
