/**
 Character-level vocabulary used to describe the wire tokens of the
 directions API: ASCII case mapping, the shape of wire tokens, and the
 canonical-equivalence folding that Swift's string equality applies when a
 string is compared with an ASCII token.
 */
module AsciiText {

  predicate IsUpperLetter(c: char) {
    'A' <= c <= 'Z'
  }

  predicate IsLowerLetter(c: char) {
    'a' <= c <= 'z'
  }

  /** The ASCII lowercase of `c`; any other character is left alone. */
  function LowerChar(c: char): (r: char)
    ensures IsUpperLetter(c) ==> IsLowerLetter(r) && r as int == c as int + 32
    ensures !IsUpperLetter(c) ==> r == c
  {
    if IsUpperLetter(c) then (c as int + 32) as char else c
  }

  predicate IsAscii(s: string) {
    forall i :: 0 <= i < |s| ==> s[i] < '\U{80}'
  }

  /** The ASCII lowercase of a whole string, character by character. */
  function ToLower(s: string): (r: string)
    ensures |r| == |s|
    ensures IsUpperSnake(s) ==> IsLowerSnake(r)
    ensures IsLowerSnake(s) ==> r == s
  {
    seq(|s|, i requires 0 <= i < |s| => LowerChar(s[i]))
  }

  /** A non-empty word made only of lowercase ASCII letters. */
  predicate IsLowerWord(s: string) {
    |s| > 0 && forall i :: 0 <= i < |s| ==> IsLowerLetter(s[i])
  }

  /** A non-empty lowercase snake-case token: lowercase letters and underscores. */
  predicate IsLowerSnake(s: string) {
    |s| > 0 && forall i :: 0 <= i < |s| ==> IsLowerLetter(s[i]) || s[i] == '_'
  }

  /** A non-empty uppercase snake-case token: uppercase letters and underscores. */
  predicate IsUpperSnake(s: string) {
    |s| > 0 && forall i :: 0 <= i < |s| ==> IsUpperLetter(s[i]) || s[i] == '_'
  }

  /**
   The character that stands for `c` when `c` is compared with ASCII text:
   KELVIN SIGN (U+212A), GREEK QUESTION MARK (U+037E) and GREEK VARIA (U+1FEF)
   are canonically equivalent to 'K', ';' and '`' respectively (their
   canonical decompositions in the Unicode Character Database); every other
   character stands for itself.
   */
  function CanonicalChar(c: char): (r: char)
    ensures c < '\U{80}' ==> r == c
    ensures r != c ==> IsFoldTarget(r) && c >= '\U{80}'
  {
    if c == '\U{212A}' then 'K'
    else if c == '\U{037E}' then ';'
    else if c == '\U{1FEF}' then '`'
    else c
  }

  /** The ASCII characters that some other character folds to. */
  predicate IsFoldTarget(c: char) {
    c == 'K' || c == ';' || c == '`'
  }

  /**
   The string as Swift's `==` sees it next to an ASCII token. Under canonical
   equivalence, a string equals an ASCII string `t` exactly when folding it
   character by character gives `t`: no combining mark can occur in a string
   equivalent to ASCII text, and the three singletons above are the only
   non-ASCII characters whose canonical decomposition is ASCII.
   */
  function CanonicalFold(s: string): (r: string)
    ensures |r| == |s|
    ensures IsAscii(s) ==> r == s
  {
    seq(|s|, i requires 0 <= i < |s| => CanonicalChar(s[i]))
  }

  /** A string whose fold contains no fold target is its own fold. */
  lemma FoldWithoutTargetsIsIdentity(s: string)
    requires forall i :: 0 <= i < |CanonicalFold(s)| ==> !IsFoldTarget(CanonicalFold(s)[i])
    ensures CanonicalFold(s) == s
  {
    forall i | 0 <= i < |s| ensures CanonicalFold(s)[i] == s[i] {
      assert !IsFoldTarget(CanonicalFold(s)[i]);
    }
  }

  /** An uppercase snake-case token is never a lowercase word: its first character is not a lowercase letter. */
  lemma UpperSnakeIsNotLowerWord(s: string)
    requires IsUpperSnake(s)
    ensures !IsLowerWord(s)
  {
    assert !IsLowerLetter(s[0]);
  }
}
