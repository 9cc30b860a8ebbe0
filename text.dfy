/** Character classes and small string functions shared by both lexers
    (lexer.py and compiler.py) and by the printers of compiler.py. */
module Text {

  /** The whitespace both lexers skip: space, tab and newline. */
  predicate IsSpace(c: char) {
    c == ' ' || c == '\t' || c == '\n'
  }

  /** A single space before a token. */
  lemma OneSpace(p: string, j: nat)
    requires j < |p| && p[j] == ' '
    ensures forall m :: j <= m < j + 1 ==> IsSpace(p[m])
  {
  }

  /** The characters Python 2's str.strip() removes from both ends. */
  predicate IsStripSpace(c: char) {
    IsSpace(c) || c == '\r' || c == '\U{0B}' || c == '\U{0C}'
  }

  predicate IsDigit(c: char) {
    '0' <= c <= '9'
  }

  /** A letter of the ASCII alphabet in either case, or an underscore. */
  predicate IsAlpha(c: char) {
    ('a' <= c <= 'z') || ('A' <= c <= 'Z') || c == '_'
  }

  predicate IsAlphanumeric(c: char) {
    IsDigit(c) || IsAlpha(c)
  }

  predicate AllDigits(s: string) {
    forall i :: 0 <= i < |s| ==> IsDigit(s[i])
  }

  function DigitValue(c: char): (d: nat)
    requires IsDigit(c)
    ensures d < 10
  {
    (c as int) - ('0' as int)
  }

  function DigitChar(d: nat): (c: char)
    requires d < 10
    ensures IsDigit(c) && DigitValue(c) == d
  {
    (('0' as int) + d) as char
  }

  /** The value of a decimal digit string, read left to right by
      value * 10 + digit (the empty string reads as 0). */
  function DigitsValue(s: string): nat
    requires AllDigits(s)
  {
    if s == [] then 0 else DigitsValue(s[..|s| - 1]) * 10 + DigitValue(s[|s| - 1])
  }

  /** A digit run read one more digit to the right: the value gains that
      digit in the units place. */
  lemma DigitsValueExtend(t: string, i: nat, j: nat)
    requires i <= j < |t| && forall m :: i <= m <= j ==> IsDigit(t[m])
    ensures AllDigits(t[i..j]) && AllDigits(t[i..j + 1])
    ensures DigitsValue(t[i..j + 1]) == DigitsValue(t[i..j]) * 10 + DigitValue(t[j])
  {
    assert t[i..j + 1][..j - i] == t[i..j];
  }

  /** The decimal rendering of a natural number, without leading zeros. */
  function NatToString(n: nat): (s: string)
    ensures |s| > 0 && AllDigits(s)
    ensures |s| > 1 ==> s[0] != '0'
    decreases n
  {
    if n < 10 then [DigitChar(n)] else NatToString(n / 10) + [DigitChar(n % 10)]
  }

  /** Reading back the rendering of a number gives the number. */
  lemma {:induction false} NatToStringRoundTrip(n: nat)
    ensures DigitsValue(NatToString(n)) == n
    decreases n
  {
    if n >= 10 {
      NatToStringRoundTrip(n / 10);
      var s := NatToString(n);
      assert s[..|s| - 1] == NatToString(n / 10);
    }
  }

  /** str.strip(): drop strippable whitespace at both ends. */
  function Strip(s: string): (r: string)
    ensures |r| <= |s|
    ensures r == [] || (!IsStripSpace(r[0]) && !IsStripSpace(r[|r| - 1]))
  {
    s[LeadingSpaces(s, 0)..TrailingEnd(s, |s|, LeadingSpaces(s, 0))]
  }

  /** Strip removes exactly the strippable whitespace at both ends: what it
      returns is a slice of s, and everything outside the slice is whitespace. */
  lemma StripSlice(s: string) returns (i: nat)
    ensures i + |Strip(s)| <= |s| && s[i..i + |Strip(s)|] == Strip(s)
    ensures forall k :: 0 <= k < i ==> IsStripSpace(s[k])
    ensures forall k :: i + |Strip(s)| <= k < |s| ==> IsStripSpace(s[k])
  {
    i := LeadingSpaces(s, 0);
  }

  /** The first index at or after i that holds no strippable whitespace, or |s|. */
  function LeadingSpaces(s: string, i: nat): (k: nat)
    requires i <= |s|
    ensures i <= k <= |s|
    ensures forall m :: i <= m < k ==> IsStripSpace(s[m])
    ensures k < |s| ==> !IsStripSpace(s[k])
    decreases |s| - i
  {
    if i == |s| || !IsStripSpace(s[i]) then i else LeadingSpaces(s, i + 1)
  }

  /** The end of s[..j] once trailing strippable whitespace above lo is dropped. */
  function TrailingEnd(s: string, j: nat, lo: nat): (k: nat)
    requires lo <= j <= |s|
    ensures lo <= k <= j
    ensures forall m :: k <= m < j ==> IsStripSpace(s[m])
    ensures k > lo ==> !IsStripSpace(s[k - 1])
    decreases j
  {
    if j == lo || !IsStripSpace(s[j - 1]) then j else TrailingEnd(s, j - 1, lo)
  }

  datatype Option<T> = None | Some(value: T)

  /** The first index at or after i that is not a space (IsSpace), or |p|. */
  function SkipSpaces(p: string, i: nat): (k: nat)
    requires i <= |p|
    ensures i <= k <= |p|
    ensures forall m :: i <= m < k ==> IsSpace(p[m])
    ensures k < |p| ==> !IsSpace(p[k])
    decreases |p| - i
  {
    if i == |p| || !IsSpace(p[i]) then i else SkipSpaces(p, i + 1)
  }

  /** SkipSpaces stops at the first non-space. */
  lemma SkipSpacesUpTo(p: string, i: nat, k: nat)
    requires i <= k <= |p|
    requires forall m :: i <= m < k ==> IsSpace(p[m])
    requires k < |p| ==> !IsSpace(p[k])
    ensures SkipSpaces(p, i) == k
  {
  }

  /** The end of the maximal run of digits that starts at i. */
  function DigitRunEnd(p: string, i: nat): (k: nat)
    requires i <= |p|
    ensures i <= k <= |p|
    ensures forall m :: i <= m < k ==> IsDigit(p[m])
    ensures k < |p| ==> !IsDigit(p[k])
    decreases |p| - i
  {
    if i == |p| || !IsDigit(p[i]) then i else DigitRunEnd(p, i + 1)
  }

  /** DigitRunEnd stops at the first non-digit. */
  lemma DigitRunEndAt(p: string, i: nat, k: nat)
    requires i <= k <= |p|
    requires forall m :: i <= m < k ==> IsDigit(p[m])
    requires k < |p| ==> !IsDigit(p[k])
    ensures DigitRunEnd(p, i) == k
  {
  }

  /** The end of the maximal run of letters, digits and underscores that starts at i. */
  function WordRunEnd(p: string, i: nat): (k: nat)
    requires i <= |p|
    ensures i <= k <= |p|
    ensures forall m :: i <= m < k ==> IsAlphanumeric(p[m])
    ensures k < |p| ==> !IsAlphanumeric(p[k])
    decreases |p| - i
  {
    if i == |p| || !IsAlphanumeric(p[i]) then i else WordRunEnd(p, i + 1)
  }

  /** WordRunEnd stops at the first character that is not a word character. */
  lemma WordRunEndAt(p: string, i: nat, k: nat)
    requires i <= k <= |p|
    requires forall m :: i <= m < k ==> IsAlphanumeric(p[m])
    requires k < |p| ==> !IsAlphanumeric(p[k])
    ensures WordRunEnd(p, i) == k
  {
  }

  /** The first index of c in t, or |t| when c does not occur. */
  function IndexOf(t: string, c: char): (i: nat)
    ensures i <= |t|
    ensures i < |t| ==> t[i] == c
    ensures forall k :: 0 <= k < i ==> t[k] != c
  {
    if t == [] then 0 else if t[0] == c then 0 else 1 + IndexOf(t[1..], c)
  }

  /** Stripping a token that has no surrounding whitespace of its own, read
      with at most one following space, gives back the token. */
  lemma StripToken(w: string, text: string)
    requires |w| > 0 && !IsStripSpace(w[0]) && !IsStripSpace(w[|w| - 1])
    requires text == w || (|text| == |w| + 1 && text[..|w|] == w && IsSpace(text[|w|]))
    ensures Strip(text) == w
  {
    assert LeadingSpaces(text, 0) == 0;
    if text != w {
      assert TrailingEnd(text, |text|, 0) == TrailingEnd(text, |w|, 0) == |w|;
    } else {
      assert TrailingEnd(text, |text|, 0) == |w|;
    }
  }

  /** IndexOf gives |t| when c does not occur. */
  lemma IndexOfAbsent(t: string, c: char)
    requires c !in t
    ensures IndexOf(t, c) == |t|
  {
  }

  /** IndexOf finds the first occurrence. */
  lemma IndexOfPrefix(t: string, i: nat, c: char)
    requires i < |t| && t[i] == c
    requires forall k :: 0 <= k < i ==> t[k] != c
    ensures IndexOf(t, c) == i
  {
  }
}
