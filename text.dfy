/** Character classes of JavaScript regular expressions (written without the
    `u` flag) and the small string helpers the provider layer relies on. */
module Text {

  /** `\w`: ASCII letters, ASCII digits and the underscore. */
  predicate IsWordChar(c: char) {
    ('a' <= c <= 'z') || ('A' <= c <= 'Z') || ('0' <= c <= '9') || c == '_'
  }

  /** `\d`: ASCII digits only. */
  predicate IsDigit(c: char) {
    '0' <= c <= '9'
  }

  /** `\s`: the ECMAScript WhiteSpace and LineTerminator code points. */
  predicate IsSpace(c: char) {
    || c == '\t' || c == '\n' || c == '\U{B}' || c == '\U{C}' || c == '\r' || c == ' '
    || c == '\U{A0}' || c == '\U{1680}' || ('\U{2000}' <= c <= '\U{200A}')
    || c == '\U{2028}' || c == '\U{2029}' || c == '\U{202F}' || c == '\U{205F}'
    || c == '\U{3000}' || c == '\U{FEFF}'
  }

  /** The character classes the patterns of the provider layer use. */
  datatype CharClass = Space | Word | NonWord | Digit

  predicate InClass(c: char, k: CharClass) {
    match k
    case Space => IsSpace(c)
    case Word => IsWordChar(c)
    case NonWord => !IsWordChar(c)
    case Digit => IsDigit(c)
  }

  /** Every character of `s` is in class `k`. */
  predicate AllIn(s: string, k: CharClass) {
    forall i :: 0 <= i < |s| ==> InClass(s[i], k)
  }

  /** `\s` and `\w` share no character. */
  lemma SpaceNotWord(c: char)
    ensures InClass(c, Space) ==> !InClass(c, Word)
  {
  }

  /** Number of consecutive characters of `s` from position `i` on that all
      satisfy `p`: what a greedy `p*` consumes when tried at `i`. */
  function RunFrom(s: string, i: nat, p: CharClass): (n: nat)
    ensures i + n <= |s| || n == 0
    decreases |s| - i
  {
    if i >= |s| || !InClass(s[i], p) then 0 else 1 + RunFrom(s, i + 1, p)
  }

  /** The run is maximal: every character in it satisfies `p` and the first
      one after it, if any, does not. */
  lemma {:induction false} RunFromMaximal(s: string, i: nat, p: CharClass)
    ensures forall j :: i <= j < i + RunFrom(s, i, p) ==> InClass(s[j], p)
    ensures i + RunFrom(s, i, p) < |s| ==> !InClass(s[i + RunFrom(s, i, p)], p)
    decreases |s| - i
  {
    if i < |s| && InClass(s[i], p) {
      RunFromMaximal(s, i + 1, p);
    }
  }

  /** Conversely, a stretch of `k` characters satisfying `p` that ends at the
      end of `s` or at a character failing `p` is exactly the run. */
  lemma {:induction false} RunFromExact(s: string, i: nat, k: nat, p: CharClass)
    requires i + k <= |s|
    requires forall j :: i <= j < i + k ==> InClass(s[j], p)
    requires i + k == |s| || !InClass(s[i + k], p)
    ensures RunFrom(s, i, p) == k
    decreases k
  {
    if k > 0 {
      RunFromExact(s, i + 1, k - 1, p);
    }
  }

  /** A stretch `u` of class `p` sitting at position `i` of `s` and ending at
      the end of `s` or at a character outside `p` is exactly the run there. */
  lemma RunOver(s: string, i: nat, u: string, p: CharClass)
    requires i + |u| <= |s| && s[i..i + |u|] == u
    requires AllIn(u, p)
    requires i + |u| == |s| || !InClass(s[i + |u|], p)
    ensures RunFrom(s, i, p) == |u|
  {
    forall j | i <= j < i + |u|
      ensures InClass(s[j], p)
    {
      assert s[j] == s[i..i + |u|][j - i];
    }
    RunFromExact(s, i, |u|, p);
  }

  /** A stretch of `s` whose every character is in class `p`, as a slice. */
  lemma SliceAllIn(s: string, i: nat, j: nat, p: CharClass)
    requires i <= j <= |s|
    requires forall k :: i <= k < j ==> InClass(s[k], p)
    ensures AllIn(s[i..j], p)
  {
    forall k | 0 <= k < j - i
      ensures InClass(s[i..j][k], p)
    {
      assert s[i..j][k] == s[i + k];
    }
  }

  /** The run from `i` read as a slice: all of it is in class `p`. */
  lemma RunSlice(s: string, i: nat, p: CharClass)
    requires i <= |s|
    ensures i + RunFrom(s, i, p) <= |s|
    ensures AllIn(s[i..i + RunFrom(s, i, p)], p)
  {
    RunFromMaximal(s, i, p);
    SliceAllIn(s, i, i + RunFrom(s, i, p), p);
  }

  /** Concatenation regrouped around a first character. */
  lemma ConcatRegroup(c: char, u: string, v: string)
    ensures [c] + (u + v) == ([c] + u) + v
  {
  }

  /** Decimal value of a digit string, as `Number("...")` reads it
      (leading zeros allowed). Non-digits count as zero; callers pass digits. */
  function DigitsValue(s: string): nat
  {
    if s == [] then 0
    else
      var c := s[|s| - 1];
      DigitsValue(s[..|s| - 1]) * 10 + (if IsDigit(c) then c as int - '0' as int else 0)
  }

  /** `String.prototype.toUpperCase` on one character, restricted to ASCII. */
  function UpperChar(c: char): (u: char)
    ensures !('a' <= u <= 'z')
    ensures 'a' <= c <= 'z' ==> u as int == c as int - 32
    ensures !('a' <= c <= 'z') ==> u == c
  {
    if 'a' <= c <= 'z' then (c as int - 32) as char else c
  }

  /** `String.prototype.toUpperCase` with ASCII case mapping. */
  function ToUpperAscii(s: string): (r: string)
    ensures |r| == |s|
    ensures forall i :: 0 <= i < |s| ==> r[i] == UpperChar(s[i])
  {
    if s == [] then [] else [UpperChar(s[0])] + ToUpperAscii(s[1..])
  }
}
