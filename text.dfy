/**
 * Character and string helpers standing for the Python built-ins the navigator
 * relies on: str() of an int, str.split() and str.startswith().
 */
module Text {

  predicate IsDigit(c: char) {
    '0' <= c <= '9'
  }

  predicate AllDigits(s: string) {
    forall i :: 0 <= i < |s| ==> IsDigit(s[i])
  }

  function DigitChar(d: nat): (c: char)
    requires d < 10
    ensures IsDigit(c) && c as int - '0' as int == d
  {
    (d + '0' as int) as char
  }

  /** The decimal numeral of n, as str(n) writes it: no sign, no leading zero. */
  function NatToString(n: nat): (s: string)
    ensures 1 <= |s| && AllDigits(s)
    ensures |s| > 1 ==> s[0] != '0'
    ensures n < 10 <==> |s| == 1
    decreases n
  {
    if n < 10 then [DigitChar(n)] else NatToString(n / 10) + [DigitChar(n % 10)]
  }

  /** The value of a string of decimal digits. */
  function ParseNat(s: string): nat
    requires AllDigits(s)
  {
    if s == [] then 0 else 10 * ParseNat(s[..|s| - 1]) + (s[|s| - 1] as int - '0' as int)
  }

  lemma {:induction false} ParseNatToString(n: nat)
    ensures ParseNat(NatToString(n)) == n
  {
    if n >= 10 {
      var s := NatToString(n);
      assert s[..|s| - 1] == NatToString(n / 10);
      ParseNatToString(n / 10);
    }
  }

  /** An optional minus sign followed by decimal digits. */
  predicate IsNumeral(s: string) {
    1 <= |s| && AllDigits(if s[0] == '-' then s[1..] else s)
  }

  /** str(i) for a Python int: a minus sign before the numeral of a negative value. */
  function IntToString(i: int): (s: string)
    ensures IsNumeral(s)
    ensures i < 0 <==> s[0] == '-'
  {
    if i < 0 then "-" + NatToString(-i) else NatToString(i)
  }

  function ParseInt(s: string): int
    requires IsNumeral(s)
  {
    if s[0] == '-' then 0 - ParseNat(s[1..]) else ParseNat(s)
  }

  lemma IntToStringRoundTrip(i: int)
    ensures ParseInt(IntToString(i)) == i
  {
    var s := IntToString(i);
    if i < 0 {
      assert s == "-" + NatToString(-i);
      assert s[1..] == NatToString(-i);
      ParseNatToString(-i);
    } else {
      assert s == NatToString(i) && s[0] != '-';
      ParseNatToString(i);
    }
  }

  /** Distinct values have distinct numerals. */
  lemma IntToStringInjective(i: int, j: int)
    requires IntToString(i) == IntToString(j)
    ensures i == j
  {
    IntToStringRoundTrip(i);
    IntToStringRoundTrip(j);
  }

  /** The characters str.split() with no argument treats as separators (str.isspace). */
  predicate IsSpace(c: char) {
    || c == ' ' || '\t' <= c <= '\r' || '\U{1c}' <= c <= '\U{1f}'
    || c == '\U{85}' || c == '\U{a0}' || c == '\U{1680}' || '\U{2000}' <= c <= '\U{200a}'
    || c == '\U{2028}' || c == '\U{2029}' || c == '\U{202f}' || c == '\U{205f}' || c == '\U{3000}'
  }

  /** prefix.startswith-style test: `whole.startswith(prefix)`. */
  predicate IsPrefix(prefix: string, whole: string) {
    |prefix| <= |whole| && whole[..|prefix|] == prefix
  }

  /** The position of the first separator of s, or |s| when there is none. */
  function FirstSpace(s: string): (k: nat)
    ensures k <= |s|
    ensures forall i :: 0 <= i < k ==> !IsSpace(s[i])
    ensures k < |s| ==> IsSpace(s[k])
  {
    if s == [] then 0 else if IsSpace(s[0]) then 0 else 1 + FirstSpace(s[1..])
  }

  /** The characters of s that are not separators, in order. */
  function NonSpace(s: string): (r: string)
    ensures |r| <= |s|
    ensures forall i :: 0 <= i < |r| ==> !IsSpace(r[i])
    ensures |s| == 1 ==> r == if IsSpace(s[0]) then [] else s
  {
    if s == [] then []
    else (if IsSpace(s[0]) then [] else [s[0]]) + NonSpace(s[1..])
  }

  /** Dropping the separators of two strings one after the other drops them from their concatenation. */
  lemma {:induction false} NonSpaceAppend(s: string, t: string)
    ensures NonSpace(s + t) == NonSpace(s) + NonSpace(t)
  {
    if s != [] {
      NonSpaceAppend(s[1..], t);
      var head := if IsSpace(s[0]) then [] else [s[0]];
      calc {
        NonSpace(s + t);
        { assert (s + t)[0] == s[0] && (s + t)[1..] == s[1..] + t; }
        head + NonSpace(s[1..] + t);
        head + (NonSpace(s[1..]) + NonSpace(t));
        (head + NonSpace(s[1..])) + NonSpace(t);
      }
    } else {
      assert s + t == t;
    }
  }

  /** A prefix free of separators is kept whole by NonSpace. */
  lemma {:induction false} NonSpaceSplitsAt(s: string, k: nat)
    requires k <= |s|
    requires forall i :: 0 <= i < k ==> !IsSpace(s[i])
    ensures NonSpace(s) == s[..k] + NonSpace(s[k..])
  {
    if k > 0 {
      NonSpaceSplitsAt(s[1..], k - 1);
      assert s[1..][k - 1..] == s[k..];
      assert [s[0]] + s[1..][..k - 1] == s[..k];
    }
  }

  /** The words concatenated, with nothing between them. */
  function Concat(words: seq<string>): string {
    if words == [] then [] else words[0] + Concat(words[1..])
  }

  /**
   * str.split() with no argument: the maximal runs of non-separator
   * characters, in order.  Concatenated they give back exactly the
   * non-separator characters of s; none is empty or holds a separator; a
   * string that starts with a non-separator starts its first word.
   */
  function Split(s: string): (words: seq<string>)
    ensures forall j :: 0 <= j < |words| ==> words[j] != [] && NonSpace(words[j]) == words[j]
    ensures Concat(words) == NonSpace(s)
    ensures s != [] && !IsSpace(s[0]) ==> words != [] && IsPrefix(words[0], s) && words[0] == s[..FirstSpace(s)]
    decreases |s|
  {
    if s == [] then []
    else if IsSpace(s[0]) then Split(s[1..])
    else
      var k := FirstSpace(s);
      NonSpaceSplitsAt(s, k);
      NonSpaceSplitsAt(s[..k], k);
      assert s[..k][k..] == [];
      [s[..k]] + Split(s[k..])
  }

  /** A non-empty word without separators splits into itself alone. */
  lemma SplitWord(w: string)
    requires w != [] && forall i :: 0 <= i < |w| ==> !IsSpace(w[i])
    ensures Split(w) == [w]
  {
    assert FirstSpace(w) == |w|;
    assert w[..|w|] == w && w[|w|..] == [];
  }

  /**
   * A separator cuts a string into the words before it and the words after
   * it: with SplitWord and Split([]) == [], this fixes Split on every string,
   * so each word is a maximal run of non-separators.
   */
  lemma {:induction false} SplitAtSpace(a: string, c: char, b: string)
    requires IsSpace(c)
    ensures Split(a + [c] + b) == Split(a) + Split(b)
    decreases |a|, 1
  {
    var s := a + [c] + b;
    if a == [] {
      assert s == [c] + b && s[1..] == b;
    } else if IsSpace(a[0]) {
      assert s[0] == a[0] && s[1..] == a[1..] + [c] + b;
      SplitAtSpace(a[1..], c, b);
    } else {
      SplitAtSpaceAfterWord(a, c, b);
    }
  }

  /** SplitAtSpace when a starts with a word: the word is split off on both sides. */
  lemma {:induction false} SplitAtSpaceAfterWord(a: string, c: char, b: string)
    requires IsSpace(c) && a != [] && !IsSpace(a[0])
    ensures Split(a + [c] + b) == Split(a) + Split(b)
    decreases |a|, 0
  {
    var k := FirstSpace(a);
    SplitOffFirstWord(a, c, b);
    SplitAtSpace(a[k..], c, b);
    SplitJoin(a, c, b);
  }

  /** Putting the first word back in front of the two halves' words. */
  lemma SplitJoin(a: string, c: char, b: string)
    requires a != [] && !IsSpace(a[0])
    requires Split(a + [c] + b) == [a[..FirstSpace(a)]] + Split(a[FirstSpace(a)..] + [c] + b)
    requires Split(a[FirstSpace(a)..] + [c] + b) == Split(a[FirstSpace(a)..]) + Split(b)
    ensures Split(a + [c] + b) == Split(a) + Split(b)
  {
  }

  /** The first word of a + [c] + b is a's first word, and the rest is split from where it ends. */
  lemma SplitOffFirstWord(a: string, c: char, b: string)
    requires IsSpace(c) && a != [] && !IsSpace(a[0])
    ensures Split(a + [c] + b) == [a[..FirstSpace(a)]] + Split(a[FirstSpace(a)..] + [c] + b)
  {
    var s, k := a + [c] + b, FirstSpace(a);
    FirstSpaceBeforeSpace(a, c, b);
    assert s[0] == a[0] && s[..k] == a[..k] && s[k..] == a[k..] + [c] + b;
  }

  /** A separator after a does not move the first separator of a + [c] + b past a's own. */
  lemma FirstSpaceBeforeSpace(a: string, c: char, b: string)
    requires IsSpace(c)
    ensures FirstSpace(a + [c] + b) == FirstSpace(a)
  {
    var s, k := a + [c] + b, FirstSpace(a);
    assert forall i :: 0 <= i < k ==> s[i] == a[i];
    assert s[k] == if k < |a| then a[k] else c;
    FirstSpaceIs(s, k);
  }

  /** A word without separators, followed by nothing or by a separator, is split off whole. */
  lemma SplitCons(w: string, t: string)
    requires w != [] && forall i :: 0 <= i < |w| ==> !IsSpace(w[i])
    requires t == [] || IsSpace(t[0])
    ensures Split(w + t) == [w] + Split(t)
  {
    var s := w + t;
    assert forall i :: 0 <= i < |w| ==> s[i] == w[i];
    assert |w| < |s| ==> s[|w|] == t[0];
    FirstSpaceIs(s, |w|);
    assert s[..|w|] == w && s[|w|..] == t;
  }

  /** The first separator is at the one position k before which there is none and at which there is one, or the end. */
  lemma FirstSpaceIs(s: string, k: nat)
    requires k <= |s| && forall i :: 0 <= i < k ==> !IsSpace(s[i])
    requires k < |s| ==> IsSpace(s[k])
    ensures FirstSpace(s) == k
  {
  }

  function Spaces(n: nat): (s: string)
    ensures |s| == n && forall i :: 0 <= i < n ==> s[i] == ' '
  {
    seq(n, _ => ' ')
  }
}
