/**
  The Python `str` methods the order path applies to the side, `upper()` and `strip()`, and
  `endswith()`, which states properties of the comments it builds.
*/
module PyStr {

  /** Python's `str.isspace()` for a single character. */
  predicate IsSpace(c: char) {
    || ('\t' <= c <= '\r')
    || ('\U{1C}' <= c <= '\U{1F}')
    || c == ' ' || c == '\U{85}' || c == '\U{A0}' || c == '\U{1680}'
    || ('\U{2000}' <= c <= '\U{200A}')
    || c == '\U{2028}' || c == '\U{2029}' || c == '\U{202F}' || c == '\U{205F}' || c == '\U{3000}'
  }

  /** Every character of `s` at a position in `[lo, hi)` is whitespace. */
  ghost predicate SpaceIn(s: string, lo: int, hi: int)
    requires 0 <= lo && hi <= |s|
  {
    forall j :: lo <= j < hi ==> IsSpace(s[j])
  }

  /** Upper case of one character; only ASCII letters are mapped. */
  function UpperChar(c: char): char {
    if 'a' <= c <= 'z' then (c as int - 32) as char else c
  }

  /** `s.upper()`, character by character. */
  function Upper(s: string): string {
    seq(|s|, i requires 0 <= i < |s| => UpperChar(s[i]))
  }

  /** Where `lstrip` cuts: the first non-whitespace position at or after `i`, or `|s|`. */
  function SkipSpace(s: string, i: nat): (k: nat)
    requires i <= |s|
    ensures i <= k <= |s|
    ensures SpaceIn(s, i, k)
    ensures k == |s| || !IsSpace(s[k])
    decreases |s| - i
  {
    if i < |s| && IsSpace(s[i]) then SkipSpace(s, i + 1) else i
  }

  /** Where `rstrip` cuts, looking no lower than `lo`: just past the last non-whitespace position below `j`. */
  function SkipSpaceBack(s: string, lo: nat, j: nat): (k: nat)
    requires lo <= j <= |s|
    ensures lo <= k <= j
    ensures SpaceIn(s, k, j)
    ensures k == lo || !IsSpace(s[k - 1])
    decreases j
  {
    if j > lo && IsSpace(s[j - 1]) then SkipSpaceBack(s, lo, j - 1) else j
  }

  /** `s.strip()`: `s` without its leading and trailing whitespace. */
  function Strip(s: string): string {
    var i := SkipSpace(s, 0);
    s[i..SkipSpaceBack(s, i, |s|)]
  }

  /** `s.endswith(suffix)`. */
  predicate EndsWith(s: string, suffix: string) {
    |suffix| <= |s| && s[|s| - |suffix|..] == suffix
  }

  /** Upper-casing neither creates nor removes whitespace. */
  lemma UpperKeepsSpace(s: string, lo: int, hi: int)
    requires 0 <= lo <= hi <= |s|
    ensures |Upper(s)| == |s|
    ensures SpaceIn(Upper(s), lo, hi) <==> SpaceIn(s, lo, hi)
  {
    assert forall j :: lo <= j < hi ==> (IsSpace(Upper(s)[j]) <==> IsSpace(s[j]));
  }

  /** A whitespace run from `i` that ends at a non-whitespace character (or the end) is exactly what `lstrip` skips. */
  lemma {:induction false} SkipSpaceExact(s: string, i: nat, k: nat)
    requires i <= k <= |s| && SpaceIn(s, i, k)
    requires k == |s| || !IsSpace(s[k])
    ensures SkipSpace(s, i) == k
    decreases k - i
  {
    if i < k {
      SkipSpaceExact(s, i + 1, k);
    }
  }

  /** A whitespace run ending at `j` that starts after a non-whitespace character (or at `lo`) is exactly what `rstrip` skips. */
  lemma {:induction false} SkipSpaceBackExact(s: string, lo: nat, k: nat, j: nat)
    requires lo <= k <= j <= |s| && SpaceIn(s, k, j)
    requires k == lo || !IsSpace(s[k - 1])
    ensures SkipSpaceBack(s, lo, j) == k
    decreases j - k
  {
    if k < j {
      SkipSpaceBackExact(s, lo, k, j - 1);
    }
  }

  /**
    `r` sits in `s` at offset `a` with only whitespace around it, and neither begins nor ends
    with whitespace.
  */
  ghost predicate PaddedAt(s: string, r: string, a: int) {
    && 0 <= a && a + |r| <= |s| && s[a..a + |r|] == r
    && SpaceIn(s, 0, a) && SpaceIn(s, a + |r|, |s|)
    && (r == [] || (!IsSpace(r[0]) && !IsSpace(r[|r| - 1])))
  }

  /** `strip` returns the part of `s` between a whitespace prefix and a whitespace suffix. */
  lemma StripIsPadded(s: string)
    ensures exists a :: PaddedAt(s, Strip(s), a)
  {
    var i := SkipSpace(s, 0);
    var k := SkipSpaceBack(s, i, |s|);
    assert PaddedAt(s, Strip(s), i);
  }

  /** Conversely, any `w` padded by whitespace in `s` is what `strip` returns (`""` when `s` is all whitespace). */
  lemma StripOfPadded(s: string, w: string, a: int)
    requires PaddedAt(s, w, a)
    ensures Strip(s) == w
  {
    if w == [] {
      assert SpaceIn(s, 0, |s|);
      SkipSpaceExact(s, 0, |s|);
    } else {
      SkipSpaceExact(s, 0, a);
      assert s[a + |w| - 1] == w[|w| - 1];
      SkipSpaceBackExact(s, a, a + |w|, |s|);
    }
  }

  lemma EndsWithConcat(prefix: string, suffix: string)
    ensures EndsWith(prefix + suffix, suffix)
  {
    assert (prefix + suffix)[|prefix|..] == suffix;
  }
}
