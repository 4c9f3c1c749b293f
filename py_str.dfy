/**
  The three Python string operations the analyzer relies on: `str.replace(old, "")`
  (to turn a repository URL into an owner/repo path), `str(int)` (to put the pull-request
  number into a URL) and `sep.join(items)` (to join the per-file blocks of the prompt).
 */
module PyStr {

  /** `pat` occurs in `s` starting at index `i`. */
  predicate OccursAt(s: string, pat: string, i: int) {
    0 <= i && i + |pat| <= |s| && s[i..i + |pat|] == pat
  }

  predicate Occurs(s: string, pat: string) {
    exists i | 0 <= i <= |s| :: OccursAt(s, pat, i)
  }

  /**
    Python's `s.replace(pat, "")`: scans left to right and drops every non-overlapping
    occurrence of `pat`. Text that a removal brings together is not scanned again.
   */
  function RemoveAll(s: string, pat: string): (r: string)
    requires pat != []
    ensures |r| <= |s|
    decreases |s|
  {
    if |s| < |pat| then s
    else if s[..|pat|] == pat then RemoveAll(s[|pat|..], pat)
    else [s[0]] + RemoveAll(s[1..], pat)
  }

  /** A string in which `pat` does not occur is returned unchanged. */
  lemma {:induction false} RemoveAllAbsent(s: string, pat: string)
    requires pat != [] && !Occurs(s, pat)
    ensures RemoveAll(s, pat) == s
    decreases |s|
  {
    if |s| >= |pat| {
      assert !OccursAt(s, pat, 0);
      forall i | 0 <= i <= |s[1..]| && OccursAt(s[1..], pat, i)
        ensures OccursAt(s, pat, i + 1)
      {
        assert s[1..][i..i + |pat|] == s[i + 1..i + 1 + |pat|];
      }
      RemoveAllAbsent(s[1..], pat);
    }
  }

  /** Removing a leading `pat` from `pat + rest` gives back `rest` when `pat` does not occur in `rest`. */
  lemma RemoveAllLeading(pat: string, rest: string)
    requires pat != [] && !Occurs(rest, pat)
    ensures RemoveAll(pat + rest, pat) == rest
  {
    assert (pat + rest)[..|pat|] == pat;
    assert (pat + rest)[|pat|..] == rest;
    RemoveAllAbsent(rest, pat);
  }

  predicate IsDigit(c: char) {
    '0' <= c <= '9'
  }

  predicate AllDigits(s: string) {
    forall i :: 0 <= i < |s| ==> IsDigit(s[i])
  }

  function DigitChar(d: nat): (c: char)
    requires d < 10
    ensures IsDigit(c) && DigitValue(c) == d
  {
    ('0' as int + d) as char
  }

  function DigitValue(c: char): nat
    requires IsDigit(c)
  {
    c as int - '0' as int
  }

  /** `str(n)` for a non-negative integer: its canonical decimal digits, with no leading zero. */
  function NatToDecimal(n: nat): (r: string)
    ensures |r| > 0 && AllDigits(r)
    ensures (r[0] == '0') == (n == 0)
    decreases n
  {
    if n < 10 then [DigitChar(n)] else NatToDecimal(n / 10) + [DigitChar(n % 10)]
  }

  /** `str(n)` for any Python integer: a minus sign before the digits of `-n` when `n` is negative. */
  function IntToDecimal(n: int): string {
    if n < 0 then "-" + NatToDecimal(-n) else NatToDecimal(n)
  }

  /** The value of a string of decimal digits, read most significant digit first. */
  function ParseNat(s: string): nat
    requires AllDigits(s)
  {
    if |s| == 0 then 0 else 10 * ParseNat(s[..|s| - 1]) + DigitValue(s[|s| - 1])
  }

  /** Reads back an optionally signed decimal numeral, the reference partner of IntToDecimal. */
  function ParseInt(s: string): int
    requires |s| > 0
    requires if s[0] == '-' then AllDigits(s[1..]) else AllDigits(s)
  {
    if s[0] == '-' then 0 - ParseNat(s[1..]) else ParseNat(s)
  }

  lemma {:induction false} NatDecimalRoundTrip(n: nat)
    ensures ParseNat(NatToDecimal(n)) == n
    decreases n
  {
    if n >= 10 {
      var s := NatToDecimal(n);
      assert s[..|s| - 1] == NatToDecimal(n / 10);
      NatDecimalRoundTrip(n / 10);
    }
  }

  /** `str(n)` can always be read back as `n`; in particular distinct numbers print differently. */
  lemma IntDecimalRoundTrip(n: int)
    ensures |IntToDecimal(n)| > 0
    ensures var s := IntToDecimal(n);
      (if s[0] == '-' then AllDigits(s[1..]) else AllDigits(s)) && ParseInt(s) == n
  {
    if n < 0 {
      var s := IntToDecimal(n);
      assert s[1..] == NatToDecimal(-n);
      NatDecimalRoundTrip(-n);
    } else {
      NatDecimalRoundTrip(n);
    }
  }

  lemma IntToDecimalInjective(a: int, b: int)
    requires IntToDecimal(a) == IntToDecimal(b)
    ensures a == b
  {
    IntDecimalRoundTrip(a);
    IntDecimalRoundTrip(b);
  }

  /** Python's `sep.join(xs)`. */
  function Join(sep: string, xs: seq<string>): (r: string)
    ensures xs == [] ==> r == ""
    decreases |xs|
  {
    if |xs| == 0 then ""
    else if |xs| == 1 then xs[0]
    else xs[0] + sep + Join(sep, xs[1..])
  }

  /** The index in `Join(sep, xs)` at which the item `xs[k]` begins. */
  function JoinOffset(sep: string, xs: seq<string>, k: nat): nat
    requires k <= |xs|
    decreases k
  {
    if k == 0 then 0 else |xs[0]| + |sep| + JoinOffset(sep, xs[1..], k - 1)
  }

  /** A slice lying wholly in the right operand of a concatenation is a slice of that operand. */
  lemma SliceRight(a: string, b: string, lo: int, hi: int)
    requires |a| <= lo <= hi <= |a| + |b|
    ensures (a + b)[lo..hi] == b[lo - |a|..hi - |a|]
  {
  }

  lemma {:induction false} JoinOffsetNext(sep: string, xs: seq<string>, k: nat)
    requires k + 1 <= |xs|
    ensures JoinOffset(sep, xs, k + 1) == JoinOffset(sep, xs, k) + |xs[k]| + |sep|
    decreases k
  {
    if k > 0 {
      assert xs[1..][k - 1] == xs[k];
      JoinOffsetNext(sep, xs[1..], k - 1);
    }
  }

  /**
    Every item appears whole in the joined string at its offset, and an item that is not the
    last is followed by exactly one `sep`; with JoinOffsetNext, the items appear in their order.
   */
  lemma {:induction false} JoinAt(sep: string, xs: seq<string>, k: nat)
    requires k < |xs|
    ensures JoinOffset(sep, xs, k) + |xs[k]| <= |Join(sep, xs)|
    ensures Join(sep, xs)[JoinOffset(sep, xs, k)..JoinOffset(sep, xs, k) + |xs[k]|] == xs[k]
    ensures k + 1 < |xs| ==>
      var o := JoinOffset(sep, xs, k) + |xs[k]|;
      o + |sep| <= |Join(sep, xs)| && Join(sep, xs)[o..o + |sep|] == sep
    decreases k
  {
    if k == 0 {
      if |xs| > 1 {
        assert Join(sep, xs) == xs[0] + sep + Join(sep, xs[1..]);
        assert (xs[0] + sep + Join(sep, xs[1..]))[..|xs[0]|] == xs[0];
        assert (xs[0] + sep + Join(sep, xs[1..]))[|xs[0]|..|xs[0]| + |sep|] == sep;
      }
    } else {
      var head := xs[0] + sep;
      var tail := Join(sep, xs[1..]);
      assert Join(sep, xs) == head + tail;
      assert xs[1..][k - 1] == xs[k];
      JoinAt(sep, xs[1..], k - 1);
      var o := JoinOffset(sep, xs[1..], k - 1);
      assert JoinOffset(sep, xs, k) == |head| + o;
      SliceRight(head, tail, |head| + o, |head| + o + |xs[k]|);
      if k + 1 < |xs| {
        SliceRight(head, tail, |head| + o + |xs[k]|, |head| + o + |xs[k]| + |sep|);
      }
    }
  }

  /** The last item ends the joined string. */
  lemma {:induction false} JoinLastEnds(sep: string, xs: seq<string>)
    requires |xs| > 0
    ensures JoinOffset(sep, xs, |xs| - 1) + |xs[|xs| - 1]| == |Join(sep, xs)|
    decreases |xs|
  {
    if |xs| > 1 {
      assert xs[1..][|xs[1..]| - 1] == xs[|xs| - 1];
      JoinLastEnds(sep, xs[1..]);
    }
  }
}
