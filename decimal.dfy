/** Decimal rendering of integers: Python `str(n)` / JavaScript
    `n.toString()` on integers, Python's sign-aware zero padding
    `f"{n:0Wd}"`, JavaScript's `padStart`, and the parsers that read the
    digits back. */
module Decimal {
  import opened Wrappers

  predicate IsDigit(c: char) { '0' <= c <= '9' }

  /** A non-empty run of decimal digits. */
  predicate IsDigits(s: string) {
    |s| > 0 && forall i :: 0 <= i < |s| ==> IsDigit(s[i])
  }

  function DigitChar(d: nat): (c: char)
    requires d < 10
    ensures IsDigit(c) && c as int - '0' as int == d
  {
    (d + '0' as int) as char
  }

  function Pow10(k: nat): (p: nat)
    ensures p >= 1
  {
    if k == 0 then 1 else 10 * Pow10(k - 1)
  }

  /** The value of a string of digits, read left to right. */
  function ParseNat(s: string): nat
    requires forall i :: 0 <= i < |s| ==> IsDigit(s[i])
  {
    if s == [] then 0
    else
      assert IsDigit(s[|s| - 1]);
      10 * ParseNat(s[..|s| - 1]) + (s[|s| - 1] as int - '0' as int)
  }

  /** The shortest decimal spelling of `n`, without leading zeros. Its
      properties are the lemma NatDigitsFacts, kept out of the signature so
      that callers which only move strings around do not unfold them. */
  function NatDigits(n: nat): string {
    if n < 10 then [DigitChar(n)] else NatDigits(n / 10) + [DigitChar(n % 10)]
  }

  /** NatDigits spells `n` in digits, one digit exactly for `n < 10` and
      with no leading zero otherwise. */
  lemma {:induction false} NatDigitsFacts(n: nat)
    ensures IsDigits(NatDigits(n))
    ensures ParseNat(NatDigits(n)) == n
    ensures |NatDigits(n)| == 1 <==> n < 10
    ensures |NatDigits(n)| > 1 ==> NatDigits(n)[0] != '0'
  {
    if n >= 10 {
      NatDigitsFacts(n / 10);
      var r := NatDigits(n);
      assert r[..|r| - 1] == NatDigits(n / 10);
    }
  }

  /** A number below 10^k needs at most k digits. */
  lemma {:induction false} NatDigitsLength(n: nat, k: nat)
    requires 1 <= k && n < Pow10(k)
    ensures |NatDigits(n)| <= k
  {
    if n >= 10 {
      NatDigitsLength(n / 10, k - 1);
    }
  }

  /** Python `str(n)` and JavaScript `String(n)` for an integer `n`. */
  function IntStr(n: int): string {
    if n < 0 then "-" + NatDigits(-n) else NatDigits(n)
  }

  /** `c` repeated `k` times, nothing for `k <= 0`. */
  function Repeat(c: char, k: int): string {
    if k <= 0 then [] else [c] + Repeat(c, k - 1)
  }

  lemma {:induction false} RepeatFacts(c: char, k: int)
    ensures |Repeat(c, k)| == if k < 0 then 0 else k
    ensures forall i :: 0 <= i < |Repeat(c, k)| ==> Repeat(c, k)[i] == c
  {
    if k > 0 {
      RepeatFacts(c, k - 1);
    }
  }

  /** Python `f"{n:0{width}d}"`: the digits of |n| padded on the left with
      zeros so that, together with a leading "-" for a negative `n`, the
      result is at least `width` characters long. */
  function ZeroPadded(n: int, width: nat): string {
    var m := if n < 0 then -n else n;
    var d := NatDigits(m);
    if n < 0 then "-" + Repeat('0', width - 1 - |d|) + d
    else Repeat('0', width - |d|) + d
  }

  /** The padded text is as wide as asked, or as wide as `str(n)` when that
      is wider, and holds only digits and a sign. */
  lemma ZeroPaddedFacts(n: int, width: nat)
    ensures |ZeroPadded(n, width)| == if |IntStr(n)| < width then width else |IntStr(n)|
    ensures forall i :: 0 <= i < |ZeroPadded(n, width)| ==> IsDigit(ZeroPadded(n, width)[i]) || ZeroPadded(n, width)[i] == '-'
  {
    var m := if n < 0 then -n else n;
    var d := NatDigits(m);
    NatDigitsFacts(m);
    if n < 0 {
      RepeatFacts('0', width - 1 - |d|);
    } else {
      RepeatFacts('0', width - |d|);
    }
  }

  /** JavaScript `s.padStart(width, c)`: `c` repeated on the left up to
      `width` characters, with no regard for a sign. */
  function PadStart(s: string, width: nat, c: char): string {
    Repeat(c, width - |s|) + s
  }

  /** The padded text is `width` long unless `s` is longer, ends with `s`,
      and is `c` before it. */
  lemma PadStartFacts(s: string, width: nat, c: char)
    ensures var r := PadStart(s, width, c);
      && |r| == (if |s| < width then width else |s|)
      && r[|r| - |s|..] == s
      && forall i :: 0 <= i < |r| - |s| ==> r[i] == c
  {
    RepeatFacts(c, width - |s|);
  }

  /** Reads back an optionally signed decimal integer. */
  function ParseInt(s: string): (r: Option<int>)
    ensures r.Some? <==> IsDigits(s) || (|s| > 1 && s[0] == '-' && IsDigits(s[1..]))
  {
    if IsDigits(s) then Some(ParseNat(s))
    else if |s| > 1 && s[0] == '-' && IsDigits(s[1..]) then Some(-(ParseNat(s[1..]) as int))
    else None
  }

  lemma {:induction false} ParseZeros(k: int)
    ensures forall i :: 0 <= i < |Repeat('0', k)| ==> IsDigit(Repeat('0', k)[i])
    ensures ParseNat(Repeat('0', k)) == 0
  {
    RepeatFacts('0', k);
    if k > 0 {
      var z := Repeat('0', k);
      assert z[..|z| - 1] == Repeat('0', k - 1) by {
        RepeatSnoc(k - 1);
      }
      ParseZeros(k - 1);
    }
  }

  lemma {:induction false} RepeatSnoc(k: int)
    requires k >= 0
    ensures Repeat('0', k + 1) == Repeat('0', k) + ['0']
  {
    if k > 0 {
      RepeatSnoc(k - 1);
    }
  }

  /** Leading zeros do not change the value of a digit string. */
  lemma {:induction false} ParseLeadingZeros(k: int, d: string)
    requires forall i :: 0 <= i < |d| ==> IsDigit(d[i])
    ensures forall i :: 0 <= i < |Repeat('0', k) + d| ==> IsDigit((Repeat('0', k) + d)[i])
    ensures ParseNat(Repeat('0', k) + d) == ParseNat(d)
  {
    var z := Repeat('0', k);
    RepeatFacts('0', k);
    if d == [] {
      assert z + d == z;
      ParseZeros(k);
    } else {
      var d' := d[..|d| - 1];
      assert (z + d)[..|z + d| - 1] == z + d';
      ParseLeadingZeros(k, d');
    }
  }

  /** Reading `str(n)` back gives `n`. */
  lemma IntStrRoundTrip(n: int)
    ensures ParseInt(IntStr(n)) == Some(n)
  {
    if n < 0 {
      NatDigitsFacts(-n);
      NegativeRoundTrip(NatDigits(-n));
    } else {
      NatDigitsFacts(n);
    }
  }

  /** Reading a zero-padded number back gives the number. */
  lemma ZeroPaddedRoundTrip(n: int, width: nat)
    ensures ParseInt(ZeroPadded(n, width)) == Some(n)
  {
    if n < 0 {
      ZeroPaddedNegative(n, width);
    } else {
      ZeroPaddedNonNegative(n, width);
    }
  }

  lemma ZeroPaddedNegative(n: int, width: nat)
    requires n < 0
    ensures ParseInt(ZeroPadded(n, width)) == Some(n)
  {
    var k := width - 1 - |NatDigits(-n)|;
    var body := Repeat('0', k) + NatDigits(-n);
    assert ZeroPadded(n, width) == "-" + body;
    PaddedDigitsFacts(-n, k);
    NegativeRoundTrip(body);
  }

  lemma ZeroPaddedNonNegative(n: int, width: nat)
    requires n >= 0
    ensures ParseInt(ZeroPadded(n, width)) == Some(n)
  {
    var k := width - |NatDigits(n)|;
    var body := Repeat('0', k) + NatDigits(n);
    PaddedDigitsFacts(n, k);
    DigitsRoundTrip(body);
    assert ZeroPadded(n, width) == body;
  }

  lemma DigitsRoundTrip(body: string)
    requires IsDigits(body)
    ensures ParseInt(body) == Some(ParseNat(body))
  {
  }

  lemma NegativeRoundTrip(body: string)
    requires IsDigits(body)
    ensures ParseInt("-" + body) == Some(-(ParseNat(body) as int))
  {
    var r := "-" + body;
    assert r[1..] == body;
    assert !IsDigit(r[0]);
  }

  /** The digits of a natural number behind `k` zeros are digits and still
      read as the number. */
  lemma PaddedDigitsFacts(m: nat, k: int)
    ensures IsDigits(Repeat('0', k) + NatDigits(m))
    ensures ParseNat(Repeat('0', k) + NatDigits(m)) == m
  {
    NatDigitsFacts(m);
    ParseLeadingZeros(k, NatDigits(m));
  }
}
