/** Decimal numerals: zero-padded printing, and scanning of digit runs. */
module Decimal {
  import opened Basics

  predicate IsDigit(c: char) {
    '0' <= c <= '9'
  }

  function DigitValue(c: char): (d: nat)
    requires IsDigit(c)
    ensures d < 10
  {
    (c - '0') as nat
  }

  function DigitChar(d: nat): (c: char)
    requires d < 10
    ensures IsDigit(c) && DigitValue(c) == d
  {
    '0' + d as char
  }

  predicate AllDigits(s: string) {
    forall k :: 0 <= k < |s| ==> IsDigit(s[k])
  }

  function Pow10(k: nat): (r: nat)
    ensures r >= 1
  {
    if k == 0 then 1 else 10 * Pow10(k - 1)
  }

  /** The number that a string of digits denotes. */
  function Number(s: string): nat
    requires AllDigits(s)
  {
    if s == "" then 0 else Number(s[..|s| - 1]) * 10 + DigitValue(s[|s| - 1])
  }

  /** printf("%0<width>d"), for numbers that fit. */
  function Padded(n: nat, width: nat): (s: string)
    ensures |s| == width && AllDigits(s)
  {
    if width == 0 then "" else Padded(n / 10, width - 1) + [DigitChar(n % 10)]
  }

  lemma NumberOfLonger(s: string, c: char)
    requires AllDigits(s) && IsDigit(c)
    ensures AllDigits(s + [c]) && Number(s + [c]) == Number(s) * 10 + DigitValue(c)
  {
    assert (s + [c])[..|s|] == s;
  }

  lemma {:induction false} NumberOfPadded(n: nat, width: nat)
    requires n < Pow10(width)
    ensures Number(Padded(n, width)) == n
  {
    if width > 0 {
      hide Number, DigitChar;
      NumberOfPadded(n / 10, width - 1);
      NumberOfLonger(Padded(n / 10, width - 1), DigitChar(n % 10));
    }
  }

  lemma {:induction false} NumberOfConcat(s: string, t: string)
    requires AllDigits(s) && AllDigits(t)
    ensures AllDigits(s + t) && Number(s + t) == Number(s) * Pow10(|t|) + Number(t)
    decreases |t|
  {
    if t == "" {
      assert s + t == s;
    } else {
      var u := t[..|t| - 1];
      NumberOfConcat(s, u);
      assert (s + t)[..|s + t| - 1] == s + u;
      Shift(Number(s), Pow10(|u|), Number(u));
    }
  }

  lemma Shift(a: nat, p: nat, n: nat)
    ensures (a * p + n) * 10 == a * (10 * p) + n * 10
  {
  }

  lemma {:induction false} NumberBound(s: string)
    requires AllDigits(s)
    ensures Number(s) < Pow10(|s|)
  {
    if s != "" { NumberBound(s[..|s| - 1]); }
  }

  /** How many digits follow from position p on, counting at most `most`. */
  function Run(s: string, p: nat, most: nat): (n: nat)
    requires p <= |s|
    ensures n <= most && p + n <= |s| && forall k :: p <= k < p + n ==> IsDigit(s[k])
    ensures n < most && p + n < |s| ==> !IsDigit(s[p + n])
    decreases |s| - p
  {
    if most == 0 || p == |s| || !IsDigit(s[p]) then 0
    else 1 + Run(s, p + 1, most - 1)
  }

  predicate IsBlank(c: char) {
    c == ' ' || '\t' <= c <= '\r'
  }

  predicate IsSign(c: char) {
    c == '+' || c == '-'
  }

  /** The first position from p on that holds no blank. */
  function SkipBlanks(s: string, p: nat): (q: nat)
    requires p <= |s|
    ensures p <= q <= |s|
    decreases |s| - p
  {
    if p < |s| && IsBlank(s[p]) then SkipBlanks(s, p + 1) else p
  }

  /**
   * sscanf("%<width>d%n") from position p on: the number read and the position after it. Blanks
   * are skipped and not counted in the width; a sign is counted in it.
   */
  function ScanInt(s: string, p: nat, width: nat): (r: Option<(int, nat)>)
    requires p <= |s| && width > 0
    ensures r.Some? ==> p < r.value.1 <= |s|
  {
    var q := SkipBlanks(s, p);
    if q < |s| && IsSign(s[q]) then
      var n := Run(s, q + 1, width - 1);
      if n == 0 then None
      else
        var v: int := Number(s[q + 1..q + 1 + n]);
        Some((if s[q] == '-' then -v else v, q + 1 + n))
    else
      var n := Run(s, q, width);
      if n == 0 then None else Some((Number(s[q..q + n]), q + n))
  }

  lemma {:induction false} RunIs(s: string, p: nat, most: nat, n: nat)
    requires p + n <= |s| && n <= most && forall k :: p <= k < p + n ==> IsDigit(s[k])
    requires n == most || p + n == |s| || !IsDigit(s[p + n])
    ensures Run(s, p, most) == n
    decreases n
  {
    if n > 0 { RunIs(s, p + 1, most - 1, n - 1); }
  }

  /** A numeral of the full width is read as its number. */
  lemma ScanPadded(s: string, p: nat, width: nat, n: nat)
    requires width > 0 && n < Pow10(width) && p + width <= |s|
    requires s[p..p + width] == Padded(n, width)
    ensures ScanInt(s, p, width) == Some((n, p + width))
  {
    NumberOfPadded(n, width);
    forall k | p <= k < p + width ensures IsDigit(s[k]) {
      assert s[k] == s[p..p + width][k - p];
    }
    RunIs(s, p, width, width);
  }

  /** Printing a number read from digits, at their width, gives the digits. */
  lemma {:induction false} PaddedOfNumber(s: string)
    requires AllDigits(s)
    ensures Padded(Number(s), |s|) == s
  {
    if s != "" {
      PaddedOfNumber(s[..|s| - 1]);
      assert s == s[..|s| - 1] + [s[|s| - 1]];
    }
  }

  lemma {:induction false} Pow10Sum(a: nat, b: nat)
    ensures Pow10(a + b) == Pow10(a) * Pow10(b)
  {
    if a > 0 {
      Pow10Sum(a - 1, b);
      assert Pow10(a + b) == 10 * Pow10(a - 1 + b);
    }
  }

  /** How many digits a number has: none for zero. */
  function Length(n: nat): (k: nat)
    ensures n < Pow10(k) && (k > 0 ==> Pow10(k - 1) <= n)
  {
    if n == 0 then 0 else 1 + Length(n / 10)
  }

  /** printf("%0<width>d"): the sign takes one place of the width, and no digit is ever cut off. */
  function Printed(n: int, width: nat): string {
    if n >= 0 then Padded(n, Max(width, Length(n)))
    else "-" + Padded(-n, Max(width - 1, Length(-n)))
  }

  lemma {:induction false} LengthAtMost(n: nat, k: nat)
    ensures Length(n) <= k <==> n < Pow10(k)
  {
    if n > 0 && k > 0 { LengthAtMost(n / 10, k - 1); }
  }
}
