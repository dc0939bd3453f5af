/** Big-endian coding of integers of any byte width. */
module BigEndian {
  import opened Basics

  newtype Byte = b: int | 0 <= b < 256

  function Pow2(k: nat): (r: nat)
    ensures r >= 1
  {
    if k == 0 then 1 else 2 * Pow2(k - 1)
  }

  /** Bitwise or of two naturals. */
  function Or(a: nat, b: nat): nat
    decreases a + b
  {
    if a == 0 && b == 0 then 0
    else 2 * Or(a / 2, b / 2) + if a % 2 == 1 || b % 2 == 1 then 1 else 0
  }

  // ---- Integer types ----

  /** The values of an integer type of `width` bytes. */
  predicate InRange(v: int, width: nat, signed: bool) {
    if signed then -(Pow2(8 * width) as int) <= 2 * v < Pow2(8 * width) else 0 <= v < Pow2(8 * width)
  }

  /** The unsigned integer with the same bits: two's complement. */
  function ToUnsigned(v: int, width: nat, signed: bool): (n: nat)
    requires InRange(v, width, signed)
    ensures n < Pow2(8 * width)
  {
    if v < 0 then v + Pow2(8 * width) else v
  }

  function FromUnsigned(n: nat, width: nat, signed: bool): (v: int)
    requires n < Pow2(8 * width)
    ensures InRange(v, width, signed)
  {
    if signed && 2 * n >= Pow2(8 * width) then n - Pow2(8 * width) else n
  }

  lemma SameBits(n: nat, width: nat, signed: bool)
    requires n < Pow2(8 * width)
    ensures ToUnsigned(FromUnsigned(n, width, signed), width, signed) == n
  {
  }

  // ---- The value of a byte string ----

  /** The number that the digits denote in base 256, most significant first. */
  function ValueOf(s: seq<Byte>): nat {
    if s == [] then 0 else ValueOf(s[..|s| - 1]) * 256 + s[|s| - 1] as nat
  }

  /** The string of `width` digits that denotes n modulo 256^width. */
  function Digits(n: nat, width: nat): (s: seq<Byte>)
    ensures |s| == width
  {
    if width == 0 then [] else Digits(n / 256, width - 1) + [(n % 256) as Byte]
  }

  lemma {:induction false} Pow2Step(k: nat)
    ensures Pow2(k + 8) == 256 * Pow2(k)
  {
    assert Pow2(k + 8) == 2 * Pow2(k + 7) == 4 * Pow2(k + 6) == 8 * Pow2(k + 5) == 16 * Pow2(k + 4);
    assert Pow2(k + 4) == 2 * Pow2(k + 3) == 4 * Pow2(k + 2) == 8 * Pow2(k + 1) == 16 * Pow2(k);
  }

  lemma {:induction false} ValueBound(s: seq<Byte>)
    ensures ValueOf(s) < Pow2(8 * |s|)
  {
    if s != [] {
      ValueBound(s[..|s| - 1]);
      Pow2Step(8 * (|s| - 1));
    }
  }

  lemma {:induction false} ValueOfDigits(n: nat, width: nat)
    requires n < Pow2(8 * width)
    ensures ValueOf(Digits(n, width)) == n
  {
    if width > 0 {
      Pow2Step(8 * (width - 1));
      assert n / 256 < Pow2(8 * (width - 1));
      ValueOfDigits(n / 256, width - 1);
      assert Digits(n, width)[..width - 1] == Digits(n / 256, width - 1);
    }
  }

  lemma {:induction false} DigitsOfValue(s: seq<Byte>)
    ensures Digits(ValueOf(s), |s|) == s
  {
    if s != [] {
      var t, d := s[..|s| - 1], s[|s| - 1];
      var n := ValueOf(s);
      assert n / 256 == ValueOf(t) && n % 256 == d as nat;
      DigitsOfValue(t);
      assert s == t + [d];
    }
  }

  // ---- Shifts ----

  /** Digit i of `width` is the number shifted right, cut to eight bits. */
  lemma {:induction false} DigitIsShifted(n: nat, width: nat, i: nat)
    requires i < width
    ensures Digits(n, width)[i] as nat == n / Pow2(8 * (width - 1 - i)) % 256
  {
    if i < width - 1 {
      DigitIsShifted(n / 256, width - 1, i);
      Pow2Step(8 * (width - 2 - i));
      DivDiv(n, Pow2(8 * (width - 2 - i)));
    } else {
      assert Pow2(0) == 1;
    }
  }

  lemma DivDiv(n: nat, b: nat)
    requires b > 0
    ensures n / 256 / b == n / (256 * b)
  {
    var q2, r2 := n / 256 / b, n / 256 % b;
    assert (256 * b) * q2 == 256 * (b * q2);
    DivUnique(n, 256 * b, q2, 256 * r2 + n % 256);
  }

  lemma DivUnique(n: nat, d: nat, q: nat, r: nat)
    requires d > 0 && r < d && n == d * q + r
    ensures n / d == q
  {
    var k := n / d - q;
    assert d * k == r - n % d;
    assert k >= 1 ==> d * k >= d;
    assert k <= -1 ==> d * k + d <= 0;
  }

  /** Or of numbers without common bits is their sum. */
  lemma {:induction false} OrIsSum(hi: nat, lo: nat, k: nat)
    requires hi % Pow2(k) == 0 && lo < Pow2(k)
    ensures Or(hi, lo) == hi + lo
    decreases k
  {
    if k == 0 {
      OrZero(hi);
    } else {
      var p := Pow2(k - 1);
      var m := hi / Pow2(k);
      assert hi == 2 * (p * m) by { assert hi == Pow2(k) * m; assert Pow2(k) * m == 2 * (p * m); }
      assert hi / 2 == p * m && hi % 2 == 0;
      MultipleMod(p, m);
      OrIsSum(hi / 2, lo / 2, k - 1);
      assert lo == 2 * (lo / 2) + lo % 2;
    }
  }

  lemma MultipleMod(p: nat, m: nat)
    requires p > 0
    ensures p * m % p == 0
  {
    DivUnique(p * m, p, m, 0);
  }

  lemma {:induction false} OrZero(a: nat)
    ensures Or(a, 0) == a
  {
    if a > 0 { OrZero(a / 2); }
  }

  // ---- The loops ----

  datatype WrongSize = WrongSize(given: nat, expected: nat)

  method EncodeBigEndian(value: int, width: nat, signed: bool) returns (s: seq<Byte>)
    requires InRange(value, width, signed)
    ensures |s| == width && s == Digits(ToUnsigned(value, width, signed), width)
  {
    var n := ToUnsigned(value, width, signed);
    var shift := 8 * width;
    var a := new Byte[width];
    for i := 0 to width
      invariant shift == 8 * (width - i)
      invariant a[..i] == Digits(n, width)[..i]
    {
      shift := shift - 8;
      a[i] := (n / Pow2(shift) % 256) as Byte;
      DigitIsShifted(n, width, i);
    }
    s := a[..];
  }

  method DecodeBigEndian(value: seq<Byte>, width: nat, signed: bool) returns (r: Result<int, WrongSize>)
    ensures |value| != width ==> r == Err(WrongSize(|value|, width))
    ensures |value| == width ==>
              ValueOf(value) < Pow2(8 * width) && r == Ok(FromUnsigned(ValueOf(value), width, signed))
  {
    hide Or, FromUnsigned;
    if |value| != width {
      return Err(WrongSize(|value|, width));
    }
    var shift := 8 * width;
    var result := 0;
    for i := 0 to width
      invariant shift == 8 * (width - i)
      invariant result == ValueOf(value[..i]) * Pow2(shift)
    {
      var n := value[i] as nat;
      shift := shift - 8;
      DecodeStep(ValueOf(value[..i]), n, shift);
      result := Or(result, n * Pow2(shift));
      assert value[..i + 1][..i] == value[..i];
    }
    assert value[..width] == value;
    ValueBound(value);
    r := Ok(FromUnsigned(result, width, signed));
  }

  lemma DecodeStep(high: nat, n: nat, shift: nat)
    requires n < 256
    ensures Or(high * Pow2(shift + 8), n * Pow2(shift)) == (high * 256 + n) * Pow2(shift)
  {
    var p := Pow2(shift);
    Pow2Step(shift);
    MultipleMod(256 * p, high);
    assert n * p < 256 * p;
    assert high * Pow2(shift + 8) == high * 256 * p;
    OrIsSum(high * Pow2(shift + 8), n * p, shift + 8);
  }

  // ---- Round trips ----

  /** Decoding what was encoded gives the value back, for every width and signedness. */
  lemma DecodeEncode(v: int, width: nat, signed: bool)
    requires InRange(v, width, signed)
    ensures var s := Digits(ToUnsigned(v, width, signed), width);
            ValueOf(s) < Pow2(8 * width) && FromUnsigned(ValueOf(s), width, signed) == v
  {
    ValueOfDigits(ToUnsigned(v, width, signed), width);
  }

  /** Encoding what was decoded gives the string back, for every string. */
  lemma EncodeDecode(s: seq<Byte>, signed: bool)
    ensures ValueOf(s) < Pow2(8 * |s|)
    ensures Digits(ToUnsigned(FromUnsigned(ValueOf(s), |s|, signed), |s|, signed), |s|) == s
  {
    ValueBound(s);
    SameBits(ValueOf(s), |s|, signed);
    DigitsOfValue(s);
  }

  /** Both loops, one after the other. */
  method RoundTrip(v: int, width: nat, signed: bool) returns (r: Result<int, WrongSize>)
    requires InRange(v, width, signed)
    ensures r == Ok(v)
  {
    var s := EncodeBigEndian(v, width, signed);
    r := DecodeBigEndian(s, width, signed);
    DecodeEncode(v, width, signed);
  }
}
