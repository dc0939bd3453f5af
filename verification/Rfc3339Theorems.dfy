/** What the parser accepts, and when printing and parsing give the time point back. */
module Rfc3339Theorems {
  import opened Basics
  import opened Decimal
  import opened Calendar
  import opened Rfc3339
  import opened Rfc3339Proofs

  // ---- A clean text that is accepted is a text of the grammar ----

  /** Position p is the start of the text or follows a character that is no digit. */
  predicate AfterMark(s: string, p: nat)
    requires p <= |s|
  {
    p == 0 || !IsDigit(s[p - 1])
  }

  /** In a clean text a number that starts after a mark is made of digits only. */
  lemma CleanScan(s: string, p: nat, width: nat, v: int, q: nat)
    requires Clean(s) && p <= |s| && width > 0 && AfterMark(s, p)
    requires ScanInt(s, p, width) == Some((v, q))
    ensures p < q <= p + width && q <= |s| && AllDigits(s[p..q])
    ensures 0 <= v < Pow10(q - p) && s[p..q] == Padded(v, q - p)
  {
    if p < |s| {
      assert CleanAt(s, p);
      var n := Run(s, p, width);
      PaddedOfNumber(s[p..p + n]);
      NumberBound(s[p..p + n]);
    }
  }

  lemma CleanMarked(s: string, p: nat, width: nat, mark: char, v: int, q: nat)
    requires Clean(s) && p <= |s| && width > 0 && AfterMark(s, p) && !IsDigit(mark)
    requires ScanField(s, p, width, mark) == Some((v, q))
    ensures p + 1 < q <= p + width + 1 && q <= |s| && s[q - 1] == mark && AfterMark(s, q)
    ensures 0 <= v < Pow10(q - 1 - p) && s[p..q - 1] == Padded(v, q - 1 - p)
  {
    CleanScan(s, p, width, v, q - 1);
  }

  lemma JoinDate(s: string, d: Date)
    requires 0 <= d.year && 0 <= d.month && 0 <= d.day && |s| >= 10
    requires s[0..4] == Padded(d.year, 4) && s[4] == '-' && s[5..7] == Padded(d.month, 2) && s[7] == '-'
    requires s[8..10] == Padded(d.day, 2)
    ensures s[..10] == DateText(d)
  {
    hide Padded;
    assert s[..10] == s[0..4] + [s[4]] + s[5..7] + [s[7]] + s[8..10];
  }

  lemma JoinTime(s: string, p: nat, hour: nat, minute: nat, second: nat)
    requires |s| >= p + 8
    requires s[p..p + 2] == Padded(hour, 2) && s[p + 2] == ':'
    requires s[p + 3..p + 5] == Padded(minute, 2) && s[p + 5] == ':' && s[p + 6..p + 8] == Padded(second, 2)
    ensures s[p..p + 8] == TimeText(hour, minute, second)
  {
    hide Padded;
    assert s[p..p + 8] == s[p..p + 2] + [s[p + 2]] + s[p + 3..p + 5] + [s[p + 5]] + s[p + 6..p + 8];
  }

  lemma CleanDate(s: string, d: Date, p: nat, q: nat, r: nat)
    requires Clean(s) && p <= |s| && q <= |s| && r < |s|
    requires ScanField(s, 0, 4, '-') == Some((d.year, p))
    requires ScanField(s, p, 2, '-') == Some((d.month, q))
    requires ScanInt(s, q, 2) == Some((d.day, r))
    ensures r <= 10
    ensures r == 10 ==>
            && 0 <= d.year < 10000 && 0 <= d.month < 100 && 0 <= d.day < 100
            && s[..10] == DateText(d)
  {
    hide ScanInt, ScanField, Clean, DateText, Padded;
    CleanMarked(s, 0, 4, '-', d.year, p);
    CleanMarked(s, p, 2, '-', d.month, q);
    CleanScan(s, q, 2, d.day, r);
    if r == 10 {
      assert p == 5 && q == 8;
      JoinDate(s, d);
    }
  }

  lemma CleanTime(s: string, p: nat, q: nat, r: nat, e: nat, hour: int, minute: int, second: int)
    requires Clean(s) && p <= |s| && q <= |s| && r <= |s| && AfterMark(s, p)
    requires ScanField(s, p, 2, ':') == Some((hour, q))
    requires ScanField(s, q, 2, ':') == Some((minute, r))
    requires ScanInt(s, r, 2) == Some((second, e))
    ensures e <= p + 8
    ensures e == p + 8 ==>
            && 0 <= hour < 100 && 0 <= minute < 100 && 0 <= second < 100
            && e <= |s| && s[p..e] == TimeText(hour, minute, second)
  {
    hide ScanInt, ScanField, Clean, TimeText, Padded;
    CleanMarked(s, p, 2, ':', hour, q);
    CleanMarked(s, q, 2, ':', minute, r);
    CleanScan(s, r, 2, second, e);
    if e == p + 8 {
      assert q == p + 3 && r == p + 6;
      JoinTime(s, p, hour, minute, second);
    }
  }

  /** The steps of a scan of a date that went through. */
  lemma StepsOfScanDate(s: string) returns (d: Date, p: nat, q: nat, r: nat)
    requires ScanDate(s).Some?
    ensures p <= |s| && q <= |s| && r < |s| && ScanDate(s) == Some((d, s[r], r + 1))
    ensures ScanField(s, 0, 4, '-') == Some((d.year, p))
    ensures ScanField(s, p, 2, '-') == Some((d.month, q))
    ensures ScanInt(s, q, 2) == Some((d.day, r))
  {
    p := ScanField(s, 0, 4, '-').value.1;
    q := ScanField(s, p, 2, '-').value.1;
    r := ScanInt(s, q, 2).value.1;
    d := ScanDate(s).value.0;
  }

  lemma StepsOfScanTime(s: string, p: nat) returns (q: nat, r: nat)
    requires p <= |s| && ScanTime(s, p).Some?
    ensures q <= |s| && r <= |s|
    ensures var (hour, minute, second, e) := ScanTime(s, p).value;
            && ScanField(s, p, 2, ':') == Some((hour, q))
            && ScanField(s, q, 2, ':') == Some((minute, r))
            && ScanInt(s, r, 2) == Some((second, e))
  {
    q := ScanField(s, p, 2, ':').value.1;
    r := ScanField(s, q, 2, ':').value.1;
  }

  lemma CleanDateOf(s: string, d: Date, separator: char, p: nat)
    requires Clean(s) && ScanDate(s) == Some((d, separator, p)) && !IsDigit(separator)
    ensures p <= 11 && p <= |s| && AfterMark(s, p)
    ensures p == 11 ==>
            && 0 <= d.year < 10000 && 0 <= d.month < 100 && 0 <= d.day < 100
            && s[..10] == DateText(d) && s[10] == separator
  {
    hide ScanInt, ScanField, Clean, DateText;
    var _, i, j, r := StepsOfScanDate(s);
    CleanDate(s, d, i, j, r);
  }

  lemma CleanTimeOf(s: string, p: nat, hour: int, minute: int, second: int, e: nat)
    requires Clean(s) && p <= |s| && AfterMark(s, p)
    requires ScanTime(s, p) == Some((hour, minute, second, e))
    ensures e <= p + 8 && e <= |s|
    ensures e == p + 8 ==>
            && 0 <= hour < 100 && 0 <= minute < 100 && 0 <= second < 100
            && s[p..e] == TimeText(hour, minute, second)
  {
    hide ScanInt, ScanField, ScanTime, Clean, TimeText;
    var q, r := StepsOfScanTime(s, p);
    CleanTime(s, p, q, r, e, hour, minute, second);
  }

  lemma CleanBaseOf(s: string, c: Civil, separator: char, p: nat)
    requires Clean(s) && p <= |s| && !IsDigit(separator)
    requires ScanDate(s) == Some((c.date, separator, p))
    requires ScanTime(s, p) == Some((c.hour, c.minute, c.second, 19))
    ensures Fits(c) && |s| >= 19 && s[..19] == BaseText(c, separator)
  {
    hide ScanInt, ScanField, ScanDate, ScanTime, Clean, DateText, TimeText, BaseText;
    CleanDateOf(s, c.date, separator, p);
    CleanTimeOf(s, p, c.hour, c.minute, c.second, 19);
    JoinBase(s, c, separator);
  }

  lemma JoinBase(s: string, c: Civil, separator: char)
    requires Fits(c) && |s| >= 19 && s[..10] == DateText(c.date) && s[10] == separator
    requires s[11..19] == TimeText(c.hour, c.minute, c.second)
    ensures s[..19] == BaseText(c, separator)
  {
    assert s[..19] == s[..10] + [s[10]] + s[11..19];
  }

  /** What a base date and time that was read consists of. */
  lemma StepsOfDateTime(s: string, zone: int) returns (c: Civil, separator: char, p: nat)
    requires ParseDateTime(s, zone).Ok?
    ensures p <= |s| && CheckFields(c, separator) == None
    ensures ScanDate(s) == Some((c.date, separator, p))
    ensures ScanTime(s, p) == Some((c.hour, c.minute, c.second, 19))
  {
    var (date, x, i) := ScanDate(s).value;
    separator, p := x, i;
    var (hour, minute, second, q) := ScanTime(s, p).value;
    c := Civil(date, hour, minute, second);
  }

  lemma CleanDateTime(s: string, zone: int) returns (c: Civil, lower: bool)
    requires Clean(s) && ParseDateTime(s, zone).Ok?
    ensures Fits(c) && |s| >= 19 && s[..19] == BaseText(c, Separator(lower))
    ensures CheckFields(c, Separator(lower)) == None
  {
    var civil, separator, p := StepsOfDateTime(s, zone);
    CleanBaseOf(s, civil, separator, p);
    c, lower := civil, separator == 't';
  }

  lemma CleanFraction(s: string, p: nat)
    requires Clean(s) && 0 < p <= |s| && FractionAt(s, p).Ok?
    ensures var q := FractionAt(s, p).value.1;
            || (q == p && s[p..q] == "")
            || (p + 1 < q <= |s| && s[p] == '.' && AllDigits(s[p + 1..q]))
  {
    hide ScanInt, Clean, Padded;
    if p < |s| && s[p] == '.' {
      var (v, q) := ScanInt(s, p + 1, 9).value;
      CleanScan(s, p + 1, 9, v, q);
      var e := q + Run(s, q, |s| - q);
      forall k | p + 1 <= k < e ensures IsDigit(s[k]) {
        if k < q { assert s[k] == s[p + 1..q][k - (p + 1)]; }
      }
    }
  }

  lemma CleanOffset(s: string, p: nat) returns (z: Zone)
    requires Clean(s) && 0 < p <= |s| && ParseOffset(s, p).Ok?
    ensures s[p..ParseOffset(s, p).value.1] == ZoneText(z)
    ensures z.Offset? ==> z.hours < 24 && z.minutes < 60
  {
    hide ScanInt, ScanField, Clean, AllDigits, Padded;
    if IsSign(s[p]) {
      var (hours, q) := ScanField(s, p + 1, 2, ':').value;
      CleanMarked(s, p + 1, 2, ':', hours, q);
      var (minutes, e) := ScanInt(s, q, 2).value;
      CleanScan(s, q, 2, minutes, e);
      assert q == p + 4 && e == p + 6;
      assert s[p..e] == [s[p]] + s[p + 1..p + 3] + [s[p + 3]] + s[p + 4..p + 6];
      z := Offset(s[p] == '+', hours, minutes);
    } else {
      z := Zulu(s[p] == 'z');
    }
  }

  lemma Cut(s: string, i: nat, j: nat)
    requires i <= j <= |s|
    ensures s == s[..i] + s[i..j] + s[j..|s|]
  {
  }

  lemma Assemble(s: string, c: Civil, lower: bool, q: nat, z: Zone) returns (st: Stamp)
    requires Fits(c) && CheckFields(c, Separator(lower)) == None && 19 <= q <= |s|
    requires s[..19] == BaseText(c, Separator(lower)) && s[q..|s|] == ZoneText(z)
    requires q == 19 || (q > 20 && s[19] == '.' && AllDigits(s[20..q]))
    requires z.Offset? ==> z.hours < 24 && z.minutes < 60
    ensures Grammatical(st) && InRange(st) && s == Text(st)
  {
    hide BaseText, ZoneText, CheckFields;
    ChecksPassOnRealDates(c, Separator(lower));
    st := Stamp(c, lower, if q == 19 then "" else s[20..q], z);
    assert s[19..q] == FractionText(st.fraction);
    Cut(s, 19, q);
  }

  /** What a text that was accepted consists of. */
  lemma StepsOfParse(s: string, now: int, zone: int) returns (q: nat)
    requires Parse(s, now, zone).Ok? && CString(s) == s
    ensures ParseDateTime(s, zone).Ok? && 19 <= q <= |s|
    ensures FractionAt(s, 19).Ok? && FractionAt(s, 19).value.1 == q
    ensures ParseOffset(s, q).Ok? && ParseOffset(s, q).value.1 == |s|
  {
    q := FractionAt(s, 19).value.1;
  }

  lemma AcceptedParts(s: string, zone: int, q: nat) returns (st: Stamp)
    requires Clean(s) && ParseDateTime(s, zone).Ok? && 19 <= q <= |s|
    requires FractionAt(s, 19).Ok? && FractionAt(s, 19).value.1 == q
    requires ParseOffset(s, q).Ok? && ParseOffset(s, q).value.1 == |s|
    ensures Grammatical(st) && InRange(st) && s == Text(st)
  {
    hide *;
    var c, lower := CleanDateTime(s, zone);
    CleanFraction(s, 19);
    var z := CleanOffset(s, q);
    st := Assemble(s, c, lower, q, z);
  }

  /** An accepted clean text is the text of a stamp in range. */
  lemma AcceptedIsStamp(s: string, now: int, zone: int) returns (st: Stamp)
    requires Clean(s) && Parse(s, now, zone).Ok?
    ensures Grammatical(st) && InRange(st) && s == Text(st)
  {
    CleanWhole(s);
    var q := StepsOfParse(s, now, zone);
    st := AcceptedParts(s, zone, q);
  }

  /** The texts that are accepted and clean are exactly those of the grammar with fields in range. */
  lemma AcceptedIff(s: string, now: int, zone: int)
    ensures Clean(s) && Parse(s, now, zone).Ok? <==>
            exists st :: Grammatical(st) && InRange(st) && Text(st) == s
  {
    if Clean(s) && Parse(s, now, zone).Ok? {
      var st := AcceptedIsStamp(s, now, zone);
    }
    if st :| Grammatical(st) && InRange(st) && Text(st) == s {
      ParseOfText(st, now, zone);
      StampIsClean(st);
    }
  }

  // ---- Printing and parsing again ----

  lemma PrintedUnsigned(n: nat, width: nat)
    requires n < Pow10(width)
    ensures Printed(n, width) == Padded(n, width)
  {
    LengthAtMost(n, width);
  }

  /** A negative number of full width comes out one character longer. */
  lemma PrintedNegative(m: int, width: nat)
    requires 0 < m < Pow10(width) && width > 0
    ensures Printed(-m, width) == "-" + Padded(m, if m < Pow10(width - 1) then width - 1 else width)
  {
    LengthAtMost(m, width);
    LengthAtMost(m, width - 1);
  }

  lemma FloorOfPadded(n: nat, width: nat, places: nat)
    requires n < Pow10(width) && width <= places
    ensures FloorOf(Padded(n, width), places) == n * Pow10(places - width)
  {
    var digits := Padded(n, width);
    NumberOfPadded(n, width);
    FloorOfPrefix(digits, places);
    assert digits[..width] == digits;
  }

  /** With one place too few the last digit is lost. */
  lemma FloorOfLonger(n: nat, places: nat)
    requires n < Pow10(places + 1)
    ensures FloorOf(Padded(n, places + 1), places) == n / 10
  {
    hide Number, FloorOf;
    var digits := Padded(n, places + 1);
    FloorOfPrefix(digits, places);
    assert digits[..places] == Padded(n / 10, places);
    NumberOfPadded(n / 10, places);
  }

  lemma PositiveFraction(s: string, p: nat, n: nat, width: nat)
    requires 0 < width <= 9 && n < Pow10(width)
    requires p <= |s| && s[p..] == "." + Printed(n, width) + "Z"
    ensures FractionAt(s, p) == Ok((n * Pow10(9 - width), |s| - 1))
  {
    hide FractionAt, Printed, FloorOf, Padded;
    PrintedUnsigned(n, width);
    FractionOf(s, p, Padded(n, width), "Z");
    FloorOfPadded(n, width, 9);
  }

  /** What a negative fraction is read as: right unless its first digit is not zero. */
  function ReadBack(m: nat, width: nat): int
    requires 0 < width <= 9
  {
    if m < Pow10(width - 1) then m * Pow10(9 - width)
    else if width == 9 then m / 10
    else m * Pow10(8 - width)
  }

  lemma SignedFraction(s: string, p: nat, digits: string)
    requires AllDigits(digits) && digits != ""
    requires p <= |s| && s[p..] == "." + ("-" + digits) + "Z"
    ensures FractionAt(s, p) == Ok((-1 * FloorOf(digits, 8), |s| - 1))
  {
    var t := "." + ("-" + digits) + "Z";
    var e := |s| - 1;
    assert s[p] == t[0] && s[p + 1] == t[1] && s[e] == t[|t| - 1];
    assert s[p + 2..e] == s[p..][2..|t| - 1] == t[2..|t| - 1] == digits;
    SignedFractionIsFloor(s, p, e);
  }

  lemma ReadBackIsFloor(m: nat, width: nat)
    requires 1 < width <= 9 && 0 < m < Pow10(width)
    ensures var k := if m < Pow10(width - 1) then width - 1 else width;
            FloorOf(Padded(m, k), 8) == ReadBack(m, width)
  {
    var k := if m < Pow10(width - 1) then width - 1 else width;
    if k == 9 { FloorOfLonger(m, 8); } else { FloorOfPadded(m, k, 8); }
  }

  lemma NegativeFraction(s: string, p: nat, m: int, width: nat)
    requires 1 < width <= 9 && 0 < m < Pow10(width)
    requires p <= |s| && s[p..] == "." + Printed(-m, width) + "Z"
    ensures FractionAt(s, p) == Ok((-1 * ReadBack(m, width), |s| - 1))
  {
    PrintedNegative(m, width);
    var k := if m < Pow10(width - 1) then width - 1 else width;
    SignedFraction(s, p, Padded(m, k));
    ReadBackIsFloor(m, width);
  }

  lemma ReadBackIff(m: nat, width: nat)
    requires 0 < width <= 9 && m > 0
    ensures ReadBack(m, width) == m * Pow10(9 - width) <==> m < Pow10(width - 1)
  {
    if width < 9 {
      TenTimes(m, Pow10(8 - width));
    }
  }

  lemma TenTimes(m: int, x: int)
    requires m > 0 && x > 0
    ensures m * (10 * x) == 10 * (m * x) && m * x > 0
  {
  }

  /** A fraction of n units of 10^(width-9) seconds, printed and read again. */
  lemma UnitsReadBack(s: string, p: nat, n: int, width: nat) returns (g: int)
    requires 1 < width <= 9 && n != 0 && n < Pow10(width) && -n < Pow10(width)
    requires p <= |s| && s[p..] == "." + Printed(n, width) + "Z"
    ensures FractionAt(s, p) == Ok((g, |s| - 1))
    ensures g == n * Pow10(9 - width) <==> -n < Pow10(width - 1)
  {
    hide FractionAt, Printed, ReadBack, Pow10;
    if n > 0 {
      PositiveFraction(s, p, n, width);
      g := n * Pow10(9 - width);
    } else {
      NegativeFraction(s, p, -n, width);
      ReadBackIff(-n, width);
      g := -1 * ReadBack(-n, width);
      assert -n * Pow10(9 - width) == -1 * (n * Pow10(9 - width));
    }
  }

  /** A fraction that is n whole units, with the digits that FormatFractional gives to such units. */
  lemma WholeUnits(ns: int, n: int, width: nat)
    requires ns != 0 && -1_000_000_000 < ns < 1_000_000_000
    requires || (width == 3 && ns == n * 1_000_000)
             || (width == 6 && ns == n * 1_000)
             || (width == 9 && ns == n)
    ensures n != 0 && n < Pow10(width) && -n < Pow10(width)
    ensures n * Pow10(9 - width) == ns && (-n < Pow10(width - 1) <==> -100_000_000 < ns)
  {
    assert Pow10(0) == 1 && Pow10(2) == 100 && Pow10(3) == 1_000 && Pow10(5) == 100_000;
    assert Pow10(6) == 1_000_000 && Pow10(8) == 100_000_000 && Pow10(9) == 1_000_000_000;
  }

  /** How many units, of how many digits, FormatFractional prints: the fewest groups of three digits that lose
      nothing. */
  lemma FormatUnits(ns: int) returns (n: int, width: nat)
    requires ns != 0
    ensures FormatFractional(ns) == "." + Printed(n, width)
    ensures width == if ns % 1_000_000 == 0 then 3 else if ns % 1_000 == 0 then 6 else 9
    ensures ns == n * (if width == 3 then 1_000_000 else if width == 6 then 1_000 else 1)
  {
    WholeGroups(ns);
    if ns % 1_000_000 == 0 {
      n, width := Truncated(ns, 1_000_000), 3;
    } else if ns % 1_000 == 0 {
      n, width := Truncated(ns, 1_000), 6;
    } else {
      n, width := ns, 9;
    }
  }

  lemma WholeGroups(ns: int)
    ensures ns == Truncated(ns, 1_000_000) * 1_000_000 <==> ns % 1_000_000 == 0
    ensures ns == Truncated(ns, 1_000) * 1_000 <==> ns % 1_000 == 0
  {
  }

  /** The fraction comes back exactly when it is more than minus a tenth of a second. */
  lemma FractionReadBack(s: string, p: nat, ns: int) returns (g: int)
    requires -1_000_000_000 < ns < 1_000_000_000
    requires p <= |s| && s[p..] == FormatFractional(ns) + "Z"
    ensures FractionAt(s, p) == Ok((g, |s| - 1))
    ensures g == ns <==> -100_000_000 < ns
  {
    if ns == 0 {
      g := 0;
      assert s[p] == s[p..][0];
    } else {
      var n, width := FormatUnits(ns);
      WholeUnits(ns, n, width);
      g := UnitsReadBack(s, p, n, width);
    }
  }

  predicate NoNul(s: string) {
    forall k :: 0 <= k < |s| ==> s[k] != '\0'
  }

  lemma FractionHasNoNul(ns: int)
    ensures NoNul(FormatFractional(ns))
  {
  }

  lemma JoinNoNul(s: string, t: string)
    requires NoNul(s) && NoNul(t)
    ensures NoNul(s + t)
  {
  }

  lemma CleanNoNul(s: string)
    requires Clean(s)
    ensures NoNul(s)
  {
    forall k | 0 <= k < |s| ensures s[k] != '\0' {
      assert CleanAt(s, k);
    }
  }

  lemma FormatHasNoNul(tp: int)
    requires HasFourDigitYear(tp)
    ensures CString(FormatRfc3339(tp)) == FormatRfc3339(tp)
  {
    hide BaseText, FormatFractional, Clean, Gmtime, CString;
    var base := BaseText(CivilOf(tp), 'T');
    CleanBase(CivilOf(tp), 'T');
    CleanNoNul(base);
    FractionHasNoNul(Fraction(tp));
    JoinNoNul(base, FormatFractional(Fraction(tp)));
    JoinNoNul(base + FormatFractional(Fraction(tp)), "Z");
    CStringWhole(FormatRfc3339(tp));
  }

  lemma ParseOfParts(s: string, base: int, g: int, now: int, zone: int)
    requires CString(s) == s && |s| >= 20 && ParseDateTime(s, zone) == Ok((base, 19))
    requires FractionAt(s, 19) == Ok((g, |s| - 1)) && ParseOffset(s, |s| - 1) == Ok((0, |s|))
    ensures Parse(s, now, zone) == Ok(TimePoint(base, g, 0, LocalTimeOffset(now, zone)))
  {
    hide ParseDateTime, FractionAt, ParseOffset, CString, TimePoint, LocalTimeOffset;
  }

  /** The base date and time that was printed is read as the seconds it was printed from. */
  lemma BaseReadBack(s: string, seconds: int, zone: int) returns (base: int)
    requires 0 <= Gmtime(seconds).date.year <= 9999
    requires |s| >= 19 && s[..19] == BaseText(Gmtime(seconds), 'T')
    ensures ParseDateTime(s, zone) == Ok((base, 19)) && base == seconds - zone
  {
    hide ParseDateTime, BaseText, CivilSeconds, Gmtime, DaysInMonth;
    base := seconds - zone;
    var c := Gmtime(seconds);
    DateTimeOf(s, c, 'T', zone);
    ChecksPassOnRealDates(c, 'T');
    SecondsOfGmtime(seconds);
  }

  lemma PartsInZulu(base: string, middle: string)
    requires |base| == 19
    ensures var s := base + middle + "Z";
            && |s| >= 20 && s[..19] == base && s[19..] == middle + "Z"
            && ParseOffset(s, |s| - 1) == Ok((0, |s|))
  {
    var s := base + middle + "Z";
    assert s[|s| - 1] == 'Z';
  }

  lemma FormatParts(tp: int)
    requires HasFourDigitYear(tp)
    ensures var s := FormatRfc3339(tp);
            && |s| >= 20 && s[..19] == BaseText(CivilOf(tp), 'T')
            && s[19..] == FormatFractional(Fraction(tp)) + "Z"
            && ParseOffset(s, |s| - 1) == Ok((0, |s|))
  {
    hide BaseText, FormatFractional, ParseOffset, Gmtime;
    PartsInZulu(BaseText(CivilOf(tp), 'T'), FormatFractional(Fraction(tp)));
  }

  /** The sum of the parts, in which the zone cancels. */
  lemma SumReadBack(seconds: int, base: int, g: int, now: int, zone: int)
    requires base == seconds - zone
    ensures TimePoint(base, g, 0, LocalTimeOffset(now, zone)) == Seconds(seconds) + g
  {
    LocalOffsetIsZone(now, zone);
  }

  /** The fraction that is printed: what is left of tp after its whole seconds, with its sign. */
  function Fraction(tp: int): int {
    tp - Seconds(Truncated(tp, 1_000_000_000))
  }

  lemma FractionBounds(tp: int)
    ensures -1_000_000_000 < Fraction(tp) < 1_000_000_000
    ensures -100_000_000 < Fraction(tp) <==> tp >= 0 || -tp % 1_000_000_000 < 100_000_000
  {
  }

  /** What parsing gives when the printed fraction is read as g. */
  lemma ParsedFormat(tp: int, g: int, now: int, zone: int) returns (t: int)
    requires HasFourDigitYear(tp)
    requires var s := FormatRfc3339(tp); |s| >= 20 && FractionAt(s, 19) == Ok((g, |s| - 1))
    ensures Parse(FormatRfc3339(tp), now, zone) == Ok(t)
    ensures t == tp - Fraction(tp) + g
  {
    hide FormatRfc3339, Parse, ParseDateTime, FractionAt, ParseOffset, CString;
    hide BaseText, FormatFractional, TimePoint, LocalTimeOffset, Gmtime;
    var s, seconds := FormatRfc3339(tp), Truncated(tp, 1_000_000_000);
    FormatHasNoNul(tp);
    FormatParts(tp);
    var base := BaseReadBack(s, seconds, zone);
    ParseOfParts(s, base, g, now, zone);
    t := TimePoint(base, g, 0, LocalTimeOffset(now, zone));
    SumReadBack(seconds, base, g, now, zone);
  }

  lemma FormatReadBack(tp: int, now: int, zone: int) returns (t: int)
    requires HasFourDigitYear(tp)
    ensures Parse(FormatRfc3339(tp), now, zone) == Ok(t) && (t == tp <==> -100_000_000 < Fraction(tp))
  {
    hide FormatFractional, BaseText, CivilOf, FractionAt, Parse, HasFourDigitYear, FormatRfc3339;
    FractionBounds(tp);
    FormatParts(tp);
    var g := FractionReadBack(FormatRfc3339(tp), 19, Fraction(tp));
    t := ParsedFormat(tp, g, now, zone);
  }

  /**
   * Parsing what was printed gives the time point back, in every local zone, exactly when it is not
   * before the epoch or the part of a second that it lies before the epoch is below a tenth.
   */
  lemma RoundTripIff(tp: int, now: int, zone: int)
    requires HasFourDigitYear(tp)
    ensures Parse(FormatRfc3339(tp), now, zone) == Ok(tp) <==> tp >= 0 || -tp % 1_000_000_000 < 100_000_000
  {
    hide *;
    var t := FormatReadBack(tp, now, zone);
    FractionBounds(tp);
  }

  // ---- What is printed is a text of the grammar ----

  /** The digits that belong after the point: none for whole seconds, otherwise the fewest groups of three. */
  predicate Shortest(digits: string, ns: nat) {
    |digits| == if ns == 0 then 0 else if ns % 1_000_000 == 0 then 3 else if ns % 1_000 == 0 then 6 else 9
  }

  lemma FractionIsText(ns: nat) returns (digits: string)
    requires ns < 1_000_000_000
    ensures AllDigits(digits) && Shortest(digits, ns) && FloorOf(digits, 9) == ns
    ensures FormatFractional(ns) == FractionText(digits)
  {
    if ns == 0 {
      digits := "";
    } else {
      var n, width := FormatUnits(ns);
      hide Printed, Padded, Number, FormatFractional, FloorOf;
      WholeUnits(ns, n, width);
      PrintedUnsigned(n, width);
      FloorOfPadded(n, width, 9);
      digits := Padded(n, width);
    }
  }

  function StampOf(tp: int, digits: string): Stamp {
    Stamp(CivilOf(tp), false, digits, Zulu(false))
  }

  lemma StampOfIsValid(tp: int, digits: string)
    requires HasFourDigitYear(tp) && AllDigits(digits)
    ensures Grammatical(StampOf(tp, digits)) && InRange(StampOf(tp, digits))
  {
    hide AllDigits, Gmtime, Truncated;
  }

  lemma InstantOfStamp(tp: int, digits: string)
    requires Grammatical(StampOf(tp, digits)) && InRange(StampOf(tp, digits))
    ensures Instant(StampOf(tp, digits)) == tp - Fraction(tp) + FloorOf(digits, 9)
  {
    SecondsOfGmtime(Truncated(tp, 1_000_000_000));
    hide Grammatical, InRange, AllDigits, Gmtime, Truncated, FloorOf, CivilSeconds;
  }

  /** Whole seconds, and time points from the epoch on, are printed as the shortest text of the grammar that
      names them, in UTC and in capital letters. */
  lemma FormatIsText(tp: int) returns (st: Stamp)
    requires HasFourDigitYear(tp) && Fraction(tp) >= 0
    ensures Grammatical(st) && InRange(st) && FormatRfc3339(tp) == Text(st) && Instant(st) == tp
    ensures !st.lower && st.zone == Zulu(false) && Shortest(st.fraction, Fraction(tp))
  {
    hide Grammatical, InRange, Instant, BaseText, FormatFractional, FractionText, FloorOf, AllDigits, Shortest;
    hide CivilOf, HasFourDigitYear;
    FractionBounds(tp);
    var digits := FractionIsText(Fraction(tp));
    StampOfIsValid(tp, digits);
    InstantOfStamp(tp, digits);
    st := StampOf(tp, digits);
  }

  /** A stray sign after the point. */
  lemma NegativeSign(tp: int)
    requires HasFourDigitYear(tp) && Fraction(tp) < 0
    ensures var s := FormatRfc3339(tp); |s| > 20 && s[19] == '.' && s[20] == '-'
  {
    hide FormatRfc3339, HasFourDigitYear, BaseText, FormatFractional, Gmtime, ParseOffset, Padded, Printed, Fraction;
    FormatParts(tp);
    FractionBounds(tp);
    var n, width := FormatUnits(Fraction(tp));
    WholeUnits(Fraction(tp), n, width);
    PrintedNegative(-n, width);
    var s := FormatRfc3339(tp);
    assert s[19] == s[19..][0] && s[20] == s[19..][1];
  }

  lemma DigitAfterPoint(st: Stamp)
    requires Grammatical(st)
    ensures var t := Text(st); |t| > 20 && t[19] == '.' ==> IsDigit(t[20])
  {
    hide BaseText, ZoneText, Padded;
    ZoneTextStart(st.zone);
  }

  lemma NegativeIsNoText(tp: int, st: Stamp)
    requires HasFourDigitYear(tp) && Fraction(tp) < 0 && Grammatical(st)
    ensures FormatRfc3339(tp) != Text(st)
  {
    hide FormatRfc3339, Text, Grammatical, HasFourDigitYear, Fraction;
    NegativeSign(tp);
    DigitAfterPoint(st);
  }

  /** The printed text follows the grammar exactly when no part of a second lies before the epoch. */
  lemma FormatFollowsGrammarIff(tp: int)
    requires HasFourDigitYear(tp)
    ensures (exists st :: Grammatical(st) && FormatRfc3339(tp) == Text(st)) <==>
            tp >= 0 || tp % 1_000_000_000 == 0
  {
    FractionSign(tp);
    hide Grammatical, FormatRfc3339, Text, HasFourDigitYear, Fraction;
    if Fraction(tp) >= 0 {
      var st := FormatIsText(tp);
    } else {
      forall st | Grammatical(st) ensures FormatRfc3339(tp) != Text(st) { NegativeIsNoText(tp, st); }
    }
  }

  lemma FractionSign(tp: int)
    ensures Fraction(tp) >= 0 <==> tp >= 0 || tp % 1_000_000_000 == 0
  {
  }

  // ---- Which time points have a year of four digits ----

  /** The first and the last day of the years of four digits. */
  lemma FourDigitDays(d: Date)
    requires RealDate(d)
    ensures 1000 <= d.year <= 9999 <==> -354285 <= DayNumber(d) - EPOCH < 2932897
  {
    DaysBeforeYearClosed(1000);
    DaysBeforeYearClosed(10000);
    DayNumberInYear(d);
    if d.year >= 1000 { YearsIncrease(1000, d.year); } else { YearsIncrease(d.year + 1, 1000); }
    if d.year >= 10000 { YearsIncrease(10000, d.year); } else { YearsIncrease(d.year + 1, 10000); }
  }

  /** The round trip is stated for the time points after second -30610224001, which is the last one before the year
      1000 as truncation towards zero sees it, and before the year 10000. */
  lemma FourDigitYearIff(tp: int)
    ensures HasFourDigitYear(tp) <==> -30_610_224_001_000_000_000 < tp < 253_402_300_800_000_000_000
  {
    var seconds := Truncated(tp, 1_000_000_000);
    FourDigitDays(CivilOf(tp).date);
    DayOfSeconds(seconds);
    TruncatedBounds(tp);
  }

  lemma DayOfSeconds(seconds: int)
    ensures DayNumber(Gmtime(seconds).date) - EPOCH == seconds / 86400
    ensures -354285 <= seconds / 86400 < 2932897 <==> -30_610_224_000 <= seconds < 253_402_300_800
  {
  }

  lemma TruncatedBounds(tp: int)
    ensures -30_610_224_000 <= Truncated(tp, 1_000_000_000) < 253_402_300_800 <==>
            -30_610_224_001_000_000_000 < tp < 253_402_300_800_000_000_000
  {
  }

  /** Half a second before the epoch is printed, but not read back. */
  lemma HalfSecondLost(now: int, zone: int)
    ensures HasFourDigitYear(-500_000_000)
    ensures Parse(FormatRfc3339(-500_000_000), now, zone) != Ok(-500_000_000)
  {
    FourDigitYearIff(-500_000_000);
    RoundTripIff(-500_000_000, now, zone);
  }

  // ---- A text outside the grammar ----

  lemma NumberOf970()
    ensures AllDigits("970") && Number("970") == 970
  {
    hide Number;
    EmptyNumber();
    NumberOfLonger("", '9');
    assert "" + ['9'] == "9" && "9" + ['7'] == "97" && "97" + ['0'] == "970";
    NumberOfLonger("9", '7');
    NumberOfLonger("97", '0');
  }

  lemma EmptyNumber()
    ensures AllDigits("") && Number("") == 0
  {
  }

  lemma BlankYear(s: string)
    requires |s| > 5 && s[..5] == " 970-"
    ensures ScanField(s, 0, 4, '-') == Some((970, 5))
  {
    hide Number;
    assert s[0] == ' ' && s[1] == '9' && s[2] == '7' && s[3] == '0' && s[4] == '-';
    assert SkipBlanks(s, 1) == 1 && SkipBlanks(s, 0) == 1;
    RunIs(s, 1, 4, 3);
    assert s[1..4] == "970";
    NumberOf970();
  }

  lemma BlankBase(s: string, zone: int)
    requires |s| >= 19 && s[..5] == " 970-" && s[5..7] == Padded(1, 2) && s[7] == '-' && s[8..10] == Padded(1, 2)
    requires s[10] == 'T' && s[11..19] == TimeText(0, 0, 0)
    ensures ParseDateTime(s, zone).Ok? && ParseDateTime(s, zone).value.1 == 19
  {
    hide ScanField, ScanInt, TimeText, Padded, Mktime;
    BlankDate(s);
    ScanTimeOf(s, 11, 0, 0, 0);
  }

  lemma BlankDate(s: string)
    requires |s| >= 11 && s[..5] == " 970-" && s[5..7] == Padded(1, 2) && s[7] == '-' && s[8..10] == Padded(1, 2)
    ensures ScanDate(s) == Some((Date(970, 1, 1), s[10], 11))
  {
    hide ScanInt, Padded;
    BlankYear(s);
    ScanPadded(s, 5, 2, 1);
    ScanPadded(s, 8, 2, 1);
  }

  lemma BlankNotStamp(s: string)
    requires s != "" && s[0] == ' '
    ensures forall st :: Grammatical(st) ==> Text(st) != s
  {
    forall st | Grammatical(st) ensures Text(st) != s {
      StampIsClean(st);
      assert !CleanAt(s, 0);
    }
  }

  predicate BlankShape(s: string) {
    && |s| == 20 && s[..5] == " 970-" && s[5..7] == Padded(1, 2) && s[7] == '-' && s[8..10] == Padded(1, 2)
    && s[10] == 'T' && s[11..19] == TimeText(0, 0, 0) && s[19] == 'Z'
  }

  lemma BlankParsed(s: string, now: int, zone: int)
    requires BlankShape(s) && CString(s) == s
    ensures Parse(s, now, zone).Ok?
  {
    hide ScanDate, ScanTime, ScanInt, TimeText, Padded, CString, ParseDateTime, Parse;
    BlankBase(s, zone);
    ParseOfParts(s, ParseDateTime(s, zone).value.0, 0, now, zone);
  }

  lemma TwoDigits(n: nat)
    ensures Padded(n, 2) == [DigitChar(n / 10 % 10)] + [DigitChar(n % 10)]
  {
    assert Padded(n / 10 / 10, 0) == "";
    assert Padded(n / 10, 1) == [DigitChar(n / 10 % 10)];
  }

  lemma Midnight()
    ensures Padded(0, 2) == "00" && Padded(1, 2) == "01" && TimeText(0, 0, 0) == "00:00:00"
  {
    hide Padded;
    TwoDigits(0);
    TwoDigits(1);
  }

  lemma ShapeOfBlank(s: string)
    requires s == " 970-01-01T00:00:00Z"
    ensures BlankShape(s) && CString(s) == s
  {
    hide Padded, TimeText, CString;
    CStringWhole(s);
    Midnight();
    assert s[5..7] == "01" && s[8..10] == "01";
    assert s[11..19] == "00:00:00";
  }

  /** sscanf skips the blank that stands for a digit of the year: the text is accepted, outside the grammar. */
  lemma BlankAccepted(now: int, zone: int)
    ensures var s := " 970-01-01T00:00:00Z";
            Parse(s, now, zone).Ok? && forall st :: Grammatical(st) ==> Text(st) != s
  {
    hide *;
    var s := " 970-01-01T00:00:00Z";
    ShapeOfBlank(s);
    BlankParsed(s, now, zone);
    BlankNotStamp(s);
  }
}
