/**
 * The parser accepts a text without blanks or stray signs exactly when it is an RFC 3339 date-time
 * whose fields are in range, and gives it the instant the standard gives it. Printing and parsing
 * again gives the same time point exactly when no fraction of a tenth of a second or more lies
 * before the epoch.
 */
module Rfc3339Proofs {
  import opened Basics
  import opened Decimal
  import opened Calendar
  import opened Rfc3339

  // ---- The grammar of section 5.6 of RFC 3339 ----

  datatype Zone = Zulu(lower: bool) | Offset(ahead: bool, hours: nat, minutes: nat)

  datatype Stamp = Stamp(civil: Civil, lower: bool, fraction: string, zone: Zone)

  /** Every field fits the number of digits it has; no digits of fraction means no fraction. */
  predicate Grammatical(st: Stamp) {
    && Fits(st.civil)
    && AllDigits(st.fraction)
    && (st.zone.Offset? ==> st.zone.hours < 100 && st.zone.minutes < 100)
  }

  predicate Fits(c: Civil) {
    && 0 <= c.date.year < 10000 && 0 <= c.date.month < 100 && 0 <= c.date.day < 100
    && 0 <= c.hour < 100 && 0 <= c.minute < 100 && 0 <= c.second < 100
  }

  function Separator(lower: bool): char {
    if lower then 't' else 'T'
  }

  function FractionText(fraction: string): string {
    if fraction == "" then "" else "." + fraction
  }

  function ZoneText(z: Zone): string {
    match z
    case Zulu(lower) => if lower then "z" else "Z"
    case Offset(ahead, hours, minutes) =>
      [if ahead then '+' else '-'] + Padded(hours, 2) + ":" + Padded(minutes, 2)
  }

  function Text(st: Stamp): string
    requires Grammatical(st)
  {
    BaseText(st.civil, Separator(st.lower)) + FractionText(st.fraction) + ZoneText(st.zone)
  }

  // ---- The restrictions of section 5.7 of RFC 3339 ----

  predicate InRange(st: Stamp) {
    && RealDate(st.civil.date)
    && 0 <= st.civil.hour < 24 && 0 <= st.civil.minute < 60 && 0 <= st.civil.second <= 60
    && (st.zone.Offset? ==> st.zone.hours < 24 && st.zone.minutes < 60)
  }

  /** What is reported of a stamp out of range: the first field, from the left, that is not what it must be. */
  function Fault(st: Stamp): ParseError {
    var c := st.civil;
    if !(1 <= c.date.month <= 12) then BadMonth
    else if !RealDate(c.date) then BadDay
    else if !(0 <= c.hour < 24) then BadHour
    else if !(0 <= c.minute < 60) then BadMinute
    else if !(0 <= c.second <= 60) then BadSecond
    else OffsetFault(st.zone)
  }

  function OffsetFault(z: Zone): ParseError {
    if z.Offset? && z.hours >= 24 then BadOffsetHour else BadOffsetMinute
  }

  function OffsetSeconds(z: Zone): int {
    match z
    case Zulu(_) => 0
    case Offset(ahead, hours, minutes) =>
      var seconds: int := hours * 3600 + minutes * 60;
      if ahead then seconds else -seconds
  }

  /** The time point of a stamp: the fraction is rounded down to nanoseconds. */
  function Instant(st: Stamp): int
    requires Grammatical(st) && InRange(st)
  {
    Seconds(CivilSeconds(st.civil) - OffsetSeconds(st.zone)) + FloorOf(st.fraction, 9)
  }

  /** The digits as a fraction, times 10^places, rounded down. */
  function FloorOf(digits: string, places: nat): int
    requires AllDigits(digits)
  {
    Number(digits) * Pow10(places) / Pow10(|digits|)
  }

  // ---- The calendar functions ----

  lemma SecondsOfGmtime(seconds: int)
    ensures CivilSeconds(Gmtime(seconds)) == seconds
  {
    var days, rest := seconds / 86400, seconds % 86400;
    assert DayNumber(DateOf(days + EPOCH)) == days + EPOCH;
    assert rest == rest / 3600 * 3600 + rest % 3600 / 60 * 60 + rest % 60 by { RestOfDay(rest); }
  }

  lemma RestOfDay(rest: int)
    ensures rest == rest / 3600 * 3600 + rest % 3600 / 60 * 60 + rest % 60
  {
    var h, r := rest / 3600, rest % 3600;
    assert rest == 60 * (60 * h + r / 60) + r % 60;
    DivIs(rest, 60, 60 * h + r / 60);
  }

  /** The local offset undoes what mktime does for the local zone. */
  lemma LocalOffsetIsZone(now: int, zone: int)
    ensures LocalTimeOffset(now, zone) == -zone
  {
    SecondsOfGmtime(now);
  }

  lemma ChecksPassOnRealDates(c: Civil, separator: char)
    ensures CheckFields(c, separator) == None <==>
            && (separator == 'T' || separator == 't')
            && RealDate(c.date)
            && 0 <= c.hour < 24 && 0 <= c.minute < 60 && 0 <= c.second <= 60
  {
  }

  /** Only dates that some day has reach mktime, and every such date does. */
  lemma ChecksPassIff(c: Civil, separator: char)
    ensures CheckFields(c, separator) == None <==>
            && (separator == 'T' || separator == 't')
            && (exists n :: DateOf(n) == c.date)
            && 0 <= c.hour < 24 && 0 <= c.minute < 60 && 0 <= c.second <= 60
  {
    ChecksPassOnRealDates(c, separator);
    RealDateIff(c.date);
  }

  // ---- Reading a text of the grammar ----

  lemma ScanDateOf(s: string, d: Date, separator: char)
    requires 0 <= d.year < 10000 && 0 <= d.month < 100 && 0 <= d.day < 100
    requires |s| >= 11 && s[..10] == DateText(d) && s[10] == separator
    ensures ScanDate(s) == Some((d, separator, 11))
  {
    hide ScanInt, Padded;
    var t := DateText(d);
    assert t[0..4] == Padded(d.year, 4) && t[5..7] == Padded(d.month, 2) && t[8..10] == Padded(d.day, 2);
    assert s[0..4] == t[0..4] && s[5..7] == t[5..7] && s[8..10] == t[8..10];
    assert s[4] == t[4] && s[7] == t[7];
    ScanPadded(s, 0, 4, d.year);
    ScanPadded(s, 5, 2, d.month);
    ScanPadded(s, 8, 2, d.day);
  }

  lemma SliceOfSlice(s: string, p: nat, q: nat, i: nat, j: nat)
    requires p <= q <= |s| && i <= j <= q - p
    ensures s[p..q][i..j] == s[p + i..p + j]
  {
    var t, u := s[p..q][i..j], s[p + i..p + j];
    forall k | 0 <= k < j - i ensures t[k] == u[k] {
      assert t[k] == s[p..q][i + k] == s[p + i + k];
    }
  }

  /** A numeral at position i of the part of s that starts at p. */
  lemma ScanPart(s: string, p: nat, q: nat, i: nat, width: nat, n: nat)
    requires p <= q <= |s| && i + width <= q - p && 0 < width && n < Pow10(width)
    requires s[p..q][i..i + width] == Padded(n, width)
    ensures ScanInt(s, p + i, width) == Some((n, p + i + width))
  {
    hide ScanInt, Padded, Pow10;
    SliceOfSlice(s, p, q, i, i + width);
    ScanPadded(s, p + i, width, n);
  }

  lemma TimeTextParts(hour: nat, minute: nat, second: nat)
    ensures var t := TimeText(hour, minute, second);
            && t[0..2] == Padded(hour, 2) && t[2] == ':'
            && t[3..5] == Padded(minute, 2) && t[5] == ':'
            && t[6..8] == Padded(second, 2)
  {
  }

  lemma ScanTimeOf(s: string, p: nat, hour: nat, minute: nat, second: nat)
    requires hour < 100 && minute < 100 && second < 100
    requires p + 8 <= |s| && s[p..p + 8] == TimeText(hour, minute, second)
    ensures ScanTime(s, p) == Some((hour, minute, second, p + 8))
  {
    hide ScanInt, TimeText, Padded;
    TimeTextParts(hour, minute, second);
    ScanPart(s, p, p + 8, 0, 2, hour);
    ScanPart(s, p, p + 8, 3, 2, minute);
    ScanPart(s, p, p + 8, 6, 2, second);
    assert s[p + 2] == s[p..p + 8][2] && s[p + 5] == s[p..p + 8][5];
  }

  lemma DateTimeOf(s: string, c: Civil, separator: char, zone: int)
    requires Fits(c) && |s| >= 19 && s[..19] == BaseText(c, separator)
    ensures ParseDateTime(s, zone)
         == match CheckFields(c, separator) case Some(e) => Err(e) case None => Ok((Mktime(c, zone), 19))
  {
    var t := BaseText(c, separator);
    assert s[..10] == t[..10] == DateText(c.date);
    assert s[10] == t[10] == separator;
    assert s[11..19] == t[11..] == TimeText(c.hour, c.minute, c.second);
    ScanDateOf(s, c.date, separator);
    ScanTimeOf(s, 11, c.hour, c.minute, c.second);
  }

  /** The first digits, at most `places` of them, scaled up, are the fraction rounded down. */
  lemma FloorOfPrefix(digits: string, places: nat)
    requires AllDigits(digits)
    ensures var n := Min(|digits|, places);
            Number(digits[..n]) * Pow10(places - n) == FloorOf(digits, places)
  {
    if |digits| <= places {
      assert digits[..|digits|] == digits;
      Pow10Sum(places - |digits|, |digits|);
      Divide(Number(digits) * Pow10(places - |digits|), Pow10(|digits|), 0);
      Associate(Number(digits), Pow10(places - |digits|), Pow10(|digits|));
    } else {
      var head, tail := digits[..places], digits[places..];
      assert digits == head + tail;
      NumberOfConcat(head, tail);
      NumberBound(tail);
      Pow10Sum(|tail|, places);
      Rescale(Number(head), Pow10(|tail|), Number(tail), Pow10(places));
    }
  }

  lemma Associate(a: int, b: int, c: int)
    ensures a * (b * c) == a * b * c
  {
  }

  lemma Divide(q: nat, d: nat, r: nat)
    requires r < d
    ensures (q * d + r) / d == q
  {
    DivIs(q * d + r, d, q);
  }

  lemma Rescale(q: nat, d: nat, r: nat, k: nat)
    requires r < d && k > 0
    ensures d * k > 0 && (q * d + r) * k / (d * k) == q
  {
    assert r * k < d * k;
    assert d * k > 0;
    assert (q * d + r) * k == q * (d * k) + r * k;
    Divide(q, d * k, r * k);
  }

  lemma {:induction false} ScaledUpIs(v: int, places: nat)
    ensures ScaledUp(v, places) == v * Pow10(places)
    decreases places
  {
    if places > 0 {
      ScaledUpIs(v * 10, places - 1);
      Associate(v, 10, Pow10(places - 1));
    }
  }

  /** A run of digits from q to e, read with room for `places` of them. */
  lemma ReadDigits(s: string, q: nat, e: nat, places: nat) returns (n: nat)
    requires q < e <= |s| && AllDigits(s[q..e]) && (e == |s| || !IsDigit(s[e])) && places > 0
    ensures 0 < n == Min(e - q, places) && Run(s, q, places) == n && s[q..q + n] == s[q..e][..n]
    ensures Run(s, q + n, |s| - (q + n)) == e - (q + n)
  {
    n := Min(e - q, places);
    forall k | q <= k < e ensures IsDigit(s[k]) {
      assert s[k] == s[q..e][k - q];
    }
    RunIs(s, q, places, n);
    RunIs(s, q + n, |s| - (q + n), e - (q + n));
  }

  /** Scaling up the first digits gives the fraction rounded down. */
  lemma ScaledPrefix(digits: string, places: nat, sign: int)
    requires AllDigits(digits) && (sign == 1 || sign == -1)
    ensures var n := Min(|digits|, places);
            ScaledUp(sign * Number(digits[..n]), places - n) == sign * FloorOf(digits, places)
  {
    var n := Min(|digits|, places);
    FloorOfPrefix(digits, places);
    ScaledUpIs(sign * Number(digits[..n]), places - n);
    Associate(sign, Number(digits[..n]), Pow10(places - n));
  }

  lemma ScanUnsigned(s: string, p: nat, n: nat, width: nat)
    requires 0 < n <= width && p + n <= |s| && Run(s, p, width) == n
    ensures ScanInt(s, p, width) == Some((Number(s[p..p + n]), p + n))
  {
  }

  lemma ScanNegative(s: string, p: nat, n: nat, width: nat)
    requires 0 < n < width && p + 1 + n <= |s| && s[p] == '-' && Run(s, p + 1, width - 1) == n
    ensures ScanInt(s, p, width) == Some((-1 * Number(s[p + 1..p + 1 + n]), p + 1 + n))
  {
  }

  lemma ScanFraction(s: string, p: nat, e: nat, width: nat) returns (v: int, q: nat)
    requires p < e <= |s| && AllDigits(s[p..e]) && (e == |s| || !IsDigit(s[e])) && 0 < width
    ensures p < q <= p + width && q <= |s| && ScanInt(s, p, width) == Some((v, q))
    ensures q + Run(s, q, |s| - q) == e && ScaledUp(v, p + width - q) == 1 * FloorOf(s[p..e], width)
  {
    hide ScanInt, Run, Number, FloorOf, ScaledUp;
    var n := ReadDigits(s, p, e, width);
    ScanUnsigned(s, p, n, width);
    ScaledPrefix(s[p..e], width, 1);
    v, q := 1 * Number(s[p..p + n]), p + n;
  }

  lemma ScanSignedFraction(s: string, p: nat, e: nat, width: nat) returns (v: int, q: nat)
    requires p + 1 < e <= |s| && s[p] == '-' && AllDigits(s[p + 1..e]) && (e == |s| || !IsDigit(s[e]))
    requires 1 < width
    ensures p < q <= p + width && q <= |s| && ScanInt(s, p, width) == Some((v, q))
    ensures q + Run(s, q, |s| - q) == e
    ensures ScaledUp(v, p + width - q) == -1 * FloorOf(s[p + 1..e], width - 1)
  {
    hide ScanInt, Run, Number, FloorOf, ScaledUp;
    var n := ReadDigits(s, p + 1, e, width - 1);
    ScanNegative(s, p, n, width);
    ScaledPrefix(s[p + 1..e], width - 1, -1);
    v, q := -1 * Number(s[p + 1..p + 1 + n]), p + 1 + n;
  }

  lemma FractionOfScan(s: string, p: nat, v: int, q: nat, e: nat)
    requires p < |s| && s[p] == '.' && p + 1 < q <= p + 10 && q <= |s|
    requires ScanInt(s, p + 1, 9) == Some((v, q)) && q + Run(s, q, |s| - q) == e
    ensures FractionAt(s, p) == Ok((ScaledUp(v, p + 10 - q), e))
  {
  }

  /** A fraction of any number of digits is read as its floor in nanoseconds, up to the first non-digit. */
  lemma FractionIsFloor(s: string, p: nat, e: nat)
    requires p + 1 < e <= |s| && s[p] == '.'
    requires AllDigits(s[p + 1..e]) && (e == |s| || !IsDigit(s[e]))
    ensures FractionAt(s, p) == Ok((FloorOf(s[p + 1..e], 9), e))
  {
    var v, q := ScanFraction(s, p + 1, e, 9);
    FractionOfScan(s, p, v, q, e);
  }

  /** A minus sign takes one of the nine places, so the fraction after it has one place less. */
  lemma SignedFractionIsFloor(s: string, p: nat, e: nat)
    requires p + 2 < e <= |s| && s[p] == '.' && s[p + 1] == '-'
    requires AllDigits(s[p + 2..e]) && (e == |s| || !IsDigit(s[e]))
    ensures FractionAt(s, p) == Ok((-1 * FloorOf(s[p + 2..e], 8), e))
  {
    var v, q := ScanSignedFraction(s, p + 1, e, 9);
    FractionOfScan(s, p, v, q, e);
  }

  lemma ScanOffset(s: string, p: nat, z: Zone)
    requires p <= |s| && s[p..] == ZoneText(z)
    requires z.Offset? && z.hours < 100 && z.minutes < 100
    ensures |s| == p + 6 && s[p] == if z.ahead then '+' else '-'
    ensures ScanField(s, p + 1, 2, ':') == Some((z.hours, p + 4))
    ensures ScanInt(s, p + 4, 2) == Some((z.minutes, p + 6))
  {
    hide ScanInt, Padded;
    var t := ZoneText(z);
    assert t[1..3] == Padded(z.hours, 2) && t[4..6] == Padded(z.minutes, 2) && t[3] == ':';
    assert s[p] == s[p..][0] && s[p + 3] == s[p..][3];
    assert s[p..] == s[p..|s|];
    ScanPart(s, p, |s|, 1, 2, z.hours);
    ScanPart(s, p, |s|, 4, 2, z.minutes);
  }

  lemma OffsetOf(s: string, p: nat, z: Zone)
    requires p <= |s| && s[p..] == ZoneText(z)
    requires z.Offset? ==> z.hours < 100 && z.minutes < 100
    ensures var inRange := z.Offset? ==> z.hours < 24 && z.minutes < 60;
            ParseOffset(s, p) == if inRange then Ok((OffsetSeconds(z), |s|)) else Err(OffsetFault(z))
  {
    if z.Offset? {
      ScanOffset(s, p, z);
    } else {
      assert s[p] == s[p..][0];
    }
  }

  /** A text without NUL is seen whole. */
  lemma {:induction false} CStringWhole(s: string)
    requires forall k :: 0 <= k < |s| ==> s[k] != '\0'
    ensures CString(s) == s
  {
    if s != "" { CStringWhole(s[1..]); }
  }

  /** The parts of a text: the base is 19 characters, the rest follows. */
  lemma FractionOf(s: string, p: nat, fraction: string, tail: string)
    requires p <= |s| && s[p..] == FractionText(fraction) + tail && AllDigits(fraction)
    requires tail != "" && tail[0] != '.' && !IsDigit(tail[0])
    ensures FractionAt(s, p) == Ok((FloorOf(fraction, 9), |s| - |tail|))
  {
    hide FractionAt, FloorOf, AllDigits, IsDigit;
    var t := FractionText(fraction) + tail;
    var e := |s| - |tail|;
    assert s[e] == s[p..][e - p] == t[|t| - |tail|] == tail[0];
    assert s[p] == s[p..][0] == t[0];
    if fraction != "" {
      SliceOfSlice(s, p, |s|, 1, e - p);
      assert s[p..] == s[p..|s|];
      assert t[1..e - p] == fraction;
      FractionIsFloor(s, p, e);
    } else {
      NoFraction(s, p);
    }
  }

  lemma NoFraction(s: string, p: nat)
    requires p < |s| && s[p] != '.'
    ensures FractionAt(s, p) == Ok((FloorOf("", 9), p))
  {
  }

  lemma ZoneTextStart(z: Zone)
    ensures var t := ZoneText(z);
            t != "" && t[0] != '.' && !IsDigit(t[0])
  {
  }

  /**
   * A text of the grammar is accepted exactly when its fields are in range, and then gives the
   * instant of its fields, in every local zone and whenever the local offset was computed; otherwise
   * the error is about the first field out of range.
   */
  lemma ParseOfText(st: Stamp, now: int, zone: int)
    requires Grammatical(st)
    ensures var r := Parse(Text(st), now, zone);
            r == if InRange(st) then Ok(Instant(st)) else Err(Fault(st))
  {
    hide ParseDateTime, FractionAt, Fault, ParseOffset, CString, BaseText, FractionText, ZoneText, CheckFields;
    hide RealDate, Mktime, LocalTimeOffset, TimePoint, Instant, FloorOf, AllDigits, Clean, OffsetSeconds;
    var s := Text(st);
    StampIsClean(st);
    CleanWhole(s);
    var base, tail := BaseText(st.civil, Separator(st.lower)), ZoneText(st.zone);
    assert s[..19] == base;
    assert s[19..] == FractionText(st.fraction) + tail;
    DateTimeOf(s, st.civil, Separator(st.lower), zone);
    ChecksPassOnRealDates(st.civil, Separator(st.lower));
    ZoneTextStart(st.zone);
    FractionOf(s, 19, st.fraction, tail);
    assert s[|s| - |tail|..] == tail;
    OffsetOf(s, |s| - |tail|, st.zone);
    LocalOffsetIsZone(now, zone);
    if InRange(st) { SumOfParts(st, now, zone); } else { FaultOf(st); }
  }

  /** The range checks, in their order, find the first field out of range. */
  lemma FaultOf(st: Stamp)
    requires Grammatical(st) && !InRange(st)
    ensures match CheckFields(st.civil, Separator(st.lower))
            case Some(e) => e == Fault(st)
            case None => st.zone.Offset? && Fault(st) == OffsetFault(st.zone)
  {
    hide AllDigits;
  }

  lemma SumOfParts(st: Stamp, now: int, zone: int)
    requires Grammatical(st) && InRange(st)
    ensures TimePoint(Mktime(st.civil, zone), FloorOf(st.fraction, 9), OffsetSeconds(st.zone),
                      LocalTimeOffset(now, zone)) == Instant(st)
  {
    LocalOffsetIsZone(now, zone);
  }

  // ---- Texts without blanks or stray signs ----

  predicate CleanAt(s: string, k: nat)
    requires k < |s|
  {
    s[k] != '\0' && !IsBlank(s[k]) && (IsSign(s[k]) ==> k > 0 && IsDigit(s[k - 1]))
  }

  /** No NUL, no blank, and no sign except right after a digit. */
  predicate Clean(s: string) {
    forall k :: 0 <= k < |s| ==> CleanAt(s, k)
  }

  /** A clean text is seen whole. */
  lemma CleanWhole(s: string)
    requires Clean(s)
    ensures CString(s) == s
  {
    forall k | 0 <= k < |s| ensures s[k] != '\0' {
      assert CleanAt(s, k);
    }
    CStringWhole(s);
  }

  lemma CleanChar(s: string, c: char)
    requires Clean(s) && c != '\0' && !IsBlank(c) && (IsSign(c) ==> s != "" && IsDigit(s[|s| - 1]))
    ensures Clean(s + [c])
  {
    forall k | 0 <= k < |s + [c]| ensures CleanAt(s + [c], k) {
      if k < |s| { assert CleanAt(s, k); }
    }
  }

  lemma {:induction false} CleanDigits(s: string, t: string)
    requires Clean(s) && AllDigits(t)
    ensures Clean(s + t)
    decreases |t|
  {
    if t == "" {
      assert s + t == s;
    } else {
      var u := t[..|t| - 1];
      CleanDigits(s, u);
      CleanChar(s + u, t[|t| - 1]);
      assert s + t == s + u + [t[|t| - 1]];
    }
  }

  /** A mark and a numeral after a clean text that ends in a digit. */
  lemma CleanField(s: string, mark: char, t: string)
    requires Clean(s) && s != "" && IsDigit(s[|s| - 1]) && mark != '\0' && !IsBlank(mark)
    requires AllDigits(t) && t != ""
    ensures var r := s + [mark] + t; Clean(r) && IsDigit(r[|r| - 1])
  {
    CleanChar(s, mark);
    CleanDigits(s + [mark], t);
  }

  lemma CleanBase(c: Civil, separator: char)
    requires Fits(c) && (separator == 'T' || separator == 't')
    ensures var s := BaseText(c, separator); Clean(s) && IsDigit(s[18])
  {
    var y := Padded(c.date.year, 4);
    CleanDigits("", y);
    assert "" + y == y;
    var m := y + "-" + Padded(c.date.month, 2);
    CleanField(y, '-', Padded(c.date.month, 2));
    var d := m + "-" + Padded(c.date.day, 2);
    CleanField(m, '-', Padded(c.date.day, 2));
    var h := d + [separator] + Padded(c.hour, 2);
    CleanField(d, separator, Padded(c.hour, 2));
    var i := h + ":" + Padded(c.minute, 2);
    CleanField(h, ':', Padded(c.minute, 2));
    CleanField(i, ':', Padded(c.second, 2));
    assert BaseText(c, separator) == i + ":" + Padded(c.second, 2);
  }

  /** Every text of the grammar is clean. */
  lemma StampIsClean(st: Stamp)
    requires Grammatical(st)
    ensures Clean(Text(st))
  {
    hide Clean, BaseText, Padded;
    var base := BaseText(st.civil, Separator(st.lower));
    CleanBase(st.civil, Separator(st.lower));
    var s := base + FractionText(st.fraction);
    if st.fraction != "" {
      CleanField(base, '.', st.fraction);
      assert s == base + ['.'] + st.fraction;
    } else {
      assert s == base;
    }
    match st.zone {
      case Zulu(lower) => CleanChar(s, if lower then 'z' else 'Z');
      case Offset(ahead, hours, minutes) =>
        var sign := if ahead then '+' else '-';
        CleanField(s, sign, Padded(hours, 2));
        var t := s + [sign] + Padded(hours, 2);
        CleanField(t, ':', Padded(minutes, 2));
        assert Text(st) == t + [':'] + Padded(minutes, 2);
    }
  }
}
