/**
 * The RFC 3339 parser and printer (google/cloud/internal/parse_rfc3339.cc and
 * format_time_point.cc). A time point is a count of nanoseconds since the epoch. The place in the
 * buffer that the parse functions advance is a position in the text; the end of the text is where
 * they read the terminating NUL of c_str().
 */
module Rfc3339 {
  import opened Basics
  import opened Decimal
  import opened Calendar

  /** Seconds in nanoseconds. */
  function Seconds(n: int): int {
    n * 1_000_000_000
  }

  /** The day number of January 1, 1970. */
  const EPOCH: int := 719528

  lemma EpochIs()
    ensures EPOCH == DayNumber(Date(1970, 1, 1))
  {
    DaysBeforeYearClosed(1970);
  }

  datatype Civil = Civil(date: Date, hour: int, minute: int, second: int)

  /** Seconds from the epoch to a civil time in UTC. */
  function CivilSeconds(c: Civil): int
    requires RealDate(c.date)
  {
    (DayNumber(c.date) - EPOCH) * 86400 + c.hour * 3600 + c.minute * 60 + c.second
  }

  /** gmtime_r. */
  function Gmtime(seconds: int): (c: Civil)
    ensures RealDate(c.date) && 0 <= c.hour < 24 && 0 <= c.minute < 60 && 0 <= c.second < 60
  {
    var rest := seconds % 86400;
    Civil(DateOf(seconds / 86400 + EPOCH), rest / 3600, rest % 3600 / 60, rest % 60)
  }

  /** mktime, in a local time zone that is always `zone` seconds ahead of UTC. */
  function Mktime(c: Civil, zone: int): int
    requires RealDate(c.date)
  {
    CivilSeconds(c) - zone
  }

  // ---- Parsing ----

  datatype ParseError =
    | BadBase | BadSeparator | BadMonth | BadDay | BadHour | BadMinute | BadSecond
    | BadFraction
    | BadOffset | BadOffsetHour | BadOffsetMinute | BadZone
    | ExtraText

  /** "%<width>d<literal>". */
  function ScanField(s: string, p: nat, width: nat, literal: char): (r: Option<(int, nat)>)
    requires p <= |s| && width > 0
    ensures r.Some? ==> p < r.value.1 <= |s|
  {
    match ScanInt(s, p, width)
    case None => None
    case Some((v, q)) => if q < |s| && s[q] == literal then Some((v, q + 1)) else None
  }

  /** "%4d-%2d-%2d%c": the date, the separator and the position after them. */
  function ScanDate(s: string): (r: Option<(Date, char, nat)>)
    ensures r.Some? ==> r.value.2 <= |s|
  {
    match ScanField(s, 0, 4, '-')
    case None => None
    case Some((year, p)) =>
      match ScanField(s, p, 2, '-')
      case None => None
      case Some((month, q)) =>
        match ScanInt(s, q, 2)
        case None => None
        case Some((day, r)) => if r < |s| then Some((Date(year, month, day), s[r], r + 1)) else None
  }

  /** "%2d:%2d:%2d%n". */
  function ScanTime(s: string, p: nat): (r: Option<(int, int, int, nat)>)
    requires p <= |s|
    ensures r.Some? ==> r.value.3 <= |s|
  {
    match ScanField(s, p, 2, ':')
    case None => None
    case Some((hour, q)) =>
      match ScanField(s, q, 2, ':')
      case None => None
      case Some((minute, r)) =>
        match ScanInt(s, r, 2)
        case None => None
        case Some((second, t)) => Some((hour, minute, second, t))
  }

  const MAX_DAYS_IN_MONTH: seq<int> := [31, 29, 31, 30, 31, 30, 31, 31, 30, 31, 30, 31]

  /** The range checks, in their order. */
  function CheckFields(c: Civil, separator: char): (e: Option<ParseError>)
    ensures e == None ==> RealDate(c.date)
  {
    var d := c.date;
    if separator != 'T' && separator != 't' then Some(BadSeparator)
    else if d.month < 1 || d.month > 12 then Some(BadMonth)
    else if d.day < 1 || d.day > MAX_DAYS_IN_MONTH[d.month - 1] then Some(BadDay)
    else if d.month == 2 && d.day > MAX_DAYS_IN_MONTH[1] - 1 && !IsLeapYear(d.year) then Some(BadDay)
    else if c.hour < 0 || c.hour >= 24 then Some(BadHour)
    else if c.minute < 0 || c.minute >= 60 then Some(BadMinute)
    else if c.second < 0 || c.second > 60 then Some(BadSecond)
    else None
  }

  /** The base date and time, in seconds since the epoch as mktime counts them. */
  function ParseDateTime(s: string, zone: int): (r: Result<(int, nat), ParseError>)
    ensures r.Ok? ==> r.value.1 == 19 <= |s|
  {
    match ScanDate(s)
    case None => Err(BadBase)
    case Some((date, separator, p)) =>
      match ScanTime(s, p)
      case None => Err(BadBase)
      case Some((hour, minute, second, q)) =>
        var c := Civil(date, hour, minute, second);
        if q != 19 then Err(BadBase)
        else
          match CheckFields(c, separator)
          case Some(e) => Err(e)
          case None => Ok((Mktime(c, zone), q))
  }

  /** v with `places` zeros appended. */
  function ScaledUp(v: int, places: nat): int
    decreases places
  {
    if places == 0 then v else ScaledUp(v * 10, places - 1)
  }

  /** What ParseFractionalSeconds computes: nanoseconds, and the position after the fraction. */
  function FractionAt(s: string, p: nat): (r: Result<(int, nat), ParseError>)
    requires p <= |s|
    ensures r.Ok? ==> p <= r.value.1 <= |s|
  {
    if p == |s| || s[p] != '.' then Ok((0, p))
    else
      match ScanInt(s, p + 1, 9)
      case None => Err(BadFraction)
      case Some((v, q)) => Ok((ScaledUp(v, Max(0, 9 - (q - (p + 1)))), q + Run(s, q, |s| - q)))
  }

  method ParseFractionalSeconds(s: string, start: nat) returns (r: Result<(int, nat), ParseError>)
    requires start <= |s|
    ensures r == FractionAt(s, start)
  {
    hide ScanInt;
    if start == |s| || s[start] != '.' {
      return Ok((0, start));
    }
    var p := start + 1;
    var scanned := ScanInt(s, p, 9);
    if scanned.None? {
      return Err(BadFraction);
    }
    var pos := scanned.value.1 - p;
    var fraction, digits := scanned.value.0, pos;
    while digits < 9
      invariant pos <= digits <= Max(pos, 9)
      invariant ScaledUp(fraction, Max(0, 9 - digits)) == ScaledUp(scanned.value.0, Max(0, 9 - pos))
    {
      fraction := fraction * 10;
      digits := digits + 1;
    }
    p := p + pos;
    while p < |s| && IsDigit(s[p])
      invariant scanned.value.1 <= p <= |s|
      invariant p + Run(s, p, |s| - p) == scanned.value.1 + Run(s, scanned.value.1, |s| - scanned.value.1)
    {
      p := p + 1;
    }
    assert fraction == ScaledUp(scanned.value.0, Max(0, 9 - pos));
    assert p == scanned.value.1 + Run(s, scanned.value.1, |s| - scanned.value.1);
    r := Ok((fraction, p));
  }

  /** The offset in seconds. */
  function ParseOffset(s: string, p: nat): (r: Result<(int, nat), ParseError>)
    requires p <= |s|
    ensures r.Ok? ==> p < r.value.1 <= |s|
  {
    if p < |s| && IsSign(s[p]) then
      match ScanField(s, p + 1, 2, ':')
      case None => Err(BadOffset)
      case Some((hours, q)) =>
        match ScanInt(s, q, 2)
        case None => Err(BadOffset)
        case Some((minutes, e)) =>
          if e - (p + 1) != 5 then Err(BadOffset)
          else if hours < 0 || hours >= 24 then Err(BadOffsetHour)
          else if minutes < 0 || minutes >= 60 then Err(BadOffsetMinute)
          else if s[p] == '+' then Ok((hours * 3600 + minutes * 60, e))
          else Ok((-(hours * 3600) - minutes * 60, e))
    else if p == |s| || (s[p] != 'Z' && s[p] != 'z') then Err(BadZone)
    else Ok((0, p + 1))
  }

  /** The text that c_str() shows: up to the first NUL. */
  function CString(s: string): string {
    if s == "" || s[0] == '\0' then "" else [s[0]] + CString(s[1..])
  }

  /** kLocalTimeOffset, computed when the clock shows `now`. */
  function LocalTimeOffset(now: int, zone: int): int {
    Mktime(Gmtime(now), zone) - now
  }

  /** The sum of the parts: all in seconds except for the fraction. */
  function TimePoint(seconds: int, fraction: int, offset: int, local: int): int {
    Seconds(seconds) + fraction - Seconds(offset) - Seconds(local)
  }

  /** The time point, once the base date and time has been read up to position p. */
  function ParseRest(s: string, p: nat, seconds: int, local: int): Result<int, ParseError>
    requires p <= |s|
  {
    match FractionAt(s, p)
    case Err(e) => Err(e)
    case Ok((fraction, q)) =>
      match ParseOffset(s, q)
      case Err(e) => Err(e)
      case Ok((offset, e)) =>
        if e < |s| then Err(ExtraText)
        else Ok(TimePoint(seconds, fraction, offset, local))
  }

  /** What ParseRfc3339 computes. */
  function Parse(timestamp: string, now: int, zone: int): Result<int, ParseError> {
    var s := CString(timestamp);
    match ParseDateTime(s, zone)
    case Err(e) => Err(e)
    case Ok((seconds, p)) => ParseRest(s, p, seconds, LocalTimeOffset(now, zone))
  }

  method ParseRfc3339(timestamp: string, now: int, zone: int) returns (r: Result<int, ParseError>)
    ensures r == Parse(timestamp, now, zone)
  {
    var local := LocalTimeOffset(now, zone);
    var s := CString(timestamp);
    var base := ParseDateTime(s, zone);
    if base.Err? {
      return Err(base.error);
    }
    var fraction := ParseFractionalSeconds(s, base.value.1);
    if fraction.Err? {
      return Err(fraction.error);
    }
    var offset := ParseOffset(s, fraction.value.1);
    if offset.Err? {
      return Err(offset.error);
    }
    if offset.value.1 < |s| {
      return Err(ExtraText);
    }
    r := Ok(TimePoint(base.value.0, fraction.value.0, offset.value.0, local));
  }

  // ---- Printing ----

  /** C++ integer division: towards zero. */
  function Truncated(a: int, b: int): int
    requires b > 0
  {
    if a >= 0 then a / b else -(-a / b)
  }

  function FormatFractional(ns: int): string {
    if ns == 0 then ""
    else if ns - Truncated(ns, 1_000_000) * 1_000_000 == 0 then "." + Printed(Truncated(ns, 1_000_000), 3)
    else if ns - Truncated(ns, 1_000) * 1_000 == 0 then "." + Printed(Truncated(ns, 1_000), 6)
    else "." + Printed(ns, 9)
  }

  /** strftime("%Y-%m-%dT%H:%M:%S"), for years of four digits; `separator` is 'T' there. */
  function BaseText(c: Civil, separator: char): (s: string)
    requires 0 <= c.date.year && 0 <= c.date.month && 0 <= c.date.day
    requires 0 <= c.hour && 0 <= c.minute && 0 <= c.second
    ensures |s| == 19
  {
    DateText(c.date) + [separator] + TimeText(c.hour, c.minute, c.second)
  }

  function DateText(d: Date): (s: string)
    requires 0 <= d.year && 0 <= d.month && 0 <= d.day
    ensures |s| == 10
  {
    Padded(d.year, 4) + "-" + Padded(d.month, 2) + "-" + Padded(d.day, 2)
  }

  function TimeText(hour: nat, minute: nat, second: nat): (s: string)
    ensures |s| == 8
  {
    Padded(hour, 2) + ":" + Padded(minute, 2) + ":" + Padded(second, 2)
  }

  /** The civil time in UTC that FormatRfc3339 prints. */
  function CivilOf(tp: int): Civil {
    Gmtime(Truncated(tp, 1_000_000_000))
  }

  predicate HasFourDigitYear(tp: int) {
    1000 <= CivilOf(tp).date.year <= 9999
  }

  function FormatRfc3339(tp: int): string
    requires HasFourDigitYear(tp)
  {
    BaseText(CivilOf(tp), 'T') + FormatFractional(tp - Seconds(Truncated(tp, 1_000_000_000))) + "Z"
  }
}
