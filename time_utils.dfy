/**
 * Time-window arithmetic and timestamp rendering (utils_modules/time_utils.rs).
 * An instant is a whole number of seconds since 1970-01-01T00:00:00Z; a time
 * zone is its offset from UTC in seconds.
 */
module TimeUtils {
  import opened Decimal

  type Instant = int

  /** `calc_time_window`: the instant `durationSecs` seconds before `dt`. */
  function CalcTimeWindow(dt: Instant, durationSecs: int): (start: Instant)
    ensures start + durationSecs == dt
    ensures durationSecs >= 0 ==> start <= dt
  {
    dt - durationSecs
  }

  /** `minus_h`: the instant `hours` hours before `dt`. */
  function MinusH(dt: Instant, hours: int): (start: Instant)
    ensures start + 3600 * hours == dt
    ensures hours >= 0 ==> start <= dt
  {
    dt - hours * 3600
  }

  lemma CalcTimeWindowZero(dt: Instant)
    ensures CalcTimeWindow(dt, 0) == dt
  {
  }

  lemma CalcTimeWindowCompose(dt: Instant, a: int, b: int)
    ensures CalcTimeWindow(CalcTimeWindow(dt, a), b) == CalcTimeWindow(dt, a + b)
  {
  }

  lemma MinusHIsWindow(dt: Instant, hours: int)
    ensures MinusH(dt, hours) == CalcTimeWindow(dt, 3600 * hours)
  {
  }

  lemma WindowNotAfter(dt: Instant, secs: int, hours: int)
    requires secs >= 0 && hours >= 0
    ensures CalcTimeWindow(dt, secs) <= dt
    ensures MinusH(dt, hours) <= dt
  {
  }

  /** A broken-down proleptic Gregorian date and time of day. */
  datatype Civil = Civil(year: int, month: int, day: int, hour: nat, minute: nat, second: nat)

  /** (year, month, day) of the day `days` after 1970-01-01 (H. Hinnant's civil_from_days). */
  function CivilFromDays(days: int): (r: (int, int, int))
    ensures 1 <= r.1 <= 12 && 1 <= r.2 <= 31
  {
    var z := days + 719468;
    var era := z / 146097;
    var doe := z % 146097;
    var yoe := (doe - doe / 1460 + doe / 36524 - doe / 146096) / 365;
    var doy := doe - (365 * yoe + yoe / 4 - yoe / 100);
    DayOfYearBound(doe, yoe, doy);
    var mp := (5 * doy + 2) / 153;
    var d := doy - (153 * mp + 2) / 5 + 1;
    var m := if mp < 10 then mp + 3 else mp - 9;
    (yoe + era * 400 + (if m <= 2 then 1 else 0), m, d)
  }

  lemma DayOfYearBound(doe: int, yoe: int, doy: int)
    requires 0 <= doe < 146097
    requires yoe == (doe - doe / 1460 + doe / 36524 - doe / 146096) / 365
    requires doy == doe - (365 * yoe + yoe / 4 - yoe / 100)
    ensures 0 <= doy <= 365
  {
    var a, b, c := doe / 1460, doe / 36524, doe / 146096;
    var q, h := yoe / 4, yoe / 100;
    DayOfYearLower(doe, a, b, c, yoe, q, h);
    DayOfYearUpper(doe, a, b, c, yoe, q, h);
  }

  /** The lower bound with every division replaced by its defining inequalities. */
  lemma DayOfYearLower(doe: int, a: int, b: int, c: int, yoe: int, q: int, h: int)
    requires 0 <= doe < 146097
    requires 1460 * a <= doe < 1460 * a + 1460
    requires 36524 * b <= doe < 36524 * b + 36524
    requires 146096 * c <= doe < 146096 * c + 146096
    requires 365 * yoe <= doe - a + b - c < 365 * yoe + 365
    requires 4 * q <= yoe < 4 * q + 4
    requires 100 * h <= yoe < 100 * h + 100
    ensures 0 <= doe - (365 * yoe + q - h)
  {
    assert 0 <= c <= 1 && 0 <= b <= 4 && 0 <= a <= 100;
    assert 0 <= yoe < 400 && 0 <= h <= 3;
    assert 1460 * q <= 365 * yoe <= doe;
    assert q <= a;
  }

  /** The upper bound, stated the same way. */
  lemma DayOfYearUpper(doe: int, a: int, b: int, c: int, yoe: int, q: int, h: int)
    requires 0 <= doe < 146097
    requires 1460 * a <= doe < 1460 * a + 1460
    requires 36524 * b <= doe < 36524 * b + 36524
    requires 146096 * c <= doe < 146096 * c + 146096
    requires 365 * yoe <= doe - a + b - c < 365 * yoe + 365
    requires 4 * q <= yoe < 4 * q + 4
    requires 100 * h <= yoe < 100 * h + 100
    ensures doe - (365 * yoe + q - h) <= 365
  {
  }

  /** The civil date and time of day at instant `t` seen in a zone `offset` seconds east of UTC. */
  function CivilAt(t: Instant, offset: int): (c: Civil)
    ensures 1 <= c.month <= 12 && 1 <= c.day <= 31
    ensures c.hour < 24 && c.minute < 60 && c.second < 60
    ensures c.hour * 3600 + c.minute * 60 + c.second == (t + offset) % 86400
  {
    var local := t + offset;
    var ymd := CivilFromDays(local / 86400);
    var secs := local % 86400;
    var inHour := secs % 3600;
    assert secs == secs / 3600 * 3600 + inHour;
    assert inHour == inHour / 60 * 60 + inHour % 60;
    Civil(ymd.0, ymd.1, ymd.2, secs / 3600, inHour / 60, inHour % 60)
  }

  /** chrono's `%Y`: four zero-padded digits for 0..=9999, otherwise a sign and at least four digits. */
  function FormatYear(y: int): string {
    if 0 <= y <= 9999 then PadNat(y, 4)
    else if y > 9999 then "+" + PadNat(y, 4)
    else "-" + PadNat(-y, 4)
  }

  /** `format("%Y-%m-%dT%H:%M:%SZ")` of a civil time. */
  function FormatIso(c: Civil): string
    requires 1 <= c.month && 1 <= c.day
  {
    FormatYear(c.year) + "-" + PadNat(c.month, 2) + "-" + PadNat(c.day, 2) + "T"
    + PadNat(c.hour, 2) + ":" + PadNat(c.minute, 2) + ":" + PadNat(c.second, 2) + "Z"
  }

  /**
   * `convert_date_to_str(time, tz)`: the time seen in zone `tz`, rendered with
   * a literal 'Z' whatever the zone.
   */
  function ConvertDateToStr(t: Instant, tzOffset: int): (s: string)
    ensures |s| > 0 && s[|s| - 1] == 'Z'
  {
    FormatIso(CivilAt(t, tzOffset))
  }

  /** Positions that hold digits in "YYYY-MM-DDTHH:MM:SSZ". */
  predicate IsoDigitPosition(k: int) {
    0 <= k < 19 && k != 4 && k != 7 && k != 10 && k != 13 && k != 16
  }

  /** For years 0..=9999 the rendering is exactly "YYYY-MM-DDTHH:MM:SSZ", in every zone. */
  lemma ConvertDateToStrShape(t: Instant, tzOffset: int)
    requires 0 <= CivilAt(t, tzOffset).year <= 9999
    ensures var s := ConvertDateToStr(t, tzOffset);
      && |s| == 20
      && s[4] == '-' && s[7] == '-' && s[10] == 'T'
      && s[13] == ':' && s[16] == ':' && s[19] == 'Z'
      && (forall k :: IsoDigitPosition(k) ==> IsDigit(s[k]))
  {
    var c := CivilAt(t, tzOffset);
    TwoDigits(c.month);
    TwoDigits(c.day);
    TwoDigits(c.hour);
    TwoDigits(c.minute);
    TwoDigits(c.second);
    FourDigits(c.year);
    IsoShape(PadNat(c.year, 4), PadNat(c.month, 2), PadNat(c.day, 2),
      PadNat(c.hour, 2), PadNat(c.minute, 2), PadNat(c.second, 2));
  }

  /** The layout of "YYYY-MM-DDTHH:MM:SSZ" from its six digit fields. */
  lemma IsoShape(y: string, mo: string, d: string, h: string, mi: string, se: string)
    requires |y| == 4 && |mo| == 2 && |d| == 2 && |h| == 2 && |mi| == 2 && |se| == 2
    requires AllDigits(y) && AllDigits(mo) && AllDigits(d) && AllDigits(h) && AllDigits(mi) && AllDigits(se)
    ensures var s := y + "-" + mo + "-" + d + "T" + h + ":" + mi + ":" + se + "Z";
      && |s| == 20
      && s[4] == '-' && s[7] == '-' && s[10] == 'T'
      && s[13] == ':' && s[16] == ':' && s[19] == 'Z'
      && (forall k :: IsoDigitPosition(k) ==> IsDigit(s[k]))
  {
    var s := y + "-" + mo + "-" + d + "T" + h + ":" + mi + ":" + se + "Z";
    forall k | IsoDigitPosition(k) ensures IsDigit(s[k]) {
      if k < 4 { assert s[k] == y[k]; }
      else if k < 7 { assert s[k] == mo[k - 5]; }
      else if k < 10 { assert s[k] == d[k - 8]; }
      else if k < 13 { assert s[k] == h[k - 11]; }
      else if k < 16 { assert s[k] == mi[k - 14]; }
      else { assert s[k] == se[k - 17]; }
    }
  }

  lemma TwoDigits(n: nat)
    requires n < 100
    ensures |PadNat(n, 2)| == 2
  {
    if n >= 10 {
      assert NatToString(n) == NatToString(n / 10) + [DigitChar(n % 10)];
    }
  }

  lemma FourDigits(n: nat)
    requires n < 10000
    ensures |PadNat(n, 4)| == 4
  {
    LengthBound(n, 4);
  }

  /** Numbers below 10^k print in at most k digits. */
  lemma {:induction false} LengthBound(n: nat, k: nat)
    requires n < Pow10(k) && k >= 1
    ensures |NatToString(n)| <= k
    decreases k
  {
    if n >= 10 {
      assert n / 10 < Pow10(k - 1);
      LengthBound(n / 10, k - 1);
    }
  }

  function Pow10(k: nat): nat {
    if k == 0 then 1 else 10 * Pow10(k - 1)
  }
}
