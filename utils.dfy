/**
 * The small helpers of shared/core/utils.py. The clock is not read: the current
 * instant is a parameter wherever the source calls `datetime.now()`.
 */
module Utils {
  import opened Wrappers

  /**
   * A naive `datetime`, as microseconds since 0001-01-01T00:00:00 (`datetime.min`) on the
   * proleptic Gregorian calendar. Differences and comparisons do not depend on the origin.
   */
  type Timestamp = int

  const MicrosPerDay: int := 86_400_000_000

  /**
   * `(later - earlier).days`: a `timedelta` keeps whole days rounded toward minus
   * infinity, so a difference of one microsecond in the past is day -1.
   */
  function DaysBetween(later: Timestamp, earlier: Timestamp): (days: int)
    ensures days * MicrosPerDay <= later - earlier < (days + 1) * MicrosPerDay
  {
    (later - earlier) / MicrosPerDay
  }

  /** A later reference point is never fewer whole days away. */
  lemma DaysBetweenMonotone(now: Timestamp, earlier: Timestamp, later: Timestamp)
    requires earlier <= later
    ensures DaysBetween(now, later) <= DaysBetween(now, earlier)
  {
    var a, b := DaysBetween(now, later), DaysBetween(now, earlier);
    assert a * MicrosPerDay <= now - later <= now - earlier < (b + 1) * MicrosPerDay;
  }

  /** `get_time_window_start`: `now - timedelta(days=days)`. */
  function WindowStart(days: int, now: Timestamp): (start: Timestamp)
    ensures DaysBetween(now, start) == days
    ensures now - start == days * MicrosPerDay
  {
    now - days * MicrosPerDay
  }

  /**
   * `calculate_days_ago`: -1 for a missing timestamp, otherwise the whole days
   * between the timestamp and now.
   */
  function CalculateDaysAgo(timestamp: Option<Timestamp>, now: Timestamp): (days: int)
    ensures timestamp.None? ==> days == -1
    ensures timestamp.Some? ==>
      days * MicrosPerDay <= now - timestamp.value < (days + 1) * MicrosPerDay
  {
    match timestamp
    case None => -1
    case Some(t) => DaysBetween(now, t)
  }

  /** The -1 sentinel is also the answer for a timestamp less than a day in the future. */
  lemma DaysAgoSentinelIsAmbiguous(now: Timestamp, future: Timestamp)
    requires now < future <= now + MicrosPerDay
    ensures CalculateDaysAgo(Some(future), now) == CalculateDaysAgo(None, now)
  {
  }

  /** `safe_divide`: the quotient, or `default` when the denominator is zero. */
  function SafeDivide(numerator: real, denominator: real, default: real): (q: real)
    ensures denominator == 0.0 ==> q == default
    ensures denominator != 0.0 ==> q * denominator == numerator
  {
    if denominator != 0.0 then numerator / denominator else default
  }

  /** Python's `s[:k]`; a negative `k` counts from the end. */
  function PrefixSlice(s: string, k: int): (p: string)
    ensures p <= s
    ensures |p| == if k >= 0 then (if k <= |s| then k else |s|)
                   else (if |s| + k >= 0 then |s| + k else 0)
  {
    if k >= 0 then (if k <= |s| then s[..k] else s)
    else if |s| + k >= 0 then s[..|s| + k]
    else []
  }

  /**
   * `truncate_text`: the text itself when it fits in `maxLength` characters,
   * otherwise a prefix (`text[:max_length]`) followed by "...".
   */
  function TruncateText(text: string, maxLength: int): (r: string)
    ensures |text| <= maxLength ==> r == text
    ensures |text| > maxLength ==> |r| >= 3 && r[|r| - 3..] == "..." && r[..|r| - 3] <= text
    ensures |text| > maxLength && maxLength >= 0 ==> |r| == maxLength + 3 && r[..maxLength] == text[..maxLength]
    ensures |text| > maxLength && maxLength < 0 ==>
      |r| == 3 + (if |text| + maxLength >= 0 then |text| + maxLength else 0)
  {
    if |text| > maxLength then PrefixSlice(text, maxLength) + "..." else text
  }

  // ---------------------------------------------------------------------------
  // format_timestamp: `dt.isoformat()`

  predicate IsLeap(y: int) {
    y % 4 == 0 && (y % 100 != 0 || y % 400 == 0)
  }

  function DaysInYear(y: int): (n: nat)
    ensures n == 365 || n == 366
  {
    if IsLeap(y) then 366 else 365
  }

  function DaysInMonth(y: int, m: int): (n: nat)
    requires 1 <= m <= 12
    ensures 28 <= n <= 31
  {
    if m == 2 then (if IsLeap(y) then 29 else 28)
    else if m == 4 || m == 6 || m == 9 || m == 11 then 30
    else 31
  }

  /** The days of the years `y0 .. y1 - 1`. */
  function DaysOfYears(y0: int, y1: int): nat
    decreases y1 - y0
  {
    if y1 <= y0 then 0 else DaysInYear(y0) + DaysOfYears(y0 + 1, y1)
  }

  /** The days of the months `m0 .. m1 - 1` of year `y`. */
  function DaysOfMonths(y: int, m0: int, m1: int): nat
    requires 1 <= m0 <= m1 <= 13
    decreases m1 - m0
  {
    if m0 == m1 then 0 else DaysInMonth(y, m0) + DaysOfMonths(y, m0 + 1, m1)
  }

  lemma YearIsTwelveMonths(y: int)
    ensures DaysOfMonths(y, 1, 13) == DaysInYear(y)
  {
    assert DaysOfMonths(y, 12, 13) == 31;
    assert DaysOfMonths(y, 11, 13) == 61;
    assert DaysOfMonths(y, 10, 13) == 92;
    assert DaysOfMonths(y, 9, 13) == 122;
    assert DaysOfMonths(y, 8, 13) == 153;
    assert DaysOfMonths(y, 7, 13) == 184;
    assert DaysOfMonths(y, 6, 13) == 214;
    assert DaysOfMonths(y, 5, 13) == 245;
    assert DaysOfMonths(y, 4, 13) == 275;
    assert DaysOfMonths(y, 3, 13) == 306;
    assert DaysOfMonths(y, 2, 13) == DaysInYear(y) - 31;
  }

  /** The year holding day `days` counted from 1 January of year `y`, and the day within that year. */
  function YearOf(y: int, days: nat): (r: (int, nat))
    ensures y <= r.0 && r.1 < DaysInYear(r.0)
    ensures DaysOfYears(y, r.0) + r.1 == days
    decreases days
  {
    if days < DaysInYear(y) then (y, days) else YearOf(y + 1, days - DaysInYear(y))
  }

  /** The month holding day `days` counted from the first of month `m`, and the day within that month. */
  function MonthOf(y: int, m: int, days: nat): (r: (int, nat))
    requires 1 <= m <= 12 && days < DaysOfMonths(y, m, 13)
    ensures m <= r.0 <= 12 && r.1 < DaysInMonth(y, r.0)
    ensures DaysOfMonths(y, m, r.0) + r.1 == days
    decreases 12 - m
  {
    if days < DaysInMonth(y, m) then (m, days) else MonthOf(y, m + 1, days - DaysInMonth(y, m))
  }

  /** The fields of a naive `datetime`. */
  datatype DateTime = DateTime(year: int, month: int, day: int,
                               hour: int, minute: int, second: int, microsecond: int)
  {
    /** The ranges `datetime` enforces on its fields. */
    predicate Valid() {
      1 <= year <= 9999 && 1 <= month <= 12 && 1 <= day <= DaysInMonth(year, month) &&
      0 <= hour < 24 && 0 <= minute < 60 && 0 <= second < 60 && 0 <= microsecond < 1_000_000
    }
  }

  /** The calendar fields of a non-negative instant. */
  function ToDateTime(t: Timestamp): (dt: DateTime)
    requires t >= 0
    ensures 1 <= dt.year && 1 <= dt.month <= 12 && 1 <= dt.day <= DaysInMonth(dt.year, dt.month)
    ensures 0 <= dt.hour < 24 && 0 <= dt.minute < 60 && 0 <= dt.second < 60 && 0 <= dt.microsecond < 1_000_000
  {
    var (y, dayOfYear) := YearOf(1, t / MicrosPerDay);
    YearIsTwelveMonths(y);
    var (m, dayOfMonth) := MonthOf(y, 1, dayOfYear);
    var inDay := t % MicrosPerDay;
    var inHour := inDay % 3_600_000_000;
    var inMinute := inHour % 60_000_000;
    DateTime(y, m, dayOfMonth + 1, inDay / 3_600_000_000, inHour / 60_000_000,
             inMinute / 1_000_000, inMinute % 1_000_000)
  }

  /** The instant of a `datetime`: the inverse of `ToDateTime`. */
  function FromDateTime(dt: DateTime): Timestamp
    requires dt.Valid()
  {
    (DaysOfYears(1, dt.year) + DaysOfMonths(dt.year, 1, dt.month) + dt.day - 1) * MicrosPerDay +
    dt.hour * 3_600_000_000 + dt.minute * 60_000_000 + dt.second * 1_000_000 + dt.microsecond
  }

  /** The instants a `datetime` can hold: years 1 to 9999. */
  predicate IsDateTimeInstant(t: Timestamp) {
    t >= 0 && ToDateTime(t).year <= 9999
  }

  lemma DateTimeRoundTrip(t: Timestamp)
    requires IsDateTimeInstant(t)
    ensures ToDateTime(t).Valid() && FromDateTime(ToDateTime(t)) == t
  {
    var days := t / MicrosPerDay;
    var (y, dayOfYear) := YearOf(1, days);
    YearIsTwelveMonths(y);
    var (m, dayOfMonth) := MonthOf(y, 1, dayOfYear);
    assert DaysOfYears(1, y) + DaysOfMonths(y, 1, m) + dayOfMonth == days;
    var inDay := t % MicrosPerDay;
    assert t == days * MicrosPerDay + inDay;
    var inHour := inDay % 3_600_000_000;
    var inMinute := inHour % 60_000_000;
    assert inDay == inDay / 3_600_000_000 * 3_600_000_000 + inHour;
    assert inHour == inHour / 60_000_000 * 60_000_000 + inMinute;
    assert inMinute == inMinute / 1_000_000 * 1_000_000 + inMinute % 1_000_000;
  }

  function DigitChar(d: int): char
    requires 0 <= d < 10
  {
    (48 + d) as char
  }

  predicate IsDigit(c: char) {
    '0' <= c <= '9'
  }

  /** `'%0*d' % (width, n)` for an `n` that fits in `width` digits. */
  function PadDigits(n: nat, width: nat): (s: string)
    ensures |s| == width
    ensures forall i :: 0 <= i < |s| ==> IsDigit(s[i])
  {
    if width == 0 then [] else PadDigits(n / 10, width - 1) + [DigitChar(n % 10)]
  }

  /** The value of a string of decimal digits. */
  function DigitsValue(s: string): nat
    requires forall i :: 0 <= i < |s| ==> IsDigit(s[i])
  {
    if s == [] then 0
    else
      assert IsDigit(s[|s| - 1]);
      DigitsValue(s[..|s| - 1]) * 10 + (s[|s| - 1] as int - '0' as int)
  }

  function Pow10(k: nat): (p: nat)
    ensures p >= 1
  {
    if k == 0 then 1 else 10 * Pow10(k - 1)
  }

  lemma {:induction false} DigitsOfPadded(n: nat, width: nat)
    requires n < Pow10(width)
    ensures DigitsValue(PadDigits(n, width)) == n
  {
    if width > 0 {
      DigitsOfPadded(n / 10, width - 1);
      var s := PadDigits(n, width);
      assert s[..|s| - 1] == PadDigits(n / 10, width - 1);
    }
  }

  /** `dt.isoformat()` of a naive datetime: `YYYY-MM-DDTHH:MM:SS`, then `.ffffff` when the microseconds are not 0. */
  function Isoformat(dt: DateTime): (s: string)
    requires dt.Valid()
    ensures |s| == (if dt.microsecond == 0 then 19 else 26)
    ensures s[4] == '-' && s[7] == '-' && s[10] == 'T' && s[13] == ':' && s[16] == ':'
    ensures dt.microsecond != 0 ==> s[19] == '.'
  {
    IsoDate(dt) + "T" + IsoTime(dt) + (if dt.microsecond == 0 then "" else "." + PadDigits(dt.microsecond, 6))
  }

  function IsoDate(dt: DateTime): (s: string)
    requires dt.Valid()
    ensures |s| == 10
  {
    PadDigits(dt.year, 4) + "-" + PadDigits(dt.month, 2) + "-" + PadDigits(dt.day, 2)
  }

  function IsoTime(dt: DateTime): (s: string)
    requires dt.Valid()
    ensures |s| == 8
  {
    PadDigits(dt.hour, 2) + ":" + PadDigits(dt.minute, 2) + ":" + PadDigits(dt.second, 2)
  }

  /** A run of decimal digits at `s[i..j]`, read as a number. */
  function FieldAt(s: string, i: nat, j: nat): Option<nat>
    requires i <= j <= |s|
  {
    if forall k :: i <= k < j ==> IsDigit(s[k]) then Some(DigitsValue(s[i..j])) else None
  }

  /**
   * `datetime.fromisoformat` restricted to the two layouts `isoformat` writes for a naive
   * datetime; `None` for any other text and for fields out of range.
   */
  function ParseIsoformat(s: string): (dt: Option<DateTime>)
    ensures dt.Some? ==> dt.value.Valid()
  {
    if !(|s| == 19 || (|s| == 26 && s[19] == '.')) then None
    else if !(s[4] == '-' && s[7] == '-' && s[10] == 'T' && s[13] == ':' && s[16] == ':') then None
    else
      var year, month, day := FieldAt(s, 0, 4), FieldAt(s, 5, 7), FieldAt(s, 8, 10);
      var hour, minute, second := FieldAt(s, 11, 13), FieldAt(s, 14, 16), FieldAt(s, 17, 19);
      var microsecond := if |s| == 19 then Some(0) else FieldAt(s, 20, 26);
      if year.None? || month.None? || day.None? || hour.None? || minute.None? || second.None? || microsecond.None?
      then None
      else
        var dt := DateTime(year.value, month.value, day.value, hour.value, minute.value, second.value,
                           microsecond.value);
        if dt.Valid() then Some(dt) else None
  }

  /** A field written by `PadDigits` reads back as its value. */
  lemma FieldOfPadded(s: string, i: nat, n: nat, width: nat)
    requires i + width <= |s| && n < Pow10(width)
    requires s[i..i + width] == PadDigits(n, width)
    ensures FieldAt(s, i, i + width) == Some(n)
  {
    DigitsOfPadded(n, width);
    forall k | i <= k < i + width
      ensures IsDigit(s[k])
    {
      assert s[k] == s[i..i + width][k - i];
    }
  }

  lemma SliceOfSlice(s: string, i: nat, j: nat, a: nat, b: nat)
    requires i <= j <= |s| && a <= b <= j - i
    ensures s[i..j][a..b] == s[i + a..i + b]
  {
    assert forall k :: 0 <= k < b - a ==> s[i..j][a..b][k] == s[i + a + k];
  }

  lemma IsoDateFields(s: string, dt: DateTime)
    requires dt.Valid() && |s| >= 10 && s[..10] == IsoDate(dt)
    ensures FieldAt(s, 0, 4) == Some(dt.year) && FieldAt(s, 5, 7) == Some(dt.month) &&
            FieldAt(s, 8, 10) == Some(dt.day)
  {
    assert s[0..4] == IsoDate(dt)[0..4] == PadDigits(dt.year, 4);
    assert s[5..7] == IsoDate(dt)[5..7] == PadDigits(dt.month, 2);
    assert s[8..10] == IsoDate(dt)[8..10] == PadDigits(dt.day, 2);
    FieldOfPadded(s, 0, dt.year, 4);
    FieldOfPadded(s, 5, dt.month, 2);
    FieldOfPadded(s, 8, dt.day, 2);
  }

  lemma IsoTimeFields(s: string, dt: DateTime)
    requires dt.Valid() && |s| >= 19 && s[11..19] == IsoTime(dt)
    ensures FieldAt(s, 11, 13) == Some(dt.hour) && FieldAt(s, 14, 16) == Some(dt.minute) &&
            FieldAt(s, 17, 19) == Some(dt.second)
  {
    var time := s[11..19];
    assert s[11..13] == time[0..2] == PadDigits(dt.hour, 2);
    var hourMinute := PadDigits(dt.hour, 2) + ":" + PadDigits(dt.minute, 2);
    assert time == hourMinute + ":" + PadDigits(dt.second, 2);
    assert time[..5] == hourMinute;
    assert hourMinute[3..5] == PadDigits(dt.minute, 2);
    assert time[3..5] == time[..5][3..5];
    SliceOfSlice(s, 11, 19, 3, 5);
    assert s[17..19] == time[6..8] == PadDigits(dt.second, 2);
    FieldOfPadded(s, 11, dt.hour, 2);
    FieldOfPadded(s, 14, dt.minute, 2);
    FieldOfPadded(s, 17, dt.second, 2);
  }

  /** Reading back what `isoformat` wrote gives the same fields. */
  lemma IsoformatRoundTrip(dt: DateTime)
    requires dt.Valid()
    ensures ParseIsoformat(Isoformat(dt)) == Some(dt)
  {
    var s := Isoformat(dt);
    assert s[..10] == IsoDate(dt);
    assert s[11..19] == IsoTime(dt);
    IsoDateFields(s, dt);
    IsoTimeFields(s, dt);
    if dt.microsecond != 0 {
      assert s[20..26] == PadDigits(dt.microsecond, 6);
      FieldOfPadded(s, 20, dt.microsecond, 6);
    }
  }

  /** `format_timestamp`: `None` for a missing timestamp, otherwise its ISO 8601 text. */
  function FormatTimestamp(dt: Option<Timestamp>): (r: Option<string>)
    requires dt.Some? ==> IsDateTimeInstant(dt.value)
    ensures r.None? <==> dt.None?
  {
    match dt
    case None => None
    case Some(t) =>
      DateTimeRoundTrip(t);
      Some(Isoformat(ToDateTime(t)))
  }

  /** The formatted text names the same instant: parsing it back gives the timestamp. */
  lemma FormatTimestampRoundTrip(t: Timestamp)
    requires IsDateTimeInstant(t)
    ensures var r := FormatTimestamp(Some(t));
            r.Some? && ParseIsoformat(r.value).Some? && FromDateTime(ParseIsoformat(r.value).value) == t
  {
    DateTimeRoundTrip(t);
    IsoformatRoundTrip(ToDateTime(t));
  }
}
