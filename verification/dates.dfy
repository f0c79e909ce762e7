/**
  The upload dates of the channel discovery (youtube_podcast_analyzer.py,
  `fetch_podcasts_from_channel`): the first eight characters of
  `upload_date` read with `datetime.strptime(..., "%Y%m%d")`, or else a
  truthy `timestamp`, as whole seconds since 1970-01-01 00:00:00 UTC (the
  zone of the week range).

  `strptime` matches the pattern `(\d\d\d\d)(1[0-2]|0[1-9]|[1-9])(3[01]|
  [12]\d|0[1-9]|[1-9]| [1-9])` at the start of the text, trying the
  alternatives left to right, and then fails when the match does not reach
  the end, when the year is 0 or when the day is past the end of the month.
 */
module UploadDates {
  import opened Common

  predicate IsLeap(y: int)
  {
    y % 4 == 0 && (y % 100 != 0 || y % 400 == 0)
  }

  function DaysInMonth(y: int, m: int): nat
  {
    if m == 2 then (if IsLeap(y) then 29 else 28)
    else if m == 4 || m == 6 || m == 9 || m == 11 then 30
    else 31
  }

  function DaysInYear(y: int): nat
  {
    if IsLeap(y) then 366 else 365
  }

  predicate ValidDate(y: int, m: int, d: int)
  {
    1 <= y && 1 <= m <= 12 && 1 <= d <= DaysInMonth(y, m)
  }

  /** Days in the years before `y` (proleptic Gregorian calendar). */
  function DaysBeforeYear(y: int): int
  {
    var k := y - 1;
    365 * k + k / 4 - k / 100 + k / 400
  }

  /** Days in the months of year `y` before month `m`. */
  function DaysBeforeMonth(y: int, m: int): nat
    requires 1 <= m <= 12
  {
    var before := [0, 31, 59, 90, 120, 151, 181, 212, 243, 273, 304, 334][m - 1];
    before + (if m > 2 && IsLeap(y) then 1 else 0)
  }

  /** The day number of a date, 0001-01-01 being day 1 (`date.toordinal`). */
  function DayNumber(y: int, m: int, d: int): int
    requires 1 <= m <= 12
  {
    DaysBeforeYear(y) + DaysBeforeMonth(y, m) + d
  }

  /** The day number of 1970-01-01. */
  const EpochDay: int := 719163

  /** Midnight UTC of a date, in seconds since 1970-01-01. */
  function Midnight(y: int, m: int, d: int): int
    requires 1 <= m <= 12
  {
    (DayNumber(y, m, d) - EpochDay) * 86400
  }

  // ---------------------------------------------------------------------
  // The pattern match

  predicate InRange(c: char, lo: char, hi: char)
  {
    lo <= c <= hi
  }

  /** One alternative of a numeric `strptime` field matched at `p`: the
      value and the number of digits read. */
  datatype DigitField = DigitField(value: nat, width: nat)

  /** The month alternatives `1[0-2]`, `0[1-9]`, `[1-9]` in order. */
  function MonthAlternatives(s: string, p: nat): (fs: seq<DigitField>)
    ensures forall f :: f in fs ==> 1 <= f.value <= 12 && 1 <= f.width <= 2 && p + f.width <= |s|
  {
    (if p + 1 < |s| && s[p] == '1' && InRange(s[p + 1], '0', '2') then [DigitField(10 + DigitValue(s[p + 1]), 2)] else [])
    + (if p + 1 < |s| && s[p] == '0' && InRange(s[p + 1], '1', '9') then [DigitField(DigitValue(s[p + 1]), 2)] else [])
    + (if p < |s| && InRange(s[p], '1', '9') then [DigitField(DigitValue(s[p]), 1)] else [])
  }

  /** The first day alternative of `3[01]`, `[12]\d`, `0[1-9]`, `[1-9]`,
      ` [1-9]` that matches at `p`. */
  function DayAt(s: string, p: nat): (f: Option<DigitField>)
    ensures f.Some? ==> 1 <= f.value.value <= 31 && 1 <= f.value.width <= 2 && p + f.value.width <= |s|
  {
    if p + 1 < |s| && s[p] == '3' && InRange(s[p + 1], '0', '1') then Some(DigitField(30 + DigitValue(s[p + 1]), 2))
    else if p + 1 < |s| && InRange(s[p], '1', '2') && IsDigit(s[p + 1]) then Some(DigitField(10 * DigitValue(s[p]) + DigitValue(s[p + 1]), 2))
    else if p + 1 < |s| && s[p] == '0' && InRange(s[p + 1], '1', '9') then Some(DigitField(DigitValue(s[p + 1]), 2))
    else if p < |s| && InRange(s[p], '1', '9') then Some(DigitField(DigitValue(s[p]), 1))
    else if p + 1 < |s| && s[p] == ' ' && InRange(s[p + 1], '1', '9') then Some(DigitField(DigitValue(s[p + 1]), 2))
    else None
  }

  /** A match of the whole pattern: year, month, day and where it ends. */
  datatype YmdMatch = YmdMatch(year: nat, month: nat, day: nat, end: nat)

  /** The first month alternative (from `ms`) after which a day matches. */
  function FirstMonthDay(s: string, ms: seq<DigitField>, year: nat): (r: Option<YmdMatch>)
    requires forall f :: f in ms ==> 1 <= f.value <= 12 && 4 + f.width <= |s|
    ensures r.Some? ==> 1 <= r.value.month <= 12 && 1 <= r.value.day <= 31 && r.value.end <= |s|
  {
    if ms == [] then None
    else
      match DayAt(s, 4 + ms[0].width)
      case Some(d) => Some(YmdMatch(year, ms[0].value, d.value, 4 + ms[0].width + d.width))
      case None =>
        assert forall f :: f in ms[1..] ==> f in ms;
        FirstMonthDay(s, ms[1..], year)
  }

  function YearValue(s: string): nat
    requires |s| >= 4 && IsDigit(s[0]) && IsDigit(s[1]) && IsDigit(s[2]) && IsDigit(s[3])
  {
    1000 * DigitValue(s[0]) + 100 * DigitValue(s[1]) + 10 * DigitValue(s[2]) + DigitValue(s[3])
  }

  function MatchYmd(s: string): (r: Option<YmdMatch>)
    ensures r.Some? ==> 1 <= r.value.month <= 12 && 1 <= r.value.day <= 31 && r.value.end <= |s|
  {
    if |s| >= 4 && IsDigit(s[0]) && IsDigit(s[1]) && IsDigit(s[2]) && IsDigit(s[3]) then
      FirstMonthDay(s, MonthAlternatives(s, 4), YearValue(s))
    else None
  }

  /** `datetime.strptime(s, "%Y%m%d")` as midnight UTC; `None` where it
      raises `ValueError`. A result is always the midnight of a real date. */
  function ParseYmd(s: string): (r: Option<int>)
    ensures r.Some? ==> exists y, m, d :: ValidDate(y, m, d) && r.value == Midnight(y, m, d)
  {
    match MatchYmd(s)
    case None => None
    case Some(x) =>
      if x.end == |s| && ValidDate(x.year, x.month, x.day) then Some(Midnight(x.year, x.month, x.day)) else None
  }

  /** The date of a video: `upload_date` when it has at least eight
      characters (parsing only its first eight), else a truthy `timestamp`;
      `None` where the video is skipped. */
  function UploadTime(uploadDate: Option<string>, timestamp: Option<int>): Option<int>
  {
    if uploadDate.Some? && |uploadDate.value| >= 8 then ParseYmd(uploadDate.value[..8])
    else if timestamp.Some? && timestamp.value != 0 then Some(timestamp.value)
    else None
  }

  // ---------------------------------------------------------------------
  // Formatting, for the round trip

  function DigitChar(n: nat): (c: char)
    requires n < 10
    ensures IsDigit(c) && DigitValue(c) == n
  {
    (48 + n) as char
  }

  /** `date.strftime("%Y%m%d")` for a four-digit year. */
  function FormatYmd(y: nat, m: nat, d: nat): (s: string)
    requires y < 10000 && m < 100 && d < 100
    ensures |s| == 8
  {
    [DigitChar(y / 1000), DigitChar(y / 100 % 10), DigitChar(y / 10 % 10), DigitChar(y % 10),
     DigitChar(m / 10), DigitChar(m % 10), DigitChar(d / 10), DigitChar(d % 10)]
  }

  // ---------------------------------------------------------------------
  // Properties

  lemma {:induction false} DayOfTwoDigits(s: string, d: nat)
    requires |s| == 8 && 1 <= d <= 31
    requires s[6] == DigitChar(d / 10) && s[7] == DigitChar(d % 10)
    ensures DayAt(s, 6) == Some(DigitField(d, 2))
  {
  }

  lemma {:induction false} MonthOfTwoDigits(s: string, m: nat)
    requires |s| == 8 && 1 <= m <= 12
    requires s[4] == DigitChar(m / 10) && s[5] == DigitChar(m % 10)
    ensures MonthAlternatives(s, 4) != [] && MonthAlternatives(s, 4)[0] == DigitField(m, 2)
  {
  }

  /** Every real date from year 1 to 9999, written as eight digits, reads
      back as its own midnight. */
  lemma {:induction false} ParseFormatted(y: nat, m: nat, d: nat)
    requires ValidDate(y, m, d) && y < 10000
    ensures ParseYmd(FormatYmd(y, m, d)) == Some(Midnight(y, m, d))
  {
    var s := FormatYmd(y, m, d);
    YearOfFourDigits(s, y);
    MonthOfTwoDigits(s, m);
    DayOfTwoDigits(s, d);
    MatchFormatted(s, y, m, d);
  }

  lemma {:induction false} YearOfFourDigits(s: string, y: nat)
    requires |s| == 8 && y < 10000
    requires s[..4] == [DigitChar(y / 1000), DigitChar(y / 100 % 10), DigitChar(y / 10 % 10), DigitChar(y % 10)]
    ensures IsDigit(s[0]) && IsDigit(s[1]) && IsDigit(s[2]) && IsDigit(s[3]) && YearValue(s) == y
  {
    assert s[0] == s[..4][0] && s[1] == s[..4][1] && s[2] == s[..4][2] && s[3] == s[..4][3];
    FourDigits(y);
  }

  lemma {:induction false} FourDigits(y: nat)
    requires y < 10000
    ensures y == 1000 * (y / 1000) + 100 * (y / 100 % 10) + 10 * (y / 10 % 10) + y % 10
  {
    assert y == 10 * (y / 10) + y % 10;
    assert y / 10 / 10 == y / 100;
    assert y / 10 == 10 * (y / 100) + y / 10 % 10;
    assert y / 100 / 10 == y / 1000;
    assert y / 100 == 10 * (y / 1000) + y / 100 % 10;
  }

  lemma {:induction false} MatchFormatted(s: string, y: nat, m: nat, d: nat)
    requires |s| == 8 && 1 <= m <= 12
    requires IsDigit(s[0]) && IsDigit(s[1]) && IsDigit(s[2]) && IsDigit(s[3]) && YearValue(s) == y
    requires MonthAlternatives(s, 4) != [] && MonthAlternatives(s, 4)[0] == DigitField(m, 2)
    requires DayAt(s, 6) == Some(DigitField(d, 2))
    ensures MatchYmd(s) == Some(YmdMatch(y, m, d, 8))
  {
  }

  /** Matching stops at the first month alternative that a day can follow,
      so text that a later alternative would have read whole is refused:
      "2024111X" is read as month 11, day 1, and does not parse. */
  lemma {:induction false} FirstAlternativeWins()
    ensures MatchYmd("2024111X") == Some(YmdMatch(2024, 11, 1, 7))
    ensures ParseYmd("2024111X") == None
  {
    var s := "2024111X";
    assert MonthAlternatives(s, 4)[0] == DigitField(11, 2);
    assert DayAt(s, 6) == Some(DigitField(1, 1));
  }

  lemma {:induction false} QuarterStep(k: int)
    ensures (k + 1) / 4 == k / 4 + (if (k + 1) % 4 == 0 then 1 else 0)
  {
  }

  lemma {:induction false} CenturyStep(k: int)
    ensures (k + 1) / 100 == k / 100 + (if (k + 1) % 100 == 0 then 1 else 0)
  {
  }

  lemma {:induction false} QuadCenturyStep(k: int)
    ensures (k + 1) / 400 == k / 400 + (if (k + 1) % 400 == 0 then 1 else 0)
  {
  }

  lemma {:induction false} YearStep(y: int)
    ensures DaysBeforeYear(y + 1) == DaysBeforeYear(y) + DaysInYear(y)
  {
    QuarterStep(y - 1);
    CenturyStep(y - 1);
    QuadCenturyStep(y - 1);
  }

  lemma {:induction false} YearsIncrease(y: int, z: int)
    requires y <= z
    ensures DaysBeforeYear(y) + 365 * (z - y) <= DaysBeforeYear(z)
    decreases z - y
  {
    if y < z {
      YearStep(z - 1);
      YearsIncrease(y, z - 1);
    }
  }

  lemma {:induction false} DayNumberBounds(y: int, m: int, d: int)
    requires ValidDate(y, m, d)
    ensures DaysBeforeYear(y) < DayNumber(y, m, d) <= DaysBeforeYear(y + 1)
  {
    YearStep(y);
  }

  /** Day numbers follow the calendar: an earlier date (by year, then month,
      then day) has a smaller day number, so the week-range test on parsed
      dates is chronological. */
  lemma {:induction false} DayNumberOrder(y: int, m: int, d: int, y2: int, m2: int, d2: int)
    requires ValidDate(y, m, d) && ValidDate(y2, m2, d2)
    requires y < y2 || (y == y2 && m < m2) || (y == y2 && m == m2 && d < d2)
    ensures DayNumber(y, m, d) < DayNumber(y2, m2, d2)
  {
    if y < y2 {
      DayNumberBounds(y, m, d);
      DayNumberBounds(y2, m2, d2);
      YearsIncrease(y + 1, y2);
    }
  }

  /** The first eight characters alone decide the date, and a video without
      a usable `upload_date` falls back to a non-zero timestamp. */
  lemma {:induction false} UploadTimeSpec(uploadDate: Option<string>, timestamp: Option<int>)
    ensures uploadDate.Some? && |uploadDate.value| >= 8 ==>
      UploadTime(uploadDate, timestamp) == ParseYmd(uploadDate.value[..8])
    ensures (uploadDate.None? || |uploadDate.value| < 8) ==>
      (UploadTime(uploadDate, timestamp).Some? <==> timestamp.Some? && timestamp.value != 0)
    ensures (uploadDate.None? || |uploadDate.value| < 8) && UploadTime(uploadDate, timestamp).Some? ==>
      UploadTime(uploadDate, timestamp) == timestamp
  {
  }
}
