/** The `parseTime` helper nested in `TimeclockEndpoint.getPings`: a time is
    either a decimal integer (Python's `int`) or a `YYYY-MM-DD` calendar date,
    which becomes the Unix time of that date's midnight in UTC
    (`calendar.timegm` of `strptime(..., "%Y-%m-%d")`). */
module TimeParsing {
  import opened Wrappers

  /** Seconds in one day; also the default width of a ping query. */
  const SECONDS_PER_DAY: int := 86400

  /** Proleptic Gregorian ordinal of 1970-01-01 (0001-01-01 has ordinal 1). */
  const EPOCH_ORDINAL: int := 719163

  /** Largest year a Python `datetime` accepts. */
  const MAX_YEAR: int := 9999

  // ---------------------------------------------------------------------
  // Decimal integers

  predicate IsDigit(c: char) {
    '0' <= c <= '9'
  }

  predicate AllDigits(s: string) {
    forall i :: 0 <= i < |s| ==> IsDigit(s[i])
  }

  function DigitValue(c: char): nat
    requires IsDigit(c)
  {
    c as int - '0' as int
  }

  function DigitChar(d: nat): (c: char)
    requires d < 10
    ensures IsDigit(c) && DigitValue(c) == d
  {
    ('0' as int + d) as char
  }

  /** The value of a string of decimal digits, most significant first. */
  function DigitsValue(s: string): nat
    requires AllDigits(s)
  {
    if s == [] then 0 else DigitsValue(s[..|s| - 1]) * 10 + DigitValue(s[|s| - 1])
  }

  /** Python's `int(s)` on the strings this model admits: an optional sign
      followed by at least one ASCII digit.  Anything else raises in Python
      and is `None` here. */
  function ParseInteger(s: string): Option<int>
  {
    if |s| >= 2 && (s[0] == '-' || s[0] == '+') && AllDigits(s[1..]) then
      var magnitude: int := DigitsValue(s[1..]);
      Some(if s[0] == '-' then -magnitude else magnitude)
    else if |s| >= 1 && AllDigits(s) then
      Some(DigitsValue(s))
    else
      None
  }

  /** Decimal rendering of a natural number without leading zeros. */
  function ShowNat(n: nat): (s: string)
    ensures |s| >= 1 && AllDigits(s) && DigitsValue(s) == n
  {
    if n < 10 then [DigitChar(n)] else ShowNat(n / 10) + [DigitChar(n % 10)]
  }

  /** Decimal rendering of an integer, `str(n)` in Python; `int` reads it back. */
  function ShowInt(n: int): (s: string)
    ensures ParseInteger(s) == Some(n)
  {
    if n < 0 then
      var digits := ShowNat(-n);
      assert ("-" + digits)[1..] == digits;
      "-" + digits
    else
      ShowNat(n)
  }

  // ---------------------------------------------------------------------
  // Calendar dates (the arithmetic of Python's `_ymd2ord`)

  datatype Date = Date(year: int, month: int, day: int)

  predicate IsLeap(year: int) {
    year % 4 == 0 && (year % 100 != 0 || year % 400 == 0)
  }

  function DaysInMonth(year: int, month: int): int
    requires 1 <= month <= 12
  {
    if month == 2 then (if IsLeap(year) then 29 else 28)
    else if month == 4 || month == 6 || month == 9 || month == 11 then 30
    else 31
  }

  /** A date `datetime` accepts: year 1 to 9999, a real month, a day that
      month has. */
  predicate ValidDate(d: Date) {
    1 <= d.year <= MAX_YEAR && 1 <= d.month <= 12 && 1 <= d.day <= DaysInMonth(d.year, d.month)
  }

  /** Days in the years before `year`, counted from 0001-01-01. */
  function DaysBeforeYear(year: int): int {
    var y := year - 1;
    y * 365 + y / 4 - y / 100 + y / 400
  }

  /** Days in the months of `year` before `month`. */
  function DaysBeforeMonth(year: int, month: int): int
    requires 1 <= month <= 12
  {
    var common :=
      if month == 1 then 0 else if month == 2 then 31 else if month == 3 then 59
      else if month == 4 then 90 else if month == 5 then 120 else if month == 6 then 151
      else if month == 7 then 181 else if month == 8 then 212 else if month == 9 then 243
      else if month == 10 then 273 else if month == 11 then 304 else 334;
    common + (if month > 2 && IsLeap(year) then 1 else 0)
  }

  function Ordinal(d: Date): int
    requires ValidDate(d)
  {
    DaysBeforeYear(d.year) + DaysBeforeMonth(d.year, d.month) + d.day
  }

  /** Whole days from 1970-01-01 to `d` (negative before the epoch). */
  function DaysSinceEpoch(d: Date): int
    requires ValidDate(d)
  {
    Ordinal(d) - EPOCH_ORDINAL
  }

  /** `calendar.timegm` of `d` at 00:00:00. */
  function MidnightUtc(d: Date): int
    requires ValidDate(d)
  {
    DaysSinceEpoch(d) * SECONDS_PER_DAY
  }

  /** The calendar day after `d`. */
  function NextDay(d: Date): Date
    requires ValidDate(d)
  {
    if d.day < DaysInMonth(d.year, d.month) then Date(d.year, d.month, d.day + 1)
    else if d.month < 12 then Date(d.year, d.month + 1, 1)
    else Date(d.year + 1, 1, 1)
  }

  /** `strptime(s, "%Y-%m-%d")` on the strings this model admits: four, two
      and two digits separated by dashes, naming a valid date. */
  function ParseDate(s: string): Option<Date>
  {
    if |s| == 10 && s[4] == '-' && s[7] == '-'
       && AllDigits(s[..4]) && AllDigits(s[5..7]) && AllDigits(s[8..])
    then
      var d := Date(DigitsValue(s[..4]), DigitsValue(s[5..7]), DigitsValue(s[8..]));
      if ValidDate(d) then Some(d) else None
    else
      None
  }

  /** `parseTime`: the integer if the text is one, else the UTC midnight of
      the date it names; `None` where Python raises. */
  function ParseTime(s: string): Option<int>
  {
    match ParseInteger(s)
    case Some(n) => Some(n)
    case None =>
      match ParseDate(s)
      case Some(d) => Some(MidnightUtc(d))
      case None => None
  }

  // ---------------------------------------------------------------------
  // Rendering dates, to state what `ParseDate` reads back

  function Pad2(n: nat): (s: string)
    requires n < 100
    ensures |s| == 2 && AllDigits(s) && DigitsValue(s) == n
  {
    var s := [DigitChar(n / 10), DigitChar(n % 10)];
    assert s[..1] == [DigitChar(n / 10)] && s[..1][..0] == [];
    assert DigitsValue(s[..1]) == n / 10;
    s
  }

  function Pad4(n: nat): (s: string)
    requires n < 10000
    ensures |s| == 4 && AllDigits(s) && DigitsValue(s) == n
  {
    var hi, lo := Pad2(n / 100), Pad2(n % 100);
    DigitsValueTwoMore(hi, lo);
    hi + lo
  }

  /** `d` written as `YYYY-MM-DD`. */
  function FormatDate(d: Date): (s: string)
    requires ValidDate(d)
  {
    Pad4(d.year) + "-" + Pad2(d.month) + "-" + Pad2(d.day)
  }

  lemma DigitsValueTwoMore(a: string, b: string)
    requires AllDigits(a) && |b| == 2 && AllDigits(b)
    ensures AllDigits(a + b) && DigitsValue(a + b) == DigitsValue(a) * 100 + DigitsValue(b)
  {
    var ab, a1 := a + b, a + [b[0]];
    assert ab[..|ab| - 1] == a1;
    assert a1[..|a1| - 1] == a;
    assert DigitsValue(a1) == DigitsValue(a) * 10 + DigitValue(b[0]);
    assert DigitsValue(ab) == DigitsValue(a1) * 10 + DigitValue(b[1]);
    assert b[..1] == [b[0]] && b[..1][..0] == [];
    assert DigitsValue(b[..1]) == DigitValue(b[0]);
    assert DigitsValue(b) == DigitValue(b[0]) * 10 + DigitValue(b[1]);
  }

  // ---------------------------------------------------------------------
  // Properties

  /** A decimal integer is taken as a Unix time unchanged. */
  lemma ParseTimeOfInteger(n: int)
    ensures ParseTime(ShowInt(n)) == Some(n)
  {
  }

  /** `ParseDate` reads back every date `FormatDate` writes. */
  lemma ParseFormatDate(d: Date)
    requires ValidDate(d)
    ensures ParseDate(FormatDate(d)) == Some(d)
  {
    var s := FormatDate(d);
    assert s[..4] == Pad4(d.year);
    assert s[5..7] == Pad2(d.month);
    assert s[8..] == Pad2(d.day);
  }

  /** A date string is not an integer, so `parseTime` gives its UTC midnight. */
  lemma ParseTimeOfDate(d: Date)
    requires ValidDate(d)
    ensures ParseTime(FormatDate(d)) == Some(MidnightUtc(d))
  {
    var s := FormatDate(d);
    ParseFormatDate(d);
    assert IsDigit(s[0]) && !IsDigit(s[4]);
  }

  /** The UTC midnight of 2021-06-01. */
  lemma ParseTimeExample()
    ensures ParseTime("2021-06-01") == Some(1622505600)
  {
    var d := Date(2021, 6, 1);
    assert FormatDate(d) == "2021-06-01";
    ParseTimeOfDate(d);
    assert DaysBeforeYear(2021) == 737790;
    assert DaysBeforeMonth(2021, 6) == 151;
    assert DaysSinceEpoch(d) == 18779;
  }

  /** The epoch itself is time zero. */
  lemma EpochIsZero()
    ensures MidnightUtc(Date(1970, 1, 1)) == 0
  {
  }

  /** Consecutive calendar days are exactly one day of seconds apart. */
  lemma NextDayIsOneDayLater(d: Date)
    requires ValidDate(d) && d != Date(MAX_YEAR, 12, 31)
    ensures ValidDate(NextDay(d))
    ensures MidnightUtc(NextDay(d)) == MidnightUtc(d) + SECONDS_PER_DAY
  {
    if d.day == DaysInMonth(d.year, d.month) && d.month == 12 {
      DaysBeforeNextYear(d.year);
    }
  }

  lemma DaysBeforeNextYear(year: int)
    requires year >= 1
    ensures DaysBeforeYear(year + 1) == DaysBeforeYear(year) + (if IsLeap(year) then 366 else 365)
  {
    var y := year - 1;
    assert (y + 1) / 4 == y / 4 + (if year % 4 == 0 then 1 else 0);
    assert (y + 1) / 100 == y / 100 + (if year % 100 == 0 then 1 else 0);
    assert (y + 1) / 400 == y / 400 + (if year % 400 == 0 then 1 else 0);
  }
}
