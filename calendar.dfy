/** Timestamps and the two calendar views the screens take of them: the month a
    transaction falls in (`getMonth()`/`getFullYear()`, `isThisMonth`) and the day
    it is grouped under (`formatDate`'s `dd.mm.yyyy` key). The calendar is the
    proleptic Gregorian one in UTC. */
module Calendar {

  /** Milliseconds since 1970-01-01T00:00:00Z, the value `new Date(iso)` holds. */
  type Timestamp = int

  const MillisPerDay: int := 86_400_000

  /** A calendar month: `month` runs from 1 (January) to 12. */
  datatype YearMonth = YearMonth(year: int, month: int)

  /** A calendar day, the content of a `dd.mm.yyyy` key. */
  datatype CivilDay = CivilDay(year: int, month: int, day: int)

  /** The UTC calendar day of `ts`, by the usual days-to-civil conversion
      (eras of 400 years, years starting on the first of March). */
  function DayOf(ts: Timestamp): (r: CivilDay)
    ensures 1 <= r.month <= 12 && 1 <= r.day <= 31
  {
    CivilFromDays(ts / MillisPerDay)
  }

  /** The calendar day `days` days after 1970-01-01 (before it when negative). */
  function CivilFromDays(days: int): (r: CivilDay)
    ensures 1 <= r.month <= 12 && 1 <= r.day <= 31
  {
    var z := days + 719468;
    var era := z / 146097;
    var doe := z % 146097;
    var yoe := YearOfEra(doe);
    var doy := DayOfYear(doe, yoe);
    var mp := MonthIndex(doy);
    var d := doy - (153 * mp + 2) / 5 + 1;
    var m := if mp < 10 then mp + 3 else mp - 9;
    CivilDay(yoe + era * 400 + (if m <= 2 then 1 else 0), m, d)
  }

  /** The year within a 400-year era of its `doe`-th day, years starting in March. */
  function YearOfEra(doe: int): int {
    (doe - doe / 1460 + doe / 36524 - doe / 146096) / 365
  }

  /** The day within its March-based year of the era's `doe`-th day. */
  function DayOfYear(doe: int, yoe: int): int {
    doe - (365 * yoe + yoe / 4 - yoe / 100)
  }

  /** The month, counted from March as 0, of a March-based year's `doy`-th day. */
  function MonthIndex(doy: int): int {
    (5 * doy + 2) / 153
  }

  /** The month and year of `ts`, what `getMonth()` and `getFullYear()` compare. */
  function MonthOf(ts: Timestamp): (r: YearMonth)
    ensures 1 <= r.month <= 12
  {
    var d := DayOf(ts);
    YearMonth(d.year, d.month)
  }

  /** The grouping key of the transactions list (`formatDate(t.date)`): a day of
      a month of a year. */
  function DayKey(ts: Timestamp): (r: CivilDay)
    ensures 1 <= r.month <= 12 && 1 <= r.day <= 31
    ensures MonthOf(ts) == YearMonth(r.year, r.month)
  {
    DayOf(ts)
  }

  /** `isThisMonth(date)` with the clock reading `now` supplied by the caller. */
  predicate IsThisMonth(date: Timestamp, now: Timestamp) {
    MonthOf(date) == MonthOf(now)
  }

  /** Two instants of one UTC day have the same key and are in the same month. */
  lemma SameDay(a: Timestamp, b: Timestamp)
    requires a / MillisPerDay == b / MillisPerDay
    ensures DayKey(a) == DayKey(b)
    ensures IsThisMonth(a, b) && IsThisMonth(b, a)
  {
  }

  /** Day 0 is the epoch, 1970-01-01. */
  lemma EpochDay()
    ensures CivilFromDays(0) == CivilDay(1970, 1, 1)
  {
    assert (0 + 719468) / 146097 == 4 && (0 + 719468) % 146097 == 135080;
    assert YearOfEra(135080) == 369;
    assert DayOfYear(135080, 369) == 306;
    assert MonthIndex(306) == 10;
    assert 306 - (153 * 10 + 2) / 5 + 1 == 1;
  }

  /** Day -1 is the last day of 1969. */
  lemma DayBeforeEpoch()
    ensures CivilFromDays(-1) == CivilDay(1969, 12, 31)
  {
    assert (-1 + 719468) / 146097 == 4 && (-1 + 719468) % 146097 == 135079;
    assert YearOfEra(135079) == 369;
    assert DayOfYear(135079, 369) == 305;
    assert MonthIndex(305) == 9;
    assert 305 - (153 * 9 + 2) / 5 + 1 == 31;
  }

  /** 2000 is divisible by 400, so it is a leap year: day 11016 is 29 February. */
  lemma LeapDayOf2000()
    ensures CivilFromDays(11016) == CivilDay(2000, 2, 29)
  {
    assert (11016 + 719468) / 146097 == 4 && (11016 + 719468) % 146097 == 146096;
    assert YearOfEra(146096) == 399;
    assert DayOfYear(146096, 399) == 365;
    assert MonthIndex(365) == 11;
    assert 365 - (153 * 11 + 2) / 5 + 1 == 29;
  }

  /** 1900 is a century year not divisible by 400, so it has no 29 February:
      day -25508 is 1 March 1900. */
  lemma MarchFirstOf1900()
    ensures CivilFromDays(-25508) == CivilDay(1900, 3, 1)
  {
    assert (-25508 + 719468) / 146097 == 4 && (-25508 + 719468) % 146097 == 109572;
    assert YearOfEra(109572) == 300;
    assert DayOfYear(109572, 300) == 0;
    assert MonthIndex(0) == 0;
    assert 0 - (153 * 0 + 2) / 5 + 1 == 1;
  }

  /** Timestamps are cut into days by flooring: one second before the epoch is on
      31 December 1969, and the last millisecond of the epoch's day is still on it. */
  lemma KnownInstants()
    ensures DayKey(-1000) == CivilDay(1969, 12, 31)
    ensures DayKey(MillisPerDay - 1) == CivilDay(1970, 1, 1)
    ensures !IsThisMonth(-1000, 0)
  {
    DayBeforeEpoch();
    EpochDay();
    assert -1000 / MillisPerDay == -1;
    assert (MillisPerDay - 1) / MillisPerDay == 0;
    assert 0 / MillisPerDay == 0;
  }
}
