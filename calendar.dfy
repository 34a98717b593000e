/** Local calendar arithmetic for the background worker and the popup.

    A local date is an integer day number: day 0 is 1970-01-01 and every
    local day lasts exactly 86 400 000 ms. An instant is an integer count of
    local milliseconds since 1970-01-01 00:00 local time. */
module Calendar {

  /** A calendar date in the proleptic Gregorian calendar; `month` runs 1..12
      (JavaScript's `getMonth()` is this minus one, which does not affect any
      comparison made here) and `date` is the day of the month. */
  datatype Civil = Civil(year: int, month: int, date: int)

  /** The local day an instant falls on: floor division by the 86 400 000 ms of a day. */
  function DayOf(ms: int): (d: int)
    ensures d * 86400000 <= ms < (d + 1) * 86400000
  {
    ms / 86400000
  }

  /** The instant of local midnight starting day `d`, as `new Date(y, m, d)` builds it. */
  function StartOf(d: int): (ms: int)
    ensures DayOf(ms) == d
  {
    d * 86400000
  }

  // Days are counted in 400-year eras of 146 097 days, each starting on
  // 1 March of a year divisible by 400; years inside an era run from 1 March
  // so that the leap day is the last day of its year.

  /** The era holding day `n`. */
  function EraOf(n: int): int
  {
    (n + 719468) / 146097
  }

  /** Day `n` counted from the start of its era. */
  function DayOfEra(n: int): (doe: int)
    ensures 0 <= doe < 146097
  {
    n + 719468 - EraOf(n) * 146097
  }

  /** Days from the start of an era to 1 March of its year `y`. */
  function EraYearStart(y: int): int
  {
    365 * y + y / 4 - y / 100
  }

  /** Number of days of year `y` of an era (1 March to the end of February). */
  function EraYearLength(y: int): int
  {
    EraYearStart(y + 1) - EraYearStart(y) + (if y == 399 then 1 else 0)
  }

  lemma EraYearLengthBounds(y: int)
    requires 0 <= y < 400
    ensures 365 <= EraYearLength(y) <= 366
  {
    assert (y + 1) / 4 - y / 4 == (if y % 4 == 3 then 1 else 0);
    assert (y + 1) / 100 - y / 100 == (if y % 100 == 99 then 1 else 0);
  }

  /** Day `doe` of an era is day `doy` of its year `y`. */
  predicate InEraYear(doe: int, y: int, doy: int)
  {
    0 <= y < 400 && doe == EraYearStart(y) + doy && 0 <= doy < EraYearLength(y)
  }

  /** The 400/100/4/1 decomposition: four centuries of 36 524 days (the last
      one day longer), 25 four-year groups of 1 461 days and four years of
      365 days (the last one day longer). */
  ghost function EraSplit(doe: int): (p: (int, int))
    requires 0 <= doe < 146097
    ensures InEraYear(doe, p.0, p.1)
  {
    var cent := if doe / 36524 < 4 then doe / 36524 else 3;
    var dc := doe - 36524 * cent;
    var quad := dc / 1461;
    var dq := dc - 1461 * quad;
    var yq := if dq / 365 < 4 then dq / 365 else 3;
    var y := 100 * cent + 4 * quad + yq;
    assert y / 4 == 25 * cent + quad && y / 100 == cent;
    assert (y + 1) / 4 == 25 * cent + quad + (if yq == 3 then 1 else 0);
    assert (y + 1) / 100 == cent + (if yq == 3 && quad == 24 then 1 else 0);
    (y, dq - 365 * yq)
  }

  lemma EraYearStartMono(a: int, b: int)
    requires 0 <= a <= b
    ensures EraYearStart(a) <= EraYearStart(b)
  {
    assert b / 100 - a / 100 <= (b - a) / 100 + 1;
    assert b / 4 - a / 4 >= (b - a) / 4;
  }

  /** A day of an era lies in one year of it only. */
  lemma EraYearUnique(doe: int, y1: int, d1: int, y2: int, d2: int)
    requires InEraYear(doe, y1, d1) && InEraYear(doe, y2, d2)
    ensures y1 == y2 && d1 == d2
  {
    if y1 < y2 { EraYearStartMono(y1 + 1, y2); }
    if y2 < y1 { EraYearStartMono(y2 + 1, y1); }
  }

  lemma EraYearUniqueAll(doe: int)
    ensures forall y1, d1, y2, d2 :: InEraYear(doe, y1, d1) && InEraYear(doe, y2, d2) ==> y1 == y2 && d1 == d2
  {
    forall y1, d1, y2, d2 | InEraYear(doe, y1, d1) && InEraYear(doe, y2, d2)
      ensures y1 == y2 && d1 == d2
    {
      EraYearUnique(doe, y1, d1, y2, d2);
    }
  }

  /** The year of the era and the day of that year holding day `doe` of an era. */
  function EraDay(doe: int): (p: (int, int))
    requires 0 <= doe < 146097
    ensures InEraYear(doe, p.0, p.1)
    ensures 0 <= p.1 <= 365
  {
    assert InEraYear(doe, EraSplit(doe).0, EraSplit(doe).1);
    EraYearUniqueAll(doe);
    var p: (int, int) :| InEraYear(doe, p.0, p.1);
    EraYearLengthBounds(p.0);
    p
  }

  /** Civil date of day `doy` (0 = 1 March) of year `yoe` of era `era`. */
  function CivilOf(era: int, yoe: int, doy: int): (c: Civil)
    requires 0 <= doy <= 365
    ensures 1 <= c.month <= 12 && 1 <= c.date <= 31
  {
    var mp := (5 * doy + 2) / 153;
    var d := doy - (153 * mp + 2) / 5 + 1;
    var m := if mp < 10 then mp + 3 else mp - 9;
    Civil(yoe + era * 400 + (if m <= 2 then 1 else 0), m, d)
  }

  /** Civil date of a day number. */
  function CivilFromDays(n: int): (c: Civil)
    ensures 1 <= c.month <= 12 && 1 <= c.date <= 31
  {
    var p := EraDay(DayOfEra(n));
    CivilOf(EraOf(n), p.0, p.1)
  }

  /** Day number of a civil date; the inverse of CivilFromDays. */
  function DaysFromCivil(c: Civil): int
  {
    var y := c.year - (if c.month <= 2 then 1 else 0);
    var era := y / 400;
    var yoe := y - era * 400;
    var mp := if c.month > 2 then c.month - 3 else c.month + 9;
    var doy := (153 * mp + 2) / 5 + c.date - 1;
    era * 146097 + EraYearStart(yoe) + doy - 719468
  }

  /** Reading back a civil date built from era parts gives the day of those parts. */
  lemma CivilOfRoundTrip(era: int, yoe: int, doy: int)
    requires 0 <= yoe < 400 && 0 <= doy <= 365
    ensures DaysFromCivil(CivilOf(era, yoe, doy)) == era * 146097 + EraYearStart(yoe) + doy - 719468
  {
    var c := CivilOf(era, yoe, doy);
    var y := c.year - (if c.month <= 2 then 1 else 0);
    assert y == yoe + era * 400;
    assert y / 400 == era;
  }

  /** Converting a day to its civil date and back gives the same day. */
  lemma CivilRoundTrip(n: int)
    ensures DaysFromCivil(CivilFromDays(n)) == n
  {
    var p := EraDay(DayOfEra(n));
    CivilOfRoundTrip(EraOf(n), p.0, p.1);
  }

  function Year(n: int): int { CivilFromDays(n).year }

  function YearStart(y: int): int { DaysFromCivil(Civil(y, 1, 1)) }

  /** The civil year of day `doy` of March-based year `yoe` of era `era`:
      the next one from 1 January (day 306) on. */
  lemma CivilOfYear(era: int, yoe: int, doy: int)
    requires 0 <= doy <= 365
    ensures CivilOf(era, yoe, doy).year == yoe + era * 400 + (if doy >= 306 then 1 else 0)
  {
  }

  /** 1 January of the year after March-based year `yoe` of era `era` is day 306 of that year. */
  lemma YearStartParts(era: int, yoe: int)
    requires 0 <= yoe < 400
    ensures YearStart(yoe + era * 400 + 1) == era * 146097 + EraYearStart(yoe) + 306 - 719468
  {
    assert (yoe + era * 400) / 400 == era;
  }

  /** Day `n` is day `doy` of year `yoe` of era `era`, and lies in civil year
      `yoe + era * 400` up to the end of December (day 305) and in the next one after. */
  lemma MarchParts(n: int) returns (era: int, yoe: int, doy: int)
    ensures n == era * 146097 + EraYearStart(yoe) + doy - 719468
    ensures InEraYear(DayOfEra(n), yoe, doy) && 0 <= doy <= 365
    ensures Year(n) == yoe + era * 400 + (if doy >= 306 then 1 else 0)
  {
    era := EraOf(n);
    var p := EraDay(DayOfEra(n));
    yoe, doy := p.0, p.1;
    CivilOfYear(era, yoe, doy);
  }

  /** A day `n` up to the end of December of its March-based year lies at
      most 365 days after 1 January of that year's civil year `y`. */
  lemma OffsetBeforeJanuary(n: int, y: int, era: int, yoe: int, doy: int)
    requires 0 <= yoe < 400 && 0 <= doy <= 305
    requires n == era * 146097 + EraYearStart(yoe) + doy - 719468 && y == yoe + era * 400
    ensures 0 <= n - YearStart(y) <= 365
  {
    if yoe > 0 {
      YearStartParts(era, yoe - 1);
      EraYearLengthBounds(yoe - 1);
    } else {
      YearStartParts(era - 1, 399);
    }
  }

  /** A day `n` from 1 January on lies less than 60 days after 1 January of
      the civil year `y` following its March-based year. */
  lemma OffsetFromJanuary(n: int, y: int, era: int, yoe: int, doy: int)
    requires 0 <= yoe < 400 && 306 <= doy <= 365
    requires n == era * 146097 + EraYearStart(yoe) + doy - 719468 && y == yoe + era * 400 + 1
    ensures 0 <= n - YearStart(y) <= 365
  {
    YearStartParts(era, yoe);
  }

  /** Every day lies in the year that CivilFromDays names for it, at most 365
      days after that year's 1 January. */
  lemma DayOfYearRange(n: int)
    ensures 0 <= n - YearStart(Year(n)) <= 365
  {
    var era, yoe, doy := MarchParts(n);
    if doy >= 306 {
      OffsetFromJanuary(n, Year(n), era, yoe, doy);
    } else {
      OffsetBeforeJanuary(n, Year(n), era, yoe, doy);
    }
  }

  /** `getFullYear()` names the calendar year a day falls in: the day lies
      on or after that year's 1 January and before the next one's. */
  lemma YearBracket(n: int)
    ensures YearStart(Year(n)) <= n < YearStart(Year(n) + 1)
  {
    DayOfYearRange(n);
    var era, yoe, doy := MarchParts(n);
    if doy < 306 {
      YearStartParts(era, yoe);
    } else if yoe < 399 {
      YearStartParts(era, yoe + 1);
    } else {
      YearStartParts(era + 1, 0);
    }
  }

  /** `getDay()`: 0 = Sunday, ..., 6 = Saturday; 1970-01-01 was a Thursday. */
  function Weekday(n: int): (w: int)
    ensures 0 <= w < 7
  {
    (n + 4) % 7
  }

  /** `isSameDay`: same local year, month and day of the month. */
  predicate IsSameDay(a: int, b: int)
  {
    var ca, cb := CivilFromDays(a), CivilFromDays(b);
    ca.year == cb.year && ca.month == cb.month && ca.date == cb.date
  }

  /** Two day numbers are the same day exactly when they are equal. */
  lemma IsSameDayIff(a: int, b: int)
    ensures IsSameDay(a, b) <==> a == b
  {
    CivilRoundTrip(a);
    CivilRoundTrip(b);
  }

  /** `Math.ceil` of a real. */
  function Ceil(x: real): (r: int)
    ensures x <= r as real < x + 1.0
  {
    -((-x).Floor)
  }

  /** The Thursday of the Monday-to-Sunday week holding day `n`
      (the date moved by four days minus its weekday, Sunday counting as 7). */
  function WeekThursday(n: int): int
  {
    var wd := Weekday(n);
    n + 4 - (if wd == 0 then 7 else wd)
  }

  /** `getWeekNumber`: weeks counted from 1 January of the Thursday's year. */
  function WeekNumber(n: int): int
  {
    var t := WeekThursday(n);
    Ceil(((t - YearStart(Year(t))) as real + 1.0) / 7.0)
  }

  /** `isSameWeek`: the literal years of the two days agree and so do their week numbers. */
  predicate IsSameWeek(a: int, b: int)
  {
    Year(a) == Year(b) && WeekNumber(a) == WeekNumber(b)
  }

  /** Days `a` and `b` lie in the same Monday-to-Sunday week. */
  predicate SameIsoWeek(a: int, b: int)
  {
    (a + 3) / 7 == (b + 3) / 7
  }

  /** The week's Thursday is a Thursday within three days of `n`, the same for every day of that week. */
  lemma WeekThursdayShape(n: int)
    ensures WeekThursday(n) == 7 * ((n + 3) / 7)
    ensures Weekday(WeekThursday(n)) == 4
    ensures n - 3 <= WeekThursday(n) <= n + 3
  {
  }

  lemma CeilSeventh(k: int)
    ensures Ceil(k as real / 7.0) == (k + 6) / 7
  {
  }

  /** The week number in integer arithmetic. */
  lemma WeekNumberFormula(n: int)
    ensures WeekNumber(n) == (WeekThursday(n) - YearStart(Year(WeekThursday(n))) + 7) / 7
  {
    var t := WeekThursday(n);
    var k := t - YearStart(Year(t)) + 1;
    assert ((t - YearStart(Year(t))) as real + 1.0) == k as real;
    CeilSeventh(k);
  }

  /** Week numbers run from 1 to 53. */
  lemma WeekNumberRange(n: int)
    ensures 1 <= WeekNumber(n) <= 53
  {
    DayOfYearRange(WeekThursday(n));
    WeekNumberFormula(n);
  }

  /** Two days of one Monday-to-Sunday week in the same literal year are reported as the same week. */
  lemma IsSameWeekComplete(a: int, b: int)
    requires SameIsoWeek(a, b) && Year(a) == Year(b)
    ensures IsSameWeek(a, b)
  {
    WeekThursdayShape(a);
    WeekThursdayShape(b);
  }

  /** When the two weeks' Thursdays fall in the same year, the week number
      comparison is exact: `isSameWeek` then means the same Monday-to-Sunday week. */
  lemma IsSameWeekSound(a: int, b: int)
    requires IsSameWeek(a, b)
    requires Year(WeekThursday(a)) == Year(WeekThursday(b))
    ensures SameIsoWeek(a, b)
  {
    WeekThursdayShape(a);
    WeekThursdayShape(b);
    WeekNumberFormula(a);
    WeekNumberFormula(b);
    var ys := YearStart(Year(WeekThursday(a)));
    var qa, qb := (a + 3) / 7, (b + 3) / 7;
    ShiftDiv(qa, 7 - ys);
    ShiftDiv(qb, 7 - ys);
  }

  lemma ShiftDiv(q: int, c: int)
    ensures (7 * q + c) / 7 == q + c / 7
  {
  }

  /** The civil date of day `n`, given the era, year of era and day of year
      that hold it. */
  lemma CivilAt(n: int, era: int, yoe: int, doy: int)
    requires 0 <= n + 719468 - era * 146097 < 146097
    requires InEraYear(n + 719468 - era * 146097, yoe, doy)
    ensures 0 <= doy <= 365 && CivilFromDays(n) == CivilOf(era, yoe, doy)
  {
    assert EraOf(n) == era;
    var p := EraDay(DayOfEra(n));
    EraYearUnique(DayOfEra(n), yoe, doy, p.0, p.1);
  }

  lemma Civil20451()
    ensures CivilFromDays(20451) == Civil(2025, 12, 29)
  {
    CivilAt(20451, 5, 25, 303);
  }

  lemma Civil20454()
    ensures CivilFromDays(20454) == Civil(2026, 1, 1)
  {
    CivilAt(20454, 5, 25, 306);
  }

  lemma Civil19723()
    ensures CivilFromDays(19723) == Civil(2024, 1, 1)
  {
    CivilAt(19723, 5, 23, 306);
  }

  lemma Civil19726()
    ensures CivilFromDays(19726) == Civil(2024, 1, 4)
  {
    CivilAt(19726, 5, 23, 309);
  }

  lemma Civil20087()
    ensures CivilFromDays(20087) == Civil(2024, 12, 30)
  {
    CivilAt(20087, 5, 24, 304);
  }

  lemma Civil20090()
    ensures CivilFromDays(20090) == Civil(2025, 1, 2)
  {
    CivilAt(20090, 5, 24, 307);
  }

  lemma Days20451() ensures DaysFromCivil(Civil(2025, 12, 29)) == 20451 { }
  lemma Days20454() ensures DaysFromCivil(Civil(2026, 1, 1)) == 20454 { }
  lemma Days19723() ensures DaysFromCivil(Civil(2024, 1, 1)) == 19723 { }
  lemma Days20087() ensures DaysFromCivil(Civil(2024, 12, 30)) == 20087 { }
  lemma Days20089() ensures DaysFromCivil(Civil(2025, 1, 1)) == 20089 { }

  lemma Week2024Jan1()
    ensures WeekNumber(19723) == 1
  {
    WeekNumberFormula(19723);
    assert WeekThursday(19723) == 19726;
    Civil19726();
    Days19723();
  }

  lemma Week2024Dec30()
    ensures WeekNumber(20087) == 1
  {
    WeekNumberFormula(20087);
    assert WeekThursday(20087) == 20090;
    Civil20090();
    Days20089();
  }

  /** 2025-12-29 (Monday) and 2026-01-01 (Thursday) share one Monday-to-Sunday
      week, but their literal years differ, so `isSameWeek` reports different weeks. */
  lemma YearEndWeekSplit()
    ensures var a, b := DaysFromCivil(Civil(2025, 12, 29)), DaysFromCivil(Civil(2026, 1, 1));
      b - a == 3 && SameIsoWeek(a, b) && !IsSameWeek(a, b)
  {
    Days20451();
    Days20454();
    Civil20451();
    Civil20454();
    assert Year(20451) != Year(20454);
  }

  /** 2024-01-01 and 2024-12-30 are both in a week numbered 1 (of 2024 and of
      2025) and share the literal year 2024, so `isSameWeek` reports them as one
      week although they are 364 days apart. */
  lemma WeekOneCollision()
    ensures var a, b := DaysFromCivil(Civil(2024, 1, 1)), DaysFromCivil(Civil(2024, 12, 30));
      b - a == 364 && !SameIsoWeek(a, b) && IsSameWeek(a, b)
  {
    Days19723();
    Days20087();
    Civil19723();
    Civil20087();
    Week2024Jan1();
    Week2024Dec30();
  }
}
