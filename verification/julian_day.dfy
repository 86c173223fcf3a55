/** The Julian Day computed in `calcEarthSunDist` (Meeus, Astronomical Algorithms, chapter 7,
    equation 7.1). Under Python 2 the time terms are integer divisions, and the Julian Day of
    any date is a whole number of half days, so it is modelled as the integer count of half
    days (`2 * JD`). The cosine terms of the Earth-Sun distance are not part of this model. */
module JulianDay {

  /** Python's `int(x)` on a value `num / den` with `den > 0`: truncation toward zero. */
  function Trunc(num: int, den: int): (r: int)
    requires den > 0
    ensures num >= 0 ==> r * den <= num < (r + 1) * den
    ensures num < 0 ==> (r - 1) * den < num <= r * den
  {
    if num >= 0 then num / den else -((-num) / den)
  }

  /** `int(365.25 * x)`; 365.25 is exact in binary floating point. */
  function YearDays(x: int): int
  {
    Trunc(1461 * x, 4)
  }

  /** `int(30.6001 * k)`, read with 30.6001 as the decimal it is written as. */
  function MonthDays(k: int): int
  {
    Trunc(306001 * k, 10000)
  }

  /** `2 * jd` for the calendar date and time `year-month-day hr:minute:sec`, with every
      division of the source taken as Python 2 integer (floor) division. */
  function JulianHalfDays(year: int, month: int, day: int, hr: int, minute: int, sec: int): int
  {
    var ut := hr + minute / 60 + sec / 3600;
    var y := if month <= 2 then year - 1 else year;
    var m := if month <= 2 then month + 12 else month;
    var a := y / 100;
    var b := 2 - a + a / 4;
    2 * (YearDays(y + 4716) + MonthDays(m + 1) + day + ut / 24 + b) - 3049
  }

  /** The fields of a Python `datetime`. */
  predicate ValidTime(hr: int, minute: int, sec: int)
  {
    0 <= hr < 24 && 0 <= minute < 60 && 0 <= sec < 60
  }

  /** The Julian Day a calendar date starts at (0h), as half days. */
  function DateHalfDays(year: int, month: int, day: int): int
  {
    JulianHalfDays(year, month, day, 0, 0, 0)
  }

  /** The time of day does not change the result: every time term is an integer division that
      comes to zero, so every instant of a date has the Julian Day of its midnight. */
  lemma TimeIndependent(year: int, month: int, day: int, hr: int, minute: int, sec: int)
    requires ValidTime(hr, minute, sec)
    ensures JulianHalfDays(year, month, day, hr, minute, sec) == DateHalfDays(year, month, day)
  {
    assert minute / 60 == 0 && sec / 3600 == 0;
    assert (hr + minute / 60 + sec / 3600) / 24 == 0;
  }

  /** The result is a half-odd number of days: a Julian Day always ends in .5 here. */
  lemma HalfDayOffset(year: int, month: int, day: int, hr: int, minute: int, sec: int)
    ensures JulianHalfDays(year, month, day, hr, minute, sec) % 2 == 1
  {
  }

  /** January and February are counted as months 13 and 14 of the previous year. */
  lemma JanuaryFebruary(year: int, month: int, day: int)
    requires 1 <= month <= 2
    ensures DateHalfDays(year, month, day) == DateHalfDays(year - 1, month + 12, day)
  {
  }

  /** 2000-01-01 is Julian Day 2451544.5 (at any time of that day). */
  lemma Epoch2000(hr: int, minute: int, sec: int)
    requires ValidTime(hr, minute, sec)
    ensures JulianHalfDays(2000, 1, 1, hr, minute, sec) == 4903089
  {
    TimeIndependent(2000, 1, 1, hr, minute, sec);
    assert YearDays(1999 + 4716) == 2452653;
    assert MonthDays(14) == 428;
  }

  /** The next day of the same month is one Julian Day later. */
  lemma NextDay(year: int, month: int, day: int)
    ensures DateHalfDays(year, month, day + 1) == DateHalfDays(year, month, day) + 2
  {
  }
}
