/**
  Day numbers of dates (`daysFromCivil` and the range checks of `ParseDate` in
  rt-app/core-go/queue/message.go; section 21.4.1 of ECMA-262): the closed formula against the count
  of days by the Gregorian leap-year rule, for every integer year.
*/
module Calendar {
  import opened Prelude

  const MAX_TIME := 8_640_000_000_000_000

  // ---- the rule ----

  predicate Leap(year: int) {
    year % 4 == 0 && (year % 100 != 0 || year % 400 == 0)
  }

  function YearLength(year: int): nat {
    if Leap(year) then 366 else 365
  }

  function MonthLength(year: int, month: int): nat {
    if month == 2 then if Leap(year) then 29 else 28
    else if month == 4 || month == 6 || month == 9 || month == 11 then 30
    else 31
  }

  /** Days from 1970-01-01 to the first day of a year, counted year by year in either direction. */
  function DaysToYear(year: int): int
    decreases if year >= 1970 then year - 1970 else 1970 - year
  {
    if year == 1970 then 0
    else if year > 1970 then DaysToYear(year - 1) + YearLength(year - 1)
    else DaysToYear(year + 1) - YearLength(year)
  }

  /** And on to the first day of a month. */
  function DaysToMonth(year: int, month: int): int
    requires 1 <= month <= 12
    decreases month
  {
    if month == 1 then DaysToYear(year) else DaysToMonth(year, month - 1) + MonthLength(year, month - 1)
  }

  // ---- the formula ----

  function DaysFromCivil(year: int, month: int): int
    requires 1 <= month <= 12
  {
    var y := if month <= 2 then year - 1 else year;
    var era := y / 400;
    var yoe := y - era * 400;
    var mp := (month + 9) % 12;
    var doy := (153 * mp + 2) / 5;
    var doe := yoe * 365 + yoe / 4 - yoe / 100 + doy;
    era * 146097 + doe - 719468
  }

  /** Days of the 365-day years and the leap days before a year that starts in March. */
  function Elapsed(y: int): int {
    365 * y + y / 4 - y / 100 + y / 400
  }

  function MonthOffset(month: int): int {
    (153 * ((month + 9) % 12) + 2) / 5
  }

  lemma FloorShift(x: int, k: int, d: int)
    requires d > 0
    ensures (x + k * d) / d == x / d + k
  {
    var q, r := x / d, x % d;
    assert x + k * d == (q + k) * d + r;
    var e := (x + k * d) / d - (q + k);
    assert e * d == r - (x + k * d) % d;
    assert e >= 1 ==> e * d >= d;
    assert e <= -1 ==> e * d <= -d;
  }

  /** The eras of the formula do not matter: it is linear in years and leap days. */
  lemma FormulaIsLinear(year: int, month: int)
    requires 1 <= month <= 12
    ensures var y := if month <= 2 then year - 1 else year;
            DaysFromCivil(year, month) == Elapsed(y) + MonthOffset(month) - 719468
  {
    var y := if month <= 2 then year - 1 else year;
    var era := y / 400;
    var yoe := y - era * 400;
    FloorShift(yoe, era * 100, 4);
    FloorShift(yoe, era * 4, 100);
    FloorShift(yoe, era, 400);
  }

  lemma QuotientOf(x: int, d: int, q: int, r: int)
    requires d > 0 && x == q * d + r && 0 <= r < d
    ensures x / d == q && x % d == r
  {
    var e := x / d - q;
    assert x == x / d * d + x % d;
    assert e * d == r - x % d;
    assert e >= 1 ==> e * d >= d;
    assert e <= -1 ==> e * d <= -d;
  }

  lemma FloorStep(y: int, d: int)
    requires d > 0
    ensures y / d - (y - 1) / d == if y % d == 0 then 1 else 0
  {
    var q, r := y / d, y % d;
    assert y == q * d + r;
    if r == 0 {
      assert y - 1 == (q - 1) * d + (d - 1);
      QuotientOf(y - 1, d, q - 1, d - 1);
    } else {
      QuotientOf(y - 1, d, q, r - 1);
    }
  }

  lemma Centuries(y: int)
    ensures y % 400 == 0 ==> y % 100 == 0
    ensures y % 100 == 0 ==> y % 4 == 0
  {}

  /** One more year brings 365 days, and a leap day exactly when the rule says so. */
  lemma ElapsedStep(y: int)
    ensures Elapsed(y) - Elapsed(y - 1) == YearLength(y)
  {
    FloorStep(y, 4);
    FloorStep(y, 100);
    FloorStep(y, 400);
    Centuries(y);
  }

  /** Successive months are exactly a month apart, within a year and across its end. */
  lemma MonthsFollow(year: int, month: int)
    requires 1 <= month <= 12
    ensures (if month < 12 then DaysFromCivil(year, month + 1) else DaysFromCivil(year + 1, 1)) ==
            DaysFromCivil(year, month) + MonthLength(year, month)
  {
    hide DaysFromCivil, Elapsed, Leap;
    FormulaIsLinear(year, month);
    if month < 12 {
      FormulaIsLinear(year, month + 1);
    } else {
      FormulaIsLinear(year + 1, 1);
    }
    ElapsedStep(year);
  }

  lemma {:induction false} MonthsOfAYear(year: int, month: int)
    requires 1 <= month <= 12
    ensures DaysFromCivil(year, month) - DaysFromCivil(year, 1) == DaysToMonth(year, month) - DaysToYear(year)
    decreases month
  {
    if month > 1 {
      MonthsOfAYear(year, month - 1);
      MonthsFollow(year, month - 1);
    }
  }

  lemma YearsFollow(year: int)
    ensures DaysFromCivil(year + 1, 1) == DaysFromCivil(year, 1) + YearLength(year)
  {
    FormulaIsLinear(year, 1);
    FormulaIsLinear(year + 1, 1);
    ElapsedStep(year);
  }

  lemma {:induction false} YearsAgree(year: int)
    ensures DaysFromCivil(year, 1) == DaysToYear(year)
    decreases if year >= 1970 then year - 1970 else 1970 - year
  {
    if year > 1970 {
      YearsAgree(year - 1);
      YearsFollow(year - 1);
    } else if year < 1970 {
      YearsAgree(year + 1);
      YearsFollow(year);
    }
  }

  /** The formula counts the days of the calendar, for every year and month. */
  lemma FormulaCountsDays(year: int, month: int)
    requires 1 <= month <= 12
    ensures DaysFromCivil(year, month) == DaysToMonth(year, month)
    ensures DaysFromCivil(1970, 1) == 0
  {
    YearsAgree(year);
    YearsAgree(1970);
    MonthsOfAYear(year, month);
  }

  // ---- instants ----

  /** The instant of a date and time whose fields were read, or None outside the ranges. */
  function Instant(year: int, month: int, day: int, hour: int, minute: int, second: int, ms: int, offset: int): Option<int> {
    if month < 1 || month > 12 || day < 1 || day > 31 || minute > 59 || second > 59 || hour > 24 then None
    else if hour == 24 && (minute != 0 || second != 0 || ms != 0) then None
    else
      var value := (((DaysFromCivil(year, month) + day - 1) * 24 + hour) * 60 + minute - offset) * 60000 + second * 1000 + ms;
      if value > MAX_TIME || value < -MAX_TIME then None else Some(value)
  }

  /** Hour 24 of a day is the first moment of the next one, in the next month or year when it is the last. */
  lemma MidnightIsTheNextDay(year: int, month: int, day: int, offset: int)
    requires 1 <= month <= 12 && 1 <= day <= MonthLength(year, month)
    ensures Instant(year, month, day, 24, 0, 0, 0, offset) ==
            if day < MonthLength(year, month) then Instant(year, month, day + 1, 0, 0, 0, 0, offset)
            else if month < 12 then Instant(year, month + 1, 1, 0, 0, 0, 0, offset)
            else Instant(year + 1, 1, 1, 0, 0, 0, 0, offset)
  {
    MonthsFollow(year, month);
  }

  /** Days past the end of a month run into the next one, and hour 24 goes on from there. */
  lemma DaysRollOver(year: int, month: int, day: int, hour: int, minute: int, second: int, ms: int, offset: int)
    requires 1 <= month <= 12 && MonthLength(year, month) < day <= 31
    ensures Instant(year, month, day, hour, minute, second, ms, offset) ==
            if month == 12 then Instant(year + 1, 1, day - MonthLength(year, month), hour, minute, second, ms, offset)
            else Instant(year, month + 1, day - MonthLength(year, month), hour, minute, second, ms, offset)
    ensures day < 31 ==> Instant(year, month, day, 24, 0, 0, 0, offset) == Instant(year, month, day + 1, 0, 0, 0, 0, offset)
  {
    MonthsFollow(year, month);
  }

  /**
    The instant is the milliseconds since 1970, counted by whole days of the calendar, less the offset;
    fields outside their ranges, hour 24 unless on the dot, and instants out of range have none.
  */
  lemma InstantCountsMilliseconds(year: int, month: int, day: int, hour: int, minute: int, second: int, ms: int, offset: int)
    ensures var inRange := 1 <= month <= 12 && 1 <= day <= 31 && minute <= 59 && second <= 59 && (hour < 24 || (hour == 24 && minute == second == ms == 0));
            if !inRange then Instant(year, month, day, hour, minute, second, ms, offset) == None
            else
              var t := (DaysToMonth(year, month) + day - 1) * 86_400_000 + hour * 3_600_000 + (minute - offset) * 60_000 + second * 1000 + ms;
              Instant(year, month, day, hour, minute, second, ms, offset) == if -8_640_000_000_000_000 <= t <= 8_640_000_000_000_000 then Some(t) else None
  {
    hide DaysFromCivil, DaysToMonth;
    if 1 <= month <= 12 {
      FormulaCountsDays(year, month);
    }
  }
}
