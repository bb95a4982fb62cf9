/**
 `parse_when`'s clock and calendar arithmetic: a civil date and a 12-hour clock to epoch
 milliseconds, against the naive count of days.
 */
module CivilTime {

  /** Integer division truncating toward zero, as `i64` divides. */
  function Quot(a: int, b: int): int
    requires b > 0
  {
    if a >= 0 then a / b else -((-a) / b)
  }

  function Rem(a: int, b: int): int
    requires b > 0
  {
    a - Quot(a, b) * b
  }

  datatype Meridiem = Am | Pm | Neither

  /**
   The hour adjusted in place for its meridiem: a twelve-hour reading lands in its own half of the
   day, and anything outside twelve hours is moved or left without being checked.
   */
  method Hour24(hour: int, meridiem: Meridiem) returns (h: int)
    ensures h == HourOf(hour, meridiem)
    ensures 1 <= hour <= 12 && meridiem != Neither ==>
      0 <= h < 24 && h % 12 == hour % 12 && (meridiem == Am <==> h < 12)
    ensures meridiem == Neither ==> h == hour
    ensures !(1 <= hour <= 12) ==> h == if meridiem == Pm then hour + 12 else hour
  {
    h := hour;
    match meridiem {
      case Pm => if h != 12 { h := h + 12; }
      case Am => if h == 12 { h := 0; }
      case Neither =>
    }
  }

  function HourOf(hour: int, meridiem: Meridiem): int {
    match meridiem
    case Pm => if hour != 12 then hour + 12 else hour
    case Am => if hour == 12 then 0 else hour
    case Neither => hour
  }

  /** Days since 1970-01-01, by Hinnant's era arithmetic. */
  function DaysFromCivil(year: int, month: int, day: int): int {
    var y := if month <= 2 then year - 1 else year;
    var era := Quot(if y >= 0 then y else y - 399, 400);
    var yoe := y - era * 400;
    var mp := Rem(month + 9, 12);
    var doy := Quot(153 * mp + 2, 5) + day - 1;
    var doe := yoe * 365 + Quot(yoe, 4) - Quot(yoe, 100) + doy;
    era * 146_097 + doe - 719_468
  }

  function Timestamp(year: int, month: int, day: int, hour: int, minute: int): int {
    (DaysFromCivil(year, month, day) * 86_400 + hour * 3_600 + minute * 60) * 1_000
  }

  // ----- the calendar, counted naively

  predicate Leap(year: int) {
    year % 4 == 0 && (year % 100 != 0 || year % 400 == 0)
  }

  function MonthLength(year: int, month: int): int
    requires 1 <= month <= 12
  {
    if month == 2 then (if Leap(year) then 29 else 28)
    else if month == 4 || month == 6 || month == 9 || month == 11 then 30
    else 31
  }

  predicate ValidDate(year: int, month: int, day: int) {
    1 <= month <= 12 && 1 <= day <= MonthLength(year, month)
  }

  /** Days from 1 January of `year` to the first of `month`, a month at a time. */
  function DaysBeforeMonth(year: int, month: int): int
    requires 1 <= month <= 12
    decreases month
  {
    if month == 1 then 0 else DaysBeforeMonth(year, month - 1) + MonthLength(year, month - 1)
  }

  function YearLength(year: int): int {
    if Leap(year) then 366 else 365
  }

  /** Days from 1970-01-01 to 1 January of `year`, a year at a time, in either direction. */
  function DaysBeforeYear(year: int): int
    decreases if year >= 1970 then year - 1970 else 1970 - year
  {
    if year == 1970 then 0
    else if year > 1970 then DaysBeforeYear(year - 1) + YearLength(year - 1)
    else DaysBeforeYear(year + 1) - YearLength(year)
  }

  function NaiveDays(year: int, month: int, day: int): int
    requires ValidDate(year, month, day)
  {
    DaysBeforeYear(year) + DaysBeforeMonth(year, month) + day - 1
  }

  // ----- the era arithmetic against the count

  /** The leap days up to and including year `y`, by floor division. */
  function LeapsThrough(y: int): int {
    y / 4 - y / 100 + y / 400
  }

  lemma LeapsStep(y: int)
    ensures LeapsThrough(y) == LeapsThrough(y - 1) + (if Leap(y) then 1 else 0)
  {
    DivStep(y, 4);
    DivStep(y, 100);
    DivStep(y, 400);
    CenturiesNest(y);
  }

  lemma HundredDivides(k: int)
    ensures (100 * k) % 100 == 0
  {
  }

  lemma FourDivides(k: int)
    ensures (4 * k) % 4 == 0
  {
  }

  lemma CenturiesNest(y: int)
    ensures y % 400 == 0 ==> y % 100 == 0
    ensures y % 100 == 0 ==> y % 4 == 0
  {
    HundredDivides(4 * (y / 400));
    FourDivides(25 * (y / 100));
  }

  lemma DivStep(y: int, d: int)
    requires d == 4 || d == 100 || d == 400
    ensures y / d == (y - 1) / d + (if y % d == 0 then 1 else 0)
  {
  }

  lemma {:induction false} YearsClosedForm(year: int)
    ensures DaysBeforeYear(year) == 365 * (year - 1970) + LeapsThrough(year - 1) - LeapsThrough(1969)
    decreases if year >= 1970 then year - 1970 else 1970 - year
  {
    if year > 1970 {
      YearsClosedForm(year - 1);
      LeapsStep(year - 1);
    } else if year < 1970 {
      YearsClosedForm(year + 1);
      LeapsStep(year);
    }
  }

  /** Splitting a year into era and year-of-era loses nothing, negative years included. */
  lemma EraSplits(y: int)
    ensures var era := Quot(if y >= 0 then y else y - 399, 400);
      var yoe := y - era * 400;
      && 0 <= yoe < 400
      && era * 146_097 + yoe * 365 + Quot(yoe, 4) - Quot(yoe, 100) == 365 * y + LeapsThrough(y)
  {
    var era := Quot(if y >= 0 then y else y - 399, 400);
    var yoe := y - era * 400;
    assert era == y / 400;
    assert y == era * 400 + yoe;
    assert y / 4 == era * 100 + yoe / 4;
    assert y / 100 == era * 4 + yoe / 100;
  }

  /** The month's offset within a year that starts in March. */
  lemma MarchOffset(year: int, month: int)
    requires 1 <= month <= 12
    ensures Quot(153 * Rem(month + 9, 12) + 2, 5) ==
      if month <= 2 then 306 + DaysBeforeMonth(year, month)
      else DaysBeforeMonth(year, month) - 59 - (if Leap(year) then 1 else 0)
  {
    MonthTable(year);
    hide DaysBeforeMonth, Leap;
    assert month <= 2 ==> Rem(month + 9, 12) == month + 9;
    assert month > 2 ==> Rem(month + 9, 12) == month - 3;
  }

  lemma MonthTable(year: int)
    ensures var leap := if Leap(year) then 1 else 0;
      && DaysBeforeMonth(year, 1) == 0
      && DaysBeforeMonth(year, 2) == 31
      && DaysBeforeMonth(year, 3) == 59 + leap
      && DaysBeforeMonth(year, 4) == 90 + leap
      && DaysBeforeMonth(year, 5) == 120 + leap
      && DaysBeforeMonth(year, 6) == 151 + leap
      && DaysBeforeMonth(year, 7) == 181 + leap
      && DaysBeforeMonth(year, 8) == 212 + leap
      && DaysBeforeMonth(year, 9) == 243 + leap
      && DaysBeforeMonth(year, 10) == 273 + leap
      && DaysBeforeMonth(year, 11) == 304 + leap
      && DaysBeforeMonth(year, 12) == 334 + leap
  {
    assert DaysBeforeMonth(year, 3) == 59 + (if Leap(year) then 1 else 0);
    assert DaysBeforeMonth(year, 5) == DaysBeforeMonth(year, 3) + 61;
    assert DaysBeforeMonth(year, 7) == DaysBeforeMonth(year, 5) + 61;
    assert DaysBeforeMonth(year, 9) == DaysBeforeMonth(year, 7) + 62;
    assert DaysBeforeMonth(year, 11) == DaysBeforeMonth(year, 9) + 61;
  }

  /** For every valid proleptic Gregorian date, the era arithmetic is the count of days. */
  lemma DaysFromCivilCounts(year: int, month: int, day: int)
    requires ValidDate(year, month, day)
    ensures DaysFromCivil(year, month, day) == NaiveDays(year, month, day)
  {
    var y := if month <= 2 then year - 1 else year;
    EraSplits(y);
    MarchOffset(year, month);
    YearsClosedForm(year);
    LeapsStep(year);
    assert LeapsThrough(1969) == 477;
  }

  // ----- order

  predicate EarlierDate(y1: int, m1: int, d1: int, y2: int, m2: int, d2: int) {
    y1 < y2 || (y1 == y2 && (m1 < m2 || (m1 == m2 && d1 < d2)))
  }

  lemma {:induction false} MonthsOrdered(year: int, m1: int, m2: int)
    requires 1 <= m1 < m2 <= 12
    ensures DaysBeforeMonth(year, m1) + MonthLength(year, m1) <= DaysBeforeMonth(year, m2)
    decreases m2 - m1
  {
    if m1 + 1 < m2 { MonthsOrdered(year, m1, m2 - 1); }
  }

  lemma YearOfMonths(year: int)
    ensures DaysBeforeMonth(year, 12) + 31 == YearLength(year)
  {
    MonthTable(year);
  }

  lemma {:induction false} YearsOrdered(y1: int, y2: int)
    requires y1 < y2
    ensures DaysBeforeYear(y1) + YearLength(y1) <= DaysBeforeYear(y2)
    decreases y2 - y1
  {
    if y1 + 1 < y2 { YearsOrdered(y1, y2 - 1); }
  }

  lemma WithinYear(year: int, month: int, day: int)
    requires ValidDate(year, month, day)
    ensures DaysBeforeYear(year) <= NaiveDays(year, month, day) < DaysBeforeYear(year) + YearLength(year)
  {
    YearOfMonths(year);
    if month > 1 { MonthsOrdered(year, 1, month); }
    if month < 12 { MonthsOrdered(year, month, 12); }
  }

  lemma DatesOrdered(y1: int, m1: int, d1: int, y2: int, m2: int, d2: int)
    requires ValidDate(y1, m1, d1) && ValidDate(y2, m2, d2)
    requires EarlierDate(y1, m1, d1, y2, m2, d2)
    ensures DaysFromCivil(y1, m1, d1) < DaysFromCivil(y2, m2, d2)
  {
    DaysFromCivilCounts(y1, m1, d1);
    DaysFromCivilCounts(y2, m2, d2);
    if y1 < y2 {
      WithinYear(y1, m1, d1);
      WithinYear(y2, m2, d2);
      YearsOrdered(y1, y2);
    } else if m1 < m2 {
      MonthsOrdered(y1, m1, m2);
    }
  }

  predicate ValidClock(hour: int, minute: int) {
    0 <= hour < 24 && 0 <= minute < 60
  }

  /** Minutes since the epoch, counted by the calendar and the 24-hour clock. */
  function NaiveMinutes(year: int, month: int, day: int, hour: int, minute: int): int
    requires ValidDate(year, month, day)
  {
    (NaiveDays(year, month, day) * 24 + hour) * 60 + minute
  }

  /** The timestamp is the count of minutes since the epoch, in milliseconds. */
  lemma TimestampCounts(year: int, month: int, day: int, hour: int, minute: int)
    requires ValidDate(year, month, day)
    ensures Timestamp(year, month, day, hour, minute) == 60_000 * NaiveMinutes(year, month, day, hour, minute)
  {
    DaysFromCivilCounts(year, month, day);
    hide NaiveDays, DaysFromCivil;
  }

  /** The timestamp is strictly monotone in the date, then the 24-hour time. */
  lemma TimestampIsMonotone(y1: int, m1: int, d1: int, h1: int, n1: int,
                            y2: int, m2: int, d2: int, h2: int, n2: int)
    requires ValidDate(y1, m1, d1) && ValidDate(y2, m2, d2)
    requires ValidClock(h1, n1) && ValidClock(h2, n2)
    ensures Timestamp(y1, m1, d1, h1, n1) < Timestamp(y2, m2, d2, h2, n2) <==>
      EarlierDate(y1, m1, d1, y2, m2, d2) ||
      ((y1, m1, d1) == (y2, m2, d2) && (h1 < h2 || (h1 == h2 && n1 < n2)))
  {
    if EarlierDate(y1, m1, d1, y2, m2, d2) {
      DatesOrdered(y1, m1, d1, y2, m2, d2);
    } else if EarlierDate(y2, m2, d2, y1, m1, d1) {
      DatesOrdered(y2, m2, d2, y1, m1, d1);
    }
  }

  /** The twelve-hour clock: every half-day hour lands in its own hour of the day. */
  lemma TwelveHourClock(hour: int, meridiem: Meridiem)
    requires 1 <= hour <= 12 && meridiem != Neither
    ensures 0 <= HourOf(hour, meridiem) < 24
    ensures HourOf(hour, meridiem) % 12 == hour % 12
    ensures meridiem == Am <==> HourOf(hour, meridiem) < 12
    ensures forall h, m :: 1 <= h <= 12 && m != Neither && HourOf(h, m) == HourOf(hour, meridiem) ==>
      h == hour && m == meridiem
  {
  }
}
