/** java.time.LocalDate, as far as the date filters use it: a day of the
    proleptic Gregorian calendar and its epoch day (days since 1970-01-01).
    A LocalDateTime at the start of a day is represented by that epoch day. */
module Calendar {

  datatype LocalDate = LocalDate(year: int, month: int, day: int)

  predicate IsLeapYear(y: int)
  {
    y % 4 == 0 && (y % 100 != 0 || y % 400 == 0)
  }

  function LengthOfMonth(y: int, m: int): int
  {
    if m == 2 then (if IsLeapYear(y) then 29 else 28)
    else if m == 4 || m == 6 || m == 9 || m == 11 then 30
    else 31
  }

  predicate ValidDate(d: LocalDate)
  {
    1 <= d.month <= 12 && 1 <= d.day <= LengthOfMonth(d.year, d.month)
  }

  /** The epoch day of the first of month `m` of year `y`, computed with
      eras of 400 years starting in March (so that the leap day is the last
      day of its year). */
  function MonthStart(y: int, m: int): int
  {
    var yy := if m <= 2 then y - 1 else y;
    var mp := if m > 2 then m - 3 else m + 9;
    YearStart(yy) + (153 * mp + 2) / 5
  }

  /** The epoch day of 1 March of year `y`. */
  function YearStart(y: int): int
  {
    var era := y / 400;
    var yoe := y % 400;
    era * 146097 + yoe * 365 + yoe / 4 - yoe / 100 - 719468
  }

  /** `toEpochDay`: the days of a month are consecutive epoch days, starting
      at the month's first. */
  function EpochDay(d: LocalDate): (r: int)
    ensures ValidDate(d) ==> MonthStart(d.year, d.month) <= r < MonthStart(d.year, d.month) + LengthOfMonth(d.year, d.month)
  {
    MonthStart(d.year, d.month) + d.day - 1
  }

  /** `dayOfWeek.value`: 1 for Monday up to 7 for Sunday. */
  function DayOfWeek(epochDay: int): (r: int)
    ensures 1 <= r <= 7
  {
    (epochDay + 3) % 7 + 1
  }

  /** 1970-01-01, epoch day 0, was a Thursday. */
  lemma EpochIsThursday()
    ensures EpochDay(LocalDate(1970, 1, 1)) == 0 && DayOfWeek(0) == 4
  {
    assert 1969 == 400 * 4 + 369;
    assert 1532 == 5 * 306 + 2;
    assert 369 == 4 * 92 + 1 && 369 == 100 * 3 + 69;
  }

  /** 2024-01-01 was a Monday, and 2024 had a 29 February. */
  lemma NewYear2024IsMonday()
    ensures EpochDay(LocalDate(2024, 1, 1)) == 19723 && DayOfWeek(19723) == 1
    ensures EpochDay(LocalDate(2024, 3, 1)) - EpochDay(LocalDate(2024, 2, 28)) == 2
  {
    NewYear2024();
    LeapDay2024();
    assert 19726 == 7 * 2818;
  }

  lemma NewYear2024()
    ensures EpochDay(LocalDate(2024, 1, 1)) == 19723
  {
    assert 2023 / 400 == 5 && 2023 % 400 == 23;
    assert 23 / 4 == 5 && 23 / 100 == 0;
    assert (153 * 10 + 2) / 5 == 306;
  }

  lemma LeapDay2024()
    ensures EpochDay(LocalDate(2024, 2, 28)) == 19781
    ensures EpochDay(LocalDate(2024, 3, 1)) == 19783
  {
    assert 2023 / 400 == 5 && 2023 % 400 == 23;
    assert 2024 / 400 == 5 && 2024 % 400 == 24;
    assert 23 / 4 == 5 && 23 / 100 == 0;
    assert 24 / 4 == 6 && 24 / 100 == 0;
    assert (153 * 11 + 2) / 5 == 337;
    assert (153 * 0 + 2) / 5 == 0;
  }

  /** Days of one month are consecutive epoch days: day d is d - 1 days
      after `withDayOfMonth(1)`. */
  lemma EpochDayInMonth(d: LocalDate)
    ensures EpochDay(d) == EpochDay(d.(day := 1)) + d.day - 1
  {
  }

  /** `plusDays(1)`. */
  function NextDay(d: LocalDate): LocalDate
  {
    if d.day < LengthOfMonth(d.year, d.month) then d.(day := d.day + 1)
    else if d.month < 12 then LocalDate(d.year, d.month + 1, 1)
    else LocalDate(d.year + 1, 1, 1)
  }

  /** A March-year is 366 days long exactly when the February it ends with
      has a 29th. */
  lemma YearLength(y: int)
    ensures YearStart(y) - YearStart(y - 1) == if IsLeapYear(y) then 366 else 365
  {
    var z := y - 1;
    var q, r := z / 400, z % 400;
    if r == 399 {
      DivMod(y, 400, q + 1, 0);
      DivMod(y, 4, 100 * (q + 1), 0);
      DivMod(y, 100, 4 * (q + 1), 0);
      assert 399 / 4 == 99 && 399 / 100 == 3;
    } else {
      DivMod(y, 400, q, r + 1);
      SmallStep(r);
      DivMod(y, 4, 100 * q + (r + 1) / 4, (r + 1) % 4);
      DivMod(y, 100, 4 * q + (r + 1) / 100, (r + 1) % 100);
    }
  }

  lemma DivMod(y: int, n: int, q: int, r: int)
    requires n > 0 && 0 <= r < n && y == n * q + r
    ensures y / n == q && y % n == r
  {
    var k := q - y / n;
    assert n * q == n * (y / n) + n * k;
    assert y % n - r == n * k;
    if k >= 1 {
      MulAtLeast(n, k);
    } else if k <= -1 {
      MulAtLeast(n, -k);
    }
  }

  lemma MulAtLeast(n: int, k: int)
    requires n > 0 && k >= 1
    ensures n * k >= n
  {
    assert n * k == n + n * (k - 1);
  }

  lemma SmallStep(r: int)
    requires 0 <= r < 399
    ensures (r + 1) / 4 - r / 4 == if (r + 1) % 4 == 0 then 1 else 0
    ensures (r + 1) / 100 - r / 100 == if (r + 1) % 100 == 0 then 1 else 0
  {
  }

  /** Months tile the epoch days: the next month starts as many days after
      this one as this one is long, leap Februaries included. */
  lemma MonthStartNext(y: int, m: int)
    requires 1 <= m <= 12
    ensures m < 12 ==> MonthStart(y, m + 1) == MonthStart(y, m) + LengthOfMonth(y, m)
    ensures m == 12 ==> MonthStart(y + 1, 1) == MonthStart(y, 12) + 31
  {
    if m == 2 {
      YearLength(y);
      assert (153 * 11 + 2) / 5 == 337 && (153 * 0 + 2) / 5 == 0;
    } else if m == 1 {
      assert (153 * 10 + 2) / 5 == 306 && (153 * 11 + 2) / 5 == 337;
    } else if m == 12 {
      assert (153 * 9 + 2) / 5 == 275 && (153 * 10 + 2) / 5 == 306;
    } else {
      MonthLengths(m);
    }
  }

  lemma MonthLengths(m: int)
    requires 3 <= m <= 11
    ensures (153 * (m - 2) + 2) / 5 - (153 * (m - 3) + 2) / 5 == LengthOfMonth(0, m)
  {
    if m == 3 { assert (153 * 1 + 2) / 5 == 31; }
    else if m == 4 { assert (153 * 2 + 2) / 5 == 61 && (153 * 1 + 2) / 5 == 31; }
    else if m == 5 { assert (153 * 3 + 2) / 5 == 92 && (153 * 2 + 2) / 5 == 61; }
    else if m == 6 { assert (153 * 4 + 2) / 5 == 122 && (153 * 3 + 2) / 5 == 92; }
    else if m == 7 { assert (153 * 5 + 2) / 5 == 153 && (153 * 4 + 2) / 5 == 122; }
    else if m == 8 { assert (153 * 6 + 2) / 5 == 184 && (153 * 5 + 2) / 5 == 153; }
    else if m == 9 { assert (153 * 7 + 2) / 5 == 214 && (153 * 6 + 2) / 5 == 184; }
    else if m == 10 { assert (153 * 8 + 2) / 5 == 245 && (153 * 7 + 2) / 5 == 214; }
    else { assert (153 * 9 + 2) / 5 == 275 && (153 * 8 + 2) / 5 == 245; }
  }

  /** `plusDays(1)` on a valid date is a valid date one epoch day later,
      across month and year ends and leap days: the date filters may add
      and subtract days as epoch days. */
  lemma EpochDayNext(d: LocalDate)
    requires ValidDate(d)
    ensures ValidDate(NextDay(d))
    ensures EpochDay(NextDay(d)) == EpochDay(d) + 1
  {
    if d.day == LengthOfMonth(d.year, d.month) {
      MonthStartNext(d.year, d.month);
    }
  }

  /** `minusDays(dayOfWeek - 1)` lands on a Monday. */
  lemma MondayOfWeek(e: int)
    ensures DayOfWeek(e - (DayOfWeek(e) - 1)) == 1
  {
    var k := (e + 3) / 7;
    assert e + 3 == 7 * k + (e + 3) % 7;
    assert e - (DayOfWeek(e) - 1) + 3 == 7 * k;
  }
}
