/**
 The UTC date of the environment block: seconds since the epoch to year, month and day.

 The specification counts days the slow way, year by year and month by month, in the
 proleptic Gregorian calendar.  The algorithm shifts the year to start in March and divides.
 Machine integers are explicit: the algorithm yields nothing when a value leaves `i32`.
 */
module CivilDate {
  import opened Options

  const SECONDS_PER_DAY: int := 86_400
  const I32_MIN: int := -0x8000_0000
  const I32_MAX: int := 0x7fff_ffff

  // ---------------------------------------------------------------- the calendar

  predicate IsLeap(year: int) {
    year % 4 == 0 && (year % 100 != 0 || year % 400 == 0)
  }

  function YearLength(year: int): nat {
    if IsLeap(year) then 366 else 365
  }

  function MonthLength(year: int, month: nat): nat
    requires 1 <= month <= 12
  {
    if month == 2 then (if IsLeap(year) then 29 else 28)
    else if month == 4 || month == 6 || month == 9 || month == 11 then 30
    else 31
  }

  /** Days from 1970-01-01 to the first of January of `year`, counted one year at a time. */
  function DaysToYear(year: int): int
    decreases if year < 1970 then 1970 - year else year - 1970
  {
    if year == 1970 then 0
    else if year > 1970 then DaysToYear(year - 1) + YearLength(year - 1)
    else DaysToYear(year + 1) - YearLength(year)
  }

  /** Days from the first of January to the first of `month`, counted one month at a time. */
  function DaysToMonth(year: int, month: nat): nat
    requires 1 <= month <= 12
  {
    if month == 1 then 0 else DaysToMonth(year, month - 1) + MonthLength(year, month - 1)
  }

  datatype Date = Date(year: int, month: nat, day: nat) {
    predicate Valid() {
      1 <= month <= 12 && 1 <= day <= MonthLength(year, month)
    }

    /** Days from 1970-01-01 to this date. */
    function DayNumber(): int
      requires Valid()
    {
      DaysToYear(year) + DaysToMonth(year, month) + day - 1
    }

    /** The next day of the calendar. */
    function Successor(): (next: Date)
      requires Valid()
      ensures next.Valid()
    {
      if day < MonthLength(year, month) then Date(year, month, day + 1)
      else if month < 12 then Date(year, month + 1, 1)
      else Date(year + 1, 1, 1)
    }
  }

  // ---------------------------------------------------------------- the algorithm

  /** Division that truncates toward zero, as the machine divides. */
  function TruncDiv(n: int, d: int): int
    requires d > 0
  {
    if n >= 0 then n / d else -((-n) / d)
  }

  predicate FitsI32(n: int) {
    I32_MIN <= n <= I32_MAX
  }

  /** The era of 400 years that shifted day number `z` falls into. */
  function Era(z: int): int {
    TruncDiv(if z >= 0 then z else z - 146_096, 146_097)
  }

  function YearOfEra(doe: int): int {
    (doe - doe / 1460 + doe / 36_524 - doe / 146_096) / 365
  }

  function DayOfYear(doe: int, yoe: int): int {
    doe - (365 * yoe + yoe / 4 - yoe / 100)
  }

  /** The month and day of a year that starts in March. */
  function MonthFromMarch(mp: int): int {
    if mp < 10 then mp + 3 else mp - 9
  }

  function MarchMonth(doy: int): int {
    (5 * doy + 2) / 153
  }

  /** Days from the first of March to the first of the month `mp` months later. */
  function MarchDays(mp: int): int {
    (153 * mp + 2) / 5
  }

  /** Era, year of the era and day of the March year to a date; the year arithmetic is done in `i32`. */
  function Assemble(era: int, yoe: int, doy: int): Option<Date>
    requires 0 <= doy <= 365
  {
    var mp := MarchMonth(doy);
    MonthRanges(doy);
    var d := doy - MarchDays(mp) + 1;
    var m := MonthFromMarch(mp);
    var y := yoe + era * 400;
    var year := if m <= 2 then y + 1 else y;
    if FitsI32(era * 400) && FitsI32(y) && FitsI32(year) then Some(Date(year, m, d)) else None
  }

  function DateInEra(era: int, doe: int): Option<Date>
    requires 0 <= doe < 146_097
  {
    var yoe := YearOfEra(doe);
    EraRanges(doe);
    Assemble(era, yoe, DayOfYear(doe, yoe))
  }

  /**
   Seconds since the epoch to `(year, month, day)`; nothing when one of the three values of
   the `i32` year arithmetic does not fit.
   */
  function EpochSecondsToYmd(secs: int): Option<Date> {
    var z := secs / SECONDS_PER_DAY + 719_468;
    var era := Era(z);
    EraIsFloor(z);
    DateInEra(era, z - era * 146_097)
  }

  /** The guarded truncating division rounds down, so the day of the era is never negative. */
  lemma {:induction false} EraIsFloor(z: int)
    ensures 0 <= z - Era(z) * 146_097 < 146_097
  {
  }

  lemma {:induction false} Multiplies(d: int, a: int, b: int)
    requires d > 0 && a <= b
    ensures d * a <= d * b
  {
  }

  lemma {:induction false} QuotientIs(n: int, d: int, q: int)
    requires d > 0 && d * q <= n < d * (q + 1)
    ensures n / d == q
  {
    var k := n / d;
    if k < q {
      Multiplies(d, k + 1, q);
      assert false;
    } else if q < k {
      Multiplies(d, q + 1, k);
      assert false;
    }
  }

  /** Centuries, four-year cycles, years and days of a day of the era. */
  ghost predicate Splits(doe: int, c: int, q: int, t: int, u: int) {
    && doe == 36_524 * c + 1461 * q + 365 * t + u
    && 0 <= c <= 3 && 0 <= q <= 24 && 0 <= t <= 3 && 0 <= u <= 365
    && (u == 365 ==> t == 3 && (q == 24 ==> c == 3))
  }

  lemma {:induction false} EraSplits(doe: int) returns (c: int, q: int, t: int, u: int)
    requires 0 <= doe < 146_097
    ensures Splits(doe, c, q, t, u)
  {
    c := if doe < 146_096 then doe / 36_524 else 3;
    var r := doe - 36_524 * c;
    q := r / 1461;
    var s := r - 1461 * q;
    t := if s < 1460 then s / 365 else 3;
    u := s - 365 * t;
  }

  lemma {:induction false} YearOfSplit(doe: int, c: int, q: int, t: int, u: int)
    requires Splits(doe, c, q, t, u)
    ensures YearOfEra(doe) == 100 * c + 4 * q + t
  {
    var w := 24 * c + q + 365 * t + u;
    QuotientIs(doe, 1460, 25 * c + q + if w < 1460 then 0 else 1);
    QuotientIs(doe, 36_524, if doe < 146_096 then c else 4);
    QuotientIs(doe, 146_096, if doe < 146_096 then 0 else 1);
    QuotientIs(doe - doe / 1460 + doe / 36_524 - doe / 146_096, 365, 100 * c + 4 * q + t);
  }

  lemma {:induction false} DayOfSplit(doe: int, c: int, q: int, t: int, u: int)
    requires Splits(doe, c, q, t, u)
    ensures DayOfYear(doe, 100 * c + 4 * q + t) == u
    ensures (100 * c + 4 * q + t) / 4 == 25 * c + q && (100 * c + 4 * q + t) / 100 == c
  {
    var yoe := 100 * c + 4 * q + t;
    QuotientIs(yoe, 4, 25 * c + q);
    QuotientIs(yoe, 100, c);
  }

  lemma {:induction false} QuotientBounds(n: int, d: int)
    requires n >= 0 && d > 0
    ensures 0 <= n / d && d * (n / d) <= n
  {
    assert n == d * (n / d) + n % d;
    if n / d < 0 {
      Multiplies(d, n / d, -1);
    }
  }

  lemma {:induction false} EraDividendsFit(doe: int)
    requires 0 <= doe < 146_097
    ensures doe / 1460 <= doe && doe / 146_096 <= doe - doe / 1460 + doe / 36_524
  {
    QuotientBounds(doe, 1460);
    QuotientBounds(doe, 36_524);
    QuotientIs(doe, 146_096, if doe < 146_096 then 0 else 1);
  }

  lemma {:induction false} RangesOfSplit(doe: int, c: int, q: int, t: int, u: int, yoe: int)
    requires Splits(doe, c, q, t, u) && yoe == 100 * c + 4 * q + t
    ensures 0 <= yoe <= 399 && 0 <= DayOfYear(doe, yoe) <= 365
    ensures 0 <= 365 * yoe + yoe / 4 - yoe / 100 <= doe && yoe / 100 <= 365 * yoe + yoe / 4
  {
    DayOfSplit(doe, c, q, t, u);
  }

  /**
   The ranges the code comments promise: the year of the era is in 0..399, the day of the
   year in 0..365, and no unsigned subtraction goes below zero on the way.
   */
  lemma {:induction false} EraRanges(doe: int)
    requires 0 <= doe < 146_097
    ensures var yoe := YearOfEra(doe);
            && 0 <= yoe <= 399 && 0 <= DayOfYear(doe, yoe) <= 365
            && doe / 1460 <= doe && doe / 146_096 <= doe - doe / 1460 + doe / 36_524
            && 0 <= 365 * yoe + yoe / 4 - yoe / 100 <= doe && yoe / 100 <= 365 * yoe + yoe / 4
  {
    EraDividendsFit(doe);
    var c, q, t, u := EraSplits(doe);
    YearOfSplit(doe, c, q, t, u);
    RangesOfSplit(doe, c, q, t, u, YearOfEra(doe));
  }

  lemma {:induction false} MonthRanges(doy: int)
    requires 0 <= doy <= 365
    ensures var mp := MarchMonth(doy);
            0 <= mp <= 11 && MarchDays(mp) <= doy && doy - MarchDays(mp) + 1 <= 31
            && 1 <= MonthFromMarch(mp) <= 12
  {
  }

  // ---------------------------------------------------------------- closed forms of the count

  /** Leap days before year `year`, up to a constant. */
  function LeapsBefore(year: int): int {
    (year - 1) / 4 - (year - 1) / 100 + (year - 1) / 400
  }

  lemma {:induction false} DivisionStep(n: int, d: int)
    requires d > 0
    ensures n / d - (n - 1) / d == if n % d == 0 then 1 else 0
  {
    var q, r := n / d, n % d;
    assert n == d * q + r;
    if r == 0 {
      assert d * (q - 1) == d * q - d;
      QuotientIs(n - 1, d, q - 1);
    } else {
      assert d * (q + 1) == d * q + d;
      QuotientIs(n - 1, d, q);
    }
  }

  lemma {:induction false} MultiplesNest(year: int)
    ensures year % 400 == 0 ==> year % 100 == 0
    ensures year % 100 == 0 ==> year % 4 == 0
  {
  }

  lemma {:induction false} LeapStep(year: int)
    ensures LeapsBefore(year + 1) - LeapsBefore(year) == if IsLeap(year) then 1 else 0
  {
    DivisionStep(year, 4);
    DivisionStep(year, 100);
    DivisionStep(year, 400);
    MultiplesNest(year);
  }

  lemma {:induction false} DaysToYearClosed(year: int)
    ensures DaysToYear(year) == 365 * (year - 1970) + LeapsBefore(year) - LeapsBefore(1970)
    decreases if year < 1970 then 1970 - year else year - 1970
  {
    if year > 1970 {
      DaysToYearClosed(year - 1);
      LeapStep(year - 1);
    } else if year < 1970 {
      DaysToYearClosed(year + 1);
      LeapStep(year);
    }
  }

  lemma {:induction false} DaysToMonthClosed(year: int, month: nat)
    requires 1 <= month <= 12
    ensures DaysToMonth(year, month) ==
              if month <= 2 then MarchDays(month + 9) - 306
              else MarchDays(month - 3) + 59 + (if IsLeap(year) then 1 else 0)
  {
    var leap := if IsLeap(year) then 1 else 0;
    assert DaysToMonth(year, 1) == 0;
    assert DaysToMonth(year, 2) == 31;
    assert DaysToMonth(year, 3) == 59 + leap;
    assert DaysToMonth(year, 4) == 90 + leap;
    assert DaysToMonth(year, 5) == 120 + leap;
    assert DaysToMonth(year, 6) == 151 + leap;
    assert DaysToMonth(year, 7) == 181 + leap;
    assert DaysToMonth(year, 8) == 212 + leap;
    assert DaysToMonth(year, 9) == 243 + leap;
    assert DaysToMonth(year, 10) == 273 + leap;
    assert DaysToMonth(year, 11) == 304 + leap;
    assert DaysToMonth(year, 12) == 334 + leap;
  }

  /** Days from 0000-03-01 to the first of March of year `y`. */
  function MarchYearStart(y: int): int {
    365 * y + LeapsBefore(y + 1)
  }

  /** The first of January lies 306 days after one first of March, and 59 or 60 days before the next. */
  lemma {:induction false} YearFromMarch(year: int)
    ensures DaysToYear(year) + 719_468 == MarchYearStart(year - 1) + 306
    ensures DaysToYear(year) + 719_468 + 59 + (if IsLeap(year) then 1 else 0) == MarchYearStart(year)
  {
    DaysToYearClosed(year);
    LeapStep(year);
    assert LeapsBefore(1970) == 477;
  }

  /** A date's day number, counted from 0000-03-01 with years that start in March. */
  lemma {:induction false} DayNumberFromMarch(date: Date)
    requires date.Valid()
    ensures var y := if date.month <= 2 then date.year - 1 else date.year;
            var mp := if date.month <= 2 then date.month + 9 else date.month - 3;
            date.DayNumber() + 719_468 == MarchYearStart(y) + MarchDays(mp) + date.day - 1
  {
    YearFromMarch(date.year);
    DaysToMonthClosed(date.year, date.month);
  }

  // ---------------------------------------------------------------- the count has one date per day

  lemma {:induction false} MonthsAddUp(year: int, m: nat, n: nat)
    requires 1 <= m < n <= 12
    ensures DaysToMonth(year, m) + MonthLength(year, m) <= DaysToMonth(year, n)
    decreases n
  {
    if m < n - 1 {
      MonthsAddUp(year, m, n - 1);
    }
  }

  lemma {:induction false} YearAddsUp(year: int)
    ensures DaysToYear(year + 1) == DaysToYear(year) + YearLength(year)
    ensures DaysToMonth(year, 12) + 31 == YearLength(year)
  {
    DaysToYearClosed(year);
    DaysToYearClosed(year + 1);
    LeapStep(year);
    DaysToMonthClosed(year, 12);
  }

  lemma {:induction false} YearsAddUp(a: int, b: int)
    requires a < b
    ensures DaysToYear(a) + YearLength(a) <= DaysToYear(b)
    decreases b - a
  {
    YearAddsUp(a);
    if a + 1 < b {
      YearsAddUp(a + 1, b);
    }
  }

  lemma {:induction false} DayWithinYear(date: Date)
    requires date.Valid()
    ensures DaysToYear(date.year) <= date.DayNumber() < DaysToYear(date.year) + YearLength(date.year)
  {
    YearAddsUp(date.year);
    if date.month < 12 {
      MonthsAddUp(date.year, date.month, 12);
    }
  }

  /** Different dates have different day numbers. */
  lemma {:induction false} DayNumberInjective(a: Date, b: Date)
    requires a.Valid() && b.Valid() && a.DayNumber() == b.DayNumber()
    ensures a == b
  {
    DayWithinYear(a);
    DayWithinYear(b);
    if a.year < b.year {
      YearsAddUp(a.year, b.year);
    } else if b.year < a.year {
      YearsAddUp(b.year, a.year);
    } else if a.month < b.month {
      MonthsAddUp(a.year, a.month, b.month);
    } else if b.month < a.month {
      MonthsAddUp(a.year, b.month, a.month);
    }
  }

  /** The successor is the date of the next day number. */
  lemma {:induction false} SuccessorIsNextDay(date: Date)
    requires date.Valid()
    ensures date.Successor().DayNumber() == date.DayNumber() + 1
  {
    YearAddsUp(date.year);
  }

  // ---------------------------------------------------------------- the algorithm is the inverse of the count

  /** Days from 0000-03-01 to the first of March of a year given by era and year of the era. */
  lemma {:induction false} MarchYearOfEra(era: int, yoe: int)
    requires 0 <= yoe <= 399
    ensures MarchYearStart(yoe + era * 400) == 146_097 * era + 365 * yoe + yoe / 4 - yoe / 100
  {
    var y := yoe + era * 400;
    QuotientIs(y, 4, 100 * era + yoe / 4);
    QuotientIs(y, 100, 4 * era + yoe / 100);
    QuotientIs(y, 400, era);
  }

  /** The day after the last one of a month belongs to the next month; only a leap year has a day 365. */
  lemma {:induction false} DayFitsMonth(y: int, doy: int)
    requires 0 <= doy <= 365 && (doy == 365 ==> IsLeap(y + 1))
    ensures var mp := MarchMonth(doy);
            var m := MonthFromMarch(mp);
            doy - MarchDays(mp) + 1 <= MonthLength(if m <= 2 then y + 1 else y, m)
  {
    MonthRanges(doy);
  }

  lemma {:induction false} RemainderIs(n: int, d: int, q: int, r: int)
    requires 0 <= r < d && n == d * q + r
    ensures n % d == r
  {
    Multiplies(d, q, q + 1);
    QuotientIs(n, d, q);
  }

  lemma {:induction false} LastDayIsLeap(era: int, c: int, q: int, t: int, u: int, doe: int)
    requires Splits(doe, c, q, t, u) && u == 365
    ensures IsLeap(100 * c + 4 * q + t + era * 400 + 1)
  {
    var year := 100 * c + 4 * q + 4 + era * 400;
    RemainderIs(year, 4, 25 * c + q + 1 + era * 100, 0);
    if q < 24 {
      RemainderIs(year, 100, c + 4 * era, 4 * (q + 1));
    } else {
      RemainderIs(year, 400, era + 1, 0);
    }
  }

  /** Day number, counted from 0000-03-01, of a day given by era, year and day of the March year. */
  function MarchDayNumber(era: int, yoe: int, doy: int): int {
    146_097 * era + 365 * yoe + yoe / 4 - yoe / 100 + doy
  }

  /** Naming the intermediate values of the computation inside an era. */
  lemma {:induction false} DateOfParts(era: int, doe: int, yoe: int, doy: int)
    requires 0 <= doe < 146_097 && 0 <= doy <= 365
    requires YearOfEra(doe) == yoe && DayOfYear(doe, yoe) == doy
    ensures DateInEra(era, doe) == Assemble(era, yoe, doy)
  {
  }

  lemma {:induction false} NumberOfParts(era: int, doe: int, yoe: int, doy: int)
    requires DayOfYear(doe, yoe) == doy
    ensures MarchDayNumber(era, yoe, doy) == 146_097 * era + doe
  {
  }

  lemma {:induction false} LeapOfParts(era: int, doe: int) returns (yoe: int, doy: int)
    requires 0 <= doe < 146_097
    ensures YearOfEra(doe) == yoe && DayOfYear(doe, yoe) == doy
    ensures 0 <= yoe <= 399 && 0 <= doy <= 365 && (doy == 365 ==> IsLeap(yoe + era * 400 + 1))
  {
    var c, q, t, u := EraSplits(doe);
    yoe, doy := 100 * c + 4 * q + t, u;
    YearOfSplit(doe, c, q, t, u);
    DayOfSplit(doe, c, q, t, u);
    if u == 365 {
      LastDayIsLeap(era, c, q, t, u, doe);
    }
  }

  /** What the divisions inside an era amount to. */
  lemma {:induction false} DismantleEra(era: int, doe: int) returns (yoe: int, doy: int)
    requires 0 <= doe < 146_097
    ensures 0 <= yoe <= 399 && 0 <= doy <= 365 && (doy == 365 ==> IsLeap(yoe + era * 400 + 1))
    ensures MarchDayNumber(era, yoe, doy) == 146_097 * era + doe
    ensures DateInEra(era, doe) == Assemble(era, yoe, doy)
  {
    yoe, doy := LeapOfParts(era, doe);
    DateOfParts(era, doe, yoe, doy);
    NumberOfParts(era, doe, yoe, doy);
  }

  /** What the divisions of the whole computation amount to. */
  lemma {:induction false} Dismantle(secs: int) returns (era: int, yoe: int, doy: int)
    ensures 0 <= yoe <= 399 && 0 <= doy <= 365 && (doy == 365 ==> IsLeap(yoe + era * 400 + 1))
    ensures MarchDayNumber(era, yoe, doy) == secs / SECONDS_PER_DAY + 719_468
    ensures EpochSecondsToYmd(secs) == Assemble(era, yoe, doy)
  {
    var z := secs / SECONDS_PER_DAY + 719_468;
    era := Era(z);
    EraIsFloor(z);
    yoe, doy := DismantleEra(era, z - era * 146_097);
  }

  lemma {:induction false} AssembleCounts(era: int, yoe: int, doy: int)
    requires 0 <= yoe <= 399 && 0 <= doy <= 365 && (doy == 365 ==> IsLeap(yoe + era * 400 + 1))
    ensures match Assemble(era, yoe, doy)
            case Some(date) => date.Valid() && date.DayNumber() + 719_468 == MarchDayNumber(era, yoe, doy)
            case None => true
  {
    MonthRanges(doy);
    DayFitsMonth(yoe + era * 400, doy);
    MarchYearOfEra(era, yoe);
    match Assemble(era, yoe, doy)
    case Some(date) => DayNumberFromMarch(date);
    case None =>
  }

  /** A result is a calendar date, and counting days to it gives the day number of the input. */
  lemma {:induction false} YmdCountsBack(secs: int)
    ensures match EpochSecondsToYmd(secs)
            case Some(date) => date.Valid() && date.DayNumber() == secs / SECONDS_PER_DAY
            case None => true
  {
    var era, yoe, doy := Dismantle(secs);
    AssembleCounts(era, yoe, doy);
  }

  /** The first and the last date whose year arithmetic fits `i32`. */
  const FIRST_DATE := Date(-2_147_483_600, 3, 1)
  const LAST_DATE := Date(I32_MAX, 12, 31)

  /** Their day numbers, which a caller can compare against. */
  const FIRST_DAY: int := 146_097 * -5_368_709 - 719_468
  const LAST_DAY: int := 146_097 * 5_368_709 + 365 * 47 + 11 + 305 - 719_468

  lemma {:induction false} LimitsAreDates()
    ensures FIRST_DATE.Valid() && FIRST_DATE.DayNumber() == FIRST_DAY
    ensures LAST_DATE.Valid() && LAST_DATE.DayNumber() == LAST_DAY
  {
    DayNumberFromMarch(FIRST_DATE);
    MarchYearOfEra(-5_368_709, 0);
    DayNumberFromMarch(LAST_DATE);
    MarchYearOfEra(5_368_709, 47);
  }

  lemma {:induction false} AssembleDefinedIff(era: int, yoe: int, doy: int)
    requires 0 <= yoe <= 399 && 0 <= doy <= 365
    ensures Assemble(era, yoe, doy).Some? <==> FIRST_DAY + 719_468 <= MarchDayNumber(era, yoe, doy) <= LAST_DAY + 719_468
  {
    var doe := 365 * yoe + yoe / 4 - yoe / 100 + doy;
    DayOfEraRange(yoe, doy);
    LastYear(yoe, doy);
    assert MarchDayNumber(era, yoe, doy) == 146_097 * era + doe;
    if era < -5_368_709 || 5_368_709 < era {
      assert Assemble(era, yoe, doy).None?;
    } else if era < 5_368_709 {
      assert Assemble(era, yoe, doy).Some?;
    } else {
      assert Assemble(era, yoe, doy).Some? <==> yoe < 47 || (yoe == 47 && MonthFromMarch(MarchMonth(doy)) > 2);
    }
  }

  lemma {:induction false} DayOfEraRange(yoe: int, doy: int)
    requires 0 <= yoe <= 399 && 0 <= doy <= 365
    ensures 0 <= 365 * yoe + yoe / 4 - yoe / 100 + doy < 146_097
  {
  }

  /** Within the last era, the year fits as long as the day is not after 31 December of year 47 of the era. */
  lemma {:induction false} LastYear(yoe: int, doy: int)
    requires 0 <= yoe <= 399 && 0 <= doy <= 365
    ensures 365 * yoe + yoe / 4 - yoe / 100 + doy <= 365 * 47 + 11 + 305
            <==> yoe < 47 || (yoe == 47 && MonthFromMarch(MarchMonth(doy)) > 2)
  {
  }

  /** The algorithm yields a date exactly from 1 March -2147483600 to 31 December 2147483647. */
  lemma {:induction false} YmdDefinedIff(secs: int)
    ensures EpochSecondsToYmd(secs).Some? <==> FIRST_DAY <= secs / SECONDS_PER_DAY <= LAST_DAY
  {
    var era, yoe, doy := Dismantle(secs);
    AssembleDefinedIff(era, yoe, doy);
  }

  lemma {:induction false} YmdAtDay(secs: int, n: int) returns (date: Date)
    requires secs / SECONDS_PER_DAY == n && FIRST_DAY <= n <= LAST_DAY
    ensures EpochSecondsToYmd(secs) == Some(date) && date.Valid() && date.DayNumber() == n
  {
    YmdDefinedIff(secs);
    YmdCountsBack(secs);
    date := EpochSecondsToYmd(secs).value;
  }

  lemma {:induction false} YmdOnDay(date: Date, secs: int)
    requires date.Valid() && secs / SECONDS_PER_DAY == date.DayNumber() && FIRST_DAY <= date.DayNumber() <= LAST_DAY
    ensures EpochSecondsToYmd(secs) == Some(date)
  {
    var computed := YmdAtDay(secs, date.DayNumber());
    DayNumberInjective(date, computed);
  }

  /**
   The algorithm is the exact inverse of counting days: every calendar date between the limits
   is what it yields for every second of that day.
   */
  lemma {:induction false} YmdInvertsCount(date: Date, second: int)
    requires date.Valid() && FIRST_DAY <= date.DayNumber() <= LAST_DAY && 0 <= second < SECONDS_PER_DAY
    ensures EpochSecondsToYmd(date.DayNumber() * SECONDS_PER_DAY + second) == Some(date)
  {
    QuotientIs(date.DayNumber() * SECONDS_PER_DAY + second, SECONDS_PER_DAY, date.DayNumber());
    YmdOnDay(date, date.DayNumber() * SECONDS_PER_DAY + second);
  }

  /** One day later is the successor date. */
  lemma {:induction false} NextDayIsSuccessor(secs: int)
    ensures match (EpochSecondsToYmd(secs), EpochSecondsToYmd(secs + SECONDS_PER_DAY))
            case (Some(today), Some(tomorrow)) => today.Valid() && tomorrow == today.Successor()
            case _ => true
  {
    if EpochSecondsToYmd(secs).None? || EpochSecondsToYmd(secs + SECONDS_PER_DAY).None? {
      return;
    }
    YmdCountsBack(secs);
    YmdCountsBack(secs + SECONDS_PER_DAY);
    var date := EpochSecondsToYmd(secs).value;
    QuotientIs(secs + SECONDS_PER_DAY, SECONDS_PER_DAY, secs / SECONDS_PER_DAY + 1);
    SuccessorIsNextDay(date);
    DayNumberInjective(date.Successor(), EpochSecondsToYmd(secs + SECONDS_PER_DAY).value);
  }

  /** A year that fits `i32` whose era start does not: 1 June of year -2147483601. */
  lemma {:induction false} FittingYearCanOverflow()
    ensures var date := Date(-2_147_483_601, 6, 1);
            date.Valid() && FitsI32(date.year) && EpochSecondsToYmd(date.DayNumber() * SECONDS_PER_DAY).None?
  {
    var date := Date(-2_147_483_601, 6, 1);
    LimitsAreDates();
    DayWithinYear(date);
    DayWithinYear(FIRST_DATE);
    YearsAddUp(date.year, FIRST_DATE.year);
    QuotientIs(date.DayNumber() * SECONDS_PER_DAY, SECONDS_PER_DAY, date.DayNumber());
    YmdDefinedIff(date.DayNumber() * SECONDS_PER_DAY);
  }

  lemma {:induction false} KnownDayNumbers()
    ensures Date(1970, 1, 1).DayNumber() == 0 && Date(1969, 12, 31).DayNumber() == -1 && Date(2000, 2, 29).DayNumber() == 11_016
  {
    DayNumberFromMarch(Date(1970, 1, 1));
    DayNumberFromMarch(Date(1969, 12, 31));
    DayNumberFromMarch(Date(2000, 2, 29));
  }

  /** The first and the last second of the epoch's day, the second before it, and the leap day of 2000. */
  lemma {:induction false} KnownDates()
    ensures EpochSecondsToYmd(0) == EpochSecondsToYmd(86_399) == Some(Date(1970, 1, 1))
    ensures EpochSecondsToYmd(-1) == Some(Date(1969, 12, 31))
    ensures EpochSecondsToYmd(951_782_400) == Some(Date(2000, 2, 29))
  {
    KnownDayNumbers();
    YmdOnDay(Date(1970, 1, 1), 0);
    YmdOnDay(Date(1970, 1, 1), 86_399);
    YmdOnDay(Date(1969, 12, 31), -1);
    YmdOnDay(Date(2000, 2, 29), 951_782_400);
  }
}
