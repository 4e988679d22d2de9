/** The proleptic Gregorian day numbers behind `Date`, as section 21.4.1 of ECMA-262 defines them. */
module Calendar {

  predicate Leap(y: int) {
    y % 4 == 0 && (y % 100 != 0 || y % 400 == 0)
  }

  // The day number, counted from 1 January 1970, on which year y begins.
  function DayFromYear(y: int): int {
    365 * (y - 1970) + (y - 1969) / 4 - (y - 1901) / 100 + (y - 1601) / 400
  }

  lemma YearLength(y: int)
    ensures DayFromYear(y + 1) - DayFromYear(y) == if Leap(y) then 366 else 365
  {
    EveryFourth(y);
    EveryHundredth(y);
    EveryFourHundredth(y);
    LeapYearsNest(y);
  }

  lemma LeapYearsNest(y: int)
    ensures (y % 400 == 0 ==> y % 100 == 0) && (y % 100 == 0 ==> y % 4 == 0)
  {}

  lemma EveryFourth(y: int)
    ensures (y - 1968) / 4 - (y - 1969) / 4 == if y % 4 == 0 then 1 else 0
  {}

  lemma EveryHundredth(y: int)
    ensures (y - 1900) / 100 - (y - 1901) / 100 == if y % 100 == 0 then 1 else 0
  {}

  lemma EveryFourHundredth(y: int)
    ensures (y - 1600) / 400 - (y - 1601) / 400 == if y % 400 == 0 then 1 else 0
  {}

  lemma {:induction false} YearsGrow(y: int, z: int)
    requires y <= z
    ensures DayFromYear(z) - DayFromYear(y) >= 365 * (z - y)
    decreases z - y
  {
    if y < z {
      YearLength(z - 1);
      YearsGrow(y, z - 1);
    }
  }

  lemma YearsAdvance()
    ensures forall y :: DayFromYear(y) < DayFromYear(y + 1)
  {
    forall y ensures DayFromYear(y) < DayFromYear(y + 1) { YearLength(y); }
  }

  // The year is found by walking from a nearby guess until the day lies in it.
  function YearNear(day: int, y: int, start: int -> int): (r: int)
    requires forall z :: start(z) < start(z + 1)
    ensures start(r) <= day < start(r + 1)
    decreases if day < start(y) then start(y) - day else if start(y + 1) <= day then day - start(y + 1) + 1 else 0
  {
    if day < start(y) then assert start(y - 1) < start(y - 1 + 1); YearNear(day, y - 1, start)
    else if start(y + 1) <= day then assert start(y + 1) < start(y + 1 + 1); YearNear(day, y + 1, start)
    else y
  }

  function YearFromDay(day: int): (y: int)
    ensures DayFromYear(y) <= day < DayFromYear(y + 1)
  {
    YearsAdvance();
    YearNear(day, 1970, (y: int) => DayFromYear(y))
  }

  lemma YearUnique(day: int, y: int)
    requires DayFromYear(y) <= day < DayFromYear(y + 1)
    ensures YearFromDay(day) == y
  {
    var r := YearFromDay(day);
    if r < y { YearsGrow(r + 1, y); }
    if y < r { YearsGrow(y + 1, r); }
  }

  // Days of the year before month m, with 0 for January and 12 for the year's end.
  function DaysBefore(m: int, leap: bool): (d: int)
    requires 0 <= m <= 12
  {
    var extra := if leap && m >= 2 then 1 else 0;
    extra + [0, 31, 59, 90, 120, 151, 181, 212, 243, 273, 304, 334, 365][m]
  }

  function MonthFromDay(day: int): (m: int)
    ensures 0 <= m < 12
    ensures var y := YearFromDay(day);
            DaysBefore(m, Leap(y)) <= day - DayFromYear(y) < DaysBefore(m + 1, Leap(y))
  {
    var y := YearFromDay(day);
    YearLength(y);
    MonthSearch(day - DayFromYear(y), Leap(y), 0)
  }

  function MonthSearch(within: int, leap: bool, m: int): (r: int)
    requires 0 <= m < 12
    requires DaysBefore(m, leap) <= within < DaysBefore(12, leap)
    ensures 0 <= r < 12
    ensures DaysBefore(r, leap) <= within < DaysBefore(r + 1, leap)
    decreases 12 - m
  {
    if within < DaysBefore(m + 1, leap) then m else MonthSearch(within, leap, m + 1)
  }

  // MakeDay for the first of a month; a month number past 11 carries into the year.
  function MakeDay(y: int, m: int): int {
    DayFromYear(y + m / 12) + DaysBefore(m % 12, Leap(y + m / 12))
  }

  // Date.UTC reads a year number 0..99 as 1900..1999.
  function FullYear(y: int): int {
    if 0 <= y <= 99 then 1900 + y else y
  }

  function DateUtc(y: int, m: int): int {
    MakeDay(FullYear(y), m)
  }

  // The first day of the month that a day lies in, and of the month after, both as the program asks Date for them.
  function MonthStart(day: int): int {
    DateUtc(YearFromDay(day), MonthFromDay(day))
  }

  function NextMonth(day: int): int {
    DateUtc(YearFromDay(day), MonthFromDay(day) + 1)
  }

  predicate TwoDigitYear(day: int) {
    0 <= YearFromDay(day) <= 99
  }

  // The first day from which every later day is free of the two-digit rule.
  const COMMON_ERA_DAY := DayFromYear(100)

  lemma EraIsPlain(day: int)
    requires COMMON_ERA_DAY <= day
    ensures YearFromDay(day) >= 100
    ensures !TwoDigitYear(day)
  {
    var y := YearFromDay(day);
    if y < 100 { YearsGrow(y + 1, 100); }
  }

  lemma MonthStarts(y: int, m: int)
    requires 0 <= m < 12
    ensures MakeDay(y, m) == DayFromYear(y) + DaysBefore(m, Leap(y))
    ensures m < 11 ==> MakeDay(y, m + 1) == DayFromYear(y) + DaysBefore(m + 1, Leap(y))
    ensures m == 11 ==> MakeDay(y, m + 1) == DayFromYear(y + 1)
  {
    assert m / 12 == 0 && m % 12 == m;
    assert m < 11 ==> (m + 1) / 12 == 0 && (m + 1) % 12 == m + 1;
    assert m == 11 ==> (m + 1) / 12 == 1 && (m + 1) % 12 == 0;
  }

  // Where month m of year y begins and ends, in days.
  lemma MonthSpan(y: int, m: int)
    requires 0 <= m < 12
    ensures MakeDay(y, m) == DayFromYear(y) + DaysBefore(m, Leap(y))
    ensures MakeDay(y, m + 1) == DayFromYear(y) + DaysBefore(m + 1, Leap(y))
    ensures 28 <= MakeDay(y, m + 1) - MakeDay(y, m) <= 31
    ensures DayFromYear(y) <= MakeDay(y, m) && MakeDay(y, m + 1) <= DayFromYear(y + 1)
  {
    YearLength(y);
    MonthStarts(y, m);
    MonthLength(m, Leap(y));
  }

  lemma MonthLength(m: int, leap: bool)
    requires 0 <= m < 12
    ensures 0 <= DaysBefore(m, leap)
    ensures 28 <= DaysBefore(m + 1, leap) - DaysBefore(m, leap) <= 31
    ensures DaysBefore(m + 1, leap) <= if leap then 366 else 365
  {}

  lemma {:induction false} MonthsGrow(m: int, n: int, leap: bool)
    requires 0 <= m <= n <= 12
    ensures DaysBefore(m, leap) <= DaysBefore(n, leap)
    decreases n - m
  {
    if m < n {
      MonthLength(n - 1, leap);
      MonthsGrow(m, n - 1, leap);
    }
  }

  // A day lies in the month the program computes for it exactly when its year is not one of 0..99.
  lemma MonthHoldsDay(day: int)
    ensures MonthStart(day) <= day < NextMonth(day) <==> !TwoDigitYear(day)
    ensures !TwoDigitYear(day) ==> 28 <= NextMonth(day) - MonthStart(day) <= 31
  {
    var y, m := YearFromDay(day), MonthFromDay(day);
    if TwoDigitYear(day) { TwoDigitMonthIsLate(y, m); } else { PlainMonthHolds(day, y, m); }
  }

  lemma PlainMonthHolds(day: int, y: int, m: int)
    requires !(0 <= y <= 99) && 0 <= m < 12
    requires DaysBefore(m, Leap(y)) <= day - DayFromYear(y) < DaysBefore(m + 1, Leap(y))
    ensures DateUtc(y, m) <= day < DateUtc(y, m + 1) && 28 <= DateUtc(y, m + 1) - DateUtc(y, m) <= 31
  {
    MonthSpan(y, m);
  }

  lemma TwoDigitMonthIsLate(y: int, m: int)
    requires 0 <= y <= 99 && 0 <= m < 12
    ensures DateUtc(y, m) > DayFromYear(y + 1)
  {
    YearsGrow(y + 1, 1900 + y);
    MonthSpan(1900 + y, m);
  }

  lemma MonthNumber(within: int, k: int, m: int, leap: bool)
    requires 0 <= k < 12 && 0 <= m < 12
    requires DaysBefore(k, leap) <= within < DaysBefore(k + 1, leap)
    requires DaysBefore(m, leap) <= within < DaysBefore(m + 1, leap)
    ensures k == m
  {
    if k < m { MonthsGrow(k + 1, m, leap); }
    if m < k { MonthsGrow(m + 1, k, leap); }
  }

  // The year and month numbers of a day are determined by the month that holds it.
  lemma MonthUnique(day: int, y: int, m: int)
    requires 0 <= m < 12
    requires MakeDay(y, m) <= day < MakeDay(y, m + 1)
    ensures YearFromDay(day) == y && MonthFromDay(day) == m
  {
    MonthSpan(y, m);
    YearUnique(day, y);
    MonthNumber(day - DayFromYear(y), MonthFromDay(day), m, Leap(y));
  }

  // Every day of a month is given the same month start and the same next month.
  lemma SameMonth(day: int, other: int)
    requires !TwoDigitYear(day)
    requires MonthStart(day) <= other < NextMonth(day)
    ensures MonthStart(other) == MonthStart(day) && NextMonth(other) == NextMonth(day)
  {
    MonthUnique(other, YearFromDay(day), MonthFromDay(day));
  }

  // The month after month m of year y, with its year.
  function Following(y: int, m: int): (int, int) {
    if m == 11 then (y + 1, 0) else (y, m + 1)
  }

  lemma FollowingStart(y: int, m: int)
    requires 0 <= m < 12
    ensures var (y', m') := Following(y, m); MakeDay(y', m') == MakeDay(y, m + 1)
  {
    if m == 11 { assert (m + 1) / 12 == 1 && (m + 1) % 12 == 0; }
  }

  // The first day of a month, asked for its month's start, gives the month that Date makes of its numbers.
  lemma FirstDay(y: int, m: int)
    requires 0 <= m < 12
    ensures MonthStart(MakeDay(y, m)) == DateUtc(y, m)
    ensures YearFromDay(MakeDay(y, m)) == y && MonthFromDay(MakeDay(y, m)) == m
  {
    MonthSpan(y, m);
    MonthUnique(MakeDay(y, m), y, m);
  }

  // What Date takes for the start of a month is the start of its own month, two-digit years included.
  lemma MonthStartIsStart(day: int)
    ensures MonthStart(MonthStart(day)) == MonthStart(day) && !TwoDigitYear(MonthStart(day))
  {
    FirstDay(FullYear(YearFromDay(day)), MonthFromDay(day));
  }

  lemma StartsItselfIff(y: int, m: int)
    requires 0 <= m < 12
    ensures MonthStart(MakeDay(y, m)) == MakeDay(y, m) <==> !(0 <= y <= 99)
  {
    FirstDay(y, m);
    if 0 <= y <= 99 {
      TwoDigitMonthIsLate(y, m);
      MonthSpan(y, m);
    }
  }

  // 1 January of the year 0, which Date takes for 1900.
  const YEAR_ZERO := -719_528

  lemma YearZeroStart()
    ensures DayFromYear(0) == YEAR_ZERO
  {}

  lemma JanuaryStart(y: int)
    ensures MakeDay(y, 0) == DayFromYear(y)
  {
    MonthStarts(y, 0);
  }

  lemma YearZero()
    ensures MakeDay(0, 0) == YEAR_ZERO
  {
    YearZeroStart();
    JanuaryStart(0);
  }

  // Of the months that follow one outside the two-digit years only the first of the year 0 lies in them.
  lemma FollowingYear(y: int, m: int)
    requires 0 <= m < 12 && !(0 <= y <= 99)
    ensures var (z, n) := Following(y, m); 0 <= z <= 99 ==> z == 0 && n == 0
  {}

  lemma IsYearZero(z: int, n: int, zero: int)
    requires 0 <= n < 12 && MakeDay(0, 0) == zero && MakeDay(z, n) == zero
    ensures z == 0
  {
    FirstDay(z, n);
    FirstDay(0, 0);
  }

  // The first day of the next month starts its own month, unless it is the one that begins the year 0.
  lemma NextIsStart(day: int)
    ensures MonthStart(NextMonth(day)) == NextMonth(day) <==> NextMonth(day) != YEAR_ZERO
  {
    var y, m := FullYear(YearFromDay(day)), MonthFromDay(day);
    var (z, n) := Following(y, m);
    FollowingStart(y, m);
    FollowingYear(y, m);
    StartsItselfIff(z, n);
    YearZero();
    if MakeDay(z, n) == YEAR_ZERO { IsYearZero(z, n, YEAR_ZERO); }
  }

  lemma EraMonth(day: int)
    requires COMMON_ERA_DAY <= day
    ensures COMMON_ERA_DAY <= MonthStart(day) <= day < NextMonth(day)
  {
    EraIsPlain(day);
    MonthHoldsDay(day);
    YearsGrow(100, YearFromDay(day));
    MonthSpan(YearFromDay(day), MonthFromDay(day));
  }

  lemma YearMonotone(day: int, other: int)
    requires day <= other
    ensures YearFromDay(day) <= YearFromDay(other)
  {
    if YearFromDay(other) < YearFromDay(day) { YearsGrow(YearFromDay(other) + 1, YearFromDay(day)); }
  }

  lemma MonthMonotone(day: int, other: int)
    requires day <= other && YearFromDay(day) == YearFromDay(other)
    ensures MonthFromDay(day) <= MonthFromDay(other)
  {
    var m, n, y := MonthFromDay(day), MonthFromDay(other), YearFromDay(day);
    if n < m { MonthsGrow(n + 1, m, Leap(y)); }
  }

  lemma MonthStartsGrow(y: int, m: int, z: int, n: int)
    requires 0 <= m < 12 && 0 <= n < 12 && (y < z || (y == z && m <= n))
    ensures MakeDay(y, m) <= MakeDay(z, n)
  {
    MonthSpan(y, m);
    MonthSpan(z, n);
    if y < z { YearsGrow(y + 1, z); } else { MonthsGrow(m, n, Leap(y)); }
  }

  lemma TwoDigitStart(day: int)
    requires TwoDigitYear(day)
    ensures MonthStart(day) == MakeDay(1900 + YearFromDay(day), MonthFromDay(day))
  {}

  // Within the two-digit years, too, a later day never has an earlier month start.
  lemma TwoDigitMonthsGrow(day: int, other: int)
    requires day <= other && TwoDigitYear(day) && TwoDigitYear(other)
    ensures MonthStart(day) <= MonthStart(other)
  {
    TwoDigitStart(day);
    TwoDigitStart(other);
    NumbersGrow(day, other);
    MonthStartsGrow(1900 + YearFromDay(day), MonthFromDay(day), 1900 + YearFromDay(other), MonthFromDay(other));
  }

  lemma NumbersGrow(day: int, other: int)
    requires day <= other
    ensures var y, z := YearFromDay(day), YearFromDay(other);
            y < z || (y == z && MonthFromDay(day) <= MonthFromDay(other))
  {
    YearMonotone(day, other);
    if YearFromDay(day) == YearFromDay(other) { MonthMonotone(day, other); }
  }

  // Date's year is 1900 years late in the two-digit years, and to the day within one.
  const SHIFT := 693_960

  lemma YearShift(y: int)
    requires 0 <= y <= 99
    ensures DayFromYear(1900 + y) - DayFromYear(y) == if y == 0 then SHIFT + 1 else SHIFT
  {
    assert (y - 69) / 4 - (y - 1969) / 4 == 475 && (y - 1) / 100 - (y - 1901) / 100 == 19;
    assert (y + 299) / 400 == 0 && (y - 1601) / 400 == if y == 0 then -5 else -4;
  }

  lemma SameLeap(y: int)
    requires 1 <= y <= 99
    ensures Leap(1900 + y) == Leap(y)
  {
    assert (1900 + y) % 4 == y % 4 && (1900 + y) % 100 == y % 100;
  }

  lemma LeapDay(m: int)
    requires 0 <= m <= 12
    ensures DaysBefore(m, true) - 1 <= DaysBefore(m, false) <= DaysBefore(m, true)
  {}

  lemma MonthShift(y: int, m: int)
    requires 0 <= y <= 99 && 0 <= m < 12
    ensures SHIFT <= MakeDay(1900 + y, m) - MakeDay(y, m) <= SHIFT + 1
  {
    MonthStarts(y, m);
    MonthStarts(1900 + y, m);
    ShiftedNumbers(DayFromYear(y), DayFromYear(1900 + y), y, m);
  }

  lemma ShiftedNumbers(start: int, late: int, y: int, m: int)
    requires 0 <= y <= 99 && 0 <= m < 12 && start == DayFromYear(y) && late == DayFromYear(1900 + y)
    ensures SHIFT <= late + DaysBefore(m, Leap(1900 + y)) - (start + DaysBefore(m, Leap(y))) <= SHIFT + 1
  {
    YearShift(y);
    LeapDay(m);
    if y > 0 { SameLeap(y); } else { assert !Leap(1900) && Leap(0); }
  }

  // 1 January of a misread year.
  predicate StartsMisread(day: int) {
    day == MakeDay(YearFromDay(day), 0) && MonthFromDay(day) == 0 && TwoDigitYear(day)
  }

  lemma JanuaryStartsMisread(y: int, day: int)
    requires 0 <= y <= 99 && day == MakeDay(y, 0)
    ensures StartsMisread(day)
  {
    FirstDay(y, 0);
  }

  lemma YearZeroStartsMisread(day: int)
    requires day == YEAR_ZERO
    ensures StartsMisread(day)
  {
    YearZero();
    JanuaryStartsMisread(0, day);
  }

  // The step from it is as long as a month, and 1900 years.
  lemma MisreadJanuary(day: int, next: int)
    requires StartsMisread(day) && next == NextMonth(day)
    ensures next - day >= 28 + SHIFT
  {
    var y := YearFromDay(day);
    BeginsMisread(day, y);
    NextIsFebruary(y, MonthFromDay(day), next);
    LateFebruary(y, day, next);
  }

  lemma BeginsMisread(day: int, y: int)
    requires StartsMisread(day) && y == YearFromDay(day)
    ensures 0 <= y <= 99 && day == MakeDay(y, 0)
  {}

  lemma NextIsFebruary(y: int, m: int, next: int)
    requires 0 <= y <= 99 && m == 0 && next == DateUtc(y, m + 1)
    ensures next == MakeDay(1900 + y, 1)
  {}

  lemma LateFebruary(y: int, day: int, next: int)
    requires 0 <= y <= 99 && day == MakeDay(y, 0) && next == MakeDay(1900 + y, 1)
    ensures next - day >= 28 + SHIFT
  {
    MonthShift(y, 1);
    MonthSpan(y, 0);
  }

  lemma NextOfMisread(day: int)
    requires TwoDigitYear(day)
    ensures MonthStart(NextMonth(day)) == NextMonth(day)
  {
    var y, m := FullYear(YearFromDay(day)), MonthFromDay(day);
    FollowingStart(y, m);
    StartsItselfIff(Following(y, m).0, Following(y, m).1);
  }

  // The month starts of two days of the two-digit years are hardly further apart than the days.
  lemma TwoDigitStartsNear(day: int)
    requires TwoDigitYear(day)
    ensures day - 30 + SHIFT <= MonthStart(day) <= day + SHIFT + 1
  {
    TwoDigitStart(day);
    MonthShift(YearFromDay(day), MonthFromDay(day));
    MonthSpan(YearFromDay(day), MonthFromDay(day));
  }

  // Even under the two-digit rule the next month begins later than the day asked about.
  lemma NextMonthIsLater(day: int)
    ensures day < NextMonth(day)
  {
    var y, m := YearFromDay(day), MonthFromDay(day);
    MonthHoldsDay(day);
    if TwoDigitYear(day) {
      YearsGrow(y + 1, 1900 + y);
      MonthSpan(1900 + y, m);
    }
  }

  // ---------- the civil calendar ----------

  predicate Thirty(m: int) {
    m == 3 || m == 5 || m == 8 || m == 10
  }

  // How many days a month has: thirty have April, June, September and November.
  function CivilLength(m: int, leap: bool): int {
    if m == 1 then if leap then 29 else 28 else if Thirty(m) then 30 else 31
  }

  lemma MonthTable(m: int, leap: bool)
    requires 0 <= m < 12
    ensures DaysBefore(m + 1, leap) - DaysBefore(m, leap) == CivilLength(m, leap)
  {}

  lemma MonthLater(y: int, m: int)
    requires 0 <= m < 12
    ensures MakeDay(y, m + 12) == MakeDay(y + 1, m)
  {
    assert (m + 12) / 12 == 1 && (m + 12) % 12 == m;
    assert m / 12 == 0 && m % 12 == m;
  }

  // The civil calendar: months of their lengths, with the leap years of the Gregorian rule, and twelve months later
  // the same month of the next year.
  lemma CivilMonths(y: int, m: int)
    requires 0 <= m < 12
    ensures var leap := y % 4 == 0 && (y % 100 != 0 || y % 400 == 0);
            MakeDay(y, m + 1) - MakeDay(y, m) == CivilLength(m, leap)
    ensures MakeDay(y, m + 12) == MakeDay(y + 1, m)
  {
    MonthSpan(y, m);
    MonthTable(m, Leap(y));
    MonthLater(y, m);
  }

  // Days are counted from 1 January 1970; 1 March 2024 is day 19783.
  lemma Epoch()
    ensures MakeDay(1970, 0) == 0 && MakeDay(2024, 2) == 19783
  {
    MonthStarts(1970, 0);
    MonthStarts(2024, 2);
    TableBegins();
    YearsBegin();
  }

  lemma YearsBegin()
    ensures DayFromYear(1970) == 0 && DayFromYear(2024) == 19723 && Leap(2024)
  {}

  lemma TableBegins()
    ensures DaysBefore(2, true) == 60 && forall leap :: DaysBefore(0, leap) == 0
  {}
}
