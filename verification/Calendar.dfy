/** The timestamp's date (apps/daemon-rs/src/main.rs:1064-1075): days since the epoch to a Gregorian
    date, against the calendar itself. */
module Calendar {

  datatype Date = Date(year: int, month: int, day: int)

  /** Howard Hinnant's algorithm as `civil_from_days` computes it. The quotients and remainders of
      `z + 719468` are Euclidean in the source as well; the others have non-negative operands. */
  function CivilFromDays(z: int): Date {
    var z := z + 719_468;
    var era := z / 146_097;
    var doe := z % 146_097;
    var yoe := YearOfEra(doe);
    var y := yoe + era * 400;
    var doy := doe - (365 * yoe + yoe / 4 - yoe / 100);
    var mp := (5 * doy + 2) / 153;
    var d := doy - (153 * mp + 2) / 5 + 1;
    var m := if mp < 10 then mp + 3 else mp - 9;
    Date(if m <= 2 then y + 1 else y, m, d)
  }

  function YearOfEra(doe: int): int {
    (doe - doe / 1460 + doe / 36_524 - doe / 146_096) / 365
  }

  // ---------------------------------------------------------------- the calendar

  /** The leap rule of Appendix C of RFC 3339. */
  predicate IsLeap(year: int) {
    year % 4 == 0 && (year % 100 != 0 || year % 400 == 0)
  }

  function DaysInMonth(year: int, month: int): int {
    if month == 2 then (if IsLeap(year) then 29 else 28)
    else if month == 4 || month == 6 || month == 9 || month == 11 then 30
    else 31
  }

  predicate IsDate(date: Date) {
    1 <= date.month <= 12 && 1 <= date.day <= DaysInMonth(date.year, date.month)
  }

  function NextDay(date: Date): Date {
    if date.day < DaysInMonth(date.year, date.month) then date.(day := date.day + 1)
    else if date.month < 12 then Date(date.year, date.month + 1, 1)
    else Date(date.year + 1, 1, 1)
  }

  /** Days from 1970-01-01 to 1 January of `year`, counted from the leap years in between. */
  function DaysToYear(year: int): int {
    365 * (year - 1) + Multiples(year, 4) - Multiples(year, 100) + Multiples(year, 400) - 719_162
  }

  /** Days of `year` before the first of `month`. */
  function DaysToMonth(year: int, month: int): int
    requires 1 <= month <= 12
  {
    if month == 1 then 0 else DaysToMonth(year, month - 1) + DaysInMonth(year, month - 1)
  }

  /** The day number of a date, by counting. */
  function DaysFromCivil(date: Date): int
    requires 1 <= date.month <= 12
  {
    DaysToYear(date.year) + DaysToMonth(date.year, date.month) + date.day - 1
  }

  // ---------------------------------------------------------------- inside one era

  /** The day of the era on which the March-based year `yoe` begins. */
  function YearStart(yoe: int): int {
    365 * yoe + yoe / 4 - yoe / 100
  }

  /** Year 100c + 4q + j of the era, on its day `doy`. The second condition says that a 366th day
      needs the year to end in a leap February. */
  lemma YearOfEraOn(c: int, q: int, j: int, doy: int)
    requires 0 <= c <= 3 && 0 <= q <= 24 && 0 <= j <= 3 && 0 <= doy <= 365
    requires doy == 365 ==> j == 3 && (q < 24 || c == 3)
    ensures YearStart(100 * c + 4 * q + j) == 36_524 * c + 1461 * q + 365 * j
    ensures YearOfEra(36_524 * c + 1461 * q + 365 * j + doy) == 100 * c + 4 * q + j
  {
    var doe := 36_524 * c + 1461 * q + 365 * j + doy;
    var over := 24 * c + q + 365 * j + doy;
    var carry := if over >= 1460 then 1 else 0;
    assert doe / 1460 == 25 * c + q + carry;
    assert doe - doe / 1460 + c == 365 * (100 * c + 4 * q + j) + doy - carry;
    if doe == 146_096 {
      assert c == 3;
    } else {
      assert doe / 36_524 == c;
      assert doe / 146_096 == 0;
    }
  }

  /** Every day of the era lies in exactly one such year. */
  lemma EraDay(doe: int) returns (c: int, q: int, j: int, doy: int)
    requires 0 <= doe < 146_097
    ensures 0 <= c <= 3 && 0 <= q <= 24 && 0 <= j <= 3 && 0 <= doy <= 365
    ensures doy == 365 ==> j == 3 && (q < 24 || c == 3)
    ensures doe == 36_524 * c + 1461 * q + 365 * j + doy
  {
    c := if doe == 146_096 then 3 else doe / 36_524;
    var inCentury := doe - 36_524 * c;
    q := inCentury / 1461;
    var inCycle := inCentury - 1461 * q;
    j := if inCycle == 1460 then 3 else inCycle / 365;
    doy := inCycle - 365 * j;
  }

  // ---------------------------------------------------------------- inside one year

  /** Months counted from March: 0 is March, 11 is February. */
  function MonthStart(mp: int): int {
    (153 * mp + 2) / 5
  }

  lemma MonthOf(doy: int)
    requires 0 <= doy <= 365
    ensures var mp := (5 * doy + 2) / 153; 0 <= mp <= 11 && MonthStart(mp) <= doy
    ensures var mp := (5 * doy + 2) / 153; mp < 11 ==> doy < MonthStart(mp + 1)
  {
  }

  /** The months the source counts from March have the lengths of the calendar. */
  lemma MarchMonths(year: int, mp: int)
    requires 0 <= mp <= 11
    ensures mp < 10 ==> DaysToMonth(year, mp + 3) == MonthStart(mp) + if IsLeap(year) then 60 else 59
    ensures mp >= 10 ==> DaysToMonth(year, mp - 9) == MonthStart(mp) - 306
    ensures mp < 10 ==> MonthStart(mp) + DaysInMonth(year, mp + 3) == MonthStart(mp + 1)
    ensures mp == 10 ==> MonthStart(mp) + DaysInMonth(year, 1) == MonthStart(mp + 1)
  {
    hide IsLeap;
    assert DaysToMonth(year, 1) == 0 && DaysToMonth(year, 2) == 31;
    var march := DaysToMonth(year, 3);
    assert march == if IsLeap(year) then 60 else 59;
    assert DaysToMonth(year, 4) == march + 31;
    assert DaysToMonth(year, 5) == march + 61;
    assert DaysToMonth(year, 6) == march + 92;
    assert DaysToMonth(year, 7) == march + 122;
    assert DaysToMonth(year, 8) == march + 153;
    assert DaysToMonth(year, 9) == march + 184;
    assert DaysToMonth(year, 10) == march + 214;
    assert DaysToMonth(year, 11) == march + 245;
    assert DaysToMonth(year, 12) == march + 275;
  }

  // ---------------------------------------------------------------- eras

  /** 1 March of year yoe + 400 era, and the following 1 January, 306 days later. */
  lemma MarchFirst(era: int, yoe: int)
    requires 0 <= yoe <= 399
    ensures var y := yoe + 400 * era;
            && DaysToYear(y + 1) - 306 == 146_097 * era + YearStart(yoe) - 719_468
            && DaysToYear(y + 1) - 306 == DaysToYear(y) + if IsLeap(y) then 60 else 59
  {
    var y := yoe + 400 * era;
    assert y / 4 == 100 * era + yoe / 4;
    assert y / 100 == 4 * era + yoe / 100;
    assert y / 400 == era;
    YearLengthIs(y);
  }

  lemma DivideStep(n: int, d: int)
    requires d == 4 || d == 100 || d == 400
    ensures n / d - (n - 1) / d == if n % d == 0 then 1 else 0
  {
  }

  lemma RemainderChain(n: int)
    ensures n % 400 == 0 ==> n % 100 == 0
    ensures n % 100 == 0 ==> n % 4 == 0
  {
    if n % 400 == 0 {
      Hundreds(4 * (n / 400), 0);
    }
    if n % 100 == 0 {
      Fours(25 * (n / 100));
    }
  }

  /** How many multiples of `d` lie in the years before `year`. */
  function Multiples(year: int, d: int): int
    requires d != 0
  {
    (year - 1) / d
  }

  lemma MultiplesStep(year: int, d: int)
    requires d == 4 || d == 100 || d == 400
    ensures Multiples(year + 1, d) == Multiples(year, d) + if year % d == 0 then 1 else 0
  {
    DivideStep(year, d);
  }

  lemma YearLengthIs(year: int)
    ensures DaysToYear(year + 1) - DaysToYear(year) == if IsLeap(year) then 366 else 365
  {
    RemainderChain(year);
    MultiplesStep(year, 4);
    MultiplesStep(year, 100);
    MultiplesStep(year, 400);
    hide Multiples;
  }

  // ---------------------------------------------------------------- the theorem

  /** The date on day `doy` of the March-based year `y`. */
  function MarchDate(y: int, doy: int): Date {
    var mp := (5 * doy + 2) / 153;
    Date(if mp < 10 then y else y + 1, if mp < 10 then mp + 3 else mp - 9, doy - MonthStart(mp) + 1)
  }

  lemma MarchDateIsRight(era: int, yoe: int, doy: int)
    requires 0 <= yoe <= 399 && 0 <= doy <= 365 && (doy == 365 ==> IsLeap(yoe + 400 * era + 1))
    ensures IsDate(MarchDate(yoe + 400 * era, doy))
    ensures DaysFromCivil(MarchDate(yoe + 400 * era, doy)) == 146_097 * era + YearStart(yoe) + doy - 719_468
  {
    var y := yoe + 400 * era;
    var mp := (5 * doy + 2) / 153;
    MonthOf(doy);
    MarchFirst(era, yoe);
    hide IsLeap, DaysToMonth, DaysToYear, YearStart;
    if mp < 10 {
      MarchMonths(y, mp);
    } else {
      MarchMonths(y + 1, mp);
    }
  }

  lemma CivilIsMarchDate(z: int) returns (era: int, yoe: int, doy: int)
    ensures 0 <= yoe <= 399 && 0 <= doy <= 365 && (doy == 365 ==> IsLeap(yoe + 400 * era + 1))
    ensures CivilFromDays(z) == MarchDate(yoe + 400 * era, doy)
    ensures z == 146_097 * era + YearStart(yoe) + doy - 719_468
  {
    era := (z + 719_468) / 146_097;
    var doe := (z + 719_468) % 146_097;
    var c, q, j, d := EraDay(doe);
    YearOfEraOn(c, q, j, d);
    yoe, doy := 100 * c + 4 * q + j, d;
    if doy == 365 {
      LeapFebruary(era, c, q);
    }
    hide IsLeap, YearOfEra, YearStart, MarchDate, CivilFromDays;
    CivilUnfolds(z);
  }

  /** The arithmetic of `civil_from_days`, in terms of the day of the March-based year. */
  lemma CivilUnfolds(z: int)
    ensures var era, doe := (z + 719_468) / 146_097, (z + 719_468) % 146_097;
            var yoe := YearOfEra(doe);
            var doy := doe - YearStart(yoe);
            0 <= doy <= 365 ==> CivilFromDays(z) == MarchDate(yoe + era * 400, doy)
  {
    var doe := (z + 719_468) % 146_097;
    var doy := doe - YearStart(YearOfEra(doe));
    if 0 <= doy <= 365 {
      MonthOf(doy);
    }
    hide YearOfEra;
  }

  /** The conversion always gives a real date, and counting its days gives the number back. */
  lemma CivilIsDate(z: int)
    ensures IsDate(CivilFromDays(z))
    ensures DaysFromCivil(CivilFromDays(z)) == z
  {
    hide IsDate, DaysFromCivil, YearStart, IsLeap, MarchDate;
    var era, yoe, doy := CivilIsMarchDate(z);
    MarchDateIsRight(era, yoe, doy);
  }

  lemma LeapFebruary(era: int, c: int, q: int)
    requires 0 <= c <= 3 && 0 <= q <= 24 && (q < 24 || c == 3)
    ensures IsLeap(100 * c + 4 * q + 3 + 400 * era + 1)
  {
    var year := 100 * c + 4 * q + 3 + 400 * era + 1;
    if q < 24 {
      LeapFourth(25 * c + q + 1 + 100 * era, c + 4 * era, 4 * q + 4, year);
    } else {
      LeapFourHundredth(era + 1, year);
    }
  }

  lemma LeapFourth(fours: int, hundreds: int, rest: int, year: int)
    requires year == 4 * fours && year == 100 * hundreds + rest && 0 < rest < 100
    ensures IsLeap(year)
  {
    Fours(fours);
    Hundreds(hundreds, rest);
  }

  lemma Fours(k: int)
    ensures 4 * k % 4 == 0
  {
  }

  lemma Hundreds(k: int, rest: int)
    requires 0 <= rest < 100
    ensures (100 * k + rest) % 100 == rest
  {
  }

  lemma LeapFourHundredth(k: int, year: int)
    requires year == 400 * k
    ensures IsLeap(year)
  {
    Fours(100 * k);
  }

  /** Within its year, a date's number stays below the next 1 January. */
  lemma DayInYear(date: Date)
    requires IsDate(date)
    ensures DaysToYear(date.year) <= DaysFromCivil(date) < DaysToYear(date.year + 1)
  {
    hide IsLeap;
    YearLengthIs(date.year);
    MonthsFitYear(date.year, date.month);
  }

  lemma {:induction false} MonthsFitYear(year: int, month: int)
    requires 1 <= month <= 12
    ensures 0 <= DaysToMonth(year, month)
    ensures DaysToMonth(year, month) + DaysInMonth(year, month) <= if IsLeap(year) then 366 else 365
  {
    hide IsLeap;
    MarchMonths(year, if month >= 3 then month - 3 else month + 9);
  }

  lemma {:induction false} YearsInOrder(a: int, b: int)
    requires a <= b
    ensures DaysToYear(a) <= DaysToYear(b)
    decreases b - a
  {
    if a < b {
      YearLengthIs(b - 1);
      YearsInOrder(a, b - 1);
    }
  }

  lemma {:induction false} MonthsInOrder(year: int, a: int, b: int)
    requires 1 <= a < b <= 12
    ensures DaysToMonth(year, a) + DaysInMonth(year, a) <= DaysToMonth(year, b)
    decreases b
  {
    if a < b - 1 {
      MonthsInOrder(year, a, b - 1);
    }
  }

  /** No two dates have the same number. */
  lemma NumberIsUnique(a: Date, b: Date)
    requires IsDate(a) && IsDate(b) && DaysFromCivil(a) == DaysFromCivil(b)
    ensures a == b
  {
    DayInYear(a);
    DayInYear(b);
    hide DaysToYear, DaysToMonth, IsLeap;
    if a.year < b.year {
      YearsInOrder(a.year + 1, b.year);
    } else if b.year < a.year {
      YearsInOrder(b.year + 1, a.year);
    } else if a.month < b.month {
      MonthsInOrder(a.year, a.month, b.month);
    } else if b.month < a.month {
      MonthsInOrder(a.year, b.month, a.month);
    }
  }

  /** `civil_from_days` undoes counting, for every date there is. */
  lemma CivilUndoesCounting(date: Date)
    requires IsDate(date)
    ensures CivilFromDays(DaysFromCivil(date)) == date
  {
    hide CivilFromDays, DaysToYear, DaysToMonth, IsLeap;
    var z := DaysFromCivil(date);
    CivilIsDate(z);
    NumberIsUnique(date, CivilFromDays(z));
  }

  lemma NextDayCounts(date: Date)
    requires IsDate(date)
    ensures IsDate(NextDay(date)) && DaysFromCivil(NextDay(date)) == DaysFromCivil(date) + 1
  {
    hide IsLeap;
    if date.month == 12 {
      YearLengthIs(date.year);
      MarchMonths(date.year, 9);
    }
  }

  /** The epoch is 1970-01-01 and each day is followed by its calendar successor, on the whole line of days. */
  lemma CivilFollowsCalendar(z: int)
    ensures CivilFromDays(0) == Date(1970, 1, 1)
    ensures IsDate(CivilFromDays(z))
    ensures CivilFromDays(z + 1) == NextDay(CivilFromDays(z))
  {
    Epoch();
    hide CivilFromDays, DaysToYear, DaysToMonth, IsLeap, NextDay;
    CivilIsDate(z);
    NextDayCounts(CivilFromDays(z));
    CivilUndoesCounting(NextDay(CivilFromDays(z)));
  }

  lemma Epoch()
    ensures CivilFromDays(0) == Date(1970, 1, 1)
  {
    assert 719_468 / 146_097 == 4 && 719_468 % 146_097 == 135_080;
    assert YearOfEra(135_080) == 369;
    hide YearOfEra;
    assert 135_080 - (365 * 369 + 369 / 4 - 369 / 100) == 306;
  }
}
