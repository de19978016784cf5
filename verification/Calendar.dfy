/** Gregorian date arithmetic behind HTTP dates (crates/espejismo-server/src/fallback.rs; section
    5.6.7 of RFC 9110). */
module Calendar {

  datatype Date = Date(year: int, month: int, day: int)

  // ------------------------------------------------------- the algorithm of the code

  /** Division that truncates toward zero. */
  function TruncDiv(a: int, b: int): int
    requires b > 0
  {
    if a >= 0 then a / b else -((-a) / b)
  }

  /** Days of the four-hundred-year era split into years that start in March. */
  function YearOfEra(doe: int): int {
    (doe - doe / 1460 + doe / 36_524 - doe / 146_096) / 365
  }

  function YearStart(yoe: int): int {
    365 * yoe + yoe / 4 - yoe / 100
  }

  /** Date of a day counted from 1 March of year `y`. */
  function FromMarch(y: int, doy: int): Date {
    var mp := (5 * doy + 2) / 153;
    var day := doy - (153 * mp + 2) / 5 + 1;
    var month := mp + if mp < 10 then 3 else -9;
    Date(y + (if month <= 2 then 1 else 0), month, day)
  }

  /** `civil_from_days` before its year is cut to 32 bits. */
  function CivilFromDays(days: int): Date {
    var z := days + 719_468;
    var era := TruncDiv(if z >= 0 then z else z - 146_096, 146_097);
    var doe := z - era * 146_097;
    var yoe := YearOfEra(doe);
    FromMarch(yoe + era * 400, doe - YearStart(yoe))
  }

  const I32_MIN: int := -0x8000_0000
  const I32_MAX: int := 0x7FFF_FFFF

  function ToI32(x: int): int {
    (x - I32_MIN) % 0x1_0000_0000 + I32_MIN
  }

  /** What `civil_from_days` returns. */
  function Civil(days: int): Date {
    var d := CivilFromDays(days);
    d.(year := ToI32(d.year))
  }

  // -------------------------------------------------------- the calendar as a rule

  predicate IsLeap(year: int) {
    year % 4 == 0 && (year % 100 != 0 || year % 400 == 0)
  }

  function MonthLength(year: int, month: int): int {
    if month == 2 then (if IsLeap(year) then 29 else 28)
    else if month == 4 || month == 6 || month == 9 || month == 11 then 30
    else 31
  }

  predicate Valid(d: Date) {
    1 <= d.month <= 12 && 1 <= d.day <= MonthLength(d.year, d.month)
  }

  /** The day after. */
  function Next(d: Date): Date {
    if d.day < MonthLength(d.year, d.month) then d.(day := d.day + 1)
    else if d.month < 12 then Date(d.year, d.month + 1, 1)
    else Date(d.year + 1, 1, 1)
  }

  function YearLength(year: int): int {
    if IsLeap(year) then 366 else 365
  }

  /** Days from 1 January 1970 to 1 January of a year, one year at a time. */
  function DaysToYear(year: int): int
    decreases if year >= 1970 then year - 1970 else 1970 - year
  {
    if year == 1970 then 0
    else if year > 1970 then DaysToYear(year - 1) + YearLength(year - 1)
    else DaysToYear(year + 1) - YearLength(year)
  }

  function DaysToMonth(year: int, month: int): int
    decreases month
  {
    if month <= 1 then 0 else DaysToMonth(year, month - 1) + MonthLength(year, month - 1)
  }

  /** Days from civil, by summing year and month lengths. */
  function DaysFromCivil(d: Date): int {
    DaysToYear(d.year) + DaysToMonth(d.year, d.month) + d.day - 1
  }

  // --------------------------------------------------------------- inside one era

  lemma EraIsFloor(z: int)
    ensures TruncDiv(if z >= 0 then z else z - 146_096, 146_097) == z / 146_097
  {
    if z < 0 {
      var q, r := z / 146_097, z % 146_097;
      assert z == 146_097 * q + r;
      assert 146_096 - z == 146_097 * (-q) + (146_096 - r);
      QuotientIs(146_096 - z, 146_097, -q, 146_096 - r);
    }
  }

  lemma QuotientIs(a: int, b: int, q: int, r: int)
    requires b > 0 && 0 <= r < b && a == b * q + r
    ensures a / b == q && a % b == r
  {
    var p := a / b;
    assert b * (p - q) == b * p - b * q;
    MultiplesAreApart(b, p - q);
  }

  lemma MultiplesAreApart(b: int, k: int)
    requires b > 0
    ensures k >= 1 ==> b * k >= b
    ensures k <= -1 ==> b * k <= -b
  {
    assert b * k == b * (k - 1) + b;
    assert b * k == b * (k + 1) - b;
  }

  /** Length of the March year `yoe` of an era: its February belongs to the next year. */
  function MarchYear(yoe: int): int {
    if (yoe + 1) % 4 == 0 && ((yoe + 1) % 100 != 0 || (yoe + 1) % 400 == 0) then 366 else 365
  }

  predicate SplitsAs(doe: int, yoe: int, doy: int) {
    0 <= yoe <= 399 && 0 <= doy < MarchYear(yoe) && doe == YearStart(yoe) + doy
  }

  lemma YearStartNext(yoe: int)
    requires 0 <= yoe < 399
    ensures YearStart(yoe + 1) == YearStart(yoe) + MarchYear(yoe)
  {}

  lemma YearStartMonotone(a: int, b: int)
    requires 0 <= a <= b
    ensures YearStart(a) <= YearStart(b)
  {}

  lemma SplitIsUnique(doe: int, y: int, d: int, v: int, e: int)
    requires SplitsAs(doe, y, d) && SplitsAs(doe, v, e)
    ensures y == v && d == e
  {
    if y < v {
      YearStartNext(y);
      YearStartMonotone(y + 1, v);
    } else if v < y {
      YearStartNext(v);
      YearStartMonotone(v + 1, y);
    }
  }

  /** A day of the era by century, four-year cycle and day of the cycle. */
  lemma YearOfEraByCycles(c: int, k: int, t: int)
    requires 0 <= c <= 3 && 0 <= k <= 24 && 0 <= t <= 1460 && 1461 * k + t <= 36_523
    ensures var doe := 36_524 * c + 1461 * k + t;
      var j := if t / 365 > 3 then 3 else t / 365;
      YearOfEra(doe) == 100 * c + 4 * k + j
  {
    var doe := 36_524 * c + 1461 * k + t;
    var e := if k + t + 24 * c >= 1460 then 1 else 0;
    assert doe / 36_524 == c;
    assert doe / 146_096 == 0;
    assert doe / 1460 == 25 * c + k + e;
  }

  lemma SplitByCycles(c: int, k: int, t: int)
    requires 0 <= c <= 3 && 0 <= k <= 24 && 0 <= t <= 1460 && 1461 * k + t <= 36_523
    ensures var doe := 36_524 * c + 1461 * k + t;
      SplitsAs(doe, YearOfEra(doe), doe - YearStart(YearOfEra(doe)))
  {
    hide YearOfEra;
    YearOfEraByCycles(c, k, t);
    var j := if t / 365 > 3 then 3 else t / 365;
    var y := 100 * c + 4 * k + j;
    assert y / 100 == c && y / 4 == 25 * c + k;
    assert (y + 1) % 4 == (j + 1) % 4;
    assert (y + 1) % 100 == (4 * k + j + 1) % 100;
  }

  lemma EraSplit(doe: int)
    requires 0 <= doe < 146_097
    ensures SplitsAs(doe, YearOfEra(doe), doe - YearStart(YearOfEra(doe)))
  {
    hide SplitsAs, YearOfEra, YearStart;
    if doe == 146_096 {
      LastDayOfEra();
    } else {
      var c := doe / 36_524;
      var r := doe % 36_524;
      var k, t := r / 1461, r % 1461;
      assert doe == 36_524 * c + 1461 * k + t;
      SplitByCycles(c, k, t);
    }
  }

  lemma LastDayOfEra()
    ensures YearOfEra(146_096) == 399 && YearStart(399) == 145_731
    ensures SplitsAs(146_096, YearOfEra(146_096), 146_096 - YearStart(YearOfEra(146_096)))
  {}

  // ------------------------------------------------------------------- one month

  /** Days before each month of a year that starts in March; the twelfth is February. */
  function MarchMonth(mp: int): int {
    (153 * mp + 2) / 5
  }

  lemma MonthSplit(doy: int)
    requires 0 <= doy <= 365
    ensures var mp := (5 * doy + 2) / 153; 0 <= mp <= 11 && MarchMonth(mp) <= doy < MarchMonth(mp + 1)
  {}

  lemma FromMarchIs(y: int, doy: int, mp: int)
    requires 0 <= doy <= 365 && 0 <= mp <= 11 && MarchMonth(mp) <= doy < MarchMonth(mp + 1)
    ensures FromMarch(y, doy)
      == if mp < 10 then Date(y, mp + 3, doy - MarchMonth(mp) + 1) else Date(y + 1, mp - 9, doy - MarchMonth(mp) + 1)
  {}

  lemma MarchMonthLength(y: int, mp: int)
    requires 0 <= mp <= 10
    ensures MarchMonth(mp + 1) - MarchMonth(mp) == MonthLength(y, if mp < 10 then mp + 3 else mp - 9)
    ensures 0 <= MarchMonth(mp) < MarchMonth(mp + 1) <= 337
  {}

  lemma MarchMonthLast()
    ensures MarchMonth(0) == 0 && MarchMonth(1) == 31 && MarchMonth(11) == 337 && MarchMonth(12) == 367
  {}

  /** Every day of a March year is a valid date, the one after it its successor. */
  lemma MarchDates(y: int, doy: int)
    requires 0 <= doy < YearLength(y + 1)
    ensures Valid(FromMarch(y, doy))
    ensures FromMarch(y, 0) == Date(y, 3, 1)
    ensures Next(FromMarch(y, doy)) == if doy + 1 < YearLength(y + 1) then FromMarch(y, doy + 1) else FromMarch(y + 1, 0)
  {
    hide FromMarch, MarchMonth, IsLeap;
    MarchMonthLast();
    MonthSplit(doy);
    var mp := (5 * doy + 2) / 153;
    FromMarchIs(y, doy, mp);
    FromMarchIs(y, 0, 0);
    FromMarchIs(y + 1, 0, 0);
    if mp < 11 {
      MarchMonthLength(if mp < 10 then y else y + 1, mp);
      if doy + 1 < MarchMonth(mp + 1) {
        FromMarchIs(y, doy + 1, mp);
      } else {
        NextMonthStarts(y, mp);
      }
    } else if doy + 1 < YearLength(y + 1) {
      FromMarchIs(y, doy + 1, 11);
    }
  }

  lemma NextMonthStarts(y: int, mp: int)
    requires 0 <= mp <= 10
    ensures FromMarch(y, MarchMonth(mp + 1)) == if mp < 9 then Date(y, mp + 4, 1) else Date(y + 1, mp - 8, 1)
  {
    hide FromMarch, MarchMonth;
    MarchMonthLast();
    MarchMonthLength(y, mp);
    if mp < 10 {
      MarchMonthLength(y, mp + 1);
    }
    FromMarchIs(y, MarchMonth(mp + 1), mp + 1);
  }

  // ------------------------------------------------------------------ every day

  lemma EraYear(era: int, yoe: int)
    requires 0 <= yoe <= 399
    ensures YearLength(400 * era + yoe + 1) == MarchYear(yoe)
  {
    LeapRepeats(era, yoe + 1);
  }

  /** The leap rule has a period of four hundred years. */
  lemma LeapRepeats(era: int, y: int)
    ensures IsLeap(400 * era + y) <==> IsLeap(y)
  {
    QuotientIs(400 * era + y, 4, 100 * era + y / 4, y % 4);
    QuotientIs(400 * era + y, 100, 4 * era + y / 100, y % 100);
    QuotientIs(400 * era + y, 400, era + y / 400, y % 400);
  }

  /** The code's date of a day, by era and day of era. */
  lemma CivilByEra(era: int, doe: int)
    requires 0 <= doe < 146_097
    ensures CivilFromDays(146_097 * era + doe - 719_468)
      == FromMarch(400 * era + YearOfEra(doe), doe - YearStart(YearOfEra(doe)))
  {
    hide YearOfEra, YearStart, FromMarch, TruncDiv;
    var z := 146_097 * era + doe;
    EraIsFloor(z);
    QuotientIs(z, 146_097, era, doe);
  }

  lemma CivilByYear(era: int, yoe: int, doy: int)
    requires 0 <= yoe <= 399 && 0 <= doy < MarchYear(yoe)
    ensures 0 <= YearStart(yoe) + doy < 146_097
    ensures CivilFromDays(146_097 * era + YearStart(yoe) + doy - 719_468) == FromMarch(400 * era + yoe, doy)
  {
    hide CivilFromDays, YearOfEra, FromMarch;
    var doe := YearStart(yoe) + doy;
    InsideEra(yoe, doy);
    CivilByEra(era, doe);
    EraSplit(doe);
    SplitIsUnique(doe, yoe, doy, YearOfEra(doe), doe - YearStart(YearOfEra(doe)));
  }

  lemma InsideEra(yoe: int, doy: int)
    requires 0 <= yoe <= 399 && 0 <= doy < MarchYear(yoe)
    ensures 0 <= YearStart(yoe) + doy < 146_097
  {
    if yoe < 399 {
      YearStartNext(yoe);
      YearStartMonotone(yoe + 1, 399);
    }
    YearStartMonotone(0, yoe);
  }

  /** Every day number has a valid date, and the next day number the next date. */
  lemma CivilSuccessor(days: int)
    ensures Valid(CivilFromDays(days))
    ensures CivilFromDays(days + 1) == Next(CivilFromDays(days))
  {
    hide CivilFromDays, YearOfEra, YearStart, FromMarch, MarchYear, Next, Valid;
    var z := days + 719_468;
    var era, doe := z / 146_097, z % 146_097;
    assert z == 146_097 * era + doe;
    EraSplit(doe);
    var yoe := YearOfEra(doe);
    var doy := doe - YearStart(yoe);
    CivilByYear(era, yoe, doy);
    EraYear(era, yoe);
    MarchDates(400 * era + yoe, doy);
    if doy + 1 < MarchYear(yoe) {
      CivilByYear(era, yoe, doy + 1);
    } else if yoe < 399 {
      YearStartNext(yoe);
      YearsNotEmpty(yoe + 1);
      CivilByYear(era, yoe + 1, 0);
    } else {
      NextEra(doy);
      CivilByYear(era + 1, 0, 0);
    }
  }

  lemma YearsNotEmpty(yoe: int)
    ensures MarchYear(yoe) > 0
  {}

  lemma NextEra(doy: int)
    requires doy + 1 == MarchYear(399)
    ensures YearStart(399) + doy + 1 == 146_097 && YearStart(0) == 0 && MarchYear(0) > 0
  {}

  lemma Epoch()
    ensures CivilFromDays(0) == Date(1970, 1, 1)
  {
    hide CivilFromDays;
    CivilByYear(4, 369, 306);
  }

  // ------------------------------------------------------------------- both ways

  lemma DaysOfNext(d: Date)
    requires Valid(d)
    ensures DaysFromCivil(Next(d)) == DaysFromCivil(d) + 1
  {
    if d.day == MonthLength(d.year, d.month) && d.month == 12 {
      YearOfMonths(d.year);
      YearStep(d.year);
    }
  }

  lemma YearStep(year: int)
    ensures DaysToYear(year + 1) == DaysToYear(year) + YearLength(year)
  {}

  lemma YearOfMonths(year: int)
    ensures DaysToMonth(year, 12) + 31 == YearLength(year)
  {
    hide IsLeap;
    assert DaysToMonth(year, 4) == 62 + MonthLength(year, 2);
    assert DaysToMonth(year, 8) == 153 + DaysToMonth(year, 3);
    assert DaysToMonth(year, 12) == DaysToMonth(year, 8) + 122;
  }

  /** The code inverts days-from-civil: first on day numbers. */
  lemma {:induction false} DaysOfCivil(days: int)
    ensures DaysFromCivil(CivilFromDays(days)) == days
    decreases if days >= 0 then days else -days
  {
    hide CivilFromDays, DaysFromCivil, Next, Valid;
    if days == 0 {
      Epoch();
      EpochIsZero();
    } else if days > 0 {
      DaysOfCivil(days - 1);
      CivilSuccessor(days - 1);
      DaysOfNext(CivilFromDays(days - 1));
    } else {
      DaysOfCivil(days + 1);
      CivilSuccessor(days);
      DaysOfNext(CivilFromDays(days));
    }
  }

  lemma EpochIsZero()
    ensures DaysFromCivil(Date(1970, 1, 1)) == 0
  {}

  lemma {:induction false} YearsInOrder(a: int, b: int)
    requires a <= b
    ensures DaysToYear(a) + 365 * (b - a) <= DaysToYear(b)
    decreases b - a
  {
    if a < b {
      YearsInOrder(a, b - 1);
      YearStep(b - 1);
    }
  }

  lemma {:induction false} MonthsInOrder(year: int, a: int, b: int)
    requires 1 <= a < b
    ensures DaysToMonth(year, a) + MonthLength(year, a) <= DaysToMonth(year, b)
    decreases b
  {
    if a < b - 1 {
      MonthsInOrder(year, a, b - 1);
    }
  }

  lemma DayInYear(d: Date)
    requires Valid(d)
    ensures DaysToYear(d.year) <= DaysFromCivil(d) < DaysToYear(d.year + 1)
  {
    hide MonthLength, YearLength;
    YearOfMonths(d.year);
    YearStep(d.year);
    MonthsNonNegative(d.year, d.month);
    if d.month < 12 {
      MonthsInOrder(d.year, d.month, 12);
    } else {
      DecemberIs31(d.year);
    }
  }

  lemma DecemberIs31(year: int)
    ensures MonthLength(year, 12) == 31
  {}

  lemma {:induction false} MonthsNonNegative(year: int, month: int)
    ensures DaysToMonth(year, month) >= 0
    decreases month
  {
    if month > 1 {
      MonthsNonNegative(year, month - 1);
    }
  }

  /** Days-from-civil tells dates apart. */
  lemma DaysTellDatesApart(a: Date, b: Date)
    requires Valid(a) && Valid(b) && DaysFromCivil(a) == DaysFromCivil(b)
    ensures a == b
  {
    hide MonthLength, DaysToYear;
    DayInYear(a);
    DayInYear(b);
    if a.year < b.year {
      YearsInOrder(a.year + 1, b.year);
    } else if b.year < a.year {
      YearsInOrder(b.year + 1, a.year);
    } else if a.month < b.month {
      MonthsInOrder(a.year, a.month, b.month);
    } else if b.month < a.month {
      MonthsInOrder(a.year, b.month, a.month);
    }
  }

  /** And then on dates: every valid date is the date of its day number. */
  lemma CivilOfDays(d: Date)
    requires Valid(d)
    ensures CivilFromDays(DaysFromCivil(d)) == d
  {
    hide CivilFromDays, DaysFromCivil, Valid;
    var n := DaysFromCivil(d);
    DaysOfCivil(n);
    CivilSuccessor(n);
    DaysTellDatesApart(CivilFromDays(n), d);
  }

  // --------------------------------------------------------------- the 32-bit year

  const FIRST_DAY: int := -784_353_015_833
  const LAST_DAY: int := 784_351_576_776

  lemma YearsGrow(m: int, n: int)
    requires m <= n
    ensures CivilFromDays(m).year <= CivilFromDays(n).year
  {
    hide CivilFromDays, DaysFromCivil, DaysToYear;
    DaysOfCivil(m);
    DaysOfCivil(n);
    CivilSuccessor(m);
    CivilSuccessor(n);
    var a, b := CivilFromDays(m), CivilFromDays(n);
    DayInYear(a);
    DayInYear(b);
    if b.year < a.year {
      YearsInOrder(b.year + 1, a.year);
    }
  }

  lemma EdgeDays()
    ensures CivilFromDays(FIRST_DAY) == Date(I32_MIN, 1, 1) && CivilFromDays(FIRST_DAY - 1) == Date(I32_MIN - 1, 12, 31)
    ensures CivilFromDays(LAST_DAY) == Date(I32_MAX, 12, 31) && CivilFromDays(LAST_DAY + 1) == Date(I32_MAX + 1, 1, 1)
  {
    hide CivilFromDays;
    CivilByYear(-5368710, 351, 306);
    CivilByYear(-5368710, 351, 305);
    CivilByYear(5368709, 47, 305);
    CivilByYear(5368709, 47, 306);
  }

  /** The 32-bit result is the right date exactly for the days of the 32-bit years. */
  lemma CivilIsExactIff(days: int)
    ensures Civil(days) == CivilFromDays(days) <==> FIRST_DAY <= days <= LAST_DAY
  {
    hide CivilFromDays;
    EdgeDays();
    if days < FIRST_DAY {
      YearsGrow(days, FIRST_DAY - 1);
    } else if days > LAST_DAY {
      YearsGrow(LAST_DAY + 1, days);
    } else {
      YearsGrow(FIRST_DAY, days);
      YearsGrow(days, LAST_DAY);
    }
  }

  // -------------------------------------------------------------------- HTTP dates

  /** The fields `http_date` prints; weekday 0 is Thursday. */
  datatype Stamp = Stamp(weekday: int, date: Date, hour: int, minute: int, second: int)

  function HttpDate(secs: int): Stamp {
    var days := secs / 86_400;
    var daySecs := secs % 86_400;
    Stamp(days % 7, Civil(days), daySecs / 3600, daySecs % 3600 / 60, daySecs % 60)
  }

  /** One second later on the clock, the week and the calendar. */
  function Tick(s: Stamp): Stamp {
    if s.second < 59 then s.(second := s.second + 1)
    else if s.minute < 59 then s.(minute := s.minute + 1, second := 0)
    else if s.hour < 23 then s.(hour := s.hour + 1, minute := 0, second := 0)
    else Stamp((s.weekday + 1) % 7, Next(s.date), 0, 0, 0)
  }

  /** HTTP dates run like a clock: 1 January 1970 was a Thursday, and each second is the tick of the
      one before; every field is in range, so the name tables are never overrun. */
  lemma HttpDateTicks(secs: int)
    requires FIRST_DAY <= secs / 86_400 && (secs + 1) / 86_400 <= LAST_DAY
    ensures HttpDate(0) == Stamp(0, Date(1970, 1, 1), 0, 0, 0)
    ensures HttpDate(secs + 1) == Tick(HttpDate(secs))
    ensures var s := HttpDate(secs);
      0 <= s.weekday < 7 && Valid(s.date) && 0 <= s.hour < 24 && 0 <= s.minute < 60 && 0 <= s.second < 60
  {
    hide CivilFromDays, Civil, Next, Valid, HttpDate;
    Epoch();
    CivilIsExactIff(0);
    StampOf(0, 0);
    var days, r := secs / 86_400, secs % 86_400;
    CivilIsExactIff(days);
    CivilSuccessor(days);
    DayClock(r);
    StampOf(days, r);
    if r < 86_399 {
      StampOf(days, r + 1);
    } else {
      QuotientIs(secs + 1, 86_400, days + 1, 0);
      CivilIsExactIff(days + 1);
      StampOf(days + 1, 0);
      NextWeekday(days);
    }
  }

  lemma StampOf(days: int, r: int)
    requires 0 <= r < 86_400
    ensures HttpDate(86_400 * days + r) == Stamp(days % 7, Civil(days), r / 3600, r % 3600 / 60, r % 60)
  {
    hide Civil;
    QuotientIs(86_400 * days + r, 86_400, days, r);
  }

  lemma NextWeekday(days: int)
    ensures (days + 1) % 7 == (days % 7 + 1) % 7
  {}

  lemma DayClock(r: int)
    requires 0 <= r < 86_400
    ensures 0 <= r / 3600 < 24 && 0 <= r % 3600 / 60 < 60 && r == 3600 * (r / 3600) + 60 * (r % 3600 / 60) + r % 60
    ensures r % 60 < 59 ==> (r + 1) / 3600 == r / 3600 && (r + 1) % 3600 / 60 == r % 3600 / 60 && (r + 1) % 60 == r % 60 + 1
    ensures r % 60 == 59 ==> (r + 1) % 60 == 0
    ensures r % 60 == 59 && r % 3600 / 60 < 59 ==> (r + 1) / 3600 == r / 3600 && (r + 1) % 3600 / 60 == r % 3600 / 60 + 1
    ensures r % 60 == 59 && r % 3600 / 60 == 59 ==> (r + 1) / 3600 == r / 3600 + 1 && (r + 1) % 3600 / 60 == 0
    ensures r == 86_399 <==> r % 60 == 59 && r % 3600 / 60 == 59 && r / 3600 == 23
  {}

  /** And they can be read back: the fields give the second they were made from, exactly as long as
      the year fits its 32 bits. */
  lemma HttpDateReadsBackIff(secs: int)
    ensures var s := HttpDate(secs);
      86_400 * DaysFromCivil(s.date) + 3600 * s.hour + 60 * s.minute + s.second == secs
      <==> FIRST_DAY <= secs / 86_400 <= LAST_DAY
  {
    hide CivilFromDays, DaysFromCivil;
    var days := secs / 86_400;
    DaysOfCivil(days);
    DayClock(secs % 86_400);
    CivilIsExactIff(days);
    if !(FIRST_DAY <= days <= LAST_DAY) {
      OtherYearOtherDay(CivilFromDays(days), ToI32(CivilFromDays(days).year));
    }
  }

  lemma OtherYearOtherDay(d: Date, year: int)
    requires year != d.year
    ensures DaysFromCivil(d.(year := year)) != DaysFromCivil(d)
  {
    hide DaysToYear, DaysToMonth;
    MonthsDifferByOne(d.year, year, d.month);
    if year < d.year {
      YearsInOrder(year, d.year);
    } else {
      YearsInOrder(d.year, year);
    }
  }

  lemma {:induction false} MonthsDifferByOne(a: int, b: int, month: int)
    ensures -1 <= DaysToMonth(a, month) - DaysToMonth(b, month) <= 1
    ensures month <= 2 ==> DaysToMonth(a, month) == DaysToMonth(b, month)
    decreases month
  {
    if month > 1 {
      MonthsDifferByOne(a, b, month - 1);
      if month > 3 {
        FromMarchOn(a, b, month);
      }
    }
  }

  /** After February the months of all years are alike. */
  lemma {:induction false} FromMarchOn(a: int, b: int, month: int)
    requires month >= 3
    ensures DaysToMonth(a, month) - DaysToMonth(b, month) == MonthLength(a, 2) - MonthLength(b, 2)
    decreases month
  {
    if month > 3 {
      FromMarchOn(a, b, month - 1);
    }
  }
}
