/**
 The closed formula that names today's log file (civil-from-days), against a
 calendar that counts one day at a time.
 */
module CivilDate {

  datatype Date = Date(year: int, month: int, day: int)

  // ------------------------------------------------------------ the Gregorian calendar

  predicate IsLeap(y: int) {
    y % 4 == 0 && (y % 100 != 0 || y % 400 == 0)
  }

  function DaysInMonth(y: int, m: int): int {
    if m == 2 then (if IsLeap(y) then 29 else 28)
    else if m == 4 || m == 6 || m == 9 || m == 11 then 30
    else 31
  }

  predicate Valid(date: Date) {
    1 <= date.month <= 12 && 1 <= date.day <= DaysInMonth(date.year, date.month)
  }

  /** Tomorrow. */
  function NextDay(date: Date): Date {
    if date.day < DaysInMonth(date.year, date.month) then date.(day := date.day + 1)
    else if date.month < 12 then Date(date.year, date.month + 1, 1)
    else Date(date.year + 1, 1, 1)
  }

  /** The date `n` days after another, counted day by day. */
  function Later(date: Date, n: nat): Date {
    if n == 0 then date else NextDay(Later(date, n - 1))
  }

  const EPOCH := Date(1970, 1, 1)

  // ------------------------------------------------------------ the formula

  const DAYS_PER_ERA := 146_097

  function YearOfEra(doe: int): int {
    (doe - doe / 1460 + doe / 36_524 - doe / 146_096) / 365
  }

  function DayOfYear(doe: int): int {
    var yoe := YearOfEra(doe);
    doe - (365 * yoe + yoe / 4 - yoe / 100)
  }

  /** Years start on the first of March here; `mp` counts months from it. */
  function DateOf(era: int, yoe: int, doy: int): Date {
    var mp := (5 * doy + 2) / 153;
    var d := doy - (153 * mp + 2) / 5 + 1;
    var m := if mp < 10 then mp + 3 else mp - 9;
    var y := yoe + era * 400;
    Date(if m <= 2 then y + 1 else y, m, d)
  }

  function CivilFromDays(days: nat): Date {
    var z := days + 719_468;
    var era := z / DAYS_PER_ERA;
    var doe := z % DAYS_PER_ERA;
    DateOf(era, YearOfEra(doe), DayOfYear(doe))
  }

  // ------------------------------------------------------------ years of an era

  /** Whether the year that starts in March of year `yoe` ends with a 29 February. */
  predicate EndsLeap(yoe: int) {
    IsLeap(yoe + 1)
  }

  predicate InYear(yoe: int, doy: int) {
    0 <= yoe < 400 && 0 <= doy < (if EndsLeap(yoe) then 366 else 365)
  }

  function DayOfEra(yoe: int, doy: int): int {
    365 * yoe + yoe / 4 - yoe / 100 + doy
  }

  /** Centuries, four-year groups and years of an era. */
  lemma {:induction false} Digits(yoe: int) returns (c: int, q: int, r: int)
    requires 0 <= yoe < 400
    ensures yoe == 100 * c + 4 * q + r && 0 <= c < 4 && 0 <= q < 25 && 0 <= r < 4
    ensures yoe / 4 == 25 * c + q && yoe / 100 == c
    ensures EndsLeap(yoe) <==> r == 3 && (q < 24 || c == 3)
  {
    c := yoe / 100;
    q := yoe % 100 / 4;
    r := yoe % 4;
  }

  /** The correction terms of the formula, for the day `doy` of year 100c + 4q + r. */
  lemma {:induction false} Corrections(c: int, q: int, r: int, doy: int, doe: int)
    requires 0 <= c < 4 && 0 <= q < 25 && 0 <= r < 4
    requires 0 <= doy <= 364 || (doy == 365 && r == 3 && (q < 24 || c == 3))
    requires doe == 36_524 * c + 1461 * q + 365 * r + doy
    ensures 0 <= doe < DAYS_PER_ERA
    ensures doe / 36_524 - doe / 146_096 == c
    ensures doe / 1460 == 25 * c + q + (if 24 * c + q + 365 * r + doy >= 1460 then 1 else 0)
  {
    assert doe == 1460 * (25 * c + q) + (24 * c + q + 365 * r + doy);
  }

  lemma {:induction false} YearOfEraIsRight(yoe: int, doy: int)
    requires InYear(yoe, doy)
    ensures 0 <= DayOfEra(yoe, doy) < DAYS_PER_ERA
    ensures YearOfEra(DayOfEra(yoe, doy)) == yoe && DayOfYear(DayOfEra(yoe, doy)) == doy
  {
    var c, q, r := Digits(yoe);
    Corrections(c, q, r, doy, DayOfEra(yoe, doy));
  }

  /** Every day of an era falls in some year of it. */
  lemma {:induction false} EveryDayHasAYear(doe: int) returns (yoe: int, doy: int)
    requires 0 <= doe < DAYS_PER_ERA
    ensures InYear(yoe, doy) && DayOfEra(yoe, doy) == doe
    decreases doe
  {
    if doe == 0 {
      return 0, 0;
    }
    yoe, doy := EveryDayHasAYear(doe - 1);
    if InYear(yoe, doy + 1) {
      doy := doy + 1;
    } else {
      YearTurns(yoe, doy);
      yoe, doy := yoe + 1, 0;
    }
  }

  /** The last day of a year is followed by the first of the next, or it ends the era. */
  lemma {:induction false} YearTurns(yoe: int, doy: int)
    requires InYear(yoe, doy) && !InYear(yoe, doy + 1)
    ensures yoe == 399 ==> DayOfEra(yoe, doy) == DAYS_PER_ERA - 1
    ensures yoe < 399 ==> DayOfEra(yoe + 1, 0) == DayOfEra(yoe, doy) + 1
  {
    var c, q, r := Digits(yoe);
    if yoe < 399 {
      var c', q', r' := Digits(yoe + 1);
    }
  }

  // ------------------------------------------------------------ days of a year

  /** Day one of month `mp` after March, as a day of the year. */
  function MonthStart(mp: int): int {
    (153 * mp + 2) / 5
  }

  /** The lengths of the months from March on. */
  lemma {:induction false} MonthLengths(y: int, mp: int)
    requires 0 <= mp < 12
    ensures var m := if mp < 10 then mp + 3 else mp - 9;
            m != 2 ==> MonthStart(mp + 1) - MonthStart(mp) == DaysInMonth(y, m)
    ensures MonthStart(0) == 0 && MonthStart(11) == 337
  {}

  lemma {:induction false} MonthOf(doy: int)
    requires 0 <= doy < 366
    ensures var mp := (5 * doy + 2) / 153;
            0 <= mp < 12 && MonthStart(mp) <= doy < MonthStart(mp + 1)
  {}

  lemma {:induction false} MonthIs(doy: int, mp: int)
    requires 0 <= doy < 366 && 0 <= mp < 12 && MonthStart(mp) <= doy < MonthStart(mp + 1)
    ensures (5 * doy + 2) / 153 == mp
  {}

  lemma {:induction false} DateIsValid(era: int, yoe: int, doy: int)
    requires InYear(yoe, doy)
    ensures Valid(DateOf(era, yoe, doy))
  {
    MonthOf(doy);
    var mp := (5 * doy + 2) / 153;
    MonthLengths(DateOf(era, yoe, doy).year, mp);
    LeapOfEra(era, yoe);
  }

  /** Leap years repeat every 400 years. */
  lemma {:induction false} LeapOfEra(era: int, yoe: int)
    ensures IsLeap(yoe + era * 400 + 1) == EndsLeap(yoe)
  {
    Fours(yoe + 1, 100 * era);
    Hundreds(yoe + 1, 4 * era);
    FourHundreds(yoe + 1, era);
  }

  lemma Fours(y: int, k: int)
    ensures (y + 4 * k) % 4 == y % 4
  {}

  lemma Hundreds(y: int, k: int)
    ensures (y + 100 * k) % 100 == y % 100
  {}

  lemma FourHundreds(y: int, k: int)
    ensures (y + 400 * k) % 400 == y % 400
  {}

  lemma {:induction false} DayAdvances(era: int, yoe: int, doy: int)
    requires InYear(yoe, doy) && InYear(yoe, doy + 1)
    ensures DateOf(era, yoe, doy + 1) == NextDay(DateOf(era, yoe, doy))
  {
    MonthOf(doy);
    var mp := (5 * doy + 2) / 153;
    MonthLengths(DateOf(era, yoe, doy).year, mp);
    LeapOfEra(era, yoe);
    if doy + 1 < MonthStart(mp + 1) {
      MonthIs(doy + 1, mp);
    } else {
      MonthIs(doy + 1, mp + 1);
    }
  }

  /** 28 or 29 February is followed by 1 March. */
  lemma {:induction false} YearAdvances(era: int, yoe: int, doy: int, era': int, yoe': int)
    requires InYear(yoe, doy) && !InYear(yoe, doy + 1)
    requires 0 <= yoe' < 400 && yoe' + era' * 400 == yoe + era * 400 + 1
    ensures DateOf(era', yoe', 0) == NextDay(DateOf(era, yoe, doy))
  {
    MonthIs(doy, 11);
    LeapOfEra(era, yoe);
  }

  // ------------------------------------------------------------ the theorem

  lemma {:induction false} StartsAtTheEpoch()
    ensures CivilFromDays(0) == EPOCH
  {
    var z := 0 + 719_468;
    assert z / DAYS_PER_ERA == 4 && z % DAYS_PER_ERA == 135_080;
    assert YearOfEra(135_080) == 369 && DayOfYear(135_080) == 306;
    assert DateOf(4, 369, 306) == EPOCH;
    hide YearOfEra, DayOfYear, DateOf;
  }

  /** The formula at a day given by era, year and day of the year. */
  lemma {:induction false} FormulaAt(n: nat, era: int, yoe: int, doy: int)
    requires InYear(yoe, doy) && n + 719_468 == era * DAYS_PER_ERA + DayOfEra(yoe, doy)
    ensures CivilFromDays(n) == DateOf(era, yoe, doy)
  {
    YearOfEraIsRight(yoe, doy);
    var z, doe := n + 719_468, DayOfEra(yoe, doy);
    assert z / DAYS_PER_ERA == era && z % DAYS_PER_ERA == doe;
  }

  lemma {:induction false} Locate(n: nat) returns (era: int, yoe: int, doy: int)
    ensures InYear(yoe, doy) && n + 719_468 == era * DAYS_PER_ERA + DayOfEra(yoe, doy)
  {
    era := (n + 719_468) / DAYS_PER_ERA;
    yoe, doy := EveryDayHasAYear((n + 719_468) % DAYS_PER_ERA);
  }

  lemma {:induction false} AlwaysAValidDate(n: nat)
    ensures Valid(CivilFromDays(n))
  {
    var era, yoe, doy := Locate(n);
    FormulaAt(n, era, yoe, doy);
    DateIsValid(era, yoe, doy);
  }

  /** The day after a located one, located. */
  lemma {:induction false} LocateNext(era: int, yoe: int, doy: int) returns (era': int, yoe': int, doy': int)
    requires InYear(yoe, doy)
    ensures InYear(yoe', doy')
    ensures era' * DAYS_PER_ERA + DayOfEra(yoe', doy') == era * DAYS_PER_ERA + DayOfEra(yoe, doy) + 1
    ensures DateOf(era', yoe', doy') == NextDay(DateOf(era, yoe, doy))
  {
    era', yoe', doy' := era, yoe, doy + 1;
    if InYear(yoe, doy + 1) {
      DayAdvances(era, yoe, doy);
    } else {
      YearTurns(yoe, doy);
      if yoe < 399 {
        yoe', doy' := yoe + 1, 0;
      } else {
        era', yoe', doy' := era + 1, 0, 0;
      }
      YearAdvances(era, yoe, doy, era', yoe');
    }
  }

  lemma {:induction false} OneDayLater(n: nat)
    ensures CivilFromDays(n + 1) == NextDay(CivilFromDays(n))
  {
    var era, yoe, doy := Locate(n);
    FormulaAt(n, era, yoe, doy);
    var era', yoe', doy' := LocateNext(era, yoe, doy);
    FormulaAt(n + 1, era', yoe', doy');
  }

  /** From any day on, the formula counts days. */
  lemma {:induction false} DaysLater(m: nat, n: nat)
    ensures CivilFromDays(m + n) == Later(CivilFromDays(m), n)
  {
    hide CivilFromDays, NextDay;
    if n > 0 {
      DaysLater(m, n - 1);
      OneDayLater(m + n - 1);
    }
  }

  /** The dates of days 0, 1, 2 and so on are those that counting from the epoch gives. */
  ghost predicate CountsDays(date: nat -> Date) {
    forall n: nat :: date(n) == Later(EPOCH, n)
  }

  /** The formula names the same day as counting from the epoch, for every day from it on. */
  lemma {:induction false} FormulaCountsDays()
    ensures CountsDays(CivilFromDays)
  {
    hide CivilFromDays, Later;
    forall n: nat ensures CivilFromDays(n) == Later(EPOCH, n) {
      StartsAtTheEpoch();
      DaysLater(0, n);
    }
  }
}
