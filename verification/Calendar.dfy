/** Civil time from milliseconds (experiments/policy-engine-spike/src/model.rs), against the
    Gregorian rules of section 5.7 and Appendix C of RFC 3339. */
module Calendar {
  newtype i64 = n: int | -0x8000_0000_0000_0000 <= n < 0x8000_0000_0000_0000

  datatype Date = Date(year: int, month: int, day: int)

  datatype DateTime = DateTime(date: Date, hour: int, minute: int, second: int, millis: int)

  // ------------------------------------------------------- the Gregorian rules

  predicate IsLeap(year: int) {
    year % 4 == 0 && (year % 100 != 0 || year % 400 == 0)
  }

  function DaysInMonth(year: int, month: int): int {
    if month == 2 then (if IsLeap(year) then 29 else 28)
    else if month == 4 || month == 6 || month == 9 || month == 11 then 30
    else 31
  }

  predicate ValidDate(t: Date) {
    1 <= t.month <= 12 && 1 <= t.day <= DaysInMonth(t.year, t.month)
  }

  predicate ValidTime(t: DateTime) {
    ValidDate(t.date) && 0 <= t.hour < 24 && 0 <= t.minute < 60 && 0 <= t.second < 60 && 0 <= t.millis < 1000
  }

  /** The day after a day. */
  function NextDay(t: Date): Date {
    if t.day < DaysInMonth(t.year, t.month) then Date(t.year, t.month, t.day + 1)
    else if t.month < 12 then Date(t.year, t.month + 1, 1)
    else Date(t.year + 1, 1, 1)
  }

  predicate Earlier(a: Date, b: Date) {
    a.year < b.year || (a.year == b.year && (a.month < b.month || (a.month == b.month && a.day < b.day)))
  }

  function SecondOfDay(t: DateTime): int {
    3600 * t.hour + 60 * t.minute + t.second
  }

  // ------------------------------------------------------------ civil from days

  /** Days before a year of the 400-year cycle, years beginning in March. */
  function DaysBefore(yoe: int): int {
    365 * yoe + yoe / 4 - yoe / 100
  }

  function YearOfEra(doe: int): int {
    (doe - doe / 1460 + doe / 36524 - doe / 146096) / 365
  }

  function MonthOf(doy: int): int {
    (5 * doy + 2) / 153
  }

  function DaysBeforeMonth(mp: int): int {
    (153 * mp + 2) / 5
  }

  function CivilFromDays(days: int): Date {
    var z := days + 719468;
    var era, doe := z / 146097, z % 146097;
    var yoe := YearOfEra(doe);
    var doy := doe - DaysBefore(yoe);
    var mp := MonthOf(doy);
    var month := if mp < 10 then mp + 3 else mp - 9;
    Date(yoe + era * 400 + (if month <= 2 then 1 else 0), month, doy - DaysBeforeMonth(mp) + 1)
  }

  function FromMillis(ms: int): DateTime {
    var secs := ms / 1000;
    var sod := secs % 86400;
    DateTime(CivilFromDays(secs / 86400), sod / 3600, sod % 3600 / 60, sod % 60, ms % 1000)
  }

  // ---------------------------------------------------------- days from civil

  /** A year's 400-year cycle and its place in it. */
  function Era(year: int): int {
    year / 400
  }

  function InEra(year: int): int {
    year % 400
  }

  /** The inverse formula. */
  function DaysFromCivil(t: Date): int {
    var y := if t.month <= 2 then t.year - 1 else t.year;
    var mp := if t.month > 2 then t.month - 3 else t.month + 9;
    Era(y) * 146097 + DaysBefore(InEra(y)) + DaysBeforeMonth(mp) + t.day - 1 - 719468
  }

  // -------------------------------------------------------------- the two cycles

  /** Days in the year that begins in March of a cycle year. */
  function CycleYearLength(yoe: int): int {
    if IsLeap(yoe + 1) then 366 else 365
  }

  lemma DaysBeforeStep(yoe: int)
    requires 0 <= yoe < 400
    ensures DaysBefore(yoe) + CycleYearLength(yoe) == if yoe < 399 then DaysBefore(yoe + 1) else 146097
  {
    var c, q, r := yoe / 100, yoe % 100 / 4, yoe % 4;
    assert yoe == 100 * c + 4 * q + r && yoe / 4 == 25 * c + q;
    if r < 3 {
      assert (yoe + 1) % 4 == r + 1 && (yoe + 1) / 4 == 25 * c + q && (yoe + 1) / 100 == c;
    } else if q < 24 {
      assert (yoe + 1) % 4 == 0 && (yoe + 1) % 100 == 4 * q + 4 && (yoe + 1) / 4 == 25 * c + q + 1 && (yoe + 1) / 100 == c;
    } else {
      assert yoe + 1 == 100 * (c + 1) && (yoe + 1) / 4 == 25 * (c + 1);
    }
  }

  lemma {:induction false} DaysBeforeGrows(a: int, b: int)
    requires 0 <= a <= b < 400
    ensures DaysBefore(a) + 365 * (b - a) <= DaysBefore(b)
    decreases b - a
  {
    hide DaysBefore, IsLeap;
    if a < b {
      DaysBeforeGrows(a, b - 1);
      DaysBeforeStep(b - 1);
    }
  }

  /** The year formula on a day given by its century, four-year group, year and day of year. */
  lemma YearOfEraOn(c: int, q: int, r: int, doy: int)
    requires 0 <= c < 4 && 0 <= q < 25 && 0 <= r < 4
    requires 0 <= doy < CycleYearLength(100 * c + 4 * q + r)
    ensures DaysBefore(100 * c + 4 * q + r) == 36524 * c + 1461 * q + 365 * r
    ensures YearOfEra(36524 * c + 1461 * q + 365 * r + doy) == 100 * c + 4 * q + r
  {
    var doe := 36524 * c + 1461 * q + 365 * r + doy;
    var yoe := 100 * c + 4 * q + r;
    assert yoe / 4 == 25 * c + q && yoe / 100 == c;
    assert doy == 365 ==> r == 3 && (q < 24 || c == 3);
    var e := if 24 * c + q + 365 * r + doy >= 1460 then 1 else 0;
    var f := if c == 3 && q == 24 && r == 3 && doy == 365 then 1 else 0;
    assert doe / 1460 == 25 * c + q + e;
    assert doe / 36524 == c + f;
    assert doe / 146096 == f;
    assert 0 <= doy - e <= 364;
    assert doe - doe / 1460 + doe / 36524 - doe / 146096 == 365 * yoe + (doy - e);
  }

  /** The year formula finds the cycle year that contains a cycle day. */
  lemma YearOfEraIsExact(doe: int)
    requires 0 <= doe < 146097
    ensures var yoe := YearOfEra(doe);
            0 <= yoe < 400 && DaysBefore(yoe) <= doe < DaysBefore(yoe) + CycleYearLength(yoe)
  {
    assert DaysBefore(0) == 0;
    hide YearOfEra, CycleYearLength, DaysBefore;
    var yoe := CycleYear(doe, 0);
    var c, q, r := yoe / 100, yoe % 100 / 4, yoe % 4;
    assert yoe == 100 * c + 4 * q + r;
    YearOfEraOn(c, q, r, doe - DaysBefore(yoe));
  }

  /** Every cycle day lies in a cycle year. */
  lemma {:induction false} CycleYear(doe: int, from: int) returns (yoe: int)
    requires 0 <= from < 400 && DaysBefore(from) <= doe < 146097
    ensures 0 <= yoe < 400 && DaysBefore(yoe) <= doe < DaysBefore(yoe) + CycleYearLength(yoe)
    decreases 400 - from
  {
    hide CycleYearLength, DaysBefore;
    DaysBeforeStep(from);
    if doe < DaysBefore(from) + CycleYearLength(from) {
      yoe := from;
    } else {
      yoe := CycleYear(doe, from + 1);
    }
  }

  lemma YearOfEraIsUnique(doe: int, yoe: int)
    requires 0 <= doe < 146097 && 0 <= yoe < 400
    requires DaysBefore(yoe) <= doe < DaysBefore(yoe) + CycleYearLength(yoe)
    ensures YearOfEra(doe) == yoe
  {
    var found := YearOfEra(doe);
    YearOfEraIsExact(doe);
    DaysBeforeStep(found);
    DaysBeforeStep(yoe);
    if found < yoe {
      DaysBeforeGrows(found + 1, yoe);
    } else if yoe < found {
      DaysBeforeGrows(yoe + 1, found);
    }
  }

  /** The month formula: twelve months from March, the last one running to the year's end. */
  lemma MonthIsExact(doy: int)
    requires 0 <= doy < 366
    ensures var mp := MonthOf(doy);
            0 <= mp < 12 && DaysBeforeMonth(mp) <= doy && (mp < 11 ==> doy < DaysBeforeMonth(mp + 1))
  {
  }

  lemma MonthIsUnique(doy: int, mp: int)
    requires 0 <= doy < 366 && 0 <= mp < 12
    requires DaysBeforeMonth(mp) <= doy && (mp < 11 ==> doy < DaysBeforeMonth(mp + 1))
    ensures MonthOf(doy) == mp
  {
  }

  /** Month lengths agree with the table, counted from March. */
  lemma MonthLengths(year: int, month: int)
    requires 1 <= month <= 12
    ensures var mp := if month > 2 then month - 3 else month + 9;
            0 <= mp < 12
            && (mp < 11 ==> DaysBeforeMonth(mp) + DaysInMonth(year, month) == DaysBeforeMonth(mp + 1))
            && (mp == 11 ==> DaysBeforeMonth(mp) + DaysInMonth(year, month) == if IsLeap(year) then 366 else 365)
  {
  }

  // ------------------------------------------------------------- main results

  /** The shifted date of a day: cycle, cycle year, month from March and day of it. */
  lemma CivilParts(days: int)
    ensures var z := days + 719468;
            var yoe := YearOfEra(z % 146097);
            var doy := z % 146097 - DaysBefore(yoe);
            && 0 <= yoe < 400 && 0 <= doy < CycleYearLength(yoe)
            && 0 <= MonthOf(doy) < 12 && DaysBeforeMonth(MonthOf(doy)) <= doy
            && (MonthOf(doy) < 11 ==> doy < DaysBeforeMonth(MonthOf(doy) + 1))
  {
    var doe := (days + 719468) % 146097;
    YearOfEraIsExact(doe);
    MonthIsExact(doe - DaysBefore(YearOfEra(doe)));
  }

  /** The computed month and day are valid for the computed year. */
  lemma CivilIsValid(days: int)
    ensures ValidDate(CivilFromDays(days))
  {
    hide YearOfEra, DaysBefore, MonthOf, DaysBeforeMonth, IsLeap, DaysInMonth;
    CivilParts(days);
    var t := CivilFromDays(days);
    MonthLengths(t.year, t.month);
    var z := days + 719468;
    LeapRepeats(YearOfEra(z % 146097) + 1, z / 146097);
  }

  lemma LeapRepeats(year: int, eras: int)
    ensures IsLeap(year + eras * 400) == IsLeap(year)
  {
    LeapIsCyclic(year + eras * 400);
    LeapIsCyclic(year);
    hide IsLeap;
    assert (year + eras * 400) % 400 == year % 400;
  }

  lemma LeapIsCyclic(year: int)
    ensures IsLeap(year) == IsLeap(year % 400)
  {
  }

  /** The inverse formula returns the day number of every computed date. */
  lemma DaysInvertCivil(days: int)
    ensures DaysFromCivil(CivilFromDays(days)) == days
  {
    hide YearOfEra, DaysBefore, MonthOf, DaysBeforeMonth;
    CivilParts(days);
    var z := days + 719468;
    var era, yoe := z / 146097, YearOfEra(z % 146097);
    assert (yoe + era * 400) / 400 == era && (yoe + era * 400) % 400 == yoe;
  }

  /** And every valid date is computed from its day number. */
  lemma CivilInvertsDays(t: Date)
    requires ValidDate(t)
    ensures CivilFromDays(DaysFromCivil(t)) == t
  {
    hide *;
    var y := if t.month <= 2 then t.year - 1 else t.year;
    var mp := if t.month > 2 then t.month - 3 else t.month + 9;
    DateParts(t);
    EraParts(y);
    DayFits(t);
    EraOfDate(InEra(y), mp, t.day - 1);
    CivilOfEra(Era(y), DaysBefore(InEra(y)) + DaysBeforeMonth(mp) + t.day - 1, InEra(y), mp, t.day - 1);
  }

  lemma DateParts(t: Date)
    requires ValidDate(t)
    ensures 1 <= t.month <= 12 && 1 <= t.day
    ensures var y := if t.month <= 2 then t.year - 1 else t.year;
            var mp := if t.month > 2 then t.month - 3 else t.month + 9;
            DaysFromCivil(t) == Era(y) * 146097 + (DaysBefore(InEra(y)) + DaysBeforeMonth(mp) + t.day - 1) - 719468
  {
    hide Era, InEra, DaysBefore, DaysBeforeMonth, DaysInMonth;
  }

  /** The day of the era gives back its year and month. */
  lemma EraOfDate(yoe: int, mp: int, rest: int)
    requires 0 <= yoe < 400 && 0 <= mp < 12 && 0 <= rest
    requires 0 <= DaysBeforeMonth(mp) + rest < CycleYearLength(yoe) && (mp < 11 ==> DaysBeforeMonth(mp) + rest < DaysBeforeMonth(mp + 1))
    ensures var doe := DaysBefore(yoe) + DaysBeforeMonth(mp) + rest;
            0 <= doe < 146097 && YearOfEra(doe) == yoe && MonthOf(doe - DaysBefore(yoe)) == mp
  {
    hide YearOfEra, DaysBefore, MonthOf, DaysBeforeMonth, IsLeap;
    YearFits(yoe, DaysBeforeMonth(mp) + rest);
    YearOfEraIsUnique(DaysBefore(yoe) + DaysBeforeMonth(mp) + rest, yoe);
    MonthIsUnique(DaysBeforeMonth(mp) + rest, mp);
  }

  lemma EraParts(y: int)
    ensures Era(y) * 400 + InEra(y) == y && 0 <= InEra(y) < 400
  {
  }

  /** The date of a day given by its era and its day of the era. */
  lemma CivilOfEra(era: int, doe: int, yoe: int, mp: int, rest: int)
    requires 0 <= doe < 146097 && 0 <= mp < 12
    requires YearOfEra(doe) == yoe && doe - DaysBefore(yoe) == DaysBeforeMonth(mp) + rest && MonthOf(doe - DaysBefore(yoe)) == mp
    ensures CivilFromDays(era * 146097 + doe - 719468)
            == Date(era * 400 + yoe + (if mp < 10 then 0 else 1), if mp < 10 then mp + 3 else mp - 9, rest + 1)
  {
    hide YearOfEra, DaysBefore, MonthOf, DaysBeforeMonth;
    EraSplit(era, doe);
  }

  lemma EraSplit(era: int, doe: int)
    requires 0 <= doe < 146097
    ensures (era * 146097 + doe) / 146097 == era && (era * 146097 + doe) % 146097 == doe
  {
  }

  /** A valid date lies inside its year counted from March. */
  lemma DayFits(t: Date)
    requires ValidDate(t)
    ensures var y := if t.month <= 2 then t.year - 1 else t.year;
            var mp := if t.month > 2 then t.month - 3 else t.month + 9;
            var doy := DaysBeforeMonth(mp) + t.day - 1;
            0 <= doy < CycleYearLength(InEra(y)) && DaysBeforeMonth(mp) <= doy && (mp < 11 ==> doy < DaysBeforeMonth(mp + 1))
  {
    var mp := if t.month > 2 then t.month - 3 else t.month + 9;
    assert mp < 11 ==> 0 <= DaysBeforeMonth(mp + 1) <= 337;
    assert 0 <= DaysBeforeMonth(mp);
    hide DaysBeforeMonth, DaysInMonth, IsLeap, Era, InEra;
    MonthLengths(t.year, t.month);
    CycleStep(t.year);
    CycleStep(t.year + 1);
  }

  lemma YearFits(yoe: int, doy: int)
    requires 0 <= yoe < 400 && 0 <= doy < CycleYearLength(yoe)
    ensures 0 <= DaysBefore(yoe) + doy < 146097
  {
    DaysBeforeStep(yoe);
    if yoe < 399 {
      DaysBeforeStep(399);
      DaysBeforeGrows(yoe + 1, 399);
    }
    DaysBeforeGrows(0, yoe);
  }

  /** The day after a date has the next day number. */
  lemma NextDayAdvances(t: Date)
    requires ValidDate(t)
    ensures ValidDate(NextDay(t)) && DaysFromCivil(NextDay(t)) == DaysFromCivil(t) + 1
  {
    MonthLengths(t.year, t.month);
    if t.day == DaysInMonth(t.year, t.month) && t.month == 2 {
      MarchFollows(t.year);
    }
  }

  /** The first of March follows the last of February, across a change of cycle too. */
  lemma MarchFollows(year: int)
    ensures DaysFromCivil(Date(year, 3, 1)) == DaysFromCivil(Date(year, 2, if IsLeap(year) then 29 else 28)) + 1
  {
    assert DaysBefore(0) == 0;
    hide DaysBefore, DaysFromCivil, IsLeap, Era, InEra;
    CycleStep(year);
    DaysBeforeStep(InEra(year - 1));
    FirstOfMarch(year);
    InFebruary(year, if IsLeap(year) then 29 else 28);
  }

  lemma FirstOfMarch(year: int)
    ensures DaysFromCivil(Date(year, 3, 1)) == Era(year) * 146097 + DaysBefore(InEra(year)) - 719468
  {
    hide DaysBefore;
  }

  lemma InFebruary(year: int, day: int)
    ensures DaysFromCivil(Date(year, 2, day)) == Era(year - 1) * 146097 + DaysBefore(InEra(year - 1)) + 337 + day - 1 - 719468
  {
    hide DaysBefore;
  }

  /** A year's place in its cycle, from the year before. */
  lemma CycleStep(year: int)
    ensures var yoe := InEra(year - 1);
            && 0 <= yoe < 400 && IsLeap(year) == IsLeap(yoe + 1)
            && (yoe < 399 ==> InEra(year) == yoe + 1 && Era(year) == Era(year - 1))
            && (yoe == 399 ==> InEra(year) == 0 && Era(year) == Era(year - 1) + 1)
  {
    hide IsLeap;
    var e, yoe := (year - 1) / 400, (year - 1) % 400;
    assert year == 400 * e + yoe + 1;
    LeapIsCyclic(year);
    LeapIsCyclic(yoe + 1);
    if yoe < 399 {
      assert year / 400 == e && year % 400 == yoe + 1;
    } else {
      assert year / 400 == e + 1 && year % 400 == 0;
    }
  }

  lemma KnownDate(t: Date, days: int)
    requires ValidDate(t) && DaysFromCivil(t) == days
    ensures CivilFromDays(days) == t
  {
    CivilInvertsDays(t);
  }

  lemma EpochIsDayZero()
    ensures CivilFromDays(0) == Date(1970, 1, 1)
  {
    hide CivilFromDays;
    KnownDate(Date(1970, 1, 1), 0);
  }

  /** The whole algorithm: day zero is 1 January 1970, and each next day is the next date. */
  lemma CivilFollowsTheCalendar(days: int)
    ensures CivilFromDays(0) == Date(1970, 1, 1)
    ensures CivilFromDays(days + 1) == NextDay(CivilFromDays(days))
  {
    hide *;
    EpochIsDayZero();
    CivilIsValid(days);
    DaysInvertCivil(days);
    NextDayAdvances(CivilFromDays(days));
    CivilInvertsDays(NextDay(CivilFromDays(days)));
  }

  /** Later days are later dates. */
  lemma {:induction false} DatesAreChronological(a: int, b: int)
    requires a < b
    ensures Earlier(CivilFromDays(a), CivilFromDays(b))
    decreases b - a
  {
    hide CivilFromDays;
    CivilFollowsTheCalendar(b - 1);
    CivilIsValid(b - 1);
    if a < b - 1 {
      DatesAreChronological(a, b - 1);
    }
  }

  predicate Sooner(a: DateTime, b: DateTime) {
    Earlier(a.date, b.date)
    || (a.date == b.date
        && (SecondOfDay(a) < SecondOfDay(b) || (SecondOfDay(a) == SecondOfDay(b) && a.millis < b.millis)))
  }

  /** Every instant has valid fields that say which instant it is. */
  lemma FieldsAreExact(ms: int)
    ensures ValidTime(FromMillis(ms))
    ensures var t := FromMillis(ms); (DaysFromCivil(t.date) * 86400 + SecondOfDay(t)) * 1000 + t.millis == ms
    ensures FromMillis(ms).date == CivilFromDays(ms / 1000 / 86400)
  {
    hide CivilFromDays, DaysFromCivil, ValidDate;
    CivilIsValid(ms / 1000 / 86400);
    DaysInvertCivil(ms / 1000 / 86400);
  }

  lemma DaysAreOrdered(a: int, b: int)
    requires a <= b
    ensures a / 1000 / 86400 <= b / 1000 / 86400
  {
  }

  /** Later instants have later fields, so distinct instants have distinct fields. */
  lemma InstantsAreChronological(a: int, b: int)
    requires a < b
    ensures Sooner(FromMillis(a), FromMillis(b)) && FromMillis(a) != FromMillis(b)
  {
    hide CivilFromDays, DaysFromCivil, Earlier, FromMillis, ValidDate;
    FieldsAreExact(a);
    FieldsAreExact(b);
    DaysAreOrdered(a, b);
    if a / 1000 / 86400 < b / 1000 / 86400 {
      DatesAreChronological(a / 1000 / 86400, b / 1000 / 86400);
      EarlierIsStrict(FromMillis(a).date);
    }
  }

  lemma EarlierIsStrict(t: Date)
    ensures !Earlier(t, t)
  {
  }

  lemma YearLimits()
    ensures CivilFromDays(-719_528) == Date(0, 1, 1) && CivilFromDays(2_932_897) == Date(10_000, 1, 1)
  {
    hide CivilFromDays;
    KnownDate(Date(0, 1, 1), -719_528);
    KnownDate(Date(10_000, 1, 1), 2_932_897);
  }

  lemma DateFloor(t: Date)
    requires ValidDate(t)
    ensures 1 <= t.month && 1 <= t.day
  {
  }

  lemma FourDigitDays(n: int)
    ensures 0 <= CivilFromDays(n).year <= 9999 <==> -719_528 <= n < 2_932_897
  {
    hide CivilFromDays, DaysFromCivil, ValidDate;
    YearLimits();
    CivilIsValid(n);
    assert 1 <= CivilFromDays(n).month && 1 <= CivilFromDays(n).day by {
      DateFloor(CivilFromDays(n));
    }
    if n < -719_528 {
      DatesAreChronological(n, -719_528);
    } else if n > -719_528 {
      DatesAreChronological(-719_528, n);
    }
    if n < 2_932_897 {
      DatesAreChronological(n, 2_932_897);
    } else if n > 2_932_897 {
      DatesAreChronological(2_932_897, n);
    }
  }

  /** The four-digit year of the RFC 3339 grammar is met exactly between these two instants. */
  lemma FourDigitYears(ms: int)
    ensures 0 <= FromMillis(ms).date.year <= 9999 <==> -62_167_219_200_000 <= ms < 253_402_300_800_000
  {
    hide CivilFromDays;
    FourDigitDays(ms / 1000 / 86400);
  }

  // ------------------------------------------------------- sixty-four bits

  /** The computation as written, every intermediate a signed 64-bit integer. */
  method CivilDate(days: i64) returns (year: i64, month: i64, day: i64)
    requires days <= 0x7FFF_FFFF_FFFF_FFFF - 719468
    ensures Date(year as int, month as int, day as int) == CivilFromDays(days as int)
  {
    hide YearOfEra, DaysBefore, MonthOf, DaysBeforeMonth;
    CivilParts(days as int);
    var z := days + 719468;
    var era := z / 146097;
    var doe := z % 146097;
    var yoe := CycleYearOf(doe);
    var before := DaysBeforeYear(yoe);
    var doy := doe - before;
    var mp: i64;
    mp, day := MonthAndDay(doy);
    month := if mp < 10 then mp + 3 else mp - 9;
    year := yoe + era * 400 + (if month <= 2 then 1 else 0);
  }

  method CycleYearOf(doe: i64) returns (yoe: i64)
    requires 0 <= doe < 146097
    ensures yoe as int == YearOfEra(doe as int)
  {
    yoe := (doe - doe / 1460 + doe / 36524 - doe / 146096) / 365;
  }

  method DaysBeforeYear(yoe: i64) returns (days: i64)
    requires 0 <= yoe < 400
    ensures days as int == DaysBefore(yoe as int)
  {
    days := 365 * yoe + yoe / 4 - yoe / 100;
  }

  method MonthAndDay(doy: i64) returns (mp: i64, day: i64)
    requires 0 <= doy < 366
    ensures mp as int == MonthOf(doy as int) && day as int == doy as int - DaysBeforeMonth(mp as int) + 1
  {
    mp := (5 * doy + 2) / 153;
    day := doy - (153 * mp + 2) / 5 + 1;
  }

  method Rfc3339(ms: i64) returns (year: i64, month: i64, day: i64, hour: i64, minute: i64, second: i64, millis: i64)
    ensures DateTime(Date(year as int, month as int, day as int), hour as int, minute as int, second as int, millis as int)
            == FromMillis(ms as int)
  {
    hide CivilFromDays;
    var secs := ms / 1000;
    millis := ms % 1000;
    var days := secs / 86400;
    var sod := secs % 86400;
    year, month, day := CivilDate(days);
    hour, minute, second := sod / 3600, sod % 3600 / 60, sod % 60;
  }
}
