/** Second counts as civil dates: the closed-form arithmetic against a calendar that steps day by day. */
module Calendar {
  // ----- the naive proleptic Gregorian calendar

  datatype Date = Date(year: int, month: int, day: int)

  predicate Leap(y: int) {
    y % 4 == 0 && (y % 100 != 0 || y % 400 == 0)
  }

  function MonthLength(y: int, m: int): int {
    if m == 2 then (if Leap(y) then 29 else 28)
    else if m == 4 || m == 6 || m == 9 || m == 11 then 30
    else 31
  }

  predicate Valid(d: Date) {
    1 <= d.month <= 12 && 1 <= d.day <= MonthLength(d.year, d.month)
  }

  function NextDay(d: Date): Date {
    if d.day < MonthLength(d.year, d.month) then Date(d.year, d.month, d.day + 1)
    else if d.month < 12 then Date(d.year, d.month + 1, 1)
    else Date(d.year + 1, 1, 1)
  }

  function PreviousDay(d: Date): Date {
    if d.day > 1 then Date(d.year, d.month, d.day - 1)
    else if d.month > 1 then Date(d.year, d.month - 1, MonthLength(d.year, d.month - 1))
    else Date(d.year - 1, 12, 31)
  }

  /** The date `days` days after 1970-01-01, found by counting. */
  function DateOf(days: int): Date
    decreases if days < 0 then -days else days
  {
    if days == 0 then Date(1970, 1, 1)
    else if days > 0 then NextDay(DateOf(days - 1))
    else PreviousDay(DateOf(days + 1))
  }

  lemma {:induction false} StepsInvert(d: Date)
    requires Valid(d)
    ensures Valid(NextDay(d)) && PreviousDay(NextDay(d)) == d
    ensures Valid(PreviousDay(d)) && NextDay(PreviousDay(d)) == d
  {
  }

  // ----- the closed form

  /** Days before year `yoe` of a 400-year era whose years begin on the first of March. */
  function YearStart(yoe: nat): nat {
    365 * yoe + yoe / 4 - yoe / 100
  }

  /** The 366-day years of an era are those whose February belongs to a leap year. */
  predicate LongYear(yoe: nat) {
    (yoe + 1) % 4 == 0 && ((yoe + 1) % 100 != 0 || yoe == 399)
  }

  function YearLength(yoe: nat): nat {
    if LongYear(yoe) then 366 else 365
  }

  lemma {:induction false} NextYearStart(yoe: nat)
    requires yoe < 399
    ensures YearStart(yoe + 1) == YearStart(yoe) + YearLength(yoe)
  {
  }

  /** Every day of an era is a day of one of its years. */
  lemma {:induction false} YearHolding(doe: nat) returns (yoe: nat, doy: nat)
    requires doe < 146097
    ensures yoe < 400 && doy < YearLength(yoe) && doe == YearStart(yoe) + doy
  {
    if doe == 0 {
      yoe, doy := 0, 0;
    } else {
      yoe, doy := YearHolding(doe - 1);
      if doy + 1 < YearLength(yoe) {
        doy := doy + 1;
      } else {
        if yoe < 399 {
          NextYearStart(yoe);
        }
        yoe, doy := yoe + 1, 0;
      }
    }
  }

  /** The correction terms of the closed form cancel exactly the leap days before the year. */
  lemma {:induction false} YearFound(c: nat, q: nat, r: nat, doy: nat, doe: nat)
    requires c < 4 && q < 25 && r < 4 && doy < 366
    requires doy == 365 ==> r == 3 && (q < 24 || c == 3)
    requires doe == 36524 * c + 1461 * q + 365 * r + doy
    ensures doe - doe / 1460 + doe / 36524 - doe / 146096 == 36500 * c + 1460 * q + 365 * r + doy - (24 * c + q + 365 * r + doy) / 1460
    ensures 0 <= doy - (24 * c + q + 365 * r + doy) / 1460 <= 364
  {
    var w := 1461 * q + 365 * r + doy;
    assert w <= 36524 && (w == 36524 ==> c == 3);
    assert doe / 36524 == c + w / 36524;
    assert doe / 146096 == (if w == 36524 then 1 else 0);
    var e := 24 * c + q + 365 * r + doy;
    assert doe == 1460 * (25 * c + q) + e;
    assert doe / 1460 == 25 * c + q + e / 1460;
  }

  lemma {:induction false} YearSplits(yoe: nat) returns (c: nat, q: nat, r: nat)
    requires yoe < 400
    ensures c < 4 && q < 25 && r < 4 && yoe == 100 * c + 4 * q + r
    ensures YearStart(yoe) == 36524 * c + 1461 * q + 365 * r
    ensures LongYear(yoe) ==> r == 3 && (q < 24 || c == 3)
  {
    c, q, r := yoe / 100, yoe % 100 / 4, yoe % 4;
  }

  lemma {:induction false} YearRecovered(yoe: nat, doy: nat)
    requires yoe < 400 && doy < YearLength(yoe)
    ensures var doe := YearStart(yoe) + doy;
      && 0 <= doe - doe / 1460 && 0 <= doe - doe / 1460 + doe / 36524 - doe / 146096
      && (doe - doe / 1460 + doe / 36524 - doe / 146096) / 365 == yoe
  {
    var c, q, r := YearSplits(yoe);
    YearFound(c, q, r, doy, YearStart(yoe) + doy);
  }

  lemma {:induction false} YearOfDay(doe: nat)
    requires doe < 146097
    ensures 0 <= doe - doe / 1460 && 0 <= doe - doe / 1460 + doe / 36524 - doe / 146096
    ensures var yoe := (doe - doe / 1460 + doe / 36524 - doe / 146096) / 365;
      0 <= yoe < 400 && YearStart(yoe) <= doe < YearStart(yoe) + YearLength(yoe)
  {
    var yoe, doy := YearHolding(doe);
    YearRecovered(yoe, doy);
  }

  /** No subtraction of the closed form leaves the unsigned range. */
  function YearOfEra(doe: nat): (yoe: nat)
    requires doe < 146097
    ensures yoe < 400 && YearStart(yoe) <= doe < YearStart(yoe) + YearLength(yoe)
  {
    YearOfDay(doe);
    var less: nat := doe - doe / 1460;
    var corrected: nat := less + doe / 36524 - doe / 146096;
    corrected / 365
  }

  /** Euclidean division, for a positive divisor: the remainder is never negative. */
  function CivilFromDays(days: int): Date {
    var z := days + 719468;
    var era := z / 146097;
    var doe: nat := z % 146097;
    var yoe := YearOfEra(doe);
    var y := yoe + era * 400;
    var doy: nat := doe - (365 * yoe + yoe / 4 - yoe / 100);
    var mp: nat := (5 * doy + 2) / 153;
    var d: nat := doy - (153 * mp + 2) / 5 + 1;
    var m := if mp < 10 then mp + 3 else mp - 9;
    Date(if m <= 2 then y + 1 else y, m, d)
  }

  // ----- the day number of a date: the inverse of the closed form

  /** Years counted from the first of March. */
  function MarchYear(d: Date): int {
    if d.month <= 2 then d.year - 1 else d.year
  }

  /** Months counted from March. */
  function MarchMonth(m: int): int {
    if m > 2 then m - 3 else m + 9
  }

  function DayOfYear(d: Date): int {
    (153 * MarchMonth(d.month) + 2) / 5 + d.day - 1
  }

  function DayNumber(d: Date): int {
    var y := MarchYear(d);
    y / 400 * 146097 + YearStart(y % 400) + DayOfYear(d) - 719468
  }

  /** A valid day falls inside its March year, and its month can be read off again. */
  lemma {:induction false} DayOfYearFits(d: Date)
    requires Valid(d)
    ensures 0 <= DayOfYear(d) < YearLength(MarchYear(d) % 400)
    ensures (5 * DayOfYear(d) + 2) / 153 == MarchMonth(d.month)
  {
    LongYearIsLeap(MarchYear(d));
    MonthFound(MarchMonth(d.month), d.day);
  }

  lemma {:induction false} LongYearIsLeap(y: int)
    ensures LongYear(y % 400) <==> Leap(y + 1)
  {
    var e, k := y / 400, y % 400 + 1;
    SameRemainder(100 * e, k, 4);
    SameRemainder(4 * e, k, 100);
    SameRemainder(e, k, 400);
  }

  lemma {:induction false} SameRemainder(m: int, k: int, n: int)
    requires n == 4 || n == 100 || n == 400
    ensures (n * m + k) % n == k % n
  {
    assert n * m + k == n * (m + k / n) + k % n;
  }

  lemma {:induction false} MonthFound(mp: int, day: int)
    requires 0 <= mp < 12 && 1 <= day <= 31
    requires mp == 1 || mp == 3 || mp == 6 || mp == 8 ==> day <= 30
    requires mp == 11 ==> day <= 29
    ensures (5 * ((153 * mp + 2) / 5 + day - 1) + 2) / 153 == mp
  {
    var start := (153 * mp + 2) / 5;
    assert 153 * mp + 2 - 4 <= 5 * start <= 153 * mp + 2;
  }

  lemma {:induction false} EraSplits(era: int, doe: nat)
    requires doe < 146097
    ensures (era * 146097 + doe) / 146097 == era && (era * 146097 + doe) % 146097 == doe
  {
  }

  /** The closed form on a day given by its era, its year there and its day of the year. */
  lemma {:induction false} CivilAt(era: int, yoe: nat, doy: nat, mp: nat)
    requires yoe < 400 && doy < YearLength(yoe) && mp == (5 * doy + 2) / 153
    ensures CivilFromDays(era * 146097 + YearStart(yoe) + doy - 719468) == (
      var m := if mp < 10 then mp + 3 else mp - 9;
      Date(yoe + era * 400 + if m <= 2 then 1 else 0, m, doy - (153 * mp + 2) / 5 + 1))
  {
    var doe := YearStart(yoe) + doy;
    YearEnds(yoe);
    EraSplits(era, doe);
    assert YearOfEra(doe) == yoe by {
      YearRecovered(yoe, doy);
    }
    hide LongYear, YearLength, YearOfEra;
  }

  lemma {:induction false} CivilOfDayNumber(d: Date)
    requires Valid(d)
    ensures CivilFromDays(DayNumber(d)) == d
  {
    var y := MarchYear(d);
    DayOfYearFits(d);
    hide Leap, LongYear, YearLength, CivilFromDays, YearStart;
    CivilAt(y / 400, y % 400, DayOfYear(d), MarchMonth(d.month));
  }

  lemma {:induction false} YearEnds(yoe: nat)
    requires yoe < 400
    ensures YearStart(yoe) + YearLength(yoe) <= 146097
  {
  }

  // ----- the closed form is the naive calendar

  lemma {:induction false} YearRolls(y: int)
    ensures (y + 1) / 400 * 146097 + YearStart((y + 1) % 400) == y / 400 * 146097 + YearStart(y % 400) + YearLength(y % 400)
  {
    var yoe := y % 400;
    if yoe < 399 {
      NextYearStart(yoe);
      assert (y + 1) / 400 == y / 400 && (y + 1) % 400 == yoe + 1;
    } else {
      assert (y + 1) / 400 == y / 400 + 1 && (y + 1) % 400 == 0;
    }
  }

  /** Stepping one day adds one to the day number, across month, year and era ends. */
  lemma {:induction false} NextDayNumber(d: Date)
    requires Valid(d)
    ensures DayNumber(NextDay(d)) == DayNumber(d) + 1
  {
    var y := MarchYear(d);
    LongYearIsLeap(y);
    if d.month == 2 && d.day == MonthLength(d.year, 2) {
      YearRolls(y);
      hide Leap, LongYear, YearStart;
    } else {
      hide Leap, LongYear, YearStart, YearLength;
    }
  }

  lemma {:induction false} DateOfMeaning(days: int)
    ensures Valid(DateOf(days)) && DayNumber(DateOf(days)) == days
    decreases if days < 0 then -days else days
  {
    hide DayNumber, NextDay, PreviousDay, Valid;
    if days > 0 {
      DateOfMeaning(days - 1);
      StepsInvert(DateOf(days - 1));
      NextDayNumber(DateOf(days - 1));
    } else if days < 0 {
      DateOfMeaning(days + 1);
      StepsInvert(DateOf(days + 1));
      NextDayNumber(PreviousDay(DateOf(days + 1)));
    } else {
      FirstDay();
    }
  }

  lemma {:induction false} FirstDay()
    ensures Valid(Date(1970, 1, 1)) && DayNumber(Date(1970, 1, 1)) == 0
  {
  }

  /** For every day, before or after 1970, the closed form gives the date found by counting. */
  lemma {:induction false} CivilIsNaive(days: int)
    ensures CivilFromDays(days) == DateOf(days) && Valid(CivilFromDays(days))
  {
    hide CivilFromDays, DateOf, DayNumber;
    DateOfMeaning(days);
    CivilOfDayNumber(DateOf(days));
  }

  // ----- seconds

  /** What a cast to a 32-bit signed integer keeps. */
  function Wrap32(x: int): int {
    (x + 0x8000_0000) % 0x1_0000_0000 - 0x8000_0000
  }

  datatype Civil = Civil(year: int, month: int, day: int, hour: int, minute: int, second: int)

  function DayOf(epochSecs: int): int {
    epochSecs / 86400
  }

  function SecondOfDay(epochSecs: int): (r: int)
    ensures 0 <= r < 86400
  {
    epochSecs % 86400
  }

  datatype Clock = Clock(hour: int, minute: int, second: int)

  function ClockOf(daySecs: int): Clock {
    Clock(daySecs / 3600, daySecs % 3600 / 60, daySecs % 60)
  }

  function EpochToCivil(epochSecs: int): Civil {
    var date := CivilFromDays(DayOf(epochSecs));
    var clock := ClockOf(SecondOfDay(epochSecs));
    Civil(Wrap32(date.year), date.month, date.day, clock.hour, clock.minute, clock.second)
  }

  /** The second count of a civil time. */
  function SecondsOf(c: Civil): int {
    DayNumber(Date(c.year, c.month, c.day)) * 86400 + c.hour * 3600 + c.minute * 60 + c.second
  }

  lemma {:induction false} ClockSplits(daySecs: int)
    requires 0 <= daySecs < 86400
    ensures var k := ClockOf(daySecs);
      && k.hour * 3600 + k.minute * 60 + k.second == daySecs
      && 0 <= k.hour < 24 && 0 <= k.minute < 60 && 0 <= k.second < 60
  {
  }

  lemma {:induction false} DaySplits(epochSecs: int)
    ensures epochSecs == DayOf(epochSecs) * 86400 + SecondOfDay(epochSecs)
  {
  }

  lemma {:induction false} WrapIff(x: int)
    ensures Wrap32(x) == x <==> -0x8000_0000 <= x < 0x8000_0000
  {
  }

  /** A civil time is right for a second when it shows the counted date and the clock of that day. */
  ghost predicate Shows(c: Civil, date: Date, epochSecs: int) {
    && c.month == date.month && c.day == date.day && Valid(date)
    && 0 <= c.hour < 24 && 0 <= c.minute < 60 && 0 <= c.second < 60
    && (c.year == date.year <==> -0x8000_0000 <= date.year < 0x8000_0000)
    && (c.year == date.year ==> SecondsOf(c) == epochSecs)
  }

  lemma {:induction false} ShowsParts(date: Date, days: int, daySecs: int, k: Clock)
    requires Valid(date) && DayNumber(date) == days
    requires k.hour * 3600 + k.minute * 60 + k.second == daySecs
    requires 0 <= k.hour < 24 && 0 <= k.minute < 60 && 0 <= k.second < 60
    ensures Shows(Civil(Wrap32(date.year), date.month, date.day, k.hour, k.minute, k.second), date, days * 86400 + daySecs)
  {
    WrapIff(date.year);
    hide DayNumber, Wrap32, Valid;
    if Wrap32(date.year) == date.year {
      assert Date(Wrap32(date.year), date.month, date.day) == date;
    }
  }

  /** The broken-down time is the naive calendar's date and the clock time, except that the year is
      cut to 32 bits; it is the true year, and converts back to the same second, exactly when the
      year fits. */
  lemma {:induction false} EpochMeaning(epochSecs: int)
    ensures Shows(EpochToCivil(epochSecs), DateOf(DayOf(epochSecs)), epochSecs)
  {
    var days, daySecs := DayOf(epochSecs), SecondOfDay(epochSecs);
    hide DateOf, CivilFromDays, DayNumber, Wrap32, Valid, Shows, DayOf, SecondOfDay, ClockOf;
    CivilIsNaive(days);
    DateOfMeaning(days);
    ClockSplits(daySecs);
    ShowsParts(DateOf(days), days, daySecs, ClockOf(daySecs));
    DaySplits(epochSecs);
  }

  /** Two seconds share a broken-down time only if they are the same second, while years fit. */
  lemma {:induction false} EpochInjective(a: int, b: int)
    requires EpochToCivil(a) == EpochToCivil(b)
    requires EpochToCivil(a).year == DateOf(DayOf(a)).year && EpochToCivil(b).year == DateOf(DayOf(b)).year
    ensures a == b
  {
    EpochMeaning(a);
    EpochMeaning(b);
  }
}
