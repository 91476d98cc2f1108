/**
 * Schedule times in China time (apps/api/src/schedule-utils.ts:24-31, 48-82). Dates are
 * those of ECMA-262, section 21.4.1: a time value counts milliseconds since 1 January 1970
 * UTC, and setting the date goes through year, month and day of the proleptic Gregorian
 * calendar.
 */
module ChinaSchedule {
  const MS_PER_MINUTE := 60_000
  const MS_PER_HOUR := 3_600_000
  const MS_PER_DAY := 86_400_000
  const CHINA_OFFSET_MS := 8 * MS_PER_HOUR

  // ---- Time values: ECMA-262, section 21.4.1 ----

  function Day(t: int): int {
    t / MS_PER_DAY
  }

  function TimeWithinDay(t: int): int {
    t % MS_PER_DAY
  }

  function HourFromTime(t: int): int {
    (t / MS_PER_HOUR) % 24
  }

  function MinFromTime(t: int): int {
    (t / MS_PER_MINUTE) % 60
  }

  function MsWithinMinute(t: int): int {
    t % MS_PER_MINUTE
  }

  function DayFromYear(y: int): int {
    365 * (y - 1970) + (y - 1969) / 4 - (y - 1901) / 100 + (y - 1601) / 400
  }

  predicate IsLeap(y: int) {
    y % 4 == 0 && (y % 100 != 0 || y % 400 == 0)
  }

  /** Division by n steps up exactly at the multiples of n. */
  lemma DivStep(y: int, n: int)
    requires n > 0
    ensures (y + 1) / n == y / n + (if (y + 1) % n == 0 then 1 else 0)
  {
    var q, r := y / n, y % n;
    assert y == q * n + r;
    if r == n - 1 {
      DivModUnique(y + 1, n, q + 1, 0);
    } else {
      DivModUnique(y + 1, n, q, r + 1);
    }
  }

  lemma DivModUnique(x: int, n: int, q: int, r: int)
    requires n > 0 && 0 <= r < n && x == q * n + r
    ensures x / n == q && x % n == r
  {
    var d := x / n - q;
    assert d * n == r - x % n;
    assert d > 0 ==> d * n >= n;
    assert d < 0 ==> d * n <= -n;
  }

  lemma ModShift(y: int, n: int, k: int)
    requires n > 0
    ensures (y - n * k) % n == y % n
  {
    DivModUnique(y - n * k, n, y / n - k, y % n);
  }

  lemma FourHundredYears(y: int)
    ensures y % 400 == 0 ==> y % 100 == 0
    ensures y % 100 == 0 ==> y % 4 == 0
  {
    if y % 400 == 0 {
      DivModUnique(y, 100, 4 * (y / 400), 0);
    }
    if y % 100 == 0 {
      DivModUnique(y, 4, 25 * (y / 100), 0);
    }
  }

  lemma YearLength(y: int)
    ensures DayFromYear(y + 1) - DayFromYear(y) == if IsLeap(y) then 366 else 365
  {
    DivStep(y - 1969, 4);
    DivStep(y - 1901, 100);
    DivStep(y - 1601, 400);
    ModShift(y, 4, 492);
    ModShift(y, 100, 19);
    ModShift(y, 400, 4);
    FourHundredYears(y);
  }

  predicate InYear(day: int, y: int) {
    DayFromYear(y) <= day < DayFromYear(y + 1)
  }

  lemma {:induction false} YearsAreOrdered(y: int, z: int)
    requires y <= z
    ensures DayFromYear(y) + 365 * (z - y) <= DayFromYear(z)
    decreases z - y
  {
    if y < z {
      YearsAreOrdered(y, z - 1);
      YearLength(z - 1);
    }
  }

  lemma YearIsUnique(day: int, y: int, z: int)
    requires InYear(day, y) && InYear(day, z)
    ensures y == z
  {
    if y < z {
      YearsAreOrdered(y + 1, z);
    } else if z < y {
      YearsAreOrdered(z + 1, y);
    }
  }

  function YearUpFrom(day: int, y: int): (r: int)
    requires DayFromYear(y) <= day
    ensures InYear(day, r)
    decreases day - DayFromYear(y)
  {
    YearLength(y);
    if day < DayFromYear(y + 1) then y else YearUpFrom(day, y + 1)
  }

  /** The year a day lies in. */
  function YearFromDay(day: int): (r: int)
    ensures InYear(day, r)
  {
    EarlyEnough(day);
    YearUpFrom(day, if day >= 0 then 1970 else 1970 + day)
  }

  lemma EarlyEnough(day: int)
    ensures day >= 0 ==> DayFromYear(1970) <= day
    ensures day < 0 ==> DayFromYear(1970 + day) <= day
  {
    if day < 0 {
      YearsAreOrdered(1970 + day, 1970);
    }
  }

  /** Days of the year before a month, January being month 0; month 12 is the whole year. */
  function DaysBefore(month: nat, leap: bool): nat
    requires month <= 12
  {
    var feb := if leap then 29 else 28;
    if month == 0 then 0
    else if month == 1 then 31
    else 31 + feb + [0, 31, 61, 92, 122, 153, 184, 214, 245, 275, 306][month - 2]
  }

  function MonthUpFrom(dayInYear: nat, leap: bool, month: nat): (r: nat)
    requires month < 12 && DaysBefore(month, leap) <= dayInYear < DaysBefore(12, leap)
    ensures r < 12 && DaysBefore(r, leap) <= dayInYear < DaysBefore(r + 1, leap)
    decreases 12 - month
  {
    if dayInYear < DaysBefore(month + 1, leap) then month else MonthUpFrom(dayInYear, leap, month + 1)
  }

  function DayWithinYear(day: int): (r: nat)
    ensures r < DaysBefore(12, IsLeap(YearFromDay(day)))
  {
    YearLength(YearFromDay(day));
    day - DayFromYear(YearFromDay(day))
  }

  function MonthFromDay(day: int): (r: nat)
    ensures r < 12
  {
    MonthUpFrom(DayWithinYear(day), IsLeap(YearFromDay(day)), 0)
  }

  /** The day of the month, from 1 on. */
  function DateFromDay(day: int): (r: int)
    ensures 1 <= r <= 31
  {
    var leap := IsLeap(YearFromDay(day));
    MonthLength(MonthFromDay(day), leap);
    DayWithinYear(day) - DaysBefore(MonthFromDay(day), leap) + 1
  }

  lemma MonthLength(month: nat, leap: bool)
    requires month < 12
    ensures DaysBefore(month, leap) < DaysBefore(month + 1, leap) <= DaysBefore(month, leap) + 31
  {
  }

  /** The day that is `date - 1` days after the first of the month; the date may leave the month. */
  function MakeDay(year: int, month: int, date: int): int {
    var ym, mn := year + month / 12, month % 12;
    DayFromYear(ym) + DaysBefore(mn, IsLeap(ym)) + date - 1
  }

  function MakeTime(hour: int, min: int, sec: int, ms: int): int {
    hour * MS_PER_HOUR + min * MS_PER_MINUTE + sec * 1000 + ms
  }

  function MakeDate(day: int, time: int): int {
    day * MS_PER_DAY + time
  }

  lemma FirstOfMonthIsInItsYear(year: int, month: nat)
    requires month < 12
    ensures YearFromDay(MakeDay(year, month, 1)) == year
    ensures DayWithinYear(MakeDay(year, month, 1)) == DaysBefore(month, IsLeap(year))
  {
    assert month / 12 == 0 && month % 12 == month;
    var day := MakeDay(year, month, 1);
    assert day == DayFromYear(year) + DaysBefore(month, IsLeap(year));
    YearLength(year);
    MonthLength(month, IsLeap(year));
    MonthsAreOrdered(month + 1, 12, IsLeap(year));
    YearIsUnique(day, year, YearFromDay(day));
  }

  /** `MakeDay` with date 1 is the first of the month, as the standard asks. */
  lemma MakeDayIsTheFirstOfTheMonth(year: int, month: nat)
    requires month < 12
    ensures YearFromDay(MakeDay(year, month, 1)) == year
    ensures MonthFromDay(MakeDay(year, month, 1)) == month
    ensures DateFromDay(MakeDay(year, month, 1)) == 1
  {
    FirstOfMonthIsInItsYear(year, month);
    MonthLength(month, IsLeap(year));
    MonthIsUnique(DaysBefore(month, IsLeap(year)), IsLeap(year), month, MonthFromDay(MakeDay(year, month, 1)));
  }

  lemma {:induction false} MonthsAreOrdered(m: nat, n: nat, leap: bool)
    requires m <= n <= 12
    ensures DaysBefore(m, leap) <= DaysBefore(n, leap)
    decreases n - m
  {
    if m < n {
      MonthsAreOrdered(m, n - 1, leap);
      MonthLength(n - 1, leap);
    }
  }

  lemma MonthIsUnique(dayInYear: nat, leap: bool, m: nat, n: nat)
    requires m < 12 && DaysBefore(m, leap) <= dayInYear < DaysBefore(m + 1, leap)
    requires n < 12 && DaysBefore(n, leap) <= dayInYear < DaysBefore(n + 1, leap)
    ensures m == n
  {
    if m < n {
      MonthsAreOrdered(m + 1, n, leap);
    } else if n < m {
      MonthsAreOrdered(n + 1, m, leap);
    }
  }

  /** Adding to the date adds days, across the ends of months and years. */
  lemma AddingToTheDateAddsDays(day: int, k: int)
    ensures MakeDay(YearFromDay(day), MonthFromDay(day), DateFromDay(day) + k) == day + k
  {
    var month := MonthFromDay(day);
    assert month / 12 == 0 && month % 12 == month;
  }

  // ---- The Date object ----

  class UtcDate {
    var time: int

    constructor (time: int)
      ensures this.time == time
    {
      this.time := time;
    }

    function GetUTCDate(): int
      reads this
    {
      DateFromDay(Day(time))
    }

    method SetUTCHours(hour: int, min: int, sec: int, ms: int)
      modifies this
      ensures time == MakeDate(Day(old(time)), MakeTime(hour, min, sec, ms))
    {
      time := MakeDate(Day(time), MakeTime(hour, min, sec, ms));
    }

    method SetUTCDate(date: int)
      modifies this
      ensures time == MakeDate(
        MakeDay(YearFromDay(Day(old(time))), MonthFromDay(Day(old(time))), date), TimeWithinDay(old(time)))
    {
      var day := Day(time);
      time := MakeDate(MakeDay(YearFromDay(day), MonthFromDay(day), date), TimeWithinDay(time));
    }
  }

  // ---- China time ----

  /** What a clock in China shows at an instant. */
  predicate ChinaClockReads(t: int, hour: int, minute: int) {
    var shifted := t + CHINA_OFFSET_MS;
    HourFromTime(shifted) == hour && MinFromTime(shifted) == minute && MsWithinMinute(shifted) == 0
  }

  function ChinaDay(t: int): int {
    Day(t + CHINA_OFFSET_MS)
  }

  /** The instant `dayOffset` China days after today, counted from its midnight. */
  function Instant(now: int, hour: int, minute: int, dayOffset: int): int {
    (ChinaDay(now) + dayOffset) * MS_PER_DAY + MakeTime(hour, minute, 0, 0) - CHINA_OFFSET_MS
  }

  lemma DaySplits(day: int, time: int)
    ensures MakeDate(day, time) == MakeDate(day + Day(time), TimeWithinDay(time))
    ensures Day(MakeDate(day, time)) == day + Day(time)
    ensures TimeWithinDay(MakeDate(day, time)) == TimeWithinDay(time)
  {
    DivModUnique(MakeDate(day, time), MS_PER_DAY, day + Day(time), TimeWithinDay(time));
  }

  method ChinaWallClockInstant(now: int, hour: int, minute: int, dayOffset: int) returns (t: int)
    ensures t == Instant(now, hour, minute, dayOffset)
  {
    var shifted := new UtcDate(now + CHINA_OFFSET_MS);
    var today := Day(shifted.time);
    shifted.SetUTCHours(hour, minute, 0, 0);
    DaySplits(today, MakeTime(hour, minute, 0, 0));
    AddingToTheDateAddsDays(Day(shifted.time), dayOffset);
    shifted.SetUTCDate(shifted.GetUTCDate() + dayOffset);
    t := shifted.time - CHINA_OFFSET_MS;
  }

  /** The branch for today: a time that has passed rolls over to tomorrow. */
  method ScheduleToday(now: int, hour: int, minute: int) returns (scheduledAt: int)
    ensures scheduledAt == Today(now, hour, minute)
  {
    scheduledAt := ChinaWallClockInstant(now, hour, minute, 0);
    if scheduledAt <= now {
      scheduledAt := ChinaWallClockInstant(now, hour, minute, 1);
    }
  }

  function Today(now: int, hour: int, minute: int): int {
    if Instant(now, hour, minute, 0) <= now then Instant(now, hour, minute, 1) else Instant(now, hour, minute, 0)
  }

  method ScheduleTomorrow(now: int, hour: int, minute: int) returns (scheduledAt: int)
    ensures scheduledAt == Instant(now, hour, minute, 1)
  {
    scheduledAt := ChinaWallClockInstant(now, hour, minute, 1);
  }

  method ScheduleIn(now: int, amount: nat, unitMs: nat) returns (scheduledAt: int)
    requires unitMs == MS_PER_MINUTE || unitMs == MS_PER_HOUR
    ensures scheduledAt == now + amount * unitMs
    ensures scheduledAt > now <==> amount > 0
  {
    scheduledAt := now + amount * unitMs;
  }

  // ---- Theorems ----

  /** A clock shows h:m:00.000 exactly at h hours and m minutes into a day. */
  lemma ReadsExactly(t: int, hour: int, minute: int)
    requires 0 <= hour <= 23 && 0 <= minute <= 59
    ensures ChinaClockReads(t, hour, minute) <==>
      t + CHINA_OFFSET_MS == ChinaDay(t) * MS_PER_DAY + MakeTime(hour, minute, 0, 0)
  {
    var s := t + CHINA_OFFSET_MS;
    var minutes, hours, day := s / MS_PER_MINUTE, s / MS_PER_HOUR, s / MS_PER_DAY;
    NestedDiv(s, MS_PER_MINUTE, 60);
    NestedDiv(s, MS_PER_HOUR, 24);
    assert minutes == hours * 60 + minutes % 60;
    assert hours == day * 24 + hours % 24;
    assert s == minutes * MS_PER_MINUTE + s % MS_PER_MINUTE;
    if s == day * MS_PER_DAY + MakeTime(hour, minute, 0, 0) {
      DivModUnique(s, MS_PER_MINUTE, day * 1440 + hour * 60 + minute, 0);
      DivModUnique(s, MS_PER_HOUR, day * 24 + hour, minute * MS_PER_MINUTE);
      DivModUnique(hours, 24, day, hour);
      DivModUnique(minutes, 60, day * 24 + hour, minute);
    }
  }

  lemma NestedDiv(s: int, a: int, b: int)
    requires a > 0 && b > 0
    ensures (s / a) / b == s / (a * b)
  {
    var q := s / a;
    assert s == q * a + s % a && q == (q / b) * b + q % b;
    var r := (q % b) * a + s % a;
    assert s == (q / b) * (a * b) + r by {
      assert (q / b) * b * a == (q / b) * (a * b);
    }
    assert 0 <= r < a * b by {
      assert (q % b) * a <= (b - 1) * a;
    }
    DivModUnique(s, a * b, q / b, r);
  }

  lemma NowIsInItsDay(now: int)
    ensures ChinaDay(now) * MS_PER_DAY <= now + CHINA_OFFSET_MS < (ChinaDay(now) + 1) * MS_PER_DAY
  {
  }

  /** "Today" is the first instant after now at which a clock in China shows that time. */
  lemma TodayIsTheNextSuchTime(now: int, hour: int, minute: int, other: int)
    requires 0 <= hour <= 23 && 0 <= minute <= 59
    ensures Today(now, hour, minute) > now
    ensures ChinaClockReads(Today(now, hour, minute), hour, minute)
    ensures other > now && ChinaClockReads(other, hour, minute) ==> Today(now, hour, minute) <= other
  {
    var today, time := Today(now, hour, minute), MakeTime(hour, minute, 0, 0);
    NowIsInItsDay(now);
    InstantIsOnItsDay(now, hour, minute, 0);
    InstantIsOnItsDay(now, hour, minute, 1);
    ReadsExactly(today, hour, minute);
    ReadsExactly(other, hour, minute);
    if other > now && ChinaClockReads(other, hour, minute) {
      NowIsInItsDay(other);
      assert ChinaDay(other) >= ChinaDay(now);
    }
  }

  lemma InstantIsOnItsDay(now: int, hour: int, minute: int, dayOffset: int)
    requires 0 <= hour <= 23 && 0 <= minute <= 59
    ensures ChinaDay(Instant(now, hour, minute, dayOffset)) == ChinaDay(now) + dayOffset
  {
    DivModUnique(Instant(now, hour, minute, dayOffset) + CHINA_OFFSET_MS, MS_PER_DAY,
      ChinaDay(now) + dayOffset, MakeTime(hour, minute, 0, 0));
  }

  /** "Tomorrow" is on the next China day, at that time, and less than two days away. */
  lemma TomorrowIsTheNextDay(now: int, hour: int, minute: int)
    requires 0 <= hour <= 23 && 0 <= minute <= 59
    ensures var t := Instant(now, hour, minute, 1);
      && ChinaDay(t) == ChinaDay(now) + 1
      && ChinaClockReads(t, hour, minute)
      && now < t < now + 48 * MS_PER_HOUR
  {
    NowIsInItsDay(now);
    InstantIsOnItsDay(now, hour, minute, 1);
    ReadsExactly(Instant(now, hour, minute, 1), hour, minute);
  }

  /** Hours and minutes the pattern lets through but no clock shows still lie ahead. */
  lemma AnyTwoDigitsLieAhead(now: int, hour: nat, minute: nat)
    requires hour <= 99 && minute <= 99
    ensures Today(now, hour, minute) > now && Instant(now, hour, minute, 1) > now
  {
    NowIsInItsDay(now);
  }
}
