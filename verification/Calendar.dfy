/** When configured automations fire: hourly ticks in a zone of fixed offset, the
    Gregorian calendar with its leap years, and the bucket that names the period. */
module Calendar {
  import opened Common

  // ── The Gregorian calendar ──────────────────────────────────────────────

  datatype Date = Date(year: int, month: int, day: int)

  predicate IsLeap(y: int) { y % 4 == 0 && (y % 100 != 0 || y % 400 == 0) }

  function YearLength(y: int): int { if IsLeap(y) then 366 else 365 }

  function DaysInMonth(y: int, m: int): (n: int)
    ensures 28 <= n <= 31
  {
    if m == 2 then (if IsLeap(y) then 29 else 28)
    else if m == 4 || m == 6 || m == 9 || m == 11 then 30 else 31
  }

  /** Days before 1 January of year `y`, counted from 1 January of year 1, a Monday. */
  function YearStart(y: int): (n: int)
    requires y >= 1
    ensures n >= 365 * (y - 1)
    decreases y
  {
    if y == 1 then 0 else YearStart(y - 1) + YearLength(y - 1)
  }

  lemma YearStartStep(y: int)
    requires y >= 1
    ensures YearStart(y + 1) == YearStart(y) + YearLength(y)
  {
  }

  /** Days of the year before month `m`; month 13 is the year's end. */
  function MonthStart(y: int, m: int): int
    requires 1 <= m <= 13
    decreases m
  {
    if m == 1 then 0 else MonthStart(y, m - 1) + DaysInMonth(y, m - 1)
  }

  predicate Valid(d: Date) {
    1 <= d.year && 1 <= d.month <= 12 && 1 <= d.day <= DaysInMonth(d.year, d.month)
  }

  function Ordinal(d: Date): int
    requires Valid(d)
  {
    YearStart(d.year) + MonthStart(d.year, d.month) + d.day - 1
  }

  lemma {:induction false} MonthStartMonotone(y: int, m: int, n: int)
    requires 1 <= m <= n <= 13
    ensures MonthStart(y, m) <= MonthStart(y, n)
    ensures m < n ==> MonthStart(y, m) + DaysInMonth(y, m) <= MonthStart(y, n)
    decreases n - m
  {
    if m < n { MonthStartMonotone(y, m, n - 1); }
  }

  lemma YearEnds(y: int)
    ensures MonthStart(y, 13) == YearLength(y)
  {
  }

  /** The rule of leap years in closed form: one day more every fourth year, but for
      centuries that 400 does not divide. */
  lemma {:induction false} YearStartExact(y: int)
    requires y >= 1
    ensures YearStart(y) == 365 * (y - 1) + (y - 1) / 4 - (y - 1) / 100 + (y - 1) / 400
    decreases y
  {
    if y > 1 {
      YearStartExact(y - 1);
      LeapDay(y - 1);
    }
  }

  lemma LeapDay(n: int)
    requires n >= 1
    ensures n / 4 - n / 100 + n / 400 ==
            (n - 1) / 4 - (n - 1) / 100 + (n - 1) / 400 + if IsLeap(n) then 1 else 0
  {
    Fourth(n);
    Hundredth(n);
    FourHundredth(n);
  }

  lemma Fourth(n: int)
    ensures n / 4 == (n - 1) / 4 + if n % 4 == 0 then 1 else 0
  {
  }

  lemma Hundredth(n: int)
    ensures n / 100 == (n - 1) / 100 + if n % 100 == 0 then 1 else 0
    ensures n % 100 == 0 ==> n % 4 == 0
  {
  }

  lemma FourHundredth(n: int)
    ensures n / 400 == (n - 1) / 400 + if n % 400 == 0 then 1 else 0
    ensures n % 400 == 0 ==> n % 100 == 0
  {
  }

  /** The lengths of the months in closed form. */
  lemma MonthStartExact(y: int, m: int)
    requires 1 <= m <= 13
    ensures MonthStart(y, m) ==
            (367 * m - 362) / 12 - if m <= 2 then 0 else if y % 4 == 0 && (y % 100 != 0 || y % 400 == 0) then 1 else 2
  {
    assert MonthStart(y, 2) == 31 && MonthStart(y, 3) == 31 + DaysInMonth(y, 2);
    assert MonthStart(y, 4) == MonthStart(y, 3) + 31 && MonthStart(y, 5) == MonthStart(y, 4) + 30;
    assert MonthStart(y, 6) == MonthStart(y, 5) + 31 && MonthStart(y, 7) == MonthStart(y, 6) + 30;
    assert MonthStart(y, 8) == MonthStart(y, 7) + 31 && MonthStart(y, 9) == MonthStart(y, 8) + 31;
    assert MonthStart(y, 10) == MonthStart(y, 9) + 30 && MonthStart(y, 11) == MonthStart(y, 10) + 31;
    assert MonthStart(y, 12) == MonthStart(y, 11) + 30 && MonthStart(y, 13) == MonthStart(y, 12) + 31;
  }

  lemma {:induction false} YearStartMonotone(y: int, z: int)
    requires 1 <= y <= z
    ensures y < z ==> YearStart(y) + YearLength(y) <= YearStart(z)
    decreases z - y
  {
    if y < z {
      YearStartStep(z - 1);
      YearStartMonotone(y, z - 1);
    }
  }

  /** A date lies within its year. */
  lemma OrdinalInYear(d: Date)
    requires Valid(d)
    ensures YearStart(d.year) <= Ordinal(d) < YearStart(d.year + 1)
  {
    MonthStartMonotone(d.year, 1, d.month);
    MonthStartMonotone(d.year, d.month, 13);
    YearEnds(d.year);
    YearStartStep(d.year);
  }

  lemma OrdinalInjective(a: Date, b: Date)
    requires Valid(a) && Valid(b) && Ordinal(a) == Ordinal(b)
    ensures a == b
  {
    OrdinalInYear(a);
    OrdinalInYear(b);
    YearStartStep(a.year);
    YearStartStep(b.year);
    if a.year <= b.year { YearStartMonotone(a.year, b.year); } else { YearStartMonotone(b.year, a.year); }
    if a.month <= b.month { MonthStartMonotone(a.year, a.month, b.month); }
    else { MonthStartMonotone(a.year, b.month, a.month); }
  }

  function YearOf(n: int, y: int): (r: int)
    requires 1 <= y && YearStart(y) <= n
    ensures y <= r && YearStart(r) <= n < YearStart(r + 1)
    decreases n - YearStart(y)
  {
    YearStartStep(y);
    if n < YearStart(y + 1) then y else YearOf(n, y + 1)
  }

  function MonthOf(y: int, k: int, m: int): (r: int)
    requires 1 <= m <= 12 && MonthStart(y, m) <= k < MonthStart(y, 13)
    ensures m <= r <= 12 && MonthStart(y, r) <= k < MonthStart(y, r) + DaysInMonth(y, r)
    decreases 12 - m
  {
    if k < MonthStart(y, m) + DaysInMonth(y, m) then m
    else assert MonthStart(y, m + 1) == MonthStart(y, m) + DaysInMonth(y, m); MonthOf(y, k, m + 1)
  }

  /** The date of a day number: the inverse of `Ordinal`. */
  function DateOf(n: nat): (d: Date)
    ensures Valid(d) && Ordinal(d) == n
  {
    var y := YearOf(n, 1);
    YearStartStep(y);
    YearEnds(y);
    var k := n - YearStart(y);
    var m := MonthOf(y, k, 1);
    Date(y, m, k - MonthStart(y, m) + 1)
  }

  lemma OrdinalNonNegative(d: Date)
    requires Valid(d)
    ensures Ordinal(d) >= 0
  {
    OrdinalInYear(d);
    YearStartMonotone(1, d.year);
  }

  lemma DateOfOrdinal(d: Date)
    requires Valid(d)
    ensures Ordinal(d) >= 0 && DateOf(Ordinal(d)) == d
  {
    OrdinalNonNegative(d);
    OrdinalInjective(DateOf(Ordinal(d)), d);
  }

  // ── Ticks ───────────────────────────────────────────────────────────────

  /** The local hour number at the `tick`-th full hour of the scheduler's clock, in a
      zone `offset` seconds ahead of it. */
  function LocalHour(tick: int, offset: int): int { (3600 * tick + offset) / 3600 }

  /** The local hour is the one that the zone's clock shows at the tick. Consecutive ticks
      are consecutive local hours, so every local hour has its tick. */
  lemma LocalHourShift(tick: int, offset: int)
    ensures 3600 * LocalHour(tick, offset) <= 3600 * tick + offset < 3600 * LocalHour(tick, offset) + 3600
    ensures LocalHour(tick, offset) == tick + offset / 3600
  {
  }

  /** A local time at hour precision: day number and hour. */
  datatype Now = Now(day: nat, hour: int)

  function NowAt(h: nat): Now { Now(h / 24, h % 24) }

  function Weekday(day: nat): int { day % 7 }

  // ── Schedules ───────────────────────────────────────────────────────────

  datatype Frequency = Daily | Weekly | Monthly | Off

  datatype Schedule = Schedule(enabled: bool, frequency: Frequency, hour: int, weekday: Option<int>, day: Option<int>)

  /** None is a value that is not a number. */
  function NormalizeHour(value: Option<int>, default_: int): (h: int)
    requires 0 <= default_ <= 23
    ensures value.None? ==> h == default_
    ensures value.Some? && 0 <= value.value <= 23 ==> h == value.value
    ensures value.Some? && value.value < 0 ==> h == 0
    ensures value.Some? && value.value > 23 ==> h == 23
  {
    match value case None => default_ case Some(v) => if v < 0 then 0 else if v > 23 then 23 else v
  }

  function NormalizeDay(value: Option<int>, default_: int): (d: int)
    requires 1 <= default_ <= 28
    ensures value.None? ==> d == default_
    ensures value.Some? && 1 <= value.value <= 28 ==> d == value.value
    ensures value.Some? && value.value < 1 ==> d == 1
    ensures value.Some? && value.value > 28 ==> d == 28
  {
    match value case None => default_ case Some(v) => if v < 1 then 1 else if v > 28 then 28 else v
  }

  predicate Normal(s: Schedule) {
    && 0 <= s.hour <= 23
    && (s.weekday.Some? ==> 0 <= s.weekday.value <= 6)
    && (s.day.Some? ==> 1 <= s.day.value <= 28)
  }

  function Digit(n: int): char
    requires 0 <= n <= 9
  {
    '0' + n as char
  }

  function Two(n: int): (s: string)
    requires 0 <= n <= 99
    ensures |s| == 2
  {
    [Digit(n / 10), Digit(n % 10)]
  }

  function Four(n: int): (s: string)
    requires 0 <= n <= 9999
    ensures |s| == 4
  {
    Two(n / 100) + Two(n % 100)
  }

  lemma TwoInjective(a: int, b: int)
    requires 0 <= a <= 99 && 0 <= b <= 99 && Two(a) == Two(b)
    ensures a == b
  {
  }

  lemma FourInjective(a: int, b: int)
    requires 0 <= a <= 9999 && 0 <= b <= 9999 && Four(a) == Four(b)
    ensures a == b
  {
    assert Four(a)[..2] == Two(a / 100) && Four(b)[..2] == Two(b / 100);
    assert Four(a)[2..] == Two(a % 100) && Four(b)[2..] == Two(b % 100);
    TwoInjective(a / 100, b / 100);
    TwoInjective(a % 100, b % 100);
  }

  /** `%Y-%m` */
  function MonthText(d: Date): string
    requires Valid(d) && d.year <= 9999
  {
    Four(d.year) + "-" + Two(d.month)
  }

  /** `%Y-%m-%d` */
  function DayText(d: Date): string
    requires Valid(d) && d.year <= 9999
  {
    MonthText(d) + "-" + Two(d.day)
  }

  lemma MonthTextInjective(a: Date, b: Date)
    requires Valid(a) && Valid(b) && a.year <= 9999 && b.year <= 9999 && MonthText(a) == MonthText(b)
    ensures a.year == b.year && a.month == b.month
  {
    assert MonthText(a)[..4] == Four(a.year) && MonthText(b)[..4] == Four(b.year);
    assert MonthText(a)[5..] == Two(a.month) && MonthText(b)[5..] == Two(b.month);
    FourInjective(a.year, b.year);
    TwoInjective(a.month, b.month);
  }

  lemma DayTextInjective(a: Date, b: Date)
    requires Valid(a) && Valid(b) && a.year <= 9999 && b.year <= 9999 && DayText(a) == DayText(b)
    ensures a == b
  {
    assert DayText(a)[..7] == MonthText(a) && DayText(b)[..7] == MonthText(b);
    assert DayText(a)[8..] == Two(a.day) && DayText(b)[8..] == Two(b.day);
    MonthTextInjective(a, b);
    TwoInjective(a.day, b.day);
  }

  /** The number that a text of digits shows. */
  function Shown(s: string): int
    decreases |s|
  {
    if s == "" then 0 else 10 * Shown(s[..|s| - 1]) + (s[|s| - 1] as int - '0' as int)
  }

  lemma TwoShown(n: int)
    requires 0 <= n <= 99
    ensures Shown(Two(n)) == n
  {
    var s := Two(n);
    assert s[..1] == [Digit(n / 10)];
    ShownOne([Digit(n / 10)]);
  }

  lemma ShownOne(s: string)
    requires |s| == 1
    ensures Shown(s) == s[0] as int - '0' as int
  {
    assert s[..0] == "";
  }

  /** A day's text shows its year, month and day, separated by dashes. */
  lemma DayTextShows(d: Date)
    requires Valid(d) && d.year <= 9999
    ensures var s := DayText(d);
            && |s| == 10 && s[4] == '-' && s[7] == '-'
            && Shown(s[..2]) * 100 + Shown(s[2..4]) == d.year && Shown(s[5..7]) == d.month && Shown(s[8..]) == d.day
    ensures MonthText(d) == DayText(d)[..7]
  {
    var s := DayText(d);
    TwoShown(d.year / 100);
    TwoShown(d.year % 100);
    TwoShown(d.month);
    TwoShown(d.day);
    assert s[..2] == Two(d.year / 100) && s[2..4] == Two(d.year % 100);
    assert s[5..7] == Two(d.month) && s[8..] == Two(d.day);
  }

  /** Python's dates end with the year 9999. */
  predicate InRange(h: nat) { DateOf(h / 24).year <= 9999 }

  /** The bucket of a tick, None if the schedule does not fire. */
  function Bucket(s: Schedule, h: nat): Option<string>
    requires InRange(h)
  {
    var now := NowAt(h);
    var date := DateOf(now.day);
    if !s.enabled || now.hour != s.hour then None
    else match s.frequency
      case Daily => Some(DayText(date))
      case Weekly => if s.weekday.None? || Weekday(now.day) != s.weekday.value then None else Some(DayText(date))
      case Monthly => if s.day.None? || date.day != s.day.value then None else Some(MonthText(date))
      case Off => None
  }

  predicate Fires(s: Schedule, h: nat) { InRange(h) && Bucket(s, h).Some? }

  // ── Exactly once per period ─────────────────────────────────────────────

  /** Daily: one tick per local day. */
  lemma DailyOnce(s: Schedule, day: nat, h: nat)
    requires Normal(s) && s.enabled && s.frequency == Daily && DateOf(day).year <= 9999
    ensures Fires(s, h) && h / 24 == day <==> h == 24 * day + s.hour
  {
    if h == 24 * day + s.hour { assert h / 24 == day; }
  }

  /** The day of a week window that falls on the given weekday. */
  function WeekdayIn(first: nat, weekday: int): (d: nat)
    requires 0 <= weekday <= 6
    ensures first <= d < first + 7 && d % 7 == weekday
    ensures forall e :: first <= e < first + 7 && e % 7 == weekday ==> e == d
  {
    first + (weekday - first) % 7
  }

  /** Weekly: one tick in any seven consecutive local days. */
  lemma WeeklyOnce(s: Schedule, first: nat, h: nat)
    requires Normal(s) && s.enabled && s.frequency == Weekly && s.weekday.Some?
    requires DateOf(WeekdayIn(first, s.weekday.value)).year <= 9999
    ensures Fires(s, h) && first <= h / 24 < first + 7 <==> h == 24 * WeekdayIn(first, s.weekday.value) + s.hour
  {
    var d := WeekdayIn(first, s.weekday.value);
    if h == 24 * d + s.hour { assert h / 24 == d; }
  }

  predicate FiresInMonth(s: Schedule, h: nat, year: int, month: int) {
    Fires(s, h) && DateOf(h / 24).year == year && DateOf(h / 24).month == month
  }

  /** Of all local hours of the month, the schedule fires at this one. */
  ghost predicate OnlyHour(s: Schedule, year: int, month: int, hour: nat) {
    forall h: nat :: FiresInMonth(s, h, year, month) <==> h == hour
  }

  /** Monthly: one tick per calendar month, February of common years included. */
  lemma MonthlyOnce(s: Schedule, year: int, month: int) returns (tick: nat)
    requires Normal(s) && s.enabled && s.frequency == Monthly && s.day.Some?
    requires 1 <= year <= 9999 && 1 <= month <= 12
    ensures OnlyHour(s, year, month, tick)
    ensures tick == 24 * Ordinal(Date(year, month, s.day.value)) + s.hour
  {
    var d := Date(year, month, s.day.value);
    var n := DayWithDate(d);
    tick := 24 * n + s.hour;
    FiresOnDay(s, n);
    forall h: nat | FiresInMonth(s, h, year, month) ensures h == tick { OnlyOnDay(s, h, n); }
  }

  lemma FiresOnDay(s: Schedule, n: nat)
    requires Normal(s) && s.enabled && s.frequency == Monthly && s.day == Some(DateOf(n).day) && DateOf(n).year <= 9999
    ensures FiresInMonth(s, 24 * n + s.hour, DateOf(n).year, DateOf(n).month)
  {
    assert (24 * n + s.hour) / 24 == n;
  }

  lemma OnlyOnDay(s: Schedule, h: nat, n: nat)
    requires Normal(s) && s.frequency == Monthly && s.day == Some(DateOf(n).day)
    requires FiresInMonth(s, h, DateOf(n).year, DateOf(n).month)
    ensures h == 24 * n + s.hour
  {
    assert DateOf(h / 24) == DateOf(n);
    DateOfInjective(h / 24, n);
  }

  lemma DayWithDate(d: Date) returns (n: nat)
    requires Valid(d)
    ensures DateOf(n) == d && n == Ordinal(d)
  {
    DateOfOrdinal(d);
    n := Ordinal(d);
  }

  lemma DateOfInjective(m: nat, n: nat)
    requires DateOf(m) == DateOf(n)
    ensures m == n
  {
  }

  // ── From ticks and raw settings ─────────────────────────────────────────

  /** The number in the range that is nearest to `v`. */
  function Between(low: int, v: int, high: int): (n: int)
    requires low <= high
    ensures low <= n <= high && (low <= v <= high ==> n == v) && (v < low ==> n == low) && (v > high ==> n == high)
  {
    if v < low then low else if v > high then high else v
  }

  /** The schedule of raw settings; None is a value that is not a number, and a weekday
      name that is not known falls back before it gets here. */
  function Configured(
      frequency: Frequency, hour: Option<int>, defaultHour: int, weekday: Option<int>, day: Option<Option<int>>)
      : (s: Schedule)
    requires 0 <= defaultHour <= 23 && (weekday.Some? ==> 0 <= weekday.value <= 6)
    ensures Normal(s) && s.enabled && s.frequency == frequency && s.weekday == weekday && (s.day.Some? <==> day.Some?)
    ensures s.hour == match hour case None => defaultHour case Some(v) => Between(0, v, 23)
    ensures day.Some? ==> s.day == Some(match day.value case None => 1 case Some(v) => Between(1, v, 28))
  {
    Schedule(true, frequency, NormalizeHour(hour, defaultHour), weekday,
             if day.Some? then Some(NormalizeDay(day.value, 1)) else None)
  }

  /** The schedule fires at a tick of the scheduler's clock, seen from a zone. */
  predicate FiresAtTick(s: Schedule, tick: int, offset: int) {
    LocalHour(tick, offset) >= 0 && Fires(s, LocalHour(tick, offset))
  }

  function LocalDay(tick: int, offset: int): int { LocalHour(tick, offset) / 24 }

  /** The local day is the one in which the zone's clock is at the tick. */
  lemma LocalDayExact(tick: int, offset: int)
    ensures 86400 * LocalDay(tick, offset) <= 3600 * tick + offset < 86400 * LocalDay(tick, offset) + 86400
  {
    LocalHourShift(tick, offset);
  }

  /** Whatever the settings and the offset: one tick per local day. */
  lemma DailyTick(hour: Option<int>, defaultHour: int, day: nat, tick: int, offset: int)
    requires 0 <= defaultHour <= 23 && DateOf(day).year <= 9999
    ensures var s := Configured(Daily, hour, defaultHour, None, None);
            FiresAtTick(s, tick, offset) && LocalDay(tick, offset) == day <==>
            tick == 24 * day + s.hour - offset / 3600
  {
    var s := Configured(Daily, hour, defaultHour, None, None);
    LocalHourShift(tick, offset);
    if LocalHour(tick, offset) >= 0 { DailyOnce(s, day, LocalHour(tick, offset)); }
  }

  /** One tick in any seven consecutive local days. */
  lemma WeeklyTick(hour: Option<int>, defaultHour: int, weekday: int, first: nat, tick: int, offset: int)
    requires 0 <= defaultHour <= 23 && 0 <= weekday <= 6 && DateOf(WeekdayIn(first, weekday)).year <= 9999
    ensures var s := Configured(Weekly, hour, defaultHour, Some(weekday), None);
            FiresAtTick(s, tick, offset) && first <= LocalDay(tick, offset) < first + 7 <==>
            tick == 24 * WeekdayIn(first, weekday) + s.hour - offset / 3600
  {
    var s := Configured(Weekly, hour, defaultHour, Some(weekday), None);
    LocalHourShift(tick, offset);
    if LocalHour(tick, offset) >= 0 { WeeklyOnce(s, first, LocalHour(tick, offset)); }
  }

  predicate FiresAtTickInMonth(s: Schedule, tick: int, offset: int, year: int, month: int) {
    LocalHour(tick, offset) >= 0 && FiresInMonth(s, LocalHour(tick, offset), year, month)
  }

  lemma TickAtHour(s: Schedule, tick: int, offset: int, year: int, month: int, h: nat)
    requires OnlyHour(s, year, month, h)
    ensures FiresAtTickInMonth(s, tick, offset, year, month) <==> tick == h - offset / 3600
  {
    LocalHourShift(tick, offset);
    if LocalHour(tick, offset) >= 0 { HourOnly(s, year, month, h, LocalHour(tick, offset)); }
  }

  lemma HourOnly(s: Schedule, year: int, month: int, h: nat, k: nat)
    requires OnlyHour(s, year, month, h)
    ensures FiresInMonth(s, k, year, month) <==> k == h
  {
  }

  /** Of all ticks, the schedule fires at this one in the month. */
  ghost predicate OnlyTick(s: Schedule, offset: int, year: int, month: int, fires: int) {
    forall tick :: FiresAtTickInMonth(s, tick, offset, year, month) <==> tick == fires
  }

  /** One tick in any calendar month: the local hour and the day of the month set. */
  lemma MonthlyTick(hour: Option<int>, defaultHour: int, day: Option<int>, year: int, month: int, offset: int)
    returns (fires: int)
    requires 0 <= defaultHour <= 23 && 1 <= year <= 9999 && 1 <= month <= 12
    ensures var s := Configured(Monthly, hour, defaultHour, None, Some(day));
            && OnlyTick(s, offset, year, month, fires)
            && fires == 24 * Ordinal(Date(year, month, s.day.value)) + s.hour - offset / 3600
  {
    var s := Configured(Monthly, hour, defaultHour, None, Some(day));
    var h := MonthlyOnce(s, year, month);
    fires := h - offset / 3600;
    EveryTick(s, offset, year, month, h);
  }

  lemma EveryTick(s: Schedule, offset: int, year: int, month: int, h: nat)
    requires OnlyHour(s, year, month, h)
    ensures OnlyTick(s, offset, year, month, h - offset / 3600)
  {
    forall tick
      ensures FiresAtTickInMonth(s, tick, offset, year, month) <==> tick == h - offset / 3600
    {
      TickAtHour(s, tick, offset, year, month, h);
    }
  }

  /** The callers pass a day only for the content calendar: any other schedule set to
      monthly never fires. */
  lemma MonthlyWithoutDayNeverFires(s: Schedule, h: nat)
    requires s.frequency == Monthly && s.day.None?
    ensures !Fires(s, h)
  {
  }

  // ── One bucket per period ───────────────────────────────────────────────

  predicate SamePeriod(f: Frequency, h: nat, k: nat) {
    match f
    case Daily => h / 24 == k / 24
    case Weekly => h / 24 / 7 == k / 24 / 7
    case Monthly => DateOf(h / 24).year == DateOf(k / 24).year && DateOf(h / 24).month == DateOf(k / 24).month
    case Off => true
  }

  lemma SameWeekday(x: nat, y: nat)
    requires x % 7 == y % 7
    ensures x / 7 == y / 7 <==> x == y
  {
  }

  lemma DayTextIsDay(x: nat, y: nat)
    requires DateOf(x).year <= 9999 && DateOf(y).year <= 9999
    ensures DayText(DateOf(x)) == DayText(DateOf(y)) <==> x == y
  {
    if DayText(DateOf(x)) == DayText(DateOf(y)) {
      DayTextInjective(DateOf(x), DateOf(y));
      assert Ordinal(DateOf(x)) == x && Ordinal(DateOf(y)) == y;
    }
  }

  lemma MonthTextIsMonth(a: Date, b: Date)
    requires Valid(a) && Valid(b) && a.year <= 9999 && b.year <= 9999
    ensures MonthText(a) == MonthText(b) <==> a.year == b.year && a.month == b.month
  {
    if MonthText(a) == MonthText(b) { MonthTextInjective(a, b); }
  }

  /** Two firing ticks of a schedule share a bucket exactly if they lie in one period. */
  lemma BucketIsPeriod(s: Schedule, h: nat, k: nat)
    requires Fires(s, h) && Fires(s, k)
    ensures Bucket(s, h) == Bucket(s, k) <==> SamePeriod(s.frequency, h, k)
  {
    match s.frequency
    case Daily => DayTextIsDay(h / 24, k / 24);
    case Weekly => WeeklyBucketIsPeriod(s, h, k);
    case Monthly => MonthTextIsMonth(DateOf(h / 24), DateOf(k / 24));
    case Off =>
  }

  lemma WeeklyBucketIsPeriod(s: Schedule, h: nat, k: nat)
    requires Fires(s, h) && Fires(s, k) && s.frequency == Weekly
    ensures Bucket(s, h) == Bucket(s, k) <==> SamePeriod(Weekly, h, k)
  {
    DayTextIsDay(h / 24, k / 24);
    SameWeekday(h / 24, k / 24);
  }

  /** `prefix:tenant:bucket:schedule` */
  function IdempotencyKey(prefix: string, tenant: string, bucket: string): string {
    prefix + ":" + tenant + ":" + bucket + ":schedule"
  }

  lemma KeyInjective(prefix: string, tenant: string, a: string, b: string)
    requires IdempotencyKey(prefix, tenant, a) == IdempotencyKey(prefix, tenant, b)
    ensures a == b
  {
    var head, tail := prefix + ":" + tenant + ":", ":schedule";
    assert IdempotencyKey(prefix, tenant, a) == head + (a + tail);
    assert IdempotencyKey(prefix, tenant, b) == head + (b + tail);
    PrefixInjective(head, a + tail, b + tail);
    assert a == (a + tail)[..|a + tail| - |tail|];
    assert b == (b + tail)[..|b + tail| - |tail|];
  }

  predicate NoColon(s: string) { forall i :: 0 <= i < |s| ==> s[i] != ':' }

  /** How many characters come before the first colon. */
  function BeforeColon(s: string): nat {
    if s == "" || s[0] == ':' then 0 else 1 + BeforeColon(s[1..])
  }

  lemma {:induction false} BeforeColonExact(a: string, x: string)
    requires NoColon(a)
    ensures BeforeColon(a + ":" + x) == |a|
    decreases |a|
  {
    if a != "" {
      assert (a + ":" + x)[1..] == a[1..] + ":" + x;
      BeforeColonExact(a[1..], x);
    }
  }

  lemma FirstColon(a: string, b: string, x: string, y: string)
    requires NoColon(a) && NoColon(b) && a + ":" + x == b + ":" + y
    ensures a == b && x == y
  {
    BeforeColonExact(a, x);
    BeforeColonExact(b, y);
    var s, t := a + ":" + x, b + ":" + y;
    assert a == s[..|a|] && b == t[..|b|] && x == s[|a| + 1..] && y == t[|b| + 1..];
  }

  /** Ids without colons: the key names kind of task, tenant and bucket. */
  lemma KeyNamesAll(p: string, q: string, tenant: string, other: string, a: string, b: string)
    requires NoColon(p) && NoColon(q) && NoColon(tenant) && NoColon(other)
    requires IdempotencyKey(p, tenant, a) == IdempotencyKey(q, other, b)
    ensures p == q && tenant == other && a == b
  {
    var x, y := a + ":schedule", b + ":schedule";
    assert IdempotencyKey(p, tenant, a) == p + ":" + (tenant + ":" + x);
    assert IdempotencyKey(q, other, b) == q + ":" + (other + ":" + y);
    FirstColon(p, q, tenant + ":" + x, other + ":" + y);
    FirstColon(tenant, other, x, y);
    assert a == x[..|x| - 9] && b == y[..|y| - 9];
  }

  /** For one tenant and kind of task, the key names the period: retries within it share
      the key, the next period gets another one. */
  lemma OneKeyPerPeriod(s: Schedule, prefix: string, tenant: string, h: nat, k: nat)
    requires Fires(s, h) && Fires(s, k)
    ensures var a, b := Bucket(s, h).value, Bucket(s, k).value;
            IdempotencyKey(prefix, tenant, a) == IdempotencyKey(prefix, tenant, b) <==> SamePeriod(s.frequency, h, k)
  {
    BucketIsPeriod(s, h, k);
    SameKeySameBucket(prefix, tenant, Bucket(s, h), Bucket(s, k));
  }

  lemma SameKeySameBucket(prefix: string, tenant: string, a: Option<string>, b: Option<string>)
    requires a.Some? && b.Some?
    ensures IdempotencyKey(prefix, tenant, a.value) == IdempotencyKey(prefix, tenant, b.value) <==> a == b
  {
    if IdempotencyKey(prefix, tenant, a.value) == IdempotencyKey(prefix, tenant, b.value) {
      KeyInjective(prefix, tenant, a.value, b.value);
    }
  }
}
