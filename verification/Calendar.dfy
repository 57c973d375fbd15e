/** Budget periods and the civil calendar behind them (src/budget/mod.rs). */
module Calendar {

  datatype Date = Date(year: int, month: int, day: int)

  /** Integer division as the source's language performs it: toward zero. */
  function Quot(a: int, b: int): int
    requires b > 0
  {
    if a >= 0 then a / b else -((-a) / b)
  }

  function DaysFromCivil(year: int, month: int, day: int): int {
    var y := if month <= 2 then year - 1 else year;
    var era := if y >= 0 then Quot(y, 400) else Quot(y - 399, 400);
    var yoe := y - era * 400;
    var mp := (month + 9) % 12;
    var doy := Quot(153 * mp + 2, 5) + day - 1;
    var doe := yoe * 365 + Quot(yoe, 4) - Quot(yoe, 100) + doy;
    era * 146097 + doe - 719468
  }

  function CivilFromDays(days: int): Date {
    var z := days + 719468;
    var era := if z >= 0 then Quot(z, 146097) else Quot(z - 146096, 146097);
    var doe := z - era * 146097;
    var yoe := Quot(doe - Quot(doe, 1460) + Quot(doe, 36524) - Quot(doe, 146096), 365);
    var y := yoe + era * 400;
    var doy := doe - (365 * yoe + Quot(yoe, 4) - Quot(yoe, 100));
    var mp := Quot(5 * doy + 2, 153);
    var d := doy - Quot(153 * mp + 2, 5) + 1;
    var m := if mp < 10 then mp + 3 else mp - 9;
    Date(if m <= 2 then y + 1 else y, m, d)
  }

  // ---------------------------------------------------------------- the naive calendar

  predicate IsLeap(year: int) {
    year % 4 == 0 && (year % 100 != 0 || year % 400 == 0)
  }

  function MonthLength(year: int, month: int): int {
    if month == 2 then (if IsLeap(year) then 29 else 28)
    else if month == 4 || month == 6 || month == 9 || month == 11 then 30
    else 31
  }

  predicate Valid(d: Date) {
    1 <= d.month <= 12 && 1 <= d.day <= MonthLength(d.year, d.month)
  }

  function NextDay(d: Date): Date {
    if d.day < MonthLength(d.year, d.month) then d.(day := d.day + 1)
    else if d.month < 12 then Date(d.year, d.month + 1, 1)
    else Date(d.year + 1, 1, 1)
  }

  function PreviousDay(d: Date): Date {
    if d.day > 1 then d.(day := d.day - 1)
    else if d.month > 1 then Date(d.year, d.month - 1, MonthLength(d.year, d.month - 1))
    else Date(d.year - 1, 12, 31)
  }

  const EPOCH := Date(1970, 1, 1)

  /** The date reached by stepping day by day from the epoch, in either direction. */
  function DayByDay(days: int): Date
    decreases if days < 0 then -days else days
  {
    if days == 0 then EPOCH
    else if days > 0 then NextDay(DayByDay(days - 1))
    else PreviousDay(DayByDay(days + 1))
  }

  // ---------------------------------------------------------------- positions inside an era

  /** Days before year `yoe` of an era of 400 years that start in March. */
  function YearStart(yoe: int): int {
    365 * yoe + yoe / 4 - yoe / 100
  }

  /** Days before month `mp` of such a year. */
  function MonthStart(mp: int): int {
    (153 * mp + 2) / 5
  }

  /** Whether year `yoe` of an era ends with a leap day (it ends in February). */
  predicate LeapEnd(yoe: int) {
    IsLeap(yoe + 1)
  }

  function YearDays(yoe: int): int {
    if LeapEnd(yoe) then 366 else 365
  }

  /** The year of the era that the source computes from the day of the era. */
  function YearOf(doe: int): int {
    (doe - doe / 1460 + doe / 36524 - doe / 146096) / 365
  }

  /** `yoe` split into centuries, leap cycles and years. */
  lemma YearStartSplit(c: int, q: int, r: int)
    requires 0 <= c <= 3 && 0 <= q <= 24 && 0 <= r <= 3
    ensures YearStart(100 * c + 4 * q + r) == 36524 * c + 1461 * q + 365 * r
    ensures LeapEnd(100 * c + 4 * q + r) <==> r == 3 && (q < 24 || c == 3)
  {
    var yoe := 100 * c + 4 * q + r;
    assert yoe / 4 == 25 * c + q && yoe / 100 == c;
    assert (yoe + 1) % 4 == 0 <==> r == 3;
    assert (yoe + 1) % 100 == 0 <==> r == 3 && q == 24;
    assert (yoe + 1) % 400 == 0 <==> r == 3 && q == 24 && c == 3;
  }

  /** The formula finds the year of every day of an era. */
  lemma YearOfSplit(c: int, q: int, r: int, doy: int)
    requires 0 <= c <= 3 && 0 <= q <= 24 && 0 <= r <= 3
    requires 0 <= doy < (if r == 3 && (q < 24 || c == 3) then 366 else 365)
    ensures YearOf(36524 * c + 1461 * q + 365 * r + doy) == 100 * c + 4 * q + r
  {
    var doe := 36524 * c + 1461 * q + 365 * r + doy;
    var extra := if 24 * c + q + 365 * r + doy >= 1460 then 1 else 0;
    assert doe == 1460 * (25 * c + q + extra) + (24 * c + q + 365 * r + doy - 1460 * extra);
    assert doe / 1460 == 25 * c + q + extra;
    if doe == 146096 {
      assert c == 3 && q == 24 && r == 3 && doy == 365;
      assert doe / 36524 == 4 && doe / 146096 == 1;
    } else {
      assert 1461 * q + 365 * r + doy < 36524;
      assert doe == 36524 * c + (1461 * q + 365 * r + doy);
      assert doe / 36524 == c && doe / 146096 == 0;
    }
    var n := doe - doe / 1460 + doe / 36524 - doe / 146096;
    assert n == 365 * (100 * c + 4 * q + r) + (doy - extra);
    assert 0 <= doy - extra < 365;
  }

  function Min(a: int, b: int): int {
    if a < b then a else b
  }

  /** Every day of an era lies in one of its years. */
  lemma SplitDay(doe: int) returns (c: int, q: int, r: int, doy: int)
    requires 0 <= doe < 146097
    ensures 0 <= c <= 3 && 0 <= q <= 24 && 0 <= r <= 3
    ensures 0 <= doy < (if r == 3 && (q < 24 || c == 3) then 366 else 365)
    ensures doe == 36524 * c + 1461 * q + 365 * r + doy
  {
    c := Min(doe / 36524, 3);
    var inCentury := doe - 36524 * c;
    q := Min(inCentury / 1461, 24);
    var inCycle := inCentury - 1461 * q;
    r := Min(inCycle / 365, 3);
    doy := inCycle - 365 * r;
  }

  lemma YearSplits(yoe: int) returns (c: int, q: int, r: int)
    requires 0 <= yoe < 400
    ensures 0 <= c <= 3 && 0 <= q <= 24 && 0 <= r <= 3 && yoe == 100 * c + 4 * q + r
  {
    c := yoe / 100;
    q := (yoe - 100 * c) / 4;
    r := yoe - 100 * c - 4 * q;
  }

  /** A day of an era is a year of the era and a day of that year, in exactly one way. */
  lemma YearOfDay(doe: int)
    requires 0 <= doe < 146097
    ensures 0 <= YearOf(doe) < 400
    ensures 0 <= doe - YearStart(YearOf(doe)) < YearDays(YearOf(doe))
  {
    hide YearOf, YearStart, LeapEnd;
    var c, q, r, doy := SplitDay(doe);
    YearOfSplit(c, q, r, doy);
    YearStartSplit(c, q, r);
  }

  lemma DayOfYear(yoe: int, doy: int)
    requires 0 <= yoe < 400 && 0 <= doy < YearDays(yoe)
    ensures 0 <= YearStart(yoe) + doy < 146097
    ensures YearOf(YearStart(yoe) + doy) == yoe
  {
    var c, q, r := YearSplits(yoe);
    YearStartSplit(c, q, r);
    YearOfSplit(c, q, r, doy);
  }

  lemma YearStartNext(yoe: int)
    requires 0 <= yoe < 400
    ensures yoe < 399 ==> YearStart(yoe + 1) == YearStart(yoe) + YearDays(yoe)
    ensures yoe == 399 ==> YearStart(yoe) + YearDays(yoe) == 146097
  {
    assert (yoe + 1) / 4 == yoe / 4 + (if (yoe + 1) % 4 == 0 then 1 else 0);
    assert (yoe + 1) / 100 == yoe / 100 + (if (yoe + 1) % 100 == 0 then 1 else 0);
    assert yoe < 399 ==> (yoe + 1) % 400 != 0;
  }

  // ---------------------------------------------------------------- positions inside a year

  function MonthDays(mp: int, yoe: int): int {
    if mp == 11 then YearDays(yoe) - 337
    else if mp == 1 || mp == 3 || mp == 6 || mp == 8 then 30
    else 31
  }

  lemma MonthStartNext(mp: int, yoe: int)
    requires 0 <= mp <= 11
    ensures mp < 11 ==> MonthStart(mp + 1) == MonthStart(mp) + MonthDays(mp, yoe)
    ensures mp == 11 ==> MonthStart(mp) + MonthDays(mp, yoe) == YearDays(yoe)
    ensures MonthStart(0) == 0
  {
    assert mp == 0 || mp == 1 || mp == 2 || mp == 3 || mp == 4 || mp == 5 || mp == 6 || mp == 7
        || mp == 8 || mp == 9 || mp == 10 || mp == 11;
  }

  /** The month formula inverts the month starts. */
  lemma MonthOfDay(doy: int, yoe: int)
    requires 0 <= doy < YearDays(yoe)
    ensures var mp := (5 * doy + 2) / 153; 0 <= mp <= 11 && 0 <= doy - MonthStart(mp) < MonthDays(mp, yoe)
  {
    var mp := (5 * doy + 2) / 153;
    MonthStartNext(mp, yoe);
  }

  lemma DayOfMonth(mp: int, day: int, yoe: int)
    requires 0 <= mp <= 11 && 0 <= day < MonthDays(mp, yoe)
    ensures 0 <= MonthStart(mp) + day < YearDays(yoe)
    ensures (5 * (MonthStart(mp) + day) + 2) / 153 == mp
  {
    assert mp == 0 || mp == 1 || mp == 2 || mp == 3 || mp == 4 || mp == 5 || mp == 6 || mp == 7
        || mp == 8 || mp == 9 || mp == 10 || mp == 11;
  }

  // ---------------------------------------------------------------- the two conversions

  /** A date counted in years that start in March. */
  datatype March = March(era: int, yoe: int, mp: int, day: int)

  function ToMarch(d: Date): March {
    var y := if d.month <= 2 then d.year - 1 else d.year;
    March(y / 400, y % 400, (d.month + 9) % 12, d.day - 1)
  }

  function FromMarch(m: March): Date {
    var month := if m.mp < 10 then m.mp + 3 else m.mp - 9;
    var y := m.yoe + m.era * 400;
    Date(if month <= 2 then y + 1 else y, month, m.day + 1)
  }

  predicate ValidMarch(m: March) {
    0 <= m.yoe < 400 && 0 <= m.mp <= 11 && 0 <= m.day < MonthDays(m.mp, m.yoe)
  }

  function MarchDays(m: March): int {
    m.era * 146097 + YearStart(m.yoe) + MonthStart(m.mp) + m.day - 719468
  }

  function MarchFromDays(days: int): March {
    var z := days + 719468;
    var doe := z % 146097;
    var yoe := YearOf(doe);
    var doy := doe - YearStart(yoe);
    var mp := (5 * doy + 2) / 153;
    March(z / 146097, yoe, mp, doy - MonthStart(mp))
  }

  lemma Mod4(year: int, k: int)
    ensures (year + 4 * k) % 4 == year % 4
  {
    assert year + 4 * k == 4 * (year / 4 + k) + year % 4;
  }

  lemma Mod100(year: int, k: int)
    ensures (year + 100 * k) % 100 == year % 100
  {
    assert year + 100 * k == 100 * (year / 100 + k) + year % 100;
  }

  lemma Mod400(year: int, k: int)
    ensures (year + 400 * k) % 400 == year % 400
  {
    assert year + 400 * k == 400 * (year / 400 + k) + year % 400;
  }

  lemma LeapPeriod(year: int, era: int)
    ensures IsLeap(year + era * 400) == IsLeap(year)
  {
    Mod4(year, 100 * era);
    Mod100(year, 4 * era);
    Mod400(year, era);
  }

  lemma MarchValid(d: Date)
    requires Valid(d)
    ensures ValidMarch(ToMarch(d)) && FromMarch(ToMarch(d)) == d
  {
    var m := ToMarch(d);
    assert (d.month <= 2 ==> m.mp == d.month + 9) && (d.month > 2 ==> m.mp == d.month - 3);
    LeapPeriod(m.yoe + 1, m.era);
  }

  lemma DateValid(m: March)
    requires ValidMarch(m)
    ensures Valid(FromMarch(m)) && ToMarch(FromMarch(m)) == m
  {
    var d := FromMarch(m);
    LeapPeriod(m.yoe + 1, m.era);
    var y := m.yoe + m.era * 400;
    assert y / 400 == m.era && y % 400 == m.yoe;
  }

  /** The era the source computes, for negative years too, is the floor. */
  lemma YearEra(y: int)
    ensures (if y >= 0 then Quot(y, 400) else Quot(y - 399, 400)) == y / 400
    ensures y - y / 400 * 400 == y % 400
  {}

  lemma DayEra(z: int)
    ensures (if z >= 0 then Quot(z, 146097) else Quot(z - 146096, 146097)) == z / 146097
    ensures z - z / 146097 * 146097 == z % 146097
  {}

  lemma DaysFromCivilIs(d: Date)
    requires Valid(d)
    ensures DaysFromCivil(d.year, d.month, d.day) == MarchDays(ToMarch(d))
  {
    var y := if d.month <= 2 then d.year - 1 else d.year;
    YearEra(y);
  }

  lemma QuotYear(doe: int)
    requires 0 <= doe < 146097
    ensures Quot(doe - Quot(doe, 1460) + Quot(doe, 36524) - Quot(doe, 146096), 365) == YearOf(doe)
  {}

  lemma QuotNat(a: int, b: int)
    requires a >= 0 && b > 0
    ensures Quot(a, b) == a / b
  {}

  lemma CivilFromDaysIs(days: int)
    ensures CivilFromDays(days) == FromMarch(MarchFromDays(days))
    ensures ValidMarch(MarchFromDays(days))
  {
    hide Quot, YearOf, MonthDays, YearDays;
    var z := days + 719468;
    DayEra(z);
    var doe := z % 146097;
    YearOfDay(doe);
    QuotYear(doe);
    var yoe := YearOf(doe);
    QuotNat(yoe, 4);
    QuotNat(yoe, 100);
    var doy := doe - YearStart(yoe);
    MonthOfDay(doy, yoe);
    QuotNat(5 * doy + 2, 153);
    QuotNat(153 * ((5 * doy + 2) / 153) + 2, 5);
  }

  lemma MarchRoundTrip(m: March)
    requires ValidMarch(m)
    ensures MarchFromDays(MarchDays(m)) == m
  {
    DayOfMonth(m.mp, m.day, m.yoe);
    var doy := MonthStart(m.mp) + m.day;
    DayOfYear(m.yoe, doy);
    var doe := YearStart(m.yoe) + doy;
    var z := MarchDays(m) + 719468;
    assert z == m.era * 146097 + doe;
    assert z / 146097 == m.era && z % 146097 == doe;
  }

  /** Every integer day number survives the trip through the civil calendar. */
  lemma DaysRoundTrip(days: int)
    ensures var d := CivilFromDays(days); Valid(d) && DaysFromCivil(d.year, d.month, d.day) == days
  {
    CivilFromDaysIs(days);
    var m := MarchFromDays(days);
    DateValid(m);
    DaysFromCivilIs(FromMarch(m));
  }

  /** Every valid date survives the trip through the day numbers. */
  lemma DateRoundTrip(d: Date)
    requires Valid(d)
    ensures CivilFromDays(DaysFromCivil(d.year, d.month, d.day)) == d
  {
    MarchValid(d);
    DaysFromCivilIs(d);
    MarchRoundTrip(ToMarch(d));
    CivilFromDaysIs(MarchDays(ToMarch(d)));
  }

  // ---------------------------------------------------------------- agreement with the naive calendar

  function NextMarch(m: March): March {
    if m.day + 1 < MonthDays(m.mp, m.yoe) then m.(day := m.day + 1)
    else if m.mp < 11 then March(m.era, m.yoe, m.mp + 1, 0)
    else if m.yoe < 399 then March(m.era, m.yoe + 1, 0, 0)
    else March(m.era + 1, 0, 0, 0)
  }

  lemma NextMarchNumber(m: March)
    requires ValidMarch(m)
    ensures MarchDays(NextMarch(m)) == MarchDays(m) + 1
  {
    hide YearDays, YearStart, MonthStart, MonthDays;
    MonthStartNext(m.mp, m.yoe);
    YearStartNext(m.yoe);
    YearStartSplit(0, 0, 0);
  }

  lemma NextDayIs(d: Date)
    requires Valid(d)
    ensures Valid(NextDay(d)) && ToMarch(NextDay(d)) == NextMarch(ToMarch(d))
  {
    var m := ToMarch(d);
    assert (d.month <= 2 ==> m.mp == d.month + 9) && (d.month > 2 ==> m.mp == d.month - 3);
    LeapPeriod(m.yoe + 1, m.era);
    MonthLengthIs(d);
  }

  lemma MonthLengthIs(d: Date)
    requires Valid(d)
    ensures var m := ToMarch(d); MonthLength(d.year, d.month) == MonthDays(m.mp, m.yoe)
  {
    var m := ToMarch(d);
    assert (d.month <= 2 ==> m.mp == d.month + 9) && (d.month > 2 ==> m.mp == d.month - 3);
    LeapPeriod(m.yoe + 1, m.era);
  }

  lemma NextDayNumber(d: Date)
    requires Valid(d)
    ensures Valid(NextDay(d))
    ensures var n := NextDay(d); DaysFromCivil(n.year, n.month, n.day) == DaysFromCivil(d.year, d.month, d.day) + 1
  {
    hide DaysFromCivil, ToMarch, NextMarch, MarchDays, NextDay, Valid, ValidMarch;
    MarchValid(d);
    NextDayIs(d);
    DaysFromCivilIs(d);
    DaysFromCivilIs(NextDay(d));
    NextMarchNumber(ToMarch(d));
  }

  lemma PreviousUndoesNext(d: Date)
    requires Valid(d)
    ensures PreviousDay(NextDay(d)) == d
  {}

  /** One day later on the day count is the next day on the calendar. */
  lemma CivilStep(days: int)
    ensures CivilFromDays(days + 1) == NextDay(CivilFromDays(days))
  {
    hide CivilFromDays, DaysFromCivil, NextDay, Valid;
    var d := CivilFromDays(days);
    DaysRoundTrip(days);
    NextDayNumber(d);
    DateRoundTrip(NextDay(d));
  }

  lemma EpochIsZero()
    ensures CivilFromDays(0) == EPOCH
  {
    hide CivilFromDays;
    DateRoundTrip(EPOCH);
    assert DaysFromCivil(1970, 1, 1) == 0;
  }

  /** The era arithmetic agrees with stepping day by day from 1970-01-01, both ways. */
  lemma {:induction false} CivilIsDayByDay(days: int)
    ensures CivilFromDays(days) == DayByDay(days)
    decreases if days < 0 then -days else days
  {
    hide CivilFromDays, DaysFromCivil, NextDay, PreviousDay, Valid;
    if days == 0 {
      EpochIsZero();
    } else if days > 0 {
      CivilIsDayByDay(days - 1);
      CivilStep(days - 1);
    } else {
      CivilIsDayByDay(days + 1);
      CivilStep(days);
      DaysRoundTrip(days);
      PreviousUndoesNext(CivilFromDays(days));
    }
  }

  // ---------------------------------------------------------------- periods

  const DAY := 86400

  function MonthPeriod(now: int): int {
    var d := CivilFromDays(now / DAY);
    DaysFromCivil(d.year, d.month, 1) * DAY
  }

  /** Any period name but "month" means a day. */
  function PeriodStart(period: string, now: int): int {
    if period == "month" then MonthPeriod(now) else now / DAY * DAY
  }

  function DateAt(now: int): Date {
    CivilFromDays(now / 86400)
  }

  /** The first day of a month, and where every day of the month lies from it. */
  lemma MonthSpan(d: Date)
    requires Valid(d)
    ensures DaysFromCivil(d.year, d.month, d.day) == DaysFromCivil(d.year, d.month, 1) + d.day - 1
  {}

  function Months(d: Date): int {
    12 * d.year + d.month
  }

  lemma NextMonthStart(d: Date)
    requires Valid(d)
    ensures var y, m := if d.month == 12 then d.year + 1 else d.year, if d.month == 12 then 1 else d.month + 1;
            DaysFromCivil(y, m, 1) == DaysFromCivil(d.year, d.month, 1) + MonthLength(d.year, d.month)
  {
    var last := Date(d.year, d.month, MonthLength(d.year, d.month));
    NextDayNumber(last);
    MonthSpan(last);
  }

  /** Later months start no earlier. */
  lemma {:induction false} MonthsAscend(a: Date, b: Date)
    requires Valid(a) && Valid(b) && Months(a) < Months(b)
    ensures DaysFromCivil(a.year, a.month, 1) + MonthLength(a.year, a.month) <= DaysFromCivil(b.year, b.month, 1)
    decreases Months(b) - Months(a)
  {
    NextMonthStart(a);
    var next := if a.month == 12 then Date(a.year + 1, 1, 1) else Date(a.year, a.month + 1, 1);
    assert Months(next) == Months(a) + 1;
    if Months(next) < Months(b) {
      MonthsAscend(next, b);
    } else {
      assert next.year == b.year && next.month == b.month;
    }
  }

  /** Where a time lies in its month. */
  lemma MonthOf(now: int)
    ensures var d, start := DateAt(now), MonthPeriod(now);
            && Valid(d)
            && start == DaysFromCivil(d.year, d.month, 1) * DAY
            && now / DAY == DaysFromCivil(d.year, d.month, 1) + d.day - 1
  {
    hide CivilFromDays, DaysFromCivil, Valid;
    DaysRoundTrip(now / DAY);
    MonthSpan(DateAt(now));
  }

  lemma MonthFits(d: Date)
    requires Valid(d)
    ensures 28 <= MonthLength(d.year, d.month) <= 31 && 1 <= d.day <= MonthLength(d.year, d.month)
  {}

  lemma MonthPeriodIsStart(now: int)
    ensures MonthPeriod(now) <= now && MonthPeriod(MonthPeriod(now)) == MonthPeriod(now)
    ensures MonthPeriod(now) % DAY == 0 && DateAt(MonthPeriod(now)) == Date(DateAt(now).year, DateAt(now).month, 1)
  {
    hide CivilFromDays, DaysFromCivil, MonthPeriod, MonthLength;
    MonthOf(now);
    var d := DateAt(now);
    MonthFits(d);
    DateRoundTrip(Date(d.year, d.month, 1));
    assert MonthPeriod(now) / DAY == DaysFromCivil(d.year, d.month, 1);
    assert DateAt(MonthPeriod(now)) == Date(d.year, d.month, 1);
    MonthOf(MonthPeriod(now));
  }

  /**
   A period starts at or before every time in it, is its own start, and is the first second of a
   day: of the first of the month for "month", of the same day for every other name.
   */
  lemma PeriodStartIsStart(period: string, now: int)
    ensures var start, d := PeriodStart(period, now), DateAt(now);
            && start <= now && PeriodStart(period, start) == start
            && start % 86400 == 0
            && DateAt(start) == if period == "month" then Date(d.year, d.month, 1) else d
  {
    hide CivilFromDays, MonthPeriod;
    MonthPeriodIsStart(now);
    assert now / DAY * DAY / DAY == now / DAY;
  }

  /** Two times share a month start exactly when they share civil year and month. */
  lemma SameMonthSameStart(a: int, b: int)
    ensures PeriodStart("month", a) == PeriodStart("month", b)
            <==> DateAt(a).year == DateAt(b).year && DateAt(a).month == DateAt(b).month
  {
    hide CivilFromDays, DaysFromCivil, MonthPeriod, MonthLength;
    MonthOf(a);
    MonthOf(b);
    MonthFits(DateAt(a));
    MonthFits(DateAt(b));
    if Months(DateAt(a)) < Months(DateAt(b)) {
      MonthsAscend(DateAt(a), DateAt(b));
    } else if Months(DateAt(b)) < Months(DateAt(a)) {
      MonthsAscend(DateAt(b), DateAt(a));
    }
  }

  /** For every other period name two times share a start exactly when they share a date. */
  lemma SameDaySameStart(period: string, a: int, b: int)
    requires period != "month"
    ensures PeriodStart(period, a) == PeriodStart(period, b) <==> DateAt(a) == DateAt(b)
  {
    hide CivilFromDays, DaysFromCivil, Valid;
    DaysRoundTrip(a / DAY);
    DaysRoundTrip(b / DAY);
  }

  lemma MonthPeriodIsMonotone(a: int, b: int)
    requires a <= b
    ensures MonthPeriod(a) <= MonthPeriod(b)
  {
    hide CivilFromDays, DaysFromCivil, MonthPeriod, MonthLength, DateAt;
    var d, e := DateAt(a), DateAt(b);
    MonthOf(a);
    MonthOf(b);
    MonthFits(d);
    MonthFits(e);
    assert a / DAY <= b / DAY;
    if Months(e) < Months(d) {
      MonthsAscend(e, d);
      assert false;
    } else if Months(d) < Months(e) {
      MonthsAscend(d, e);
    }
  }

  lemma PeriodStartIsMonotone(period: string, a: int, b: int)
    requires a <= b
    ensures PeriodStart(period, a) <= PeriodStart(period, b)
  {
    hide MonthPeriod;
    MonthPeriodIsMonotone(a, b);
  }

  /**
   The month that holds a time ends 28 to 31 days after it starts: the times
   before that are exactly those of the same period, and its end starts the next.
   */
  lemma MonthPeriodLength(now: int, later: int)
    ensures var start := PeriodStart("month", now);
            var end := start + MonthLength(DateAt(now).year, DateAt(now).month) * 86400;
            && 28 * 86400 <= end - start <= 31 * 86400
            && (start <= later < end <==> PeriodStart("month", later) == start)
            && PeriodStart("month", end) == end
  {
    hide CivilFromDays, DaysFromCivil, MonthPeriod, MonthLength, DateAt;
    MonthOf(now);
    MonthOf(later);
    var d, e := DateAt(now), DateAt(later);
    MonthFits(d);
    MonthFits(e);
    if Months(d) < Months(e) {
      MonthsAscend(d, e);
    } else if Months(e) < Months(d) {
      MonthsAscend(e, d);
    }
    MonthEnd(now);
  }

  lemma MonthEnd(now: int)
    ensures var end := MonthPeriod(now) + MonthLength(DateAt(now).year, DateAt(now).month) * 86400;
            MonthPeriod(end) == end
  {
    hide CivilFromDays, DaysFromCivil, MonthPeriod, MonthLength;
    MonthOf(now);
    var d := DateAt(now);
    var end := MonthPeriod(now) + MonthLength(d.year, d.month) * DAY;
    NextMonthStart(d);
    var next := if d.month == 12 then Date(d.year + 1, 1, 1) else Date(d.year, d.month + 1, 1);
    assert Valid(next) by {
      FirstIsValid(next);
    }
    DateRoundTrip(next);
    assert end / DAY == DaysFromCivil(next.year, next.month, 1);
    assert DateAt(end) == next;
    MonthOf(end);
  }

  lemma FirstIsValid(d: Date)
    requires 1 <= d.month <= 12 && d.day == 1
    ensures Valid(d)
  {}
}
