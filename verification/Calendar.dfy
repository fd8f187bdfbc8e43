// Calendar arithmetic: Gregorian months over day numbers, the weekly and monthly
// expiry of an instrument, and the shift off an exchange holiday. A day is its
// proleptic Gregorian ordinal, with 1 January of year 1 as day 1, a Monday.

module Calendar {
  import opened Broker

  type Day = int

  /** Monday is 0. */
  function Weekday(d: Day): nat {
    (d + 6) % 7
  }

  predicate Leap(year: int) {
    year % 4 == 0 && (year % 100 != 0 || year % 400 == 0)
  }

  function DaysInMonth(year: int, month: int): nat {
    if month == 2 then (if Leap(year) then 29 else 28)
    else if month in {4, 6, 9, 11} then 30
    else 31
  }

  function DaysBeforeYear(year: int): int {
    var y := year - 1;
    y * 365 + y / 4 - y / 100 + y / 400
  }

  function DaysBeforeMonth(year: int, month: int): nat
    requires month <= 12
    decreases month
  {
    if month <= 1 then 0 else DaysBeforeMonth(year, month - 1) + DaysInMonth(year, month - 1)
  }

  /** The day number of the date (year, month, day). */
  function Ordinal(year: int, month: int, day: int): Day
    requires 1 <= month <= 12
  {
    DaysBeforeYear(year) + DaysBeforeMonth(year, month) + day
  }

  // ---- Months on the day line ----

  datatype YearMonth = Month(year: int, month: int)

  type Month = m: YearMonth | 1 <= m.month <= 12 witness Month(1, 1)

  function NextMonth(m: Month): Month {
    if m.month == 12 then Month(m.year + 1, 1) else Month(m.year, m.month + 1)
  }

  function First(m: Month): Day {
    Ordinal(m.year, m.month, 1)
  }

  lemma YearLength(year: int)
    ensures DaysBeforeYear(year + 1) == DaysBeforeYear(year) + if Leap(year) then 366 else 365
  {
    var y := year - 1;
    assert (y + 1) / 4 == y / 4 + if year % 4 == 0 then 1 else 0;
    assert (y + 1) / 100 == y / 100 + if year % 100 == 0 then 1 else 0;
    assert (y + 1) / 400 == y / 400 + if year % 400 == 0 then 1 else 0;
    assert year % 400 == 0 ==> year % 100 == 0;
    assert year % 100 == 0 ==> year % 4 == 0;
  }

  lemma WholeYear(year: int)
    ensures DaysBeforeMonth(year, 12) + 31 == if Leap(year) then 366 else 365
  {
    assert DaysBeforeMonth(year, 3) == 31 + DaysInMonth(year, 2);
    assert DaysBeforeMonth(year, 6) == DaysBeforeMonth(year, 3) + 92;
    assert DaysBeforeMonth(year, 9) == DaysBeforeMonth(year, 6) + 92;
    assert DaysBeforeMonth(year, 12) == DaysBeforeMonth(year, 9) + 91;
  }

  /** Each month ends the day before the next begins, December included. */
  lemma MonthLength(m: Month)
    ensures First(NextMonth(m)) == First(m) + DaysInMonth(m.year, m.month)
  {
    if m.month == 12 {
      YearLength(m.year);
      WholeYear(m.year);
      assert DaysBeforeMonth(m.year + 1, 1) == 0;
    }
  }

  // ---- The Gregorian calendar, without a table of lengths ----

  /** The day on which the month `k` after March begins, in the year that begins with the
      March of `year`: 365 days a year, a day more every fourth year but three times in
      four centuries, and 153 days every five months. */
  function MarchDay(year: int, k: nat): Day {
    365 * year + year / 4 - year / 100 + year / 400 - 305 + (153 * k + 2) / 5
  }

  lemma MonthsFromMarch(year: int, k: nat)
    requires k <= 9
    ensures DaysBeforeMonth(year, 3 + k) - DaysBeforeMonth(year, 3) == (153 * k + 2) / 5
  {
    var april := DaysBeforeMonth(year, 4);
    assert april == DaysBeforeMonth(year, 3) + 31;
    assert DaysBeforeMonth(year, 6) == april + 61;
    assert DaysBeforeMonth(year, 8) == april + 122;
    assert DaysBeforeMonth(year, 10) == april + 183;
    assert DaysBeforeMonth(year, 12) == april + 244;
  }

  lemma MarchBegins(year: int)
    ensures DaysBeforeYear(year) + DaysBeforeMonth(year, 3) + 1 == MarchDay(year, 0)
  {
    YearLength(year);
    assert DaysBeforeMonth(year, 3) == 31 + DaysInMonth(year, 2);
  }

  /** Every month begins where the Gregorian calendar has it begin. */
  lemma MonthsBegin(m: Month)
    ensures First(m) == if m.month >= 3 then MarchDay(m.year, m.month - 3) else MarchDay(m.year - 1, m.month + 9)
  {
    if m.month >= 3 {
      MarchBegins(m.year);
      MonthsFromMarch(m.year, m.month - 3);
    } else {
      var y := m.year - 1;
      assert DaysBeforeYear(m.year) == 365 * y + y / 4 - y / 100 + y / 400;
      assert DaysBeforeMonth(m.year, 2) == 31;
    }
  }

  /** Weekdays repeat every seven days from a known one: 1 January 2000 was a Saturday. */
  lemma WeekdaysFrom2000(d: Day, weeks: int)
    ensures Weekday(Ordinal(2000, 1, 1)) == 5
    ensures Weekday(d + 7 * weeks) == Weekday(d) && Weekday(d + 1) == (Weekday(d) + 1) % 7
  {
    MonthsBegin(Month(2000, 1));
  }

  /** The day lies in the month. */
  predicate In(d: Day, m: Month) {
    First(m) <= d < First(NextMonth(m))
  }

  predicate Before(m: Month, n: Month) {
    m.year < n.year || (m.year == n.year && m.month < n.month)
  }

  lemma {:induction false} MonthsInOrder(m: Month, n: Month)
    requires Before(m, n)
    ensures First(NextMonth(m)) <= First(n)
    decreases n.year - m.year, 12 - m.month
  {
    if NextMonth(m) != n {
      MonthLength(NextMonth(m));
      MonthsInOrder(NextMonth(m), n);
    }
  }

  lemma OneMonth(d: Day, m: Month, n: Month)
    requires In(d, m) && In(d, n)
    ensures m == n
  {
    if Before(m, n) {
      MonthsInOrder(m, n);
    } else if Before(n, m) {
      MonthsInOrder(n, m);
    }
  }

  /** The month of a day of year 1 or later, found by walking forward from `from`. */
  function MonthFrom(d: Day, from: Month): (m: Month)
    requires First(from) <= d
    ensures In(d, m) && from.year <= m.year
    decreases d - First(from)
  {
    MonthLength(from);
    if d < First(NextMonth(from)) then from else MonthFrom(d, NextMonth(from))
  }

  predicate Dated(d: Day) {
    d >= 1
  }

  function MonthOf(d: Day): (m: Month)
    requires Dated(d)
    ensures In(d, m) && m.year >= 1
  {
    DayOne();
    MonthFrom(d, Origin)
  }

  /** The month of day 1. */
  const Origin: Month := Month(1, 1)

  lemma DayOne()
    ensures First(Origin) == 1
  {
  }

  function DayOfMonth(d: Day): (n: nat)
    requires Dated(d)
    ensures 1 <= n <= DaysInMonth(MonthOf(d).year, MonthOf(d).month)
  {
    MonthLength(MonthOf(d));
    d - First(MonthOf(d)) + 1
  }

  /** Dates and day numbers are two spellings of the same thing. */
  lemma DatesRoundTrip(year: int, month: int, day: int)
    requires year >= 1 && 1 <= month <= 12 && 1 <= day <= DaysInMonth(year, month)
    ensures var d := Ordinal(year, month, day);
      Dated(d) && MonthOf(d) == Month(year, month) && DayOfMonth(d) == day
  {
    var d, m := Ordinal(year, month, day), Month(year, month);
    assert In(d, m) && d == First(m) + day - 1 by { MonthLength(m); }
    assert First(m) >= 1 by { FromYearOne(m); }
    OneMonth(d, MonthOf(d), m);
  }

  lemma FromYearOne(m: Month)
    requires m.year >= 1
    ensures First(m) >= 1
  {
    var y := m.year - 1;
    assert y / 100 <= y && y / 4 >= 0 && y / 400 >= 0;
  }

  lemma OrdinalRoundTrip(d: Day)
    requires Dated(d)
    ensures Ordinal(MonthOf(d).year, MonthOf(d).month, DayOfMonth(d)) == d
  {
  }

  // ---- Nominal expiries ----

  function LastWeekdayOfMonth(m: Month, weekday: int): Day {
    var last := First(NextMonth(m)) - 1;
    last - (Weekday(last) - weekday) % 7
  }

  function MonthlyOnOrAfter(asOf: Day, weekday: int): Day
    requires Dated(asOf)
  {
    var expiry := LastWeekdayOfMonth(MonthOf(asOf), weekday);
    if expiry < asOf then LastWeekdayOfMonth(NextMonth(MonthOf(asOf)), weekday) else expiry
  }

  function WeeklyOnOrAfter(asOf: Day, weekday: int): Day {
    asOf + (weekday - Weekday(asOf)) % 7
  }

  /** `d` is the last such weekday of its month: a week later it is another month. */
  predicate LastOfItsMonth(d: Day, weekday: int) {
    Dated(d) && Weekday(d) == weekday % 7 && !In(d + 7, MonthOf(d))
  }

  lemma OneInSeven(d: Day, e: Day, weekday: int)
    requires Weekday(d) == Weekday(e) == weekday % 7 && d - 7 < e < d + 7
    ensures d == e
  {
  }

  lemma LastBefore(next: Day, weekday: int)
    ensures var e := next - 1 - (Weekday(next - 1) - weekday) % 7; next - 7 <= e < next && Weekday(e) == weekday % 7
  {
    ModShift(next + 5, weekday);
  }

  lemma ModShift(x: int, w: int)
    ensures (x - (x % 7 - w) % 7) % 7 == w % 7
  {
  }

  lemma LastWeekdayIsLast(m: Month, weekday: int)
    requires m.year >= 1
    ensures IsTheLast(m, LastWeekdayOfMonth(m, weekday), weekday)
  {
    LastBefore(First(NextMonth(m)), weekday);
    FinalWeekIsLast(m, LastWeekdayOfMonth(m, weekday), weekday);
  }

  /** `e` is the one day of the month that is the last such weekday in it. */
  ghost predicate IsTheLast(m: Month, e: Day, weekday: int) {
    In(e, m) && LastOfItsMonth(e, weekday) && forall d :: In(d, m) && LastOfItsMonth(d, weekday) ==> d == e
  }

  lemma FinalWeekIsLast(m: Month, e: Day, weekday: int)
    requires m.year >= 1 && First(NextMonth(m)) - 7 <= e < First(NextMonth(m)) && Weekday(e) == weekday % 7
    ensures IsTheLast(m, e, weekday)
  {
    assert In(e, m) by { MonthLength(m); }
    assert Dated(e) by { FromYearOne(m); }
    OneMonth(e, MonthOf(e), m);
    forall d | In(d, m) && LastOfItsMonth(d, weekday) ensures d == e { LastIsUnique(m, d, e, weekday); }
  }

  lemma LastIsUnique(m: Month, d: Day, e: Day, weekday: int)
    requires In(d, m) && LastOfItsMonth(d, weekday)
    requires First(NextMonth(m)) - 7 <= e < First(NextMonth(m)) && Weekday(e) == weekday % 7
    ensures d == e
  {
    OneMonth(d, MonthOf(d), m);
    assert d + 7 >= First(NextMonth(m));
    OneInSeven(d, e, weekday);
  }

  /** The monthly expiry is the least date on or after `asOf` that is the last such
      weekday of its month, in every month of every year. */
  lemma MonthlyIsLeast(asOf: Day, weekday: int)
    requires Dated(asOf)
    ensures var e := MonthlyOnOrAfter(asOf, weekday);
      asOf <= e && LastOfItsMonth(e, weekday) && forall d :: asOf <= d < e ==> !LastOfItsMonth(d, weekday)
  {
    var m, e := MonthOf(asOf), MonthlyOnOrAfter(asOf, weekday);
    LastWeekdayIsLast(m, weekday);
    if LastWeekdayOfMonth(m, weekday) < asOf {
      LastWeekdayIsLast(NextMonth(m), weekday);
    }
    forall d | asOf <= d < e ensures !LastOfItsMonth(d, weekday) {
      assert In(d, m) || In(d, NextMonth(m));
    }
  }

  /** The weekly expiry is the least date on or after `asOf` with the weekday. */
  lemma WeeklyIsLeast(asOf: Day, weekday: int)
    ensures var e := WeeklyOnOrAfter(asOf, weekday);
      asOf <= e <= asOf + 6 && Weekday(e) == weekday % 7 && forall d :: asOf <= d < e ==> Weekday(d) != weekday % 7
  {
    var e := WeeklyOnOrAfter(asOf, weekday);
    forall d | asOf <= d < e ensures Weekday(d) != weekday % 7 {
      if Weekday(d) == weekday % 7 { OneInSeven(d, e, weekday); }
    }
  }

  // ---- Trading days ----

  datatype Exchange = NFO | NSE | BFO | BSE

  /** The declared holidays of each exchange calendar. */
  type Holidays = map<string, set<Day>>

  function CalendarKey(exchange: Exchange): string {
    if exchange.NFO? || exchange.NSE? then "NSE" else "BSE"
  }

  predicate Holiday(h: Holidays, d: Day, exchange: Exchange) {
    CalendarKey(exchange) in h && d in h[CalendarKey(exchange)]
  }

  predicate Trading(h: Holidays, d: Day, exchange: Exchange) {
    Weekday(d) < 5 && !Holiday(h, d, exchange)
  }

  ghost predicate NoneTrading(h: Holidays, exchange: Exchange, lo: Day, hi: Day) {
    forall d :: lo < d < hi ==> !Trading(h, d, exchange)
  }

  /** `p` and `d` are neighbouring trading days, or `p` neighbours `d` from below. */
  ghost predicate PreviousOf(h: Holidays, exchange: Exchange, d: Day, p: Day) {
    p < d && Trading(h, p, exchange) && NoneTrading(h, exchange, p, d)
  }

  ghost predicate NextOf(h: Holidays, exchange: Exchange, d: Day, n: Day) {
    d < n && Trading(h, n, exchange) && NoneTrading(h, exchange, d, n)
  }

  const MaxWalkDays := 3650

  /** The nearest trading day before `day`; `None` when ten years hold none. */
  method PreviousTradingDay(h: Holidays, day: Day, exchange: Exchange) returns (r: Option<Day>)
    ensures r.Some? ==> PreviousOf(h, exchange, day, r.value)
    ensures r.None? <==> NoneTrading(h, exchange, day - 1 - MaxWalkDays, day)
  {
    var d := day - 1;
    for n := 0 to MaxWalkDays
      invariant d == day - 1 - n && NoneTrading(h, exchange, d, day)
    {
      if Trading(h, d, exchange) {
        return Some(d);
      }
      d := d - 1;
    }
    return None;
  }

  method NextTradingDay(h: Holidays, day: Day, exchange: Exchange) returns (r: Option<Day>)
    ensures r.Some? ==> NextOf(h, exchange, day, r.value)
    ensures r.None? <==> NoneTrading(h, exchange, day, day + 1 + MaxWalkDays)
  {
    var d := day + 1;
    for n := 0 to MaxWalkDays
      invariant d == day + 1 + n && NoneTrading(h, exchange, day, d)
    {
      if Trading(h, d, exchange) {
        return Some(d);
      }
      d := d + 1;
    }
    return None;
  }

  /** The two walks are inverse on trading days. */
  lemma PreviousUndoesNext(h: Holidays, exchange: Exchange, d: Day, e: Day, f: Day)
    requires Trading(h, d, exchange) && NextOf(h, exchange, d, e) && PreviousOf(h, exchange, e, f)
    ensures f == d
  {
  }

  /** A segment trades when its cash market does: not on a Saturday or Sunday, and not on
      a day declared for that market; what is declared for the other does not matter. */
  lemma TradingIff(h: Holidays, d: Day, exchange: Exchange)
    ensures Trading(h, d, exchange) <==>
      Weekday(d) != 5 && Weekday(d) != 6 &&
      match exchange
      case NFO => "NSE" in h ==> d !in h["NSE"]
      case NSE => "NSE" in h ==> d !in h["NSE"]
      case BFO => "BSE" in h ==> d !in h["BSE"]
      case BSE => "BSE" in h ==> d !in h["BSE"]
  {
  }

  // ---- The expiry to trade ----

  datatype Cadence = Weekly | Monthly

  datatype Instrument = Instrument(exchange: Exchange, weekday: int, cadence: Cadence)

  function Nominal(i: Instrument, asOf: Day): Day
    requires Dated(asOf)
  {
    if i.cadence.Monthly? then MonthlyOnOrAfter(asOf, i.weekday) else WeeklyOnOrAfter(asOf, i.weekday)
  }

  /** The nominal expiry, moved back day by day off non-trading days, 14 at most. */
  function Shifted(h: Holidays, exchange: Exchange, d: Day, left: nat): Day
    decreases left
  {
    if Trading(h, d, exchange) || left == 0 then d else Shifted(h, exchange, d - 1, left - 1)
  }

  function Expiry(h: Holidays, i: Instrument, asOf: Day): Day
    requires Dated(asOf)
  {
    Shifted(h, i.exchange, Nominal(i, asOf), 14)
  }

  method ShiftOffHolidays(h: Holidays, original: Day, exchange: Exchange) returns (expiry: Day)
    ensures expiry == Shifted(h, exchange, original, 14)
    ensures original - 14 <= expiry <= original && NoneTrading(h, exchange, expiry, original + 1)
    ensures Trading(h, expiry, exchange) || expiry == original - 14
  {
    expiry := original;
    var guard := 0;
    while !Trading(h, expiry, exchange) && guard < 14
      invariant 0 <= guard <= 14 && expiry == original - guard
      invariant Shifted(h, exchange, original, 14) == Shifted(h, exchange, expiry, 14 - guard)
    {
      expiry := expiry - 1;
      guard := guard + 1;
    }
    ShiftedBack(h, exchange, original, 14);
  }

  method GetCurrentExpiry(h: Holidays, i: Instrument, asOf: Day) returns (expiry: Day)
    requires Dated(asOf)
    ensures expiry == Expiry(h, i, asOf)
    ensures var nominal :=
        if i.cadence.Monthly? then MonthlyOnOrAfter(asOf, i.weekday) else WeeklyOnOrAfter(asOf, i.weekday);
      && nominal - 14 <= expiry <= nominal && NoneTrading(h, i.exchange, expiry, nominal + 1)
      && (Trading(h, expiry, i.exchange) || expiry == nominal - 14)
  {
    if i.cadence.Monthly? {
      expiry := MonthlyOnOrAfter(asOf, i.weekday);
    } else {
      expiry := asOf + (i.weekday - Weekday(asOf)) % 7;
    }
    expiry := ShiftOffHolidays(h, expiry, i.exchange);
  }

  lemma {:induction false} ShiftedBack(h: Holidays, exchange: Exchange, d: Day, left: nat)
    ensures var e := Shifted(h, exchange, d, left);
      d - left <= e <= d && NoneTrading(h, exchange, e, d + 1) && (Trading(h, e, exchange) || e == d - left)
    decreases left
  {
    if !Trading(h, d, exchange) && left > 0 {
      ShiftedBack(h, exchange, d - 1, left - 1);
    }
  }

  /** The shift finds a trading day exactly when one of the 14 days before the
      nominal expiry, or that day itself, is one; it is then the latest. */
  lemma ShiftFindsIff(h: Holidays, exchange: Exchange, d: Day)
    ensures Trading(h, Shifted(h, exchange, d, 14), exchange) <==>
      exists t :: d - 14 <= t <= d && Trading(h, t, exchange)
  {
    ShiftedBack(h, exchange, d, 14);
  }

  /** On a trading day the weekly expiry is a trading day within the week, the latest
      not after the nominal weekday, whatever the holidays: the guard never bites. */
  lemma WeeklyExpiry(h: Holidays, i: Instrument, asOf: Day)
    requires i.cadence.Weekly? && Dated(asOf) && Trading(h, asOf, i.exchange)
    ensures var e := Expiry(h, i, asOf);
      && asOf <= e <= asOf + 6 && Trading(h, e, i.exchange)
      && NoneTrading(h, i.exchange, e, WeeklyOnOrAfter(asOf, i.weekday) + 1)
  {
    WeeklyIsLeast(asOf, i.weekday);
    ShiftedBack(h, i.exchange, Nominal(i, asOf), 14);
  }

  lemma ShiftFrom(h: Holidays, exchange: Exchange, asOf: Day, nominal: Day)
    requires asOf <= nominal && Trading(h, asOf, exchange)
    ensures var e := Shifted(h, exchange, nominal, 14);
      && asOf <= e <= nominal && NoneTrading(h, exchange, e, nominal + 1)
      && (Trading(h, e, exchange) <==> !NoneTrading(h, exchange, nominal - 15, nominal + 1))
  {
    ShiftedBack(h, exchange, nominal, 14);
  }

  /** On a trading day the monthly expiry is never before that day, and is itself a
      trading day unless the fifteen days up to the nominal one are all closed. */
  lemma MonthlyExpiry(h: Holidays, i: Instrument, asOf: Day)
    requires i.cadence.Monthly? && Dated(asOf) && Trading(h, asOf, i.exchange)
    ensures var e := Expiry(h, i, asOf); var nominal := MonthlyOnOrAfter(asOf, i.weekday);
      && asOf <= e <= nominal && NoneTrading(h, i.exchange, e, nominal + 1)
      && (Trading(h, e, i.exchange) <==> !NoneTrading(h, i.exchange, nominal - 15, nominal + 1))
  {
    assert asOf <= MonthlyOnOrAfter(asOf, i.weekday) by { MonthlyIsLeast(asOf, i.weekday); }
    ShiftFrom(h, i.exchange, asOf, MonthlyOnOrAfter(asOf, i.weekday));
  }

  /** Until the nominal expiry passes, it stays the nominal expiry. */
  lemma NominalHolds(i: Instrument, asOf: Day, t: Day)
    requires Dated(asOf) && asOf <= t <= Nominal(i, asOf)
    ensures Nominal(i, t) == Nominal(i, asOf)
  {
    if i.cadence.Monthly? {
      MonthlyIsLeast(asOf, i.weekday);
      MonthlyIsLeast(t, i.weekday);
    } else {
      WeeklyIsLeast(asOf, i.weekday);
      WeeklyIsLeast(t, i.weekday);
    }
  }

  lemma NominalNotBefore(i: Instrument, asOf: Day)
    requires Dated(asOf)
    ensures asOf <= Nominal(i, asOf)
  {
    MonthlyIsLeast(asOf, i.weekday);
    WeeklyIsLeast(asOf, i.weekday);
  }

  /** As trading days pass the expiry only moves forward, and it moves exactly when
      the old one is behind: either cadence, any holidays. */
  lemma ExpiryRolls(h: Holidays, i: Instrument, asOf: Day, t: Day)
    requires Dated(asOf) && asOf <= t && Trading(h, asOf, i.exchange) && Trading(h, t, i.exchange)
    ensures Expiry(h, i, asOf) <= Expiry(h, i, t)
    ensures Expiry(h, i, t) == Expiry(h, i, asOf) <==> t <= Expiry(h, i, asOf)
  {
    NominalNotBefore(i, t);
    ShiftedBack(h, i.exchange, Nominal(i, asOf), 14);
    ShiftedBack(h, i.exchange, Nominal(i, t), 14);
    if t <= Nominal(i, asOf) {
      NominalHolds(i, asOf, t);
    }
  }

  lemma Days2025(april: Month, may: Month, june: Month)
    requires april == Month(2025, 4) && may == Month(2025, 5) && june == Month(2025, 6)
    ensures First(april) == 739342 && First(may) == 739372 && First(june) == 739403
    ensures NextMonth(april) == may && NextMonth(may) == june
  {
    MonthsBegin(april);
    MonthsBegin(may);
    MonthsBegin(june);
  }

  lemma TradedAsNominal(i: Instrument, asOf: Day)
    requires Dated(asOf) && Weekday(Nominal(i, asOf)) < 5
    ensures Expiry(map[], i, asOf) == Nominal(i, asOf)
  {
  }

  lemma LastIs(m: Month, next: Day, last: Day, weekday: int)
    requires First(NextMonth(m)) == next && next - 7 <= last < next && Weekday(last) == weekday % 7
    ensures LastWeekdayOfMonth(m, weekday) == last
  {
    LastBefore(next, weekday);
    OneInSeven(last, LastWeekdayOfMonth(m, weekday), weekday);
  }

  lemma ThisMonthOrNext(m: Month, asOf: Day, weekday: int)
    requires Dated(asOf) && In(asOf, m)
    ensures MonthlyOnOrAfter(asOf, weekday) ==
      if asOf <= LastWeekdayOfMonth(m, weekday) then LastWeekdayOfMonth(m, weekday)
      else LastWeekdayOfMonth(NextMonth(m), weekday)
  {
    OneMonth(asOf, MonthOf(asOf), m);
  }

  /** The expiry traded through a month, from the last such weekdays of it and the next. */
  lemma TradedThrough(i: Instrument, asOf: Day, m: Month, current: Day, later: Day)
    requires i.cadence.Monthly? && Dated(asOf) && In(asOf, m) && Weekday(current) == Weekday(later) == i.weekday < 5
    requires First(NextMonth(m)) - 7 <= current < First(NextMonth(m))
    requires First(NextMonth(NextMonth(m))) - 7 <= later < First(NextMonth(NextMonth(m)))
    ensures Expiry(map[], i, asOf) == if asOf <= current then current else later
  {
    LastIs(m, First(NextMonth(m)), current, i.weekday);
    LastIs(NextMonth(m), First(NextMonth(NextMonth(m))), later, i.weekday);
    ThisMonthOrNext(m, asOf, i.weekday);
    TradedAsNominal(i, asOf);
  }

  lemma Thursdays()
    ensures Weekday(739365) == Weekday(739400) == 3
  {
  }

  /** The last Thursday of April 2025 was the 24th; from the 25th on, it is the 29th of
      May that is traded. */
  lemma April2025(i: Instrument, asOf: Day, april: Month, may: Month)
    requires i == Instrument(BFO, 3, Monthly) && april == Month(2025, 4) && may == Month(2025, 5) && In(asOf, april)
    ensures Dated(asOf)
    ensures Expiry(map[], i, asOf) == if asOf <= First(april) + 23 then First(april) + 23 else First(may) + 28
  {
    Days2025(april, may, NextMonth(may));
    Thursdays();
    TradedThrough(i, asOf, april, 739365, 739400);
  }
}
