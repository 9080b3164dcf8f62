/** The proleptic Gregorian calendar. A calendar month is numbered 12 * year + (month - 1); day 0
    is 1 January of year 1. */
module Gregorian {

  predicate Leap(year: int) { year % 4 == 0 && (year % 100 != 0 || year % 400 == 0) }

  function DaysBeforeYear(year: int): int {
    var y := year - 1;
    365 * y + y / 4 - y / 100 + y / 400
  }

  const DAYS_BEFORE_MONTH := [0, 31, 59, 90, 120, 151, 181, 212, 243, 273, 304, 334]

  function DaysBeforeMonth(year: int, m: nat): int
    requires m < 12
  {
    DAYS_BEFORE_MONTH[m] + (if m >= 2 && Leap(year) then 1 else 0)
  }

  function MonthStart(month: int): int {
    DaysBeforeYear(month / 12) + DaysBeforeMonth(month / 12, month % 12)
  }

  function DaysInMonth(year: int, m: nat): (n: int)
    requires m < 12
    ensures 28 <= n <= 31
  {
    if m == 1 then (if Leap(year) then 29 else 28)
    else if m == 3 || m == 5 || m == 8 || m == 10 then 30
    else 31
  }

  lemma QuotientStep(y: int)
    ensures (y + 1) / 4 == y / 4 + (if (y + 1) % 4 == 0 then 1 else 0)
    ensures (y + 1) / 100 == y / 100 + (if (y + 1) % 100 == 0 then 1 else 0)
    ensures (y + 1) / 400 == y / 400 + (if (y + 1) % 400 == 0 then 1 else 0)
  {
  }

  lemma CenturyIsFourth(y: int)
    ensures y % 100 == 0 ==> y % 4 == 0
  {
  }

  lemma FourthCentury(y: int)
    ensures y % 400 == 0 ==> y % 100 == 0
  {
  }

  lemma YearLength(year: int)
    ensures DaysBeforeYear(year + 1) == DaysBeforeYear(year) + (if Leap(year) then 366 else 365)
  {
    QuotientStep(year - 1);
    CenturyIsFourth(year);
    FourthCentury(year);
  }

  lemma EpochDay()
    ensures MonthStart(12 * 1970) == 719_162
  {
    var month := 12 * 1970;
    assert month / 12 == 1970 && month % 12 == 0;
    assert DaysBeforeYear(1970) == 719_162;
  }

  /** Months tile the days, leap years and year ends included. */
  lemma MonthsAdjoin(month: int)
    ensures MonthStart(month + 1) == MonthStart(month) + DaysInMonth(month / 12, month % 12)
  {
    var y, m := month / 12, month % 12;
    if m < 11 {
      assert (month + 1) / 12 == y && (month + 1) % 12 == m + 1;
    } else {
      assert (month + 1) / 12 == y + 1 && (month + 1) % 12 == 0;
      YearLength(y);
    }
  }
}

/** Billing-period arithmetic in UTC: invoice days clamped to the month, the start of the
    current period, and the time of a payment-method switch. Instants are nanoseconds since the
    Unix epoch. The calendar is given by the day number on which each month starts. */
module BillingPeriod {
  import Gregorian

  const SECOND := 1_000_000_000
  const DAY := 86_400 * SECOND
  const DEFAULT_SKEW := 60 * SECOND
  const EPOCH_DAY := 719_162

  type MonthStarts = int -> int

  predicate MonthFits(c: MonthStarts, month: int) { c(month) + 28 <= c(month + 1) <= c(month) + 31 }

  ghost predicate IsCalendar(c: MonthStarts) { forall month :: MonthFits(c, month) }

  /** The real calendar is one, and its 1 January 1970 is the day that instants count from. */
  lemma GregorianIsCalendar()
    ensures IsCalendar(Gregorian.MonthStart)
    ensures Gregorian.MonthStart(12 * 1970) == EPOCH_DAY
  {
    Gregorian.EpochDay();
    forall month ensures MonthFits(Gregorian.MonthStart, month) {
      Gregorian.MonthsAdjoin(month);
    }
  }

  lemma {:induction false} MonthsIncrease(c: MonthStarts, a: int, b: int)
    requires IsCalendar(c) && a < b
    ensures c(a + 1) <= c(b)
    decreases b - a
  {
    assert MonthFits(c, b - 1);
    if a < b - 1 { MonthsIncrease(c, a, b - 1); }
  }

  /** A UTC wall-clock reading. */
  datatype Clock = Clock(month: int, day: int, sinceMidnight: int) {
    predicate Valid(c: MonthStarts) { 1 <= day && c(month) + day <= c(month + 1) && 0 <= sinceMidnight < DAY }

    function Nanos(c: MonthStarts): int { Midnight(c(month) + day - 1) + sinceMidnight }
  }

  function Midnight(dayNumber: int): int { (dayNumber - EPOCH_DAY) * DAY }

  // ---- period arithmetic --------------------------------------------------

  /** The last day of a month is day 0 of the next one. */
  function LastDay(c: MonthStarts, month: int): int { c(month + 1) - c(month) }

  /** Midnight of the invoice day in a month, clamped into the month. */
  function InvoiceDayInMonth(c: MonthStarts, month: int, day: int): int {
    var last := LastDay(c, month);
    var clamped := if day > last then last else day;
    Midnight(c(month) + (if clamped < 1 then 1 else clamped) - 1)
  }

  /** The month that `now` minus one month falls in. A day the shorter month lacks rolls over
      into the month after it, which is `now`'s own month again. */
  function MonthBack(c: MonthStarts, now: Clock): int {
    if now.day <= LastDay(c, now.month - 1) then now.month - 1 else now.month
  }

  /** MonthBack is calendar normalisation: the month holding "day `now.day` of last month". */
  lemma MonthBackNormalises(c: MonthStarts, now: Clock)
    requires IsCalendar(c) && now.Valid(c)
    ensures var n := c(now.month - 1) + now.day - 1;
      c(MonthBack(c, now)) <= n < c(MonthBack(c, now) + 1)
  {
    assert MonthFits(c, now.month - 1);
    assert MonthFits(c, now.month);
  }

  datatype Terms = NoTerms | InvoiceDay(day: int)

  /** Without a positive invoice day the period is the calendar month. */
  function InvoiceDayOf(terms: Terms): int {
    if terms.NoTerms? || terms.day <= 0 then 1 else terms.day
  }

  function PeriodStartUTC(c: MonthStarts, now: Clock, terms: Terms): int {
    if terms.NoTerms? || terms.day <= 0 then Midnight(c(now.month))
    else
      var start := InvoiceDayInMonth(c, now.month, terms.day);
      if now.Nanos(c) < start then InvoiceDayInMonth(c, MonthBack(c, now), terms.day) else start
  }

  lemma BoundaryWithinMonth(c: MonthStarts, month: int, day: int)
    requires IsCalendar(c)
    ensures Midnight(c(month)) <= InvoiceDayInMonth(c, month, day) < Midnight(c(month + 1))
    ensures day <= 1 ==> InvoiceDayInMonth(c, month, day) == Midnight(c(month))
  {
    assert MonthFits(c, month);
  }

  lemma BoundariesIncrease(c: MonthStarts, a: int, b: int, day: int)
    requires IsCalendar(c) && a < b
    ensures InvoiceDayInMonth(c, a, day) < InvoiceDayInMonth(c, b, day)
  {
    BoundaryWithinMonth(c, a, day);
    BoundaryWithinMonth(c, b, day);
    MonthsIncrease(c, a, b);
  }

  /** `start` is the latest boundary that is not after `now`. */
  ghost predicate IsPeriodStart(c: MonthStarts, start: int, now: int, day: int) {
    && start <= now
    && (exists month :: start == InvoiceDayInMonth(c, month, day))
    && (forall month :: InvoiceDayInMonth(c, month, day) <= now ==> InvoiceDayInMonth(c, month, day) <= start)
  }

  lemma PeriodStartAt(c: MonthStarts, month: int, now: Clock, day: int)
    requires IsCalendar(c)
    requires InvoiceDayInMonth(c, month, day) <= now.Nanos(c) < InvoiceDayInMonth(c, month + 1, day)
    ensures IsPeriodStart(c, InvoiceDayInMonth(c, month, day), now.Nanos(c), day)
  {
    forall m | InvoiceDayInMonth(c, m, day) <= now.Nanos(c)
      ensures InvoiceDayInMonth(c, m, day) <= InvoiceDayInMonth(c, month, day)
    {
      if m > month {
        if m > month + 1 { BoundariesIncrease(c, month + 1, m, day); }
      } else if m < month {
        BoundariesIncrease(c, m, month, day);
      }
    }
  }

  /** `now` lies before this month's boundary, on a day that last month does not have. */
  predicate RollsOver(c: MonthStarts, now: Clock, terms: Terms) {
    && now.Nanos(c) < InvoiceDayInMonth(c, now.month, InvoiceDayOf(terms))
    && now.day > LastDay(c, now.month - 1)
  }

  lemma NowWithinMonth(c: MonthStarts, now: Clock)
    requires IsCalendar(c) && now.Valid(c)
    ensures Midnight(c(now.month)) <= now.Nanos(c) < Midnight(c(now.month + 1))
  {
  }

  /** For every instant and every payment terms, the computed start is the greatest boundary not
      after now, exactly when the date does not roll over; when it does (29 to 31 March before a
      later invoice day, for instance) the answer is the coming boundary instead. */
  lemma PeriodStartIsGreatestBoundary(c: MonthStarts, now: Clock, terms: Terms)
    requires IsCalendar(c) && now.Valid(c)
    ensures IsPeriodStart(c, PeriodStartUTC(c, now, terms), now.Nanos(c), InvoiceDayOf(terms)) <==> !RollsOver(c,
              now, terms)
    ensures RollsOver(c, now, terms) ==>
              PeriodStartUTC(c, now, terms) == InvoiceDayInMonth(c, now.month, InvoiceDayOf(terms)) > now.Nanos(c)
  {
    var day, m := InvoiceDayOf(terms), now.month;
    NowWithinMonth(c, now);
    BoundaryWithinMonth(c, m, day);
    BoundaryWithinMonth(c, m - 1, day);
    BoundaryWithinMonth(c, m + 1, day);
    if InvoiceDayInMonth(c, m, day) <= now.Nanos(c) {
      PeriodStartAt(c, m, now, day);
    } else if now.day <= LastDay(c, m - 1) {
      PeriodStartAt(c, m - 1, now, day);
    }
  }

  /** The rollover does happen: on 30 March 2026, after a 28-day February, with invoice day 31. */
  lemma RolloverExists()
    ensures exists now: Clock ::
      && now.Valid(Gregorian.MonthStart) && RollsOver(Gregorian.MonthStart, now, InvoiceDay(31))
      && PeriodStartUTC(Gregorian.MonthStart, now, InvoiceDay(31)) > now.Nanos(Gregorian.MonthStart)
  {
    var february := 12 * 2026 + 1;
    Gregorian.MonthsAdjoin(february);
    Gregorian.MonthsAdjoin(february + 1);
    GregorianIsCalendar();
    assert february / 12 == 2026 && (february + 1) / 12 == 2026;
    ShortMonthRollsOver(Gregorian.MonthStart, february + 1);
  }

  lemma ShortMonthRollsOver(c: MonthStarts, march: int)
    requires IsCalendar(c) && c(march) == c(march - 1) + 28 && c(march + 1) == c(march) + 31
    ensures var now := Clock(march, 30, 0);
      now.Valid(c) && RollsOver(c, now, InvoiceDay(31)) && PeriodStartUTC(c, now, InvoiceDay(31)) > now.Nanos(c)
  {
  }

  function UnixSeconds(nanos: int): int { nanos / SECOND }

  function SwitchTimeUnix(c: MonthStarts, now: Clock, terms: Terms, skew: int): int {
    var effective := if skew <= 0 then DEFAULT_SKEW else skew;
    var start := PeriodStartUTC(c, now, terms);
    if start > now.Nanos(c) then UnixSeconds(start) else UnixSeconds(now.Nanos(c) + effective)
  }

  lemma AddedSkew(now: int, skew: int)
    requires skew > 0
    ensures skew >= SECOND ==> UnixSeconds(now + skew) * SECOND > now
    ensures skew < SECOND ==> (UnixSeconds(now + skew) * SECOND > now <==> now % SECOND + skew >= SECOND)
  {
  }

  /** Boundaries fall on whole seconds. */
  lemma WholeSeconds(start: int, now: int)
    requires exists d :: start == Midnight(d)
    requires start > now
    ensures UnixSeconds(start) * SECOND > now
  {
  }

  /** The switch is strictly in the future, with no proviso on the calendar, whenever the skew
      is unset or at least a second. Below a second it is so exactly when the skew crosses into
      the next second, or when the date rolls over. */
  lemma SwitchTimeIsFuture(c: MonthStarts, now: Clock, terms: Terms, skew: int)
    requires IsCalendar(c) && now.Valid(c)
    ensures skew <= 0 || skew >= SECOND ==> SwitchTimeUnix(c, now, terms, skew) * SECOND > now.Nanos(c)
    ensures 0 < skew < SECOND ==>
              (SwitchTimeUnix(c, now, terms, skew) * SECOND > now.Nanos(c) <==>
               RollsOver(c, now, terms) || now.Nanos(c) % SECOND + skew >= SECOND)
  {
    PeriodStartIsGreatestBoundary(c, now, terms);
    if RollsOver(c, now, terms) {
      WholeSeconds(PeriodStartUTC(c, now, terms), now.Nanos(c));
    } else {
      AddedSkew(now.Nanos(c), if skew <= 0 then DEFAULT_SKEW else skew);
    }
  }

  /** A switch waits for a period boundary only after a rollover; otherwise it is due at once. */
  lemma SwitchWaitsOnlyAfterRollover(c: MonthStarts, now: Clock, terms: Terms, skew: int)
    requires IsCalendar(c) && now.Valid(c)
    ensures SwitchTimeUnix(c, now, terms, skew) ==
            if RollsOver(c, now, terms) then UnixSeconds(InvoiceDayInMonth(c, now.month, InvoiceDayOf(terms)))
            else UnixSeconds(now.Nanos(c) + (if skew <= 0 then DEFAULT_SKEW else skew))
  {
  }
}
