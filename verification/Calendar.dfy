/** The proleptic Gregorian calendar in UTC.  Times are nanoseconds since the start of year 1, days
    and months are counted from there: day 0 is 1 January of year 1, month 0 is that January. */
module Calendar {
  const MINUTE := 60_000_000_000
  const HOUR := 3_600_000_000_000
  const DAY := 86_400_000_000_000

  function DayOf(t: nat): nat {
    t / DAY
  }

  function Midnight(day: nat): (t: nat)
    ensures DayOf(t) == day && (t > 0 ==> DayOf(t - 1) == day - 1)
  {
    day * DAY
  }

  predicate IsLeap(year: nat) {
    year % 4 == 0 && (year % 100 != 0 || year % 400 == 0)
  }

  function DaysIn(month: nat): (n: nat)
    ensures 28 <= n <= 31
  {
    var year, m := month / 12 + 1, month % 12;
    if m == 1 then (if IsLeap(year) then 29 else 28)
    else if m == 3 || m == 5 || m == 8 || m == 10 then 30
    else 31
  }

  /** The first day of a month. */
  function MonthStart(month: nat): nat {
    if month == 0 then 0 else MonthStart(month - 1) + DaysIn(month - 1)
  }

  /** The month of a day, looked for from month `from` on. */
  function MonthFrom(day: nat, from: nat): (m: nat)
    requires MonthStart(from) <= day
    ensures from <= m && MonthStart(m) <= day < MonthStart(m + 1)
    decreases day - MonthStart(from)
  {
    if day < MonthStart(from + 1) then from else MonthFrom(day, from + 1)
  }

  function MonthOf(day: nat): (m: nat)
    ensures MonthStart(m) <= day < MonthStart(m + 1)
  {
    MonthFrom(day, 0)
  }

  /** 1 for the first day of a month. */
  function DayOfMonth(day: nat): (d: nat)
    ensures 1 <= d <= DaysIn(MonthOf(day))
  {
    day - MonthStart(MonthOf(day)) + 1
  }

  lemma {:induction false} MonthStartsGrow(m: nat, n: nat)
    requires m <= n
    ensures MonthStart(m) + 28 * (n - m) <= MonthStart(n)
  {
    if m < n {
      MonthStartsGrow(m, n - 1);
    }
  }

  /** A month is known by any day between its start and the next one's. */
  lemma MonthUnique(day: nat, m: nat)
    requires MonthStart(m) <= day < MonthStart(m + 1)
    ensures MonthOf(day) == m
  {
    var n := MonthOf(day);
    if n < m {
      MonthStartsGrow(n + 1, m);
    } else if m < n {
      MonthStartsGrow(m + 1, n);
    }
  }

  /** Later days are in later months or the same one. */
  lemma MonthsOrdered(day: nat, later: nat)
    requires day <= later
    ensures MonthOf(day) <= MonthOf(later)
  {
    if MonthOf(later) < MonthOf(day) {
      MonthStartsGrow(MonthOf(later) + 1, MonthOf(day));
    }
  }

  lemma LaterMonth(day: nat, m: nat)
    requires m > MonthOf(day)
    ensures day < MonthStart(m)
  {
    MonthStartsGrow(MonthOf(day) + 1, m);
  }

  /** The first day of a month lies in it, and the day before in an earlier one. */
  lemma MonthBegins(m: nat, start: nat)
    requires m > 0 && start == MonthStart(m)
    ensures MonthOf(start) == m
    ensures start > 0 && MonthOf(start - 1) < m
  {
    MonthStartsGrow(m, m + 1);
    MonthUnique(start, m);
    MonthStartsGrow(0, m);
    if MonthOf(start - 1) >= m {
      MonthStartsGrow(m, MonthOf(start - 1));
    }
  }

  /** The same day of the next month; past that month's end it runs over into the one after. */
  function MonthLater(day: nat): nat {
    MonthStart(MonthOf(day) + 1) + DayOfMonth(day) - 1
  }

  lemma MonthLaterSkips(day: nat)
    ensures MonthOf(MonthLater(day))
         == MonthOf(day) + if DayOfMonth(day) <= DaysIn(MonthOf(day) + 1) then 1 else 2
  {
    var m := MonthOf(day);
    if DayOfMonth(day) <= DaysIn(m + 1) {
      MonthUnique(MonthLater(day), m + 1);
    } else {
      MonthUnique(MonthLater(day), m + 2);
    }
  }

  // ---- months in closed form ----

  /** The leap days of the first n years: every fourth year but the hundredth, and the four-hundredth. */
  function LeapDays(years: nat): nat {
    years / 4 - years / 100 + years / 400
  }

  /** The days of a common year before its month m, the first being month 0. */
  function DaysBefore(m: nat): nat
    requires m <= 12
  {
    if m == 0 then 0 else if m == 1 then 31 else if m == 2 then 59 else if m == 3 then 90
    else if m == 4 then 120 else if m == 5 then 151 else if m == 6 then 181 else if m == 7 then 212
    else if m == 8 then 243 else if m == 9 then 273 else if m == 10 then 304 else if m == 11 then 334
    else 365
  }

  /** The first day of a month: whole years, months of the year, and the leap days before it. */
  function FirstDay(month: nat): int {
    var year, m := month / 12, month % 12;
    365 * year + DaysBefore(m) + LeapDays(if m < 2 then year else year + 1)
  }

  lemma LeapStep(year: nat)
    ensures LeapDays(year + 1) == LeapDays(year) + if IsLeap(year + 1) then 1 else 0
  {
    Fourths(year);
    Hundredths(year);
    FourHundredths(year);
    Centuries(year + 1);
  }

  lemma Fourths(n: nat)
    ensures (n + 1) / 4 == n / 4 + if (n + 1) % 4 == 0 then 1 else 0
  {
  }

  lemma Hundredths(n: nat)
    ensures (n + 1) / 100 == n / 100 + if (n + 1) % 100 == 0 then 1 else 0
  {
  }

  lemma FourHundredths(n: nat)
    ensures (n + 1) / 400 == n / 400 + if (n + 1) % 400 == 0 then 1 else 0
  {
  }

  lemma Centuries(n: nat)
    ensures n % 400 == 0 ==> n % 100 == 0
    ensures n % 100 == 0 ==> n % 4 == 0
  {
    var c, f := n / 100, n / 400;
    if n % 400 == 0 {
      assert n == 100 * (4 * f);
    }
    if n % 100 == 0 {
      assert n == 4 * (25 * c);
    }
  }

  lemma InYear(year: nat, m: nat)
    requires m < 12
    ensures (12 * year + m) / 12 == year && (12 * year + m) % 12 == m
  {
  }

  lemma DaysInYear(year: nat, m: nat)
    requires m < 12
    ensures DaysIn(12 * year + m)
         == DaysBefore(m + 1) - DaysBefore(m) + if m == 1 && IsLeap(year + 1) then 1 else 0
  {
    InYear(year, m);
  }

  lemma {:induction false} MonthInYear(year: nat, m: nat, month: nat)
    requires m <= 12 && month == 12 * year + m
    ensures MonthStart(month)
         == MonthStart(12 * year) + DaysBefore(m) + if m >= 2 && IsLeap(year + 1) then 1 else 0
    decreases m
  {
    if m > 0 {
      MonthInYear(year, m - 1, month - 1);
      DaysInYear(year, m - 1);
    }
  }

  lemma {:induction false} YearStart(year: nat, month: nat)
    requires month == 12 * year
    ensures MonthStart(month) == 365 * year + LeapDays(year)
    decreases year
  {
    if year > 0 {
      YearStart(year - 1, month - 12);
      MonthInYear(year - 1, 12, month);
      LeapStep(year - 1);
    }
  }

  /** Every month begins where the Gregorian calendar says. */
  lemma MonthStartIs(month: nat)
    ensures MonthStart(month) == FirstDay(month)
  {
    MonthOfYear(month / 12, month % 12, month);
  }

  lemma MonthOfYear(year: nat, m: nat, month: nat)
    requires m < 12 && month == 12 * year + m
    ensures MonthStart(month) == 365 * year + DaysBefore(m) + LeapDays(if m < 2 then year else year + 1)
  {
    YearStart(year, 12 * year);
    MonthInYear(year, m, month);
    LeapStep(year);
  }
}
