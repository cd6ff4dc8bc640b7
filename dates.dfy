/** Calendar instants. The services store ISO-8601 strings and compare them through
    `new Date(...)`; here an instant is its calendar reading (month counted from 0
    as JavaScript does) and comparisons go through `Rank`, which orders instants
    exactly as their times do. Time zones are not modelled: local time is UTC. */
module Dates {

  datatype DateTime = DateTime(year: int, month: int, day: int, millis: int)

  predicate IsLeap(y: int)
  {
    (y % 4 == 0 && y % 100 != 0) || y % 400 == 0
  }

  function DaysIn(y: int, m: int): (n: int)
    requires 0 <= m < 12
    ensures 28 <= n <= 31
  {
    if m == 1 then (if IsLeap(y) then 29 else 28)
    else if m == 3 || m == 5 || m == 8 || m == 10 then 30
    else 31
  }

  const MillisPerDay := 86400000

  ghost predicate ValidDateTime(d: DateTime)
  {
    0 <= d.month < 12 && 1 <= d.day <= DaysIn(d.year, d.month) && 0 <= d.millis < MillisPerDay
  }

  type Instant = d: DateTime | ValidDateTime(d) witness DateTime(1970, 0, 1, 0)

  /** Months since year 0: the month an instant falls in, as one number. */
  function MonthIndex(d: Instant): int
  {
    d.year * 12 + d.month
  }

  /** An order-preserving stand-in for `getTime()`. */
  function Rank(d: Instant): int
  {
    (MonthIndex(d) * 32 + d.day) * MillisPerDay + d.millis
  }

  /** An instant in a later month ranks after every instant of an earlier month. */
  lemma LaterMonthRanksAfter(a: Instant, b: Instant)
    requires MonthIndex(a) < MonthIndex(b)
    ensures Rank(a) < Rank(b)
  {
    var ka := MonthIndex(a) * 32 + a.day;
    var kb := MonthIndex(b) * 32 + b.day;
    assert ka < kb;
    assert ka * MillisPerDay + MillisPerDay <= kb * MillisPerDay;
  }

  /** The instant with the given month index, day and time of day. */
  function AtMonth(index: int, day: int, millis: int): (r: Instant)
    requires 1 <= day <= DaysIn(index / 12, index % 12) && 0 <= millis < MillisPerDay
    ensures MonthIndex(r) == index && r.day == day && r.millis == millis
  {
    DateTime(index / 12, index % 12, day, millis)
  }

  /** `date.setMonth(date.getMonth() + n)`: move `n` months; a day past the end of
      the target month overflows into the month after it, as JavaScript does. */
  function AddMonths(d: Instant, n: int): (r: Instant)
    ensures r.millis == d.millis
    ensures d.day <= DaysIn((MonthIndex(d) + n) / 12, (MonthIndex(d) + n) % 12) ==>
      MonthIndex(r) == MonthIndex(d) + n && r.day == d.day
    ensures d.day > DaysIn((MonthIndex(d) + n) / 12, (MonthIndex(d) + n) % 12) ==>
      MonthIndex(r) == MonthIndex(d) + n + 1 &&
      r.day == d.day - DaysIn((MonthIndex(d) + n) / 12, (MonthIndex(d) + n) % 12)
  {
    var target := MonthIndex(d) + n;
    var dim := DaysIn(target / 12, target % 12);
    if d.day <= dim then AtMonth(target, d.day, d.millis)
    else AtMonth(target + 1, d.day - dim, d.millis)
  }

  /** Adding a positive number of months always ends strictly later. */
  lemma AddMonthsLater(d: Instant, n: int)
    requires n > 0
    ensures Rank(AddMonths(d, n)) > Rank(d)
  {
    LaterMonthRanksAfter(d, AddMonths(d, n));
  }

  /** Adding zero months changes nothing. */
  lemma AddMonthsZero(d: Instant)
    ensures AddMonths(d, 0) == d
  {
    assert (MonthIndex(d)) / 12 == d.year && MonthIndex(d) % 12 == d.month;
  }

  /** The number of days from the first day of month index 0 (January of year 0) to
      the first day of month index `mi`; negative before it. */
  function MonthStart(mi: int): int
    decreases if mi >= 0 then mi else -mi
  {
    if mi == 0 then 0
    else if mi > 0 then MonthStart(mi - 1) + DaysIn((mi - 1) / 12, (mi - 1) % 12)
    else MonthStart(mi + 1) - DaysIn(mi / 12, mi % 12)
  }

  /** Each month starts as many days after the previous one as that month has. */
  lemma MonthStartStep(mi: int)
    ensures MonthStart(mi + 1) == MonthStart(mi) + DaysIn(mi / 12, mi % 12)
  {
  }

  /** A calendar day as one number: consecutive days get consecutive numbers. */
  function DayNumber(d: Instant): int
  {
    MonthStart(MonthIndex(d)) + d.day - 1
  }

  /** `date.setDate(date.getDate() + n)`: move `n` days forward, rolling over month
      and year ends. */
  function AddDays(d: Instant, n: nat): (r: Instant)
    ensures r.millis == d.millis
    ensures DayNumber(r) == DayNumber(d) + n
    ensures Rank(r) >= Rank(d)
    ensures n > 0 ==> Rank(r) > Rank(d)
    decreases n
  {
    var dim := DaysIn(d.year, d.month);
    if d.day + n <= dim then
      d.(day := d.day + n)
    else
      var next := AtMonth(MonthIndex(d) + 1, 1, d.millis);
      LaterMonthRanksAfter(d, next);
      MonthStartStep(MonthIndex(d));
      assert MonthIndex(d) / 12 == d.year && MonthIndex(d) % 12 == d.month;
      AddDays(next, n - (dim - d.day + 1))
  }

  /** Moving 30 days from the 15th of January lands on the 14th of February. */
  lemma ThirtyDaysFromMidJanuary(y: int, millis: int)
    requires 0 <= millis < MillisPerDay
    ensures AddDays(DateTime(y, 0, 15, millis), 30) == DateTime(y, 1, 14, millis)
  {
    var d: Instant := DateTime(y, 0, 15, millis);
    var next := AtMonth(MonthIndex(d) + 1, 1, millis);
    assert (y * 12 + 1) / 12 == y && (y * 12 + 1) % 12 == 1;
    assert next == DateTime(y, 1, 1, millis);
    assert AddDays(next, 13) == DateTime(y, 1, 14, millis);
  }
}
