/** UTC calendar arithmetic behind the allowance windows of `agent/budget.py`.
    An instant is a count of microseconds since 0001-01-01T00:00:00Z. */
module Calendar {
  const DAY: int := 86_400_000_000

  /** A civil date; months are counted from January of year 1, which is month 0. */
  datatype Date = Date(month: nat, day: int) {
    predicate Valid() {
      1 <= day <= MonthLength(month)
    }
  }

  predicate IsLeap(year: int) {
    year % 4 == 0 && (year % 100 != 0 || year % 400 == 0)
  }

  function MonthLength(month: nat): (n: int)
    ensures 28 <= n <= 31
  {
    var m := month % 12;
    if m == 1 then (if IsLeap(month / 12 + 1) then 29 else 28)
    else if m == 3 || m == 5 || m == 8 || m == 10 then 30
    else 31
  }

  /** Days before the first day of month `k`. */
  function MonthStart(k: nat): (n: nat)
    ensures n >= 28 * k
  {
    if k == 0 then 0 else MonthStart(k - 1) + MonthLength(k - 1)
  }

  lemma {:induction false} MonthStartsAscend(j: nat, k: nat)
    requires j < k
    ensures MonthStart(j) + MonthLength(j) <= MonthStart(k)
  {
    if j < k - 1 {
      MonthStartsAscend(j, k - 1);
    }
  }

  /** The leap years among the first `y`: one more whenever year `y` is one. */
  function LeapYears(y: nat): int {
    y / 4 - y / 100 + y / 400
  }

  lemma LeapYearPassed(y: nat)
    requires y > 0
    ensures LeapYears(y) == LeapYears(y - 1) + if IsLeap(y) then 1 else 0
  {
    assert y / 4 == (y - 1) / 4 + if y % 4 == 0 then 1 else 0;
    assert y / 100 == (y - 1) / 100 + if y % 100 == 0 then 1 else 0;
    assert y / 400 == (y - 1) / 400 + if y % 400 == 0 then 1 else 0;
    assert y % 400 == 0 ==> y % 100 == 0;
    assert y % 100 == 0 ==> y % 4 == 0;
  }

  /** Leap years come every four years, but not every hundred, but every four hundred. */
  lemma {:induction false} YearStarts(y: nat)
    ensures MonthStart(12 * y) == 365 * y + LeapYears(y)
  {
    if y > 0 {
      YearStarts(y - 1);
      MonthStartsWithin(y - 1, 12);
      LeapYearPassed(y);
      assert 12 * (y - 1) + 12 == 12 * y;
    }
  }

  /** The days before each month of a year that is not a leap year. */
  const BEFORE: seq<int> := [0, 31, 59, 90, 120, 151, 181, 212, 243, 273, 304, 334, 365]

  function DaysBefore(leap: bool, m: nat): int
    requires m <= 12
  {
    BEFORE[m] + if leap && m >= 2 then 1 else 0
  }

  lemma {:induction false} MonthStartsWithin(y: nat, m: nat)
    requires m <= 12
    ensures MonthStart(12 * y + m) == MonthStart(12 * y) + DaysBefore(IsLeap(y + 1), m)
  {
    if m > 0 {
      MonthStartsWithin(y, m - 1);
      MonthLasts(y, m - 1);
      NextMonthStarts(12 * y + (m - 1));
    }
  }

  lemma NextMonthStarts(k: nat)
    ensures MonthStart(k + 1) == MonthStart(k) + MonthLength(k)
  {
  }

  lemma MonthLasts(y: nat, m: nat)
    requires m < 12
    ensures MonthLength(12 * y + m) == DaysBefore(IsLeap(y + 1), m + 1) - DaysBefore(IsLeap(y + 1), m)
  {
    assert (12 * y + m) / 12 == y && (12 * y + m) % 12 == m;
  }

  /** The civil calendar: the day number of the first of any month of any year. */
  lemma CivilCalendar(y: nat, m: nat)
    requires m < 12
    ensures MonthStart(12 * y + m) == 365 * y + LeapYears(y) + DaysBefore(IsLeap(y + 1), m)
  {
    YearStarts(y);
    MonthStartsWithin(y, m);
  }

  /** Day number of a date; the first of January of year 1 is day 0. */
  function Ordinal(d: Date): (n: nat)
    requires d.Valid()
  {
    MonthStart(d.month) + d.day - 1
  }

  function NextDay(d: Date): (e: Date)
    requires d.Valid()
    ensures e.Valid() && Ordinal(e) == Ordinal(d) + 1
  {
    if d.day < MonthLength(d.month) then d.(day := d.day + 1)
    else Date(d.month + 1, 1)
  }

  function AddDays(d: Date, n: nat): (e: Date)
    requires d.Valid()
    ensures e.Valid() && Ordinal(e) == Ordinal(d) + n
  {
    if n == 0 then d else NextDay(AddDays(d, n - 1))
  }

  /** The civil date of day number `n`. */
  function DateOf(n: nat): (d: Date)
    ensures d.Valid() && Ordinal(d) == n
  {
    AddDays(Date(0, 1), n)
  }

  /** The month index of an instant. */
  function MonthOf(t: nat): (k: nat) {
    DateOf(t / DAY).month
  }

  /** A UTC day or a UTC month, as a half-open interval of instants. */
  datatype Period = Day(n: nat) | Month(k: nat) {
    function Start(): (t: nat) {
      match this
      case Day(n) => n * DAY
      case Month(k) => MonthStart(k) * DAY
    }

    function Finish(): (t: nat)
      ensures t > Start()
    {
      match this
      case Day(n) => (n + 1) * DAY
      case Month(k) => MonthStart(k + 1) * DAY
    }

    predicate Contains(t: int) {
      Start() <= t < Finish()
    }

    /** The closed interval `first..last` reaches into this period. */
    predicate Touches(first: int, last: int) {
      first < Finish() && last >= Start()
    }
  }

  /** Reaching into a period is sharing an instant with it. */
  lemma TouchingIsMeeting(p: Period, first: int, last: int)
    requires first <= last
    ensures p.Touches(first, last) <==> exists t: int :: first <= t <= last && p.Contains(t)
  {
    if p.Touches(first, last) {
      var t := if first < p.Start() then p.Start() else first;
      assert p.Contains(t);
    }
  }

  /** One tuple of the source's `windows`. */
  datatype Window = Window(start: int, finish: int, monthly: bool)

  /** The two windows computed field by field, as the source does: midnight, the first
      of the month, and the first of the month four days after the 28th. */
  function Windows(now: nat): (w: seq<Window>)
    ensures |w| == 2
  {
    var date := DateOf(now / DAY);
    var month := date.(day := 1);
    var next := AddDays(month.(day := 28), 4).(day := 1);
    var day := now - now % DAY;
    [Window(day, day + DAY, false), Window(Ordinal(month) * DAY, Ordinal(next) * DAY, true)]
  }

  predicate Denotes(w: Window, p: Period) {
    w.start == p.Start() && w.finish == p.Finish() && w.monthly == p.Month?
  }

  /** Four days after the 28th always falls in the following month. */
  lemma FourDaysAfterThe28th(month: nat)
    ensures AddDays(Date(month, 28), 4).month == month + 1
  {
    var d := AddDays(Date(month, 28), 4);
    if d.month < month {
      MonthStartsAscend(d.month, month);
    } else if d.month > month + 1 {
      MonthStartsAscend(month + 1, d.month);
    }
  }

  /** A day number lies in exactly one month. */
  lemma MonthIsUnique(n: nat, k: nat)
    requires MonthStart(k) <= n < MonthStart(k + 1)
    ensures DateOf(n).month == k
  {
    var j := DateOf(n).month;
    if j < k {
      MonthStartsAscend(j, k);
    } else if k < j {
      MonthStartsAscend(k, j);
    }
  }

  /** `Windows` returns the UTC day and the UTC month that contain `now`. */
  lemma WindowsDenote(now: nat)
    ensures Denotes(Windows(now)[0], Day(now / DAY)) && Day(now / DAY).Contains(now)
    ensures Denotes(Windows(now)[1], Month(MonthOf(now))) && Month(MonthOf(now)).Contains(now)
  {
    MonthWindow(DateOf(now / DAY));
    MonthHolds(now / DAY);
    DayOfInstant(now, MonthStart(MonthOf(now)));
    DayOfInstant(now, MonthStart(MonthOf(now) + 1));
  }

  /** The month of a date begins on its first day and ends where the next one begins. */
  lemma MonthWindow(date: Date)
    requires date.Valid()
    ensures Ordinal(date.(day := 1)) == MonthStart(date.month)
    ensures Ordinal(AddDays(date.(day := 1).(day := 28), 4).(day := 1)) == MonthStart(date.month + 1)
  {
    FourDaysAfterThe28th(date.month);
  }

  lemma DayOfInstant(t: nat, n: int)
    ensures t < n * DAY <==> t / DAY < n
    ensures t >= n * DAY <==> t / DAY >= n
  {
  }

  lemma TouchedDays(first: nat, last: nat, n: nat)
    requires first <= last < first + DAY
    ensures Day(n).Touches(first, last) <==> n == first / DAY || n == last / DAY
  {
    DayOfInstant(first, n + 1);
    DayOfInstant(last, n);
    assert last / DAY <= first / DAY + 1;
  }

  lemma TouchedMonths(first: nat, last: nat, k: nat)
    requires first <= last < first + DAY
    ensures Month(k).Touches(first, last) <==> k == MonthOf(first) || k == MonthOf(last)
  {
    var a, b := first / DAY, last / DAY;
    DayOfInstant(first, MonthStart(k + 1));
    DayOfInstant(last, MonthStart(k));
    assert a <= b <= a + 1;
    if Month(k).Touches(first, last) {
      if a >= MonthStart(k) { MonthIsUnique(a, k); } else { MonthIsUnique(b, k); }
    }
    MonthHolds(a);
    MonthHolds(b);
  }

  lemma MonthHolds(n: nat)
    ensures MonthStart(DateOf(n).month) <= n < MonthStart(DateOf(n).month + 1)
  {
    var d := DateOf(n);
    assert MonthStart(d.month + 1) == MonthStart(d.month) + MonthLength(d.month);
  }

  /** The periods an interval shorter than a day reaches are exactly those containing one of
      its ends, so the windows of the two ends are all the windows it can be charged to. */
  lemma TouchedByAShortInterval(first: nat, last: nat, p: Period)
    requires first <= last < first + DAY
    ensures p.Touches(first, last) <==> p.Contains(first) || p.Contains(last)
    ensures p.Contains(first) <==> p == Day(first / DAY) || p == Month(MonthOf(first))
    ensures p.Contains(last) <==> p == Day(last / DAY) || p == Month(MonthOf(last))
  {
    match p
    case Day(n) =>
      TouchedDays(first, last, n);
      TouchedDays(first, first, n);
      TouchedDays(last, last, n);
    case Month(k) =>
      TouchedMonths(first, last, k);
      TouchedMonths(first, first, k);
      TouchedMonths(last, last, k);
  }
}
