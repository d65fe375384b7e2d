/** UTC instants in microseconds since 1970, and the day and month windows of
    services/usage.py. */
module Calendar {

  type Time = nat

  const MINUTE := 60_000_000
  const HOUR := 60 * MINUTE
  const DAY := 24 * HOUR

  predicate IsLeap(year: nat) {
    year % 4 == 0 && (year % 100 != 0 || year % 400 == 0)
  }

  /** The length of month `m`, counted from January 1970. */
  function DaysIn(m: nat): (days: nat)
    ensures 28 <= days <= 31
  {
    var month := m % 12;
    if month == 1 then (if IsLeap(1970 + m / 12) then 29 else 28)
    else if month in {3, 5, 8, 10} then 30
    else 31
  }

  function FirstDay(m: nat): nat {
    if m == 0 then 0 else FirstDay(m - 1) + DaysIn(m - 1)
  }

  /** The month, `m` or later, that day `day` falls in. */
  function MonthOf(day: nat, m: nat): (month: nat)
    requires FirstDay(m) <= day
    ensures FirstDay(month) <= day < FirstDay(month + 1)
    decreases day - FirstDay(m)
  {
    if day < FirstDay(m + 1) then m else MonthOf(day, m + 1)
  }

  function DayStart(now: Time): Time {
    now / DAY * DAY
  }

  function MonthStart(now: Time): Time {
    FirstDay(MonthOf(now / DAY, 0)) * DAY
  }

  /** One UTC day or one UTC month. */
  datatype Window = DayWindow(day: nat) | MonthWindow(month: nat) {
    function Start(): Time {
      match this
      case DayWindow(day) => day * DAY
      case MonthWindow(month) => FirstDay(month) * DAY
    }

    function End(): Time {
      match this
      case DayWindow(day) => (day + 1) * DAY
      case MonthWindow(month) => FirstDay(month + 1) * DAY
    }

    predicate Contains(t: Time) {
      Start() <= t < End()
    }
  }

  lemma {:induction false} FirstDayMonotone(m: nat, n: nat)
    requires m < n
    ensures FirstDay(m + 1) <= FirstDay(n)
  {
    if m + 1 < n {
      FirstDayMonotone(m, n - 1);
    }
  }

  lemma DayBounds(t: Time, day: nat)
    ensures day * DAY <= t < (day + 1) * DAY <==> t / DAY == day
  {
    assert t == t / DAY * DAY + t % DAY;
  }

  lemma FirstDayOf(month: nat, day: nat)
    requires FirstDay(month) <= day < FirstDay(month + 1)
    ensures MonthOf(day, 0) == month
  {
    var found := MonthOf(day, 0);
    if found < month {
      FirstDayMonotone(found, month);
    } else if month < found {
      FirstDayMonotone(month, found);
    }
  }

  lemma DaysBetween(t: Time, first: nat, next: nat)
    requires first * DAY <= t < next * DAY
    ensures first <= t / DAY < next
  {
    DayBounds(t, t / DAY);
  }

  /** At every instant of a window, the usage query starts exactly at the window's start. */
  lemma WindowStart(w: Window, now: Time)
    requires w.Contains(now)
    ensures w.DayWindow? ==> DayStart(now) == w.Start()
    ensures w.MonthWindow? ==> MonthStart(now) == w.Start()
  {
    match w
    case DayWindow(day) =>
      DayBounds(now, day);
    case MonthWindow(month) =>
      DaysBetween(now, FirstDay(month), FirstDay(month + 1));
      FirstDayOf(month, now / DAY);
  }
}
