/** Time values and the two date helpers of the resolver dashboard:
    `calculateDaysAgo` and `getDeadlineStatus` (src/App.js:54-70).

    A time value is an integer count of milliseconds since 1970-01-01T00:00Z,
    as JavaScript's `Date.now()` returns it. A stored date ("YYYY-MM-DD") is a
    `Day`: the number of whole UTC days since 1970-01-01. */
module Dates {

  /** 1000 * 60 * 60 * 24, the divisor both helpers use. */
  const MsPerDay: int := 86400000

  type Day = int

  /** The UTC calendar day that contains time value `t`; this is the date that
      `new Date(t).toISOString().split("T")[0]` names. */
  function DayOf(t: int): (d: Day)
    ensures d * MsPerDay <= t < (d + 1) * MsPerDay
  {
    t / MsPerDay
  }

  /** The time value of midnight UTC at the start of day `d`; this is what
      `new Date("YYYY-MM-DD")` yields for a date-only string. */
  function StartOf(d: Day): (t: int)
    ensures DayOf(t) == d
    ensures t % MsPerDay == 0
  {
    d * MsPerDay
  }

  /** Moving a time value by a whole number of days moves its calendar day by
      exactly that many days. */
  lemma DayOfShift(t: int, k: int)
    ensures DayOf(t + k * MsPerDay) == DayOf(t) + k
  {
  }

  function Abs(x: int): nat
  {
    if x < 0 then -x else x
  }

  /** calculateDaysAgo (src/App.js:54-60): the absolute gap between the two time
      values, divided by the length of a day and rounded down. The body follows
      the source's floating-point division; the contract states the result as
      the number of whole days the gap spans. */
  function DaysAgo(dateMs: int, nowMs: int): (days: nat)
    ensures days * MsPerDay <= Abs(nowMs - dateMs) < (days + 1) * MsPerDay
  {
    var q := (Abs(nowMs - dateMs) as real) / (MsPerDay as real);
    assert q >= 0.0;
    q.Floor
  }

  /** The day count does not depend on which of the two dates comes first. */
  lemma DaysAgoSymmetric(a: int, b: int)
    ensures DaysAgo(a, b) == DaysAgo(b, a)
  {
  }

  /** The day count is zero exactly when the two time values are less than one
      day apart. */
  lemma DaysAgoZeroWithinDay(dateMs: int, nowMs: int)
    ensures DaysAgo(dateMs, nowMs) == 0 <==> -MsPerDay < nowMs - dateMs < MsPerDay
  {
  }

  /** The day count is the only natural number whose day span brackets the gap,
      so it equals the integer quotient of the absolute gap. */
  lemma DaysAgoIsQuotient(dateMs: int, nowMs: int)
    ensures DaysAgo(dateMs, nowMs) == Abs(nowMs - dateMs) / MsPerDay
  {
  }

  /** The deadline badge of the resolver view. */
  datatype Urgency = Overdue | Urgent | Normal

  /** Orders the badges from least to most pressing. */
  function Rank(u: Urgency): nat
  {
    match u
    case Normal => 0
    case Urgent => 1
    case Overdue => 2
  }

  /** getDeadlineStatus (src/App.js:62-70). The assigned date is parsed by the
      source but never consulted. The body divides the remaining time by the
      length of a day as the source does; the contract states each badge as an
      integer window around the deadline. */
  function DeadlineStatus(assignedMs: int, deadlineMs: int, nowMs: int): (u: Urgency)
    ensures u == Overdue <==> nowMs > deadlineMs
    ensures u == Urgent <==> nowMs <= deadlineMs <= nowMs + MsPerDay
    ensures u == Normal <==> deadlineMs > nowMs + MsPerDay
  {
    if nowMs > deadlineMs then Overdue
    else if ((deadlineMs - nowMs) as real) / (MsPerDay as real) <= 1.0 then Urgent
    else Normal
  }

  /** The badge never depends on the assigned date. */
  lemma DeadlineStatusIgnoresAssigned(a1: int, a2: int, deadlineMs: int, nowMs: int)
    ensures DeadlineStatus(a1, deadlineMs, nowMs) == DeadlineStatus(a2, deadlineMs, nowMs)
  {
  }

  /** As time passes the badge only becomes more pressing: once overdue a case
      stays overdue, and an urgent case never returns to normal. */
  lemma DeadlineStatusMonotone(assignedMs: int, deadlineMs: int, now1: int, now2: int)
    requires now1 <= now2
    ensures Rank(DeadlineStatus(assignedMs, deadlineMs, now1)) <= Rank(DeadlineStatus(assignedMs, deadlineMs, now2))
    ensures DeadlineStatus(assignedMs, deadlineMs, now1) == Overdue ==> DeadlineStatus(assignedMs, deadlineMs, now2) == Overdue
  {
  }
}
