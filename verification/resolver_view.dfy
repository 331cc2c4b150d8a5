/** What the resolver dashboard derives from the complaint list
    (src/App.js:316-336): the cases assigned to the current resolver and, for
    each, the days since assignment and the deadline badge. */
module ResolverView {
  import opened Wrappers
  import opened Dates
  import opened Complaints
  import opened Store

  predicate AssignedToResolver(c: Complaint)
  {
    c.assignedTo == Some(CurrentResolver)
  }

  /** The resolver's cases: the complaints assigned to the current resolver,
      in list order (src/App.js:317-319). */
  function AssignedCases(cs: seq<Complaint>): (r: seq<Complaint>)
    ensures |r| <= |cs|
    ensures forall c :: c in r <==> c in cs && AssignedToResolver(c)
  {
    if |cs| == 0 then []
    else if AssignedToResolver(cs[0]) then [cs[0]] + AssignedCases(cs[1..])
    else AssignedCases(cs[1..])
  }

  /** Filtering distributes over concatenation, so the cases keep the order
      they have in the list. */
  lemma {:induction false} AssignedCasesAppend(a: seq<Complaint>, b: seq<Complaint>)
    ensures AssignedCases(a + b) == AssignedCases(a) + AssignedCases(b)
  {
    if |a| > 0 {
      assert (a + b)[1..] == a[1..] + b;
      AssignedCasesAppend(a[1..], b);
    } else {
      assert a + b == b;
    }
  }

  /** A newly filed complaint is unassigned, so filing never changes the
      resolver's cases. */
  lemma SubmitKeepsAssignedCases(cs: seq<Complaint>, draft: Draft, nowMs: int)
    ensures AssignedCases(Submit(cs, draft, nowMs)) == AssignedCases(cs)
  {
  }

  /** A customer escalation puts the complaint among the resolver's cases. */
  lemma EscalationAssignsToResolver(cs: seq<Complaint>, id: string, nowMs: int, i: nat)
    requires i < |cs| && cs[i].id == id
    ensures CustomerAction(cs, id, EscalateAction, nowMs)[i] in AssignedCases(CustomerAction(cs, id, EscalateAction, nowMs))
  {
  }

  /** `new Date(x)` for a stored date: midnight UTC at the start of that day,
      and the epoch for a date that is still `null`. */
  function DateMs(d: Option<Day>): (t: int)
    ensures d.Some? ==> DayOf(t) == d.value && t % MsPerDay == 0
    ensures d.None? ==> t == 0
  {
    match d
    case Some(day) => StartOf(day)
    case None => 0
  }

  /** The two figures on a resolver card. */
  datatype CaseBadge = CaseBadge(daysAssigned: nat, urgency: Urgency)

  /** The card figures of one case at time `nowMs` (src/App.js:332-336): whole
      days between the assigned date and now, and the deadline badge measured
      against the start of the deadline day. */
  function BadgeOf(c: Complaint, nowMs: int): (b: CaseBadge)
    ensures b.daysAssigned == Abs(nowMs - DateMs(c.assignedDate)) / MsPerDay
    ensures b.urgency == Overdue <==> nowMs > DateMs(c.deadline)
    ensures b.urgency == Urgent <==> nowMs <= DateMs(c.deadline) <= nowMs + MsPerDay
    ensures b.urgency == Normal <==> DateMs(c.deadline) > nowMs + MsPerDay
  {
    DaysAgoIsQuotient(DateMs(c.assignedDate), nowMs);
    CaseBadge(DaysAgo(DateMs(c.assignedDate), nowMs),
              DeadlineStatus(DateMs(c.assignedDate), DateMs(c.deadline), nowMs))
  }

  /** Right after a customer escalation the case shows as assigned 0 days ago
      and on track: its deadline is the start of the fifth day after today,
      more than four days away. */
  lemma EscalatedCaseOnTrack(c: Complaint, nowMs: int)
    ensures BadgeOf(CustomerStep(c, EscalateAction, nowMs), nowMs) == CaseBadge(0, Normal)
  {
  }

  /** A case is overdue for the whole of its deadline day, from the first
      millisecond after that day's midnight UTC. */
  lemma OverdueOnDeadlineDay(c: Complaint, nowMs: int)
    requires c.deadline == Some(DayOf(nowMs)) && nowMs % MsPerDay != 0
    ensures BadgeOf(c, nowMs).urgency == Overdue
  {
  }

  /** Whatever the time of day of the escalation, the case is not yet overdue
      four days later and is overdue five days and one millisecond later. */
  lemma EscalatedCaseOverdueAfterFiveDays(c: Complaint, nowMs: int)
    ensures BadgeOf(CustomerStep(c, EscalateAction, nowMs), nowMs + 4 * MsPerDay).urgency != Overdue
    ensures BadgeOf(CustomerStep(c, EscalateAction, nowMs), nowMs + 5 * MsPerDay + 1).urgency == Overdue
  {
  }

  /** The examples of the deadline badge: a day past the deadline is overdue,
      exactly one day before it is urgent, three days before it is normal. */
  lemma DeadlineExamples(assignedMs: int, deadlineMs: int)
    ensures DeadlineStatus(assignedMs, deadlineMs, deadlineMs + MsPerDay) == Overdue
    ensures DeadlineStatus(assignedMs, deadlineMs, deadlineMs - MsPerDay) == Urgent
    ensures DeadlineStatus(assignedMs, deadlineMs, deadlineMs - 3 * MsPerDay) == Normal
  {
  }
}
