# Complaint store of the customer-support dashboard, in Dafny

The dashboard (`CustomerDashboard` in `src/App.js`) keeps one in-memory list
of complaints. Customers file complaints and then resolve or escalate them.
Resolvers see the cases assigned to them, move them between statuses, change
the team and append comments. Everything else in the file is markup.

This project models that list as an immutable `seq<Complaint>`. Each event
handler is a pure function from one list to the next:

- `Store.Submit` models `handleSubmitComplaint`.
- `Store.CustomerAction` models `handleComplaintAction`.
- `Store.ResolverAction` models `handleResolverAction`.

It also models the helpers the resolver view derives from the list: the
`assignedTo` filter, `calculateDaysAgo` and `getDeadlineStatus`.

Files and modules:

- `wrappers.dfy` (`Wrappers`): `Option`, the model of the fields that the
  source initialises to `null`.
- `dates.dfy` (`Dates`): time values as integer milliseconds since the
  epoch; stored dates as whole UTC days (`Day`); `DaysAgo` and
  `DeadlineStatus`.
- `ids.dfy` (`ComplaintIds`): ids `C-2024-` + `padStart(n, 3, "0")`, and
  their decoding back to `n`.
- `complaints.dfy` (`Complaints`): the `Complaint` and `Comment` records,
  the fixed texts the handlers write, and the three seed complaints.
- `store.dfy` (`Store`): the three handlers and what each does to the
  complaint it targets (`CustomerStep`, `ResolverStep`).
- `invariants.dfy` (`Invariants`): the invariants of the list from the seed
  on. Ids are pairwise distinct and are exactly `IdFor(1)`..`IdFor(n)`. A
  complaint with an assignee also has a team, an assigned date and a
  deadline. Each handler and any sequence of events preserves both.
- `resolver_view.dfy` (`ResolverView`): the resolver's filtered cases and
  the figures on each case card.
- `scenarios.dfy` (`Scenarios`): the handlers acting on the seed list.

Modelling choices:

- The clock is a parameter. `nowMs` is what `Date.now()` / `new Date()`
  return. `stamp` is the `toLocaleString()` text put on a comment.
- A stored `YYYY-MM-DD` date is a `Day`, counted in days since 1970-01-01.
  `toISOString().split("T")[0]` of a time value is `Dates.DayOf`, which
  rounds down.
- `new Date("YYYY-MM-DD")` is `Dates.StartOf`. `new Date(null)` is time 0.
- Action names stay strings, so the "unrecognised action" branch exists in
  the model.
- `getDeadlineStatus` and `calculateDaysAgo` are written with `real`
  division, as the source computes them. Their contracts restate each
  result in integers.
- A `Date` holds an integer of at most 8.64e15 ms in magnitude, so the
  difference of two dates can reach 1.728e16 ms. That is above 2^53, where
  a double no longer holds every integer. The model's `real` division is
  exact, and the source divides doubles, so the two are compared here:
  - `getDeadlineStatus` agrees with the model over the whole `Date` range.
    The `>` test compares two exact integers. For the `<= 1` test, a gap
    of at most 86400000 ms is exact and gives a quotient of at most 1. A
    larger gap is at least 86400001, also after rounding, and its quotient
    exceeds 1 by at least 1/86400000. That is far more than one rounding
    step near 1.
  - `calculateDaysAgo` agrees with the model for every gap up to 2^53 ms.
    Such a gap is exact as a double, and its quotient stays below 2^27. A
    quotient just under an integer m lies at least 1/86400000 (about
    1.16e-8) below m. Half a rounding step there is at most 2^-27 (about
    7.45e-9), so the double quotient stays below m and the floor is the
    same. Larger gaps are listed under "Left out".

Behaviour of the handlers worth knowing:

- The id year is the fixed text `2024` whatever the current date
  (src/App.js:658).
- The customer handler never looks at the prior status
  (src/App.js:684-703). Its two buttons show for every complaint that has
  a generated solution and is not `Resolved` (src/App.js:148, 161-181). A
  newly filed complaint has the non-empty placeholder solution
  (src/App.js:665). So an `Open` complaint can go straight to `Resolved`
  with no assignee, team, assigned date or deadline. This is stated by
  `Store.OpenResolvedWithoutAssignment` and
  `Scenarios.ResolveFreshComplaint`.
- Called on a `Resolved` complaint, the customer escalate (src/App.js:692-702)
  sets it back to `Assigned` and keeps its resolution date and summary
  (`Store.EscalateReopensResolved`). The buttons do not offer this for a
  resolved complaint, but the handler allows it.
- `Resolved` is not final. The resolver handler never looks at the prior
  status. A resolved case can become `In Progress` or `Escalated` and
  keeps its resolution date and summary, so "resolution fields are set
  exactly when the status is Resolved" is not an invariant
  (`Store.ResolvedIsNotTerminal`).
- Comment text is not required to be non-blank. The Enter-key path
  (src/App.js:522-531) passes the text on unchecked, and the handler does
  not check it.
- A missing assigned date or deadline is not "undefined" in the deadline
  helper: `new Date(null)` is the epoch (`ResolverView.DateMs`). The
  invariant `Invariants.AssignmentComplete` shows that the resolver view
  never meets that case from the seed on.

## Model

| member | source | states |
|---|---|---|
| Dates.DayOf | src/App.js:659 | the date part of `toISOString()` names the UTC day whose 24-hour span contains the time value |
| Dates.StartOf | src/App.js:63-64 | `new Date("YYYY-MM-DD")` is midnight UTC at the start of that day: a whole multiple of one day whose date part is that day again |
| Dates.DayOfShift | src/App.js:698-701 | moving the clock forward by k whole days moves the calendar date by exactly k, so an escalation deadline lands exactly 5 days after its assigned date |
| Dates.DaysAgo | src/App.js:54-60 | the floor of the exact quotient spans the absolute gap: days * 86400000 <= abs(now - date) < (days + 1) * 86400000, and it is never negative |
| Dates.DaysAgoSymmetric | src/App.js:54-60 | the day count does not depend on which of the two dates is earlier |
| Dates.DaysAgoZeroWithinDay | src/App.js:54-60 | the day count is 0 exactly when the two times are less than one day apart, in either direction |
| Dates.DaysAgoIsQuotient | src/App.js:54-60 | the floor of the exact quotient of the absolute gap by one day equals the integer quotient |
| Dates.DeadlineStatus | src/App.js:62-70 | overdue iff now is after the deadline; urgent iff the deadline is from 0 to 1 day ahead; normal iff it is more than 1 day ahead (exactly one of the three) |
| Dates.DeadlineStatusIgnoresAssigned | src/App.js:62-70 | the badge is the same whatever the assigned date |
| Dates.DeadlineStatusMonotone | src/App.js:62-70 | as now increases the badge only becomes more pressing; once overdue it stays overdue |
| ComplaintIds.NatToString | src/App.js:658 | `String(n)` of a sequence number is a non-empty string of decimal digits |
| ComplaintIds.NatToStringNoLeadingZero | src/App.js:658 | `String(n)` starts with '0' only for n = 0, so it writes no leading zeros |
| ComplaintIds.ParsePrint | src/App.js:658 | reading the decimal text of `String(n)` back gives n |
| ComplaintIds.PadStart | src/App.js:658 | padStart keeps the string as its suffix, fills only with '0' in front, and reaches the width unless already longer |
| ComplaintIds.IdFor | src/App.js:658 | an id is at least ten characters long |
| ComplaintIds.IdForPrefix | src/App.js:658 | every id starts with the fixed text `C-2024-`, whatever k, and ends with `String(k)` |
| ComplaintIds.IdRoundTrip | src/App.js:658 | the sequence number read back from id `C-2024-` + pad3(k) is k |
| ComplaintIds.IdForInjective | src/App.js:658 | two ids are equal if and only if their sequence numbers are |
| ComplaintIds.IdShape | src/App.js:658 | after the prefix `C-2024-`, every character of an id is a decimal digit |
| ComplaintIds.IdExamples | src/App.js:658 | ids 1 to 4 and 42 are zero-padded to three digits; id 1000 has four digits |
| Complaints.SeedIds | src/App.js:583-647 | the seed complaints are numbered 001, 002, 003 from the front |
| Complaints.SeedAssigned | src/App.js:583-647 | every seed complaint is assigned to "Current Resolver" with a team, an assigned date and a deadline |
| Store.ReplaceById | src/App.js:681-707 | the id-matching map keeps length and order, replaces each record with the target id by the step's result and keeps every other record |
| Store.Submit | src/App.js:655-678 | with empty category or summary the list is unchanged; otherwise the new list is one longer, its tail is the old list, and its head is an Open, unassigned, unresolved, comment-free record with id `C-2024-` + pad3(n+1) filed today |
| Store.CustomerStep | src/App.js:683-705 | resolve sets Resolved, today's resolution date and the record's own generated solution as the summary; escalate sets Assigned, "Current Resolver", "Technical Support", today and a deadline today + 5; any other action changes nothing; identity, solutions and comments are kept |
| Store.CustomerAction | src/App.js:680-708 | the list keeps its length and every id; records with another id are untouched; the target record gets the customer step |
| Store.ResolverStep | src/App.js:713-742 | resolve sets Resolved, today and "Resolved by resolver team"; inProgress and escalate change only the status; changeTeam changes only the team, to any value; addComment appends exactly one Resolver comment with the given text and keeps earlier comments in order; any other action changes nothing |
| Store.ResolverAction | src/App.js:710-745 | the list keeps its length and every id; records with another id are untouched; the target record gets the resolver step |
| Store.UnknownIdIsNoOp | src/App.js:680-745 | acting on an id no complaint carries returns the list unchanged, in both handlers and for every action |
| Store.UnknownActionIsNoOp | src/App.js:680-745 | an action name a handler does not recognise returns the list unchanged |
| Store.CommentsAccumulateInOrder | src/App.js:728-737 | two successive addComment calls leave both comments after the old ones, in call order, whatever their text |
| Store.CommentsOnlyGrow | src/App.js:680-745 | customer actions keep comments; resolver actions keep each record's old comments as a prefix of its new ones |
| Store.OpenResolvedWithoutAssignment | src/App.js:684-690 | a customer resolve of an Open, unassigned complaint makes it Resolved and leaves assignee and deadline empty |
| Store.EscalateReopensResolved | src/App.js:692-702 | a customer escalate of a Resolved complaint makes it Assigned again and keeps its resolution date and summary |
| Store.ResolvedIsNotTerminal | src/App.js:714-725 | a Resolved complaint can be moved to In Progress or Escalated, and keeps its resolution date |
| Invariants.IssuedIdsNext | src/App.js:658 | the next id is not among the ids already issued, and adding it gives the issued ids of the next count |
| Invariants.NumberedIdsWellFormed | src/App.js:583-647 | a list numbered 1, 2, ... from the front has distinct ids that are exactly the first n ids |
| Invariants.SeedInvariant | src/App.js:583-647 | the seed list satisfies both list invariants |
| Invariants.SameIdsKeepWellFormed | src/App.js:681-707 | a step that keeps every id in place keeps ids distinct and equal to the issued ones |
| Invariants.SubmitPreserves | src/App.js:655-678 | filing keeps ids distinct and equal to the issued ones, and keeps assignment fields complete |
| Invariants.CustomerActionPreserves | src/App.js:680-708 | customer actions keep both list invariants |
| Invariants.ResolverActionPreserves | src/App.js:710-745 | resolver actions keep both list invariants |
| Invariants.RunPreserves | src/App.js:655-745 | any sequence of filings and actions keeps both list invariants |
| Invariants.ReachableIdsUnique | src/App.js:583-678 | from the seed, after any events, ids are pairwise distinct, are exactly `C-2024-001` to the current count, and the next filing's id is unused |
| ResolverView.AssignedCases | src/App.js:317-319 | a complaint is among the resolver's cases if and only if it is in the list and assigned to "Current Resolver" |
| ResolverView.AssignedCasesAppend | src/App.js:317-319 | the filter distributes over concatenation, so cases keep their list order |
| ResolverView.SubmitKeepsAssignedCases | src/App.js:666 | a newly filed complaint is unassigned, so filing leaves the resolver's cases unchanged |
| ResolverView.EscalationAssignsToResolver | src/App.js:692-702 | after a customer escalation the complaint is among the resolver's cases |
| ResolverView.DateMs | src/App.js:63-64 | `new Date(x)` of a stored date is midnight UTC at the start of that day; of a `null` date it is the epoch |
| ResolverView.BadgeOf | src/App.js:332-336 | the days on a case card are the whole days between the start of its assigned day and now; its badge is overdue once now is after the start of the deadline day, urgent when that start is now or at most one day ahead, and normal when it is further ahead |
| ResolverView.EscalatedCaseOnTrack | src/App.js:692-702 | right after escalation the case card shows 0 days since assignment and the normal badge |
| ResolverView.OverdueOnDeadlineDay | src/App.js:64-67 | a case is overdue at every instant of its deadline day after that day's midnight UTC |
| ResolverView.EscalatedCaseOverdueAfterFiveDays | src/App.js:692-702 | whatever the time of day of an escalation, the case is not overdue four days later and is overdue five days and 1 ms later |
| ResolverView.DeadlineExamples | src/App.js:62-70 | one day past the deadline is overdue, exactly one day before it is urgent, three days before it is normal |
| Scenarios.SubmitOnSeed | src/App.js:655-678 | filing "Billing"/"Test issue" on the seed puts an Open, comment-free `C-2024-004` first and keeps the seed behind it |
| Scenarios.SubmitWithoutSummaryOnSeed | src/App.js:656 | a form without a summary files nothing |
| Scenarios.CustomerResolveOnSeed | src/App.js:684-690 | resolving `C-2024-001` copies "Auto-corrected billing cycle and applied credit" into the resolution summary, dated today |
| Scenarios.CustomerEscalateOnSeed | src/App.js:692-702 | escalating `C-2024-002` sets its deadline exactly 5 days after its assigned date |
| Scenarios.UnknownIdOnSeed | src/App.js:683 | acting on `C-9999-999` leaves the seed list unchanged |
| Scenarios.ResolveFreshComplaint | src/App.js:655-690 | a complaint just filed on the seed can be resolved by its customer at once, with no assignee and no deadline |

## Left out

- Rendering: the JSX markup, the `Card`/`Button`/`Badge` components
  (`./components/ui/*` is not part of this model) and the icons. They are
  presentation only.
- `getStatusColor`, `getStatusIcon` and `getDeadlineColor`
  (src/App.js:24-81). They map a value to CSS classes or an icon and
  affect no state.
- The view selector (`activeView`, src/App.js:582, 807-825), the form's
  field bindings and reset after submit (src/App.js:649-653, 675-676), and
  the comment composer's local state (src/App.js:313-314, 515-549). These
  are UI state only. The composer's blank-text check on the button path
  (src/App.js:537, 547) is a UI guard, not part of the handler.
- React's `setState` semantics are not modelled. Each handler is one
  sequential step. The submit handler reads `complaints` from its closure
  rather than the updater's `prev` (src/App.js:658, 674), and under
  batched updates that could drop a concurrent change. The model does not
  cover this.
- Store.CustomerStep: the source reads the clock twice for an escalation,
  once for the assigned date and once for the deadline (src/App.js:698-699).
  The model uses one `nowMs`, so the deadline is always exactly 5 days
  after the assigned date. It does not model the case where midnight UTC
  falls between the two reads and the gap becomes 6 days.
- Dates.DaysAgo: for a gap above 2^53 ms the model's exact floor can differ
  from the source's double arithmetic. For now = 8.64e15 - 1 and a date of
  -8.64e15 the gap 1.728e16 - 1 rounds to 1.728e16 as a double, giving
  200000000, while the model gives 199999999. Only dates far outside any
  real use reach such gaps.
- ResolverView.BadgeOf: uses one `nowMs` for both figures, while the source
  calls `new Date()` once in each helper (src/App.js:56, 65). The model
  does not cover the clock moving between the two calls.
- Date formatting: `toISOString()` (and its error for out-of-range dates),
  `toLocaleString()`, and the display of dates and times. Dates are day
  numbers and the comment timestamp is an opaque string parameter.
- The description typed into the form is not stored on the record
  (src/App.js:657-673). The model has it in `Store.Draft` and drops it, as
  the source does.
