/** The complaint store of `CustomerDashboard` (src/App.js:655-745): filing a
    new complaint, the customer's actions and the resolver's actions. Each
    handler is one step from the current list to the next one; the clock is a
    parameter (`nowMs`, milliseconds since the epoch), and so is the locale
    time text stamped on comments. */
module Store {
  import opened Wrappers
  import opened Dates
  import opened ComplaintIds
  import opened Complaints

  /** The new-complaint form. The description is collected but not stored. */
  datatype Draft = Draft(category: string, summary: string, description: string)

  // Action names, as the views pass them to the handlers.
  const ResolveAction: string := "resolve"
  const EscalateAction: string := "escalate"
  const InProgressAction: string := "inProgress"
  const ChangeTeamAction: string := "changeTeam"
  const AddCommentAction: string := "addComment"

  /** Replace-by-id: every complaint whose id is `id` is replaced by `step` of
      it; all others are kept. Order and length are those of `cs`. */
  function ReplaceById(cs: seq<Complaint>, id: string, step: Complaint -> Complaint): (r: seq<Complaint>)
    ensures |r| == |cs|
    ensures forall i :: 0 <= i < |cs| && cs[i].id == id ==> r[i] == step(cs[i])
    ensures forall i :: 0 <= i < |cs| && cs[i].id != id ==> r[i] == cs[i]
  {
    if |cs| == 0 then []
    else [if cs[0].id == id then step(cs[0]) else cs[0]] + ReplaceById(cs[1..], id, step)
  }

  /** A complaint as the form files it: open, unassigned, unresolved, with no
      comments and the placeholder solutions. */
  predicate FreshlyFiled(c: Complaint, draft: Draft, nowMs: int)
  {
    && c.status == Open
    && c.dateFiled == DayOf(nowMs)
    && c.category == draft.category
    && c.summary == draft.summary
    && c.resolutionDate.None? && c.resolutionSummary.None?
    && c.assignedTo.None? && c.assignedTeam.None?
    && c.assignedDate.None? && c.deadline.None?
    && c.generatedSolution == PendingSolution
    && c.backendSolution == PendingBackendSolution
    && c.comments == []
  }

  /** handleSubmitComplaint (src/App.js:655-678). With a category and a summary
      the new complaint, numbered one past the current count, goes to the
      front; without either, nothing changes. */
  function Submit(cs: seq<Complaint>, draft: Draft, nowMs: int): (r: seq<Complaint>)
    ensures draft.category == [] || draft.summary == [] ==> r == cs
    ensures draft.category != [] && draft.summary != [] ==>
      && |r| == |cs| + 1
      && r[1..] == cs
      && r[0].id == IdFor(|cs| + 1)
      && FreshlyFiled(r[0], draft, nowMs)
  {
    if draft.category != [] && draft.summary != [] then
      var c := Complaint(
        IdFor(|cs| + 1), DayOf(nowMs), draft.category, draft.summary, Open,
        None, None, PendingSolution, None, None, None, None, PendingBackendSolution, []);
      [c] + cs
    else
      cs
  }

  /** What a customer action does to the complaint it targets
      (src/App.js:684-703). */
  function CustomerStep(c: Complaint, action: string, nowMs: int): (c': Complaint)
    ensures SameCase(c, c') && c'.comments == c.comments
    ensures action == ResolveAction ==>
      && c'.status == Resolved
      && c'.resolutionDate == Some(DayOf(nowMs))
      && c'.resolutionSummary == Some(c.generatedSolution)
      && SameAssignment(c, c')
    ensures action == EscalateAction ==>
      && c'.status == Assigned
      && c'.assignedTo == Some(CurrentResolver)
      && c'.assignedTeam == Some(EscalationTeam)
      && c'.assignedDate == Some(DayOf(nowMs))
      && c'.deadline == Some(DayOf(nowMs) + EscalationDays)
      && SameResolution(c, c')
    ensures action != ResolveAction && action != EscalateAction ==> c' == c
  {
    if action == ResolveAction then
      c.(status := Resolved,
         resolutionDate := Some(DayOf(nowMs)),
         resolutionSummary := Some(c.generatedSolution))
    else if action == EscalateAction then
      DayOfShift(nowMs, EscalationDays);
      c.(status := Assigned,
         assignedTo := Some(CurrentResolver),
         assignedTeam := Some(EscalationTeam),
         assignedDate := Some(DayOf(nowMs)),
         deadline := Some(DayOf(nowMs + EscalationDays * MsPerDay)))
    else
      c
  }

  /** handleComplaintAction (src/App.js:680-708): the customer's `resolve` or
      `escalate` applied to the complaints with the given id. */
  function CustomerAction(cs: seq<Complaint>, id: string, action: string, nowMs: int): (r: seq<Complaint>)
    ensures |r| == |cs|
    ensures forall i :: 0 <= i < |cs| ==> r[i].id == cs[i].id
    ensures forall i :: 0 <= i < |cs| && cs[i].id != id ==> r[i] == cs[i]
    ensures forall i :: 0 <= i < |cs| && cs[i].id == id ==> r[i] == CustomerStep(cs[i], action, nowMs)
  {
    ReplaceById(cs, id, c => CustomerStep(c, action, nowMs))
  }

  /** What a resolver action does to the complaint it targets
      (src/App.js:714-740). The prior status is never consulted. */
  function ResolverStep(c: Complaint, action: string, value: string, nowMs: int, stamp: string): (c': Complaint)
    ensures SameCase(c, c')
    ensures action == ResolveAction ==>
      && c'.status == Resolved
      && c'.resolutionDate == Some(DayOf(nowMs))
      && c'.resolutionSummary == Some(ResolverResolution)
      && SameAssignment(c, c') && c'.comments == c.comments
    ensures action == InProgressAction ==>
      c'.status == InProgress && SameResolution(c, c') && SameAssignment(c, c') && c'.comments == c.comments
    ensures action == EscalateAction ==>
      c'.status == Escalated && SameResolution(c, c') && SameAssignment(c, c') && c'.comments == c.comments
    ensures action == ChangeTeamAction ==>
      && c'.assignedTeam == Some(value)
      && c'.assignedTo == c.assignedTo && c'.assignedDate == c.assignedDate && c'.deadline == c.deadline
      && c'.status == c.status && SameResolution(c, c') && c'.comments == c.comments
    ensures action == AddCommentAction ==>
      && |c'.comments| == |c.comments| + 1
      && c'.comments[..|c.comments|] == c.comments
      && c'.comments[|c.comments|] == Comment(ResolverAuthor, stamp, value)
      && c'.status == c.status && SameResolution(c, c') && SameAssignment(c, c')
    ensures action !in {ResolveAction, InProgressAction, EscalateAction, ChangeTeamAction, AddCommentAction} ==>
      c' == c
  {
    if action == ResolveAction then
      c.(status := Resolved,
         resolutionDate := Some(DayOf(nowMs)),
         resolutionSummary := Some(ResolverResolution))
    else if action == InProgressAction then
      c.(status := InProgress)
    else if action == EscalateAction then
      c.(status := Escalated)
    else if action == ChangeTeamAction then
      c.(assignedTeam := Some(value))
    else if action == AddCommentAction then
      c.(comments := c.comments + [Comment(ResolverAuthor, stamp, value)])
    else
      c
  }

  /** handleResolverAction (src/App.js:710-745): one of the resolver's five
      actions applied to the complaints with the given id. `value` is the new
      team for `changeTeam` and the comment text for `addComment`. */
  function ResolverAction(cs: seq<Complaint>, id: string, action: string, value: string, nowMs: int, stamp: string)
    : (r: seq<Complaint>)
    ensures |r| == |cs|
    ensures forall i :: 0 <= i < |cs| ==> r[i].id == cs[i].id
    ensures forall i :: 0 <= i < |cs| && cs[i].id != id ==> r[i] == cs[i]
    ensures forall i :: 0 <= i < |cs| && cs[i].id == id ==> r[i] == ResolverStep(cs[i], action, value, nowMs, stamp)
  {
    ReplaceById(cs, id, c => ResolverStep(c, action, value, nowMs, stamp))
  }

  /** No complaint carries the id. */
  predicate UnknownId(cs: seq<Complaint>, id: string)
  {
    forall i :: 0 <= i < |cs| ==> cs[i].id != id
  }

  /** Acting on an id no complaint carries changes nothing. */
  lemma UnknownIdIsNoOp(cs: seq<Complaint>, id: string, action: string, value: string, nowMs: int, stamp: string)
    requires UnknownId(cs, id)
    ensures CustomerAction(cs, id, action, nowMs) == cs
    ensures ResolverAction(cs, id, action, value, nowMs, stamp) == cs
  {
  }

  /** An action name a handler does not recognise changes nothing. */
  lemma UnknownActionIsNoOp(cs: seq<Complaint>, id: string, action: string, value: string, nowMs: int, stamp: string)
    ensures action != ResolveAction && action != EscalateAction ==> CustomerAction(cs, id, action, nowMs) == cs
    ensures action !in {ResolveAction, InProgressAction, EscalateAction, ChangeTeamAction, AddCommentAction} ==>
      ResolverAction(cs, id, action, value, nowMs, stamp) == cs
  {
  }

  /** Two comments added one after the other both stay, in the order they were
      added, after the comments the complaint already had. Blank text is not
      refused. */
  lemma CommentsAccumulateInOrder(
    cs: seq<Complaint>, id: string, text1: string, text2: string,
    now1: int, now2: int, stamp1: string, stamp2: string)
    ensures var r := ResolverAction(ResolverAction(cs, id, AddCommentAction, text1, now1, stamp1),
                                    id, AddCommentAction, text2, now2, stamp2);
      forall i :: 0 <= i < |cs| && cs[i].id == id ==>
        r[i].comments == cs[i].comments + [Comment(ResolverAuthor, stamp1, text1), Comment(ResolverAuthor, stamp2, text2)]
  {
  }

  /** `comments` is append-only: after any action each complaint's old comments
      are a prefix of its new ones. */
  lemma CommentsOnlyGrow(cs: seq<Complaint>, id: string, action: string, value: string, nowMs: int, stamp: string)
    ensures var r := CustomerAction(cs, id, action, nowMs);
      forall i :: 0 <= i < |cs| ==> r[i].comments == cs[i].comments
    ensures var r := ResolverAction(cs, id, action, value, nowMs, stamp);
      forall i :: 0 <= i < |cs| ==>
        |cs[i].comments| <= |r[i].comments| && r[i].comments[..|cs[i].comments|] == cs[i].comments
  {
  }

  /** The customer handler does not look at the status either, and its buttons
      show on every complaint that is not yet resolved, a newly filed one
      included. An open, never-assigned complaint can therefore be resolved
      directly, and stays without assignee, team, assigned date or deadline. */
  lemma OpenResolvedWithoutAssignment(c: Complaint, nowMs: int)
    requires c.status == Open && c.assignedTo.None? && c.deadline.None?
    ensures var r := CustomerStep(c, ResolveAction, nowMs);
      && r.status == Resolved
      && r.assignedTo.None? && r.assignedTeam == c.assignedTeam
      && r.assignedDate == c.assignedDate && r.deadline.None?
  {
  }

  /** A customer escalation of a resolved complaint makes it `Assigned` again
      and keeps its resolution date and summary. */
  lemma EscalateReopensResolved(c: Complaint, nowMs: int)
    requires c.status == Resolved && c.resolutionDate.Some? && c.resolutionSummary.Some?
    ensures var r := CustomerStep(c, EscalateAction, nowMs);
      && r.status == Assigned
      && r.resolutionDate == c.resolutionDate
      && r.resolutionSummary == c.resolutionSummary
  {
  }

  /** `Resolved` is not final: the resolver handler moves a resolved complaint
      back to `In Progress` or on to `Escalated`, and keeps the resolution date
      and summary it had, so "resolution fields are set exactly when resolved"
      is not an invariant of the store. */
  lemma ResolvedIsNotTerminal(c: Complaint, nowMs: int, stamp: string)
    requires c.status == Resolved && c.resolutionDate.Some?
    ensures ResolverStep(c, InProgressAction, "", nowMs, stamp).status == InProgress
    ensures ResolverStep(c, EscalateAction, "", nowMs, stamp).status == Escalated
    ensures ResolverStep(c, InProgressAction, "", nowMs, stamp).resolutionDate.Some?
  {
  }
}
