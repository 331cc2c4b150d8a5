/** Worked examples of the store acting on the seed list. */
module Scenarios {
  import opened Wrappers
  import opened Dates
  import opened ComplaintIds
  import opened Complaints
  import opened Store

  /** Filing "Billing" / "Test issue" on the three seed complaints puts
      complaint `C-2024-004` first, open and without comments. */
  lemma SubmitOnSeed(nowMs: int)
    ensures var r := Submit(Seed, Draft("Billing", "Test issue", ""), nowMs);
      && |r| == 4
      && r[0].id == "C-2024-004"
      && r[0].status == Open
      && r[0].comments == []
      && r[1..] == Seed
  {
  }

  /** A form missing its summary files nothing. */
  lemma SubmitWithoutSummaryOnSeed(nowMs: int)
    ensures Submit(Seed, Draft("Billing", "", "details"), nowMs) == Seed
  {
  }

  /** Resolving `C-2024-001` as the customer copies its generated solution into
      the resolution summary and dates the resolution today. */
  lemma CustomerResolveOnSeed(nowMs: int)
    ensures var r := CustomerAction(Seed, "C-2024-001", ResolveAction, nowMs);
      && r[0].status == Resolved
      && r[0].resolutionSummary == Some("Auto-corrected billing cycle and applied credit")
      && r[0].resolutionDate == Some(DayOf(nowMs))
      && r[1..] == Seed[1..]
  {
  }

  /** Escalating `C-2024-002` sets a deadline exactly five days after the
      assigned date. */
  lemma CustomerEscalateOnSeed(nowMs: int)
    ensures var r := CustomerAction(Seed, "C-2024-002", EscalateAction, nowMs);
      && r[1].status == Assigned
      && r[1].deadline.Some? && r[1].assignedDate.Some?
      && r[1].deadline.value == r[1].assignedDate.value + 5
  {
  }

  /** No seed complaint is `C-9999-999`, so acting on it changes nothing. */
  lemma UnknownIdOnSeed(nowMs: int, stamp: string)
    ensures CustomerAction(Seed, "C-9999-999", EscalateAction, nowMs) == Seed
    ensures ResolverAction(Seed, "C-9999-999", AddCommentAction, "Checked logs", nowMs, stamp) == Seed
  {
  }

  /** A complaint filed on the seed can be resolved by its customer at once:
      `C-2024-004` goes from Open to Resolved with no assignee and no deadline. */
  lemma ResolveFreshComplaint(nowMs: int)
    ensures var r := CustomerAction(Submit(Seed, Draft("Billing", "x", ""), nowMs), "C-2024-004", ResolveAction, nowMs);
      && r[0].status == Resolved
      && r[0].assignedTo.None? && r[0].deadline.None?
  {
  }
}
