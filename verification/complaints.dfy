/** The complaint record kept by the dashboard (src/App.js:583-673) and the
    three complaints the dashboard starts with. */
module Complaints {
  import opened Wrappers
  import opened Dates
  import opened ComplaintIds

  datatype Status = Open | Assigned | InProgress | Resolved | Escalated

  datatype Comment = Comment(author: string, timestamp: string, text: string)

  /** One complaint. Fields the source initialises to `null` are options.
      `category` and `assignedTeam` are free text: the form and the team
      selector offer fixed choices, but the handlers accept any string. */
  datatype Complaint = Complaint(
    id: string,
    dateFiled: Day,
    category: string,
    summary: string,
    status: Status,
    resolutionDate: Option<Day>,
    resolutionSummary: Option<string>,
    generatedSolution: string,
    assignedTo: Option<string>,
    assignedTeam: Option<string>,
    assignedDate: Option<Day>,
    deadline: Option<Day>,
    backendSolution: string,
    comments: seq<Comment>)

  /** The fixed identity that escalation assigns cases to and the resolver view filters on. */
  const CurrentResolver: string := "Current Resolver"
  /** The author recorded on every resolver comment. */
  const ResolverAuthor: string := "Resolver"
  /** The team a customer escalation routes to. */
  const EscalationTeam: string := "Technical Support"
  /** The resolution summary written when a resolver closes a case. */
  const ResolverResolution: string := "Resolved by resolver team"
  /** Placeholder texts a new complaint is filed with. */
  const PendingSolution: string := "Analyzing complaint and generating solution..."
  const PendingBackendSolution: string :=
    "Initial analysis in progress. AI is processing complaint details and generating comprehensive solution."
  /** Days between a customer escalation and its deadline. */
  const EscalationDays: int := 5

  // Field groups, used to say which parts of a record an action leaves alone.

  /** The parts no action ever changes: identity, filing data and the solutions. */
  predicate SameCase(c: Complaint, c': Complaint)
  {
    && c'.id == c.id
    && c'.dateFiled == c.dateFiled
    && c'.category == c.category
    && c'.summary == c.summary
    && c'.generatedSolution == c.generatedSolution
    && c'.backendSolution == c.backendSolution
  }

  predicate SameResolution(c: Complaint, c': Complaint)
  {
    c'.resolutionDate == c.resolutionDate && c'.resolutionSummary == c.resolutionSummary
  }

  predicate SameAssignment(c: Complaint, c': Complaint)
  {
    && c'.assignedTo == c.assignedTo
    && c'.assignedTeam == c.assignedTeam
    && c'.assignedDate == c.assignedDate
    && c'.deadline == c.deadline
  }

  /** The day number of 2024-01-`d`. */
  function Jan2024(d: int): Day
  {
    19722 + d
  }

  /** The three complaints the dashboard starts with (src/App.js:583-647),
      oldest first. */
  const Seed: seq<Complaint> := [
    Complaint(
      "C-2024-001", Jan2024(15), "Billing", "Incorrect charges on my monthly bill",
      Resolved, Some(Jan2024(18)), Some("Billing error corrected and refund processed"),
      "Auto-corrected billing cycle and applied credit",
      Some(CurrentResolver), Some("Billing Team"), Some(Jan2024(16)), Some(Jan2024(20)),
      "System analysis shows duplicate billing entries. Automated refund of $45.99 processed. Account reconciled with correct billing cycle.",
      [Comment(ResolverAuthor, "2024-01-17 10:30",
               "Investigated billing system logs. Found duplicate charge from system error.")]),
    Complaint(
      "C-2024-002", Jan2024(20), "Technical", "Unable to access my account dashboard",
      Assigned, None, None,
      "Clear browser cache and reset password",
      Some(CurrentResolver), Some("Technical Support"), Some(Jan2024(21)), Some(Jan2024(25)),
      "Authentication service logs show session timeout issues. User's browser has outdated cookies. Backend fix deployed for session management.",
      [Comment(ResolverAuthor, "2024-01-22 14:15",
               "Deployed session management fix. Monitoring user login attempts.")]),
    Complaint(
      "C-2024-003", Jan2024(22), "Service", "Poor customer service experience",
      InProgress, None, None,
      "Schedule follow-up call with senior representative",
      Some(CurrentResolver), Some("Customer Success"), Some(Jan2024(23)), Some(Jan2024(26)),
      "Call logs analysis reveals long wait times during peak hours. Implementing callback system and additional staffing recommendations.",
      [])
  ]

  /** The seed complaints carry the first three sequence numbers, in order. */
  lemma SeedIds()
    ensures |Seed| == 3
    ensures forall i :: 0 <= i < |Seed| ==> Seed[i].id == IdFor(i + 1)
  {
  }

  /** Every seed complaint is assigned to the resolver, with a team, an
      assigned date and a deadline. */
  lemma SeedAssigned()
    ensures forall i :: 0 <= i < |Seed| ==>
      && Seed[i].assignedTo == Some(CurrentResolver)
      && Seed[i].assignedTeam.Some? && Seed[i].assignedDate.Some? && Seed[i].deadline.Some?
  {
  }
}
