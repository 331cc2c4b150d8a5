/** What stays true of the complaint list from the seed on, whatever the users
    do: ids are distinct and are exactly the first `n` sequence numbers (no
    complaint is ever removed), and a complaint that has an assignee also has a
    team, an assigned date and a deadline. */
module Invariants {
  import opened Wrappers
  import opened ComplaintIds
  import opened Complaints
  import opened Store

  /** Every id in the list. */
  function IdSet(cs: seq<Complaint>): set<string>
  {
    set i | 0 <= i < |cs| :: cs[i].id
  }

  /** The ids of the first `n` complaints ever filed. */
  function IssuedIds(n: nat): set<string>
  {
    set k | 1 <= k <= n :: IdFor(k)
  }

  predicate DistinctIds(cs: seq<Complaint>)
  {
    forall i, j :: 0 <= i < j < |cs| ==> cs[i].id != cs[j].id
  }

  predicate IdsWellFormed(cs: seq<Complaint>)
  {
    DistinctIds(cs) && IdSet(cs) == IssuedIds(|cs|)
  }

  /** A complaint with an assignee has all of its assignment fields, so the
      resolver view always finds a real deadline on the cases it shows. */
  predicate AssignmentComplete(cs: seq<Complaint>)
  {
    forall i :: 0 <= i < |cs| && cs[i].assignedTo.Some? ==>
      cs[i].assignedTeam.Some? && cs[i].assignedDate.Some? && cs[i].deadline.Some?
  }

  predicate Invariant(cs: seq<Complaint>)
  {
    IdsWellFormed(cs) && AssignmentComplete(cs)
  }

  lemma IssuedIdsNext(n: nat)
    ensures IssuedIds(n + 1) == IssuedIds(n) + {IdFor(n + 1)}
    ensures IdFor(n + 1) !in IssuedIds(n)
  {
    forall k | 1 <= k <= n ensures IdFor(k) != IdFor(n + 1) {
      IdForInjective(k, n + 1);
    }
  }

  lemma NumberedIdsDistinct(cs: seq<Complaint>)
    requires forall i :: 0 <= i < |cs| ==> cs[i].id == IdFor(i + 1)
    ensures DistinctIds(cs)
  {
    forall i, j | 0 <= i < j < |cs| ensures cs[i].id != cs[j].id {
      IdForInjective(i + 1, j + 1);
    }
  }

  lemma NumberedIdsIssued(cs: seq<Complaint>)
    requires forall i :: 0 <= i < |cs| ==> cs[i].id == IdFor(i + 1)
    ensures IdSet(cs) == IssuedIds(|cs|)
  {
    forall x | x in IssuedIds(|cs|) ensures x in IdSet(cs) {
      var k :| 1 <= k <= |cs| && IdFor(k) == x;
      assert cs[k - 1].id == x;
    }
    forall x | x in IdSet(cs) ensures x in IssuedIds(|cs|) {
      var i :| 0 <= i < |cs| && cs[i].id == x;
      assert IdFor(i + 1) == x;
    }
  }

  /** A list numbered 1, 2, ... from the front has well-formed ids. */
  lemma NumberedIdsWellFormed(cs: seq<Complaint>)
    requires forall i :: 0 <= i < |cs| ==> cs[i].id == IdFor(i + 1)
    ensures IdsWellFormed(cs)
  {
    NumberedIdsDistinct(cs);
    NumberedIdsIssued(cs);
  }

  /** The seed list (ids 001 to 003) satisfies the invariant. */
  lemma SeedInvariant()
    ensures Invariant(Seed)
  {
    SeedIds();
    NumberedIdsWellFormed(Seed);
    SeedAssigned();
  }

  /** A step that keeps every id in place keeps the id invariant. */
  lemma SameIdsKeepWellFormed(cs: seq<Complaint>, r: seq<Complaint>)
    requires IdsWellFormed(cs)
    requires |r| == |cs|
    requires forall i :: 0 <= i < |cs| ==> r[i].id == cs[i].id
    ensures IdsWellFormed(r)
  {
  }

  lemma IdSetPrepend(c: Complaint, cs: seq<Complaint>)
    ensures IdSet([c] + cs) == IdSet(cs) + {c.id}
  {
    var r := [c] + cs;
    forall x | x in IdSet(cs) ensures x in IdSet(r) {
      var i :| 0 <= i < |cs| && cs[i].id == x;
      assert r[i + 1].id == x;
    }
    assert r[0].id in IdSet(r);
  }

  lemma DistinctPrepend(c: Complaint, cs: seq<Complaint>)
    requires DistinctIds(cs)
    requires c.id !in IdSet(cs)
    ensures DistinctIds([c] + cs)
  {
    var r := [c] + cs;
    forall i, j | 0 <= i < j < |r| ensures r[i].id != r[j].id {
      assert r[j].id == cs[j - 1].id;
      if i == 0 {
        assert cs[j - 1].id in IdSet(cs);
      } else {
        assert r[i].id == cs[i - 1].id;
      }
    }
  }

  /** Putting the next-numbered complaint in front keeps the id invariant. */
  lemma PrependNextKeepsWellFormed(cs: seq<Complaint>, c: Complaint)
    requires IdsWellFormed(cs)
    requires c.id == IdFor(|cs| + 1)
    ensures IdsWellFormed([c] + cs)
  {
    IssuedIdsNext(|cs|);
    IdSetPrepend(c, cs);
    DistinctPrepend(c, cs);
  }

  /** Filing a complaint keeps the invariant: the new id is the next sequence
      number, which no earlier complaint carries. */
  lemma SubmitPreserves(cs: seq<Complaint>, draft: Draft, nowMs: int)
    requires Invariant(cs)
    ensures Invariant(Submit(cs, draft, nowMs))
  {
    var r := Submit(cs, draft, nowMs);
    if draft.category != [] && draft.summary != [] {
      assert r == [r[0]] + cs;
      PrependNextKeepsWellFormed(cs, r[0]);
    }
  }

  /** A customer action keeps the invariant. */
  lemma CustomerActionPreserves(cs: seq<Complaint>, id: string, action: string, nowMs: int)
    requires Invariant(cs)
    ensures Invariant(CustomerAction(cs, id, action, nowMs))
  {
  }

  /** A resolver action keeps the invariant; `changeTeam` only ever sets the team. */
  lemma ResolverActionPreserves(cs: seq<Complaint>, id: string, action: string, value: string, nowMs: int, stamp: string)
    requires Invariant(cs)
    ensures Invariant(ResolverAction(cs, id, action, value, nowMs, stamp))
  {
  }

  /** One user event reaching the store. */
  datatype Event =
    | FileComplaint(draft: Draft, nowMs: int)
    | CustomerEvent(id: string, action: string, nowMs: int)
    | ResolverEvent(id: string, action: string, value: string, nowMs: int, stamp: string)

  function Apply(cs: seq<Complaint>, e: Event): seq<Complaint>
  {
    match e
    case FileComplaint(draft, nowMs) => Submit(cs, draft, nowMs)
    case CustomerEvent(id, action, nowMs) => CustomerAction(cs, id, action, nowMs)
    case ResolverEvent(id, action, value, nowMs, stamp) => ResolverAction(cs, id, action, value, nowMs, stamp)
  }

  /** The list after the events, taken in order. */
  function Run(cs: seq<Complaint>, events: seq<Event>): seq<Complaint>
    decreases |events|
  {
    if |events| == 0 then cs else Run(Apply(cs, events[0]), events[1..])
  }

  /** Events keep the invariant. */
  lemma {:induction false} RunPreserves(cs: seq<Complaint>, events: seq<Event>)
    requires Invariant(cs)
    ensures Invariant(Run(cs, events))
    decreases |events|
  {
    if |events| > 0 {
      var next := Apply(cs, events[0]);
      match events[0] {
        case FileComplaint(draft, nowMs) => SubmitPreserves(cs, draft, nowMs);
        case CustomerEvent(id, action, nowMs) => CustomerActionPreserves(cs, id, action, nowMs);
        case ResolverEvent(id, action, value, nowMs, stamp) => ResolverActionPreserves(cs, id, action, value, nowMs, stamp);
      }
      RunPreserves(next, events[1..]);
    }
  }

  /** From the seed, whatever happens, ids stay pairwise distinct and are
      exactly `C-2024-001` up to the current count, and the next complaint
      filed gets an id that is not yet in use. */
  lemma ReachableIdsUnique(events: seq<Event>)
    ensures var cs := Run(Seed, events);
      && DistinctIds(cs)
      && IdSet(cs) == IssuedIds(|cs|)
      && IdFor(|cs| + 1) !in IdSet(cs)
      && AssignmentComplete(cs)
  {
    SeedInvariant();
    RunPreserves(Seed, events);
    IssuedIdsNext(|Run(Seed, events)|);
  }
}
