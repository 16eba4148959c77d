/** Repair attempts form one chain, and publication is reached exactly through acceptance. */
module WorkflowChain {
  import opened Prelude
  import opened WorkflowModel
  import opened WorkflowRun
  import opened WorkflowInvariant
  import opened WorkflowPlanning
  import opened WorkflowExecution
  import opened WorkflowReview
  import opened WorkflowRepair
  import opened WorkflowSafety
  import opened WorkflowTheorems

  // ------------------------------------------------------------------ the chain

  ghost predicate InCycle(attempts: Attempts, cycle: nat, a: AttemptId) {
    a in attempts && attempts[a].cycle == cycle
  }

  /** No replan put a second initial attempt into the cycle. */
  ghost predicate OneInitial(attempts: Attempts, cycle: nat, first: AttemptId) {
    forall a :: InCycle(attempts, cycle, a) && a.InitialOf? ==> a == first
  }

  /** `b` repairs `a`: the next number, the next round, under the one review of `a`, which demanded fixes. */
  ghost predicate RepairedBy(db: Db, a: AttemptId, b: AttemptId) {
    && a in db.attempts && b in db.attempts && b.RepairOf?
    && db.attempts[a].status == Succeeded
    && db.attempts[b].number == db.attempts[a].number + 1
    && db.attempts[b].round == db.attempts[a].round + 1 <= MAX_REPAIRS
    && db.attempts[b].parent == Some(b.repair.review)
    && IsReviewOf(db.reviews, a, b.repair.review)
    && (forall r :: IsReviewOf(db.reviews, a, r) ==> r == b.repair.review)
    && db.reviews[b.repair.review].verdict == NEEDS_FIXES
  }

  predicate Successive(attempts: Attempts, a: AttemptId, b: AttemptId) {
    a in attempts && b in attempts && attempts[b].number == attempts[a].number + 1
  }

  /** Every repair attempt repairs the attempt its parent review judged. */
  lemma RepairsParent(db: Db, b: AttemptId)
    requires db.state.Some? && b in db.attempts && b.RepairOf?
    requires Records(db)
    ensures b.repair.review in db.reviews && RepairedBy(db, db.reviews[b.repair.review].attempt, b)
    ensures var p := db.reviews[b.repair.review].attempt; p in db.attempts && db.attempts[p].cycle == db.attempts[b].cycle
  {
    hide NewestOk, LineageOk;
    assert RowOk(db.attempts[b], db.permits, db.repairs);
    assert FollowsParent(db.attempts, db.reviews, b.repair);
    hide NumbersOk, RowsOk;
    assert IsReviewOf(db.reviews, db.reviews[b.repair.review].attempt, b.repair.review);
  }

  /** Attempt n is attempt 1 repaired n-1 times. */
  lemma {:induction false} NumberIsRound(db: Db, cycle: nat, first: AttemptId, a: AttemptId)
    requires db.state.Some? && InCycle(db.attempts, cycle, a) && OneInitial(db.attempts, cycle, first)
    requires Records(db)
    ensures db.attempts[a].number == db.attempts[a].round + 1
    ensures db.attempts[a].number == 1 <==> a == first
    decreases db.attempts[a].number
  {
    hide Records, IsReviewOf;
    RowKind(db, a);
    Positive(db, a);
    if a.RepairOf? {
      RepairsParent(db, a);
      var p := db.reviews[a.repair.review].attempt;
      NumberIsRound(db, cycle, first, p);
      FirstIsInitial(db, cycle, first);
    } else {
      InitialIsFirst(db, cycle, first);
    }
  }

  lemma Positive(db: Db, a: AttemptId)
    requires db.state.Some? && a in db.attempts && Records(db)
    ensures db.attempts[a].number >= 1
  {
    hide RowsOk, ParentsOk, NewestOk, ReviewsOk, RepairsOk, LineageOk, NumberTaken;
  }

  /** Numbers of a cycle start at 1. */
  lemma NumberOne(db: Db, cycle: nat, a: AttemptId) returns (e: AttemptId)
    requires db.state.Some? && InCycle(db.attempts, cycle, a) && Records(db)
    ensures InCycle(db.attempts, cycle, e) && db.attempts[e].number == 1 && e.InitialOf?
  {
    Positive(db, a);
    assert NumberTaken(db.attempts, cycle, 1) by {
      hide RowsOk, ParentsOk, NewestOk, ReviewsOk, RepairsOk, LineageOk;
      assert db.attempts[a].cycle == cycle;
    }
    hide Records;
    e :| e in db.attempts && db.attempts[e].cycle == cycle && db.attempts[e].number == 1;
    if e.RepairOf? {
      RepairsParent(db, e);
      Positive(db, db.reviews[e.repair.review].attempt);
    }
  }

  lemma InitialIsFirst(db: Db, cycle: nat, first: AttemptId)
    requires db.state.Some? && InCycle(db.attempts, cycle, first) && OneInitial(db.attempts, cycle, first)
    requires Records(db)
    ensures db.attempts[first].number == 1
  {
    hide Records;
    var e := NumberOne(db, cycle, first);
  }

  lemma FirstIsInitial(db: Db, cycle: nat, first: AttemptId)
    requires db.state.Some? && OneInitial(db.attempts, cycle, first)
    requires exists a :: InCycle(db.attempts, cycle, a)
    requires Records(db)
    ensures InCycle(db.attempts, cycle, first) && first.InitialOf?
  {
    hide Records;
    var a :| InCycle(db.attempts, cycle, a);
    var e := NumberOne(db, cycle, a);
  }

  lemma NumbersDiffer(db: Db, a: AttemptId, b: AttemptId)
    requires db.state.Some? && a in db.attempts && b in db.attempts && Records(db)
    requires db.attempts[a].cycle == db.attempts[b].cycle && db.attempts[a].number == db.attempts[b].number
    ensures a == b
  {
    hide RowsOk, ParentsOk, NewestOk, ReviewsOk, RepairsOk, LineageOk, NumberTaken;
  }

  /** In a cycle with one initial attempt: numbers are exactly 1..k with k <= 6, the round is the number less one,
      and every attempt but the last succeeded, was judged NEEDS_FIXES once, and is repaired by the next. */
  lemma RepairChain(s: Sys, labels: seq<Label>, t: Sys, cycle: nat, first: AttemptId)
    requires Initial(s) && Run(s, labels) == Some(t) && t.db.state.Some?
    requires OneInitial(t.db.attempts, cycle, first)
    ensures forall a :: InCycle(t.db.attempts, cycle, a) ==>
      && 1 <= t.db.attempts[a].number == t.db.attempts[a].round + 1 <= MAX_REPAIRS + 1
      && (t.db.attempts[a].number == 1 <==> a == first)
    ensures forall a, n :: InCycle(t.db.attempts, cycle, a) && 1 <= n <= t.db.attempts[a].number ==>
      NumberTaken(t.db.attempts, cycle, n)
    ensures forall a, b ::
      InCycle(t.db.attempts, cycle, a) && InCycle(t.db.attempts, cycle, b) && Successive(t.db.attempts, a, b) ==> RepairedBy(t.db, a, b)
  {
    var db := t.db;
    hide Next, Run, PlanTablesOk, ProgressOk, Records, RepairedBy, NumberTaken;
    Reachable(s, labels, t);
    forall a | InCycle(db.attempts, cycle, a)
      ensures 1 <= db.attempts[a].number == db.attempts[a].round + 1 <= MAX_REPAIRS + 1
      ensures db.attempts[a].number == 1 <==> a == first
    {
      NumberIsRound(db, cycle, first, a);
      RoundBound(db, a);
      Positive(db, a);
    }
    forall a, n | InCycle(db.attempts, cycle, a) && 1 <= n <= db.attempts[a].number ensures NumberTaken(db.attempts, cycle, n) {
      NoGap(db, cycle, a, n);
    }
    forall a, b | InCycle(db.attempts, cycle, a) && InCycle(db.attempts, cycle, b) && Successive(db.attempts, a, b)
      ensures RepairedBy(db, a, b)
    {
      NumberIsRound(db, cycle, first, b);
      Positive(db, a);
      if b.RepairOf? {
        RepairsParent(db, b);
        NextRepairs(db, a, b);
      }
    }
  }

  lemma NextRepairs(db: Db, a: AttemptId, b: AttemptId)
    requires db.state.Some? && a in db.attempts && b in db.attempts && b.RepairOf? && b.repair.review in db.reviews
    requires db.attempts[a].cycle == db.attempts[b].cycle && db.attempts[b].number == db.attempts[a].number + 1
    requires RepairedBy(db, db.reviews[b.repair.review].attempt, b)
    requires db.reviews[b.repair.review].attempt in db.attempts
    requires db.attempts[db.reviews[b.repair.review].attempt].cycle == db.attempts[b].cycle
    requires Records(db)
    ensures RepairedBy(db, a, b)
  {
    hide Records;
    NumbersDiffer(db, a, db.reviews[b.repair.review].attempt);
  }

  lemma NoGap(db: Db, cycle: nat, a: AttemptId, n: nat)
    requires db.state.Some? && InCycle(db.attempts, cycle, a) && 1 <= n <= db.attempts[a].number
    requires Records(db)
    ensures NumberTaken(db.attempts, cycle, n)
  {
    hide RowsOk, ParentsOk, NewestOk, ReviewsOk, RepairsOk, LineageOk, NumberTaken;
    assert db.attempts[a].cycle == cycle;
  }

  lemma RoundBound(db: Db, a: AttemptId)
    requires db.state.Some? && a in db.attempts && Records(db)
    ensures db.attempts[a].round <= MAX_REPAIRS
  {
    hide Records;
    RowKind(db, a);
    if a.RepairOf? { PermitRound(db, a.repair); }
  }

  lemma PermitRound(db: Db, i: RepairId)
    requires db.state.Some? && i in db.repairs && Records(db)
    ensures 1 <= i.round <= MAX_REPAIRS
  {
    hide RowsOk, ParentsOk, NumbersOk, NewestOk, LineageOk, ReviewsOk;
  }

  ghost predicate ReadyToRun(db: Db, i: RepairId) {
    && db.state.Some? && Usable(db.repairs, i) && i.review in db.reviews
    && if RepairOf(i) in db.attempts
       then IsLatest(db.attempts, db.state.value.cycle, RepairOf(i)) && db.attempts[RepairOf(i)].status == Failed
       else IsLatest(db.attempts, db.state.value.cycle, db.reviews[i.review].attempt)
  }

  /** REPAIR_READY holds exactly one usable repair permit: its own attempt is the latest and failed, or the latest
      attempt is the one its parent review judged. */
  lemma OneRepairReady(s: Sys, labels: seq<Label>, t: Sys)
    requires Initial(s) && Run(s, labels) == Some(t) && InPhase(t.db, REPAIR_READY)
    ensures exists i :: ReadyToRun(t.db, i) && forall j :: Usable(t.db.repairs, j) ==> j == i
  {
    hide Next, Run, PlanTablesOk, Records, ProgressOk;
    Reachable(s, labels, t);
    var i := ReadyUsableOf(t.db);
    OnlyUsable(t.db, i);
  }

  lemma ReadyUsableOf(db: Db) returns (i: RepairId)
    requires InPhase(db, REPAIR_READY) && Records(db) && ProgressOk(db)
    ensures ReadyToRun(db, i)
  {
    hide RowsOk, ParentsOk, NumbersOk, NewestOk, LineageOk, ReviewsOk, RepairsOk, SuccessOk, Row;
    i :| Usable(db.repairs, i);
  }

  // ------------------------------------------------------------------ publication

  /** The accepted execution of the current cycle. */
  ghost predicate Accepted(db: Db, a: AttemptId, r: ReviewId) {
    && db.state.Some? && db.state.value.plan in db.plans
    && var st, p := db.state.value, db.plans[db.state.value.plan];
    && Approved(p.status)
    && IsLatest(db.attempts, st.cycle, a)
    && db.attempts[a].status == Succeeded && SameLineage(db.attempts[a], st.cycle, st.plan, p.version, st.root)
    && IsReviewOf(db.reviews, a, r) && (forall q :: IsReviewOf(db.reviews, a, q) ==> q == r)
    && db.reviews[r].verdict == ACCEPT
  }

  lemma AwaitingAccepted(db: Db) returns (a: AttemptId, r: ReviewId)
    requires InPhase(db, AWAITING_PUBLICATION) && Sound(db)
    ensures Accepted(db, a, r) && Publishable(db.(hasWorkspace := true), a, r)
  {
    var st := db.state.value;
    hide PlanTablesOk, Records, ProgressOk;
    a := LatestInReview(db);
    ReviewLatest(db, a);
    r :| AcceptedBy(db.reviews, a, r);
    CurrentLineage(db, a);
    AcceptedFacts(db, a, r);
  }

  lemma LatestInReview(db: Db) returns (a: AttemptId)
    requires db.state.Some? && db.state.value.phase in {REVIEW_EXECUTION, AWAITING_PUBLICATION, REPAIR_READY} && ProgressOk(db)
    ensures IsLatest(db.attempts, db.state.value.cycle, a)
  {
    var st := db.state.value;
    hide SuccessOk, UsableOk, Row;
    a :| ReviewShape(db.attempts, db.reviews, db.repairs, st.cycle, st.phase, st.plan, a);
  }

  lemma AcceptedFacts(db: Db, a: AttemptId, r: ReviewId)
    requires InPhase(db, AWAITING_PUBLICATION) && db.state.value.plan in db.plans && IsLatest(db.attempts, db.state.value.cycle, a)
    requires AcceptedBy(db.reviews, a, r) && db.attempts[a].status == Succeeded
    requires SameLineage(db.attempts[a], db.state.value.cycle, db.state.value.plan, db.plans[db.state.value.plan].version,
                         db.state.value.root)
    requires Sound(db)
    ensures Accepted(db, a, r) && Publishable(db.(hasWorkspace := true), a, r)
  {
    hide PlanTablesOk, ProgressOk, Records, Accepted, Publishable;
    OnlyReview(db, a, r);
    ReviewRepeats(db, a, r);
    AwaitingRow(db, a);
    AwaitingPlan(db);
    AcceptedParts(db, a, r);
  }

  lemma OnlyReview(db: Db, a: AttemptId, r: ReviewId)
    requires db.state.Some? && IsReviewOf(db.reviews, a, r) && Records(db)
    ensures forall q :: IsReviewOf(db.reviews, a, q) ==> q == r
  {
    hide RowsOk, ParentsOk, NumbersOk, NewestOk, LineageOk, RepairsOk;
  }

  lemma AcceptedParts(db: Db, a: AttemptId, r: ReviewId)
    requires InPhase(db, AWAITING_PUBLICATION) && db.state.value.plan in db.plans && IsLatest(db.attempts, db.state.value.cycle, a)
    requires AcceptedBy(db.reviews, a, r) && db.attempts[a].status == Succeeded && Row(db) == Some(RowSucceeded)
    requires SameLineage(db.attempts[a], db.state.value.cycle, db.state.value.plan, db.plans[db.state.value.plan].version,
                         db.state.value.root)
    requires var v, t := db.reviews[r], db.attempts[a];
      v.cycle == t.cycle && v.plan == t.plan && v.version == t.version && v.root == t.root
    requires var st, p := db.state.value, db.plans[db.state.value.plan];
      Approved(p.status) && p.cycle == st.cycle && p.root == st.root && p.input == st.input
    requires forall q :: IsReviewOf(db.reviews, a, q) ==> q == r
    ensures Accepted(db, a, r) && Publishable(db.(hasWorkspace := true), a, r)
  {
    hide IsLatest;
  }

  lemma ReviewRepeats(db: Db, a: AttemptId, r: ReviewId)
    requires db.state.Some? && a in db.attempts && IsReviewOf(db.reviews, a, r) && Records(db)
    ensures var v, t := db.reviews[r], db.attempts[a];
      v.cycle == t.cycle && v.plan == t.plan && v.version == t.version && v.root == t.root
  {
    hide RowsOk, ParentsOk, NumbersOk, NewestOk, LineageOk, RepairsOk;
  }

  lemma AwaitingRow(db: Db, a: AttemptId)
    requires db.state.Some? && IsLatest(db.attempts, db.state.value.cycle, a) && db.attempts[a].status == Succeeded && ProgressOk(db)
    ensures Row(db) == Some(RowSucceeded)
  {
    hide UsableOk, ShapeOk, Row;
    assert SucceededIn(db.attempts, db.state.value.cycle, a);
  }

  lemma AwaitingPlan(db: Db)
    requires InPhase(db, AWAITING_PUBLICATION) && PlanTablesOk(db)
    ensures db.state.value.plan in db.plans
    ensures var st, p := db.state.value, db.plans[db.state.value.plan];
      Approved(p.status) && p.cycle == st.cycle && p.root == st.root && p.input == st.input
  {
    hide PermitsOk, LearnedOk;
  }

  /** AWAITING_PUBLICATION is entered only with an approved current plan whose latest attempt succeeded and was
      accepted by its single review. */
  lemma AwaitingMeansAccepted(s: Sys, labels: seq<Label>, t: Sys)
    requires Initial(s) && Run(s, labels) == Some(t) && InPhase(t.db, AWAITING_PUBLICATION)
    ensures exists a, r :: Accepted(t.db, a, r)
  {
    hide Next, Run, Sound, Accepted, Publishable;
    Reachable(s, labels, t);
    var a, r := AwaitingAccepted(t.db);
  }

  /** The publisher may act exactly while the thread awaits publication and its workspace is recorded; so the target,
      once given by acceptance, stays until the cycle is finalized. */
  lemma TargetExactlyWhileAwaiting(s: Sys, labels: seq<Label>, t: Sys)
    requires Initial(s) && Run(s, labels) == Some(t) && t.db.state.Some?
    ensures PublicationTarget(t.db).Some? <==> InPhase(t.db, AWAITING_PUBLICATION) && t.db.hasWorkspace
    ensures PublicationTarget(t.db).Some? ==>
      PublicationTarget(t.db).value == (t.db.state.value.cycle, Effective(t.db.state.value.input, t.db.state.value.root))
  {
    hide Next, Run, Sound, Publishable;
    Reachable(s, labels, t);
    if InPhase(t.db, AWAITING_PUBLICATION) {
      if t.db.hasWorkspace { AwaitingTarget(t.db); } else { NeedsWorkspace(t.db); }
    } else {
      NotPublishable(t.db);
    }
  }

  lemma AwaitingTarget(db: Db)
    requires InPhase(db, AWAITING_PUBLICATION) && db.hasWorkspace && Sound(db)
    ensures PublicationTarget(db) == Some((db.state.value.cycle, Effective(db.state.value.input, db.state.value.root)))
  {
    hide PlanTablesOk, Records, ProgressOk, Publishable;
    var a, r := AwaitingAccepted(db);
    AwaitingPlan(db);
    assert db == db.(hasWorkspace := true);
  }

  lemma NeedsWorkspace(db: Db)
    requires !db.hasWorkspace
    ensures forall a, r :: !Publishable(db, a, r)
  {
  }

  lemma NotPublishable(db: Db)
    requires !InPhase(db, AWAITING_PUBLICATION)
    ensures forall a, r :: !Publishable(db, a, r)
  {
  }

  // ------------------------------------------------------------------ finalizing once

  function Finalizations(labels: seq<Label>): (n: nat) {
    if labels == [] then 0 else (if labels[0].FinalizePub? then 1 else 0) + Finalizations(labels[1..])
  }

  lemma LearnsFresh(s: Sys, t: Sys)
    requires Inv(s) && Next(s, FinalizePub) == Some(t)
    ensures exists id :: id !in s.db.learned && t.db.learned == s.db.learned + {id}
  {
    hide Inv, Sound, PublicationTarget, Finalize;
    var id := PublicationTarget(s.db).value;
    FinalizedIs(s.db, id, t.db);
    SoundTables(s);
    NotYetLearned(s.db, id);
  }

  lemma NotYetLearned(db: Db, id: (nat, InputId))
    requires InPhase(db, AWAITING_PUBLICATION) && id.0 == db.state.value.cycle && Sound(db)
    ensures id !in db.learned
  {
    hide PlansOk, PermitsOk, PhaseOk, Records, ProgressOk;
  }

  /** Each publication id is finalized at most once: every finalization of a run learns a new one. */
  lemma {:induction false} FinalizedOnce(s: Sys, labels: seq<Label>, t: Sys)
    requires Inv(s) && Run(s, labels) == Some(t)
    ensures s.db.learned <= t.db.learned && |t.db.learned| == |s.db.learned| + Finalizations(labels)
    decreases |labels|
  {
    hide Inv, Next;
    if labels != [] {
      var m := Next(s, labels[0]).value;
      Keep(s, labels[0], m);
      if labels[0].FinalizePub? { LearnsFresh(s, m); } else { LearnsNothing(s, labels[0], m); }
      FinalizedOnce(m, labels[1..], t);
    }
  }
}
