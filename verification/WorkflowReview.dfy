/** Review verdicts, repairs and publication keep the invariant. */
module WorkflowReview {
  import opened Prelude
  import opened WorkflowModel
  import opened WorkflowRun
  import opened WorkflowInvariant
  import opened WorkflowTables
  import opened WorkflowPlanning
  import opened WorkflowExecution

  lemma ReviewLatest(db: Db, a: AttemptId)
    requires db.state.Some? && Records(db) && ProgressOk(db)
    requires db.state.value.phase in {REVIEW_EXECUTION, AWAITING_PUBLICATION, REPAIR_READY}
    requires IsLatest(db.attempts, db.state.value.cycle, a)
    ensures ReviewShape(db.attempts, db.reviews, db.repairs, db.state.value.cycle, db.state.value.phase, db.state.value.plan, a)
  {
    hide Row, SuccessOk, UsableOk, RowsOk, ParentsOk, ReviewsOk, RepairsOk, NewestOk, LineageOk;
    var st := db.state.value;
    var b :| ReviewShape(db.attempts, db.reviews, db.repairs, st.cycle, st.phase, st.plan, b);
    LatestUnique(db.attempts, st.cycle, a, b);
  }

  /** An attempt of the current plan repeats the thread's own cycle, root and plan version. */
  lemma CurrentLineage(db: Db, a: AttemptId)
    requires db.state.Some? && PlanTablesOk(db) && Records(db) && a in db.attempts && db.attempts[a].plan == db.state.value.plan
    ensures db.state.value.plan in db.plans
    ensures SameLineage(db.attempts[a], db.state.value.cycle, db.state.value.plan, db.plans[db.state.value.plan].version,
                        db.state.value.root)
  {
    hide RecordsOk, PermitsOk, PhaseOk, LearnedOk;
  }

  /** A step that leaves the review phase for a resting one. */
  lemma LeavesReview(db: Db, repairs: Repairs, d: Db)
    requires db.state.Some? && Active(db.state.value.phase)
    requires d == WithPhase(db, REVIEW_BLOCKED).(repairs := repairs)
    requires PlanTablesOk(db) && Records(db) && ProgressOk(db)
    requires RepairsGrow(db.repairs, repairs) && (forall i :: i in repairs ==> i in db.repairs)
    requires forall i :: !Usable(repairs, i)
    ensures PlanTablesOk(d) && Records(d) && ProgressOk(d)
  {
    hide PlanTablesOk, Records, ProgressOk, RepairsGrow;
    ActivePhase(db, d);
    SameRepairs(db, repairs, d);
    BlockedProgress(db, d);
  }

  lemma BlockedProgress(db: Db, d: Db)
    requires db.state.Some? && d.state == Some(db.state.value.(phase := REVIEW_BLOCKED))
    requires d.attempts == db.attempts && d.execs == db.execs
    requires ProgressOk(db) && forall i :: !Usable(d.repairs, i)
    ensures ProgressOk(d)
  {
    hide Row, UsableOk, ShapeOk;
    SameRow(db, d);
    SuccessPhase(db.attempts, db.state.value.cycle, db.state.value.phase, Row(db), REVIEW_BLOCKED);
    hide SuccessOk;
    NoUsableOk(d);
    ShapelessPlanning(d);
  }

  /** The same records under repair permits whose consumption or validity changed. */
  lemma SameRepairs(db: Db, repairs: Repairs, d: Db)
    requires db.state.Some? && d.state.Some? && d.state.value.cycle == db.state.value.cycle
    requires d.attempts == db.attempts && d.permits == db.permits && d.reviews == db.reviews && d.plans == db.plans
    requires d.repairs == repairs && Records(db)
    requires RepairsGrow(db.repairs, repairs) && (forall i :: i in repairs ==> i in db.repairs)
    ensures Records(d)
  {
    var cycle := db.state.value.cycle;
    hide RowsOk, ParentsOk, NumbersOk, NewestOk, ReviewsOk, LineageOk;
    assert RepairsOk(repairs, db.reviews, db.attempts);
    hide RepairsOk, RepairsGrow;
    RecordsGrow(db.attempts, db.permits, db.repairs, db.reviews, cycle, db.permits, repairs, db.reviews, cycle);
  }

  // ------------------------------------------------------------------ verdicts

  lemma JudgedOnce(reviews: Reviews, attempts: Attempts, id: ReviewId, review: Review)
    requires ReviewsOk(reviews, attempts) && id !in reviews && !Reviewed(reviews, review.attempt)
    requires review.attempt in attempts && attempts[review.attempt].status == Succeeded
    requires SameLineage(attempts[review.attempt], review.cycle, review.plan, review.version, review.root)
    ensures ReviewsOk(reviews[id := review], attempts)
  {
    var y := reviews[id := review];
    forall r, q, b | IsReviewOf(y, b, r) && IsReviewOf(y, b, q) ensures r == q {
      assert r != id ==> IsReviewOf(reviews, b, r);
      assert q != id ==> IsReviewOf(reviews, b, q);
    }
  }

  lemma JudgeKeepsRecords(db: Db, id: ReviewId, a: AttemptId, review: Review, d: Db)
    requires db.state.Some? && id !in db.reviews && d == db.(reviews := db.reviews[id := review])
    requires a in db.attempts && db.attempts[a].status == Succeeded && review.attempt == a
    requires SameLineage(db.attempts[a], review.cycle, review.plan, review.version, review.root)
    requires !Reviewed(db.reviews, a) && Records(db)
    ensures Records(d)
  {
    hide RowsOk, ParentsOk, NumbersOk, NewestOk, LineageOk, ReviewsOk, RepairsOk, Reviewed, SameLineage;
    JudgedOnce(db.reviews, db.attempts, id, review);
    JudgedRepairs(db.repairs, db.reviews, db.attempts, id, review);
    SameButReviews(db, d);
  }

  lemma SameButReviews(db: Db, d: Db)
    requires db.state.Some? && d.state == db.state && d.plans == db.plans
    requires d.attempts == db.attempts && d.permits == db.permits && d.repairs == db.repairs
    requires ReviewsGrow(db.reviews, d.reviews) && Records(db)
    requires ReviewsOk(d.reviews, db.attempts) && RepairsOk(db.repairs, d.reviews, db.attempts)
    ensures Records(d)
  {
    hide RowsOk, ParentsOk, NumbersOk, NewestOk, LineageOk, ReviewsOk, RepairsOk, ReviewsGrow;
    SameSelves(db.permits, db.repairs);
    hide PermitsGrow, RepairsGrow;
    RecordsGrow(db.attempts, db.permits, db.repairs, db.reviews, db.state.value.cycle,
                db.permits, db.repairs, d.reviews, db.state.value.cycle);
  }

  lemma SameSelves(permits: Permits, repairs: Repairs)
    ensures PermitsGrow(permits, permits) && RepairsGrow(repairs, repairs)
  {
  }

  lemma JudgedRepairs(repairs: Repairs, reviews: Reviews, attempts: Attempts, id: ReviewId, review: Review)
    requires RepairsOk(repairs, reviews, attempts) && id !in reviews
    ensures RepairsOk(repairs, reviews[id := review], attempts)
  {
  }

  lemma JudgedIs(db: Db, id: ReviewId, verdict: Verdict, d: Db) returns (a: AttemptId)
    requires JudgeLatest(db, id, verdict) == Some(d)
    ensures InPhase(db, REVIEW_EXECUTION) && db.state.value.plan in db.plans && id !in db.reviews
    ensures IsLatest(db.attempts, db.state.value.cycle, a) && !Reviewed(db.reviews, a)
    ensures var st := db.state.value;
      d == db.(reviews := db.reviews[id := Review(st.cycle, st.plan, db.plans[st.plan].version, st.root, a, verdict)])
  {
    var st := db.state.value;
    a :| IsLatest(db.attempts, st.cycle, a) && !Reviewed(db.reviews, a) &&
         d == SaveReview(db, id, Review(st.cycle, st.plan, db.plans[st.plan].version, st.root, a, verdict));
    SavedReview(db, id, Review(st.cycle, st.plan, db.plans[st.plan].version, st.root, a, verdict));
  }

  lemma SavedReview(db: Db, id: ReviewId, review: Review)
    requires id !in db.reviews && !Reviewed(db.reviews, review.attempt)
    ensures SaveReview(db, id, review) == db.(reviews := db.reviews[id := review])
  {
  }

  lemma KeepJudge(db: Db, id: ReviewId, verdict: Verdict, d: Db)
    requires Sound(db) && JudgeLatest(db, id, verdict) == Some(d)
    ensures Sound(d)
  {
    hide PlanTablesOk, Records, ProgressOk, JudgeLatest;
    var a := JudgedIs(db, id, verdict, d);
    ReviewLatest(db, a);
    CurrentLineage(db, a);
    JudgeKeepsRecords(db, id, a, d.reviews[id], d);
    NoneUsableAtRest(db);
    JudgeKeepsProgress(db, id, a, d);
    ActivePhase(db, d);
  }

  lemma JudgeKeepsProgress(db: Db, id: ReviewId, a: AttemptId, d: Db)
    requires InPhase(db, REVIEW_EXECUTION) && id !in db.reviews && id in d.reviews
    requires d == db.(reviews := db.reviews[id := d.reviews[id]])
    requires ReviewShape(db.attempts, db.reviews, db.repairs, db.state.value.cycle, REVIEW_EXECUTION, db.state.value.plan, a)
    requires Records(db) && ProgressOk(db)
    requires forall i :: !Usable(db.repairs, i)
    ensures ProgressOk(d)
  {
    hide RowsOk, ParentsOk, NumbersOk, NewestOk, ReviewsOk, LineageOk;
    hide SuccessOk, UsableOk, Row;
    SameRow(db, d);
    assert ReviewShape(d.attempts, d.reviews, d.repairs, d.state.value.cycle, REVIEW_EXECUTION, d.state.value.plan, a);
    hide RecordsOk;
    NoUsableOk(d);
  }

  lemma FailedReview(db: Db, d: Db) returns (a: AttemptId)
    requires FailReview(db) == Some(d)
    ensures db.state.Some? && IsLatest(db.attempts, db.state.value.cycle, a)
    ensures !Reviewed(db.reviews, a) && ReviewFailure(db, a).Some? && d == ReviewFailure(db, a).value.0
  {
    hide ReviewFailure, Reviewed, IsLatest;
    a :| IsLatest(db.attempts, db.state.value.cycle, a) && !Reviewed(db.reviews, a) &&
         ReviewFailure(db, a).Some? && d == ReviewFailure(db, a).value.0;
  }

  lemma FailureCases(db: Db, a: AttemptId)
    requires db.state.Some? && a in db.attempts
    ensures ReviewFailure(db, a).Some?
    ensures var d := ReviewFailure(db, a).value.0;
      if db.attempts[a].reviewRecoveries >= MAX_REVIEW_RECOVERIES then d == WithPhase(db, REVIEW_BLOCKED)
      else d == db.(attempts := d.attempts) && Updated(db.attempts, d.attempts, a) && d.attempts[a].status == db.attempts[a].status
  {
  }

  lemma KeepReviewFails(db: Db, d: Db)
    requires Sound(db) && FailReview(db) == Some(d)
    ensures Sound(d)
  {
    hide PlanTablesOk, Records, ProgressOk, ReviewFailure, FailReview, Updated, Reviewed;
    ReviewPhase(db, d);
    var a := FailedReview(db, d);
    FailureCases(db, a);
    NoneUsableAtRest(db);
    if db.attempts[a].reviewRecoveries >= MAX_REVIEW_RECOVERIES {
      LeavesReview(db, db.repairs, d);
    } else {
      FailureCounted(db, a, d);
    }
  }

  lemma FailureCounted(db: Db, a: AttemptId, d: Db)
    requires InPhase(db, REVIEW_EXECUTION) && IsLatest(db.attempts, db.state.value.cycle, a)
    requires d == db.(attempts := d.attempts) && Updated(db.attempts, d.attempts, a)
    requires d.attempts[a].status == db.attempts[a].status && !Reviewed(db.reviews, a)
    requires Sound(db)
    ensures Sound(d)
  {
    hide PlanTablesOk, Records, ProgressOk, Updated, Reviewed, IsLatest;
    NoneUsableAtRest(db);
    ReviewLatest(db, a);
    RecordsRestated(db, a, d);
    ActivePhase(db, d);
    FailureKeepsProgress(db, a, d);
  }

  lemma ReviewPhase(db: Db, d: Db)
    requires FailReview(db) == Some(d)
    ensures InPhase(db, REVIEW_EXECUTION)
  {
    hide ReviewFailure;
  }

  lemma FailureKeepsProgress(db: Db, a: AttemptId, d: Db)
    requires InPhase(db, REVIEW_EXECUTION)
    requires d == db.(attempts := d.attempts) && Updated(db.attempts, d.attempts, a)
    requires d.attempts[a].status == db.attempts[a].status
    requires IsLatest(d.attempts, db.state.value.cycle, a)
    requires ReviewShape(db.attempts, db.reviews, db.repairs, db.state.value.cycle, REVIEW_EXECUTION, db.state.value.plan, a)
    requires ProgressOk(db) && forall i :: !Usable(db.repairs, i)
    ensures ProgressOk(d)
  {
    hide Row, UsableOk;
    SameRow(db, d);
    assert forall c, b :: SucceededIn(d.attempts, c, b) <==> SucceededIn(db.attempts, c, b);
    assert ReviewShape(d.attempts, d.reviews, d.repairs, d.state.value.cycle, REVIEW_EXECUTION, d.state.value.plan, a);
    NoUsableOk(d);
  }

  lemma AcceptedIs(db: Db, id: ReviewId, d: Db) returns (a: AttemptId)
    requires AcceptReview(db, id) == Some(d)
    ensures InPhase(db, REVIEW_EXECUTION) && d == WithPhase(db, AWAITING_PUBLICATION)
    ensures IsLatest(db.attempts, db.state.value.cycle, a) && AcceptedBy(db.reviews, a, id)
  {
    a := db.reviews[id].attempt;
  }

  lemma KeepAccept(db: Db, id: ReviewId, d: Db)
    requires Sound(db) && AcceptReview(db, id) == Some(d)
    ensures Sound(d)
  {
    hide PlanTablesOk, Records, ProgressOk, AcceptReview;
    var a := AcceptedIs(db, id, d);
    NoneUsableAtRest(db);
    ReviewLatest(db, a);
    PhaseOnly(db, AWAITING_PUBLICATION, d);
    AcceptKeepsProgress(db, a, d);
  }

  lemma AcceptKeepsProgress(db: Db, a: AttemptId, d: Db)
    requires InPhase(db, REVIEW_EXECUTION) && d == WithPhase(db, AWAITING_PUBLICATION)
    requires ReviewShape(db.attempts, db.reviews, db.repairs, db.state.value.cycle, REVIEW_EXECUTION, db.state.value.plan, a)
    requires exists r :: AcceptedBy(db.reviews, a, r)
    requires ProgressOk(db) && forall i :: !Usable(db.repairs, i)
    ensures ProgressOk(d)
  {
    hide Row, UsableOk;
    SameRow(db, d);
    SuccessPhase(db.attempts, db.state.value.cycle, db.state.value.phase, Row(db), AWAITING_PUBLICATION);
    hide SuccessOk;
    assert ReviewShape(d.attempts, d.reviews, d.repairs, d.state.value.cycle, AWAITING_PUBLICATION, d.state.value.plan, a);
    NoUsableOk(d);
  }

  lemma BlockedIs(db: Db, id: ReviewId, d: Db)
    requires BlockReview(db, id) == Some(d)
    ensures InPhase(db, REVIEW_EXECUTION) && d == WithPhase(db, REVIEW_BLOCKED).(repairs := d.repairs)
    ensures RepairsGrow(db.repairs, d.repairs) && forall i :: i in d.repairs ==> i in db.repairs
    ensures forall i :: Usable(d.repairs, i) ==> Usable(db.repairs, i)
  {
  }

  lemma KeepBlock(db: Db, id: ReviewId, d: Db)
    requires Sound(db) && BlockReview(db, id) == Some(d)
    ensures Sound(d)
  {
    hide PlanTablesOk, Records, ProgressOk, BlockReview;
    BlockedIs(db, id, d);
    NoneUsableAtRest(db);
    LeavesReview(db, d.repairs, d);
  }
}
