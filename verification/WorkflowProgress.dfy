/** The explicit bounds of one plan version, and exactly where the machine can stand still. */
module WorkflowProgress {
  import opened Prelude
  import opened WorkflowModel
  import opened WorkflowRun
  import opened WorkflowInvariant
  import opened WorkflowPlanning
  import opened WorkflowExecution
  import opened WorkflowReview
  import opened WorkflowRepair
  import opened WorkflowSafety
  import opened WorkflowTheorems
  import opened WorkflowChain
  import opened WorkflowPhases
  import opened WorkflowTermination

  // ------------------------------------------------------------------ bounds

  /** Permit `k` was granted and has not been bound yet. */
  ghost predicate JustGranted(db: Db, k: PermitId) {
    InPhase(db, EXECUTION_READY) && LivePermitIn(db.permits, db.state.value.cycle, k) && InitialOf(k) !in db.attempts
  }

  ghost predicate CycleTried(db: Db) {
    db.state.Some? && exists a :: InCycle(db.attempts, db.state.value.cycle, a)
  }

  lemma GrantedBudget(s: Sys, k: PermitId)
    requires Inv(s) && JustGranted(s.db, k)
    ensures Left(s) == if CycleTried(s.db) then Budget(4, 20, 24, 126) else Budget(3, 20, 24, 120)
  {
    hide PlanTablesOk, Records, ProgressOk, Left;
    ReadyIs(s.db, s.worker, k);
  }

  /** From a fresh approval, deaths, failed reviews and NEEDS_FIXES verdicts in any order run out: at most 3 initial
      executions, 5 x (1 + 3) repair executions and 4 review runs for each of 6 attempts. The one exception is a cycle
      that already holds an attempt of an older version: then the initial execution is tried once more. */
  lemma OneVersionEnds(s: Sys, k: PermitId, labels: seq<Label>, t: Sys)
    requires Inv(s) && JustGranted(s.db, k)
    requires AllWorking(labels) && Run(s, labels) == Some(t)
    ensures |labels| <= 126
    ensures Initials(labels) <= if CycleTried(s.db) then 4 else 3
    ensures RepairRuns(labels) <= 5 * (1 + MAX_REPAIR_EXECUTION_RECOVERIES)
    ensures ReviewRuns(labels) <= (1 + MAX_REVIEW_RECOVERIES) * (1 + MAX_REPAIRS)
  {
    hide Inv, Left, Run, CycleTried, JustGranted;
    GrantedBudget(s, k);
    WorkIsBounded(s, labels, t);
  }

  function Deaths(n: nat): seq<Label> {
    if n == 0 then [] else [ReviewDies] + Deaths(n - 1)
  }

  /** A worker that dies while it reviews leaves no trace: the counter only moves when the failure itself is recorded.
      So no bound covers deaths during review. */
  lemma {:induction false} ReviewDeathsAreFree(s: Sys, n: nat)
    requires s.worker == Idle && InPhase(s.db, REVIEW_EXECUTION)
    ensures |Deaths(n)| == n && Run(s, Deaths(n)) == Some(s)
  {
    if n > 0 {
      ReviewDeathsAreFree(s, n - 1);
      assert Deaths(n)[0] == ReviewDies && Deaths(n)[1..] == Deaths(n - 1);
      assert Next(s, ReviewDies) == Some(s);
    }
  }

  // ------------------------------------------------------------------ progress

  /** Something of the machine's own work is enabled. */
  ghost predicate CanWork(s: Sys) {
    exists l :: Working(l) && Next(s, l).Some?
  }

  /** An initial attempt that is neither running nor backed by a succeeded row is never picked up again. */
  ghost predicate LostForGood(db: Db) {
    && InPhase(db, EXECUTING) && Row(db) != Some(RowSucceeded)
    && exists a :: IsLatest(db.attempts, db.state.value.cycle, a) && a.InitialOf? && db.attempts[a].status != Running
  }

  lemma RecoveryWorks(s: Sys, a: AttemptId)
    requires s.worker == Idle && InPhase(s.db, EXECUTING) && IsLatest(s.db.attempts, s.db.state.value.cycle, a)
    requires RecoverFromRow(s.db).Some? || RecoverInitial(s.db, a, MAX_INITIAL_EXECUTION_RECOVERIES).Some?
    ensures CanWork(s)
  {
    hide RecoverFromRow, RecoverInitial, IsLatest;
    if RecoverFromRow(s.db).Some? {
      assert Next(s, RecoverSuccess).Some?;
    } else {
      assert Next(s, RecoverOrphan(a)).Some?;
    }
  }

  lemma RepairRecoveryWorks(s: Sys, a: AttemptId)
    requires s.worker == Idle && RepairOrphan(s.db, a)
    ensures CanWork(s)
  {
    assert RecoverRepair(s.db, a).Some?;
    hide RepairOrphan, RecoverRepair;
    assert Next(s, RecoverRepairOf(a)).Some?;
  }

  lemma RunningWorks(s: Sys)
    requires Inv(s) && s.worker == Idle && InPhase(s.db, EXECUTING) && !LostForGood(s.db)
    ensures CanWork(s)
  {
    hide PlanTablesOk, Records, ProgressOk, CanWork, RepairOrphan, Row;
    var a := LatestRunning(s.db);
    InitialKind(s.db, a);
    if a.InitialOf? {
      InitialRecovers(s.db, a);
      RecoveryWorks(s, a);
    } else {
      LostRepair(s.db, a);
      RepairRecoveryWorks(s, a);
    }
  }

  lemma InitialRecovers(db: Db, a: AttemptId)
    requires InPhase(db, EXECUTING) && IsLatest(db.attempts, db.state.value.cycle, a) && db.attempts[a].kind == INITIAL
    requires Row(db) == Some(RowSucceeded) || db.attempts[a].status == Running
    requires Records(db)
    ensures RecoverFromRow(db).Some? || RecoverInitial(db, a, MAX_INITIAL_EXECUTION_RECOVERIES).Some?
  {
    hide Records, Row, StillAuthorized, InitialMayResume, ExecutionTarget;
    if Row(db) == Some(RowSucceeded) {
      forall b | IsLatest(db.attempts, db.state.value.cycle, b) ensures b == a { LatestIsOne(db, a, b); }
    }
  }

  /** A lost repair attempt passes every check of its recovery. */
  lemma LostRepair(db: Db, a: AttemptId)
    requires InPhase(db, EXECUTING) && IsLatest(db.attempts, db.state.value.cycle, a) && a.RepairOf?
    requires Sound(db)
    ensures RepairOrphan(db, a)
  {
    hide PlanTablesOk, Records, ProgressOk;
    RunningLatest(db, a);
    RepairsParent(db, a);
    RowKind(db, a);
    RepairAuth(db, a);
    UsableParent(db, a.repair);
    UsableRuns(db, a.repair);
    CurrentLineage(db, a);
    ChainHolds(db, a.repair);
    RepairRowFits(db, a);
    ExecutingPlan(db);
    hide IsLatest, RepairedBy, ChainMatches;
  }

  lemma RepairRowFits(db: Db, a: AttemptId)
    requires db.state.Some? && a in db.attempts && a.RepairOf? && Records(db)
    ensures var t := db.attempts[a];
      && t.kind == REVIEW_REPAIR && t.parent == Some(a.repair.review) && a.repair in db.repairs
      && SameLineage(t, db.repairs[a.repair].cycle, db.repairs[a.repair].plan, db.repairs[a.repair].version, db.repairs[a.repair].root)
  {
    hide ParentsOk, NumbersOk, NewestOk, LineageOk, ReviewsOk, RepairsOk;
    assert RowOk(db.attempts[a], db.permits, db.repairs);
  }

  lemma UsableRuns(db: Db, i: RepairId)
    requires InPhase(db, EXECUTING) && Usable(db.repairs, i) && ProgressOk(db)
    ensures RepairOf(i) in db.attempts && db.attempts[RepairOf(i)].status == Running
  {
    hide SuccessOk, ShapeOk, Row;
  }

  lemma ExecutingPlan(db: Db)
    requires db.state.Some? && Active(db.state.value.phase) && PlanTablesOk(db)
    ensures db.state.value.plan in db.plans && Approved(db.plans[db.state.value.plan].status)
  {
    hide PermitsOk, LearnedOk;
  }

  /** The review, attempt and plan behind a usable repair permit still agree. */
  lemma ChainHolds(db: Db, i: RepairId)
    requires db.state.Some? && Usable(db.repairs, i)
    requires Sound(db)
    ensures ChainMatches(db, db.repairs[i]) && db.repairs[i].parent == i.review && db.repairs[i].round == i.round
    ensures db.repairs[i].root == db.state.value.root && db.repairs[i].version == db.plans[db.state.value.plan].version
  {
    hide PlanTablesOk, Records, ProgressOk;
    UsableParent(db, i);
    PermitRepeats(db, i);
    ExecutingPlan(db);
    CurrentLineage(db, db.reviews[i.review].attempt);
  }

  lemma PermitRepeats(db: Db, i: RepairId)
    requires db.state.Some? && i in db.repairs && Records(db)
    ensures var p := db.repairs[i];
      && p.parent == i.review && p.round == i.round && i.review in db.reviews
      && var v := db.reviews[i.review];
      && v.verdict == NEEDS_FIXES && v.cycle == p.cycle && v.plan == p.plan && v.version == p.version && v.root == p.root
      && v.attempt in db.attempts && db.attempts[v.attempt].round + 1 == i.round
      && var t := db.attempts[v.attempt];
      && t.status == Succeeded && t.cycle == p.cycle && t.plan == p.plan && t.version == p.version && t.root == p.root
  {
    hide RowsOk, ParentsOk, NumbersOk, NewestOk, LineageOk;
  }

  lemma ExecutingOnly(s: Sys, l: Label)
    requires s.worker == Idle && InPhase(s.db, EXECUTING) && Working(l)
    requires !l.RecoverSuccess? && !l.RecoverOrphan? && !l.RecoverRepairOf?
    ensures Next(s, l) == None
  {
    if l.MakeRepair? {
      assert forall a, r :: !Repairable(s.db, a, r);
    }
    hide ChainMatches, IsLatest;
  }

  lemma LostStays(s: Sys, l: Label)
    requires Inv(s) && s.worker == Idle && LostForGood(s.db) && Working(l)
    ensures Next(s, l) == None
  {
    hide PlanTablesOk, Records, ProgressOk, Row;
    var a :| IsLatest(s.db.attempts, s.db.state.value.cycle, a) && a.InitialOf? && s.db.attempts[a].status != Running;
    if l.RecoverRepairOf? {
      NotARepair(s.db, a, l.attempt);
      hide RepairOrphan;
    } else if l.RecoverOrphan? {
      hide RecoverFromRow, ExecutionTarget, InitialMayResume;
      if IsLatest(s.db.attempts, s.db.state.value.cycle, l.attempt) { LatestIsOne(s.db, a, l.attempt); }
    } else if l.RecoverSuccess? {
    } else {
      hide Next;
      ExecutingOnly(s, l);
    }
  }

  lemma NotARepair(db: Db, a: AttemptId, b: AttemptId)
    requires db.state.Some? && IsLatest(db.attempts, db.state.value.cycle, a) && a.InitialOf?
    requires Records(db)
    ensures !RepairOrphan(db, b)
  {
    hide Records, ChainMatches;
    if IsLatest(db.attempts, db.state.value.cycle, b) {
      LatestIsOne(db, a, b);
      RepairAuth(db, a);
    }
  }

  // ------------------------------------------------------------------ review never stands still

  /** A review id no row uses yet. */
  lemma FreshReview(reviews: Reviews) returns (id: ReviewId)
    ensures id !in reviews
  {
    id := Above(reviews.Keys);
  }

  lemma Above(ids: set<nat>) returns (top: nat)
    ensures forall i :: i in ids ==> i < top
    decreases ids
  {
    if ids == {} { return 0; }
    var i :| i in ids;
    var rest := Above(ids - {i});
    top := if i < rest then rest else i + 1;
    assert forall j :: j in ids ==> j == i || j in ids - {i};
  }

  lemma JudgeWorks(s: Sys, a: AttemptId)
    requires s.worker == Idle && InPhase(s.db, REVIEW_EXECUTION) && s.db.state.value.plan in s.db.plans
    requires IsLatest(s.db.attempts, s.db.state.value.cycle, a) && !Reviewed(s.db.reviews, a)
    requires Records(s.db)
    ensures CanWork(s)
  {
    hide Records, Reviewed;
    var id := FreshReview(s.db.reviews);
    forall b | IsLatest(s.db.attempts, s.db.state.value.cycle, b) ensures b == a { LatestIsOne(s.db, a, b); }
    hide IsLatest;
    assert JudgeLatest(s.db, id, ACCEPT).Some?;
    hide JudgeLatest;
    assert Next(s, Judge(id, ACCEPT)).Some?;
  }

  /** The verdict on the latest attempt is always usable. */
  lemma VerdictFits(db: Db, a: AttemptId, r: ReviewId)
    requires InPhase(db, REVIEW_EXECUTION) && IsLatest(db.attempts, db.state.value.cycle, a) && IsReviewOf(db.reviews, a, r)
    requires Sound(db)
    ensures db.reviews[r].verdict == NEEDS_FIXES ==> Repairable(db, a, r)
    ensures ReviewCurrent(db, r)
  {
    hide PlanTablesOk, Records, ProgressOk;
    ReviewLatest(db, a);
    CurrentLineage(db, a);
    ReviewRepeats(db, a, r);
    ExecutingPlan(db);
    hide IsLatest;
  }

  lemma VerdictWorks(s: Sys, a: AttemptId, r: ReviewId)
    requires s.worker == Idle && InPhase(s.db, REVIEW_EXECUTION)
    requires IsReviewOf(s.db.reviews, a, r) && ReviewCurrent(s.db, r)
    requires s.db.reviews[r].verdict == NEEDS_FIXES ==> Repairable(s.db, a, r)
    ensures CanWork(s)
  {
    hide ReviewCurrent, Repairable, InvalidateRepairs;
    match s.db.reviews[r].verdict
    case ACCEPT => assert AcceptReview(s.db, r).Some?; assert Next(s, Accept(r)).Some?;
    case BLOCKED => assert BlockReview(s.db, r).Some?; assert Next(s, Block(r)).Some?;
    case NEEDS_FIXES => MakeWorks(s, a, r);
  }

  lemma MakeWorks(s: Sys, a: AttemptId, r: ReviewId)
    requires s.worker == Idle && s.db.state.Some? && Repairable(s.db, a, r)
    ensures CanWork(s)
  {
    hide Repairable, CreateRepairFor;
    assert CreateRepair(s.db, MAX_REPAIRS).Some?;
    hide CreateRepair;
    assert Next(s, MakeRepair).Some?;
  }

  lemma ReviewWorks(s: Sys)
    requires Inv(s) && s.worker == Idle && InPhase(s.db, REVIEW_EXECUTION)
    ensures CanWork(s)
  {
    hide PlanTablesOk, Records, ProgressOk, CanWork, ReviewCurrent, Repairable;
    var a := LatestInReview(s.db);
    ReviewLatest(s.db, a);
    CurrentLineage(s.db, a);
    hide IsLatest;
    if r :| r in s.db.reviews && s.db.reviews[r].attempt == a {
      VerdictFits(s.db, a, r);
      VerdictWorks(s, a, r);
    } else {
      JudgeWorks(s, a);
    }
  }

  // ------------------------------------------------------------------ repairs wait only on a clash

  /** The pending scan of the next bind. */
  function Scan(db: Db, root: EventKey): Sweep {
    SweepPending(Pending(db.events, db.inputs, root), db.execs, db.inputs)
  }

  /** The usable permit passes every check of its bind. */
  lemma ReadyBindable(db: Db, i: RepairId)
    requires InPhase(db, REPAIR_READY) && Usable(db.repairs, i)
    requires Sound(db)
    ensures RepairBindable(db, i)
  {
    hide PlanTablesOk, Records, ProgressOk;
    UsableParent(db, i);
    ChainHolds(db, i);
    ReadyRow(db, i);
    if RepairOf(i) in db.attempts {
      RepairRowFits(db, RepairOf(i));
      RowKind(db, RepairOf(i));
      RepairsParent(db, RepairOf(i));
    }
    hide IsLatest, ChainMatches;
  }

  lemma ReadyRow(db: Db, i: RepairId)
    requires InPhase(db, REPAIR_READY) && Usable(db.repairs, i) && ProgressOk(db)
    ensures RepairOf(i) in db.attempts ==> db.attempts[RepairOf(i)].status == Failed
  {
    hide SuccessOk, ShapeOk, Row;
  }

  lemma RepairReadyWorks(s: Sys)
    requires Inv(s) && s.worker == Idle && InPhase(s.db, REPAIR_READY)
    ensures CanWork(s) <==> !Scan(s.db, s.db.state.value.root).Clash?
  {
    hide PlanTablesOk, Records, ProgressOk, SweepPending, Pending, CanWork;
    var i := ReadyUsableOf(s.db);
    ReadyBindable(s.db, i);
    BindDecides(s.db, i);
    ChainHolds(s.db, i);
    if BindRepair(s.db, i).Some? {
      RepairBindWorks(s, i);
    } else {
      forall l | Working(l) ensures Next(s, l) == None {
        if l.StartRepair? {
          if Usable(s.db.repairs, l.repair) { OnlyUsable(s.db, i); }
          UnusableRefused(s.db, l.repair);
        }
        RepairReadyOnly(s, l);
      }
      NoWork(s);
    }
  }

  lemma NoWork(s: Sys)
    requires forall l :: Working(l) ==> Next(s, l) == None
    ensures !CanWork(s)
  {
    hide Next;
  }

  lemma UnusableRefused(db: Db, i: RepairId)
    ensures !Usable(db.repairs, i) ==> BindRepair(db, i) == None
  {
    hide ChainMatches;
  }

  lemma BindDecides(db: Db, i: RepairId)
    requires RepairBindable(db, i)
    ensures BindRepair(db, i).Some? <==> !Scan(db, db.repairs[i].root).Clash?
  {
    hide RepairBindable, SweepPending, Pending;
  }

  lemma RepairBindWorks(s: Sys, i: RepairId)
    requires s.worker == Idle && BindRepair(s.db, i).Some?
    ensures CanWork(s)
  {
    hide BindRepair;
    assert Next(s, StartRepair(i)).Some?;
  }

  lemma RepairReadyOnly(s: Sys, l: Label)
    requires s.worker == Idle && InPhase(s.db, REPAIR_READY) && Working(l)
    requires l.StartRepair? ==> BindRepair(s.db, l.repair) == None
    ensures Next(s, l) == None
  {
    hide BindRepair;
    if l.MakeRepair? {
      assert forall a, r :: !Repairable(s.db, a, r);
    }
    hide ChainMatches, IsLatest;
  }

  // ------------------------------------------------------------------ a granted permit waits on its bind

  lemma ReadyOnly(s: Sys, l: Label)
    requires s.worker == Idle && InPhase(s.db, EXECUTION_READY) && Working(l)
    requires l.Bind? ==> BindAuthorized(s.db, l.permit) == None
    ensures Next(s, l) == None
  {
    hide BindAuthorized;
    if l.MakeRepair? {
      assert forall a, r :: !Repairable(s.db, a, r);
    }
    hide ChainMatches, IsLatest;
  }

  /** The row guards of the bind, after a scan that found nothing waiting. */
  ghost predicate Claimable(db: Db, k: PermitId)
    requires db.state.Some? && k in db.permits
  {
    var st, scan := db.state.value, Scan(db, db.state.value.root);
    && KnownEvent(db, st.root) && scan.Swept?
    && RowClaimable(db.(execs := scan.execs, inputs := scan.inputs), db.permits[k], Effective(st.input, st.root))
  }

  lemma ReadyWorks(s: Sys, k: PermitId)
    requires Inv(s) && s.worker == Idle && InPhase(s.db, EXECUTION_READY)
    requires LivePermitIn(s.db.permits, s.db.state.value.cycle, k)
    ensures CanWork(s) <==> Claimable(s.db, k)
  {
    hide PlanTablesOk, Records, ProgressOk, CanWork, Claimable;
    PermitDecides(s.db, k);
    OneLive(s.db, k);
    if BindAuthorized(s.db, k).Some? {
      BindWorks(s, k);
    } else {
      forall l | Working(l) ensures Next(s, l) == None {
        if l.Bind? && l.permit != k { OtherPermitRefused(s.db, k, l.permit); }
        hide BindAuthorized, Next;
        ReadyOnly(s, l);
      }
      NoWork(s);
    }
  }

  lemma BindWorks(s: Sys, k: PermitId)
    requires s.worker == Idle && BindAuthorized(s.db, k).Some?
    ensures CanWork(s)
  {
    hide BindAuthorized;
    assert Next(s, Label.Bind(k)).Some?;
  }

  lemma OtherPermitRefused(db: Db, k: PermitId, j: PermitId)
    requires db.state.Some? && j != k && forall i :: LivePermitIn(db.permits, db.state.value.cycle, i) ==> i == k
    ensures BindAuthorized(db, j) == None
  {
    assert !LivePermitIn(db.permits, db.state.value.cycle, j);
  }

  lemma PermitDecides(db: Db, k: PermitId)
    requires InPhase(db, EXECUTION_READY) && LivePermitIn(db.permits, db.state.value.cycle, k)
    requires Sound(db)
    ensures BindAuthorized(db, k).Some? <==> Claimable(db, k)
  {
    hide PlanTablesOk, Records, ProgressOk, SweepPending, Pending, OrderingHolds, KnownEvent;
    LivePermitPlan(db, k);
    ExecutingPlan(db);
    CurrentInput(db);
  }

  lemma CurrentInput(db: Db)
    requires db.state.Some? && PlanTablesOk(db)
    ensures db.state.value.plan in db.plans
    ensures var st, p := db.state.value, db.plans[db.state.value.plan]; p.input == st.input && p.root == st.root && p.cycle == st.cycle
  {
    hide PermitsOk, PhaseOk, LearnedOk;
  }

  // ------------------------------------------------------------------ the whole picture

  /** Where the machine stands still although the version is neither accepted, blocked nor failed. */
  ghost predicate Stuck(db: Db) {
    || LostForGood(db)
    || (InPhase(db, EXECUTION_READY) && forall k :: LivePermitIn(db.permits, db.state.value.cycle, k) ==> !Claimable(db, k))
  }

  /** With the worker gone, an unfinished version of any run can go on exactly when it is not stuck. */
  lemma ProgressUnlessStuck(s: Sys)
    requires Inv(s) && Referenced(s.db) && s.worker == Idle && s.db.state.Some?
    requires s.db.state.value.phase in {EXECUTION_READY, EXECUTING, REVIEW_EXECUTION, REPAIR_READY}
    ensures CanWork(s) <==> !Stuck(s.db)
  {
    hide Inv, CanWork, Stuck, Referenced, SweepPending, Pending;
    Progress(s);
    if InPhase(s.db, REPAIR_READY) { RepairScanPasses(s.db, s.db.state.value.root); }
  }

  /** The same where a control input may have run code: before a repair the scan can refuse it. */
  lemma Progress(s: Sys)
    requires Inv(s) && s.worker == Idle && s.db.state.Some?
    requires s.db.state.value.phase in {EXECUTION_READY, EXECUTING, REVIEW_EXECUTION, REPAIR_READY}
    ensures CanWork(s) <==> !(Stuck(s.db) || (InPhase(s.db, REPAIR_READY) && Scan(s.db, s.db.state.value.root).Clash?))
  {
    hide Inv, CanWork, Claimable, LostForGood, Scan;
    if InPhase(s.db, EXECUTION_READY) {
      var k := ReadyPermit(s);
      ReadyWorks(s, k);
      assert LostForGood(s.db) ==> InPhase(s.db, EXECUTING) by { LostExecutes(s.db); }
    } else if InPhase(s.db, EXECUTING) {
      if LostForGood(s.db) {
        forall l | Working(l) ensures Next(s, l) == None { hide Next; LostStays(s, l); }
        NoWork(s);
      } else {
        RunningWorks(s);
      }
    } else if InPhase(s.db, REVIEW_EXECUTION) {
      ReviewWorks(s);
      LostExecutes(s.db);
    } else {
      RepairReadyWorks(s);
      LostExecutes(s.db);
    }
  }

  lemma LostExecutes(db: Db)
    ensures LostForGood(db) ==> InPhase(db, EXECUTING)
  {
  }

  lemma ReadyPermit(s: Sys) returns (k: PermitId)
    requires Inv(s) && InPhase(s.db, EXECUTION_READY)
    ensures LivePermitIn(s.db.permits, s.db.state.value.cycle, k)
    ensures forall j :: LivePermitIn(s.db.permits, s.db.state.value.cycle, j) ==> j == k
  {
    hide PlanTablesOk, Records, ProgressOk;
    k := GrantedPermit(s.db);
    OneLive(s.db, k);
  }

  lemma GrantedPermit(db: Db) returns (k: PermitId)
    requires InPhase(db, EXECUTION_READY) && PlanTablesOk(db)
    ensures LivePermitIn(db.permits, db.state.value.cycle, k)
  {
    hide PlansOk, PermitsOk, LearnedOk;
    k :| LivePermitIn(db.permits, db.state.value.cycle, k);
  }

  // ------------------------------------------------------------------ where a version ends

  /** The phases of a version between its approval and its outcome. */
  predicate InPlay(db: Db) {
    db.state.Some? &&
    db.state.value.phase in {EXECUTION_READY, EXECUTING, REVIEW_EXECUTION, REPAIR_READY, AWAITING_PUBLICATION, REVIEW_BLOCKED, EXECUTION_FAILED}
  }

  /** The version has its outcome: accepted, blocked or failed. */
  predicate Decided(db: Db) {
    InPhase(db, AWAITING_PUBLICATION) || InPhase(db, REVIEW_BLOCKED) || InPhase(db, EXECUTION_FAILED)
  }

  lemma StaysInPlay(s: Sys, l: Label, t: Sys)
    requires Inv(s) && InPlay(s.db) && Working(l) && Next(s, l) == Some(t)
    ensures InPlay(t.db)
  {
    hide Inv, Next, Moves, Working;
    PhaseMoves(s, l, t);
    MovesInPlay(l, s.db.state.value.phase, t.db.state.value.phase);
  }

  /** From a phase in play a working step leads to a phase in play. */
  lemma MovesInPlay(l: Label, from: Phase, to: Phase)
    requires Working(l) && Moves(l, from, to)
    requires from in {EXECUTION_READY, EXECUTING, REVIEW_EXECUTION, REPAIR_READY, AWAITING_PUBLICATION, REVIEW_BLOCKED, EXECUTION_FAILED}
    ensures to in {EXECUTION_READY, EXECUTING, REVIEW_EXECUTION, REPAIR_READY, AWAITING_PUBLICATION, REVIEW_BLOCKED, EXECUTION_FAILED}
  {
  }

  lemma {:induction false} RunStaysInPlay(s: Sys, labels: seq<Label>, t: Sys)
    requires Inv(s) && InPlay(s.db) && AllWorking(labels) && Run(s, labels) == Some(t)
    ensures Inv(t) && InPlay(t.db)
    decreases |labels|
  {
    hide Inv, Next, InPlay;
    if labels != [] {
      var m := Next(s, labels[0]).value;
      Keep(s, labels[0], m);
      StaysInPlay(s, labels[0], m);
      assert AllWorking(labels[1..]);
      RunStaysInPlay(m, labels[1..], t);
    }
  }

  /** A worker that is still at it can at least die. */
  lemma IdleAtLast(s: Sys)
    requires !CanWork(s)
    ensures s.worker == Idle
  {
    assert Working(Die) && (s.worker != Idle ==> Next(s, Die) == Some(Sys(s.db, Idle)));
  }

  /** Once a version is decided, nothing more is done about it. */
  lemma DecidedRests(s: Sys, l: Label)
    requires s.worker == Idle && Decided(s.db) && Working(l)
    ensures Next(s, l) == None
  {
    if l.Judge? || l.ReviewFails? || l.Accept? || l.Block? { ReviewRests(s, l); }
    else if l.MakeRepair? || l.StartRepair? || l.RecoverRepairOf? { RepairRests(s, l); }
    else { ExecutionRests(s, l); }
  }

  lemma ReviewRests(s: Sys, l: Label)
    requires s.worker == Idle && Decided(s.db) && (l.Judge? || l.ReviewFails? || l.Accept? || l.Block?)
    ensures Next(s, l) == None
  {
  }

  lemma RepairRests(s: Sys, l: Label)
    requires s.worker == Idle && Decided(s.db) && (l.MakeRepair? || l.StartRepair? || l.RecoverRepairOf?)
    ensures Next(s, l) == None
  {
  }

  lemma ExecutionRests(s: Sys, l: Label)
    requires s.worker == Idle && Decided(s.db) && Working(l)
    requires !(l.Judge? || l.ReviewFails? || l.Accept? || l.Block? || l.MakeRepair? || l.StartRepair? || l.RecoverRepairOf?)
    ensures Next(s, l) == None
  {
    hide IsLatest, InitialMayResume;
  }

  /** Where a freshly approved version ends: a run of its working steps can go no further exactly when the worker is gone
      and the version is accepted, blocked or failed, or stands in one of the standstills. */
  lemma OneVersionOutcome(s: Sys, k: PermitId, labels: seq<Label>, t: Sys)
    requires Inv(s) && Referenced(s.db) && JustGranted(s.db, k)
    requires AllWorking(labels) && Run(s, labels) == Some(t)
    ensures |labels| <= 126
    ensures !CanWork(t) <==> t.worker == Idle && (Decided(t.db) || Stuck(t.db))
  {
    OneVersionEnds(s, k, labels, t);
    assert InPlay(s.db);
    hide Inv, Next, Run, CanWork, Stuck, Referenced;
    RunStaysInPlay(s, labels, t);
    RunReferenced(s, labels, t);
    if !CanWork(t) { IdleAtLast(t); }
    if t.worker == Idle {
      if Decided(t.db) { DecidedCannot(t); } else { ProgressUnlessStuck(t); }
    }
  }

  lemma DecidedCannot(s: Sys)
    requires s.worker == Idle && Decided(s.db)
    ensures !CanWork(s)
  {
    hide Next;
    forall l | Working(l) ensures Next(s, l) == None { DecidedRests(s, l); }
  }
}
