/** What the invariant says about permits, repair chains and publication over whole runs. */
module WorkflowTheorems {
  import opened Prelude
  import opened WorkflowModel
  import opened WorkflowRun
  import opened WorkflowInvariant
  import opened WorkflowPlanning
  import opened WorkflowExecution
  import opened WorkflowReview
  import opened WorkflowRepair
  import opened WorkflowSafety

  lemma Reachable(s: Sys, labels: seq<Label>, t: Sys)
    requires Initial(s) && Run(s, labels) == Some(t) && t.db.state.Some?
    ensures Sound(t.db) && Inv(t)
  {
    hide Next, Sound, Run;
    RunKeeps(s, labels, t);
    SoundTables(t);
  }

  // ------------------------------------------------------------------ plans and permits

  /** Exactly one plan of the cycle is not SUPERSEDED, and it is `p`. */
  ghost predicate OnlyLivePlan(plans: Plans, cycle: nat, p: PlanId) {
    LivePlanIn(plans, cycle, p) && forall q :: LivePlanIn(plans, cycle, q) ==> q == p
  }

  /** Exactly one permit of the cycle is live: it names the one live plan at its exact version. */
  ghost predicate OnlyLivePermit(db: Db, cycle: nat, k: PermitId) {
    && LivePermitIn(db.permits, cycle, k)
    && (forall j :: LivePermitIn(db.permits, cycle, j) ==> j == k)
    && OnlyLivePlan(db.plans, cycle, db.permits[k].plan)
    && db.permits[k].version == db.plans[db.permits[k].plan].version
  }

  lemma OneLivePlan(db: Db, p: PlanId)
    requires Sound(db) && p in db.plans
    ensures exists q :: OnlyLivePlan(db.plans, db.plans[p].cycle, q)
  {
    hide PermitsOk, PhaseOk, LearnedOk, Records, ProgressOk;
    var c := db.plans[p].cycle;
    assert HasLivePlan(db.plans, c);
    var q :| LivePlanIn(db.plans, c, q);
    assert OnlyLivePlan(db.plans, c, q);
  }

  lemma LivePermitExact(db: Db, cycle: nat, k: PermitId)
    requires Sound(db) && LivePermitIn(db.permits, cycle, k)
    ensures OnlyLivePermit(db, cycle, k)
  {
    hide PhaseOk, LearnedOk, Records, ProgressOk;
    assert PermitFits(db.permits[k], db.plans);
    assert LivePlanIn(db.plans, cycle, db.permits[k].plan);
  }

  /** In every reachable state each cycle has exactly one live plan, the current one in the current cycle; a live
      permit is alone in its cycle and names that plan at its exact version; it is unconsumed in EXECUTION_READY. */
  lemma LivePermits(s: Sys, labels: seq<Label>, t: Sys)
    requires Initial(s) && Run(s, labels) == Some(t) && t.db.state.Some?
    ensures forall p :: p in t.db.plans ==> exists q :: OnlyLivePlan(t.db.plans, t.db.plans[p].cycle, q)
    ensures OnlyLivePlan(t.db.plans, t.db.state.value.cycle, t.db.state.value.plan)
    ensures forall c, k :: LivePermitIn(t.db.permits, c, k) ==> OnlyLivePermit(t.db, c, k)
    ensures t.db.state.value.phase in {PLANNING, WAITING_FOR_PLAN_APPROVAL} ==> NoLivePermit(t.db.permits, t.db.state.value.cycle)
    ensures InPhase(t.db, EXECUTION_READY) ==>
      exists k :: OnlyLivePermit(t.db, t.db.state.value.cycle, k) && !t.db.permits[k].consumed
  {
    hide Next, Run, Sound, OnlyLivePlan, OnlyLivePermit;
    Reachable(s, labels, t);
    forall p | p in t.db.plans ensures exists q :: OnlyLivePlan(t.db.plans, t.db.plans[p].cycle, q) { OneLivePlan(t.db, p); }
    forall c, k | LivePermitIn(t.db.permits, c, k) ensures OnlyLivePermit(t.db, c, k) { LivePermitExact(t.db, c, k); }
    CurrentIsLive(t.db);
    if InPhase(t.db, EXECUTION_READY) {
      var k :| LivePermitIn(t.db.permits, t.db.state.value.cycle, k) && !t.db.permits[k].consumed;
    }
  }

  lemma CurrentIsLive(db: Db)
    requires Sound(db)
    ensures OnlyLivePlan(db.plans, db.state.value.cycle, db.state.value.plan)
    ensures db.state.value.phase in {PLANNING, WAITING_FOR_PLAN_APPROVAL} ==> NoLivePermit(db.permits, db.state.value.cycle)
    ensures InPhase(db, EXECUTION_READY) ==>
      exists k :: LivePermitIn(db.permits, db.state.value.cycle, k) && !db.permits[k].consumed
  {
    hide PermitsOk, LearnedOk, Records, ProgressOk;
  }

  // ------------------------------------------------------------------ superseded versions

  ghost predicate Superseded(db: Db, p: PlanId) {
    p in db.plans && db.plans[p].status == SUPERSEDED
  }

  /** Plan rows only ever change where the current plan does. */
  ghost predicate OnlyCurrentPlanMoves(db: Db, d: Db) {
    forall p :: p in db.plans && db.state.Some? && p != db.state.value.plan ==> p in d.plans && d.plans[p] == db.plans[p]
  }

  lemma PlanStep(s: Sys, l: Label, t: Sys)
    requires Next(s, l) == Some(t)
    requires l.Begin? || l.Post? || l.EndRevision? || l.Revise?
    ensures OnlyCurrentPlanMoves(s.db, t.db) && t.db.learned == s.db.learned
  {
    hide FirstPlanFits, InvalidateUnconsumed;
  }

  lemma GrantStep(s: Sys, l: Label, t: Sys)
    requires Next(s, l) == Some(t)
    requires l.Approve? || l.Authorize?
    ensures OnlyCurrentPlanMoves(s.db, t.db) && t.db.learned == s.db.learned
  {
  }

  lemma FinalStep(s: Sys, l: Label, t: Sys)
    requires Next(s, l) == Some(t) && l.FinalizePub?
    ensures OnlyCurrentPlanMoves(s.db, t.db)
  {
    hide PublicationTarget;
  }

  lemma EnsurePlans(db: Db, k: PermitId, d: Db)
    requires EnsureAttempt(db, k) == Some(d)
    ensures d.plans == db.plans && d.learned == db.learned
  {
    hide Ensured;
  }

  lemma ClosePlans(db: Db, k: ExecKey, status: ExecStatus, d: Db)
    requires CloseRow(db, k, status) == Some(d)
    ensures d.plans == db.plans && d.learned == db.learned
  {
  }

  lemma ExecutionStep(s: Sys, l: Label, t: Sys)
    requires Next(s, l) == Some(t)
    requires l.Ensure? || l.CloseExecution? || l.Die? || l.Arrive? || l.Ask?
    ensures t.db.plans == s.db.plans && t.db.learned == s.db.learned
  {
    hide EnsureAttempt, CloseRow, RowKey, KnownEvent;
    if l.Ensure? { EnsurePlans(s.db, s.worker.permit, t.db); }
    if l.CloseExecution? { ClosePlans(s.db, RowKey(s.db.state.value), if l.ok then RowSucceeded else RowFailed, t.db); }
  }

  lemma AttemptStep(s: Sys, l: Label, t: Sys)
    requires Next(s, l) == Some(t)
    requires l.CloseAttempt? || l.SaveOutcome? || l.AskAttempt? || l.AskSaved?
    ensures t.db.plans == s.db.plans && t.db.learned == s.db.learned
  {
  }

  lemma BindPlans(db: Db, k: PermitId, d: Db)
    requires BindAuthorized(db, k) == Some(d)
    ensures d.plans == db.plans && d.learned == db.learned
  {
    hide SweepPending, Pending, RowClaimable, InsertInitial;
  }

  lemma BindStep(s: Sys, l: Label, t: Sys)
    requires Next(s, l) == Some(t)
    requires l.Bind? || l.StartRepair? || l.StartRevision?
    ensures t.db.plans == s.db.plans && t.db.learned == s.db.learned
  {
    hide BindAuthorized, BindRepair, BeginRevision, InvalidateUnconsumed;
    if l.Bind? { BindPlans(s.db, l.permit, t.db); }
    if l.StartRepair? { BindCases(s.db, l.repair, t.db); }
    if l.StartRevision? { RevisionStarts(s.db, l.key, t.db); }
  }

  lemma AnswerStep(s: Sys, l: Label, t: Sys)
    requires Next(s, l) == Some(t)
    requires l.AskRow? || l.Answer? || l.Cancel?
    ensures t.db.plans == s.db.plans && t.db.learned == s.db.learned
  {
    hide InvalidateAll, ExecutionTarget, RowStatus;
  }

  lemma RecoveredPlans(db: Db, d: Db)
    requires RecoverFromRow(db) == Some(d)
    ensures d.plans == db.plans && d.learned == db.learned
  {
    hide RecoverFromRow, FinishAttempt, Row, IsLatest;
    var a := RecoveredIs(db, d);
    FinishPlans(db, a, Succeeded);
  }

  lemma FinishPlans(db: Db, a: AttemptId, status: AttemptStatus)
    ensures FinishAttempt(db, a, status).plans == db.plans && FinishAttempt(db, a, status).learned == db.learned
  {
  }

  lemma OrphanPlans(db: Db, a: AttemptId, max: nat, d: Db, outcome: Outcome)
    requires RecoverInitial(db, a, max) == Some((d, outcome))
    ensures d.plans == db.plans && d.learned == db.learned
  {
    hide InitialMayResume, ExecutionTarget;
  }

  lemma RepairOrphanPlans(db: Db, a: AttemptId, d: Db)
    requires RecoverRepair(db, a) == Some(d)
    ensures d.plans == db.plans && d.learned == db.learned
  {
    hide ChainMatches;
  }

  lemma RecoveryStep(s: Sys, l: Label, t: Sys)
    requires Next(s, l) == Some(t)
    requires l.RecoverSuccess? || l.RecoverOrphan? || l.RecoverRepairOf?
    ensures t.db.plans == s.db.plans && t.db.learned == s.db.learned
  {
    hide RecoverRepair, RecoverInitial, RecoverFromRow;
    if l.RecoverSuccess? { RecoveredPlans(s.db, t.db); }
    if l.RecoverOrphan? {
      OrphanPlans(s.db, l.attempt, MAX_INITIAL_EXECUTION_RECOVERIES, t.db,
                  RecoverInitial(s.db, l.attempt, MAX_INITIAL_EXECUTION_RECOVERIES).value.1);
    }
    if l.RecoverRepairOf? { RepairOrphanPlans(s.db, l.attempt, t.db); }
  }

  lemma ReviewStep(s: Sys, l: Label, t: Sys)
    requires Next(s, l) == Some(t)
    requires l.Judge? || l.ReviewDies? || l.ReviewFails? || l.Accept? || l.Block?
    ensures t.db.plans == s.db.plans && t.db.learned == s.db.learned
  {
    hide ReviewCurrent, InvalidateRepairs, Reviewed, JudgeLatest, FailReview;
    if l.Judge? { var a := JudgedIs(s.db, l.review, l.verdict, t.db); }
    if l.ReviewFails? { var a := FailedReview(s.db, t.db); }
  }

  lemma RepairStep(s: Sys, l: Label, t: Sys)
    requires Next(s, l) == Some(t)
    requires l.MakeRepair? || l.EndRepair? || l.AbortRepair?
    ensures t.db.plans == s.db.plans && t.db.learned == s.db.learned
  {
    hide CreateRepair, InvalidateIfUnconsumed;
    if l.MakeRepair? { MadePlans(s.db, t.db); }
  }

  lemma MadePlans(db: Db, d: Db)
    requires CreateRepair(db, MAX_REPAIRS) == Some(d)
    ensures d.plans == db.plans && d.learned == db.learned
  {
    hide CreateRepair, RoundTaken, InvalidateThreadRepairs;
    var a, r := MadeRepair(db, d);
  }

  lemma PublicationStep(s: Sys, l: Label, t: Sys)
    requires Next(s, l) == Some(t) && (l.EnsurePub? || l.AdvancePub?)
    ensures t.db.plans == s.db.plans && t.db.learned == s.db.learned
  {
    hide PublicationTarget;
  }

  /** Whatever the step, only the current plan row may change; and only finalizing learns. */
  lemma LearnsNothing(s: Sys, l: Label, t: Sys)
    requires Next(s, l) == Some(t) && !l.FinalizePub?
    ensures OnlyCurrentPlanMoves(s.db, t.db) && t.db.learned == s.db.learned
  {
    if l.Begin? || l.Post? || l.EndRevision? || l.Revise? { PlanStep(s, l, t); }
    else if l.Approve? || l.Authorize? { GrantStep(s, l, t); }
    else { OtherStep(s, l, t); }
  }

  lemma OtherStep(s: Sys, l: Label, t: Sys)
    requires Next(s, l) == Some(t) && !l.FinalizePub?
    requires !(l.Begin? || l.Post? || l.EndRevision? || l.Revise? || l.Approve? || l.Authorize?)
    ensures t.db.plans == s.db.plans && t.db.learned == s.db.learned
  {
    hide Next;
    if l.Bind? || l.StartRepair? || l.StartRevision? { BindStep(s, l, t); }
    else if l.AskRow? || l.Answer? || l.Cancel? { AnswerStep(s, l, t); }
    else if l.RecoverSuccess? || l.RecoverOrphan? || l.RecoverRepairOf? { RecoveryStep(s, l, t); }
    else if l.Judge? || l.ReviewDies? || l.ReviewFails? || l.Accept? || l.Block? { ReviewStep(s, l, t); }
    else if l.MakeRepair? || l.EndRepair? || l.AbortRepair? { RepairStep(s, l, t); }
    else if l.EnsurePub? || l.AdvancePub? { PublicationStep(s, l, t); }
    else if l.CloseAttempt? || l.SaveOutcome? || l.AskAttempt? || l.AskSaved? { AttemptStep(s, l, t); }
    else { ExecutionStep(s, l, t); }
  }

  /** A superseded version stays superseded. */
  lemma SupersededStays(s: Sys, l: Label, t: Sys, p: PlanId)
    requires Inv(s) && Next(s, l) == Some(t) && Superseded(s.db, p)
    ensures Superseded(t.db, p)
  {
    hide Next, Sound;
    NotCurrent(s, p);
    if l.FinalizePub? { FinalStep(s, l, t); } else { LearnsNothing(s, l, t); }
  }

  lemma NotCurrent(s: Sys, p: PlanId)
    requires Inv(s) && Superseded(s.db, p)
    ensures s.db.state.Some? && p != s.db.state.value.plan
  {
    hide PermitsOk, PhaseOk, LearnedOk, Records, ProgressOk;
  }

  /** Once a version is superseded, no later state of any run ever binds a permit that names it. */
  lemma {:induction false} SupersededNeverRuns(s: Sys, labels: seq<Label>, t: Sys, p: PlanId, k: PermitId)
    requires Inv(s) && Superseded(s.db, p) && Run(s, labels) == Some(t)
    ensures k in t.db.permits && t.db.permits[k].plan == p ==> BindAuthorized(t.db, k) == None
    decreases |labels|
  {
    hide Inv, Next;
    if labels != [] {
      var m := Next(s, labels[0]).value;
      Keep(s, labels[0], m);
      SupersededStays(s, labels[0], m, p);
      SupersededNeverRuns(m, labels[1..], t, p, k);
    }
  }
}
