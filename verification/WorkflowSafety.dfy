/** The invariant over whole runs, and what it says about permits, repairs and publication. */
module WorkflowSafety {
  import opened Prelude
  import opened WorkflowModel
  import opened WorkflowRun
  import opened WorkflowInvariant
  import opened WorkflowTables
  import opened WorkflowPlanning
  import opened WorkflowExecution
  import opened WorkflowReview
  import opened WorkflowRepair

  /** Before the first cycle only events arrive and a cycle begins. */
  lemma KeepFresh(s: Sys, l: Label, t: Sys)
    requires Initial(s) && Next(s, l) == Some(t) && !l.Begin?
    ensures Inv(t)
  {
    hide Sound;
  }

  lemma KeepBeginning(s: Sys, l: Label, t: Sys)
    requires Inv(s) && Next(s, l) == Some(t) && l.Begin?
    ensures Inv(t)
  {
    hide Inv, Sound, FirstPlanFits, BeginCycle, Initial;
    if s.db.state.Some? {
      SoundTables(s);
      KeepBegin(s.db, l.planId, l.plan, l.st, t.db);
    } else {
      FreshIs(s);
      FirstCycle(s.db, l.planId, l.plan, l.st, t.db);
    }
    Unattended(t.db);
  }

  lemma FreshIs(s: Sys)
    requires Inv(s) && s.db.state.None?
    ensures Initial(Sys(s.db, Idle))
  {
    hide Sound;
  }

  lemma KeepPlanning(s: Sys, l: Label, t: Sys)
    requires Inv(s) && s.db.state.Some? && Next(s, l) == Some(t)
    requires l.Post? || l.Approve? || l.Authorize? || l.StartRevision? || l.EndRevision? || l.Revise? || l.Cancel?
    ensures Inv(t)
  {
    hide Inv, Sound, FirstPlanFits, NextPlanFits, GrantFits, ClarificationCurrent;
    hide MarkPosted, ApprovePlan, AuthorizePlan, BeginRevision, FinishRevision, RevisePlan, CancelClarification;
    SoundTables(s);
    match l
    case Post(p) => KeepPost(s.db, p, t.db); Unattended(t.db);
    case Approve(e, k, grant) => KeepApprove(s.db, e, k, grant, t.db); Unattended(t.db);
    case Authorize(k, grant) => KeepAuthorize(s.db, k, grant, t.db); Unattended(t.db);
    case StartRevision(e) => KeepStartRevision(s.db, e, t.db); Unattended(t.db);
    case EndRevision(e, p, plan) => KeepEndRevision(s.db, e, p, plan, t.db); Unattended(t.db);
    case Revise(e, p, plan) => KeepRevise(s.db, e, p, plan, t.db); Unattended(t.db);
    case Cancel(q, e) => KeepCancel(s.db, q, e, t.db); Unattended(t.db);
  }

  lemma KeepArrival(s: Sys, e: Event, t: Sys)
    requires Inv(s) && s.db.state.Some? && Next(s, Arrive(e)) == Some(t)
    ensures Inv(t)
  {
    hide PlanTablesOk, Records, ProgressOk;
    OtherRows(s.db, t.db);
  }

  lemma KeepExecution(s: Sys, l: Label, t: Sys)
    requires Inv(s) && s.db.state.Some? && Next(s, l) == Some(t)
    requires l.Bind? || l.Ensure? || l.CloseExecution? || l.CloseAttempt? || l.SaveOutcome? || l.Die?
    ensures Inv(t)
  {
    hide Inv, Sound, BindAuthorized, EnsureAttempt, CloseRow, FinishAttempt, SavePhase;
    SoundTables(s);
    match l
    case Bind(k) => KeepBind(s.db, k, t.db);
    case Ensure => KeepEnsure(s, s.worker.permit, t.db);
    case CloseExecution(ok) => KeepCloseExecution(s, s.worker.permit, ok, t.db);
    case CloseAttempt => KeepCloseAttempt(s, s.worker.permit, s.worker.ok, t.db);
    case SaveOutcome => KeepSaveOutcome(s, s.worker.permit, s.worker.ok, t.db);
    case Die => KeepDie(s);
  }

  lemma KeepAsking(s: Sys, l: Label, t: Sys)
    requires Inv(s) && s.db.state.Some? && Next(s, l) == Some(t)
    requires l.Ask? || l.AskAttempt? || l.AskRow? || l.AskSaved? || l.Answer?
    ensures Inv(t)
  {
    hide Inv, Sound, OpenClarification, FinishAttempt, InterruptForInput, SavePhase, AnswerClarification, ClarificationCurrent;
    SoundTables(s);
    match l
    case Ask(q) => KeepAsk(s, s.worker.permit, q, t.db);
    case AskAttempt => KeepAskAttempt(s, s.worker.permit, t.db);
    case AskRow => KeepAskRow(s, s.worker.permit, t.db);
    case AskSaved => KeepAskSaved(s, t.db);
    case Answer(q, e) => KeepAnswer(s.db, q, e, t.db); Unattended(t.db);
  }

  lemma KeepRecovery(s: Sys, l: Label, t: Sys)
    requires Inv(s) && s.db.state.Some? && Next(s, l) == Some(t)
    requires l.RecoverSuccess? || l.RecoverOrphan? || l.RecoverRepairOf?
    ensures Inv(t)
  {
    hide Inv, Sound, RecoverFromRow, RecoverInitial, RecoverRepair, IsLatest;
    SoundTables(s);
    match l
    case RecoverSuccess => KeepRecoverSuccess(s.db, t.db); Unattended(t.db);
    case RecoverOrphan(a) =>
      var r := RecoverInitial(s.db, a, MAX_INITIAL_EXECUTION_RECOVERIES).value;
      KeepRecoverOrphan(s.db, a, MAX_INITIAL_EXECUTION_RECOVERIES, t.db, r.1);
      Unattended(t.db);
    case RecoverRepairOf(a) => KeepRecoverRepair(s.db, a, t.db); Unattended(t.db);
  }

  lemma KeepReviewing(s: Sys, l: Label, t: Sys)
    requires Inv(s) && s.db.state.Some? && Next(s, l) == Some(t)
    requires l.Judge? || l.ReviewDies? || l.ReviewFails? || l.Accept? || l.Block?
    ensures Inv(t)
  {
    hide Inv, Sound, JudgeLatest, FailReview, AcceptReview, BlockReview;
    SoundTables(s);
    match l
    case Judge(r, verdict) => KeepJudge(s.db, r, verdict, t.db); Unattended(t.db);
    case ReviewDies =>
    case ReviewFails => KeepReviewFails(s.db, t.db); Unattended(t.db);
    case Accept(r) => KeepAccept(s.db, r, t.db); Unattended(t.db);
    case Block(r) => KeepBlock(s.db, r, t.db); Unattended(t.db);
  }

  lemma KeepRepairing(s: Sys, l: Label, t: Sys)
    requires Inv(s) && s.db.state.Some? && Next(s, l) == Some(t)
    requires l.MakeRepair? || l.StartRepair? || l.EndRepair? || l.AbortRepair?
    ensures Inv(t)
  {
    hide Inv, Sound, CreateRepair, BindRepair, FinishRepair, FailRepair;
    SoundTables(s);
    match l
    case MakeRepair => KeepMakeRepair(s.db, t.db); Unattended(t.db);
    case StartRepair(i) => KeepStartRepair(s.db, i, t.db);
    case EndRepair => KeepEndRepair(s, s.worker.repair, t.db);
    case AbortRepair => KeepAbortRepair(s, s.worker.repair, t.db);
  }

  lemma PublishingIs(s: Sys, l: Label, t: Sys)
    requires s.db.state.Some? && Next(s, l) == Some(t) && (l.EnsurePub? || l.AdvancePub?)
    ensures t.worker == Idle && SameRows(s.db, t.db) && t.db.execs == s.db.execs
  {
    hide PublicationTarget;
  }

  lemma KeepPublishing(s: Sys, l: Label, t: Sys)
    requires Inv(s) && s.db.state.Some? && Next(s, l) == Some(t)
    requires l.EnsurePub? || l.AdvancePub? || l.FinalizePub?
    ensures Inv(t)
  {
    hide Inv, Sound, PublicationTarget, Finalize, EnsurePublication, UpdatePublication, Row;
    SoundTables(s);
    if l.FinalizePub? {
      KeepFinalize(s.db, PublicationTarget(s.db).value, t.db);
    } else {
      PublishingIs(s, l, t);
      SameRow(s.db, t.db);
      OtherRows(s.db, t.db);
    }
    Unattended(t.db);
  }

  /** Every step keeps the invariant, wherever the worker stands or died. */
  lemma Keep(s: Sys, l: Label, t: Sys)
    requires Inv(s) && Next(s, l) == Some(t)
    ensures Inv(t)
  {
    hide Sound, Next;
    if l.Begin? { KeepBeginning(s, l, t); }
    else if s.db.state.None? { KeepFresh(s, l, t); }
    else if l.Arrive? { KeepArrival(s, l.event, t); }
    else if l.Bind? || l.Ensure? || l.CloseExecution? || l.CloseAttempt? || l.SaveOutcome? || l.Die? { KeepExecution(s, l, t); }
    else if l.Ask? || l.AskAttempt? || l.AskRow? || l.AskSaved? || l.Answer? { KeepAsking(s, l, t); }
    else if l.RecoverSuccess? || l.RecoverOrphan? || l.RecoverRepairOf? { KeepRecovery(s, l, t); }
    else if l.EnsurePub? || l.AdvancePub? || l.FinalizePub? { KeepPublishing(s, l, t); }
    else if l.Judge? || l.ReviewDies? || l.ReviewFails? || l.Accept? || l.Block? { KeepReviewing(s, l, t); }
    else if l.MakeRepair? || l.StartRepair? || l.EndRepair? || l.AbortRepair? { KeepRepairing(s, l, t); }
    else { KeepPlanning(s, l, t); }
  }

  /** The invariant holds over every run. */
  lemma {:induction false} RunKeeps(s: Sys, labels: seq<Label>, t: Sys)
    requires Inv(s) && Run(s, labels) == Some(t)
    ensures Inv(t)
    decreases |labels|
  {
    hide Inv, Sound, Next;
    if labels != [] {
      var m := Next(s, labels[0]).value;
      Keep(s, labels[0], m);
      RunKeeps(m, labels[1..], t);
    }
  }
}
