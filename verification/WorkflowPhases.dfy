/** How each step of a run moves the phase, and why no control input that has run code ever waits before a repair. */
module WorkflowPhases {
  import opened Prelude
  import opened WorkflowModel
  import opened WorkflowRun
  import opened WorkflowInvariant
  import opened WorkflowPlanning
  import opened WorkflowExecution
  import opened WorkflowReview
  import opened WorkflowRepair
  import opened WorkflowSafety
  import opened WorkflowTheorems

  /** The phases of a run, as a table. */
  predicate Moves(l: Label, from: Phase, to: Phase) {
    match l
    case Begin(_, _, _) => from == IDLE && (to == PLANNING || to == WAITING_FOR_PLAN_APPROVAL)
    case Post(_) => (from == PLANNING || from == WAITING_FOR_PLAN_APPROVAL) && to == WAITING_FOR_PLAN_APPROVAL
    case Approve(_, _, _) => from == WAITING_FOR_PLAN_APPROVAL && to == EXECUTION_READY
    case Authorize(_, _) => from == WAITING_FOR_PLAN_APPROVAL && to == EXECUTION_READY
    case StartRevision(_) => (from == PLANNING || from == WAITING_FOR_PLAN_APPROVAL || from == EXECUTION_READY) && to == PLANNING
    case EndRevision(_, _, _) => from == PLANNING && to == PLANNING
    case Revise(_, _, _) => (from == WAITING_FOR_PLAN_APPROVAL || from == EXECUTION_READY) && to == PLANNING
    case Bind(_) => from == EXECUTION_READY && to == EXECUTING
    case Ensure => from == EXECUTING && to == EXECUTING
    case CloseExecution(_) => from == EXECUTING && to == EXECUTING
    case CloseAttempt => from == EXECUTING && to == EXECUTING
    case SaveOutcome => from == EXECUTING && (to == REVIEW_EXECUTION || to == EXECUTION_FAILED)
    case Ask(_) => from == EXECUTING && to == EXECUTING
    case AskAttempt => from == EXECUTING && to == EXECUTING
    case AskRow => from == EXECUTING && to == WAITING_FOR_INPUT
    case AskSaved => from == WAITING_FOR_INPUT && to == WAITING_FOR_INPUT
    case RecoverSuccess => from == EXECUTING && (to == EXECUTING || to == REVIEW_EXECUTION || to == REVIEW_BLOCKED)
    case RecoverOrphan(_) => from == EXECUTING && (to == EXECUTION_READY || to == REVIEW_BLOCKED)
    case Judge(_, _) => from == REVIEW_EXECUTION && to == REVIEW_EXECUTION
    case ReviewDies => from == REVIEW_EXECUTION && to == REVIEW_EXECUTION
    case ReviewFails => from == REVIEW_EXECUTION && (to == REVIEW_EXECUTION || to == REVIEW_BLOCKED)
    case Accept(_) => from == REVIEW_EXECUTION && to == AWAITING_PUBLICATION
    case Block(_) => from == REVIEW_EXECUTION && to == REVIEW_BLOCKED
    case MakeRepair => from == REVIEW_EXECUTION && (to == REPAIR_READY || to == REVIEW_BLOCKED)
    case StartRepair(_) => from == REPAIR_READY && (to == EXECUTING || to == REVIEW_BLOCKED)
    case EndRepair => from == EXECUTING && to == REVIEW_EXECUTION
    case AbortRepair => from == EXECUTING && to == REVIEW_BLOCKED
    case RecoverRepairOf(_) => from == EXECUTING && (to == REPAIR_READY || to == REVIEW_BLOCKED)
    case Answer(_, _) => from == WAITING_FOR_INPUT && to == EXECUTION_READY
    case Cancel(_, _) => from == WAITING_FOR_INPUT && to == PLANNING
    case EnsurePub => from == AWAITING_PUBLICATION && to == AWAITING_PUBLICATION
    case AdvancePub(_) => from == AWAITING_PUBLICATION && to == AWAITING_PUBLICATION
    case FinalizePub => from == AWAITING_PUBLICATION && to == IDLE
    case Arrive(_) => to == from
    case Die => to == from
  }

  /** The step leaves the events, the execution rows and the consumed inputs alone. */
  predicate SameCode(db: Db, d: Db) { d.events == db.events && d.execs == db.execs && d.inputs == db.inputs }

  ghost predicate Moved(s: Sys, l: Label, t: Sys) {
    s.db.state.Some? && t.db.state.Some? && Moves(l, s.db.state.value.phase, t.db.state.value.phase)
  }

  lemma PlanningMoves(s: Sys, l: Label, t: Sys)
    requires s.db.state.Some? && Next(s, l) == Some(t)
    requires l.Begin? || l.Post? || l.Approve? || l.Authorize? || l.StartRevision? || l.EndRevision? || l.Revise? || l.Cancel?
    ensures Moved(s, l, t)
  {
    if l.Approve? || l.Authorize? { GrantMoves(s, l, t); }
    else if l.EndRevision? || l.Revise? { RevisionMoves(s, l, t); }
    else if l.Post? { PostMoves(s, l.postId, t); }
    else if l.StartRevision? { StartRevisionMoves(s, l.key, t); }
    else { StartMoves(s, l, t); }
  }

  lemma PostMoves(s: Sys, p: PlanId, t: Sys)
    requires s.db.state.Some? && Next(s, Post(p)) == Some(t)
    ensures Moved(s, Post(p), t) && SameCode(s.db, t.db)
  {
    hide MarkPosted;
    PostedPhase(s.db, p, t.db);
  }

  lemma PostedPhase(db: Db, p: PlanId, d: Db)
    requires MarkPosted(db, p) == Some(d)
    ensures (InPhase(db, PLANNING) || InPhase(db, WAITING_FOR_PLAN_APPROVAL)) && InPhase(d, WAITING_FOR_PLAN_APPROVAL) && SameCode(db, d)
  {
  }

  lemma StartRevisionMoves(s: Sys, e: EventKey, t: Sys)
    requires s.db.state.Some? && Next(s, StartRevision(e)) == Some(t)
    ensures Moved(s, StartRevision(e), t) && SameCode(s.db, t.db)
  {
    hide InvalidateUnconsumed, KnownEvent;
  }

  lemma StartMoves(s: Sys, l: Label, t: Sys)
    requires s.db.state.Some? && Next(s, l) == Some(t) && (l.Begin? || l.Cancel?)
    ensures Moved(s, l, t)
  {
    hide VersionTaken, InvalidateAll;
    match l
    case Begin(p, plan, st) => assert FirstPlanFits(s.db, p, plan, st);
    case Cancel(q, e) => assert CancelClarification(s.db, q, e) == Some(t.db);
  }

  lemma GrantMoves(s: Sys, l: Label, t: Sys)
    requires s.db.state.Some? && Next(s, l) == Some(t) && (l.Approve? || l.Authorize?)
    ensures Moved(s, l, t) && (l.Authorize? ==> SameCode(s.db, t.db))
  {
    hide ControlClashes, KnownEvent;
  }

  lemma RevisionMoves(s: Sys, l: Label, t: Sys)
    requires s.db.state.Some? && Next(s, l) == Some(t) && (l.EndRevision? || l.Revise?)
    ensures Moved(s, l, t)
  {
    hide VersionTaken, InvalidateUnconsumed, ControlClashes, NextPlanFits;
  }

  /** Where the worker stands inside an execution, the phase is EXECUTING until the outcome is saved. */
  lemma WorkerPhase(s: Sys)
    requires Inv(s) && s.db.state.Some?
    ensures s.worker.AskedRow? ==> InPhase(s.db, WAITING_FOR_INPUT)
    ensures !s.worker.Idle? && !s.worker.AskedRow? ==> InPhase(s.db, EXECUTING)
  {
    hide Sound, Initial, Usable, IsLatest, NoSuccess, LivePermitIn, Row;
  }

  lemma ExecutionMoves(s: Sys, l: Label, t: Sys)
    requires Inv(s) && s.db.state.Some? && Next(s, l) == Some(t)
    requires l.Ensure? || l.CloseExecution?
    ensures Moved(s, l, t) && (l.Ensure? ==> SameCode(s.db, t.db))
  {
    hide Inv, EnsureAttempt, CloseRow, RowKey;
    WorkerPhase(s);
    match l
    case Ensure => EnsurePhase(s.db, s.worker.permit, t.db);
    case CloseExecution(ok) => ClosePhase(s.db, RowKey(s.db.state.value), if ok then RowSucceeded else RowFailed, t.db);
  }

  lemma AskMoves(s: Sys, q: ClarId, t: Sys)
    requires Inv(s) && s.db.state.Some? && Next(s, Ask(q)) == Some(t)
    ensures Moved(s, Ask(q), t) && SameCode(s.db, t.db)
  {
    hide Inv, OpenClarification;
    WorkerPhase(s);
    OpenedPhase(s.db, q, t.db);
  }

  lemma OpenedPhase(db: Db, q: ClarId, d: Db)
    requires OpenClarification(db, q) == Some(d)
    ensures d.state == db.state && SameCode(db, d)
  {
  }

  lemma OtherMoves(s: Sys, l: Label, t: Sys)
    requires s.db.state.Some? && Next(s, l) == Some(t) && (l.Die? || l.Arrive?)
    ensures Moved(s, l, t) && (l.Die? ==> SameCode(s.db, t.db))
  {
    hide KnownEvent;
  }

  lemma AttemptMoves(s: Sys, l: Label, t: Sys)
    requires Inv(s) && s.db.state.Some? && Next(s, l) == Some(t)
    requires l.CloseAttempt? || l.AskAttempt?
    ensures Moved(s, l, t) && SameCode(s.db, t.db)
  {
    hide Inv, FinishAttempt;
    WorkerPhase(s);
    match l
    case CloseAttempt => FinishPhase(s.db, InitialOf(s.worker.permit), if s.worker.ok then Succeeded else Failed);
    case AskAttempt => FinishPhase(s.db, InitialOf(s.worker.permit), Interrupted);
  }

  lemma SavedMoves(s: Sys, l: Label, t: Sys)
    requires Inv(s) && s.db.state.Some? && Next(s, l) == Some(t) && (l.SaveOutcome? || l.AskSaved?)
    ensures Moved(s, l, t) && SameCode(s.db, t.db)
  {
    hide Inv, SavePhase;
    WorkerPhase(s);
    match l
    case SaveOutcome => SavedPhase(s.db, if s.worker.ok then REVIEW_EXECUTION else EXECUTION_FAILED, t.db);
    case AskSaved => SavedPhase(s.db, WAITING_FOR_INPUT, t.db);
  }

  lemma SavedPhase(db: Db, phase: Phase, d: Db)
    requires SavePhase(db, phase) == Some(d)
    ensures InPhase(d, phase) && SameCode(db, d)
  {
  }

  lemma EnsurePhase(db: Db, k: PermitId, d: Db)
    requires EnsureAttempt(db, k) == Some(d)
    ensures d.state == db.state && SameCode(db, d)
  {
    hide Ensured;
  }

  lemma ClosePhase(db: Db, k: ExecKey, status: ExecStatus, d: Db)
    requires CloseRow(db, k, status) == Some(d)
    ensures d.state == db.state
  {
  }

  lemma FinishPhase(db: Db, a: AttemptId, status: AttemptStatus)
    ensures FinishAttempt(db, a, status).state == db.state && SameCode(db, FinishAttempt(db, a, status))
  {
  }

  lemma BindMoves(s: Sys, k: PermitId, t: Sys)
    requires s.db.state.Some? && Next(s, Bind(k)) == Some(t)
    ensures Moved(s, Bind(k), t)
  {
    hide SweepPending, Pending, RowClaimable, InsertInitial;
  }

  lemma AskRowMoves(s: Sys, t: Sys)
    requires Inv(s) && s.db.state.Some? && Next(s, AskRow) == Some(t)
    ensures Moved(s, AskRow, t)
  {
    WorkerPhase(s);
    Keep(s, AskRow, t);
    hide Inv, InterruptForInput;
    InterruptKeepsState(s.db, s.worker.permit, t.db);
    WorkerPhase(t);
  }

  lemma InterruptKeepsState(db: Db, k: PermitId, d: Db)
    requires InterruptForInput(db, k) == Some(d)
    ensures d.state.Some?
  {
    hide ExecutionTarget, RowStatus;
  }

  lemma AnswerMoves(s: Sys, q: ClarId, e: EventKey, t: Sys)
    requires Inv(s) && s.db.state.Some? && Next(s, Answer(q, e)) == Some(t)
    ensures Moved(s, Answer(q, e), t)
  {
    hide Records, ProgressOk, PlansOk, PermitsOk, LearnedOk, ExecutionTarget;
  }

  lemma RecoveryMoves(s: Sys, l: Label, t: Sys)
    requires s.db.state.Some? && Next(s, l) == Some(t) && (l.RecoverSuccess? || l.RecoverOrphan? || l.RecoverRepairOf?)
    ensures Moved(s, l, t) && (!l.RecoverOrphan? ==> SameCode(s.db, t.db))
  {
    hide RecoverFromRow, RecoverInitial, RecoverRepair, IsLatest, Row;
    match l
    case RecoverSuccess => RecoveredMoves(s.db, t.db);
    case RecoverOrphan(a) =>
      OrphanMoves(s.db, a, t.db, RecoverInitial(s.db, a, MAX_INITIAL_EXECUTION_RECOVERIES).value.1);
    case RecoverRepairOf(a) => RepairOrphanMoves(s.db, a, t.db);
  }

  lemma RecoveredMoves(db: Db, d: Db)
    requires RecoverFromRow(db) == Some(d)
    ensures InPhase(db, EXECUTING) && (InPhase(d, EXECUTING) || InPhase(d, REVIEW_EXECUTION) || InPhase(d, REVIEW_BLOCKED)) && SameCode(db, d)
  {
    hide RecoverFromRow, Row, IsLatest, FinishAttempt;
    var a := RecoveredIs(db, d);
    FinishPhase(db, a, Succeeded);
  }

  lemma OrphanMoves(db: Db, a: AttemptId, d: Db, outcome: Outcome)
    requires InPhase(db, EXECUTING) && RecoverInitial(db, a, MAX_INITIAL_EXECUTION_RECOVERIES) == Some((d, outcome))
    ensures InPhase(d, EXECUTION_READY) || InPhase(d, REVIEW_BLOCKED)
  {
    hide ExecutionTarget, InitialMayResume;
  }

  lemma RepairOrphanMoves(db: Db, a: AttemptId, d: Db)
    requires RecoverRepair(db, a) == Some(d)
    ensures InPhase(db, EXECUTING) && (InPhase(d, REPAIR_READY) || InPhase(d, REVIEW_BLOCKED)) && SameCode(db, d)
  {
    hide ChainMatches, IsLatest, InvalidateIfUnconsumed;
  }

  lemma ReviewMoves(s: Sys, l: Label, t: Sys)
    requires s.db.state.Some? && Next(s, l) == Some(t) && (l.Judge? || l.ReviewDies? || l.ReviewFails? || l.Accept? || l.Block?)
    ensures Moved(s, l, t) && SameCode(s.db, t.db)
  {
    hide IsLatest, Reviewed, InvalidateRepairs, JudgeLatest, FailReview, ReviewFailure;
    if l.Judge? { var a := JudgedIs(s.db, l.review, l.verdict, t.db); }
    if l.ReviewFails? { FailureMoves(s.db, t.db); }
  }

  lemma FailureMoves(db: Db, d: Db)
    requires FailReview(db) == Some(d)
    ensures InPhase(db, REVIEW_EXECUTION) && (InPhase(d, REVIEW_EXECUTION) || InPhase(d, REVIEW_BLOCKED)) && SameCode(db, d)
  {
    hide FailReview, IsLatest, Reviewed, ReviewFailure;
    var a := FailedReview(db, d);
    assert a in db.attempts by { LatestIn(db.attempts, db.state.value.cycle, a); }
    FailureCases(db, a);
    FailsInReview(db);
  }

  lemma LatestIn(attempts: Attempts, cycle: nat, a: AttemptId)
    requires IsLatest(attempts, cycle, a)
    ensures a in attempts
  {
  }

  lemma FailsInReview(db: Db)
    requires FailReview(db).Some?
    ensures InPhase(db, REVIEW_EXECUTION)
  {
  }

  lemma RepairMoves(s: Sys, l: Label, t: Sys)
    requires s.db.state.Some? && Next(s, l) == Some(t) && (l.MakeRepair? || l.StartRepair?)
    ensures Moved(s, l, t) && (l.MakeRepair? ==> SameCode(s.db, t.db))
  {
    hide BindRepair, CreateRepair;
    match l
    case MakeRepair => IssueMoves(s.db, t.db);
    case StartRepair(i) => RepairBindMoves(s.db, i, t.db);
  }

  lemma RepairCloses(s: Sys, l: Label, t: Sys)
    requires Inv(s) && s.db.state.Some? && Next(s, l) == Some(t) && (l.EndRepair? || l.AbortRepair?)
    ensures Moved(s, l, t) && SameCode(s.db, t.db)
  {
    hide Inv, FinishRepair, FailRepair;
    WorkerPhase(s);
    match l
    case EndRepair => RepairEndMoves(s.db, s.worker.repair, t.db);
    case AbortRepair => RepairAbortMoves(s.db, s.worker.repair, t.db);
  }

  lemma RepairEndMoves(db: Db, i: RepairId, d: Db)
    requires FinishRepair(db, i, RepairOf(i)) == Some(d)
    ensures InPhase(d, REVIEW_EXECUTION) && SameCode(db, d)
  {
  }

  lemma RepairAbortMoves(db: Db, i: RepairId, d: Db)
    requires FailRepair(db, RepairOf(i)) == Some(d)
    ensures InPhase(d, REVIEW_BLOCKED) && SameCode(db, d)
  {
    hide InvalidateIfUnconsumed;
  }

  lemma IssueMoves(db: Db, d: Db)
    requires CreateRepair(db, MAX_REPAIRS) == Some(d)
    ensures InPhase(db, REVIEW_EXECUTION) && (InPhase(d, REPAIR_READY) || InPhase(d, REVIEW_BLOCKED)) && SameCode(db, d)
  {
    var a, r := MadeRepair(db, d);
    hide CreateRepair, InvalidateThreadRepairs, IsLatest, RoundTaken;
  }

  lemma RepairBindMoves(db: Db, i: RepairId, d: Db)
    requires BindRepair(db, i) == Some(d)
    ensures InPhase(db, REPAIR_READY) && (InPhase(d, EXECUTING) || InPhase(d, REVIEW_BLOCKED))
  {
    BindCases(db, i, d);
    hide BindRepair, ChainMatches, IsLatest, SweepPending, Pending, RepairRow;
  }

  lemma TargetPhase(db: Db)
    requires PublicationTarget(db).Some?
    ensures InPhase(db, AWAITING_PUBLICATION)
  {
    hide IsLatest, IsReviewOf, RowStatus, PublishedInput;
  }

  lemma PublishingMoves(s: Sys, l: Label, t: Sys)
    requires s.db.state.Some? && Next(s, l) == Some(t) && (l.EnsurePub? || l.AdvancePub? || l.FinalizePub?)
    ensures Moved(s, l, t) && SameCode(s.db, t.db)
  {
    hide PublicationTarget;
    TargetPhase(s.db);
  }

  /** Every step of a run moves the phase as the table says. */
  lemma PhaseMoves(s: Sys, l: Label, t: Sys)
    requires Inv(s) && s.db.state.Some? && Next(s, l) == Some(t)
    ensures Moved(s, l, t)
  {
    hide Inv, Next, Moved;
    if l.Bind? { BindMoves(s, l.permit, t); }
    else if l.AskRow? { AskRowMoves(s, t); }
    else if l.Answer? { AnswerMoves(s, l.clar, l.key, t); }
    else if l.RecoverSuccess? || l.RecoverOrphan? || l.RecoverRepairOf? { RecoveryMoves(s, l, t); }
    else if l.Judge? || l.ReviewDies? || l.ReviewFails? || l.Accept? || l.Block? { ReviewMoves(s, l, t); }
    else if l.MakeRepair? || l.StartRepair? { RepairMoves(s, l, t); }
    else if l.EndRepair? || l.AbortRepair? { RepairCloses(s, l, t); }
    else if l.EnsurePub? || l.AdvancePub? || l.FinalizePub? { PublishingMoves(s, l, t); }
    else if l.CloseAttempt? || l.AskAttempt? { AttemptMoves(s, l, t); }
    else if l.SaveOutcome? || l.AskSaved? { SavedMoves(s, l, t); }
    else if l.Ensure? || l.CloseExecution? { ExecutionMoves(s, l, t); }
    else if l.Ask? { AskMoves(s, l.clar, t); }
    else if l.Die? || l.Arrive? { OtherMoves(s, l, t); }
    else { PlanningMoves(s, l, t); }
  }

  // ------------------------------------------------------------------ control inputs that have run code

  /** An input nobody has consumed although its event has run code: the pending scan refuses it as a control. */
  predicate RunsCode(db: Db, k: EventKey) { ControlClashes(db.execs, k) && k !in db.inputs }

  ghost predicate RootsConsumed(db: Db) { forall p :: p in db.plans ==> db.plans[p].root in db.inputs }

  predicate Committed(phase: Phase) { phase == EXECUTING || phase == REVIEW_EXECUTION || phase == REPAIR_READY }

  ghost predicate NoApprovalRunsCode(db: Db) { forall e :: e in db.events && e.body == ExactApproval ==> !RunsCode(db, e.key) }

  /** Execution rows belong to stored events, cycle roots are consumed, and from the bind on no stored approval has run
      code. */
  ghost predicate Referenced(db: Db) {
    && (forall k :: RunsCode(db, k) ==> KnownEvent(db, k))
    && RootsConsumed(db)
    && (db.state.Some? && Committed(db.state.value.phase) ==> NoApprovalRunsCode(db))
  }

  /** The foreign key of the execution rows of a fresh thread. */
  ghost predicate RowsKnown(db: Db) { forall k :: EventExec(k) in db.execs ==> KnownEvent(db, k) }

  lemma FreshReferenced(s: Sys)
    requires Initial(s) && RowsKnown(s.db)
    ensures Referenced(s.db)
  {
  }

  /** No unconsumed input starts to run code. */
  ghost predicate CodeKept(db: Db, d: Db) {
    && d.events == db.events
    && (forall k :: RunsCode(d, k) ==> RunsCode(db, k))
    && (forall k :: k in db.inputs ==> k in d.inputs)
  }

  lemma SameCodeKept(db: Db, d: Db)
    requires SameCode(db, d)
    ensures CodeKept(db, d)
  {
  }

  lemma ControlKept(db: Db, d: Db, k: EventKey)
    requires d.events == db.events && d.execs == db.execs[EventExec(k) := RowSkipped]
    requires forall j :: j in db.inputs ==> j in d.inputs
    ensures CodeKept(db, d)
  {
  }

  lemma PlanningCode(s: Sys, l: Label, t: Sys)
    requires Next(s, l) == Some(t) && (l.Begin? || l.Cancel?)
    ensures CodeKept(s.db, t.db)
  {
    hide VersionTaken, InvalidateAll;
  }

  lemma ApproveCode(s: Sys, e: EventKey, k: PermitId, grant: Permit, t: Sys)
    requires Next(s, Approve(e, k, grant)) == Some(t)
    ensures CodeKept(s.db, t.db)
  {
    hide CodeKept, KnownEvent, ControlClashes;
    ControlKept(s.db, t.db, e);
  }

  lemma RevisionCode(s: Sys, l: Label, t: Sys)
    requires Next(s, l) == Some(t) && (l.EndRevision? || l.Revise?)
    ensures CodeKept(s.db, t.db)
  {
    hide CodeKept, VersionTaken, InvalidateUnconsumed, ControlClashes, NextPlanFits;
    ControlKept(s.db, t.db, l.key);
  }

  /** The scan skips what it consumes, and consumes every approval it passes. */
  lemma {:induction false} SweepCode(pending: seq<Event>, execs: map<ExecKey, ExecStatus>, inputs: map<EventKey, Purpose>)
    ensures var r := SweepPending(pending, execs, inputs);
      !r.Clash? ==>
        && (forall k :: k in inputs ==> k in r.inputs)
        && (forall k :: ControlClashes(r.execs, k) ==> ControlClashes(execs, k))
        && (r.Swept? ==> forall e :: e in pending && e.body == ExactApproval ==> e.key in r.inputs)
  {
    if pending != [] {
      var e := pending[0];
      assert forall x :: x in pending ==> x == e || x in pending[1..];
      match e.body
      case ExactApproval =>
        if !ControlClashes(execs, e.key) {
          SweepCode(pending[1..], execs[EventExec(e.key) := RowSkipped], Consume(inputs, e.key, STALE_PLAN_APPROVAL));
        }
      case Invocation =>
      case Chatter => SweepCode(pending[1..], execs, inputs);
    }
  }

  lemma {:induction false} PendingHolds(events: seq<Event>, inputs: map<EventKey, Purpose>, root: EventKey, e: Event)
    ensures e in Pending(events, inputs, root) <==> e in events && e.key != root && e.key !in inputs
  {
    if events != [] { PendingHolds(events[1..], inputs, root, e); }
  }

  lemma BindCode(db: Db, k: PermitId, d: Db)
    requires BindAuthorized(db, k) == Some(d) && RootsConsumed(db)
    ensures CodeKept(db, d) && NoApprovalRunsCode(d)
  {
    var permit := db.permits[k];
    var pending := Pending(db.events, db.inputs, permit.root);
    var scan := SweepPending(pending, db.execs, db.inputs);
    SweepCode(pending, db.execs, db.inputs);
    BindRows(db, k, d);
    hide BindAuthorized, SweepPending, Pending;
    forall e | e in db.events && e.body == ExactApproval ensures e.key in d.inputs {
      PendingHolds(db.events, db.inputs, permit.root, e);
    }
  }

  lemma BindRows(db: Db, k: PermitId, d: Db)
    requires BindAuthorized(db, k) == Some(d) && RootsConsumed(db)
    ensures k in db.permits && db.permits[k].root in db.inputs && d.events == db.events
    ensures var scan := SweepPending(Pending(db.events, db.inputs, db.permits[k].root), db.execs, db.inputs);
      && scan.Swept? && d.inputs == scan.inputs
      && forall j :: j != db.permits[k].root ==> (ControlClashes(d.execs, j) <==> ControlClashes(scan.execs, j))
  {
    hide SweepPending, Pending, RowClaimable, InsertInitial;
  }

  lemma RepairBindCode(db: Db, i: RepairId, d: Db)
    requires BindRepair(db, i) == Some(d)
    ensures CodeKept(db, d)
  {
    BindCases(db, i, d);
    SweepCode(Pending(db.events, db.inputs, db.repairs[i].root), db.execs, db.inputs);
    RepairBindInputs(db, i, d);
    hide BindRepair, RepairBindable, SweepPending, Pending, RepairRow;
  }

  lemma RepairBindInputs(db: Db, i: RepairId, d: Db)
    requires BindRepair(db, i) == Some(d) && i in db.repairs
    ensures var scan := SweepPending(Pending(db.events, db.inputs, db.repairs[i].root), db.execs, db.inputs);
      !scan.Clash? && d.inputs == scan.inputs && d.execs == scan.execs
  {
    hide RepairBindable, SweepPending, Pending, RepairRow;
  }

  /** Only a row that runs is closed or handed back. */
  lemma RowChanged(db: Db, k: ExecKey, status: ExecStatus, d: Db)
    requires RowStatus(db.execs, k) == Some(RowRunning) && d.execs == db.execs[k := status]
    requires d.events == db.events && d.inputs == db.inputs
    ensures CodeKept(db, d)
  {
  }

  lemma CloseCode(db: Db, k: ExecKey, status: ExecStatus, d: Db)
    requires CloseRow(db, k, status) == Some(d)
    ensures CodeKept(db, d)
  {
    hide CodeKept;
    RowChanged(db, k, status, d);
  }

  lemma AskCode(db: Db, k: PermitId, d: Db)
    requires InterruptForInput(db, k) == Some(d)
    ensures CodeKept(db, d)
  {
    hide ExecutionTarget, CloseRow, CodeKept;
    var target := ExecutionTarget(db.plans, db.permits[k].cycle, db.permits[k].root);
    var closed := CloseRow(db, target, RowInterrupted).value;
    CloseCode(db, target, RowInterrupted, closed);
    SamePhaseCode(db, closed, d);
  }

  lemma SamePhaseCode(db: Db, m: Db, d: Db)
    requires CodeKept(db, m) && SameCode(m, d)
    ensures CodeKept(db, d)
  {
  }

  lemma OrphanCode(db: Db, a: AttemptId, d: Db, outcome: Outcome)
    requires RecoverInitial(db, a, MAX_INITIAL_EXECUTION_RECOVERIES) == Some((d, outcome))
    ensures CodeKept(db, d)
  {
    hide ExecutionTarget, InitialMayResume, CodeKept;
    var k := ExecutionTarget(db.plans, db.attempts[a].cycle, db.attempts[a].root);
    if d.execs == db.execs { SameCodeKept(db, d); } else { RowChanged(db, k, RowRetryPending, d); }
  }

  lemma AnswerCode(db: Db, q: ClarId, e: EventKey, d: Db)
    requires AnswerClarification(db, q, e) == Some(d) && RootsConsumed(db) && PermitsOk(db.permits, db.plans)
    ensures CodeKept(db, d)
  {
    var cycle := db.clars[q].cycle;
    AnsweredRows(db, q, e, d);
    hide ExecutionTarget, AnswerClarification;
    if d.execs != db.execs {
      var k :| LivePermitIn(db.permits, cycle, k) && HandsBack(db, cycle, k, d);
      assert PermitFits(db.permits[k], db.plans);
      TargetRoot(db.plans, cycle, db.permits[k].root);
    }
  }

  /** The execution row of permit `k` waits for a retry. */
  ghost predicate HandsBack(db: Db, cycle: nat, k: PermitId, d: Db)
    requires k in db.permits
  {
    d.execs == db.execs[ExecutionTarget(db.plans, cycle, db.permits[k].root) := RowRetryPending]
  }

  lemma AnsweredRows(db: Db, q: ClarId, e: EventKey, d: Db)
    requires AnswerClarification(db, q, e) == Some(d)
    ensures q in db.clars && d.events == db.events && d.inputs == Consume(db.inputs, e, CLARIFICATION_RESPONSE)
    ensures d.execs != db.execs ==>
      exists k :: LivePermitIn(db.permits, db.clars[q].cycle, k) && HandsBack(db, db.clars[q].cycle, k, d)
  {
    hide ExecutionTarget, LivePermitIn, Consume;
  }

  lemma TargetRoot(plans: Plans, cycle: nat, root: EventKey)
    ensures ExecutionTarget(plans, cycle, root) == EventExec(root) || ExecutionTarget(plans, cycle, root).LogicalExec?
  {
  }

  /** No step but an arrival brings an event, and none lets an unconsumed input run code. */
  lemma CodeStep(s: Sys, l: Label, t: Sys)
    requires Inv(s) && s.db.state.Some? && RootsConsumed(s.db) && Next(s, l) == Some(t) && !l.Arrive?
    ensures CodeKept(s.db, t.db)
    ensures l.Bind? ==> NoApprovalRunsCode(t.db)
  {
    hide Inv, RootsConsumed, CodeKept, NoApprovalRunsCode;
    if l.Bind? || l.StartRepair? || l.CloseExecution? || l.AskRow? || l.RecoverOrphan? || l.Answer? { RunningCode(s, l, t); }
    else if l.Begin? || l.Cancel? { PlanningCode(s, l, t); }
    else if l.Approve? { ApproveCode(s, l.key, l.grantId, l.grant, t); }
    else if l.EndRevision? || l.Revise? { RevisionCode(s, l, t); }
    else {
      QuietStep(s, l, t);
      SameCodeKept(s.db, t.db);
    }
  }

  lemma QuietStep(s: Sys, l: Label, t: Sys)
    requires Inv(s) && s.db.state.Some? && Next(s, l) == Some(t) && !l.Arrive?
    requires !(l.Bind? || l.StartRepair? || l.CloseExecution? || l.AskRow? || l.RecoverOrphan? || l.Answer?)
    requires !(l.Begin? || l.Cancel? || l.Approve? || l.EndRevision? || l.Revise?)
    ensures SameCode(s.db, t.db)
  {
    hide Inv, Next, Moved, SameCode;
    if l.Post? { PostMoves(s, l.postId, t); }
    else if l.StartRevision? { StartRevisionMoves(s, l.key, t); }
    else if l.Authorize? { GrantMoves(s, l, t); }
    else if l.Ensure? { ExecutionMoves(s, l, t); }
    else if l.CloseAttempt? || l.AskAttempt? { AttemptMoves(s, l, t); }
    else if l.SaveOutcome? || l.AskSaved? { SavedMoves(s, l, t); }
    else if l.Ask? { AskMoves(s, l.clar, t); }
    else if l.Die? { OtherMoves(s, l, t); }
    else if l.RecoverSuccess? || l.RecoverRepairOf? { RecoveryMoves(s, l, t); }
    else if l.Judge? || l.ReviewDies? || l.ReviewFails? || l.Accept? || l.Block? { ReviewMoves(s, l, t); }
    else if l.MakeRepair? { RepairMoves(s, l, t); }
    else if l.EndRepair? || l.AbortRepair? { RepairCloses(s, l, t); }
    else { PublishingMoves(s, l, t); }
  }

  lemma RunningCode(s: Sys, l: Label, t: Sys)
    requires Inv(s) && s.db.state.Some? && RootsConsumed(s.db) && Next(s, l) == Some(t)
    requires l.Bind? || l.StartRepair? || l.CloseExecution? || l.AskRow? || l.RecoverOrphan? || l.Answer?
    ensures CodeKept(s.db, t.db)
    ensures l.Bind? ==> NoApprovalRunsCode(t.db)
  {
    hide Inv, RootsConsumed, CodeKept, NoApprovalRunsCode, Next;
    if l.Bind? || l.StartRepair? { BindingCode(s, l, t); }
    else if l.CloseExecution? || l.AskRow? { ClosingCode(s, l, t); }
    else if l.RecoverOrphan? { RecoverCode(s, l.attempt, t); }
    else { AnsweredCode(s, l.clar, l.key, t); }
  }

  lemma BindingCode(s: Sys, l: Label, t: Sys)
    requires RootsConsumed(s.db) && Next(s, l) == Some(t) && (l.Bind? || l.StartRepair?)
    ensures CodeKept(s.db, t.db) && (l.Bind? ==> NoApprovalRunsCode(t.db))
  {
    hide RootsConsumed, CodeKept, NoApprovalRunsCode, BindAuthorized, BindRepair;
    match l
    case Bind(k) => BindCode(s.db, k, t.db);
    case StartRepair(i) => RepairBindCode(s.db, i, t.db);
  }

  lemma ClosingCode(s: Sys, l: Label, t: Sys)
    requires Next(s, l) == Some(t) && (l.CloseExecution? || l.AskRow?)
    ensures CodeKept(s.db, t.db)
  {
    hide CodeKept, CloseRow, InterruptForInput, RowKey;
    match l
    case CloseExecution(ok) => CloseCode(s.db, RowKey(s.db.state.value), if ok then RowSucceeded else RowFailed, t.db);
    case AskRow => AskCode(s.db, s.worker.permit, t.db);
  }

  lemma RecoverCode(s: Sys, a: AttemptId, t: Sys)
    requires Next(s, RecoverOrphan(a)) == Some(t)
    ensures CodeKept(s.db, t.db)
  {
    hide CodeKept, IsLatest, RecoverFromRow, RecoverInitial;
    OrphanCode(s.db, a, t.db, RecoverInitial(s.db, a, MAX_INITIAL_EXECUTION_RECOVERIES).value.1);
  }

  lemma AnsweredCode(s: Sys, q: ClarId, e: EventKey, t: Sys)
    requires Inv(s) && s.db.state.Some? && RootsConsumed(s.db) && Next(s, Answer(q, e)) == Some(t)
    ensures CodeKept(s.db, t.db)
  {
    SoundTables(s);
    SoundPermits(s.db);
    hide Inv, Sound, RootsConsumed, CodeKept, PermitsOk, ClarificationCurrent, AnswerClarification;
    AnswerCode(s.db, q, e, t.db);
  }

  lemma SoundPermits(db: Db)
    requires Sound(db)
    ensures PermitsOk(db.permits, db.plans)
  {
    hide PermitsOk, Records, ProgressOk, PlansOk, PhaseOk, LearnedOk;
  }

  /** A cycle's root is consumed when its first plan is inserted, and every version keeps it. */
  lemma RootsStep(s: Sys, l: Label, t: Sys)
    requires Inv(s) && Next(s, l) == Some(t) && RootsConsumed(s.db)
    requires forall k :: k in s.db.inputs ==> k in t.db.inputs
    ensures RootsConsumed(t.db)
  {
    hide Inv;
    if l.Begin? { BeginRoots(s, l, t); }
    else if l.EndRevision? || l.Revise? { RevisionRoots(s, l, t); }
    else if l.Post? || l.Approve? || l.Authorize? || l.FinalizePub? { StatusRoots(s, l, t); }
    else {
      hide Next;
      OtherStep(s, l, t);
    }
  }

  lemma BeginRoots(s: Sys, l: Label, t: Sys)
    requires Next(s, l) == Some(t) && RootsConsumed(s.db) && l.Begin?
    ensures RootsConsumed(t.db)
  {
    hide VersionTaken, FirstPlanFits;
  }

  lemma RevisionRoots(s: Sys, l: Label, t: Sys)
    requires Next(s, l) == Some(t) && RootsConsumed(s.db) && (l.EndRevision? || l.Revise?)
    requires forall k :: k in s.db.inputs ==> k in t.db.inputs
    ensures RootsConsumed(t.db)
  {
    hide VersionTaken, InvalidateUnconsumed, ControlClashes;
  }

  /** Only the status of a plan row changes. */
  lemma StatusRoots(s: Sys, l: Label, t: Sys)
    requires Next(s, l) == Some(t) && RootsConsumed(s.db) && (l.Post? || l.Approve? || l.Authorize? || l.FinalizePub?)
    requires forall k :: k in s.db.inputs ==> k in t.db.inputs
    ensures RootsConsumed(t.db)
  {
    hide PublicationTarget, KnownEvent, ControlClashes;
    if l.FinalizePub? { TargetPlan(s.db); }
  }

  lemma TargetPlan(db: Db)
    requires PublicationTarget(db).Some?
    ensures db.state.Some? && db.state.value.plan in db.plans
  {
    hide IsLatest, IsReviewOf, RowStatus, PublishedInput;
  }

  /** What holds of the rows when a cycle begins stays true whatever happens. */
  lemma ReferencedStep(s: Sys, l: Label, t: Sys)
    requires Inv(s) && s.db.state.Some? && Referenced(s.db) && Next(s, l) == Some(t)
    ensures Referenced(t.db)
  {
    hide Inv, Next, RunsCode;
    PhaseMoves(s, l, t);
    if l.Arrive? {
      ArrivalReferenced(s, l.event, t);
    } else {
      CodeStep(s, l, t);
      RootsStep(s, l, t);
      if Committed(t.db.state.value.phase) { CommittedBefore(s, l, t); }
      hide RootsConsumed;
      assert forall k :: KnownEvent(s.db, k) <==> KnownEvent(t.db, k);
    }
  }

  /** Only a bind commits a version to its execution. */
  lemma CommittedBefore(s: Sys, l: Label, t: Sys)
    requires Moved(s, l, t) && Committed(t.db.state.value.phase)
    ensures Committed(s.db.state.value.phase) || l.Bind?
  {
  }

  lemma ArrivalReferenced(s: Sys, e: Event, t: Sys)
    requires Referenced(s.db) && Next(s, Arrive(e)) == Some(t)
    ensures Referenced(t.db)
  {
    var db, d := s.db, t.db;
    assert d == db.(events := db.events + [e]) && !KnownEvent(db, e.key);
    forall k | RunsCode(d, k) ensures KnownEvent(d, k) {
      assert RunsCode(db, k);
      var x :| x in db.events && x.key == k;
      assert x in d.events;
    }
  }

  lemma FreshStep(s: Sys, l: Label, t: Sys)
    requires Inv(s) && s.db.state.None? && Referenced(s.db) && Next(s, l) == Some(t)
    ensures Referenced(t.db)
  {
    hide Sound;
    if l.Arrive? {
      ArrivalReferenced(s, l.event, t);
    } else if l.Begin? {
      BeginRoots(s, l, t);
      PlanningCode(s, l, t);
      hide VersionTaken, RunsCode, RootsConsumed;
      assert forall k :: KnownEvent(s.db, k) <==> KnownEvent(t.db, k);
    }
  }

  lemma {:induction false} RunReferenced(s: Sys, labels: seq<Label>, t: Sys)
    requires Inv(s) && Referenced(s.db) && Run(s, labels) == Some(t)
    ensures Inv(t) && Referenced(t.db)
    decreases |labels|
  {
    hide Inv, Next, Referenced;
    if labels != [] {
      var m := Next(s, labels[0]).value;
      Keep(s, labels[0], m);
      if s.db.state.Some? { ReferencedStep(s, labels[0], m); } else { FreshStep(s, labels[0], m); }
      RunReferenced(m, labels[1..], t);
    }
  }

  /** The scan refuses only an approval that has run code. */
  lemma {:induction false} ClashRunsCode(pending: seq<Event>, execs: map<ExecKey, ExecStatus>, inputs: map<EventKey, Purpose>)
    requires SweepPending(pending, execs, inputs).Clash?
    ensures exists e :: e in pending && e.body == ExactApproval && ControlClashes(execs, e.key)
  {
    var e := pending[0];
    match e.body
    case ExactApproval =>
      if !ControlClashes(execs, e.key) {
        ClashRunsCode(pending[1..], execs[EventExec(e.key) := RowSkipped], Consume(inputs, e.key, STALE_PLAN_APPROVAL));
        var x :| x in pending[1..] && x.body == ExactApproval && ControlClashes(execs[EventExec(e.key) := RowSkipped], x.key);
        assert x in pending && ControlClashes(execs, x.key);
      }
    case Chatter =>
      ClashRunsCode(pending[1..], execs, inputs);
      var x :| x in pending[1..] && x.body == ExactApproval && ControlClashes(execs, x.key);
      assert x in pending;
  }

  /** So the scan before a repair refuses nothing. */
  lemma RepairScanPasses(db: Db, root: EventKey)
    requires Referenced(db) && InPhase(db, REPAIR_READY)
    ensures !SweepPending(Pending(db.events, db.inputs, root), db.execs, db.inputs).Clash?
  {
    var pending := Pending(db.events, db.inputs, root);
    if SweepPending(pending, db.execs, db.inputs).Clash? {
      ClashRunsCode(pending, db.execs, db.inputs);
      var e :| e in pending && e.body == ExactApproval && ControlClashes(db.execs, e.key);
      PendingHolds(db.events, db.inputs, root, e);
      assert RunsCode(db, e.key);
    }
  }

  /** Over every run of a fresh thread: when a repair is ready, no waiting approval has run code, so the scan of its bind
      never raises. */
  lemma RepairScanNeverRefuses(s: Sys, labels: seq<Label>, t: Sys)
    requires Initial(s) && RowsKnown(s.db) && Run(s, labels) == Some(t)
    ensures Inv(t) && Referenced(t.db)
    ensures InPhase(t.db, REPAIR_READY) ==>
      !SweepPending(Pending(t.db.events, t.db.inputs, t.db.state.value.root), t.db.execs, t.db.inputs).Clash?
  {
    FreshReferenced(s);
    hide Next, Referenced, RowsKnown, SweepPending, Pending;
    assert Inv(s);
    RunReferenced(s, labels, t);
    if InPhase(t.db, REPAIR_READY) { RepairScanPasses(t.db, t.db.state.value.root); }
  }
}
