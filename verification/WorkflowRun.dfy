/** Runs of one IssueThread: the guarded transactions of WorkflowModel in the order the engine
    calls them, with a worker that can die between any two transactions. */
module WorkflowRun {
  import opened Prelude
  import opened WorkflowModel

  /** Where the one worker that holds the IssueThread lock stands inside an execution. */
  datatype Worker =
    | Idle
    | Bound(permit: PermitId)                     // bind_authorized_execution committed
    | Executing(permit: PermitId)                 // ensure_execution_attempt committed
    | RowClosed(permit: PermitId, ok: bool)       // execution row SUCCEEDED or FAILED
    | AttemptClosed(permit: PermitId, ok: bool)   // attempt row SUCCEEDED or FAILED
    | Asked(permit: PermitId)                     // clarification persisted
    | AskedAttempt(permit: PermitId)              // attempt INTERRUPTED
    | AskedRow                                    // row INTERRUPTED, phase WAITING_FOR_INPUT
    | Repairing(repair: RepairId)                 // bind_repair_execution committed

  datatype Sys = Sys(db: Db, worker: Worker)

  datatype Label =
    | Arrive(event: Event)
    | Begin(planId: PlanId, plan: Plan, st: WState)
    | Post(postId: PlanId)
    | Approve(key: EventKey, grantId: PermitId, grant: Permit)
    | Authorize(grantId: PermitId, grant: Permit)
    | StartRevision(key: EventKey)
    | EndRevision(key: EventKey, planId: PlanId, plan: Plan)
    | Revise(key: EventKey, planId: PlanId, plan: Plan)
    | Bind(permit: PermitId)
    | Ensure
    | CloseExecution(ok: bool)
    | CloseAttempt
    | SaveOutcome
    | Ask(clar: ClarId)
    | AskAttempt
    | AskRow
    | AskSaved
    | Die
    | RecoverSuccess
    | RecoverOrphan(attempt: AttemptId)
    | Judge(review: ReviewId, verdict: Verdict)
    | ReviewDies
    | ReviewFails
    | Accept(review: ReviewId)
    | Block(review: ReviewId)
    | MakeRepair
    | StartRepair(repair: RepairId)
    | EndRepair
    | AbortRepair
    | RecoverRepairOf(attempt: AttemptId)
    | Answer(clar: ClarId, key: EventKey)
    | Cancel(clar: ClarId, key: EventKey)
    | EnsurePub
    | AdvancePub(status: PubStatus)
    | FinalizePub

  /** A fresh thread: events may be there, no workflow row is. */
  predicate Initial(s: Sys) {
    && s.worker == Idle
    && s.db.state == None
    && s.db.plans == map[] && s.db.permits == map[] && s.db.attempts == map[]
    && s.db.reviews == map[] && s.db.repairs == map[] && s.db.clars == map[]
    && s.db.pubs == map[] && s.db.learned == {}
  }

  /** The plan and state records begin_next_cycle builds for the next cycle. */
  predicate FirstPlanFits(db: Db, planId: PlanId, plan: Plan, st: WState) {
    && plan.version == 1
    && plan.cycle == st.cycle && plan.root == st.root && plan.input == st.input
    && st.plan == planId && st.feedback == None
    && (db.state.None? ==> st.cycle == 1)
    && ((plan.status == DRAFT && st.phase == PLANNING) ||
        (plan.status == POSTED && st.phase == WAITING_FOR_PLAN_APPROVAL))
  }

  /** The revised plan record: next version of the current plan, same cycle, root and input. */
  predicate NextPlanFits(db: Db, plan: Plan) {
    && db.state.Some? && db.state.value.plan in db.plans
    && var current := db.plans[db.state.value.plan];
    && plan == current.(version := current.version + 1, status := DRAFT)
  }

  /** The permit record an approval builds names the current plan exactly. */
  predicate GrantFits(db: Db, grant: Permit) {
    && db.state.Some? && grant.plan in db.plans
    && grant.cycle == db.state.value.cycle
    && grant.version == db.plans[grant.plan].version
    && grant.root == db.plans[grant.plan].root
  }

  /** The clarification the driver resolves was asked in the cycle that waits for it. */
  predicate ClarificationCurrent(db: Db, clar: ClarId) {
    && clar in db.clars && db.state.Some?
    && db.state.value.phase == WAITING_FOR_INPUT
    && db.clars[clar].cycle == db.state.value.cycle
  }

  predicate InPhase(db: Db, phase: Phase) {
    db.state.Some? && db.state.value.phase == phase
  }

  function Then(db: Option<Db>, worker: Worker): Option<Sys> {
    match db
    case None => None
    case Some(d) => Some(Sys(d, worker))
  }

  /** The execution row of the current lifecycle. */
  function RowKey(st: WState): ExecKey {
    ExecKeyOf(st.cycle, st.root, Effective(st.input, st.root))
  }

  function Row(db: Db): Option<ExecStatus>
    requires db.state.Some?
  {
    RowStatus(db.execs, RowKey(db.state.value))
  }

  /** The permit lookup `_recover_initial_execution` repeats before it trusts a durable success. */
  predicate StillAuthorized(db: Db, k: PermitId)
    requires db.state.Some?
  {
    && var st := db.state.value;
    && k in db.permits && Live(db.permits[k])
    && st.plan in db.plans && Approved(db.plans[st.plan].status)
    && db.permits[k] == Permit(st.cycle, st.plan, db.plans[st.plan].version, st.root, db.permits[k].consumed, false)
  }

  /** `_recover_initial_execution`: rebuild an attempt's success from the durable execution row.
      Its two transactions (finish the attempt, save the phase) are two steps. */
  ghost function RecoverFromRow(db: Db): Option<Db> {
    if !InPhase(db, EXECUTING) || Row(db) != Some(RowSucceeded) then None
    else if exists a :: IsLatest(db.attempts, db.state.value.cycle, a) then
      var a :| IsLatest(db.attempts, db.state.value.cycle, a);
      if db.attempts[a].kind != INITIAL then None
      else if !(exists k :: StillAuthorized(db, k)) then SavePhase(db, REVIEW_BLOCKED)
      else if db.attempts[a].status != Succeeded then Some(FinishAttempt(db, a, Succeeded))
      else SavePhase(db, REVIEW_EXECUTION)
    else None
  }

  ghost function JudgeLatest(db: Db, id: ReviewId, verdict: Verdict): Option<Db> {
    if !InPhase(db, REVIEW_EXECUTION) || db.state.value.plan !in db.plans || id in db.reviews then None
    else if exists a :: IsLatest(db.attempts, db.state.value.cycle, a) then
      var a :| IsLatest(db.attempts, db.state.value.cycle, a);
      var st := db.state.value;
      if Reviewed(db.reviews, a) then None
      else Some(SaveReview(db, id, Review(st.cycle, st.plan, db.plans[st.plan].version, st.root, a, verdict)))
    else None
  }

  ghost function FailReview(db: Db): Option<Db> {
    if !InPhase(db, REVIEW_EXECUTION) then None
    else if exists a :: IsLatest(db.attempts, db.state.value.cycle, a) then
      var a :| IsLatest(db.attempts, db.state.value.cycle, a);
      var outcome := ReviewFailure(db, a);
      if Reviewed(db.reviews, a) || outcome.None? then None else Some(outcome.value.0)
    else None
  }

  /** One step; None when it is not enabled or its transaction raises. */
  ghost function Next(s: Sys, l: Label): Option<Sys> {
    var db, w := s.db, s.worker;
    match l
    case Arrive(e) => if KnownEvent(db, e.key) then None else Then(Some(db.(events := db.events + [e])), w)
    case Begin(p, plan, st) =>
      if w == Idle && FirstPlanFits(db, p, plan, st) then Then(BeginCycle(db, p, plan, st), w) else None
    case Post(p) => if w == Idle then Then(MarkPosted(db, p), w) else None
    case Approve(e, k, grant) =>
      if w == Idle && GrantFits(db, grant) then Then(ApprovePlan(db, e, k, grant), w) else None
    case Authorize(k, grant) =>
      if w == Idle && GrantFits(db, grant) then Then(AuthorizePlan(db, k, grant), w) else None
    case StartRevision(e) => if w == Idle then Then(BeginRevision(db, e), w) else None
    case EndRevision(e, p, plan) =>
      if w == Idle && NextPlanFits(db, plan) then Then(FinishRevision(db, p, plan, e), w) else None
    case Revise(e, p, plan) =>
      if w == Idle && NextPlanFits(db, plan) then Then(RevisePlan(db, e, p, plan), w) else None
    case Bind(k) => if w == Idle then Then(BindAuthorized(db, k), Bound(k)) else None
    case Ensure => if w.Bound? then Then(EnsureAttempt(db, w.permit), Executing(w.permit)) else None
    case CloseExecution(ok) =>
      if w.Executing? && db.state.Some?
      then Then(CloseRow(db, RowKey(db.state.value), if ok then RowSucceeded else RowFailed), RowClosed(w.permit, ok)) else None
    case CloseAttempt =>
      if w.RowClosed?
      then Then(Some(FinishAttempt(db, InitialOf(w.permit), if w.ok then Succeeded else Failed)), AttemptClosed(w.permit, w.ok))
      else None
    case SaveOutcome =>
      if w.AttemptClosed? then Then(SavePhase(db, if w.ok then REVIEW_EXECUTION else EXECUTION_FAILED), Idle) else None
    case Ask(q) => if w.Executing? then Then(OpenClarification(db, q), Asked(w.permit)) else None
    case AskAttempt =>
      if w.Asked? then Then(Some(FinishAttempt(db, InitialOf(w.permit), Interrupted)), AskedAttempt(w.permit)) else None
    case AskRow => if w.AskedAttempt? then Then(InterruptForInput(db, w.permit), AskedRow) else None
    case AskSaved => if w.AskedRow? then Then(SavePhase(db, WAITING_FOR_INPUT), Idle) else None
    case Die => if w == Idle then None else Some(Sys(db, Idle))
    case RecoverSuccess => if w == Idle then Then(RecoverFromRow(db), Idle) else None
    case RecoverOrphan(a) =>
      // Recovery first tries the durable success, then reads the latest attempt.
      if w == Idle && InPhase(db, EXECUTING) && IsLatest(db.attempts, db.state.value.cycle, a) && RecoverFromRow(db).None? then
        (match RecoverInitial(db, a, MAX_INITIAL_EXECUTION_RECOVERIES)
         case None => None
         case Some(r) => Some(Sys(r.0, Idle)))
      else None
    case Judge(r, verdict) => if w == Idle then Then(JudgeLatest(db, r, verdict), Idle) else None
    case ReviewDies => if w == Idle && InPhase(db, REVIEW_EXECUTION) then Some(s) else None
    case ReviewFails => if w == Idle then Then(FailReview(db), Idle) else None
    case Accept(r) => if w == Idle then Then(AcceptReview(db, r), Idle) else None
    case Block(r) => if w == Idle then Then(BlockReview(db, r), Idle) else None
    case MakeRepair => if w == Idle then Then(CreateRepair(db, MAX_REPAIRS), Idle) else None
    case StartRepair(id) =>
      if w == Idle then
        (match BindRepair(db, id)
         case None => None
         case Some(d) => Some(Sys(d, if InPhase(d, EXECUTING) then Repairing(id) else Idle)))
      else None
    case EndRepair => if w.Repairing? then Then(FinishRepair(db, w.repair, RepairOf(w.repair)), Idle) else None
    case AbortRepair => if w.Repairing? then Then(FailRepair(db, RepairOf(w.repair)), Idle) else None
    case RecoverRepairOf(a) => if w == Idle then Then(RecoverRepair(db, a), Idle) else None
    case Answer(q, e) => if w == Idle && ClarificationCurrent(db, q) then Then(AnswerClarification(db, q, e), w) else None
    case Cancel(q, e) => if w == Idle && ClarificationCurrent(db, q) then Then(CancelClarification(db, q, e), w) else None
    case EnsurePub => if w == Idle then Then(EnsurePublication(db), w) else None
    case AdvancePub(status) =>
      (match PublicationTarget(db)
       case None => None
       case Some(id) => if w == Idle then Then(UpdatePublication(db, id, status), w) else None)
    case FinalizePub =>
      (match PublicationTarget(db)
       case None => None
       case Some(id) => if w == Idle then Then(Finalize(db, id), w) else None)
  }

  /** The state a run of labels reaches; None when some label is not enabled where it stands. */
  ghost function Run(s: Sys, labels: seq<Label>): Option<Sys>
    decreases |labels|
  {
    if labels == [] then Some(s)
    else match Next(s, labels[0])
      case None => None
      case Some(t) => Run(t, labels[1..])
  }
}
