/** The rows of one IssueThread in the legacy workflow tables, and what each guarded store
    transaction does to them. Every function returns None exactly when the transaction raises
    and is rolled back. Timestamps that are only tested for NULL are booleans. */
module WorkflowModel {
  import opened Prelude

  type EventKey = nat
  type PlanId = nat
  type PermitId = nat
  type ReviewId = nat
  type ClarId = nat

  /** A logical workflow input: the root event itself, or a deferred follow-up. */
  datatype InputId = FromEvent(key: EventKey) | Deferred(id: nat)

  /** Ids the store derives by string formatting or hashing, as injective constructors. */
  datatype RepairId = RepairId(review: ReviewId, round: nat)
  datatype AttemptId = InitialOf(permit: PermitId) | RepairOf(repair: RepairId)
  datatype Authorization = ByPermit(permit: PermitId) | ByRepair(repair: RepairId)
  datatype ExecKey = EventExec(key: EventKey) | LogicalExec(cycle: nat, input: InputId)

  datatype Phase =
    | IDLE | PLANNING | WAITING_FOR_PLAN_APPROVAL | EXECUTION_READY | EXECUTING
    | EXECUTION_FAILED | AWAITING_PUBLICATION | REVIEW_EXECUTION | REPAIR_READY
    | REVIEW_BLOCKED | WAITING_FOR_INPUT
  datatype PlanStatus = DRAFT | POSTED | SUPERSEDED | APPROVED | AUTO_APPROVED | EXECUTED
  datatype ExecStatus = RowRunning | RowSucceeded | RowFailed | RowInterrupted | RowRetryPending | RowSkipped
  datatype AttemptStatus = Running | Succeeded | Failed | Interrupted
  datatype Verdict = ACCEPT | NEEDS_FIXES | BLOCKED
  datatype Kind = INITIAL | REVIEW_REPAIR
  datatype Purpose =
    | CYCLE_ROOT | PLAN_FEEDBACK | PLAN_APPROVAL | STALE_PLAN_APPROVAL | PLANNING_INPUT
    | CLARIFICATION_RESPONSE
  datatype ClarStatus = OPEN | ANSWERED | CANCELLED
  datatype PubStatus =
    | PubPending | PubCommitted | PubPushed | PubPrCreated | PubCommented | PubCompleted
    | PubNoChanges | PubFailed

  /** What matters of a comment body: an exact approval is a sub-kind of an invocation. */
  datatype Body = ExactApproval | Invocation | Chatter
  datatype Event = Event(key: EventKey, body: Body)

  datatype WState = WState(
    phase: Phase, cycle: nat, root: EventKey, input: Option<InputId>, plan: PlanId,
    feedback: Option<EventKey>)
  datatype Plan = Plan(cycle: nat, version: nat, root: EventKey, input: Option<InputId>, status: PlanStatus)
  datatype Permit = Permit(
    cycle: nat, plan: PlanId, version: nat, root: EventKey, consumed: bool, invalidated: bool)
  datatype Attempt = Attempt(
    cycle: nat, plan: PlanId, version: nat, root: EventKey, number: nat, kind: Kind, round: nat,
    parent: Option<ReviewId>, auth: Authorization, status: AttemptStatus,
    retries: nat, repairRecoveries: nat, reviewRecoveries: nat)
  datatype Review = Review(
    cycle: nat, plan: PlanId, version: nat, root: EventKey, attempt: AttemptId, verdict: Verdict)
  datatype Repair = Repair(
    cycle: nat, plan: PlanId, version: nat, root: EventKey, parent: ReviewId, round: nat,
    consumed: bool, invalidated: bool)
  datatype Clar = Clar(cycle: nat, status: ClarStatus)

  datatype Db = Db(
    events: seq<Event>,
    state: Option<WState>,
    plans: map<PlanId, Plan>,
    permits: map<PermitId, Permit>,
    attempts: map<AttemptId, Attempt>,
    reviews: map<ReviewId, Review>,
    repairs: map<RepairId, Repair>,
    execs: map<ExecKey, ExecStatus>,
    inputs: map<EventKey, Purpose>,
    clars: map<ClarId, Clar>,
    pubs: map<(nat, InputId), PubStatus>,
    learned: set<(nat, InputId)>,
    hasWorkspace: bool)

  const MAX_INITIAL_EXECUTION_RECOVERIES: nat := 3
  const MAX_REPAIR_EXECUTION_RECOVERIES: nat := 3
  const MAX_REVIEW_RECOVERIES: nat := 3
  const MAX_REPAIRS: nat := 5

  predicate Approved(s: PlanStatus) {
    s == APPROVED || s == AUTO_APPROVED
  }

  predicate Live(p: Permit) {
    !p.invalidated
  }

  function Effective(input: Option<InputId>, root: EventKey): InputId {
    input.GetOr(FromEvent(root))
  }

  // ------------------------------------------------------------------ table helpers

  predicate KnownEvent(db: Db, key: EventKey) {
    exists e :: e in db.events && e.key == key
  }

  /** UNIQUE(thread_id, cycle_id, version) on issue_plans. */
  predicate VersionTaken(plans: map<PlanId, Plan>, cycle: nat, version: nat) {
    exists p :: p in plans && plans[p].cycle == cycle && plans[p].version == version
  }

  /** UNIQUE(thread_id, cycle_id, attempt_number) on execution_attempts. */
  predicate NumberTaken(attempts: map<AttemptId, Attempt>, cycle: nat, number: nat) {
    exists a :: a in attempts && attempts[a].cycle == cycle && attempts[a].number == number
  }

  /** UNIQUE(thread_id, cycle_id, repair_round) on review_repair_permits. */
  predicate RoundTaken(repairs: map<RepairId, Repair>, cycle: nat, round: nat) {
    exists r :: r in repairs && repairs[r].cycle == cycle && repairs[r].round == round
  }

  predicate Reviewed(reviews: map<ReviewId, Review>, attempt: AttemptId) {
    exists r :: r in reviews && reviews[r].attempt == attempt
  }

  /** The row `ORDER BY attempt_number DESC LIMIT 1` picks for a cycle. */
  ghost predicate IsLatest(attempts: map<AttemptId, Attempt>, cycle: nat, a: AttemptId) {
    a in attempts && attempts[a].cycle == cycle &&
    forall b :: b in attempts && attempts[b].cycle == cycle ==> attempts[b].number <= attempts[a].number
  }

  ghost predicate IsReviewOf(reviews: map<ReviewId, Review>, attempt: AttemptId, r: ReviewId) {
    r in reviews && reviews[r].attempt == attempt
  }

  /** `INSERT ... ON CONFLICT(event_key) DO NOTHING` on thread_input_consumptions. */
  function Consume(inputs: map<EventKey, Purpose>, key: EventKey, purpose: Purpose): map<EventKey, Purpose> {
    if key in inputs then inputs else inputs[key := purpose]
  }

  /** `_resolve_workflow_control`: a control input may not already have run code. */
  predicate ControlClashes(execs: map<ExecKey, ExecStatus>, key: EventKey) {
    EventExec(key) in execs && execs[EventExec(key)] != RowSkipped
  }

  function InvalidateUnconsumed(permits: map<PermitId, Permit>, cycle: nat): map<PermitId, Permit> {
    map k | k in permits ::
      if permits[k].cycle == cycle && !permits[k].consumed && Live(permits[k])
      then permits[k].(invalidated := true) else permits[k]
  }

  function InvalidateAll(permits: map<PermitId, Permit>, cycle: nat): map<PermitId, Permit> {
    map k | k in permits ::
      if permits[k].cycle == cycle && Live(permits[k]) then permits[k].(invalidated := true) else permits[k]
  }

  function WithPhase(db: Db, phase: Phase): Db
    requires db.state.Some?
  {
    db.(state := Some(db.state.value.(phase := phase)))
  }

  // ------------------------------------------------------------------ queue order

  /** What `_assert_event_ordering` accepts as a resolved earlier event. */
  predicate Resolved(db: Db, key: EventKey) {
    var row := EventExec(key);
    row in db.execs &&
    (db.execs[row] == RowSkipped || (db.execs[row] == RowSucceeded && Published(db, key)))
  }

  predicate Published(db: Db, key: EventKey) {
    exists p :: p in db.pubs && p.1 == FromEvent(key) && db.pubs[p] in {PubCompleted, PubNoChanges}
  }

  /** Events are kept in (source_updated_at, discovered_at, event_key) order. */
  predicate OrderingHolds(db: Db, key: EventKey) {
    forall i | 0 <= i < |db.events| && db.events[i].key == key ::
      forall j | 0 <= j < i :: Resolved(db, db.events[j].key)
  }

  // ------------------------------------------------------------------ pending inputs

  /** The pending scan shared by both bind transactions, over the unconsumed events in order. */
  datatype Sweep =
    | Swept(execs: map<ExecKey, ExecStatus>, inputs: map<EventKey, Purpose>)
    | Waiting(key: EventKey, execs: map<ExecKey, ExecStatus>, inputs: map<EventKey, Purpose>)
    | Clash

  function Pending(events: seq<Event>, inputs: map<EventKey, Purpose>, root: EventKey): seq<Event> {
    if events == [] then []
    else
      var rest := Pending(events[1..], inputs, root);
      if events[0].key != root && events[0].key !in inputs then [events[0]] + rest else rest
  }

  function SweepPending(pending: seq<Event>, execs: map<ExecKey, ExecStatus>, inputs: map<EventKey, Purpose>): Sweep {
    if pending == [] then Swept(execs, inputs)
    else
      var e := pending[0];
      match e.body
      case ExactApproval =>
        if ControlClashes(execs, e.key) then Clash
        else SweepPending(pending[1..], execs[EventExec(e.key) := RowSkipped],
                          Consume(inputs, e.key, STALE_PLAN_APPROVAL))
      case Invocation => Waiting(e.key, execs, inputs)
      case Chatter => SweepPending(pending[1..], execs, inputs)
  }

  // ------------------------------------------------------------------ planning

  function BeginCycle(db: Db, planId: PlanId, plan: Plan, st: WState): Option<Db> {
    if db.state.Some? && db.state.value.phase != IDLE then None
    else if db.state.Some? && st.cycle != db.state.value.cycle + 1 then None
    else if planId in db.plans || VersionTaken(db.plans, plan.cycle, plan.version) then None
    else Some(db.(inputs := Consume(db.inputs, plan.root, CYCLE_ROOT),
                  plans := db.plans[planId := plan],
                  state := Some(st)))
  }

  function MarkPosted(db: Db, planId: PlanId): Option<Db> {
    if db.state.None? || planId !in db.plans || db.state.value.plan != planId then None
    else
      var st, plan := db.state.value, db.plans[planId];
      if st.phase == WAITING_FOR_PLAN_APPROVAL && plan.status == POSTED then Some(db)
      else if st.phase == PLANNING && plan.status in {DRAFT, POSTED} then
        Some(WithPhase(db, WAITING_FOR_PLAN_APPROVAL).(plans := db.plans[planId := plan.(status := POSTED)]))
      else None
  }

  predicate Approvable(db: Db, permit: Permit) {
    && db.state.Some?
    && permit.plan in db.plans
    && db.state.value.phase == WAITING_FOR_PLAN_APPROVAL
    && db.state.value.plan == permit.plan
    && db.plans[permit.plan].status == POSTED
  }

  /** The tail shared by both approvals: stamp the plan, insert the permit, enter EXECUTION_READY. */
  function Grant(db: Db, permitId: PermitId, permit: Permit, status: PlanStatus): Option<Db>
    requires Approvable(db, permit)
  {
    if permitId in db.permits then None
    else Some(WithPhase(db, EXECUTION_READY).(
              plans := db.plans[permit.plan := db.plans[permit.plan].(status := status)],
              permits := db.permits[permitId := permit.(consumed := false, invalidated := false)]))
  }

  function ApprovePlan(db: Db, event: EventKey, permitId: PermitId, permit: Permit): Option<Db> {
    if !Approvable(db, permit) || !KnownEvent(db, event) then None
    else if event in db.inputs || ControlClashes(db.execs, event) then None
    else Grant(db.(inputs := db.inputs[event := PLAN_APPROVAL],
                   execs := db.execs[EventExec(event) := RowSkipped]), permitId, permit, APPROVED)
  }

  function AuthorizePlan(db: Db, permitId: PermitId, permit: Permit): Option<Db> {
    if !Approvable(db, permit) then None else Grant(db, permitId, permit, AUTO_APPROVED)
  }

  function BeginRevision(db: Db, event: EventKey): Option<Db> {
    if !KnownEvent(db, event) || db.state.None? then None
    else
      var st := db.state.value;
      if st.phase !in {WAITING_FOR_PLAN_APPROVAL, EXECUTION_READY} &&
         !(st.phase == PLANNING && st.feedback == Some(event)) then None
      else Some(db.(permits := InvalidateUnconsumed(db.permits, st.cycle),
                    state := Some(st.(phase := PLANNING, feedback := Some(event)))))
  }

  /** Supersede the current plan and make `plan` the current one. */
  function Replace(db: Db, planId: PlanId, plan: Plan, st: WState): Option<Db> {
    if db.state.None? || db.state.value.plan !in db.plans then None
    else if planId in db.plans || VersionTaken(db.plans, plan.cycle, plan.version) then None
    else
      var current := db.state.value.plan;
      Some(db.(plans := db.plans[current := db.plans[current].(status := SUPERSEDED)][planId := plan],
               state := Some(st.(plan := planId))))
  }

  function FinishRevision(db: Db, planId: PlanId, plan: Plan, event: EventKey): Option<Db> {
    if db.state.None? || db.state.value.plan !in db.plans then None
    else
      var st := db.state.value;
      if st.phase != PLANNING || st.feedback != Some(event) || ControlClashes(db.execs, event) then None
      else Replace(db.(inputs := Consume(db.inputs, event, PLAN_FEEDBACK),
                       execs := db.execs[EventExec(event) := RowSkipped]),
                   planId, plan, st.(feedback := None))
  }

  function RevisePlan(db: Db, event: EventKey, planId: PlanId, plan: Plan): Option<Db> {
    if db.state.None? || db.state.value.plan !in db.plans then None
    else
      var st := db.state.value;
      if st.phase !in {WAITING_FOR_PLAN_APPROVAL, EXECUTION_READY} then None
      else if event in db.inputs || ControlClashes(db.execs, event) then None
      else Replace(db.(inputs := db.inputs[event := PLAN_FEEDBACK],
                       execs := db.execs[EventExec(event) := RowSkipped],
                       permits := InvalidateUnconsumed(db.permits, st.cycle)),
                   planId, plan, st.(phase := PLANNING))
  }

  // ------------------------------------------------------------------ initial execution

  function ExecKeyOf(cycle: nat, root: EventKey, input: InputId): ExecKey {
    if input != FromEvent(root) then LogicalExec(cycle, input) else EventExec(root)
  }

  function RowStatus(execs: map<ExecKey, ExecStatus>, k: ExecKey): Option<ExecStatus> {
    if k in execs then Some(execs[k]) else None
  }

  /** Every guard of `bind_authorized_execution` before its pending scan. */
  predicate PermitBindable(db: Db, permitId: PermitId) {
    && permitId in db.permits
    && var permit := db.permits[permitId];
    && Live(permit)
    && db.state.Some?
    && permit.plan in db.plans
    && var st, plan := db.state.value, db.plans[permit.plan];
    && st.phase == EXECUTION_READY
    && st.cycle == permit.cycle
    && st.plan == permit.plan
    && plan.version == permit.version
    && Approved(plan.status)
    && plan.root == permit.root
    && KnownEvent(db, permit.root)
  }

  /** The guards on the execution row after the pending scan. */
  predicate RowClaimable(db: Db, permit: Permit, input: InputId) {
    && var eventRow := RowStatus(db.execs, EventExec(permit.root));
    && var logicalRow := RowStatus(db.execs, LogicalExec(permit.cycle, input));
    && var logical := input != FromEvent(permit.root);
    && (!logical ==> eventRow in {None, Some(RowRetryPending)})
    && (permit.consumed ==> eventRow == Some(RowRetryPending))
    && OrderingHolds(db, permit.root)
    && (logical ==> logicalRow in {None, Some(RowRetryPending), Some(RowInterrupted)})
  }

  /** `INSERT OR IGNORE` of the initial attempt row: numbered 1 whatever the cycle already holds. */
  function InsertInitial(db: Db, permitId: PermitId, permit: Permit): map<AttemptId, Attempt> {
    var id := InitialOf(permitId);
    if id in db.attempts || NumberTaken(db.attempts, permit.cycle, 1) then db.attempts
    else db.attempts[id := Attempt(permit.cycle, permit.plan, permit.version, permit.root, 1, INITIAL,
                                   0, None, ByPermit(permitId), Running, 0, 0, 0)]
  }

  function BindAuthorized(db: Db, permitId: PermitId): Option<Db> {
    if !PermitBindable(db, permitId) then None
    else
      var permit := db.permits[permitId];
      var input := Effective(db.plans[permit.plan].input, db.plans[permit.plan].root);
      match SweepPending(Pending(db.events, db.inputs, permit.root), db.execs, db.inputs)
      case Clash => None
      case Waiting(_, _, _) => None
      case Swept(execs, inputs) =>
        var swept := db.(execs := execs, inputs := inputs);
        if !RowClaimable(swept, permit, input) then None
        else Some(WithPhase(swept, EXECUTING).(
                  execs := execs[ExecKeyOf(permit.cycle, permit.root, input) := RowRunning],
                  permits := db.permits[permitId := permit.(consumed := true)],
                  attempts := InsertInitial(db, permitId, permit)))
  }

  /** The attempt rows after `ensure_execution_attempt`: a known attempt runs again, a new one is appended. */
  ghost function Ensured(attempts: map<AttemptId, Attempt>, id: AttemptId, permit: Permit): map<AttemptId, Attempt>
    requires id.InitialOf?
  {
    if id in attempts then
      var row := attempts[id];
      if row.status == Succeeded then attempts
      else attempts[id := row.(status := Running, retries := row.retries + 1)]
    else
      attempts[id := Attempt(permit.cycle, permit.plan, permit.version, permit.root, NextNumber(attempts, permit.cycle),
                             INITIAL, 0, None, ByPermit(id.permit), Running, 0, 0, 0)]
  }

  /** `ensure_execution_attempt` for the initial attempt of a permit. */
  ghost function EnsureAttempt(db: Db, permitId: PermitId): Option<Db> {
    if permitId !in db.permits then None
    else Some(db.(attempts := Ensured(db.attempts, InitialOf(permitId), db.permits[permitId])))
  }

  /** `COALESCE(MAX(attempt_number), 0) + 1`. */
  ghost function NextNumber(attempts: map<AttemptId, Attempt>, cycle: nat): (n: nat) {
    if exists a :: IsLatest(attempts, cycle, a) then
      var a :| IsLatest(attempts, cycle, a); attempts[a].number + 1
    else 1
  }

  /** `_update_execution`: only a RUNNING row may be closed. */
  function CloseRow(db: Db, k: ExecKey, status: ExecStatus): Option<Db> {
    if RowStatus(db.execs, k) != Some(RowRunning) then None
    else Some(db.(execs := db.execs[k := status]))
  }

  function FinishAttempt(db: Db, id: AttemptId, status: AttemptStatus): Db {
    db.(attempts := if id in db.attempts then db.attempts[id := db.attempts[id].(status := status)] else db.attempts)
  }

  /** The driver's `save_workflow_state(replace(state, phase=...))`. */
  function SavePhase(db: Db, phase: Phase): Option<Db> {
    if db.state.None? then None else Some(WithPhase(db, phase))
  }

  datatype Outcome = RETRY | EXHAUSTED

  predicate InitialMayResume(db: Db, a: Attempt) {
    && db.state.Some?
    && a.plan in db.plans
    && a.auth.ByPermit? && a.auth.permit in db.permits
    && db.state.value.phase == EXECUTING
    && db.state.value.cycle == a.cycle
    && db.state.value.plan == a.plan
    && db.plans[a.plan].version == a.version
    && Approved(db.plans[a.plan].status)
    && Live(db.permits[a.auth.permit])
  }

  function PhaseIf(state: Option<WState>, from: Phase, to: Phase): Option<WState> {
    if state.Some? && state.value.phase == from then Some(state.value.(phase := to)) else state
  }

  /** The execution row a cycle's plan points at, `_execution_target`. The latest plan version decides. */
  ghost function ExecutionTarget(plans: map<PlanId, Plan>, cycle: nat, root: EventKey): ExecKey {
    ExecKeyOf(cycle, root, Effective(
      if exists p :: IsLatestPlan(plans, cycle, p) then (var p :| IsLatestPlan(plans, cycle, p); plans[p].input) else None,
      root))
  }

  ghost predicate IsLatestPlan(plans: map<PlanId, Plan>, cycle: nat, p: PlanId) {
    p in plans && plans[p].cycle == cycle &&
    forall q :: q in plans && plans[q].cycle == cycle ==> plans[q].version <= plans[p].version
  }

  ghost function RecoverInitial(db: Db, id: AttemptId, max: nat): Option<(Db, Outcome)> {
    if id !in db.attempts || db.attempts[id].kind != INITIAL || db.attempts[id].status != Running then None
    else
      var a := db.attempts[id];
      if !InitialMayResume(db, a) || a.retries >= max then
        Some((db.(attempts := db.attempts[id := a.(status := Failed)],
                  state := PhaseIf(db.state, EXECUTING, REVIEW_BLOCKED)), EXHAUSTED))
      else
        var k := ExecutionTarget(db.plans, a.cycle, a.root);
        Some((db.(attempts := db.attempts[id := a.(status := Interrupted)],
                  execs := if RowStatus(db.execs, k) == Some(RowRunning) then db.execs[k := RowRetryPending] else db.execs,
                  permits := db.permits[a.auth.permit := db.permits[a.auth.permit].(consumed := false)],
                  state := PhaseIf(db.state, EXECUTING, EXECUTION_READY)), RETRY))
  }

  // ------------------------------------------------------------------ review

  function SaveReview(db: Db, id: ReviewId, review: Review): Db {
    db.(reviews := if id in db.reviews || Reviewed(db.reviews, review.attempt) then db.reviews else db.reviews[id := review])
  }

  /** The guards `accept_execution_review` and `block_execution_review` share. */
  ghost predicate ReviewCurrent(db: Db, id: ReviewId) {
    && id in db.reviews
    && db.state.Some?
    && var r, st := db.reviews[id], db.state.value;
    && r.attempt in db.attempts
    && r.plan in db.plans
    && var a, p := db.attempts[r.attempt], db.plans[r.plan];
    && st.phase == REVIEW_EXECUTION
    && r.cycle == st.cycle
    && r.root == st.root
    && st.plan == r.plan
    && p.version == r.version
    && Approved(p.status)
    && IsLatest(db.attempts, st.cycle, r.attempt)
    && a.root == st.root
    && a.plan == r.plan
    && a.version == p.version
    && a.status == Succeeded
  }

  ghost function AcceptReview(db: Db, id: ReviewId): Option<Db> {
    if !ReviewCurrent(db, id) || db.reviews[id].verdict != ACCEPT then None
    else Some(WithPhase(db, AWAITING_PUBLICATION))
  }

  function InvalidateRepairs(repairs: map<RepairId, Repair>, cycle: nat, plan: PlanId): map<RepairId, Repair> {
    map k | k in repairs ::
      if repairs[k].cycle == cycle && repairs[k].plan == plan && !repairs[k].consumed && !repairs[k].invalidated
      then repairs[k].(invalidated := true) else repairs[k]
  }

  ghost function BlockReview(db: Db, id: ReviewId): Option<Db> {
    if !ReviewCurrent(db, id) || db.reviews[id].verdict != BLOCKED then None
    else Some(WithPhase(db, REVIEW_BLOCKED).(
              repairs := InvalidateRepairs(db.repairs, db.state.value.cycle, db.reviews[id].plan)))
  }

  function InvalidateThreadRepairs(repairs: map<RepairId, Repair>): map<RepairId, Repair> {
    map k | k in repairs :: if !repairs[k].consumed then repairs[k].(invalidated := true) else repairs[k]
  }

  /** The latest attempt of the current cycle and the review `create_repair_permit` reads with it. */
  ghost predicate Repairable(db: Db, a: AttemptId, r: ReviewId) {
    && db.state.Some?
    && db.state.value.plan in db.plans
    && IsLatest(db.attempts, db.state.value.cycle, a)
    && IsReviewOf(db.reviews, a, r)
    && var st, p, rev := db.state.value, db.plans[db.state.value.plan], db.reviews[r];
    && st.phase == REVIEW_EXECUTION
    && db.attempts[a].status == Succeeded
    && rev.verdict == NEEDS_FIXES
    && rev.cycle == st.cycle
    && rev.root == st.root
    && rev.plan == st.plan
    && rev.version == p.version
    && Approved(p.status)
  }

  ghost function CreateRepairFor(db: Db, a: AttemptId, r: ReviewId, max: nat): Db
    requires Repairable(db, a, r)
  {
    var st, p, round := db.state.value, db.plans[db.state.value.plan], db.attempts[a].round + 1;
    var id, spent := RepairId(r, round), round > max;
    WithPhase(db, if spent then REVIEW_BLOCKED else REPAIR_READY).(repairs :=
      if spent then InvalidateThreadRepairs(db.repairs)
      else if id in db.repairs || RoundTaken(db.repairs, st.cycle, round) then db.repairs
      else db.repairs[id := Repair(st.cycle, st.plan, p.version, st.root, r, round, false, false)])
  }

  /** `create_repair_permit`; the exhausted branch commits before it raises. */
  ghost function CreateRepair(db: Db, max: nat): Option<Db> {
    if exists a, r :: Repairable(db, a, r) then
      var a, r :| Repairable(db, a, r); Some(CreateRepairFor(db, a, r, max))
    else None
  }

  ghost function ReviewFailure(db: Db, id: AttemptId): Option<(Db, Outcome)> {
    if id !in db.attempts || db.state.None? then None
    else if db.attempts[id].reviewRecoveries >= MAX_REVIEW_RECOVERIES then
      Some((WithPhase(db, REVIEW_BLOCKED), EXHAUSTED))
    else
      var a := db.attempts[id];
      Some((db.(attempts := db.attempts[id := a.(reviewRecoveries := a.reviewRecoveries + 1)]), RETRY))
  }

  // ------------------------------------------------------------------ repair execution

  /** The review, attempt and plan chain every repair transaction re-proves. */
  predicate ChainMatches(db: Db, p: Repair) {
    && p.plan in db.plans
    && db.plans[p.plan].version == p.version
    && Approved(db.plans[p.plan].status)
    && p.parent in db.reviews
    && var rev := db.reviews[p.parent];
    && rev.verdict == NEEDS_FIXES
    && rev.cycle == p.cycle && rev.root == p.root && rev.plan == p.plan && rev.version == p.version
    && rev.attempt in db.attempts
    && var pa := db.attempts[rev.attempt];
    && pa.status == Succeeded
    && pa.cycle == p.cycle && pa.root == p.root && pa.plan == p.plan && pa.version == p.version
    && pa.round + 1 == p.round
  }

  ghost predicate RepairBindable(db: Db, id: RepairId) {
    && id in db.repairs
    && var p := db.repairs[id];
    && !p.invalidated && !p.consumed
    && db.state.Some?
    && var st := db.state.value;
    && st.phase == REPAIR_READY
    && st.cycle == p.cycle && st.root == p.root && st.plan == p.plan
    && ChainMatches(db, p)
    && var parentId := db.reviews[p.parent].attempt;
    && if RepairOf(id) in db.attempts then
         var e := db.attempts[RepairOf(id)];
         && e.kind == REVIEW_REPAIR && e.status in {Failed, Running}
         && e.cycle == p.cycle && e.root == p.root && e.plan == p.plan && e.version == p.version
         && e.parent == Some(p.parent) && e.round == p.round
         && e.number == db.attempts[parentId].number + 1
       else IsLatest(db.attempts, p.cycle, parentId)
  }

  /** The attempt row a repair bind writes: the known attempt again, or the next number and round. */
  function RepairRow(db: Db, id: RepairId): Attempt
    requires id in db.repairs && db.repairs[id].parent in db.reviews && db.reviews[db.repairs[id].parent].attempt in db.attempts
  {
    var p := db.repairs[id];
    if RepairOf(id) in db.attempts then
      db.attempts[RepairOf(id)].(status := Running, retries := db.attempts[RepairOf(id)].retries + 1)
    else
      Attempt(p.cycle, p.plan, p.version, p.root, db.attempts[db.reviews[p.parent].attempt].number + 1,
              REVIEW_REPAIR, p.round, Some(p.parent), ByRepair(id), Running, 0, 0, 0)
  }

  ghost function BindRepair(db: Db, id: RepairId): Option<Db> {
    if !RepairBindable(db, id) then None
    else
      match SweepPending(Pending(db.events, db.inputs, db.repairs[id].root), db.execs, db.inputs)
      case Clash => None
      case Waiting(_, execs, inputs) =>
        Some(WithPhase(db, REVIEW_BLOCKED).(
             execs := execs, inputs := inputs, repairs := db.repairs[id := db.repairs[id].(invalidated := true)]))
      case Swept(execs, inputs) =>
        Some(WithPhase(db, EXECUTING).(
             execs := execs, inputs := inputs, attempts := db.attempts[RepairOf(id) := RepairRow(db, id)]))
  }

  function FinishRepair(db: Db, id: RepairId, aid: AttemptId): Option<Db> {
    if id !in db.repairs || aid !in db.attempts || db.attempts[aid].auth != ByRepair(id) || db.state.None? then None
    else Some(WithPhase(db, REVIEW_EXECUTION).(
              attempts := db.attempts[aid := db.attempts[aid].(status := Succeeded)],
              repairs := db.repairs[id := db.repairs[id].(consumed := true)]))
  }

  function FailRepair(db: Db, aid: AttemptId): Option<Db> {
    if aid !in db.attempts || db.state.None? then None
    else
      var a := db.attempts[aid];
      Some(WithPhase(db, REVIEW_BLOCKED).(
           attempts := db.attempts[aid := a.(status := Failed)],
           repairs := InvalidateIfUnconsumed(db.repairs, a.auth)))
  }

  function InvalidateIfUnconsumed(repairs: map<RepairId, Repair>, auth: Authorization): map<RepairId, Repair> {
    if auth.ByRepair? && auth.repair in repairs && !repairs[auth.repair].consumed then
      repairs[auth.repair := repairs[auth.repair].(invalidated := true)]
    else repairs
  }

  ghost predicate RepairOrphan(db: Db, aid: AttemptId) {
    && aid in db.attempts
    && var a := db.attempts[aid];
    && a.auth.ByRepair? && a.auth.repair in db.repairs
    && var p := db.repairs[a.auth.repair];
    && db.state.Some?
    && var st := db.state.value;
    && a.kind == REVIEW_REPAIR && a.status == Running
    && !p.consumed && !p.invalidated
    && st.phase == EXECUTING
    && st.cycle == a.cycle && st.root == a.root && st.plan == a.plan
    && p.cycle == a.cycle && p.plan == a.plan && p.version == a.version && p.root == a.root
    && a.parent == Some(p.parent) && a.round == p.round
    && ChainMatches(db, p)
    && db.attempts[db.reviews[p.parent].attempt].number + 1 == a.number
    && IsLatest(db.attempts, a.cycle, aid)
  }

  ghost function RecoverRepair(db: Db, aid: AttemptId): Option<Db> {
    if !RepairOrphan(db, aid) then None
    else
      var a := db.attempts[aid];
      var spent := a.repairRecoveries >= MAX_REPAIR_EXECUTION_RECOVERIES;
      Some(WithPhase(db, if spent then REVIEW_BLOCKED else REPAIR_READY).(
           attempts := db.attempts[aid := if spent then a.(status := Failed)
                                          else a.(status := Failed, repairRecoveries := a.repairRecoveries + 1)],
           repairs := if spent then InvalidateIfUnconsumed(db.repairs, a.auth) else db.repairs))
  }

  // ------------------------------------------------------------------ clarification

  /** `interrupt_execution_for_clarification`. */
  ghost function InterruptForInput(db: Db, permitId: PermitId): Option<Db> {
    if permitId !in db.permits || db.state.None? then None
    else
      var permit := db.permits[permitId];
      var closed := CloseRow(db, ExecutionTarget(db.plans, permit.cycle, permit.root), RowInterrupted);
      if closed.None? then None
      else if db.state.value.plan == permit.plan then Some(WithPhase(closed.value, WAITING_FOR_INPUT))
      else closed
  }

  function OpenClarification(db: Db, id: ClarId): Option<Db> {
    if db.state.None? || id in db.clars then None
    else Some(db.(clars := db.clars[id := Clar(db.state.value.cycle, OPEN)]))
  }

  ghost predicate LivePermitIn(permits: map<PermitId, Permit>, cycle: nat, k: PermitId) {
    k in permits && permits[k].cycle == cycle && Live(permits[k])
  }

  /** `resume_clarification` and `resolve_clarification_answer` agree on every row kept here. */
  ghost function AnswerClarification(db: Db, id: ClarId, event: EventKey): Option<Db> {
    if id !in db.clars || db.clars[id].status != OPEN || db.state.None? then None
    else
      var cycle := db.clars[id].cycle;
      var answered := db.(clars := db.clars[id := Clar(cycle, ANSWERED)],
                          inputs := Consume(db.inputs, event, CLARIFICATION_RESPONSE));
      if exists k :: LivePermitIn(db.permits, cycle, k) then
        var k :| LivePermitIn(db.permits, cycle, k);
        var target := ExecutionTarget(db.plans, cycle, db.permits[k].root);
        Some(WithPhase(answered, EXECUTION_READY).(
             permits := db.permits[k := db.permits[k].(consumed := false)],
             execs := if target in db.execs then db.execs[target := RowRetryPending] else db.execs))
      else Some(answered)
  }

  function CancelClarification(db: Db, id: ClarId, event: EventKey): Option<Db> {
    if id !in db.clars || db.clars[id].status != OPEN || db.state.None? then None
    else Some(db.(clars := db.clars[id := Clar(db.clars[id].cycle, CANCELLED)],
                  inputs := Consume(db.inputs, event, PLANNING_INPUT),
                  permits := InvalidateAll(db.permits, db.clars[id].cycle),
                  state := Some(db.state.value.(phase := PLANNING, feedback := Some(event)))))
  }

  // ------------------------------------------------------------------ publication

  /** The legacy branch of `_publication_target` (no declarative cycle exists on this thread). */
  ghost predicate Publishable(db: Db, a: AttemptId, r: ReviewId) {
    && db.state.Some?
    && var st := db.state.value;
    && st.phase == AWAITING_PUBLICATION
    && st.plan in db.plans
    && var p := db.plans[st.plan];
    && p.cycle == st.cycle && p.root == st.root && Approved(p.status)
    && var input := PublishedInput(st, p);
    && (p.input.Some? ==> p.input.value == input)
    && RowStatus(db.execs, ExecKeyOf(st.cycle, st.root, input)) == Some(RowSucceeded)
    && IsLatest(db.attempts, st.cycle, a)
    && var at := db.attempts[a];
    && at.status == Succeeded && at.plan == st.plan && at.version == p.version && at.root == st.root
    && IsReviewOf(db.reviews, a, r)
    && var rev := db.reviews[r];
    && rev.verdict == ACCEPT
    && rev.cycle == st.cycle && rev.root == st.root && rev.plan == st.plan && rev.version == p.version
    && db.hasWorkspace
  }

  function PublishedInput(st: WState, p: Plan): InputId {
    if st.input.Some? then st.input.value else Effective(p.input, st.root)
  }

  /** Some(cycle, input) names the one publication id the thread may act for. */
  ghost function PublicationTarget(db: Db): Option<(nat, InputId)> {
    if exists a, r :: Publishable(db, a, r) then
      Some((db.state.value.cycle, PublishedInput(db.state.value, db.plans[db.state.value.plan])))
    else None
  }

  ghost function EnsurePublication(db: Db): Option<Db> {
    match PublicationTarget(db)
    case None => None
    case Some(id) => Some(db.(pubs := if id in db.pubs then db.pubs else db.pubs[id := PubPending]))
  }

  function UpdatePublication(db: Db, id: (nat, InputId), status: PubStatus): Option<Db> {
    if id !in db.pubs then None else Some(db.(pubs := db.pubs[id := status]))
  }

  ghost function Finalize(db: Db, id: (nat, InputId)): Option<Db> {
    if id !in db.pubs || db.pubs[id] !in {PubCompleted, PubNoChanges} || PublicationTarget(db) != Some(id) then None
    else
      var st := db.state.value;
      // The closing UPDATE matches COALESCE(root_input_id, root_event_key) and must hit one row.
      if Effective(st.input, st.root) != id.1 then None
      else Some(WithPhase(db, IDLE).(
                plans := db.plans[st.plan := db.plans[st.plan].(status := EXECUTED)],
                learned := db.learned + {id}))
  }
}
