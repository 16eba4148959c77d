/** What every reachable state of a run keeps, table by table. */
module WorkflowInvariant {
  import opened Prelude
  import opened WorkflowModel
  import opened WorkflowRun

  type Plans = map<PlanId, Plan>
  type Permits = map<PermitId, Permit>
  type Attempts = map<AttemptId, Attempt>
  type Reviews = map<ReviewId, Review>
  type Repairs = map<RepairId, Repair>

  ghost predicate LivePlanIn(plans: Plans, cycle: nat, p: PlanId) {
    p in plans && plans[p].cycle == cycle && plans[p].status != SUPERSEDED
  }

  /** Each cycle has exactly one plan that is not SUPERSEDED; in the current cycle it is the current plan. */
  ghost predicate PlansOk(plans: Plans, cycle: nat, root: EventKey, input: Option<InputId>, current: PlanId) {
    && LivePlanIn(plans, cycle, current)
    && (forall p :: p in plans ==>
         && plans[p].cycle <= cycle
         && (plans[p].cycle == cycle ==>
              plans[p].root == root && plans[p].input == input && plans[p].version <= plans[current].version))
    && (forall p, q, c :: LivePlanIn(plans, c, p) && LivePlanIn(plans, c, q) ==> p == q)
    && (forall p, c {:trigger plans[p], HasLivePlan(plans, c)} :: p in plans && plans[p].cycle == c ==> HasLivePlan(plans, c))
  }

  ghost predicate HasLivePlan(plans: Plans, cycle: nat) {
    exists q :: LivePlanIn(plans, cycle, q)
  }

  ghost predicate PermitFits(t: Permit, plans: Plans) {
    && t.plan in plans
    && var p := plans[t.plan];
    && t.cycle == p.cycle && t.version == p.version && t.root == p.root
    && (Live(t) ==> Approved(p.status) || p.status == EXECUTED)
  }

  /** A live permit names the one live plan of its cycle at its exact version, and is alone in its cycle. */
  ghost predicate PermitsOk(permits: Permits, plans: Plans) {
    && (forall k :: k in permits ==> PermitFits(permits[k], plans))
    && (forall k, l, c :: LivePermitIn(permits, c, k) && LivePermitIn(permits, c, l) ==> k == l)
  }

  ghost predicate NoLivePermit(permits: Permits, cycle: nat) {
    forall k :: !LivePermitIn(permits, cycle, k)
  }

  ghost predicate PhaseOk(phase: Phase, cycle: nat, permits: Permits, status: PlanStatus) {
    && (phase in {PLANNING, WAITING_FOR_PLAN_APPROVAL} ==> NoLivePermit(permits, cycle))
    && (phase == WAITING_FOR_PLAN_APPROVAL ==> status == POSTED)
    && (phase == PLANNING ==> status in {DRAFT, POSTED, APPROVED, AUTO_APPROVED})
    && (phase == IDLE ==> status == EXECUTED)
    && (phase !in {PLANNING, WAITING_FOR_PLAN_APPROVAL, IDLE} ==>
         Approved(status) && !NoLivePermit(permits, cycle))
    && (phase == EXECUTION_READY ==> forall k :: LivePermitIn(permits, cycle, k) ==> !permits[k].consumed)
  }

  predicate SameLineage(t: Attempt, cycle: nat, plan: PlanId, version: nat, root: EventKey) {
    t.cycle == cycle && t.plan == plan && t.version == version && t.root == root
  }

  /** An attempt row repeats the execution permit or the repair permit that authorized it. */
  ghost predicate RowOk(t: Attempt, permits: Permits, repairs: Repairs) {
    match t.auth
    case ByPermit(k) =>
      && t.kind == INITIAL && t.round == 0 && t.parent == None
      && k in permits
      && SameLineage(t, permits[k].cycle, permits[k].plan, permits[k].version, permits[k].root)
    case ByRepair(i) =>
      && t.kind == REVIEW_REPAIR && t.round == i.round && t.parent == Some(i.review)
      && i in repairs
      && SameLineage(t, repairs[i].cycle, repairs[i].plan, repairs[i].version, repairs[i].root)
  }

  ghost predicate AttemptFits(t: Attempt, plans: Plans) {
    && t.plan in plans
    && SameLineage(t, plans[t.plan].cycle, t.plan, plans[t.plan].version, plans[t.plan].root)
  }

  /** Every attempt names a plan of its own cycle at that plan's version. */
  ghost predicate LineageOk(attempts: Attempts, plans: Plans) {
    forall a :: a in attempts ==> AttemptFits(attempts[a], plans)
  }

  function AuthOf(a: AttemptId): Authorization {
    match a case InitialOf(k) => ByPermit(k) case RepairOf(i) => ByRepair(i)
  }

  ghost predicate RowsOk(attempts: Attempts, permits: Permits, repairs: Repairs) {
    forall a :: a in attempts ==> attempts[a].auth == AuthOf(a) && RowOk(attempts[a], permits, repairs)
  }

  /** A repair attempt is numbered just after the attempt its parent review judged. */
  ghost predicate FollowsParent(attempts: Attempts, reviews: Reviews, i: RepairId) {
    && i.review in reviews
    && reviews[i.review].attempt in attempts
    && RepairOf(i) in attempts
    && attempts[reviews[i.review].attempt].number + 1 == attempts[RepairOf(i)].number
  }

  ghost predicate ParentsOk(attempts: Attempts, reviews: Reviews) {
    forall i :: RepairOf(i) in attempts ==> FollowsParent(attempts, reviews, i)
  }

  /** Attempt numbers of a cycle are distinct and have no gap below them. */
  ghost predicate NumbersOk(attempts: Attempts, cycle: nat) {
    && (forall a :: a in attempts ==> 1 <= attempts[a].number && attempts[a].cycle <= cycle)
    && (forall a, b ::
         a in attempts && b in attempts && attempts[a].cycle == attempts[b].cycle && attempts[a].number == attempts[b].number ==>
           a == b)
    && (forall a, c, n {:trigger attempts[a], NumberTaken(attempts, c, n)} ::
         a in attempts && attempts[a].cycle == c && 1 <= n <= attempts[a].number ==> NumberTaken(attempts, c, n))
  }

  /** The initial attempt of the live permit is the newest initial attempt of the cycle. */
  ghost predicate NewestOk(attempts: Attempts, permits: Permits, cycle: nat) {
    forall k, b :: LivePermitIn(permits, cycle, k) && InitialOf(k) in attempts &&
                   b in attempts && b.InitialOf? && attempts[b].cycle == cycle ==>
      attempts[b].number <= attempts[InitialOf(k)].number
  }

  ghost predicate ReviewsOk(reviews: Reviews, attempts: Attempts) {
    && (forall r :: r in reviews ==>
         var v := reviews[r];
         && v.attempt in attempts
         && var t := attempts[v.attempt];
         && t.status == Succeeded
         && v.cycle == t.cycle && v.plan == t.plan && v.version == t.version && v.root == t.root)
    && (forall r, q, a :: IsReviewOf(reviews, a, r) && IsReviewOf(reviews, a, q) ==> r == q)
  }

  ghost predicate RepairsOk(repairs: Repairs, reviews: Reviews, attempts: Attempts) {
    forall i :: i in repairs ==>
      var p := repairs[i];
      && p.parent == i.review && p.round == i.round && 1 <= i.round <= MAX_REPAIRS
      && i.review in reviews
      && var v := reviews[i.review];
      && v.verdict == NEEDS_FIXES
      && p.cycle == v.cycle && p.plan == v.plan && p.version == v.version && p.root == v.root
      && v.attempt in attempts
      && attempts[v.attempt].round + 1 == i.round
  }

  ghost predicate SucceededIn(attempts: Attempts, cycle: nat, a: AttemptId) {
    a in attempts && attempts[a].cycle == cycle && attempts[a].status == Succeeded
  }

  ghost predicate NoSuccess(attempts: Attempts, cycle: nat) {
    forall a :: !SucceededIn(attempts, cycle, a)
  }

  /** A success is backed by the execution row, and no two successes share a repair round. */
  ghost predicate SuccessOk(attempts: Attempts, cycle: nat, phase: Phase, row: Option<ExecStatus>) {
    && (!NoSuccess(attempts, cycle) ==> row == Some(RowSucceeded))
    && (forall a, b, c :: SucceededIn(attempts, c, a) && SucceededIn(attempts, c, b) && attempts[a].round == attempts[b].round ==> a == b)
    && (phase in {PLANNING, WAITING_FOR_PLAN_APPROVAL, EXECUTION_READY, WAITING_FOR_INPUT, EXECUTION_FAILED} ==>
         NoSuccess(attempts, cycle))
  }

  ghost predicate Usable(repairs: Repairs, i: RepairId) {
    i in repairs && !repairs[i].consumed && !repairs[i].invalidated
  }

  /** Only the repair the thread is about to run, or is running, is usable. */
  ghost predicate UsableOk(repairs: Repairs, reviews: Reviews, attempts: Attempts, cycle: nat, phase: Phase, plan: PlanId) {
    forall i :: Usable(repairs, i) ==>
      && repairs[i].cycle == cycle
      && repairs[i].plan == plan
      && phase in {REPAIR_READY, EXECUTING}
      && i.review in reviews
      && if RepairOf(i) in attempts then
           IsLatest(attempts, cycle, RepairOf(i)) &&
           attempts[RepairOf(i)].status == (if phase == REPAIR_READY then Failed else Running)
         else phase == REPAIR_READY && IsLatest(attempts, cycle, reviews[i.review].attempt)
  }

  ghost predicate NotRepaired(repairs: Repairs, reviews: Reviews, a: AttemptId) {
    forall i :: i in repairs && i.review in reviews ==> reviews[i.review].attempt != a
  }

  /** The latest attempt while it runs: either the initial one, or the repair of a usable permit. */
  ghost predicate RunningShape(
    attempts: Attempts, permits: Permits, repairs: Repairs, reviews: Reviews, cycle: nat, row: Option<ExecStatus>, a: AttemptId)
  {
    && IsLatest(attempts, cycle, a)
    && if a.InitialOf? then
         && (forall b :: SucceededIn(attempts, cycle, b) ==> b == a)
         && (row == Some(RowSucceeded) ==> LivePermitIn(permits, cycle, a.permit))
         && NotRepaired(repairs, reviews, a)
       else Usable(repairs, a.repair)
  }

  ghost predicate AcceptedBy(reviews: Reviews, a: AttemptId, r: ReviewId) {
    IsReviewOf(reviews, a, r) && reviews[r].verdict == ACCEPT
  }

  ghost predicate ReviewShape(
    attempts: Attempts, reviews: Reviews, repairs: Repairs, cycle: nat, phase: Phase, plan: PlanId, a: AttemptId)
  {
    && IsLatest(attempts, cycle, a)
    && attempts[a].plan == plan
    && (phase == REVIEW_EXECUTION ==> attempts[a].status == Succeeded && NotRepaired(repairs, reviews, a))
    && (phase == AWAITING_PUBLICATION ==> attempts[a].status == Succeeded && exists r :: AcceptedBy(reviews, a, r))
    && (phase == REPAIR_READY ==> exists i :: Usable(repairs, i))
  }

  ghost predicate ShapeOk(db: Db)
    requires db.state.Some?
  {
    var st := db.state.value;
    && (st.phase == EXECUTING ==>
         exists a :: RunningShape(db.attempts, db.permits, db.repairs, db.reviews, st.cycle, Row(db), a))
    && (st.phase in {REVIEW_EXECUTION, AWAITING_PUBLICATION, REPAIR_READY} ==>
         exists a :: ReviewShape(db.attempts, db.reviews, db.repairs, st.cycle, st.phase, st.plan, a))
  }

  /** A lifecycle is learned only once its cycle has closed. */
  ghost predicate LearnedOk(learned: set<(nat, InputId)>, cycle: nat, phase: Phase) {
    forall id :: id in learned ==> id.0 <= cycle && (id.0 == cycle ==> phase == IDLE)
  }

  ghost predicate InitialAt(db: Db, k: PermitId, status: AttemptStatus)
    requires db.state.Some?
  {
    && InPhase(db, EXECUTING)
    && LivePermitIn(db.permits, db.state.value.cycle, k)
    && IsLatest(db.attempts, db.state.value.cycle, InitialOf(k))
    && db.attempts[InitialOf(k)].status == status
  }

  ghost predicate WorkerOk(s: Sys)
    requires s.db.state.Some?
  {
    var db, cycle := s.db, s.db.state.value.cycle;
    match s.worker
    case Idle => true
    case Bound(k) =>
      InPhase(db, EXECUTING) && LivePermitIn(db.permits, cycle, k) && Row(db) == Some(RowRunning) && NoSuccess(db.attempts, cycle)
    case Executing(k) => InitialAt(db, k, Running) && Row(db) == Some(RowRunning) && NoSuccess(db.attempts, cycle)
    case Asked(k) => InitialAt(db, k, Running) && Row(db) == Some(RowRunning) && NoSuccess(db.attempts, cycle)
    case RowClosed(k, ok) =>
      InitialAt(db, k, Running) && Row(db) == Some(if ok then RowSucceeded else RowFailed) && NoSuccess(db.attempts, cycle)
    case AttemptClosed(k, ok) =>
      InitialAt(db, k, if ok then Succeeded else Failed) &&
      Row(db) == Some(if ok then RowSucceeded else RowFailed) && (!ok ==> NoSuccess(db.attempts, cycle))
    case AskedAttempt(k) => InitialAt(db, k, Interrupted) && Row(db) == Some(RowRunning) && NoSuccess(db.attempts, cycle)
    case AskedRow => InPhase(db, WAITING_FOR_INPUT)
    case Repairing(i) =>
      InPhase(db, EXECUTING) && Usable(db.repairs, i) && IsLatest(db.attempts, cycle, RepairOf(i))
  }

  ghost predicate PlanTablesOk(db: Db)
    requires db.state.Some?
  {
    var st := db.state.value;
    && PlansOk(db.plans, st.cycle, st.root, st.input, st.plan)
    && PermitsOk(db.permits, db.plans)
    && PhaseOk(st.phase, st.cycle, db.permits, db.plans[st.plan].status)
    && LearnedOk(db.learned, st.cycle, st.phase)
  }

  /** The attempt, review and repair tables agree with each other and with the permits. */
  ghost predicate RecordsOk(attempts: Attempts, permits: Permits, repairs: Repairs, reviews: Reviews, cycle: nat) {
    && RowsOk(attempts, permits, repairs)
    && ParentsOk(attempts, reviews)
    && NumbersOk(attempts, cycle)
    && NewestOk(attempts, permits, cycle)
    && ReviewsOk(reviews, attempts)
    && RepairsOk(repairs, reviews, attempts)
  }

  /** What the phase says about the attempts of the current cycle. */
  ghost predicate ProgressOk(db: Db)
    requires db.state.Some?
  {
    var st := db.state.value;
    && SuccessOk(db.attempts, st.cycle, st.phase, Row(db))
    && UsableOk(db.repairs, db.reviews, db.attempts, st.cycle, st.phase, st.plan)
    && ShapeOk(db)
  }

  ghost predicate Records(db: Db)
    requires db.state.Some?
  {
    && RecordsOk(db.attempts, db.permits, db.repairs, db.reviews, db.state.value.cycle)
    && LineageOk(db.attempts, db.plans)
  }

  ghost predicate Sound(db: Db) {
    db.state.Some? && PlanTablesOk(db) && Records(db) && ProgressOk(db)
  }

  ghost predicate Inv(s: Sys) {
    if s.db.state.None? then Initial(s) else Sound(s.db) && WorkerOk(s)
  }
}
