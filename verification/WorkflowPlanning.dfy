/** Planning, approval and revision keep the invariant: no permit survives the plan it names. */
module WorkflowPlanning {
  import opened Prelude
  import opened WorkflowModel
  import opened WorkflowRun
  import opened WorkflowInvariant
  import opened WorkflowTables

  /** Only rows outside the invariant changed. */
  predicate SameRows(db: Db, d: Db) {
    && d.state == db.state && d.plans == db.plans && d.permits == db.permits && d.attempts == db.attempts
    && d.reviews == db.reviews && d.repairs == db.repairs && d.learned == db.learned
  }

  lemma OtherRows(db: Db, d: Db)
    requires Sound(db) && SameRows(db, d) && Row(d) == Row(db)
    ensures Sound(d)
  {
    hide PlansOk, PermitsOk, PhaseOk, RecordsOk, SuccessOk, UsableOk, RunningShape, ReviewShape, Row;
  }

  /** With no worker inside an execution the tables alone carry the invariant. */
  lemma Unattended(db: Db)
    requires Sound(db)
    ensures Inv(Sys(db, Idle))
  {
    hide PlanTablesOk, Records, ProgressOk;
  }

  lemma SoundTables(s: Sys)
    requires Inv(s) && s.db.state.Some?
    ensures Sound(s.db)
  {
    hide PlanTablesOk, Records, ProgressOk, Initial;
  }

  /** The execution row depends on the lifecycle identity and the execution table only. */
  lemma SameRow(db: Db, d: Db)
    requires db.state.Some? && d.state.Some? && d.execs == db.execs
    requires var s, t := db.state.value, d.state.value; s.cycle == t.cycle && s.root == t.root && s.input == t.input
    ensures Row(d) == Row(db)
  {
  }

  predicate Idling(phase: Phase) {
    phase in {PLANNING, WAITING_FOR_PLAN_APPROVAL, EXECUTION_READY, WAITING_FOR_INPUT, EXECUTION_FAILED, IDLE}
  }

  /** Before execution there is no success to explain, and no repair to run. */
  lemma IdleProgress(db: Db, d: Db)
    requires db.state.Some? && ProgressOk(db) && d.state.Some?
    requires d.attempts == db.attempts && d.repairs == db.repairs && d.reviews == db.reviews
    requires d.state.value.cycle == db.state.value.cycle
    requires Idling(db.state.value.phase) && Idling(d.state.value.phase)
    requires d.state.value.phase != IDLE && db.state.value.phase != IDLE
    ensures ProgressOk(d)
  {
  }

  lemma FirstCycle(db: Db, p: PlanId, plan: Plan, st: WState, d: Db)
    requires Initial(Sys(db, Idle)) && FirstPlanFits(db, p, plan, st) && BeginCycle(db, p, plan, st) == Some(d)
    ensures Sound(d)
  {
    assert PlanTablesOk(d) by {
      assert LivePlanIn(d.plans, st.cycle, p);
      assert HasLivePlan(d.plans, st.cycle);
    }
    hide PlanTablesOk, FirstPlanFits;
  }

  lemma BegunIs(db: Db, p: PlanId, plan: Plan, st: WState, d: Db)
    requires db.state.Some? && BeginCycle(db, p, plan, st) == Some(d)
    ensures p !in db.plans && db.state.value.phase == IDLE && st.cycle == db.state.value.cycle + 1
    ensures d == db.(inputs := d.inputs, plans := db.plans[p := plan], state := Some(st))
  {
  }

  lemma KeepBegin(db: Db, p: PlanId, plan: Plan, st: WState, d: Db)
    requires Sound(db) && FirstPlanFits(db, p, plan, st) && BeginCycle(db, p, plan, st) == Some(d)
    ensures Sound(d)
  {
    hide PlanTablesOk, Records, ProgressOk, BeginCycle;
    BegunIs(db, p, plan, st, d);
    hide FirstPlanFits;
    BeginPlans(db, p, plan, st, d);
    BeginRecords(db, p, plan, st, d);
    BeginProgress(db, st, d);
  }

  lemma BeginPlans(db: Db, p: PlanId, plan: Plan, st: WState, d: Db)
    requires db.state.Some? && PlanTablesOk(db) && FirstPlanFits(db, p, plan, st)
    requires p !in db.plans && st.cycle == db.state.value.cycle + 1
    requires d == db.(inputs := d.inputs, plans := db.plans[p := plan], state := Some(st))
    ensures PlanTablesOk(d)
  {
    PlanAdded(db.plans, db.state.value.cycle, db.state.value.root, db.state.value.input, db.state.value.plan, p, plan);
    hide PlansOk;
    assert forall k :: k in db.permits ==> db.permits[k].cycle < st.cycle;
  }

  lemma PlanAdded(plans: Plans, cycle: nat, root: EventKey, input: Option<InputId>, current: PlanId, p: PlanId, plan: Plan)
    requires PlansOk(plans, cycle, root, input, current) && p !in plans
    requires plan.cycle == cycle + 1 && plan.status != SUPERSEDED
    ensures PlansOk(plans[p := plan], cycle + 1, plan.root, plan.input, p)
    ensures forall q :: q in plans ==> plans[q].cycle <= cycle
  {
    var y := plans[p := plan];
    assert LivePlanIn(y, cycle + 1, p);
    forall q, c | q in y && y[q].cycle == c ensures HasLivePlan(y, c) {
      if q != p {
        assert HasLivePlan(plans, c) by { assert plans[q].cycle == c; }
        var e :| LivePlanIn(plans, c, e);
        assert LivePlanIn(y, c, e);
      }
    }
    forall q, e, c | LivePlanIn(y, c, q) && LivePlanIn(y, c, e) ensures q == e {
      assert q != p ==> LivePlanIn(plans, c, q);
      assert e != p ==> LivePlanIn(plans, c, e);
    }
  }

  lemma BeginRecords(db: Db, p: PlanId, plan: Plan, st: WState, d: Db)
    requires db.state.Some? && PlanTablesOk(db) && Records(db)
    requires p !in db.plans && st.cycle == db.state.value.cycle + 1
    requires d == db.(inputs := d.inputs, plans := db.plans[p := plan], state := Some(st))
    ensures Records(d)
  {
    assert NewestOk(db.attempts, d.permits, st.cycle) by {
      hide RecordsOk, LineageOk;
      assert forall k :: k in db.permits ==> db.permits[k].cycle < st.cycle;
    }
    hide PlanTablesOk;
    assert LineageOk(d.attempts, d.plans) by { hide RecordsOk; }
    hide RowsOk, ParentsOk, NumbersOk, ReviewsOk, RepairsOk, NewestOk, LineageOk;
    RecordsGrow(db.attempts, db.permits, db.repairs, db.reviews, db.state.value.cycle,
                d.permits, d.repairs, d.reviews, st.cycle);
  }

  lemma BeginProgress(db: Db, st: WState, d: Db)
    requires db.state.Some? && Records(db) && ProgressOk(db) && db.state.value.phase == IDLE
    requires st.cycle == db.state.value.cycle + 1 && st.phase in {PLANNING, WAITING_FOR_PLAN_APPROVAL}
    requires d.state == Some(st) && d.attempts == db.attempts && d.repairs == db.repairs && d.reviews == db.reviews
    ensures ProgressOk(d)
  {
    NoneUsableAtRest(db);
    assert forall a :: a in db.attempts ==> db.attempts[a].cycle < st.cycle by {
      hide RowsOk, ParentsOk, NewestOk, ReviewsOk, RepairsOk, LineageOk, ProgressOk;
    }
    hide Records, Row, UsableOk, ShapeOk;
    assert NoSuccess(d.attempts, st.cycle);
    NoUsableOk(d);
    ShapelessPlanning(d);
  }

  lemma NoneUsableAtRest(db: Db)
    requires db.state.Some? && ProgressOk(db) && db.state.value.phase !in {REPAIR_READY, EXECUTING}
    ensures forall i :: !Usable(db.repairs, i)
  {
    hide Row, ShapeOk, SuccessOk;
  }

  lemma NoUsableOk(db: Db)
    requires db.state.Some? && forall i :: !Usable(db.repairs, i)
    ensures UsableOk(db.repairs, db.reviews, db.attempts, db.state.value.cycle, db.state.value.phase, db.state.value.plan)
  {
  }

  lemma ShapelessPlanning(db: Db)
    requires db.state.Some? && db.state.value.phase !in {EXECUTING, REVIEW_EXECUTION, AWAITING_PUBLICATION, REPAIR_READY}
    ensures ShapeOk(db)
  {
  }

  /** A plan that changes only its status keeps the plan table sound while it stays live. */
  lemma PlanRestatused(plans: Plans, cycle: nat, root: EventKey, input: Option<InputId>, current: PlanId, status: PlanStatus)
    requires PlansOk(plans, cycle, root, input, current) && status != SUPERSEDED
    ensures PlansOk(plans[current := plans[current].(status := status)], cycle, root, input, current)
  {
    var y := plans[current := plans[current].(status := status)];
    assert forall q, c :: LivePlanIn(y, c, q) <==> LivePlanIn(plans, c, q);
    forall q, c | q in y && y[q].cycle == c ensures HasLivePlan(y, c) {
      assert HasLivePlan(plans, c) by { assert plans[q].cycle == c; }
      var e :| LivePlanIn(plans, c, e);
      assert LivePlanIn(y, c, e);
    }
  }

  lemma PostedIs(db: Db, p: PlanId, d: Db)
    requires MarkPosted(db, p) == Some(d)
    ensures db.state.Some? && p in db.plans && db.state.value.plan == p
    ensures db.state.value.phase in {PLANNING, WAITING_FOR_PLAN_APPROVAL}
    ensures d.plans == db.plans[p := db.plans[p].(status := POSTED)]
    ensures d == WithPhase(db, WAITING_FOR_PLAN_APPROVAL).(plans := d.plans)
  {
  }

  /** A restated current plan keeps the plan tables while the phase allows its status. */
  lemma Restated(db: Db, phase: Phase, status: PlanStatus, d: Db)
    requires db.state.Some? && PlanTablesOk(db) && db.state.value.plan in db.plans && phase == WAITING_FOR_PLAN_APPROVAL && status == POSTED
    requires db.state.value.phase in {PLANNING, WAITING_FOR_PLAN_APPROVAL}
    requires d == WithPhase(db, phase).(plans := db.plans[db.state.value.plan := db.plans[db.state.value.plan].(status := status)])
    ensures PlanTablesOk(d)
  {
    var st := db.state.value;
    PlanRestatused(db.plans, st.cycle, st.root, st.input, st.plan, status);
    hide PlansOk;
    forall k | k in db.permits ensures PermitFits(db.permits[k], d.plans) {
      assert PermitFits(db.permits[k], db.plans);
      if Live(db.permits[k]) { assert LivePermitIn(db.permits, db.permits[k].cycle, k); }
    }
  }

  lemma KeepPost(db: Db, p: PlanId, d: Db)
    requires Sound(db) && MarkPosted(db, p) == Some(d)
    ensures Sound(d)
  {
    hide PlanTablesOk, Records, ProgressOk, MarkPosted;
    PostedIs(db, p, d);
    Restated(db, WAITING_FOR_PLAN_APPROVAL, POSTED, d);
    IdleProgress(db, d);
    SameRecords(db, d);
  }

  /** Plans that keep their identity leave the attempts' lineage alone. */
  lemma SameRecords(db: Db, d: Db)
    requires db.state.Some? && Records(db) && d.state.Some? && d.state.value.cycle == db.state.value.cycle
    requires d.attempts == db.attempts && d.permits == db.permits && d.repairs == db.repairs && d.reviews == db.reviews
    requires forall q :: q in db.plans ==> q in d.plans && d.plans[q] == db.plans[q].(status := d.plans[q].status)
    ensures Records(d)
  {
    hide RecordsOk;
  }

  /** `d` is `db` with plan `grant.plan` approved and the fresh permit `k` in hand. */
  ghost predicate Granted(db: Db, k: PermitId, grant: Permit, status: PlanStatus, d: Db) {
    && db.state.Some? && k !in db.permits && grant.plan == db.state.value.plan && grant.plan in db.plans
    && InPhase(db, WAITING_FOR_PLAN_APPROVAL) && Approved(status)
    && GrantFits(db, grant) && !grant.consumed && !grant.invalidated
    && d == WithPhase(db, EXECUTION_READY).(
              inputs := d.inputs, execs := d.execs,
              plans := db.plans[grant.plan := db.plans[grant.plan].(status := status)],
              permits := db.permits[k := grant])
  }

  lemma GrantedLive(db: Db, k: PermitId, grant: Permit, status: PlanStatus, d: Db)
    requires Granted(db, k, grant, status, d) && PlanTablesOk(db)
    ensures LivePermitIn(d.permits, db.state.value.cycle, k)
    ensures forall j, c :: LivePermitIn(d.permits, c, j) && j != k ==> LivePermitIn(db.permits, c, j) && c != db.state.value.cycle
  {
    hide PlansOk, PermitsOk;
    assert forall j, c :: LivePermitIn(d.permits, c, j) && j != k ==> LivePermitIn(db.permits, c, j);
  }

  lemma GrantKeepsPlanTables(db: Db, k: PermitId, grant: Permit, status: PlanStatus, d: Db)
    requires Granted(db, k, grant, status, d) && PlanTablesOk(db)
    ensures PlanTablesOk(d)
  {
    var st := db.state.value;
    PlanRestatused(db.plans, st.cycle, st.root, st.input, st.plan, status);
    GrantedLive(db, k, grant, status, d);
    hide PlansOk;
    assert forall j, l, c :: LivePermitIn(d.permits, c, j) && LivePermitIn(d.permits, c, l) ==> j == l;
    assert forall j :: j in d.permits ==> PermitFits(d.permits[j], d.plans);
  }

  lemma GrantKeepsRecords(db: Db, k: PermitId, grant: Permit, status: PlanStatus, d: Db)
    requires Granted(db, k, grant, status, d) && PlanTablesOk(db) && Records(db)
    ensures Records(d)
  {
    hide PlanTablesOk, ParentsOk, NumbersOk, ReviewsOk, RepairsOk, NewestOk, RowsOk, LineageOk, GrantFits;
    GrantKeepsNewest(db, k, grant, status, d);
    RowsGrow(db.attempts, db.permits, db.repairs, d.permits, d.repairs);
    GrantKeepsLineage(db, d);
  }

  lemma GrantKeepsLineage(db: Db, d: Db)
    requires db.state.Some? && db.state.value.plan in db.plans && LineageOk(db.attempts, db.plans)
    requires var p := db.state.value.plan; p in d.plans && d.plans == db.plans[p := db.plans[p].(status := d.plans[p].status)]
    ensures LineageOk(db.attempts, d.plans)
  {
  }

  lemma PermitKnown(attempts: Attempts, permits: Permits, repairs: Repairs, k: PermitId)
    requires RowsOk(attempts, permits, repairs) && InitialOf(k) in attempts
    ensures k in permits
  {
  }

  lemma GrantKeepsNewest(db: Db, k: PermitId, grant: Permit, status: PlanStatus, d: Db)
    requires Granted(db, k, grant, status, d) && PlanTablesOk(db) && RowsOk(db.attempts, db.permits, db.repairs)
    ensures NewestOk(db.attempts, d.permits, db.state.value.cycle)
  {
    GrantedLive(db, k, grant, status, d);
    hide PlanTablesOk, RowsOk, Granted;
    if InitialOf(k) in db.attempts { PermitKnown(db.attempts, db.permits, db.repairs, k); }
  }

  lemma KeepGranted(db: Db, k: PermitId, grant: Permit, status: PlanStatus, d: Db)
    requires Sound(db) && Granted(db, k, grant, status, d)
    ensures Sound(d)
  {
    hide PlanTablesOk, Records, ProgressOk, GrantFits;
    GrantKeepsPlanTables(db, k, grant, status, d);
    GrantKeepsRecords(db, k, grant, status, d);
    IdleProgress(db, d);
  }

  lemma KeepApprove(db: Db, event: EventKey, k: PermitId, grant: Permit, d: Db)
    requires Sound(db) && GrantFits(db, grant) && ApprovePlan(db, event, k, grant) == Some(d)
    ensures Sound(d)
  {
    hide Sound;
    KeepGranted(db, k, grant.(consumed := false, invalidated := false), APPROVED, d);
  }

  lemma KeepAuthorize(db: Db, k: PermitId, grant: Permit, d: Db)
    requires Sound(db) && GrantFits(db, grant) && AuthorizePlan(db, k, grant) == Some(d)
    ensures Sound(d)
  {
    hide Sound;
    KeepGranted(db, k, grant.(consumed := false, invalidated := false), AUTO_APPROVED, d);
  }

  /** Permits of a cycle are at most invalidated. */
  predicate Withdrawn(x: Permits, y: Permits, cycle: nat) {
    y == x || y == InvalidateUnconsumed(x, cycle) || y == InvalidateAll(x, cycle)
  }

  lemma WithdrawnKeeps(x: Permits, y: Permits, plans: Plans, cycle: nat)
    requires Withdrawn(x, y, cycle) && PermitsOk(x, plans)
    ensures PermitsGrow(x, y) && PermitsOk(y, plans)
    ensures forall c, k :: LivePermitIn(y, c, k) ==> LivePermitIn(x, c, k)
    ensures y == InvalidateAll(x, cycle) ==> NoLivePermit(y, cycle)
    ensures y == InvalidateUnconsumed(x, cycle) && (forall k :: LivePermitIn(x, cycle, k) ==> !x[k].consumed) ==>
              NoLivePermit(y, cycle)
  {
    assert forall c, k :: LivePermitIn(y, c, k) ==> LivePermitIn(x, c, k);
  }

  /** `d` is `db` back in PLANNING with the permits of the cycle withdrawn. */
  ghost predicate BackToPlanning(db: Db, d: Db) {
    && db.state.Some? && d.state.Some?
    && Idling(db.state.value.phase) && db.state.value.phase !in {IDLE, EXECUTION_FAILED}
    && Withdrawn(db.permits, d.permits, db.state.value.cycle) && NoLivePermit(d.permits, db.state.value.cycle)
    && SameRows(db.(permits := d.permits,
                    state := Some(db.state.value.(phase := PLANNING, feedback := d.state.value.feedback))), d)
  }

  lemma WithdrawalKeepsPlanTables(db: Db, d: Db)
    requires BackToPlanning(db, d) && PlanTablesOk(db)
    ensures PlanTablesOk(d) && PermitsGrow(db.permits, d.permits)
  {
    WithdrawnKeeps(db.permits, d.permits, db.plans, db.state.value.cycle);
    hide PlansOk, PermitsOk, Withdrawn, PermitsGrow;
  }

  lemma KeepWithdrawal(db: Db, d: Db)
    requires Sound(db) && BackToPlanning(db, d)
    ensures Sound(d)
  {
    hide PlanTablesOk, ProgressOk;
    WithdrawalKeepsPlanTables(db, d);
    IdleProgress(db, d);
    hide RowsOk, ParentsOk, NumbersOk, NewestOk, ReviewsOk, RepairsOk, LineageOk, Withdrawn, NoLivePermit, PermitsGrow;
    RecordsGrow(db.attempts, db.permits, db.repairs, db.reviews, db.state.value.cycle,
                d.permits, db.repairs, db.reviews, db.state.value.cycle);
  }

  /** With every live permit of the cycle unconsumed, withdrawing the unconsumed ones withdraws them all. */
  lemma NothingConsumed(db: Db)
    requires db.state.Some? && PlanTablesOk(db)
    requires db.state.value.phase in {PLANNING, WAITING_FOR_PLAN_APPROVAL, EXECUTION_READY}
    ensures NoLivePermit(InvalidateUnconsumed(db.permits, db.state.value.cycle), db.state.value.cycle)
  {
    hide PlansOk, LearnedOk;
    WithdrawnKeeps(db.permits, InvalidateUnconsumed(db.permits, db.state.value.cycle), db.plans, db.state.value.cycle);
  }

  lemma RevisionStarts(db: Db, event: EventKey, d: Db)
    requires BeginRevision(db, event) == Some(d)
    ensures db.state.Some? && db.state.value.phase in {PLANNING, WAITING_FOR_PLAN_APPROVAL, EXECUTION_READY}
    ensures d == db.(permits := InvalidateUnconsumed(db.permits, db.state.value.cycle),
                     state := Some(db.state.value.(phase := PLANNING, feedback := Some(event))))
  {
    hide InvalidateUnconsumed;
  }

  lemma KeepStartRevision(db: Db, event: EventKey, d: Db)
    requires Sound(db) && BeginRevision(db, event) == Some(d)
    ensures Sound(d)
  {
    hide PlanTablesOk, Records, ProgressOk, InvalidateUnconsumed, InvalidateAll, BeginRevision, NoLivePermit;
    RevisionStarts(db, event, d);
    NothingConsumed(db);
    KeepWithdrawal(db, d);
  }

  lemma KeepCancel(db: Db, clar: ClarId, event: EventKey, d: Db)
    requires Sound(db) && ClarificationCurrent(db, clar) && CancelClarification(db, clar, event) == Some(d)
    ensures Sound(d)
  {
    var cycle := db.clars[clar].cycle;
    hide PlanTablesOk, Records, ProgressOk;
    WithdrawnAll(db, cycle);
    hide InvalidateUnconsumed, InvalidateAll, NoLivePermit;
    KeepWithdrawal(db, d);
  }

  lemma WithdrawnAll(db: Db, cycle: nat)
    requires db.state.Some? && PlanTablesOk(db)
    ensures NoLivePermit(InvalidateAll(db.permits, cycle), cycle)
  {
    hide PlansOk;
    WithdrawnKeeps(db.permits, InvalidateAll(db.permits, cycle), db.plans, cycle);
  }

  lemma ReplacedPlans(plans: Plans, cycle: nat, root: EventKey, input: Option<InputId>, current: PlanId, p: PlanId, plan: Plan)
    requires PlansOk(plans, cycle, root, input, current) && p !in plans
    requires plan == plans[current].(version := plans[current].version + 1, status := DRAFT)
    ensures PlansOk(plans[current := plans[current].(status := SUPERSEDED)][p := plan], cycle, root, input, p)
  {
    var y := plans[current := plans[current].(status := SUPERSEDED)][p := plan];
    assert LivePlanIn(y, cycle, p);
    forall q, c | LivePlanIn(y, c, q) ensures if q == p then c == cycle else c != cycle && LivePlanIn(plans, c, q) {
      if q != p { assert LivePlanIn(plans, c, q); }
    }
    forall q, c | q in y && y[q].cycle == c ensures HasLivePlan(y, c) {
      if c == cycle {
        assert LivePlanIn(y, c, p);
      } else {
        assert HasLivePlan(plans, c) by { assert plans[q].cycle == c; }
        var e :| LivePlanIn(plans, c, e);
        assert LivePlanIn(y, c, e);
      }
    }
  }

  /** `d` is `db`, in PLANNING, with the current plan superseded by its next version. */
  ghost predicate Replaced(db: Db, p: PlanId, plan: Plan, d: Db) {
    && InPhase(db, PLANNING) && NextPlanFits(db, plan) && p !in db.plans
    && var current := db.state.value.plan;
    && d == db.(plans := db.plans[current := db.plans[current].(status := SUPERSEDED)][p := plan],
                state := Some(db.state.value.(plan := p)))
  }

  lemma ReplaceKeepsPlanTables(db: Db, p: PlanId, plan: Plan, d: Db)
    requires Replaced(db, p, plan, d) && PlanTablesOk(db)
    ensures PlanTablesOk(d)
  {
    var st := db.state.value;
    ReplacedPlans(db.plans, st.cycle, st.root, st.input, st.plan, p, plan);
    assert PermitsOk(d.permits, d.plans) by {
      forall k | k in d.permits ensures PermitFits(d.permits[k], d.plans) {
        assert PermitFits(db.permits[k], db.plans);
        if Live(db.permits[k]) { assert LivePermitIn(db.permits, db.permits[k].cycle, k); }
      }
    }
    hide PlansOk, PermitsOk;
  }

  /** A replaced plan leaves no live permit behind, so nothing can still execute the older version. */
  lemma KeepReplace(db: Db, p: PlanId, plan: Plan, d: Db)
    requires Sound(db) && Replaced(db, p, plan, d)
    ensures Sound(d)
  {
    hide PlanTablesOk, Records, ProgressOk;
    ReplaceKeepsPlanTables(db, p, plan, d);
    IdleProgress(db, d);
    SameRecords(db, d);
  }

  lemma RevisionEnds(db: Db, event: EventKey, p: PlanId, plan: Plan, d: Db) returns (mid: Db)
    requires NextPlanFits(db, plan) && FinishRevision(db, p, plan, event) == Some(d)
    ensures InPhase(db, PLANNING) && Replaced(mid, p, plan, d)
    ensures SameRows(db.(state := Some(db.state.value.(feedback := None))), mid)
  {
    mid := db.(inputs := Consume(db.inputs, event, PLAN_FEEDBACK), execs := db.execs[EventExec(event) := RowSkipped],
               state := Some(db.state.value.(feedback := None)));
  }

  lemma KeepEndRevision(db: Db, event: EventKey, p: PlanId, plan: Plan, d: Db)
    requires Sound(db) && NextPlanFits(db, plan) && FinishRevision(db, p, plan, event) == Some(d)
    ensures Sound(d)
  {
    hide Records, ProgressOk, FinishRevision, NextPlanFits, Replaced;
    var mid := RevisionEnds(db, event, p, plan, d);
    assert NoLivePermit(db.permits, db.state.value.cycle) by { hide PlansOk, PermitsOk, LearnedOk; }
    hide PlanTablesOk, NoLivePermit;
    KeepWithdrawal(db, mid);
    KeepReplace(mid, p, plan, d);
  }

  lemma PlanRevised(db: Db, event: EventKey, p: PlanId, plan: Plan, d: Db) returns (mid: Db)
    requires NextPlanFits(db, plan) && RevisePlan(db, event, p, plan) == Some(d)
    ensures db.state.Some? && db.state.value.phase in {WAITING_FOR_PLAN_APPROVAL, EXECUTION_READY} && Replaced(mid, p, plan, d)
    ensures SameRows(db.(permits := InvalidateUnconsumed(db.permits, db.state.value.cycle),
                         state := Some(db.state.value.(phase := PLANNING))), mid)
  {
    hide InvalidateUnconsumed;
    mid := db.(inputs := db.inputs[event := PLAN_FEEDBACK], execs := db.execs[EventExec(event) := RowSkipped],
               permits := InvalidateUnconsumed(db.permits, db.state.value.cycle),
               state := Some(db.state.value.(phase := PLANNING)));
  }

  lemma KeepRevise(db: Db, event: EventKey, p: PlanId, plan: Plan, d: Db)
    requires Sound(db) && NextPlanFits(db, plan) && RevisePlan(db, event, p, plan) == Some(d)
    ensures Sound(d)
  {
    hide PlanTablesOk, Records, ProgressOk, NoLivePermit, InvalidateUnconsumed, RevisePlan, NextPlanFits, Replaced;
    var mid := PlanRevised(db, event, p, plan, d);
    NothingConsumed(db);
    KeepWithdrawal(db, mid);
    KeepReplace(mid, p, plan, d);
  }
}
