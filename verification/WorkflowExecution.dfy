/** The initial execution and its recovery keep the invariant, wherever the worker dies. */
module WorkflowExecution {
  import opened Prelude
  import opened WorkflowModel
  import opened WorkflowRun
  import opened WorkflowInvariant
  import opened WorkflowTables
  import opened WorkflowPlanning

  predicate Active(phase: Phase) {
    phase !in {PLANNING, WAITING_FOR_PLAN_APPROVAL, IDLE}
  }

  /** Between two active phases the plan tables only care that permits stay unconsumed for EXECUTION_READY. */
  lemma ActivePhase(db: Db, d: Db)
    requires db.state.Some? && PlanTablesOk(db)
    requires d.plans == db.plans && d.permits == db.permits && d.learned == db.learned
    requires d.state.Some? && Active(d.state.value.phase) && Active(db.state.value.phase)
    requires d.state.value == db.state.value.(phase := d.state.value.phase)
    requires d.state.value.phase == EXECUTION_READY ==> db.state.value.phase == EXECUTION_READY
    ensures PlanTablesOk(d)
  {
    hide PlansOk, PermitsOk;
  }

  /** Consuming or restoring one permit changes no lineage. */
  lemma PermitToggled(db: Db, k: PermitId, consumed: bool, d: Db)
    requires db.state.Some? && PlanTablesOk(db)
    requires k in db.permits && d.permits == db.permits[k := db.permits[k].(consumed := consumed)]
    requires d.plans == db.plans && d.learned == db.learned
    requires d.state.Some? && Active(d.state.value.phase) && Active(db.state.value.phase)
    requires d.state.value == db.state.value.(phase := d.state.value.phase)
    requires d.state.value.phase == EXECUTION_READY ==> !consumed && LivePermitIn(db.permits, db.state.value.cycle, k)
    ensures PlanTablesOk(d)
    ensures PermitsGrow(db.permits, d.permits)
    ensures forall c, j :: LivePermitIn(db.permits, c, j) <==> LivePermitIn(d.permits, c, j)
  {
    hide PlansOk;
    assert forall c, j :: LivePermitIn(d.permits, c, j) <==> LivePermitIn(db.permits, c, j);
  }

  lemma LatestUnique(attempts: Attempts, cycle: nat, a: AttemptId, b: AttemptId)
    requires NumbersOk(attempts, cycle) && IsLatest(attempts, cycle, a) && IsLatest(attempts, cycle, b)
    ensures a == b
  {
    hide NumberTaken;
  }

  /** A live permit of the current cycle names the current plan. */
  lemma LivePermitPlan(db: Db, k: PermitId)
    requires db.state.Some? && PlanTablesOk(db) && LivePermitIn(db.permits, db.state.value.cycle, k)
    ensures db.permits[k].plan == db.state.value.plan && db.permits[k].root == db.state.value.root
    ensures db.state.value.plan in db.plans
    ensures var p := db.plans[db.state.value.plan];
      p.version == db.permits[k].version && p.cycle == db.state.value.cycle && p.root == db.state.value.root
  {
    assert PermitFits(db.permits[k], db.plans);
    assert LivePlanIn(db.plans, db.state.value.cycle, db.permits[k].plan);
    assert LivePlanIn(db.plans, db.state.value.cycle, db.state.value.plan);
  }

  /** The plan row and the state name one execution row. */
  lemma TargetIsRow(db: Db)
    requires db.state.Some? && PlanTablesOk(db)
    ensures ExecutionTarget(db.plans, db.state.value.cycle, db.state.value.root) == RowKey(db.state.value)
  {
    hide PermitsOk, PhaseOk;
    assert IsLatestPlan(db.plans, db.state.value.cycle, db.state.value.plan);
  }

  /** A repair follows a success of its own cycle. */
  lemma ParentSucceeded(attempts: Attempts, permits: Permits, repairs: Repairs, reviews: Reviews, cycle: nat, i: RepairId)
    requires RecordsOk(attempts, permits, repairs, reviews, cycle)
    requires RepairOf(i) in attempts && attempts[RepairOf(i)].cycle == cycle
    ensures i.review in reviews && SucceededIn(attempts, cycle, reviews[i.review].attempt)
  {
    hide ParentsOk, NumbersOk, NewestOk;
    assert RowOk(attempts[RepairOf(i)], permits, repairs);
  }

  /** So a cycle without a success holds initial attempts only. */
  lemma OnlyInitial(attempts: Attempts, permits: Permits, repairs: Repairs, reviews: Reviews, cycle: nat, a: AttemptId)
    requires RecordsOk(attempts, permits, repairs, reviews, cycle) && NoSuccess(attempts, cycle)
    requires a in attempts && attempts[a].cycle == cycle
    ensures a.InitialOf?
  {
    hide RecordsOk;
    if a.RepairOf? { ParentSucceeded(attempts, permits, repairs, reviews, cycle, a.repair); }
  }

  /** Attempt numbers are bounded, so a cycle with an attempt has a latest one. */
  lemma LatestExists(attempts: Attempts, cycle: nat, a: AttemptId)
    requires a in attempts && attempts[a].cycle == cycle
    ensures exists b :: IsLatest(attempts, cycle, b)
  {
    var ids := set b | b in attempts && attempts[b].cycle == cycle;
    assert a in ids;
    var top := Highest(attempts, ids, a);
    assert IsLatest(attempts, cycle, top);
  }

  lemma Highest(attempts: Attempts, ids: set<AttemptId>, a: AttemptId) returns (top: AttemptId)
    requires a in ids && forall b :: b in ids ==> b in attempts
    ensures top in ids && forall b :: b in ids ==> attempts[b].number <= attempts[top].number
    decreases ids
  {
    top := a;
    var rest := ids - {a};
    assert forall b :: b in ids ==> b == a || b in rest;
    if rest != {} {
      var b :| b in rest;
      var other := Highest(attempts, rest, b);
      if attempts[other].number > attempts[a].number { top := other; }
    }
  }

  // ------------------------------------------------------------------ the pending scan

  lemma {:induction false} SweepKeepsRow(pending: seq<Event>, execs: map<ExecKey, ExecStatus>, inputs: map<EventKey, Purpose>, k: ExecKey)
    requires k.EventExec? ==> forall e :: e in pending ==> e.key != k.key
    ensures var r := SweepPending(pending, execs, inputs);
      !r.Clash? ==> RowStatus(r.execs, k) == RowStatus(execs, k)
  {
    if pending != [] {
      var e := pending[0];
      assert e in pending;
      assert forall x :: x in pending[1..] ==> x in pending;
      match e.body
      case ExactApproval =>
        if !ControlClashes(execs, e.key) {
          SweepKeepsRow(pending[1..], execs[EventExec(e.key) := RowSkipped], Consume(inputs, e.key, STALE_PLAN_APPROVAL), k);
        }
      case Invocation =>
      case Chatter => SweepKeepsRow(pending[1..], execs, inputs, k);
    }
  }

  lemma {:induction false} PendingSkipsRoot(events: seq<Event>, inputs: map<EventKey, Purpose>, root: EventKey)
    ensures forall e :: e in Pending(events, inputs, root) ==> e.key != root
  {
    if events != [] { PendingSkipsRoot(events[1..], inputs, root); }
  }

  // ------------------------------------------------------------------ bind

  lemma BindRow(db: Db, k: PermitId, d: Db)
    requires db.state.Some? && PlanTablesOk(db) && BindAuthorized(db, k) == Some(d)
    ensures Row(d) == Some(RowRunning)
    ensures LivePermitIn(db.permits, db.state.value.cycle, k)
  {
    hide SweepPending, Pending, OrderingHolds, PermitsOk, PhaseOk;
    assert db.plans[db.state.value.plan].input == db.state.value.input;
  }

  lemma BindKeepsPlanTables(db: Db, k: PermitId, d: Db)
    requires db.state.Some? && PlanTablesOk(db) && BindAuthorized(db, k) == Some(d)
    ensures PlanTablesOk(d)
    ensures PermitsGrow(db.permits, d.permits)
    ensures forall c, j :: LivePermitIn(db.permits, c, j) <==> LivePermitIn(d.permits, c, j)
  {
    hide SweepPending, Pending, RowClaimable, InsertInitial, PlanTablesOk;
    PermitToggled(db, k, true, d);
  }

  lemma RecordsUnder(db: Db, permits: Permits)
    requires db.state.Some? && Records(db) && PermitsGrow(db.permits, permits)
    requires forall k :: k in permits ==> k in db.permits
    ensures RecordsOk(db.attempts, permits, db.repairs, db.reviews, db.state.value.cycle)
  {
    var cycle := db.state.value.cycle;
    hide RowsOk, ParentsOk, NumbersOk, NewestOk, ReviewsOk, RepairsOk, PermitsGrow;
    RecordsGrow(db.attempts, db.permits, db.repairs, db.reviews, cycle, permits, db.repairs, db.reviews, cycle);
  }

  /** `y` is the attempt table with the first attempt of permit `k` inserted as running. */
  ghost predicate Opened(db: Db, k: PermitId, y: Attempts)
    requires db.state.Some? && k in db.permits
  {
    var permit := db.permits[k];
    && Inserted(db.attempts, y, InitialOf(k), db.state.value.cycle)
    && y[InitialOf(k)].status == Running
    && y[InitialOf(k)].auth == ByPermit(k) && RowOk(y[InitialOf(k)], db.permits, db.repairs)
    && SameLineage(y[InitialOf(k)], permit.cycle, permit.plan, permit.version, permit.root)
  }

  /** The bind either inserts attempt 1 of an empty cycle or leaves the attempts alone. */
  lemma InsertInitialCases(db: Db, k: PermitId)
    requires db.state.Some? && Records(db) && k in db.permits && db.permits[k].cycle == db.state.value.cycle
    ensures var y := InsertInitial(db, k, db.permits[k]);
      && (y == db.attempts || Opened(db, k, y))
      && exists a :: a in y && y[a].cycle == db.state.value.cycle
  {
    var cycle, y := db.state.value.cycle, InsertInitial(db, k, db.permits[k]);
    hide ParentsOk, NewestOk, ReviewsOk, RepairsOk, LineageOk;
    assert forall b :: b in db.attempts && db.attempts[b].cycle == cycle ==> NumberTaken(db.attempts, cycle, 1) by { hide RowsOk; }
    hide NumbersOk;
    if InitialOf(k) in db.attempts {
      assert RowOk(db.attempts[InitialOf(k)], db.permits, db.repairs);
    } else if NumberTaken(db.attempts, cycle, 1) {
      var a :| a in db.attempts && db.attempts[a].cycle == cycle && db.attempts[a].number == 1;
    } else {
      assert InitialOf(k) in y && y[InitialOf(k)].cycle == cycle;
    }
  }

  lemma BoundIs(db: Db, k: PermitId, d: Db)
    requires db.state.Some? && BindAuthorized(db, k) == Some(d)
    ensures LivePermitIn(db.permits, db.state.value.cycle, k) && db.state.value.phase == EXECUTION_READY
    ensures d == WithPhase(db, EXECUTING).(execs := d.execs, inputs := d.inputs,
                    permits := db.permits[k := db.permits[k].(consumed := true)],
                    attempts := InsertInitial(db, k, db.permits[k]))
  {
    hide SweepPending, Pending, RowClaimable, InsertInitial;
  }

  lemma BindKeepsRecords(db: Db, k: PermitId, d: Db)
    requires db.state.Some? && PlanTablesOk(db) && Records(db) && BindAuthorized(db, k) == Some(d)
    ensures Records(d)
  {
    hide BindAuthorized, PlanTablesOk, Records, InsertInitial;
    BoundIs(db, k, d);
    BindKeepsPlanTables(db, k, d);
    InsertInitialCases(db, k);
    InsertKeepsRecords(db, k, d);
  }

  lemma InsertKeepsRecords(db: Db, k: PermitId, d: Db)
    requires db.state.Some? && PlanTablesOk(db) && Records(db) && LivePermitIn(db.permits, db.state.value.cycle, k)
    requires d.attempts == db.attempts || Opened(db, k, d.attempts)
    requires d.state.Some? && d.state.value.cycle == db.state.value.cycle
    requires d.plans == db.plans && d.reviews == db.reviews && d.repairs == db.repairs
    requires PermitsGrow(db.permits, d.permits) && forall j :: j in d.permits ==> j in db.permits
    ensures Records(d)
  {
    var mid := db.(attempts := d.attempts);
    hide PermitsGrow, RowsOk, ParentsOk, NumbersOk, NewestOk, ReviewsOk, RepairsOk, PlanTablesOk;
    if d.attempts != db.attempts {
      OneLive(db, k);
      LivePermitPlan(db, k);
      hide RowOk, Inserted;
      RecordsInserted(db.attempts, d.attempts, InitialOf(k), db.permits, db.repairs, db.reviews, db.state.value.cycle);
    }
    RecordsUnder(mid, d.permits);
  }

  /** With no success in the cycle, any attempt of it shows that the execution may run. */
  lemma RunsInitial(db: Db, some: AttemptId)
    requires db.state.Some? && Records(db) && NoSuccess(db.attempts, db.state.value.cycle)
    requires some in db.attempts && db.attempts[some].cycle == db.state.value.cycle
    requires Row(db) != Some(RowSucceeded)
    ensures exists a :: RunningShape(db.attempts, db.permits, db.repairs, db.reviews, db.state.value.cycle, Row(db), a)
  {
    var cycle := db.state.value.cycle;
    hide Row, RowsOk, ParentsOk, NumbersOk, NewestOk, ReviewsOk, RepairsOk, LineageOk;
    LatestExists(db.attempts, cycle, some);
    var a :| IsLatest(db.attempts, cycle, a);
    OnlyInitial(db.attempts, db.permits, db.repairs, db.reviews, cycle, a);
    NoSuccessNoRepair(db, a) by { assert !SucceededIn(db.attempts, cycle, a); }
    assert RunningShape(db.attempts, db.permits, db.repairs, db.reviews, cycle, Row(db), a);
  }

  lemma BindKeepsProgress(db: Db, k: PermitId, d: Db)
    requires db.state.Some? && PlanTablesOk(db) && Records(db) && ProgressOk(db) && BindAuthorized(db, k) == Some(d)
    ensures ProgressOk(d) && NoSuccess(d.attempts, d.state.value.cycle)
  {
    hide BindAuthorized, PlanTablesOk, Records, ProgressOk, InsertInitial, Row, NoSuccess;
    BoundIs(db, k, d);
    BindRow(db, k, d);
    BindKeepsRecords(db, k, d);
    InsertInitialCases(db, k);
    NoneUsableAtRest(db);
    OpenedProgress(db, k, d);
  }

  lemma OpenedProgress(db: Db, k: PermitId, d: Db)
    requires db.state.Some? && ProgressOk(db) && db.state.value.phase == EXECUTION_READY && k in db.permits
    requires d.attempts == db.attempts || Opened(db, k, d.attempts)
    requires exists a :: a in d.attempts && d.attempts[a].cycle == db.state.value.cycle
    requires d.state == Some(db.state.value.(phase := EXECUTING)) && Row(d) == Some(RowRunning) && Records(d)
    requires d.repairs == db.repairs && d.reviews == db.reviews && forall i :: !Usable(db.repairs, i)
    ensures ProgressOk(d) && NoSuccess(d.attempts, d.state.value.cycle)
  {
    hide Records, Row, UsableOk, ShapeOk;
    assert forall c, a :: SucceededIn(d.attempts, c, a) ==> SucceededIn(db.attempts, c, a) && d.attempts[a] == db.attempts[a];
    assert NoSuccess(db.attempts, db.state.value.cycle);
    var some :| some in d.attempts && d.attempts[some].cycle == db.state.value.cycle;
    RunsInitial(d, some);
    ShapeWhileExecuting(d);
    NoUsableOk(d);
  }

  lemma ShapeWhileExecuting(db: Db)
    requires InPhase(db, EXECUTING)
    requires exists a :: RunningShape(db.attempts, db.permits, db.repairs, db.reviews, db.state.value.cycle, Row(db), a)
    ensures ShapeOk(db)
  {
  }

  /** An attempt that did not succeed was never reviewed, so no repair permit was made for it. */
  lemma NoSuccessNoRepair(db: Db, a: AttemptId)
    requires db.state.Some? && Records(db) && a in db.attempts && db.attempts[a].status != Succeeded
    ensures NotRepaired(db.repairs, db.reviews, a) && !Reviewed(db.reviews, a)
  {
    hide RowsOk, ParentsOk, NumbersOk, NewestOk, RepairsOk;
  }

  lemma KeepBind(db: Db, k: PermitId, d: Db)
    requires Sound(db) && BindAuthorized(db, k) == Some(d)
    ensures Inv(Sys(d, Bound(k)))
  {
    hide PlanTablesOk, Records, ProgressOk, NoSuccess, BindAuthorized, InsertInitial, Row;
    BoundIs(db, k, d);
    BindRow(db, k, d);
    BindKeepsPlanTables(db, k, d);
    BindKeepsRecords(db, k, d);
    BindKeepsProgress(db, k, d);
  }

  // ------------------------------------------------------------------ attempt rows

  /** `d` is `db` with one attempt row restated; permits may have been toggled besides. */
  lemma RecordsRestated(db: Db, a: AttemptId, d: Db)
    requires db.state.Some? && Records(db) && Updated(db.attempts, d.attempts, a)
    requires d.attempts[a].status == Succeeded || !Reviewed(db.reviews, a)
    requires d.state.Some? && d.state.value.cycle == db.state.value.cycle
    requires d.plans == db.plans && d.repairs == db.repairs && d.reviews == db.reviews
    requires PermitsGrow(db.permits, d.permits) && forall k :: k in d.permits ==> k in db.permits
    ensures Records(d)
    ensures forall b, c :: IsLatest(d.attempts, c, b) <==> IsLatest(db.attempts, c, b)
  {
    var cycle := db.state.value.cycle;
    hide PermitsGrow, RowsOk, ParentsOk, NumbersOk, NewestOk, ReviewsOk, RepairsOk, LineageOk, IsLatest;
    SameLatest(db.attempts, d.attempts, a);
    LineageUpdated(db.attempts, d.attempts, a, db.plans);
    RecordsUpdated(db.attempts, d.attempts, a, db.permits, db.repairs, db.reviews, cycle);
    RecordsGrow(d.attempts, db.permits, db.repairs, db.reviews, cycle, d.permits, d.repairs, d.reviews, cycle);
  }

  lemma SameLatest(x: Attempts, y: Attempts, a: AttemptId)
    requires Updated(x, y, a)
    ensures forall b, c :: IsLatest(y, c, b) <==> IsLatest(x, c, b)
  {
    forall b, c ensures IsLatest(y, c, b) <==> IsLatest(x, c, b) { LatestUpdated(x, y, a, c, b); }
  }

  lemma LineageUpdated(x: Attempts, y: Attempts, a: AttemptId, plans: Plans)
    requires Updated(x, y, a) && LineageOk(x, plans)
    ensures LineageOk(y, plans)
  {
  }

  lemma UsableSucceeded(db: Db, i: RepairId)
    requires db.state.Some? && Records(db) && ProgressOk(db) && Usable(db.repairs, i)
    ensures i.review in db.reviews && SucceededIn(db.attempts, db.state.value.cycle, db.reviews[i.review].attempt)
  {
    hide RowsOk, ParentsOk, NumbersOk, NewestOk, LineageOk, ShapeOk, SuccessOk;
  }

  /** While a cycle has no success, no repair permit is usable. */
  lemma NothingUsable(db: Db)
    requires db.state.Some? && Records(db) && ProgressOk(db) && NoSuccess(db.attempts, db.state.value.cycle)
    ensures forall i :: !Usable(db.repairs, i)
  {
    hide Records, ProgressOk;
    forall i ensures !Usable(db.repairs, i) {
      if Usable(db.repairs, i) { UsableSucceeded(db, i); }
    }
  }

  /** The initial execution of the live permit `k` is under way and has not succeeded. */
  lemma InitialProgress(db: Db, k: PermitId, d: Db)
    requires db.state.Some? && InPhase(d, EXECUTING) && d.state.value.cycle == db.state.value.cycle && d.repairs == db.repairs
    requires IsLatest(d.attempts, d.state.value.cycle, InitialOf(k)) && LivePermitIn(d.permits, d.state.value.cycle, k)
    requires d.attempts[InitialOf(k)].status != Succeeded
    requires forall c, a :: SucceededIn(d.attempts, c, a) ==> SucceededIn(db.attempts, c, a) && d.attempts[a].round == db.attempts[a].round
    requires Records(db) && ProgressOk(db) && NoSuccess(db.attempts, db.state.value.cycle) && Records(d)
    ensures ProgressOk(d)
  {
    hide Records, ProgressOk, Row, SuccessOk, UsableOk, ShapeOk;
    NothingUsable(db);
    NoSuccessNoRepair(d, InitialOf(k));
    ProgressParts(db);
    StillNoSuccess(db.attempts, d.attempts, d.state.value.cycle, db.state.value.phase, Row(db), Row(d));
    hide NoSuccess;
    InitialRuns(d, k);
    ShapeWhileExecuting(d);
    NoUsableOk(d);
    ProgressParts(d);
  }

  lemma ProgressParts(db: Db)
    requires db.state.Some?
    ensures var st := db.state.value;
      ProgressOk(db) <==>
        && SuccessOk(db.attempts, st.cycle, st.phase, Row(db))
        && UsableOk(db.repairs, db.reviews, db.attempts, st.cycle, st.phase, st.plan)
        && ShapeOk(db)
  {
    hide Row, SuccessOk, UsableOk, ShapeOk;
  }

  lemma StillNoSuccess(x: Attempts, y: Attempts, cycle: nat, phase: Phase, row: Option<ExecStatus>, row': Option<ExecStatus>)
    requires SuccessOk(x, cycle, phase, row) && NoSuccess(x, cycle)
    requires forall c, a :: SucceededIn(y, c, a) ==> SucceededIn(x, c, a) && y[a].round == x[a].round
    ensures SuccessOk(y, cycle, EXECUTING, row') && NoSuccess(y, cycle)
  {
  }

  lemma InitialRuns(d: Db, k: PermitId)
    requires d.state.Some? && IsLatest(d.attempts, d.state.value.cycle, InitialOf(k)) && NoSuccess(d.attempts, d.state.value.cycle)
    requires LivePermitIn(d.permits, d.state.value.cycle, k) && NotRepaired(d.repairs, d.reviews, InitialOf(k))
    ensures RunningShape(d.attempts, d.permits, d.repairs, d.reviews, d.state.value.cycle, Row(d), InitialOf(k))
  {
  }

  /** The attempt of the bound permit becomes, or is again, the latest of its cycle. */
  lemma EnsureKeepsRecords(db: Db, k: PermitId, d: Db)
    requires db.state.Some? && Records(db) && PlanTablesOk(db) && EnsureAttempt(db, k) == Some(d)
    requires LivePermitIn(db.permits, db.state.value.cycle, k) && NoSuccess(db.attempts, db.state.value.cycle)
    ensures Records(d) && IsLatest(d.attempts, db.state.value.cycle, InitialOf(k))
    ensures d.attempts[InitialOf(k)].status == Running
    ensures NoSuccess(d.attempts, d.state.value.cycle)
    ensures forall c, a :: SucceededIn(d.attempts, c, a) ==> SucceededIn(db.attempts, c, a) && d.attempts[a] == db.attempts[a]
  {
    if InitialOf(k) in db.attempts {
      assert db.attempts[InitialOf(k)].cycle == db.state.value.cycle by {
        hide ParentsOk, NumbersOk, NewestOk, ReviewsOk, RepairsOk, LineageOk, PlanTablesOk;
        assert RowOk(db.attempts[InitialOf(k)], db.permits, db.repairs);
      }
      assert !SucceededIn(db.attempts, db.state.value.cycle, InitialOf(k));
      hide RecordsOk, LineageOk, PlanTablesOk, EnsureAttempt;
      EnsureExisting(db, k, d);
    } else {
      hide RecordsOk, LineageOk, PlanTablesOk, EnsureAttempt;
      EnsureFresh(db, k, d);
    }
  }

  lemma EnsureExisting(db: Db, k: PermitId, d: Db)
    requires db.state.Some? && Records(db) && EnsureAttempt(db, k) == Some(d) && InitialOf(k) in db.attempts
    requires LivePermitIn(db.permits, db.state.value.cycle, k) && NoSuccess(db.attempts, db.state.value.cycle)
    requires db.attempts[InitialOf(k)].cycle == db.state.value.cycle && db.attempts[InitialOf(k)].status != Succeeded
    ensures Records(d) && IsLatest(d.attempts, db.state.value.cycle, InitialOf(k))
    ensures d.attempts[InitialOf(k)].status == Running
    ensures NoSuccess(d.attempts, d.state.value.cycle)
    ensures forall c, a :: SucceededIn(d.attempts, c, a) ==> SucceededIn(db.attempts, c, a) && d.attempts[a] == db.attempts[a]
  {
    hide Records, NextNumber;
    NoSuccessNoRepair(db, InitialOf(k));
    NewestInitial(db, k);
    assert Updated(db.attempts, d.attempts, InitialOf(k));
    RecordsRestated(db, InitialOf(k), d);
    assert forall c, a :: SucceededIn(d.attempts, c, a) ==> SucceededIn(db.attempts, c, a) && d.attempts[a] == db.attempts[a];
  }

  /** In a cycle without a success the live permit's own attempt is the latest. */
  lemma NewestInitial(db: Db, k: PermitId)
    requires db.state.Some? && Records(db) && InitialOf(k) in db.attempts
    requires LivePermitIn(db.permits, db.state.value.cycle, k) && NoSuccess(db.attempts, db.state.value.cycle)
    requires db.attempts[InitialOf(k)].cycle == db.state.value.cycle
    ensures IsLatest(db.attempts, db.state.value.cycle, InitialOf(k))
  {
    var cycle, id := db.state.value.cycle, InitialOf(k);
    hide NoSuccess, RowsOk, ParentsOk, NumbersOk, ReviewsOk, RepairsOk, LineageOk;
    forall b | b in db.attempts && db.attempts[b].cycle == cycle ensures db.attempts[b].number <= db.attempts[id].number {
      OnlyInitial(db.attempts, db.permits, db.repairs, db.reviews, cycle, b);
    }
  }

  lemma EnsureFresh(db: Db, k: PermitId, d: Db)
    requires db.state.Some? && Records(db) && PlanTablesOk(db) && EnsureAttempt(db, k) == Some(d) && InitialOf(k) !in db.attempts
    requires LivePermitIn(db.permits, db.state.value.cycle, k) && NoSuccess(db.attempts, db.state.value.cycle)
    ensures Records(d) && IsLatest(d.attempts, db.state.value.cycle, InitialOf(k))
    ensures d.attempts[InitialOf(k)].status == Running
    ensures NoSuccess(d.attempts, d.state.value.cycle)
    ensures forall c, a :: SucceededIn(d.attempts, c, a) ==> SucceededIn(db.attempts, c, a) && d.attempts[a] == db.attempts[a]
  {
    hide PlanTablesOk, Records, EnsureAttempt, Opened;
    FreshlyOpened(db, k, d);
    InsertKeepsRecords(db, k, d);
    OpenedLatest(db, k, d.attempts);
  }

  lemma FreshlyOpened(db: Db, k: PermitId, d: Db)
    requires db.state.Some? && EnsureAttempt(db, k) == Some(d) && InitialOf(k) !in db.attempts
    requires LivePermitIn(db.permits, db.state.value.cycle, k)
    ensures Opened(db, k, d.attempts) && d == db.(attempts := d.attempts)
  {
    NextNumberFree(db.attempts, db.state.value.cycle);
    hide NextNumber;
  }

  lemma OpenedLatest(db: Db, k: PermitId, y: Attempts)
    requires db.state.Some? && LivePermitIn(db.permits, db.state.value.cycle, k) && Opened(db, k, y)
    requires NoSuccess(db.attempts, db.state.value.cycle)
    ensures IsLatest(y, db.state.value.cycle, InitialOf(k)) && y[InitialOf(k)].status == Running
    ensures NoSuccess(y, db.state.value.cycle)
    ensures forall c, a :: SucceededIn(y, c, a) ==> SucceededIn(db.attempts, c, a) && y[a] == db.attempts[a]
  {
    assert forall c, a :: SucceededIn(y, c, a) ==> SucceededIn(db.attempts, c, a) && y[a] == db.attempts[a];
  }

  lemma OneLive(db: Db, k: PermitId)
    requires db.state.Some? && PlanTablesOk(db) && LivePermitIn(db.permits, db.state.value.cycle, k)
    ensures forall j :: LivePermitIn(db.permits, db.state.value.cycle, j) ==> j == k
  {
    hide PlansOk, PhaseOk, LearnedOk, PermitFits;
  }

  /** The next number is above every number of the cycle, and just above the highest. */
  lemma NextNumberFree(attempts: Attempts, cycle: nat)
    ensures NextNumber(attempts, cycle) >= 1
    ensures forall b :: b in attempts && attempts[b].cycle == cycle ==> attempts[b].number < NextNumber(attempts, cycle)
    ensures NextNumber(attempts, cycle) == 1 || NumberTaken(attempts, cycle, NextNumber(attempts, cycle) - 1)
  {
    if a :| a in attempts && attempts[a].cycle == cycle { LatestExists(attempts, cycle, a); }
  }

  lemma KeepEnsure(s: Sys, k: PermitId, d: Db)
    requires Inv(s) && s.worker == Bound(k) && EnsureAttempt(s.db, k) == Some(d)
    ensures Inv(Sys(d, Worker.Executing(k)))
  {
    hide PlanTablesOk, Records, ProgressOk, NoSuccess, Row;
    EnsureKeepsRecords(s.db, k, d);
    EnsureKeepsOthers(s.db, k, d);
    hide EnsureAttempt;
    InitialProgress(s.db, k, d);
  }

  lemma EnsureKeepsOthers(db: Db, k: PermitId, d: Db)
    requires db.state.Some? && PlanTablesOk(db) && EnsureAttempt(db, k) == Some(d)
    ensures PlanTablesOk(d) && Row(d) == Row(db) && d.state == db.state && d.permits == db.permits && d.repairs == db.repairs
  {
    hide PlansOk, PermitsOk, LearnedOk, PhaseOk, Ensured;
  }

  // ------------------------------------------------------------------ closing the initial execution

  lemma SameButExecs(db: Db, d: Db)
    requires db.state.Some? && PlanTablesOk(db) && Records(db) && d == db.(execs := d.execs)
    ensures PlanTablesOk(d) && Records(d)
  {
    hide PlansOk, PermitsOk, PhaseOk, LearnedOk, RecordsOk, LineageOk;
  }

  lemma KeepCloseExecution(s: Sys, k: PermitId, ok: bool, d: Db)
    requires Inv(s) && s.worker == Worker.Executing(k)
    requires CloseRow(s.db, RowKey(s.db.state.value), if ok then RowSucceeded else RowFailed) == Some(d)
    ensures Inv(Sys(d, RowClosed(k, ok)))
  {
    hide PlanTablesOk, Records, ProgressOk, NoSuccess;
    SameButExecs(s.db, d);
    InitialProgress(s.db, k, d);
  }

  lemma KeepAsk(s: Sys, k: PermitId, clar: ClarId, d: Db)
    requires Inv(s) && s.worker == Worker.Executing(k) && OpenClarification(s.db, clar) == Some(d)
    ensures Inv(Sys(d, Asked(k)))
  {
    hide PlanTablesOk, Records, ProgressOk, NoSuccess;
    OtherRows(s.db, d);
  }

  lemma StatusRestated(db: Db, a: AttemptId, status: AttemptStatus, d: Db)
    requires db.state.Some? && PlanTablesOk(db) && Records(db) && a in db.attempts
    requires status == Succeeded || db.attempts[a].status != Succeeded
    requires d == FinishAttempt(db, a, status)
    ensures PlanTablesOk(d) && Records(d) && Row(d) == Row(db)
    ensures forall b, c :: IsLatest(d.attempts, c, b) <==> IsLatest(db.attempts, c, b)
    ensures forall c, b :: b != a ==> (SucceededIn(d.attempts, c, b) <==> SucceededIn(db.attempts, c, b))
  {
    hide PlanTablesOk, Records;
    if status != Succeeded { NoSuccessNoRepair(db, a); }
    SameRow(db, d);
    RestatedRows(db, a, d);
    SamePlanTables(db, d);
  }

  lemma RestatedRows(db: Db, a: AttemptId, d: Db)
    requires db.state.Some? && Records(db) && Updated(db.attempts, d.attempts, a) && d == db.(attempts := d.attempts)
    requires d.attempts[a].status == Succeeded || !Reviewed(db.reviews, a)
    ensures Records(d)
    ensures forall b, c :: IsLatest(d.attempts, c, b) <==> IsLatest(db.attempts, c, b)
    ensures forall c, b :: b != a ==> (SucceededIn(d.attempts, c, b) <==> SucceededIn(db.attempts, c, b))
  {
    hide Records, IsLatest;
    RecordsRestated(db, a, d);
  }

  lemma SamePlanTables(db: Db, d: Db)
    requires db.state.Some? && PlanTablesOk(db)
    requires d.plans == db.plans && d.permits == db.permits && d.state == db.state && d.learned == db.learned
    ensures PlanTablesOk(d)
  {
    hide PlansOk, PermitsOk, PhaseOk, LearnedOk;
  }

  /** Closing the attempt as failed or interrupted: still no success to explain. */
  lemma AttemptStops(db: Db, k: PermitId, status: AttemptStatus, d: Db)
    requires db.state.Some? && PlanTablesOk(db) && Records(db) && ProgressOk(db)
    requires NoSuccess(db.attempts, db.state.value.cycle) && InitialAt(db, k, Running) && status != Succeeded
    requires d == FinishAttempt(db, InitialOf(k), status)
    ensures PlanTablesOk(d) && Records(d) && ProgressOk(d) && NoSuccess(d.attempts, d.state.value.cycle) && InitialAt(d, k, status)
  {
    hide PlanTablesOk, Records, ProgressOk, Row;
    StatusRestated(db, InitialOf(k), status, d);
    assert forall c, b :: SucceededIn(d.attempts, c, b) ==> SucceededIn(db.attempts, c, b) && d.attempts[b].round == db.attempts[b].round;
    InitialProgress(db, k, d);
  }

  lemma FirstSuccess(x: Attempts, a: AttemptId, cycle: nat, row: Option<ExecStatus>)
    requires SuccessOk(x, cycle, EXECUTING, row) && NoSuccess(x, cycle) && row == Some(RowSucceeded)
    requires a in x && x[a].cycle == cycle
    ensures var y := x[a := x[a].(status := Succeeded)];
      SuccessOk(y, cycle, EXECUTING, row) && SucceededIn(y, cycle, a) && forall b :: SucceededIn(y, cycle, b) ==> b == a
  {
    var y := x[a := x[a].(status := Succeeded)];
    assert forall b, c :: b != a && SucceededIn(y, c, b) ==> SucceededIn(x, c, b);
  }

  /** Closing the attempt as succeeded, over an execution row that already says so. */
  lemma AttemptSucceeds(db: Db, k: PermitId, d: Db)
    requires db.state.Some? && PlanTablesOk(db) && Records(db) && ProgressOk(db)
    requires NoSuccess(db.attempts, db.state.value.cycle) && Row(db) == Some(RowSucceeded)
    requires InPhase(db, EXECUTING) && LivePermitIn(db.permits, db.state.value.cycle, k)
    requires IsLatest(db.attempts, db.state.value.cycle, InitialOf(k))
    requires d == FinishAttempt(db, InitialOf(k), Succeeded)
    ensures PlanTablesOk(d) && Records(d) && ProgressOk(d) && InitialAt(d, k, Succeeded)
  {
    var cycle, id := db.state.value.cycle, InitialOf(k);
    assert !SucceededIn(db.attempts, cycle, id);
    NoSuccessNoRepair(db, id);
    NothingUsable(db);
    StatusRestated(db, id, Succeeded, d);
    hide PlanTablesOk, Records, Row, UsableOk, ShapeOk;
    FirstSuccess(db.attempts, id, cycle, Row(db));
    hide SuccessOk;
    assert RunningShape(d.attempts, d.permits, d.repairs, d.reviews, cycle, Row(d), id);
    ShapeWhileExecuting(d);
    NoUsableOk(d);
  }

  lemma KeepCloseAttempt(s: Sys, k: PermitId, ok: bool, d: Db)
    requires Inv(s) && s.worker == RowClosed(k, ok) && d == FinishAttempt(s.db, InitialOf(k), if ok then Succeeded else Failed)
    ensures Inv(Sys(d, AttemptClosed(k, ok)))
  {
    hide PlanTablesOk, Records, ProgressOk, FinishAttempt;
    if ok { AttemptSucceeds(s.db, k, d); } else { AttemptStops(s.db, k, Failed, d); }
    ClosedRow(s.db, k, d);
  }

  lemma ClosedRow(db: Db, k: PermitId, d: Db)
    requires db.state.Some? && exists status :: d == FinishAttempt(db, InitialOf(k), status)
    ensures d.state.Some? && Row(d) == Row(db)
  {
  }

  lemma KeepAskAttempt(s: Sys, k: PermitId, d: Db)
    requires Inv(s) && s.worker == Asked(k) && d == FinishAttempt(s.db, InitialOf(k), Interrupted)
    ensures Inv(Sys(d, AskedAttempt(k)))
  {
    hide PlanTablesOk, Records, ProgressOk, FinishAttempt;
    AttemptStops(s.db, k, Interrupted, d);
    ClosedRow(s.db, k, d);
  }

  lemma RunningLatest(db: Db, b: AttemptId)
    requires db.state.Some? && Records(db) && ProgressOk(db) && InPhase(db, EXECUTING)
    requires IsLatest(db.attempts, db.state.value.cycle, b)
    ensures RunningShape(db.attempts, db.permits, db.repairs, db.reviews, db.state.value.cycle, Row(db), b)
  {
    hide Row, SuccessOk, UsableOk, RowsOk, ParentsOk, ReviewsOk, RepairsOk, NewestOk, LineageOk;
    var a :| RunningShape(db.attempts, db.permits, db.repairs, db.reviews, db.state.value.cycle, Row(db), a);
    LatestUnique(db.attempts, db.state.value.cycle, a, b);
  }

  lemma NotUsableInitial(db: Db, k: PermitId)
    requires db.state.Some? && Records(db) && ProgressOk(db) && InPhase(db, EXECUTING)
    requires IsLatest(db.attempts, db.state.value.cycle, InitialOf(k))
    ensures forall i :: !Usable(db.repairs, i)
  {
    hide Row, SuccessOk, ShapeOk, RowsOk, ParentsOk, ReviewsOk, RepairsOk, NewestOk, LineageOk;
    forall i ensures !Usable(db.repairs, i) {
      if Usable(db.repairs, i) { LatestUnique(db.attempts, db.state.value.cycle, RepairOf(i), InitialOf(k)); }
    }
  }

  /** A phase that no attempt is running in, entered with no usable repair. */
  lemma StoppedProgress(db: Db, phase: Phase, d: Db)
    requires db.state.Some? && ProgressOk(db)
    requires forall i :: !Usable(db.repairs, i)
    requires phase in {EXECUTION_FAILED, WAITING_FOR_INPUT, EXECUTION_READY} ==> NoSuccess(db.attempts, db.state.value.cycle)
    requires phase in {EXECUTION_FAILED, WAITING_FOR_INPUT, EXECUTION_READY, REVIEW_BLOCKED}
    requires d == WithPhase(db, phase)
    ensures ProgressOk(d)
  {
    hide Row, NoSuccess, ShapeOk, UsableOk;
    SameRow(db, d);
    SuccessPhase(db.attempts, db.state.value.cycle, db.state.value.phase, Row(db), phase);
    hide SuccessOk;
    NoUsableOk(d);
    ShapelessPlanning(d);
  }

  lemma SuccessPhase(x: Attempts, cycle: nat, phase: Phase, row: Option<ExecStatus>, next: Phase)
    requires SuccessOk(x, cycle, phase, row)
    requires next in {PLANNING, WAITING_FOR_PLAN_APPROVAL, EXECUTION_READY, WAITING_FOR_INPUT, EXECUTION_FAILED} ==> NoSuccess(x, cycle)
    ensures SuccessOk(x, cycle, next, row)
  {
  }

  /** The one way into review from an initial attempt: attempt and execution row both succeeded. */
  lemma EntersReview(db: Db, k: PermitId, d: Db)
    requires db.state.Some? && PlanTablesOk(db) && Records(db) && ProgressOk(db) && InPhase(db, EXECUTING)
    requires IsLatest(db.attempts, db.state.value.cycle, InitialOf(k)) && db.attempts[InitialOf(k)].status == Succeeded
    requires d == WithPhase(db, REVIEW_EXECUTION)
    ensures ProgressOk(d)
  {
    var st, id := db.state.value, InitialOf(k);
    hide PlanTablesOk, Records, ProgressOk, Row;
    RunningLatest(db, id);
    NotUsableInitial(db, k);
    InitialPlan(db, k);
    ReviewEntered(db, id, d);
  }

  lemma InitialPlan(db: Db, k: PermitId)
    requires db.state.Some? && PlanTablesOk(db) && Records(db) && ProgressOk(db) && InPhase(db, EXECUTING)
    requires IsLatest(db.attempts, db.state.value.cycle, InitialOf(k)) && db.attempts[InitialOf(k)].status == Succeeded
    ensures db.attempts[InitialOf(k)].plan == db.state.value.plan
  {
    var id := InitialOf(k);
    hide PlanTablesOk, NumbersOk, ParentsOk, ReviewsOk, RepairsOk, NewestOk, LineageOk, ShapeOk, UsableOk, Row;
    assert SucceededIn(db.attempts, db.state.value.cycle, id);
    RunningLatest(db, id);
    assert RowOk(db.attempts[id], db.permits, db.repairs);
    LivePermitPlan(db, k);
  }

  lemma ReviewEntered(db: Db, a: AttemptId, d: Db)
    requires db.state.Some? && ProgressOk(db) && IsLatest(db.attempts, db.state.value.cycle, a)
    requires db.attempts[a].status == Succeeded && db.attempts[a].plan == db.state.value.plan
    requires NotRepaired(db.repairs, db.reviews, a) && forall i :: !Usable(db.repairs, i)
    requires d == WithPhase(db, REVIEW_EXECUTION)
    ensures ProgressOk(d)
  {
    hide Row, UsableOk;
    SameRow(db, d);
    SuccessPhase(db.attempts, db.state.value.cycle, db.state.value.phase, Row(db), REVIEW_EXECUTION);
    hide SuccessOk;
    assert ReviewShape(d.attempts, d.reviews, d.repairs, d.state.value.cycle, REVIEW_EXECUTION, d.state.value.plan, a);
    NoUsableOk(d);
  }

  lemma PhaseOnly(db: Db, phase: Phase, d: Db)
    requires db.state.Some? && PlanTablesOk(db) && Records(db)
    requires Active(phase) && Active(db.state.value.phase) && (phase == EXECUTION_READY ==> db.state.value.phase == EXECUTION_READY)
    requires d == WithPhase(db, phase)
    ensures PlanTablesOk(d) && Records(d)
  {
    hide PlanTablesOk, RecordsOk, LineageOk;
    ActivePhase(db, d);
  }

  lemma KeepSaveOutcome(s: Sys, k: PermitId, ok: bool, d: Db)
    requires Inv(s) && s.worker == AttemptClosed(k, ok)
    requires SavePhase(s.db, if ok then REVIEW_EXECUTION else EXECUTION_FAILED) == Some(d)
    ensures Inv(Sys(d, Idle))
  {
    hide PlanTablesOk, Records, ProgressOk, NoSuccess, Row;
    PhaseOnly(s.db, d.state.value.phase, d);
    if ok { EntersReview(s.db, k, d); } else { NotUsableInitial(s.db, k); StoppedProgress(s.db, EXECUTION_FAILED, d); }
  }

  lemma KeepAskRow(s: Sys, k: PermitId, d: Db)
    requires Inv(s) && s.worker == AskedAttempt(k) && InterruptForInput(s.db, k) == Some(d)
    ensures Inv(Sys(d, AskedRow))
  {
    hide PlanTablesOk, Records, ProgressOk, NoSuccess;
    LivePermitPlan(s.db, k);
    TargetIsRow(s.db);
    hide ExecutionTarget;
    var mid := CloseRow(s.db, RowKey(s.db.state.value), RowInterrupted).value;
    SameButExecs(s.db, mid);
    InitialProgress(s.db, k, mid);
    NotUsableInitial(mid, k);
    PhaseOnly(mid, WAITING_FOR_INPUT, d);
    StoppedProgress(mid, WAITING_FOR_INPUT, d);
  }

  lemma KeepAskSaved(s: Sys, d: Db)
    requires Inv(s) && s.worker == AskedRow && SavePhase(s.db, WAITING_FOR_INPUT) == Some(d)
    ensures Inv(Sys(d, Idle))
  {
    hide PlanTablesOk, Records, ProgressOk;
    assert d == s.db;
  }

  lemma KeepDie(s: Sys)
    requires Inv(s) && s.db.state.Some?
    ensures Inv(Sys(s.db, Idle))
  {
    hide PlanTablesOk, Records, ProgressOk;
  }

  // ------------------------------------------------------------------ recovery of the initial execution

  /** An initial row is recognised by its kind. */
  lemma InitialKind(db: Db, a: AttemptId)
    requires db.state.Some? && Records(db) && a in db.attempts
    ensures db.attempts[a].kind == INITIAL <==> a.InitialOf?
    ensures a.InitialOf? ==> db.attempts[a].auth == ByPermit(a.permit) && a.permit in db.permits
    ensures a.InitialOf? ==> db.permits[a.permit].cycle == db.attempts[a].cycle
  {
    hide ParentsOk, NumbersOk, NewestOk, ReviewsOk, RepairsOk, LineageOk;
  }

  /** What durable-success recovery does to the latest attempt. */
  lemma RecoveredIs(db: Db, d: Db) returns (a: AttemptId)
    requires RecoverFromRow(db) == Some(d)
    ensures InPhase(db, EXECUTING) && Row(db) == Some(RowSucceeded)
    ensures IsLatest(db.attempts, db.state.value.cycle, a) && db.attempts[a].kind == INITIAL
    ensures d == WithPhase(db, REVIEW_BLOCKED) ||
            (db.attempts[a].status != Succeeded && d == FinishAttempt(db, a, Succeeded)) ||
            (db.attempts[a].status == Succeeded && d == WithPhase(db, REVIEW_EXECUTION))
  {
    hide StillAuthorized, FinishAttempt, Row;
    a :| IsLatest(db.attempts, db.state.value.cycle, a) && (db.attempts[a].kind == INITIAL &&
         (d == WithPhase(db, REVIEW_BLOCKED) ||
          (db.attempts[a].status != Succeeded && d == FinishAttempt(db, a, Succeeded)) ||
          (db.attempts[a].status == Succeeded && d == WithPhase(db, REVIEW_EXECUTION))));
  }

  lemma KeepRecoverSuccess(db: Db, d: Db)
    requires Sound(db) && RecoverFromRow(db) == Some(d)
    ensures Sound(d)
  {
    hide PlanTablesOk, Records, ProgressOk, RecoverFromRow, FinishAttempt, Row;
    var a := RecoveredIs(db, d);
    InitialKind(db, a);
    NotUsableInitial(db, a.permit);
    if d == WithPhase(db, REVIEW_BLOCKED) {
      PhaseOnly(db, REVIEW_BLOCKED, d);
      StoppedProgress(db, REVIEW_BLOCKED, d);
    } else {
      RecoveredPermit(db, a);
      if db.attempts[a].status != Succeeded {
        OrphanUnsuccessful(db, a);
        AttemptSucceeds(db, a.permit, d);
      } else {
        PhaseOnly(db, REVIEW_EXECUTION, d);
        EntersReview(db, a.permit, d);
      }
    }
  }

  lemma RecoveredPermit(db: Db, a: AttemptId)
    requires Sound(db) && InPhase(db, EXECUTING) && Row(db) == Some(RowSucceeded) && a.InitialOf?
    requires IsLatest(db.attempts, db.state.value.cycle, a)
    ensures LivePermitIn(db.permits, db.state.value.cycle, a.permit)
  {
    hide PlanTablesOk, Records, ProgressOk, Row;
    RunningLatest(db, a);
  }

  lemma OrphanCases(db: Db, a: AttemptId, max: nat, d: Db, outcome: Outcome)
    requires InPhase(db, EXECUTING) && RecoverInitial(db, a, max) == Some((d, outcome))
    ensures a in db.attempts && db.attempts[a].kind == INITIAL && db.attempts[a].status == Running
    ensures outcome == EXHAUSTED ==> d == WithPhase(FinishAttempt(db, a, Failed), REVIEW_BLOCKED)
    ensures outcome == RETRY ==> InitialMayResume(db, db.attempts[a])
    ensures outcome == RETRY ==>
      var k := db.attempts[a].auth.permit;
      SameRows(FinishAttempt(db, a, Interrupted).(permits := db.permits[k := db.permits[k].(consumed := false)],
                                                 state := Some(db.state.value.(phase := EXECUTION_READY))), d)
  {
    hide ExecutionTarget;
  }

  /** A lost initial attempt: its one live permit becomes usable again, or the thread is blocked for good. */
  lemma KeepRecoverOrphan(db: Db, a: AttemptId, max: nat, d: Db, outcome: Outcome)
    requires Sound(db) && InPhase(db, EXECUTING) && IsLatest(db.attempts, db.state.value.cycle, a)
    requires RecoverInitial(db, a, max) == Some((d, outcome))
    ensures Sound(d)
  {
    hide PlanTablesOk, Records, ProgressOk, RecoverInitial, InitialMayResume, FinishAttempt, IsLatest;
    OrphanCases(db, a, max, d, outcome);
    InitialKind(db, a);
    OrphanUnsuccessful(db, a);
    if outcome == EXHAUSTED {
      var mid := FinishAttempt(db, a, Failed);
      FailedKeeps(db, a, Failed, mid);
      BlocksFor(mid, d);
    } else {
      var mid := FinishAttempt(db, a, Interrupted);
      OrphanPermit(db, a);
      FailedKeeps(db, a, Interrupted, mid);
      Reopens(mid, a.permit, d);
    }
  }

  lemma BlocksFor(db: Db, d: Db)
    requires Sound(db) && InPhase(db, EXECUTING) && (forall i :: !Usable(db.repairs, i)) && d == WithPhase(db, REVIEW_BLOCKED)
    ensures Sound(d)
  {
    hide PlanTablesOk, Records, ProgressOk;
    PhaseOnly(db, REVIEW_BLOCKED, d);
    StoppedProgress(db, REVIEW_BLOCKED, d);
  }

  lemma Reopens(db: Db, k: PermitId, d: Db)
    requires Sound(db) && (forall i :: !Usable(db.repairs, i)) && NoSuccess(db.attempts, db.state.value.cycle)
    requires Active(db.state.value.phase) && LivePermitIn(db.permits, db.state.value.cycle, k)
    requires SameRows(db.(permits := db.permits[k := db.permits[k].(consumed := false)],
                          state := Some(db.state.value.(phase := EXECUTION_READY))), d)
    ensures Sound(d)
  {
    hide PlanTablesOk, Records, ProgressOk, NoSuccess;
    RestoredPermit(db, k, d);
    ReadyProgress(db, d);
  }

  lemma OrphanUnsuccessful(db: Db, a: AttemptId)
    requires Sound(db) && InPhase(db, EXECUTING) && IsLatest(db.attempts, db.state.value.cycle, a)
    requires a.InitialOf? && db.attempts[a].status != Succeeded
    ensures NoSuccess(db.attempts, db.state.value.cycle)
  {
    hide PlanTablesOk, Records, ProgressOk, Row;
    RunningLatest(db, a);
  }

  lemma OrphanPermit(db: Db, a: AttemptId)
    requires Sound(db) && InPhase(db, EXECUTING) && IsLatest(db.attempts, db.state.value.cycle, a) && a.InitialOf?
    requires InitialMayResume(db, db.attempts[a])
    ensures db.attempts[a].auth == ByPermit(a.permit) && LivePermitIn(db.permits, db.state.value.cycle, a.permit)
  {
    hide PlanTablesOk, Records, ProgressOk;
    InitialKind(db, a);
  }

  /** A stopped initial attempt is still the latest, still without a success. */
  lemma FailedKeeps(db: Db, a: AttemptId, status: AttemptStatus, d: Db)
    requires Sound(db) && InPhase(db, EXECUTING)
    requires IsLatest(db.attempts, db.state.value.cycle, a) && a.InitialOf? && NoSuccess(db.attempts, db.state.value.cycle)
    requires status != Succeeded
    requires d == FinishAttempt(db, a, status)
    ensures Sound(d) && NoSuccess(d.attempts, db.state.value.cycle)
    ensures (forall i :: !Usable(d.repairs, i)) && d == db.(attempts := d.attempts)
  {
    hide PlanTablesOk, Records, ProgressOk, Row;
    assert !SucceededIn(db.attempts, db.state.value.cycle, a);
    StatusRestated(db, a, status, d);
    NotUsableInitial(db, a.permit);
    FailedProgress(db, a, d);
  }

  lemma FailedProgress(db: Db, a: AttemptId, d: Db)
    requires db.state.Some? && Records(db) && ProgressOk(db) && InPhase(db, EXECUTING) && NoSuccess(db.attempts, db.state.value.cycle)
    requires IsLatest(db.attempts, db.state.value.cycle, a) && a.InitialOf? && db.attempts[a].status != Succeeded
    requires d.state == db.state && Row(d) == Row(db) && d.permits == db.permits && d.repairs == db.repairs && d.reviews == db.reviews
    requires IsLatest(d.attempts, db.state.value.cycle, a) && Updated(db.attempts, d.attempts, a) && d.attempts[a].status != Succeeded
    requires forall i :: !Usable(db.repairs, i)
    ensures ProgressOk(d)
  {
    RunningLatest(db, a);
    hide Records, Row, ShapeOk, UsableOk;
    assert forall c, b :: SucceededIn(d.attempts, c, b) ==> SucceededIn(db.attempts, c, b) && d.attempts[b] == db.attempts[b];
    assert RunningShape(d.attempts, d.permits, d.repairs, d.reviews, d.state.value.cycle, Row(d), a);
    ShapeWhileExecuting(d);
    NoUsableOk(d);
    StillNoSuccess(db.attempts, d.attempts, d.state.value.cycle, EXECUTING, Row(db), Row(d));
    hide SuccessOk;
  }

  /** EXECUTION_READY again, on the same attempts. */
  lemma ReadyProgress(db: Db, d: Db)
    requires db.state.Some? && ProgressOk(db) && NoSuccess(db.attempts, db.state.value.cycle)
    requires forall i :: !Usable(db.repairs, i)
    requires d.state == Some(db.state.value.(phase := EXECUTION_READY))
    requires d.attempts == db.attempts && d.repairs == db.repairs && d.reviews == db.reviews
    ensures ProgressOk(d)
  {
    hide Row, ShapeOk, UsableOk;
    SuccessPhase(db.attempts, db.state.value.cycle, db.state.value.phase, Row(db), EXECUTION_READY);
    ReadySuccess(db.attempts, db.state.value.cycle, Row(db), Row(d));
    hide SuccessOk;
    NoUsableOk(d);
    ShapelessPlanning(d);
  }

  lemma ReadySuccess(x: Attempts, cycle: nat, row: Option<ExecStatus>, row': Option<ExecStatus>)
    requires SuccessOk(x, cycle, EXECUTION_READY, row)
    ensures SuccessOk(x, cycle, EXECUTION_READY, row')
  {
  }

  /** Restoring the live permit of the cycle reopens EXECUTION_READY. */
  lemma RestoredPermit(db: Db, k: PermitId, d: Db)
    requires db.state.Some? && PlanTablesOk(db) && Records(db) && Active(db.state.value.phase)
    requires LivePermitIn(db.permits, db.state.value.cycle, k)
    requires SameRows(db.(permits := db.permits[k := db.permits[k].(consumed := false)],
                          state := Some(db.state.value.(phase := EXECUTION_READY))), d)
    ensures PlanTablesOk(d) && Records(d)
  {
    hide PlanTablesOk, LineageOk, RecordsOk;
    PermitToggled(db, k, false, d);
    RecordsUnder(db, d.permits);
  }

  // ------------------------------------------------------------------ clarification answers

  lemma AnsweredIs(db: Db, clar: ClarId, event: EventKey, d: Db) returns (k: PermitId)
    requires db.state.Some? && clar in db.clars && db.clars[clar].cycle == db.state.value.cycle
    requires exists j :: LivePermitIn(db.permits, db.state.value.cycle, j)
    requires AnswerClarification(db, clar, event) == Some(d)
    ensures LivePermitIn(db.permits, db.state.value.cycle, k)
    ensures SameRows(db.(permits := db.permits[k := db.permits[k].(consumed := false)],
                         state := Some(db.state.value.(phase := EXECUTION_READY))), d)
  {
    hide ExecutionTarget;
    k :| LivePermitIn(db.permits, db.state.value.cycle, k) && d.permits == db.permits[k := db.permits[k].(consumed := false)];
  }

  lemma KeepAnswer(db: Db, clar: ClarId, event: EventKey, d: Db)
    requires Sound(db) && ClarificationCurrent(db, clar) && AnswerClarification(db, clar, event) == Some(d)
    ensures Sound(d)
  {
    hide PlanTablesOk, Records, ProgressOk, AnswerClarification;
    WaitingHasPermit(db);
    var k := AnsweredIs(db, clar, event, d);
    Reopens(db, k, d);
  }

  lemma WaitingHasPermit(db: Db)
    requires db.state.Some? && PlanTablesOk(db) && ProgressOk(db) && InPhase(db, WAITING_FOR_INPUT)
    ensures exists k :: LivePermitIn(db.permits, db.state.value.cycle, k)
    ensures forall i :: !Usable(db.repairs, i)
    ensures NoSuccess(db.attempts, db.state.value.cycle)
  {
    hide PlansOk, PermitsOk, LearnedOk, Row, ShapeOk;
  }
}
