/** Concrete runs that show where the machine stands still and where a stale answer would break the invariant. */
module WorkflowCounterexamples {
  import opened Prelude
  import opened WorkflowModel
  import opened WorkflowRun
  import opened WorkflowInvariant
  import opened WorkflowTermination
  import opened WorkflowProgress

  const THE_EVENT := Event(0, Invocation)
  const THE_PLAN := Plan(1, 1, 0, None, POSTED)
  const THE_STATE := WState(WAITING_FOR_PLAN_APPROVAL, 1, 0, None, 0, None)
  const THE_PERMIT := Permit(1, 0, 1, 0, false, false)
  const FRESH := Sys(Db([THE_EVENT], None, map[], map[], map[], map[], map[], map[], map[], map[], map[], {}, true), Idle)

  function Opened(): Sys {
    FRESH.(db := FRESH.db.(inputs := map[0 := CYCLE_ROOT], plans := map[0 := THE_PLAN], state := Some(THE_STATE)))
  }

  function Granted(): Sys {
    Opened().(db := Opened().db.(plans := map[0 := THE_PLAN.(status := AUTO_APPROVED)], permits := map[0 := THE_PERMIT],
                                 state := Some(THE_STATE.(phase := EXECUTION_READY))))
  }

  function FirstAttempt(status: AttemptStatus, retries: nat): Attempt {
    Attempt(1, 0, 1, 0, 1, INITIAL, 0, None, ByPermit(0), status, retries, 0, 0)
  }

  /** The thread with its one attempt, one permit and one execution row in the given states. */
  function Tried(phase: Phase, status: AttemptStatus, retries: nat, row: ExecStatus, consumed: bool, worker: Worker): Sys {
    Sys(Granted().db.(permits := map[0 := THE_PERMIT.(consumed := consumed)],
                      attempts := map[InitialOf(0) := FirstAttempt(status, retries)],
                      execs := map[EventExec(0) := row], state := Some(THE_STATE.(phase := phase))), worker)
  }

  lemma Begins()
    ensures Next(FRESH, Begin(0, THE_PLAN, THE_STATE)) == Some(Opened())
  {
    var d := BeginCycle(FRESH.db, 0, THE_PLAN, THE_STATE);
    assert d.Some?;
    assert d.value.plans == map[0 := THE_PLAN];
    assert d.value.inputs == map[0 := CYCLE_ROOT];
  }

  lemma Grants()
    ensures Next(Opened(), Authorize(0, THE_PERMIT)) == Some(Granted())
  {
    var d := AuthorizePlan(Opened().db, 0, THE_PERMIT);
    assert d.Some?;
    assert d.value.plans == map[0 := THE_PLAN.(status := AUTO_APPROVED)];
    assert d.value.permits == map[0 := THE_PERMIT];
  }

  lemma Binds(db: Db, d: Db)
    requires db == Granted().db || db == Tried(EXECUTION_READY, Interrupted, 1, RowRetryPending, false, Idle).db
    requires d == Tried(EXECUTING, if db == Granted().db then Running else Interrupted, if db == Granted().db then 0 else 1,
                        RowRunning, true, Idle).db
    ensures BindAuthorized(db, 0) == Some(d)
  {
    assert Pending(db.events, db.inputs, 0) == [];
    assert SweepPending([], db.execs, db.inputs) == Swept(db.execs, db.inputs);
    assert KnownEvent(db, 0) by { assert THE_EVENT in db.events; }
    assert PermitBindable(db, 0);
    assert RowClaimable(db, db.permits[0], FromEvent(0));
    var e := BindAuthorized(db, 0);
    assert e.Some?;
    assert e.value.permits == d.permits;
    assert e.value.attempts == d.attempts;
    assert e.value.execs == d.execs;
  }

  lemma Ensures()
    ensures Next(Tried(EXECUTING, Running, 0, RowRunning, true, Bound(0)), Ensure) ==
            Some(Tried(EXECUTING, Running, 1, RowRunning, true, Worker.Executing(0)))
  {
    var db := Tried(EXECUTING, Running, 0, RowRunning, true, Idle).db;
    assert Ensured(db.attempts, InitialOf(0), db.permits[0]) == map[InitialOf(0) := FirstAttempt(Running, 1)];
  }

  lemma RowFails()
    ensures Next(Tried(EXECUTING, Running, 1, RowRunning, true, Worker.Executing(0)), CloseExecution(false)) ==
            Some(Tried(EXECUTING, Running, 1, RowFailed, true, RowClosed(0, false)))
  {
    var db := Tried(EXECUTING, Running, 1, RowRunning, true, Idle).db;
    assert db.execs[EventExec(0) := RowFailed] == map[EventExec(0) := RowFailed];
  }

  lemma OnlyAttempt(db: Db)
    requires db.state.Some? && db.state.value.cycle == 1 && db.attempts.Keys == {InitialOf(0)} && db.attempts[InitialOf(0)].cycle == 1
    ensures forall a :: IsLatest(db.attempts, 1, a) <==> a == InitialOf(0)
  {
  }

  lemma OnlyPlan(db: Db)
    requires db.plans == Granted().db.plans
    ensures ExecutionTarget(db.plans, 1, 0) == EventExec(0)
  {
    assert forall p :: p in db.plans ==> p == 0;
  }

  lemma Orphaned(row: ExecStatus, db: Db, d: Db)
    requires row == RowRunning || row == RowFailed
    requires db == Tried(EXECUTING, Running, 1, row, true, Idle).db
    requires d == Tried(EXECUTION_READY, Interrupted, 1, if row == RowRunning then RowRetryPending else row, false, Idle).db
    ensures RecoverInitial(db, InitialOf(0), MAX_INITIAL_EXECUTION_RECOVERIES) == Some((d, RETRY))
  {
    OnlyPlan(db);
    hide ExecutionTarget;
    assert InitialMayResume(db, FirstAttempt(Running, 1));
    hide InitialMayResume;
    assert db.attempts[InitialOf(0) := FirstAttempt(Interrupted, 1)] == d.attempts;
    assert db.permits[0 := THE_PERMIT] == d.permits;
    assert (if row == RowRunning then db.execs[EventExec(0) := RowRetryPending] else db.execs) == d.execs;
  }

  lemma NextOrphan(s: Sys, a: AttemptId, d: Db)
    requires s.worker == Idle && InPhase(s.db, EXECUTING) && IsLatest(s.db.attempts, s.db.state.value.cycle, a)
    requires RecoverFromRow(s.db) == None && RecoverInitial(s.db, a, MAX_INITIAL_EXECUTION_RECOVERIES) == Some((d, RETRY))
    ensures Next(s, RecoverOrphan(a)) == Some(Sys(d, Idle))
  {
    hide RecoverInitial, RecoverFromRow, IsLatest;
  }

  lemma NotFromRow(db: Db)
    requires db.state.Some? && Row(db) != Some(RowSucceeded)
    ensures RecoverFromRow(db) == None
  {
    hide Row;
  }

  lemma Recovers(row: ExecStatus)
    requires row == RowRunning || row == RowFailed
    ensures Next(Tried(EXECUTING, Running, 1, row, true, Idle), RecoverOrphan(InitialOf(0))) ==
            Some(Tried(EXECUTION_READY, Interrupted, 1, if row == RowRunning then RowRetryPending else row, false, Idle))
  {
    var s := Tried(EXECUTING, Running, 1, row, true, Idle);
    var t := Tried(EXECUTION_READY, Interrupted, 1, if row == RowRunning then RowRetryPending else row, false, Idle);
    hide RecoverInitial, RecoverFromRow, IsLatest, Next;
    OnlyAttempt(s.db);
    NotFromRow(s.db);
    Orphaned(row, s.db, t.db);
    assert IsLatest(s.db.attempts, 1, InitialOf(0));
    NextOrphan(s, InitialOf(0), t.db);
  }

  lemma Binding(s: Sys, t: Sys)
    requires s.worker == Idle && BindAuthorized(s.db, 0) == Some(t.db) && t.worker == Bound(0)
    ensures Next(s, Label.Bind(0)) == Some(t)
  {
  }

  lemma Dying(phase: Phase, status: AttemptStatus, row: ExecStatus, consumed: bool, worker: Worker)
    requires worker != Idle
    ensures Next(Tried(phase, status, 1, row, consumed, worker), Die) == Some(Tried(phase, status, 1, row, consumed, Idle))
  {
  }

  lemma Rebinds()
    ensures Next(Tried(EXECUTION_READY, Interrupted, 1, RowRetryPending, false, Idle), Label.Bind(0)) ==
            Some(Tried(EXECUTING, Interrupted, 1, RowRunning, true, Bound(0)))
  {
    var ready := Tried(EXECUTION_READY, Interrupted, 1, RowRetryPending, false, Idle);
    var bound := Tried(EXECUTING, Interrupted, 1, RowRunning, true, Bound(0));
    hide BindAuthorized, Next;
    Binds(ready.db, bound.db);
    Binding(ready, bound);
  }

  /** Some run leads from `s` to `t`. */
  ghost predicate Reaches(s: Sys, t: Sys) {
    exists labels :: Run(s, labels) == Some(t)
  }

  lemma ReachesSelf(s: Sys)
    ensures Reaches(s, s)
  {
    hide Next;
    assert Run(s, []) == Some(s);
  }

  lemma StepReaches(s: Sys, l: Label, m: Sys, t: Sys)
    requires Next(s, l) == Some(m) && Reaches(m, t)
    ensures Reaches(s, t)
  {
    hide Next;
    var rest :| Run(m, rest) == Some(t);
    assert ([l] + rest)[1..] == rest;
    assert Run(s, [l] + rest) == Some(t);
  }

  /** The run up to an attempt that is being executed. */
  lemma TryReaches(t: Sys)
    requires Reaches(Tried(EXECUTING, Running, 1, RowRunning, true, Worker.Executing(0)), t)
    ensures Reaches(FRESH, t)
  {
    var bound, running := Tried(EXECUTING, Running, 0, RowRunning, true, Bound(0)),
                          Tried(EXECUTING, Running, 1, RowRunning, true, Worker.Executing(0));
    Begins(); Grants(); Ensures();
    Binds(Granted().db, bound.db);
    Binding(Granted(), bound);
    hide Reaches, Next, Tried, Granted, Opened;
    StepReaches(bound, Ensure, running, t);
    StepReaches(Granted(), Label.Bind(0), bound, t);
    StepReaches(Opened(), Authorize(0, THE_PERMIT), Granted(), t);
    StepReaches(FRESH, Begin(0, THE_PLAN, THE_STATE), Opened(), t);
  }

  /** A second death, between the re-bind and the attempt row, loses the thread for good. */
  lemma LostAfterRebind()
    ensures Initial(FRESH)
    ensures exists t :: Reaches(FRESH, t) && t.worker == Idle && LostForGood(t.db)
  {
    var running := Tried(EXECUTING, Running, 1, RowRunning, true, Worker.Executing(0));
    var lost := Tried(EXECUTING, Running, 1, RowRunning, true, Idle);
    var ready := Tried(EXECUTION_READY, Interrupted, 1, RowRetryPending, false, Idle);
    var bound := Tried(EXECUTING, Interrupted, 1, RowRunning, true, Bound(0));
    var t := Tried(EXECUTING, Interrupted, 1, RowRunning, true, Idle);
    hide Tried, LostForGood, Next, Reaches;
    Dying(EXECUTING, Running, RowRunning, true, Worker.Executing(0));
    Recovers(RowRunning);
    Rebinds();
    Dying(EXECUTING, Interrupted, RowRunning, true, Bound(0));
    LostFor(t);
    ReachesSelf(t);
    StepReaches(bound, Die, t, t);
    StepReaches(ready, Label.Bind(0), bound, t);
    StepReaches(lost, RecoverOrphan(InitialOf(0)), ready, t);
    StepReaches(running, Die, lost, t);
    TryReaches(t);
  }

  ghost predicate WaitsForever(s: Sys) {
    s.worker == Idle && InPhase(s.db, EXECUTION_READY) && Stuck(s.db)
  }

  /** A death between the failed row and the failed attempt leaves a permit whose row no bind accepts. */
  lemma FailedRowBlocksRetry()
    ensures Initial(FRESH)
    ensures exists t :: Reaches(FRESH, t) && WaitsForever(t)
  {
    var running := Tried(EXECUTING, Running, 1, RowRunning, true, Worker.Executing(0));
    var closed := Tried(EXECUTING, Running, 1, RowFailed, true, RowClosed(0, false));
    var lost := Tried(EXECUTING, Running, 1, RowFailed, true, Idle);
    var t := Tried(EXECUTION_READY, Interrupted, 1, RowFailed, false, Idle);
    hide Tried, WaitsForever, Next, Reaches;
    RowFails();
    Dying(EXECUTING, Running, RowFailed, true, RowClosed(0, false));
    Recovers(RowFailed);
    FailedUnclaimable(t);
    ReachesSelf(t);
    StepReaches(lost, RecoverOrphan(InitialOf(0)), t, t);
    StepReaches(closed, Die, lost, t);
    StepReaches(running, CloseExecution(false), closed, t);
    TryReaches(t);
  }

  lemma FailedUnclaimable(t: Sys)
    requires t == Tried(EXECUTION_READY, Interrupted, 1, RowFailed, false, Idle)
    ensures WaitsForever(t)
  {
    assert Pending(t.db.events, t.db.inputs, 0) == [];
    assert Scan(t.db, 0) == Swept(t.db.execs, t.db.inputs);
    assert forall k :: LivePermitIn(t.db.permits, 1, k) ==> !Claimable(t.db, k);
  }

  lemma LostFor(t: Sys)
    requires t == Tried(EXECUTING, Interrupted, 1, RowRunning, true, Idle)
    ensures t.worker == Idle && LostForGood(t.db)
  {
    OnlyAttempt(t.db);
    assert IsLatest(t.db.attempts, 1, InitialOf(0));
  }

  // ------------------------------------------------------------------ answering a stale clarification

  function AskedBefore(): Db {
    Tried(EXECUTING, Running, 1, RowRunning, true, Idle).db.(
      clars := map[0 := Clar(0, OPEN)],
      plans := map[0 := THE_PLAN.(status := AUTO_APPROVED), 1 := Plan(0, 1, 0, None, EXECUTED)],
      permits := map[0 := THE_PERMIT.(consumed := true), 1 := Permit(0, 1, 1, 0, true, false)])
  }

  lemma AskedSound()
    ensures PlanTablesOk(AskedBefore())
  {
    var db := AskedBefore();
    assert forall k :: k in db.permits ==> k == 0 || k == 1;
    assert forall p :: p in db.plans ==> p == 0 || p == 1;
    assert PlansOk(db.plans, 1, 0, None, 0) by {
      assert LivePlanIn(db.plans, 1, 0) && LivePlanIn(db.plans, 0, 1);
      assert HasLivePlan(db.plans, 1) && HasLivePlan(db.plans, 0);
    }
    hide PlansOk;
    assert LivePermitIn(db.permits, 1, 0) && LivePermitIn(db.permits, 0, 1);
  }

  /** EXECUTION_READY around a permit that is already consumed. */
  ghost predicate ReadyConsumed(db: Db) {
    InPhase(db, EXECUTION_READY) && exists k :: LivePermitIn(db.permits, db.state.value.cycle, k) && db.permits[k].consumed
  }

  /** Why an answer must belong to the cycle that waits: a clarification left OPEN by an earlier cycle, answered while
      permit 0 of the current cycle is being executed, reopens EXECUTION_READY around a consumed permit. */
  lemma StaleAnswer()
    ensures PlanTablesOk(AskedBefore()) && AskedBefore().clars[0] == Clar(0, OPEN) && AskedBefore().state.value.cycle == 1
    ensures AnswerClarification(AskedBefore(), 0, 7).Some? && ReadyConsumed(AnswerClarification(AskedBefore(), 0, 7).value)
  {
    AskedSound();
    hide PlanTablesOk, ExecutionTarget;
    var d := StaleEffect(AskedBefore());
    assert LivePermitIn(d.permits, 1, 0) && d.permits[0].consumed;
  }

  lemma StaleEffect(db: Db) returns (d: Db)
    requires db == AskedBefore()
    ensures AnswerClarification(db, 0, 7) == Some(d)
    ensures d.permits == db.permits[1 := db.permits[1].(consumed := false)] && d.state == WithPhase(db, EXECUTION_READY).state
  {
    hide ExecutionTarget;
    assert LivePermitIn(db.permits, 0, 1);
    assert forall k :: LivePermitIn(db.permits, 0, k) ==> k == 1;
    d := AnswerClarification(db, 0, 7).value;
  }
}
