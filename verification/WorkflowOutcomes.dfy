/** What each transaction does in a reachable state, read off the rows: in such a state few of its guards can fail, and those
    that can say when it goes through. */
module WorkflowOutcomes {
  import opened Prelude
  import opened WorkflowModel
  import opened WorkflowRun
  import opened WorkflowInvariant
  import opened WorkflowTables
  import opened WorkflowPlanning
  import opened WorkflowExecution
  import opened WorkflowReview
  import opened WorkflowRepair
  import opened WorkflowSafety
  import opened WorkflowTheorems
  import opened WorkflowChain
  import opened WorkflowTermination
  import opened WorkflowPhases
  import opened WorkflowProgress

  /** The newest attempt of the current cycle. */
  ghost predicate Newest(db: Db, a: AttemptId) {
    && db.state.Some? && a in db.attempts && db.attempts[a].cycle == db.state.value.cycle
    && forall b :: b in db.attempts && db.attempts[b].cycle == db.state.value.cycle ==> db.attempts[b].number <= db.attempts[a].number
  }

  predicate At(db: Db, phase: Phase) { db.state.Some? && db.state.value.phase == phase }

  function Moved(db: Db, phase: Phase): Option<WState> {
    if db.state.None? then None else Some(db.state.value.(phase := phase))
  }

  // ------------------------------------------------------------------ review

  /** A review is accepted exactly when it is the ACCEPT review of the newest attempt under review; only the phase moves. */
  lemma AcceptExactly(db: Db, r: ReviewId)
    requires Sound(db)
    ensures AcceptReview(db, r) ==
      if At(db, REVIEW_EXECUTION) && r in db.reviews && Newest(db, db.reviews[r].attempt) && db.reviews[r].verdict == ACCEPT
      then Some(db.(state := Moved(db, AWAITING_PUBLICATION))) else None
  {
    CurrentExactly(db, r);
    hide Sound, Newest, ReviewCurrent;
  }

  lemma CurrentExactly(db: Db, r: ReviewId)
    requires Sound(db)
    ensures ReviewCurrent(db, r) <==> At(db, REVIEW_EXECUTION) && r in db.reviews && Newest(db, db.reviews[r].attempt)
  {
    hide Sound;
    if At(db, REVIEW_EXECUTION) && r in db.reviews && Newest(db, db.reviews[r].attempt) {
      assert IsLatest(db.attempts, db.state.value.cycle, db.reviews[r].attempt);
      VerdictFits(db, db.reviews[r].attempt, r);
    }
  }

  /** And blocked exactly when it is the BLOCKED one; the plan's unused repair permits are withdrawn. */
  lemma BlockExactly(db: Db, r: ReviewId)
    requires Sound(db)
    ensures BlockReview(db, r).Some? <==>
      At(db, REVIEW_EXECUTION) && r in db.reviews && Newest(db, db.reviews[r].attempt) && db.reviews[r].verdict == BLOCKED
    ensures BlockReview(db, r).Some? ==>
      var d := BlockReview(db, r).value;
      && d == db.(state := Moved(db, REVIEW_BLOCKED), repairs := d.repairs) && d.repairs.Keys == db.repairs.Keys
      && forall i :: i in db.repairs ==>
           var p := db.repairs[i];
           d.repairs[i] == if p.cycle == db.state.value.cycle && p.plan == db.state.value.plan && !p.consumed
             then p.(invalidated := true) else p
  {
    CurrentExactly(db, r);
    if ReviewCurrent(db, r) { CurrentPlan(db, r); }
    hide Sound, Newest, ReviewCurrent;
  }

  lemma CurrentPlan(db: Db, r: ReviewId)
    requires ReviewCurrent(db, r)
    ensures db.reviews[r].plan == db.state.value.plan
  {
  }

  /** A failed review is counted, and the third one counted makes the next block the thread. */
  lemma FailureCounts(db: Db, a: AttemptId)
    requires db.state.Some? && a in db.attempts
    ensures ReviewFailure(db, a).Some?
    ensures var (d, outcome) := ReviewFailure(db, a).value;
      if db.attempts[a].reviewRecoveries < 3 then
        && outcome == RETRY && d == db.(attempts := d.attempts) && d.attempts.Keys == db.attempts.Keys
        && (forall b :: b in db.attempts && b != a ==> d.attempts[b] == db.attempts[b])
        && d.attempts[a] == db.attempts[a].(reviewRecoveries := db.attempts[a].reviewRecoveries + 1)
      else outcome == EXHAUSTED && d == db.(state := Moved(db, REVIEW_BLOCKED))
  {
  }

  // ------------------------------------------------------------------ recovery

  /** The row of the current version's execution. */
  function ExecutedRow(db: Db): ExecKey
    requires db.state.Some?
  {
    var st := db.state.value;
    match st.input
    case None => EventExec(st.root)
    case Some(input) => if input == FromEvent(st.root) then EventExec(st.root) else LogicalExec(st.cycle, input)
  }

  /** A lost initial execution is retried exactly while its counter is below three. The attempt is interrupted, its permit
      usable again, its row waits for a retry if it was running, and the thread is ready; or the attempt has failed and the
      thread is blocked. */
  lemma InitialByCounter(db: Db, k: PermitId)
    requires Sound(db) && At(db, EXECUTING) && Newest(db, InitialOf(k)) && db.attempts[InitialOf(k)].status == Running
    requires LivePermitIn(db.permits, db.state.value.cycle, k)
    ensures RecoverInitial(db, InitialOf(k), 3).Some?
    ensures var (d, outcome) := RecoverInitial(db, InitialOf(k), 3).value;
      var a, x := db.attempts[InitialOf(k)], ExecutedRow(db);
      if a.retries < 3 then
        && outcome == RETRY
        && d == db.(attempts := db.attempts[InitialOf(k) := a.(status := Interrupted)],
                    permits := db.permits[k := db.permits[k].(consumed := false)],
                    execs := if x in db.execs && db.execs[x] == RowRunning then db.execs[x := RowRetryPending] else db.execs,
                    state := Moved(db, EXECUTION_READY))
      else
        && outcome == EXHAUSTED
        && d == db.(attempts := db.attempts[InitialOf(k) := a.(status := Failed)], state := Moved(db, REVIEW_BLOCKED))
  {
    hide Sound;
    var a := InitialOf(k);
    assert IsLatest(db.attempts, db.state.value.cycle, a);
    InitialRecoverable(db, k);
    SoundRow(db);
    hide InitialMayResume, ExecutionTarget, Newest, LivePermitIn, ExecutedRow;
  }

  lemma SoundRow(db: Db)
    requires Sound(db)
    ensures ExecutionTarget(db.plans, db.state.value.cycle, db.state.value.root) == ExecutedRow(db)
  {
    hide PlanTablesOk, Records, ProgressOk;
    TargetIsRow(db);
    hide ExecutionTarget;
  }

  /** The attempt of the live permit names what its recovery compares. */
  lemma InitialRecoverable(db: Db, k: PermitId)
    requires Sound(db) && At(db, EXECUTING) && InitialOf(k) in db.attempts && LivePermitIn(db.permits, db.state.value.cycle, k)
    ensures var a := db.attempts[InitialOf(k)];
      && a.kind == INITIAL && a.auth == ByPermit(k) && InitialMayResume(db, a)
      && a.cycle == db.state.value.cycle && a.root == db.state.value.root
  {
    hide PlanTablesOk, Records, ProgressOk;
    InitialKind(db, InitialOf(k));
    LivePermitPlan(db, k);
    ExecutingPlan(db);
    PermitRow(db, k);
  }

  lemma PermitRow(db: Db, k: PermitId)
    requires db.state.Some? && Records(db) && InitialOf(k) in db.attempts
    ensures k in db.permits
    ensures var a, t := db.attempts[InitialOf(k)], db.permits[k];
      a.kind == INITIAL && a.auth == ByPermit(k) && a.cycle == t.cycle && a.plan == t.plan && a.version == t.version && a.root == t.root
  {
    hide ParentsOk, NumbersOk, NewestOk, ReviewsOk, RepairsOk, LineageOk;
    assert RowOk(db.attempts[InitialOf(k)], db.permits, db.repairs);
  }

  /** A lost repair is retried exactly while its counter is below three: it has failed, and its permit stays usable; or the
      permit is withdrawn and the thread blocked. */
  lemma RepairByCounter(db: Db, i: RepairId)
    requires Sound(db) && At(db, EXECUTING) && Newest(db, RepairOf(i))
    ensures RecoverRepair(db, RepairOf(i)).Some? && i in db.repairs && !db.repairs[i].consumed
    ensures var d, a := RecoverRepair(db, RepairOf(i)).value, db.attempts[RepairOf(i)];
      if a.repairRecoveries < 3 then
        d == db.(attempts := db.attempts[RepairOf(i) := a.(status := Failed, repairRecoveries := a.repairRecoveries + 1)],
                 state := Moved(db, REPAIR_READY))
      else
        d == db.(attempts := db.attempts[RepairOf(i) := a.(status := Failed)],
                 repairs := db.repairs[i := db.repairs[i].(invalidated := true)], state := Moved(db, REVIEW_BLOCKED))
  {
    hide Sound;
    assert IsLatest(db.attempts, db.state.value.cycle, RepairOf(i)) by { NewestIsLatest(db, RepairOf(i)); }
    LostRepair(db, RepairOf(i));
    SoundRepairAuth(db, i);
    OrphanUsable(db, RepairOf(i));
    hide RepairOrphan, Newest, IsLatest, RecoverRepair;
    OrphanRecovered(db, RepairOf(i));
  }

  lemma OrphanRecovered(db: Db, a: AttemptId)
    requires RepairOrphan(db, a)
    requires a in db.attempts && db.attempts[a].auth.ByRepair? && db.attempts[a].auth.repair in db.repairs && db.state.Some?
    requires !db.repairs[db.attempts[a].auth.repair].consumed
    ensures var t, i := db.attempts[a], db.attempts[a].auth.repair;
      RecoverRepair(db, a) == Some(
        if t.repairRecoveries < 3 then
          db.(attempts := db.attempts[a := t.(status := Failed, repairRecoveries := t.repairRecoveries + 1)],
              state := Moved(db, REPAIR_READY))
        else
          db.(attempts := db.attempts[a := t.(status := Failed)], repairs := db.repairs[i := db.repairs[i].(invalidated := true)],
              state := Moved(db, REVIEW_BLOCKED)))
  {
    hide RepairOrphan;
  }

  lemma OrphanUsable(db: Db, a: AttemptId)
    requires RepairOrphan(db, a)
    ensures a in db.attempts && db.attempts[a].auth.ByRepair? && db.attempts[a].auth.repair in db.repairs
    ensures !db.repairs[db.attempts[a].auth.repair].consumed && db.state.Some?
  {
    hide ChainMatches;
  }

  lemma SoundRepairAuth(db: Db, i: RepairId)
    requires Sound(db) && RepairOf(i) in db.attempts
    ensures db.attempts[RepairOf(i)].auth == ByRepair(i)
  {
    hide PlanTablesOk, ProgressOk, ParentsOk, NumbersOk, NewestOk, ReviewsOk, RepairsOk, LineageOk, RowOk;
  }

  // ------------------------------------------------------------------ repairs

  /** The next round's permit is new and usable; past the fifth every unused permit is withdrawn and the thread blocked. */
  ghost predicate IssuesRound(db: Db, a: AttemptId, r: ReviewId, d: Db) {
    && db.state.Some? && a in db.attempts && db.state.value.plan in db.plans
    && var st, round := db.state.value, db.attempts[a].round + 1;
    if round <= 5 then
      && RepairId(r, round) !in db.repairs
      && d == db.(state := Moved(db, REPAIR_READY),
                  repairs := db.repairs[RepairId(r, round) :=
                    Repair(st.cycle, st.plan, db.plans[st.plan].version, st.root, r, round, false, false)])
    else
      && d == db.(state := Moved(db, REVIEW_BLOCKED), repairs := d.repairs) && d.repairs.Keys == db.repairs.Keys
      && forall i :: i in db.repairs ==>
           d.repairs[i] == if db.repairs[i].consumed then db.repairs[i] else db.repairs[i].(invalidated := true)
  }

  /** A repair is asked for exactly when the newest attempt's review says NEEDS_FIXES. */
  lemma RepairIssuedExactly(db: Db, a: AttemptId)
    requires Sound(db) && At(db, REVIEW_EXECUTION) && Newest(db, a)
    ensures CreateRepair(db, 5).Some? <==> exists r :: IsReviewOf(db.reviews, a, r) && db.reviews[r].verdict == NEEDS_FIXES
    ensures forall r :: IsReviewOf(db.reviews, a, r) && db.reviews[r].verdict == NEEDS_FIXES ==>
      IssuesRound(db, a, r, CreateRepair(db, 5).value)
  {
    hide Sound, Repairable, CreateRepair, Newest;
    assert IsLatest(db.attempts, db.state.value.cycle, a) by { NewestIsLatest(db, a); }
    if CreateRepair(db, 5).Some? {
      var b, q := MadeRepair(db, CreateRepair(db, 5).value);
      RepairableReads(db, b, q);
      SoundLatest(db, a, b);
    }
    forall r | IsReviewOf(db.reviews, a, r) && db.reviews[r].verdict == NEEDS_FIXES
      ensures CreateRepair(db, 5).Some? && IssuesRound(db, a, r, CreateRepair(db, 5).value)
    {
      VerdictFits(db, a, r);
      OnlyRepairable(db, a, r);
      IssuedRound(db, a, r);
      hide CreateRepairFor;
    }
    hide IsReviewOf, IsLatest;
  }

  lemma NewestIsLatest(db: Db, a: AttemptId)
    requires Newest(db, a)
    ensures IsLatest(db.attempts, db.state.value.cycle, a)
  {
  }

  lemma RepairableReads(db: Db, a: AttemptId, r: ReviewId)
    requires Repairable(db, a, r)
    ensures IsReviewOf(db.reviews, a, r) && db.reviews[r].verdict == NEEDS_FIXES && IsLatest(db.attempts, db.state.value.cycle, a)
  {
  }

  lemma SoundLatest(db: Db, a: AttemptId, b: AttemptId)
    requires Sound(db) && IsLatest(db.attempts, db.state.value.cycle, a) && IsLatest(db.attempts, db.state.value.cycle, b)
    ensures a == b
  {
    hide PlanTablesOk, ProgressOk, Records, IsLatest;
    LatestIsOne(db, a, b);
  }

  lemma SoundReview(db: Db, a: AttemptId, r: ReviewId, q: ReviewId)
    requires Sound(db) && IsReviewOf(db.reviews, a, r) && IsReviewOf(db.reviews, a, q)
    ensures r == q
  {
    hide PlanTablesOk, ProgressOk, RowsOk, ParentsOk, NumbersOk, NewestOk, RepairsOk, LineageOk;
  }

  lemma OnlyRepairable(db: Db, a: AttemptId, r: ReviewId)
    requires Sound(db) && Repairable(db, a, r)
    ensures CreateRepair(db, 5) == Some(CreateRepairFor(db, a, r, 5))
  {
    hide Sound, Repairable, CreateRepairFor, IsReviewOf, IsLatest;
    forall b, q | Repairable(db, b, q) ensures b == a && q == r {
      RepairableReads(db, a, r);
      RepairableReads(db, b, q);
      SoundLatest(db, a, b);
      SoundReview(db, a, r, q);
    }
  }

  lemma IssuedRound(db: Db, a: AttemptId, r: ReviewId)
    requires Sound(db) && Repairable(db, a, r)
    ensures IssuesRound(db, a, r, CreateRepairFor(db, a, r, 5))
  {
    hide PlanTablesOk, ProgressOk, Records;
    RoundFree(db, a, r);
    hide RoundTaken, IsLatest;
  }

  /** A running repair that succeeds consumes its permit and returns to review; one that fails loses its permit and blocks. */
  lemma RepairCloses(s: Sys, i: RepairId)
    requires Inv(s) && s.db.state.Some? && s.worker == Repairing(i)
    ensures var db, a := s.db, RepairOf(i);
      && i in db.repairs && a in db.attempts
      && FinishRepair(db, i, a) ==
           Some(db.(attempts := db.attempts[a := db.attempts[a].(status := Succeeded)],
                    repairs := db.repairs[i := db.repairs[i].(consumed := true)], state := Moved(db, REVIEW_EXECUTION)))
      && FailRepair(db, a) ==
           Some(db.(attempts := db.attempts[a := db.attempts[a].(status := Failed)],
                    repairs := db.repairs[i := db.repairs[i].(invalidated := true)], state := Moved(db, REVIEW_BLOCKED)))
  {
    SoundTables(s);
    RepairingIs(s, i);
    hide Inv, Sound;
    SoundRepairAuth(s.db, i);
  }

  lemma RepairingIs(s: Sys, i: RepairId)
    requires Inv(s) && s.db.state.Some? && s.worker == Repairing(i)
    ensures i in s.db.repairs && !s.db.repairs[i].consumed && RepairOf(i) in s.db.attempts
  {
    hide Sound;
  }

  // ------------------------------------------------------------------ plans and permits

  /** The one unread event that approves or revises: stored, not consumed, and without a run of its own. */
  predicate Takable(db: Db, e: EventKey) {
    (exists x :: x in db.events && x.key == e) && e !in db.inputs && (EventExec(e) in db.execs ==> db.execs[EventExec(e)] == RowSkipped)
  }

  /** An approval grants its permit exactly when the plan it names is the current one, waiting for approval, and the event
      can be taken; the permit is fresh, whatever the record said. */
  lemma ApproveExactly(db: Db, e: EventKey, k: PermitId, permit: Permit)
    requires Sound(db) && k !in db.permits
    ensures ApprovePlan(db, e, k, permit) ==
      if At(db, WAITING_FOR_PLAN_APPROVAL) && permit.plan == db.state.value.plan && Takable(db, e) then
        Some(db.(inputs := db.inputs[e := PLAN_APPROVAL], execs := db.execs[EventExec(e) := RowSkipped],
                 plans := db.plans[permit.plan := db.plans[permit.plan].(status := APPROVED)],
                 permits := db.permits[k := permit.(consumed := false, invalidated := false)], state := Moved(db, EXECUTION_READY)))
      else None
  {
    SoundCurrent(db);
    ApprovableIs(db, permit);
    assert KnownEvent(db, e) <==> exists x :: x in db.events && x.key == e;
    hide Sound, Approvable, KnownEvent;
  }

  lemma ApprovableIs(db: Db, permit: Permit)
    requires Sound(db)
    ensures Approvable(db, permit) <==> At(db, WAITING_FOR_PLAN_APPROVAL) && permit.plan == db.state.value.plan
    ensures Approvable(db, permit) ==> permit.plan in db.plans && db.state.Some?
  {
    SoundCurrent(db);
    hide Sound;
  }

  /** The same without an event, in the automatic mode. */
  lemma AuthorizeExactly(db: Db, k: PermitId, permit: Permit)
    requires Sound(db) && k !in db.permits
    ensures AuthorizePlan(db, k, permit) ==
      if At(db, WAITING_FOR_PLAN_APPROVAL) && permit.plan == db.state.value.plan then
        Some(db.(plans := db.plans[permit.plan := db.plans[permit.plan].(status := AUTO_APPROVED)],
                 permits := db.permits[k := permit.(consumed := false, invalidated := false)], state := Moved(db, EXECUTION_READY)))
      else None
  {
    SoundCurrent(db);
    ApprovableIs(db, permit);
    hide Sound, Approvable;
  }

  /** The current plan is stored; it is POSTED while it waits for approval. */
  lemma SoundCurrent(db: Db)
    requires Sound(db)
    ensures db.state.value.plan in db.plans
    ensures At(db, WAITING_FOR_PLAN_APPROVAL) ==> db.plans[db.state.value.plan].status == POSTED
  {
    hide PermitsOk, LearnedOk, Records, ProgressOk;
  }

  /** A draft is posted once, and waits for approval from then on; after that posting again changes nothing. */
  lemma PostExactly(db: Db, p: PlanId)
    requires Sound(db)
    ensures MarkPosted(db, p) ==
      if db.state.None? || p !in db.plans || p != db.state.value.plan then None
      else if At(db, WAITING_FOR_PLAN_APPROVAL) then Some(db)
      else if At(db, PLANNING) && (db.plans[p].status == DRAFT || db.plans[p].status == POSTED) then
        Some(db.(plans := db.plans[p := db.plans[p].(status := POSTED)], state := Moved(db, WAITING_FOR_PLAN_APPROVAL)))
      else None
  {
    SoundCurrent(db);
    hide Sound;
  }

  /** The permits of a cycle that nobody used are withdrawn, and no others. */
  ghost predicate Withdrawn(permits: Permits, cycle: nat, after: Permits) {
    && after.Keys == permits.Keys
    && forall k :: k in permits ==>
         after[k] == if permits[k].cycle == cycle && !permits[k].consumed then permits[k].(invalidated := true) else permits[k]
  }

  lemma InvalidatedIs(permits: Permits, cycle: nat)
    ensures Withdrawn(permits, cycle, InvalidateUnconsumed(permits, cycle))
  {
  }

  /** Feedback withdraws the unused permits and reopens the planning, from the approval or the ready phase; the same
      feedback may come twice. */
  lemma RevisionStartsExactly(db: Db, e: EventKey)
    requires Sound(db)
    ensures BeginRevision(db, e).Some? <==>
      (exists x :: x in db.events && x.key == e) &&
      (At(db, WAITING_FOR_PLAN_APPROVAL) || At(db, EXECUTION_READY) || (At(db, PLANNING) && db.state.value.feedback == Some(e)))
    ensures BeginRevision(db, e).Some? ==>
      var d := BeginRevision(db, e).value;
      && d == db.(permits := d.permits, state := Some(db.state.value.(phase := PLANNING, feedback := Some(e))))
      && Withdrawn(db.permits, db.state.value.cycle, d.permits)
  {
    InvalidatedIs(db.permits, db.state.value.cycle);
    hide Sound, InvalidateUnconsumed;
  }

  /** The next version replaces the current one: that is superseded, and the new plan is the current one. */
  predicate Replaced(db: Db, p: PlanId, plan: Plan, d: Db) {
    && db.state.Some? && d.state.Some? && db.state.value.plan in db.plans && d.state.value.plan == p
    && d.plans == db.plans[db.state.value.plan := db.plans[db.state.value.plan].(status := SUPERSEDED)][p := plan]
  }

  predicate NewVersion(db: Db, p: PlanId, plan: Plan) {
    p !in db.plans && !exists q :: q in db.plans && db.plans[q].cycle == plan.cycle && db.plans[q].version == plan.version
  }

  lemma NewIs(db: Db, p: PlanId, plan: Plan)
    ensures NewVersion(db, p, plan) <==> p !in db.plans && !VersionTaken(db.plans, plan.cycle, plan.version)
  {
  }

  /** A planned revision ends with the feedback it was begun for, consumed once. */
  lemma RevisionEndsExactly(db: Db, p: PlanId, plan: Plan, e: EventKey)
    requires Sound(db)
    ensures FinishRevision(db, p, plan, e).Some? <==>
      && At(db, PLANNING) && db.state.value.feedback == Some(e) && NewVersion(db, p, plan)
      && (EventExec(e) in db.execs ==> db.execs[EventExec(e)] == RowSkipped)
  {
    SoundCurrent(db);
    NewIs(db, p, plan);
    hide Sound, VersionTaken, NewVersion, Consume;
  }

  lemma RevisionLeaves(db: Db, p: PlanId, plan: Plan, e: EventKey)
    requires FinishRevision(db, p, plan, e).Some?
    ensures db.state.Some?
    ensures var d := FinishRevision(db, p, plan, e).value;
      && d == db.(inputs := db.inputs[e := if e in db.inputs then db.inputs[e] else PLAN_FEEDBACK],
                  execs := db.execs[EventExec(e) := RowSkipped], plans := d.plans,
                  state := Some(db.state.value.(plan := p, feedback := None)))
      && Replaced(db, p, plan, d)
  {
    hide VersionTaken, ControlClashes;
    if e in db.inputs { assert db.inputs[e := db.inputs[e]] == db.inputs; }
  }

  /** The combined revision needs an event that can be taken, and withdraws the unused permits too. */
  lemma ReviseExactly(db: Db, e: EventKey, p: PlanId, plan: Plan)
    requires Sound(db)
    ensures RevisePlan(db, e, p, plan).Some? <==>
      && (At(db, WAITING_FOR_PLAN_APPROVAL) || At(db, EXECUTION_READY)) && NewVersion(db, p, plan)
      && e !in db.inputs && (EventExec(e) in db.execs ==> db.execs[EventExec(e)] == RowSkipped)
    ensures RevisePlan(db, e, p, plan).Some? ==>
      var d := RevisePlan(db, e, p, plan).value;
      && d == db.(inputs := db.inputs[e := PLAN_FEEDBACK], execs := db.execs[EventExec(e) := RowSkipped], plans := d.plans,
                  permits := d.permits, state := Some(db.state.value.(phase := PLANNING, plan := p)))
      && Replaced(db, p, plan, d) && Withdrawn(db.permits, db.state.value.cycle, d.permits)
  {
    SoundCurrent(db);
    InvalidatedIs(db.permits, db.state.value.cycle);
    NewIs(db, p, plan);
    hide Sound, InvalidateUnconsumed, VersionTaken, NewVersion, Withdrawn;
  }

  /** The next cycle begins only after the last one has closed. */
  lemma CycleBeginsExactly(db: Db, p: PlanId, plan: Plan, st: WState)
    ensures BeginCycle(db, p, plan, st) ==
      if (db.state == None || (At(db, IDLE) && st.cycle == 1 + db.state.value.cycle)) && NewVersion(db, p, plan) then
        Some(db.(inputs := db.inputs[plan.root := if plan.root in db.inputs then db.inputs[plan.root] else CYCLE_ROOT],
                 plans := db.plans[p := plan], state := Some(st)))
      else None
  {
    if plan.root in db.inputs { assert db.inputs[plan.root := db.inputs[plan.root]] == db.inputs; }
  }

  // ------------------------------------------------------------------ attempts

  /** The attempt of a bound permit runs: again with one more retry, or for the first time under the next number. A success
      is left alone. */
  lemma EnsureExactly(db: Db, k: PermitId)
    requires k in db.permits
    ensures EnsureAttempt(db, k).Some?
    ensures var d, a, t := EnsureAttempt(db, k).value, InitialOf(k), db.permits[k];
      && d == db.(attempts := d.attempts) && a in d.attempts && d.attempts == db.attempts[a := d.attempts[a]]
      && if a in db.attempts then
           d.attempts[a] == if db.attempts[a].status == Succeeded then db.attempts[a]
             else db.attempts[a].(status := Running, retries := db.attempts[a].retries + 1)
         else
           var n := d.attempts[a].number;
           && d.attempts[a] == Attempt(t.cycle, t.plan, t.version, t.root, n, INITIAL, 0, None, ByPermit(k), Running, 0, 0, 0)
           && n >= 1 && (forall b :: b in db.attempts && db.attempts[b].cycle == t.cycle ==> db.attempts[b].number < n)
           && (n > 1 ==> exists b :: b in db.attempts && db.attempts[b].cycle == t.cycle && db.attempts[b].number == n - 1)
  {
    if InitialOf(k) !in db.attempts {
      NextNumberIs(db.attempts, db.permits[k].cycle);
      hide NextNumber;
    } else {
      assert db.attempts == db.attempts[InitialOf(k) := db.attempts[InitialOf(k)]];
    }
  }

  lemma NextNumberIs(attempts: Attempts, cycle: nat)
    ensures var n := NextNumber(attempts, cycle);
      && n >= 1 && (forall b :: b in attempts && attempts[b].cycle == cycle ==> attempts[b].number < n)
      && (n > 1 ==> exists b :: b in attempts && attempts[b].cycle == cycle && attempts[b].number == n - 1)
  {
    if a :| a in attempts && attempts[a].cycle == cycle { LatestExists(attempts, cycle, a); }
  }

  // ------------------------------------------------------------------ clarification

  /** The worker that asks interrupts its running row and waits for the answer. */
  lemma AskExactly(s: Sys, k: PermitId)
    requires Inv(s) && s.db.state.Some? && s.worker == AskedAttempt(k)
    ensures var db, x := s.db, ExecutedRow(s.db);
      InterruptForInput(db, k) == Some(db.(execs := db.execs[x := RowInterrupted], state := Moved(db, WAITING_FOR_INPUT)))
  {
    SoundTables(s);
    AskedIs(s, k);
    AskedPermit(s.db, k);
    hide Inv, Sound;
    SoundRow(s.db);
    hide ExecutionTarget, ExecutedRow;
  }

  lemma AskedIs(s: Sys, k: PermitId)
    requires Inv(s) && s.db.state.Some? && s.worker == AskedAttempt(k)
    ensures LivePermitIn(s.db.permits, s.db.state.value.cycle, k)
    ensures ExecutedRow(s.db) in s.db.execs && s.db.execs[ExecutedRow(s.db)] == RowRunning
  {
    hide Sound, IsLatest, NoSuccess;
  }

  lemma AskedPermit(db: Db, k: PermitId)
    requires Sound(db) && LivePermitIn(db.permits, db.state.value.cycle, k)
    ensures db.permits[k].plan == db.state.value.plan && db.permits[k].root == db.state.value.root && db.permits[k].cycle == db.state.value.cycle
  {
    hide PlanTablesOk, Records, ProgressOk;
    LivePermitPlan(db, k);
  }

  /** An answer of the waiting cycle hands its permit back, lets its row be claimed again, and readies the execution. */
  lemma AnswerExactly(db: Db, q: ClarId, e: EventKey, k: PermitId)
    requires Sound(db) && At(db, WAITING_FOR_INPUT) && LivePermitIn(db.permits, db.state.value.cycle, k)
    requires q in db.clars && db.clars[q].cycle == db.state.value.cycle
    ensures var x := ExecutedRow(db);
      AnswerClarification(db, q, e) ==
      if db.clars[q].status != OPEN then None
      else Some(db.(clars := db.clars[q := db.clars[q].(status := ANSWERED)],
                    inputs := db.inputs[e := if e in db.inputs then db.inputs[e] else CLARIFICATION_RESPONSE],
                    permits := db.permits[k := db.permits[k].(consumed := false)],
                    execs := if x in db.execs then db.execs[x := RowRetryPending] else db.execs, state := Moved(db, EXECUTION_READY)))
  {
    AskedPermit(db, k);
    SoundRow(db);
    SoundLive(db, k);
    hide Sound, ExecutionTarget, ExecutedRow, AnswerClarification;
    if db.clars[q].status == OPEN { AnsweredBy(db, q, e, k); } else { NotOpen(db, q, e); }
  }

  lemma NotOpen(db: Db, q: ClarId, e: EventKey)
    requires q in db.clars && db.clars[q].status != OPEN
    ensures AnswerClarification(db, q, e) == None
  {
  }

  lemma AnsweredBy(db: Db, q: ClarId, e: EventKey, k: PermitId)
    requires db.state.Some? && q in db.clars && db.clars[q].status == OPEN
    requires LivePermitIn(db.permits, db.clars[q].cycle, k) && forall j :: LivePermitIn(db.permits, db.clars[q].cycle, j) ==> j == k
    ensures k in db.permits
    ensures var x := ExecutionTarget(db.plans, db.clars[q].cycle, db.permits[k].root);
      AnswerClarification(db, q, e) ==
        Some(db.(clars := db.clars[q := db.clars[q].(status := ANSWERED)],
                 inputs := db.inputs[e := if e in db.inputs then db.inputs[e] else CLARIFICATION_RESPONSE],
                 permits := db.permits[k := db.permits[k].(consumed := false)],
                 execs := if x in db.execs then db.execs[x := RowRetryPending] else db.execs, state := Moved(db, EXECUTION_READY)))
  {
    hide ExecutionTarget;
    if e in db.inputs { assert db.inputs[e := db.inputs[e]] == db.inputs; }
  }

  lemma SoundLive(db: Db, k: PermitId)
    requires Sound(db) && LivePermitIn(db.permits, db.state.value.cycle, k)
    ensures forall j :: LivePermitIn(db.permits, db.state.value.cycle, j) ==> j == k
  {
    hide Records, ProgressOk, PlansOk, PhaseOk, LearnedOk;
  }

  /** A new clarification is open, and belongs to the cycle that asks. */
  lemma OpenExactly(db: Db, q: ClarId)
    requires db.state.Some?
    ensures OpenClarification(db, q) ==
      if q in db.clars then None else Some(db.(clars := db.clars[q := Clar(db.state.value.cycle, OPEN)]))
  {
  }

  /** An execution row is closed once, from running; a review stands for its attempt once. */
  lemma ClosedOnce(db: Db, x: ExecKey, status: ExecStatus, r: ReviewId, review: Review)
    ensures CloseRow(db, x, status) == if x in db.execs && db.execs[x] == RowRunning then Some(db.(execs := db.execs[x := status])) else None
    ensures SaveReview(db, r, review) ==
      if r in db.reviews || exists q :: q in db.reviews && db.reviews[q].attempt == review.attempt then db
      else db.(reviews := db.reviews[r := review])
  {
  }

  /** Cancelling for a new plan withdraws every permit of the cycle, used or not. */
  lemma CancelExactly(db: Db, q: ClarId, e: EventKey)
    requires db.state.Some? && q in db.clars
    ensures CancelClarification(db, q, e).Some? <==> db.clars[q].status == OPEN
    ensures CancelClarification(db, q, e).Some? ==>
      var d, cycle := CancelClarification(db, q, e).value, db.clars[q].cycle;
      && d == db.(clars := db.clars[q := db.clars[q].(status := CANCELLED)], permits := d.permits,
                  inputs := db.inputs[e := if e in db.inputs then db.inputs[e] else PLANNING_INPUT],
                  state := Some(db.state.value.(phase := PLANNING, feedback := Some(e))))
      && d.permits.Keys == db.permits.Keys
      && forall k :: k in db.permits ==>
           d.permits[k] == if db.permits[k].cycle == cycle then db.permits[k].(invalidated := true) else db.permits[k]
  {
    if e in db.inputs { assert db.inputs[e := db.inputs[e]] == db.inputs; }
  }

  // ------------------------------------------------------------------ publication

  /** The status of a publication row follows the publisher; no other row moves. */
  lemma AdvanceExactly(db: Db, id: (nat, InputId), status: PubStatus)
    ensures UpdatePublication(db, id, status) == if id in db.pubs then Some(db.(pubs := db.pubs[id := status])) else None
  {
  }

  /** The input a cycle publishes for: the deferred follow-up it was made for, or its root. */
  function PublishesFor(st: WState): InputId { match st.input case None => FromEvent(st.root) case Some(input) => input }

  /** The publication row of the waiting cycle is opened once, and the cycle closes exactly when that row has an outcome. */
  lemma PublicationExactly(s: Sys, labels: seq<Label>, t: Sys)
    requires Initial(s) && Run(s, labels) == Some(t) && t.db.state.Some?
    ensures var db, id := t.db, (t.db.state.value.cycle, PublishesFor(t.db.state.value));
      if At(db, AWAITING_PUBLICATION) && db.hasWorkspace then
        && EnsurePublication(db) == Some(db.(pubs := if id in db.pubs then db.pubs else db.pubs[id := PubPending]))
        && (Finalize(db, id).Some? <==> id in db.pubs && (db.pubs[id] == PubCompleted || db.pubs[id] == PubNoChanges))
        && (Finalize(db, id).Some? ==>
              db.state.value.plan in db.plans &&
              Finalize(db, id) == Some(db.(plans := db.plans[db.state.value.plan := db.plans[db.state.value.plan].(status := EXECUTED)],
                                           learned := db.learned + {id}, state := Moved(db, IDLE))))
      else EnsurePublication(db) == None && forall other :: Finalize(db, other) == None
  {
    hide Run, Next, PublicationTarget, Sound;
    TargetExactlyWhileAwaiting(s, labels, t);
    if PublicationTarget(t.db).Some? { TargetPlan(t.db); }
  }
}
