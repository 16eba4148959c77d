/** The store itself: one object whose tables the transactions update in place. A method reads its rows with the loops
    the queries stand for, leaves every table alone when it refuses, and otherwise does its whole update. */
module WorkflowStore {
  import opened Prelude
  import opened WorkflowModel
  import opened WorkflowRun

  /** The UNIQUE constraints the queries rely on: attempt numbers per cycle, one review per attempt, plan versions per cycle. */
  ghost predicate SchemaOk(db: Db) {
    && UniqueNumbers(db.attempts)
    && UniqueReviews(db.reviews)
    && UniqueVersions(db.plans)
  }

  ghost predicate UniqueNumbers(attempts: map<AttemptId, Attempt>) {
    forall a, b ::
      a in attempts && b in attempts && attempts[a].cycle == attempts[b].cycle && attempts[a].number == attempts[b].number ==> a == b
  }

  ghost predicate UniqueReviews(reviews: map<ReviewId, Review>) {
    forall r, q :: r in reviews && q in reviews && reviews[r].attempt == reviews[q].attempt ==> r == q
  }

  ghost predicate UniqueVersions(plans: map<PlanId, Plan>) {
    forall p, q :: p in plans && q in plans && plans[p].cycle == plans[q].cycle && plans[p].version == plans[q].version ==> p == q
  }

  /** `ORDER BY attempt_number DESC LIMIT 1` over the attempts of a cycle. */
  method LatestAttempt(attempts: map<AttemptId, Attempt>, cycle: nat) returns (latest: Option<AttemptId>)
    requires UniqueNumbers(attempts)
    ensures forall a :: IsLatest(attempts, cycle, a) <==> latest == Some(a)
    ensures latest.None? ==> forall a :: a in attempts ==> attempts[a].cycle != cycle
  {
    latest := None;
    var todo := attempts.Keys;
    while todo != {}
      invariant todo <= attempts.Keys
      invariant latest.None? ==> forall a :: a in attempts && a !in todo ==> attempts[a].cycle != cycle
      invariant latest.Some? ==> latest.value in attempts && attempts[latest.value].cycle == cycle
      invariant latest.Some? ==>
        forall a :: a in attempts && a !in todo && attempts[a].cycle == cycle ==> attempts[a].number <= attempts[latest.value].number
      decreases todo
    {
      var a :| a in todo;
      if attempts[a].cycle == cycle && (latest.None? || attempts[latest.value].number < attempts[a].number) {
        latest := Some(a);
      }
      todo := todo - {a};
    }
    assert latest.Some? ==> IsLatest(attempts, cycle, latest.value);
  }

  /** The review row whose execution is the given attempt. */
  method ReviewFor(reviews: map<ReviewId, Review>, attempt: AttemptId) returns (found: Option<ReviewId>)
    requires UniqueReviews(reviews)
    ensures forall r: ReviewId :: IsReviewOf(reviews, attempt, r) <==> found == Some(r)
  {
    found := None;
    var todo := reviews.Keys;
    while todo != {}
      invariant todo <= reviews.Keys
      invariant found.None? ==> forall r :: r in reviews && r !in todo ==> reviews[r].attempt != attempt
      invariant found.Some? ==> found.value in reviews && reviews[found.value].attempt == attempt
      decreases todo
    {
      var r :| r in todo;
      if reviews[r].attempt == attempt { found := Some(r); }
      todo := todo - {r};
    }
  }

  /** The plan row with the highest version of a cycle, `_execution_target`. */
  method LatestPlan(plans: map<PlanId, Plan>, cycle: nat) returns (latest: Option<PlanId>)
    requires UniqueVersions(plans)
    ensures forall p: PlanId :: IsLatestPlan(plans, cycle, p) <==> latest == Some(p)
  {
    latest := None;
    var todo := plans.Keys;
    while todo != {}
      invariant todo <= plans.Keys
      invariant latest.None? ==> forall p :: p in plans && p !in todo ==> plans[p].cycle != cycle
      invariant latest.Some? ==> latest.value in plans && plans[latest.value].cycle == cycle
      invariant latest.Some? ==>
        forall p :: p in plans && p !in todo && plans[p].cycle == cycle ==> plans[p].version <= plans[latest.value].version
      decreases todo
    {
      var p :| p in todo;
      if plans[p].cycle == cycle && (latest.None? || plans[latest.value].version < plans[p].version) {
        latest := Some(p);
      }
      todo := todo - {p};
    }
    assert latest.Some? ==> IsLatestPlan(plans, cycle, latest.value);
  }

  /** The pending scan: the events no transaction consumed yet, in order. */
  method PendingEvents(events: seq<Event>, inputs: map<EventKey, Purpose>, root: EventKey) returns (pending: seq<Event>)
    ensures pending == Pending(events, inputs, root)
  {
    pending := [];
    var i := |events|;
    while i > 0
      invariant 0 <= i <= |events|
      invariant pending == Pending(events[i..], inputs, root)
    {
      i := i - 1;
      assert events[i..][1..] == events[i + 1..];
      if events[i].key != root && events[i].key !in inputs { pending := [events[i]] + pending; }
    }
  }

  method ScanPending(events: seq<Event>, execs: map<ExecKey, ExecStatus>, inputs: map<EventKey, Purpose>, root: EventKey)
    returns (outcome: Sweep)
    ensures outcome == SweepPending(Pending(events, inputs, root), execs, inputs)
  {
    var pending := PendingEvents(events, inputs, root);
    var rows, consumed := execs, inputs;
    var i := 0;
    while i < |pending|
      invariant 0 <= i <= |pending|
      invariant SweepPending(pending[i..], rows, consumed) == SweepPending(pending, execs, inputs)
    {
      var e := pending[i];
      assert pending[i..][0] == e && pending[i..][1..] == pending[i + 1..];
      if e.body == Invocation { return Waiting(e.key, rows, consumed); }
      if e.body == ExactApproval {
        if ControlClashes(rows, e.key) { return Clash; }
        rows := rows[EventExec(e.key) := RowSkipped];
        consumed := Consume(consumed, e.key, STALE_PLAN_APPROVAL);
      }
      i := i + 1;
    }
    return Swept(rows, consumed);
  }

  method InvalidatePermits(permits: map<PermitId, Permit>, cycle: nat) returns (after: map<PermitId, Permit>)
    ensures after == InvalidateUnconsumed(permits, cycle)
  {
    after := permits;
    var todo := permits.Keys;
    while todo != {}
      invariant todo <= permits.Keys == after.Keys
      invariant forall k :: k in todo ==> after[k] == permits[k]
      invariant forall k :: k in permits && k !in todo ==> after[k] == InvalidateUnconsumed(permits, cycle)[k]
      decreases todo
    {
      var k :| k in todo;
      if permits[k].cycle == cycle && !permits[k].consumed && Live(permits[k]) {
        after := after[k := permits[k].(invalidated := true)];
      }
      todo := todo - {k};
    }
  }

  class Store {
    var events: seq<Event>
    var state: Option<WState>
    var plans: map<PlanId, Plan>
    var permits: map<PermitId, Permit>
    var attempts: map<AttemptId, Attempt>
    var reviews: map<ReviewId, Review>
    var repairs: map<RepairId, Repair>
    var execs: map<ExecKey, ExecStatus>
    var inputs: map<EventKey, Purpose>
    var clars: map<ClarId, Clar>
    var pubs: map<(nat, InputId), PubStatus>
    var learned: set<(nat, InputId)>
    var hasWorkspace: bool

    /** The rows a transaction reads and writes, as one value. */
    ghost function View(): Db
      reads this
    {
      Db(events, state, plans, permits, attempts, reviews, repairs, execs, inputs, clars, pubs, learned, hasWorkspace)
    }

    ghost predicate Valid()
      reads this
    {
      SchemaOk(View())
    }

    /** What a transaction does to the rows: all of `after`, or nothing. */
    twostate predicate Commits(ok: bool, after: Option<Db>)
      reads this
    {
      ok == after.Some? && View() == (if ok then after.value else old(View()))
    }

    constructor (events: seq<Event>)
      ensures Valid() && events == this.events
      ensures View() == Db(events, None, map[], map[], map[], map[], map[], map[], map[], map[], map[], {}, false)
    {
      this.events := events;
      state, plans, permits, attempts := None, map[], map[], map[];
      reviews, repairs, execs, inputs := map[], map[], map[], map[];
      clars, pubs, learned, hasWorkspace := map[], map[], {}, false;
    }

    /** A source event is ingested once. */
    method RecordEvent(event: Event) returns (added: bool)
      requires Valid()
      modifies this
      ensures Valid()
      ensures added == !KnownEvent(old(View()), event.key)
      ensures View() == if added then old(View()).(events := old(events) + [event]) else old(View())
    {
      var known := HasEvent(event.key);
      if known { return false; }
      events := events + [event];
      return true;
    }

    /** The phase the engine saves after an execution. */
    method SaveWorkflowPhase(phase: Phase) returns (ok: bool)
      requires Valid()
      modifies this
      ensures Valid()
      ensures Commits(ok, SavePhase(old(View()), phase))
    {
      if state.None? { return false; }
      state := Some(state.value.(phase := phase));
      return true;
    }

    /** The thread's workspace is recorded. */
    method SaveThreadWorkspace()
      requires Valid()
      modifies this
      ensures Valid()
      ensures View() == old(View()).(hasWorkspace := true)
    {
      hasWorkspace := true;
    }

    /** The tail of both approvals. */
    method GrantPermit(permitId: PermitId, permit: Permit, status: PlanStatus)
      requires Valid() && Approvable(View(), permit) && permitId !in permits
      modifies this
      ensures Valid()
      ensures Grant(old(View()), permitId, permit, status) == Some(View())
    {
      plans := plans[permit.plan := plans[permit.plan].(status := status)];
      permits := permits[permitId := permit.(consumed := false, invalidated := false)];
      state := Some(state.value.(phase := EXECUTION_READY));
    }

    method ApproveCurrentPlan(event: EventKey, permitId: PermitId, permit: Permit) returns (ok: bool)
      requires Valid()
      modifies this
      ensures Valid()
      ensures Commits(ok, ApprovePlan(old(View()), event, permitId, permit))
    {
      if state.None? || permit.plan !in plans { return false; }
      if state.value.phase != WAITING_FOR_PLAN_APPROVAL || state.value.plan != permit.plan { return false; }
      if plans[permit.plan].status != POSTED { return false; }
      var known := HasEvent(event);
      if !known || event in inputs || ControlClashes(execs, event) || permitId in permits { return false; }
      inputs := inputs[event := PLAN_APPROVAL];
      execs := execs[EventExec(event) := RowSkipped];
      GrantPermit(permitId, permit, APPROVED);
      return true;
    }

    method HasEvent(event: EventKey) returns (known: bool)
      ensures known == KnownEvent(View(), event)
    {
      var i := 0;
      while i < |events|
        invariant 0 <= i <= |events|
        invariant forall j :: 0 <= j < i ==> events[j].key != event
      {
        if events[i].key == event { return true; }
        i := i + 1;
      }
      return false;
    }

    method AuthorizeCurrentPlan(permitId: PermitId, permit: Permit) returns (ok: bool)
      requires Valid()
      modifies this
      ensures Valid()
      ensures Commits(ok, AuthorizePlan(old(View()), permitId, permit))
    {
      if state.None? || permit.plan !in plans || permitId in permits { return false; }
      if state.value.phase != WAITING_FOR_PLAN_APPROVAL || state.value.plan != permit.plan { return false; }
      if plans[permit.plan].status != POSTED { return false; }
      GrantPermit(permitId, permit, AUTO_APPROVED);
      return true;
    }

    method BeginPlanRevision(event: EventKey) returns (ok: bool)
      requires Valid()
      modifies this
      ensures Valid()
      ensures Commits(ok, BeginRevision(old(View()), event))
    {
      var known := HasEvent(event);
      if !known || state.None? { return false; }
      var st := state.value;
      if st.phase != WAITING_FOR_PLAN_APPROVAL && st.phase != EXECUTION_READY &&
         !(st.phase == PLANNING && st.feedback == Some(event)) { return false; }
      permits := InvalidatePermits(permits, st.cycle);
      state := Some(st.(phase := PLANNING, feedback := Some(event)));
      return true;
    }

    method EnsureExecutionAttempt(permitId: PermitId) returns (ok: bool)
      requires Valid()
      modifies this
      ensures Valid()
      ensures Commits(ok, EnsureAttempt(old(View()), permitId))
    {
      if permitId !in permits { return false; }
      var id, permit := InitialOf(permitId), permits[permitId];
      if id in attempts {
        var row := attempts[id];
        if row.status != Succeeded {
          attempts := attempts[id := row.(status := Running, retries := row.retries + 1)];
        }
      } else {
        var latest := LatestAttempt(attempts, permit.cycle);
        var number := if latest.Some? then attempts[latest.value].number + 1 else 1;
        assert number == NextNumber(attempts, permit.cycle);
        attempts := attempts[id := Attempt(permit.cycle, permit.plan, permit.version, permit.root, number,
                                           INITIAL, 0, None, ByPermit(permitId), Running, 0, 0, 0)];
      }
      return true;
    }

    // ---------------------------------------------------------------- plans

    method MarkCurrentPlanPosted(planId: PlanId) returns (ok: bool)
      requires Valid()
      modifies this
      ensures Valid()
      ensures Commits(ok, MarkPosted(old(View()), planId))
    {
      if state.None? || planId !in plans || state.value.plan != planId { return false; }
      var phase, plan := state.value.phase, plans[planId];
      if phase == WAITING_FOR_PLAN_APPROVAL && plan.status == POSTED { return true; }
      if phase != PLANNING || plan.status !in {DRAFT, POSTED} { return false; }
      plans := plans[planId := plan.(status := POSTED)];
      state := Some(state.value.(phase := WAITING_FOR_PLAN_APPROVAL));
      return true;
    }

    /** Supersede the current plan and insert the next version. */
    method ReplacePlan(planId: PlanId, plan: Plan, st: WState) returns (ok: bool)
      requires Valid() && state.Some?
      modifies this
      ensures Valid()
      ensures Commits(ok, Replace(old(View()), planId, plan, st))
    {
      var current := state.value.plan;
      if current !in plans || planId in plans || VersionTaken(plans, plan.cycle, plan.version) { return false; }
      plans := plans[current := plans[current].(status := SUPERSEDED)];
      plans := plans[planId := plan];
      state := Some(st.(plan := planId));
      return true;
    }

    method FinishPlanRevision(planId: PlanId, plan: Plan, event: EventKey) returns (ok: bool)
      requires Valid()
      modifies this
      ensures Valid()
      ensures Commits(ok, FinishRevision(old(View()), planId, plan, event))
    {
      if state.None? || state.value.plan !in plans { return false; }
      var st := state.value;
      if st.phase != PLANNING || st.feedback != Some(event) || ControlClashes(execs, event) { return false; }
      if planId in plans || VersionTaken(plans, plan.cycle, plan.version) { return false; }
      inputs := Consume(inputs, event, PLAN_FEEDBACK);
      execs := execs[EventExec(event) := RowSkipped];
      ok := ReplacePlan(planId, plan, st.(feedback := None));
    }

    method ReviseCurrentPlan(event: EventKey, planId: PlanId, plan: Plan) returns (ok: bool)
      requires Valid()
      modifies this
      ensures Valid()
      ensures Commits(ok, RevisePlan(old(View()), event, planId, plan))
    {
      if state.None? || state.value.plan !in plans { return false; }
      var st := state.value;
      if st.phase != WAITING_FOR_PLAN_APPROVAL && st.phase != EXECUTION_READY { return false; }
      if event in inputs || ControlClashes(execs, event) { return false; }
      if planId in plans || VersionTaken(plans, plan.cycle, plan.version) { return false; }
      hide VersionTaken, ControlClashes, InvalidateUnconsumed;
      TakeFeedback(event, st.cycle);
      ok := ReplacePlan(planId, plan, st.(phase := PLANNING));
    }

    /** Consume the event as feedback and withdraw the cycle's unused permits. */
    method TakeFeedback(event: EventKey, cycle: nat)
      requires Valid()
      modifies this
      ensures Valid()
      ensures var db := old(View());
        View() == db.(inputs := db.inputs[event := PLAN_FEEDBACK], execs := db.execs[EventExec(event) := RowSkipped],
                      permits := InvalidateUnconsumed(db.permits, cycle))
    {
      inputs := inputs[event := PLAN_FEEDBACK];
      execs := execs[EventExec(event) := RowSkipped];
      permits := InvalidatePermits(permits, cycle);
    }

    method BeginWorkflowCycle(planId: PlanId, plan: Plan, st: WState) returns (ok: bool)
      requires Valid()
      modifies this
      ensures Valid()
      ensures Commits(ok, BeginCycle(old(View()), planId, plan, st))
    {
      if state.Some? && (state.value.phase != IDLE || st.cycle != state.value.cycle + 1) { return false; }
      if planId in plans || VersionTaken(plans, plan.cycle, plan.version) { return false; }
      inputs := Consume(inputs, plan.root, CYCLE_ROOT);
      plans := plans[planId := plan];
      state := Some(st);
      return true;
    }

    // ---------------------------------------------------------------- initial execution

    method BindAuthorizedExecution(permitId: PermitId) returns (ok: bool)
      requires Valid()
      modifies this
      ensures Valid()
      ensures Commits(ok, BindAuthorized(old(View()), permitId))
    {
      ok := MayBind(permitId);
      if !ok { return false; }
      var permit, plan := permits[permitId], plans[permits[permitId].plan];
      var input := Effective(plan.input, plan.root);
      var scan := ScanPending(events, execs, inputs, permit.root);
      if !scan.Swept? { return false; }
      ok := ClaimsRow(scan.execs, scan.inputs, permit, input);
      if !ok { return false; }
      ClaimExecution(permitId, input, scan);
    }

    /** Every guard before the scan. */
    method MayBind(permitId: PermitId) returns (ok: bool)
      ensures ok == PermitBindable(View(), permitId)
    {
      if permitId !in permits || state.None? { return false; }
      var permit, st := permits[permitId], state.value;
      if !Live(permit) || permit.plan !in plans { return false; }
      var plan := plans[permit.plan];
      if st.phase != EXECUTION_READY || st.cycle != permit.cycle || st.plan != permit.plan { return false; }
      if plan.version != permit.version || !Approved(plan.status) || plan.root != permit.root { return false; }
      ok := HasEvent(permit.root);
    }

    /** Claim the execution row, open the attempt and consume the permit. */
    method ClaimExecution(permitId: PermitId, input: InputId, scan: Sweep)
      requires Valid() && permitId in permits && state.Some? && scan.Swept?
      modifies this
      ensures Valid()
      ensures var db, permit := old(View()), old(permits)[permitId];
        View() == WithPhase(db.(execs := scan.execs, inputs := scan.inputs), EXECUTING).(
                      execs := scan.execs[ExecKeyOf(permit.cycle, permit.root, input) := RowRunning],
                      permits := db.permits[permitId := permit.(consumed := true)],
                      attempts := InsertInitial(db, permitId, permit))
    {
      var permit := permits[permitId];
      execs := scan.execs[ExecKeyOf(permit.cycle, permit.root, input) := RowRunning];
      inputs := scan.inputs;
      OpenAttempt(permitId, permit);
      permits := permits[permitId := permit.(consumed := true)];
      state := Some(state.value.(phase := EXECUTING));
    }

    /** INSERT OR IGNORE of attempt 1. */
    method OpenAttempt(permitId: PermitId, permit: Permit)
      requires Valid()
      modifies this`attempts
      ensures Valid()
      ensures attempts == InsertInitial(old(View()), permitId, permit)
    {
      if InitialOf(permitId) !in attempts && !NumberTaken(attempts, permit.cycle, 1) {
        attempts := attempts[InitialOf(permitId) := Attempt(permit.cycle, permit.plan, permit.version, permit.root, 1, INITIAL,
                                                            0, None, ByPermit(permitId), Running, 0, 0, 0)];
      }
    }

    /** The row guards after the scan; earlier events must be resolved against the swept rows. */
    method ClaimsRow(rows: map<ExecKey, ExecStatus>, consumed: map<EventKey, Purpose>, permit: Permit, input: InputId)
      returns (ok: bool)
      ensures ok == RowClaimable(View().(execs := rows, inputs := consumed), permit, input)
    {
      var eventRow := RowStatus(rows, EventExec(permit.root));
      var logicalRow := RowStatus(rows, LogicalExec(permit.cycle, input));
      var logical := input != FromEvent(permit.root);
      if !logical && eventRow.Some? && eventRow.value != RowRetryPending { return false; }
      if permit.consumed && eventRow != Some(RowRetryPending) { return false; }
      if logical && logicalRow.Some? && logicalRow.value != RowRetryPending && logicalRow.value != RowInterrupted { return false; }
      ok := EarlierResolved(rows, consumed, permit.root);
    }

    /** `_assert_event_ordering`. */
    method EarlierResolved(rows: map<ExecKey, ExecStatus>, consumed: map<EventKey, Purpose>, key: EventKey) returns (ok: bool)
      ensures ok == OrderingHolds(View().(execs := rows, inputs := consumed), key)
    {
      var open := false;   // an earlier event is not resolved
      var i := 0;
      while i < |events|
        invariant 0 <= i <= |events|
        invariant open <==> exists j :: 0 <= j < i && !RowResolved(rows, pubs, events[j].key)
        invariant forall k :: 0 <= k < i && events[k].key == key ==>
          forall j :: 0 <= j < k ==> RowResolved(rows, pubs, events[j].key)
      {
        if events[i].key == key && open { return false; }
        open := open || !RowResolved(rows, pubs, events[i].key);
        i := i + 1;
      }
      return true;
    }

    // ---------------------------------------------------------------- closing and recovering

    method FinishExecutionAttempt(id: AttemptId, status: AttemptStatus)
      requires Valid()
      modifies this
      ensures Valid()
      ensures View() == FinishAttempt(old(View()), id, status)
    {
      if id in attempts { attempts := attempts[id := attempts[id].(status := status)]; }
    }

    method UpdateExecution(key: ExecKey, status: ExecStatus) returns (ok: bool)
      requires Valid()
      modifies this
      ensures Valid()
      ensures Commits(ok, CloseRow(old(View()), key, status))
    {
      if key !in execs || execs[key] != RowRunning { return false; }
      execs := execs[key := status];
      return true;
    }

    method RecoverOrphanedInitialAttempt(id: AttemptId, max: nat) returns (ok: bool, outcome: Outcome)
      requires Valid()
      modifies this
      ensures Valid()
      ensures var r := RecoverInitial(old(View()), id, max);
        if r.Some? then ok && r.value == (View(), outcome) else !ok && View() == old(View())
    {
      outcome := EXHAUSTED;
      if id !in attempts || attempts[id].kind != INITIAL || attempts[id].status != Running { return false, outcome; }
      var a := attempts[id];
      var resumable := MayResume(a);
      if !resumable || a.retries >= max {
        attempts := attempts[id := a.(status := Failed)];
        if state.Some? && state.value.phase == EXECUTING { state := Some(state.value.(phase := REVIEW_BLOCKED)); }
        return true, EXHAUSTED;
      }
      ReleaseAttempt(id);
      return true, RETRY;
    }

    /** Interrupt the attempt, let its row be claimed again and restore its permit. */
    method ReleaseAttempt(id: AttemptId)
      requires Valid() && id in attempts && attempts[id].auth.ByPermit? && attempts[id].auth.permit in permits
      requires state.Some? && state.value.phase == EXECUTING
      modifies this
      ensures Valid()
      ensures var db, a := old(View()), old(attempts)[id];
        var k := ExecutionTarget(db.plans, a.cycle, a.root);
        View() == db.(attempts := db.attempts[id := a.(status := Interrupted)],
                      execs := if RowStatus(db.execs, k) == Some(RowRunning) then db.execs[k := RowRetryPending] else db.execs,
                      permits := db.permits[a.auth.permit := db.permits[a.auth.permit].(consumed := false)],
                      state := PhaseIf(db.state, EXECUTING, EXECUTION_READY))
    {
      hide UniqueNumbers, UniqueReviews, UniqueVersions;
      var a := attempts[id];
      var target := Target(a.cycle, a.root);
      StaysUnique(attempts, id, a.(status := Interrupted));
      attempts := attempts[id := a.(status := Interrupted)];
      if RowStatus(execs, target) == Some(RowRunning) { execs := execs[target := RowRetryPending]; }
      permits := permits[a.auth.permit := permits[a.auth.permit].(consumed := false)];
      state := Some(state.value.(phase := EXECUTION_READY));
    }

    method MayResume(a: Attempt) returns (ok: bool)
      ensures ok == InitialMayResume(View(), a)
    {
      if state.None? || a.plan !in plans || !a.auth.ByPermit? || a.auth.permit !in permits { return false; }
      var st, plan := state.value, plans[a.plan];
      return st.phase == EXECUTING && st.cycle == a.cycle && st.plan == a.plan && plan.version == a.version &&
             Approved(plan.status) && Live(permits[a.auth.permit]);
    }

    method Target(cycle: nat, root: EventKey) returns (key: ExecKey)
      requires Valid()
      ensures key == ExecutionTarget(plans, cycle, root)
    {
      var latest := LatestPlan(plans, cycle);
      var input := if latest.Some? then plans[latest.value].input else None;
      key := ExecKeyOf(cycle, root, Effective(input, root));
    }

    // ---------------------------------------------------------------- review

    method SaveExecutionReview(id: ReviewId, review: Review)
      requires Valid()
      modifies this
      ensures Valid()
      ensures View() == SaveReview(old(View()), id, review)
    {
      var found := ReviewFor(reviews, review.attempt);
      assert Reviewed(reviews, review.attempt) <==> found.Some? by {
        if Reviewed(reviews, review.attempt) {
          var r :| r in reviews && reviews[r].attempt == review.attempt;
          assert IsReviewOf(reviews, review.attempt, r);
        }
        if found.Some? { assert IsReviewOf(reviews, review.attempt, found.value); }
      }
      if id !in reviews && found.None? { reviews := reviews[id := review]; }
    }

    /** The guards both verdict transactions share. */
    method CurrentReview(id: ReviewId) returns (ok: bool)
      requires Valid()
      ensures ok == ReviewCurrent(View(), id)
    {
      if id !in reviews || state.None? { return false; }
      var r, st := reviews[id], state.value;
      if r.attempt !in attempts || r.plan !in plans { return false; }
      var a, p := attempts[r.attempt], plans[r.plan];
      var latest := LatestAttempt(attempts, st.cycle);
      return st.phase == REVIEW_EXECUTION && r.cycle == st.cycle && r.root == st.root && st.plan == r.plan &&
             p.version == r.version && Approved(p.status) && latest == Some(r.attempt) && a.root == st.root &&
             a.plan == r.plan && a.version == p.version && a.status == Succeeded;
    }

    method AcceptExecutionReview(id: ReviewId) returns (ok: bool)
      requires Valid()
      modifies this
      ensures Valid()
      ensures Commits(ok, AcceptReview(old(View()), id))
    {
      ok := CurrentReview(id);
      if !ok || reviews[id].verdict != ACCEPT { return false; }
      state := Some(state.value.(phase := AWAITING_PUBLICATION));
    }

    method BlockExecutionReview(id: ReviewId) returns (ok: bool)
      requires Valid()
      modifies this
      ensures Valid()
      ensures Commits(ok, BlockReview(old(View()), id))
    {
      ok := CurrentReview(id);
      if !ok || reviews[id].verdict != BLOCKED { return false; }
      repairs := InvalidateCycleRepairs(repairs, state.value.cycle, reviews[id].plan);
      state := Some(state.value.(phase := REVIEW_BLOCKED));
    }

    method RecordReviewInfrastructureFailure(id: AttemptId) returns (ok: bool, outcome: Outcome)
      requires Valid()
      modifies this
      ensures Valid()
      ensures var r := ReviewFailure(old(View()), id);
        if r.Some? then ok && r.value == (View(), outcome) else !ok && View() == old(View())
    {
      outcome := EXHAUSTED;
      if id !in attempts || state.None? { return false, outcome; }
      var a := attempts[id];
      if a.reviewRecoveries >= MAX_REVIEW_RECOVERIES {
        state := Some(state.value.(phase := REVIEW_BLOCKED));
        return true, EXHAUSTED;
      }
      attempts := attempts[id := a.(reviewRecoveries := a.reviewRecoveries + 1)];
      return true, RETRY;
    }

    // ---------------------------------------------------------------- repair

    method CreateRepairPermit(max: nat) returns (ok: bool)
      requires Valid()
      modifies this
      ensures Valid()
      ensures Commits(ok, CreateRepair(old(View()), max))
    {
      if state.None? { return false; }
      var st := state.value;
      var latest := LatestAttempt(attempts, st.cycle);
      if latest.None? || st.plan !in plans { return false; }
      var a := latest.value;
      var found := ReviewFor(reviews, a);
      if found.None? { return false; }
      var p, rev := plans[st.plan], reviews[found.value];
      if st.phase != REVIEW_EXECUTION || attempts[a].status != Succeeded || rev.verdict != NEEDS_FIXES || rev.cycle != st.cycle ||
         rev.root != st.root || rev.plan != st.plan || rev.version != p.version || !Approved(p.status) { return false; }
      ghost var db := View();
      assert Repairable(db, a, found.value);
      assert forall b, r: ReviewId :: Repairable(db, b, r) ==> b == a && r == found.value;
      IssueRepair(a, found.value, max);
      return true;
    }

    /** Open the next repair round, or block the thread when the rounds are spent. */
    method IssueRepair(a: AttemptId, r: ReviewId, max: nat)
      requires Valid() && Repairable(View(), a, r)
      modifies this
      ensures Valid()
      ensures View() == CreateRepairFor(old(View()), a, r, max)
    {
      var st, p, round := state.value, plans[state.value.plan], attempts[a].round + 1;
      var id := RepairId(r, round);
      if round > max {
        repairs := InvalidateUnusedRepairs(repairs);
        state := Some(st.(phase := REVIEW_BLOCKED));
      } else {
        if id !in repairs && !RoundTaken(repairs, st.cycle, round) {
          repairs := repairs[id := Repair(st.cycle, st.plan, p.version, st.root, r, round, false, false)];
        }
        state := Some(st.(phase := REPAIR_READY));
      }
    }

    method BindRepairExecution(id: RepairId) returns (ok: bool)
      requires Valid()
      modifies this
      ensures Valid()
      ensures Commits(ok, BindRepair(old(View()), id))
    {
      ok := Bindable(id);
      if !ok { return false; }
      var p := repairs[id];
      var scan := ScanPending(events, execs, inputs, p.root);
      if scan.Clash? { return false; }
      if scan.Waiting? { CancelRepair(id, scan); } else { RunRepair(id, scan); }
    }

    /** A waiting input takes the repair permit away. */
    method CancelRepair(id: RepairId, scan: Sweep)
      requires Valid() && id in repairs && state.Some? && scan.Waiting?
      modifies this
      ensures Valid()
      ensures var db := old(View());
        View() == WithPhase(db, REVIEW_BLOCKED).(execs := scan.execs, inputs := scan.inputs,
                      repairs := db.repairs[id := db.repairs[id].(invalidated := true)])
    {
      execs := scan.execs;
      inputs := scan.inputs;
      repairs := repairs[id := repairs[id].(invalidated := true)];
      state := Some(state.value.(phase := REVIEW_BLOCKED));
    }

    /** Open the repair attempt, or open it again, and enter EXECUTING. */
    method RunRepair(id: RepairId, scan: Sweep)
      requires Valid() && id in repairs && repairs[id].parent in reviews && state.Some? && scan.Swept?
      requires reviews[repairs[id].parent].attempt in attempts
      requires if RepairOf(id) in attempts then true
               else IsLatest(attempts, repairs[id].cycle, reviews[repairs[id].parent].attempt)
      modifies this
      ensures Valid()
      ensures var db := old(View());
        View() == WithPhase(db, EXECUTING).(execs := scan.execs, inputs := scan.inputs,
                      attempts := db.attempts[RepairOf(id) := RepairRow(db, id)])
    {
      var p, aid := repairs[id], RepairOf(id);
      var row :=
        if aid in attempts then attempts[aid].(status := Running, retries := attempts[aid].retries + 1)
        else Attempt(p.cycle, p.plan, p.version, p.root, attempts[reviews[p.parent].attempt].number + 1,
                     REVIEW_REPAIR, p.round, Some(p.parent), ByRepair(id), Running, 0, 0, 0);
      StaysUnique(attempts, aid, row);
      execs := scan.execs;
      inputs := scan.inputs;
      attempts := attempts[aid := row];
      state := Some(state.value.(phase := EXECUTING));
    }

    method Bindable(id: RepairId) returns (ok: bool)
      requires Valid()
      ensures ok == RepairBindable(View(), id)
    {
      if id !in repairs || state.None? { return false; }
      var p, st := repairs[id], state.value;
      if p.invalidated || p.consumed || st.phase != REPAIR_READY { return false; }
      if st.cycle != p.cycle || st.root != p.root || st.plan != p.plan { return false; }
      var chained := Chained(p);
      if !chained { return false; }
      var parent := reviews[p.parent].attempt;
      if RepairOf(id) in attempts {
        var e := attempts[RepairOf(id)];
        return e.kind == REVIEW_REPAIR && e.status in {Failed, Running} && e.cycle == p.cycle && e.root == p.root &&
               e.plan == p.plan && e.version == p.version && e.parent == Some(p.parent) && e.round == p.round &&
               e.number == attempts[parent].number + 1;
      }
      var latest := LatestAttempt(attempts, p.cycle);
      return latest == Some(parent);
    }

    /** The review, attempt and plan chain behind a repair permit. */
    method Chained(p: Repair) returns (ok: bool)
      ensures ok == ChainMatches(View(), p)
    {
      if p.plan !in plans || p.parent !in reviews { return false; }
      var plan, rev := plans[p.plan], reviews[p.parent];
      if plan.version != p.version || !Approved(plan.status) || rev.verdict != NEEDS_FIXES { return false; }
      if rev.cycle != p.cycle || rev.root != p.root || rev.plan != p.plan || rev.version != p.version { return false; }
      if rev.attempt !in attempts { return false; }
      var pa := attempts[rev.attempt];
      return pa.status == Succeeded && pa.cycle == p.cycle && pa.root == p.root && pa.plan == p.plan &&
             pa.version == p.version && pa.round + 1 == p.round;
    }

    method FinishRepairAttemptSuccess(id: RepairId, aid: AttemptId) returns (ok: bool)
      requires Valid()
      modifies this
      ensures Valid()
      ensures Commits(ok, FinishRepair(old(View()), id, aid))
    {
      if id !in repairs || aid !in attempts || attempts[aid].auth != ByRepair(id) || state.None? { return false; }
      attempts := attempts[aid := attempts[aid].(status := Succeeded)];
      repairs := repairs[id := repairs[id].(consumed := true)];
      state := Some(state.value.(phase := REVIEW_EXECUTION));
      return true;
    }

    method MarkRepairAttemptFailed(aid: AttemptId) returns (ok: bool)
      requires Valid()
      modifies this
      ensures Valid()
      ensures Commits(ok, FailRepair(old(View()), aid))
    {
      if aid !in attempts || state.None? { return false; }
      var a := attempts[aid];
      attempts := attempts[aid := a.(status := Failed)];
      if a.auth.ByRepair? && a.auth.repair in repairs && !repairs[a.auth.repair].consumed {
        repairs := repairs[a.auth.repair := repairs[a.auth.repair].(invalidated := true)];
      }
      state := Some(state.value.(phase := REVIEW_BLOCKED));
      return true;
    }

    method RecoverOrphanedRepairAttempt(aid: AttemptId) returns (ok: bool)
      requires Valid()
      modifies this
      ensures Valid()
      ensures Commits(ok, RecoverRepair(old(View()), aid))
    {
      ok := Orphaned(aid);
      if !ok { return false; }
      CloseOrphan(aid);
    }

    /** Spend one recovery, or give the repair up. */
    method CloseOrphan(aid: AttemptId)
      requires Valid() && aid in attempts && attempts[aid].auth.ByRepair? && attempts[aid].auth.repair in repairs && state.Some?
      requires !repairs[attempts[aid].auth.repair].consumed
      modifies this
      ensures Valid()
      ensures var db, a := old(View()), old(attempts)[aid];
        var spent := a.repairRecoveries >= MAX_REPAIR_EXECUTION_RECOVERIES;
        View() == WithPhase(db, if spent then REVIEW_BLOCKED else REPAIR_READY).(
                      attempts := db.attempts[aid := if spent then a.(status := Failed)
                                                     else a.(status := Failed, repairRecoveries := a.repairRecoveries + 1)],
                      repairs := if spent then InvalidateIfUnconsumed(db.repairs, a.auth) else db.repairs)
    {
      var a := attempts[aid];
      if a.repairRecoveries >= MAX_REPAIR_EXECUTION_RECOVERIES {
        attempts := attempts[aid := a.(status := Failed)];
        repairs := repairs[a.auth.repair := repairs[a.auth.repair].(invalidated := true)];
        state := Some(state.value.(phase := REVIEW_BLOCKED));
      } else {
        attempts := attempts[aid := a.(status := Failed, repairRecoveries := a.repairRecoveries + 1)];
        state := Some(state.value.(phase := REPAIR_READY));
      }
    }

    method Orphaned(aid: AttemptId) returns (ok: bool)
      requires Valid()
      ensures ok == RepairOrphan(View(), aid)
    {
      if aid !in attempts || state.None? { return false; }
      var a, st := attempts[aid], state.value;
      if !a.auth.ByRepair? || a.auth.repair !in repairs { return false; }
      var p := repairs[a.auth.repair];
      if a.kind != REVIEW_REPAIR || a.status != Running || p.consumed || p.invalidated || st.phase != EXECUTING { return false; }
      if st.cycle != a.cycle || st.root != a.root || st.plan != a.plan { return false; }
      if p.cycle != a.cycle || p.plan != a.plan || p.version != a.version || p.root != a.root { return false; }
      if a.parent != Some(p.parent) || a.round != p.round { return false; }
      var chained := Chained(p);
      if !chained || attempts[reviews[p.parent].attempt].number + 1 != a.number { return false; }
      var latest := LatestAttempt(attempts, a.cycle);
      return latest == Some(aid);
    }

    // ---------------------------------------------------------------- clarification

    method InterruptExecutionForClarification(permitId: PermitId) returns (ok: bool)
      requires Valid()
      modifies this
      ensures Valid()
      ensures Commits(ok, InterruptForInput(old(View()), permitId))
    {
      if permitId !in permits || state.None? { return false; }
      var permit := permits[permitId];
      var target := Target(permit.cycle, permit.root);
      ok := UpdateExecution(target, RowInterrupted);
      if ok && state.value.plan == permit.plan { state := Some(state.value.(phase := WAITING_FOR_INPUT)); }
    }

    method CancelClarificationForReplan(id: ClarId, event: EventKey) returns (ok: bool)
      requires Valid()
      modifies this
      ensures Valid()
      ensures Commits(ok, CancelClarification(old(View()), id, event))
    {
      if id !in clars || clars[id].status != OPEN || state.None? { return false; }
      var cycle := clars[id].cycle;
      clars := clars[id := Clar(cycle, CANCELLED)];
      inputs := Consume(inputs, event, PLANNING_INPUT);
      permits := InvalidateCyclePermits(permits, cycle);
      state := Some(state.value.(phase := PLANNING, feedback := Some(event)));
      return true;
    }

    method SaveClarification(id: ClarId) returns (ok: bool)
      requires Valid()
      modifies this
      ensures Valid()
      ensures Commits(ok, OpenClarification(old(View()), id))
    {
      if state.None? || id in clars { return false; }
      clars := clars[id := Clar(state.value.cycle, OPEN)];
      return true;
    }

    /** `resume_clarification`. The permit it reads is any live one of the cycle: its query names no order. */
    method ResumeClarification(id: ClarId, event: EventKey) returns (ok: bool, ghost chosen: Option<PermitId>)
      requires Valid()
      modifies this
      ensures Valid()
      ensures ok ==> id in old(clars) && Chosen(old(permits), old(clars)[id].cycle, chosen)
      ensures Commits(ok, AnswerWith(old(View()), id, event, chosen))
    {
      chosen := None;
      if id !in clars || clars[id].status != OPEN || state.None? { return false, chosen; }
      var cycle := clars[id].cycle;
      var live := LivePermitOf(permits, cycle);
      chosen := live;
      clars := clars[id := Clar(cycle, ANSWERED)];
      inputs := Consume(inputs, event, CLARIFICATION_RESPONSE);
      if live.Some? { ReleasePermit(live.value, cycle); }
      return true, chosen;
    }

    /** Hand the permit back, let its execution row be claimed again, and return to EXECUTION_READY. */
    method ReleasePermit(k: PermitId, cycle: nat)
      requires Valid() && k in permits && state.Some?
      modifies this
      ensures Valid()
      ensures var db := old(View());
        var target := ExecutionTarget(db.plans, cycle, db.permits[k].root);
        View() == WithPhase(db, EXECUTION_READY).(
          permits := db.permits[k := db.permits[k].(consumed := false)],
          execs := if target in db.execs then db.execs[target := RowRetryPending] else db.execs)
    {
      var target := Target(cycle, permits[k].root);
      permits := permits[k := permits[k].(consumed := false)];
      if target in execs { execs := execs[target := RowRetryPending]; }
      state := Some(state.value.(phase := EXECUTION_READY));
    }

    // ---------------------------------------------------------------- publication

    method AdvancePublication(id: (nat, InputId), status: PubStatus) returns (ok: bool)
      requires Valid()
      modifies this
      ensures Valid()
      ensures Commits(ok, UpdatePublication(old(View()), id, status))
    {
      if id !in pubs { return false; }
      pubs := pubs[id := status];
      return true;
    }

    /** The legacy branch of `_publication_target`. */
    method TargetOfPublication() returns (target: Option<(nat, InputId)>)
      requires Valid()
      ensures target == PublicationTarget(View())
    {
      target := None;
      if state.None? || state.value.phase != AWAITING_PUBLICATION || state.value.plan !in plans || !hasWorkspace { return; }
      var st := state.value;
      var p := plans[st.plan];
      var input := PublishedInput(st, p);
      if p.cycle != st.cycle || p.root != st.root || !Approved(p.status) || (p.input.Some? && p.input.value != input) { return; }
      if RowStatus(execs, ExecKeyOf(st.cycle, st.root, input)) != Some(RowSucceeded) { return; }
      var latest := LatestAttempt(attempts, st.cycle);
      if latest.None? { return; }
      var at := attempts[latest.value];
      if at.status != Succeeded || at.plan != st.plan || at.version != p.version || at.root != st.root { return; }
      var found := ReviewFor(reviews, latest.value);
      if found.None? { return; }
      var rev := reviews[found.value];
      if rev.verdict != ACCEPT || rev.cycle != st.cycle || rev.root != st.root || rev.plan != st.plan || rev.version != p.version {
        return;
      }
      assert Publishable(View(), latest.value, found.value);
      target := Some((st.cycle, input));
    }

    method EnsurePublicationRow() returns (ok: bool)
      requires Valid()
      modifies this
      ensures Valid()
      ensures Commits(ok, EnsurePublication(old(View())))
    {
      var target := TargetOfPublication();
      if target.None? { return false; }
      if target.value !in pubs { pubs := pubs[target.value := PubPending]; }
      return true;
    }

    method FinalizePublication(id: (nat, InputId)) returns (ok: bool)
      requires Valid()
      modifies this
      ensures Valid()
      ensures Commits(ok, Finalize(old(View()), id))
    {
      if id !in pubs || pubs[id] !in {PubCompleted, PubNoChanges} { return false; }
      var target := TargetOfPublication();
      if target != Some(id) || state.None? || Effective(state.value.input, state.value.root) != id.1 { return false; }
      CloseCycle(id);
      return true;
    }

    /** Stamp the plan, schedule learning and return to IDLE. */
    method CloseCycle(id: (nat, InputId))
      requires Valid() && state.Some? && state.value.plan in plans
      modifies this
      ensures Valid()
      ensures var db, p := old(View()), old(state).value.plan;
        View() == WithPhase(db, IDLE).(plans := db.plans[p := db.plans[p].(status := EXECUTED)], learned := db.learned + {id})
    {
      var st := state.value;
      plans := plans[st.plan := plans[st.plan].(status := EXECUTED)];
      learned := learned + {id};
      state := Some(st.(phase := IDLE));
    }
  }

  /** A restated row keeps its number, and a row numbered past its cycle takes none. */
  lemma StaysUnique(attempts: map<AttemptId, Attempt>, id: AttemptId, row: Attempt)
    requires UniqueNumbers(attempts)
    requires if id in attempts then row.cycle == attempts[id].cycle && row.number == attempts[id].number
             else forall a :: a in attempts && attempts[a].cycle == row.cycle ==> attempts[a].number < row.number
    ensures UniqueNumbers(attempts[id := row])
  {
  }

  /** What counts as a resolved earlier event, over the rows of one scan. */
  predicate RowResolved(rows: map<ExecKey, ExecStatus>, pubs: map<(nat, InputId), PubStatus>, key: EventKey) {
    EventExec(key) in rows &&
    (rows[EventExec(key)] == RowSkipped ||
     (rows[EventExec(key)] == RowSucceeded && exists p :: p in pubs && p.1 == FromEvent(key) && pubs[p] in {PubCompleted, PubNoChanges}))
  }

  ghost predicate OneLivePermit(permits: map<PermitId, Permit>) {
    forall c: nat, j, k :: LivePermitIn(permits, c, j) && LivePermitIn(permits, c, k) ==> j == k
  }

  /** What a query for a live permit of the cycle may return. */
  ghost predicate Chosen(permits: map<PermitId, Permit>, cycle: nat, k: Option<PermitId>) {
    match k
    case None => forall j: PermitId :: !LivePermitIn(permits, cycle, j)
    case Some(p) => LivePermitIn(permits, cycle, p)
  }

  /** The answer, with the permit the query returned. */
  ghost function AnswerWith(db: Db, id: ClarId, event: EventKey, k: Option<PermitId>): Option<Db> {
    if id !in db.clars || db.clars[id].status != OPEN || db.state.None? || (k.Some? && k.value !in db.permits) then None
    else
      var cycle := db.clars[id].cycle;
      var answered := db.(clars := db.clars[id := Clar(cycle, ANSWERED)], inputs := Consume(db.inputs, event, CLARIFICATION_RESPONSE));
      match k
      case None => Some(answered)
      case Some(p) =>
        var target := ExecutionTarget(db.plans, cycle, db.permits[p].root);
        Some(WithPhase(answered, EXECUTION_READY).(
             permits := db.permits[p := db.permits[p].(consumed := false)],
             execs := if target in db.execs then db.execs[target := RowRetryPending] else db.execs))
  }

  /** Where the cycle has at most one live permit, as in every reachable state, the answer is the one the runs take. */
  lemma AnswerIsUnique(db: Db, id: ClarId, event: EventKey, k: Option<PermitId>)
    requires OneLivePermit(db.permits) && id in db.clars && Chosen(db.permits, db.clars[id].cycle, k)
    ensures AnswerWith(db, id, event, k) == AnswerClarification(db, id, event)
  {
    hide ExecutionTarget;
    if k.Some? { assert LivePermitIn(db.permits, db.clars[id].cycle, k.value); }
  }

  method LivePermitOf(permits: map<PermitId, Permit>, cycle: nat) returns (live: Option<PermitId>)
    ensures Chosen(permits, cycle, live)
  {
    var todo := permits.Keys;
    while todo != {}
      invariant todo <= permits.Keys
      invariant forall k: PermitId :: k !in todo ==> !LivePermitIn(permits, cycle, k)
      decreases todo
    {
      var k :| k in todo;
      if permits[k].cycle == cycle && !permits[k].invalidated { return Some(k); }
      todo := todo - {k};
    }
    return None;
  }

  method InvalidateCyclePermits(permits: map<PermitId, Permit>, cycle: nat) returns (after: map<PermitId, Permit>)
    ensures after == InvalidateAll(permits, cycle)
  {
    after := permits;
    var todo := permits.Keys;
    while todo != {}
      invariant todo <= permits.Keys == after.Keys
      invariant forall k :: k in todo ==> after[k] == permits[k]
      invariant forall k :: k in permits && k !in todo ==> after[k] == InvalidateAll(permits, cycle)[k]
      decreases todo
    {
      var k :| k in todo;
      if permits[k].cycle == cycle && Live(permits[k]) { after := after[k := permits[k].(invalidated := true)]; }
      todo := todo - {k};
    }
  }

  method InvalidateCycleRepairs(repairs: map<RepairId, Repair>, cycle: nat, plan: PlanId) returns (after: map<RepairId, Repair>)
    ensures after == InvalidateRepairs(repairs, cycle, plan)
  {
    after := repairs;
    var todo := repairs.Keys;
    while todo != {}
      invariant todo <= repairs.Keys == after.Keys
      invariant forall k :: k in todo ==> after[k] == repairs[k]
      invariant forall k :: k in repairs && k !in todo ==> after[k] == InvalidateRepairs(repairs, cycle, plan)[k]
      decreases todo
    {
      var k :| k in todo;
      if repairs[k].cycle == cycle && repairs[k].plan == plan && !repairs[k].consumed && !repairs[k].invalidated {
        after := after[k := repairs[k].(invalidated := true)];
      }
      todo := todo - {k};
    }
  }

  method InvalidateUnusedRepairs(repairs: map<RepairId, Repair>) returns (after: map<RepairId, Repair>)
    ensures after == InvalidateThreadRepairs(repairs)
  {
    after := repairs;
    var todo := repairs.Keys;
    while todo != {}
      invariant todo <= repairs.Keys == after.Keys
      invariant forall k :: k in todo ==> after[k] == repairs[k]
      invariant forall k :: k in repairs && k !in todo ==> after[k] == InvalidateThreadRepairs(repairs)[k]
      decreases todo
    {
      var k :| k in todo;
      if !repairs[k].consumed { after := after[k := repairs[k].(invalidated := true)]; }
      todo := todo - {k};
    }
  }
}
