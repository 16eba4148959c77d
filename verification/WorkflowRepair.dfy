/** Bounded repairs and the closing of a cycle keep the invariant. */
module WorkflowRepair {
  import opened Prelude
  import opened WorkflowModel
  import opened WorkflowRun
  import opened WorkflowInvariant
  import opened WorkflowTables
  import opened WorkflowPlanning
  import opened WorkflowExecution
  import opened WorkflowReview

  /** Successes of one cycle have different rounds, so one round has one parent review. */
  lemma OneParent(db: Db, i: RepairId, a: AttemptId)
    requires db.state.Some? && Records(db) && ProgressOk(db)
    requires i in db.repairs && db.repairs[i].cycle == db.state.value.cycle
    requires SucceededIn(db.attempts, db.state.value.cycle, a) && db.attempts[a].round + 1 == i.round
    ensures i.review in db.reviews && db.reviews[i.review].attempt == a
  {
    hide RowsOk, ParentsOk, NumbersOk, NewestOk, LineageOk, UsableOk, ShapeOk, Row;
    assert SucceededIn(db.attempts, db.state.value.cycle, db.reviews[i.review].attempt);
  }

  /** Two usable repair permits are the same permit. */
  lemma OneUsable(db: Db, i: RepairId, j: RepairId)
    requires db.state.Some? && Usable(db.repairs, i) && Usable(db.repairs, j)
    requires Records(db) && ProgressOk(db)
    ensures i == j
  {
    hide Records, ProgressOk;
    UsableParent(db, i);
    UsableParent(db, j);
    LatestIsOne(db, UsableLatest(db, i), UsableLatest(db, j));
    if RepairOf(i) !in db.attempts && RepairOf(j) !in db.attempts {
      SameReview(db, i, j);
    }
  }

  lemma LatestIsOne(db: Db, a: AttemptId, b: AttemptId)
    requires db.state.Some? && Records(db)
    requires IsLatest(db.attempts, db.state.value.cycle, a) && IsLatest(db.attempts, db.state.value.cycle, b)
    ensures a == b
  {
    hide RowsOk, ParentsOk, NewestOk, LineageOk, ReviewsOk, RepairsOk;
    LatestUnique(db.attempts, db.state.value.cycle, a, b);
  }

  /** The latest attempt while permit `i` is usable. */
  ghost function UsableLatest(db: Db, i: RepairId): AttemptId
    requires i.review in db.reviews
  {
    if RepairOf(i) in db.attempts then RepairOf(i) else db.reviews[i.review].attempt
  }

  lemma UsableParent(db: Db, i: RepairId)
    requires db.state.Some? && Records(db) && ProgressOk(db) && Usable(db.repairs, i)
    ensures i.review in db.reviews && IsLatest(db.attempts, db.state.value.cycle, UsableLatest(db, i))
    ensures SucceededIn(db.attempts, db.state.value.cycle, db.reviews[i.review].attempt)
    ensures db.attempts[db.reviews[i.review].attempt].round + 1 == i.round
    ensures RepairOf(i) in db.attempts ==> db.attempts[RepairOf(i)].status != Succeeded
    ensures db.state.value.phase in {REPAIR_READY, EXECUTING} && db.repairs[i].plan == db.state.value.plan
    ensures db.repairs[i].cycle == db.state.value.cycle
  {
    hide RowsOk, ParentsOk, NumbersOk, NewestOk, LineageOk, ShapeOk, Row, SuccessOk;
  }

  // ------------------------------------------------------------------ create_repair_permit

  lemma MadeRepair(db: Db, d: Db) returns (a: AttemptId, r: ReviewId)
    requires CreateRepair(db, MAX_REPAIRS) == Some(d)
    ensures db.state.Some? && Repairable(db, a, r) && d == CreateRepairFor(db, a, r, MAX_REPAIRS)
  {
    assert db.state.Some?;
    hide Repairable, CreateRepairFor;
    a, r :| Repairable(db, a, r) && d == CreateRepairFor(db, a, r, MAX_REPAIRS);
  }

  lemma KeepMakeRepair(db: Db, d: Db)
    requires Sound(db) && CreateRepair(db, MAX_REPAIRS) == Some(d)
    ensures Sound(d)
  {
    hide PlanTablesOk, Records, ProgressOk, CreateRepairFor, Repairable, CreateRepair;
    var a, r := MadeRepair(db, d);
    RepairMade(db, a, r, d);
  }

  lemma MadeCases(db: Db, a: AttemptId, r: ReviewId, d: Db)
    requires Repairable(db, a, r) && d == CreateRepairFor(db, a, r, MAX_REPAIRS)
    ensures InPhase(db, REVIEW_EXECUTION) && SucceededIn(db.attempts, db.state.value.cycle, a) && IsLatest(db.attempts, db.state.value.cycle, a)
    ensures db.attempts[a].round + 1 > MAX_REPAIRS ==>
      && d == WithPhase(db, REVIEW_BLOCKED).(repairs := d.repairs)
      && RepairsGrow(db.repairs, d.repairs) && (forall i :: i in d.repairs ==> i in db.repairs)
      && (forall i :: Usable(d.repairs, i) ==> Usable(db.repairs, i))
  {
  }

  lemma RepairMade(db: Db, a: AttemptId, r: ReviewId, d: Db)
    requires db.state.Some? && Repairable(db, a, r) && d == CreateRepairFor(db, a, r, MAX_REPAIRS)
    requires Sound(db)
    ensures Sound(d)
  {
    hide PlanTablesOk, Records, ProgressOk, Repairable, CreateRepairFor, RepairsGrow;
    MadeCases(db, a, r, d);
    NoneUsableAtRest(db);
    if db.attempts[a].round + 1 > MAX_REPAIRS {
      LeavesReview(db, d.repairs, d);
    } else {
      RoundFree(db, a, r);
      RepairInserted(db, a, r, d);
    }
  }

  /** Nothing was repaired from the latest attempt yet, so its next round is free. */
  lemma RoundFree(db: Db, a: AttemptId, r: ReviewId)
    requires db.state.Some? && Repairable(db, a, r)
    requires Records(db) && ProgressOk(db)
    ensures RepairId(r, db.attempts[a].round + 1) !in db.repairs
    ensures !RoundTaken(db.repairs, db.state.value.cycle, db.attempts[a].round + 1)
  {
    hide Records, ProgressOk;
    ReviewLatest(db, a);
    assert SucceededIn(db.attempts, db.state.value.cycle, a);
    if i :| i in db.repairs && db.repairs[i].cycle == db.state.value.cycle && db.repairs[i].round == db.attempts[a].round + 1 {
      RepairRound(db, i);
      OneParent(db, i, a);
    }
  }

  lemma RepairRound(db: Db, i: RepairId)
    requires db.state.Some? && Records(db) && i in db.repairs
    ensures i.round == db.repairs[i].round
  {
    hide RowsOk, ParentsOk, NumbersOk, NewestOk, LineageOk, ReviewsOk;
  }

  /** A repair permit that is not yet there has no attempt. */
  lemma UnknownRepair(db: Db, i: RepairId)
    requires db.state.Some? && Records(db) && i !in db.repairs
    ensures RepairOf(i) !in db.attempts
  {
    hide ParentsOk, NumbersOk, NewestOk, LineageOk, ReviewsOk, RepairsOk;
  }

  /** The first repair permit of a free round. */
  ghost predicate Issued(db: Db, a: AttemptId, r: ReviewId, d: Db) {
    && Repairable(db, a, r) && db.attempts[a].round + 1 <= MAX_REPAIRS
    && var st, i := db.state.value, RepairId(r, db.attempts[a].round + 1);
    && i !in db.repairs
    && d == WithPhase(db, REPAIR_READY).(
              repairs := db.repairs[i := Repair(st.cycle, st.plan, db.plans[st.plan].version, st.root, r, i.round, false, false)])
  }

  lemma IssuedIs(db: Db, a: AttemptId, r: ReviewId, d: Db)
    requires Repairable(db, a, r) && d == CreateRepairFor(db, a, r, MAX_REPAIRS) && db.attempts[a].round + 1 <= MAX_REPAIRS
    requires RepairId(r, db.attempts[a].round + 1) !in db.repairs
    requires !RoundTaken(db.repairs, db.state.value.cycle, db.attempts[a].round + 1)
    ensures Issued(db, a, r, d)
  {
    hide RoundTaken, Repairable;
  }

  lemma RepairInserted(db: Db, a: AttemptId, r: ReviewId, d: Db)
    requires Repairable(db, a, r) && d == CreateRepairFor(db, a, r, MAX_REPAIRS) && db.attempts[a].round + 1 <= MAX_REPAIRS
    requires RepairId(r, db.attempts[a].round + 1) !in db.repairs
    requires !RoundTaken(db.repairs, db.state.value.cycle, db.attempts[a].round + 1)
    requires Sound(db)
    ensures Sound(d)
  {
    hide PlanTablesOk, ProgressOk, Records, RoundTaken, CreateRepairFor;
    IssuedIs(db, a, r, d);
    NoneUsableAtRest(db);
    ReviewLatest(db, a);
    UnknownRepair(db, RepairId(r, db.attempts[a].round + 1));
    ActivePhase(db, d);
    RepairInsertedRecords(db, a, r, d);
    RepairInsertedProgress(db, a, r, d);
  }

  lemma RepairInsertedRecords(db: Db, a: AttemptId, r: ReviewId, d: Db)
    requires Issued(db, a, r, d) && Records(db)
    ensures Records(d)
  {
    var cycle := db.state.value.cycle;
    hide RowsOk, ParentsOk, NumbersOk, NewestOk, LineageOk, ReviewsOk, Repairable;
    IssuedRepairs(db, a, r, d);
    hide RepairsOk, RepairsGrow, Issued, LineageOk;
    RecordsGrow(db.attempts, db.permits, db.repairs, db.reviews, cycle, db.permits, d.repairs, db.reviews, cycle);
  }

  lemma IssuedRepairs(db: Db, a: AttemptId, r: ReviewId, d: Db)
    requires Issued(db, a, r, d) && RepairsOk(db.repairs, db.reviews, db.attempts)
    ensures RepairsOk(d.repairs, d.reviews, d.attempts) && RepairsGrow(db.repairs, d.repairs)
    ensures d.state.Some? && d.state.value.cycle == db.state.value.cycle && d.plans == db.plans
    ensures d.attempts == db.attempts && d.permits == db.permits && d.reviews == db.reviews
  {
  }

  lemma RepairInsertedProgress(db: Db, a: AttemptId, r: ReviewId, d: Db)
    requires Issued(db, a, r, d)
    requires RepairOf(RepairId(r, db.attempts[a].round + 1)) !in db.attempts
    requires forall i :: !Usable(db.repairs, i)
    requires ReviewShape(db.attempts, db.reviews, db.repairs, db.state.value.cycle, REVIEW_EXECUTION, db.state.value.plan, a)
    requires ProgressOk(db)
    ensures ProgressOk(d)
  {
    var st, i := db.state.value, RepairId(r, db.attempts[a].round + 1);
    SameRow(db, d);
    assert d.repairs == db.repairs[i := d.repairs[i]] && Usable(d.repairs, i);
    hide Row, UsableOk, ShapeOk;
    SuccessPhase(db.attempts, st.cycle, st.phase, Row(db), REPAIR_READY);
    hide SuccessOk;
    IssuedUsable(db, a, r, d);
    IssuedShape(db, a, r, d);
  }

  lemma IssuedUsable(db: Db, a: AttemptId, r: ReviewId, d: Db)
    requires Issued(db, a, r, d)
    requires RepairOf(RepairId(r, db.attempts[a].round + 1)) !in db.attempts
    requires forall i :: !Usable(db.repairs, i)
    ensures UsableOk(d.repairs, d.reviews, d.attempts, d.state.value.cycle, d.state.value.phase, d.state.value.plan)
    ensures Usable(d.repairs, RepairId(r, db.attempts[a].round + 1))
  {
    forall j | Usable(d.repairs, j) ensures j == RepairId(r, db.attempts[a].round + 1) {
      assert j != RepairId(r, db.attempts[a].round + 1) ==> Usable(db.repairs, j);
    }
  }

  lemma IssuedShape(db: Db, a: AttemptId, r: ReviewId, d: Db)
    requires Issued(db, a, r, d) && Usable(d.repairs, RepairId(r, db.attempts[a].round + 1))
    requires ReviewShape(db.attempts, db.reviews, db.repairs, db.state.value.cycle, REVIEW_EXECUTION, db.state.value.plan, a)
    ensures ShapeOk(d)
  {
    ShapeReady(d, a);
  }

  // ------------------------------------------------------------------ bind_repair_execution

  lemma RepairRowStands(db: Db, i: RepairId, execs: map<ExecKey, ExecStatus>, inputs: map<EventKey, Purpose>)
    requires db.state.Some? && i in db.repairs && db.repairs[i].root == db.state.value.root
    requires var r := SweepPending(Pending(db.events, db.inputs, db.repairs[i].root), db.execs, db.inputs);
      !r.Clash? && r.execs == execs
    ensures RowStatus(execs, RowKey(db.state.value)) == Row(db)
  {
    var root := db.repairs[i].root;
    PendingSkipsRoot(db.events, db.inputs, root);
    SweepKeepsRow(Pending(db.events, db.inputs, root), db.execs, db.inputs, RowKey(db.state.value));
  }

  /** Either a waiting input cancels the repair, or its attempt runs. */
  lemma BindCases(db: Db, i: RepairId, d: Db)
    requires BindRepair(db, i) == Some(d)
    ensures RepairBindable(db, i) && !SweepPending(Pending(db.events, db.inputs, db.repairs[i].root), db.execs, db.inputs).Clash?
    ensures d.execs == SweepPending(Pending(db.events, db.inputs, db.repairs[i].root), db.execs, db.inputs).execs
    ensures d == WithPhase(db, REVIEW_BLOCKED).(execs := d.execs, inputs := d.inputs,
                   repairs := db.repairs[i := db.repairs[i].(invalidated := true)]) ||
            d == WithPhase(db, EXECUTING).(execs := d.execs, inputs := d.inputs,
                   attempts := db.attempts[RepairOf(i) := RepairRow(db, i)])
  {
    hide SweepPending, Pending;
  }

  lemma BoundRecords(db: Db, i: RepairId, d: Db)
    requires RepairBindable(db, i) && d == db.(attempts := db.attempts[RepairOf(i) := RepairRow(db, i)])
    requires Sound(db)
    ensures Records(d) && IsLatest(d.attempts, db.state.value.cycle, RepairOf(i))
  {
    hide PlanTablesOk, Records, ProgressOk, ChainMatches;
    UsableParent(db, i);
    if RepairOf(i) in db.attempts {
      NoSuccessNoRepair(db, RepairOf(i));
      RecordsRestated(db, RepairOf(i), d);
    } else {
      BoundFresh(db, i, d);
    }
  }

  lemma BoundFresh(db: Db, i: RepairId, d: Db)
    requires RepairBindable(db, i) && RepairOf(i) !in db.attempts
    requires d == db.(attempts := db.attempts[RepairOf(i) := RepairRow(db, i)])
    requires Records(db)
    ensures Records(d) && IsLatest(d.attempts, db.state.value.cycle, RepairOf(i))
  {
    hide RowsOk, ParentsOk, NumbersOk, NewestOk, ReviewsOk, RepairsOk, RowOk, Inserted, FollowsParent, AttemptFits, RepairRow, RepairBindable, IsLatest;
    BoundShape(db, i);
    RepairIsRow(db, i);
    BoundRowFits(db, i, d.attempts);
    RecordsInserted(db.attempts, d.attempts, RepairOf(i), db.permits, db.repairs, db.reviews, db.state.value.cycle);
    LineageInserted(db.attempts, d.attempts, RepairOf(i), db.plans);
  }

  lemma BoundShape(db: Db, i: RepairId)
    requires RepairBindable(db, i)
    ensures db.state.Some? && i in db.repairs && db.repairs[i].parent in db.reviews
    ensures db.reviews[db.repairs[i].parent].attempt in db.attempts
  {
  }

  lemma LineageInserted(x: Attempts, y: Attempts, a: AttemptId, plans: Plans)
    requires LineageOk(x, plans) && a in y && y == x[a := y[a]] && AttemptFits(y[a], plans)
    ensures LineageOk(y, plans)
  {
  }

  lemma BoundRowFits(db: Db, i: RepairId, y: Attempts)
    requires RepairBindable(db, i) && RepairOf(i) !in db.attempts && i.review == db.repairs[i].parent
    requires y == db.attempts[RepairOf(i) := RepairRow(db, i)]
    requires LineageOk(db.attempts, db.plans)
    ensures Inserted(db.attempts, y, RepairOf(i), db.state.value.cycle)
    ensures IsLatest(y, db.state.value.cycle, RepairOf(i))
    ensures FollowsParent(y, db.reviews, i)
    ensures y[RepairOf(i)].auth == AuthOf(RepairOf(i)) && y[RepairOf(i)] == RepairRow(db, i)
    ensures AttemptFits(y[RepairOf(i)], db.plans)
  {
  }

  lemma RepairIsRow(db: Db, i: RepairId)
    requires db.state.Some? && i in db.repairs && db.repairs[i].parent in db.reviews
    requires db.reviews[db.repairs[i].parent].attempt in db.attempts && RepairOf(i) !in db.attempts
    requires Records(db)
    ensures RowOk(RepairRow(db, i), db.permits, db.repairs)
    ensures i.review == db.repairs[i].parent
  {
    hide RowsOk, ParentsOk, NumbersOk, NewestOk, LineageOk, ReviewsOk;
  }

  /** `d` runs the repair of permit `i` on the attempts of `db`. */
  ghost predicate Reruns(db: Db, i: RepairId, d: Db) {
    && db.state.Some? && Usable(db.repairs, i)
    && d.state == Some(db.state.value.(phase := EXECUTING)) && d.repairs == db.repairs && d.reviews == db.reviews
    && RepairOf(i) in d.attempts && d.attempts == db.attempts[RepairOf(i) := d.attempts[RepairOf(i)]]
    && d.attempts[RepairOf(i)].status == Running
    && IsLatest(d.attempts, db.state.value.cycle, RepairOf(i)) && Row(d) == Row(db)
  }

  lemma OnlyUsable(db: Db, i: RepairId)
    requires db.state.Some? && Usable(db.repairs, i)
    requires Records(db) && ProgressOk(db)
    ensures forall j :: Usable(db.repairs, j) ==> j == i
  {
    hide Records, ProgressOk;
    forall j | Usable(db.repairs, j) ensures j == i { OneUsable(db, i, j); }
  }

  lemma BoundProgress(db: Db, i: RepairId, d: Db)
    requires Reruns(db, i, d)
    requires Records(db) && ProgressOk(db)
    ensures ProgressOk(d)
  {
    hide Records, ProgressOk, Row, SuccessOk, UsableOk, ShapeOk;
    UsableParent(db, i);
    OnlyUsable(db, i);
    ProgressParts(db);
    BoundSuccess(db.attempts, d.attempts, db.state.value.cycle, db.state.value.phase, Row(db), RepairOf(i));
    BoundUsable(d, i);
    assert RunningShape(d.attempts, d.permits, d.repairs, d.reviews, d.state.value.cycle, Row(d), RepairOf(i));
    ShapeWhileExecuting(d);
    ProgressParts(d);
  }

  lemma BoundSuccess(x: Attempts, y: Attempts, cycle: nat, phase: Phase, row: Option<ExecStatus>, a: AttemptId)
    requires SuccessOk(x, cycle, phase, row) && a in y && y == x[a := y[a]] && y[a].status != Succeeded
    ensures SuccessOk(y, cycle, EXECUTING, row)
  {
    assert forall c, b :: SucceededIn(y, c, b) ==> SucceededIn(x, c, b) && y[b] == x[b];
  }

  lemma BoundUsable(d: Db, i: RepairId)
    requires InPhase(d, EXECUTING) && Usable(d.repairs, i) && forall j :: Usable(d.repairs, j) ==> j == i
    requires IsLatest(d.attempts, d.state.value.cycle, RepairOf(i)) && d.attempts[RepairOf(i)].status == Running
    requires d.repairs[i].cycle == d.state.value.cycle && d.repairs[i].plan == d.state.value.plan && i.review in d.reviews
    ensures UsableOk(d.repairs, d.reviews, d.attempts, d.state.value.cycle, EXECUTING, d.state.value.plan)
  {
  }

  lemma KeepStartRepair(db: Db, i: RepairId, d: Db)
    requires Sound(db) && BindRepair(db, i) == Some(d)
    ensures Inv(Sys(d, if InPhase(d, EXECUTING) then Repairing(i) else Idle))
  {
    hide Sound, SweepPending, Pending, BindRepair;
    BindCases(db, i, d);
    RepairRowStands(db, i, d.execs, d.inputs);
    var swept := db.(execs := d.execs, inputs := d.inputs);
    OtherRows(db, swept);
    hide ChainMatches;
    if InPhase(d, EXECUTING) {
      RepairStarts(db, i, d);
    } else {
      CancelledRepair(swept, i, d);
      Unattended(d);
    }
  }

  lemma RepairStarts(db: Db, i: RepairId, d: Db)
    requires RepairBindable(db, i)
    requires d == WithPhase(db, EXECUTING).(execs := d.execs, inputs := d.inputs,
                      attempts := db.attempts[RepairOf(i) := RepairRow(db, i)])
    requires Row(d) == Row(db) && Sound(db)
    ensures Inv(Sys(d, Repairing(i)))
  {
    BoundShape(db, i);
    hide Row, Sound, ChainMatches, RepairBindable, RepairRow;
    var bound := db.(attempts := db.attempts[RepairOf(i) := RepairRow(db, i)]);
    BoundRecords(db, i, bound);
    RerunsBound(db, i, d);
    RepairRunning(db, i, bound, d);
  }

  lemma RepairRunning(db: Db, i: RepairId, bound: Db, d: Db)
    requires Reruns(db, i, d) && Active(db.state.value.phase)
    requires bound == db.(attempts := bound.attempts)
    requires d == WithPhase(bound, EXECUTING).(execs := d.execs, inputs := d.inputs)
    requires Records(bound) && Sound(db)
    ensures Inv(Sys(d, Repairing(i)))
  {
    hide Row, PlanTablesOk, ProgressOk, Records, IsLatest;
    ActivePhase(db, d);
    BoundProgress(db, i, d);
    SameTables(bound, d);
  }

  lemma RerunsBound(db: Db, i: RepairId, d: Db)
    requires RepairBindable(db, i)
    requires d == WithPhase(db, EXECUTING).(execs := d.execs, inputs := d.inputs,
                      attempts := db.attempts[RepairOf(i) := RepairRow(db, i)])
    requires IsLatest(d.attempts, db.state.value.cycle, RepairOf(i)) && Row(d) == Row(db)
    ensures Reruns(db, i, d) && InPhase(db, REPAIR_READY)
  {
    hide Row, IsLatest;
  }

  lemma SameTables(db: Db, d: Db)
    requires db.state.Some? && d.state.Some? && d.state.value.cycle == db.state.value.cycle
    requires d.plans == db.plans && d.attempts == db.attempts && d.permits == db.permits
    requires d.repairs == db.repairs && d.reviews == db.reviews && Records(db)
    ensures Records(d)
  {
    hide RecordsOk, LineageOk;
  }

  lemma CancelledRepair(db: Db, i: RepairId, d: Db)
    requires db.state.Some? && Usable(db.repairs, i)
    requires d == WithPhase(db, REVIEW_BLOCKED).(repairs := db.repairs[i := db.repairs[i].(invalidated := true)])
    requires Sound(db)
    ensures Sound(d)
  {
    hide PlanTablesOk, Records, ProgressOk;
    UsableParent(db, i);
    OnlyUsable(db, i);
    assert forall j :: Usable(d.repairs, j) ==> Usable(db.repairs, j);
    LeavesReview(db, d.repairs, d);
  }

  // ------------------------------------------------------------------ closing a repair

  /** `d` restates the running repair attempt of permit `i`. */
  ghost predicate Closing(db: Db, i: RepairId, d: Db) {
    && InPhase(db, EXECUTING) && Usable(db.repairs, i) && IsLatest(db.attempts, db.state.value.cycle, RepairOf(i))
    && d == db.(attempts := d.attempts) && Updated(db.attempts, d.attempts, RepairOf(i))
  }

  lemma RepairStatus(db: Db, i: RepairId, d: Db)
    requires Closing(db, i, d)
    requires Sound(db)
    ensures Records(d) && PlanTablesOk(d)
    ensures IsLatest(d.attempts, db.state.value.cycle, RepairOf(i))
    ensures !Reviewed(db.reviews, RepairOf(i)) && NotRepaired(db.repairs, db.reviews, RepairOf(i))
    ensures forall j :: Usable(db.repairs, j) ==> j == i
  {
    hide PlanTablesOk, Records, ProgressOk, Updated;
    UsableParent(db, i);
    NoSuccessNoRepair(db, RepairOf(i));
    OnlyUsable(db, i);
    RecordsRestated(db, RepairOf(i), d);
    ActivePhase(db, d);
  }

  /** The same tables under repair permits whose consumption or validity changed. */
  lemma PermitClosed(db: Db, phase: Phase, repairs: Repairs, d: Db)
    requires db.state.Some? && Active(db.state.value.phase) && Active(phase) && phase != EXECUTION_READY
    requires d == WithPhase(db, phase).(repairs := repairs)
    requires PlanTablesOk(db) && Records(db)
    requires RepairsGrow(db.repairs, repairs) && (forall i :: i in repairs ==> i in db.repairs)
    ensures PlanTablesOk(d) && Records(d)
  {
    hide PlanTablesOk, Records, RepairsGrow;
    ActivePhase(db, d);
    SameRepairs(db, repairs, d);
  }

  lemma SucceededRepair(x: Attempts, a: AttemptId, cycle: nat, phase: Phase, row: Option<ExecStatus>)
    requires SuccessOk(x, cycle, phase, row) && !NoSuccess(x, cycle) && a in x && x[a].cycle == cycle
    requires forall b :: SucceededIn(x, cycle, b) ==> x[b].round != x[a].round
    ensures SuccessOk(x[a := x[a].(status := Succeeded)], cycle, REVIEW_EXECUTION, row)
  {
    var y := x[a := x[a].(status := Succeeded)];
    assert forall c, b :: b != a && SucceededIn(y, c, b) ==> SucceededIn(x, c, b);
  }

  /** No other attempt of the cycle has the round of a usable repair. */
  lemma RoundIsNew(db: Db, i: RepairId, b: AttemptId)
    requires db.state.Some? && Usable(db.repairs, i) && RepairOf(i) in db.attempts
    requires SucceededIn(db.attempts, db.state.value.cycle, b)
    requires Records(db) && ProgressOk(db)
    ensures db.attempts[b].round != i.round
  {
    hide Records, ProgressOk;
    UsableParent(db, i);
    PositiveRound(db, i);
    RowKind(db, b);
    if db.attempts[b].round == i.round {
      OneParent(db, b.repair, db.reviews[i.review].attempt);
      SameReview(db, i, b.repair);
    }
  }

  /** The round of an attempt is the round of its permit, and only an initial attempt has round 0. */
  lemma RowKind(db: Db, b: AttemptId)
    requires db.state.Some? && b in db.attempts && Records(db)
    ensures b.InitialOf? ==> db.attempts[b].round == 0
    ensures b.RepairOf? ==>
      b.repair in db.repairs && db.attempts[b].round == b.repair.round &&
      db.repairs[b.repair].cycle == db.attempts[b].cycle && db.repairs[b.repair].plan == db.attempts[b].plan
  {
    hide ParentsOk, NumbersOk, NewestOk, ReviewsOk, RepairsOk, LineageOk;
    assert RowOk(db.attempts[b], db.permits, db.repairs);
  }

  lemma PositiveRound(db: Db, i: RepairId)
    requires db.state.Some? && Records(db) && i in db.repairs
    ensures i.round >= 1
  {
    hide RowsOk, ParentsOk, NumbersOk, NewestOk, LineageOk, ReviewsOk;
  }

  lemma SameReview(db: Db, i: RepairId, j: RepairId)
    requires db.state.Some? && Records(db) && i.review in db.reviews && j.review in db.reviews
    requires db.reviews[i.review].attempt == db.reviews[j.review].attempt
    ensures i.review == j.review
  {
    hide RowsOk, ParentsOk, NumbersOk, NewestOk, LineageOk, RepairsOk;
    assert IsReviewOf(db.reviews, db.reviews[i.review].attempt, i.review) && IsReviewOf(db.reviews, db.reviews[i.review].attempt, j.review);
  }

  lemma KeepEndRepair(s: Sys, i: RepairId, d: Db)
    requires Inv(s) && s.worker == Repairing(i) && FinishRepair(s.db, i, RepairOf(i)) == Some(d)
    ensures Inv(Sys(d, Idle))
  {
    hide Sound, FinishRepair, Repaired;
    FinishedRepair(s.db, i, d);
    EndRepairKeeps(s.db, i, d);
    Unattended(d);
  }

  lemma FinishedRepair(db: Db, i: RepairId, d: Db)
    requires FinishRepair(db, i, RepairOf(i)) == Some(d)
    ensures db.state.Some? && i in db.repairs && RepairOf(i) in db.attempts && d == Repaired(db, i)
  {
  }

  ghost function Repaired(db: Db, i: RepairId): Db
    requires db.state.Some? && i in db.repairs && RepairOf(i) in db.attempts
  {
    WithPhase(db, REVIEW_EXECUTION).(
      attempts := db.attempts[RepairOf(i) := db.attempts[RepairOf(i)].(status := Succeeded)],
      repairs := db.repairs[i := db.repairs[i].(consumed := true)])
  }

  lemma EndRepairKeeps(db: Db, i: RepairId, d: Db)
    requires InPhase(db, EXECUTING) && Usable(db.repairs, i) && IsLatest(db.attempts, db.state.value.cycle, RepairOf(i))
    requires d == Repaired(db, i)
    requires Sound(db)
    ensures Sound(d)
  {
    hide PlanTablesOk, Records, ProgressOk;
    var mid := db.(attempts := d.attempts);
    assert Closing(db, i, mid);
    hide IsLatest;
    RepairStatus(db, i, mid);
    PermitClosed(mid, REVIEW_EXECUTION, d.repairs, d);
    EndRepairProgress(db, i, d);
  }

  lemma EndRepairProgress(db: Db, i: RepairId, d: Db)
    requires InPhase(db, EXECUTING) && Usable(db.repairs, i) && RepairOf(i) in db.attempts
    requires db.attempts[RepairOf(i)].cycle == db.state.value.cycle
    requires d == Repaired(db, i) && IsLatest(d.attempts, db.state.value.cycle, RepairOf(i))
    requires forall j :: Usable(db.repairs, j) ==> j == i
    requires NotRepaired(db.repairs, db.reviews, RepairOf(i))
    requires Records(db) && ProgressOk(db)
    ensures ProgressOk(d)
  {
    hide Records, ProgressOk, Row, SuccessOk, UsableOk, ShapeOk, IsLatest, NotRepaired;
    SameRow(db, d);
    UsableParent(db, i);
    RowKind(db, RepairOf(i));
    EndRepairSuccess(db, i);
    assert forall j :: Usable(d.repairs, j) ==> Usable(db.repairs, j) && j != i;
    NoUsableOk(d);
    ReviewedRepairShape(db, i, d);
    ProgressParts(d);
  }

  lemma EndRepairSuccess(db: Db, i: RepairId)
    requires db.state.Some? && Usable(db.repairs, i) && RepairOf(i) in db.attempts
    requires db.attempts[RepairOf(i)].cycle == db.state.value.cycle
    requires Records(db) && ProgressOk(db)
    ensures SuccessOk(db.attempts[RepairOf(i) := db.attempts[RepairOf(i)].(status := Succeeded)], db.state.value.cycle,
                      REVIEW_EXECUTION, Row(db))
  {
    hide Records, ProgressOk, Row, SuccessOk, UsableOk, ShapeOk, Usable;
    UsableParent(db, i);
    RowKind(db, RepairOf(i));
    ProgressParts(db);
    forall b | SucceededIn(db.attempts, db.state.value.cycle, b) ensures db.attempts[b].round != i.round {
      RoundIsNew(db, i, b);
    }
    SucceededRepair(db.attempts, RepairOf(i), db.state.value.cycle, db.state.value.phase, Row(db));
  }

  lemma ReviewedRepairShape(db: Db, i: RepairId, d: Db)
    requires db.state.Some? && i in db.repairs && RepairOf(i) in db.attempts && d == Repaired(db, i)
    requires IsLatest(d.attempts, db.state.value.cycle, RepairOf(i)) && db.attempts[RepairOf(i)].plan == db.state.value.plan
    requires NotRepaired(db.repairs, db.reviews, RepairOf(i))
    ensures ShapeOk(d)
  {
    var st, id := db.state.value, RepairOf(i);
    assert ReviewShape(d.attempts, d.reviews, d.repairs, st.cycle, REVIEW_EXECUTION, st.plan, id);
  }

  /** A failed repair attempt blocks the thread and takes its permit along. */
  lemma RepairBlocked(db: Db, i: RepairId, d: Db)
    requires InPhase(db, EXECUTING) && Usable(db.repairs, i) && IsLatest(db.attempts, db.state.value.cycle, RepairOf(i))
    requires d == WithPhase(db, REVIEW_BLOCKED).(
                    attempts := db.attempts[RepairOf(i) := db.attempts[RepairOf(i)].(status := Failed)],
                    repairs := db.repairs[i := db.repairs[i].(invalidated := true)])
    requires Sound(db)
    ensures Sound(d)
  {
    hide PlanTablesOk, Records, ProgressOk;
    var mid := db.(attempts := d.attempts);
    assert Closing(db, i, mid);
    hide IsLatest;
    RepairStatus(db, i, mid);
    PermitClosed(mid, REVIEW_BLOCKED, d.repairs, d);
    assert forall j :: Usable(d.repairs, j) ==> Usable(db.repairs, j) && j != i;
    FailedRepairProgress(db, i, d);
  }

  lemma FailedRepairProgress(db: Db, i: RepairId, d: Db)
    requires db.state.Some? && i in db.repairs && RepairOf(i) in db.attempts
    requires d.state == Some(db.state.value.(phase := REVIEW_BLOCKED)) && d.execs == db.execs
    requires d.attempts == db.attempts[RepairOf(i) := db.attempts[RepairOf(i)].(status := Failed)]
    requires ProgressOk(db) && forall j :: !Usable(d.repairs, j)
    ensures ProgressOk(d)
  {
    hide ProgressOk, Row, SuccessOk, UsableOk, ShapeOk;
    SameRow(db, d);
    ProgressParts(db);
    BoundSuccess(db.attempts, d.attempts, db.state.value.cycle, db.state.value.phase, Row(db), RepairOf(i));
    SuccessPhase(d.attempts, d.state.value.cycle, EXECUTING, Row(d), REVIEW_BLOCKED);
    NoUsableOk(d);
    ShapelessPlanning(d);
    ProgressParts(d);
  }

  lemma KeepAbortRepair(s: Sys, i: RepairId, d: Db)
    requires Inv(s) && s.worker == Repairing(i) && FailRepair(s.db, RepairOf(i)) == Some(d)
    ensures Inv(Sys(d, Idle))
  {
    hide PlanTablesOk, Records, ProgressOk;
    RepairAuth(s.db, RepairOf(i));
    RepairBlocked(s.db, i, d);
  }

  lemma RepairAuth(db: Db, a: AttemptId)
    requires db.state.Some? && a in db.attempts && Records(db)
    ensures db.attempts[a].auth == AuthOf(a)
  {
    hide ParentsOk, NumbersOk, NewestOk, LineageOk, ReviewsOk, RepairsOk;
  }

  lemma RecoveryCases(db: Db, a: AttemptId, d: Db)
    requires RecoverRepair(db, a) == Some(d) && a in db.attempts && db.attempts[a].auth == AuthOf(a)
    ensures a.RepairOf? && InPhase(db, EXECUTING) && Usable(db.repairs, a.repair)
    ensures IsLatest(db.attempts, db.state.value.cycle, a)
    ensures
      var t := db.attempts[a];
      if t.repairRecoveries >= MAX_REPAIR_EXECUTION_RECOVERIES then
        d == WithPhase(db, REVIEW_BLOCKED).(attempts := db.attempts[a := t.(status := Failed)],
                       repairs := db.repairs[a.repair := db.repairs[a.repair].(invalidated := true)])
      else
        d == WithPhase(db, REPAIR_READY).(attempts := db.attempts[a := t.(status := Failed, repairRecoveries := t.repairRecoveries + 1)])
  {
    hide ChainMatches;
  }

  lemma OrphanKnown(db: Db, a: AttemptId, d: Db)
    requires RecoverRepair(db, a) == Some(d)
    ensures a in db.attempts
  {
    hide ChainMatches;
  }

  lemma KeepRecoverRepair(db: Db, a: AttemptId, d: Db)
    requires Sound(db) && RecoverRepair(db, a) == Some(d)
    ensures Sound(d)
  {
    hide PlanTablesOk, Records, ProgressOk, RecoverRepair;
    OrphanKnown(db, a, d);
    RepairAuth(db, a);
    RecoveryCases(db, a, d);
    if db.attempts[a].repairRecoveries >= MAX_REPAIR_EXECUTION_RECOVERIES {
      RepairBlocked(db, a.repair, d);
    } else {
      RepairResumes(db, a.repair, d);
    }
  }

  lemma RepairResumes(db: Db, i: RepairId, d: Db)
    requires InPhase(db, EXECUTING) && Usable(db.repairs, i) && IsLatest(db.attempts, db.state.value.cycle, RepairOf(i))
    requires d == WithPhase(db, REPAIR_READY).(attempts := d.attempts) && Updated(db.attempts, d.attempts, RepairOf(i))
    requires d.attempts[RepairOf(i)].status == Failed
    requires Sound(db)
    ensures Sound(d)
  {
    hide PlanTablesOk, Records, ProgressOk;
    var mid := db.(attempts := d.attempts);
    RepairStatus(db, i, mid);
    hide IsLatest;
    PermitClosed(mid, REPAIR_READY, d.repairs, d);
    ReadyAgain(db, i, d);
  }

  lemma ReadyAgain(db: Db, i: RepairId, d: Db)
    requires db.state.Some? && Usable(db.repairs, i) && RepairOf(i) in db.attempts
    requires d.state == Some(db.state.value.(phase := REPAIR_READY)) && d.execs == db.execs
    requires d.repairs == db.repairs && d.reviews == db.reviews
    requires Updated(db.attempts, d.attempts, RepairOf(i)) && d.attempts[RepairOf(i)].status == Failed
    requires IsLatest(d.attempts, db.state.value.cycle, RepairOf(i))
    requires forall j :: Usable(d.repairs, j) ==> j == i
    requires Records(db) && ProgressOk(db)
    ensures ProgressOk(d)
  {
    hide Records, ProgressOk, Row, SuccessOk, UsableOk, ShapeOk;
    SameRow(db, d);
    UsableParent(db, i);
    RowKind(db, RepairOf(i));
    ProgressParts(db);
    BoundSuccess(db.attempts, d.attempts, db.state.value.cycle, db.state.value.phase, Row(db), RepairOf(i));
    SuccessPhase(d.attempts, d.state.value.cycle, EXECUTING, Row(d), REPAIR_READY);
    assert ReviewShape(d.attempts, d.reviews, d.repairs, d.state.value.cycle, REPAIR_READY, d.state.value.plan, RepairOf(i));
    ReadyUsable(d, i);
    ShapeReady(d, RepairOf(i));
    ProgressParts(d);
  }

  lemma ReadyUsable(d: Db, i: RepairId)
    requires InPhase(d, REPAIR_READY) && Usable(d.repairs, i) && forall j :: Usable(d.repairs, j) ==> j == i
    requires IsLatest(d.attempts, d.state.value.cycle, RepairOf(i)) && d.attempts[RepairOf(i)].status == Failed
    requires d.repairs[i].cycle == d.state.value.cycle && d.repairs[i].plan == d.state.value.plan && i.review in d.reviews
    ensures UsableOk(d.repairs, d.reviews, d.attempts, d.state.value.cycle, REPAIR_READY, d.state.value.plan)
  {
  }

  lemma ShapeReady(d: Db, a: AttemptId)
    requires InPhase(d, REPAIR_READY)
    requires ReviewShape(d.attempts, d.reviews, d.repairs, d.state.value.cycle, REPAIR_READY, d.state.value.plan, a)
    ensures ShapeOk(d)
  {
  }

  // ------------------------------------------------------------------ publication

  lemma FinalizedIs(db: Db, id: (nat, InputId), d: Db)
    requires PublicationTarget(db) == Some(id) && Finalize(db, id) == Some(d)
    ensures InPhase(db, AWAITING_PUBLICATION) && db.state.value.plan in db.plans && Approved(db.plans[db.state.value.plan].status)
    ensures id.0 == db.state.value.cycle
    ensures d == WithPhase(db, IDLE).(learned := db.learned + {id},
                   plans := db.plans[db.state.value.plan := db.plans[db.state.value.plan].(status := EXECUTED)])
  {
    hide Publishable;
    var a, r :| Publishable(db, a, r);
    PublishablePhase(db, a, r);
  }

  lemma KeepFinalize(db: Db, id: (nat, InputId), d: Db)
    requires Sound(db) && PublicationTarget(db) == Some(id) && Finalize(db, id) == Some(d)
    ensures Sound(d)
  {
    hide PlanTablesOk, Records, ProgressOk, PublicationTarget, Finalize;
    FinalizedIs(db, id, d);
    NoneUsableAtRest(db);
    FinalizeKeepsPlans(db, id, d);
    SameRecords(db, d);
    FinalizeKeepsProgress(db, d);
  }

  lemma PublishablePhase(db: Db, a: AttemptId, r: ReviewId)
    requires Publishable(db, a, r)
    ensures InPhase(db, AWAITING_PUBLICATION) && db.state.value.plan in db.plans && Approved(db.plans[db.state.value.plan].status)
  {
  }

  lemma FinalizeKeepsPlans(db: Db, id: (nat, InputId), d: Db)
    requires InPhase(db, AWAITING_PUBLICATION) && db.state.value.plan in db.plans && id.0 == db.state.value.cycle
    requires d.state == Some(db.state.value.(phase := IDLE)) && d.permits == db.permits && d.learned == db.learned + {id}
    requires d.plans == db.plans[db.state.value.plan := db.plans[db.state.value.plan].(status := EXECUTED)]
    requires PlanTablesOk(db)
    ensures PlanTablesOk(d)
  {
    var st := db.state.value;
    PlanRestatused(db.plans, st.cycle, st.root, st.input, st.plan, EXECUTED);
    hide PlansOk;
  }

  lemma FinalizeKeepsProgress(db: Db, d: Db)
    requires InPhase(db, AWAITING_PUBLICATION)
    requires d.state == Some(db.state.value.(phase := IDLE)) && d.execs == db.execs
    requires d.attempts == db.attempts && d.reviews == db.reviews && d.repairs == db.repairs
    requires ProgressOk(db) && forall i :: !Usable(db.repairs, i)
    ensures ProgressOk(d)
  {
    hide ProgressOk, Row, SuccessOk, UsableOk, ShapeOk;
    SameRow(db, d);
    ProgressParts(db);
    SuccessPhase(db.attempts, db.state.value.cycle, AWAITING_PUBLICATION, Row(db), IDLE);
    NoUsableOk(d);
    ShapelessPlanning(d);
    ProgressParts(d);
  }
}
