/** Within one plan version every run of the machine's own steps ends, with an explicit budget for each kind of work. */
module WorkflowTermination {
  import opened Prelude
  import opened WorkflowModel
  import opened WorkflowRun
  import opened WorkflowInvariant
  import opened WorkflowTables
  import opened WorkflowPlanning
  import opened WorkflowExecution
  import opened WorkflowReview
  import opened WorkflowRepair
  import opened WorkflowSafety
  import opened WorkflowTheorems
  import opened WorkflowChain

  /** Executing, reviewing and repairing one plan version: no user input, no publication, no death during review. */
  predicate Working(l: Label) {
    l.Bind? || l.Ensure? || l.CloseExecution? || l.CloseAttempt? || l.SaveOutcome? || l.Die? || l.RecoverSuccess? ||
    l.RecoverOrphan? || l.Judge? || l.ReviewFails? || l.Accept? || l.Block? || l.MakeRepair? || l.StartRepair? ||
    l.EndRepair? || l.AbortRepair? || l.RecoverRepairOf?
  }

  /** What may still happen: initial executions, repair executions, review runs, and steps in all. */
  datatype Budget = Budget(initial: nat, repairs: nat, reviews: nat, steps: nat)

  function Less(a: nat, b: nat): nat {
    if a > b then a - b else 0
  }

  const NOTHING := Budget(0, 0, 0, 0)

  /** Rounds that may follow round `n`. */
  function After(n: nat): nat {
    Less(MAX_REPAIRS, n)
  }

  function InitialLeft(executions: nat, place: nat): Budget {
    Budget(executions, 20, 24, 6 * executions + place + 95)
  }

  function ReviewLeft(t: Attempt, reviewed: bool): Budget {
    var failures := Less(MAX_REVIEW_RECOVERIES, t.reviewRecoveries);
    Budget(0, 4 * After(t.round), (if reviewed then 0 else 1 + failures) + 4 * After(t.round),
           (if reviewed then 1 else 2 + failures) + 18 * After(t.round))
  }

  function RepairLeft(executions: nat, place: nat, round: nat): Budget {
    Budget(0, executions + 4 * After(round), 4 + 4 * After(round), 3 * executions + place + 5 + 18 * After(round))
  }

  /** Executions an initial attempt still has before it runs again, and after it has begun to run. */
  function BeforeRun(t: Attempt): nat {
    1 + Less(MAX_INITIAL_EXECUTION_RECOVERIES - 1, t.retries)
  }

  function AfterRun(t: Attempt): nat {
    Less(MAX_INITIAL_EXECUTION_RECOVERIES, t.retries)
  }

  /** EXECUTION_READY under permit `k`. The bind cannot insert attempt 1 when an older permit's attempt holds that
      number; the attempt is then inserted later with its counter at 0, which is one execution more. */
  ghost function ReadyLeft(db: Db, k: PermitId): Budget
    requires db.state.Some?
  {
    if InitialOf(k) in db.attempts then
      var t := db.attempts[InitialOf(k)];
      InitialLeft(BeforeRun(t), if t.status == Running then 7 else 4)
    else if exists a :: InCycle(db.attempts, db.state.value.cycle, a) then InitialLeft(4, 7)
    else InitialLeft(3, 7)
  }

  function BoundLeft(db: Db, k: PermitId): Budget {
    if InitialOf(k) in db.attempts then
      var t := db.attempts[InitialOf(k)];
      InitialLeft(BeforeRun(t), if t.status == Running then 6 else 3)
    else InitialLeft(4, 3)
  }

  function RunLeft(db: Db, k: PermitId, place: nat): Budget {
    if InitialOf(k) in db.attempts then InitialLeft(AfterRun(db.attempts[InitialOf(k)]), place) else NOTHING
  }

  /** EXECUTING with no worker: the latest attempt tells what was lost. */
  function LostLeft(t: Attempt, a: AttemptId): Budget {
    match a
    case InitialOf(_) =>
      InitialLeft(AfterRun(t), match t.status case Succeeded => 1 case Running => 5 case _ => 2)
    case RepairOf(_) => RepairLeft(Less(MAX_REPAIR_EXECUTION_RECOVERIES, t.repairRecoveries), 1, t.round)
  }

  function RepairReadyLeft(db: Db, i: RepairId): Budget {
    var spent := if RepairOf(i) in db.attempts then db.attempts[RepairOf(i)].repairRecoveries else 0;
    RepairLeft(1 + Less(MAX_REPAIR_EXECUTION_RECOVERIES, spent), 0, i.round)
  }

  function RepairRunLeft(db: Db, i: RepairId): Budget {
    if RepairOf(i) in db.attempts
    then RepairLeft(Less(MAX_REPAIR_EXECUTION_RECOVERIES, db.attempts[RepairOf(i)].repairRecoveries), 2, i.round) else NOTHING
  }

  ghost function LatestOf(db: Db): Option<AttemptId>
    requires db.state.Some?
  {
    if a :| IsLatest(db.attempts, db.state.value.cycle, a) then Some(a) else None
  }

  ghost function LiveOf(db: Db): Option<PermitId>
    requires db.state.Some?
  {
    if k :| LivePermitIn(db.permits, db.state.value.cycle, k) then Some(k) else None
  }

  ghost function UsableOf(db: Db): Option<RepairId> {
    if i :| Usable(db.repairs, i) then Some(i) else None
  }

  ghost function LostOf(db: Db): Budget
    requires db.state.Some?
  {
    match LatestOf(db) case Some(a) => if a in db.attempts then LostLeft(db.attempts[a], a) else NOTHING case None => NOTHING
  }

  ghost function ExecutingLeft(s: Sys): Budget
    requires s.db.state.Some?
  {
    match s.worker
    case Bound(k) => BoundLeft(s.db, k)
    case Executing(k) => RunLeft(s.db, k, 8)
    case Asked(k) => RunLeft(s.db, k, 8)
    case AskedAttempt(k) => RunLeft(s.db, k, 8)
    case RowClosed(k, _) => RunLeft(s.db, k, 7)
    case AttemptClosed(k, _) => RunLeft(s.db, k, 6)
    case Repairing(i) => RepairRunLeft(s.db, i)
    case AskedRow => NOTHING
    case Idle => LostOf(s.db)
  }

  ghost function Left(s: Sys): Budget {
    if s.db.state.None? then NOTHING
    else match s.db.state.value.phase
      case EXECUTION_READY =>
        (match LiveOf(s.db) case Some(k) => ReadyLeft(s.db, k) case None => NOTHING)
      case EXECUTING => ExecutingLeft(s)
      case REVIEW_EXECUTION =>
        (match LatestOf(s.db)
         case Some(a) => if a in s.db.attempts then ReviewLeft(s.db.attempts[a], Reviewed(s.db.reviews, a)) else NOTHING
         case None => NOTHING)
      case REPAIR_READY =>
        (match UsableOf(s.db) case Some(i) => RepairReadyLeft(s.db, i) case None => NOTHING)
      case _ => if s.worker == Idle then NOTHING else Budget(0, 0, 0, 1)
  }

  /** Going from `x` to `y` by `l` spends what `l` uses, and at least one step. */
  predicate Spends(x: Budget, l: Label, y: Budget) {
    && y.initial + (if l.Ensure? then 1 else 0) <= x.initial
    && y.repairs + (if l.StartRepair? then 1 else 0) <= x.repairs
    && y.reviews + (if l.Judge? || l.ReviewFails? then 1 else 0) <= x.reviews
    && y.steps < x.steps
  }

  // ------------------------------------------------------------------ reading the budget off a state

  lemma LatestIs(db: Db, a: AttemptId)
    requires db.state.Some? && IsLatest(db.attempts, db.state.value.cycle, a)
    requires Records(db)
    ensures LatestOf(db) == Some(a)
  {
    hide Records, IsLatest;
    var b :| IsLatest(db.attempts, db.state.value.cycle, b) && LatestOf(db) == Some(b);
    LatestIsOne(db, a, b);
  }

  lemma LiveIs(db: Db, k: PermitId)
    requires db.state.Some? && LivePermitIn(db.permits, db.state.value.cycle, k)
    requires PlanTablesOk(db)
    ensures LiveOf(db) == Some(k)
  {
    hide PlanTablesOk;
    OneLive(db, k);
  }

  lemma UsableIs(db: Db, i: RepairId)
    requires db.state.Some? && Usable(db.repairs, i)
    requires Records(db) && ProgressOk(db)
    ensures UsableOf(db) == Some(i)
  {
    hide Records, ProgressOk;
    OnlyUsable(db, i);
  }

  lemma LostIs(db: Db, a: AttemptId)
    requires InPhase(db, EXECUTING) && IsLatest(db.attempts, db.state.value.cycle, a)
    requires Records(db)
    ensures Left(Sys(db, Idle)) == LostLeft(db.attempts[a], a)
  {
    hide Records;
    LatestIs(db, a);
    hide IsLatest;
  }

  lemma ReviewIs(db: Db, w: Worker, a: AttemptId)
    requires InPhase(db, REVIEW_EXECUTION) && IsLatest(db.attempts, db.state.value.cycle, a)
    requires Records(db)
    ensures Left(Sys(db, w)) == ReviewLeft(db.attempts[a], Reviewed(db.reviews, a))
  {
    hide Records;
    LatestIs(db, a);
    hide IsLatest, Reviewed;
  }

  lemma ReadyIs(db: Db, w: Worker, k: PermitId)
    requires InPhase(db, EXECUTION_READY) && LivePermitIn(db.permits, db.state.value.cycle, k)
    requires PlanTablesOk(db)
    ensures Left(Sys(db, w)) == ReadyLeft(db, k)
  {
    hide PlanTablesOk;
    LiveIs(db, k);
    hide LivePermitIn, ReadyLeft;
  }

  lemma RepairReadyIs(db: Db, w: Worker, i: RepairId)
    requires InPhase(db, REPAIR_READY) && Usable(db.repairs, i)
    requires Records(db) && ProgressOk(db)
    ensures Left(Sys(db, w)) == RepairReadyLeft(db, i)
  {
    hide Records, ProgressOk;
    UsableIs(db, i);
    hide Usable, RepairReadyLeft;
  }

  // ------------------------------------------------------------------ the initial execution

  lemma SpendBind(db: Db, k: PermitId, d: Db)
    requires Sound(db) && BindAuthorized(db, k) == Some(d)
    ensures Spends(Left(Sys(db, Idle)), Label.Bind(k), Left(Sys(d, Bound(k))))
  {
    hide PlanTablesOk, Records, ProgressOk, BindAuthorized, InsertInitial, ReadyLeft;
    BoundIs(db, k, d);
    ReadyIs(db, Idle, k);
    BoundBudget(db, k);
    hide BoundLeft;
  }

  lemma BoundBudget(db: Db, k: PermitId)
    requires db.state.Some? && k in db.permits && db.permits[k].cycle == db.state.value.cycle
    requires Records(db)
    ensures var y := BoundLeft(db.(attempts := InsertInitial(db, k, db.permits[k])), k);
      Spends(ReadyLeft(db, k), Label.Bind(k), y)
  {
    hide Records;
    assert NumberTaken(db.attempts, db.state.value.cycle, 1) ==> exists a :: InCycle(db.attempts, db.state.value.cycle, a) by {
      if e :| e in db.attempts && db.attempts[e].cycle == db.state.value.cycle && db.attempts[e].number == 1 {
        assert InCycle(db.attempts, db.state.value.cycle, e);
      }
    }
    if InitialOf(k) !in db.attempts && (exists a :: InCycle(db.attempts, db.state.value.cycle, a)) {
      var a :| InCycle(db.attempts, db.state.value.cycle, a);
      Positive(db, a);
      NoGap(db, db.state.value.cycle, a, 1);
    }
  }

  lemma SpendEnsure(s: Sys, k: PermitId, d: Db)
    requires Inv(s) && s.worker == Bound(k) && EnsureAttempt(s.db, k) == Some(d)
    ensures Spends(Left(s), Ensure, Left(Sys(d, Worker.Executing(k))))
  {
    hide PlanTablesOk, Records, ProgressOk;
    if InitialOf(k) in s.db.attempts {
      InitialKind(s.db, InitialOf(k));
      assert !SucceededIn(s.db.attempts, s.db.state.value.cycle, InitialOf(k));
    }
    EnsureBudget(s.db, k, d);
    EnsureState(s.db, k, d);
    hide EnsureAttempt, BoundLeft, RunLeft;
  }

  lemma EnsureState(db: Db, k: PermitId, d: Db)
    requires EnsureAttempt(db, k) == Some(d)
    ensures d.state == db.state
  {
    hide Ensured;
  }

  lemma EnsureBudget(db: Db, k: PermitId, d: Db)
    requires db.state.Some? && EnsureAttempt(db, k) == Some(d)
    requires InitialOf(k) in db.attempts ==> db.attempts[InitialOf(k)].status != Succeeded
    ensures Spends(BoundLeft(db, k), Ensure, RunLeft(d, k, 8))
  {
    hide NextNumber;
  }

  lemma SpendClose(s: Sys, k: PermitId, ok: bool, d: Db)
    requires Inv(s) && s.worker == Worker.Executing(k)
    requires CloseRow(s.db, RowKey(s.db.state.value), if ok then RowSucceeded else RowFailed) == Some(d)
    ensures Spends(Left(s), CloseExecution(ok), Left(Sys(d, RowClosed(k, ok))))
  {
    hide Sound, PlanTablesOk, Records, ProgressOk, Row, RowKey;
  }

  lemma SpendCloseAttempt(s: Sys, k: PermitId, ok: bool, d: Db)
    requires Inv(s) && s.worker == RowClosed(k, ok) && d == FinishAttempt(s.db, InitialOf(k), if ok then Succeeded else Failed)
    ensures Spends(Left(s), CloseAttempt, Left(Sys(d, AttemptClosed(k, ok))))
  {
    hide Sound, PlanTablesOk, Records, ProgressOk, Row;
  }

  /** Review opens with the whole repair budget of its round. */
  lemma ReviewOpens(x: Budget, db: Db, a: AttemptId, l: Label)
    requires InPhase(db, REVIEW_EXECUTION) && IsLatest(db.attempts, db.state.value.cycle, a) && a.InitialOf?
    requires Records(db)
    requires exists executions, place: nat :: x == InitialLeft(executions, place) && place >= 1
    requires !l.Ensure? && !l.StartRepair? && !l.Judge? && !l.ReviewFails?
    ensures Spends(x, l, Left(Sys(db, Idle)))
  {
    hide Records;
    ReviewIs(db, Idle, a);
    RowKind(db, a);
    hide IsLatest, Left;
  }

  lemma SpendSave(s: Sys, k: PermitId, ok: bool, d: Db)
    requires Inv(s) && s.worker == AttemptClosed(k, ok)
    requires SavePhase(s.db, if ok then REVIEW_EXECUTION else EXECUTION_FAILED) == Some(d)
    ensures Spends(Left(s), SaveOutcome, Left(Sys(d, Idle)))
  {
    hide Sound, PlanTablesOk, Records, ProgressOk, Row;
    SoundTables(s);
    assert Left(s) == InitialLeft(AfterRun(s.db.attempts[InitialOf(k)]), 6);
    if ok {
      SavedRecords(s.db, d);
      ReviewOpens(Left(s), d, InitialOf(k), SaveOutcome);
    }
  }

  lemma SavedRecords(db: Db, d: Db)
    requires Sound(db) && d.state.Some? && d == db.(state := d.state) && d.state.value.cycle == db.state.value.cycle
    ensures Records(d)
  {
    hide PlanTablesOk, RecordsOk, LineageOk, ProgressOk;
  }

  // ------------------------------------------------------------------ death and recovery

  lemma SpendDieBound(s: Sys, k: PermitId)
    requires Inv(s) && s.worker == Bound(k)
    ensures Spends(Left(s), Die, Left(Sys(s.db, Idle)))
  {
    hide PlanTablesOk, Records, ProgressOk, Row;
    var a := LatestRunning(s.db);
    RunningLatest(s.db, a);
    LostIs(s.db, a);
    assert !SucceededIn(s.db.attempts, s.db.state.value.cycle, a);
    OnlyInitialNow(s.db, a);
    if InitialOf(k) in s.db.attempts {
      InitialKind(s.db, InitialOf(k));
      NewestInitial(s.db, k);
      LatestIsOne(s.db, a, InitialOf(k));
    }
    hide IsLatest, NoSuccess, RunningShape;
  }

  lemma LatestRunning(db: Db) returns (a: AttemptId)
    requires InPhase(db, EXECUTING) && ProgressOk(db)
    ensures IsLatest(db.attempts, db.state.value.cycle, a)
  {
    hide Row, SuccessOk, UsableOk;
    a :| RunningShape(db.attempts, db.permits, db.repairs, db.reviews, db.state.value.cycle, Row(db), a);
  }

  lemma OnlyInitialNow(db: Db, a: AttemptId)
    requires db.state.Some? && NoSuccess(db.attempts, db.state.value.cycle) && a in db.attempts && db.attempts[a].cycle == db.state.value.cycle
    requires Records(db)
    ensures a.InitialOf?
  {
    hide RecordsOk, LineageOk;
    OnlyInitial(db.attempts, db.permits, db.repairs, db.reviews, db.state.value.cycle, a);
  }

  lemma LostInitial(db: Db, k: PermitId, place: nat)
    requires InPhase(db, EXECUTING) && IsLatest(db.attempts, db.state.value.cycle, InitialOf(k)) && place >= 6
    requires Sound(db)
    ensures Spends(RunLeft(db, k, place), Die, Left(Sys(db, Idle)))
  {
    hide Sound, PlanTablesOk, Records, ProgressOk, Left;
    SoundRecords(db);
    LostIs(db, InitialOf(k));
    hide IsLatest;
  }

  lemma SoundRecords(db: Db)
    requires Sound(db)
    ensures db.state.Some? && Records(db) && PlanTablesOk(db) && ProgressOk(db)
  {
    hide PlanTablesOk, Records, ProgressOk;
  }

  lemma SpendDieRepairing(s: Sys, i: RepairId)
    requires Inv(s) && s.worker == Repairing(i)
    ensures Spends(Left(s), Die, Left(Sys(s.db, Idle)))
  {
    hide PlanTablesOk, Records, ProgressOk;
    LostIs(s.db, RepairOf(i));
    RowKind(s.db, RepairOf(i));
    hide IsLatest;
  }

  lemma SpendDie(s: Sys)
    requires Inv(s) && s.worker != Idle && s.db.state.Some?
    ensures Spends(Left(s), Die, Left(Sys(s.db, Idle)))
  {
    hide Sound, PlanTablesOk, Records, ProgressOk, Spends, Row, NoSuccess, IsLatest, LostOf;
    SoundTables(s);
    match s.worker
    case Bound(k) => SpendDieBound(s, k);
    case Repairing(i) => SpendDieRepairing(s, i);
    case Executing(k) => LostInitial(s.db, k, 8);
    case Asked(k) => LostInitial(s.db, k, 8);
    case AskedAttempt(k) => LostInitial(s.db, k, 8);
    case RowClosed(k, ok) => LostInitial(s.db, k, 7);
    case AttemptClosed(k, ok) => LostInitial(s.db, k, 6);
    case AskedRow => SpendDieAsked(s);
  }

  lemma SpendDieAsked(s: Sys)
    requires Inv(s) && s.worker == AskedRow
    ensures Spends(Left(s), Die, Left(Sys(s.db, Idle)))
  {
    hide Sound, PlanTablesOk, Records, ProgressOk;
  }

  lemma SpendRecoverSuccess(db: Db, d: Db)
    requires Sound(db) && RecoverFromRow(db) == Some(d)
    ensures Spends(Left(Sys(db, Idle)), RecoverSuccess, Left(Sys(d, Idle)))
  {
    hide Sound, PlanTablesOk, Records, ProgressOk, RecoverFromRow, FinishAttempt, Row, Left, Spends;
    var a := RecoveredIs(db, d);
    assert a in db.attempts;
    hide IsLatest;
    KeepRecoverSuccess(db, d);
    if d.state == Some(db.state.value.(phase := REVIEW_EXECUTION)) {
      RecoveredReview(db, a, d);
    } else if d.state == Some(db.state.value.(phase := REVIEW_BLOCKED)) {
      LostSpends(db, a, d, RecoverSuccess);
    } else {
      RecoveredAttempt(db, a, d);
    }
  }

  lemma LostSpends(db: Db, a: AttemptId, d: Db, l: Label)
    requires InPhase(db, EXECUTING) && a in db.attempts && IsLatest(db.attempts, db.state.value.cycle, a)
    requires d.state == Some(db.state.value.(phase := REVIEW_BLOCKED)) && (l.RecoverSuccess? || l.RecoverOrphan? || l.RecoverRepairOf?)
    requires Sound(db)
    ensures Spends(Left(Sys(db, Idle)), l, Left(Sys(d, Idle)))
  {
    hide Sound, PlanTablesOk, Records, ProgressOk, Left, IsLatest;
    SoundRecords(db);
    LostIs(db, a);
    Spent(d);
  }

  lemma RecoveredReview(db: Db, a: AttemptId, d: Db)
    requires InPhase(db, EXECUTING) && a in db.attempts && IsLatest(db.attempts, db.state.value.cycle, a) && db.attempts[a].kind == INITIAL
    requires d.state == Some(db.state.value.(phase := REVIEW_EXECUTION))
    requires d == WithPhase(db, REVIEW_BLOCKED) || d == FinishAttempt(db, a, Succeeded) || d == WithPhase(db, REVIEW_EXECUTION)
    requires Sound(db) && Sound(d)
    ensures Spends(Left(Sys(db, Idle)), RecoverSuccess, Left(Sys(d, Idle)))
  {
    hide Sound, PlanTablesOk, Records, ProgressOk, Left, IsLatest;
    SoundRecords(db);
    SoundRecords(d);
    InitialKind(db, a);
    LostIs(db, a);
    ReviewOpens(Left(Sys(db, Idle)), d, a, RecoverSuccess);
  }

  lemma RecoveredAttempt(db: Db, a: AttemptId, d: Db)
    requires InPhase(db, EXECUTING) && a in db.attempts && IsLatest(db.attempts, db.state.value.cycle, a) && db.attempts[a].kind == INITIAL
    requires db.attempts[a].status != Succeeded && d == FinishAttempt(db, a, Succeeded)
    requires Sound(db) && Sound(d)
    ensures Spends(Left(Sys(db, Idle)), RecoverSuccess, Left(Sys(d, Idle)))
  {
    hide Sound, PlanTablesOk, Records, ProgressOk, Left, IsLatest;
    SoundRecords(db);
    SoundRecords(d);
    InitialKind(db, a);
    LostIs(db, a);
    FinishedLatest(db, a, d);
    LostIs(d, a);
  }

  lemma Spent(db: Db)
    requires db.state.Some? && db.state.value.phase in {REVIEW_BLOCKED, AWAITING_PUBLICATION, EXECUTION_FAILED}
    ensures Left(Sys(db, Idle)) == NOTHING
  {
  }

  lemma FinishedLatest(db: Db, a: AttemptId, d: Db)
    requires db.state.Some? && IsLatest(db.attempts, db.state.value.cycle, a) && d == FinishAttempt(db, a, Succeeded)
    ensures d.state == db.state && IsLatest(d.attempts, d.state.value.cycle, a)
    ensures d.attempts[a] == db.attempts[a].(status := Succeeded)
  {
    SameLatest(db.attempts, d.attempts, a);
  }

  lemma SpendOrphan(db: Db, a: AttemptId, d: Db, outcome: Outcome)
    requires Sound(db) && InPhase(db, EXECUTING) && IsLatest(db.attempts, db.state.value.cycle, a)
    requires RecoverInitial(db, a, MAX_INITIAL_EXECUTION_RECOVERIES) == Some((d, outcome))
    ensures Spends(Left(Sys(db, Idle)), RecoverOrphan(a), Left(Sys(d, Idle)))
  {
    hide PlanTablesOk, Records, ProgressOk, RecoverInitial, FinishAttempt, Left, InitialMayResume;
    OrphanCases(db, a, MAX_INITIAL_EXECUTION_RECOVERIES, d, outcome);
    InitialKind(db, a);
    LostIs(db, a);
    KeepRecoverOrphan(db, a, MAX_INITIAL_EXECUTION_RECOVERIES, d, outcome);
    if outcome == EXHAUSTED {
      Spent(d);
    } else {
      OrphanPermit(db, a);
      OrphanReady(db, a, d);
      ReadyIs(d, Idle, a.permit);
    }
  }

  lemma OrphanReady(db: Db, a: AttemptId, d: Db)
    requires InPhase(db, EXECUTING) && IsLatest(db.attempts, db.state.value.cycle, a) && a.InitialOf?
    requires db.attempts[a].auth == ByPermit(a.permit) && LivePermitIn(db.permits, db.state.value.cycle, a.permit)
    requires RecoverInitial(db, a, MAX_INITIAL_EXECUTION_RECOVERIES) == Some((d, RETRY))
    ensures InPhase(d, EXECUTION_READY) && LivePermitIn(d.permits, d.state.value.cycle, a.permit)
    ensures a in d.attempts && d.attempts[a] == db.attempts[a].(status := Interrupted)
    ensures db.attempts[a].retries < MAX_INITIAL_EXECUTION_RECOVERIES && db.attempts[a].status == Running
  {
    hide ExecutionTarget, InitialMayResume;
  }

  // ------------------------------------------------------------------ review

  lemma SpendJudge(db: Db, id: ReviewId, verdict: Verdict, d: Db)
    requires Sound(db) && JudgeLatest(db, id, verdict) == Some(d)
    ensures Spends(Left(Sys(db, Idle)), Judge(id, verdict), Left(Sys(d, Idle)))
  {
    hide Sound, PlanTablesOk, Records, ProgressOk, JudgeLatest, Left;
    var a := JudgedIs(db, id, verdict, d);
    KeepJudge(db, id, verdict, d);
    SoundRecords(db);
    SoundRecords(d);
    ReviewIs(db, Idle, a);
    ReviewIs(d, Idle, a);
    assert Reviewed(d.reviews, a) by { assert id in d.reviews && d.reviews[id].attempt == a; }
    hide Reviewed, IsLatest;
  }

  lemma SpendFailure(db: Db, d: Db)
    requires Sound(db) && FailReview(db) == Some(d)
    ensures Spends(Left(Sys(db, Idle)), ReviewFails, Left(Sys(d, Idle)))
  {
    hide Sound, PlanTablesOk, Records, ProgressOk, FailReview, Left, ReviewFailure;
    ReviewPhase(db, d);
    var a := FailedReview(db, d);
    FailureCases(db, a);
    KeepReviewFails(db, d);
    SoundRecords(db);
    SoundRecords(d);
    ReviewIs(db, Idle, a);
    if db.attempts[a].reviewRecoveries >= MAX_REVIEW_RECOVERIES {
      Spent(d);
    } else {
      FailureCounts(db, a, d);
      SameLatest(db.attempts, d.attempts, a);
      ReviewIs(d, Idle, a);
    }
  }

  lemma FailureCounts(db: Db, a: AttemptId, d: Db)
    requires db.state.Some? && a in db.attempts && db.attempts[a].reviewRecoveries < MAX_REVIEW_RECOVERIES
    requires ReviewFailure(db, a).Some? && d == ReviewFailure(db, a).value.0
    ensures a in d.attempts && d.attempts[a] == db.attempts[a].(reviewRecoveries := db.attempts[a].reviewRecoveries + 1)
  {
  }

  /** Leaving review for good costs the step it takes. */
  lemma ReviewCloses(db: Db, d: Db, l: Label)
    requires InPhase(db, REVIEW_EXECUTION) && d.state.Some? && d.state.value.phase in {REVIEW_BLOCKED, AWAITING_PUBLICATION}
    requires !l.Ensure? && !l.StartRepair? && !l.Judge? && !l.ReviewFails?
    requires Sound(db)
    ensures Spends(Left(Sys(db, Idle)), l, Left(Sys(d, Idle)))
  {
    hide Sound, PlanTablesOk, Records, ProgressOk, Left;
    SoundRecords(db);
    var a := LatestInReview(db);
    ReviewIs(db, Idle, a);
    Spent(d);
    hide IsLatest;
  }

  lemma SpendAccept(db: Db, id: ReviewId, d: Db)
    requires Sound(db) && AcceptReview(db, id) == Some(d)
    ensures Spends(Left(Sys(db, Idle)), Accept(id), Left(Sys(d, Idle)))
  {
    hide Sound, PlanTablesOk, Records, ProgressOk, Left, AcceptReview, Spends;
    var a := AcceptedIs(db, id, d);
    ReviewCloses(db, d, Accept(id));
  }

  lemma SpendBlock(db: Db, id: ReviewId, d: Db)
    requires Sound(db) && BlockReview(db, id) == Some(d)
    ensures Spends(Left(Sys(db, Idle)), Block(id), Left(Sys(d, Idle)))
  {
    hide Sound, PlanTablesOk, Records, ProgressOk, Left, BlockReview, Spends;
    BlockedIs(db, id, d);
    ReviewCloses(db, d, Block(id));
  }

  lemma SpendMakeRepair(db: Db, d: Db)
    requires Sound(db) && CreateRepair(db, MAX_REPAIRS) == Some(d)
    ensures Spends(Left(Sys(db, Idle)), MakeRepair, Left(Sys(d, Idle)))
  {
    hide Sound, PlanTablesOk, Records, ProgressOk, Left, CreateRepair, CreateRepairFor, Repairable, Spends;
    var a, r := MadeRepair(db, d);
    KeepMakeRepair(db, d);
    MadeCases(db, a, r, d);
    if db.attempts[a].round + 1 > MAX_REPAIRS {
      ReviewCloses(db, d, MakeRepair);
    } else {
      SpendIssue(db, a, r, d);
    }
  }

  lemma SpendIssue(db: Db, a: AttemptId, r: ReviewId, d: Db)
    requires Repairable(db, a, r) && d == CreateRepairFor(db, a, r, MAX_REPAIRS) && db.attempts[a].round + 1 <= MAX_REPAIRS
    requires Sound(db) && Sound(d)
    ensures Spends(Left(Sys(db, Idle)), MakeRepair, Left(Sys(d, Idle)))
  {
    hide Sound, PlanTablesOk, Records, ProgressOk, Left, CreateRepairFor, RoundTaken, Issued, Spends;
    SoundRecords(db);
    SoundRecords(d);
    RoundFree(db, a, r);
    IssuedIs(db, a, r, d);
    UnknownRepair(db, RepairId(r, db.attempts[a].round + 1));
    ReviewIs(db, Idle, a);
    hide Repairable;
    IssuedBudget(db, a, r, d);
    RepairReadyIs(d, Idle, RepairId(r, db.attempts[a].round + 1));
    RepairAhead(db.attempts[a], db, d, RepairId(r, db.attempts[a].round + 1));
  }

  /** The first execution of the next round is paid for by the round. */
  lemma RepairAhead(t: Attempt, db: Db, d: Db, i: RepairId)
    requires i.round == t.round + 1 <= MAX_REPAIRS && d.attempts == db.attempts && RepairOf(i) !in db.attempts
    ensures Spends(ReviewLeft(t, true), MakeRepair, RepairReadyLeft(d, i))
  {
  }

  lemma IssuedBudget(db: Db, a: AttemptId, r: ReviewId, d: Db)
    requires Issued(db, a, r, d)
    ensures InPhase(d, REPAIR_READY) && Usable(d.repairs, RepairId(r, db.attempts[a].round + 1)) && d.attempts == db.attempts
    ensures Reviewed(db.reviews, a)
  {
    assert r in db.reviews && db.reviews[r].attempt == a;
  }

  // ------------------------------------------------------------------ repair

  lemma SpendStartRepair(db: Db, i: RepairId, d: Db)
    requires Sound(db) && BindRepair(db, i) == Some(d)
    ensures Spends(Left(Sys(db, Idle)), StartRepair(i), Left(Sys(d, if InPhase(d, EXECUTING) then Repairing(i) else Idle)))
  {
    hide Sound, PlanTablesOk, Records, ProgressOk, Left, BindRepair, Pending, SweepPending;
    SoundRecords(db);
    BindCases(db, i, d);
    UsableParent(db, i);
    RepairReadyIs(db, Idle, i);
    if InPhase(d, EXECUTING) {
      RunsRepair(db, i, d);
    } else {
      Spent(d);
    }
    hide ChainMatches, IsLatest;
  }

  lemma RunsRepair(db: Db, i: RepairId, d: Db)
    requires RepairBindable(db, i)
    requires d == WithPhase(db, EXECUTING).(execs := d.execs, inputs := d.inputs,
                      attempts := db.attempts[RepairOf(i) := RepairRow(db, i)])
    ensures Left(Sys(d, Repairing(i))) ==
      RepairLeft(Less(MAX_REPAIR_EXECUTION_RECOVERIES,
                      if RepairOf(i) in db.attempts then db.attempts[RepairOf(i)].repairRecoveries else 0), 2, i.round)
  {
    hide ChainMatches;
  }

  lemma SpendEndRepair(s: Sys, i: RepairId, d: Db)
    requires Inv(s) && s.worker == Repairing(i) && FinishRepair(s.db, i, RepairOf(i)) == Some(d)
    ensures Spends(Left(s), EndRepair, Left(Sys(d, Idle)))
  {
    hide Sound, PlanTablesOk, Records, ProgressOk, FinishRepair;
    SoundTables(s);
    FinishedRepair(s.db, i, d);
    EndRepairKeeps(s.db, i, d);
    SoundRecords(s.db);
    SoundRecords(d);
    RowKind(s.db, RepairOf(i));
    SameLatest(s.db.attempts, d.attempts, RepairOf(i));
    ReviewIs(d, Idle, RepairOf(i));
    hide IsLatest;
  }

  lemma SpendAbort(s: Sys, i: RepairId, d: Db)
    requires Inv(s) && s.worker == Repairing(i) && FailRepair(s.db, RepairOf(i)) == Some(d)
    ensures Spends(Left(s), AbortRepair, Left(Sys(d, Idle)))
  {
    hide Sound, PlanTablesOk, Records, ProgressOk;
    Spent(d);
    hide IsLatest;
  }

  lemma SpendRecoverRepair(db: Db, a: AttemptId, d: Db)
    requires Sound(db) && RecoverRepair(db, a) == Some(d)
    ensures Spends(Left(Sys(db, Idle)), RecoverRepairOf(a), Left(Sys(d, Idle)))
  {
    hide Sound, PlanTablesOk, Records, ProgressOk, RecoverRepair, Left, Spends;
    SoundRecords(db);
    OrphanKnown(db, a, d);
    RepairAuth(db, a);
    RecoveryCases(db, a, d);
    KeepRecoverRepair(db, a, d);
    if db.attempts[a].repairRecoveries >= MAX_REPAIR_EXECUTION_RECOVERIES {
      LostSpends(db, a, d, RecoverRepairOf(a));
    } else {
      ResumedSpends(db, a, d);
    }
  }

  lemma ResumedSpends(db: Db, a: AttemptId, d: Db)
    requires a.RepairOf? && InPhase(db, EXECUTING) && Usable(db.repairs, a.repair) && IsLatest(db.attempts, db.state.value.cycle, a)
    requires db.attempts[a].repairRecoveries < MAX_REPAIR_EXECUTION_RECOVERIES
    requires
      var t := db.attempts[a];
      d == WithPhase(db, REPAIR_READY).(attempts := db.attempts[a := t.(status := Failed, repairRecoveries := t.repairRecoveries + 1)])
    requires Sound(db) && Sound(d)
    ensures Spends(Left(Sys(db, Idle)), RecoverRepairOf(a), Left(Sys(d, Idle)))
  {
    hide Sound, PlanTablesOk, Records, ProgressOk, Left;
    SoundRecords(db);
    SoundRecords(d);
    RowKind(db, a);
    LostIs(db, a);
    hide IsLatest;
    RepairReadyIs(d, Idle, a.repair);
  }

  // ------------------------------------------------------------------ every step, every run

  lemma SpendExecution(s: Sys, l: Label, t: Sys)
    requires Inv(s) && s.db.state.Some? && Next(s, l) == Some(t)
    requires l.Bind? || l.Ensure? || l.CloseExecution? || l.CloseAttempt? || l.SaveOutcome? || l.Die?
    ensures Spends(Left(s), l, Left(t))
  {
    hide Inv, Sound, BindAuthorized, EnsureAttempt, CloseRow, FinishAttempt, SavePhase, Left, Spends;
    SoundTables(s);
    match l
    case Bind(k) => SpendBind(s.db, k, t.db);
    case Ensure => SpendEnsure(s, s.worker.permit, t.db);
    case CloseExecution(ok) => SpendClose(s, s.worker.permit, ok, t.db);
    case CloseAttempt => SpendCloseAttempt(s, s.worker.permit, s.worker.ok, t.db);
    case SaveOutcome => SpendSave(s, s.worker.permit, s.worker.ok, t.db);
    case Die => SpendDie(s);
  }

  lemma SpendRecovery(s: Sys, l: Label, t: Sys)
    requires Inv(s) && s.db.state.Some? && Next(s, l) == Some(t)
    requires l.RecoverSuccess? || l.RecoverOrphan? || l.RecoverRepairOf?
    ensures Spends(Left(s), l, Left(t))
  {
    hide Inv, Sound, RecoverFromRow, RecoverInitial, RecoverRepair, IsLatest, Left, Spends;
    SoundTables(s);
    match l
    case RecoverSuccess => SpendRecoverSuccess(s.db, t.db);
    case RecoverOrphan(a) =>
      SpendOrphan(s.db, a, t.db, RecoverInitial(s.db, a, MAX_INITIAL_EXECUTION_RECOVERIES).value.1);
    case RecoverRepairOf(a) => SpendRecoverRepair(s.db, a, t.db);
  }

  lemma SpendReview(s: Sys, l: Label, t: Sys)
    requires Inv(s) && s.db.state.Some? && Next(s, l) == Some(t)
    requires l.Judge? || l.ReviewFails? || l.Accept? || l.Block? || l.MakeRepair?
    ensures Spends(Left(s), l, Left(t))
  {
    hide Inv, Sound, JudgeLatest, FailReview, AcceptReview, BlockReview, CreateRepair, Left, Spends;
    SoundTables(s);
    match l
    case Judge(r, verdict) => SpendJudge(s.db, r, verdict, t.db);
    case ReviewFails => SpendFailure(s.db, t.db);
    case Accept(r) => SpendAccept(s.db, r, t.db);
    case Block(r) => SpendBlock(s.db, r, t.db);
    case MakeRepair => SpendMakeRepair(s.db, t.db);
  }

  lemma SpendRepair(s: Sys, l: Label, t: Sys)
    requires Inv(s) && s.db.state.Some? && Next(s, l) == Some(t)
    requires l.StartRepair? || l.EndRepair? || l.AbortRepair?
    ensures Spends(Left(s), l, Left(t))
  {
    hide Inv, Sound, BindRepair, FinishRepair, FailRepair, Left, Spends;
    SoundTables(s);
    match l
    case StartRepair(i) => SpendStartRepair(s.db, i, t.db);
    case EndRepair => SpendEndRepair(s, s.worker.repair, t.db);
    case AbortRepair => SpendAbort(s, s.worker.repair, t.db);
  }

  lemma NoWorkYet(s: Sys, l: Label)
    requires Inv(s) && s.db.state.None? && Working(l)
    ensures Next(s, l) == None
  {
    hide Sound;
  }

  /** Every working step spends what it uses and strictly shortens what is left. */
  lemma Spend(s: Sys, l: Label, t: Sys)
    requires Inv(s) && Working(l) && Next(s, l) == Some(t)
    ensures Spends(Left(s), l, Left(t))
  {
    hide Inv, Next, Left, Spends;
    if s.db.state.None? { NoWorkYet(s, l); }
    else if l.Bind? || l.Ensure? || l.CloseExecution? || l.CloseAttempt? || l.SaveOutcome? || l.Die? { SpendExecution(s, l, t); }
    else if l.RecoverSuccess? || l.RecoverOrphan? || l.RecoverRepairOf? { SpendRecovery(s, l, t); }
    else if l.StartRepair? || l.EndRepair? || l.AbortRepair? { SpendRepair(s, l, t); }
    else { SpendReview(s, l, t); }
  }

  predicate AllWorking(labels: seq<Label>) {
    forall i :: 0 <= i < |labels| ==> Working(labels[i])
  }

  function Initials(labels: seq<Label>): nat {
    if labels == [] then 0 else (if labels[0].Ensure? then 1 else 0) + Initials(labels[1..])
  }

  function RepairRuns(labels: seq<Label>): nat {
    if labels == [] then 0 else (if labels[0].StartRepair? then 1 else 0) + RepairRuns(labels[1..])
  }

  function ReviewRuns(labels: seq<Label>): nat {
    if labels == [] then 0 else (if labels[0].Judge? || labels[0].ReviewFails? then 1 else 0) + ReviewRuns(labels[1..])
  }

  /** A working run is no longer than the steps left, and no kind of work exceeds its budget. */
  lemma {:induction false} WorkIsBounded(s: Sys, labels: seq<Label>, t: Sys)
    requires Inv(s) && AllWorking(labels) && Run(s, labels) == Some(t)
    ensures Left(t).steps + |labels| <= Left(s).steps
    ensures Left(t).initial + Initials(labels) <= Left(s).initial
    ensures Left(t).repairs + RepairRuns(labels) <= Left(s).repairs
    ensures Left(t).reviews + ReviewRuns(labels) <= Left(s).reviews
    decreases |labels|
  {
    hide Inv, Next, Left;
    if labels != [] {
      var m := Next(s, labels[0]).value;
      Keep(s, labels[0], m);
      Spend(s, labels[0], m);
      assert AllWorking(labels[1..]);
      WorkIsBounded(m, labels[1..], t);
    }
  }
}
