/** The two proofs that a declarative cycle is accepted, over the same rows: the strict one that opens publication, and
    the one that later reads the cycle's accepted material. */
module Acceptance {
  import opened Prelude

  type TaskRun = nat
  type Time = int

  /** SHA-256 of a canonical document or of a stripped plan text, as an injective constructor. */
  datatype Digest = OfSpec(spec: Spec) | OfPlan(text: string)

  datatype Declaration = Declaration(id: Option<string>, dependsOn: seq<string>)
  datatype Spec = Spec(workflowId: string, version: nat, tasks: seq<Declaration>)

  datatype CycleStatus = ACTIVE | AWAITING_PUBLICATION | PUBLISHED | FAILED
  datatype CycleKind = INITIAL | REVISION
  datatype Mode = HUMAN | AUTO

  /** Parsed JSON evidence: None when it does not parse, else whether it is an object whose list is there, and its length. */
  datatype Evidence = Evidence(isObject: bool, list: Option<nat>)

  datatype Cycle = Cycle(
    key: string, cycleId: nat, root: string, kind: CycleKind, revision: Option<nat>, workflowId: string, version: nat,
    digest: Digest, spec: Option<Spec>, specRef: string, status: CycleStatus, active: Option<string>)
  datatype Task = Task(
    run: TaskRun, taskId: string, cycleId: nat, workflowId: string, index: nat, dependencies: Option<seq<string>>,
    done: bool, doneInPhase: bool, plan: string, attempt: nat, round: nat, waiting: bool, asked: bool)
  datatype Plan = Plan(
    run: TaskRun, cycle: string, taskId: string, version: nat, text: string, digest: Digest, approved: bool,
    postedAt: Time, postedComment: int, approvedAt: Option<Time>, approvedBy: string, approvalEvent: string)
  datatype Permit = Permit(
    run: TaskRun, cycle: string, plan: string, version: nat, digest: Digest, approvalEvent: string, approvedBy: string,
    mode: Mode, createdAt: Time, invalidated: bool)
  datatype Execution = Execution(
    id: string, cycle: string, plan: string, permit: nat, attempt: nat, succeeded: bool, summary: string,
    evidence: Option<Evidence>, completedAt: Time)
  datatype Validation = Validation(
    id: string, cycle: string, plan: string, attempt: nat, accept: bool, summary: string, evidence: Option<Evidence>)
  datatype Result = Result(
    id: nat, cycle: string, plan: string, execution: string, occurrence: string, postedAt: Time, postedComment: int)
  datatype Approval = Approval(
    run: TaskRun, cycle: string, plan: string, execution: string, validation: string, occurrence: string, mode: Mode,
    approvedBy: string, event: Option<string>, approvedAt: Time, invalidated: bool)
  datatype Event = Event(
    author: string, createdAt: Time, exactApproval: bool, inlineReview: bool, surface: nat, subject: nat, reviewRoot: nat)

  /** The rows of one thread. Keys are the UNIQUE columns of each table. */
  datatype Rows = Rows(
    cycles: map<nat, Cycle>,                                // by cycle id
    tasks: map<string, seq<Task>>,                          // by cycle key, in declaration order
    plans: map<string, Plan>,
    permits: map<nat, Permit>,
    executions: map<(TaskRun, nat), Execution>,             // by task run and attempt
    validations: map<(TaskRun, nat), Validation>,           // by task run and round
    results: map<(TaskRun, string), Result>,                // by task run and validation
    approvals: map<nat, Approval>,                          // by result
    events: map<string, Event>,
    roots: map<string, Event>,                              // a cycle's root input, resolved to its source event
    auto: bool,                                             // the thread's interaction mode
    pendingRevision: bool,
    initialDone: bool,                                      // lifecycle COMPLETE or PUBLISHED, with its initial cycle sound
    initialKey: string, initialDigest: Digest,
    hasWorkspace: bool)

  const AUTO_POLICY := "sweforge:auto-policy"
  const AUTO_PLAN := "auto-plan-authority:plan-approval:"
  const PLAN_APPROVAL := "plan-approval:"

  /** `str.startswith`. */
  predicate StartsWith(s: string, prefix: string) {
    prefix <= s
  }

  predicate Distinct(ids: seq<Option<string>>) {
    forall i, j :: 0 <= i < j < |ids| ==> ids[i] != ids[j]
  }

  // ------------------------------------------------------------------ facts both proofs read

  /** The declared workflow is the document the cycle's digest names. */
  predicate SpecMatches(c: Cycle) {
    && c.spec.Some?
    && c.spec.value.workflowId == c.workflowId
    && c.spec.value.version == c.version
    && c.digest == OfSpec(c.spec.value)
    && c.spec.value.tasks != []
  }

  predicate TaskDone(c: Cycle, t: Task, d: Declaration, index: nat) {
    && t.dependencies == Some(d.dependsOn)
    && t.index == index
    && Some(t.taskId) == d.id
    && t.cycleId == c.cycleId && t.workflowId == c.workflowId
    && t.done && t.doneInPhase && t.plan != ""
    && !t.waiting && !t.asked
  }

  predicate PlanAccepted(r: Rows, c: Cycle, t: Task) {
    && t.plan in r.plans
    && var p := r.plans[t.plan];
    && p.run == t.run && p.cycle == c.key && p.taskId == t.taskId
    && p.version >= 1 && p.digest == OfPlan(p.text) && p.postedComment > 0 && p.approved
    && p.approvedAt.Some? && p.approvedBy != "" && p.approvalEvent != ""
  }

  predicate ExecutionProven(c: Cycle, e: Execution) {
    e.cycle == c.key && e.succeeded && e.evidence.Some? && e.evidence.value.isObject && e.evidence.value.list.Some?
  }

  predicate ValidationProven(c: Cycle, v: Validation) {
    v.cycle == c.key && v.accept && v.evidence.Some? && v.evidence.value.isObject &&
    v.evidence.value.list.Some? && v.evidence.value.list.value > 0
  }

  /** The result of this execution and validation, and the approval that stands for it. */
  predicate ResultFound(r: Rows, t: Task, e: Execution, v: Validation) {
    && (t.run, v.id) in r.results
    && var res := r.results[(t.run, v.id)];
    && res.plan == t.plan && res.execution == e.id
    && res.id in r.approvals && !r.approvals[res.id].invalidated
  }

  predicate ApprovalNames(r: Rows, c: Cycle, t: Task, e: Execution, v: Validation)
    requires ResultFound(r, t, e, v)
  {
    var res := r.results[(t.run, v.id)];
    var a := r.approvals[res.id];
    && !StartsWith(res.occurrence, PLAN_APPROVAL)
    && a.run == t.run && a.cycle == c.key && a.plan == t.plan && a.execution == e.id && a.validation == v.id
    && a.occurrence == res.occurrence
  }

  // ------------------------------------------------------------------ the strict proof

  function ExpectedMode(r: Rows): Mode {
    if r.auto then AUTO else HUMAN
  }

  /** The row `ORDER BY created_at DESC LIMIT 1` may pick among the permits of exactly this plan. */
  predicate PermitOf(r: Rows, t: Task, k: nat)
    requires t.plan in r.plans
  {
    && k in r.permits
    && var p, plan := r.permits[k], r.plans[t.plan];
    && p.run == t.run && p.plan == t.plan && p.version == plan.version && p.digest == plan.digest && !p.invalidated
  }

  ghost predicate NewestPermit(r: Rows, t: Task, k: nat)
    requires t.plan in r.plans
  {
    PermitOf(r, t, k) && forall j :: PermitOf(r, t, j) ==> r.permits[j].createdAt <= r.permits[k].createdAt
  }

  /** The row `ORDER BY validation_round DESC LIMIT 1` picks. */
  ghost predicate LatestRound(r: Rows, t: Task, round: nat) {
    (t.run, round) in r.validations && forall n :: (t.run, n) in r.validations ==> n <= round
  }

  /** A human approval: an exact approval by that author at that time, posted after what it approves, on the same surface. */
  predicate HumanApproval(root: Event, e: Event, author: string, at: Time, after: Time) {
    && e.author == author && e.createdAt == at && e.createdAt > after && e.exactApproval
    && e.surface == root.surface && e.subject == root.subject
    && (root.inlineReview ==> e.reviewRoot == root.reviewRoot)
  }

  /** One task of the cycle, as the strict proof reads it. */
  ghost predicate StrictTask(r: Rows, c: Cycle, root: Event, t: Task, d: Declaration, index: nat, k: nat, round: nat) {
    && TaskDone(c, t, d, index)
    && PlanAccepted(r, c, t)
    && var plan := r.plans[t.plan];
    && NewestPermit(r, t, k)
    && (t.run, t.attempt) in r.executions && r.executions[(t.run, t.attempt)].plan == t.plan
    && LatestRound(r, t, round)
    && var permit, e, v := r.permits[k], r.executions[(t.run, t.attempt)], r.validations[(t.run, round)];
    && permit.cycle == c.key && permit.approvalEvent == plan.approvalEvent && permit.approvedBy == plan.approvedBy
    && permit.mode == ExpectedMode(r)
    && (if r.auto then permit.approvedBy == AUTO_POLICY && StartsWith(permit.approvalEvent, AUTO_PLAN)
        else plan.approvalEvent in r.events &&
             HumanApproval(root, r.events[plan.approvalEvent], plan.approvedBy, plan.approvedAt.value, plan.postedAt))
    && ExecutionProven(c, e) && e.permit == k
    && ValidationProven(c, v) && v.plan == t.plan && v.attempt == e.attempt
    && ResultFound(r, t, e, v) && ApprovalNames(r, c, t, e, v)
    && var res := r.results[(t.run, v.id)];
    && var a := r.approvals[res.id];
    && a.mode == ExpectedMode(r)
    && (if r.auto then a.event == None && a.approvedBy == AUTO_POLICY
        else a.event.Some? && a.event.value in r.events &&
             HumanApproval(root, r.events[a.event.value], a.approvedBy, a.approvedAt, res.postedAt))
  }

  ghost predicate Proven(r: Rows, c: Cycle, root: Event, t: Task, d: Declaration, index: nat) {
    exists k, round :: StrictTask(r, c, root, t, d, index, k, round)
  }

  ghost predicate StrictTasks(r: Rows, c: Cycle, root: Event, tasks: seq<Task>, declared: seq<Declaration>) {
    && |tasks| == |declared|
    && forall i :: 0 <= i < |tasks| ==> Proven(r, c, root, tasks[i], declared[i], i)
  }

  function Ids(declared: seq<Declaration>): seq<Option<string>> {
    seq(|declared|, i requires 0 <= i < |declared| => declared[i].id)
  }

  predicate RevisionDerives(r: Rows, c: Cycle) {
    c.kind == REVISION ==> c.specRef == r.initialKey && c.revision.Some?
  }

  /** `_declarative_publication_target` returns a target for this cycle. */
  ghost predicate StrictlyEligible(r: Rows, c: Cycle) {
    && !r.pendingRevision
    && c.cycleId in r.cycles && r.cycles[c.cycleId] == c && (forall n :: n in r.cycles ==> n <= c.cycleId)
    && c.status == AWAITING_PUBLICATION && c.active.None?
    && r.initialDone && RevisionDerives(r, c)
    && SpecMatches(c)
    && (forall i :: 0 <= i < |c.spec.value.tasks| ==> c.spec.value.tasks[i].id.Some?)
    && Distinct(Ids(c.spec.value.tasks))
    && c.key in r.tasks && c.root in r.roots
    && StrictTasks(r, c, r.roots[c.root], r.tasks[c.key], c.spec.value.tasks)
    && r.hasWorkspace
  }

  // ------------------------------------------------------------------ the accepted material

  datatype Material = Material(
    cycleId: nat, cycle: string, kind: CycleKind, revision: Option<nat>, taskId: string, index: nat, plan: string,
    planText: string, execution: string, executionSummary: string, validation: string, validationSummary: string)

  /** One task run, as the material proof reads it: by the round and the permit that it and its execution name. */
  predicate AcceptedTask(r: Rows, c: Cycle, t: Task, d: Declaration, index: nat) {
    && TaskDone(c, t, d, index)
    && PlanAccepted(r, c, t)
    && var plan := r.plans[t.plan];
    && (t.run, t.attempt) in r.executions && r.executions[(t.run, t.attempt)].plan == t.plan
    && (t.run, t.round) in r.validations
    && var e, v := r.executions[(t.run, t.attempt)], r.validations[(t.run, t.round)];
    && v.plan == t.plan && v.attempt == t.attempt
    && e.permit in r.permits && PermitOf(r, t, e.permit)
    && var permit := r.permits[e.permit];
    && permit.cycle == c.key
    && ExecutionProven(c, e) && ValidationProven(c, v)
    && ResultFound(r, t, e, v) && ApprovalNames(r, c, t, e, v)
    && var res := r.results[(t.run, v.id)];
    && var a := r.approvals[res.id];
    && res.cycle == c.key && res.postedComment > 0
    && a.mode == permit.mode
    && (if a.mode == AUTO then
          a.event == None && a.approvedBy == AUTO_POLICY && permit.approvedBy == AUTO_POLICY &&
          StartsWith(permit.approvalEvent, AUTO_PLAN)
        else a.event.Some? && a.event.value != "")
  }

  function MaterialOf(r: Rows, c: Cycle, t: Task): Material
    requires t.plan in r.plans && (t.run, t.attempt) in r.executions && (t.run, t.round) in r.validations
  {
    var e, v := r.executions[(t.run, t.attempt)], r.validations[(t.run, t.round)];
    Material(c.cycleId, c.key, c.kind, c.revision, t.taskId, t.index, t.plan, r.plans[t.plan].text, e.id, e.summary, v.id, v.summary)
  }

  predicate MayBeAccepted(r: Rows, c: Cycle) {
    && c.status in {AWAITING_PUBLICATION, PUBLISHED}
    && SpecMatches(c)
    && c.key in r.tasks && |r.tasks[c.key]| == |c.spec.value.tasks|
  }

  /** The tasks from `i` on, accepted one by one. */
  function AcceptedFrom(r: Rows, c: Cycle, tasks: seq<Task>, declared: seq<Declaration>, i: nat): Option<seq<Material>>
    requires |tasks| == |declared| && i <= |tasks|
    decreases |tasks| - i
  {
    if i == |tasks| then Some([])
    else if !AcceptedTask(r, c, tasks[i], declared[i], i) then None
    else match AcceptedFrom(r, c, tasks, declared, i + 1)
      case None => None
      case Some(rest) => Some([MaterialOf(r, c, tasks[i])] + rest)
  }

  /** `_accepted_cycle_material`. */
  function Accepted(r: Rows, c: Cycle): Option<seq<Material>> {
    if !MayBeAccepted(r, c) then None
    else AcceptedFrom(r, c, r.tasks[c.key], c.spec.value.tasks, 0)
  }

  // ------------------------------------------------------------------ strict refines accepted

  /** What the strict proof leaves unsaid about the result it found: it belongs to the cycle and was posted, and the
      approving event has a key. */
  predicate ResultSound(r: Rows, c: Cycle, t: Task)
    requires (t.run, t.round) in r.validations
    requires (t.run, r.validations[(t.run, t.round)].id) in r.results
    requires r.results[(t.run, r.validations[(t.run, t.round)].id)].id in r.approvals
  {
    var res := r.results[(t.run, r.validations[(t.run, t.round)].id)];
    res.cycle == c.key && res.postedComment > 0 && r.approvals[res.id].event != Some("")
  }

  /** An execution row carries the attempt it is keyed by. */
  predicate ExecutionKeyed(r: Rows, t: Task) {
    (t.run, t.attempt) in r.executions ==> r.executions[(t.run, t.attempt)].attempt == t.attempt
  }

  /** A strictly proven task whose stored round is the latest one counts as accepted exactly when its result is sound. */
  lemma StrictTaskAccepted(r: Rows, c: Cycle, root: Event, t: Task, d: Declaration, index: nat, k: nat)
    requires StrictTask(r, c, root, t, d, index, k, t.round)
    requires ExecutionKeyed(r, t)
    ensures AcceptedTask(r, c, t, d, index) <==> ResultSound(r, c, t)
  {
  }

  /** Row facts of a whole cycle that the strict proof does not check itself. */
  ghost predicate Implied(r: Rows, c: Cycle) {
    c.key in r.tasks &&
    forall i :: 0 <= i < |r.tasks[c.key]| ==>
      var t := r.tasks[c.key][i];
      ExecutionKeyed(r, t) && TaskResultSound(r, c, t)
  }

  /** The stored round is the latest validation of the run, and its result is sound. */
  ghost predicate TaskResultSound(r: Rows, c: Cycle, t: Task) {
    && (forall n :: (t.run, n) in r.validations ==> n <= t.round)
    && (t.run, t.round) in r.validations
    && ((t.run, r.validations[(t.run, t.round)].id) in r.results ==>
         var res := r.results[(t.run, r.validations[(t.run, t.round)].id)];
         res.cycle == c.key && res.postedComment > 0 && (res.id in r.approvals ==> r.approvals[res.id].event != Some("")))
  }

  lemma {:induction false} AllAccepted(r: Rows, c: Cycle, tasks: seq<Task>, declared: seq<Declaration>, i: nat)
    requires |tasks| == |declared| && i <= |tasks|
    ensures AcceptedFrom(r, c, tasks, declared, i).Some? <==>
      forall j :: i <= j < |tasks| ==> AcceptedTask(r, c, tasks[j], declared[j], j)
    ensures AcceptedFrom(r, c, tasks, declared, i).Some? ==>
      var m := AcceptedFrom(r, c, tasks, declared, i).value;
      |m| == |tasks| - i && forall j :: 0 <= j < |m| ==> m[j].taskId == tasks[i + j].taskId && m[j].index == i + j && m[j].cycleId == c.cycleId
    decreases |tasks| - i
  {
    if i < |tasks| {
      if AcceptedTask(r, c, tasks[i], declared[i], i) { AcceptedIsDone(r, c, tasks[i], declared[i], i); }
      hide AcceptedTask;
      AllAccepted(r, c, tasks, declared, i + 1);
    }
  }

  lemma StrictLatest(r: Rows, c: Cycle, root: Event, t: Task, d: Declaration, index: nat, k: nat, round: nat)
    requires StrictTask(r, c, root, t, d, index, k, round) && TaskResultSound(r, c, t) && ExecutionKeyed(r, t)
    ensures AcceptedTask(r, c, t, d, index)
  {
    StrictTaskAccepted(r, c, root, t, d, index, k);
  }

  /** One record per declared task, in declaration order. */
  predicate PerDeclaration(m: seq<Material>, declared: seq<Declaration>) {
    |m| == |declared| && forall i :: 0 <= i < |m| ==> Some(m[i].taskId) == declared[i].id && m[i].index == i
  }

  /** Strict eligibility refines acceptance: a cycle the publisher may act for has accepted material, one record per
      declared task in declaration order, given the row facts the strict proof leaves implicit. */
  lemma EligibleIsAccepted(r: Rows, c: Cycle)
    requires StrictlyEligible(r, c) && Implied(r, c)
    ensures match Accepted(r, c)
            case None => false
            case Some(m) => c.spec.Some? && PerDeclaration(m, c.spec.value.tasks)
  {
    EachTaskAccepted(r, c);
    hide StrictlyEligible, Implied, AcceptedTask, AcceptedFrom;
    AllAccepted(r, c, r.tasks[c.key], c.spec.value.tasks, 0);
  }

  lemma EachTaskAccepted(r: Rows, c: Cycle)
    requires StrictlyEligible(r, c) && Implied(r, c)
    ensures MayBeAccepted(r, c)
    ensures forall i :: 0 <= i < |r.tasks[c.key]| ==>
      AcceptedTask(r, c, r.tasks[c.key][i], c.spec.value.tasks[i], i) && Some(r.tasks[c.key][i].taskId) == c.spec.value.tasks[i].id
  {
    var tasks, declared, root := r.tasks[c.key], c.spec.value.tasks, r.roots[c.root];
    hide StrictTask, AcceptedTask, ExecutionKeyed, TaskResultSound;
    forall i | 0 <= i < |tasks| ensures AcceptedTask(r, c, tasks[i], declared[i], i) && Some(tasks[i].taskId) == declared[i].id {
      assert Proven(r, c, root, tasks[i], declared[i], i);
      var k, round :| StrictTask(r, c, root, tasks[i], declared[i], i, k, round);
      StrictLatest(r, c, root, tasks[i], declared[i], i, k, round);
      AcceptedIsDone(r, c, tasks[i], declared[i], i);
    }
  }

  lemma AcceptedIsDone(r: Rows, c: Cycle, t: Task, d: Declaration, i: nat)
    requires AcceptedTask(r, c, t, d, i)
    ensures Some(t.taskId) == d.id && t.index == i
  {
  }

  // ------------------------------------------------------------------ finalization

  /** The declarative branch of `finalize_publication`: this cycle and every earlier one still waiting become PUBLISHED. */
  function Finalized(r: Rows, c: Cycle): Rows {
    r.(cycles := map n | n in r.cycles ::
      if n <= c.cycleId && r.cycles[n].status == AWAITING_PUBLICATION then r.cycles[n].(status := PUBLISHED) else r.cycles[n])
  }

  /** Finalization takes no accepted material away: what was accepted before reads the same after. */
  lemma FinalizationKeepsMaterial(r: Rows, c: Cycle, n: nat)
    requires n in r.cycles
    ensures Accepted(Finalized(r, c), Finalized(r, c).cycles[n]) == Accepted(r, r.cycles[n])
  {
    var d, x, y := Finalized(r, c), r.cycles[n], Finalized(r, c).cycles[n];
    if MayBeAccepted(r, x) { SameMaterial(r, d, x, y, r.tasks[x.key], x.spec.value.tasks, 0); }
  }

  /** The material proof reads a cycle's status only to admit it. */
  lemma {:induction false} SameMaterial(
    r: Rows, d: Rows, x: Cycle, y: Cycle, tasks: seq<Task>, declared: seq<Declaration>, i: nat)
    requires d == r.(cycles := d.cycles) && y == x.(status := y.status)
    requires |tasks| == |declared| && i <= |tasks|
    ensures AcceptedFrom(d, y, tasks, declared, i) == AcceptedFrom(r, x, tasks, declared, i)
    decreases |tasks| - i
  {
    hide AcceptedTask, MaterialOf;
    if i < |tasks| {
      SameTask(r, d, x, y, tasks[i], declared[i], i);
      SameMaterial(r, d, x, y, tasks, declared, i + 1);
    }
  }

  lemma SameTask(r: Rows, d: Rows, x: Cycle, y: Cycle, t: Task, declaration: Declaration, i: nat)
    requires d == r.(cycles := d.cycles) && y == x.(status := y.status)
    ensures AcceptedTask(d, y, t, declaration, i) == AcceptedTask(r, x, t, declaration, i)
    ensures AcceptedTask(r, x, t, declaration, i) ==> MaterialOf(d, y, t) == MaterialOf(r, x, t)
  {
  }

  /** So an eligible cycle is accepted before and after it is finalized. */
  lemma EligibleStaysAccepted(r: Rows, c: Cycle)
    requires StrictlyEligible(r, c) && Implied(r, c)
    ensures Accepted(r, c).Some?
    ensures c.cycleId in Finalized(r, c).cycles && Finalized(r, c).cycles[c.cycleId].status == PUBLISHED
    ensures Accepted(Finalized(r, c), Finalized(r, c).cycles[c.cycleId]) == Accepted(r, c)
  {
    EligibleIsAccepted(r, c);
    hide StrictTasks, Implied;
    FinalizationKeepsMaterial(r, c, c.cycleId);
  }

  // ------------------------------------------------------------------ the loops

  method AcceptedCycleMaterial(r: Rows, c: Cycle) returns (material: Option<seq<Material>>)
    ensures material == Accepted(r, c)
  {
    if !MayBeAccepted(r, c) { return None; }
    var tasks, declared := r.tasks[c.key], c.spec.value.tasks;
    var accepted: seq<Material> := [];
    var index := 0;
    hide AcceptedTask, MaterialOf;
    Unit(r, c, tasks, declared);
    while index < |tasks|
      invariant 0 <= index <= |tasks|
      invariant match AcceptedFrom(r, c, tasks, declared, index)
                case None => Accepted(r, c) == None
                case Some(rest) => Accepted(r, c) == Some(accepted + rest)
    {
      var task := tasks[index];
      if !AcceptedTask(r, c, task, declared[index], index) { return None; }
      accepted := Extend(r, c, tasks, declared, index, accepted);
      index := index + 1;
    }
    assert accepted + [] == accepted;
    return Some(accepted);
  }

  lemma Unit(r: Rows, c: Cycle, tasks: seq<Task>, declared: seq<Declaration>)
    requires |tasks| == |declared|
    ensures match AcceptedFrom(r, c, tasks, declared, 0) case None => true case Some(rest) => [] + rest == rest
  {
  }

  method Extend(r: Rows, c: Cycle, tasks: seq<Task>, declared: seq<Declaration>, index: nat, accepted: seq<Material>)
    returns (more: seq<Material>)
    requires |tasks| == |declared| && index < |tasks| && AcceptedTask(r, c, tasks[index], declared[index], index)
    ensures match AcceptedFrom(r, c, tasks, declared, index + 1)
            case None => AcceptedFrom(r, c, tasks, declared, index) == None
            case Some(rest) =>
              AcceptedFrom(r, c, tasks, declared, index).Some? &&
              accepted + AcceptedFrom(r, c, tasks, declared, index).value == more + rest
  {
    more := accepted + [MaterialOf(r, c, tasks[index])];
  }
}
