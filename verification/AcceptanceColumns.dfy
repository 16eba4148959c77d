/** The two acceptance proofs, column by column: what every row of an accepted task says, and what its record carries. */
module AcceptanceColumns {
  import opened Prelude
  import opened Acceptance

  /** The declared workflow is the document the cycle was started with, and names at least one task. */
  predicate Declares(c: Cycle) {
    c.spec.Some? && c.spec.value.workflowId == c.workflowId && c.spec.value.version == c.version
    && c.digest == OfSpec(c.spec.value) && |c.spec.value.tasks| > 0
  }

  /** A task run is the declared one, in its place, done in both columns, and nothing is asked or waited for. */
  predicate RunDone(c: Cycle, t: Task, d: Declaration, i: nat) {
    && t.dependencies.Some? && t.dependencies.value == d.dependsOn && t.index == i
    && d.id.Some? && d.id.value == t.taskId && t.cycleId == c.cycleId && t.workflowId == c.workflowId
    && t.done && t.doneInPhase && |t.plan| > 0 && !t.waiting && !t.asked
  }

  /** The plan belongs to its task: posted, unaltered since, and approved by somebody through some event. */
  predicate PlanApproved(r: Rows, c: Cycle, t: Task) {
    && t.plan in r.plans
    && var p := r.plans[t.plan];
    && p.run == t.run && p.cycle == c.key && p.taskId == t.taskId && p.version > 0 && p.digest == OfPlan(p.text)
    && p.postedComment > 0 && p.approved && p.approvedAt != None && |p.approvedBy| > 0 && |p.approvalEvent| > 0
  }

  /** The execution succeeded on that plan with parsed evidence. */
  predicate Executed(c: Cycle, t: Task, e: Execution) {
    && e.plan == t.plan && e.cycle == c.key && e.succeeded
    && e.evidence.Some? && e.evidence.value.isObject && e.evidence.value.list != None
  }

  /** The validation said ACCEPT, on that plan, with at least one thing it ran. */
  predicate Validated(c: Cycle, t: Task, v: Validation) {
    && v.plan == t.plan && v.cycle == c.key && v.accept
    && v.evidence.Some? && v.evidence.value.isObject && v.evidence.value.list.Some? && v.evidence.value.list.value >= 1
  }

  /** The permit is not withdrawn and names exactly this version and text of the plan. */
  predicate PermitStands(r: Rows, t: Task, k: nat)
    requires t.plan in r.plans
  {
    && k in r.permits && !r.permits[k].invalidated && r.permits[k].run == t.run && r.permits[k].plan == t.plan
    && r.permits[k].version == r.plans[t.plan].version && r.permits[k].digest == r.plans[t.plan].digest
  }

  /** The result was presented for this execution and validation, and an approval that is not withdrawn names all three. */
  predicate ResultApproved(r: Rows, c: Cycle, t: Task, e: Execution, v: Validation) {
    && (t.run, v.id) in r.results
    && var res := r.results[(t.run, v.id)];
    && res.plan == t.plan && res.execution == e.id && !(PLAN_APPROVAL <= res.occurrence)
    && res.id in r.approvals
    && var a := r.approvals[res.id];
    && !a.invalidated && a.run == t.run && a.cycle == c.key && a.plan == t.plan && a.execution == e.id && a.validation == v.id
    && a.occurrence == res.occurrence
  }

  // ------------------------------------------------------------------ the material proof

  /** One task run of an accepted cycle. */
  predicate TaskColumns(r: Rows, c: Cycle, t: Task, d: Declaration, i: nat) {
    && RunDone(c, t, d, i) && PlanApproved(r, c, t)
    && (t.run, t.attempt) in r.executions && (t.run, t.round) in r.validations
    && var e, v := r.executions[(t.run, t.attempt)], r.validations[(t.run, t.round)];
    && Executed(c, t, e) && Validated(c, t, v) && v.attempt == t.attempt
    && PermitStands(r, t, e.permit) && r.permits[e.permit].cycle == c.key
    && ResultApproved(r, c, t, e, v)
    && var res, permit := r.results[(t.run, v.id)], r.permits[e.permit];
    && var a := r.approvals[res.id];
    && res.cycle == c.key && res.postedComment > 0 && a.mode == permit.mode
    && match a.mode
       case HUMAN => a.event.Some? && |a.event.value| > 0
       case AUTO =>
         a.event.None? && a.approvedBy == AUTO_POLICY && permit.approvedBy == AUTO_POLICY && AUTO_PLAN <= permit.approvalEvent
  }

  ghost predicate CycleColumns(r: Rows, c: Cycle) {
    && (c.status == AWAITING_PUBLICATION || c.status == PUBLISHED) && Declares(c)
    && c.key in r.tasks && |r.tasks[c.key]| == |c.spec.value.tasks|
    && forall i :: 0 <= i < |r.tasks[c.key]| ==> TaskColumns(r, c, r.tasks[c.key][i], c.spec.value.tasks[i], i)
  }

  /** The record of a task names its cycle and plan, and carries the plan's text and the two summaries, each in its field. */
  predicate Records(r: Rows, c: Cycle, t: Task, m: Material) {
    && m.cycleId == c.cycleId && m.cycle == c.key && m.kind == c.kind && m.revision == c.revision
    && m.taskId == t.taskId && m.index == t.index && m.plan == t.plan
    && t.plan in r.plans && m.planText == r.plans[t.plan].text
    && (t.run, t.attempt) in r.executions && (t.run, t.round) in r.validations
    && m.execution == r.executions[(t.run, t.attempt)].id && m.executionSummary == r.executions[(t.run, t.attempt)].summary
    && m.validation == r.validations[(t.run, t.round)].id && m.validationSummary == r.validations[(t.run, t.round)].summary
  }

  lemma TaskExactly(r: Rows, c: Cycle, t: Task, d: Declaration, i: nat)
    ensures AcceptedTask(r, c, t, d, i) <==> TaskColumns(r, c, t, d, i)
  {
  }

  /** A cycle has accepted material exactly when its columns say so for every declared task, and the material is one record
      per task, in order. */
  lemma AcceptedExactly(r: Rows, c: Cycle)
    ensures Accepted(r, c).Some? <==> CycleColumns(r, c)
    ensures match Accepted(r, c)
            case None => true
            case Some(m) =>
              c.key in r.tasks && |m| == |r.tasks[c.key]| && forall i :: 0 <= i < |m| ==> Records(r, c, r.tasks[c.key][i], m[i])
  {
    if MayBeAccepted(r, c) {
      var tasks, declared := r.tasks[c.key], c.spec.value.tasks;
      AllAccepted(r, c, tasks, declared, 0);
      RecordsFrom(r, c, tasks, declared, 0);
      forall i | 0 <= i < |tasks| ensures AcceptedTask(r, c, tasks[i], declared[i], i) <==> TaskColumns(r, c, tasks[i], declared[i], i) {
        TaskExactly(r, c, tasks[i], declared[i], i);
      }
    }
    hide AcceptedTask, TaskColumns, AcceptedFrom, Records;
  }

  lemma {:induction false} RecordsFrom(r: Rows, c: Cycle, tasks: seq<Task>, declared: seq<Declaration>, i: nat)
    requires |tasks| == |declared| && i <= |tasks|
    ensures match AcceptedFrom(r, c, tasks, declared, i)
            case None => true
            case Some(m) => |m| == |tasks| - i && forall j :: 0 <= j < |m| ==> Records(r, c, tasks[i + j], m[j])
    decreases |tasks| - i
  {
    if i < |tasks| && AcceptedTask(r, c, tasks[i], declared[i], i) {
      RecordsFrom(r, c, tasks, declared, i + 1);
      assert Records(r, c, tasks[i], MaterialOf(r, c, tasks[i]));
      hide AcceptedTask, Records, MaterialOf;
    }
  }

  // ------------------------------------------------------------------ the strict proof

  /** A human approved at that time, after what is approved was posted, in the conversation of the cycle's root. */
  predicate ByHuman(r: Rows, root: Event, key: string, author: string, at: Time, after: Time) {
    && key in r.events
    && var e := r.events[key];
    && e.exactApproval && e.author == author && e.createdAt == at && after < at
    && e.surface == root.surface && e.subject == root.subject && (!root.inlineReview || e.reviewRoot == root.reviewRoot)
  }

  /** One task run of an eligible cycle: `k` is its newest standing permit, `round` its latest validation. */
  ghost predicate StrictColumns(r: Rows, c: Cycle, root: Event, t: Task, d: Declaration, i: nat, k: nat, round: nat) {
    && RunDone(c, t, d, i) && PlanApproved(r, c, t)
    && (t.run, t.attempt) in r.executions && (t.run, round) in r.validations
    && (forall n :: (t.run, n) in r.validations ==> n <= round)
    && var p, e, v := r.plans[t.plan], r.executions[(t.run, t.attempt)], r.validations[(t.run, round)];
    && Executed(c, t, e) && Validated(c, t, v) && v.attempt == e.attempt
    && PermitStands(r, t, k) && e.permit == k && (forall j :: PermitStands(r, t, j) ==> r.permits[j].createdAt <= r.permits[k].createdAt)
    && var permit := r.permits[k];
    && permit.cycle == c.key && permit.approvalEvent == p.approvalEvent && permit.approvedBy == p.approvedBy
    && ResultApproved(r, c, t, e, v)
    && var res := r.results[(t.run, v.id)];
    && var a := r.approvals[res.id];
    && if r.auto then
         && permit.mode == AUTO && a.mode == AUTO && permit.approvedBy == AUTO_POLICY && a.approvedBy == AUTO_POLICY
         && AUTO_PLAN <= permit.approvalEvent && a.event.None?
       else
         && permit.mode == HUMAN && a.mode == HUMAN
         && ByHuman(r, root, p.approvalEvent, p.approvedBy, p.approvedAt.value, p.postedAt)
         && a.event.Some? && ByHuman(r, root, a.event.value, a.approvedBy, a.approvedAt, res.postedAt)
  }

  lemma StrictTaskExactly(r: Rows, c: Cycle, root: Event, t: Task, d: Declaration, i: nat, k: nat, round: nat)
    ensures StrictTask(r, c, root, t, d, i, k, round) <==> StrictColumns(r, c, root, t, d, i, k, round)
  {
    if t.plan in r.plans { assert forall j :: PermitOf(r, t, j) <==> PermitStands(r, t, j); }
  }

  /** The cycle a publication may be made for: the latest one, waiting, with nothing active and nothing pending; its initial
      workflow done, its tasks declared under distinct names; and every task proven. */
  ghost predicate EligibleColumns(r: Rows, c: Cycle) {
    && c.status == AWAITING_PUBLICATION && c.active == None && !r.pendingRevision && r.hasWorkspace && r.initialDone
    && c.cycleId in r.cycles && r.cycles[c.cycleId] == c && (forall n :: n in r.cycles ==> n <= c.cycleId)
    && (c.kind == REVISION ==> c.specRef == r.initialKey && c.revision != None)
    && Declares(c)
    && (forall i :: 0 <= i < |c.spec.value.tasks| ==> c.spec.value.tasks[i].id != None)
    && (forall i, j :: 0 <= i < j < |c.spec.value.tasks| ==> c.spec.value.tasks[i].id != c.spec.value.tasks[j].id)
    && c.key in r.tasks && c.root in r.roots && EachProven(r, c, r.roots[c.root], r.tasks[c.key], c.spec.value.tasks)
  }

  ghost predicate EachProven(r: Rows, c: Cycle, root: Event, tasks: seq<Task>, declared: seq<Declaration>) {
    && |tasks| == |declared|
    && forall i :: 0 <= i < |tasks| ==> ProvenAt(r, c, root, tasks[i], declared[i], i)
  }

  lemma EachExactly(r: Rows, c: Cycle, root: Event, tasks: seq<Task>, declared: seq<Declaration>)
    ensures StrictTasks(r, c, root, tasks, declared) <==> EachProven(r, c, root, tasks, declared)
  {
    forall i | |tasks| == |declared| && 0 <= i < |tasks|
      ensures Proven(r, c, root, tasks[i], declared[i], i) <==> ProvenAt(r, c, root, tasks[i], declared[i], i)
    {
      OneExactly(r, c, root, tasks[i], declared[i], i);
    }
    hide Proven, ProvenAt;
  }

  lemma OneExactly(r: Rows, c: Cycle, root: Event, t: Task, d: Declaration, i: nat)
    ensures Proven(r, c, root, t, d, i) <==> ProvenAt(r, c, root, t, d, i)
  {
    forall k, round ensures StrictTask(r, c, root, t, d, i, k, round) <==> StrictColumns(r, c, root, t, d, i, k, round) {
      StrictTaskExactly(r, c, root, t, d, i, k, round);
    }
    hide StrictTask, StrictColumns;
  }

  ghost predicate ProvenAt(r: Rows, c: Cycle, root: Event, t: Task, d: Declaration, i: nat) {
    exists k, round :: StrictColumns(r, c, root, t, d, i, k, round)
  }

  /** A publication target exists for a cycle exactly when its columns say so. */
  lemma EligibleExactly(r: Rows, c: Cycle)
    ensures StrictlyEligible(r, c) <==> EligibleColumns(r, c)
  {
    if c.spec.Some? { DistinctIds(c.spec.value.tasks); }
    if c.key in r.tasks && c.root in r.roots && c.spec.Some? {
      EachExactly(r, c, r.roots[c.root], r.tasks[c.key], c.spec.value.tasks);
    }
    hide Distinct, StrictTasks, EachProven;
  }

  lemma DistinctIds(declared: seq<Declaration>)
    ensures Distinct(Ids(declared)) <==> forall i, j :: 0 <= i < j < |declared| ==> declared[i].id != declared[j].id
  {
    var ids := Ids(declared);
    assert forall i :: 0 <= i < |declared| ==> ids[i] == declared[i].id;
  }

  /** So every task of a cycle that may be published was executed and its latest validation said ACCEPT. */
  lemma EligibleIsValidated(r: Rows, c: Cycle, i: nat)
    requires StrictlyEligible(r, c) && c.key in r.tasks && i < |r.tasks[c.key]|
    ensures var t := r.tasks[c.key][i];
      && (t.run, t.attempt) in r.executions && r.executions[(t.run, t.attempt)].succeeded
      && exists round :: (t.run, round) in r.validations && r.validations[(t.run, round)].accept &&
           forall n :: (t.run, n) in r.validations ==> n <= round
  {
    EligibleExactly(r, c);
    hide StrictlyEligible;
    assert EachProven(r, c, r.roots[c.root], r.tasks[c.key], c.spec.value.tasks);
    assert ProvenAt(r, c, r.roots[c.root], r.tasks[c.key][i], c.spec.value.tasks[i], i);
    var k, round :| StrictColumns(r, c, r.roots[c.root], r.tasks[c.key][i], c.spec.value.tasks[i], i, k, round);
  }
}
