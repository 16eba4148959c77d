/** Human-input routing of one thread: the disposition every event gets at most once, the revision inbox, the claims that
    bind an answer to one occurrence, and the life of the initial workflow. */
module Inputs {
  import opened Prelude

  /** Event keys and clock readings as ordered numbers. A workflow cycle is named by its place in cycle order. */
  type Key = nat
  type Time = int
  type CycleId = nat

  datatype Body = APPROVAL | INVOCATION | MENTION | TALK
  datatype Event = Event(key: Key, issue: bool, body: Body)

  datatype Purpose = CLARIFICATION_ROUTED | CLARIFICATION_RESPONSE | PLANNING_INPUT | PLAN_APPROVAL | STALE_PLAN_APPROVAL | CYCLE_ROOT
  datatype Disposition = Disposition(
    cycle: nat, purpose: Purpose, status: string, claimedAt: Time, consumedAt: Option<Time>, occurrence: Option<string>)

  /** The two derivations of a revision input id: from an event, and from a deferred follow-up of an event. */
  datatype InputId = ForEvent(key: Key) | ForResidual(key: Key, text: string)
  datatype InputStatus = PENDING | BATCHED | CONSUMED
  datatype Reason = UNSOLICITED_STEERING | DEFERRED_FEEDBACK(kind: string) | CLARIFICATION_RESIDUAL
  datatype Input = Input(
    event: Key, residual: Option<string>, reason: Reason, status: InputStatus, queuedAt: Time, cycle: Option<CycleId>)

  datatype CycleKind = INITIAL | REVISION
  datatype CycleStatus = ACTIVE | AWAITING_PUBLICATION | PUBLISHED | FAILED
  datatype Cycle = Cycle(number: nat, kind: CycleKind, status: CycleStatus)

  datatype InitialState = NotStarted | Active | Complete | Published
  datatype Lifecycle = Lifecycle(state: InitialState, root: Key, cycle: Option<CycleId>, digest: Option<string>)

  datatype ReviewStatus = REVIEWING | DEFERRED_WAITING
  datatype Review = Review(kind: string, occurrence: string, status: ReviewStatus)

  /** `legacy`: the thread has a workflow-state row. `awaited`: the events that answer the open interaction, as the
      controller's task rows have it. `acknowledged`: events with an acknowledgement in the comment outbox. */
  datatype Inbox = Inbox(
    events: seq<Event>, lifecycle: Option<Lifecycle>, legacy: bool, cycles: seq<Cycle>, awaited: set<Key>,
    dispositions: map<Key, Disposition>, inputs: map<InputId, Input>, reviews: map<Key, Review>, acknowledged: set<Key>)

  function InsertOrIgnore<K, V>(m: map<K, V>, k: K, v: V): map<K, V> { if k in m then m else m[k := v] }

  // ------------------------------------------------------------------ classification

  datatype Kind =
    | INITIAL_ROOT | IGNORED | PENDING_INITIAL_SELECTION | LEGACY_WORKFLOW_INPUT | EXPECTED_RESPONSE | STALE_APPROVAL | REVISION_QUEUED

  predicate StartsWithInvocation(e: Event) { e.body in {APPROVAL, INVOCATION} }

  predicate Actionable(e: Event) { if e.issue then e.body != TALK else StartsWithInvocation(e) }

  function LatestCycleId(s: Inbox): nat { if s.cycles == [] then 0 else s.cycles[|s.cycles| - 1].number }

  function KindOf(s: Inbox, e: Event): Kind
    requires s.lifecycle.Some?
  {
    var lifecycle := s.lifecycle.value;
    if e.key == lifecycle.root then INITIAL_ROOT
    else if !Actionable(e) then IGNORED
    else if lifecycle.state == NotStarted && s.cycles == [] && !s.legacy then PENDING_INITIAL_SELECTION
    else if s.cycles == [] && s.legacy then LEGACY_WORKFLOW_INPUT
    else if StartsWithInvocation(e) && e.key in s.awaited then EXPECTED_RESPONSE
    else if e.body == APPROVAL then STALE_APPROVAL
    else REVISION_QUEUED
  }

  function Routed(s: Inbox, k: Key, status: string, at: Time): map<Key, Disposition> {
    InsertOrIgnore(s.dispositions, k, Disposition(LatestCycleId(s), CLARIFICATION_ROUTED, status, at, Some(at), None))
  }

  function Queued(s: Inbox, id: InputId, residual: Option<string>, reason: Reason, at: Time): map<InputId, Input> {
    InsertOrIgnore(s.inputs, id, Input(id.key, residual, reason, PENDING, at, None))
  }

  /** What `_classify_revision_input` writes for an event of the given kind. */
  function Classified(s: Inbox, e: Event, kind: Kind, at: Time): Inbox {
    match kind
    case STALE_APPROVAL => s.(dispositions := Routed(s, e.key, "STALE_APPROVAL", at))
    case REVISION_QUEUED =>
      s.(dispositions := Routed(s, e.key, "REVISION_QUEUED", at),
         inputs := Queued(s, ForEvent(e.key), None, UNSOLICITED_STEERING, at),
         acknowledged := s.acknowledged + {e.key})
    case _ => s
  }

  /** The events without a disposition, in order. */
  function Unmatched(events: seq<Event>, dispositions: map<Key, Disposition>): (rows: seq<Event>)
    ensures forall e :: e in rows <==> e in events && e.key !in dispositions
  {
    if events == [] then []
    else
      var last := events[|events| - 1];
      Unmatched(events[..|events| - 1], dispositions) + (if last.key in dispositions then [] else [last])
  }

  datatype Routing = Routing(inbox: Inbox, routed: seq<Key>)

  function RouteAll(s: Inbox, rows: seq<Event>, at: Time): Routing
    requires s.lifecycle.Some?
  {
    if rows == [] then Routing(s, [])
    else
      var last, before := rows[|rows| - 1], RouteAll(s, rows[..|rows| - 1], at);
      var kind := KindOf(s, last);
      Routing(Classified(before.inbox, last, kind, at), before.routed + (if kind == REVISION_QUEUED then [last.key] else []))
  }

  /** `route_unmatched_inputs`; None when an event has no lifecycle. */
  function Route(s: Inbox, at: Time): Option<Routing> {
    var rows := Unmatched(s.events, s.dispositions);
    if rows == [] then Some(Routing(s, []))
    else if s.lifecycle.None? then None
    else Some(RouteAll(s, rows, at))
  }

  // ------------------------------------------------------------------ the revision inbox

  predicate Pending(s: Inbox, id: InputId) { id in s.inputs && s.inputs[id].status == PENDING }

  function Bind(s: Inbox, ids: set<InputId>, c: CycleId): map<InputId, Input> {
    map id | id in s.inputs ::
      if id in ids && s.inputs[id].status == PENDING then s.inputs[id].(status := BATCHED, cycle := Some(c)) else s.inputs[id]
  }

  predicate ActiveRevision(s: Inbox, c: CycleId) {
    c < |s.cycles| && s.cycles[c].kind == REVISION && s.cycles[c].status == ACTIVE
  }

  /** `batch_revision_inputs`: all pending inputs, or a selected batch that is taken whole or refused. */
  function Batch(s: Inbox, c: CycleId, selected: Option<seq<InputId>>): Option<Inbox> {
    if !ActiveRevision(s, c) then None
    else match selected
      case None => Some(s.(inputs := Bind(s, s.inputs.Keys, c)))
      case Some(ids) =>
        if forall i :: 0 <= i < |ids| ==> Pending(s, ids[i]) then Some(s.(inputs := Bind(s, (set id | id in ids), c))) else None
  }

  function Consume(s: Inbox, c: CycleId): Inbox {
    s.(inputs := map id | id in s.inputs ::
      if s.inputs[id].status == BATCHED && s.inputs[id].cycle == Some(c) then s.inputs[id].(status := CONSUMED) else s.inputs[id])
  }

  // ------------------------------------------------------------------ dispositions and claims

  /** `claim_input_for_resume`: the row may be there already; the caller is told to stop unless it is this very binding. */
  function ClaimRow(s: Inbox, k: Key, cycle: nat, status: string, occurrence: string, at: Time): Inbox {
    s.(dispositions := InsertOrIgnore(s.dispositions, k, Disposition(cycle, CLARIFICATION_ROUTED, status, at, None, Some(occurrence))))
  }

  predicate ClaimHolds(s: Inbox, k: Key, status: string, occurrence: string) {
    k in s.dispositions && s.dispositions[k].occurrence == Some(occurrence) && s.dispositions[k].status == status
  }

  predicate Unfinished(dispositions: map<Key, Disposition>, k: Key) {
    k in dispositions && dispositions[k].consumedAt.None? && dispositions[k].occurrence.Some?
  }

  /** `finish_input_resume`: only a row not yet consumed changes, and only in its outcome. */
  function Finish(dispositions: map<Key, Disposition>, k: Key, at: Time, status: Option<string>): map<Key, Disposition> {
    if k in dispositions && dispositions[k].consumedAt.None? then
      dispositions[k := dispositions[k].(consumedAt := Some(at), status := status.GetOr(dispositions[k].status))]
    else dispositions
  }

  // ------------------------------------------------------------------ steps

  datatype Label =
    | Ingest(event: Event, at: Time)
    | RouteInputs(at: Time)
    | BeginFeedback(key: Key, cycle: nat, feedback: string, occurrence: string, open: bool, at: Time)
    | DeferFeedback(key: Key, exact: bool, at: Time)
    | DeferFollowup(key: Key, residual: Option<string>, cycle: nat, disposition: Option<string>, at: Time)
    | BatchInputs(target: CycleId, selected: Option<seq<InputId>>)
    | ConsumeInputs(target: CycleId)
    | Dispose(key: Key, cycle: nat, purpose: Purpose, status: string, once: bool, at: Time)
    | Claim(key: Key, cycle: nat, status: string, occurrence: string, at: Time)
    | FinishResume(key: Key, outcome: Option<string>, at: Time)
    | Activate(target: CycleId, digest: string)
    | CompleteInitial(target: CycleId)
    | Finalize(target: CycleId, proven: bool)
    | BeginCycle(kind: CycleKind, number: nat)
    | MoveCycle(target: CycleId, moved: CycleStatus)
    | Await(keys: set<Key>)
    | StartLegacy

  predicate NothingPending(s: Inbox) { forall id :: id in s.inputs ==> s.inputs[id].status != PENDING }

  /** The declarative part of `finalize_publication`; `proven` is the rest of the eligibility proof. */
  function Finalized(s: Inbox, c: CycleId, proven: bool): Option<Inbox> {
    if proven && NothingPending(s) && c + 1 == |s.cycles| && s.cycles[c].status == AWAITING_PUBLICATION
      && s.lifecycle.Some? && s.lifecycle.value.state in {Complete, Published}
    then
      Some(s.(lifecycle := Some(s.lifecycle.value.(state := Published)), cycles := Closed(s.cycles)))
    else None
  }

  function Closed(cycles: seq<Cycle>): (closed: seq<Cycle>)
    ensures |closed| == |cycles|
    ensures forall i :: 0 <= i < |cycles| ==>
      closed[i] == if cycles[i].status == AWAITING_PUBLICATION then cycles[i].(status := PUBLISHED) else cycles[i]
  {
    if cycles == [] then []
    else
      var n, last := |cycles| - 1, cycles[|cycles| - 1];
      Closed(cycles[..n]) + [if last.status == AWAITING_PUBLICATION then last.(status := PUBLISHED) else last]
  }

  function Activated(l: Lifecycle, c: CycleId, digest: string): Option<Lifecycle> {
    if l.state == NotStarted then Some(l.(state := Active, cycle := Some(c), digest := Some(digest)))
    else if l.cycle == Some(c) && l.digest == Some(digest) then Some(l)
    else None
  }

  function Completed(l: Lifecycle, c: CycleId): Option<Lifecycle> {
    if l.state == Active && l.cycle == Some(c) then Some(l.(state := Complete))
    else if l.state in {Complete, Published} then Some(l)
    else None
  }

  predicate HasEvent(s: Inbox, k: Key) { exists i :: 0 <= i < |s.events| && s.events[i].key == k }

  function Ingested(s: Inbox, e: Event, at: Time): Inbox {
    if HasEvent(s, e.key) then s
    else
      var t := s.(events := s.events + [e], lifecycle := Some(s.lifecycle.GetOr(Lifecycle(NotStarted, e.key, None, None))));
      Classified(t, e, KindOf(t, e), at)
  }

  /** One guarded operation or controller step; None when it raises and so leaves everything as it was. */
  function Step(s: Inbox, l: Label): Option<Inbox> {
    match l
    case Ingest(e, at) => Some(Ingested(s, e, at))
    case RouteInputs(at) => (match Route(s, at) case None => None case Some(r) => Some(r.inbox))
    case BeginFeedback(k, cycle, kind, occurrence, open, at) =>
      if k in s.reviews then (if s.reviews[k].kind == kind && s.reviews[k].occurrence == occurrence then Some(s) else None)
      else if !open || !HasEvent(s, k) || k in s.dispositions then None
      else Some(s.(reviews := s.reviews[k := Review(kind, occurrence, REVIEWING)],
        dispositions := s.dispositions[k := Disposition(cycle, CLARIFICATION_ROUTED, kind + "_FEEDBACK_REVIEW", at, Some(at), None)]))
    case DeferFeedback(k, exact, at) =>
      if k !in s.reviews then None
      else if s.reviews[k].status == DEFERRED_WAITING then Some(s)
      else if !exact then None
      else Some(s.(reviews := s.reviews[k := s.reviews[k].(status := DEFERRED_WAITING)],
        inputs := Queued(s, ForEvent(k), None, DEFERRED_FEEDBACK(s.reviews[k].kind), at)))
    case DeferFollowup(k, residual, cycle, status, at) =>
      Some(s.(inputs := Queued(s, ForResidual(k, residual.GetOr("")), residual, CLARIFICATION_RESIDUAL, at),
        dispositions := if status.None? then s.dispositions
          else InsertOrIgnore(s.dispositions, k, Disposition(cycle, CLARIFICATION_ROUTED, status.value, at, Some(at), None))))
    case BatchInputs(c, selected) => Batch(s, c, selected)
    case ConsumeInputs(c) => Some(Consume(s, c))
    case Dispose(k, cycle, purpose, status, once, at) =>
      if once && k in s.dispositions then None
      else Some(s.(dispositions := InsertOrIgnore(s.dispositions, k, Disposition(cycle, purpose, status, at, Some(at), None))))
    case Claim(k, cycle, status, occurrence, at) => Some(ClaimRow(s, k, cycle, status, occurrence, at))
    case FinishResume(k, outcome, at) => Some(s.(dispositions := Finish(s.dispositions, k, at, outcome)))
    case Activate(c, digest) => WithLifecycle(s, if s.lifecycle.None? then None else Activated(s.lifecycle.value, c, digest))
    case CompleteInitial(c) => WithLifecycle(s, if s.lifecycle.None? then None else Completed(s.lifecycle.value, c))
    case Finalize(c, proven) => Finalized(s, c, proven)
    case BeginCycle(kind, number) => Some(s.(cycles := s.cycles + [Cycle(number, kind, ACTIVE)]))
    case MoveCycle(c, status) =>
      if c < |s.cycles| && s.cycles[c].status != PUBLISHED && status != PUBLISHED
      then Some(s.(cycles := s.cycles[c := s.cycles[c].(status := status)])) else None
    case Await(keys) => Some(s.(awaited := keys))
    case StartLegacy => Some(s.(legacy := true))
  }

  function WithLifecycle(s: Inbox, l: Option<Lifecycle>): Option<Inbox> {
    if l.None? then None else Some(s.(lifecycle := l))
  }

  const NEW_THREAD := Inbox([], None, false, [], {}, map[], map[], map[], {})

  function Play(s: Inbox, run: seq<Label>): Inbox
    decreases |run|
  {
    if run == [] then s else Play(Step(s, run[0]).GetOr(s), run[1..])
  }
}
