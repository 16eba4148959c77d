/** What every run keeps of the routed inputs: nothing is lost, bound twice or rebound, and claims drain in order. */
module InputsTheorems {
  import opened Prelude
  import opened Inputs

  // ------------------------------------------------------------------ what only grows

  function Rank(status: InputStatus): nat { match status case PENDING => 0 case BATCHED => 1 case CONSUMED => 2 }

  /** The same request, at most further along, and in the cycle it was in. */
  predicate Advanced(a: Input, b: Input) {
    && b.(status := a.status, cycle := a.cycle) == a
    && Rank(a.status) <= Rank(b.status)
    && (a.cycle.Some? ==> b.cycle == a.cycle)
  }

  ghost predicate InputsLater(m: map<InputId, Input>, n: map<InputId, Input>) {
    forall id :: id in m ==> id in n && Advanced(m[id], n[id])
  }

  /** The same binding; a settled row never changes again. */
  predicate SameBinding(a: Disposition, b: Disposition) {
    && b.(status := a.status, consumedAt := a.consumedAt) == a
    && (a.consumedAt.Some? ==> a == b)
    && (b.consumedAt.None? ==> a == b)
  }

  ghost predicate DispositionsLater(m: map<Key, Disposition>, n: map<Key, Disposition>) {
    forall k :: k in m ==> k in n && SameBinding(m[k], n[k])
  }

  function Stage(state: InitialState): nat {
    match state case NotStarted => 0 case Active => 1 case Complete => 2 case Published => 3
  }

  /** The initial workflow only moves on, from the same root, and after activation with the same cycle and digest. */
  predicate LifecycleLater(a: Option<Lifecycle>, b: Option<Lifecycle>) {
    a.Some? ==>
      && b.Some? && a.value.root == b.value.root
      && Stage(a.value.state) <= Stage(b.value.state)
      && (a.value.state != NotStarted ==> a.value.cycle == b.value.cycle && a.value.digest == b.value.digest)
  }

  ghost predicate CyclesLater(m: seq<Cycle>, n: seq<Cycle>) {
    |m| <= |n| && forall c :: 0 <= c < |m| ==> m[c].kind == n[c].kind && m[c].number == n[c].number
  }

  ghost predicate Later(s: Inbox, t: Inbox) {
    && InputsLater(s.inputs, t.inputs) && DispositionsLater(s.dispositions, t.dispositions)
    && LifecycleLater(s.lifecycle, t.lifecycle) && CyclesLater(s.cycles, t.cycles)
    && s.events <= t.events && s.acknowledged <= t.acknowledged
  }

  // ------------------------------------------------------------------ what always holds

  predicate InputSound(id: InputId, i: Input, cycles: seq<Cycle>) {
    && i.event == id.key
    && (i.status == PENDING <==> i.cycle.None?)
    && (i.cycle.Some? ==> i.cycle.value < |cycles| && cycles[i.cycle.value].kind == REVISION)
  }

  ghost predicate InputsSound(inputs: map<InputId, Input>, cycles: seq<Cycle>) {
    forall id :: id in inputs ==> InputSound(id, inputs[id], cycles)
  }

  /** A row that is not settled is a claim of one occurrence. */
  ghost predicate ClaimsBound(dispositions: map<Key, Disposition>) {
    forall k :: k in dispositions && dispositions[k].consumedAt.None? ==> dispositions[k].occurrence.Some?
  }

  /** An event queued for revision, or in feedback review, has left the unmatched events. */
  ghost predicate Dispatched(s: Inbox) {
    && (forall k :: ForEvent(k) in s.inputs ==> k in s.dispositions)
    && (forall k :: k in s.reviews ==> k in s.dispositions)
  }

  ghost predicate Inv(s: Inbox) {
    && InputsSound(s.inputs, s.cycles) && ClaimsBound(s.dispositions) && Dispatched(s)
    && LifecycleSound(s)
  }

  /** A thread with events has a lifecycle row, and that names its cycle once it is active. */
  predicate LifecycleSound(s: Inbox) {
    && (s.events != [] ==> s.lifecycle.Some?)
    && (s.lifecycle.Some? ==> (s.lifecycle.value.state == NotStarted <==> s.lifecycle.value.cycle.None?))
  }

  lemma LaterTransitive(s: Inbox, t: Inbox, u: Inbox)
    requires Later(s, t) && Later(t, u)
    ensures Later(s, u)
  {
  }

  // ------------------------------------------------------------------ one step

  predicate SameContext(s: Inbox, t: Inbox) {
    s.events == t.events && s.lifecycle == t.lifecycle && s.legacy == t.legacy && s.cycles == t.cycles && s.awaited == t.awaited
    && s.reviews == t.reviews
  }

  lemma Reflexive(s: Inbox)
    ensures InputsLater(s.inputs, s.inputs) && DispositionsLater(s.dispositions, s.dispositions)
    ensures LifecycleLater(s.lifecycle, s.lifecycle) && CyclesLater(s.cycles, s.cycles)
  {
  }

  lemma Assemble(s: Inbox, t: Inbox)
    requires Inv(s)
    requires InputsLater(s.inputs, t.inputs) && InputsSound(t.inputs, t.cycles)
    requires DispositionsLater(s.dispositions, t.dispositions) && ClaimsBound(t.dispositions)
    requires LifecycleLater(s.lifecycle, t.lifecycle) && LifecycleSound(t) && CyclesLater(s.cycles, t.cycles)
    requires s.events <= t.events && s.acknowledged <= t.acknowledged && Dispatched(t)
    ensures Inv(t) && Later(s, t)
  {
  }

  lemma QueuedSound(s: Inbox, id: InputId, residual: Option<string>, reason: Reason, at: Time)
    requires InputsSound(s.inputs, s.cycles)
    ensures InputsLater(s.inputs, Queued(s, id, residual, reason, at)) && InputsSound(Queued(s, id, residual, reason, at), s.cycles)
  {
  }

  lemma BindSound(s: Inbox, ids: set<InputId>, c: CycleId)
    requires InputsSound(s.inputs, s.cycles) && ActiveRevision(s, c)
    ensures InputsLater(s.inputs, Bind(s, ids, c)) && InputsSound(Bind(s, ids, c), s.cycles) && Bind(s, ids, c).Keys == s.inputs.Keys
  {
  }

  lemma ConsumeSound(s: Inbox, c: CycleId)
    requires InputsSound(s.inputs, s.cycles)
    ensures InputsLater(s.inputs, Consume(s, c).inputs) && InputsSound(Consume(s, c).inputs, s.cycles)
    ensures Consume(s, c).inputs.Keys == s.inputs.Keys
  {
  }

  lemma InsertSound(d: map<Key, Disposition>, k: Key, row: Disposition)
    requires ClaimsBound(d) && (row.consumedAt.Some? || row.occurrence.Some?)
    ensures DispositionsLater(d, InsertOrIgnore(d, k, row)) && ClaimsBound(InsertOrIgnore(d, k, row))
  {
  }

  lemma FinishSound(d: map<Key, Disposition>, k: Key, at: Time, status: Option<string>)
    requires ClaimsBound(d)
    ensures DispositionsLater(d, Finish(d, k, at, status)) && ClaimsBound(Finish(d, k, at, status))
    ensures Finish(d, k, at, status).Keys == d.Keys
  {
  }

  lemma CyclesGrow(inputs: map<InputId, Input>, m: seq<Cycle>, n: seq<Cycle>)
    requires InputsSound(inputs, m) && CyclesLater(m, n)
    ensures InputsSound(inputs, n)
  {
  }

  lemma ClassifiedKeeps(s: Inbox, e: Event, kind: Kind, at: Time)
    requires Inv(s)
    ensures Inv(Classified(s, e, kind, at)) && Later(s, Classified(s, e, kind, at)) && SameContext(s, Classified(s, e, kind, at))
  {
    hide InputsLater, InputsSound, DispositionsLater, ClaimsBound, LifecycleLater, CyclesLater;
    Reflexive(s);
    QueuedSound(s, ForEvent(e.key), None, UNSOLICITED_STEERING, at);
    InsertSound(s.dispositions, e.key, Disposition(LatestCycleId(s), CLARIFICATION_ROUTED, "STALE_APPROVAL", at, Some(at), None));
    InsertSound(s.dispositions, e.key, Disposition(LatestCycleId(s), CLARIFICATION_ROUTED, "REVISION_QUEUED", at, Some(at), None));
    Assemble(s, Classified(s, e, kind, at));
  }

  lemma {:induction false} RouteAllKeeps(s: Inbox, rows: seq<Event>, at: Time)
    requires s.lifecycle.Some? && Inv(s)
    ensures var t := RouteAll(s, rows, at).inbox;
      Inv(t) && Later(s, t) && SameContext(s, t)
  {
    if rows != [] {
      var last, before := rows[|rows| - 1], RouteAll(s, rows[..|rows| - 1], at);
      RouteAllKeeps(s, rows[..|rows| - 1], at);
      ClassifiedKeeps(before.inbox, last, KindOf(s, last), at);
      LaterTransitive(s, before.inbox, RouteAll(s, rows, at).inbox);
    } else {
      Reflexive(s);
    }
  }

  lemma IngestKeeps(s: Inbox, e: Event, at: Time)
    requires Inv(s)
    ensures Inv(Ingested(s, e, at)) && Later(s, Ingested(s, e, at))
  {
    Reflexive(s);
    if !HasEvent(s, e.key) {
      var t := s.(events := s.events + [e], lifecycle := Some(s.lifecycle.GetOr(Lifecycle(NotStarted, e.key, None, None))));
      hide InputsLater, InputsSound, DispositionsLater, ClaimsBound, CyclesLater;
      Assemble(s, t);
      ClassifiedKeeps(t, e, KindOf(t, e), at);
      LaterTransitive(s, t, Ingested(s, e, at));
    }
  }

  lemma RouteKeeps(s: Inbox, at: Time)
    requires Inv(s)
    ensures match Route(s, at) case None => true case Some(r) => Inv(r.inbox) && Later(s, r.inbox)
  {
    hide Inv, Later;
    StutterKeeps(s);
    if s.lifecycle.Some? { RouteAllKeeps(s, Unmatched(s.events, s.dispositions), at); }
  }

  lemma StutterKeeps(s: Inbox)
    ensures Later(s, s)
  {
    Reflexive(s);
  }

  /** The writers of the feedback reviews and of the inbox. */
  lemma FeedbackKeeps(s: Inbox, k: Key, r: Review, row: Disposition, residual: Option<string>, reason: Reason, at: Time)
    requires Inv(s) && row.consumedAt.Some?
    ensures k !in s.dispositions ==>
      Inv(s.(reviews := s.reviews[k := r], dispositions := s.dispositions[k := row])) &&
      Later(s, s.(reviews := s.reviews[k := r], dispositions := s.dispositions[k := row]))
    ensures k in s.reviews ==>
      Inv(s.(reviews := s.reviews[k := r], inputs := Queued(s, ForEvent(k), None, reason, at))) &&
      Later(s, s.(reviews := s.reviews[k := r], inputs := Queued(s, ForEvent(k), None, reason, at)))
  {
    hide InputsLater, InputsSound, DispositionsLater, ClaimsBound, LifecycleLater, CyclesLater;
    Reflexive(s);
    InsertSound(s.dispositions, k, row);
    QueuedSound(s, ForEvent(k), None, reason, at);
    if k !in s.dispositions { Assemble(s, s.(reviews := s.reviews[k := r], dispositions := s.dispositions[k := row])); }
    if k in s.reviews { Assemble(s, s.(reviews := s.reviews[k := r], inputs := Queued(s, ForEvent(k), None, reason, at))); }
  }

  lemma FollowupKeeps(s: Inbox, k: Key, residual: Option<string>, row: Disposition, noted: bool, at: Time)
    requires Inv(s) && row.consumedAt.Some?
    ensures var t := s.(inputs := Queued(s, ForResidual(k, residual.GetOr("")), residual, CLARIFICATION_RESIDUAL, at),
        dispositions := if noted then InsertOrIgnore(s.dispositions, k, row) else s.dispositions);
      Inv(t) && Later(s, t)
  {
    hide InputsLater, InputsSound, DispositionsLater, ClaimsBound, LifecycleLater, CyclesLater;
    Reflexive(s);
    InsertSound(s.dispositions, k, row);
    QueuedSound(s, ForResidual(k, residual.GetOr("")), residual, CLARIFICATION_RESIDUAL, at);
    Assemble(s, s.(inputs := Queued(s, ForResidual(k, residual.GetOr("")), residual, CLARIFICATION_RESIDUAL, at),
      dispositions := if noted then InsertOrIgnore(s.dispositions, k, row) else s.dispositions));
  }

  lemma InputsKeep(s: Inbox, inputs: map<InputId, Input>)
    requires Inv(s) && InputsLater(s.inputs, inputs) && InputsSound(inputs, s.cycles) && inputs.Keys == s.inputs.Keys
    ensures Inv(s.(inputs := inputs)) && Later(s, s.(inputs := inputs))
  {
    hide InputsLater, InputsSound, DispositionsLater, ClaimsBound, LifecycleLater, CyclesLater;
    Reflexive(s);
    Assemble(s, s.(inputs := inputs));
  }

  lemma DispositionsKeep(s: Inbox, d: map<Key, Disposition>)
    requires Inv(s) && DispositionsLater(s.dispositions, d) && ClaimsBound(d)
    ensures Inv(s.(dispositions := d)) && Later(s, s.(dispositions := d))
  {
    assert forall k :: k in s.dispositions ==> k in d;
    hide InputsLater, InputsSound, DispositionsLater, ClaimsBound, LifecycleLater, CyclesLater;
    Reflexive(s);
    Assemble(s, s.(dispositions := d));
  }

  lemma CyclesKeep(s: Inbox, lifecycle: Option<Lifecycle>, cycles: seq<Cycle>)
    requires Inv(s) && CyclesLater(s.cycles, cycles)
    requires LifecycleLater(s.lifecycle, lifecycle) && LifecycleSound(s.(lifecycle := lifecycle))
    ensures Inv(s.(lifecycle := lifecycle, cycles := cycles)) && Later(s, s.(lifecycle := lifecycle, cycles := cycles))
  {
    hide InputsLater, InputsSound, DispositionsLater, ClaimsBound, LifecycleLater, CyclesLater;
    Reflexive(s);
    CyclesGrow(s.inputs, s.cycles, cycles);
    Assemble(s, s.(lifecycle := lifecycle, cycles := cycles));
  }

  lemma LifecycleKeeps(s: Inbox, l: Label)
    requires Inv(s) && (l.Activate? || l.CompleteInitial?)
    ensures Inv(Step(s, l).GetOr(s)) && Later(s, Step(s, l).GetOr(s))
  {
    StutterKeeps(s);
    Reflexive(s);
    hide InputsLater, InputsSound, DispositionsLater, ClaimsBound, CyclesLater, Dispatched;
    CyclesKeep(s, Step(s, l).GetOr(s).lifecycle, s.cycles);
  }

  lemma FinalizeKeeps(s: Inbox, c: CycleId, proven: bool)
    requires Inv(s)
    ensures match Finalized(s, c, proven) case None => true case Some(t) => Inv(t) && Later(s, t)
  {
    if Finalized(s, c, proven).Some? {
      CyclesKeep(s, Some(s.lifecycle.value.(state := Published)), Closed(s.cycles));
    }
  }

  lemma EnvironmentKeeps(s: Inbox, l: Label)
    requires Inv(s) && (l.BeginCycle? || l.MoveCycle? || l.Await? || l.StartLegacy?)
    ensures Inv(Step(s, l).GetOr(s)) && Later(s, Step(s, l).GetOr(s))
  {
    Reflexive(s);
    StutterKeeps(s);
    var t := Step(s, l).GetOr(s);
    assert CyclesLater(s.cycles, t.cycles);
    hide InputsLater, InputsSound, DispositionsLater, ClaimsBound, LifecycleLater, CyclesLater;
    CyclesGrow(s.inputs, s.cycles, t.cycles);
    Assemble(s, t);
  }

  lemma WritersKeep(s: Inbox, l: Label)
    requires Inv(s) && (l.Dispose? || l.Claim? || l.FinishResume?)
    ensures Inv(Step(s, l).GetOr(s)) && Later(s, Step(s, l).GetOr(s))
  {
    StutterKeeps(s);
    assert ClaimsBound(s.dispositions);
    hide Inv, Later, DispositionsLater, ClaimsBound;
    match l
    case Dispose(k, cycle, purpose, status, once, at) =>
      InsertSound(s.dispositions, k, Disposition(cycle, purpose, status, at, Some(at), None));
      DispositionsKeep(s, InsertOrIgnore(s.dispositions, k, Disposition(cycle, purpose, status, at, Some(at), None)));
    case Claim(k, cycle, status, occurrence, at) =>
      InsertSound(s.dispositions, k, Disposition(cycle, CLARIFICATION_ROUTED, status, at, None, Some(occurrence)));
      DispositionsKeep(s, ClaimRow(s, k, cycle, status, occurrence, at).dispositions);
    case FinishResume(k, outcome, at) =>
      FinishSound(s.dispositions, k, at, outcome);
      DispositionsKeep(s, Finish(s.dispositions, k, at, outcome));
  }

  lemma BatchKeeps(s: Inbox, c: CycleId, selected: Option<seq<InputId>>)
    requires Inv(s)
    ensures match Batch(s, c, selected) case None => true case Some(t) => Inv(t) && Later(s, t)
  {
    assert InputsSound(s.inputs, s.cycles);
    hide Inv, Later, InputsLater, InputsSound, Bind;
    match Batch(s, c, selected)
    case None =>
    case Some(t) =>
      var ids := if selected.None? then s.inputs.Keys else (set id | id in selected.value);
      BindSound(s, ids, c);
      InputsKeep(s, Bind(s, ids, c));
  }

  lemma ConsumeKeeps(s: Inbox, c: CycleId)
    requires Inv(s)
    ensures Inv(Consume(s, c)) && Later(s, Consume(s, c))
  {
    ConsumeSound(s, c);
    hide Inv, Later, InputsLater, InputsSound;
    InputsKeep(s, Consume(s, c).inputs);
  }

  lemma ReviewsKeep(s: Inbox, l: Label)
    requires Inv(s) && (l.BeginFeedback? || l.DeferFeedback? || l.DeferFollowup?)
    ensures Inv(Step(s, l).GetOr(s)) && Later(s, Step(s, l).GetOr(s))
  {
    StutterKeeps(s);
    hide Inv, Later, HasEvent, Queued;
    match l
    case BeginFeedback(k, cycle, kind, occurrence, open, at) =>
      FeedbackKeeps(s, k, Review(kind, occurrence, REVIEWING),
        Disposition(cycle, CLARIFICATION_ROUTED, kind + "_FEEDBACK_REVIEW", at, Some(at), None), None, CLARIFICATION_RESIDUAL, at);
    case DeferFeedback(k, exact, at) =>
      if k in s.reviews {
        FeedbackKeeps(s, k, s.reviews[k].(status := DEFERRED_WAITING),
          Disposition(0, CLARIFICATION_ROUTED, "", at, Some(at), None), None, DEFERRED_FEEDBACK(s.reviews[k].kind), at);
      }
    case DeferFollowup(k, residual, cycle, status, at) =>
      FollowupKeeps(s, k, residual, Disposition(cycle, CLARIFICATION_ROUTED, status.GetOr(""), at, Some(at), None), status.Some?, at);
  }

  lemma StepKeeps(s: Inbox, l: Label)
    requires Inv(s)
    ensures Inv(Step(s, l).GetOr(s)) && Later(s, Step(s, l).GetOr(s))
  {
    hide Inv, Later, Ingested, Route, Batch, Consume, Finalized;
    StutterKeeps(s);
    match l
    case Ingest(e, at) => IngestKeeps(s, e, at);
    case RouteInputs(at) => RouteKeeps(s, at);
    case BatchInputs(c, selected) => BatchKeeps(s, c, selected);
    case ConsumeInputs(c) => ConsumeKeeps(s, c);
    case Finalize(c, proven) => FinalizeKeeps(s, c, proven);
    case BeginFeedback(_, _, _, _, _, _) => ReviewsKeep(s, l);
    case DeferFeedback(_, _, _) => ReviewsKeep(s, l);
    case DeferFollowup(_, _, _, _, _) => ReviewsKeep(s, l);
    case Dispose(_, _, _, _, _, _) => WritersKeep(s, l);
    case Claim(_, _, _, _, _) => WritersKeep(s, l);
    case FinishResume(_, _, _) => WritersKeep(s, l);
    case Activate(_, _) => LifecycleKeeps(s, l);
    case CompleteInitial(_) => LifecycleKeeps(s, l);
    case _ => EnvironmentKeeps(s, l);
  }

  lemma {:induction false} PlayKeeps(s: Inbox, run: seq<Label>)
    requires Inv(s)
    ensures Inv(Play(s, run)) && Later(s, Play(s, run))
    decreases |run|
  {
    if run != [] {
      var t := Step(s, run[0]).GetOr(s);
      StepKeeps(s, run[0]);
      PlayKeeps(t, run[1..]);
      LaterTransitive(s, t, Play(t, run[1..]));
    }
  }

  // ------------------------------------------------------------------ revision inputs are conserved

  /** Over every run a queued request keeps its row and its text, only moves PENDING, BATCHED, CONSUMED, and stays in the
      revision cycle that took it. */
  lemma InputsConserved(run: seq<Label>, more: seq<Label>, id: InputId)
    requires id in Play(NEW_THREAD, run).inputs
    ensures var s := Play(NEW_THREAD, run);
      var t := Play(s, more);
      && id in t.inputs && Advanced(s.inputs[id], t.inputs[id])
      && (t.inputs[id].status == PENDING <==> t.inputs[id].cycle.None?)
  {
    PlayKeeps(NEW_THREAD, run);
    PlayKeeps(Play(NEW_THREAD, run), more);
  }

  /** A batch is taken whole or refused: it succeeds exactly for an active revision cycle and inputs all still pending, and
      then moves those and no others. */
  lemma BatchWhole(s: Inbox, c: CycleId, ids: seq<InputId>)
    ensures Batch(s, c, Some(ids)).Some? <==> ActiveRevision(s, c) && forall id :: id in ids ==> Pending(s, id)
    ensures match Batch(s, c, Some(ids))
            case None => true
            case Some(t) =>
              t.inputs.Keys == s.inputs.Keys &&
              forall id :: id in s.inputs ==>
                t.inputs[id] == if id in ids then s.inputs[id].(status := BATCHED, cycle := Some(c)) else s.inputs[id]
  {
    assert (forall id :: id in ids ==> Pending(s, id)) <==> (forall i :: 0 <= i < |ids| ==> Pending(s, ids[i]));
  }

  predicate InCycle(s: Inbox, i: Input, last: CycleId) {
    i.cycle.Some? && i.cycle.value <= last && i.cycle.value < |s.cycles| && s.cycles[i.cycle.value].kind == REVISION
  }

  /** A publication finalizes only over an inbox with nothing pending: every request is bound to a revision cycle of the
      history it publishes. */
  lemma FinalizedInbox(run: seq<Label>, c: CycleId, proven: bool)
    requires Finalized(Play(NEW_THREAD, run), c, proven).Some?
    ensures var t := Finalized(Play(NEW_THREAD, run), c, proven).value;
      forall id :: id in t.inputs ==> InCycle(t, t.inputs[id], c)
  {
    PlayKeeps(NEW_THREAD, run);
    var s := Play(NEW_THREAD, run);
    forall id | id in s.inputs ensures InCycle(s, s.inputs[id], c) { assert InputSound(id, s.inputs[id], s.cycles); }
  }

  /** Batching and consuming empties the inbox into the cycle: what was pending is consumed by it, and no other cycle's
      inputs are touched. */
  lemma BatchThenConsume(s: Inbox, c: CycleId)
    requires ActiveRevision(s, c)
    ensures Batch(s, c, None).Some?
    ensures var t := Consume(Batch(s, c, None).value, c);
      && t.inputs.Keys == s.inputs.Keys
      && (forall id :: id in s.inputs && s.inputs[id].status == PENDING ==>
            t.inputs[id] == s.inputs[id].(status := CONSUMED, cycle := Some(c)))
      && (forall id :: id in s.inputs && s.inputs[id].status != PENDING && s.inputs[id].cycle != Some(c) ==>
            t.inputs[id] == s.inputs[id])
  {
  }

  /** An unsolicited request comes from an event that asks for something and is neither an approval nor the first request. */
  ghost predicate Steers(s: Inbox, k: Key) {
    s.lifecycle.Some? && k != s.lifecycle.value.root && exists e :: e in s.events && e.key == k && Actionable(e) && e.body != APPROVAL
  }

  ghost predicate SteeringOnly(s: Inbox) {
    forall id :: id in s.inputs && s.inputs[id].reason == UNSOLICITED_STEERING ==> Steers(s, id.key)
  }

  lemma SteersLater(s: Inbox, t: Inbox, k: Key)
    requires Steers(s, k) && LifecycleLater(s.lifecycle, t.lifecycle) && s.events <= t.events
    ensures Steers(t, k)
  {
    var e :| e in s.events && e.key == k && Actionable(e) && e.body != APPROVAL;
    assert e in t.events;
  }

  lemma ClassifiedSteers(s: Inbox, e: Event, t: Inbox, at: Time)
    requires s.lifecycle.Some? && e in s.events && SameContext(s, t) && SteeringOnly(t)
    ensures SteeringOnly(Classified(t, e, KindOf(s, e), at))
  {
    var u := Classified(t, e, KindOf(s, e), at);
    forall id | id in u.inputs && u.inputs[id].reason == UNSOLICITED_STEERING ensures Steers(u, id.key) {
      if id in t.inputs { assert Steers(t, id.key); }
    }
  }

  lemma {:induction false} RouteSteers(s: Inbox, rows: seq<Event>, at: Time)
    requires s.lifecycle.Some? && SteeringOnly(s) && forall e :: e in rows ==> e in s.events
    ensures SteeringOnly(RouteAll(s, rows, at).inbox)
  {
    hide Steers, SteeringOnly;
    if rows != [] {
      RouteSteers(s, rows[..|rows| - 1], at);
      RouteAllDecides(s, rows[..|rows| - 1], at);
      ClassifiedSteers(s, rows[|rows| - 1], RouteAll(s, rows[..|rows| - 1], at).inbox, at);
    }
  }

  lemma IngestSteers(s: Inbox, e: Event, at: Time)
    requires SteeringOnly(s)
    ensures SteeringOnly(Ingested(s, e, at))
  {
    if !HasEvent(s, e.key) {
      var t := s.(events := s.events + [e], lifecycle := Some(s.lifecycle.GetOr(Lifecycle(NotStarted, e.key, None, None))));
      forall id | id in t.inputs && t.inputs[id].reason == UNSOLICITED_STEERING ensures Steers(t, id.key) { SteersLater(s, t, id.key); }
      ClassifiedSteers(t, e, t, at);
    }
  }

  /** No other step adds a steering request. */
  predicate NoNewSteering(s: Inbox, t: Inbox) {
    forall id :: id in t.inputs && id !in s.inputs ==> t.inputs[id].reason != UNSOLICITED_STEERING
  }

  lemma OthersAddNone(s: Inbox, l: Label)
    requires !l.Ingest? && !l.RouteInputs?
    ensures NoNewSteering(s, Step(s, l).GetOr(s))
  {
  }

  lemma StepSteers(s: Inbox, l: Label)
    requires Inv(s) && SteeringOnly(s)
    ensures SteeringOnly(Step(s, l).GetOr(s))
  {
    hide Inv, Ingested, SteeringOnly;
    if l.Ingest? {
      IngestSteers(s, l.event, l.at);
    } else if l.RouteInputs? {
      if s.lifecycle.Some? { RouteSteers(s, Unmatched(s.events, s.dispositions), l.at); }
    } else {
      OthersAddNone(s, l);
      StepKeeps(s, l);
      SteeringStays(s, Step(s, l).GetOr(s));
    }
  }

  lemma SteeringStays(s: Inbox, t: Inbox)
    requires SteeringOnly(s) && Later(s, t) && NoNewSteering(s, t)
    ensures SteeringOnly(t)
  {
    forall id | id in t.inputs && t.inputs[id].reason == UNSOLICITED_STEERING ensures Steers(t, id.key) {
      assert id in s.inputs && Advanced(s.inputs[id], t.inputs[id]);
      SteersLater(s, t, id.key);
    }
  }

  /** Over every run, no approval and no first request ever turns into a revision request. */
  lemma {:induction false} ApprovalsNeverSteer(s: Inbox, run: seq<Label>)
    requires Inv(s) && SteeringOnly(s)
    ensures SteeringOnly(Play(s, run))
    decreases |run|
  {
    if run != [] {
      hide Inv, SteeringOnly, Step;
      StepKeeps(s, run[0]);
      StepSteers(s, run[0]);
      ApprovalsNeverSteer(Step(s, run[0]).GetOr(s), run[1..]);
    }
  }

  // ------------------------------------------------------------------ routing once

  predicate Settles(kind: Kind) { kind in {STALE_APPROVAL, REVISION_QUEUED} }

  function QueuedKeys(s: Inbox, rows: seq<Event>): seq<Key>
    requires s.lifecycle.Some?
  {
    if rows == [] then []
    else QueuedKeys(s, rows[..|rows| - 1]) + (if KindOf(s, rows[|rows| - 1]) == REVISION_QUEUED then [rows[|rows| - 1].key] else [])
  }

  lemma ClassifiedSettles(s: Inbox, e: Event, kind: Kind, at: Time)
    ensures SameContext(s, Classified(s, e, kind, at))
    ensures forall k :: k in Classified(s, e, kind, at).dispositions <==> k in s.dispositions || (k == e.key && Settles(kind))
  {
  }

  /** Routing decides every row by the state it started from, and gives a disposition to exactly the rows it settles. */
  lemma {:induction false} RouteAllDecides(s: Inbox, rows: seq<Event>, at: Time)
    requires s.lifecycle.Some?
    ensures var r := RouteAll(s, rows, at);
      && SameContext(s, r.inbox) && r.routed == QueuedKeys(s, rows)
      && (forall k :: k in r.inbox.dispositions <==> k in s.dispositions || exists e :: e in rows && e.key == k && Settles(KindOf(s, e)))
  {
    hide Queued, Routed;
    if rows != [] {
      var front, last := rows[..|rows| - 1], rows[|rows| - 1];
      RouteAllDecides(s, front, at);
      assert rows == front + [last];
      ClassifiedSettles(RouteAll(s, front, at).inbox, last, KindOf(s, last), at);
    }
  }

  lemma {:induction false} NothingQueued(s: Inbox, rows: seq<Event>, at: Time)
    requires s.lifecycle.Some? && forall e :: e in rows ==> !Settles(KindOf(s, e))
    ensures RouteAll(s, rows, at) == Routing(s, [])
  {
    if rows != [] { NothingQueued(s, rows[..|rows| - 1], at); }
  }

  /** Routing the same inputs again returns nothing and changes nothing. */
  lemma RouteAgain(s: Inbox, at: Time, later: Time)
    requires Route(s, at).Some?
    ensures Route(Route(s, at).value.inbox, later) == Some(Routing(Route(s, at).value.inbox, []))
  {
    var rows := Unmatched(s.events, s.dispositions);
    if rows != [] {
      RouteAllDecides(s, rows, at);
      var t := RouteAll(s, rows, at).inbox;
      var left := Unmatched(t.events, t.dispositions);
      forall e | e in left ensures !Settles(KindOf(t, e)) { assert e in rows; }
      NothingQueued(t, left, later);
    }
  }

  /** What routing returns is queued: each such event had no row in the inbox, and has one pending row afterwards. */
  lemma {:induction false} RoutedAreQueued(s: Inbox, rows: seq<Event>, at: Time, k: Key)
    requires s.lifecycle.Some? && Inv(s) && k in RouteAll(s, rows, at).routed && k !in s.dispositions
    ensures ForEvent(k) !in s.inputs && Pending(RouteAll(s, rows, at).inbox, ForEvent(k))
    ensures k in RouteAll(s, rows, at).inbox.acknowledged
  {
    var front, last := rows[..|rows| - 1], rows[|rows| - 1];
    if k in RouteAll(s, front, at).routed {
      RoutedAreQueued(s, front, at, k);
    } else {
      assert k == last.key;
      NotYetQueued(s, front, at, k);
    }
  }

  lemma {:induction false} NotYetQueued(s: Inbox, rows: seq<Event>, at: Time, k: Key)
    requires s.lifecycle.Some? && ForEvent(k) !in s.inputs && k !in RouteAll(s, rows, at).routed
    ensures ForEvent(k) !in RouteAll(s, rows, at).inbox.inputs
  {
    if rows != [] { NotYetQueued(s, rows[..|rows| - 1], at, k); }
  }

  /** An event routed into the inbox once is never routed again, whatever happens in between. */
  lemma RoutedOnce(run: seq<Label>, at: Time, more: seq<Label>, later: Time, k: Key)
    requires var r := Route(Play(NEW_THREAD, run), at);
      r.Some? && k in r.value.routed
    ensures var t := Play(Route(Play(NEW_THREAD, run), at).value.inbox, more);
      && ForEvent(k) in t.inputs
      && (Route(t, later).Some? ==> k !in Route(t, later).value.routed)
  {
    var s := Play(NEW_THREAD, run);
    PlayKeeps(NEW_THREAD, run);
    var rows := Unmatched(s.events, s.dispositions);
    RouteAllKeeps(s, rows, at);
    RouteAllDecides(s, rows, at);
    QueuedFrom(s, rows, k);
    RoutedAreQueued(s, rows, at, k);
    var t := Play(RouteAll(s, rows, at).inbox, more);
    PlayKeeps(RouteAll(s, rows, at).inbox, more);
    var left := Unmatched(t.events, t.dispositions);
    if left != [] && t.lifecycle.Some? {
      RouteAllDecides(t, left, later);
      if k in QueuedKeys(t, left) { QueuedFrom(t, left, k); }
    }
  }

  lemma {:induction false} QueuedFrom(s: Inbox, rows: seq<Event>, k: Key)
    requires s.lifecycle.Some? && k in QueuedKeys(s, rows)
    ensures exists e :: e in rows && e.key == k && KindOf(s, e) == REVISION_QUEUED
  {
    var front, last := rows[..|rows| - 1], rows[|rows| - 1];
    if k in QueuedKeys(s, front) {
      QueuedFrom(s, front, k);
      var e :| e in front && e.key == k && KindOf(s, e) == REVISION_QUEUED;
      assert e in rows;
    } else {
      assert last in rows && last.key == k;
    }
  }

  // ------------------------------------------------------------------ write-once dispositions

  /** Over every run of every writer: once an event has a disposition its binding stands for ever, and a row is settled at
      most once. Only a claim is ever unsettled. */
  lemma WrittenOnce(run: seq<Label>, more: seq<Label>, k: Key)
    requires k in Play(NEW_THREAD, run).dispositions
    ensures var s := Play(NEW_THREAD, run);
      var t := Play(s, more);
      && k in t.dispositions && SameBinding(s.dispositions[k], t.dispositions[k])
      && (t.dispositions[k].consumedAt.None? ==> t.dispositions[k].occurrence.Some?)
  {
    PlayKeeps(NEW_THREAD, run);
    PlayKeeps(Play(NEW_THREAD, run), more);
  }

  /** A claim holds for the caller exactly when the event was free or already bound to this very occurrence and outcome; a
      second claim changes nothing. */
  lemma ClaimOnce(s: Inbox, k: Key, cycle: nat, status: string, occurrence: string, at: Time)
    ensures var t := ClaimRow(s, k, cycle, status, occurrence, at);
      && (ClaimHolds(t, k, status, occurrence) <==> k !in s.dispositions || ClaimHolds(s, k, status, occurrence))
      && (forall other, other', c, then' :: ClaimRow(t, k, c, other, other', then') == t)
  {
  }

  /** The initial workflow runs once: it only advances, and its cycle and digest never change once it is active. */
  lemma InitialRunsOnce(run: seq<Label>, more: seq<Label>)
    requires Play(NEW_THREAD, run).lifecycle.Some?
    ensures LifecycleLater(Play(NEW_THREAD, run).lifecycle, Play(Play(NEW_THREAD, run), more).lifecycle)
  {
    PlayKeeps(NEW_THREAD, run);
    PlayKeeps(Play(NEW_THREAD, run), more);
  }

  /** Replaying an activation or a completion with the same identity is accepted and changes nothing; a different identity
      is refused by activation, for ever, and by completion only while the workflow is not complete. */
  lemma LifecycleReplay(l: Lifecycle, c: CycleId, digest: string, d: CycleId, other: string)
    requires Activated(l, c, digest).Some?
    ensures var a := Activated(l, c, digest).value;
      && Activated(a, c, digest) == Some(a)
      && (Activated(a, d, other).Some? <==> d == c && other == digest)
      && (Completed(a, d).Some? <==> d == c || a.state in {Complete, Published})
      && (Completed(a, d).Some? ==> Completed(Completed(a, d).value, c) == Completed(a, d))
  {
  }

  // ------------------------------------------------------------------ claims drain in order

  predicate Before(d: map<Key, Disposition>, j: Key, k: Key) {
    && j in d && k in d
    && (d[j].claimedAt < d[k].claimedAt || (d[j].claimedAt == d[k].claimedAt && j <= k))
  }

  ghost predicate FirstClaim(d: map<Key, Disposition>, k: Key) {
    Unfinished(d, k) && forall j :: Unfinished(d, j) ==> Before(d, k, j)
  }

  function UnfinishedKeys(d: map<Key, Disposition>): set<Key> { set k | k in d && Unfinished(d, k) }

  /** While claims are unfinished there is a first claim. */
  lemma FirstClaimExists(d: map<Key, Disposition>, keys: set<Key>) returns (k: Key)
    requires keys != {} && forall j :: j in keys ==> Unfinished(d, j)
    ensures k in keys && forall j :: j in keys ==> Before(d, k, j)
    decreases |keys|
  {
    var one :| one in keys;
    k := one;
    if keys != {one} {
      var rest := FirstClaimExists(d, keys - {one});
      k := if Before(d, one, rest) then one else rest;
    }
    forall j | j in keys ensures Before(d, k, j) {
      assert Unfinished(d, j) && (j == one || j in keys - {one});
    }
  }

  /** The order in which repeated replay-and-finish settles the claims. */
  ghost predicate Drains(d: map<Key, Disposition>, order: seq<Key>)
    decreases |order|
  {
    if order == [] then UnfinishedKeys(d) == {}
    else FirstClaim(d, order[0]) && forall at, status :: Drains(Finish(d, order[0], at, status), order[1..])
  }

  /** The claims by (claimedAt, key): each unfinished claim once. */
  ghost predicate ClaimOrder(d: map<Key, Disposition>, order: seq<Key>) {
    && (forall k :: Unfinished(d, k) <==> k in order)
    && (forall i, j :: 0 <= i < j < |order| ==> order[i] != order[j] && Before(d, order[i], order[j]))
  }

  lemma FinishClaims(d: map<Key, Disposition>, k: Key, at: Time, status: Option<string>)
    ensures var e := Finish(d, k, at, status);
      && (forall j :: Unfinished(e, j) <==> Unfinished(d, j) && j != k)
      && e.Keys == d.Keys && forall j :: j in d ==> e[j].claimedAt == d[j].claimedAt
  {
  }

  /** Settling the pending claim again and again, whatever the clock and the outcomes, settles every claim exactly once and
      in claimed order. */
  lemma {:induction false} ClaimsDrainInOrder(d: map<Key, Disposition>, order: seq<Key>)
    requires Drains(d, order)
    ensures ClaimOrder(d, order)
    decreases |order|
  {
    if order == [] {
      forall k ensures !Unfinished(d, k) { assert k !in UnfinishedKeys(d); }
    } else {
      var first, rest, e := order[0], order[1..], Finish(d, order[0], 0, None);
      assert Drains(e, rest);
      ClaimsDrainInOrder(e, rest);
      FinishClaims(d, first, 0, None);
      hide Drains, Finish;
      assert order == [first] + rest;
      forall i, j | 0 <= i < j < |order| ensures order[i] != order[j] && Before(d, order[i], order[j]) {
        assert order[j] == rest[j - 1] && Unfinished(e, rest[j - 1]);
        if i > 0 { assert order[i] == rest[i - 1] && Before(e, rest[i - 1], rest[j - 1]); }
      }
    }
  }

  /** The claims can always be drained: there is an order, and it takes one round per unfinished claim. */
  lemma {:induction false} ClaimsDrain(d: map<Key, Disposition>) returns (order: seq<Key>)
    ensures Drains(d, order) && |order| == |UnfinishedKeys(d)|
    decreases |UnfinishedKeys(d)|
  {
    if UnfinishedKeys(d) == {} {
      order := [];
    } else {
      var first := FirstClaimExists(d, UnfinishedKeys(d));
      var e := Finish(d, first, 0, None);
      assert UnfinishedKeys(e) == UnfinishedKeys(d) - {first};
      var rest := ClaimsDrain(e);
      order := [first] + rest;
      assert order[1..] == rest;
      forall at, status ensures Drains(Finish(d, first, at, status), rest) {
        SameDrain(e, Finish(d, first, at, status), rest);
      }
    }
  }

  ghost predicate SameClaims(d: map<Key, Disposition>, e: map<Key, Disposition>) {
    && (forall k :: Unfinished(d, k) <==> Unfinished(e, k))
    && (forall k :: Unfinished(d, k) && Unfinished(e, k) ==> d[k].claimedAt == e[k].claimedAt)
  }

  /** Draining reads only which claims are unfinished and when they were made. */
  lemma {:induction false} SameDrain(d: map<Key, Disposition>, e: map<Key, Disposition>, order: seq<Key>)
    requires Drains(d, order)
    requires SameClaims(d, e)
    ensures Drains(e, order)
    decreases |order|
  {
    if order == [] {
      assert UnfinishedKeys(e) == UnfinishedKeys(d);
    } else {
      assert FirstClaim(e, order[0]);
      hide FirstClaim, Unfinished;
      forall at, status ensures Drains(Finish(e, order[0], at, status), order[1..]) {
        FinishClaims(d, order[0], at, status);
        FinishClaims(e, order[0], at, status);
        SameDrain(Finish(d, order[0], at, status), Finish(e, order[0], at, status), order[1..]);
      }
    }
  }

  /** A claim made later than all others waits behind them: the pending claim stays the one a dead worker left. */
  lemma LaterClaimWaits(s: Inbox, k: Key, first: Key, cycle: nat, status: string, occurrence: string, at: Time)
    requires FirstClaim(s.dispositions, first) && forall j :: Unfinished(s.dispositions, j) ==> s.dispositions[j].claimedAt < at
    ensures FirstClaim(ClaimRow(s, k, cycle, status, occurrence, at).dispositions, first)
  {
    var d := ClaimRow(s, k, cycle, status, occurrence, at).dispositions;
    forall j | Unfinished(d, j) ensures Before(d, first, j) {
      if j != k || k in s.dispositions { assert Unfinished(s.dispositions, j); }
    }
  }

  // ------------------------------------------------------------------ no stranded claim

  datatype TaskPhase = Working | WaitingForPlanApproval | WaitingForResultApproval | WaitingForInput

  /** The last recorded failure of a thread's worker. */
  datatype Failure = Failure(count: nat, at: Time, base: nat)

  function Power(n: nat): nat { if n == 0 then 1 else 2 * Power(n - 1) }

  /** The backoff in seconds: it doubles with every failure, up to an hour. */
  function Backoff(f: Failure): (delay: nat)
    ensures delay <= 3600
  {
    var n := if f.count <= 1 then 0 else if f.count > 11 then 10 else f.count - 1;
    if f.base * Power(n) < 3600 then f.base * Power(n) else 3600
  }

  predicate BackedOff(failure: Option<Failure>, now: Time) {
    match failure case None => false case Some(f) => now < f.at + Backoff(f)
  }

  /** What `is_thread_runnable` reads of other tables: the last failure, the thread row, the comment outbox, the active task
      of the latest cycle and which reviews are its own, the interaction mode, the deferred events, and the publication and
      learning jobs. */
  datatype Rest = Rest(
    failure: Option<Failure>, thread: bool, dueComments: bool, task: Option<TaskPhase>, ownReviews: set<Key>, auto: bool,
    deferred: set<Key>, publishable: bool, learning: bool, legacyRunnable: bool)

  ghost predicate AnyPending(s: Inbox) { exists id :: Pending(s, id) }

  ghost predicate AnyClaim(s: Inbox) { exists k :: Unfinished(s.dispositions, k) }

  /** An event nobody has taken yet. */
  predicate Unconsumed(s: Inbox, r: Rest, e: Event) { e in s.events && e.key !in s.dispositions && e.key !in r.deferred }

  ghost predicate AnyActionable(s: Inbox, r: Rest) { exists e :: Unconsumed(s, r, e) && Actionable(e) }

  ghost predicate Answered(s: Inbox, r: Rest) {
    exists e :: Unconsumed(s, r, e) && StartsWithInvocation(e) && e.key in s.awaited
  }

  predicate InReview(s: Inbox, r: Rest) { exists k :: k in s.reviews && k in r.ownReviews && s.reviews[k].status == REVIEWING }

  ghost predicate Runnable(s: Inbox, now: Time, r: Rest) {
    if BackedOff(r.failure, now) then false
    else if !r.thread then false
    else if s.cycles == [] then r.legacyRunnable
    else if r.dueComments then true
    else match s.cycles[|s.cycles| - 1].status
      case FAILED => false
      case PUBLISHED => r.learning || AnyPending(s) || AnyActionable(s, r)
      case AWAITING_PUBLICATION => AnyPending(s) || r.publishable
      case ACTIVE =>
        r.task.None? || r.task.value == Working || AnyClaim(s) || InReview(s, r)
        || (r.auto && r.task.value in {WaitingForPlanApproval, WaitingForResultApproval}) || Answered(s, r)
  }

  /** Only its own finish changes a claim. */
  lemma RowStays(s: Inbox, l: Label, k: Key)
    requires Inv(s) && k in s.dispositions && !(l.FinishResume? && l.key == k)
    ensures var t := Step(s, l).GetOr(s);
      k in t.dispositions && t.dispositions[k] == s.dispositions[k]
  {
    hide Inv, KindOf, RouteAll, Bind, Closed, Activated, Completed, NothingPending, HasEvent, Unmatched, Queued;
    if l.RouteInputs? && s.lifecycle.Some? { RoutedRowStays(s, Unmatched(s.events, s.dispositions), l.at, k); }
  }

  lemma {:induction false} RoutedRowStays(s: Inbox, rows: seq<Event>, at: Time, k: Key)
    requires s.lifecycle.Some? && k in s.dispositions
    ensures var t := RouteAll(s, rows, at).inbox;
      k in t.dispositions && t.dispositions[k] == s.dispositions[k]
  {
    if rows != [] { RoutedRowStays(s, rows[..|rows| - 1], at, k); }
  }

  predicate Finishes(run: seq<Label>, k: Key) { exists i :: 0 <= i < |run| && run[i].FinishResume? && run[i].key == k }

  lemma {:induction false} ClaimStays(s: Inbox, run: seq<Label>, k: Key)
    requires Inv(s) && k in s.dispositions && !Finishes(run, k)
    ensures k in Play(s, run).dispositions && Play(s, run).dispositions[k] == s.dispositions[k]
    decreases |run|
  {
    hide Inv, Step;
    if run != [] {
      StepKeeps(s, run[0]);
      RowStays(s, run[0], k);
      assert forall i :: 0 <= i < |run| - 1 ==> run[1..][i] == run[i + 1];
      ClaimStays(Step(s, run[0]).GetOr(s), run[1..], k);
    }
  }

  lemma ClaimSound(s: Inbox, k: Key, cycle: nat, status: string, occurrence: string, at: Time)
    requires Inv(s)
    ensures Inv(ClaimRow(s, k, cycle, status, occurrence, at))
  {
    hide Inv;
    StepKeeps(s, Claim(k, cycle, status, occurrence, at));
  }

  /** No claim is stranded: a free event that is claimed stays claimed over every run that does not finish it, whatever its
      workers do, and in the active cycle the thread is then runnable exactly when the backoff has passed, at most an hour
      after the last failure. */
  lemma ClaimKeepsRunnable(
    run: seq<Label>, k: Key, cycle: nat, status: string, occurrence: string, at: Time, more: seq<Label>, now: Time, r: Rest)
    requires k !in Play(NEW_THREAD, run).dispositions && !Finishes(more, k)
    requires var t := Play(ClaimRow(Play(NEW_THREAD, run), k, cycle, status, occurrence, at), more);
      t.cycles != [] && t.cycles[|t.cycles| - 1].status == ACTIVE
    requires r.thread
    ensures var t := Play(ClaimRow(Play(NEW_THREAD, run), k, cycle, status, occurrence, at), more);
      && ClaimHolds(t, k, status, occurrence) && Unfinished(t.dispositions, k)
      && (Runnable(t, now, r) <==> !BackedOff(r.failure, now))
      && (r.failure.Some? && now >= r.failure.value.at + 3600 ==> Runnable(t, now, r))
  {
    var s := Play(NEW_THREAD, run);
    PlayKeeps(NEW_THREAD, run);
    hide Inv, Play, Backoff, Step;
    var c := ClaimRow(s, k, cycle, status, occurrence, at);
    ClaimSound(s, k, cycle, status, occurrence, at);
    ClaimStays(c, more, k);
    assert Unfinished(Play(c, more).dispositions, k);
  }

  /** A cycle that waits for its publication is not kept runnable by a claim: there only work of its own counts. */
  lemma AwaitingIgnoresClaims(s: Inbox, now: Time, r: Rest, k: Key, at: Time)
    requires s.cycles != [] && s.cycles[|s.cycles| - 1].status != ACTIVE
    ensures Runnable(s.(dispositions := Finish(s.dispositions, k, at, None)), now, r) <==> Runnable(s, now, r)
  {
    var t := s.(dispositions := Finish(s.dispositions, k, at, None));
    FinishClaims(s.dispositions, k, at, None);
    hide Finish;
    assert AnyPending(t) <==> AnyPending(s) by { assert forall id :: Pending(t, id) <==> Pending(s, id); }
    assert AnyActionable(t, r) <==> AnyActionable(s, r) by { assert forall e :: Unconsumed(t, r, e) <==> Unconsumed(s, r, e); }
  }
}
