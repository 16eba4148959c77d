/** The input tables as the store updates them: one object, one method per transaction, the queries as loops. */
module InputStore {
  import opened Prelude
  import opened Inputs
  import opened InputsTheorems

  class InputTables {
    var events: seq<Event>
    var lifecycle: Option<Lifecycle>
    var legacy: bool
    var cycles: seq<Cycle>
    var awaited: set<Key>
    var dispositions: map<Key, Disposition>
    var inputs: map<InputId, Input>
    var reviews: map<Key, Review>
    var acknowledged: set<Key>

    ghost function View(): Inbox
      reads this
    {
      Inbox(events, lifecycle, legacy, cycles, awaited, dispositions, inputs, reviews, acknowledged)
    }

    constructor ()
      ensures View() == NEW_THREAD
    {
      events, lifecycle, legacy, cycles, awaited := [], None, false, [], {};
      dispositions, inputs, reviews, acknowledged := map[], map[], map[], {};
    }

    method RecordDisposition(k: Key, status: string, at: Time)
      modifies this`dispositions
      ensures dispositions == Routed(old(View()), k, status, at)
    {
      if k !in dispositions {
        var cycle := if cycles == [] then 0 else cycles[|cycles| - 1].number;
        dispositions := dispositions[k := Disposition(cycle, CLARIFICATION_ROUTED, status, at, Some(at), None)];
      }
    }

    /** `_classify_revision_input`, branch by branch. */
    method ClassifyRevisionInput(e: Event, at: Time) returns (kind: Kind)
      requires lifecycle.Some?
      modifies this`dispositions, this`inputs, this`acknowledged
      ensures kind == KindOf(old(View()), e) && View() == Classified(old(View()), e, kind, at)
    {
      if e.key == lifecycle.value.root { return INITIAL_ROOT; }
      if !Actionable(e) { return IGNORED; }
      var declarative := cycles != [];
      if lifecycle.value.state == NotStarted && !declarative && !legacy { return PENDING_INITIAL_SELECTION; }
      if !declarative && legacy { return LEGACY_WORKFLOW_INPUT; }
      if StartsWithInvocation(e) && e.key in awaited { return EXPECTED_RESPONSE; }
      if e.body == APPROVAL {
        RecordDisposition(e.key, "STALE_APPROVAL", at);
        return STALE_APPROVAL;
      }
      if ForEvent(e.key) !in inputs {
        inputs := inputs[ForEvent(e.key) := Input(e.key, None, UNSOLICITED_STEERING, PENDING, at, None)];
      }
      RecordDisposition(e.key, "REVISION_QUEUED", at);
      acknowledged := acknowledged + {e.key};
      return REVISION_QUEUED;
    }

    method UnmatchedRows() returns (rows: seq<Event>)
      ensures rows == Unmatched(events, dispositions)
    {
      rows := [];
      var i := 0;
      while i < |events|
        invariant 0 <= i <= |events| && rows == Unmatched(events[..i], dispositions)
      {
        assert events[..i + 1][..i] == events[..i];
        if events[i].key !in dispositions { rows := rows + [events[i]]; }
        i := i + 1;
      }
      assert events[..i] == events;
    }

    /** `route_unmatched_inputs`: the rows are read first, then classified one after the other. */
    method RouteUnmatchedInputs(at: Time) returns (ok: bool, routed: seq<Key>)
      modifies this`dispositions, this`inputs, this`acknowledged
      ensures match Route(old(View()), at)
              case None => !ok && View() == old(View())
              case Some(r) => ok && routed == r.routed && View() == r.inbox
    {
      routed := [];
      var rows := UnmatchedRows();
      if rows == [] { return true, []; }
      if lifecycle.None? { return false, []; }
      var i := 0;
      assert rows[..0] == [] && RouteAll(old(View()), [], at) == Routing(old(View()), []);
      hide RouteAll, KindOf, Classified, QueuedKeys, Unmatched;
      while i < |rows|
        invariant 0 <= i <= |rows| && lifecycle == old(lifecycle) && lifecycle.Some?
        invariant RouteAll(old(View()), rows[..i], at) == Routing(View(), routed)
      {
        RouteOneMore(old(View()), rows, i, at);
        RouteAllDecides(old(View()), rows[..i], at);
        SameKind(old(View()), View(), rows[i]);
        var kind := ClassifyRevisionInput(rows[i], at);
        if kind == REVISION_QUEUED { routed := routed + [rows[i].key]; }
        i := i + 1;
      }
      assert rows[..i] == rows;
      return true, routed;
    }

    /** `batch_revision_inputs`: the selection is deduplicated, the rows it really changed are counted, and a batch that
        changed fewer is rolled back. */
    method BatchRevisionInputs(c: CycleId, selected: Option<seq<InputId>>) returns (ok: bool)
      modifies this`inputs
      ensures ok == Batch(old(View()), c, selected).Some?
      ensures View() == Batch(old(View()), c, selected).GetOr(old(View()))
    {
      if !(c < |cycles| && cycles[c].kind == REVISION && cycles[c].status == ACTIVE) { return false; }
      var before := inputs;
      match selected
      case None =>
        var _ := MoveToBatch(inputs.Keys, c);
        return true;
      case Some(ids) =>
        var unique := Deduplicated(ids);
        var changed := MoveToBatch(unique, c);
        if changed != |unique| {
          inputs := before;
          return false;
        }
        return true;
    }

    static method Deduplicated(ids: seq<InputId>) returns (unique: set<InputId>)
      ensures unique == set id | id in ids
    {
      unique := {};
      var i := 0;
      while i < |ids|
        invariant 0 <= i <= |ids| && unique == set id | id in ids[..i]
      {
        assert ids[..i + 1] == ids[..i] + [ids[i]];
        unique := unique + {ids[i]};
        i := i + 1;
      }
      assert ids[..i] == ids;
    }

    /** The UPDATE over the pending rows among `ids`, with its row count. */
    method MoveToBatch(ids: set<InputId>, c: CycleId) returns (changed: nat)
      modifies this`inputs
      ensures inputs == Bind(old(View()), ids, c)
      ensures changed <= |ids| && (changed == |ids| <==> forall id :: id in ids ==> Pending(old(View()), id))
    {
      changed := 0;
      var todo := ids;
      while todo != {}
        invariant todo <= ids && inputs == Bind(old(View()), ids - todo, c)
        invariant changed <= |ids| - |todo|
        invariant changed == |ids| - |todo| <==> forall id :: id in ids - todo ==> Pending(old(View()), id)
        decreases todo
      {
        var id :| id in todo;
        assert |todo - {id}| == |todo| - 1;
        assert ids - (todo - {id}) == (ids - todo) + {id};
        if id in inputs && inputs[id].status == PENDING {
          inputs := inputs[id := inputs[id].(status := BATCHED, cycle := Some(c))];
          changed := changed + 1;
        }
        todo := todo - {id};
      }
      assert ids - todo == ids;
    }

    method ConsumeRevisionInputs(c: CycleId) returns (changed: nat)
      modifies this`inputs
      ensures View() == Consume(old(View()), c)
      ensures changed == |set id | id in old(inputs) && old(inputs)[id].status == BATCHED && old(inputs)[id].cycle == Some(c)|
    {
      changed := 0;
      var was, todo := inputs, inputs.Keys;
      ghost var done := {};
      while todo != {}
        invariant todo <= was.Keys && inputs.Keys == was.Keys
        invariant forall id :: id in was ==> inputs[id] == if id in todo then was[id] else Consume(old(View()), c).inputs[id]
        invariant done == set id | id in was && id !in todo && was[id].status == BATCHED && was[id].cycle == Some(c)
        invariant changed == |done|
        decreases todo
      {
        var id :| id in todo;
        todo := todo - {id};
        if inputs[id].status == BATCHED && inputs[id].cycle == Some(c) {
          inputs := inputs[id := inputs[id].(status := CONSUMED)];
          changed := changed + 1;
          done := done + {id};
        }
      }
      assert inputs == Consume(old(View()), c).inputs;
      assert done == set id | id in was && was[id].status == BATCHED && was[id].cycle == Some(c);
    }

    /** `claim_input_for_resume`: whether the caller now holds the event for this occurrence. */
    method ClaimInputForResume(k: Key, cycle: nat, status: string, occurrence: string, at: Time) returns (holds: bool)
      modifies this`dispositions
      ensures View() == ClaimRow(old(View()), k, cycle, status, occurrence, at)
      ensures holds == ClaimHolds(View(), k, status, occurrence)
    {
      if k !in dispositions {
        dispositions := dispositions[k := Disposition(cycle, CLARIFICATION_ROUTED, status, at, None, Some(occurrence))];
      }
      holds := dispositions[k].occurrence == Some(occurrence) && dispositions[k].status == status;
    }

    method FinishInputResume(k: Key, at: Time, status: Option<string>)
      modifies this`dispositions
      ensures dispositions == Finish(old(dispositions), k, at, status)
    {
      if k in dispositions && dispositions[k].consumedAt.None? {
        var row := dispositions[k].(consumedAt := Some(at));
        if status.Some? { row := row.(status := status.value); }
        dispositions := dispositions[k := row];
      }
    }

    /** `ORDER BY claimed_at, event_key LIMIT 1` over the unfinished claims. */
    method PendingResumeClaim() returns (claim: Option<Key>)
      ensures match claim
              case None => forall k :: !Unfinished(dispositions, k)
              case Some(k) => FirstClaim(dispositions, k)
    {
      claim := None;
      var todo := dispositions.Keys;
      while todo != {}
        invariant todo <= dispositions.Keys
        invariant claim.None? ==> forall k :: k !in todo ==> !Unfinished(dispositions, k)
        invariant claim.Some? ==> Unfinished(dispositions, claim.value)
        invariant claim.Some? ==> forall k :: k !in todo && Unfinished(dispositions, k) ==> Before(dispositions, claim.value, k)
        decreases todo
      {
        var k :| k in todo;
        if Unfinished(dispositions, k) && (claim.None? || Before(dispositions, k, claim.value)) { claim := Some(k); }
        todo := todo - {k};
      }
    }

    method ActivateInitialWorkflow(c: CycleId, digest: string) returns (ok: bool)
      modifies this`lifecycle
      ensures ok == Step(old(View()), Activate(c, digest)).Some?
      ensures View() == Step(old(View()), Activate(c, digest)).GetOr(old(View()))
    {
      match lifecycle
      case None => return false;
      case Some(row) =>
        if row.state == NotStarted {
          lifecycle := Some(row.(state := Active, cycle := Some(c), digest := Some(digest)));
          return true;
        }
        return row.cycle == Some(c) && row.digest == Some(digest);
    }

    method CompleteInitialWorkflow(c: CycleId) returns (ok: bool)
      modifies this`lifecycle
      ensures ok == Step(old(View()), CompleteInitial(c)).Some?
      ensures View() == Step(old(View()), CompleteInitial(c)).GetOr(old(View()))
    {
      match lifecycle
      case None => return false;
      case Some(row) =>
        if row.state == Active && row.cycle == Some(c) {
          lifecycle := Some(row.(state := Complete));
          return true;
        }
        return row.state in {Complete, Published};
    }

    method AnyPendingInput() returns (found: bool)
      ensures found <==> !NothingPending(View())
    {
      var todo := inputs.Keys;
      while todo != {}
        invariant todo <= inputs.Keys
        invariant forall id :: id in inputs && id !in todo ==> inputs[id].status != PENDING
        decreases todo
      {
        var id :| id in todo;
        if inputs[id].status == PENDING { return true; }
        todo := todo - {id};
      }
      return false;
    }

    /** The inbox check, the cycle updates and the lifecycle update of `finalize_publication`. */
    method FinalizePublication(c: CycleId, proven: bool) returns (ok: bool)
      modifies this`cycles, this`lifecycle
      ensures ok == Step(old(View()), Finalize(c, proven)).Some?
      ensures View() == Step(old(View()), Finalize(c, proven)).GetOr(old(View()))
    {
      var pending := AnyPendingInput();
      if pending || !proven || c + 1 != |cycles| || cycles[c].status != AWAITING_PUBLICATION { return false; }
      if lifecycle.None? || lifecycle.value.state !in {Complete, Published} { return false; }
      var i := 0;
      while i < |cycles|
        invariant 0 <= i <= |cycles| && |cycles| == |old(cycles)| && lifecycle == old(lifecycle)
        invariant forall j :: 0 <= j < i ==> cycles[j] == Closed(old(cycles))[j]
        invariant forall j :: i <= j < |cycles| ==> cycles[j] == old(cycles)[j]
      {
        if cycles[i].status == AWAITING_PUBLICATION { cycles := cycles[i := cycles[i].(status := PUBLISHED)]; }
        i := i + 1;
      }
      assert cycles == Closed(old(cycles));
      lifecycle := Some(lifecycle.value.(state := Published));
      return true;
    }
  }

  lemma RouteOneMore(s: Inbox, rows: seq<Event>, i: nat, at: Time)
    requires s.lifecycle.Some? && i < |rows|
    ensures var before := RouteAll(s, rows[..i], at);
      RouteAll(s, rows[..i + 1], at) ==
      Routing(Classified(before.inbox, rows[i], KindOf(s, rows[i]), at),
        before.routed + (if KindOf(s, rows[i]) == REVISION_QUEUED then [rows[i].key] else []))
  {
    assert rows[..i + 1][..i] == rows[..i];
  }

  lemma SameKind(s: Inbox, t: Inbox, e: Event)
    requires SameContext(s, t) && s.lifecycle.Some?
    ensures KindOf(s, e) == KindOf(t, e)
  {
  }
}
