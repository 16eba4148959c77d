/** What a bind makes of the inputs that wait on the thread, read off the rows: exactly when it runs the plan, when steering
    holds it back, and what it leaves. */
module WorkflowSteering {
  import opened Prelude
  import opened WorkflowModel
  import opened WorkflowRun
  import opened WorkflowInvariant
  import opened WorkflowPlanning
  import opened WorkflowRepair
  import opened WorkflowPhases
  import opened WorkflowProgress

  type Execs = map<ExecKey, ExecStatus>
  type Inputs = map<EventKey, Purpose>

  /** An event other than the root that nobody has consumed. */
  predicate Unread(inputs: Inputs, root: EventKey, e: Event) { e.key != root && e.key !in inputs }

  /** Somebody asks for something else: an invocation that is no exact approval waits. */
  ghost predicate Steered(events: seq<Event>, inputs: Inputs, root: EventKey) {
    exists e :: e in events && Unread(inputs, root, e) && e.body == Invocation
  }

  predicate RanCode(execs: Execs, k: EventKey) { EventExec(k) in execs && execs[EventExec(k)] != RowSkipped }

  /** A waiting approval whose event has run code stands before any steering. */
  ghost predicate Refuses(events: seq<Event>, execs: Execs, inputs: Inputs, root: EventKey) {
    exists i :: RefusesAt(events, execs, inputs, root, i)
  }

  ghost predicate RefusesAt(events: seq<Event>, execs: Execs, inputs: Inputs, root: EventKey, i: int) {
    && 0 <= i < |events|
    && Unread(inputs, root, events[i]) && events[i].body == ExactApproval && RanCode(execs, events[i].key)
    && forall j :: 0 <= j < i && Unread(inputs, root, events[j]) ==> events[j].body != Invocation
  }

  ghost predicate WaitingApproval(events: seq<Event>, inputs: Inputs, root: EventKey, k: EventKey) {
    exists e :: e in events && Unread(inputs, root, e) && e.body == ExactApproval && e.key == k
  }

  // ------------------------------------------------------------------ the scan

  lemma RefusesFirst(events: seq<Event>, execs: Execs, inputs: Inputs, root: EventKey)
    requires events != []
    ensures Refuses(events, execs, inputs, root) <==>
      if !Unread(inputs, root, events[0]) then Refuses(events[1..], execs, inputs, root)
      else match events[0].body
        case Invocation => false
        case Chatter => Refuses(events[1..], execs, inputs, root)
        case ExactApproval => RanCode(execs, events[0].key) || Refuses(events[1..], execs, inputs, root)
  {
    var rest := events[1..];
    if Refuses(events, execs, inputs, root) {
      var i :| RefusesAt(events, execs, inputs, root, i);
      if i > 0 {
        assert forall j :: 0 <= j < i - 1 ==> rest[j] == events[j + 1];
        assert RefusesAt(rest, execs, inputs, root, i - 1);
      }
    }
    if Refuses(rest, execs, inputs, root) && (Unread(inputs, root, events[0]) ==> events[0].body != Invocation) {
      var i :| RefusesAt(rest, execs, inputs, root, i);
      assert forall j :: 0 < j <= i ==> events[j] == rest[j - 1];
      assert RefusesAt(events, execs, inputs, root, i + 1);
    }
    if Unread(inputs, root, events[0]) && events[0].body == ExactApproval && RanCode(execs, events[0].key) {
      assert RefusesAt(events, execs, inputs, root, 0);
    }
  }

  lemma SteeredFirst(events: seq<Event>, inputs: Inputs, root: EventKey)
    requires events != []
    ensures Steered(events, inputs, root) <==>
      (Unread(inputs, root, events[0]) && events[0].body == Invocation) || Steered(events[1..], inputs, root)
  {
    assert forall e :: e in events <==> e == events[0] || e in events[1..];
  }

  /** Skipping an approval that has run no code refuses nothing else. */
  lemma SkippingRefuses(events: seq<Event>, execs: Execs, inputs: Inputs, root: EventKey, k: EventKey)
    requires !RanCode(execs, k)
    ensures Refuses(events, execs[EventExec(k) := RowSkipped], inputs, root) <==> Refuses(events, execs, inputs, root)
  {
    var after := execs[EventExec(k) := RowSkipped];
    assert forall j :: RanCode(after, j) <==> RanCode(execs, j);
    forall i ensures RefusesAt(events, after, inputs, root, i) <==> RefusesAt(events, execs, inputs, root, i) {}
  }

  /** How the scan ends, for rows `now` and `taken` reached part of the way. */
  lemma {:induction false} ScanEnds(events: seq<Event>, inputs: Inputs, root: EventKey, now: Execs, taken: Inputs)
    ensures var r := SweepPending(Pending(events, inputs, root), now, taken);
      && (r.Clash? <==> Refuses(events, now, inputs, root))
      && (!r.Clash? ==> (r.Waiting? <==> Steered(events, inputs, root)))
  {
    if events != [] {
      RefusesFirst(events, now, inputs, root);
      SteeredFirst(events, inputs, root);
      hide Refuses, Steered;
      var e, rest := events[0], events[1..];
      if Unread(inputs, root, e) {
        var pending := Pending(events, inputs, root);
        assert pending[0] == e && pending[1..] == Pending(rest, inputs, root);
        match e.body
        case ExactApproval =>
          if !RanCode(now, e.key) {
            SkippingRefuses(rest, now, inputs, root, e.key);
            ScanEnds(rest, inputs, root, now[EventExec(e.key) := RowSkipped], Consume(taken, e.key, STALE_PLAN_APPROVAL));
          }
        case Invocation =>
        case Chatter => ScanEnds(rest, inputs, root, now, taken);
      } else {
        ScanEnds(rest, inputs, root, now, taken);
      }
    }
  }

  /** What a scan that passes leaves: every waiting approval is skipped and consumed as stale, nothing else moves. */
  ghost predicate Passes(events: seq<Event>, inputs: Inputs, root: EventKey, now: Execs, taken: Inputs, execs: Execs, consumed: Inputs) {
    && (forall x :: x in execs <==> x in now || (x.EventExec? && WaitingApproval(events, inputs, root, x.key)))
    && (forall x :: x in execs && x in now && !(x.EventExec? && WaitingApproval(events, inputs, root, x.key)) ==> execs[x] == now[x])
    && (forall k :: WaitingApproval(events, inputs, root, k) ==> EventExec(k) in execs && execs[EventExec(k)] == RowSkipped)
    && (forall k :: k in consumed <==> k in taken || WaitingApproval(events, inputs, root, k))
    && (forall k :: k in consumed ==> consumed[k] == if k in taken then taken[k] else STALE_PLAN_APPROVAL)
  }

  lemma WaitingFirst(events: seq<Event>, inputs: Inputs, root: EventKey, k: EventKey)
    requires events != []
    ensures WaitingApproval(events, inputs, root, k) <==>
      (Unread(inputs, root, events[0]) && events[0].body == ExactApproval && events[0].key == k) ||
      WaitingApproval(events[1..], inputs, root, k)
  {
    assert forall e :: e in events <==> e == events[0] || e in events[1..];
  }

  lemma PassesMore(events: seq<Event>, inputs: Inputs, root: EventKey, now: Execs, taken: Inputs, execs: Execs, consumed: Inputs)
    requires events != [] && Unread(inputs, root, events[0]) && events[0].body == ExactApproval
    requires var k := events[0].key;
      Passes(events[1..], inputs, root, now[EventExec(k) := RowSkipped], Consume(taken, k, STALE_PLAN_APPROVAL), execs, consumed)
    ensures Passes(events, inputs, root, now, taken, execs, consumed)
  {
    forall k ensures WaitingApproval(events, inputs, root, k) <==>
        events[0].key == k || WaitingApproval(events[1..], inputs, root, k)
    {
      WaitingFirst(events, inputs, root, k);
    }
    hide WaitingApproval, Unread;
  }

  lemma PassesOver(events: seq<Event>, inputs: Inputs, root: EventKey, now: Execs, taken: Inputs, execs: Execs, consumed: Inputs)
    requires events != [] && !(Unread(inputs, root, events[0]) && events[0].body == ExactApproval)
    requires Passes(events[1..], inputs, root, now, taken, execs, consumed)
    ensures Passes(events, inputs, root, now, taken, execs, consumed)
  {
    forall k ensures WaitingApproval(events, inputs, root, k) <==> WaitingApproval(events[1..], inputs, root, k) {
      WaitingFirst(events, inputs, root, k);
    }
    hide WaitingApproval, Unread;
  }

  lemma {:induction false} ScanLeaves(events: seq<Event>, inputs: Inputs, root: EventKey, now: Execs, taken: Inputs)
    ensures var r := SweepPending(Pending(events, inputs, root), now, taken);
      r.Swept? ==> Passes(events, inputs, root, now, taken, r.execs, r.inputs)
  {
    if events != [] {
      hide Passes;
      var e, rest := events[0], events[1..];
      var r := SweepPending(Pending(events, inputs, root), now, taken);
      if Unread(inputs, root, e) {
        var pending := Pending(events, inputs, root);
        assert pending[0] == e && pending[1..] == Pending(rest, inputs, root);
        match e.body
        case ExactApproval =>
          ScanLeaves(rest, inputs, root, now[EventExec(e.key) := RowSkipped], Consume(taken, e.key, STALE_PLAN_APPROVAL));
          if r.Swept? { PassesMore(events, inputs, root, now, taken, r.execs, r.inputs); }
        case Invocation =>
        case Chatter =>
          ScanLeaves(rest, inputs, root, now, taken);
          if r.Swept? { PassesOver(events, inputs, root, now, taken, r.execs, r.inputs); }
      } else {
        ScanLeaves(rest, inputs, root, now, taken);
        if r.Swept? { PassesOver(events, inputs, root, now, taken, r.execs, r.inputs); }
      }
    } else {
      assert SweepPending(Pending(events, inputs, root), now, taken) == Swept(now, taken);
    }
  }

  // ------------------------------------------------------------------ bind_authorized_execution

  /** The permit names the current plan of the current cycle at its exact version, and is not withdrawn. */
  predicate Names(db: Db, k: PermitId) {
    && k in db.permits && !db.permits[k].invalidated
    && db.state.Some? && db.state.value.phase == EXECUTION_READY
    && db.state.value.cycle == db.permits[k].cycle && db.state.value.plan == db.permits[k].plan
    && db.permits[k].plan in db.plans
    && db.plans[db.permits[k].plan].version == db.permits[k].version
    && db.plans[db.permits[k].plan].root == db.permits[k].root
    && (db.plans[db.permits[k].plan].status == APPROVED || db.plans[db.permits[k].plan].status == AUTO_APPROVED)
  }

  /** The plan was made for the root event itself rather than for a deferred follow-up. */
  predicate ForRoot(p: Plan) { p.input == None || p.input == Some(FromEvent(p.root)) }

  /** The execution row the permit claims. */
  function Claimed(db: Db, k: PermitId): ExecKey
    requires k in db.permits && db.permits[k].plan in db.plans
  {
    var p := db.plans[db.permits[k].plan];
    if ForRoot(p) then EventExec(db.permits[k].root) else LogicalExec(db.permits[k].cycle, p.input.value)
  }

  /** The row is new or handed back, and a permit used before is used again only for a row handed back. */
  predicate RowFree(db: Db, k: PermitId)
    requires k in db.permits && db.permits[k].plan in db.plans
  {
    var root, p := EventExec(db.permits[k].root), db.plans[db.permits[k].plan];
    var x := Claimed(db, k);
    && (x in db.execs ==> db.execs[x] == RowRetryPending || (x.LogicalExec? && db.execs[x] == RowInterrupted))
    && (db.permits[k].consumed ==> root in db.execs && db.execs[root] == RowRetryPending)
  }

  /** The event is done with: skipped, or succeeded and published. */
  predicate DoneWith(db: Db, k: EventKey) {
    EventExec(k) in db.execs &&
    (db.execs[EventExec(k)] == RowSkipped ||
     (db.execs[EventExec(k)] == RowSucceeded &&
      exists p :: p in db.pubs && p.1 == FromEvent(k) && (db.pubs[p] == PubCompleted || db.pubs[p] == PubNoChanges)))
  }

  /** Every event before the root is done with, or is an approval that this bind makes stale. */
  ghost predicate AtHead(db: Db, root: EventKey) {
    forall i, j :: 0 <= j < i < |db.events| && db.events[i].key == root ==>
      DoneWith(db, db.events[j].key) || WaitingApproval(db.events, db.inputs, root, db.events[j].key)
  }

  ghost predicate Stored(events: seq<Event>, k: EventKey) { exists e :: e in events && e.key == k }

  /** A bind goes through exactly when the permit stands, the root is stored and first in line, its row is free, no
      steering waits, and no waiting approval has run code. */
  lemma BindExactly(db: Db, k: PermitId)
    ensures BindAuthorized(db, k).Some? <==>
      && Names(db, k) && Stored(db.events, db.permits[k].root) && RowFree(db, k) && AtHead(db, db.permits[k].root)
      && !Steered(db.events, db.inputs, db.permits[k].root)
      && forall j :: WaitingApproval(db.events, db.inputs, db.permits[k].root, j) ==> !RanCode(db.execs, j)
  {
    hide SweepPending, Pending;
    assert PermitBindable(db, k) <==> Names(db, k) && Stored(db.events, db.permits[k].root) by { BindableNames(db, k); }
    if PermitBindable(db, k) {
      var root := db.permits[k].root;
      var scan := SweepPending(Pending(db.events, db.inputs, root), db.execs, db.inputs);
      ScanEnds(db.events, db.inputs, root, db.execs, db.inputs);
      ScanLeaves(db.events, db.inputs, root, db.execs, db.inputs);
      hide PermitBindable, Names, Stored, RowFree, AtHead, RowClaimable;
      if scan.Swept? {
        NoRefusal(db, root);
        ClaimableRows(db, k, scan.execs, scan.inputs);
      } else {
        SomeRefusal(db, root);
      }
      hide Refuses, Steered, WaitingApproval, Passes, RanCode;
      BindThen(db, k);
    } else {
      BindThen(db, k);
    }
  }

  lemma BindableNames(db: Db, k: PermitId)
    ensures PermitBindable(db, k) <==> Names(db, k) && Stored(db.events, db.permits[k].root)
  {
  }

  lemma BindThen(db: Db, k: PermitId)
    ensures !PermitBindable(db, k) ==> BindAuthorized(db, k) == None
    ensures PermitBindable(db, k) ==>
      var scan := SweepPending(Pending(db.events, db.inputs, db.permits[k].root), db.execs, db.inputs);
      var input := Effective(db.plans[db.permits[k].plan].input, db.plans[db.permits[k].plan].root);
      BindAuthorized(db, k).Some? <==>
        scan.Swept? && RowClaimable(db.(execs := scan.execs, inputs := scan.inputs), db.permits[k], input)
  {
    hide SweepPending, Pending, RowClaimable, InsertInitial;
  }

  lemma NoRefusal(db: Db, root: EventKey)
    requires !Refuses(db.events, db.execs, db.inputs, root) && !Steered(db.events, db.inputs, root)
    ensures forall j :: WaitingApproval(db.events, db.inputs, root, j) ==> !RanCode(db.execs, j)
  {
    forall j | WaitingApproval(db.events, db.inputs, root, j) ensures !RanCode(db.execs, j) {
      var e :| e in db.events && Unread(db.inputs, root, e) && e.body == ExactApproval && e.key == j;
      var i :| 0 <= i < |db.events| && db.events[i] == e;
      assert !RefusesAt(db.events, db.execs, db.inputs, root, i);
    }
  }

  lemma SomeRefusal(db: Db, root: EventKey)
    requires Refuses(db.events, db.execs, db.inputs, root) || Steered(db.events, db.inputs, root)
    ensures Steered(db.events, db.inputs, root) || exists j :: WaitingApproval(db.events, db.inputs, root, j) && RanCode(db.execs, j)
  {
    if Refuses(db.events, db.execs, db.inputs, root) {
      var i :| RefusesAt(db.events, db.execs, db.inputs, root, i);
      assert WaitingApproval(db.events, db.inputs, root, db.events[i].key);
    }
  }

  /** The row guards read the rows the scan left, which differ only where an approval waited. */
  lemma ClaimableRows(db: Db, k: PermitId, execs: Execs, consumed: Inputs)
    requires PermitBindable(db, k) && Passes(db.events, db.inputs, db.permits[k].root, db.execs, db.inputs, execs, consumed)
    ensures var p := db.plans[db.permits[k].plan];
      RowClaimable(db.(execs := execs, inputs := consumed), db.permits[k], Effective(p.input, p.root)) <==>
      RowFree(db, k) && AtHead(db, db.permits[k].root)
  {
    var root, p := db.permits[k].root, db.plans[db.permits[k].plan];
    var swept := db.(execs := execs, inputs := consumed);
    assert !WaitingApproval(db.events, db.inputs, root, root);
    assert p.root == root;
    forall j ensures Resolved(swept, j) <==> DoneWith(db, j) || WaitingApproval(db.events, db.inputs, root, j) {
      assert Published(swept, j) == Published(db, j);
      assert EventExec(j) in execs <==> EventExec(j) in db.execs || WaitingApproval(db.events, db.inputs, root, j);
    }
    assert OrderingHolds(swept, root) <==> AtHead(db, root) by { hide Resolved, DoneWith, WaitingApproval, Passes; }
    hide Resolved, DoneWith, WaitingApproval, OrderingHolds, AtHead;
  }

  /** What the bind leaves: the claimed row runs, the permit is consumed, the waiting approvals are stale, the plan is being
      executed, and attempt number 1 is there unless its number was taken. */
  lemma BindLeaves(db: Db, k: PermitId)
    requires BindAuthorized(db, k).Some?
    ensures var d, permit := BindAuthorized(db, k).value, db.permits[k];
      && d == db.(execs := d.execs, inputs := d.inputs, permits := d.permits, attempts := d.attempts, state := d.state)
      && db.state.Some? && d.state == Some(db.state.value.(phase := EXECUTING))
      && k in db.permits && d.permits == db.permits[k := permit.(consumed := true)]
      && permit.plan in db.plans
      && (exists execs :: Passes(db.events, db.inputs, permit.root, db.execs, db.inputs, execs, d.inputs) &&
           d.execs == execs[Claimed(db, k) := RowRunning])
      && d.attempts ==
         if InitialOf(k) in db.attempts ||
            (exists a :: a in db.attempts && db.attempts[a].cycle == permit.cycle && db.attempts[a].number == 1)
           then db.attempts
           else db.attempts[InitialOf(k) := Attempt(permit.cycle, permit.plan, permit.version, permit.root, 1, INITIAL, 0, None,
                                                    ByPermit(k), Running, 0, 0, 0)]
  {
    var root := db.permits[k].root;
    var scan := SweepPending(Pending(db.events, db.inputs, root), db.execs, db.inputs);
    ScanLeaves(db.events, db.inputs, root, db.execs, db.inputs);
    hide SweepPending, Pending, RowClaimable, Passes;
    assert Passes(db.events, db.inputs, root, db.execs, db.inputs, scan.execs, scan.inputs);
  }

  // ------------------------------------------------------------------ bind_repair_execution

  /** A scan that stops: the approvals before the first steering are stale already. */
  lemma {:induction false} ScanStops(events: seq<Event>, inputs: Inputs, root: EventKey, now: Execs, taken: Inputs) returns (i: nat)
    requires SweepPending(Pending(events, inputs, root), now, taken).Waiting?
    ensures FirstSteering(events, inputs, root, i)
    ensures var r := SweepPending(Pending(events, inputs, root), now, taken);
      r.key == events[i].key && Passes(events[..i], inputs, root, now, taken, r.execs, r.inputs)
  {
    hide Passes;
    var e, rest := events[0], events[1..];
    var pending := Pending(events, inputs, root);
    var r := SweepPending(pending, now, taken);
    if Unread(inputs, root, e) {
      assert pending[0] == e && pending[1..] == Pending(rest, inputs, root);
      match e.body
      case ExactApproval =>
        i := ScanStops(rest, inputs, root, now[EventExec(e.key) := RowSkipped], Consume(taken, e.key, STALE_PLAN_APPROVAL));
        assert events[..i + 1][1..] == rest[..i];
        PassesMore(events[..i + 1], inputs, root, now, taken, r.execs, r.inputs);
        i := i + 1;
      case Invocation =>
        i := 0;
        assert Passes([], inputs, root, now, taken, now, taken) by { NothingPasses(inputs, root, now, taken); }
        assert events[..0] == [];
      case Chatter =>
        i := ScanStops(rest, inputs, root, now, taken);
        assert events[..i + 1][1..] == rest[..i];
        PassesOver(events[..i + 1], inputs, root, now, taken, r.execs, r.inputs);
        i := i + 1;
    } else {
      i := ScanStops(rest, inputs, root, now, taken);
      assert events[..i + 1][1..] == rest[..i];
      PassesOver(events[..i + 1], inputs, root, now, taken, r.execs, r.inputs);
      i := i + 1;
    }
    hide Passes, SweepPending, Pending;
    assert forall j :: 0 < j < i ==> events[j] == rest[j - 1];
  }

  lemma NothingPasses(inputs: Inputs, root: EventKey, now: Execs, taken: Inputs)
    ensures Passes([], inputs, root, now, taken, now, taken)
  {
  }

  ghost predicate FirstSteering(events: seq<Event>, inputs: Inputs, root: EventKey, i: nat) {
    && i < |events| && Unread(inputs, root, events[i]) && events[i].body == Invocation
    && forall j :: 0 <= j < i && Unread(inputs, root, events[j]) ==> events[j].body != Invocation
  }

  /** The review the repair permit was issued for, its plan and the attempt it judged, all of the permit's own cycle. */
  predicate Issued(db: Db, p: Repair) {
    && p.plan in db.plans && db.plans[p.plan].version == p.version
    && (db.plans[p.plan].status == APPROVED || db.plans[p.plan].status == AUTO_APPROVED)
    && p.parent in db.reviews
    && db.reviews[p.parent] == Review(p.cycle, p.plan, p.version, p.root, db.reviews[p.parent].attempt, NEEDS_FIXES)
    && db.reviews[p.parent].attempt in db.attempts
    && var t := db.attempts[db.reviews[p.parent].attempt];
    && t.status == Succeeded && t.cycle == p.cycle && t.plan == p.plan && t.version == p.version && t.root == p.root
    && t.round + 1 == p.round
  }

  /** The usable permit of the ready repair, and the attempt it starts or starts again. */
  ghost predicate RepairNames(db: Db, i: RepairId) {
    && i in db.repairs && !db.repairs[i].consumed && !db.repairs[i].invalidated
    && var p := db.repairs[i];
    && db.state.Some? && db.state.value.phase == REPAIR_READY
    && db.state.value.cycle == p.cycle && db.state.value.root == p.root && db.state.value.plan == p.plan
    && Issued(db, p)
    && var judged := db.reviews[p.parent].attempt;
    && (RepairOf(i) in db.attempts ==>
          var t := db.attempts[RepairOf(i)];
          && t.kind == REVIEW_REPAIR && (t.status == Failed || t.status == Running)
          && t.cycle == p.cycle && t.plan == p.plan && t.version == p.version && t.root == p.root
          && t.parent == Some(p.parent) && t.round == p.round && t.number == db.attempts[judged].number + 1)
    && (RepairOf(i) !in db.attempts ==>
          forall b :: b in db.attempts && db.attempts[b].cycle == p.cycle ==> db.attempts[b].number <= db.attempts[judged].number)
  }

  /** The attempt of the repair: started again with one more retry, or the next number and round. */
  function RepairAttempt(db: Db, i: RepairId): Attempt
    requires i in db.repairs && db.repairs[i].parent in db.reviews && db.reviews[db.repairs[i].parent].attempt in db.attempts
  {
    var p := db.repairs[i];
    if RepairOf(i) in db.attempts then
      var t := db.attempts[RepairOf(i)]; t.(status := Running, retries := t.retries + 1)
    else
      Attempt(p.cycle, p.plan, p.version, p.root, 1 + db.attempts[db.reviews[p.parent].attempt].number, REVIEW_REPAIR, p.round,
              Some(p.parent), ByRepair(i), Running, 0, 0, 0)
  }

  /** The repair runs, and every waiting approval is stale. */
  ghost predicate RepairRuns(db: Db, i: RepairId, d: Db)
    requires RepairNames(db, i)
  {
    && d == db.(execs := d.execs, inputs := d.inputs, state := Some(db.state.value.(phase := EXECUTING)),
                attempts := db.attempts[RepairOf(i) := RepairAttempt(db, i)])
    && Passes(db.events, db.inputs, db.repairs[i].root, db.execs, db.inputs, d.execs, d.inputs)
  }

  /** The review is blocked and the permit withdrawn; the approvals before the steering are stale. */
  ghost predicate RepairHeldBack(db: Db, i: RepairId, d: Db)
    requires RepairNames(db, i)
  {
    && d == db.(execs := d.execs, inputs := d.inputs, state := Some(db.state.value.(phase := REVIEW_BLOCKED)),
                repairs := db.repairs[i := db.repairs[i].(invalidated := true)])
    && exists j: nat :: FirstSteering(db.events, db.inputs, db.repairs[i].root, j) &&
         Passes(db.events[..j], db.inputs, db.repairs[i].root, db.execs, db.inputs, d.execs, d.inputs)
  }

  /** A repair bind raises exactly when its permit does not stand or a waiting approval before any steering has run code.
      Otherwise it ends in REVIEW_BLOCKED exactly when somebody steers, and else runs the repair. */
  lemma RepairBindExactly(db: Db, i: RepairId)
    ensures BindRepair(db, i).Some? <==> RepairNames(db, i) && !Refuses(db.events, db.execs, db.inputs, db.repairs[i].root)
    ensures match BindRepair(db, i)
            case None => true
            case Some(d) =>
              if Steered(db.events, db.inputs, db.repairs[i].root) then RepairHeldBack(db, i, d) else RepairRuns(db, i, d)
  {
    RepairBindableNames(db, i);
    hide RepairBindable, RepairNames;
    if RepairBindable(db, i) {
      RepairBindThen(db, i);
      var root := db.repairs[i].root;
      ScanEnds(db.events, db.inputs, root, db.execs, db.inputs);
      ScanLeaves(db.events, db.inputs, root, db.execs, db.inputs);
      var scan := SweepPending(Pending(db.events, db.inputs, root), db.execs, db.inputs);
      hide BindRepair, Refuses, Steered, Passes, SweepPending, Pending, FirstSteering, RepairHeldBack, RepairRuns, RepairRow;
      if scan.Waiting? {
        var j := ScanStops(db.events, db.inputs, root, db.execs, db.inputs);
        HeldBackIs(db, i, BindRepair(db, i).value, j);
      } else if scan.Swept? {
        RunsIs(db, i, BindRepair(db, i).value);
      }
    } else {
      assert BindRepair(db, i) == None;
    }
  }

  lemma HeldBackIs(db: Db, i: RepairId, d: Db, j: nat)
    requires RepairNames(db, i) && i in db.repairs && db.state.Some?
    requires d == WithPhase(db, REVIEW_BLOCKED).(
      execs := d.execs, inputs := d.inputs, repairs := db.repairs[i := db.repairs[i].(invalidated := true)])
    requires FirstSteering(db.events, db.inputs, db.repairs[i].root, j)
    requires Passes(db.events[..j], db.inputs, db.repairs[i].root, db.execs, db.inputs, d.execs, d.inputs)
    ensures RepairHeldBack(db, i, d)
  {
    hide RepairNames, FirstSteering, Passes;
  }

  lemma RunsIs(db: Db, i: RepairId, d: Db)
    requires RepairNames(db, i) && i in db.repairs && db.state.Some?
    requires db.repairs[i].parent in db.reviews && db.reviews[db.repairs[i].parent].attempt in db.attempts
    requires d == WithPhase(db, EXECUTING).(
      execs := d.execs, inputs := d.inputs, attempts := db.attempts[RepairOf(i) := RepairRow(db, i)])
    requires Passes(db.events, db.inputs, db.repairs[i].root, db.execs, db.inputs, d.execs, d.inputs)
    ensures RepairRuns(db, i, d)
  {
    hide RepairNames, Passes;
  }

  /** The bind of a permit that stands, by how its scan ends. */
  lemma RepairBindThen(db: Db, i: RepairId)
    requires RepairBindable(db, i)
    ensures i in db.repairs && db.state.Some?
    ensures db.repairs[i].parent in db.reviews && db.reviews[db.repairs[i].parent].attempt in db.attempts
    ensures match SweepPending(Pending(db.events, db.inputs, db.repairs[i].root), db.execs, db.inputs)
            case Clash => BindRepair(db, i) == None
            case Waiting(_, execs, inputs) =>
              BindRepair(db, i) == Some(WithPhase(db, REVIEW_BLOCKED).(
                execs := execs, inputs := inputs, repairs := db.repairs[i := db.repairs[i].(invalidated := true)]))
            case Swept(execs, inputs) =>
              BindRepair(db, i) == Some(WithPhase(db, EXECUTING).(
                execs := execs, inputs := inputs, attempts := db.attempts[RepairOf(i) := RepairRow(db, i)]))
  {
    RepairBindableNames(db, i);
    hide RepairBindable, SweepPending, Pending, RepairRow, RepairNames;
  }

  lemma RepairBindableNames(db: Db, i: RepairId)
    ensures RepairBindable(db, i) <==> RepairNames(db, i)
    ensures RepairNames(db, i) ==>
      i in db.repairs && db.state.Some? && db.repairs[i].parent in db.reviews && db.reviews[db.repairs[i].parent].attempt in db.attempts
  {
    IssuedMatches(db, i);
    hide Issued, ChainMatches;
  }

  lemma IssuedMatches(db: Db, i: RepairId)
    ensures i in db.repairs ==> (ChainMatches(db, db.repairs[i]) <==> Issued(db, db.repairs[i]))
    ensures i in db.repairs && Issued(db, db.repairs[i]) ==>
      && db.repairs[i].parent in db.reviews && db.reviews[db.repairs[i].parent].attempt in db.attempts
      && db.attempts[db.reviews[db.repairs[i].parent].attempt].cycle == db.repairs[i].cycle
  {
  }

  /** Over every run of a fresh thread the usable repair permit binds: the repair is held back exactly when somebody steers. */
  lemma ReadyRepair(s: Sys, labels: seq<Label>, t: Sys, i: RepairId)
    requires Initial(s) && RowsKnown(s.db) && Run(s, labels) == Some(t)
    requires InPhase(t.db, REPAIR_READY) && i in t.db.repairs && !t.db.repairs[i].consumed && !t.db.repairs[i].invalidated
    ensures RepairNames(t.db, i) && BindRepair(t.db, i).Some?
    ensures var d := BindRepair(t.db, i).value;
      if Steered(t.db.events, t.db.inputs, t.db.state.value.root) then RepairHeldBack(t.db, i, d) else RepairRuns(t.db, i, d)
  {
    hide Next, Referenced, RowsKnown, SweepPending, Pending, Steered, RepairHeldBack, RepairRuns, BindRepair;
    RepairScanNeverRefuses(s, labels, t);
    SoundTables(t);
    hide Inv, Sound;
    ReadyBindable(t.db, i);
    RepairBindExactly(t.db, i);
    RepairBindableNames(t.db, i);
    hide RepairBindable;
    ScanEnds(t.db.events, t.db.inputs, t.db.repairs[i].root, t.db.execs, t.db.inputs);
  }

  // ------------------------------------------------------------------ talk

  /** The events without the plain talk. */
  function Spoken(events: seq<Event>): seq<Event> {
    if events == [] then [] else (if events[0].body == Chatter then [] else [events[0]]) + Spoken(events[1..])
  }

  lemma {:induction false} SpokenHolds(events: seq<Event>, e: Event)
    ensures e in Spoken(events) <==> e in events && e.body != Chatter
  {
    if events != [] { SpokenHolds(events[1..], e); }
  }

  /** One event stands before another. */
  ghost predicate Before(events: seq<Event>, x: Event, y: Event) {
    exists j, i :: 0 <= j < i < |events| && events[j] == x && events[i] == y
  }

  lemma BeforeFirst(events: seq<Event>, x: Event, y: Event)
    requires events != []
    ensures Before(events, x, y) <==> (events[0] == x && y in events[1..]) || Before(events[1..], x, y)
  {
    var rest := events[1..];
    if Before(events, x, y) {
      var j, i :| 0 <= j < i < |events| && events[j] == x && events[i] == y;
      assert rest[i - 1] == y;
      if j > 0 { assert rest[j - 1] == x; }
    }
    if events[0] == x && y in rest {
      var i :| 0 <= i < |rest| && rest[i] == y;
      assert events[i + 1] == y;
    }
    if Before(rest, x, y) {
      var j, i :| 0 <= j < i < |rest| && rest[j] == x && rest[i] == y;
      assert events[j + 1] == x && events[i + 1] == y;
    }
  }

  lemma {:induction false} SpokenBefore(events: seq<Event>, x: Event, y: Event)
    ensures Before(Spoken(events), x, y) <==> Before(events, x, y) && x.body != Chatter && y.body != Chatter
  {
    if events != [] {
      var rest := events[1..];
      SpokenBefore(rest, x, y);
      SpokenHolds(rest, y);
      BeforeFirst(events, x, y);
      if events[0].body != Chatter {
        assert Spoken(events)[0] == events[0] && Spoken(events)[1..] == Spoken(rest);
        BeforeFirst(Spoken(events), x, y);
      } else {
        assert Spoken(events) == Spoken(rest);
      }
      hide Before;
      if Before(rest, x, y) { assert y in rest by { BeforeIn(rest, x, y); } }
    }
  }

  lemma BeforeIn(events: seq<Event>, x: Event, y: Event)
    requires Before(events, x, y)
    ensures x in events && y in events
  {
  }

  lemma {:induction false} SpokenScan(events: seq<Event>, inputs: Inputs, root: EventKey, now: Execs, taken: Inputs)
    ensures SweepPending(Pending(Spoken(events), inputs, root), now, taken) == SweepPending(Pending(events, inputs, root), now, taken)
  {
    if events != [] {
      var e, rest := events[0], events[1..];
      var pending, spoken := Pending(events, inputs, root), Pending(Spoken(events), inputs, root);
      if e.body != Chatter {
        assert Spoken(events)[0] == e && Spoken(events)[1..] == Spoken(rest);
      } else {
        assert Spoken(events) == Spoken(rest);
      }
      if Unread(inputs, root, e) {
        assert pending[0] == e && pending[1..] == Pending(rest, inputs, root);
        if e.body != Chatter { assert spoken[0] == e && spoken[1..] == Pending(Spoken(rest), inputs, root); }
      }
      SpokenScan(rest, inputs, root, now, taken);
      SpokenScan(rest, inputs, root, now[EventExec(e.key) := RowSkipped], Consume(taken, e.key, STALE_PLAN_APPROVAL));
    }
  }

  /** Talk makes no difference to a repair bind. */
  lemma TalkHoldsNoRepair(db: Db, i: RepairId)
    ensures BindRepair(db.(events := Spoken(db.events)), i) ==
      match BindRepair(db, i) case None => None case Some(d) => Some(d.(events := Spoken(db.events)))
  {
    var quiet := db.(events := Spoken(db.events));
    QuietBindable(db, quiet, i);
    RepairBindableNames(db, i);
    hide RepairBindable, Spoken, RepairNames;
    if RepairBindable(db, i) {
      RepairBindThen(db, i);
      RepairBindThen(quiet, i);
      SpokenScan(db.events, db.inputs, db.repairs[i].root, db.execs, db.inputs);
      hide BindRepair, SweepPending, Pending, RepairRow;
      SameRepairRow(db, quiet, i);
    } else {
      assert BindRepair(db, i) == None && BindRepair(quiet, i) == None;
    }
  }

  lemma QuietBindable(db: Db, quiet: Db, i: RepairId)
    requires quiet == db.(events := quiet.events)
    ensures RepairBindable(quiet, i) == RepairBindable(db, i)
  {
    if i in db.repairs { assert ChainMatches(quiet, db.repairs[i]) == ChainMatches(db, db.repairs[i]); }
    hide ChainMatches, IsLatest;
    RepairBindableNames(db, i);
    RepairBindableNames(quiet, i);
  }

  lemma SameRepairRow(db: Db, quiet: Db, i: RepairId)
    requires quiet == db.(events := quiet.events)
    requires i in db.repairs && db.repairs[i].parent in db.reviews && db.reviews[db.repairs[i].parent].attempt in db.attempts
    ensures RepairRow(quiet, i) == RepairRow(db, i)
  {
  }

  /** Nor to a bind, except that talk before the root must be done with like every other event there. */
  lemma TalkHoldsNoBind(db: Db, k: PermitId)
    requires k in db.permits && Stored(Spoken(db.events), db.permits[k].root)
    requires forall e, f :: e in db.events && f in db.events && e.key == f.key ==> e == f
    ensures BindAuthorized(db, k).Some? <==>
      && BindAuthorized(db.(events := Spoken(db.events)), k).Some?
      && forall x, y :: Before(db.events, x, y) && x.body == Chatter && y.key == db.permits[k].root ==> DoneWith(db, x.key)
  {
    var quiet, root := db.(events := Spoken(db.events)), db.permits[k].root;
    BindExactly(db, k);
    BindExactly(quiet, k);
    forall e ensures e in quiet.events <==> e in db.events && e.body != Chatter { SpokenHolds(db.events, e); }
    forall j ensures WaitingApproval(quiet.events, db.inputs, root, j) <==> WaitingApproval(db.events, db.inputs, root, j) {}
    assert Steered(quiet.events, db.inputs, root) <==> Steered(db.events, db.inputs, root);
    QuietHead(db, root);
    hide BindAuthorized, Spoken, AtHead, WaitingApproval, Steered, DoneWith, Before;
    if Names(db, k) { assert RowFree(quiet, k) == RowFree(db, k); }
  }

  /** The event does not hold back what stands behind it. */
  ghost predicate Settles(db: Db, root: EventKey, x: Event) {
    DoneWith(db, x.key) || WaitingApproval(db.events, db.inputs, root, x.key)
  }

  lemma HeadBefore(db: Db, root: EventKey)
    ensures AtHead(db, root) <==> forall x, y :: Before(db.events, x, y) && y.key == root ==> Settles(db, root, x)
  {
    hide DoneWith, WaitingApproval;
    if forall x, y :: Before(db.events, x, y) && y.key == root ==> Settles(db, root, x) {
      forall i, j | 0 <= j < i < |db.events| && db.events[i].key == root
        ensures DoneWith(db, db.events[j].key) || WaitingApproval(db.events, db.inputs, root, db.events[j].key)
      {
        assert Before(db.events, db.events[j], db.events[i]) && Settles(db, root, db.events[j]);
      }
    }
  }

  lemma QuietSettles(db: Db, root: EventKey, x: Event)
    requires forall e, f :: e in db.events && f in db.events && e.key == f.key ==> e == f
    ensures Settles(db.(events := Spoken(db.events)), root, x) == Settles(db, root, x)
    ensures x in db.events && x.body == Chatter ==> (Settles(db, root, x) <==> DoneWith(db, x.key))
  {
    var quiet := db.(events := Spoken(db.events));
    forall e ensures e in quiet.events <==> e in db.events && e.body != Chatter { SpokenHolds(db.events, e); }
    assert DoneWith(quiet, x.key) == DoneWith(db, x.key);
  }

  lemma QuietHead(db: Db, root: EventKey)
    requires Stored(Spoken(db.events), root)
    requires forall e, f :: e in db.events && f in db.events && e.key == f.key ==> e == f
    ensures AtHead(db, root) <==>
      && AtHead(db.(events := Spoken(db.events)), root)
      && forall x, y :: Before(db.events, x, y) && x.body == Chatter && y.key == root ==> DoneWith(db, x.key)
  {
    var quiet := db.(events := Spoken(db.events));
    HeadBefore(db, root);
    HeadBefore(quiet, root);
    forall x, y ensures Before(quiet.events, x, y) <==> Before(db.events, x, y) && x.body != Chatter && y.body != Chatter {
      SpokenBefore(db.events, x, y);
    }
    forall x, y | Before(db.events, x, y) ensures x in db.events && y in db.events { BeforeIn(db.events, x, y); }
    forall x ensures Settles(quiet, root, x) == Settles(db, root, x) { QuietSettles(db, root, x); }
    forall x | x in db.events && x.body == Chatter ensures Settles(db, root, x) <==> DoneWith(db, x.key) { QuietSettles(db, root, x); }
    RootSpoken(db, root);
    hide Before, DoneWith, Settles, AtHead, Spoken;
  }

  lemma RootSpoken(db: Db, root: EventKey)
    requires Stored(Spoken(db.events), root)
    requires forall e, f :: e in db.events && f in db.events && e.key == f.key ==> e == f
    ensures forall y :: y in db.events && y.key == root ==> y.body != Chatter
  {
    var e :| e in Spoken(db.events) && e.key == root;
    SpokenHolds(db.events, e);
  }
}
