/** One thread's event queue: which event may be claimed for execution, and what every run keeps of its order. */
module Queue {
  import opened Prelude

  datatype Status = RUNNING | SUCCEEDED | FAILED | INTERRUPTED | RETRY_PENDING | SKIPPED
  datatype Outcome = OPEN | COMPLETED | NO_CHANGES

  /** A source event with its execution row and the publication row rooted at it, when there is one. */
  datatype Event = Event(status: Option<Status>, publication: Option<Outcome>)

  predicate Resolved(e: Event) {
    || e.status == Some(SKIPPED)
    || (e.status == Some(SUCCEEDED) && e.publication in {Some(COMPLETED), Some(NO_CHANGES)})
  }

  predicate Started(e: Event) { e.status.Some? && e.status != Some(SKIPPED) }

  predicate InProgress(e: Event) { Started(e) && !Resolved(e) }

  /** The thread's events stand in (updated, discovered, key) order: nothing started has an unresolved event before it. */
  ghost predicate InOrder(q: seq<Event>) {
    forall i, j :: 0 <= i < j < |q| && Started(q[j]) ==> Resolved(q[i])
  }

  // ------------------------------------------------------------------ the operations

  datatype Label =
    | Arrive
    | ClaimEvent(i: nat)
    | Finish(i: nat, status: Status)
    | Release(i: nat, retrying: bool)
    | Retry(i: nat)
    | Skip(i: nat)
    | Control(i: nat)
    | Redundant(rows: seq<nat>)
    | Publish(i: nat, outcome: Outcome)
    | Reopen(i: nat)

  predicate Ordered(q: seq<Event>, i: nat)
    requires i <= |q|
  {
    forall j :: 0 <= j < i ==> Resolved(q[j])
  }

  predicate Open(e: Event) { e.status in {None, Some(RETRY_PENDING)} }

  function With(q: seq<Event>, i: nat, status: Option<Status>): seq<Event>
    requires i < |q|
  {
    q[i := q[i].(status := status)]
  }

  /** The rows a plain INSERT takes: events without an execution row, each of them once. */
  predicate Insertable(q: seq<Event>, rows: seq<nat>) {
    && (forall i :: 0 <= i < |rows| ==> rows[i] < |q| && q[rows[i]].status.None?)
    && (forall i, j :: 0 <= i < j < |rows| ==> rows[i] != rows[j])
  }

  /** The redundant snapshots among the unclaimed rows, recorded as skipped. */
  function Marked(q: seq<Event>, rows: seq<nat>): (r: seq<Event>)
    ensures |r| == |q|
    ensures forall i :: 0 <= i < |q| ==>
      r[i] == if i in rows && q[i].status.None? then q[i].(status := Some(SKIPPED)) else q[i]
  {
    if q == [] then []
    else
      var n, last := |q| - 1, q[|q| - 1];
      Marked(q[..n], rows) + [if n in rows && last.status.None? then last.(status := Some(SKIPPED)) else last]
  }

  /** One operation on the queue; None when it raises. */
  function Step(q: seq<Event>, l: Label): Option<seq<Event>> {
    match l
    case Arrive => Some(q + [Event(None, None)])
    case Redundant(rows) => if Insertable(q, rows) then Some(Marked(q, rows)) else None
    case ClaimEvent(i) => if i < |q| && Open(q[i]) && Ordered(q, i) then Some(With(q, i, Some(RUNNING))) else None
    case Finish(i, status) =>
      if i < |q| && q[i].status == Some(RUNNING) && status in {SUCCEEDED, FAILED, INTERRUPTED} then Some(With(q, i, Some(status)))
      else None
    case Release(i, retrying) =>
      Some(if i >= |q| || q[i].status != Some(RUNNING) then q else With(q, i, if retrying then Some(RETRY_PENDING) else None))
    case Retry(i) =>
      if i < |q| && q[i].status in {Some(FAILED), Some(INTERRUPTED), Some(RETRY_PENDING)} then Some(With(q, i, Some(RETRY_PENDING)))
      else None
    case Skip(i) =>
      if i < |q| && q[i].status in {Some(FAILED), Some(INTERRUPTED), Some(SKIPPED)} then Some(With(q, i, Some(SKIPPED))) else None
    case Control(i) =>
      if i < |q| && q[i].status in {None, Some(SKIPPED)} then Some(With(q, i, Some(SKIPPED))) else None
    case Publish(i, outcome) => if i < |q| && !Undone(q[i], outcome) then Some(q[i := q[i].(publication := Some(outcome))]) else None
    case Reopen(i) =>
      if i < |q| && q[i].status.Some? && !Resolved(q[i]) then Some(With(q, i, Some(RETRY_PENDING))) else None
  }

  /** A publication row that would take a resolved outcome back; no publisher step writes one. */
  predicate Undone(e: Event, outcome: Outcome) {
    Resolved(e) && !Resolved(e.(publication := Some(outcome)))
  }

  function Play(q: seq<Event>, run: seq<Label>): seq<Event>
    decreases |run|
  {
    if run == [] then q else Play(Step(q, run[0]).GetOr(q), run[1..])
  }

  // ------------------------------------------------------------------ the order is kept

  lemma StepKeepsOrder(q: seq<Event>, l: Label)
    requires InOrder(q)
    ensures InOrder(Step(q, l).GetOr(q))
  {
    var r := Step(q, l).GetOr(q);
    assert |q| <= |r|;
    forall i, j | 0 <= i < j < |r| && Started(r[j]) ensures Resolved(r[i]) {
      if j < |q| && Started(q[j]) { assert Resolved(q[i]); }
    }
  }

  /** Over every run of guarded operations on a thread whose events arrive in order, the queue stays in order. */
  lemma {:induction false} QueueKept(q: seq<Event>, run: seq<Label>)
    requires InOrder(q)
    ensures InOrder(Play(q, run))
    decreases |run|
  {
    if run != [] {
      StepKeepsOrder(q, run[0]);
      QueueKept(Step(q, run[0]).GetOr(q), run[1..]);
    }
  }

  /** The first event not yet resolved, or the length of the queue. */
  function Head(q: seq<Event>): (p: nat)
    ensures p <= |q| && Ordered(q, p) && (p < |q| ==> !Resolved(q[p]))
  {
    HeadFrom(q, 0)
  }

  function HeadFrom(q: seq<Event>, from: nat): (p: nat)
    requires from <= |q| && Ordered(q, from)
    ensures from <= p <= |q| && Ordered(q, p) && (p < |q| ==> !Resolved(q[p]))
    decreases |q| - from
  {
    if from == |q| || !Resolved(q[from]) then from else HeadFrom(q, from + 1)
  }

  /** A queue is in order exactly when it is a resolved prefix, then one event, then events unclaimed or skipped. */
  lemma OrderIsShape(q: seq<Event>)
    ensures InOrder(q) <==> forall i :: Head(q) < i < |q| ==> !Started(q[i])
  {
    var p := Head(q);
    if forall i :: p < i < |q| ==> !Started(q[i]) {
      forall i, j | 0 <= i < j < |q| && Started(q[j]) ensures Resolved(q[i]) { assert i < p; }
    }
  }

  /** So over every run at most one event of a thread is in progress: at most one execution row is RUNNING. */
  lemma OneInProgress(run: seq<Label>, i: nat, j: nat)
    requires i < |Play([], run)| && j < |Play([], run)|
    requires InProgress(Play([], run)[i]) && InProgress(Play([], run)[j])
    ensures i == j && i == Head(Play([], run))
  {
    QueueKept([], run);
    var q := Play([], run);
    OrderIsShape(q);
    assert Ordered(q, Head(q));
  }

  /** Exactly the first unresolved event is claimable, and only when it is unclaimed or waiting for a retry. */
  lemma OnlyHeadClaimable(q: seq<Event>, i: nat)
    requires i < |q|
    ensures Step(q, ClaimEvent(i)).Some? <==> i == Head(q) && Open(q[i])
  {
    assert Ordered(q, Head(q));
    assert i < Head(q) ==> Resolved(q[i]);
    assert i > Head(q) ==> !Ordered(q, i);
  }

  // ------------------------------------------------------------------ what would break it

  /** An event that turns up late, at position `p`, leaves the queue in order exactly when nothing from there on has started. */
  lemma LateArrival(q: seq<Event>, p: nat)
    requires InOrder(q) && p <= |q|
    ensures InOrder(q[..p] + [Event(None, None)] + q[p..]) <==> forall j :: p <= j < |q| ==> !Started(q[j])
  {
    var r := q[..p] + [Event(None, None)] + q[p..];
    assert forall j :: 0 <= j < p ==> r[j] == q[j];
    assert forall j :: p <= j < |q| ==> r[j + 1] == q[j];
    if InOrder(r) {
      forall j | p <= j < |q| ensures !Started(q[j]) { assert !Resolved(r[p]) && r[j + 1] == q[j]; }
    }
    if forall j :: p <= j < |q| ==> !Started(q[j]) {
      forall i, j | 0 <= i < j < |r| && Started(r[j]) ensures Resolved(r[i]) {
        if j > p { assert r[j] == q[j - 1]; }
      }
    }
  }

  /** Resuming a clarification reopens the root's row whatever its status; that is safe exactly when nothing after it started. */
  lemma ReopenedOrder(q: seq<Event>, i: nat)
    requires InOrder(q) && i < |q| && Started(q[i])
    ensures InOrder(With(q, i, Some(RETRY_PENDING))) <==> forall j :: i < j < |q| ==> !Started(q[j])
  {
    var r := With(q, i, Some(RETRY_PENDING));
    assert forall j :: 0 <= j < |q| && j != i ==> r[j] == q[j];
    assert !Resolved(r[i]) && |r| == |q|;
    if InOrder(r) {
      forall j | i < j < |q| ensures !Started(q[j]) { assert r[j] == q[j]; }
    }
    if forall j :: i < j < |q| ==> !Started(q[j]) {
      forall a, b | 0 <= a < b < |r| && Started(r[b]) ensures Resolved(r[a]) { assert Resolved(q[a]); }
    }
  }

  // ------------------------------------------------------------------ claim_next_event, in three-valued logic

  datatype Tri = True | False | Null

  function Of(b: bool): Tri { if b then True else False }
  function Not(t: Tri): Tri { match t case True => False case False => True case Null => Null }
  function Or(a: Tri, b: Tri): Tri { if a == True || b == True then True else if a == False && b == False then False else Null }
  function And(a: Tri, b: Tri): Tri { Not(Or(Not(a), Not(b))) }

  function StatusIs(e: Event, s: Status): Tri { match e.status case None => Null case Some(x) => Of(x == s) }
  function PublicationResolved(e: Event): Tri { match e.publication case None => Null case Some(o) => Of(o != OPEN) }

  /** The WHERE clause of the NOT EXISTS subquery: an earlier row blocks only when it is True. */
  function Blocks(e: Event): Tri {
    Or(Of(e.status.None?), Not(Or(StatusIs(e, SKIPPED), And(StatusIs(e, SUCCEEDED), PublicationResolved(e)))))
  }

  predicate Selectable(q: seq<Event>, i: nat)
    requires i < |q|
  {
    Open(q[i]) && forall j :: 0 <= j < i ==> Blocks(q[j]) != True
  }

  function NextFrom(q: seq<Event>, from: nat): (next: Option<nat>)
    requires from <= |q|
    ensures next.Some? ==> from <= next.value < |q| && Selectable(q, next.value)
    ensures forall i :: from <= i < (match next case None => |q| case Some(n) => n) ==> !Selectable(q, i)
    decreases |q| - from
  {
    if from == |q| then None else if Selectable(q, from) then Some(from) else NextFrom(q, from + 1)
  }

  /** A succeeded event whose publication row does not exist yet. */
  predicate Unrecorded(e: Event) { e.status == Some(SUCCEEDED) && e.publication.None? }

  /** The scalar subquery is NULL for an unrecorded event, and only then do the two orderings differ. */
  lemma BlocksExactly(e: Event)
    ensures Blocks(e) == True <==> !Resolved(e) && !Unrecorded(e)
  {
    match e.status
    case None =>
    case Some(s) =>
      match e.publication
      case None =>
      case Some(o) =>
  }

  /** What `claim_next_event` picks keeps the queue in order exactly when no unrecorded success stands before it. */
  lemma NextKeepsOrder(q: seq<Event>, i: nat)
    requires InOrder(q) && NextFrom(q, 0) == Some(i)
    ensures InOrder(With(q, i, Some(RUNNING))) <==> forall j :: 0 <= j < i ==> !Unrecorded(q[j])
    ensures Step(q, ClaimEvent(i)).Some? <==> forall j :: 0 <= j < i ==> !Unrecorded(q[j])
  {
    var r := With(q, i, Some(RUNNING));
    assert forall j :: 0 <= j < |q| && j != i ==> r[j] == q[j];
    forall j | 0 <= j < i ensures Resolved(q[j]) <==> !Unrecorded(q[j]) { BlocksExactly(q[j]); }
    if InOrder(r) {
      forall j | 0 <= j < i ensures !Unrecorded(q[j]) { assert Started(r[i]) && Resolved(r[j]) && r[j] == q[j]; }
    }
    if forall j :: 0 <= j < i ==> !Unrecorded(q[j]) {
      assert Ordered(q, i);
      StepKeepsOrder(q, ClaimEvent(i));
    }
  }

  /** An unrecorded success does not hold the next event back: two events of one thread are then in progress. */
  lemma NextOvertakes()
    ensures var q := Play([], [Arrive, Arrive, ClaimEvent(0), Finish(0, SUCCEEDED)]);
      InOrder(q) && NextFrom(q, 0) == Some(1) && Step(q, ClaimEvent(1)).None? &&
      InProgress(With(q, 1, Some(RUNNING))[0]) && InProgress(With(q, 1, Some(RUNNING))[1])
  {
    var e, running, done := Event(None, None), Event(Some(RUNNING), None), Event(Some(SUCCEEDED), None);
    PlayOne([], Arrive, [Arrive, ClaimEvent(0), Finish(0, SUCCEEDED)]);
    PlayOne([e], Arrive, [ClaimEvent(0), Finish(0, SUCCEEDED)]);
    PlayOne([e, e], ClaimEvent(0), [Finish(0, SUCCEEDED)]);
    PlayOne([running, e], Finish(0, SUCCEEDED), []);
    hide Play;
    var q := Play([], [Arrive, Arrive, ClaimEvent(0), Finish(0, SUCCEEDED)]);
    assert q == [done, e];
    BlocksExactly(done);
    assert !Selectable(q, 0);
    assert Selectable(q, 1);
  }

  lemma PlayOne(q: seq<Event>, l: Label, rest: seq<Label>)
    ensures Play(q, [l] + rest) == Play(Step(q, l).GetOr(q), rest)
  {
    assert ([l] + rest)[1..] == rest;
  }

  // ------------------------------------------------------------------ the operations, row by row

  /** Skipped, or succeeded under a publication that has its outcome. */
  predicate Settled(e: Event) {
    match e.status
    case Some(SKIPPED) => true
    case Some(SUCCEEDED) => e.publication == Some(COMPLETED) || e.publication == Some(NO_CHANGES)
    case _ => false
  }

  /** An event is claimed exactly when it has no row or one that waits for a retry, and every event before it is settled. */
  lemma ClaimExactly(q: seq<Event>, i: nat)
    ensures Step(q, ClaimEvent(i)).Some? <==>
      i < |q| && (q[i].status == None || q[i].status == Some(RETRY_PENDING)) && forall j :: 0 <= j < i ==> Settled(q[j])
  {
    forall j | 0 <= j < |q| ensures Settled(q[j]) <==> Resolved(q[j]) {}
  }

  /** The statuses an operation on one row starts from, and the one it leaves. */
  predicate Moves(l: Label, from: Option<Status>, to: Option<Status>) {
    match l
    case ClaimEvent(_) => (from == None || from == Some(RETRY_PENDING)) && to == Some(RUNNING)
    case Finish(_, status) =>
      from == Some(RUNNING) && to == Some(status) && (status == SUCCEEDED || status == FAILED || status == INTERRUPTED)
    case Release(_, retrying) => if from == Some(RUNNING) then to == (if retrying then Some(RETRY_PENDING) else None) else to == from
    case Retry(_) => (from == Some(FAILED) || from == Some(INTERRUPTED) || from == Some(RETRY_PENDING)) && to == Some(RETRY_PENDING)
    case Skip(_) => (from == Some(FAILED) || from == Some(INTERRUPTED) || from == Some(SKIPPED)) && to == Some(SKIPPED)
    case Control(_) => (from == None || from == Some(SKIPPED)) && to == Some(SKIPPED)
    case _ => false
  }

  predicate OneRow(l: Label) { l.ClaimEvent? || l.Finish? || l.Release? || l.Retry? || l.Skip? || l.Control? }

  /** Every operation on one row moves that row's status along the table, leaves every other row and the publications
      alone, and apart from a claim goes through wherever the table lets it. */
  lemma RowMoves(q: seq<Event>, l: Label)
    requires OneRow(l) && l.i < |q|
    ensures match Step(q, l)
            case None => !l.ClaimEvent? ==> forall to :: !Moves(l, q[l.i].status, to)
            case Some(r) =>
              && |r| == |q| && Moves(l, q[l.i].status, r[l.i].status) && r[l.i].publication == q[l.i].publication
              && forall j :: 0 <= j < |q| && j != l.i ==> r[j] == q[j]
  {
  }

  /** The SQL claim picks the first row without a claim before which every row is skipped, or succeeded and not under a
      publication that is still open. */
  lemma NextExactly(q: seq<Event>, i: nat)
    ensures NextFrom(q, 0) == Some(i) <==>
      i < |q| && Candidate(q, i) && forall j :: 0 <= j < i ==> !Candidate(q, j)
  {
    forall j | 0 <= j < |q| ensures Selectable(q, j) <==> Candidate(q, j) { SelectableIs(q, j); }
    hide Selectable, Candidate;
  }

  predicate Candidate(q: seq<Event>, i: nat)
    requires i < |q|
  {
    && (q[i].status == None || q[i].status == Some(RETRY_PENDING))
    && forall j :: 0 <= j < i ==> q[j].status == Some(SKIPPED) || (q[j].status == Some(SUCCEEDED) && q[j].publication != Some(OPEN))
  }

  lemma SelectableIs(q: seq<Event>, i: nat)
    requires i < |q|
    ensures Selectable(q, i) <==> Candidate(q, i)
  {
    forall j | 0 <= j < i
      ensures Blocks(q[j]) != True <==> q[j].status == Some(SKIPPED) || (q[j].status == Some(SUCCEEDED) && q[j].publication != Some(OPEN))
    {
      BlocksExactly(q[j]);
    }
    hide Blocks;
  }

  /** Redundant rows are inserted as skipped, all of them or none: each must be without a row, and named once. */
  lemma RedundantExactly(q: seq<Event>, rows: seq<nat>)
    ensures Step(q, Redundant(rows)).Some? <==>
      && (forall i :: 0 <= i < |rows| ==> rows[i] < |q| && q[rows[i]].status == None)
      && (forall i, j :: 0 <= i < j < |rows| ==> rows[i] != rows[j])
    ensures match Step(q, Redundant(rows))
            case None => true
            case Some(r) => |r| == |q| && forall i :: 0 <= i < |q| ==>
              r[i].publication == q[i].publication && r[i].status == if i in rows then Some(SKIPPED) else q[i].status
  {
  }

  // ------------------------------------------------------------------ the table

  class EventTable {
    var events: seq<Event>

    constructor ()
      ensures events == []
    {
      events := [];
    }

    /** `_assert_event_ordering`: the loop over the earlier rows. */
    method AssertEventOrdering(i: nat) returns (ok: bool)
      requires i < |events|
      ensures ok <==> Ordered(events, i)
    {
      var j := 0;
      while j < i
        invariant j <= i && Ordered(events, j)
      {
        if !(events[j].status == Some(SKIPPED) ||
             (events[j].status == Some(SUCCEEDED) && events[j].publication in {Some(COMPLETED), Some(NO_CHANGES)})) {
          return false;
        }
        j := j + 1;
      }
      return true;
    }

    method ClaimEventForExecution(i: nat) returns (ok: bool)
      modifies this
      ensures ok == Step(old(events), ClaimEvent(i)).Some?
      ensures events == Step(old(events), ClaimEvent(i)).GetOr(old(events))
    {
      if i >= |events| || !Open(events[i]) { return false; }
      ok := AssertEventOrdering(i);
      if ok { events := events[i := events[i].(status := Some(RUNNING))]; }
    }

    /** The first selectable row, with the subquery evaluated row by row. */
    method ClaimNextEvent() returns (claimed: Option<nat>)
      modifies this
      ensures claimed == NextFrom(old(events), 0)
      ensures events == match claimed case None => old(events) case Some(i) => With(old(events), i, Some(RUNNING))
    {
      var i, blocked := 0, false;
      while i < |events|
        invariant 0 <= i <= |events| && events == old(events)
        invariant blocked <==> exists j :: 0 <= j < i && Blocks(events[j]) == True
        invariant NextFrom(events, 0) == NextFrom(events, i)
      {
        if Open(events[i]) && !blocked {
          events := events[i := events[i].(status := Some(RUNNING))];
          return Some(i);
        }
        blocked := blocked || Blocks(events[i]) == True;
        i := i + 1;
      }
      return None;
    }

    /** `mark_execution_succeeded`, `mark_execution_failed` and `mark_execution_interrupted`. */
    method UpdateExecution(i: nat, status: Status) returns (ok: bool)
      modifies this
      ensures ok == Step(old(events), Finish(i, status)).Some?
      ensures events == Step(old(events), Finish(i, status)).GetOr(old(events))
    {
      if i >= |events| || events[i].status != Some(RUNNING) { return false; }
      if status !in {SUCCEEDED, FAILED, INTERRUPTED} { return false; }
      events := events[i := events[i].(status := Some(status))];
      return true;
    }

    method RetryExecution(i: nat) returns (ok: bool)
      modifies this
      ensures ok == Step(old(events), Retry(i)).Some?
      ensures events == Step(old(events), Retry(i)).GetOr(old(events))
    {
      if i >= |events| || events[i].status.None? { return false; }
      if events[i].status == Some(RETRY_PENDING) { return true; }
      if events[i].status !in {Some(FAILED), Some(INTERRUPTED)} { return false; }
      events := events[i := events[i].(status := Some(RETRY_PENDING))];
      return true;
    }

    method ReleaseExecutionClaim(i: nat, retrying: bool)
      modifies this
      ensures Step(old(events), Release(i, retrying)) == Some(events)
    {
      if i < |events| && events[i].status == Some(RUNNING) {
        events := events[i := events[i].(status := if retrying then Some(RETRY_PENDING) else None)];
      }
    }

    method SkipExecution(i: nat) returns (ok: bool)
      modifies this
      ensures ok == Step(old(events), Skip(i)).Some?
      ensures events == Step(old(events), Skip(i)).GetOr(old(events))
    {
      if i >= |events| || events[i].status.None? { return false; }
      if events[i].status == Some(SKIPPED) { return true; }
      if events[i].status !in {Some(FAILED), Some(INTERRUPTED)} { return false; }
      events := events[i := events[i].(status := Some(SKIPPED))];
      return true;
    }

    /** `_resolve_workflow_control`: a control input is recorded as skipped work. */
    method ResolveWorkflowControl(i: nat) returns (ok: bool)
      modifies this
      ensures ok == Step(old(events), Control(i)).Some?
      ensures events == Step(old(events), Control(i)).GetOr(old(events))
    {
      if i >= |events| || events[i].status !in {None, Some(SKIPPED)} { return false; }
      events := events[i := events[i].(status := Some(SKIPPED))];
      return true;
    }

    /** `_repair_redundant_issue_events`, over the rows its join found: an event found twice fails the whole INSERT. */
    method RepairRedundantIssueEvents(rows: seq<nat>) returns (ok: bool)
      modifies this
      ensures ok == Step(old(events), Redundant(rows)).Some?
      ensures events == Step(old(events), Redundant(rows)).GetOr(old(events))
    {
      var before, i := events, 0;
      while i < |rows|
        invariant 0 <= i <= |rows| && Insertable(before, rows[..i])
        invariant |events| == |before|
        invariant forall j :: 0 <= j < |before| ==> events[j] == if j in rows[..i] then before[j].(status := Some(SKIPPED)) else before[j]
      {
        assert rows[..i + 1] == rows[..i] + [rows[i]];
        if rows[i] >= |events| || events[rows[i]].status.Some? {
          events := before;
          return false;
        }
        events := events[rows[i] := events[rows[i]].(status := Some(SKIPPED))];
        i := i + 1;
      }
      assert rows[..i] == rows;
      assert events == Marked(before, rows);
      return true;
    }
  }
}
