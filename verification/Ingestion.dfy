/** Polling GitHub into the store: which snapshots of an issue become events, and why polling again changes nothing. */
module Ingestion {
  import opened Prelude

  type Time = nat
  type Source = nat

  datatype SourceKind = ISSUE | COMMENT
  datatype EventKey = EventKey(kind: SourceKind, source: Source, updated: Time)

  /** A body, and whether it carries the mention that makes the snapshot actionable. Equal digests are equal bodies. */
  datatype Body = Body(text: string, mentions: bool)
  datatype Snapshot = Snapshot(key: EventKey, body: Body)

  datatype ExecutionStatus = SKIPPED | SUCCEEDED | UNFINISHED

  /** A stored event with its execution status and whether a publication rooted at it has a publishable outcome. */
  datatype Row = Row(body: Body, status: Option<ExecutionStatus>, published: bool)

  /** The last content seen of an issue. */
  datatype Observation = Observation(body: Body, observed: Time)

  datatype Log = Log(rows: map<EventKey, Row>, observations: map<Source, Observation>)

  const NOTHING := Log(map[], map[])

  predicate Resolved(r: Row) { r.status == Some(SKIPPED) || (r.status == Some(SUCCEEDED) && r.published) }

  predicate SameIssue(k: EventKey, j: EventKey) { k.kind == ISSUE && j.kind == ISSUE && k.source == j.source }

  /** `_has_resolved_issue_snapshot` */
  predicate ResolvedBefore(l: Log, e: Snapshot) {
    e.key.kind == ISSUE && exists k :: k in l.rows && SameIssue(k, e.key) && l.rows[k].body == e.body && Resolved(l.rows[k])
  }

  /** A row of the self-join: an unclaimed event and an earlier resolved event of the same issue and body. */
  predicate Repeats(l: Log, j: EventKey, k: EventKey) {
    && k in l.rows && l.rows[k].status.None?
    && j in l.rows && SameIssue(j, k) && j.updated < k.updated && l.rows[j].body == l.rows[k].body && Resolved(l.rows[j])
  }

  /** An unclaimed event that repeats the body of an earlier resolved one. */
  predicate Redundant(l: Log, k: EventKey) { exists j :: j in l.rows && Repeats(l, j, k) }

  /** Some unclaimed event repeats two earlier resolved ones: the INSERT meets its key twice. */
  predicate Blocked(l: Log) {
    exists k, i, j :: k in l.rows && i in l.rows && j in l.rows && i != j && Repeats(l, i, k) && Repeats(l, j, k)
  }

  function Marked(l: Log): Log {
    l.(rows := map k | k in l.rows :: if Redundant(l, k) then l.rows[k].(status := Some(SKIPPED)) else l.rows[k])
  }

  /** `_repair_redundant_issue_events`; None when it violates the primary key of the executions. */
  function Repaired(l: Log): Option<Log> { if Blocked(l) then None else Some(Marked(l)) }

  /** The latest stored event of the issue has this body. */
  predicate LatestStored(l: Log, e: Snapshot) {
    exists k :: k in l.rows && SameIssue(k, e.key) && l.rows[k].body == e.body &&
      forall j :: j in l.rows && SameIssue(j, e.key) ==> j.updated <= k.updated
  }

  /** `_is_new_issue_content`, as the question it answers. */
  predicate NewContent(l: Log, e: Snapshot) {
    e.key.kind == ISSUE ==>
      if e.key.source in l.observations then l.observations[e.key.source].body != e.body else !LatestStored(l, e)
  }

  function Observed(l: Log, e: Snapshot): Log {
    if e.key.kind == ISSUE then l.(observations := l.observations[e.key.source := Observation(e.body, e.key.updated)]) else l
  }

  /** One event of a batch. */
  function Recorded(l: Log, e: Snapshot): Log {
    if e.key in l.rows then l
    else if !NewContent(l, e) || (e.key.kind == ISSUE && !e.body.mentions) || ResolvedBefore(l, e) then Observed(l, e)
    else Observed(l, e).(rows := l.rows[e.key := Row(e.body, None, false)])
  }

  function RecordedAll(l: Log, batch: seq<Snapshot>): Log {
    if batch == [] then l else Recorded(RecordedAll(l, batch[..|batch| - 1]), batch[|batch| - 1])
  }

  /** `record_batch`; None when its repair fails and the whole transaction rolls back. */
  function Batched(l: Log, batch: seq<Snapshot>): Option<Log> {
    match Repaired(l) case None => None case Some(r) => Some(RecordedAll(r, batch))
  }

  // ------------------------------------------------------------------ idempotence

  /** One snapshot per issue and page. */
  ghost predicate OnePerIssue(batch: seq<Snapshot>) {
    forall i, j :: 0 <= i < j < |batch| ==> !SameIssue(batch[i].key, batch[j].key)
  }

  /** The batch has nothing left to do for this snapshot. */
  predicate Settled(l: Log, e: Snapshot) {
    e.key in l.rows ||
    (e.key.kind == ISSUE && e.key.source in l.observations && l.observations[e.key.source] == Observation(e.body, e.key.updated))
  }

  lemma RecordedSettles(l: Log, e: Snapshot)
    ensures Settled(Recorded(l, e), e)
    ensures Settled(l, e) ==> Recorded(l, e) == l
  {
    if e.key !in l.rows && Settled(l, e) {
      assert Observed(l, e).observations == l.observations;
    }
  }

  lemma SettledStays(l: Log, e: Snapshot, other: Snapshot)
    requires Settled(l, e) && !SameIssue(e.key, other.key)
    ensures Settled(Recorded(l, other), e)
  {
  }

  lemma {:induction false} AllSettled(l: Log, batch: seq<Snapshot>, i: nat)
    requires OnePerIssue(batch) && i < |batch|
    ensures Settled(RecordedAll(l, batch), batch[i])
  {
    var front, last := batch[..|batch| - 1], batch[|batch| - 1];
    RecordedSettles(RecordedAll(l, front), last);
    if i < |front| {
      AllSettled(l, front, i);
      SettledStays(RecordedAll(l, front), front[i], last);
    }
  }

  lemma {:induction false} NothingToDo(l: Log, batch: seq<Snapshot>)
    requires forall i :: 0 <= i < |batch| ==> Settled(l, batch[i])
    ensures RecordedAll(l, batch) == l
  {
    if batch != [] {
      assert forall i :: 0 <= i < |batch| - 1 ==> batch[..|batch| - 1][i] == batch[i];
      NothingToDo(l, batch[..|batch| - 1]);
      RecordedSettles(l, batch[|batch| - 1]);
    }
  }

  /** No unclaimed event repeats the body of an earlier resolved one. */
  ghost predicate NoneRedundant(l: Log) { forall k :: !Redundant(l, k) }

  /** Whatever the repair resolved repeats something resolved before it. */
  lemma EarlierStill(l: Log, j: EventKey, k: EventKey)
    requires k in l.rows && l.rows[k].status.None?
    requires j in l.rows && SameIssue(j, k) && j.updated < k.updated && l.rows[j].body == l.rows[k].body
    requires Resolved(Marked(l).rows[j])
    ensures Redundant(l, k)
  {
    if Resolved(l.rows[j]) {
      assert Repeats(l, j, k);
    } else {
      var i :| i in l.rows && Repeats(l, i, j);
      assert Repeats(l, i, k);
    }
  }

  lemma MarkedClean(l: Log)
    ensures NoneRedundant(Marked(l))
  {
    var r := Marked(l);
    forall j, k |
      k in l.rows && l.rows[k].status.None? && j in l.rows && SameIssue(j, k) && j.updated < k.updated &&
      l.rows[j].body == l.rows[k].body && Resolved(r.rows[j])
      ensures Redundant(l, k)
    {
      EarlierStill(l, j, k);
    }
  }

  /** A repair that succeeds leaves no unclaimed event that repeats an earlier resolved one; it succeeds exactly when no
      unclaimed event repeats two of them. */
  lemma RepairedClean(l: Log)
    ensures Repaired(l).Some? <==> forall k, i, j :: i in l.rows && j in l.rows && Repeats(l, i, k) && Repeats(l, j, k) ==> i == j
    ensures Repaired(l).Some? ==> NoneRedundant(Repaired(l).value)
  {
    MarkedClean(l);
    hide Repeats;
    if !Blocked(l) {
      forall k, i, j | i in l.rows && j in l.rows && Repeats(l, i, k) && Repeats(l, j, k) ensures i == j { RepeatsIn(l, i, k); }
    }
  }

  lemma RepeatsIn(l: Log, j: EventKey, k: EventKey)
    requires Repeats(l, j, k)
    ensures k in l.rows
  {
  }

  lemma RecordedClean(l: Log, e: Snapshot)
    requires NoneRedundant(l)
    ensures NoneRedundant(Recorded(l, e))
  {
    var r := Recorded(l, e);
    forall j, k |
      j in r.rows && k in r.rows && r.rows[k].status.None? && SameIssue(j, k) && j.updated < k.updated &&
      r.rows[j].body == r.rows[k].body
      ensures !Resolved(r.rows[j])
    {
      if j in l.rows && k in l.rows { assert !Redundant(l, k) && !Repeats(l, j, k); }
    }
  }

  lemma ObservedClean(l: Log, o: Log)
    requires NoneRedundant(l) && o.rows == l.rows
    ensures NoneRedundant(o)
  {
    forall j, k | j in o.rows ensures !Repeats(o, j, k) { assert !Redundant(l, k) && Repeats(o, j, k) == Repeats(l, j, k); }
  }

  lemma {:induction false} BatchClean(l: Log, batch: seq<Snapshot>)
    requires NoneRedundant(l)
    ensures NoneRedundant(RecordedAll(l, batch))
  {
    if batch != [] {
      BatchClean(l, batch[..|batch| - 1]);
      RecordedClean(RecordedAll(l, batch[..|batch| - 1]), batch[|batch| - 1]);
    }
  }

  lemma CleanIsRepaired(l: Log)
    requires NoneRedundant(l)
    ensures Repaired(l) == Some(l)
  {
    forall j, k | j in l.rows ensures !Repeats(l, j, k) { assert !Redundant(l, k); }
    assert Marked(l).rows == l.rows;
  }

  /** Recording the same page again, with one snapshot per issue, is never refused and changes nothing. */
  lemma BatchAgain(l: Log, batch: seq<Snapshot>)
    requires OnePerIssue(batch) && Batched(l, batch).Some?
    ensures Batched(Batched(l, batch).value, batch) == Batched(l, batch)
  {
    var t := Batched(l, batch).value;
    RepairedClean(l);
    BatchClean(Repaired(l).value, batch);
    CleanIsRepaired(t);
    forall i | 0 <= i < |batch| ensures Settled(t, batch[i]) { AllSettled(Repaired(l).value, batch, i); }
    NothingToDo(t, batch);
  }

  // ------------------------------------------------------------------ a poll

  /** The snapshots of a page without the mention: those of issues are observed, each in a transaction of its own. */
  function ObservedAll(l: Log, page: seq<Snapshot>): Log {
    if page == [] then l
    else
      var before, e := ObservedAll(l, page[..|page| - 1]), page[|page| - 1];
      if e.body.mentions then before else Observed(before, e)
  }

  /** The snapshots that are handed over as a batch. */
  function Actionable(page: seq<Snapshot>): seq<Snapshot> {
    if page == [] then []
    else
      var before, e := Actionable(page[..|page| - 1]), page[|page| - 1];
      if e.body.mentions then before + [e] else before
  }

  /** One page of a poll. What was observed stays when the batch is rolled back. */
  function Poll(l: Log, page: seq<Snapshot>): Log {
    var o := ObservedAll(l, page);
    Batched(o, Actionable(page)).GetOr(o)
  }

  lemma {:induction false} ObservedAllRows(l: Log, page: seq<Snapshot>)
    ensures ObservedAll(l, page).rows == l.rows
  {
    if page != [] { ObservedAllRows(l, page[..|page| - 1]); }
  }

  /** The repair reads no observation. */
  lemma SameRowsBlocked(l: Log, o: Log)
    requires o.rows == l.rows
    ensures Blocked(o) == Blocked(l) && Marked(o) == o.(rows := Marked(l).rows)
    ensures forall e :: ResolvedBefore(Marked(o), e) == ResolvedBefore(Marked(l), e)
  {
    assert forall j, k :: Repeats(o, j, k) == Repeats(l, j, k);
    assert forall k :: Redundant(o, k) == Redundant(l, k);
    assert Marked(o).rows == Marked(l).rows;
  }

  /** Where an actionable snapshot comes from. */
  lemma {:induction false} ActionableFrom(page: seq<Snapshot>, i: nat) returns (j: nat)
    requires i < |Actionable(page)|
    ensures j < |page| && page[j] == Actionable(page)[i] && page[j].body.mentions
  {
    var front := page[..|page| - 1];
    if i < |Actionable(front)| { j := ActionableFrom(front, i); } else { j := |page| - 1; }
  }

  lemma ActionableApart(page: seq<Snapshot>, e: Snapshot)
    requires forall i :: 0 <= i < |page| ==> !SameIssue(page[i].key, e.key)
    ensures forall i :: 0 <= i < |Actionable(page)| ==> !SameIssue(Actionable(page)[i].key, e.key)
  {
    forall i | 0 <= i < |Actionable(page)| ensures !SameIssue(Actionable(page)[i].key, e.key) { var j := ActionableFrom(page, i); }
  }

  lemma {:induction false} ActionableOnePerIssue(page: seq<Snapshot>)
    requires OnePerIssue(page)
    ensures OnePerIssue(Actionable(page))
  {
    if page != [] {
      var front, last := page[..|page| - 1], page[|page| - 1];
      assert forall i :: 0 <= i < |front| ==> front[i] == page[i];
      ActionableOnePerIssue(front);
      ActionableApart(front, last);
    }
  }

  /** What is observed of an issue stays while only other issues are. */
  lemma {:induction false} ObservedStays(l: Log, page: seq<Snapshot>, e: Snapshot)
    requires e.key.kind == ISSUE && forall i :: 0 <= i < |page| ==> !SameIssue(page[i].key, e.key)
    ensures Seen(ObservedAll(l, page), e) == Seen(l, e)
  {
    if page != [] {
      var front := page[..|page| - 1];
      assert forall i :: 0 <= i < |front| ==> front[i] == page[i];
      assert !SameIssue(page[|page| - 1].key, e.key);
      ObservedStays(l, front, e);
    }
  }

  lemma {:induction false} RecordingStays(l: Log, batch: seq<Snapshot>, e: Snapshot)
    requires e.key.kind == ISSUE && forall i :: 0 <= i < |batch| ==> !SameIssue(batch[i].key, e.key)
    ensures Seen(RecordedAll(l, batch), e) == Seen(l, e)
  {
    if batch != [] {
      var front := batch[..|batch| - 1];
      assert forall i :: 0 <= i < |front| ==> front[i] == batch[i];
      assert !SameIssue(batch[|batch| - 1].key, e.key);
      RecordingStays(l, front, e);
    }
  }

  /** The snapshot is what was last observed of its issue. */
  predicate Seen(l: Log, e: Snapshot) {
    e.key.source in l.observations && l.observations[e.key.source] == Observation(e.body, e.key.updated)
  }

  /** Every issue snapshot without the mention is what was last observed of its issue. */
  ghost predicate AllSeen(l: Log, page: seq<Snapshot>) {
    forall i :: 0 <= i < |page| && page[i].key.kind == ISSUE && !page[i].body.mentions ==> Seen(l, page[i])
  }

  lemma {:induction false} NothingToObserve(l: Log, page: seq<Snapshot>)
    requires AllSeen(l, page)
    ensures ObservedAll(l, page) == l
  {
    if page != [] {
      var front, last := page[..|page| - 1], page[|page| - 1];
      assert forall i :: 0 <= i < |front| ==> front[i] == page[i];
      NothingToObserve(l, front);
      if !last.body.mentions && last.key.kind == ISSUE { assert Observed(l, last).observations == l.observations; }
    }
  }

  lemma {:induction false} PageSeen(l: Log, page: seq<Snapshot>)
    requires OnePerIssue(page)
    ensures AllSeen(ObservedAll(l, page), page)
  {
    if page != [] {
      var front, last := page[..|page| - 1], page[|page| - 1];
      assert forall i :: 0 <= i < |front| ==> front[i] == page[i];
      PageSeen(l, front);
    }
  }

  lemma {:induction false} SeenAfterBatch(l: Log, page: seq<Snapshot>)
    requires OnePerIssue(page) && AllSeen(l, page)
    ensures AllSeen(RecordedAll(l, Actionable(page)), page)
  {
    forall i | 0 <= i < |page| && page[i].key.kind == ISSUE && !page[i].body.mentions
      ensures Seen(RecordedAll(l, Actionable(page)), page[i])
    {
      forall k | 0 <= k < |Actionable(page)| ensures !SameIssue(Actionable(page)[k].key, page[i].key) {
        var j := ActionableFrom(page, k);
      }
      RecordingStays(l, Actionable(page), page[i]);
    }
  }

  /** Polling the same page again, with one snapshot per issue, changes nothing, whether or not its batch went through. */
  lemma PollAgain(l: Log, page: seq<Snapshot>)
    requires OnePerIssue(page)
    ensures Poll(Poll(l, page), page) == Poll(l, page)
  {
    hide OnePerIssue, Blocked;
    var o, batch := ObservedAll(l, page), Actionable(page);
    PageSeen(l, page);
    ActionableOnePerIssue(page);
    if Blocked(o) {
      NothingToObserve(o, page);
    } else {
      SeenAfterBatch(Marked(o), page);
      NothingToObserve(RecordedAll(Marked(o), batch), page);
      BatchAgain(o, batch);
    }
  }

  lemma OnePolled(l: Log, e: Snapshot)
    ensures Poll(l, [e]) ==
      if e.body.mentions then (if Blocked(l) then l else Recorded(Marked(l), e))
      else if Blocked(l) then Observed(l, e) else Marked(l).(observations := Observed(l, e).observations)
  {
    assert [e][..0] == [];
    assert ObservedAll(l, []) == l && Actionable([]) == [];
    assert Actionable([e]) == if e.body.mentions then [e] else [];
    OneRecorded(l, e);
    SameRowsBlocked(l, Observed(l, e));
  }

  lemma NothingPolled(l: Log)
    ensures Poll(l, []) == if Blocked(l) then l else Marked(l)
  {
    assert ObservedAll(l, []) == l && Actionable([]) == [] && RecordedAll(Marked(l), []) == Marked(l);
  }

  lemma OneRecorded(l: Log, e: Snapshot)
    ensures Batched(l, [e]) == if Blocked(l) then None else Some(Recorded(Marked(l), e))
  {
    assert [e][..0] == [];
    assert RecordedAll(Marked(l), []) == Marked(l);
  }

  /** With two snapshots of one issue on a page it can: the first one's content is observed again, over the second's. */
  lemma TwoPerIssue(a: Body, b: Body)
    requires !a.mentions && b.mentions
    ensures var page := [Snapshot(EventKey(ISSUE, 0, 1), a), Snapshot(EventKey(ISSUE, 0, 2), b)];
      var once := Poll(NOTHING, page);
      once.observations == map[0 := Observation(b, 2)] && Poll(once, page).observations == map[0 := Observation(a, 1)]
  {
    var first, second := Snapshot(EventKey(ISSUE, 0, 1), a), Snapshot(EventKey(ISSUE, 0, 2), b);
    var seen := Log(map[], map[0 := Observation(a, 1)]);
    var once := Log(map[second.key := Row(b, None, false)], map[0 := Observation(b, 2)]);
    PairPolled(NOTHING, first, second);
    PairPolled(once, first, second);
    assert Observed(NOTHING, first) == seen;
    assert NoneRedundant(seen) && NoneRedundant(Observed(once, first));
    CleanIsRepaired(seen);
    CleanIsRepaired(Observed(once, first));
    hide Poll, Repaired, NoneRedundant;
    assert !ResolvedBefore(seen, second) && Recorded(seen, second) == once;
    assert Recorded(Observed(once, first), second) == Observed(once, first);
  }

  lemma PairPolled(l: Log, a: Snapshot, b: Snapshot)
    requires !a.body.mentions && b.body.mentions
    ensures Poll(l, [a, b]) ==
      if Repaired(Observed(l, a)).None? then Observed(l, a) else Recorded(Repaired(Observed(l, a)).value, b)
  {
    assert [a, b][..1] == [a] && [a][..0] == [];
    assert ObservedAll(l, [a]) == Observed(l, a) && Actionable([a]) == [];
    assert Actionable([a, b]) == [b];
    OneRecorded(Observed(l, a), b);
  }

  /** Timestamps are whole seconds. An edit that shares its second with a stored event is dropped when it carries the
      mention, and otherwise only observed. */
  lemma SameSecondDropped(l: Log, e: Snapshot)
    requires e.key in l.rows && e.key.kind == ISSUE
    ensures Recorded(l, e) == l
    ensures Poll(l, [e]).rows.Keys == l.rows.Keys
    ensures Poll(l, [e]).observations ==
      if e.body.mentions then l.observations else l.observations[e.key.source := Observation(e.body, e.key.updated)]
  {
    OnePolled(l, e);
  }

  // ------------------------------------------------------------------ change-driven

  /** What happens to one issue: a snapshot of it is polled, a page without it is polled, or an event of it moves on. */
  datatype Happening =
    | Polled(at: Time, body: Body)
    | Passed
    | Moved(key: EventKey, status: Option<ExecutionStatus>, published: bool)

  function Happened(l: Log, source: Source, h: Happening): Log {
    match h
    case Polled(at, body) => Poll(l, [Snapshot(EventKey(ISSUE, source, at), body)])
    case Passed => Poll(l, [])
    case Moved(k, status, published) =>
      if k in l.rows then l.(rows := l.rows[k := l.rows[k].(status := status, published := published)]) else l
  }

  function Run(source: Source, run: seq<Happening>): Log {
    if run == [] then NOTHING else Happened(Run(source, run[..|run| - 1]), source, run[|run| - 1])
  }

  /** The body of the last snapshot that was observed: a blocked poll loses a snapshot with the mention, never one without. */
  function LastObserved(source: Source, run: seq<Happening>): Option<Body> {
    if run == [] then None
    else
      var front, last := run[..|run| - 1], run[|run| - 1];
      if last.Polled? && (!last.body.mentions || !Blocked(Run(source, front))) then Some(last.body) else LastObserved(source, front)
  }

  /** Every poll sees a new timestamp. */
  ghost predicate Fresh(run: seq<Happening>) {
    forall i, j :: 0 <= i < j < |run| && run[i].Polled? && run[j].Polled? ==> run[i].at < run[j].at
  }

  ghost predicate PolledAt(run: seq<Happening>, at: Time) { exists i :: 0 <= i < |run| && run[i].Polled? && run[i].at == at }

  /** The stored observation is the last snapshot observed, and only polled timestamps have events. */
  ghost predicate Tracks(l: Log, source: Source, last: Option<Body>, run: seq<Happening>) {
    && (forall k :: k in l.rows ==> k.kind == ISSUE && k.source == source && PolledAt(run, k.updated))
    && (match last
        case None => l == NOTHING
        case Some(body) => source in l.observations && l.observations[source].body == body)
  }

  lemma PolledLonger(run: seq<Happening>, h: Happening, at: Time)
    ensures PolledAt(run + [h], at) <==> PolledAt(run, at) || (h.Polled? && h.at == at)
  {
    var all := run + [h];
    if PolledAt(run, at) {
      var i :| 0 <= i < |run| && run[i].Polled? && run[i].at == at;
      assert all[i].Polled? && all[i].at == at;
    }
    if h.Polled? && h.at == at { assert all[|run|].Polled? && all[|run|].at == at; }
  }

  /** A poll of a new snapshot adds at most its event; it is observed unless a blocked poll loses it. */
  lemma PolledNew(l: Log, e: Snapshot)
    requires e.key.kind == ISSUE && e.key !in l.rows
    ensures forall k :: k in Poll(l, [e]).rows ==> k in l.rows || k == e.key
    ensures Poll(l, [e]).observations ==
      if e.body.mentions && Blocked(l) then l.observations
      else l.observations[e.key.source := Observation(e.body, e.key.updated)]
    ensures e.body.mentions && Blocked(l) ==> Poll(l, [e]) == l
  {
    OnePolled(l, e);
    hide Poll, Blocked, Redundant, ResolvedBefore, NewContent;
  }

  lemma TracksNext(l: Log, source: Source, last: Option<Body>, run: seq<Happening>, h: Happening)
    requires Tracks(l, source, last, run) && (h.Polled? ==> !PolledAt(run, h.at))
    ensures Tracks(Happened(l, source, h), source,
                   if h.Polled? && (!h.body.mentions || !Blocked(l)) then Some(h.body) else last, run + [h])
  {
    forall at: Time ensures PolledAt(run, at) ==> PolledAt(run + [h], at) { PolledLonger(run, h, at); }
    if h.Polled? {
      PolledNew(l, Snapshot(EventKey(ISSUE, source, h.at), h.body));
      PolledLonger(run, h, h.at);
    } else {
      NothingPolled(l);
    }
    hide PolledAt, Blocked, Redundant, Poll;
  }

  lemma {:induction false} RunTracks(source: Source, run: seq<Happening>)
    requires Fresh(run)
    ensures Tracks(Run(source, run), source, LastObserved(source, run), run)
  {
    if run != [] {
      var front, last := run[..|run| - 1], run[|run| - 1];
      RunTracks(source, front);
      assert run == front + [last];
      assert last.Polled? ==> !PolledAt(front, last.at);
      TracksNext(Run(source, front), source, LastObserved(source, front), front, last);
    }
  }

  /** An issue's snapshot becomes an event exactly when the poll is not blocked and it is a change: it carries the mention,
      its body differs from the last observed snapshot's, and from that of every event already resolved. A blocked poll
      changes nothing, except that a snapshot without the mention is observed all the same. */
  lemma ChangeDriven(source: Source, run: seq<Happening>, at: Time, body: Body)
    requires Fresh(run + [Polled(at, body)])
    ensures var l := Run(source, run);
      var e := Snapshot(EventKey(ISSUE, source, at), body);
      var after := Happened(l, source, Polled(at, body));
      && e.key !in l.rows
      && (e.key in after.rows <==>
            !Blocked(l) && body.mentions && LastObserved(source, run) != Some(body) && !ResolvedBefore(Marked(l), e))
      && after.rows.Keys - l.rows.Keys <= {e.key}
      && (Blocked(l) ==> after == if body.mentions then l else Observed(l, e))
  {
    var whole := run + [Polled(at, body)];
    assert forall i :: 0 <= i < |run| ==> whole[i] == run[i];
    assert whole[|run|] == Polled(at, body);
    assert Fresh(run);
    assert !PolledAt(run, at);
    RunTracks(source, run);
    OnePolled(Run(source, run), Snapshot(EventKey(ISSUE, source, at), body));
    hide Run, Fresh, ResolvedBefore, Redundant, Blocked, LastObserved, Poll;
  }

  // ------------------------------------------------------------------ blocked polls

  function Key(at: Time): EventKey { EventKey(ISSUE, 0, at) }

  predicate IsKey(k: EventKey, n: nat) { k.kind == ISSUE && k.source == 0 && 1 <= k.updated <= n }

  /** One poll for each of these bodies, at 1, 2, and so on. */
  function Edits(bodies: seq<Body>): seq<Happening> {
    if bodies == [] then [] else Edits(bodies[..|bodies| - 1]) + [Polled(|bodies|, bodies[|bodies| - 1])]
  }

  /** Each of these bodies an event, none of them claimed. */
  function Waiting(bodies: seq<Body>): Log {
    if bodies == [] then NOTHING
    else
      var l, n, body := Waiting(bodies[..|bodies| - 1]), |bodies|, bodies[|bodies| - 1];
      Log(l.rows[Key(n) := Row(body, None, false)], l.observations[0 := Observation(body, n)])
  }

  /** Bodies that carry the mention and differ from one poll to the next. */
  predicate Changing(bodies: seq<Body>) {
    (forall i :: 0 <= i < |bodies| ==> bodies[i].mentions) && forall i :: 0 < i < |bodies| ==> bodies[i - 1] != bodies[i]
  }

  lemma {:induction false} WaitingRows(bodies: seq<Body>)
    ensures forall k :: k in Waiting(bodies).rows <==> IsKey(k, |bodies|)
    ensures forall k :: k in Waiting(bodies).rows && IsKey(k, |bodies|) ==> Waiting(bodies).rows[k] == Row(bodies[k.updated - 1], None, false)
    ensures Waiting(bodies).observations == if bodies == [] then map[] else map[0 := Observation(bodies[|bodies| - 1], |bodies|)]
  {
    if bodies != [] {
      var front := bodies[..|bodies| - 1];
      WaitingRows(front);
      assert forall i :: 0 <= i < |front| ==> front[i] == bodies[i];
    }
  }

  /** As long as nobody claims anything, every change becomes an event. */
  lemma {:induction false} EditsWait(bodies: seq<Body>)
    requires Changing(bodies)
    ensures Run(0, Edits(bodies)) == Waiting(bodies)
  {
    if bodies != [] {
      var front, n, body := bodies[..|bodies| - 1], |bodies|, bodies[|bodies| - 1];
      assert forall i :: 0 <= i < |front| ==> front[i] == bodies[i];
      EditsWait(front);
      WaitingRows(front);
      var l, e := Waiting(front), Snapshot(Key(n), body);
      NothingResolved(l, e);
      OnePolled(l, e);
      assert NewContent(l, e);
      var run := Edits(bodies);
      assert run[..|run| - 1] == Edits(front) && run[|run| - 1] == Polled(n, body);
      hide Blocked, ResolvedBefore, NewContent, Poll;
      assert Recorded(l, e) == Waiting(bodies);
    }
  }

  lemma NothingResolved(l: Log, e: Snapshot)
    requires forall k :: k in l.rows ==> l.rows[k].status.None?
    ensures !Blocked(l) && Marked(l) == l && !ResolvedBefore(l, e)
  {
    forall j, k | j in l.rows ensures !Repeats(l, j, k) {}
    assert Marked(l).rows == l.rows;
  }

  lemma RunNext(source: Source, run: seq<Happening>, h: Happening)
    ensures Run(source, run + [h]) == Happened(Run(source, run), source, h)
  {
    assert (run + [h])[..|run|] == run;
  }

  lemma MovedRun(run: seq<Happening>, k: EventKey, status: ExecutionStatus)
    requires k in Run(0, run).rows
    ensures var l := Run(0, run);
      Run(0, run + [Moved(k, Some(status), false)]) == l.(rows := l.rows[k := Row(l.rows[k].body, Some(status), false)])
  {
    RunNext(0, run, Moved(k, Some(status), false));
    hide Run;
  }

  lemma ObservedRun(run: seq<Happening>, at: Time, body: Body)
    requires Blocked(Run(0, run)) && !body.mentions
    ensures Run(0, run + [Polled(at, body)]) == Observed(Run(0, run), Snapshot(Key(at), body))
  {
    RunNext(0, run, Polled(at, body));
    OnePolled(Run(0, run), Snapshot(Key(at), body));
    hide Run, Poll, Blocked;
  }

  function Skipped(at: Time): Happening { Moved(Key(at), Some(SKIPPED), false) }

  /** Two bodies that take turns, and then a last one. */
  predicate Alternating(a: Body, b: Body) { a.mentions && b.mentions && a != b }

  /** Five alternating snapshots, then two events of one body resolved before the next poll. */
  function Blocking(a: Body, b: Body): seq<Happening> { Edits([a, b, a, b, a]) + [Skipped(1)] + [Skipped(3)] }

  /** Every poll is refused from then on: no change of the issue becomes an event, and one that keeps the mention is not even
      observed. */
  lemma BlockedRun(a: Body, b: Body, at: Time, body: Body)
    requires Alternating(a, b)
    ensures var l := Run(0, Blocking(a, b));
      var e := Snapshot(Key(at), body);
      && Blocked(l) && Batched(l, [e]) == None
      && Run(0, Blocking(a, b) + [Polled(at, body)]) == (if body.mentions then l else Observed(l, e))
  {
    var bodies, l, e := [a, b, a, b, a], Run(0, Blocking(a, b)), Snapshot(Key(at), body);
    EditsWait(bodies);
    WaitingRows(bodies);
    RunNext(0, Blocking(a, b), Polled(at, body));
    OneRecorded(l, e);
    OnePolled(l, e);
    hide Run, Waiting, Edits, Poll, Marked, Blocked;
    MovedRun(Edits(bodies), Key(1), SKIPPED);
    MovedRun(Edits(bodies) + [Skipped(1)], Key(3), SKIPPED);
    TwoBlock(l, Key(5), Key(1), Key(3));
  }

  /** Blocked is blocked until an event moves, however many polls follow. */
  lemma {:induction false} BlockedStays(source: Source, run: seq<Happening>, more: seq<Happening>)
    requires Blocked(Run(source, run)) && forall i :: 0 <= i < |more| ==> !more[i].Moved?
    ensures Blocked(Run(source, run + more)) && Run(source, run + more).rows == Run(source, run).rows
  {
    hide Run, Blocked, Poll;
    if more == [] {
      assert run + more == run;
    } else {
      var front, last := more[..|more| - 1], more[|more| - 1];
      BlockedStays(source, run, front);
      assert run + more == run + front + [last];
      RunNext(source, run + front, last);
      var l := Run(source, run + front);
      if last.Polled? {
        var e := Snapshot(EventKey(ISSUE, source, last.at), last.body);
        OnePolled(l, e);
        SameRowsBlocked(l, Observed(l, e));
      } else {
        NothingPolled(l);
      }
    }
  }

  lemma TwoBlock(l: Log, k: EventKey, i: EventKey, j: EventKey)
    requires i != j && Repeats(l, i, k) && Repeats(l, j, k)
    ensures Blocked(l)
  {
  }

  /** Six snapshots, the last one of a body of its own, and the first three events resolved. */
  function Refused(a: Body, b: Body, d: Body): seq<Happening> {
    Edits([a, b, a, b, a, d]) + [Skipped(1)] + [Skipped(2)] + [Skipped(3)]
  }

  /** Blocked, observed without the mention, and unblocked again by a skip and a claim. */
  function Unblocking(a: Body, b: Body, c: Body, d: Body): seq<Happening> {
    Refused(a, b, d) + [Polled(7, c)] + [Skipped(4)] + [Moved(Key(5), Some(UNFINISHED), false)]
  }

  /** The six events, the first `n` of them resolved. */
  ghost predicate Six(l: Log, a: Body, b: Body, d: Body, n: nat) {
    && (forall k :: k in l.rows <==> IsKey(k, 6))
    && (forall i :: 1 <= i <= 5 ==> l.rows[Key(i)] == Row(if i % 2 == 1 then a else b, if i <= n then Some(SKIPPED) else None, false))
    && l.rows[Key(6)] == Row(d, None, false)
  }

  lemma SixEdits(a: Body, b: Body, d: Body)
    requires Alternating(a, b) && d.mentions && d != a
    ensures Six(Run(0, Edits([a, b, a, b, a, d])), a, b, d, 0)
  {
    var bodies := [a, b, a, b, a, d];
    EditsWait(bodies);
    SixWait(bodies, a, b, d);
    hide Run, Waiting, Edits, Six;
  }

  lemma SixWait(bodies: seq<Body>, a: Body, b: Body, d: Body)
    requires |bodies| == 6 && bodies[5] == d
    requires bodies[0] == bodies[2] == bodies[4] == a && bodies[1] == bodies[3] == b
    ensures Six(Waiting(bodies), a, b, d, 0)
  {
    WaitingRows(bodies);
    hide Waiting;
    forall i | 1 <= i <= 5 ensures bodies[i - 1] == if i % 2 == 1 then a else b {}
    forall i | 1 <= i <= 6 ensures IsKey(Key(i), 6) && Key(i) in Waiting(bodies).rows && Waiting(bodies).rows[Key(i)] == Row(bodies[i - 1], None, false) {}
  }

  lemma SkipNext(run: seq<Happening>, a: Body, b: Body, d: Body, n: nat)
    requires Six(Run(0, run), a, b, d, n) && n < 5
    ensures Six(Run(0, run + [Skipped(n + 1)]), a, b, d, n + 1)
  {
    hide Run;
    MovedRun(run, Key(n + 1), SKIPPED);
  }

  lemma RefusedRun(a: Body, b: Body, d: Body)
    requires Alternating(a, b) && d.mentions && d != a
    ensures Six(Run(0, Refused(a, b, d)), a, b, d, 3) && Blocked(Run(0, Refused(a, b, d)))
  {
    var edits := Edits([a, b, a, b, a, d]);
    SixEdits(a, b, d);
    hide Run, Edits, Six, Skipped;
    SkipNext(edits, a, b, d, 0);
    SkipNext(edits + [Skipped(1)], a, b, d, 1);
    SkipNext(edits + [Skipped(1)] + [Skipped(2)], a, b, d, 2);
    SixBlocked(Run(0, Refused(a, b, d)), a, b, d);
  }

  lemma SixBlocked(l: Log, a: Body, b: Body, d: Body)
    requires Six(l, a, b, d, 3)
    ensures Blocked(l)
  {
    assert l.rows[Key(1)].body == l.rows[Key(3)].body == l.rows[Key(5)].body == a;
    TwoBlock(l, Key(5), Key(1), Key(3));
  }

  /** Of six events only the last one is unclaimed, and the body `c` was observed. */
  ghost predicate OneWaits(l: Log, c: Body, d: Body) {
    && 0 in l.observations && l.observations[0].body == c
    && (forall k :: k in l.rows <==> IsKey(k, 6))
    && (forall k :: k in l.rows ==> k != Key(6) ==> l.rows[k].status.Some? && l.rows[k].body != d)
    && l.rows[Key(6)] == Row(d, None, false)
  }

  lemma UnblockingRun(a: Body, b: Body, c: Body, d: Body)
    requires Alternating(a, b) && !c.mentions && d.mentions && d != a && d != b
    ensures OneWaits(Run(0, Unblocking(a, b, c, d)), c, d)
  {
    var seen := Refused(a, b, d) + [Polled(7, c)];
    RefusedRun(a, b, d);
    hide Run, Refused, Blocked;
    ObservedRun(Refused(a, b, d), 7, c);
    SkipNext(seen, a, b, d, 3);
    MovedRun(seen, Key(4), SKIPPED);
    MovedRun(seen + [Skipped(4)], Key(5), UNFINISHED);
    FifthClaimed(Run(0, seen + [Skipped(4)]), a, b, c, d);
  }

  lemma FifthClaimed(l: Log, a: Body, b: Body, c: Body, d: Body)
    requires Six(l, a, b, d, 4) && d != a && d != b && 0 in l.observations && l.observations[0].body == c
    ensures OneWaits(l.(rows := l.rows[Key(5) := Row(l.rows[Key(5)].body, Some(UNFINISHED), false)]), c, d)
  {
    forall k | k in l.rows ensures k == Key(k.updated) && 1 <= k.updated <= 6 {}
  }

  /** What a blocked poll observed counts: the body of an event that still waits, polled again after the poll that lost the
      mention, becomes a second event. */
  lemma ObservedWhileBlocked(a: Body, b: Body, c: Body, d: Body)
    requires Alternating(a, b) && !c.mentions && d.mentions && d != a && d != b
    ensures Blocked(Run(0, Refused(a, b, d)))
    ensures var l := Run(0, Unblocking(a, b, c, d));
      var after := Run(0, Unblocking(a, b, c, d) + [Polled(8, d)]);
      && Key(6) in l.rows && l.rows[Key(6)] == Row(d, None, false)
      && !Blocked(l) && LastObserved(0, Unblocking(a, b, c, d)) == Some(c)
      && Key(8) in after.rows && after.rows[Key(8)] == Row(d, None, false)
  {
    RefusedRun(a, b, d);
    UnblockingRun(a, b, c, d);
    var run, e := Unblocking(a, b, c, d), Snapshot(Key(8), d);
    RunNext(0, run, Polled(8, d));
    OnePolled(Run(0, run), e);
    LastIs(a, b, c, d);
    hide Run, Refused, Unblocking, LastObserved, Poll, Blocked, Marked, Recorded;
    OneWaitsRecords(Run(0, run), e, c, d);
  }

  lemma OneWaitsRecords(l: Log, e: Snapshot, c: Body, d: Body)
    requires OneWaits(l, c, d) && e == Snapshot(Key(8), d) && d.mentions && c != d
    ensures !Blocked(l) && Recorded(Marked(l), e).rows == l.rows[e.key := Row(d, None, false)]
  {
    forall j, k | j in l.rows ensures !Repeats(l, j, k) {}
    assert NoneRedundant(l);
    CleanIsRepaired(l);
    assert Marked(l) == l;
    assert !ResolvedBefore(l, e);
    assert NewContent(l, e);
    assert e.key !in l.rows;
  }

  lemma LastIs(a: Body, b: Body, c: Body, d: Body)
    requires !c.mentions
    ensures LastObserved(0, Unblocking(a, b, c, d)) == Some(c)
  {
    var seen := Refused(a, b, d) + [Polled(7, c)];
    hide Run, Refused, Blocked, LastObserved;
    LastNext(Refused(a, b, d), Polled(7, c));
    LastNext(seen, Skipped(4));
    LastNext(seen + [Skipped(4)], Moved(Key(5), Some(UNFINISHED), false));
  }

  lemma LastNext(run: seq<Happening>, h: Happening)
    requires h.Polled? ==> !h.body.mentions
    ensures LastObserved(0, run + [h]) == if h.Polled? then Some(h.body) else LastObserved(0, run)
  {
    assert (run + [h])[..|run|] == run;
  }

  /** A claim was released, and its row deleted. */
  predicate Released(clean: Log, l: Log) {
    exists k :: k in l.rows && k in clean.rows && l.rows[k].status.None? && clean.rows[k].status.Some?
  }

  predicate NewlyResolved(clean: Log, l: Log, k: EventKey) {
    k in l.rows && k in clean.rows && Resolved(l.rows[k]) && !Resolved(clean.rows[k])
  }

  predicate TwoResolved(clean: Log, l: Log) {
    exists i, j ::
      i in l.rows && j in l.rows && i != j && SameIssue(i, j) && l.rows[i].body == l.rows[j].body &&
      NewlyResolved(clean, l, i) && NewlyResolved(clean, l, j)
  }

  /** From a log without redundant events, moving events on blocks the next poll only if a claim was released or two events
      of one body were resolved. */
  lemma BlockedNeedsTwo(clean: Log, l: Log)
    requires NoneRedundant(clean) && Blocked(l)
    requires clean.rows.Keys == l.rows.Keys && forall k :: k in l.rows ==> l.rows[k].body == clean.rows[k].body
    ensures Released(clean, l) || TwoResolved(clean, l)
  {
    hide NoneRedundant, Blocked, Repeats, Resolved, SameIssue;
    var k, i, j := TwoRepeated(l);
    TwoAlike(l, i, j, k);
    if clean.rows[k].status.None? {
      assert !Redundant(clean, k) by { NotRedundant(clean, k); }
      NewRepeat(clean, l, i, k);
      NewRepeat(clean, l, j, k);
      hide NewlyResolved;
      assert TwoResolved(clean, l);
    }
  }

  lemma TwoRepeated(l: Log) returns (k: EventKey, i: EventKey, j: EventKey)
    requires Blocked(l)
    ensures k in l.rows && i in l.rows && j in l.rows && i != j && Repeats(l, i, k) && Repeats(l, j, k)
  {
    hide Repeats;
    k, i, j :| k in l.rows && i in l.rows && j in l.rows && i != j && Repeats(l, i, k) && Repeats(l, j, k);
  }

  lemma TwoAlike(l: Log, i: EventKey, j: EventKey, k: EventKey)
    requires Repeats(l, i, k) && Repeats(l, j, k)
    ensures l.rows[k].status.None? && SameIssue(i, j) && l.rows[i].body == l.rows[j].body
  {
  }

  lemma NotRedundant(l: Log, k: EventKey)
    requires NoneRedundant(l)
    ensures !Redundant(l, k)
  {
  }

  lemma NewRepeat(clean: Log, l: Log, j: EventKey, k: EventKey)
    requires !Redundant(clean, k) && Repeats(l, j, k) && k in clean.rows && clean.rows[k].status.None?
    requires clean.rows.Keys == l.rows.Keys && forall i :: i in l.rows ==> l.rows[i].body == clean.rows[i].body
    ensures NewlyResolved(clean, l, j)
  {
    assert !Repeats(clean, j, k);
  }

  /** One event at a time: no claim is released, and between two polls only one event moves. */
  ghost predicate OneAtATime(run: seq<Happening>) {
    && (forall i :: 0 <= i < |run| && run[i].Moved? ==> run[i].status.Some?)
    && (forall i :: 0 < i < |run| && run[i].Moved? && run[i - 1].Moved? ==> run[i].key == run[i - 1].key)
  }

  /** `l` is `clean` but for the event `k`, which is claimed. */
  predicate MovedOnly(clean: Log, l: Log, k: EventKey) {
    && clean.rows.Keys == l.rows.Keys
    && (forall j :: j in l.rows && j != k ==> l.rows[j] == clean.rows[j])
    && (k in l.rows ==> l.rows[k].body == clean.rows[k].body && (l.rows[k] == clean.rows[k] || l.rows[k].status.Some?))
  }

  lemma OneMoveUnblocked(clean: Log, l: Log, k: EventKey)
    requires NoneRedundant(clean) && MovedOnly(clean, l, k)
    ensures !Blocked(l)
  {
    hide NoneRedundant;
    if Blocked(l) { BlockedNeedsTwo(clean, l); }
  }

  lemma NothingRedundant()
    ensures NoneRedundant(NOTHING)
  {
  }

  /** A run that moves one event at a time never blocks a poll. */
  lemma {:induction false} OneAtATimeUnblocked(source: Source, run: seq<Happening>) returns (clean: Log, k: EventKey)
    requires OneAtATime(run)
    ensures NoneRedundant(clean) && MovedOnly(clean, Run(source, run), k) && !Blocked(Run(source, run))
    ensures run != [] && run[|run| - 1].Moved? ==> k == run[|run| - 1].key
    ensures run == [] || !run[|run| - 1].Moved? ==> clean == Run(source, run)
  {
    hide Blocked, Poll, Repeats, Redundant, NoneRedundant;
    if run == [] {
      NothingRedundant();
      clean, k := NOTHING, Key(0);
    } else {
      var front, last := run[..|run| - 1], run[|run| - 1];
      assert forall i :: 0 <= i < |front| ==> front[i] == run[i];
      clean, k := OneAtATimeUnblocked(source, front);
      var l := Run(source, front);
      if last.Polled? {
        var e := Snapshot(EventKey(ISSUE, source, last.at), last.body);
        OnePolled(l, e);
        MarkedClean(l);
        if e.body.mentions { RecordedClean(Marked(l), e); } else { ObservedClean(Marked(l), Run(source, run)); }
        clean := Run(source, run);
      } else if last.Passed? {
        NothingPolled(l);
        MarkedClean(l);
        clean := Run(source, run);
      } else {
        assert front != [] && front[|front| - 1].Moved? ==> last.key == k;
        k := last.key;
      }
    }
    OneMoveUnblocked(clean, Run(source, run), k);
  }

  // ------------------------------------------------------------------ the transaction

  class EventLog {
    var rows: map<EventKey, Row>
    var observations: map<Source, Observation>

    ghost function View(): Log
      reads this
    {
      Log(rows, observations)
    }

    constructor ()
      ensures View() == Log(map[], map[])
    {
      rows, observations := map[], map[];
    }

    method HasResolvedIssueSnapshot(e: Snapshot) returns (found: bool)
      ensures found <==> ResolvedBefore(View(), e)
    {
      if e.key.kind != ISSUE { return false; }
      var todo := rows.Keys;
      while todo != {}
        invariant todo <= rows.Keys
        invariant forall k :: k in rows && k !in todo ==> !(SameIssue(k, e.key) && rows[k].body == e.body && Resolved(rows[k]))
        decreases todo
      {
        var k :| k in todo;
        if SameIssue(k, e.key) && rows[k].body == e.body && Resolved(rows[k]) { return true; }
        todo := todo - {k};
      }
      return false;
    }

    /** `ORDER BY source_updated_at DESC LIMIT 1` over the issue's stored events. */
    method LatestStoredBody(e: Snapshot) returns (latest: Option<Body>)
      requires e.key.kind == ISSUE
      ensures latest == Some(e.body) <==> LatestStored(View(), e)
    {
      var best: Option<EventKey> := None;
      var todo := rows.Keys;
      while todo != {}
        invariant todo <= rows.Keys
        invariant best.None? ==> forall k :: k in rows && k !in todo ==> !SameIssue(k, e.key)
        invariant best.Some? ==> best.value in rows && SameIssue(best.value, e.key)
        invariant best.Some? ==> forall k :: k in rows && k !in todo && SameIssue(k, e.key) ==> k.updated <= best.value.updated
        decreases todo
      {
        var k :| k in todo;
        if SameIssue(k, e.key) && (best.None? || best.value.updated < k.updated) { best := Some(k); }
        todo := todo - {k};
      }
      if best.None? { return None; }
      assert forall k :: k in rows && SameIssue(k, e.key) && k.updated == best.value.updated ==> k == best.value;
      return Some(rows[best.value].body);
    }

    method IsNewIssueContent(e: Snapshot) returns (isNew: bool)
      modifies this`observations
      ensures isNew == NewContent(old(View()), e)
      ensures View() == Observed(old(View()), e)
    {
      if e.key.kind != ISSUE { return true; }
      if e.key.source !in observations {
        var latest := LatestStoredBody(e);
        isNew := latest != Some(e.body);
      } else {
        isNew := observations[e.key.source].body != e.body;
      }
      observations := observations[e.key.source := Observation(e.body, e.key.updated)];
    }

    method RecordEvent(e: Snapshot)
      modifies this
      ensures View() == Recorded(old(View()), e)
    {
      if e.key in rows { return; }
      var isNew := IsNewIssueContent(e);
      if !isNew { return; }
      if e.key.kind == ISSUE && !e.body.mentions { return; }
      var resolved := HasResolvedIssueSnapshot(e);
      if resolved { return; }
      rows := rows[e.key := Row(e.body, None, false)];
    }

    /** `record_batch`: the repair, then event after event; a failed repair rolls the batch back. */
    method RecordBatch(batch: seq<Snapshot>) returns (ok: bool)
      modifies this
      ensures ok == Batched(old(View()), batch).Some?
      ensures View() == Batched(old(View()), batch).GetOr(old(View()))
    {
      ok := RepairRedundantIssueEvents();
      if !ok { return; }
      var i := 0;
      ghost var repaired := View();
      assert batch[..0] == [];
      while i < |batch|
        invariant 0 <= i <= |batch| && View() == RecordedAll(repaired, batch[..i])
      {
        assert batch[..i + 1][..i] == batch[..i];
        RecordEvent(batch[i]);
        i := i + 1;
      }
      assert batch[..i] == batch;
    }

    /** `observe_issue_content`, a transaction of its own. */
    method ObserveIssueContent(e: Snapshot)
      requires e.key.kind == ISSUE
      modifies this`observations
      ensures View() == Observed(old(View()), e)
    {
      observations := observations[e.key.source := Observation(e.body, e.key.updated)];
    }

    /** A page of the poller: snapshots without the mention are observed while the page is read, the rest is one batch. */
    method PollPage(page: seq<Snapshot>) returns (ok: bool)
      modifies this
      ensures View() == Poll(old(View()), page)
      ensures ok <==> !Blocked(old(View()))
    {
      ghost var before := View();
      var events, i := [], 0;
      assert page[..0] == [];
      while i < |page|
        invariant 0 <= i <= |page| && View() == ObservedAll(before, page[..i]) && events == Actionable(page[..i])
      {
        assert page[..i + 1][..i] == page[..i];
        if page[i].body.mentions {
          events := events + [page[i]];
        } else if page[i].key.kind == ISSUE {
          ObserveIssueContent(page[i]);
        }
        i := i + 1;
      }
      assert page[..i] == page;
      ObservedAllRows(before, page);
      SameRowsBlocked(before, View());
      ok := RecordBatch(events);
    }

    /** The INSERT over a self-join: it reads the rows as they were, inserts once per row of the join, and fails when an
        event's key is there already. */
    method RepairRedundantIssueEvents() returns (ok: bool)
      modifies this`rows
      ensures ok == Repaired(old(View())).Some?
      ensures View() == Repaired(old(View())).GetOr(old(View()))
    {
      ghost var before := View();
      var was := rows;
      var todo := was.Keys;
      while todo != {}
        invariant before == Log(was, observations) && observations == old(observations)
        invariant todo <= was.Keys && rows.Keys == was.Keys
        invariant forall k :: k in was && k !in todo ==> Once(before, k)
        invariant forall k :: k in was ==> rows[k] == if k in todo then was[k] else Marked(before).rows[k]
        decreases todo
      {
        var k :| k in todo;
        var matches := Matches(was, observations, k);
        if matches > 1 {
          rows := was;
          return false;
        }
        if matches == 1 { rows := rows[k := rows[k].(status := Some(SKIPPED))]; }
        todo := todo - {k};
      }
      assert rows == Marked(before).rows;
      return true;
    }

    /** The rows of the join for one later event. */
    static method Matches(was: map<EventKey, Row>, observations: map<Source, Observation>, k: EventKey) returns (n: nat)
      requires k in was
      ensures var l := Log(was, observations);
        (n == 0 <==> !Redundant(l, k)) && (n <= 1 <==> Once(l, k))
    {
      var l := Log(was, observations);
      n := 0;
      ghost var found: set<EventKey> := {};
      var todo := was.Keys;
      while todo != {}
        invariant todo <= was.Keys && n == |found|
        invariant forall j :: j in found <==> j in was && j !in todo && Repeats(l, j, k)
        decreases todo
      {
        var j :| j in todo;
        if Repeats(l, j, k) {
          n := n + 1;
          found := found + {j};
        }
        todo := todo - {j};
      }
      if n > 1 {
        ghost var i :| i in found;
        assert |found - {i}| == n - 1;
        ghost var j :| j in found - {i};
      } else if !Once(l, k) {
        var i, j :| i in was && j in was && i != j && Repeats(l, i, k) && Repeats(l, j, k);
        assert {i, j} <= found && |{i, j}| == 2;
        Smaller({i, j}, found);
      }
    }
  }

  /** No two earlier resolved events are repeated by `k`. */
  predicate Once(l: Log, k: EventKey) {
    forall i, j :: i in l.rows && j in l.rows && Repeats(l, i, k) && Repeats(l, j, k) ==> i == j
  }

  lemma {:induction false} Smaller(a: set<EventKey>, b: set<EventKey>)
    requires a <= b
    ensures |a| <= |b|
  {
    assert b == a + (b - a) && a !! (b - a);
  }
}
