/** When a snapshot becomes an event and when the repair goes through, read off the stored rows. */
module IngestionColumns {
  import opened Prelude
  import opened Ingestion

  /** The stored event is of the same issue. */
  predicate OfIssue(k: EventKey, source: Source) { k.kind == ISSUE && k.source == source }

  /** The event needs nothing more: it was skipped, or it succeeded and its publication has an outcome. */
  predicate DoneWith(r: Row) { r.status == Some(SKIPPED) || (r.status == Some(SUCCEEDED) && r.published) }

  /** The issue's content is as it was last observed, or, when it never was, as its latest stored event has it. */
  ghost predicate Unchanged(l: Log, e: Snapshot) {
    if e.key.source in l.observations then l.observations[e.key.source].body == e.body
    else
      exists k :: k in l.rows && OfIssue(k, e.key.source) && l.rows[k].body == e.body &&
        forall j :: j in l.rows && OfIssue(j, e.key.source) ==> j.updated <= k.updated
  }

  ghost predicate AlreadyDone(l: Log, e: Snapshot) {
    exists k :: k in l.rows && OfIssue(k, e.key.source) && l.rows[k].body == e.body && DoneWith(l.rows[k])
  }

  /** A new snapshot of an issue becomes an event exactly when it carries the mention, changes the content, and its body is
      not that of an event already done with; it is observed in any case. Nothing else moves. */
  lemma IssueRecordedExactly(l: Log, e: Snapshot)
    requires e.key.kind == ISSUE && e.key !in l.rows
    ensures Recorded(l, e).observations == l.observations[e.key.source := Observation(e.body, e.key.updated)]
    ensures Recorded(l, e).rows ==
      if e.body.mentions && !Unchanged(l, e) && !AlreadyDone(l, e) then l.rows[e.key := Row(e.body, None, false)] else l.rows
  {
    assert ResolvedBefore(l, e) <==> AlreadyDone(l, e) by { DoneIs(l, e); }
    assert NewContent(l, e) <==> !Unchanged(l, e) by { UnchangedIs(l, e); }
    hide ResolvedBefore, AlreadyDone, NewContent, Unchanged;
  }

  lemma DoneIs(l: Log, e: Snapshot)
    requires e.key.kind == ISSUE
    ensures ResolvedBefore(l, e) <==> AlreadyDone(l, e)
  {
    assert forall k :: SameIssue(k, e.key) <==> OfIssue(k, e.key.source);
    hide SameIssue, OfIssue;
  }

  lemma UnchangedIs(l: Log, e: Snapshot)
    requires e.key.kind == ISSUE
    ensures NewContent(l, e) <==> !Unchanged(l, e)
  {
    assert forall k :: SameIssue(k, e.key) <==> OfIssue(k, e.key.source);
    hide SameIssue, OfIssue;
  }

  /** A comment becomes an event unless its key is stored; no observation is made of it. */
  lemma CommentRecorded(l: Log, e: Snapshot)
    requires e.key.kind == COMMENT
    ensures Recorded(l, e) == if e.key in l.rows then l else l.(rows := l.rows[e.key := Row(e.body, None, false)])
  {
  }

  /** An unclaimed event and an earlier event of its issue and body that is done with. */
  ghost predicate Copies(l: Log, k: EventKey, j: EventKey) {
    && k in l.rows && j in l.rows && k.kind == ISSUE && OfIssue(j, k.source) && j.updated < k.updated
    && l.rows[k].status == None && l.rows[k].body == l.rows[j].body && DoneWith(l.rows[j])
  }

  lemma CopiesIs(l: Log, k: EventKey, j: EventKey)
    ensures Repeats(l, j, k) <==> Copies(l, k, j)
  {
  }

  /** The repair goes through exactly when no unclaimed event copies two earlier ones; it then skips exactly those that copy
      one, and touches no observation. */
  lemma RepairedExactly(l: Log)
    ensures Repaired(l).Some? <==> forall k, i, j :: Copies(l, k, i) && Copies(l, k, j) ==> i == j
    ensures match Repaired(l)
            case None => true
            case Some(r) =>
              && r.observations == l.observations && r.rows.Keys == l.rows.Keys
              && forall k :: k in l.rows ==>
                   r.rows[k] == if exists j :: Copies(l, k, j) then l.rows[k].(status := Some(SKIPPED)) else l.rows[k]
  {
    RepairedClean(l);
    forall k, j ensures Repeats(l, j, k) <==> Copies(l, k, j) { CopiesIs(l, k, j); }
    forall k, j | Copies(l, k, j) ensures j in l.rows && k in l.rows {}
    forall k ensures Redundant(l, k) <==> exists j :: Copies(l, k, j) {
      if Redundant(l, k) { var j :| j in l.rows && Repeats(l, j, k); assert Copies(l, k, j); }
      if j :| Copies(l, k, j) { assert Repeats(l, j, k); }
    }
    hide Repeats, Copies, Redundant, Blocked, NoneRedundant;
  }
}
