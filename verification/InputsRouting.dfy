/** What routing writes, read off the events: which input becomes a revision request, which approval is stale, and which is
    left for the interaction that waits for it. */
module InputsRouting {
  import opened Prelude
  import opened Inputs
  import opened InputsTheorems

  /** The thread has its workflow: a cycle, or an initial workflow that has started without legacy rows. */
  predicate Settled(s: Inbox)
    requires s.lifecycle.Some?
  {
    s.cycles != [] || (!s.legacy && s.lifecycle.value.state != NotStarted)
  }

  /** An event that asks for work: on an issue any body with a mention, elsewhere one that begins with the invocation. */
  predicate Asks(e: Event) { e.body == APPROVAL || e.body == INVOCATION || (e.issue && e.body == MENTION) }

  /** Unsolicited steering: it asks for work, approves nothing, and answers nothing. */
  predicate Steers(s: Inbox, e: Event)
    requires s.lifecycle.Some?
  {
    && Settled(s) && e.key != s.lifecycle.value.root && Asks(e) && e.body != APPROVAL
    && !(e.body == INVOCATION && e.key in s.awaited)
  }

  /** An approval nobody waits for. */
  predicate Stale(s: Inbox, e: Event)
    requires s.lifecycle.Some?
  {
    Settled(s) && e.key != s.lifecycle.value.root && e.body == APPROVAL && e.key !in s.awaited
  }

  ghost predicate SteersAt(s: Inbox, rows: seq<Event>, k: Key)
    requires s.lifecycle.Some?
  {
    exists e :: e in rows && e.key == k && Steers(s, e)
  }

  ghost predicate StaleAt(s: Inbox, rows: seq<Event>, k: Key)
    requires s.lifecycle.Some?
  {
    exists e :: e in rows && e.key == k && Stale(s, e)
  }

  function Written(s: Inbox, status: string, at: Time): Disposition {
    Disposition(if |s.cycles| == 0 then 0 else s.cycles[|s.cycles| - 1].number, CLARIFICATION_ROUTED, status, at, Some(at), None)
  }

  /** The state `t` is `s` with exactly these rows routed. */
  ghost predicate Routes(s: Inbox, rows: seq<Event>, at: Time, t: Inbox)
    requires s.lifecycle.Some?
  {
    && t == s.(dispositions := t.dispositions, inputs := t.inputs, acknowledged := t.acknowledged)
    && (forall id :: id in t.inputs <==> id in s.inputs || (id.ForEvent? && SteersAt(s, rows, id.key)))
    && (forall id :: id in t.inputs ==>
          t.inputs[id] == if id in s.inputs then s.inputs[id] else Input(id.key, None, UNSOLICITED_STEERING, PENDING, at, None))
    && (forall k :: k in t.acknowledged <==> k in s.acknowledged || SteersAt(s, rows, k))
    && (forall k :: k in t.dispositions <==> k in s.dispositions || SteersAt(s, rows, k) || StaleAt(s, rows, k))
    && (forall k :: k in s.dispositions ==> t.dispositions[k] == s.dispositions[k])
    && (forall k :: k !in s.dispositions && SteersAt(s, rows, k) ==> t.dispositions[k] == Written(s, "REVISION_QUEUED", at))
    && (forall k :: k !in s.dispositions && StaleAt(s, rows, k) ==> t.dispositions[k] == Written(s, "STALE_APPROVAL", at))
  }

  ghost predicate DistinctKeys(rows: seq<Event>) { forall i, j :: 0 <= i < j < |rows| ==> rows[i].key != rows[j].key }

  lemma KindIs(s: Inbox, e: Event)
    requires s.lifecycle.Some?
    ensures KindOf(s, e) == REVISION_QUEUED <==> Steers(s, e)
    ensures KindOf(s, e) == STALE_APPROVAL <==> Stale(s, e)
  {
  }

  /** What one more row adds to what is routed. */
  lemma OneMoreRow(s: Inbox, front: seq<Event>, last: Event)
    requires s.lifecycle.Some? && forall e :: e in front ==> e.key != last.key
    ensures forall k :: SteersAt(s, front + [last], k) <==> SteersAt(s, front, k) || (k == last.key && Steers(s, last))
    ensures forall k :: StaleAt(s, front + [last], k) <==> StaleAt(s, front, k) || (k == last.key && Stale(s, last))
    ensures !SteersAt(s, front, last.key) && !StaleAt(s, front, last.key)
  {
    var rows := front + [last];
    assert last in rows && forall e :: e in front ==> e in rows;
    hide Steers, Stale;
  }

  lemma RoutesMore(s: Inbox, front: seq<Event>, last: Event, at: Time, t: Inbox)
    requires s.lifecycle.Some? && Routes(s, front, at, t)
    requires last.key !in s.dispositions && forall e :: e in front ==> e.key != last.key
    ensures Routes(s, front + [last], at, Classified(t, last, KindOf(s, last), at))
  {
    KindIs(s, last);
    OneMoreRow(s, front, last);
    hide KindOf, Steers, Stale, SteersAt, StaleAt;
    if Steers(s, last) {
      MoreSteering(s, front, last, at, t);
    } else if Stale(s, last) {
      MoreStale(s, front, last, at, t);
    }
  }

  lemma MoreSteering(s: Inbox, front: seq<Event>, last: Event, at: Time, t: Inbox)
    requires s.lifecycle.Some? && Routes(s, front, at, t) && last.key !in s.dispositions
    requires Steers(s, last) && !Stale(s, last) && !SteersAt(s, front, last.key) && !StaleAt(s, front, last.key)
    requires forall k :: SteersAt(s, front + [last], k) <==> SteersAt(s, front, k) || k == last.key
    requires forall k :: StaleAt(s, front + [last], k) <==> StaleAt(s, front, k)
    ensures Routes(s, front + [last], at, Classified(t, last, REVISION_QUEUED, at))
  {
    hide Steers, Stale, SteersAt, StaleAt;
  }

  lemma MoreStale(s: Inbox, front: seq<Event>, last: Event, at: Time, t: Inbox)
    requires s.lifecycle.Some? && Routes(s, front, at, t) && last.key !in s.dispositions
    requires Stale(s, last) && !Steers(s, last) && !SteersAt(s, front, last.key) && !StaleAt(s, front, last.key)
    requires forall k :: StaleAt(s, front + [last], k) <==> StaleAt(s, front, k) || k == last.key
    requires forall k :: SteersAt(s, front + [last], k) <==> SteersAt(s, front, k)
    ensures Routes(s, front + [last], at, Classified(t, last, STALE_APPROVAL, at))
  {
    hide Steers, Stale, SteersAt, StaleAt;
  }

  lemma {:induction false} RouteAllExactly(s: Inbox, rows: seq<Event>, at: Time)
    requires s.lifecycle.Some? && DistinctKeys(rows) && forall e :: e in rows ==> e.key !in s.dispositions
    ensures Routes(s, rows, at, RouteAll(s, rows, at).inbox)
  {
    if rows != [] {
      var front, last := rows[..|rows| - 1], rows[|rows| - 1];
      assert rows == front + [last];
      assert forall i, j :: 0 <= i < j < |front| ==> front[i] == rows[i] && front[j] == rows[j];
      RouteAllExactly(s, front, at);
      forall e | e in front ensures e.key != last.key { var i :| 0 <= i < |front| && front[i] == e; assert rows[i] == e; }
      RoutesMore(s, front, last, at, RouteAll(s, front, at).inbox);
      hide Routes, KindOf, Classified;
    }
  }

  lemma {:induction false} UnmatchedDistinct(events: seq<Event>, dispositions: map<Key, Disposition>)
    requires DistinctKeys(events)
    ensures DistinctKeys(Unmatched(events, dispositions))
  {
    if events != [] {
      var front, last := events[..|events| - 1], events[|events| - 1];
      assert forall i, j :: 0 <= i < j < |front| ==> front[i] == events[i] && front[j] == events[j];
      UnmatchedDistinct(front, dispositions);
      forall e | e in front ensures e.key != last.key { var i :| 0 <= i < |front| && front[i] == e; assert events[i] == e; }
      var before := Unmatched(front, dispositions);
      forall i | 0 <= i < |before| ensures before[i].key != last.key { assert before[i] in front; }
    }
  }

  /** Routing a thread turns exactly the unsolicited steering among its unmatched events into pending revision requests, each
      acknowledged and disposed of, disposes of exactly the approvals nobody waits for, and touches nothing else: an awaited
      answer gets no row at all. */
  lemma RoutedExactly(s: Inbox, at: Time)
    requires s.lifecycle.Some? && DistinctKeys(s.events)
    ensures Route(s, at).Some?
    ensures Routes(s, Unmatched(s.events, s.dispositions), at, Route(s, at).value.inbox)
  {
    var rows := Unmatched(s.events, s.dispositions);
    UnmatchedDistinct(s.events, s.dispositions);
    RouteAllExactly(s, rows, at);
    assert rows == [] ==> RouteAll(s, rows, at) == Routing(s, []);
    hide Routes;
  }

  /** One event, in a thread that has a cycle. */
  lemma EventRouted(s: Inbox, at: Time, e: Event)
    requires s.lifecycle.Some? && s.cycles != [] && DistinctKeys(s.events)
    requires e in s.events && e.key !in s.dispositions && e.key != s.lifecycle.value.root && ForEvent(e.key) !in s.inputs
    ensures Route(s, at).Some?
    ensures var t := Route(s, at).value.inbox;
      && (ForEvent(e.key) in t.inputs <==>
            (e.body == INVOCATION && e.key !in s.awaited) || (e.issue && e.body == MENTION))
      && (ForEvent(e.key) in t.inputs ==> t.inputs[ForEvent(e.key)].status == PENDING && e.key in t.acknowledged)
      && (e.key in t.dispositions <==> ForEvent(e.key) in t.inputs || (e.body == APPROVAL && e.key !in s.awaited))
      && (e.key in t.dispositions && e.body == APPROVAL ==> t.dispositions[e.key].status == "STALE_APPROVAL")
  {
    RoutedExactly(s, at);
    var rows := Unmatched(s.events, s.dispositions);
    assert e in rows;
    forall x | x in rows && x.key == e.key ensures x == e {
      var i :| 0 <= i < |s.events| && s.events[i] == x;
      var j :| 0 <= j < |s.events| && s.events[j] == e;
    }
    assert SteersAt(s, rows, e.key) <==> Steers(s, e);
    assert StaleAt(s, rows, e.key) <==> Stale(s, e);
    hide Route, Unmatched, SteersAt, StaleAt;
  }

  /** Before the thread has its workflow, and in a legacy thread, routing and arrival write nothing. */
  lemma NothingRouted(s: Inbox, at: Time, e: Event)
    requires s.lifecycle.Some? && s.cycles == [] && (s.legacy || s.lifecycle.value.state == NotStarted) && DistinctKeys(s.events)
    ensures Route(s, at).Some? && Route(s, at).value.inbox == s
    ensures Classified(s, e, KindOf(s, e), at) == s
  {
    RoutedExactly(s, at);
    var rows := Unmatched(s.events, s.dispositions);
    var t := Route(s, at).value.inbox;
    KindIs(s, e);
    assert forall k :: !SteersAt(s, rows, k) && !StaleAt(s, rows, k);
    hide Route, Unmatched, SteersAt, StaleAt, KindOf;
    assert t.inputs == s.inputs && t.dispositions == s.dispositions && t.acknowledged == s.acknowledged;
  }
}
