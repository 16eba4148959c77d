/** What the inbox, the claims and the initial workflow do with one row, read off its columns. */
module InputsOutcomes {
  import opened Prelude
  import opened Inputs
  import opened InputsTheorems

  /** A batch goes through exactly for an active revision cycle and a selection that is wholly pending; it then takes the
      selected pending inputs, or all of them, into that cycle. */
  lemma BatchExactly(s: Inbox, c: CycleId, selected: Option<seq<InputId>>)
    ensures Batch(s, c, selected).Some? <==>
      && c < |s.cycles| && s.cycles[c].kind == REVISION && s.cycles[c].status == ACTIVE
      && (selected.Some? ==> forall id :: id in selected.value ==> id in s.inputs && s.inputs[id].status == PENDING)
    ensures match Batch(s, c, selected)
            case None => true
            case Some(t) =>
              && t == s.(inputs := t.inputs) && t.inputs.Keys == s.inputs.Keys
              && forall id :: id in s.inputs ==>
                   t.inputs[id] ==
                   if s.inputs[id].status == PENDING && (selected.None? || id in selected.value)
                   then s.inputs[id].(status := BATCHED, cycle := Some(c)) else s.inputs[id]
  {
  }

  /** Consuming a cycle's inputs takes exactly those batched into it. */
  lemma ConsumeExactly(s: Inbox, c: CycleId)
    ensures var t := Consume(s, c);
      && t == s.(inputs := t.inputs) && t.inputs.Keys == s.inputs.Keys
      && forall id :: id in s.inputs ==>
           t.inputs[id] == if s.inputs[id].status == BATCHED && s.inputs[id].cycle == Some(c)
             then s.inputs[id].(status := CONSUMED) else s.inputs[id]
  {
  }

  /** A claim writes a row only for a free event, and is told to go on exactly when the row that stands names its occurrence
      and its status. */
  lemma ClaimExactly(s: Inbox, k: Key, cycle: nat, status: string, occurrence: string, at: Time)
    ensures var t := ClaimRow(s, k, cycle, status, occurrence, at);
      && t == s.(dispositions := t.dispositions) && k in t.dispositions
      && t.dispositions[k] ==
           (if k in s.dispositions then s.dispositions[k] else Disposition(cycle, CLARIFICATION_ROUTED, status, at, None, Some(occurrence)))
      && t.dispositions == s.dispositions[k := t.dispositions[k]]
      && (ClaimHolds(t, k, status, occurrence) <==> t.dispositions[k].occurrence == Some(occurrence) && t.dispositions[k].status == status)
  {
  }

  predicate Unsettled(d: map<Key, Disposition>, k: Key) { k in d && d[k].consumedAt == None }

  /** Finishing settles a row once, with the outcome when there is one. */
  lemma FinishExactly(d: map<Key, Disposition>, k: Key, at: Time, status: Option<string>)
    ensures Finish(d, k, at, status) ==
      if !Unsettled(d, k) then d
      else d[k := Disposition(d[k].cycle, d[k].purpose, if status.Some? then status.value else d[k].status,
                              d[k].claimedAt, Some(at), d[k].occurrence)]
  {
  }

  /** The pending claim is the unsettled row with an occurrence that was claimed first, by key among claims of one moment. */
  lemma FirstClaimExactly(d: map<Key, Disposition>, k: Key)
    ensures FirstClaim(d, k) <==>
      && Unsettled(d, k) && d[k].occurrence != None
      && forall j :: Unsettled(d, j) && d[j].occurrence != None ==>
           d[k].claimedAt < d[j].claimedAt || (d[k].claimedAt == d[j].claimedAt && k <= j)
  {
    assert forall j :: Unfinished(d, j) <==> Unsettled(d, j) && d[j].occurrence != None;
    hide Unfinished, Unsettled;
  }

  /** The initial workflow is activated once; the same activation may come again, any other is refused. */
  lemma ActivateExactly(s: Inbox, c: CycleId, digest: string)
    ensures Step(s, Activate(c, digest)) ==
      match s.lifecycle
      case None => None
      case Some(l) =>
        match l.state
        case NotStarted => Some(s.(lifecycle := Some(Lifecycle(Active, l.root, Some(c), Some(digest)))))
        case _ => if l.cycle == Some(c) && l.digest == Some(digest) then Some(s) else None
  {
  }

  /** It completes for its own cycle; once it is complete any completion is accepted and changes nothing. */
  lemma CompleteExactly(s: Inbox, c: CycleId)
    ensures Step(s, CompleteInitial(c)) ==
      match s.lifecycle
      case None => None
      case Some(l) =>
        match l.state
        case NotStarted => None
        case Active => if l.cycle == Some(c) then Some(s.(lifecycle := Some(l.(state := Complete)))) else None
        case _ => Some(s)
  {
  }

  /** A declarative publication finalizes exactly the latest cycle, while it waits and nothing is pending, after the initial
      workflow is complete; every waiting cycle is published. */
  lemma FinalizeExactly(s: Inbox, c: CycleId, proven: bool)
    ensures Step(s, Finalize(c, proven)).Some? <==>
      && proven && |s.cycles| == c + 1 && s.cycles[c].status == AWAITING_PUBLICATION
      && (forall id :: id in s.inputs ==> s.inputs[id].status != PENDING)
      && s.lifecycle.Some? && (s.lifecycle.value.state == Complete || s.lifecycle.value.state == Published)
    ensures match Step(s, Finalize(c, proven))
            case None => true
            case Some(t) =>
              && s.lifecycle.Some? && t == s.(cycles := t.cycles, lifecycle := Some(s.lifecycle.value.(state := Published)))
              && |t.cycles| == |s.cycles|
              && forall i :: 0 <= i < |s.cycles| ==>
                   t.cycles[i] == if s.cycles[i].status == AWAITING_PUBLICATION then s.cycles[i].(status := PUBLISHED) else s.cycles[i]
  {
  }
}
