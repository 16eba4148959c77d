/** Over any sequence of cut runs and retries nothing is published twice, and a run that is let through finishes. */
module PublisherSafety {
  import opened Prelude
  import opened Publisher

  /** A publication nobody has worked on yet. */
  predicate Fresh(c: Config, s: State) {
    WellFormed(c, s.world) && s.row == Row(PENDING, None, None, None, None)
  }

  /** The run goes on past its opening checks. */
  predicate Proceeds(c: Config, w: World)
    requires WellFormed(c, w)
  {
    !(LegacyUntouched(c, w) && Dirty(w)) && !Unchanged(c, w) && c.pathsSafe
  }

  predicate LogOk(c: Config, w0: World, w: World)
    requires WellFormed(c, w0)
  {
    w.work == w0.work && (w.log == w0.log || (Dirty(w0) && Proceeds(c, w0) && w.log == w0.log + [w0.work]))
  }

  predicate CommentsOk(c: Config, w0: World, w: World) {
    && w0.comments <= w.comments
    && (Own(c, w.comments) == Own(c, w0.comments) || (Own(c, w0.comments) == [] && |Own(c, w.comments)| == 1))
  }

  /** The recorded ids name what is in the world, in the order the protocol records them. */
  predicate RowOk(c: Config, w0: World, w: World, row: Row)
    requires WellFormed(c, w0) && |w.log| > 0
  {
    && (row.commit.Some? ==> row.commit.value == Head(w) && !Dirty(w) && Head(w) != c.base && Proceeds(c, w0))
    && (row.commit.None? ==> row.remoteSha.None? && w.remote == w0.remote)
    && (row.remoteSha.Some? ==> row.remoteSha == w.remote == Some(Local(Head(w))))
    && (row.pr.Some? ==> row.remoteSha.Some? && w.prs == [row.pr.value])
    && (row.comment.Some? ==> row.pr.Some? && |Own(c, w.comments)| == 1 && Own(c, w.comments)[0].id == row.comment.value)
    && (row.status == COMPLETED ==>
         row.comment.Some? && row.pr.value in w.mapping && w.mapping[row.pr.value] == c.thread)
  }

  /** Everything a reachable state keeps about the state it started from. */
  predicate Ok(c: Config, w0: World, s: State)
    requires WellFormed(c, w0)
  {
    && WellFormed(c, s.world)
    && LogOk(c, w0, s.world)
    && (s.world.remote == w0.remote || (RemotePossible(w0) && s.world.remote == Some(Local(Head(s.world)))))
    && w0.next <= s.world.next
    && (s.world.prs == w0.prs || (w0.prs == [] && |s.world.prs| == 1 && s.world.prs[0] >= w0.next))
    && CommentsOk(c, w0, s.world)
    && MappingOk(c, w0, s.world)
    && RowOk(c, w0, s.world, s.row)
  }

  /** Only the thread's own pull request is ever mapped. */
  predicate MappingOk(c: Config, w0: World, w: World) {
    && (forall p :: p in w0.mapping ==> p in w.mapping && w.mapping[p] == w0.mapping[p])
    && forall p :: p in w.mapping ==> (p in w0.mapping && w.mapping[p] == w0.mapping[p]) || (w.prs == [p] && w.mapping[p] == c.thread)
  }

  lemma {:induction false} OwnAppend(c: Config, x: seq<Comment>, y: Comment)
    ensures Own(c, x + [y]) == Own(c, x) + (if Owns(c, y.marker) then [y] else [])
  {
    if x == [] {
      assert [y][1..] == [];
    } else {
      OwnAppend(c, x[1..], y);
      assert (x + [y])[1..] == x[1..] + [y];
    }
  }

  // ------------------------------------------------------------------ stage by stage

  lemma BeginKeeps(c: Config, w0: World, s: State, n: nat)
    requires WellFormed(c, w0) && Ok(c, w0, s)
    ensures var r := Begin(c, s, n);
      && Ok(c, w0, r.s) && r.s.world == s.world && r.s.row == s.row.(status := r.s.row.status)
      && (r.end == Going ==> r.s == s && r.left == n && Proceeds(c, w0))
      && (r.end == Finished ==> r.s.row.status == NO_CHANGES && Idle(c, w0))
      && (n >= 1 ==> (r.end == Going <==> Proceeds(c, w0)))
      && (n >= 1 && r.end != Going ==> if r.end == Finished then r.s.row.status == NO_CHANGES && Idle(c, w0) else r.end == Raised && !Idle(c, w0))
  {
    SameOpening(c, w0, s.world);
  }

  /** Nothing to publish, and nothing wrong with that. */
  predicate Idle(c: Config, w: World)
    requires WellFormed(c, w)
  {
    Unchanged(c, w) && !(LegacyUntouched(c, w) && Dirty(w))
  }

  /** The publisher's own commit does not change what the opening checks decide. */
  lemma SameOpening(c: Config, w0: World, w: World)
    requires WellFormed(c, w0) && WellFormed(c, w) && LogOk(c, w0, w)
    ensures Proceeds(c, w) == Proceeds(c, w0) && Idle(c, w) == Idle(c, w0)
  {
  }

  /** HEAD after the commit stage is not the base commit. */
  predicate CommitPossible(c: Config, w0: World)
    requires WellFormed(c, w0)
  {
    Dirty(w0) || Head(w0) != c.base
  }

  lemma CommitKeeps(c: Config, w0: World, r: Run)
    requires WellFormed(c, w0) && Ok(c, w0, r.s)
    requires r.end == Going ==> Proceeds(c, w0)
    ensures var t := CommitStage(c, r);
      && Ok(c, w0, t.s) && (r.end != Going ==> t == r) && (r.end == Going ==> t.end != Finished)
      && (t.end == Going ==> t.s.row.commit.Some? && t.left + 2 >= r.left)
      && (r.end == Going && r.left >= 2 ==> if CommitPossible(c, w0) then t.end == Going else t.end == Raised)
  {
    hide Own;
  }

  predicate RemotePossible(w0: World) {
    w0.remote.Some? ==> w0.remote.value.Local?
  }

  lemma PushKeeps(c: Config, w0: World, r: Run)
    requires WellFormed(c, w0) && Ok(c, w0, r.s)
    requires r.end == Going ==> r.s.row.commit.Some?
    ensures var t := PushStage(r);
      && Ok(c, w0, t.s) && (r.end != Going ==> t == r) && (r.end == Going ==> t.end != Finished)
      && (t.end == Going ==> t.s.row.remoteSha.Some? && t.left + 2 >= r.left)
      && (r.end == Going && r.left >= 2 ==> if RemotePossible(w0) then t.end == Going else t.end == Raised)
  {
  }

  lemma PrKeeps(c: Config, w0: World, r: Run)
    requires WellFormed(c, w0) && Ok(c, w0, r.s)
    requires r.end == Going ==> r.s.row.remoteSha.Some?
    ensures var t := PrStage(r);
      && Ok(c, w0, t.s) && (r.end != Going ==> t == r) && (r.end == Going ==> t.end != Finished)
      && (t.end == Going ==> t.s.row.pr.Some? && t.left + 2 >= r.left)
      && (r.end == Going && r.left >= 2 ==> if |w0.prs| <= 1 then t.end == Going else t.end == Raised)
  {
  }

  /** The pull request of the branch is not mapped to another thread. */
  predicate MapPossible(c: Config, w0: World) {
    |w0.prs| == 1 && w0.prs[0] in w0.mapping ==> w0.mapping[w0.prs[0]] == c.thread
  }

  predicate Mapped(c: Config, s: State) {
    s.row.pr.Some? && s.row.pr.value in s.world.mapping && s.world.mapping[s.row.pr.value] == c.thread
  }

  lemma MapKeeps(c: Config, w0: World, r: Run)
    requires WellFormed(c, w0) && Ok(c, w0, r.s)
    requires r.end == Going ==> r.s.row.pr.Some?
    ensures var t := MapStage(c, r);
      && Ok(c, w0, t.s) && (r.end != Going ==> t == r) && (r.end == Going ==> t.end != Finished)
      && (t.end == Going ==> Mapped(c, t.s) && t.left + 1 >= r.left)
      && (r.end == Going && r.left >= 1 ==> if MapPossible(c, w0) then t.end == Going else t.end == Raised)
  {
    if r.s.row.pr.Some? { assert r.s.world.prs[0] == r.s.row.pr.value; }
  }

  lemma CommentKeeps(c: Config, w0: World, r: Run)
    requires WellFormed(c, w0) && Ok(c, w0, r.s)
    requires r.end == Going ==> Mapped(c, r.s)
    ensures var t := CommentStage(c, r);
      && Ok(c, w0, t.s) && (r.end != Going ==> t == r) && (r.end == Going ==> t.end != Finished)
      && (t.end == Going ==> t.s.row.comment.Some? && Mapped(c, t.s) && t.left + 2 >= r.left)
      && (r.end == Going && r.left >= 2 ==> if |Own(c, w0.comments)| <= 1 then t.end == Going else t.end == Raised)
  {
    hide Proceeds;
    OwnAppend(c, r.s.world.comments, Comment(r.s.world.next, ForPublication));
    hide Own;
  }

  // ------------------------------------------------------------------ whole runs

  /** What the world must allow for the publication to complete. */
  predicate Publishable(c: Config, w0: World)
    requires WellFormed(c, w0)
  {
    && Proceeds(c, w0) && CommitPossible(c, w0) && RemotePossible(w0)
    && |w0.prs| <= 1 && MapPossible(c, w0) && |Own(c, w0.comments)| <= 1
  }

  lemma PublishKeeps(c: Config, w0: World, s: State, n: nat)
    requires WellFormed(c, w0) && Ok(c, w0, s)
    ensures var r := Publish(c, s, n);
      && Ok(c, w0, r.s)
      && (n >= 10 ==> (r.end == Finished <==> Idle(c, w0) || Publishable(c, w0)))
      && (r.end == Finished ==> r.s.row.status == if Idle(c, w0) then NO_CHANGES else COMPLETED)
      && r.end != Going
      && (Idle(c, w0) ==> !Proceeds(c, w0))
  {
    hide Begin, CommitStage, PushStage, PrStage, MapStage, CommentStage, Finish;
    hide LogOk, CommentsOk, MappingOk, RowOk, CommitPossible, RemotePossible, MapPossible, Mapped;
    BeginKeeps(c, w0, s, n);
    var begun := Begin(c, s, n);
    CommitKeeps(c, w0, begun);
    var committed := CommitStage(c, begun);
    PushKeeps(c, w0, committed);
    var pushed := PushStage(committed);
    PrKeeps(c, w0, pushed);
    var found := PrStage(pushed);
    MapKeeps(c, w0, found);
    var mapped := MapStage(c, found);
    CommentKeeps(c, w0, mapped);
    var commented := CommentStage(c, mapped);
    FinishKeeps(c, w0, commented);
  }

  lemma FinishKeeps(c: Config, w0: World, r: Run)
    requires WellFormed(c, w0) && Ok(c, w0, r.s)
    requires r.end == Going ==> r.s.row.comment.Some? && Mapped(c, r.s)
    ensures var t := Finish(r, COMPLETED);
      && Ok(c, w0, t.s) && (r.end != Going ==> t == r) && t.end != Going
      && (r.end == Going && t.end == Finished ==> t.s.row.status == COMPLETED)
      && (r.end == Going && r.left >= 1 ==> t.end == Finished)
      && (r.end == Going && t.end != Finished ==> t.end == Cut)
  {
    hide LogOk, CommentsOk, MappingOk, WellFormed;
  }

  // ------------------------------------------------------------------ any sequence of runs and retries

  function Acts(c: Config, s: State, actions: seq<Action>): State
    requires WellFormed(c, s.world)
    decreases |actions|
  {
    if actions == [] then s
    else
      var t := Act(c, s, actions[0]);
      if WellFormed(c, t.world) then Acts(c, t, actions[1..]) else t
  }

  lemma ActKeeps(c: Config, w0: World, s: State, a: Action)
    requires WellFormed(c, w0) && Ok(c, w0, s)
    ensures Ok(c, w0, Act(c, s, a))
  {
    hide LogOk, CommentsOk, MappingOk, WellFormed, Publish, Idle, Publishable;
    if a.Attempt? && Resumable(s.row.status) { PublishKeeps(c, w0, s, a.effects); }
  }

  lemma {:induction false} ActsKeep(c: Config, w0: World, s: State, actions: seq<Action>)
    requires WellFormed(c, w0) && Ok(c, w0, s)
    ensures Ok(c, w0, Acts(c, s, actions))
    decreases |actions|
  {
    hide Act, LogOk, CommentsOk, MappingOk, RowOk, WellFormed;
    if actions != [] {
      ActKeeps(c, w0, s, actions[0]);
      ActsKeep(c, w0, Act(c, s, actions[0]), actions[1..]);
    }
  }

  lemma FreshOk(c: Config, s: State)
    requires Fresh(c, s)
    ensures Ok(c, s.world, s)
  {
  }

  /** An id once recorded is never forgotten or changed. */
  predicate Recorded(x: Row, y: Row) {
    && (x.commit.Some? ==> y.commit == x.commit)
    && (x.remoteSha.Some? ==> y.remoteSha == x.remoteSha)
    && (x.pr.Some? ==> y.pr == x.pr)
    && (x.comment.Some? ==> y.comment == x.comment)
  }

  lemma StagesRecord(c: Config, r: Run)
    requires |r.s.world.log| > 0
    ensures Recorded(r.s.row, CommitStage(c, r).s.row) && Recorded(r.s.row, PrStage(r).s.row)
    ensures Recorded(r.s.row, MapStage(c, r).s.row) && Recorded(r.s.row, CommentStage(c, r).s.row)
  {
    hide Own;
  }

  lemma PublishRecords(c: Config, w0: World, s: State, n: nat)
    requires WellFormed(c, w0) && Ok(c, w0, s)
    ensures Recorded(s.row, Publish(c, s, n).s.row)
  {
    hide LogOk, CommentsOk, MappingOk, RowOk, CommitStage, PushStage, PrStage, MapStage, CommentStage, Own, Finish, Begin;
    BeginKeeps(c, w0, s, n);
    var begun := Begin(c, s, n);
    CommitKeeps(c, w0, begun);
    var committed := CommitStage(c, begun);
    PushKeeps(c, w0, committed);
    var pushed := PushStage(committed);
    PushRecords(c, w0, committed);
    PrKeeps(c, w0, pushed);
    var found := PrStage(pushed);
    MapKeeps(c, w0, found);
    StagesRecord(c, begun);
    StagesRecord(c, pushed);
    StagesRecord(c, found);
    StagesRecord(c, MapStage(c, found));
    FinishRecords(CommentStage(c, MapStage(c, found)));
    hide WellFormed, RowOk, Begin, Finish, Proceeds, Idle, RemotePossible, CommitPossible, MapPossible, Mapped;
  }

  lemma FinishRecords(r: Run)
    ensures Recorded(r.s.row, Finish(r, COMPLETED).s.row)
  {
  }

  /** Pushing again records the commit that was recorded before. */
  lemma PushRecords(c: Config, w0: World, r: Run)
    requires WellFormed(c, w0) && Ok(c, w0, r.s)
    ensures Recorded(r.s.row, PushStage(r).s.row)
  {
    hide LogOk, CommentsOk, MappingOk, Own, Proceeds;
  }

  /** Over any cut runs and retries the recorded ids only accumulate, though the status may fall back. */
  lemma {:induction false} RecordsOnlyGrow(c: Config, w0: World, s: State, actions: seq<Action>)
    requires WellFormed(c, w0) && Ok(c, w0, s)
    ensures Recorded(s.row, Acts(c, s, actions).row)
    decreases |actions|
  {
    hide LogOk, CommentsOk, MappingOk, RowOk, WellFormed, Publish;
    if actions != [] {
      ActKeeps(c, w0, s, actions[0]);
      if actions[0].Attempt? && Resumable(s.row.status) { PublishRecords(c, w0, s, actions[0].effects); }
      RecordsOnlyGrow(c, w0, Act(c, s, actions[0]), actions[1..]);
    }
  }

  /** Nothing is published twice: over any cut runs and retries at most one commit, one pull request and one own comment
      are added, the working tree is left alone, and COMPLETED means every recorded id names exactly that one object. */
  lemma ExactlyOnce(c: Config, s: State, actions: seq<Action>)
    requires Fresh(c, s)
    ensures var t := Acts(c, s, actions);
      && t.world.work == s.world.work
      && (t.world.log == s.world.log || t.world.log == s.world.log + [s.world.work])
      && (t.world.prs == s.world.prs || (s.world.prs == [] && |t.world.prs| == 1))
      && (Own(c, t.world.comments) == Own(c, s.world.comments) || (Own(c, s.world.comments) == [] && |Own(c, t.world.comments)| == 1))
      && s.world.comments <= t.world.comments
      && (t.row.status == COMPLETED ==> Names(c, t))
  {
    hide Acts, Own;
    FreshOk(c, s);
    ActsKeep(c, s.world, s, actions);
  }

  /** The four recorded ids are the head of the branch, what the remote has, the one pull request and the one comment. */
  predicate Names(c: Config, t: State) {
    && |t.world.log| > 0 && !Dirty(t.world)
    && t.row.commit == Some(Head(t.world))
    && t.row.remoteSha == t.world.remote == Some(Local(Head(t.world)))
    && t.row.pr.Some? && t.world.prs == [t.row.pr.value]
    && t.row.pr.value in t.world.mapping && t.world.mapping[t.row.pr.value] == c.thread
    && |Own(c, t.world.comments)| == 1 && t.row.comment == Some(Own(c, t.world.comments)[0].id)
  }

  /** From any state that cut runs and retries can reach, one run that is let through ends COMPLETED or NO_CHANGES exactly
      when the world allowed it from the start; a FAILED publication needs its retry first. */
  lemma OneGoodRunConverges(c: Config, s: State, actions: seq<Action>, fault: bool)
    requires Fresh(c, s)
    ensures var t := Acts(c, s, actions);
      var u := Acts(c, s, actions + [Again] + [Attempt(10, fault)]);
      Resumable(t.row.status) || t.row.status == FAILED ==>
        (u.row.status in {COMPLETED, NO_CHANGES} <==> Idle(c, s.world) || Publishable(c, s.world))
  {
    hide Acts, Act, Publish, Idle, Publishable, LogOk, CommentsOk, MappingOk, RowOk, WellFormed;
    FreshOk(c, s);
    ActsKeep(c, s.world, s, actions);
    ActsAppend(c, s.world, s, actions, Again);
    ActsKeep(c, s.world, s, actions + [Again]);
    ActsAppend(c, s.world, s, actions + [Again], Attempt(10, fault));
    var t := Acts(c, s, actions);
    if Resumable(t.row.status) || t.row.status == FAILED { GoodRun(c, s.world, t, fault); }
  }

  lemma GoodRun(c: Config, w0: World, t: State, fault: bool)
    requires WellFormed(c, w0) && Ok(c, w0, t) && (Resumable(t.row.status) || t.row.status == FAILED)
    ensures var r := Act(c, t, Again);
      WellFormed(c, r.world) &&
      (Act(c, r, Attempt(10, fault)).row.status in {COMPLETED, NO_CHANGES} <==> Idle(c, w0) || Publishable(c, w0))
  {
    ActKeeps(c, w0, t, Again);
    hide Publish, Idle, Publishable, LogOk, CommentsOk, MappingOk, WellFormed;
    PublishKeeps(c, w0, Retry(t), 10);
    Unfinished(c, w0, Retry(t), 10);
  }

  predicate Open(status: PublicationStatus) {
    status != COMPLETED && status != NO_CHANGES
  }

  lemma StagesStayOpen(c: Config, r: Run)
    requires |r.s.world.log| > 0 && Open(r.s.row.status)
    ensures Open(CommitStage(c, r).s.row.status) && Open(PushStage(r).s.row.status)
    ensures |CommitStage(c, r).s.world.log| > 0 && |PushStage(r).s.world.log| > 0
    ensures r.end != Finished ==> CommitStage(c, r).end != Finished && PushStage(r).end != Finished
  {
  }

  lemma LateStagesStayOpen(c: Config, r: Run)
    requires |r.s.world.log| > 0 && Open(r.s.row.status)
    ensures Open(PrStage(r).s.row.status) && Open(MapStage(c, r).s.row.status) && Open(CommentStage(c, r).s.row.status)
    ensures |PrStage(r).s.world.log| > 0 && |MapStage(c, r).s.world.log| > 0
    ensures r.end != Finished ==> PrStage(r).end != Finished && MapStage(c, r).end != Finished
    ensures Finish(r, COMPLETED).end != Finished && r.end != Finished ==> Open(Finish(r, COMPLETED).s.row.status)
  {
    hide Own;
  }

  lemma BeginStaysOpen(c: Config, s: State, n: nat)
    requires WellFormed(c, s.world) && Resumable(s.row.status)
    ensures var r := Begin(c, s, n); |r.s.world.log| > 0 && (r.end != Finished ==> Open(r.s.row.status))
  {
  }

  /** Only a finished run leaves a final status behind. */
  lemma Unfinished(c: Config, w0: World, s: State, n: nat)
    requires WellFormed(c, w0) && Ok(c, w0, s) && Resumable(s.row.status)
    ensures var r := Publish(c, s, n); r.end != Finished ==> Open(r.s.row.status)
  {
    hide Own, Begin, CommitStage, PushStage, PrStage, MapStage, CommentStage, Finish;
    BeginStaysOpen(c, s, n);
    BeginKeeps(c, w0, s, n);
    hide Ok, Idle, Proceeds;
    var begun := Begin(c, s, n);
    if begun.end == Finished {
      FinishedStays(c, begun);
    } else {
      StagesStayOpen(c, begun);
      StagesStayOpen(c, CommitStage(c, begun));
      var pushed := PushStage(CommitStage(c, begun));
      LateStagesStayOpen(c, pushed);
      LateStagesStayOpen(c, PrStage(pushed));
      LateStagesStayOpen(c, MapStage(c, PrStage(pushed)));
      CommentKeepsLog(c, MapStage(c, PrStage(pushed)));
      LateStagesStayOpen(c, CommentStage(c, MapStage(c, PrStage(pushed))));
    }
  }

  lemma CommentKeepsLog(c: Config, r: Run)
    ensures CommentStage(c, r).s.world.log == r.s.world.log
    ensures r.end != Finished ==> CommentStage(c, r).end != Finished
  {
    hide Own;
  }

  lemma FinishedStays(c: Config, r: Run)
    requires r.end == Finished && |r.s.world.log| > 0
    ensures CommitStage(c, r) == r && PushStage(r) == r && PrStage(r) == r && MapStage(c, r) == r && CommentStage(c, r) == r
    ensures Finish(r, COMPLETED) == r
  {
  }

  lemma {:induction false} ActsAppend(c: Config, w0: World, s: State, actions: seq<Action>, a: Action)
    requires WellFormed(c, w0) && Ok(c, w0, s)
    ensures WellFormed(c, Acts(c, s, actions).world) && Acts(c, s, actions + [a]) == Act(c, Acts(c, s, actions), a)
    decreases |actions|
  {
    hide Act, LogOk, CommentsOk, MappingOk, RowOk, WellFormed;
    if actions == [] {
      ActKeeps(c, w0, s, a);
      assert ([a])[1..] == [];
      assert [] + [a] == [a];
    } else {
      ActKeeps(c, w0, s, actions[0]);
      ActsAppend(c, w0, Act(c, s, actions[0]), actions[1..], a);
      assert (actions + [a])[1..] == actions[1..] + [a];
    }
  }
}
