/** How a publication ends, read off the tree, the branch, the pull requests and the comments it starts from. */
module PublisherOutcome {
  import opened Prelude
  import opened Publisher
  import opened PublisherSafety

  /** The tree a cycle's work is compared with: that of the base commit, or of a legacy execution's own start. */
  function StartedFrom(c: Config): nat { if c.baseline.Declarative? then c.base else c.baseline.start }

  /** There is nothing to publish: the working tree is the one the cycle started from. */
  predicate NothingToPublish(c: Config, w: World)
    requires WellFormed(c, w)
  {
    w.work == w.log[StartedFrom(c)]
  }

  /** A legacy execution that recorded no change, on a branch that still stands where it started. */
  predicate RecordedUntouched(c: Config, w: World) {
    c.baseline.Legacy? && c.baseline.start == c.baseline.end && !c.baseline.endDirty && |w.log| == c.baseline.start + 1
  }

  predicate CarriesOwn(c: Config, comment: Comment) {
    match comment.marker case ForPublication => true case ForEvent => c.rootIsEvent case Unrelated => false
  }

  predicate OneOwnAtMost(c: Config, comments: seq<Comment>) {
    forall i, j :: 0 <= i < j < |comments| ==> !(CarriesOwn(c, comments[i]) && CarriesOwn(c, comments[j]))
  }

  /** Everything that must hold of the world for the publication to complete. */
  predicate MayPublish(c: Config, w: World)
    requires WellFormed(c, w)
  {
    && !NothingToPublish(c, w)
    && c.pathsSafe && !RecordedUntouched(c, w)
    && (w.work != w.log[|w.log| - 1] || |w.log| != c.base + 1)
    && (w.remote == None || w.remote.value.Local?)
    && |w.prs| <= 1 && (w.prs != [] && w.prs[0] in w.mapping ==> w.mapping[w.prs[0]] == c.thread)
    && OneOwnAtMost(c, w.comments)
  }

  // ------------------------------------------------------------------ own comments

  /** The own comments, each at its place. */
  lemma {:induction false} OwnAre(c: Config, comments: seq<Comment>)
    ensures forall x :: x in Own(c, comments) <==> x in comments && CarriesOwn(c, x)
    ensures |Own(c, comments)| == 0 <==> forall x :: x in comments ==> !CarriesOwn(c, x)
    ensures |Own(c, comments)| <= 1 <==> OneOwnAtMost(c, comments)
  {
    if comments != [] {
      var rest := comments[1..];
      OwnAre(c, rest);
      assert comments == [comments[0]] + rest;
      assert forall i :: 0 < i < |comments| ==> comments[i] == rest[i - 1];
      if OneOwnAtMost(c, comments) {
        assert forall i :: 0 <= i < |rest| ==> rest[i] == comments[i + 1];
        if CarriesOwn(c, comments[0]) {
          forall x | x in rest ensures !CarriesOwn(c, x) { var i :| 0 <= i < |rest| && rest[i] == x; assert comments[i + 1] == x; }
        }
      }
    }
  }

  // ------------------------------------------------------------------ the outcome

  lemma OpeningIs(c: Config, w: World)
    requires WellFormed(c, w)
    ensures Idle(c, w) <==> NothingToPublish(c, w)
    ensures Publishable(c, w) <==> MayPublish(c, w)
  {
    OwnAre(c, w.comments);
    hide Own, OneOwnAtMost;
  }

  /** From any state that cut runs and retries of a fresh publication can reach, one run that is let through ends
      NO_CHANGES exactly when there was nothing to publish, and COMPLETED exactly when the world allowed it. */
  lemma EndsBy(c: Config, s: State, actions: seq<Action>, fault: bool)
    requires Fresh(c, s)
    ensures var t := Acts(c, s, actions);
      var u := Acts(c, s, actions + [Again] + [Attempt(10, fault)]);
      t.row.status != COMPLETED && t.row.status != NO_CHANGES ==>
        && (u.row.status == NO_CHANGES <==> NothingToPublish(c, s.world))
        && (u.row.status == COMPLETED <==> MayPublish(c, s.world))
        && (fault && !NothingToPublish(c, s.world) && !MayPublish(c, s.world) ==> u.row.status == FAILED)
  {
    OpeningIs(c, s.world);
    hide Acts, Act, Publish, Idle, Publishable, LogOk, CommentsOk, MappingOk, RowOk, WellFormed, MayPublish, NothingToPublish;
    FreshOk(c, s);
    ActsKeep(c, s.world, s, actions);
    ActsAppend(c, s.world, s, actions, Again);
    ActsKeep(c, s.world, s, actions + [Again]);
    ActsAppend(c, s.world, s, actions + [Again], Attempt(10, fault));
    var t := Acts(c, s, actions);
    if t.row.status != COMPLETED && t.row.status != NO_CHANGES { GoodRunEnds(c, s.world, t, fault); }
  }

  lemma GoodRunEnds(c: Config, w0: World, t: State, fault: bool)
    requires WellFormed(c, w0) && Ok(c, w0, t) && t.row.status != COMPLETED && t.row.status != NO_CHANGES
    ensures var r := Act(c, t, Again);
      WellFormed(c, r.world) &&
      var u := Act(c, r, Attempt(10, fault));
      && (u.row.status == NO_CHANGES <==> Idle(c, w0)) && (u.row.status == COMPLETED <==> Publishable(c, w0))
      && (fault && !Idle(c, w0) && !Publishable(c, w0) ==> u.row.status == FAILED)
  {
    ActKeeps(c, w0, t, Again);
    hide Publish, Idle, Publishable, LogOk, CommentsOk, MappingOk, WellFormed;
    PublishKeeps(c, w0, Retry(t), 10);
    Unfinished(c, w0, Retry(t), 10);
    IdleOrPublishable(c, w0);
  }

  lemma IdleOrPublishable(c: Config, w0: World)
    requires WellFormed(c, w0)
    ensures !(Idle(c, w0) && Publishable(c, w0))
  {
  }

  /** What COMPLETED stands for, whatever runs led to it: the head of the branch and of the remote is the working tree the
      thread left, and the recorded pull request and comment are the only ones of their kind. */
  lemma CompletedLeaves(c: Config, s: State, actions: seq<Action>)
    requires Fresh(c, s) && Acts(c, s, actions).row.status == COMPLETED
    ensures var t := Acts(c, s, actions);
      && |t.world.log| > 0 && t.world.work == s.world.work && t.world.log[|t.world.log| - 1] == s.world.work
      && (t.world.log == s.world.log || t.world.log == s.world.log + [s.world.work])
      && t.row.commit == Some(|t.world.log| - 1) && t.world.remote == Some(Local(|t.world.log| - 1)) && t.row.remoteSha == t.world.remote
      && t.row.pr.Some? && t.world.prs == [t.row.pr.value] && (s.world.prs != [] ==> t.world.prs == s.world.prs)
      && t.row.pr.value in t.world.mapping && t.world.mapping[t.row.pr.value] == c.thread
      && t.row.comment.Some? && OneOwnAtMost(c, t.world.comments)
      && s.world.comments <= t.world.comments
      && exists x :: x in t.world.comments && CarriesOwn(c, x) && x.id == t.row.comment.value
  {
    hide Acts, Own, OneOwnAtMost;
    ExactlyOnce(c, s, actions);
    var t := Acts(c, s, actions);
    OwnAre(c, t.world.comments);
    assert Own(c, t.world.comments)[0] in Own(c, t.world.comments);
  }

  // ------------------------------------------------------------------ effect by effect

  /** A publication of changed work on a branch that was never pushed, without a pull request or an own comment. */
  predicate Clean(c: Config, s: State) {
    && WellFormed(c, s.world) && s.row == Row(PENDING, None, None, None, None)
    && s.world.remote == None && s.world.prs == [] && (forall x :: x in s.world.comments ==> !CarriesOwn(c, x))
    && s.world.work != s.world.log[|s.world.log| - 1] && !NothingToPublish(c, s.world) && c.pathsSafe && !RecordedUntouched(c, s.world)
  }

  /** The world after that many effects: commit, push, pull request, mapping and comment, in this order. */
  function WorldAfter(c: Config, w: World, effects: nat): World {
    var head := |w.log|;
    w.(log := if effects >= 1 then w.log + [w.work] else w.log,
       remote := if effects >= 3 then Some(Local(head)) else None,
       prs := if effects >= 5 then [w.next] else [],
       mapping := if effects >= 7 then w.mapping[w.next := c.thread] else w.mapping,
       comments := if effects >= 8 then w.comments + [Comment(w.next + 1, ForPublication)] else w.comments,
       next := w.next + (if effects >= 5 then 1 else 0) + (if effects >= 8 then 1 else 0))
  }

  /** The row after that many effects: each id is recorded in the effect after the one that made it. */
  function RowAfter(w: World, effects: nat): Row {
    Row(if effects >= 10 then COMPLETED else if effects == 9 then COMMENTED else if effects >= 6 then PR_CREATED
        else if effects >= 4 then PUSHED else if effects >= 2 then COMMITTED else PENDING,
        if effects >= 2 then Some(|w.log|) else None, if effects >= 4 then Some(Local(|w.log|)) else None,
        if effects >= 6 then Some(w.next) else None, if effects >= 9 then Some(w.next + 1) else None)
  }

  /** A run cut after any number of effects has done exactly the first of them, and recorded nothing it has not done. */
  lemma CutAfter(c: Config, s: State, effects: nat)
    requires Clean(c, s) && effects <= 10
    ensures Publish(c, s, effects).s == State(WorldAfter(c, s.world, effects), RowAfter(s.world, effects))
    ensures Publish(c, s, effects).end == if effects == 10 then Finished else Cut
  {
    hide Own, OneOwnAtMost;
    OwnAre(c, s.world.comments);
    var begun := Begin(c, s, effects);
    assert begun == Run(s, effects, Going);
    var committed := CommitStage(c, begun);
    AfterCommit(c, s, effects);
    hide CommitStage, Begin;
    AfterPush(c, s, effects, committed);
    hide PushStage;
    AfterPr(c, s, effects, PushStage(committed));
    hide PrStage, MapStage;
    AfterComment(c, s, effects, MapStage(c, PrStage(PushStage(committed))));
    hide CommentStage;
  }

  /** A crash leaves the row as it was recorded; a fault that the publisher survives marks it FAILED and keeps its ids. */
  lemma FaultAfter(c: Config, s: State, effects: nat, fault: bool)
    requires Clean(c, s) && effects < 10
    ensures PublishOne(c, s, effects, fault) ==
      State(WorldAfter(c, s.world, effects),
            if fault then RowAfter(s.world, effects).(status := FAILED) else RowAfter(s.world, effects))
  {
    CutAfter(c, s, effects);
    hide Publish, Clean;
    assert s.row.status == PENDING && WellFormed(c, s.world) by { CleanRow(c, s); }
  }

  lemma CleanRow(c: Config, s: State)
    requires Clean(c, s)
    ensures s.row.status == PENDING && WellFormed(c, s.world)
  {
  }

  predicate Reached(c: Config, s: State, effects: nat, stage: nat, r: Run) {
    if effects >= stage then r == Run(State(WorldAfter(c, s.world, stage), RowAfter(s.world, stage)), effects - stage, Going)
    else r == Run(State(WorldAfter(c, s.world, effects), RowAfter(s.world, effects)), 0, Cut)
  }

  lemma AfterCommit(c: Config, s: State, effects: nat)
    requires Clean(c, s)
    ensures Reached(c, s, effects, 2, CommitStage(c, Run(s, effects, Going)))
  {
    hide Own, WellFormed;
    assert |s.world.log| > 0 && c.base < |s.world.log| by { Sized(c, s.world); }
  }

  lemma Sized(c: Config, w: World)
    requires WellFormed(c, w)
    ensures |w.log| > 0 && c.base < |w.log|
  {
  }

  lemma AfterPush(c: Config, s: State, effects: nat, r: Run)
    requires Clean(c, s) && Reached(c, s, effects, 2, r)
    ensures |r.s.world.log| > 0
    ensures Reached(c, s, effects, 4, PushStage(r))
  {
    hide Own;
  }

  lemma AfterPr(c: Config, s: State, effects: nat, r: Run)
    requires Clean(c, s) && Reached(c, s, effects, 4, r)
    ensures Reached(c, s, effects, 7, MapStage(c, PrStage(r)))
  {
    hide Own;
    assert s.world.next !in s.world.mapping;
  }

  lemma AfterComment(c: Config, s: State, effects: nat, r: Run)
    requires Clean(c, s) && Reached(c, s, effects, 7, r) && Own(c, s.world.comments) == []
    ensures Reached(c, s, effects, 9, CommentStage(c, r))
  {
    hide Own;
  }
}
