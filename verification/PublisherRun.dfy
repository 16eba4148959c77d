/** The publisher as it runs: one object that performs effect after effect on the world and refreshes its publication
    row after each recorded one. */
module PublisherRun {
  import opened Prelude
  import opened Publisher

  class GitHubPublisher {
    const config: Config
    var log: seq<Tree>
    var work: Tree
    var remote: Option<Sha>
    var prs: seq<nat>
    var comments: seq<Comment>
    var mapping: map<nat, nat>
    var next: nat
    var publication: Row
    var left: nat   // effects this run may still perform
    var end: End

    ghost function Here(): State
      reads this
    {
      State(World(log, work, remote, prs, comments, mapping, next), publication)
    }

    ghost function Progress(): Run
      reads this
    {
      Run(Here(), left, end)
    }

    constructor (c: Config, w: World)
      requires WellFormed(c, w)
      ensures config == c && Here() == State(w, Row(PENDING, None, None, None, None))
    {
      config := c;
      log, work, remote, prs := w.log, w.work, w.remote, w.prs;
      comments, mapping, next := w.comments, w.mapping, w.next;
      publication := Row(PENDING, None, None, None, None);
      left, end := 0, Going;
    }

    /** Pay for one effect; without one left the run is cut just before it. */
    method Spend() returns (go: bool)
      requires end == Going
      modifies this`left, this`end
      ensures go <==> old(left) > 0
      ensures if go then left == old(left) - 1 && end == Going else left == old(left) && end == Cut
    {
      if left == 0 { end := Cut; return false; }
      left := left - 1;
      return true;
    }

    method Record(row: Row)
      requires end == Going
      modifies this`left, this`end, this`publication
      ensures Progress() == Effect(old(Progress()), old(Here()).(row := row))
    {
      var go := Spend();
      if go { publication := row; }
    }

    method Commit()
      requires |log| > 0
      modifies this
      ensures Progress() == CommitStage(config, old(Progress()))
    {
      if end != Going || publication.commit.Some? { return; }
      if work != log[|log| - 1] {
        var go := Spend();
        if !go { return; }
        log := log + [work];
      }
      var head := |log| - 1;
      if head == config.base { end := Raised; return; }
      Record(publication.(status := COMMITTED, commit := Some(head)));
    }

    method Push()
      requires |log| > 0
      modifies this
      ensures Progress() == PushStage(old(Progress()))
    {
      if end != Going || publication.commit.None? { return; }
      var commit := publication.commit.value;
      if remote != Some(Local(commit)) {
        if remote.Some? && !IsAncestor(remote.value, commit) { end := Raised; return; }
        var go := Spend();
        if !go { return; }
        remote := Some(Local(|log| - 1));
      }
      if work != log[|log| - 1] { end := Raised; return; }
      Record(publication.(status := PUSHED, remoteSha := remote));
    }

    method EnsurePullRequest()
      modifies this
      ensures Progress() == PrStage(old(Progress()))
    {
      if end != Going || publication.pr.Some? { return; }
      if |prs| > 1 { end := Raised; return; }
      var number;
      if prs == [] {
        var go := Spend();
        if !go { return; }
        number := next;
        prs := prs + [number];
        next := next + 1;
      } else {
        number := prs[0];
      }
      Record(publication.(status := PR_CREATED, pr := Some(number)));
    }

    method RegisterMapping()
      modifies this
      ensures Progress() == MapStage(config, old(Progress()))
    {
      if end != Going || publication.pr.None? { return; }
      var number := publication.pr.value;
      if number in mapping && mapping[number] != config.thread { end := Raised; return; }
      var go := Spend();
      if go { mapping := mapping[number := config.thread]; }
    }

    /** The comments that carry one of the publication's markers. */
    method Matching() returns (own: seq<Comment>)
      ensures own == Own(config, comments)
    {
      own := [];
      var i := |comments|;
      while i > 0
        invariant 0 <= i <= |comments|
        invariant own == Own(config, comments[i..])
      {
        i := i - 1;
        assert comments[i..][1..] == comments[i + 1..];
        if Owns(config, comments[i].marker) { own := [comments[i]] + own; }
      }
    }

    method EnsureComment()
      modifies this
      ensures Progress() == CommentStage(config, old(Progress()))
    {
      if end != Going { return; }
      if publication.comment.Some? {
        Record(publication.(status := COMMENTED));
        return;
      }
      var own := Matching();
      if |own| > 1 { end := Raised; return; }
      var id;
      if own == [] {
        var go := Spend();
        if !go { return; }
        id := next;
        comments := comments + [Comment(id, ForPublication)];
        next := next + 1;
      } else {
        id := own[0].id;
      }
      Record(publication.(status := COMMENTED, comment := Some(id)));
    }

    /** Everything decided before the first effect. */
    method Open()
      requires WellFormed(config, Here().world) && end == Going
      modifies this
      ensures Progress() == Begin(config, old(Here()), old(left))
    {
      var head := |log| - 1;
      var dirty := work != log[head];
      var untouched := config.baseline.Legacy? && config.baseline.end == config.baseline.start && !config.baseline.endDirty &&
                       head == config.baseline.start;
      if untouched && dirty { end := Raised; return; }
      if untouched || (config.baseline.Declarative? && head == config.base && !dirty) || work == log[Start(config)] {
        Record(publication.(status := NO_CHANGES));
        if end == Going { end := Finished; }
        return;
      }
      if !config.pathsSafe { end := Raised; }
    }

    method Publish(effects: nat)
      requires WellFormed(config, Here().world)
      modifies this
      ensures Progress() == Publisher.Publish(config, old(Here()), effects)
    {
      left, end := effects, Going;
      Open();
      Commit();
      if |log| == 0 { return; }
      Push();
      EnsurePullRequest();
      RegisterMapping();
      EnsureComment();
      if end == Going {
        Record(publication.(status := COMPLETED));
        if end == Going { end := Finished; }
      }
    }

    /** One run, cut after `effects` effects by a fault that is caught or by a crash that is not. */
    method PublishOne(effects: nat, fault: bool)
      requires WellFormed(config, Here().world)
      modifies this
      ensures Here() == Publisher.PublishOne(config, old(Here()), effects, fault)
    {
      if !Resumable(publication.status) { return; }
      Publish(effects);
      if (end == Raised && (left > 0 || fault)) || (end == Cut && fault) {
        publication := publication.(status := FAILED);
      }
    }

    method RetryPublication() returns (ok: bool)
      modifies this`publication
      ensures Here() == Retry(old(Here())) && ok == (old(publication).status == FAILED)
    {
      if publication.status != FAILED { return false; }
      publication := publication.(status := PENDING);
      return true;
    }
  }
}
