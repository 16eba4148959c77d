/** The publisher's protocol over a world of git, pull requests and comments. A run performs external and database
    effects one at a time and may be cut after any number of them. */
module Publisher {
  import opened Prelude

  /** A commit of the thread's branch by its place in the local history, or one this history does not contain. */
  datatype Sha = Local(at: nat) | Foreign(id: nat)
  type Tree = nat

  datatype Marker = ForPublication | ForEvent | Unrelated
  datatype Comment = Comment(id: nat, marker: Marker)

  datatype PublicationStatus =
    | PENDING | COMMITTED | PUSHED | PR_CREATED | COMMENTED | COMPLETED | NO_CHANGES | FAILED

  /** The publication row: its status and the ids recorded between the external effects. */
  datatype Row = Row(
    status: PublicationStatus, commit: Option<nat>, remoteSha: Option<Sha>, pr: Option<nat>, comment: Option<nat>)

  datatype World = World(
    log: seq<Tree>,          // the branch, oldest commit first; HEAD is the last
    work: Tree,              // the working tree, untracked files included
    remote: Option<Sha>,     // the remote branch
    prs: seq<nat>,           // pull requests from this branch, open or closed
    comments: seq<Comment>,  // comments on the issue
    mapping: map<nat, nat>,  // pull request number -> IssueThread
    next: nat)               // the next number GitHub hands out

  datatype State = State(world: World, row: Row)

  /** What a run reads and never writes. A declarative cycle starts at the base commit; a legacy one at its execution's
      own baseline. */
  datatype Baseline = Declarative | Legacy(start: nat, end: nat, endDirty: bool)
  datatype Config = Config(base: nat, baseline: Baseline, pathsSafe: bool, rootIsEvent: bool, thread: nat)

  predicate WellFormed(c: Config, w: World) {
    && |w.log| > 0 && c.base < |w.log|
    && (c.baseline.Legacy? ==> c.baseline.start < |w.log| && c.baseline.end < |w.log|)
    && (forall i :: 0 <= i < |w.prs| ==> w.prs[i] < w.next)
    && (forall i :: 0 <= i < |w.comments| ==> w.comments[i].id < w.next)
    && (forall p :: p in w.mapping ==> p < w.next)
    && (w.remote.Some? && w.remote.value.Local? ==> w.remote.value.at < |w.log|)
  }

  function Head(w: World): nat
    requires |w.log| > 0
  {
    |w.log| - 1
  }

  predicate Dirty(w: World)
    requires |w.log| > 0
  {
    w.work != w.log[Head(w)]
  }

  function Start(c: Config): nat {
    match c.baseline case Declarative => c.base case Legacy(start, _, _) => start
  }

  /** `publication_comment_markers`: a lifecycle rooted in its source event also owns the older event marker. */
  predicate Owns(c: Config, m: Marker) {
    m == ForPublication || (c.rootIsEvent && m == ForEvent)
  }

  function Own(c: Config, comments: seq<Comment>): seq<Comment> {
    if comments == [] then []
    else (if Owns(c, comments[0].marker) then [comments[0]] else []) + Own(c, comments[1..])
  }

  // ------------------------------------------------------------------ one run

  datatype End = Going | Cut | Raised | Finished

  /** A run in progress: how many effects it may still perform, and how it ended if it has. */
  datatype Run = Run(s: State, left: nat, end: End)

  function Raise(r: Run): Run {
    if r.end == Going then r.(end := Raised) else r
  }

  /** Perform one effect, unless the run is over or is cut here. */
  function Effect(r: Run, s: State): Run {
    if r.end != Going then r
    else if r.left == 0 then r.(end := Cut)
    else r.(s := s, left := r.left - 1)
  }

  /** The run ends well with its last database update. */
  function Finish(r: Run, status: PublicationStatus): Run {
    var e := Effect(r, r.s.(row := r.s.row.(status := status)));
    if e.end == Going then e.(end := Finished) else e
  }

  predicate LegacyUntouched(c: Config, w: World)
    requires |w.log| > 0
  {
    c.baseline.Legacy? && c.baseline.end == c.baseline.start && !c.baseline.endDirty && Head(w) == c.baseline.start
  }

  predicate Unchanged(c: Config, w: World)
    requires WellFormed(c, w)
  {
    || (c.baseline.Declarative? && Head(w) == c.base && !Dirty(w))
    || LegacyUntouched(c, w)
    || w.work == w.log[Start(c)]
  }

  /** Everything before the first effect. */
  function Begin(c: Config, s: State, effects: nat): Run
    requires WellFormed(c, s.world)
  {
    var r := Run(s, effects, Going);
    if LegacyUntouched(c, s.world) && Dirty(s.world) then Raise(r)
    else if Unchanged(c, s.world) then Finish(r, NO_CHANGES)
    else if !c.pathsSafe then Raise(r)
    else r
  }

  function GitCommit(w: World): World {
    w.(log := w.log + [w.work])
  }

  /** Commit the working tree unless a commit is recorded, then record HEAD. */
  function CommitStage(c: Config, r: Run): Run
    requires |r.s.world.log| > 0
  {
    if r.end != Going || r.s.row.commit.Some? then r
    else
      var made := if Dirty(r.s.world) then Effect(r, r.s.(world := GitCommit(r.s.world))) else r;
      if made.end != Going then made
      else if Head(made.s.world) == c.base then Raise(made)
      else Effect(made, made.s.(row := made.s.row.(status := COMMITTED, commit := Some(Head(made.s.world)))))
  }

  /** `git merge-base --is-ancestor`. */
  predicate IsAncestor(sha: Sha, commit: nat) {
    sha.Local? && sha.at <= commit
  }

  /** Push the branch unless the remote is there already, refuse a diverged remote, then record the remote commit. */
  function PushStage(r: Run): Run
    requires |r.s.world.log| > 0
  {
    if r.end != Going || r.s.row.commit.None? then r
    else
      var commit, w := r.s.row.commit.value, r.s.world;
      if w.remote.Some? && w.remote.value != Local(commit) && !IsAncestor(w.remote.value, commit) then Raise(r)
      else
        var pushed :=
          if w.remote == Some(Local(commit)) then r else Effect(r, r.s.(world := w.(remote := Some(Local(Head(w))))));
        if pushed.end != Going then pushed
        else if Dirty(pushed.s.world) then Raise(pushed)
        else Effect(pushed, pushed.s.(row := pushed.s.row.(status := PUSHED, remoteSha := pushed.s.world.remote)))
  }

  function OpenPr(w: World): World {
    w.(prs := w.prs + [w.next], next := w.next + 1)
  }

  /** Reuse the one pull request of the branch or open it, and record it. */
  function PrStage(r: Run): Run {
    if r.end != Going || r.s.row.pr.Some? then r
    else if |r.s.world.prs| > 1 then Raise(r)
    else
      var number := if r.s.world.prs == [] then r.s.world.next else r.s.world.prs[0];
      var found := if r.s.world.prs == [] then Effect(r, r.s.(world := OpenPr(r.s.world))) else r;
      Effect(found, found.s.(row := found.s.row.(status := PR_CREATED, pr := Some(number))))
  }

  /** `register_pr_mapping`: a number already mapped to another thread is refused. */
  function MapStage(c: Config, r: Run): Run {
    if r.end != Going || r.s.row.pr.None? then r
    else
      var number, mapping := r.s.row.pr.value, r.s.world.mapping;
      if number in mapping && mapping[number] != c.thread then Raise(r)
      else Effect(r, r.s.(world := r.s.world.(mapping := mapping[number := c.thread])))
  }

  function PostComment(w: World): World {
    w.(comments := w.comments + [Comment(w.next, ForPublication)], next := w.next + 1)
  }

  /** Reuse the one own comment or post it, and record it. */
  function CommentStage(c: Config, r: Run): Run {
    if r.end != Going then r
    else if r.s.row.comment.Some? then Effect(r, r.s.(row := r.s.row.(status := COMMENTED)))
    else
      var own := Own(c, r.s.world.comments);
      if |own| > 1 then Raise(r)
      else
        var posted := if own == [] then Effect(r, r.s.(world := PostComment(r.s.world))) else r;
        var id := if own == [] then r.s.world.next else own[0].id;
        Effect(posted, posted.s.(row := posted.s.row.(status := COMMENTED, comment := Some(id))))
  }

  function Publish(c: Config, s: State, effects: nat): Run
    requires WellFormed(c, s.world)
  {
    var begun := Begin(c, s, effects);
    var committed := CommitStage(c, begun);
    if |committed.s.world.log| == 0 then committed
    else
      var pushed := PushStage(committed);
      var mapped := MapStage(c, PrStage(pushed));
      var commented := CommentStage(c, mapped);
      Finish(commented, COMPLETED)
  }

  // ------------------------------------------------------------------ runs and retries

  predicate Resumable(status: PublicationStatus) {
    status in {PENDING, COMMITTED, PUSHED, PR_CREATED, COMMENTED}
  }

  function Fail(s: State): State {
    s.(row := s.row.(status := FAILED))
  }

  /** `publish_one`: a raise is recorded as FAILED; so is a fault that cuts the run, while a crash records nothing. */
  function PublishOne(c: Config, s: State, effects: nat, fault: bool): State
    requires WellFormed(c, s.world)
  {
    if !Resumable(s.row.status) then s
    else
      var r := Publish(c, s, effects);
      if (r.end == Raised && (r.left > 0 || fault)) || (r.end == Cut && fault) then Fail(r.s) else r.s
  }

  /** `retry_publication`. */
  function Retry(s: State): State {
    if s.row.status == FAILED then s.(row := s.row.(status := PENDING)) else s
  }

  /** A run cut after `effects` effects by a fault or a crash, or an operator's retry. */
  datatype Action = Attempt(effects: nat, fault: bool) | Again

  function Act(c: Config, s: State, a: Action): State
    requires WellFormed(c, s.world)
  {
    match a case Attempt(effects, fault) => PublishOne(c, s, effects, fault) case Again => Retry(s)
  }
}
