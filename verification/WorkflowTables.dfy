/** How the attempt, review and repair tables may change without breaking what they keep. */
module WorkflowTables {
  import opened Prelude
  import opened WorkflowModel
  import opened WorkflowRun
  import opened WorkflowInvariant

  predicate SameAttempt(x: Attempt, y: Attempt) {
    x == y.(status := x.status, retries := x.retries, repairRecoveries := x.repairRecoveries,
            reviewRecoveries := x.reviewRecoveries)
  }

  /** `y` is `x` after one attempt row changed nothing but its status and counters. */
  predicate Updated(x: Attempts, y: Attempts, a: AttemptId) {
    a in x && a in y && y == x[a := y[a]] && SameAttempt(x[a], y[a])
  }

  ghost predicate PermitsGrow(x: Permits, y: Permits) {
    forall k :: k in x ==> k in y && x[k] == y[k].(consumed := x[k].consumed, invalidated := x[k].invalidated) && (Live(y[k]) ==> Live(x[k]))
  }

  ghost predicate RepairsGrow(x: Repairs, y: Repairs) {
    forall k :: k in x ==> k in y && x[k] == y[k].(consumed := x[k].consumed, invalidated := x[k].invalidated)
  }

  ghost predicate ReviewsGrow(x: Reviews, y: Reviews) {
    forall r :: r in x ==> r in y && x[r] == y[r]
  }

  /** Growing the permit, repair and review tables touches no attempt. */
  lemma RecordsGrow(
    attempts: Attempts, permits: Permits, repairs: Repairs, reviews: Reviews, cycle: nat,
    permits': Permits, repairs': Repairs, reviews': Reviews, cycle': nat)
    requires RecordsOk(attempts, permits, repairs, reviews, cycle)
    requires PermitsGrow(permits, permits') && RepairsGrow(repairs, repairs') && ReviewsGrow(reviews, reviews')
    requires cycle' >= cycle
    requires ReviewsOk(reviews', attempts) && RepairsOk(repairs', reviews', attempts)
    requires cycle' != cycle ==> NewestOk(attempts, permits', cycle')
    ensures RecordsOk(attempts, permits', repairs', reviews', cycle')
  {
    hide RowsOk, ParentsOk, NumbersOk, NewestOk, ReviewsOk, RepairsOk;
    RowsGrow(attempts, permits, repairs, permits', repairs');
    ParentsGrow(attempts, reviews, reviews');
    NumbersGrow(attempts, cycle, cycle');
    if cycle' == cycle { NewestShrinks(attempts, permits, repairs, permits', cycle); }
  }

  lemma RowsGrow(attempts: Attempts, permits: Permits, repairs: Repairs, permits': Permits, repairs': Repairs)
    requires RowsOk(attempts, permits, repairs) && PermitsGrow(permits, permits') && RepairsGrow(repairs, repairs')
    ensures RowsOk(attempts, permits', repairs')
  {
  }

  lemma ParentsGrow(attempts: Attempts, reviews: Reviews, reviews': Reviews)
    requires ParentsOk(attempts, reviews) && ReviewsGrow(reviews, reviews')
    ensures ParentsOk(attempts, reviews')
  {
    forall i | RepairOf(i) in attempts ensures FollowsParent(attempts, reviews', i) {
      assert FollowsParent(attempts, reviews, i);
    }
  }

  lemma NumbersGrow(attempts: Attempts, cycle: nat, cycle': nat)
    requires NumbersOk(attempts, cycle) && cycle <= cycle'
    ensures NumbersOk(attempts, cycle')
  {
    hide NumberTaken;
  }

  lemma NewestShrinks(attempts: Attempts, permits: Permits, repairs: Repairs, permits': Permits, cycle: nat)
    requires RowsOk(attempts, permits, repairs) && NewestOk(attempts, permits, cycle) && PermitsGrow(permits, permits')
    ensures NewestOk(attempts, permits', cycle)
  {
    forall k, b | LivePermitIn(permits', cycle, k) && InitialOf(k) in attempts &&
                 b in attempts && b.InitialOf? && attempts[b].cycle == cycle
      ensures attempts[b].number <= attempts[InitialOf(k)].number
    {
      assert RowOk(attempts[InitialOf(k)], permits, repairs);
      assert LivePermitIn(permits, cycle, k);
    }
  }

  lemma LatestUpdated(x: Attempts, y: Attempts, a: AttemptId, c: nat, b: AttemptId)
    requires Updated(x, y, a)
    ensures IsLatest(x, c, b) == IsLatest(y, c, b)
    ensures forall n :: NumberTaken(x, c, n) == NumberTaken(y, c, n)
  {
    forall n ensures NumberTaken(x, c, n) == NumberTaken(y, c, n) {
      if NumberTaken(x, c, n) {
        var e :| e in x && x[e].cycle == c && x[e].number == n;
        assert e in y && y[e].cycle == c;
      }
      if NumberTaken(y, c, n) {
        var e :| e in y && y[e].cycle == c && y[e].number == n;
        assert e in x && x[e].cycle == c;
      }
    }
    if IsLatest(x, c, b) {
      forall e | e in y && y[e].cycle == c ensures y[e].number <= y[b].number { assert e in x; }
    }
    if IsLatest(y, c, b) {
      forall e | e in x && x[e].cycle == c ensures x[e].number <= x[b].number { assert e in y; }
    }
  }

  lemma NumbersUpdated(x: Attempts, y: Attempts, a: AttemptId, cycle: nat)
    requires NumbersOk(x, cycle) && Updated(x, y, a)
    ensures NumbersOk(y, cycle)
  {
    forall b, c, n | b in y && y[b].cycle == c && 1 <= n <= y[b].number ensures NumberTaken(y, c, n) {
      assert b in x && x[b].cycle == c;
      assert NumberTaken(x, c, n);
      LatestUpdated(x, y, a, c, b);
    }
  }

  lemma ParentsUpdated(x: Attempts, y: Attempts, a: AttemptId, reviews: Reviews)
    requires ParentsOk(x, reviews) && Updated(x, y, a)
    ensures ParentsOk(y, reviews)
  {
    forall i | RepairOf(i) in y ensures FollowsParent(y, reviews, i) { assert FollowsParent(x, reviews, i); }
  }

  lemma RowsUpdated(x: Attempts, y: Attempts, a: AttemptId, permits: Permits, repairs: Repairs)
    requires RowsOk(x, permits, repairs) && Updated(x, y, a)
    ensures RowsOk(y, permits, repairs)
  {
  }

  lemma RecordsUpdated(
    x: Attempts, y: Attempts, a: AttemptId, permits: Permits, repairs: Repairs, reviews: Reviews, cycle: nat)
    requires RecordsOk(x, permits, repairs, reviews, cycle)
    requires Updated(x, y, a)
    requires y[a].status == Succeeded || !Reviewed(reviews, a)
    ensures RecordsOk(y, permits, repairs, reviews, cycle)
  {
    hide RowsOk, ParentsOk, NumbersOk;
    RowsUpdated(x, y, a, permits, repairs);
    ParentsUpdated(x, y, a, reviews);
    NumbersUpdated(x, y, a, cycle);
  }

  /** One new attempt row, numbered just above the rows of its cycle. */
  ghost predicate Inserted(x: Attempts, y: Attempts, a: AttemptId, cycle: nat) {
    && a !in x && a in y && y == x[a := y[a]]
    && y[a].cycle == cycle && 1 <= y[a].number
    && (forall b :: b in x && x[b].cycle == cycle ==> x[b].number < y[a].number)
    && (y[a].number == 1 || NumberTaken(x, cycle, y[a].number - 1))
  }

  lemma NumbersInserted(x: Attempts, y: Attempts, a: AttemptId, cycle: nat)
    requires NumbersOk(x, cycle) && Inserted(x, y, a, cycle)
    ensures NumbersOk(y, cycle)
  {
    forall b, c, n | b in y && y[b].cycle == c && 1 <= n <= y[b].number ensures NumberTaken(y, c, n) {
      if b == a && n == y[a].number {
        assert y[a].cycle == c;
      } else {
        if b == a {
          var e :| e in x && x[e].cycle == c && x[e].number == y[a].number - 1;
          assert NumberTaken(x, c, n);
        } else {
          assert NumberTaken(x, c, n);
        }
        var e :| e in x && x[e].cycle == c && x[e].number == n;
        assert e in y && y[e].number == n;
      }
    }
  }

  lemma RowsInserted(x: Attempts, y: Attempts, a: AttemptId, permits: Permits, repairs: Repairs)
    requires RowsOk(x, permits, repairs) && a in y && y == x[a := y[a]]
    requires y[a].auth == AuthOf(a) && RowOk(y[a], permits, repairs)
    ensures RowsOk(y, permits, repairs)
  {
    hide RowOk;
  }

  lemma ParentsInserted(x: Attempts, y: Attempts, a: AttemptId, reviews: Reviews)
    requires ParentsOk(x, reviews) && a !in x && a in y && y == x[a := y[a]]
    requires a.RepairOf? ==> FollowsParent(y, reviews, a.repair)
    ensures ParentsOk(y, reviews)
  {
    forall i | RepairOf(i) in y ensures FollowsParent(y, reviews, i) {
      if RepairOf(i) != a { assert FollowsParent(x, reviews, i); }
    }
  }

  lemma NewestInserted(x: Attempts, y: Attempts, a: AttemptId, permits: Permits, cycle: nat)
    requires NewestOk(x, permits, cycle) && Inserted(x, y, a, cycle)
    requires forall k :: a.InitialOf? && LivePermitIn(permits, cycle, k) ==> k == a.permit
    ensures NewestOk(y, permits, cycle)
  {
    hide NumberTaken;
  }

  lemma RecordsInserted(
    x: Attempts, y: Attempts, a: AttemptId, permits: Permits, repairs: Repairs, reviews: Reviews, cycle: nat)
    requires RecordsOk(x, permits, repairs, reviews, cycle)
    requires Inserted(x, y, a, cycle)
    requires y[a].auth == AuthOf(a) && RowOk(y[a], permits, repairs)
    requires a.RepairOf? ==> FollowsParent(y, reviews, a.repair)
    requires forall k :: a.InitialOf? && LivePermitIn(permits, cycle, k) ==> k == a.permit
    ensures RecordsOk(y, permits, repairs, reviews, cycle)
  {
    hide NumbersOk, RowsOk, ParentsOk, NewestOk;
    RowsInserted(x, y, a, permits, repairs);
    NumbersInserted(x, y, a, cycle);
    ParentsInserted(x, y, a, reviews);
    NewestInserted(x, y, a, permits, cycle);
    hide RowOk, FollowsParent, NumberTaken;
    assert ReviewsOk(reviews, y);
    assert RepairsOk(repairs, reviews, y);
  }
}
