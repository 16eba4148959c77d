/** Publication generations: the cycles each finalized publication covers partition the thread's history. */
module Generations {
  import opened Prelude
  import opened Acceptance

  datatype PublicationStatus = PENDING | COMPLETED | NO_CHANGES | OTHER
  datatype Publication = Publication(root: string, status: PublicationStatus, commit: Option<string>)
  datatype Input = Input(id: nat, cycle: nat, consumed: bool)

  /** One thread's publications by cycle, and the learning jobs finalization enqueued: (cycle, root input). */
  datatype History = History(rows: Rows, publications: map<nat, Publication>, learning: set<(nat, string)>)

  datatype Generation = Generation(first: nat, last: nat, cycleIds: seq<nat>, previous: Option<nat>, previousCommit: Option<string>)

  predicate FinalizedAt(h: History, c: nat) {
    c in h.publications && (c, h.publications[c].root) in h.learning
  }

  /** A finalized publication with a publishable outcome, as the previous boundary counts it. */
  predicate Boundary(h: History, c: nat) {
    FinalizedAt(h, c) && h.publications[c].status in {COMPLETED, NO_CHANGES}
  }

  /** The latest boundary before `c`, or 0. */
  function PreviousBoundary(h: History, c: nat): (b: nat)
    ensures b == 0 || (b < c && b in h.publications && (b, h.publications[b].root) in h.learning &&
                       (h.publications[b].status == COMPLETED || h.publications[b].status == NO_CHANGES))
    ensures forall n :: b < n < c && n in h.publications && (n, h.publications[n].root) in h.learning ==>
      h.publications[n].status != COMPLETED && h.publications[n].status != NO_CHANGES
  {
    if c <= 1 then 0 else if Boundary(h, c - 1) then c - 1 else PreviousBoundary(h, c - 1)
  }

  predicate HasCommit(h: History, c: nat) { FinalizedAt(h, c) && h.publications[c].commit.Some? }

  /** The remote commit of the latest finalized publication before `c` that recorded one, whatever its outcome. */
  function LatestCommit(h: History, c: nat): (commit: Option<string>)
    ensures forall n :: 1 <= n < c && n in h.publications && (n, h.publications[n].root) in h.learning && h.publications[n].commit.Some? ==>
      commit.Some?
    ensures commit.Some? ==>
      exists n :: 1 <= n < c && n in h.publications && (n, h.publications[n].root) in h.learning && h.publications[n].commit == commit &&
        forall m :: n < m < c && m in h.publications && (m, h.publications[m].root) in h.learning ==> h.publications[m].commit.None?
  {
    if c <= 1 then None else if HasCommit(h, c - 1) then h.publications[c - 1].commit else LatestCommit(h, c - 1)
  }

  /** The commit the generation builds on: the boundary's own when it recorded one, else the latest recorded before. */
  function PreviousCommit(h: History, c: nat): Option<string> {
    var b := PreviousBoundary(h, c);
    if b == 0 then None
    else if h.publications[b].commit.GetOr("") != "" then h.publications[b].commit
    else LatestCommit(h, c)
  }

  /** The existing cycle rows of (from, to], in order. */
  function CyclesIn(rows: Rows, from: nat, upto: nat): seq<nat>
    decreases upto
  {
    if upto <= from then []
    else CyclesIn(rows, from, upto - 1) + (if upto in rows.cycles then [upto] else [])
  }

  function Range(from: nat, upto: nat): (r: seq<nat>)
    ensures |r| == if upto > from then upto - from else 0
    ensures forall i :: 0 <= i < |r| ==> r[i] == from + 1 + i
    decreases upto
  {
    if upto <= from then [] else Range(from, upto - 1) + [upto]
  }

  predicate CycleAccepted(rows: Rows, n: nat) {
    n in rows.cycles && Accepted(rows, rows.cycles[n]).Some?
  }

  predicate AllAcceptedIn(rows: Rows, cycles: seq<nat>) {
    forall i :: 0 <= i < |cycles| ==> CycleAccepted(rows, cycles[i])
  }

  /** `publication_generation`; None when it raises. */
  function GenerationOf(h: History, c: nat): Option<Generation> {
    if c !in h.publications || !FinalizedAt(h, c) then None
    else
      var boundary := PreviousBoundary(h, c);
      var cycles := CyclesIn(h.rows, boundary, c);
      var previous := if boundary == 0 then None else Some(boundary);
      if cycles == [] then Some(Generation(boundary + 1, c, [c], previous, PreviousCommit(h, c)))
      else if cycles != Range(boundary, c) then None
      else if !AllAcceptedIn(h.rows, cycles) then None
      else Some(Generation(boundary + 1, c, cycles, previous, PreviousCommit(h, c)))
  }

  // ------------------------------------------------------------------ a declarative thread

  /** Cycle ids start at 1, and a finalized publication closes an existing cycle with an outcome. */
  ghost predicate Declarative(h: History) {
    && 0 !in h.rows.cycles
    && forall c: nat :: c in h.publications && (c, h.publications[c].root) in h.learning ==>
         c >= 1 && c in h.rows.cycles && (h.publications[c].status == COMPLETED || h.publications[c].status == NO_CHANGES)
  }

  lemma {:induction false} CyclesComplete(rows: Rows, from: nat, upto: nat)
    requires forall n :: from < n <= upto ==> n in rows.cycles
    ensures CyclesIn(rows, from, upto) == Range(from, upto)
    decreases upto
  {
    if upto > from { CyclesComplete(rows, from, upto - 1); }
  }

  lemma {:induction false} CyclesMember(rows: Rows, from: nat, upto: nat, n: nat)
    ensures n in CyclesIn(rows, from, upto) <==> from < n <= upto && n in rows.cycles
    decreases upto
  {
    if upto > from { CyclesMember(rows, from, upto - 1, n); }
  }

  lemma {:induction false} CyclesNone(rows: Rows, from: nat, upto: nat)
    requires forall n :: from < n <= upto ==> n !in rows.cycles
    ensures CyclesIn(rows, from, upto) == []
    decreases upto
  {
    if upto > from { CyclesNone(rows, from, upto - 1); }
  }

  lemma {:induction false} RangeOrGap(rows: Rows, from: nat, upto: nat)
    requires from <= upto
    ensures CyclesIn(rows, from, upto) == Range(from, upto) <==> forall n :: from < n <= upto ==> n in rows.cycles
  {
    if forall n :: from < n <= upto ==> n in rows.cycles { CyclesComplete(rows, from, upto); }
    if CyclesIn(rows, from, upto) == Range(from, upto) {
      forall n | from < n <= upto ensures n in rows.cycles {
        assert Range(from, upto)[n - from - 1] == n;
        CyclesMember(rows, from, upto, n);
      }
    }
  }

  lemma AcceptedOver(rows: Rows, from: nat, upto: nat)
    requires from <= upto
    ensures AllAcceptedIn(rows, Range(from, upto)) <==> forall n :: from < n <= upto ==> CycleAccepted(rows, n)
  {
    hide CycleAccepted;
    if AllAcceptedIn(rows, Range(from, upto)) {
      forall n | from < n <= upto ensures CycleAccepted(rows, n) {
        assert Range(from, upto)[n - from - 1] == n;
      }
    }
  }

  ghost predicate EveryAccepted(rows: Rows, from: nat, upto: nat) {
    forall n :: from < n <= upto ==> CycleAccepted(rows, n)
  }

  /** A finalized cycle has a generation exactly when every cycle since the previous boundary exists and is accepted; it
      then covers exactly those cycles. */
  lemma GenerationExists(h: History, c: nat)
    requires Declarative(h) && FinalizedAt(h, c)
    ensures GenerationOf(h, c) == (
      var b := PreviousBoundary(h, c);
      if EveryAccepted(h.rows, b, c) then
        Some(Generation(b + 1, c, Range(b, c), if b == 0 then None else Some(b), PreviousCommit(h, c)))
      else None)
  {
    hide CycleAccepted, AllAcceptedIn, CyclesIn, Range, PreviousBoundary, PreviousCommit;
    var b := PreviousBoundary(h, c);
    CyclesMember(h.rows, b, c, c);
    AcceptedExactly(h.rows, b, c);
  }

  /** In any thread a finalized publication has a generation exactly when the cycle rows since the boundary are all there and
      accepted, or none of them is: then it stands for its own cycle alone. */
  lemma GenerationExactly(h: History, c: nat)
    requires c in h.publications && (c, h.publications[c].root) in h.learning
    ensures var b := PreviousBoundary(h, c);
      var previous := if b == 0 then None else Some(b);
      GenerationOf(h, c) ==
        if forall n :: b < n <= c ==> n !in h.rows.cycles then Some(Generation(b + 1, c, [c], previous, PreviousCommit(h, c)))
        else if EveryAccepted(h.rows, b, c) then Some(Generation(b + 1, c, Range(b, c), previous, PreviousCommit(h, c)))
        else None
  {
    hide CycleAccepted, AllAcceptedIn, Range, PreviousBoundary, PreviousCommit, CyclesIn;
    var b := PreviousBoundary(h, c);
    if forall n :: b < n <= c ==> n !in h.rows.cycles {
      CyclesNone(h.rows, b, c);
    } else {
      var n :| b < n <= c && n in h.rows.cycles;
      CyclesMember(h.rows, b, c, n);
      AcceptedExactly(h.rows, b, c);
    }
  }

  lemma AcceptedExactly(rows: Rows, from: nat, upto: nat)
    requires from <= upto
    ensures EveryAccepted(rows, from, upto) <==>
      CyclesIn(rows, from, upto) == Range(from, upto) && AllAcceptedIn(rows, CyclesIn(rows, from, upto))
  {
    RangeOrGap(rows, from, upto);
    AcceptedOver(rows, from, upto);
    AcceptedExist(rows, from, upto);
  }

  lemma AcceptedExist(rows: Rows, from: nat, upto: nat)
    ensures EveryAccepted(rows, from, upto) ==> forall n :: from < n <= upto ==> n in rows.cycles
  {
    hide Accepted;
    forall n | EveryAccepted(rows, from, upto) && from < n <= upto ensures n in rows.cycles {
      assert CycleAccepted(rows, n);
    }
  }

  /** In a declarative thread both ways to find the previous commit agree: it is that of the latest finalized publication
      that recorded one. */
  lemma PreviousCommitIsLatest(h: History, c: nat)
    requires Declarative(h) && forall n :: n in h.publications ==> h.publications[n].commit != Some("")
    ensures PreviousCommit(h, c) == LatestCommit(h, c)
  {
    var b := PreviousBoundary(h, c);
    LatestFrom(h, b, c);
  }

  /** Nothing is finalized between the boundary and the cycle. */
  lemma {:induction false} LatestFrom(h: History, b: nat, c: nat)
    requires b < c || b == c == 0
    requires forall n :: b < n < c ==> !HasCommit(h, n)
    ensures b >= 1 && HasCommit(h, b) ==> LatestCommit(h, c) == h.publications[b].commit
    ensures b == 0 ==> LatestCommit(h, c) == None
    decreases c
  {
    if c > b + 1 { LatestFrom(h, b, c - 1); }
  }

  // ------------------------------------------------------------------ the partition

  /** The finalized cycles up to `last`, ascending. */
  function FinalizedUpTo(h: History, last: nat): seq<nat> {
    if last == 0 then [] else FinalizedUpTo(h, last - 1) + (if FinalizedAt(h, last) then [last] else [])
  }

  function ConcatCycles(h: History, finalized: seq<nat>): seq<nat> {
    if finalized == [] then []
    else
      var front, g := finalized[..|finalized| - 1], GenerationOf(h, finalized[|finalized| - 1]);
      ConcatCycles(h, front) + (if g.Some? then g.value.cycleIds else [])
  }

  ghost predicate AllGenerated(h: History, last: nat) {
    forall c: nat :: c <= last && FinalizedAt(h, c) ==> GenerationOf(h, c).Some?
  }

  /** Every finalized publication up to `last` has a generation exactly when the whole finalized history is accepted. */
  lemma {:induction false} AllGeneratedExactly(h: History, last: nat)
    requires Declarative(h)
    ensures AllGenerated(h, last) <==> EveryAccepted(h.rows, 0, PreviousBoundary(h, last + 1))
    decreases last
  {
    hide GenerationOf, CycleAccepted;
    if last > 0 {
      AllGeneratedExactly(h, last - 1);
      if FinalizedAt(h, last) { GenerationExists(h, last); }
    }
  }

  /** The generations of the finalized publications, in cycle order, concatenate to 1..last: no gap and no overlap. */
  lemma {:induction false} GenerationsPartition(h: History, last: nat)
    requires Declarative(h) && AllGenerated(h, last)
    ensures ConcatCycles(h, FinalizedUpTo(h, last)) == Range(0, PreviousBoundary(h, last + 1))
    decreases last
  {
    if last > 0 {
      GenerationsPartition(h, last - 1);
      var front := FinalizedUpTo(h, last - 1);
      if FinalizedAt(h, last) {
        GenerationExists(h, last);
        assert (front + [last])[..|front|] == front;
        hide GenerationOf;
        RangeJoins(PreviousBoundary(h, last), last);
      } else {
        assert front + [] == front;
      }
    }
  }

  lemma {:induction false} RangeJoins(middle: nat, last: nat)
    requires middle <= last
    ensures Range(0, middle) + Range(middle, last) == Range(0, last)
  {
  }

  /** For a finalized last cycle the whole history is covered. */
  lemma HistoryCovered(h: History, last: nat)
    requires Declarative(h) && AllGenerated(h, last)
    requires last in h.publications && (last, h.publications[last].root) in h.learning
    ensures ConcatCycles(h, FinalizedUpTo(h, last)) == Range(0, last)
  {
    GenerationsPartition(h, last);
  }

  /** Generation `c` incorporates an input consumed into cycle `n`. */
  predicate Covers(h: History, c: nat, n: nat) {
    FinalizedAt(h, c) && GenerationOf(h, c).Some? && GenerationOf(h, c).value.first <= n <= GenerationOf(h, c).value.last
  }

  /** Every consumed revision input of the published history belongs to exactly one generation. */
  lemma InputInOneGeneration(h: History, last: nat, input: Input) returns (c: nat)
    requires Declarative(h) && AllGenerated(h, last)
    requires last in h.publications && (last, h.publications[last].root) in h.learning
    requires input.consumed && 1 <= input.cycle <= last
    ensures Covers(h, c, input.cycle) && c <= last
    ensures forall d: nat :: d <= last && Covers(h, d, input.cycle) ==> d == c
  {
    c := NextFinalized(h, input.cycle, last);
    GenerationExists(h, c);
    BoundaryBelow(h, input.cycle, c);
    forall d: nat | d <= last && Covers(h, d, input.cycle) ensures d == c {
      GenerationExists(h, d);
      hide GenerationOf;
      assert d >= input.cycle;
    }
  }

  /** The first finalized cycle from `n` on. */
  lemma NextFinalized(h: History, n: nat, last: nat) returns (c: nat)
    requires n <= last && FinalizedAt(h, last)
    ensures n <= c <= last && FinalizedAt(h, c) && forall m :: n <= m < c ==> !FinalizedAt(h, m)
    decreases last - n
  {
    if FinalizedAt(h, n) { c := n; } else { c := NextFinalized(h, n + 1, last); }
  }

  lemma BoundaryBelow(h: History, n: nat, c: nat)
    requires 1 <= n <= c && forall m :: n <= m < c ==> !FinalizedAt(h, m)
    ensures PreviousBoundary(h, c) < n
  {
  }

  // ------------------------------------------------------------------ accepted material over generations

  /** `accepted_lifecycle_material` over (from, to]: cycles without a full proof contribute nothing. */
  function MaterialIn(rows: Rows, from: nat, upto: nat): seq<Material>
    decreases upto
  {
    if upto <= from then []
    else
      MaterialIn(rows, from, upto - 1) +
      (if CycleAccepted(rows, upto) then Accepted(rows, rows.cycles[upto]).value else [])
  }

  lemma {:induction false} MaterialJoins(rows: Rows, from: nat, middle: nat, upto: nat)
    requires from <= middle <= upto
    ensures MaterialIn(rows, from, middle) + MaterialIn(rows, middle, upto) == MaterialIn(rows, from, upto)
    decreases upto
  {
    hide Accepted;
    if middle < upto {
      MaterialJoins(rows, from, middle, upto - 1);
    } else {
      assert MaterialIn(rows, from, middle) + [] == MaterialIn(rows, from, middle);
    }
  }

  function ConcatMaterial(h: History, finalized: seq<nat>): seq<Material> {
    if finalized == [] then []
    else
      var front, g := finalized[..|finalized| - 1], GenerationOf(h, finalized[|finalized| - 1]);
      ConcatMaterial(h, front) +
      (if g.Some? && g.value.first >= 1 then MaterialIn(h.rows, g.value.first - 1, g.value.last) else [])
  }

  /** Reading the accepted material generation by generation yields the thread's whole accepted history. */
  lemma {:induction false} MaterialPartition(h: History, last: nat)
    requires Declarative(h) && AllGenerated(h, last)
    ensures ConcatMaterial(h, FinalizedUpTo(h, last)) == MaterialIn(h.rows, 0, PreviousBoundary(h, last + 1))
    decreases last
  {
    hide GenerationOf, MaterialIn, EveryAccepted, ConcatMaterial;
    if last > 0 {
      MaterialPartition(h, last - 1);
      var front := FinalizedUpTo(h, last - 1);
      if FinalizedAt(h, last) {
        MaterialOfLast(h, front, last);
        MaterialJoins(h.rows, 0, PreviousBoundary(h, last), last);
      } else {
        assert front + [] == front;
      }
    } else {
      NoMaterial(h);
    }
  }

  lemma NoMaterial(h: History)
    ensures ConcatMaterial(h, []) == MaterialIn(h.rows, 0, 0)
  {
  }

  lemma MaterialOfLast(h: History, front: seq<nat>, last: nat)
    requires Declarative(h) && FinalizedAt(h, last) && GenerationOf(h, last).Some?
    ensures ConcatMaterial(h, front + [last]) == ConcatMaterial(h, front) + MaterialIn(h.rows, PreviousBoundary(h, last), last)
  {
    GenerationExists(h, last);
    hide GenerationOf, MaterialIn, EveryAccepted;
    assert (front + [last])[..|front|] == front;
  }

  // ------------------------------------------------------------------ the loops

  method LastBoundary(h: History, c: nat) returns (boundary: nat)
    ensures boundary == PreviousBoundary(h, c)
  {
    boundary := 0;
    var n := 1;
    while n < c
      invariant n <= c || n == 1
      invariant boundary == PreviousBoundary(h, n)
    {
      if Boundary(h, n) { boundary := n; }
      n := n + 1;
    }
  }

  method LastCommit(h: History, c: nat) returns (commit: Option<string>)
    ensures commit == LatestCommit(h, c)
  {
    commit := None;
    var n := 1;
    while n < c
      invariant n <= c || n == 1
      invariant commit == LatestCommit(h, n)
    {
      if HasCommit(h, n) { commit := h.publications[n].commit; }
      n := n + 1;
    }
  }

  method CommitBefore(h: History, c: nat, boundary: nat) returns (commit: Option<string>)
    requires boundary == PreviousBoundary(h, c)
    ensures commit == PreviousCommit(h, c)
  {
    if boundary == 0 { return None; }
    if h.publications[boundary].commit.GetOr("") != "" { return h.publications[boundary].commit; }
    commit := LastCommit(h, c);
  }

  method CyclesBetween(rows: Rows, boundary: nat, c: nat) returns (cycles: seq<nat>)
    ensures cycles == CyclesIn(rows, boundary, c)
    ensures forall i :: 0 <= i < |cycles| ==> cycles[i] in rows.cycles
  {
    cycles := [];
    var n := boundary;
    while n < c
      invariant boundary <= n && (n <= c || n == boundary)
      invariant cycles == CyclesIn(rows, boundary, n)
      invariant forall i :: 0 <= i < |cycles| ==> cycles[i] in rows.cycles
    {
      n := n + 1;
      if n in rows.cycles { cycles := cycles + [n]; }
    }
    assert c <= boundary ==> CyclesIn(rows, boundary, c) == [];
  }

  method PublicationGeneration(h: History, c: nat) returns (g: Option<Generation>)
    ensures g == GenerationOf(h, c)
  {
    if c !in h.publications || !FinalizedAt(h, c) { return None; }
    var boundary := LastBoundary(h, c);
    var commit := CommitBefore(h, c, boundary);
    hide PreviousCommit;
    var cycles := CyclesBetween(h.rows, boundary, c);
    var previous := if boundary == 0 then None else Some(boundary);
    if cycles == [] { return Some(Generation(boundary + 1, c, [c], previous, commit)); }
    if cycles != Range(boundary, c) { return None; }
    var accepted := EveryCycleAccepted(h.rows, cycles);
    if !accepted { return None; }
    return Some(Generation(boundary + 1, c, cycles, previous, commit));
  }

  method EveryCycleAccepted(rows: Rows, cycles: seq<nat>) returns (ok: bool)
    requires forall i :: 0 <= i < |cycles| ==> cycles[i] in rows.cycles
    ensures ok == AllAcceptedIn(rows, cycles)
  {
    hide Accepted;
    var i := 0;
    while i < |cycles|
      invariant 0 <= i <= |cycles|
      invariant forall j :: 0 <= j < i ==> CycleAccepted(rows, cycles[j])
    {
      var material := AcceptedCycleMaterial(rows, rows.cycles[cycles[i]]);
      if material.None? { return false; }
      i := i + 1;
    }
    return true;
  }

  method AcceptedLifecycleMaterial(rows: Rows, first: nat, last: nat) returns (material: seq<Material>)
    requires first >= 1
    ensures material == MaterialIn(rows, first - 1, last)
  {
    material := [];
    var n := first - 1;
    while n < last
      invariant first - 1 <= n && (n <= last || n == first - 1)
      invariant material == MaterialIn(rows, first - 1, n)
    {
      n := n + 1;
      if n in rows.cycles {
        var accepted := AcceptedCycleMaterial(rows, rows.cycles[n]);
        if accepted.Some? { material := material + accepted.value; }
      }
    }
  }
}
