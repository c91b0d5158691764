/**
 What a note of a channel is: a maximal run of states in which the channel plays
 one pitch. The runs are listed by a scan over the states, and proved to be
 exactly the maximal ones, in order.
 */
module NoteRuns {

  /** What is heard of a channel in one state. */
  datatype Sound = Silent | Playing(pitch: int)

  /** States [first, last) of a trace. */
  datatype Run = Run(first: nat, last: nat)

  predicate SameNote(t: seq<Sound>, n: nat)
    requires 0 < n < |t|
  {
    t[n].Playing? && t[n - 1] == t[n]
  }

  /** Where the run that state `n` belongs to began. */
  function Start(t: seq<Sound>, n: nat): (m: nat)
    requires n < |t|
    ensures m <= n
  {
    if n > 0 && SameNote(t, n) then Start(t, n - 1) else n
  }

  /** The runs that are over in state `n`. */
  function Closed(t: seq<Sound>, n: nat): (rs: seq<Run>)
    requires n < |t|
    ensures forall i :: 0 <= i < |rs| ==> rs[i].first < n
  {
    if n == 0 then []
    else Closed(t, n - 1) + if t[n - 1].Playing? && !SameNote(t, n) then [Run(Start(t, n - 1), n)] else []
  }

  /** All runs; one that still plays in the last state ends with the trace. */
  function Runs(t: seq<Sound>): (rs: seq<Run>)
    requires |t| > 0
    ensures forall i :: 0 <= i < |rs| ==> rs[i].first < |t|
  {
    var n := |t| - 1;
    Closed(t, n) + if t[n].Playing? then [Run(Start(t, n), |t|)] else []
  }

  lemma ClosedStep(t: seq<Sound>, n: nat)
    requires n + 1 < |t|
    ensures Closed(t, n + 1) == if t[n].Playing? && t[n + 1] != t[n] then Closed(t, n) + [Run(Start(t, n), n + 1)]
                                else Closed(t, n)
  {
    if !t[n].Playing? || t[n + 1] == t[n] {
      assert Closed(t, n) + [] == Closed(t, n);
    }
  }

  // ----- the reference -----

  /** One pitch throughout, and neither neighbour continues it. */
  ghost predicate IsRun(t: seq<Sound>, r: Run) {
    && r.first < r.last <= |t| && t[r.first].Playing?
    && (forall n :: r.first <= n < r.last ==> t[n] == t[r.first])
    && (r.first > 0 ==> t[r.first - 1] != t[r.first])
    && (r.last < |t| ==> t[r.last] != t[r.first])
  }

  lemma {:induction false} StartIsFirst(t: seq<Sound>, n: nat)
    requires n < |t| && t[n].Playing?
    ensures forall m :: Start(t, n) <= m <= n ==> t[m] == t[n]
    ensures Start(t, n) > 0 ==> t[Start(t, n) - 1] != t[n]
  {
    if n > 0 && SameNote(t, n) { StartIsFirst(t, n - 1); }
  }

  /** A state of a run has that run's start. */
  lemma {:induction false} RunStart(t: seq<Sound>, r: Run, n: nat)
    requires IsRun(t, r) && r.first <= n < r.last
    ensures Start(t, n) == r.first
    decreases n
  {
    if r.first < n {
      assert SameNote(t, n);
      RunStart(t, r, n - 1);
    }
  }

  lemma {:induction false} ClosedExactly(t: seq<Sound>, n: nat, r: Run)
    requires n < |t|
    ensures r in Closed(t, n) <==> IsRun(t, r) && r.last <= n
  {
    if n > 0 {
      ClosedExactly(t, n - 1, r);
      if t[n - 1].Playing? { StartIsFirst(t, n - 1); }
      if IsRun(t, r) && r.last == n {
        RunStart(t, r, n - 1);
      }
    }
  }

  /** The scan finds the maximal runs, all of them and nothing else. */
  lemma RunsExactly(t: seq<Sound>, r: Run)
    requires |t| > 0
    ensures r in Runs(t) <==> IsRun(t, r)
  {
    var n := |t| - 1;
    ClosedExactly(t, n, r);
    if t[n].Playing? { StartIsFirst(t, n); }
    if IsRun(t, r) && r.last == |t| { RunStart(t, r, n); }
  }

  /** In order, each run over before the next begins. */
  ghost predicate InOrder(rs: seq<Run>) {
    && (forall i :: 0 <= i < |rs| ==> rs[i].first < rs[i].last)
    && (forall i, j :: 0 <= i < j < |rs| ==> rs[i].last <= rs[j].first)
  }

  lemma {:induction false} ClosedInOrder(t: seq<Sound>, n: nat)
    requires n < |t|
    ensures InOrder(Closed(t, n))
    ensures forall i :: 0 <= i < |Closed(t, n)| ==> Closed(t, n)[i].last <= n
    ensures t[n].Playing? ==> forall i :: 0 <= i < |Closed(t, n)| ==> Closed(t, n)[i].last <= Start(t, n)
  {
    if n > 0 {
      ClosedInOrder(t, n - 1);
      if t[n - 1].Playing? { StartIsFirst(t, n - 1); }
    }
  }

  lemma RunsInOrder(t: seq<Sound>)
    requires |t| > 0
    ensures InOrder(Runs(t))
  {
    var n := |t| - 1;
    ClosedInOrder(t, n);
    if t[n].Playing? { StartIsFirst(t, n); }
  }
}
