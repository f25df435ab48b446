/** How many events a chain has become, exactly, in every reachable state: retries, redeliveries
    and failed calls included. */
module Counting {
  import opened Prelude
  import opened TaskWire
  import opened Records
  import opened Lifecycle
  import opened Ownership
  import opened Stranding
  import opened Families
  import opened Spawning
  import opened Results
  import opened Dedup
  import opened Guarantees

  /** Runs at a position that saved a child. */
  ghost function SavedRunsAt(st: State, root: Id, k: int): set<nat>
    requires FamiliesOk(st)
  {
    set i | i in RunsAt(st, root, k) && i in st.hist.creator.Values
  }

  /** Runs at a position whose child's insert failed. */
  ghost function LostRunsAt(st: State, root: Id, k: int): set<nat>
    requires FamiliesOk(st)
  {
    set i | i in RunsAt(st, root, k) && i in st.hist.lost
  }

  ghost predicate InFlight(st: State, i: nat) {
    exists q :: q in st.procs && q.Succeeded? && q.run == i
  }

  /** Runs at a position that have recorded their result and not yet tried to save a child. */
  ghost function InFlightAt(st: State, root: Id, k: int): set<nat>
    requires FamiliesOk(st)
  {
    set i | i in RunsAt(st, root, k) && InFlight(st, i)
  }

  lemma {:induction false} BijectionCount(a: set<Id>, m: map<Id, nat>, b: set<nat>)
    requires a <= m.Keys && Injective(m)
    requires forall c :: c in a ==> m[c] in b
    requires forall i :: i in b ==> exists c :: c in a && m[c] == i
    ensures |a| == |b|
    decreases a
  {
    if a != {} {
      var c :| c in a;
      BijectionCount(a - {c}, m, b - {m[c]});
    } else {
      assert b == {};
    }
  }

  /** Every event at position k + 1 stands for one run at position k that saved it, and the other
      way round. */
  lemma EventsAreSavedRuns(st: State, root: Id, k: nat)
    requires FamiliesOk(st) && SpawnOk(st)
    ensures |MembersAt(st, root, k + 1)| == |SavedRunsAt(st, root, k)|
    ensures forall c :: c in MembersAt(st, root, k + 1) ==> c in st.hist.creator && st.hist.creator[c] in SavedRunsAt(st, root, k)
  {
    hide MemberOk, RunOk, Accounted, OwnsRun, RunsDistinct;
    var a, b := MembersAt(st, root, k + 1), SavedRunsAt(st, root, k);
    forall c | c in a
      ensures c in st.hist.creator && st.hist.creator[c] in b
    {
      BelowRootIsCreated(st, c);
      CreatedOneBelow(st, c);
    }
    forall i | i in b
      ensures exists c :: c in a && st.hist.creator[c] == i
    {
      var c :| c in st.hist.creator && st.hist.creator[c] == i;
      CreatedOneBelow(st, c);
      assert c in a;
    }
    BijectionCount(a, st.hist.creator, b);
  }

  lemma {:induction false} SubsetSize<T>(a: set<T>, b: set<T>)
    requires a <= b
    ensures |a| <= |b|
    decreases a
  {
    if a != {} {
      var x :| x in a;
      SubsetSize(a - {x}, b - {x});
    }
  }

  /** Duplicate deliveries and retries create at most one event per successful handler run: a
      family has at most as many events at position k + 1 as successful runs at position k. */
  lemma EventsBoundedByRuns(st: State, root: Id, k: nat)
    requires Reachable(st)
    ensures Inv(st) && |MembersAt(st, root, k + 1)| <= |RunsAt(st, root, k)|
  {
    hide ResultsOk, DedupOk, NoneStranded, Owned, SpawnOk, MembersAt, RunsAt;
    InvReachable(st);
    EventsAreSavedRuns(st, root, k);
    SubsetSize(SavedRunsAt(st, root, k), RunsAt(st, root, k));
  }

  /** The event at a position stores that link of the root's chain. */
  lemma {:induction false} MemberStoresLink(st: State, root: Id, c: Id, k: nat)
    requires FamiliesOk(st) && SpawnOk(st) && c in MembersAt(st, root, k)
    ensures root in st.events
    ensures k < |Links(st.events[root].req)| && st.events[c].req == Links(st.events[root].req)[k]
    decreases k
  {
    hide SpawnOk;
    FamilyRootExists(st, c);
    if k == 0 {
      BelowRootIsCreated(st, c);
    } else {
      CreatedFromAbove(st, root, c, k);
      var p := st.hist.log[st.hist.creator[c]].id;
      MemberStoresLink(st, root, p, k - 1);
      LinkAfter(st.events[root].req, k - 1);
    }
  }

  /** A run at a position with a link behind it has saved its child, is about to, or lost it; no
      run is counted twice. */
  lemma RunsSplit(st: State, root: Id, k: nat)
    requires FamiliesOk(st) && SpawnOk(st) && root in st.events && k + 1 < |Links(st.events[root].req)|
    ensures RunsAt(st, root, k) == SavedRunsAt(st, root, k) + InFlightAt(st, root, k) + LostRunsAt(st, root, k)
    ensures SavedRunsAt(st, root, k) !! InFlightAt(st, root, k) !! LostRunsAt(st, root, k)
  {
    hide MemberOk, RunOk, CreatedBy, RunsDistinct, Injective, FamiliesOk;
    forall i | i in RunsAt(st, root, k)
      ensures i in st.hist.creator.Values || InFlight(st, i) || i in st.hist.lost
    {
      var p := st.hist.log[i].id;
      MemberStoresLink(st, root, p, k);
      LinkAfter(st.events[root].req, k);
      assert Accounted(st, i);
    }
    forall i | InFlight(st, i)
      ensures i !in st.hist.creator.Values && i !in st.hist.lost
    {
      var q :| q in st.procs && q.Succeeded? && q.run == i;
      assert OwnsRun(st, q);
    }
  }

  /** Conservation along a chain, in every reachable state: at a position with a link behind it,
      each successful run has become one event at the next position, is still to become one, or
      was lost to a failed insert; behind the last link there are no events. */
  lemma RunsBecomeEvents(st: State, root: Id, k: nat)
    requires Reachable(st) && root in st.events && st.events[root].parent == None
    ensures Inv(st)
    ensures k + 1 < |Links(st.events[root].req)| ==>
              |MembersAt(st, root, k + 1)| + |InFlightAt(st, root, k)| + |LostRunsAt(st, root, k)| == |RunsAt(st, root, k)|
    ensures k + 1 >= |Links(st.events[root].req)| ==> MembersAt(st, root, k + 1) == {}
  {
    hide ResultsOk, DedupOk, NoneStranded, Owned, FamiliesOk, SpawnOk, RunsAt, MembersAt, SavedRunsAt, InFlightAt, LostRunsAt;
    InvReachable(st);
    EventsAreSavedRuns(st, root, k);
    if k + 1 < |Links(st.events[root].req)| {
      RunsSplit(st, root, k);
    } else {
      var below := MembersAt(st, root, k + 1);
      if c :| c in below {
        MemberStoresLink(st, root, c, k + 1);
      }
    }
  }

  /** "One event per link" fails at a position exactly when two runs one position up each saved a
      child; the number of events there is the number of such runs. */
  lemma DuplicatedExactly(st: State, root: Id, k: nat)
    requires Reachable(st)
    ensures Inv(st) && |MembersAt(st, root, k + 1)| == |SavedRunsAt(st, root, k)|
    ensures (exists c, d :: c != d && {c, d} <= MembersAt(st, root, k + 1))
       <==> (exists i, j :: i != j && {i, j} <= SavedRunsAt(st, root, k))
  {
    hide ResultsOk, DedupOk, NoneStranded, Owned, FamiliesOk, SpawnOk, MembersAt, SavedRunsAt;
    InvReachable(st);
    EventsAreSavedRuns(st, root, k);
    TwoOfMany(MembersAt(st, root, k + 1));
    TwoOfMany(SavedRunsAt(st, root, k));
  }

  lemma TwoOfMany<T>(s: set<T>)
    ensures (exists x, y :: x != y && {x, y} <= s) <==> |s| >= 2
  {
    if x, y :| x != y && {x, y} <= s {
      assert |{x, y}| == 2;
      SubsetSize({x, y}, s);
    }
    if |s| >= 2 {
      var x :| x in s;
      assert |s - {x}| == |s| - 1;
      var y :| y in s - {x};
      assert x != y && {x, y} <= s;
    }
  }

  /** The same for one event: it has a second child exactly when two of its own successful runs
      saved one. */
  lemma SecondChildExactly(st: State, p: Id)
    requires Reachable(st)
    ensures (exists c, d :: c != d && ChildOf(st, p, c) && ChildOf(st, p, d))
       <==> (exists i, j :: i != j && SavedAChild(st, p, i) && SavedAChild(st, p, j))
  {
    hide ResultsOk, DedupOk, NoneStranded, Owned, FamiliesOk;
    InvReachable(st);
    if c, d :| c != d && ChildOf(st, p, c) && ChildOf(st, p, d) {
      assert CreatedBy(st, c, st.hist.creator[c]) && CreatedBy(st, d, st.hist.creator[d]);
      assert SavedAChild(st, p, st.hist.creator[c]) && SavedAChild(st, p, st.hist.creator[d]);
    }
    if i, j :| i != j && SavedAChild(st, p, i) && SavedAChild(st, p, j) {
      var c :| c in st.hist.creator && st.hist.creator[c] == i;
      var d :| d in st.hist.creator && st.hist.creator[d] == j;
      assert ChildOf(st, p, c) && ChildOf(st, p, d);
    }
  }

  /** c was saved by a run of p. */
  ghost predicate ChildOf(st: State, p: Id, c: Id) {
    && c in st.hist.creator && st.hist.creator[c] < |st.hist.log|
    && st.hist.log[st.hist.creator[c]].Success? && st.hist.log[st.hist.creator[c]].id == p
  }

  /** Entry i is a successful run of p that saved a child. */
  ghost predicate SavedAChild(st: State, p: Id, i: nat) {
    IsRun(st, i) && st.hist.log[i].id == p && i in st.hist.creator.Values
  }
}
