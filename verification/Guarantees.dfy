/** The guarantees of the task system: one inductive invariant over all runs, and what follows
    from it in every reachable state. */
module Guarantees {
  import opened Prelude
  import opened TaskWire
  import opened Records
  import opened Admission
  import opened Lifecycle
  import opened Effects
  import opened Ownership
  import opened Stranding
  import opened Families
  import opened Spawning
  import opened Results
  import opened Dedup
  import opened Recovery

  ghost predicate Inv(st: State) {
    && Owned(st)
    && FamiliesOk(st)
    && SpawnOk(st)
    && ResultsOk(st)
    && DedupOk(st)
    && NoneStranded(st)
  }

  lemma InvStart()
    ensures Inv(START)
  {
  }

  lemma SpawnStep(st: State, l: Label)
    requires Enabled(st, l) && Owned(st) && FamiliesOk(st) && SpawnOk(st)
    ensures SpawnOk(Apply(st, l))
  {
    hide Apply, Enabled, RunOk, CreatedBy, OwnsRun, RunsDistinct, Injective, Accounted;
    RunsStep(st, l);
    CreatedStep(st, l);
    OwnersStep(st, l);
    AccountedStep(st, l);
  }

  /** Every step of every process keeps the invariant. */
  lemma InvStep(st: State, l: Label)
    requires Enabled(st, l) && Inv(st)
    ensures Inv(Apply(st, l))
  {
    hide Apply, Enabled, Owned, FamiliesOk, SpawnOk, DedupOk, NoneStranded, ResultOk, ProcHasResult;
    OwnedStep(st, l);
    FamiliesStep(st, l);
    SpawnStep(st, l);
    ResultsStep(st, l);
    ProcResultsStep(st, l);
    DedupStep(st, l);
    NoneStrandedStep(st, l);
  }

  lemma {:induction false} InvRun(st: State, ls: seq<Label>)
    requires CanRun(st, ls) && Inv(st)
    ensures Inv(After(st, ls))
    decreases |ls|
  {
    hide Apply, Enabled, Inv;
    if ls != [] {
      InvRun(st, ls[..|ls| - 1]);
      InvStep(After(st, ls[..|ls| - 1]), ls[|ls| - 1]);
    }
  }

  lemma InvReach(a: State, b: State)
    requires Inv(a) && Reach(a, b)
    ensures Inv(b)
  {
    hide Inv;
    var ls: seq<Label> :| CanRun(a, ls) && After(a, ls) == b;
    InvRun(a, ls);
  }

  /** The invariant holds in every reachable state. */
  lemma InvReachable(st: State)
    requires Reachable(st)
    ensures Inv(st)
  {
    hide Inv;
    InvStart();
    InvReach(START, st);
  }

  // ---- families ----

  /** In every reachable state, retries and duplicate deliveries included: a chained event names
      an earlier root that has no parent itself, stores a proper suffix of that root's chain under
      that root's trace id, and its columns repeat the stored request; a root is submittable. */
  lemma ChainedEventsAreSuffixes(st: State, id: Id)
    requires Reachable(st) && id in st.events
    ensures var e := st.events[id];
            && e.kind == e.req.kind && e.priority == Column(e.req.priority) && e.scheduledAt == e.req.executeAt
            && match e.parent
               case None => e.kind == RESIZE || e.kind == SCRAPE
               case Some(r) =>
                 && r in st.events && st.events[r].parent == None
                 && IsProperSuffix(e.req, st.events[r].req)
                 && e.traceId == st.events[r].traceId
                 && st.events[r].createdAt <= e.createdAt
  {
    hide SpawnOk, ResultsOk, DedupOk, NoneStranded, Owned;
    InvReachable(st);
    assert MemberOk(st.events, st.hist.creator, id, st.events[id]);
  }

  /** How far down its root's chain an event is. */
  ghost function Position(st: State, id: Id): int
    requires FamiliesOk(st) && id in st.events
  {
    FamilyRootExists(st, id);
    Depth(st.events[RootId(id, st.events[id])].req) - Depth(st.events[id].req)
  }

  lemma FamilyRootExists(st: State, id: Id)
    requires FamiliesOk(st) && id in st.events
    ensures RootId(id, st.events[id]) in st.events
  {
    assert MemberOk(st.events, st.hist.creator, id, st.events[id]);
  }

  ghost function MembersAt(st: State, root: Id, k: int): set<Id>
    requires FamiliesOk(st)
  {
    set id | id in st.events && RootId(id, st.events[id]) == root && Position(st, id) == k
  }

  ghost predicate RunAt(st: State, root: Id, k: int, i: nat)
    requires FamiliesOk(st)
  {
    IsRun(st, i) && st.hist.log[i].id in MembersAt(st, root, k)
  }

  /** Successful handler runs of the members at a position. */
  ghost function RunsAt(st: State, root: Id, k: int): set<nat>
    requires FamiliesOk(st)
  {
    set i: nat | i < |st.hist.log| && RunAt(st, root, k, i)
  }

  /** A created event sits one position below the event whose run created it, in its family. */
  lemma CreatedOneBelow(st: State, c: Id)
    requires FamiliesOk(st) && SpawnOk(st) && c in st.hist.creator
    ensures var i := st.hist.creator[c];
            && IsRun(st, i) && c in st.events && st.hist.log[i].id in st.events
            && var p := st.hist.log[i].id;
               && RootId(p, st.events[p]) == RootId(c, st.events[c])
               && Position(st, p) == Position(st, c) - 1
  {
    assert CreatedBy(st, c, st.hist.creator[c]);
  }

  lemma BelowRootIsCreated(st: State, c: Id)
    requires FamiliesOk(st) && c in st.events
    ensures Position(st, c) != 0 ==> c in st.hist.creator
    ensures Position(st, c) == 0 ==> c == RootId(c, st.events[c])
  {
    assert MemberOk(st.events, st.hist.creator, c, st.events[c]);
    if st.events[c].parent.Some? {
      SuffixDepth(st.events[c].req, st.events[st.events[c].parent.value].req.next.value);
    }
  }

  // ---- the forest ----

  /** Follow creators back to a submitted event. */
  ghost function Origin(st: State, c: Id): Id
    requires SpawnOk(st) && c in st.events
    decreases if c in st.hist.creator then st.hist.creator[c] + 1 else 0
  {
    if c !in st.hist.creator then c
    else
      CreatorExists(st, c);
      Origin(st, st.hist.log[st.hist.creator[c]].id)
  }

  lemma CreatorExists(st: State, c: Id)
    requires SpawnOk(st) && c in st.hist.creator
    ensures IsRun(st, st.hist.creator[c])
    ensures var p := st.hist.log[st.hist.creator[c]].id;
            p in st.events && (p in st.hist.creator ==> st.hist.creator[p] < st.hist.creator[c])
  {
    assert CreatedBy(st, c, st.hist.creator[c]);
    assert RunOk(st, st.hist.creator[c]);
  }

  lemma {:induction false} OriginIsRoot(st: State, c: Id)
    requires FamiliesOk(st) && SpawnOk(st) && c in st.events
    ensures Origin(st, c) == RootId(c, st.events[c])
    decreases if c in st.hist.creator then st.hist.creator[c] + 1 else 0
  {
    assert MemberOk(st.events, st.hist.creator, c, st.events[c]);
    if c in st.hist.creator {
      CreatorExists(st, c);
      CreatedOneBelow(st, c);
      OriginIsRoot(st, st.hist.log[st.hist.creator[c]].id);
    }
  }

  /** What listing the children of an id selects. */
  ghost function ChildrenOf(st: State, id: Id): set<Id> {
    set c | c in st.events && st.events[c].parent == Some(id)
  }

  /** The children listing of a root is exactly what its chain transitively produced; that of a
      chained event is empty. */
  lemma ChildrenAreTheChain(st: State, id: Id)
    requires Reachable(st) && id in st.events
    ensures Inv(st)
    ensures st.events[id].parent == None ==>
              ChildrenOf(st, id) == set c | c in st.events && c in st.hist.creator && Origin(st, c) == id
    ensures st.events[id].parent.Some? ==> ChildrenOf(st, id) == {}
  {
    hide ResultsOk, DedupOk, NoneStranded, Owned, SpawnOk;
    InvReachable(st);
    forall c | c in st.events
      ensures st.events[c].parent == Some(id) ==> st.events[id].parent == None
      ensures st.events[c].parent == Some(id) <==> (c in st.hist.creator && Origin(st, c) == id)
    {
      assert MemberOk(st.events, st.hist.creator, c, st.events[c]);
      OriginIsRoot(st, c);
    }
  }

  // ---- exactly once ----

  /** In this family nothing is between a handler's success and its child's save, and every
      event's handler succeeded exactly once: each task was delivered once and succeeded. */
  ghost predicate DeliveredOnce(st: State, root: Id) {
    && (forall q :: q in st.procs && q.Succeeded? ==> q.task.root != root)
    && (forall id :: id in st.events && RootId(id, st.events[id]) == root ==> exists i :: SoleRun(st, id, i))
  }

  ghost predicate SoleRun(st: State, id: Id, i: nat) {
    && IsRun(st, i) && st.hist.log[i].id == id
    && forall j: nat :: IsRun(st, j) && st.hist.log[j].id == id ==> j == i
  }

  lemma NextMember(st: State, root: Id, p: Id) returns (c: Id)
    requires Owned(st) && FamiliesOk(st) && SpawnOk(st) && DeliveredOnce(st, root) && st.hist.lost == {}
    requires p in st.events && RootId(p, st.events[p]) == root
    requires Following(st.events[p].req).Some?
    ensures c in st.events && st.events[c].req == Following(st.events[p].req).value
    ensures RootId(c, st.events[c]) == root
    ensures Position(st, c) == Position(st, p) + 1
  {
    hide RunOk, RunsDistinct, Injective;
    var i :| SoleRun(st, p, i);
    assert Accounted(st, i);
    forall q | q in st.procs && q.Succeeded?
      ensures q.run != i
    {
      assert OwnsRun(st, q) && ProcOk(st.events, q);
    }
    c :| c in st.hist.creator && st.hist.creator[c] == i;
    assert CreatedBy(st, c, i);
    CreatedOneBelow(st, c);
  }

  lemma SoleChild(st: State, p: Id, c: Id, d: Id)
    requires FamiliesOk(st) && SpawnOk(st) && (exists i :: SoleRun(st, p, i))
    requires c in st.hist.creator && d in st.hist.creator
    requires st.hist.log[st.hist.creator[c]].id == p && IsRun(st, st.hist.creator[c])
    requires IsRun(st, st.hist.creator[d]) && st.hist.log[st.hist.creator[d]].id == p
    ensures c == d
  {
    hide RunOk, RunsDistinct, Accounted;
    var i :| SoleRun(st, p, i);
    assert st.hist.creator[c] == i && st.hist.creator[d] == i;
  }

  lemma NothingBelow(st: State, root: Id, k: nat)
    requires FamiliesOk(st) && SpawnOk(st) && k > 0 && MembersAt(st, root, k - 1) == {}
    ensures MembersAt(st, root, k) == {}
  {
    hide SpawnOk, FamiliesOk, MembersAt;
    if c :| c in MembersAt(st, root, k) {
      CreatedFromAbove(st, root, c, k);
    }
  }

  /** Below a sole member sits exactly one event with its following link, or none. */
  lemma SoleMemberBelow(st: State, root: Id, p: Id, k: nat)
    requires Owned(st) && FamiliesOk(st) && SpawnOk(st) && DeliveredOnce(st, root) && st.hist.lost == {}
    requires k > 0 && MembersAt(st, root, k - 1) == {p} && p in st.events
    ensures match Following(st.events[p].req)
            case None => MembersAt(st, root, k) == {}
            case Some(n) => exists c :: MembersAt(st, root, k) == {c} && c in st.events && st.events[c].req == n
  {
    hide Owned, SpawnOk, MemberOk, SoleRun, FamiliesOk;
    assert p in MembersAt(st, root, k - 1);
    forall c | c in MembersAt(st, root, k)
      ensures c in st.hist.creator && IsRun(st, st.hist.creator[c]) && st.hist.log[st.hist.creator[c]].id == p
      ensures Following(st.events[p].req).Some?
    {
      CreatedFromAbove(st, root, c, k);
    }
    if Following(st.events[p].req).Some? {
      var c := NextMember(st, root, p);
      forall d | d in MembersAt(st, root, k) ensures d == c { SoleChild(st, p, c, d); }
      assert MembersAt(st, root, k) == {c};
    }
  }

  /** When every task of a family was delivered once and succeeded, a root's chain of any length
      has become exactly one event per link, in order, each storing its link, and nothing more. */
  lemma {:induction false} OneEventPerLink(st: State, root: Id, k: nat)
    requires Owned(st) && FamiliesOk(st) && SpawnOk(st) && DeliveredOnce(st, root) && st.hist.lost == {}
    requires root in st.events && st.events[root].parent == None
    ensures var links := Links(st.events[root].req);
            if k < |links| then
              exists c :: MembersAt(st, root, k) == {c} && c in st.events && st.events[c].req == links[k]
            else MembersAt(st, root, k) == {}
    decreases k
  {
    hide Owned, SpawnOk, FamiliesOk, DeliveredOnce, MembersAt;
    var links := Links(st.events[root].req);
    if k == 0 {
      RootIsFirst(st, root);
    } else {
      OneEventPerLink(st, root, k - 1);
      if k - 1 < |links| {
        var p :| MembersAt(st, root, k - 1) == {p} && p in st.events && st.events[p].req == links[k - 1];
        LinkAfter(st.events[root].req, k - 1);
        SoleMemberBelow(st, root, p, k);
      } else {
        NothingBelow(st, root, k);
      }
    }
  }

  lemma RootIsFirst(st: State, root: Id)
    requires FamiliesOk(st) && root in st.events && st.events[root].parent == None
    ensures MembersAt(st, root, 0) == {root}
  {
    forall c | c in MembersAt(st, root, 0) ensures c == root { BelowRootIsCreated(st, c); }
  }

  lemma CreatedFromAbove(st: State, root: Id, c: Id, k: nat)
    requires FamiliesOk(st) && SpawnOk(st) && k > 0 && c in MembersAt(st, root, k)
    ensures c in st.hist.creator && IsRun(st, st.hist.creator[c])
    ensures var p := st.hist.log[st.hist.creator[c]].id;
            && p in MembersAt(st, root, k - 1) && p in st.events
            && Following(st.events[p].req) == Some(st.events[c].req)
  {
    BelowRootIsCreated(st, c);
    assert CreatedBy(st, c, st.hist.creator[c]);
    CreatedOneBelow(st, c);
  }

  lemma {:induction false} LinkAfter(r: TaskRequest, k: nat)
    requires k < |Links(r)|
    ensures Following(Links(r)[k]) == (if k + 1 < |Links(r)| then Some(Links(r)[k + 1]) else None)
  {
    if k > 0 {
      LinkAfter(Following(r).value, k - 1);
    }
  }

  /** Only failed calls lose children. */
  lemma {:induction false} NoFaultNoLoss(ls: seq<Label>)
    requires CanRun(START, ls) && forall l :: l in ls ==> !IsFault(l)
    ensures After(START, ls).hist.lost == {}
    decreases |ls|
  {
    hide Apply, Enabled;
    if ls != [] {
      var before := ls[..|ls| - 1];
      var l := ls[|ls| - 1];
      assert forall k :: k in before ==> k in ls;
      NoFaultNoLoss(before);
      assert l in ls;
      LogEffect(After(START, before), l);
      if !l.RecordResult? { ChildEffect(After(START, before), l); }
    }
  }

  /** Chain unrolling over whole runs: after any fault-free run, with any interleaving and any
      number of other submissions, in which each task of a family was delivered once and its
      handler succeeded, each link of the submitted chain has exactly one event. */
  lemma UnrollingIsExact(ls: seq<Label>, root: Id, k: nat)
    requires CanRun(START, ls) && forall l :: l in ls ==> !IsFault(l)
    requires var st := After(START, ls);
             && root in st.events && st.events[root].parent == None
             && DeliveredOnce(st, root)
    ensures var st := After(START, ls);
            && Inv(st)
            && var links := Links(st.events[root].req);
               if k < |links| then
                 exists c :: MembersAt(st, root, k) == {c} && c in st.events && st.events[c].req == links[k]
               else MembersAt(st, root, k) == {}
  {
    hide Apply, Enabled, Owned, ResultsOk, DedupOk, NoneStranded, SpawnOk, FamiliesOk, DeliveredOnce;
    InvStart();
    InvRun(START, ls);
    NoFaultNoLoss(ls);
    OneEventPerLink(After(START, ls), root, k);
  }

  // ---- results ----

  /** Whenever a chained event exists, its root has a usable file result whose object is stored;
      every report has a parent; and a worker holding a report with no scraped_key of its own
      finds the root's object, at any chain depth and under any retries. */
  lemma ChildImpliesRootResult(st: State, id: Id)
    requires Reachable(st) && id in st.events
    ensures Inv(st)
    ensures st.events[id].kind == REPORT ==> st.events[id].parent.Some?
    ensures st.events[id].parent.Some? ==>
              var root := st.events[id].parent.value;
              && root in st.events
              && FileKey(st.events[root].result) == Some(KeyOfEvent(root, st.events[root]))
              && KeyOfEvent(root, st.events[root]) != ""
              && KeyOfEvent(root, st.events[root]) in st.objects
  {
    hide SpawnOk, DedupOk, NoneStranded, StorageKey, FileKey, FileResult;
    InvReachable(st);
    assert MemberOk(st.events, st.hist.creator, id, st.events[id]) && ResultOk(st, id, st.events[id]);
    if st.events[id].parent.Some? {
      var root := st.events[id].parent.value;
      assert ResultOk(st, root, st.events[root]);
      KeyShape(root, st.events[root].kind, PayloadValue(st.events[root].req));
      FileKeyReads(KeyOfEvent(root, st.events[root]));
    }
  }

  lemma FallbackNeverFails(st: State, q: Proc)
    requires Reachable(st) && q in st.procs && q.Running? && q.task.kind == REPORT
    requires TextField(q.task.payload, "scraped_key") == Some("")
    ensures SourceKey(st.events, q.task).Some? && SourceKey(st.events, q.task).value in st.objects
  {
    hide SpawnOk, DedupOk, NoneStranded, SourceKey, FamiliesOk, ResultsOk;
    InvReachable(st);
    assert ProcOk(st.events, q);
    FallbackFindsObject(st, q.task);
  }

  /** Re-execution is stable: along any run from a reachable state an event's result, once set,
      stays the one value fixed by its id, type and payload, with its object in storage, and no
      other event records the same key. */
  lemma {:induction false} ResultsFixed(st: State, ls: seq<Label>, id: Id)
    requires CanRun(st, ls) && Inv(st) && HasResult(st.events, id)
    ensures Inv(After(st, ls))
    ensures var end := After(st, ls);
            && id in end.events && end.events[id].result == st.events[id].result
            && end.events[id].result == Some(FileResult(KeyOfEvent(id, st.events[id])))
            && KeyOfEvent(id, st.events[id]) in end.objects
            && forall other :: HasResult(end.events, other) && end.events[other].result == end.events[id].result ==> other == id
    decreases |ls|
  {
    hide Apply, Enabled, Owned, SpawnOk, DedupOk, NoneStranded, StorageKey, Inv;
    InvRun(st, ls);
    ResultsAlong(st, ls, id);
    RunGrows(st, ls);
    var end := After(st, ls);
    ResultShape(end, id);
    forall other | HasResult(end.events, other) && end.events[other].result == end.events[id].result
      ensures other == id
    {
      ResultShape(end, other);
      StorageKeysDistinct(id, end.events[id].kind, PayloadValue(end.events[id].req),
                          other, end.events[other].kind, PayloadValue(end.events[other].req));
    }
  }

  lemma ResultShape(st: State, id: Id)
    requires Inv(st) && HasResult(st.events, id)
    ensures IsId(id)
    ensures st.events[id].result == Some(FileResult(KeyOfEvent(id, st.events[id])))
    ensures KeyOfEvent(id, st.events[id]) in st.objects
  {
    hide StorageKey, SpawnOk, DedupOk, NoneStranded;
    assert ResultOk(st, id, st.events[id]);
  }

  lemma {:induction false} ResultsAlong(st: State, ls: seq<Label>, id: Id)
    requires CanRun(st, ls) && Inv(st) && HasResult(st.events, id)
    ensures id in After(st, ls).events && After(st, ls).events[id].result == st.events[id].result
    decreases |ls|
  {
    hide Apply, Enabled, Owned, FamiliesOk, ResultsOk, SpawnOk, DedupOk, NoneStranded;
    if ls != [] {
      var before := ls[..|ls| - 1];
      ResultsAlong(st, before, id);
      InvRun(st, before);
      ResultsStable(After(st, before), ls[|ls| - 1], id);
    }
  }

  // ---- idempotency ----

  /** Duplicates need overlap or expiry: if a create passed its check (entry j) after another
      request with the same key had completed its insert (entry i), the row behind that insert
      had expired by the time of the check. */
  lemma AcceptedTwiceOnlyAfterExpiry(st: State, i: nat, j: nat)
    requires Reachable(st) && i < j < |st.hist.log|
    requires st.hist.log[i].Recorded? && st.hist.log[j].Passed? && st.hist.log[i].key == st.hist.log[j].key
    ensures st.hist.log[i].expiresAt <= st.hist.log[j].at
  {
    hide Owned, FamiliesOk, SpawnOk, ResultsOk, NoneStranded;
    InvReachable(st);
    assert Ordered(st.hist.log[i], st.hist.log[j]);
  }

  /** Two inserts of one key that both report "not already processed" lie more than thirty days
      apart, cleanup at any time included. */
  lemma WinnersApart(st: State, key: string, i: nat, j: nat)
    requires Reachable(st) && i < j < |st.hist.log|
    requires Wins(st.hist.log[i], key) && Wins(st.hist.log[j], key)
    ensures st.hist.log[j].at - st.hist.log[i].at > 2_592_000_000_000_000
  {
    hide Owned, FamiliesOk, SpawnOk, ResultsOk, NoneStranded;
    InvReachable(st);
    assert Ordered(st.hist.log[i], st.hist.log[j]) && Window(st.hist.log[i]);
  }

  /** Less than thirty days after the insert that wrote a key's row, every check of that key answers
      "duplicate", and names the event of that insert. */
  lemma DuplicateWithinThirtyDays(st: State, p: nat, i: nat)
    requires Reachable(st) && At(st, p) && st.procs[p].CreateStart?
    requires i < |st.hist.log| && Wins(st.hist.log[i], SubmissionKey(st.procs[p].sub))
    requires st.now < st.hist.log[i].at + 2_592_000_000_000_000
    ensures Apply(st, CheckKey(p, false)).hist.log == st.hist.log + [Duplicate(st.procs[p].sub, st.hist.log[i].id)]
    ensures Apply(st, CheckKey(p, false)).events == st.events
  {
    hide Apply, Owned, FamiliesOk, SpawnOk, ResultsOk, NoneStranded, SubmissionKey;
    InvReachable(st);
    CreateEffect(st, CheckKey(p, false));
    assert RowOrExpired(st, st.hist.log[i]) && Window(st.hist.log[i]);
  }

  /** Exactly when a create's check answers "duplicate": when some completed insert of its key wrote
      or met a row that has not expired. Otherwise the create goes on, however many copies of the
      request are already past their checks. */
  lemma DuplicateExactlyWhileUnexpired(st: State, p: nat)
    requires Reachable(st) && At(st, p) && st.procs[p].CreateStart?
    ensures var sub := st.procs[p].sub;
            var next := Apply(st, CheckKey(p, false));
            && |next.hist.log| == |st.hist.log| + 1
            && (next.hist.log[|st.hist.log|].Duplicate? <==>
                  exists i :: 0 <= i < |st.hist.log| && LiveInsert(st.hist.log[i], SubmissionKey(sub), st.now))
            && (!next.hist.log[|st.hist.log|].Duplicate? ==> next.procs[p] == CreateUnseen(sub))
  {
    hide Apply, Owned, FamiliesOk, SpawnOk, ResultsOk, NoneStranded, SubmissionKey;
    InvReachable(st);
    var sub := st.procs[p].sub;
    var key := SubmissionKey(sub);
    CreateEffect(st, CheckKey(p, false));
    PassedGoesOn(st, p);
    if key in st.keys && st.keys[key].expiresAt > st.now {
      assert RowLogged(st, key);
    } else {
      forall i | 0 <= i < |st.hist.log|
        ensures !LiveInsert(st.hist.log[i], key, st.now)
      {
        assert RowOrExpired(st, st.hist.log[i]);
      }
    }
  }

  predicate LiveInsert(e: Entry, key: string, now: int) {
    e.Recorded? && e.key == key && e.expiresAt > now
  }

  lemma PassedGoesOn(st: State, p: nat)
    requires At(st, p) && st.procs[p].CreateStart?
    ensures var key := SubmissionKey(st.procs[p].sub);
            !(key in st.keys && st.keys[key].expiresAt > st.now) ==>
              Apply(st, CheckKey(p, false)).procs[p] == CreateUnseen(st.procs[p].sub)
  {
    hide SubmissionKey;
  }

  /** Every duplicate answer names an existing event that stores a request of the same type,
      payload value and priority. */
  lemma DuplicateAnswersAreTruthful(st: State, i: nat)
    requires Reachable(st) && i < |st.hist.log| && st.hist.log[i].Duplicate?
    ensures var (sub, id) := (st.hist.log[i].sub, st.hist.log[i].id);
            && id in st.events
            && st.events[id].req.kind == sub.req.kind
            && st.events[id].req.payload == sub.req.payload
            && st.events[id].req.priority == sub.req.priority
  {
    hide Owned, FamiliesOk, SpawnOk, ResultsOk, NoneStranded;
    InvReachable(st);
    assert AnswerOk(st, st.hist.log[i]);
  }

  /** In every reachable state, requeue at time t repeats an event's original queue command as
      far as it still applies, and retry picks the same priority; the two make the same queue
      call if and only if no schedule lies after t. */
  lemma RecoveryIsFaithful(st: State, id: Id, t: int)
    requires Reachable(st) && id in st.events
    ensures var e := st.events[id];
            && RequeueCommand(e, t) == Reissued(Launch(e.req.priority, e.req.executeAt), t)
            && RetryPriority(e) == RequeueCommand(e, t).priority
            && (Enqueue(RetryPriority(e)) == RequeueCommand(e, t) <==> e.req.executeAt.None? || e.req.executeAt.value <= t)
            && (e.parent == None && (e.req.executeAt.None? || e.req.executeAt.value > t) ==>
                  RequeueCommand(e, t) == Launch(e.req.priority, e.req.executeAt))
  {
    hide Owned, FamiliesOk, SpawnOk, ResultsOk, NoneStranded, DedupOk, RequeueCommand, RetryPriority, Reissued;
    InvReachable(st);
    RecoveryReproducesLaunch(st, id, t);
  }
}
