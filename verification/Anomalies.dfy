/** Where the code stops short of tempting stronger claims: overlapping identical requests are both
    accepted, an expired key row switches deduplication off until it is cleaned up, and a run that
    fails after saving its child makes a second child when it is delivered again. The exact
    conditions are in Guarantees (deduplication) and Counting (children). */
module Anomalies {
  import opened Prelude
  import opened TaskWire
  import opened Records
  import opened Lifecycle
  import opened Effects
  import opened Ownership
  import opened Stranding
  import opened Dedup
  import opened Counting

  lemma Take(base: State, st: State, l: Label) returns (next: State)
    requires Reach(base, st) && Enabled(st, l)
    ensures next == Apply(st, l) && Reach(base, next)
  {
    ReachStep(base, st, l);
    next := Apply(st, l);
  }

  lemma TakeSaveRoot(base: State, st: State, p: nat, id: Id) returns (next: State)
    requires Reach(base, st) && At(st, p) && st.procs[p].CreateUnseen? && IsId(id) && id !in st.events
    ensures Reach(base, next)
    ensures next == st.(procs := st.procs[p := CreateSaved(st.procs[p].sub, id)],
                        events := st.events[id := RootEvent(st.procs[p].sub, st.now)])
  {
    hide RootEvent, Reach;
    next := Take(base, st, SaveRoot(p, id, false));
  }

  lemma TakeRecordKey(base: State, st: State, p: nat) returns (next: State)
    requires Reach(base, st) && At(st, p) && st.procs[p].CreateSaved?
    ensures Reach(base, next)
    ensures next == st.(procs := st.procs[p := CreateRecorded(st.procs[p].sub, st.procs[p].id)],
                        keys := next.keys, hist := next.hist)
  {
    hide SubmissionKey, Reach;
    next := Take(base, st, RecordKey(p, false));
  }

  lemma TakeLaunchRoot(base: State, st: State, p: nat) returns (next: State)
    requires Reach(base, st) && At(st, p) && st.procs[p].CreateRecorded?
    ensures Reach(base, next)
    ensures var req := st.procs[p].sub.req;
            next == Issue(st.(procs := st.procs[p := Done]), st.procs[p].id, Launch(req.priority, req.executeAt))
    ensures Queued(next, st.procs[p].id)
  {
    hide Launch, Reach, Queued;
    next := Take(base, st, LaunchRoot(p, false));
    IssuedIsQueued(st, LaunchRoot(p, false));
  }

  /** From its passed check on, a create saves its event under any fresh id and queues it, without
      looking at what its insert reported. */
  lemma FinishCreate(base: State, st: State, p: nat, id: Id) returns (next: State)
    requires Reach(base, st) && At(st, p) && st.procs[p].CreateUnseen? && IsId(id) && id !in st.events
    ensures Reach(base, next) && next.events == st.events[id := RootEvent(st.procs[p].sub, st.now)]
    ensures next.procs == st.procs[p := Done] && next.now == st.now
    ensures Queued(next, id)
    ensures forall other :: Queued(st, other) ==> Queued(next, other)
  {
    hide RootEvent, Accepted, SubmissionKey, Reach, Launch, Queued;
    var st1 := TakeSaveRoot(base, st, p, id);
    var st2 := TakeRecordKey(base, st1, p);
    next := TakeLaunchRoot(base, st2, p);
    var req := st.procs[p].sub.req;
    StillQueued(st, st2.(procs := st2.procs[p := Done]), id, Launch(req.priority, req.executeAt));
  }

  lemma StillQueued(st: State, mid: State, id: Id, command: Command)
    requires mid.ready == st.ready && mid.delayed == st.delayed
    ensures forall other :: Queued(st, other) ==> Queued(Issue(mid, id, command), other)
  {
    var next := Issue(mid, id, command);
    forall other | Queued(st, other)
      ensures Queued(next, other)
    {
      if r :| r in st.ready && r.id == other {
        assert r in next.ready;
      } else {
        var d :| d in st.delayed && d.id == other;
        assert d in next.delayed;
      }
    }
  }

  /** A request arrives whose key nobody has recorded, and passes its check at once. */
  lemma Arrive(base: State, st: State, sub: Submission) returns (next: State)
    requires Reach(base, st) && Accepted(sub, st.now) && st.keys == map[]
    ensures Reach(base, next)
    ensures next == st.(procs := st.procs + [CreateUnseen(sub)], hist := next.hist)
  {
    hide Reach, Accepted, SubmissionKey;
    var s1 := Take(base, st, Submit(sub));
    assert s1 == st.(procs := st.procs + [CreateStart(sub)]);
    next := Take(base, s1, CheckKey(|st.procs|, false));
    assert next.procs == st.procs + [CreateUnseen(sub)];
  }

  /** Every admissible request can be accepted twice: when two copies both pass the check before
      either records its key, both are saved and both are queued. */
  lemma OverlapAcceptsBoth(sub: Submission, a: Id, b: Id) returns (st: State)
    requires Accepted(sub, 0) && IsId(a) && IsId(b) && a != b
    ensures Reachable(st) && a in st.events && b in st.events
    ensures st.events[a] == RootEvent(sub, 0) && st.events[b] == RootEvent(sub, 0)
    ensures Queued(st, a) && Queued(st, b)
  {
    hide Accepted, RootEvent, SubmissionKey, Queued, Reach;
    ReachSelf(START);
    var s1 := Arrive(START, START, sub);
    var s2 := Arrive(START, s1, sub);
    assert s2.procs == [CreateUnseen(sub), CreateUnseen(sub)];
    var s3 := FinishCreate(START, s2, 0, a);
    st := FinishCreate(START, s3, 1, b);
  }

  predicate AnsweredFor(e: Entry, key: string) {
    e.Duplicate? && SubmissionKey(e.sub) == key
  }

  /** Once a key's row has expired it stays in the way and unseen: along any run without cleanup
      the row never changes, and no submission with that key is answered as a duplicate. */
  lemma {:induction false} ExpiredRowDisablesDedup(st: State, ls: seq<Label>, key: string)
    requires CanRun(st, ls) && key in st.keys && st.keys[key].expiresAt <= st.now
    requires forall l :: l in ls ==> !l.Cleanup?
    ensures var end := After(st, ls);
            && key in end.keys && end.keys[key] == st.keys[key] && st.now <= end.now
            && |st.hist.log| <= |end.hist.log|
            && forall i :: |st.hist.log| <= i < |end.hist.log| ==> !AnsweredFor(end.hist.log[i], key)
    decreases |ls|
  {
    hide Apply, Enabled, SubmissionKey;
    if ls != [] {
      var before := ls[..|ls| - 1];
      var l := ls[|ls| - 1];
      assert l in ls && forall k :: k in before ==> k in ls;
      ExpiredRowDisablesDedup(st, before, key);
      var mid := After(st, before);
      KeyEffect(mid, l);
      LogGrows(mid, l);
      if l.CheckKey? || l.RecordKey? { CreateEffect(mid, l); }
    }
  }

  /** What the anomalies below need of a running chain step that can upload. */
  predicate CanChain(t: Task) {
    (t.kind == RESIZE || t.kind == SCRAPE) && ParamsDecode(t.kind, t.payload) && FollowingOf(t).Some?
  }

  lemma TakeUpload(base: State, st: State, p: nat) returns (next: State)
    requires Reach(base, st) && At(st, p) && st.procs[p].Running? && CanChain(st.procs[p].task)
    ensures Reach(base, next)
    ensures next == st.(procs := st.procs[p := Uploaded(st.procs[p].task)], objects := next.objects)
  {
    hide ParamsDecode, StorageKey, Reach;
    next := Take(base, st, Upload(p));
  }

  lemma TakeRecordResult(base: State, st: State, p: nat) returns (next: State)
    requires Reach(base, st) && At(st, p) && st.procs[p].Uploaded? && st.procs[p].task.id in st.events
    ensures Reach(base, next)
    ensures var t := st.procs[p].task;
            next == st.(procs := st.procs[p := Succeeded(t, |st.hist.log|)],
                        hist := st.hist.(log := st.hist.log + [Success(t.id)]),
                        events := st.events[t.id := st.events[t.id].(result := Some(FileResult(KeyOfTask(t))))])
  {
    hide FileResult, KeyOfTask, Reach;
    next := Take(base, st, RecordResult(p));
  }

  lemma TakeSaveChild(base: State, st: State, p: nat, c: Id) returns (next: State)
    requires Reach(base, st) && At(st, p) && st.procs[p].Succeeded? && FollowingOf(st.procs[p].task).Some?
    requires IsId(c) && c !in st.events
    ensures Reach(base, next)
    ensures var t := st.procs[p].task;
            next == st.(procs := st.procs[p := ChildSaved(t, c)],
                        hist := st.hist.(creator := st.hist.creator[c := st.procs[p].run]),
                        events := st.events[c := ChildEvent(t, FollowingOf(t).value, st.now)])
  {
    hide ChildEvent, Reach;
    next := Take(base, st, SaveChild(p, c, false));
  }

  /** A handler run from reading the task to saving its child. */
  lemma RunAndSave(base: State, st: State, p: nat, c: Id) returns (next: State)
    requires Reach(base, st) && At(st, p) && st.procs[p].Running? && IsId(c) && c !in st.events
    requires st.procs[p].task.id in st.events && CanChain(st.procs[p].task)
    ensures var t := st.procs[p].task;
            && Reach(base, next) && next.procs == st.procs[p := ChildSaved(t, c)]
            && next.events.Keys == st.events.Keys + {c}
            && next.events[c] == ChildEvent(t, FollowingOf(t).value, st.now)
            && (forall id :: id in st.events ==>
                  SameColumns(st.events[id], next.events[id]) && next.events[id].status == st.events[id].status)
            && next.ready == st.ready && next.now == st.now
            && next.hist == st.hist.(log := st.hist.log + [Success(t.id)], creator := st.hist.creator[c := |st.hist.log|])
  {
    hide ParamsDecode, StorageKey, ChildEvent, FileResult, KeyOfTask, Reach, FollowingOf, IsId;
    assert FollowingOf(st.procs[p].task).Some?;
    var s1 := TakeUpload(base, st, p);
    var s2 := TakeRecordResult(base, s1, p);
    next := TakeSaveChild(base, s2, p, c);
    assert next.procs == st.procs[p := ChildSaved(st.procs[p].task, c)];
  }

  /** The queue call fails, the run is put back, and a worker takes it up again. */
  lemma FailAndRedeliver(base: State, st: State, p: nat) returns (next: State)
    requires Reach(base, st) && At(st, p) && st.procs[p].ChildSaved? && FollowingOf(st.procs[p].task).Some?
    requires var t := st.procs[p].task; t.id in st.events && st.events[t.id].status != Cancelled
    ensures var t := st.procs[p].task;
            && Reach(base, next) && next.events == st.events && next.now == st.now
            && |next.procs| == |st.procs| + 1 && next.procs[|st.procs|] == Running(TaskOf(t.id, st.events[t.id]))
            && next.hist == st.hist.(orphaned := st.hist.orphaned + {st.procs[p].child} - {t.id})
  {
    hide Reach, TaskOf;
    var t := st.procs[p].task;
    var s1 := TakeFailedLaunch(base, st, p);
    var s2 := TakePutBack(base, s1, p, "medium");
    assert s2.ready[|st.ready|] == Ready(t.id, "medium");
    var s3 := TakeDequeue(base, s2, |st.ready|);
    next := TakeGetTask(base, s3, |st.procs|);
  }

  lemma TakeFailedLaunch(base: State, st: State, p: nat) returns (next: State)
    requires Reach(base, st) && At(st, p) && st.procs[p].ChildSaved? && FollowingOf(st.procs[p].task).Some?
    ensures Reach(base, next) && next == st.(procs := st.procs[p := RunFailed(st.procs[p].task.id)],
                        hist := st.hist.(orphaned := st.hist.orphaned + {st.procs[p].child}))
  {
    hide Reach;
    next := Take(base, st, LaunchChild(p, true));
  }

  lemma TakePutBack(base: State, st: State, p: nat, priority: string) returns (next: State)
    requires Reach(base, st) && At(st, p) && st.procs[p].RunFailed?
    ensures Reach(base, next)
    ensures next == st.(procs := st.procs[p := Done], ready := st.ready + [Ready(st.procs[p].id, priority)],
                        hist := st.hist.(orphaned := st.hist.orphaned - {st.procs[p].id}))
  {
    hide Reach;
    next := Take(base, st, PutBack(p, Enqueue(priority)));
  }

  lemma TakeDequeue(base: State, st: State, i: nat) returns (next: State)
    requires Reach(base, st) && i < |st.ready|
    ensures Reach(base, next)
    ensures next == st.(procs := st.procs + [Holding(st.ready[i].id)], ready := next.ready)
  {
    hide Reach;
    next := Take(base, st, Dequeue(i));
  }

  lemma TakeGetTask(base: State, st: State, p: nat) returns (next: State)
    requires Reach(base, st) && At(st, p) && st.procs[p].Holding? && st.procs[p].id in st.events
    requires st.events[st.procs[p].id].status != Cancelled
    ensures Reach(base, next)
    ensures next == st.(procs := st.procs[p := Running(TaskOf(st.procs[p].id, st.events[st.procs[p].id]))])
  {
    hide Reach, TaskOf;
    next := Take(base, st, GetTask(p, false));
  }

  /** From any reachable state in which a worker runs a chaining resize or scrape that nobody has
      cancelled, a queue call that fails after the child was saved leads to a second child: the run
      goes on from there, the first child is left orphaned by the failed call, and both children
      were saved by runs of the one task and carry the same link under the same root. */
  lemma FailedLaunchMakesSecondChild(st: State, p: nat, c: Id, d: Id) returns (end: State)
    requires Reachable(st) && At(st, p) && st.procs[p].Running? && IsId(c) && IsId(d) && c != d
    requires c !in st.events && d !in st.events
    requires var t := st.procs[p].task;
             && t.id in st.events && st.events[t.id].status != Cancelled && t == TaskOf(t.id, st.events[t.id])
             && CanChain(t)
    ensures var t := st.procs[p].task;
            && Reach(st, end) && Reachable(end)
            && c in end.events && SameColumns(end.events[c], ChildEvent(t, FollowingOf(t).value, st.now))
            && d in end.events && SameColumns(end.events[d], ChildEvent(t, FollowingOf(t).value, st.now))
            && end.hist.orphaned == st.hist.orphaned + {c} - {t.id} && c in end.hist.orphaned
            && ChildOf(end, t.id, c) && ChildOf(end, t.id, d) && end.hist.creator[c] != end.hist.creator[d]
  {
    hide ParamsDecode, ChildEvent, Reach, FollowingOf, IsId, CanChain;
    var t := st.procs[p].task;
    assert FollowingOf(t).Some? by { CanChainFollows(t); }
    ReachSelf(st);
    var s1 := RunAndSave(st, st, p, c);
    var s2 := FailAndRedeliver(st, s1, p);
    SameTask(t.id, st.events[t.id], s1.events[t.id]);
    end := RunAndSave(st, s2, |st.procs|, d);
    assert Reachable(end) by { ReachTransitive(START, st, end); }
  }

  lemma CanChainFollows(t: Task)
    requires CanChain(t)
    ensures FollowingOf(t).Some?
  {
  }

  lemma SameTask(id: Id, a: Event, b: Event)
    requires SameColumns(a, b)
    ensures TaskOf(id, a) == TaskOf(id, b)
  {
  }
}
