/** Which successful run created which chained event: each run creates at most one, each chained
    event has exactly one, and without faults every run with a following link creates its child. */
module Spawning {
  import opened Prelude
  import opened TaskWire
  import opened Records
  import opened Lifecycle
  import opened Effects
  import opened Ownership
  import opened Families

  /** Entry i of the log is a successful handler run. */
  predicate IsRun(st: State, i: nat) {
    i < |st.hist.log| && st.hist.log[i].Success?
  }

  /** Run i was of a known event, later than whatever created that event. */
  ghost predicate RunOk(st: State, i: nat) {
    IsRun(st, i) ==>
      var p := st.hist.log[i].id;
      p in st.events && (p in st.hist.creator ==> st.hist.creator[p] < i)
  }

  /** c was created by run i of an event of the same family whose next link c carries. */
  ghost predicate CreatedBy(st: State, c: Id, i: nat) {
    && IsRun(st, i) && c in st.events
    && var p := st.hist.log[i].id;
       && p in st.events
       && Following(st.events[p].req) == Some(st.events[c].req)
       && st.events[c].parent == Some(RootId(p, st.events[p]))
  }

  /** A process between its handler's success and the saving of the child owns its run. */
  ghost predicate OwnsRun(st: State, q: Proc) {
    q.Succeeded? ==>
      && IsRun(st, q.run) && st.hist.log[q.run].id == q.task.id
      && q.run !in st.hist.creator.Values && q.run !in st.hist.lost
  }

  ghost predicate RunsDistinct(st: State) {
    forall j, k :: 0 <= j < k < |st.procs| && st.procs[j].Succeeded? && st.procs[k].Succeeded? ==>
                     st.procs[j].run != st.procs[k].run
  }

  ghost predicate Injective(m: map<Id, nat>) {
    forall c, d :: c in m && d in m && m[c] == m[d] ==> c == d
  }

  /** Every run whose event has a following link created a child, is about to, or lost it. */
  ghost predicate Accounted(st: State, i: nat) {
    IsRun(st, i) && st.hist.log[i].id in st.events && Following(st.events[st.hist.log[i].id].req).Some? ==>
      || i in st.hist.creator.Values
      || (exists q :: q in st.procs && q.Succeeded? && q.run == i)
      || i in st.hist.lost
  }

  ghost predicate SpawnOk(st: State) {
    && (forall i: nat :: RunOk(st, i))
    && (forall c :: c in st.hist.creator ==> CreatedBy(st, c, st.hist.creator[c]))
    && (forall q :: q in st.procs ==> OwnsRun(st, q))
    && RunsDistinct(st)
    && Injective(st.hist.creator)
    && (forall i :: i in st.hist.lost ==> i < |st.hist.log| && i !in st.hist.creator.Values)
    && (forall i: nat :: Accounted(st, i))
  }

  // ---- the part of a step that concerns runs ----

  /** Only recording a result appends a run. */
  lemma LogEffect(st: State, l: Label)
    requires Enabled(st, l)
    ensures |st.hist.log| <= |Apply(st, l).hist.log| <= |st.hist.log| + 1
    ensures forall i :: 0 <= i < |st.hist.log| ==> Apply(st, l).hist.log[i] == st.hist.log[i]
    ensures IsRun(Apply(st, l), |st.hist.log|) <==> l.RecordResult?
    ensures l.RecordResult? ==> At(st, l.p) && st.procs[l.p].Uploaded?
                                && Apply(st, l).hist.log[|st.hist.log|].id == st.procs[l.p].task.id
                                && Apply(st, l).procs == st.procs[l.p := Succeeded(st.procs[l.p].task, |st.hist.log|)]
    ensures l.RecordResult? ==> Apply(st, l).hist.creator == st.hist.creator && Apply(st, l).hist.lost == st.hist.lost
  {
    hide Apply, Enabled;
    LogGrows(st, l);
    if l.RecordResult? { RunRecorded(st, l); }
  }

  lemma ChainEndedEffect(st: State, l: Label)
    requires Enabled(st, l) && l.EndChain?
    ensures At(st, l.p) && st.procs[l.p].Succeeded? && FollowingOf(st.procs[l.p].task).None?
    ensures Apply(st, l).procs == st.procs[l.p := Finished(st.procs[l.p].task.id)]
  {
    hide StorageKey, ParamsDecode, SourceKey, FileResult, Accepted, IsId, SubmissionKey, RootEvent, ChildEvent,
      TaskOf, KeyOfTask, Launch, RequeueCommand, RetryPriority, RemoveAt, Retryable, ApplyCreate, ApplyAdmin,
      ApplyWorker, ApplyOther;
  }

  /** Only the steps after a success take a process out of it. */
  lemma SucceededMoves(st: State, l: Label, p: nat)
    requires Enabled(st, l) && Actor(st, l) == Some(p) && p < |st.procs| && st.procs[p].Succeeded?
    ensures l.SaveChild? || l.EndChain?
  {
    hide StorageKey, ParamsDecode, SourceKey, FileResult, Accepted, IsId;
  }

  lemma ClaimsKept(st: State, l: Label)
    requires Enabled(st, l) && !l.RecordResult? && !l.SaveChild? && !l.EndChain?
    ensures forall k :: 0 <= k < |Apply(st, l).procs| && Apply(st, l).procs[k].Succeeded? ==>
                          k < |st.procs| && Apply(st, l).procs[k] == st.procs[k]
    ensures forall k :: 0 <= k < |st.procs| && st.procs[k].Succeeded? ==>
                          k < |Apply(st, l).procs| && Apply(st, l).procs[k] == st.procs[k]
  {
    hide Apply, Enabled, Actor;
    OneMoves(st, l);
    if Actor(st, l).Some? {
      var p := Actor(st, l).value;
      StepEffect(st, l);
      if p < |st.procs| && st.procs[p].Succeeded? {
        SucceededMoves(st, l, p);
      }
    }
  }

  lemma ChildEffect(st: State, l: Label)
    requires Enabled(st, l) && !l.RecordResult?
    ensures l.SaveChild? ==> At(st, l.p) && st.procs[l.p].Succeeded? && FollowingOf(st.procs[l.p].task).Some?
    ensures l.SaveChild? && l.fault ==>
              && Apply(st, l).hist.lost == st.hist.lost + {st.procs[l.p].run}
              && Apply(st, l).hist.creator == st.hist.creator
              && Apply(st, l).procs == st.procs[l.p := RunFailed(st.procs[l.p].task.id)]
    ensures l.SaveChild? && !l.fault ==>
              && l.id !in st.events
              && Apply(st, l).hist.lost == st.hist.lost
              && Apply(st, l).hist.creator == st.hist.creator[l.id := st.procs[l.p].run]
              && Apply(st, l).procs == st.procs[l.p := ChildSaved(st.procs[l.p].task, l.id)]
              && Apply(st, l).events == st.events[l.id := ChildEvent(st.procs[l.p].task, FollowingOf(st.procs[l.p].task).value, st.now)]
    ensures l.EndChain? ==> At(st, l.p) && st.procs[l.p].Succeeded? && FollowingOf(st.procs[l.p].task).None?
                            && Apply(st, l).procs == st.procs[l.p := Finished(st.procs[l.p].task.id)]
    ensures !l.SaveChild? ==> Apply(st, l).hist.creator == st.hist.creator && Apply(st, l).hist.lost == st.hist.lost
    ensures !l.SaveChild? && !l.EndChain? ==>
              forall k :: 0 <= k < |Apply(st, l).procs| && Apply(st, l).procs[k].Succeeded? ==>
                            k < |st.procs| && Apply(st, l).procs[k] == st.procs[k]
    ensures !l.SaveChild? && !l.EndChain? ==>
              forall k :: 0 <= k < |st.procs| && st.procs[k].Succeeded? ==>
                            k < |Apply(st, l).procs| && Apply(st, l).procs[k] == st.procs[k]
  {
    hide Apply, Enabled, ChildEvent;
    if l.SaveChild? {
      ChildSavedEffect(st, l);
    } else {
      StepEffect(st, l);
      if l.EndChain? { ChainEndedEffect(st, l); } else { ClaimsKept(st, l); }
    }
  }

  /** The facts about one step that the rest of the proof uses. */
  ghost predicate Extends(a: State, b: State) {
    && Grown(a.events, b.events)
    && |a.hist.log| <= |b.hist.log|
    && (forall i :: 0 <= i < |a.hist.log| ==> b.hist.log[i] == a.hist.log[i])
  }

  lemma StepExtends(st: State, l: Label)
    requires Enabled(st, l)
    ensures Extends(st, Apply(st, l))
  {
    hide Apply, Enabled;
    StepGrows(st, l);
    LogEffect(st, l);
  }

  lemma OldRunOk(a: State, b: State, i: nat)
    requires Extends(a, b) && i < |a.hist.log| && RunOk(a, i)
    requires forall c :: c in b.hist.creator && c in a.events ==> c in a.hist.creator && b.hist.creator[c] == a.hist.creator[c]
    ensures RunOk(b, i)
  {
  }

  lemma RunsStep(st: State, l: Label)
    requires Enabled(st, l) && Owned(st) && FamiliesOk(st) && SpawnOk(st)
    ensures forall i: nat :: RunOk(Apply(st, l), i)
  {
    hide Apply, Enabled, ProcOk;
    var next := Apply(st, l);
    StepExtends(st, l);
    LogEffect(st, l);
    if !l.RecordResult? { ChildEffect(st, l); }
    forall i: nat
      ensures RunOk(next, i)
    {
      if i < |st.hist.log| {
        OldRunOk(st, next, i);
      } else if l.RecordResult? && i == |st.hist.log| {
        assert st.procs[l.p] in st.procs;
        UploadedExists(st, l.p);
        CreatorBelowLog(st, st.procs[l.p].task.id);
      }
    }
  }

  lemma UploadedExists(st: State, p: nat)
    requires Owned(st) && At(st, p) && (st.procs[p].Uploaded? || st.procs[p].Succeeded?)
    ensures TaskOk(st.events, st.procs[p].task)
  {
    assert st.procs[p] in st.procs && ProcOk(st.events, st.procs[p]);
  }

  lemma CreatorBelowLog(st: State, c: Id)
    requires SpawnOk(st)
    ensures c in st.hist.creator ==> st.hist.creator[c] < |st.hist.log|
  {
    if c in st.hist.creator {
      assert CreatedBy(st, c, st.hist.creator[c]);
    }
  }

  lemma OldCreatedBy(a: State, b: State, c: Id, i: nat)
    requires Extends(a, b) && CreatedBy(a, c, i)
    ensures CreatedBy(b, c, i)
  {
  }

  lemma NewCreatedBy(st: State, next: State, t: Task, run: nat, c: Id)
    requires Extends(st, next) && TaskOk(st.events, t) && FollowingOf(t).Some?
    requires IsRun(st, run) && st.hist.log[run].id == t.id
    requires c in next.events && next.events[c] == ChildEvent(t, FollowingOf(t).value, st.now)
    ensures CreatedBy(next, c, run)
  {
  }

  lemma CreatedStep(st: State, l: Label)
    requires Enabled(st, l) && Owned(st) && FamiliesOk(st) && SpawnOk(st)
    ensures forall c :: c in Apply(st, l).hist.creator ==> CreatedBy(Apply(st, l), c, Apply(st, l).hist.creator[c])
    ensures Injective(Apply(st, l).hist.creator)
  {
    hide Apply, Enabled, ProcOk, CreatedBy, ChildEvent;
    var next := Apply(st, l);
    StepExtends(st, l);
    LogEffect(st, l);
    if !l.RecordResult? { ChildEffect(st, l); }
    if l.SaveChild? {
      assert st.procs[l.p] in st.procs && OwnsRun(st, st.procs[l.p]);
      UploadedExists(st, l.p);
    }
    forall c | c in next.hist.creator
      ensures CreatedBy(next, c, next.hist.creator[c])
    {
      if c in st.hist.creator {
        assert c in st.events;
        OldCreatedBy(st, next, c, st.hist.creator[c]);
      } else {
        NewCreatedBy(st, next, st.procs[l.p].task, st.procs[l.p].run, c);
      }
    }
  }

  lemma OwnersStep(st: State, l: Label)
    requires Enabled(st, l) && Owned(st) && FamiliesOk(st) && SpawnOk(st)
    ensures forall q :: q in Apply(st, l).procs ==> OwnsRun(Apply(st, l), q)
    ensures RunsDistinct(Apply(st, l))
  {
    hide Apply, Enabled, ProcOk, CreatedBy, ChildEvent, Accounted, RunOk;
    var next := Apply(st, l);
    StepExtends(st, l);
    LogEffect(st, l);
    if l.RecordResult? {
      forall q | q in st.procs && q.Succeeded?
        ensures q.run < |st.hist.log|
      {
        assert OwnsRun(st, q);
      }
      forall k | 0 <= k < |st.procs| && st.procs[k].Succeeded?
        ensures st.procs[k].run < |st.hist.log|
      {
        assert st.procs[k] in st.procs;
      }
      CreatedAreOld(st);
    } else {
      ChildEffect(st, l);
    }
    forall k | 0 <= k < |next.procs|
      ensures OwnsRun(next, next.procs[k])
    {
      if k < |st.procs| {
        assert st.procs[k] in st.procs && OwnsRun(st, st.procs[k]);
        if l.SaveChild? && k != l.p && st.procs[k].Succeeded? {
          assert st.procs[l.p].run != st.procs[k].run;
          if !l.fault {
            StillUncreated(st.hist.creator, l.id, st.procs[l.p].run, st.procs[k].run);
          }
        }
      }
    }
  }

  lemma StillUncreated(m: map<Id, nat>, c: Id, run: nat, other: nat)
    requires run != other && other !in m.Values
    ensures other !in m[c := run].Values
  {
  }

  lemma CreatedAreOld(st: State)
    requires SpawnOk(st)
    ensures |st.hist.log| !in st.hist.creator.Values
  {
    if |st.hist.log| in st.hist.creator.Values {
      var c :| c in st.hist.creator && st.hist.creator[c] == |st.hist.log|;
      CreatorBelowLog(st, c);
    }
  }

  lemma AccountedStep(st: State, l: Label)
    requires Enabled(st, l) && Owned(st) && FamiliesOk(st) && SpawnOk(st)
    ensures forall i: nat :: Accounted(Apply(st, l), i)
    ensures forall i :: i in Apply(st, l).hist.lost ==> i < |Apply(st, l).hist.log| && i !in Apply(st, l).hist.creator.Values
  {
    hide Apply, Enabled, ProcOk, CreatedBy, ChildEvent, Injective, RunsDistinct;
    var next := Apply(st, l);
    StepExtends(st, l);
    LogEffect(st, l);
    if !l.RecordResult? { ChildEffect(st, l); }
    if l.SaveChild? {
      assert st.procs[l.p] in st.procs && OwnsRun(st, st.procs[l.p]);
    }
    forall i: nat
      ensures Accounted(next, i)
    {
      if i < |st.hist.log| {
        OldAccounted(st, l, i);
      } else if i == |st.hist.log| && l.RecordResult? {
        assert next.procs[l.p] in next.procs;
      }
    }
  }

  lemma OldAccounted(st: State, l: Label, i: nat)
    requires Enabled(st, l) && Owned(st) && FamiliesOk(st) && SpawnOk(st)
    requires i < |st.hist.log|
    ensures Accounted(Apply(st, l), i)
  {
    hide Apply, Enabled, ProcOk, CreatedBy, ChildEvent, Injective, RunsDistinct, RunOk;
    var next := Apply(st, l);
    StepExtends(st, l);
    assert Accounted(st, i) && RunOk(st, i);
    if IsRun(next, i) && next.hist.log[i].id in next.events && Following(next.events[next.hist.log[i].id].req).Some? {
      RunEventExists(st, i);
      CreatorsAndLossesGrow(st, l);
      if i in st.hist.creator.Values {
        ValuesGrow(st.hist.creator, next.hist.creator, i);
      } else if q :| q in st.procs && q.Succeeded? && q.run == i {
        var k :| 0 <= k < |st.procs| && st.procs[k] == q;
        OwnedFollowing(st, k);
        OwnerAfter(st, l, k);
      }
    }
  }

  lemma RunEventExists(st: State, i: nat)
    requires RunOk(st, i) && IsRun(st, i)
    ensures st.hist.log[i].id in st.events
  {
  }

  lemma CreatorsAndLossesGrow(st: State, l: Label)
    requires Enabled(st, l) && FamiliesOk(st)
    ensures forall c :: c in st.hist.creator ==> c in Apply(st, l).hist.creator && Apply(st, l).hist.creator[c] == st.hist.creator[c]
    ensures st.hist.lost <= Apply(st, l).hist.lost
  {
    hide Apply, Enabled, MemberOk;
    LogEffect(st, l);
    if !l.RecordResult? { ChildEffect(st, l); }
  }

  lemma OwnedFollowing(st: State, k: nat)
    requires Owned(st) && SpawnOk(st) && At(st, k) && st.procs[k].Succeeded?
    ensures IsRun(st, st.procs[k].run) && st.hist.log[st.procs[k].run].id == st.procs[k].task.id
    ensures st.procs[k].task.id in st.events
    ensures FollowingOf(st.procs[k].task) == Following(st.events[st.procs[k].task.id].req)
  {
    assert st.procs[k] in st.procs && OwnsRun(st, st.procs[k]);
    UploadedExists(st, k);
  }

  /** The owner of a run keeps it, turns it into a child, or loses it. */
  lemma OwnerAfter(st: State, l: Label, k: nat)
    requires Enabled(st, l) && Owned(st) && At(st, k) && st.procs[k].Succeeded? && FollowingOf(st.procs[k].task).Some?
    ensures var i := st.procs[k].run;
            || i in Apply(st, l).hist.creator.Values
            || (exists q :: q in Apply(st, l).procs && q.Succeeded? && q.run == i)
            || i in Apply(st, l).hist.lost
  {
    hide Apply, Enabled, ProcOk, ChildEvent;
    var next := Apply(st, l);
    OneMoves(st, l);
    LogEffect(st, l);
    if !l.RecordResult? { ChildEffect(st, l); }
    assert next.procs[k] in next.procs;
    if l.SaveChild? && !l.fault && l.p == k {
      assert l.id in next.hist.creator;
    }
  }

  lemma ValuesGrow(m: map<Id, nat>, n: map<Id, nat>, i: nat)
    requires forall c :: c in m ==> c in n && n[c] == m[c]
    ensures i in m.Values ==> i in n.Values
  {
    if i in m.Values {
      var c :| c in m && m[c] == i;
      assert n[c] == i;
    }
  }
}
