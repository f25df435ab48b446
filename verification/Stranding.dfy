/** No pending task is stranded: while an event is pending, some token or process will still act
    on it, unless a call failed right after the event was saved or reset. */
module Stranding {
  import opened Prelude
  import opened Records
  import opened Lifecycle
  import opened Effects
  import opened Ownership

  /** The events a process still owes a queue call or a terminal status. A worker that decided to
      skip, or that wrote a terminal status, owes nothing any more. */
  function Keeps(proc: Proc): set<Id> {
    match proc
    case CreateSaved(_, id) => {id}
    case CreateRecorded(_, id) => {id}
    case RetryReset(id, _) => {id}
    case Holding(id) => {id}
    case Running(t) => {t.id}
    case Sourced(t, _) => {t.id}
    case Uploaded(t) => {t.id}
    case Succeeded(t, _) => {t.id}
    case ChildSaved(t, child) => {t.id, child}
    case Finished(id) => {id}
    case RunFailed(id) => {id}
    case _ => {}
  }

  ghost predicate Queued(st: State, id: Id) {
    (exists r :: r in st.ready && r.id == id) || (exists d :: d in st.delayed && d.id == id)
  }

  ghost predicate Kept(st: State, id: Id) {
    exists q :: q in st.procs && id in Keeps(q)
  }

  ghost predicate Live(st: State, id: Id) {
    Queued(st, id) || Kept(st, id)
  }

  predicate IsPending(st: State, id: Id) {
    id in st.events && st.events[id].status == Pending
  }

  ghost predicate NoneStranded(st: State) {
    forall id :: IsPending(st, id) ==> Live(st, id) || id in st.hist.orphaned
  }

  /** An event that becomes pending is kept by the process that made it so. */
  ghost predicate NewlyKept(st: State, l: Label, id: Id)
    requires Enabled(st, l)
  {
    IsPending(Apply(st, l), id) && !IsPending(st, id) ==>
      && Actor(st, l).Some? && Actor(st, l).value < |Apply(st, l).procs|
      && id in Keeps(Apply(st, l).procs[Actor(st, l).value])
  }

  lemma CreateNewlyKept(st: State, l: Label, id: Id)
    requires Enabled(st, l) && IsCreate(l)
    ensures NewlyKept(st, l, id)
  {
    hide StorageKey, ParamsDecode, SourceKey, FileResult, Accepted, IsId, SubmissionKey, RootEvent, ChildEvent,
      TaskOf, KeyOfTask, Launch, RequeueCommand, RetryPriority, RemoveAt, Retryable, ApplyAdmin, ApplyWorker,
      ApplyChain, ApplyOther;
  }

  lemma AdminNewlyKept(st: State, l: Label, id: Id)
    requires Enabled(st, l) && IsAdmin(l)
    ensures NewlyKept(st, l, id)
  {
    hide StorageKey, ParamsDecode, SourceKey, FileResult, Accepted, IsId, SubmissionKey, RootEvent, ChildEvent,
      TaskOf, KeyOfTask, Launch, RequeueCommand, RetryPriority, RemoveAt, Retryable, ApplyCreate, ApplyWorker,
      ApplyChain, ApplyOther;
  }

  lemma WorkerNewlyKept(st: State, l: Label, id: Id)
    requires Enabled(st, l) && IsWorker(l)
    ensures NewlyKept(st, l, id)
  {
    hide StorageKey, ParamsDecode, SourceKey, FileResult, Accepted, IsId, SubmissionKey, RootEvent, ChildEvent,
      TaskOf, KeyOfTask, Launch, RequeueCommand, RetryPriority, RemoveAt, Retryable, ApplyCreate, ApplyAdmin,
      ApplyChain, ApplyOther;
  }

  lemma ChainNewlyKept(st: State, l: Label, id: Id)
    requires Enabled(st, l) && IsChain(l)
    ensures NewlyKept(st, l, id)
  {
    hide StorageKey, ParamsDecode, SourceKey, FileResult, Accepted, IsId, SubmissionKey, RootEvent, ChildEvent,
      TaskOf, KeyOfTask, Launch, RequeueCommand, RetryPriority, RemoveAt, Retryable, ApplyCreate, ApplyAdmin,
      ApplyWorker, ApplyOther;
  }

  lemma OtherNewlyKept(st: State, l: Label, id: Id)
    requires Enabled(st, l) && IsOther(l)
    ensures NewlyKept(st, l, id)
  {
    hide StorageKey, ParamsDecode, SourceKey, FileResult, Accepted, IsId, SubmissionKey, RootEvent, ChildEvent,
      TaskOf, KeyOfTask, Launch, RequeueCommand, RetryPriority, RemoveAt, Retryable, ApplyCreate, ApplyAdmin,
      ApplyWorker, ApplyChain;
  }

  lemma PendingIsKept(st: State, l: Label, id: Id)
    requires Enabled(st, l)
    ensures NewlyKept(st, l, id)
  {
    hide Apply, Enabled, NewlyKept;
    if IsCreate(l) {
      CreateNewlyKept(st, l, id);
    } else if IsAdmin(l) {
      AdminNewlyKept(st, l, id);
    } else if IsWorker(l) {
      WorkerNewlyKept(st, l, id);
    } else if IsChain(l) {
      ChainNewlyKept(st, l, id);
    } else {
      OtherNewlyKept(st, l, id);
    }
  }

  /** A process gives up an event only by queueing it, ending it, or failing after a save. */
  ghost predicate StillKeeps(st: State, l: Label, p: nat, id: Id)
    requires Enabled(st, l)
  {
    IsPending(Apply(st, l), id) && id !in Apply(st, l).hist.orphaned ==>
      && p < |Apply(st, l).procs|
      && (id in Keeps(Apply(st, l).procs[p]) || (Issued(st, l).Some? && Issued(st, l).value.0 == id))
  }

  lemma CreateKeeps(st: State, l: Label, id: Id)
    requires Enabled(st, l) && IsCreate(l) && id in Keeps(st.procs[l.p])
    ensures StillKeeps(st, l, l.p, id)
  {
    hide StorageKey, ParamsDecode, SourceKey, FileResult, Accepted, IsId, SubmissionKey, RootEvent, ChildEvent,
      TaskOf, KeyOfTask, Launch, RequeueCommand, RetryPriority, RemoveAt, Retryable, ApplyAdmin, ApplyWorker,
      ApplyChain, ApplyOther;
  }

  lemma WorkerKeeps(st: State, l: Label, id: Id)
    requires Enabled(st, l) && IsWorker(l) && id in Keeps(st.procs[l.p])
    ensures StillKeeps(st, l, l.p, id)
  {
    hide StorageKey, ParamsDecode, SourceKey, FileResult, Accepted, IsId, SubmissionKey, RootEvent, ChildEvent,
      KeyOfTask, Launch, RequeueCommand, RetryPriority, RemoveAt, Retryable, ApplyCreate, ApplyAdmin, ApplyChain,
      ApplyOther;
  }

  lemma OtherKeeps(st: State, l: Label, p: nat, id: Id)
    requires Enabled(st, l) && !IsCreate(l) && !IsWorker(l) && Actor(st, l) == Some(p) && p < |st.procs|
    requires id in Keeps(st.procs[p])
    ensures StillKeeps(st, l, p, id)
  {
    hide StorageKey, ParamsDecode, SourceKey, FileResult, Accepted, IsId, SubmissionKey, RootEvent, ChildEvent,
      KeyOfTask, Launch, RequeueCommand, RetryPriority, RemoveAt, Retryable, ApplyCreate, ApplyWorker;
  }

  lemma ActorKeeps(st: State, l: Label, p: nat, id: Id)
    requires Enabled(st, l) && Actor(st, l) == Some(p) && p < |st.procs|
    requires id in Keeps(st.procs[p])
    ensures StillKeeps(st, l, p, id)
  {
    hide Apply, Enabled, StillKeeps, Keeps;
    if IsCreate(l) {
      CreateKeeps(st, l, id);
    } else if IsWorker(l) {
      WorkerKeeps(st, l, id);
    } else {
      OtherKeeps(st, l, p, id);
    }
  }

  /** An event is orphaned only by the failed call of a handler that had just saved or reset it. */
  lemma OrphanedByFailedCall(st: State, l: Label, id: Id)
    requires Enabled(st, l)
    requires id !in st.hist.orphaned && id in Apply(st, l).hist.orphaned
    ensures IsFault(l) && Actor(st, l).Some? && Actor(st, l).value < |st.procs|
    ensures var q := st.procs[Actor(st, l).value];
            || (q.CreateSaved? && q.id == id) || (q.CreateRecorded? && q.id == id)
            || (q.RetryReset? && q.id == id) || (q.ChildSaved? && q.child == id)
  {
    hide Apply, Accepted, SourceKey, ParamsDecode, IsId;
    StepEffect(st, l);
    assert id in Abandoned(st, l);
  }

  /** It stays orphaned until a queue call for it goes through, and is not once one has. */
  lemma OrphanedUntilQueued(st: State, l: Label, id: Id)
    requires Enabled(st, l) && id in st.hist.orphaned
    ensures id !in Apply(st, l).hist.orphaned <==> Issued(st, l).Some? && Issued(st, l).value.0 == id
  {
    hide Apply, Enabled, Issued, Abandoned;
    StepEffect(st, l);
  }

  lemma NewOrphans(st: State, l: Label)
    requires Enabled(st, l) && !IsFault(l)
    ensures Apply(st, l).hist.orphaned <= st.hist.orphaned
  {
    hide Apply, Enabled, IsFault, Actor;
    forall id | id in Apply(st, l).hist.orphaned
      ensures id in st.hist.orphaned
    {
      if id !in st.hist.orphaned { OrphanedByFailedCall(st, l, id); }
    }
  }

  lemma QueuedStays(st: State, l: Label, id: Id)
    requires Enabled(st, l) && Queued(st, id)
    ensures Live(Apply(st, l), id)
  {
    hide Apply, Enabled, Actor, Issued;
    QueueEffect(st, l);
    var next := Apply(st, l);
    if r :| r in st.ready && r.id == id {
      if l.Dequeue? && st.ready[l.i] == r {
        DequeuedIsHeld(st, l);
        assert next.procs[|st.procs|] in next.procs;
      } else {
        assert r in next.ready;
      }
    } else {
      var d :| d in st.delayed && d.id == id;
      if l.Promote? && st.delayed[l.i] == d {
        assert next.ready[|st.ready|] == Ready(d.id, d.priority);
      } else {
        assert d in next.delayed;
      }
    }
  }

  lemma DequeuedIsHeld(st: State, l: Label)
    requires Enabled(st, l) && l.Dequeue?
    ensures l.i < |st.ready|
    ensures Apply(st, l).procs == st.procs + [Holding(st.ready[l.i].id)]
  {
  }

  lemma IssuedIsQueued(st: State, l: Label)
    requires Enabled(st, l) && Issued(st, l).Some?
    ensures Queued(Apply(st, l), Issued(st, l).value.0)
  {
    hide Apply, Enabled, Actor, Issued;
    QueueEffect(st, l);
    var (id, command) := Issued(st, l).value;
    match command
    case Enqueue(priority) => assert Ready(id, priority) in Apply(st, l).ready;
    case Schedule(priority, at) => assert Delayed(id, priority, at) in Apply(st, l).delayed;
  }

  lemma NoneStrandedStep(st: State, l: Label)
    requires Enabled(st, l) && NoneStranded(st)
    ensures NoneStranded(Apply(st, l))
  {
    hide Apply, Enabled, Actor, Issued, Queued, Keeps, IsPending;
    var next := Apply(st, l);
    OneMoves(st, l);
    forall id | IsPending(next, id) && id !in next.hist.orphaned
      ensures Live(next, id)
    {
      if id in st.hist.orphaned {
        OrphanedUntilQueued(st, l, id);
        IssuedIsQueued(st, l);
      } else if !IsPending(st, id) {
        PendingIsKept(st, l, id);
        assert next.procs[Actor(st, l).value] in next.procs;
      } else if Queued(st, id) {
        QueuedStays(st, l, id);
      } else {
        var q :| q in st.procs && id in Keeps(q);
        var k :| 0 <= k < |st.procs| && st.procs[k] == q;
        assert next.procs[k] in next.procs;
        if Actor(st, l) == Some(k) {
          ActorKeeps(st, l, k, id);
          if Issued(st, l).Some? && Issued(st, l).value.0 == id {
            IssuedIsQueued(st, l);
          }
        }
      }
    }
  }

  lemma {:induction false} NoneStrandedRun(ls: seq<Label>)
    requires CanRun(START, ls)
    ensures NoneStranded(After(START, ls))
    ensures (forall l :: l in ls ==> !IsFault(l)) ==> After(START, ls).hist.orphaned == {}
    decreases |ls|
  {
    hide Apply, Enabled, NoneStranded;
    if ls == [] {
      StartHasNoEvents();
    } else {
      var before := ls[..|ls| - 1];
      NoneStrandedRun(before);
      assert forall l :: l in before ==> l in ls;
      NoneStrandedStep(After(START, before), ls[|ls| - 1]);
      if !IsFault(ls[|ls| - 1]) { NewOrphans(After(START, before), ls[|ls| - 1]); }
    }
  }

  lemma StartHasNoEvents()
    ensures NoneStranded(START)
  {
  }

  /** In every reachable state, with any interleaving of creates, cancels, retries, DLQ retries,
      requeues, chain steps and workers, each pending event is queued, delayed, or in the hands
      of a process about to queue or finish it; the only exceptions follow a failed call. */
  lemma NoPendingTaskIsStranded(st: State, id: Id)
    requires Reachable(st) && IsPending(st, id)
    ensures Live(st, id) || id in st.hist.orphaned
  {
    var ls: seq<Label> :| CanRun(START, ls) && After(START, ls) == st;
    NoneStrandedRun(ls);
  }

  /** Without failed calls there are no exceptions. */
  lemma NoFaultNoStranding(ls: seq<Label>, id: Id)
    requires CanRun(START, ls) && forall l :: l in ls ==> !IsFault(l)
    requires IsPending(After(START, ls), id)
    ensures Live(After(START, ls), id)
  {
    NoneStrandedRun(ls);
  }
}
