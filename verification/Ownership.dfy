/** Columns written once, and what every process and token knows about the event it names. */
module Ownership {
  import opened Prelude
  import opened TaskWire
  import opened Records
  import opened Lifecycle
  import opened Effects

  /** No step deletes an event or changes any column but status and result. */
  lemma StepGrows(st: State, l: Label)
    requires Enabled(st, l)
    ensures Grown(st.events, Apply(st, l).events)
  {
    hide Apply, Enabled, Grown;
    StepEffect(st, l);
  }

  /** Over any run, events are only added and keep their columns. */
  lemma {:induction false} RunGrows(st: State, ls: seq<Label>)
    requires CanRun(st, ls)
    ensures Grown(st.events, After(st, ls).events)
    decreases |ls|
  {
    hide Apply, Enabled;
    if ls != [] {
      RunGrows(st, ls[..|ls| - 1]);
      StepGrows(After(st, ls[..|ls| - 1]), ls[|ls| - 1]);
    }
  }

  ghost predicate TaskOk(events: map<Id, Event>, t: Task) {
    t.id in events && t == TaskOf(t.id, events[t.id])
  }

  ghost predicate SavedFor(events: map<Id, Event>, sub: Submission, id: Id) {
    id in events && SameColumns(events[id], RootEvent(sub, events[id].createdAt))
  }

  /** What a process may rely on at its program counter, whatever the others do. */
  ghost predicate ProcOk(events: map<Id, Event>, proc: Proc) {
    match proc
    case CreateStart(sub) => IsAdmitted(sub)
    case CreateUnseen(sub) => IsAdmitted(sub)
    case CreateSaved(sub, id) => IsAdmitted(sub) && SavedFor(events, sub, id)
    case CreateRecorded(sub, id) => IsAdmitted(sub) && SavedFor(events, sub, id)
    case CreateUnqueued(id) => id in events
    case RetryReset(id, priority) => id in events && priority == RetryPriority(events[id])
    case DeadTaken(id) => id in events
    case RequeueRead(id) => id in events
    case Holding(id) => id in events
    case Skipping(id) => id in events
    case Running(t) => TaskOk(events, t)
    case Sourced(t, _) => TaskOk(events, t) && t.kind == REPORT
    case Uploaded(t) => TaskOk(events, t) && Registered(t.kind)
    case Succeeded(t, _) => TaskOk(events, t) && Registered(t.kind)
    case ChildSaved(t, child) =>
      && TaskOk(events, t) && Registered(t.kind) && FollowingOf(t).Some?
      && child in events && SameColumns(events[child], ChildEvent(t, FollowingOf(t).value, events[child].createdAt))
    case Finished(id) => id in events
    case RunFailed(id) => id in events
    case Ended(id) => id in events
    case Done => true
  }

  /** The part of admission that time does not affect. */
  ghost predicate IsAdmitted(sub: Submission) {
    exists now :: Accepted(sub, now)
  }

  ghost predicate TokensOk(st: State) {
    && (forall r :: r in st.ready ==> r.id in st.events)
    && (forall d :: d in st.delayed ==> d.id in st.events)
    && st.dead <= st.events.Keys
  }

  ghost predicate Owned(st: State) {
    && TokensOk(st)
    && forall q :: q in st.procs ==> ProcOk(st.events, q)
  }

  lemma ProcOkGrows(a: map<Id, Event>, b: map<Id, Event>, proc: Proc)
    requires Grown(a, b) && ProcOk(a, proc)
    ensures ProcOk(b, proc)
  {
  }

  /** A step moves one process, or starts one, and leaves all others where they are. */
  lemma OneMoves(st: State, l: Label)
    requires Enabled(st, l)
    ensures |st.procs| <= |Apply(st, l).procs| <= |st.procs| + 1
    ensures forall q :: 0 <= q < |st.procs| && Actor(st, l) != Some(q) ==> Apply(st, l).procs[q] == st.procs[q]
    ensures |Apply(st, l).procs| == |st.procs| + 1 ==> Actor(st, l) == Some(|st.procs|)
    ensures Actor(st, l).Some? ==> Actor(st, l).value < |Apply(st, l).procs|
  {
    hide Apply, Enabled, Actor;
    StepEffect(st, l);
  }

  /** Steps only append to the log, at most one entry each: a run when a worker records a result,
      otherwise only the create handler's. */
  lemma LogGrows(st: State, l: Label)
    requires Enabled(st, l)
    ensures |st.hist.log| <= |Apply(st, l).hist.log| <= |st.hist.log| + 1
    ensures forall i :: 0 <= i < |st.hist.log| ==> Apply(st, l).hist.log[i] == st.hist.log[i]
    ensures |Apply(st, l).hist.log| > |st.hist.log| ==>
              && (l.CheckKey? || l.RecordKey? || l.RecordResult?)
              && (Apply(st, l).hist.log[|st.hist.log|].Success? <==> l.RecordResult?)
    ensures l.RecordResult? ==> |Apply(st, l).hist.log| > |st.hist.log|
  {
    hide Apply, Enabled;
    StepEffect(st, l);
  }

  /** Tokens enter the queue only by those calls, move on promotion and leave on dequeue. */
  lemma QueueEffect(st: State, l: Label)
    requires Enabled(st, l)
    ensures l.Promote? ==> l.i < |st.delayed|
    ensures l.Dequeue? ==> l.i < |st.ready|
    ensures l.Promote? || l.Dequeue? ==> Issued(st, l).None?
    ensures QueueMoves(st, l)
  {
    hide Apply;
    StepEffect(st, l);
  }

  /** A token is only ever issued for an existing event. */
  lemma IssuedExists(st: State, l: Label)
    requires Enabled(st, l) && Owned(st) && Issued(st, l).Some?
    ensures Issued(st, l).value.0 in st.events
  {
    hide StorageKey, ParamsDecode, SourceKey, FileResult, PayloadValue, IsId, Accepted;
    assert st.procs[l.p] in st.procs;
  }

  /** Only a worker puts an id on the dead-letter queue, and only its own. */
  lemma DeadEffect(st: State, l: Label)
    requires Enabled(st, l) && Owned(st)
    ensures Apply(st, l).dead <= st.dead + st.events.Keys
  {
    hide StorageKey, ParamsDecode, SourceKey, FileResult, Accepted, IsId, SubmissionKey, RootEvent, ChildEvent,
      TaskOf, KeyOfTask, Launch, RequeueCommand, RetryPriority, RemoveAt, Retryable;
    if l.Bury? {
      assert st.procs[l.p] in st.procs && ProcOk(st.events, st.procs[l.p]);
    }
  }

  lemma TokensStep(st: State, l: Label)
    requires Enabled(st, l) && Owned(st)
    ensures TokensOk(Apply(st, l))
  {
    hide Apply, Enabled, ProcOk, Actor, Issued;
    StepGrows(st, l);
    QueueEffect(st, l);
    DeadEffect(st, l);
    var next := Apply(st, l);
    if Issued(st, l).Some? {
      IssuedExists(st, l);
    } else if l.Promote? {
      PromotedExists(st, l.i);
    }
  }

  lemma PromotedExists(st: State, i: nat)
    requires TokensOk(st) && i < |st.delayed|
    ensures st.delayed[i].id in st.events
  {
    assert st.delayed[i] in st.delayed;
  }

  lemma SavingActorOk(st: State, l: Label)
    requires Enabled(st, l) && Owned(st) && (l.SaveRoot? || l.RecordKey?)
    ensures ProcOk(Apply(st, l).events, Apply(st, l).procs[l.p])
  {
    hide StorageKey, ParamsDecode, SourceKey, FileResult, Accepted, IsId, SubmissionKey, TaskOf, RequeueCommand,
      Launch, ApplyAdmin, ApplyWorker, ApplyChain, ApplyOther;
    assert st.procs[l.p] in st.procs;
    assert ProcOk(st.events, st.procs[l.p]);
  }

  lemma CreateActorOk(st: State, l: Label)
    requires Enabled(st, l) && Owned(st) && (l.CheckKey? || l.LaunchRoot? || l.MarkFailed?)
    ensures ProcOk(Apply(st, l).events, Apply(st, l).procs[l.p])
  {
    hide StorageKey, ParamsDecode, SourceKey, FileResult, Accepted, IsId, SubmissionKey, TaskOf, RequeueCommand,
      Launch, ApplyAdmin, ApplyWorker, ApplyChain, ApplyOther;
    assert st.procs[l.p] in st.procs;
    assert ProcOk(st.events, st.procs[l.p]);
  }

  lemma ReaderActorOk(st: State, l: Label)
    requires Enabled(st, l) && Owned(st) && l.GetTask?
    ensures ProcOk(Apply(st, l).events, Apply(st, l).procs[l.p])
  {
    hide StorageKey, ParamsDecode, SourceKey, FileResult, PayloadValue, IsAdmitted, SavedFor, Column, IsId,
      ApplyCreate, ApplyAdmin, ApplyChain, ApplyOther;
    assert st.procs[l.p] in st.procs;
    assert ProcOk(st.events, st.procs[l.p]);
  }

  lemma WorkerActorOk(st: State, l: Label)
    requires Enabled(st, l) && Owned(st) && IsWorker(l) && !l.GetTask?
    ensures ProcOk(Apply(st, l).events, Apply(st, l).procs[l.p])
  {
    hide StorageKey, ParamsDecode, SourceKey, FileResult, PayloadValue, IsAdmitted, SavedFor, Column, IsId, TaskOf,
      RootEvent, ChildEvent, KeyOfTask, Accepted, ApplyCreate, ApplyAdmin, ApplyChain, ApplyOther;
    assert st.procs[l.p] in st.procs;
    assert ProcOk(st.events, st.procs[l.p]);
  }

  lemma SavedChildActorOk(st: State, l: Label)
    requires Enabled(st, l) && Owned(st) && l.SaveChild?
    ensures ProcOk(Apply(st, l).events, Apply(st, l).procs[l.p])
  {
    hide StorageKey, ParamsDecode, SourceKey, FileResult, PayloadValue, IsAdmitted, SavedFor, Column, IsId,
      ApplyCreate, ApplyAdmin, ApplyWorker, ApplyOther;
    assert st.procs[l.p] in st.procs;
    assert ProcOk(st.events, st.procs[l.p]);
  }

  lemma LaunchedChildActorOk(st: State, l: Label)
    requires Enabled(st, l) && Owned(st) && l.LaunchChild?
    ensures ProcOk(Apply(st, l).events, Apply(st, l).procs[l.p])
  {
    hide StorageKey, ParamsDecode, SourceKey, FileResult, PayloadValue, IsAdmitted, SavedFor, Column, IsId,
      ApplyCreate, ApplyAdmin, ApplyWorker, ApplyOther;
    assert st.procs[l.p] in st.procs;
    assert ProcOk(st.events, st.procs[l.p]);
  }

  lemma HandledActorOk(st: State, l: Label)
    requires Enabled(st, l) && Owned(st) && (l.RecordResult? || l.EndChain?)
    ensures ProcOk(Apply(st, l).events, Apply(st, l).procs[l.p])
  {
    hide StorageKey, ParamsDecode, SourceKey, FileResult, PayloadValue, IsAdmitted, SavedFor, Column, IsId,
      ApplyCreate, ApplyAdmin, ApplyWorker, ApplyOther;
    assert st.procs[l.p] in st.procs;
    assert ProcOk(st.events, st.procs[l.p]);
  }

  lemma RecoveryActorOk(st: State, l: Label)
    requires Enabled(st, l) && Owned(st) && (l.ResetDead? || l.LaunchRetry? || l.LaunchRequeue?)
    ensures ProcOk(Apply(st, l).events, Apply(st, l).procs[l.p])
  {
    hide StorageKey, ParamsDecode, SourceKey, FileResult, PayloadValue, IsAdmitted, SavedFor, Column, IsId, TaskOf,
      RootEvent, ChildEvent, Accepted, SubmissionKey, RemoveAt, ApplyCreate, ApplyWorker, ApplyChain, ApplyOther;
    assert st.procs[l.p] in st.procs;
    assert ProcOk(st.events, st.procs[l.p]);
  }

  lemma AdminActorOk(st: State, l: Label)
    requires Enabled(st, l) && Owned(st) && (l.ResetTask? || l.TakeDead? || l.ReadPending?)
    ensures Actor(st, l).value < |Apply(st, l).procs|
    ensures ProcOk(Apply(st, l).events, Apply(st, l).procs[Actor(st, l).value])
  {
    hide StorageKey, ParamsDecode, SourceKey, FileResult, PayloadValue, IsAdmitted, SavedFor, Column, IsId, TaskOf,
      RootEvent, ChildEvent, Accepted, SubmissionKey, RemoveAt, ApplyCreate, ApplyWorker, ApplyChain, ApplyOther;
  }

  lemma StartedActorOk(st: State, l: Label)
    requires Enabled(st, l) && Owned(st) && (l.Submit? || l.Dequeue?)
    ensures Actor(st, l).value < |Apply(st, l).procs|
    ensures ProcOk(Apply(st, l).events, Apply(st, l).procs[Actor(st, l).value])
  {
    hide StorageKey, ParamsDecode, SourceKey, FileResult, PayloadValue, SavedFor, Column, IsId, TaskOf, RootEvent,
      ChildEvent, Accepted, SubmissionKey, RemoveAt, ApplyCreate, ApplyWorker, ApplyChain;
    if l.Submit? {
      assert Accepted(l.sub, st.now);
    } else {
      assert st.ready[l.i] in st.ready;
    }
  }

  /** The moved process meets the facts of its new program counter. */
  lemma ActorOk(st: State, l: Label)
    requires Enabled(st, l) && Owned(st) && Actor(st, l).Some?
    ensures Actor(st, l).value < |Apply(st, l).procs|
    ensures ProcOk(Apply(st, l).events, Apply(st, l).procs[Actor(st, l).value])
  {
    hide Apply, Enabled, ProcOk, Owned;
    StepEffect(st, l);
    if l.SaveRoot? || l.RecordKey? {
      SavingActorOk(st, l);
    } else if IsCreate(l) {
      CreateActorOk(st, l);
    } else if l.GetTask? {
      ReaderActorOk(st, l);
    } else if IsWorker(l) {
      WorkerActorOk(st, l);
    } else if l.SaveChild? {
      SavedChildActorOk(st, l);
    } else if l.LaunchChild? {
      LaunchedChildActorOk(st, l);
    } else if l.RecordResult? || l.EndChain? {
      HandledActorOk(st, l);
    } else if l.Submit? || l.Dequeue? {
      StartedActorOk(st, l);
    } else if l.ResetTask? || l.TakeDead? || l.ReadPending? {
      AdminActorOk(st, l);
    } else {
      RecoveryActorOk(st, l);
    }
  }

  lemma OwnedStep(st: State, l: Label)
    requires Enabled(st, l) && Owned(st)
    ensures Owned(Apply(st, l))
  {
    hide Apply, Enabled, ProcOk, Actor;
    StepGrows(st, l);
    OneMoves(st, l);
    TokensStep(st, l);
    var next := Apply(st, l);
    forall q | q in next.procs
      ensures ProcOk(next.events, q)
    {
      var k :| 0 <= k < |next.procs| && next.procs[k] == q;
      if Actor(st, l) == Some(k) {
        ActorOk(st, l);
      } else {
        assert st.procs[k] in st.procs;
        ProcOkGrows(st.events, next.events, q);
      }
    }
  }
}
