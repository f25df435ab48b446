/** What one step can change, field by field. */
module Effects {
  import opened Prelude
  import opened Records
  import opened Lifecycle

  /** The columns no statement updates. */
  ghost predicate SameColumns(a: Event, b: Event) {
    && a.kind == b.kind && a.req == b.req && a.createdAt == b.createdAt && a.traceId == b.traceId
    && a.priority == b.priority && a.parent == b.parent && a.scheduledAt == b.scheduledAt
  }

  ghost predicate Grown(a: map<Id, Event>, b: map<Id, Event>) {
    forall id :: id in a ==> id in b && SameColumns(a[id], b[id])
  }

  /** The process a label moves or starts, if any. */
  function Actor(st: State, l: Label): Option<nat> {
    match l
    case CheckKey(p, _) => Some(p)
    case SaveRoot(p, _, _) => Some(p)
    case RecordKey(p, _) => Some(p)
    case LaunchRoot(p, _) => Some(p)
    case MarkFailed(p, _) => Some(p)
    case ResetDead(p, _) => Some(p)
    case LaunchRetry(p, _) => Some(p)
    case LaunchRequeue(p, _) => Some(p)
    case GetTask(p, _) => Some(p)
    case Skip(p) => Some(p)
    case FindSource(p) => Some(p)
    case Upload(p) => Some(p)
    case RecordResult(p) => Some(p)
    case EndChain(p) => Some(p)
    case SaveChild(p, _, _) => Some(p)
    case LaunchChild(p, _) => Some(p)
    case Fail(p) => Some(p)
    case WriteStatus(p, _) => Some(p)
    case PutBack(p, _) => Some(p)
    case Submit(_) => Some(|st.procs|)
    case ResetTask(_) => Some(|st.procs|)
    case TakeDead(_, _) => Some(|st.procs|)
    case ReadPending(_) => Some(|st.procs|)
    case Dequeue(_) => Some(|st.procs|)
    case Tick(_) => None
    case Cancel(_) => None
    case Promote(_) => None
    case Bury(_) => None
    case Cleanup => None
  }

  /** The event a label issues a token for, with the queue call used. */
  function Issued(st: State, l: Label): Option<(Id, Command)>
    requires Enabled(st, l)
  {
    match l
    case LaunchRoot(p, fault) =>
      if fault then None
      else Some((st.procs[p].id, Launch(st.procs[p].sub.req.priority, st.procs[p].sub.req.executeAt)))
    case LaunchRetry(p, fault) => if fault then None else Some((st.procs[p].id, Enqueue(st.procs[p].priority)))
    case LaunchRequeue(p, fault) =>
      if fault then None else Some((st.procs[p].id, RequeueCommand(st.events[st.procs[p].id], st.now)))
    case LaunchChild(p, fault) =>
      if fault then None
      else Some((st.procs[p].child, Launch(st.procs[p].task.next.value.priority, st.procs[p].task.next.value.executeAt)))
    case PutBack(p, command) => Some((st.procs[p].id, command))
    case _ => None
  }

  /** The events that a failed call leaves without a queue call. */
  function Abandoned(st: State, l: Label): set<Id>
    requires Enabled(st, l)
  {
    match l
    case RecordKey(p, fault) => if fault then {st.procs[p].id} else {}
    case LaunchRoot(p, fault) => if fault then {st.procs[p].id} else {}
    case LaunchRetry(p, fault) => if fault then {st.procs[p].id} else {}
    case LaunchChild(p, fault) => if fault then {st.procs[p].child} else {}
    case _ => {}
  }

  // ---- the effect, field by field ----

  /** The processes after a step: the actor moved or was started. */
  ghost predicate ActorOnly(st: State, l: Label)
    requires Enabled(st, l)
  {
    match Actor(st, l)
    case None => Apply(st, l).procs == st.procs
    case Some(p) =>
      && p <= |st.procs| && p < |Apply(st, l).procs|
      && var q := Apply(st, l).procs[p];
         Apply(st, l).procs == if p < |st.procs| then st.procs[p := q] else st.procs + [q]
  }

  /** A process holds an uploaded object, a success or a saved child only by its own such step. */
  ghost predicate ClaimsOnly(st: State, l: Label)
    requires Enabled(st, l)
  {
    Actor(st, l).Some? && Actor(st, l).value < |Apply(st, l).procs| ==>
      var q := Apply(st, l).procs[Actor(st, l).value];
      (q.Uploaded? ==> l.Upload?) && (q.Succeeded? ==> l.RecordResult?) && (q.ChildSaved? ==> l.SaveChild?)
  }

  /** Tokens enter the queue by an issued call, move on promotion and leave on dequeue. */
  ghost predicate QueueMoves(st: State, l: Label)
    requires Enabled(st, l)
  {
    var next := Apply(st, l);
    if Issued(st, l).Some? then
      var (id, command) := Issued(st, l).value;
      next.ready == Issue(st, id, command).ready && next.delayed == Issue(st, id, command).delayed
    else if l.Promote? then
      && next.ready == st.ready + [Ready(st.delayed[l.i].id, st.delayed[l.i].priority)]
      && next.delayed == RemoveAt(st.delayed, l.i)
    else if l.Dequeue? then
      next.ready == RemoveAt(st.ready, l.i) && next.delayed == st.delayed
    else next.ready == st.ready && next.delayed == st.delayed
  }

  /** A failed call marks an event orphaned, a queue call that goes through unmarks it. */
  ghost predicate OrphanMoves(st: State, l: Label)
    requires Enabled(st, l)
  {
    Apply(st, l).hist.orphaned
    == match Issued(st, l)
       case Some((id, _)) => st.hist.orphaned - {id}
       case None => st.hist.orphaned + Abandoned(st, l)
  }

  ghost predicate ResultsKept(a: map<Id, Event>, b: map<Id, Event>) {
    forall id :: id in a ==> id in b && b[id].result == a[id].result
  }

  /** Everything else, as far as a label leaves it alone. */
  ghost predicate Keeping(st: State, l: Label)
    requires Enabled(st, l)
  {
    var next := Apply(st, l);
    && st.now <= next.now && (!l.Tick? ==> next.now == st.now)
    && (!l.RecordKey? && !l.Cleanup? ==> next.keys == st.keys)
    && (!l.RecordKey? ==> next.hist.subs == st.hist.subs)
    && (!l.SaveChild? ==> next.hist.creator == st.hist.creator && next.hist.lost == st.hist.lost)
    && st.objects <= next.objects
    && (!l.RecordResult? ==> ResultsKept(st.events, next.events))
  }

  /** The log grows by at most one entry: a run when a worker records a result, otherwise only an
      entry of the create handler. */
  ghost predicate LogMoves(st: State, l: Label)
    requires Enabled(st, l)
  {
    var log := Apply(st, l).hist.log;
    if l.CheckKey? || l.RecordKey? || l.RecordResult? then
      && (log == st.hist.log || exists e :: log == st.hist.log + [e] && (e.Success? <==> l.RecordResult?))
      && (l.RecordResult? ==> log != st.hist.log)
    else log == st.hist.log
  }

  /** The rows, the processes and what they hold. */
  ghost predicate RowEffect(st: State, l: Label)
    requires Enabled(st, l)
  {
    && Grown(st.events, Apply(st, l).events)
    && (!l.SaveRoot? && !l.SaveChild? ==> Apply(st, l).events.Keys == st.events.Keys)
    && ActorOnly(st, l)
    && ClaimsOnly(st, l)
  }

  /** Queue, history, keys, objects and time. */
  ghost predicate SharedEffect(st: State, l: Label)
    requires Enabled(st, l)
  {
    QueueMoves(st, l) && OrphanMoves(st, l) && Keeping(st, l) && LogMoves(st, l)
  }

  lemma KeyRowEffect(st: State, l: Label)
    requires Enabled(st, l) && (l.CheckKey? || l.RecordKey?)
    ensures RowEffect(st, l)
  {
    hide StorageKey, ParamsDecode, SourceKey, FileResult, Accepted, IsId, SubmissionKey, RootEvent, ChildEvent,
      TaskOf, KeyOfTask, Launch, RequeueCommand, RetryPriority, RemoveAt, Retryable, ApplyAdmin, ApplyWorker,
      ApplyChain, ApplyOther;
  }

  lemma SavedRowEffect(st: State, l: Label)
    requires Enabled(st, l) && (l.SaveRoot? || l.LaunchRoot? || l.MarkFailed?)
    ensures RowEffect(st, l)
  {
    hide StorageKey, ParamsDecode, SourceKey, FileResult, Accepted, IsId, SubmissionKey, RootEvent, ChildEvent,
      TaskOf, KeyOfTask, Launch, RequeueCommand, RetryPriority, RemoveAt, Retryable, ApplyAdmin, ApplyWorker,
      ApplyChain, ApplyOther;
  }

  lemma CreateRowEffect(st: State, l: Label)
    requires Enabled(st, l) && IsCreate(l)
    ensures RowEffect(st, l)
  {
    hide Apply, Enabled, RowEffect;
    if l.CheckKey? || l.RecordKey? { KeyRowEffect(st, l); } else { SavedRowEffect(st, l); }
  }

  lemma AdminStartsEffect(st: State, l: Label)
    requires Enabled(st, l) && (l.Cancel? || l.ResetTask? || l.TakeDead? || l.ReadPending?)
    ensures RowEffect(st, l)
  {
    hide StorageKey, ParamsDecode, SourceKey, FileResult, Accepted, IsId, SubmissionKey, RootEvent, ChildEvent,
      TaskOf, KeyOfTask, Launch, RequeueCommand, RetryPriority, RemoveAt, Retryable, ApplyCreate, ApplyWorker, ApplyChain, ApplyOther;
  }

  lemma AdminMovesEffect(st: State, l: Label)
    requires Enabled(st, l) && (l.ResetDead? || l.LaunchRetry? || l.LaunchRequeue?)
    ensures RowEffect(st, l)
  {
    hide StorageKey, ParamsDecode, SourceKey, FileResult, Accepted, IsId, SubmissionKey, RootEvent, ChildEvent,
      TaskOf, KeyOfTask, Launch, RequeueCommand, RetryPriority, RemoveAt, Retryable, ApplyCreate, ApplyWorker, ApplyChain, ApplyOther;
  }

  lemma AdminRowEffect(st: State, l: Label)
    requires Enabled(st, l) && IsAdmin(l)
    ensures RowEffect(st, l)
  {
    hide Apply, Enabled, RowEffect;
    if l.Cancel? || l.ResetTask? || l.TakeDead? || l.ReadPending? {
      AdminStartsEffect(st, l);
    } else {
      AdminMovesEffect(st, l);
    }
  }

  lemma WorkerRowEffect(st: State, l: Label)
    requires Enabled(st, l) && IsWorker(l)
    ensures RowEffect(st, l)
  {
    hide StorageKey, ParamsDecode, SourceKey, FileResult, Accepted, IsId, SubmissionKey, RootEvent, ChildEvent,
      TaskOf, KeyOfTask, Launch, RequeueCommand, RetryPriority, RemoveAt, Retryable, ApplyCreate, ApplyAdmin,
      ApplyChain, ApplyOther;
  }

  lemma ChainRowEffect(st: State, l: Label)
    requires Enabled(st, l) && IsChain(l)
    ensures RowEffect(st, l)
  {
    hide StorageKey, ParamsDecode, SourceKey, FileResult, Accepted, IsId, SubmissionKey, RootEvent, ChildEvent,
      TaskOf, KeyOfTask, Launch, RequeueCommand, RetryPriority, RemoveAt, Retryable, ApplyCreate, ApplyAdmin,
      ApplyWorker, ApplyOther;
  }

  lemma OtherRowEffect(st: State, l: Label)
    requires Enabled(st, l) && IsOther(l)
    ensures RowEffect(st, l)
  {
    hide StorageKey, ParamsDecode, SourceKey, FileResult, Accepted, IsId, SubmissionKey, RootEvent, ChildEvent,
      TaskOf, KeyOfTask, Launch, RequeueCommand, RetryPriority, RemoveAt, Retryable, ApplyCreate, ApplyAdmin,
      ApplyWorker, ApplyChain;
  }

  lemma CreateQueueEffect(st: State, l: Label)
    requires Enabled(st, l) && IsCreate(l)
    ensures QueueMoves(st, l) && OrphanMoves(st, l)
  {
    hide StorageKey, ParamsDecode, SourceKey, FileResult, Accepted, IsId, SubmissionKey, RootEvent, ChildEvent,
      TaskOf, KeyOfTask, Launch, RequeueCommand, RetryPriority, RemoveAt, Retryable, ApplyAdmin, ApplyWorker, ApplyChain, ApplyOther;
  }

  lemma KeyTableEffect(st: State, l: Label)
    requires Enabled(st, l) && (l.CheckKey? || l.RecordKey?)
    ensures Keeping(st, l) && LogMoves(st, l)
  {
    hide StorageKey, ParamsDecode, SourceKey, FileResult, Accepted, IsId, SubmissionKey, RootEvent, ChildEvent,
      TaskOf, KeyOfTask, Launch, RequeueCommand, RetryPriority, RemoveAt, Retryable, ApplyAdmin, ApplyWorker, ApplyChain, ApplyOther;
  }

  lemma CreateTableEffect(st: State, l: Label)
    requires Enabled(st, l) && (l.SaveRoot? || l.LaunchRoot? || l.MarkFailed?)
    ensures Keeping(st, l) && LogMoves(st, l)
  {
    hide StorageKey, ParamsDecode, SourceKey, FileResult, Accepted, IsId, SubmissionKey, RootEvent, ChildEvent,
      TaskOf, KeyOfTask, Launch, RequeueCommand, RetryPriority, RemoveAt, Retryable, ApplyAdmin, ApplyWorker, ApplyChain, ApplyOther;
  }

  lemma CreateSharedEffect(st: State, l: Label)
    requires Enabled(st, l) && IsCreate(l)
    ensures SharedEffect(st, l)
  {
    hide Apply, Enabled, QueueMoves, OrphanMoves, Keeping, LogMoves;
    CreateQueueEffect(st, l);
    if l.CheckKey? || l.RecordKey? { KeyTableEffect(st, l); } else { CreateTableEffect(st, l); }
  }

  lemma AdminSharedEffect(st: State, l: Label)
    requires Enabled(st, l) && IsAdmin(l)
    ensures SharedEffect(st, l)
  {
    hide StorageKey, ParamsDecode, SourceKey, FileResult, Accepted, IsId, SubmissionKey, RootEvent, ChildEvent,
      TaskOf, KeyOfTask, Launch, RequeueCommand, RetryPriority, RemoveAt, Retryable, ApplyCreate, ApplyWorker,
      ApplyChain, ApplyOther;
  }

  lemma WorkerSharedEffect(st: State, l: Label)
    requires Enabled(st, l) && IsWorker(l)
    ensures SharedEffect(st, l)
  {
    hide StorageKey, ParamsDecode, SourceKey, FileResult, Accepted, IsId, SubmissionKey, RootEvent, ChildEvent,
      TaskOf, KeyOfTask, Launch, RequeueCommand, RetryPriority, RemoveAt, Retryable, ApplyCreate, ApplyAdmin,
      ApplyChain, ApplyOther;
  }

  lemma ChainSharedEffect(st: State, l: Label)
    requires Enabled(st, l) && IsChain(l)
    ensures SharedEffect(st, l)
  {
    hide StorageKey, ParamsDecode, SourceKey, FileResult, Accepted, IsId, SubmissionKey, RootEvent, ChildEvent,
      TaskOf, KeyOfTask, Launch, RequeueCommand, RetryPriority, RemoveAt, Retryable, ApplyCreate, ApplyAdmin,
      ApplyWorker, ApplyOther;
  }

  lemma OtherSharedEffect(st: State, l: Label)
    requires Enabled(st, l) && IsOther(l)
    ensures SharedEffect(st, l)
  {
    hide StorageKey, ParamsDecode, SourceKey, FileResult, Accepted, IsId, SubmissionKey, RootEvent, ChildEvent,
      TaskOf, KeyOfTask, Launch, RequeueCommand, RetryPriority, RemoveAt, Retryable, ApplyCreate, ApplyAdmin,
      ApplyWorker, ApplyChain;
  }

  /** What any step changes. */
  lemma StepEffect(st: State, l: Label)
    requires Enabled(st, l)
    ensures RowEffect(st, l) && SharedEffect(st, l)
  {
    hide Apply, Enabled, RowEffect, SharedEffect;
    if IsCreate(l) {
      CreateRowEffect(st, l);
      CreateSharedEffect(st, l);
    } else if IsAdmin(l) {
      AdminRowEffect(st, l);
      AdminSharedEffect(st, l);
    } else if IsWorker(l) {
      WorkerRowEffect(st, l);
      WorkerSharedEffect(st, l);
    } else if IsChain(l) {
      ChainRowEffect(st, l);
      ChainSharedEffect(st, l);
    } else {
      OtherRowEffect(st, l);
      OtherSharedEffect(st, l);
    }
  }
}
