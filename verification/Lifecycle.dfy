/** The task lifecycle as a step system. A state is the shared storage plus a program counter
    for every in-flight request and worker; a label is one database, queue or storage call of
    one of them, with its outcome. Any number of processes interleave. */
module Lifecycle {
  import opened Prelude
  import opened Json
  import opened JsonText
  import opened TaskWire
  import opened Records
  import opened Admission
  import opened Idempotency

  // ---- storage ----

  /** An events row with its payload column read back as a request. */
  datatype Event = Event(
    kind: string,
    req: TaskRequest,
    createdAt: int,
    status: Status,
    traceId: string,
    priority: Option<string>,
    parent: Option<Id>,
    scheduledAt: Option<int>,
    result: Option<Json>)

  datatype Ready = Ready(id: Id, priority: string)

  datatype Delayed = Delayed(id: Id, priority: string, at: int)

  // ---- handlers ----

  /** The part of a stored event that a worker run uses, read once at its start. */
  datatype Task = Task(id: Id, kind: string, payload: Json, next: Option<TaskRequest>, traceId: string, root: Id)

  function TaskOf(id: Id, e: Event): Task {
    Task(id, e.kind, PayloadValue(e.req), e.req.next, e.traceId, if e.parent.Some? then e.parent.value else id)
  }

  function FollowingOf(t: Task): Option<TaskRequest> {
    Named(t.next)
  }

  const RESIZE := "resize_image"
  const SCRAPE := "scrape_url"
  const REPORT := "generate_report"

  predicate Registered(kind: string) {
    kind == RESIZE || kind == SCRAPE || kind == REPORT
  }

  function OutputFormat(payload: Json): string {
    match TextField(payload, "output_format")
    case Some(f) => if f == "" then "jpeg" else f
    case None => "jpeg"
  }

  /** The object key a handler uploads under. */
  function StorageKey(id: Id, kind: string, payload: Json): string {
    if kind == RESIZE then "resized/" + (id + ("." + OutputFormat(payload)))
    else if kind == SCRAPE then "scraped/" + (id + ".json")
    else "reports/" + (id + ".csv")
  }

  function KeyOfTask(t: Task): string {
    StorageKey(t.id, t.kind, t.payload)
  }

  /** The parameters decode, and a scrape has a url. */
  predicate ParamsDecode(kind: string, payload: Json) {
    if kind == RESIZE then
      && TextField(payload, "image_url").Some? && IntField(payload, "width").Some? && IntField(payload, "height").Some?
      && TextField(payload, "mode").Some? && TextField(payload, "output_format").Some? && IntField(payload, "quality").Some?
    else if kind == SCRAPE then
      TextField(payload, "url").Some? && TextField(payload, "url").value != ""
    else
      kind == REPORT && TextField(payload, "scraped_key").Some?
  }

  function FileResult(key: string): Json {
    Obj([Member("key", Str(key)), Member("kind", Str("file"))])
  }

  /** The usable key of a stored result: kind "file" and a non-empty key. */
  function FileKey(result: Option<Json>): Option<string> {
    match result
    case None => None
    case Some(j) =>
      match (TextField(j, "kind"), TextField(j, "key"))
      case (Some(kind), Some(key)) => if kind == "file" && key != "" then Some(key) else None
      case _ => None
  }

  /** The object a report is built from: its own scraped_key, else its root's file result. */
  function SourceKey(events: map<Id, Event>, t: Task): Option<string> {
    match TextField(t.payload, "scraped_key")
    case None => None
    case Some(own) =>
      if own != "" then Some(own)
      else if t.root in events then FileKey(events[t.root].result)
      else None
  }

  // ---- processes ----

  /** A decoded, defaulted and admitted submission, with the raw payload bytes and the trace of
      the HTTP request it arrived in. */
  datatype Submission = Submission(req: TaskRequest, raw: string, traceId: string, traceparent: string)

  predicate Accepted(sub: Submission, now: int) {
    && (sub.req.kind == RESIZE || sub.req.kind == SCRAPE)
    && sub.req.priority != ""
    && sub.req.payload.Some?
    && IsObjectText(sub.raw) && ValueOf(sub.raw) == sub.req.payload
    && (sub.req.executeAt.Some? ==> now <= sub.req.executeAt.value)
  }

  function StoredRequest(sub: Submission): TaskRequest {
    Normal(sub.req.(traceContext := sub.traceparent))
  }

  function SubmissionKey(sub: Submission): string {
    KeyOf([sub.req.kind, sub.raw, sub.req.priority])
  }

  function RootEvent(sub: Submission, now: int): Event {
    Event(sub.req.kind, StoredRequest(sub), now, Pending, sub.traceId, Column(sub.req.priority), None, sub.req.executeAt, None)
  }

  function ChildEvent(t: Task, n: TaskRequest, now: int): Event {
    Event(n.kind, n, now, Pending, t.traceId, Column(n.priority), Some(t.root), n.executeAt, None)
  }

  datatype Proc =
    | CreateStart(sub: Submission)
    | CreateUnseen(sub: Submission)
    | CreateSaved(sub: Submission, id: Id)
    | CreateRecorded(sub: Submission, id: Id)
    | CreateUnqueued(id: Id)
    | RetryReset(id: Id, priority: string)
    | DeadTaken(id: Id)
    | RequeueRead(id: Id)
    | Holding(id: Id)
    | Skipping(id: Id)
    | Running(task: Task)
    | Sourced(task: Task, source: string)
    | Uploaded(task: Task)
    | Succeeded(task: Task, run: nat)
    | ChildSaved(task: Task, child: Id)
    | Finished(id: Id)
    | RunFailed(id: Id)
    | Ended(id: Id)
    | Done

  // ---- states ----

  datatype Entry =
    | Passed(key: string, at: int)
    | Recorded(key: string, id: Id, inserted: bool, at: int, expiresAt: int)
    | Duplicate(sub: Submission, id: Id)
    | Success(id: Id)

  /** What happened, kept for stating properties; no step reads it except to append to it.
      subs: the submission behind each key row. orphaned: events whose save or reset was
      followed by a failed call of the same handler, until a queue call for them goes through.
      lost: successful runs whose child could not be saved. creator: the run that saved each
      chained event. */
  datatype History = History(
    log: seq<Entry>,
    subs: map<string, Submission>,
    orphaned: set<Id>,
    lost: set<nat>,
    creator: map<Id, nat>)

  datatype State = State(
    now: int,
    events: map<Id, Event>,
    keys: map<string, KeyRow>,
    ready: seq<Ready>,
    delayed: seq<Delayed>,
    dead: set<Id>,
    objects: set<string>,
    procs: seq<Proc>,
    hist: History)

  const START := State(0, map[], map[], [], [], {}, {}, [], History([], map[], {}, {}, map[]))

  const THIRTY_DAYS := 30 * 24 * 3_600_000_000_000

  datatype Label =
    | Tick(d: nat)
    | Submit(sub: Submission)
    | CheckKey(p: nat, fault: bool)
    | SaveRoot(p: nat, id: Id, fault: bool)
    | RecordKey(p: nat, fault: bool)
    | LaunchRoot(p: nat, fault: bool)
    | MarkFailed(p: nat, fault: bool)
    | Cancel(id: Id)
    | ResetTask(id: Id)
    | TakeDead(id: Id, retry: bool)
    | ResetDead(p: nat, fault: bool)
    | LaunchRetry(p: nat, fault: bool)
    | ReadPending(id: Id)
    | LaunchRequeue(p: nat, fault: bool)
    | Promote(i: nat)
    | Dequeue(i: nat)
    | GetTask(p: nat, fault: bool)
    | Skip(p: nat)
    | FindSource(p: nat)
    | Upload(p: nat)
    | RecordResult(p: nat)
    | EndChain(p: nat)
    | SaveChild(p: nat, id: Id, fault: bool)
    | LaunchChild(p: nat, fault: bool)
    | Fail(p: nat)
    | WriteStatus(p: nat, status: Status)
    | Bury(p: nat)
    | PutBack(p: nat, command: Command)
    | Cleanup

  predicate IsCreate(l: Label) {
    l.CheckKey? || l.SaveRoot? || l.RecordKey? || l.LaunchRoot? || l.MarkFailed?
  }

  predicate IsAdmin(l: Label) {
    || l.Cancel? || l.ResetTask? || l.TakeDead? || l.ResetDead? || l.LaunchRetry? || l.ReadPending? || l.LaunchRequeue?
  }

  predicate IsWorker(l: Label) {
    || l.GetTask? || l.Skip? || l.FindSource? || l.Upload? || l.Fail? || l.WriteStatus? || l.PutBack?
  }

  predicate IsChain(l: Label) {
    l.RecordResult? || l.EndChain? || l.SaveChild? || l.LaunchChild?
  }

  predicate IsOther(l: Label) {
    l.Tick? || l.Submit? || l.Promote? || l.Dequeue? || l.Bury? || l.Cleanup?
  }

  predicate IsFault(l: Label) {
    match l
    case CheckKey(_, fault) => fault
    case SaveRoot(_, _, fault) => fault
    case RecordKey(_, fault) => fault
    case LaunchRoot(_, fault) => fault
    case MarkFailed(_, fault) => fault
    case ResetDead(_, fault) => fault
    case LaunchRetry(_, fault) => fault
    case LaunchRequeue(_, fault) => fault
    case GetTask(_, fault) => fault
    case SaveChild(_, _, fault) => fault
    case LaunchChild(_, fault) => fault
    case _ => false
  }

  /** Priority that a reset for retry returns. */
  function RetryPriority(e: Event): string {
    match e.priority case Some(p) => if p == "" then "medium" else p case None => "medium"
  }

  /** The queue call a requeue at this moment makes. */
  function RequeueCommand(e: Event, now: int): Command {
    var priority := if e.req.priority != "" then e.req.priority
                    else match e.priority case Some(p) => p case None => "medium";
    if e.req.executeAt.Some? && e.req.executeAt.value > now then Schedule(priority, e.req.executeAt.value)
    else Enqueue(priority)
  }

  predicate Retryable(s: Status) { s == Failed || s == Cancelled }

  predicate At(st: State, p: nat) { p < |st.procs| }

  predicate Enabled(st: State, l: Label) {
    match l
    case Tick(_) => true
    case Submit(sub) => Accepted(sub, st.now)
    case CheckKey(p, _) => At(st, p) && st.procs[p].CreateStart?
    case SaveRoot(p, id, _) => At(st, p) && st.procs[p].CreateUnseen? && IsId(id) && id !in st.events
    case RecordKey(p, _) => At(st, p) && st.procs[p].CreateSaved?
    case LaunchRoot(p, _) => At(st, p) && st.procs[p].CreateRecorded?
    case MarkFailed(p, _) => At(st, p) && st.procs[p].CreateUnqueued? && st.procs[p].id in st.events
    case Cancel(id) => id in st.events && st.events[id].status == Pending
    case ResetTask(id) => id in st.events && Retryable(st.events[id].status)
    case TakeDead(id, _) => id in st.dead
    case ResetDead(p, _) => At(st, p) && st.procs[p].DeadTaken?
    case LaunchRetry(p, _) => At(st, p) && st.procs[p].RetryReset?
    case ReadPending(id) => id in st.events && st.events[id].status == Pending
    case LaunchRequeue(p, _) => At(st, p) && st.procs[p].RequeueRead? && st.procs[p].id in st.events
    case Promote(i) => i < |st.delayed|
    case Dequeue(i) => i < |st.ready|
    case GetTask(p, _) => At(st, p) && st.procs[p].Holding? && st.procs[p].id in st.events
    case Skip(p) => At(st, p) && st.procs[p].Skipping?
    case FindSource(p) =>
      && At(st, p) && st.procs[p].Running?
      && st.procs[p].task.kind == REPORT && SourceKey(st.events, st.procs[p].task).Some?
    case Upload(p) =>
      && At(st, p)
      && (|| (st.procs[p].Running? && st.procs[p].task.kind in [RESIZE, SCRAPE]
              && ParamsDecode(st.procs[p].task.kind, st.procs[p].task.payload))
          || (st.procs[p].Sourced? && st.procs[p].source in st.objects))
    case RecordResult(p) => At(st, p) && st.procs[p].Uploaded? && st.procs[p].task.id in st.events
    case EndChain(p) => At(st, p) && st.procs[p].Succeeded? && FollowingOf(st.procs[p].task).None?
    case SaveChild(p, id, _) =>
      && At(st, p) && st.procs[p].Succeeded? && FollowingOf(st.procs[p].task).Some?
      && IsId(id) && id !in st.events
    case LaunchChild(p, _) => At(st, p) && st.procs[p].ChildSaved? && st.procs[p].task.next.Some?
    case Fail(p) => At(st, p) && (st.procs[p].Running? || st.procs[p].Sourced? || st.procs[p].Uploaded?)
    case WriteStatus(p, status) =>
      && At(st, p) && (st.procs[p].Finished? || st.procs[p].RunFailed?)
      && st.procs[p].id in st.events && status != Pending
    case Bury(p) => At(st, p) && (st.procs[p].RunFailed? || st.procs[p].Ended?)
    case PutBack(p, _) => At(st, p) && st.procs[p].RunFailed?
    case Cleanup => true
  }

  // ---- effects ----

  function Move(st: State, p: nat, proc: Proc): State
    requires At(st, p)
  {
    st.(procs := st.procs[p := proc])
  }

  function Spawn(st: State, proc: Proc): State {
    st.(procs := st.procs + [proc])
  }

  /** A queue call that goes through: a token for the event, which is then an orphan no more. */
  function Issue(st: State, id: Id, command: Command): State {
    var hist := st.hist.(orphaned := st.hist.orphaned - {id});
    match command
    case Enqueue(priority) => st.(ready := st.ready + [Ready(id, priority)], hist := hist)
    case Schedule(priority, at) => st.(delayed := st.delayed + [Delayed(id, priority, at)], hist := hist)
  }

  function Note(st: State, e: Entry): State {
    st.(hist := st.hist.(log := st.hist.log + [e]))
  }

  function Orphan(st: State, id: Id): State {
    st.(hist := st.hist.(orphaned := st.hist.orphaned + {id}))
  }

  function SetStatus(st: State, id: Id, status: Status): State
    requires id in st.events
  {
    st.(events := st.events[id := st.events[id].(status := status)])
  }

  function Reset(st: State, id: Id): State
    requires id in st.events
  {
    SetStatus(st, id, Pending)
  }

  function DoCheckKey(st: State, p: nat, fault: bool): State
    requires At(st, p) && st.procs[p].CreateStart?
  {
    var sub := st.procs[p].sub;
    var key := SubmissionKey(sub);
    if fault then Move(st, p, Done)
    else if key in st.keys && st.keys[key].expiresAt > st.now then
      Move(Note(st, Duplicate(sub, st.keys[key].eventId)), p, Done)
    else Move(Note(st, Passed(key, st.now)), p, CreateUnseen(sub))
  }

  function DoRecordKey(st: State, p: nat, fault: bool): State
    requires At(st, p) && st.procs[p].CreateSaved?
  {
    var sub := st.procs[p].sub;
    var id := st.procs[p].id;
    var key := SubmissionKey(sub);
    if fault then Orphan(Move(st, p, Done), id)
    else if key in st.keys then
      Move(Note(st, Recorded(key, id, false, st.now, st.keys[key].expiresAt)), p, CreateRecorded(sub, id))
    else
      var row := KeyRow(id, st.now + THIRTY_DAYS);
      var st1 := Move(Note(st, Recorded(key, id, true, st.now, row.expiresAt)), p, CreateRecorded(sub, id));
      st1.(keys := st.keys[key := row], hist := st1.hist.(subs := st.hist.subs[key := sub]))
  }

  function DoSaveChild(st: State, p: nat, id: Id, fault: bool): State
    requires At(st, p) && st.procs[p].Succeeded? && FollowingOf(st.procs[p].task).Some?
  {
    var t := st.procs[p].task;
    var run := st.procs[p].run;
    if fault then Move(st, p, RunFailed(t.id)).(hist := st.hist.(lost := st.hist.lost + {run}))
    else
      Move(st, p, ChildSaved(t, id)).(
      events := st.events[id := ChildEvent(t, FollowingOf(t).value, st.now)],
      hist := st.hist.(creator := st.hist.creator[id := run]))
  }

  /** The create handler's calls. */
  function ApplyCreate(st: State, l: Label): State
    requires Enabled(st, l) && IsCreate(l)
  {
    match l
    case CheckKey(p, fault) => DoCheckKey(st, p, fault)
    case SaveRoot(p, id, fault) =>
      var sub := st.procs[p].sub;
      if fault then Move(st, p, Done)
      else Move(st, p, CreateSaved(sub, id)).(events := st.events[id := RootEvent(sub, st.now)])
    case RecordKey(p, fault) => DoRecordKey(st, p, fault)
    case LaunchRoot(p, fault) =>
      var sub := st.procs[p].sub;
      var id := st.procs[p].id;
      if fault then Orphan(Move(st, p, CreateUnqueued(id)), id)
      else Issue(Move(st, p, Done), id, Launch(sub.req.priority, sub.req.executeAt))
    case MarkFailed(p, fault) =>
      var id := st.procs[p].id;
      if fault then Move(st, p, Done) else SetStatus(Move(st, p, Done), id, Failed)
  }

  /** The calls of cancel, retry and requeue. */
  function ApplyAdmin(st: State, l: Label): State
    requires Enabled(st, l) && IsAdmin(l)
  {
    match l
    case Cancel(id) => SetStatus(st, id, Cancelled)
    case ResetTask(id) => Spawn(Reset(st, id), RetryReset(id, RetryPriority(st.events[id])))
    case TakeDead(id, retry) => Spawn(st.(dead := st.dead - {id}), if retry then DeadTaken(id) else Done)
    case ResetDead(p, fault) =>
      var id := st.procs[p].id;
      if fault || id !in st.events || !Retryable(st.events[id].status) then Move(st, p, Done)
      else Reset(Move(st, p, RetryReset(id, RetryPriority(st.events[id]))), id)
    case LaunchRetry(p, fault) =>
      var id := st.procs[p].id;
      var priority := st.procs[p].priority;
      if fault then Orphan(Move(st, p, Done), id) else Issue(Move(st, p, Done), id, Enqueue(priority))
    case ReadPending(id) => Spawn(st, RequeueRead(id))
    case LaunchRequeue(p, fault) =>
      var id := st.procs[p].id;
      if fault then Move(st, p, Done) else Issue(Move(st, p, Done), id, RequeueCommand(st.events[id], st.now))
  }

  /** A worker's calls around a handler run and inside it, up to the upload. */
  function ApplyWorker(st: State, l: Label): State
    requires Enabled(st, l) && IsWorker(l)
  {
    match l
    case GetTask(p, fault) =>
      var id := st.procs[p].id;
      if fault then Move(st, p, RunFailed(id))
      else if st.events[id].status == Cancelled then Move(st, p, Skipping(id))
      else Move(st, p, Running(TaskOf(id, st.events[id])))
    case Skip(p) => Move(st, p, Done)
    case FindSource(p) => Move(st, p, Sourced(st.procs[p].task, SourceKey(st.events, st.procs[p].task).value))
    case Upload(p) =>
      var t := st.procs[p].task;
      Move(st, p, Uploaded(t)).(objects := st.objects + {KeyOfTask(t)})
    case Fail(p) => Move(st, p, RunFailed(st.procs[p].task.id))
    case WriteStatus(p, status) =>
      var id := st.procs[p].id;
      SetStatus(Move(st, p, Ended(id)), id, status)
    case PutBack(p, command) => Issue(Move(st, p, Done), st.procs[p].id, command)
  }

  /** Recording the result, and chaining after it. */
  function ApplyChain(st: State, l: Label): State
    requires Enabled(st, l) && IsChain(l)
  {
    match l
    case RecordResult(p) =>
      var t := st.procs[p].task;
      var st1 := Note(Move(st, p, Succeeded(t, |st.hist.log|)), Success(t.id));
      st1.(events := st.events[t.id := st.events[t.id].(result := Some(FileResult(KeyOfTask(t))))])
    case EndChain(p) => Move(st, p, Finished(st.procs[p].task.id))
    case SaveChild(p, id, fault) => DoSaveChild(st, p, id, fault)
    case LaunchChild(p, fault) =>
      var t := st.procs[p].task;
      var child := st.procs[p].child;
      if fault then Orphan(Move(st, p, RunFailed(t.id)), child)
      else Issue(Move(st, p, Finished(t.id)), child, Launch(t.next.value.priority, t.next.value.executeAt))
  }

  /** Time passing, arrivals, the queue's own moves and cleanup. */
  function ApplyOther(st: State, l: Label): State
    requires Enabled(st, l) && IsOther(l)
  {
    match l
    case Tick(d) => st.(now := st.now + d)
    case Submit(sub) => Spawn(st, CreateStart(sub))
    case Promote(i) =>
      var d := st.delayed[i];
      st.(delayed := RemoveAt(st.delayed, i), ready := st.ready + [Ready(d.id, d.priority)])
    case Dequeue(i) => Spawn(st.(ready := RemoveAt(st.ready, i)), Holding(st.ready[i].id))
    case Bury(p) => st.(dead := st.dead + {st.procs[p].id})
    case Cleanup => st.(keys := map k | k in st.keys && st.keys[k].expiresAt >= st.now :: st.keys[k])
  }

  /** The state after a step. Every effect is one call; a failed call changes nothing shared. */
  function Apply(st: State, l: Label): State
    requires Enabled(st, l)
  {
    if IsCreate(l) then ApplyCreate(st, l)
    else if IsAdmin(l) then ApplyAdmin(st, l)
    else if IsWorker(l) then ApplyWorker(st, l)
    else if IsChain(l) then ApplyChain(st, l)
    else ApplyOther(st, l)
  }

  // ---- runs ----

  predicate CanRun(st: State, ls: seq<Label>)
    decreases |ls|, 0
  {
    ls == [] || (CanRun(st, ls[..|ls| - 1]) && Enabled(After(st, ls[..|ls| - 1]), ls[|ls| - 1]))
  }

  function After(st: State, ls: seq<Label>): State
    requires CanRun(st, ls)
    decreases |ls|, 1
  {
    if ls == [] then st else Apply(After(st, ls[..|ls| - 1]), ls[|ls| - 1])
  }

  /** Some run leads from a to b. */
  ghost predicate Reach(a: State, b: State) {
    exists ls: seq<Label> :: CanRun(a, ls) && After(a, ls) == b
  }

  ghost predicate Reachable(st: State) {
    Reach(START, st)
  }

  lemma ReachSelf(a: State)
    ensures Reach(a, a)
  {
    assert CanRun(a, []) && After(a, []) == a;
  }

  lemma ReachStep(a: State, b: State, l: Label)
    requires Reach(a, b) && Enabled(b, l)
    ensures Reach(a, Apply(b, l))
  {
    var ls: seq<Label> :| CanRun(a, ls) && After(a, ls) == b;
    assert (ls + [l])[..|ls|] == ls;
    assert CanRun(a, ls + [l]) && After(a, ls + [l]) == Apply(b, l);
  }

  lemma {:induction false} RunConcat(a: State, ls: seq<Label>, ms: seq<Label>)
    requires CanRun(a, ls) && CanRun(After(a, ls), ms)
    ensures CanRun(a, ls + ms) && After(a, ls + ms) == After(After(a, ls), ms)
    decreases |ms|
  {
    hide Apply, Enabled;
    if ms == [] {
      assert ls + ms == ls;
    } else {
      RunConcat(a, ls, ms[..|ms| - 1]);
      assert (ls + ms)[..|ls + ms| - 1] == ls + ms[..|ms| - 1];
    }
  }

  lemma ReachTransitive(a: State, b: State, c: State)
    requires Reach(a, b) && Reach(b, c)
    ensures Reach(a, c)
  {
    var ls: seq<Label> :| CanRun(a, ls) && After(a, ls) == b;
    var ms: seq<Label> :| CanRun(b, ms) && After(b, ms) == c;
    RunConcat(a, ls, ms);
  }
}
