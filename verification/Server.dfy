/** The program itself over the shared services: the create handler, the worker store, chaining,
    the task handlers and the admin handlers. Between any two calls every other process may take
    any number of steps (Interfere); each method is shown to move its own process along the step
    system, so the guarantees proved there hold of it. */
module Server {
  import opened Prelude
  import opened Json
  import opened JsonText
  import opened TaskWire
  import opened Records
  import opened Admission
  import opened Idempotency
  import opened EventStore
  import opened Lifecycle
  import opened Effects
  import opened Ownership
  import opened Families
  import opened Results
  import opened Spawning
  import opened Stranding
  import opened Dedup
  import opened Guarantees
  import opened Storage
  import Report

  // ---- rows against events ----

  function StoredRequestOf(row: Row): TaskRequest {
    match Decode(row.payload) case Some(r) => r case None => BLANK
  }

  function View(row: Row): Event {
    Event(row.kind, StoredRequestOf(row), row.createdAt, row.status, row.traceId, row.priority, row.parent, row.scheduledAt, row.result)
  }

  function Views(rows: map<Id, Row>): map<Id, Event> {
    map id | id in rows :: View(rows[id])
  }

  /** The payload column is the marshalled form of what it decodes to. */
  ghost predicate CanonicalRow(row: Row) {
    row.payload == Marshal(StoredRequestOf(row))
  }

  ghost predicate Canonical(rows: map<Id, Row>) {
    forall id :: id in rows ==> CanonicalRow(rows[id])
  }

  lemma ViewsUpdate(rows: map<Id, Row>, id: Id, row: Row)
    ensures Views(rows[id := row]) == Views(rows)[id := View(row)]
  {
  }

  /** A row saved for a request reads back as that request, normalised. */
  lemma NewRowView(r: TaskRequest, traceId: string, parent: string, now: int)
    ensures CanonicalRow(NewRow(r.kind, Marshal(r), traceId, r.priority, parent, r.executeAt, now))
    ensures View(NewRow(r.kind, Marshal(r), traceId, r.priority, parent, r.executeAt, now))
         == Event(r.kind, Normal(r), now, Pending, traceId, Column(r.priority), Column(parent), r.executeAt, None)
  {
    hide Marshal, Decode;
    RoundTrip(r);
    MarshalNormal(r);
  }

  /** A step taken: l was enabled in a and led to b. */
  ghost predicate Did(a: State, l: Label, b: State) {
    Enabled(a, l) && Apply(a, l) == b
  }

  /** Running on from a state the invariant holds in. */
  ghost predicate Onward(a: State, b: State) {
    Reach(a, b) && Inv(b)
  }

  lemma OnwardSelf(a: State)
    requires Inv(a)
    ensures Onward(a, a)
  {
    hide Inv;
    ReachSelf(a);
  }

  lemma OnwardStep(a: State, b: State, l: Label, c: State)
    requires Onward(a, b) && Did(b, l, c)
    ensures Onward(a, c)
  {
    hide Inv, Enabled, Apply;
    ReachStep(a, b, l);
    InvStep(b, l);
  }

  lemma OnwardJoin(a: State, b: State, c: State)
    requires Onward(a, b) && Onward(b, c)
    ensures Onward(a, c)
  {
    hide Inv;
    ReachTransitive(a, b, c);
  }

  /** Events survive with their columns. */
  lemma OnwardGrows(a: State, b: State)
    requires Onward(a, b)
    ensures Grown(a.events, b.events)
  {
    hide Inv;
    var ls: seq<Label> :| CanRun(a, ls) && After(a, ls) == b;
    RunGrows(a, ls);
  }

  lemma StepOnward(a: State, l: Label, b: State)
    requires Inv(a) && Did(a, l, b)
    ensures Onward(a, b)
  {
    hide Inv, Enabled, Apply;
    OnwardSelf(a);
    OnwardStep(a, a, l, b);
  }

  lemma SavedByMe(st: State, me: nat, sub: Submission, id: Id)
    requires Inv(st) && me < |st.procs| && st.procs[me] == CreateRecorded(sub, id)
    ensures SavedFor(st.events, sub, id)
  {
    assert st.procs[me] in st.procs && ProcOk(st.events, st.procs[me]);
  }

  /** A saved event stays saved over a stretch of run and one more step. */
  lemma StillSaved(saved: State, before: State, st: State, l: Label, sub: Submission, id: Id)
    requires SavedFor(saved.events, sub, id) && Onward(saved, before) && Did(before, l, st)
    ensures SavedFor(st.events, sub, id)
  {
    hide Inv, Enabled, Apply;
    OnwardGrows(saved, before);
    StepGrows(before, l);
  }

  lemma StillSavedOnward(saved: State, st: State, sub: Submission, id: Id)
    requires SavedFor(saved.events, sub, id) && Onward(saved, st)
    ensures SavedFor(st.events, sub, id)
  {
    hide Inv;
    OnwardGrows(saved, st);
  }

  /** A live key row found by the check names an event with the same request. */
  lemma SeenIsSame(before: State, me: nat, sub: Submission, st: State)
    requires Inv(before) && me < |before.procs| && before.procs[me] == CreateStart(sub)
    requires Inv(st) && SubmissionKey(sub) in st.keys
    ensures st.keys[SubmissionKey(sub)].eventId in st.events
    ensures SameRequest(st.events[st.keys[SubmissionKey(sub)].eventId], sub)
  {
    hide SubmissionKey, FamiliesOk, SpawnOk, ResultsOk, NoneStranded;
    assert before.procs[me] in before.procs && ProcOk(before.events, before.procs[me]);
    KeyNamesSameRequest(st, sub);
  }

  /** The worker task a run works from and the step system's task agree. */
  ghost predicate Represents(task: WorkerTask, t: Task) {
    && task.id == t.id && task.kind == t.kind && task.payload == t.payload
    && MetaText(task, "root_task_id") == t.root
    && MetaText(task, "trace_id") == t.traceId
    && ("next" in task.meta <==> t.next.Some?)
    && (t.next.Some? ==> task.meta["next"] == Marshal(t.next.value) && Decode(task.meta["next"]) == t.next)
    && t.id != "" && t.root != ""
  }

  /** What the worker store projects from a canonical row represents the row's task. */
  lemma ProjectionRepresents(id: Id, row: Row)
    requires CanonicalRow(row) && id != "" && row.parent != Some("")
    ensures Represents(Project(id, row), TaskOf(id, View(row)))
  {
    hide Marshal, Open, Project;
    var r := StoredRequestOf(row);
    ProjectStored(id, row, r);
    ProjectFields(id, row);
    RoundTrip(r);
    if r.next.Some? {
      RoundTrip(r.next.value);
      NormalIsNormal(r);
    }
  }

  lemma ProjectFields(id: Id, row: Row)
    ensures Project(id, row).id == id && Project(id, row).kind == row.kind && Project(id, row).status == row.status
  {
  }

  lemma NormalIsNormal(r: TaskRequest)
    requires Normal(r) == r && r.next.Some?
    ensures Normal(r.next.value) == r.next.value
  {
  }

  /** The token that a queue call leaves behind. */
  predicate InQueue(st: State, id: Id, command: Command) {
    match command
    case Enqueue(priority) => Ready(id, priority) in st.ready
    case Schedule(priority, at) => Delayed(id, priority, at) in st.delayed
  }

  lemma IssueQueues(st: State, id: Id, command: Command)
    ensures InQueue(Issue(st, id, command), id, command)
  {
    match command
    case Enqueue(priority) => assert Issue(st, id, command).ready[|st.ready|] == Ready(id, priority);
    case Schedule(priority, at) => assert Issue(st, id, command).delayed[|st.delayed|] == Delayed(id, priority, at);
  }

  /** The token a fresh event gets: at its own priority, at once or at its own time. */
  predicate Launched(st: State, id: Id, priority: string, executeAt: Option<int>) {
    match executeAt
    case None => Ready(id, priority) in st.ready
    case Some(t) => Delayed(id, priority, t) in st.delayed
  }

  lemma LaunchQueues(st: State, id: Id, priority: string, executeAt: Option<int>)
    ensures Launched(Issue(st, id, Launch(priority, executeAt)), id, priority, executeAt)
  {
    IssueQueues(st, id, Launch(priority, executeAt));
  }

  /** The columns of a chained event: the link's own, in the family and trace of the task before. */
  ghost predicate ChildColumns(e: Event, t: Task, n: TaskRequest) {
    && e.kind == n.kind && e.req == n
    && e.traceId == t.traceId && e.parent == Some(t.root)
    && e.priority == (if n.priority == "" then None else Some(n.priority))
    && e.scheduledAt == n.executeAt
  }

  ghost predicate NewChild(st: State, before: State, t: Task, n: TaskRequest, child: Id) {
    child !in before.events && child in st.events && ChildColumns(st.events[child], t, n)
  }

  /** A successful run left exactly its following link behind: a new event with the link's
      columns, queued as the link asks; or nothing when no link with a type follows. */
  ghost predicate ChainedTo(st: State, before: State, t: Task, child: Option<Id>) {
    if t.next.Some? && t.next.value.kind != "" then
      var n := t.next.value;
      && child.Some? && NewChild(st, before, t, n, child.value)
      && Launched(st, child.value, n.priority, n.executeAt)
    else child == None
  }

  /** A check that found a live row for a key, naming this event. */
  ghost predicate CheckedLive(start: State, end: State, p: nat, key: string, id: Id) {
    exists a, b ::
      && Did(a, CheckKey(p, false), b) && Onward(start, a) && Onward(b, end)
      && key in a.keys && a.keys[key].expiresAt > a.now && a.keys[key].eventId == id
  }

  lemma CheckIsLive(start: State, a: State, b: State, p: nat, key: string, id: Id)
    requires Onward(start, a) && Did(a, CheckKey(p, false), b) && Onward(b, b)
    requires key in a.keys && a.keys[key].expiresAt > a.now && a.keys[key].eventId == id
    ensures CheckedLive(start, b, p, key, id)
  {
    hide Inv, Enabled, Apply;
  }

  /** A reset that found the task neither failed nor cancelled. */
  ghost predicate FoundUnretryable(start: State, end: State, p: nat, id: Id) {
    exists a, b ::
      && Did(a, ResetDead(p, false), b) && Onward(start, a) && Onward(b, end)
      && id in a.events && (a.events[id].status == Pending || a.events[id].status == Processed)
  }

  /** Objects are never removed. */
  lemma {:induction false} RunKeepsObjects(st: State, ls: seq<Label>)
    requires CanRun(st, ls)
    ensures st.objects <= After(st, ls).objects
    decreases |ls|
  {
    hide Apply, Enabled;
    if ls != [] {
      RunKeepsObjects(st, ls[..|ls| - 1]);
      StepEffect(After(st, ls[..|ls| - 1]), ls[|ls| - 1]);
    }
  }

  lemma OnwardKeepsObjects(a: State, b: State)
    requires Onward(a, b)
    ensures a.objects <= b.objects
  {
    hide Inv;
    var ls: seq<Label> :| CanRun(a, ls) && After(a, ls) == b;
    RunKeepsObjects(a, ls);
  }

  /** Events that appear during a run carry a time of that run. */
  lemma {:induction false} RunDatesEvents(st: State, ls: seq<Label>)
    requires CanRun(st, ls)
    ensures st.now <= After(st, ls).now
    ensures forall id :: id in After(st, ls).events && id !in st.events ==>
              st.now <= After(st, ls).events[id].createdAt <= After(st, ls).now
    decreases |ls|
  {
    hide Apply, Enabled, Actor;
    if ls != [] {
      var mid := After(st, ls[..|ls| - 1]);
      var l := ls[|ls| - 1];
      RunDatesEvents(st, ls[..|ls| - 1]);
      StepEffect(mid, l);
      forall id | id in Apply(mid, l).events && id !in st.events
        ensures st.now <= Apply(mid, l).events[id].createdAt <= Apply(mid, l).now
      {
        if id !in mid.events {
          NewEvents(mid, l, id);
        }
      }
    }
  }

  lemma OnwardDatesEvents(a: State, b: State, id: Id)
    requires Onward(a, b) && id in b.events && id !in a.events
    ensures a.now <= b.events[id].createdAt <= b.now
  {
    hide Inv;
    var ls: seq<Label> :| CanRun(a, ls) && After(a, ls) == b;
    RunDatesEvents(a, ls);
  }

  /** A call of process p that failed. */
  ghost predicate FailedCall(a: State, l: Label, b: State, p: nat) {
    Did(a, l, b) && IsFault(l) && Actor(a, l) == Some(p)
  }

  /** Somewhere between the two states a call of process p failed. */
  ghost predicate Faulted(start: State, end: State, p: nat) {
    exists a, l, b :: FailedCall(a, l, b, p) && Onward(start, a) && Onward(b, end)
  }

  lemma FaultedHere(start: State, a: State, l: Label, b: State, p: nat)
    requires Onward(start, a) && FailedCall(a, l, b, p)
    ensures Onward(b, b) && Faulted(start, b, p)
  {
    hide Inv, Enabled, Apply, IsFault, Actor;
    OnwardStep(start, a, l, b);
    OnwardSelf(b);
  }

  lemma FaultedUntil(start: State, mid: State, end: State, p: nat)
    requires Faulted(start, mid, p) && Onward(mid, end)
    ensures Faulted(start, end, p)
  {
    hide Inv, FailedCall;
    var a, l, b :| FailedCall(a, l, b, p) && Onward(start, a) && Onward(b, mid);
    OnwardJoin(b, mid, end);
  }

  datatype RunError =
    | BadParams | FetchFailed | StorageUnavailable | ResultNotSaved
    | NoUsableSource(why: SourceError) | DownloadFailed | BadPage
    | NoHandler | ChildNotSaved | ChildNotQueued

  /** The row of an accepted request: every column its own, the payload the marshalled request under
      the trace it arrived in, and no parent. */
  predicate RootRow(row: Row, req: TaskRequest, traceId: string, traceparent: string) {
    && row.kind == req.kind && row.payload == Marshal(req.(traceContext := traceparent))
    && row.traceId == traceId && row.priority == Some(req.priority)
    && row.parent == None && row.scheduledAt == req.executeAt
  }

  lemma SavedIsRootRow(rows: map<Id, Row>, sub: Submission, id: Id)
    requires Canonical(rows) && SavedFor(Views(rows), sub, id) && sub.req.priority != ""
    ensures id in rows && RootRow(rows[id], sub.req, sub.traceId, sub.traceparent)
  {
    hide Marshal, Decode;
    MarshalNormal(sub.req.(traceContext := sub.traceparent));
  }

  /** What the platform calls. */
  datatype Service = EventRows | KeyRows | Tokens | Objects

  datatype SourceError = NoParent | ParentNotFetched(e: DbError) | NoFileResult

  datatype CreateResponse = Refused(why: Refusal) | DuplicateOf(id: Id) | AcceptedAs(id: Id) | InternalError

  datatype AdminResponse = BadRequest | NotFound | Conflict | ServerError | Issued(command: Command) | Okay

  class Platform {
    const events: EventTable
    const keys: KeyTable
    const queue: TaskQueue
    const store: ObjectStore
    var now: int
    ghost var procs: seq<Proc>
    ghost var hist: History
    /** Services that stay up, and events whose rows no other process touches. */
    ghost const steady: set<Service>
    ghost const untouched: set<Id>

    constructor (ghost steady: set<Service>, ghost untouched: set<Id>)
      ensures Abs() == START && Valid()
      ensures this.steady == steady && this.untouched == untouched
      ensures fresh(events) && fresh(keys) && fresh(queue) && fresh(store)
    {
      events := new EventTable();
      keys := new KeyTable();
      queue := new TaskQueue();
      store := new ObjectStore();
      now := 0;
      procs := [];
      hist := START.hist;
      this.steady := steady;
      this.untouched := untouched;
      new;
      InvStart();
      assert Views(map[]) == map[];
    }

    /** The step system's view of the services and of all processes. */
    ghost function Abs(): State
      reads this, events, keys, queue, store
    {
      State(now, Views(events.rows), keys.rows, queue.ready, queue.delayed, queue.dead, store.objects, procs, hist)
    }

    ghost predicate Valid()
      reads this, events, keys, queue, store
    {
      && Canonical(events.rows) && Inv(Abs())
      && (EventRows in steady ==> events.up) && (KeyRows in steady ==> keys.up)
      && (Tokens in steady ==> queue.up) && (Objects in steady ==> store.up)
    }

    /** The other processes run for a while: any steps of theirs, none of this one's, and no
        change to untouched rows. */
    method Interfere(ghost me: nat)
      requires Valid() && me < |procs|
      modifies this, events, keys, queue, store
      ensures Valid() && Onward(old(Abs()), Abs())
      ensures me < |procs| && procs[me] == old(procs[me])
      ensures forall id :: id in untouched && id in old(events.rows) ==> id in events.rows && events.rows[id] == old(events.rows[id])
    {
      OnwardSelf(Abs());
    }

    // ---- create ----

    /** The read-only idempotency check. */
    method IsProcessed(ghost me: nat, ghost sub: Submission, key: string) returns (r: Result<Option<Id>, DbError>)
      requires Valid() && me < |procs| && procs[me] == CreateStart(sub) && key == SubmissionKey(sub)
      modifies `procs, `hist
      ensures Did(old(Abs()), CheckKey(me, r.Err?), Abs())
      ensures events.rows == old(events.rows)
      ensures r.Err? <==> !keys.up
      ensures r.Ok? ==> (r.value.Some? <==> key in keys.rows && keys.rows[key].expiresAt > now)
      ensures r.Ok? && r.value.None? ==> me < |procs| && procs[me] == CreateUnseen(sub)
      ensures r.Ok? && r.value.Some? ==> key in keys.rows && keys.rows[key].eventId == r.value.value
    {
      hide Inv, Marshal, SubmissionKey;
      var row := keys.GetIdempotencyKey(key, now);
      match row
      case Ok(k) =>
        hist := hist.(log := hist.log + [Duplicate(sub, k.eventId)]);
        procs := procs[me := Done];
        r := Ok(Some(k.eventId));
      case Err(NoRows) =>
        hist := hist.(log := hist.log + [Passed(key, now)]);
        procs := procs[me := CreateUnseen(sub)];
        r := Ok(None);
      case Err(Unavailable) =>
        procs := procs[me := Done];
        r := Err(Unavailable);
    }

    method SaveRootEvent(ghost me: nat, ghost sub: Submission, id: Id, req: TaskRequest, traceId: string) returns (ok: bool)
      requires Valid() && me < |procs| && procs[me] == CreateUnseen(sub) && IsId(id) && id !in events.rows
      requires req == sub.req.(traceContext := sub.traceparent) && traceId == sub.traceId
      modifies `procs, `hist, events`rows
      ensures Did(old(Abs()), SaveRoot(me, id, !ok), Abs()) && Canonical(events.rows)
      ensures ok == old(events.up)
      ensures ok ==> me < |procs| && procs[me] == CreateSaved(sub, id)
    {
      hide Inv, Marshal;
      ok := events.SaveProcessedEvent(id, req.kind, Marshal(req), traceId, req.priority, "", req.executeAt, now);
      if ok {
        procs := procs[me := CreateSaved(sub, id)];
        NewRowView(req, traceId, "", now);
        ViewsUpdate(old(events.rows), id, events.rows[id]);
      } else {
        procs := procs[me := Done];
      }
    }

    /** Records the key unless a row for it exists; reports whether one did. */
    method CheckAndRecordToDB(ghost me: nat, ghost sub: Submission, key: string, id: Id) returns (r: Result<bool, DbError>)
      requires Valid() && me < |procs| && procs[me] == CreateSaved(sub, id) && key == SubmissionKey(sub)
      modifies `procs, `hist, keys`rows
      ensures Did(old(Abs()), RecordKey(me, r.Err?), Abs())
      ensures r.Err? <==> !old(keys.up)
      ensures r.Ok? ==> me < |procs| && procs[me] == CreateRecorded(sub, id) && r.value == (key in old(keys.rows))
      ensures r == Ok(false) ==> keys.rows == old(keys.rows)[key := KeyRow(id, now + 2_592_000_000_000_000)]
      ensures r != Ok(false) ==> keys.rows == old(keys.rows)
    {
      hide Inv, Marshal, SubmissionKey;
      var row := KeyRow(id, now + THIRTY_DAYS);
      var affected := keys.CreateIdempotencyKey(key, row);
      match affected
      case Err(e) =>
        hist := hist.(orphaned := hist.orphaned + {id});
        procs := procs[me := Done];
        r := Err(e);
      case Ok(n) =>
        if n == 0 {
          hist := hist.(log := hist.log + [Recorded(key, id, false, now, keys.rows[key].expiresAt)]);
        } else {
          hist := hist.(log := hist.log + [Recorded(key, id, true, now, row.expiresAt)], subs := hist.subs[key := sub]);
        }
        procs := procs[me := CreateRecorded(sub, id)];
        r := Ok(n == 0);
    }

    method LaunchCall(id: Id, priority: string, executeAt: Option<int>) returns (ok: bool)
      modifies queue`ready, queue`delayed
      ensures ok == queue.up
      ensures !ok ==> queue.ready == old(queue.ready) && queue.delayed == old(queue.delayed)
      ensures ok ==>
                match executeAt
                case None => queue.ready == old(queue.ready) + [Ready(id, priority)] && queue.delayed == old(queue.delayed)
                case Some(t) => queue.delayed == old(queue.delayed) + [Delayed(id, priority, t)] && queue.ready == old(queue.ready)
    {
      if executeAt.Some? {
        ok := queue.ScheduleAt(id, priority, executeAt.value);
      } else {
        ok := queue.EnqueueWithPriority(id, priority);
      }
    }

    method EnqueueRoot(ghost me: nat, ghost sub: Submission, id: Id, priority: string, executeAt: Option<int>) returns (ok: bool)
      requires Valid() && me < |procs| && procs[me] == CreateRecorded(sub, id)
      requires priority == sub.req.priority && executeAt == sub.req.executeAt
      modifies `procs, `hist, queue`ready, queue`delayed
      ensures Did(old(Abs()), LaunchRoot(me, !ok), Abs())
      ensures ok == old(queue.up)
      ensures ok ==> Launched(Abs(), id, priority, executeAt)
      ensures !ok ==> me < |procs| && procs[me] == CreateUnqueued(id)
    {
      hide Inv, Marshal;
      ok := LaunchCall(id, priority, executeAt);
      if ok {
        LaunchQueues(old(Abs()).(procs := procs[me := Done]), id, priority, executeAt);
        hist := hist.(orphaned := hist.orphaned - {id});
        procs := procs[me := Done];
      } else {
        hist := hist.(orphaned := hist.orphaned + {id});
        procs := procs[me := CreateUnqueued(id)];
      }
    }

    method MarkCreateFailed(ghost me: nat, id: Id)
      requires Valid() && me < |procs| && procs[me] == CreateUnqueued(id)
      modifies `procs, `hist, events`rows
      ensures Did(old(Abs()), MarkFailed(me, !old(events.up)), Abs())
      ensures Canonical(events.rows)
      ensures old(events.up) ==> id in events.rows && events.rows[id].status == Failed
    {
      hide Marshal, FamiliesOk, SpawnOk, ResultsOk, DedupOk;
      assert procs[me] in procs && ProcOk(Abs().events, procs[me]);
      var ok := events.UpdateEventStatus(id, Failed);
      procs := procs[me := Done];
      if ok {
        ViewsUpdate(old(events.rows), id, events.rows[id]);
      }
      assert Did(old(Abs()), MarkFailed(me, !ok), Abs());
    }

    /** A fresh UUID stands for any id no event has; this one is longer than all of them. */
    method NewId() returns (id: Id)
      ensures IsId(id) && id !in events.rows
    {
      var rest := events.rows.Keys;
      id := "u";
      while rest != {}
        invariant IsId(id)
        invariant forall k :: k in events.rows && k !in rest ==> |k| < |id|
        decreases rest
      {
        var k :| k in rest;
        if |k| >= |id| {
          id := seq(|k| + 1, i => 'u');
        }
        rest := rest - {k};
      }
    }

    /** The checks on a decoded body, in order, with the default priority assigned on the way. */
    method AdmitRequest(body: Option<Json>) returns (r: Result<TaskRequest, Refusal>)
      ensures r == Admit(body, now)
    {
      hide Decode, Validate;
      if body.None? { return Err(BadBody); }
      var decoded := Decode(body.value);
      if decoded.None? { return Err(BadBody); }
      var req := decoded.value;
      if req.kind == "" { return Err(MissingType); }
      if req.kind == "generate_report" { return Err(DirectReport); }
      if req.payload.None? { return Err(MissingPayload); }
      if req.executeAt.Some? && req.executeAt.value < now { return Err(PastExecuteAt); }
      if req.priority == "" {
        req := req.(priority := "medium");
      }
      var verdict := Validate(req.kind, req.payload.value);
      if verdict != Verdict.Valid { return Err(InvalidPayload(verdict)); }
      if req.next.Some? {
        if req.next.value.kind == "" { return Err(NextTypeEmpty); }
        if req.next.value.payload.Some? {
          verdict := Validate(req.next.value.kind, req.next.value.payload.value);
          if verdict != Verdict.Valid { return Err(InvalidNext(verdict)); }
        }
      }
      r := Ok(req);
    }

    lemma AdmittedIsAccepted(body: Option<Json>, raw: string, traceId: string, traceparent: string)
      requires Admit(body, now).Ok? && ValueOf(raw) == Decode(body.value).value.payload
      ensures Accepted(Submission(Admit(body, now).value, raw, traceId, traceparent), now)
    {
      AdmittedShape(body, now);
    }

    /** POST /tasks. Refusals change nothing and are exactly the failed checks; a duplicate answer
        names an event with the same request; an accepted id is a new event holding the request,
        queued as the request asks; an internal error follows a failed call of this request. */
    method HandleCreateTask(body: Option<Json>, raw: string, traceId: string, traceparent: string)
      returns (resp: CreateResponse)
      requires Valid()
      requires body.Some? && Decode(body.value).Some? && Decode(body.value).value.payload.Some? ==>
                 ValueOf(raw) == Decode(body.value).value.payload
      modifies this, events, keys, queue, store
      ensures Valid() && Onward(old(Abs()), Abs())
      ensures resp.Refused? <==> Admit(body, old(now)).Err?
      ensures resp.Refused? ==> Admit(body, old(now)).error == resp.why && Abs() == old(Abs())
      ensures resp.DuplicateOf? ==>
                && resp.id in Abs().events
                && SameRequest(Abs().events[resp.id], Submission(Admit(body, old(now)).value, raw, traceId, traceparent))
                && var req := Admit(body, old(now)).value;
                   CheckedLive(old(Abs()), Abs(), |old(procs)|, KeyOf([req.kind, raw, req.priority]), resp.id)
      ensures resp.AcceptedAs? ==>
                var req := Admit(body, old(now)).value;
                && resp.id !in old(events.rows) && resp.id in events.rows
                && RootRow(events.rows[resp.id], req, traceId, traceparent)
                && old(now) <= events.rows[resp.id].createdAt <= now
                && Launched(Abs(), resp.id, req.priority, req.executeAt)
      ensures resp.InternalError? ==> Faulted(old(Abs()), Abs(), |old(procs)|)
      ensures {EventRows, KeyRows, Tokens} <= steady ==> !resp.InternalError?
      ensures resp.InternalError? && {EventRows, KeyRows} <= steady ==>
                exists id :: id !in old(events.rows) && id in events.rows && events.rows[id].status == Failed
                  && RootRow(events.rows[id], Admit(body, old(now)).value, traceId, traceparent)
    {
      hide Inv, Apply, Enabled, Admit, Accepted, SubmissionKey, Marshal, Decode, ValueOf, SameRequest, SavedFor,
        Launched, Faulted, CheckedLive, RootRow;
      ghost var start := Abs();
      OnwardSelf(start);
      var admitted := AdmitRequest(body);
      if admitted.Err? { return Refused(admitted.error); }
      var req := admitted.value;
      ghost var sub := Submission(req, raw, traceId, traceparent);
      assert Accepted(sub, now) by { DecodedPayload(body); AdmittedIsAccepted(body, raw, traceId, traceparent); }
      ghost var me := |procs|;
      procs := procs + [CreateStart(sub)];
      Submitted(start, sub, Abs());
      OnwardStep(start, start, Submit(sub), Abs());

      var key := GenerateIdempotencyKey([req.kind, raw, req.priority]);
      assert key == SubmissionKey(sub) by { KeyIs(sub); }
      resp := CreateFrom(start, me, sub, req, key, traceId, traceparent);
      AcceptedHasPriority(sub, start.now);
      if resp.AcceptedAs? {
        SavedIsRootRow(events.rows, sub, resp.id);
        SavedExists(Abs(), sub, resp.id);
        OnwardDatesEvents(start, Abs(), resp.id);
      } else if resp.InternalError? && {EventRows, KeyRows} <= steady {
        ghost var id :| id !in start.events && SavedFor(Abs().events, sub, id) && id in events.rows && events.rows[id].status == Failed;
        SavedIsRootRow(events.rows, sub, id);
      }
    }

    lemma SavedExists(st: State, sub: Submission, id: Id)
      requires SavedFor(st.events, sub, id)
      ensures id in st.events
    {
    }

    lemma AcceptedHasPriority(sub: Submission, now: int)
      requires Accepted(sub, now)
      ensures sub.req.priority != ""
    {
    }

    lemma KeyIs(sub: Submission)
      ensures SubmissionKey(sub) == KeyOf([sub.req.kind, sub.raw, sub.req.priority])
    {
    }

    lemma DecodedPayload(body: Option<Json>)
      requires Admit(body, now).Ok?
      ensures body.Some? && Decode(body.value).Some? && Decode(body.value).value.payload.Some?
    {
      hide Decode, Validate;
    }

    lemma Submitted(a: State, sub: Submission, b: State)
      requires Accepted(sub, a.now) && b == a.(procs := a.procs + [CreateStart(sub)])
      ensures Did(a, Submit(sub), b)
    {
    }

    /** The create handler from its idempotency check on. */
    method CreateFrom(ghost start: State, ghost me: nat, ghost sub: Submission, req: TaskRequest, key: string,
                      traceId: string, traceparent: string)
      returns (resp: CreateResponse)
      requires Valid() && Onward(start, Abs()) && me < |procs| && procs[me] == CreateStart(sub)
      requires req == sub.req && key == SubmissionKey(sub) && traceId == sub.traceId && traceparent == sub.traceparent
      modifies this, events, keys, queue, store
      ensures Valid() && Onward(start, Abs())
      ensures !resp.Refused?
      ensures resp.DuplicateOf? ==> resp.id in Abs().events && SameRequest(Abs().events[resp.id], sub)
      ensures resp.DuplicateOf? ==> CheckedLive(start, Abs(), me, key, resp.id)
      ensures resp.AcceptedAs? ==>
                && resp.id !in start.events && SavedFor(Abs().events, sub, resp.id)
                && Launched(Abs(), resp.id, req.priority, req.executeAt)
      ensures resp.InternalError? ==> Faulted(start, Abs(), me)
      ensures {EventRows, KeyRows, Tokens} <= steady ==> !resp.InternalError?
      ensures resp.InternalError? && {EventRows, KeyRows} <= steady ==>
                exists id :: id !in start.events && SavedFor(Abs().events, sub, id) && id in events.rows && events.rows[id].status == Failed
    {
      hide Inv, Apply, Enabled, SubmissionKey, Marshal, SameRequest, SavedFor, Decode, Launched, Faulted, CheckedLive;
      Interfere(me);
      OnwardJoin(start, old(Abs()), Abs());
      ghost var before := Abs();
      var seen := IsProcessed(me, sub, key);
      OnwardStep(start, before, CheckKey(me, seen.Err?), Abs());
      if seen.Err? {
        FaultedHere(start, before, CheckKey(me, true), Abs(), me);
        return InternalError;
      }
      if seen.value.Some? {
        SeenIsSame(before, me, sub, Abs());
        OnwardSelf(Abs());
        CheckIsLive(start, before, Abs(), me, key, seen.value.value);
        return DuplicateOf(seen.value.value);
      }
      resp := CreateUnseenFrom(start, me, sub, req, key, traceId, traceparent);
    }

    /** The create handler once its check passed: save the event under a fresh id. */
    method CreateUnseenFrom(ghost start: State, ghost me: nat, ghost sub: Submission, req: TaskRequest, key: string,
                            traceId: string, traceparent: string)
      returns (resp: CreateResponse)
      requires Valid() && Onward(start, Abs()) && me < |procs| && procs[me] == CreateUnseen(sub)
      requires req == sub.req && key == SubmissionKey(sub) && traceId == sub.traceId && traceparent == sub.traceparent
      modifies this, events, keys, queue, store
      ensures Valid() && Onward(start, Abs())
      ensures resp.AcceptedAs? || resp.InternalError?
      ensures resp.AcceptedAs? ==>
                && resp.id !in start.events && SavedFor(Abs().events, sub, resp.id)
                && Launched(Abs(), resp.id, req.priority, req.executeAt)
      ensures resp.InternalError? ==> Faulted(start, Abs(), me)
      ensures {EventRows, KeyRows, Tokens} <= steady ==> !resp.InternalError?
      ensures resp.InternalError? && {EventRows, KeyRows} <= steady ==>
                exists id :: id !in start.events && SavedFor(Abs().events, sub, id) && id in events.rows && events.rows[id].status == Failed
    {
      hide Inv, Apply, Enabled, SubmissionKey, Marshal, SavedFor, Decode, Launched, Faulted;
      Interfere(me);
      OnwardJoin(start, old(Abs()), Abs());
      ghost var before := Abs();
      var id := NewId();
      OnwardGrows(start, before);
      var saved := SaveRootEvent(me, sub, id, req.(traceContext := traceparent), traceId);
      OnwardStep(start, before, SaveRoot(me, id, !saved), Abs());
      if !saved {
        FaultedHere(start, before, SaveRoot(me, id, true), Abs(), me);
        return InternalError;
      }
      resp := CreateFromSaved(start, me, sub, req, key, id);
    }

    /** The create handler once its event is saved: record the key, then queue the event. */
    method CreateFromSaved(ghost start: State, ghost me: nat, ghost sub: Submission, req: TaskRequest, key: string, id: Id)
      returns (resp: CreateResponse)
      requires Valid() && Onward(start, Abs()) && me < |procs| && procs[me] == CreateSaved(sub, id)
      requires req == sub.req && key == SubmissionKey(sub)
      modifies this, events, keys, queue, store
      ensures Valid() && Onward(start, Abs())
      ensures resp == InternalError || resp == AcceptedAs(id)
      ensures resp.AcceptedAs? ==> SavedFor(Abs().events, sub, id) && Launched(Abs(), id, req.priority, req.executeAt)
      ensures resp.InternalError? ==> Faulted(start, Abs(), me)
      ensures {KeyRows, Tokens} <= steady ==> !resp.InternalError?
      ensures resp.InternalError? && {EventRows, KeyRows} <= steady ==>
                SavedFor(Abs().events, sub, id) && id in events.rows && events.rows[id].status == Failed
    {
      hide Inv, Apply, Enabled, SubmissionKey, Marshal, SavedFor, Decode, Launched, Faulted;
      Interfere(me);
      OnwardJoin(start, old(Abs()), Abs());
      ghost var before := Abs();
      var recorded := CheckAndRecordToDB(me, sub, key, id);
      OnwardStep(start, before, RecordKey(me, recorded.Err?), Abs());
      if recorded.Err? {
        FaultedHere(start, before, RecordKey(me, true), Abs(), me);
        return InternalError;
      }
      // The answer of the insert is not looked at: an overlapping duplicate goes on as well.
      resp := CreateFromRecorded(start, me, sub, req, id);
    }

    /** The create handler's queue call, and its compensation when that fails. */
    method CreateFromRecorded(ghost start: State, ghost me: nat, ghost sub: Submission, req: TaskRequest, id: Id)
      returns (resp: CreateResponse)
      requires Valid() && Onward(start, Abs()) && me < |procs| && procs[me] == CreateRecorded(sub, id) && req == sub.req
      modifies this, events, keys, queue, store
      ensures Valid() && Onward(start, Abs())
      ensures resp == InternalError || resp == AcceptedAs(id)
      ensures resp.AcceptedAs? ==> SavedFor(Abs().events, sub, id) && Launched(Abs(), id, req.priority, req.executeAt)
      ensures resp.InternalError? ==> Faulted(start, Abs(), me)
      ensures Tokens in steady ==> !resp.InternalError?
      ensures resp.InternalError? && EventRows in steady ==>
                SavedFor(Abs().events, sub, id) && id in events.rows && events.rows[id].status == Failed
    {
      hide Inv, Apply, Enabled, SubmissionKey, Marshal, SavedFor, Decode, Launched, Faulted;
      Interfere(me);
      OnwardJoin(start, old(Abs()), Abs());
      ghost var before := Abs();
      SavedByMe(before, me, sub, id);
      OnwardSelf(before);
      var queued := EnqueueRoot(me, sub, id, req.priority, req.executeAt);
      OnwardStep(start, before, LaunchRoot(me, !queued), Abs());
      if queued {
        StillSaved(before, before, Abs(), LaunchRoot(me, false), sub, id);
        return AcceptedAs(id);
      }
      FaultedHere(start, before, LaunchRoot(me, true), Abs(), me);
      OnwardStep(before, before, LaunchRoot(me, true), Abs());
      CreateNotQueued(start, before, me, sub, id);
      resp := InternalError;
    }

    /** After a failed queue call the saved task is marked failed, if that write goes through. */
    method CreateNotQueued(ghost start: State, ghost saved: State, ghost me: nat, ghost sub: Submission, id: Id)
      requires Valid() && Onward(start, Abs()) && Onward(saved, Abs()) && Faulted(start, Abs(), me)
      requires SavedFor(saved.events, sub, id)
      requires me < |procs| && procs[me] == CreateUnqueued(id)
      modifies this, events, keys, queue, store
      ensures Valid() && Onward(start, Abs()) && Faulted(start, Abs(), me)
      ensures EventRows in steady ==>
                SavedFor(Abs().events, sub, id) && id in events.rows && events.rows[id].status == Failed
    {
      hide Inv, Apply, Enabled, SubmissionKey, Marshal, SavedFor, Decode, Faulted;
      Interfere(me);
      OnwardJoin(start, old(Abs()), Abs());
      OnwardJoin(saved, old(Abs()), Abs());
      FaultedUntil(start, old(Abs()), Abs(), me);
      ghost var before := Abs();
      ghost var fault := !events.up;
      MarkCreateFailed(me, id);
      OnwardStep(start, before, MarkFailed(me, fault), Abs());
      StepOnward(before, MarkFailed(me, fault), Abs());
      OnwardJoin(saved, before, Abs());
      StillSavedOnward(saved, Abs(), sub, id);
      FaultedUntil(start, before, Abs(), me);
    }

    // ---- the worker store ----

    /** Fetches a task for a worker that holds its token. A cancelled task is to be skipped. */
    method GetTask(ghost me: nat, id: Id) returns (r: Result<WorkerTask, DbError>)
      requires Valid() && me < |procs| && procs[me] == Holding(id)
      modifies `procs, `hist
      ensures Did(old(Abs()), Label.GetTask(me, r.Err?), Abs())
      ensures r.Err? <==> !events.up
      ensures r.Ok? ==> id in events.rows && r.value == Project(id, events.rows[id])
      ensures r.Ok? && r.value.status == Cancelled ==> me < |procs| && procs[me] == Skipping(id)
      ensures r.Ok? && r.value.status != Cancelled ==>
                && me < |procs| && procs[me] == Running(TaskOf(id, Abs().events[id]))
                && Represents(r.value, TaskOf(id, Abs().events[id]))
      ensures r.Err? ==> me < |procs| && procs[me] == RunFailed(id)
    {
      hide Marshal, Inv, Apply, Enabled, CanonicalRow, Decode, Project, Represents;
      ghost var before := Abs();
      HeldExists(before, me, id);
      var got := events.GetEventByID(id);
      if got.Err? {
        assert got == Err(got.error) && got.error == Unavailable;
        procs := procs[me := RunFailed(id)];
        HeldFailed(before, me, id, Abs());
        return Err(got.error);
      }
      var event := got.value;
      var task := ProjectRow(id, event);
      ProjectFields(id, event);
      ProjectionRepresents(id, event);
      procs := procs[me := if event.status == Cancelled then Skipping(id) else Running(TaskOf(id, View(event)))];
      HeldRead(before, me, id, Abs());
      r := Ok(task);
    }

    lemma HeldFailed(before: State, me: nat, id: Id, st: State)
      requires me < |before.procs| && before.procs[me] == Holding(id) && id in before.events
      requires st == before.(procs := before.procs[me := RunFailed(id)])
      ensures Did(before, Label.GetTask(me, true), st)
    {
    }

    lemma HeldRead(before: State, me: nat, id: Id, st: State)
      requires me < |before.procs| && before.procs[me] == Holding(id) && id in before.events
      requires var e := before.events[id];
               st == before.(procs := before.procs[me := if e.status == Cancelled then Skipping(id) else Running(TaskOf(id, e))])
      ensures Did(before, Label.GetTask(me, false), st)
    {
    }

    lemma HeldExists(st: State, me: nat, id: Id)
      requires Inv(st) && me < |st.procs| && st.procs[me] == Holding(id)
      ensures id in st.events && id != "" && st.events[id].parent != Some("")
    {
      assert st.procs[me] in st.procs && ProcOk(st.events, st.procs[me]);
      assert MemberOk(st.events, st.hist.creator, id, st.events[id]);
    }

    // ---- task handlers ----

    /** Gives a run up with an error. */
    ghost method FailRun(me: nat, t: Task)
      requires Valid() && me < |procs|
      requires procs[me] == Running(t) || (procs[me].Sourced? && procs[me].task == t) || procs[me] == Uploaded(t)
      modifies this`procs
      ensures Valid() && Onward(old(Abs()), Abs())
      ensures me < |procs| && procs[me] == RunFailed(t.id)
    {
      hide Inv, Marshal;
      ghost var before := Abs();
      procs := procs[me := RunFailed(t.id)];
      assert Did(before, Fail(me), Abs());
      StepOnward(before, Fail(me), Abs());
    }

    /** The object is stored under this key and the event's result says so. */
    ghost predicate StoredAs(id: Id, key: string)
      reads this, events, store
    {
      && key in store.objects && id in events.rows
      && events.rows[id].result == Some(Obj([Member("key", Str(key)), Member("kind", Str("file"))]))
    }

    /** The tail of every handler: upload under the task's key, then record the key. */
    method UploadAndRecord(ghost me: nat, ghost t: Task, id: Id, key: string) returns (failure: Option<RunError>)
      requires Valid() && me < |procs| && id == t.id && key == KeyOfTask(t)
      requires || (procs[me] == Running(t) && t.kind in [RESIZE, SCRAPE] && ParamsDecode(t.kind, t.payload))
               || (procs[me].Sourced? && procs[me].task == t && procs[me].source in store.objects)
      modifies this, events, keys, queue, store
      ensures Valid() && Onward(old(Abs()), Abs())
      ensures failure.None? ==> me < |procs| && procs[me].Succeeded? && procs[me].task == t
      ensures failure.Some? ==> me < |procs| && procs[me] == RunFailed(t.id)
      ensures failure.Some? ==> failure.value == StorageUnavailable || failure.value == ResultNotSaved
      ensures failure.None? ==> StoredAs(t.id, key)
      ensures Objects in steady ==> failure != Some(StorageUnavailable)
      ensures EventRows in steady ==> failure != Some(ResultNotSaved)
    {
      hide Inv, Marshal, StorageKey, ParamsDecode, Decode, Apply, Enabled;
      ghost var start := Abs();
      OnwardSelf(start);
      var uploaded := store.Upload(key);
      if !uploaded {
        FailRun(me, t);
        return Some(StorageUnavailable);
      }
      procs := procs[me := Uploaded(t)];
      UploadedStep(start, me, t, Abs());
      OnwardStep(start, start, Label.Upload(me), Abs());
      label stored:
      Interfere(me);
      OnwardJoin(start, old@stored(Abs()), Abs());
      ghost var before := Abs();
      failure := RecordUploaded(me, t, id, key);
      OnwardJoin(start, before, Abs());
    }

    /** Records the uploaded key as the task's result. */
    method RecordUploaded(ghost me: nat, ghost t: Task, id: Id, key: string) returns (failure: Option<RunError>)
      requires Valid() && me < |procs| && id == t.id && key == KeyOfTask(t) && procs[me] == Uploaded(t)
      modifies `procs, `hist, events`rows
      ensures Valid() && Onward(old(Abs()), Abs())
      ensures failure.None? ==> me < |procs| && procs[me].Succeeded? && procs[me].task == t
      ensures failure.Some? ==> me < |procs| && procs[me] == RunFailed(t.id)
      ensures failure.Some? ==> failure.value == ResultNotSaved
      ensures failure.None? <==> events.up
      ensures failure.None? ==> StoredAs(t.id, key)
    {
      hide Inv, Marshal, StorageKey, Decode, Apply, Enabled;
      ghost var before := Abs();
      UploaderExists(before, me, t);
      ghost var rows := events.rows;
      var saved := events.UpdateEventResult(id, FileResult(key));
      if !saved {
        assert Abs() == before;
        FailRun(me, t);
        return Some(ResultNotSaved);
      }
      ResultView(rows, id, FileResult(key));
      procs := procs[me := Succeeded(t, |hist.log|)];
      hist := hist.(log := hist.log + [Success(id)]);
      RecordedStep(before, me, t, Abs());
      StepOnward(before, Label.RecordResult(me), Abs());
      failure := None;
    }

    lemma UploadedStep(before: State, me: nat, t: Task, st: State)
      requires me < |before.procs|
      requires || (before.procs[me] == Running(t) && t.kind in [RESIZE, SCRAPE] && ParamsDecode(t.kind, t.payload))
               || (before.procs[me].Sourced? && before.procs[me].task == t && before.procs[me].source in before.objects)
      requires st == before.(objects := before.objects + {KeyOfTask(t)}, procs := before.procs[me := Uploaded(t)])
      ensures Did(before, Label.Upload(me), st)
    {
      hide StorageKey, ParamsDecode;
    }

    lemma RecordedStep(before: State, me: nat, t: Task, st: State)
      requires me < |before.procs| && before.procs[me] == Uploaded(t) && t.id in before.events
      requires st == before.(events := before.events[t.id := before.events[t.id].(result := Some(FileResult(KeyOfTask(t))))],
                             procs := before.procs[me := Succeeded(t, |before.hist.log|)],
                             hist := before.hist.(log := before.hist.log + [Success(t.id)]))
      ensures Did(before, Label.RecordResult(me), st)
    {
      hide StorageKey;
    }

    lemma UploaderExists(st: State, me: nat, t: Task)
      requires Inv(st) && me < |st.procs| && st.procs[me] == Uploaded(t)
      ensures t.id in st.events && KeyOfTask(t) in st.objects
    {
      hide StorageKey, FamiliesOk, SpawnOk, DedupOk, NoneStranded;
      assert st.procs[me] in st.procs && ProcOk(st.events, st.procs[me]) && ProcHasResult(st, st.procs[me]);
    }

    lemma ResultView(rows: map<Id, Row>, id: Id, result: Json)
      requires id in rows && Canonical(rows)
      ensures Canonical(rows[id := rows[id].(result := Some(result))])
      ensures Views(rows[id := rows[id].(result := Some(result))]) == Views(rows)[id := Views(rows)[id].(result := Some(result))]
    {
      hide Marshal;
      ViewsUpdate(rows, id, rows[id].(result := Some(result)));
    }

    /** resize_image: the defaults, then the tail. Whether downloading and converting the image went
        well is given. */
    method ResizeImage(ghost me: nat, task: WorkerTask, ghost t: Task, fetched: bool) returns (failure: Option<RunError>)
      requires Valid() && me < |procs| && procs[me] == Running(t) && Represents(task, t) && t.kind == RESIZE
      modifies this, events, keys, queue, store
      ensures Valid() && Onward(old(Abs()), Abs())
      ensures failure.None? ==> me < |procs| && procs[me].Succeeded? && procs[me].task == t
      ensures failure.Some? ==> me < |procs| && procs[me] == RunFailed(t.id)
      ensures failure == Some(BadParams) <==>
                || TextField(t.payload, "image_url").None? || IntField(t.payload, "width").None?
                || IntField(t.payload, "height").None? || TextField(t.payload, "mode").None?
                || TextField(t.payload, "output_format").None? || IntField(t.payload, "quality").None?
      ensures failure == Some(FetchFailed) <==> ParamsDecode(t.kind, t.payload) && !fetched
      ensures failure.None? ==>
                var format := TextField(t.payload, "output_format");
                && format.Some?
                && StoredAs(t.id, "resized/" + (t.id + ("." + (if format.value == "" then "jpeg" else format.value))))
      ensures failure.Some? ==> failure.value in [BadParams, FetchFailed, StorageUnavailable, ResultNotSaved]
      ensures Objects in steady ==> failure != Some(StorageUnavailable)
      ensures EventRows in steady ==> failure != Some(ResultNotSaved)
    {
      hide Inv, Marshal, Decode;
      var imageUrl := TextField(task.payload, "image_url");
      var width := IntField(task.payload, "width");
      var height := IntField(task.payload, "height");
      var mode := TextField(task.payload, "mode");
      var format := TextField(task.payload, "output_format");
      var quality := IntField(task.payload, "quality");
      if imageUrl.None? || width.None? || height.None? || mode.None? || format.None? || quality.None? {
        FailRun(me, t);
        return Some(BadParams);
      }
      var outputFormat := format.value;
      if outputFormat == "" {
        outputFormat := "jpeg";
      }
      if !fetched {
        FailRun(me, t);
        return Some(FetchFailed);
      }
      var key := "resized/" + (task.id + ("." + outputFormat));
      failure := UploadAndRecord(me, t, task.id, key);
    }

    /** scrape_url: a url, then the tail. Whether fetching and parsing the page went well is given. */
    method ScrapeUrl(ghost me: nat, task: WorkerTask, ghost t: Task, fetched: bool) returns (failure: Option<RunError>)
      requires Valid() && me < |procs| && procs[me] == Running(t) && Represents(task, t) && t.kind == SCRAPE
      modifies this, events, keys, queue, store
      ensures Valid() && Onward(old(Abs()), Abs())
      ensures failure.None? ==> me < |procs| && procs[me].Succeeded? && procs[me].task == t
      ensures failure.Some? ==> me < |procs| && procs[me] == RunFailed(t.id)
      ensures failure == Some(BadParams) <==> TextField(t.payload, "url").None? || TextField(t.payload, "url").value == ""
      ensures failure == Some(FetchFailed) <==> ParamsDecode(t.kind, t.payload) && !fetched
      ensures failure.None? ==> StoredAs(t.id, "scraped/" + (t.id + ".json"))
      ensures failure.Some? ==> failure.value in [BadParams, FetchFailed, StorageUnavailable, ResultNotSaved]
      ensures Objects in steady ==> failure != Some(StorageUnavailable)
      ensures EventRows in steady ==> failure != Some(ResultNotSaved)
    {
      hide Inv, Marshal, Decode;
      var url := TextField(task.payload, "url");
      if url.None? || url.value == "" {
        FailRun(me, t);
        return Some(BadParams);
      }
      if !fetched {
        FailRun(me, t);
        return Some(FetchFailed);
      }
      var key := "scraped/" + (task.id + ".json");
      failure := UploadAndRecord(me, t, task.id, key);
    }

    /** The key in a parent's stored file result. */
    method ParentFileResultKey(parentId: string) returns (r: Result<string, SourceError>)
      ensures r.Ok? ==> parentId in events.rows && FileKey(events.rows[parentId].result) == Some(r.value)
      ensures r.Ok? ==>
                var result := events.rows[parentId].result;
                && result.Some? && TextField(result.value, "kind") == Some("file")
                && TextField(result.value, "key") == Some(r.value) && r.value != ""
      ensures r == Err(ParentNotFetched(Unavailable)) <==> parentId != "" && !events.up
      ensures r == Err(NoParent) ==> parentId == ""
      ensures r.Err? && r.error == ParentNotFetched(NoRows) ==> parentId !in events.rows
      ensures r == Err(NoFileResult) ==>
                && parentId in events.rows && FileKey(events.rows[parentId].result) == None
                && var result := events.rows[parentId].result;
                   (result.None? || TextField(result.value, "kind") != Some("file")
                    || TextField(result.value, "key").None? || TextField(result.value, "key") == Some(""))
    {
      if parentId == "" { return Err(NoParent); }
      var parent := events.GetEventByID(parentId);
      if parent.Err? { return Err(ParentNotFetched(parent.error)); }
      if parent.value.result.None? { return Err(NoFileResult); }
      var kind := TextField(parent.value.result.value, "kind");
      var key := TextField(parent.value.result.value, "key");
      if kind.None? || key.None? { return Err(NoFileResult); }
      if kind.value != "file" || key.value == "" { return Err(NoFileResult); }
      r := Ok(key.value);
    }

    /** A report without a key of its own is built from its root's stored file, which exists. */
    ghost predicate FallsBack(t: Task, source: string)
      reads this, events, store
    {
      && TextField(t.payload, "scraped_key") == Some("")
      && t.root in events.rows && events.rows[t.root].result.Some?
      && TextField(events.rows[t.root].result.value, "kind") == Some("file")
      && TextField(events.rows[t.root].result.value, "key") == Some(source)
      && source in store.objects
    }

    /** The object a report is built from: its own scraped_key, else its root's file result. With
        no key of its own the source is found unless the database call itself fails. */
    method FindReportSource(ghost me: nat, task: WorkerTask, ghost t: Task) returns (r: Result<string, RunError>)
      requires Valid() && me < |procs| && procs[me] == Running(t) && Represents(task, t) && t.kind == REPORT
      modifies this`procs
      ensures Valid() && Onward(old(Abs()), Abs())
      ensures r.Ok? ==> me < |procs| && procs[me] == Sourced(t, r.value)
      ensures r.Err? ==> me < |procs| && procs[me] == RunFailed(t.id)
      ensures r.Err? && r.error.NoUsableSource? ==> r.error.why == ParentNotFetched(Unavailable) && !events.up
      ensures r == Err(BadParams) <==> TextField(t.payload, "scraped_key").None?
      ensures r.Ok? ==> (TextField(t.payload, "scraped_key") == Some(r.value) && r.value != "") || FallsBack(t, r.value)
      ensures r.Ok? && FallsBack(t, r.value) ==> r.value in store.objects
      ensures r.Err? ==> r.error.BadParams? || r.error.NoUsableSource?
    {
      hide Inv, Marshal, Decode, FileKey, Apply, Enabled;
      ghost var before := Abs();
      var own := TextField(task.payload, "scraped_key");
      if own.None? {
        FailRun(me, t);
        return Err(BadParams);
      }
      var scrapedKey := own.value;
      if scrapedKey == "" {
        SourceExists(before, me, t);
        var found := ParentFileResultKey(MetaText(task, "root_task_id"));
        if found.Err? {
          var why: SourceError := found.error;
          assert why.ParentNotFetched? && why.e == Unavailable;
          FailRun(me, t);
          return Err(NoUsableSource(why));
        }
        scrapedKey := found.value;
        FallbackStored(before, me, t, scrapedKey);
      }
      procs := procs[me := Sourced(t, scrapedKey)];
      SourcedStep(before, me, t, scrapedKey, Abs());
      StepOnward(before, Label.FindSource(me), Abs());
      r := Ok(scrapedKey);
    }

    /** generate_report: find the source, download and decode it, write the rows, the tail. */
    method GenerateReport(ghost me: nat, task: WorkerTask, ghost t: Task, decoded: Option<Report.Page>)
      returns (failure: Option<RunError>, rows: seq<Report.ReportRow>)
      requires Valid() && me < |procs| && procs[me] == Running(t) && Represents(task, t) && t.kind == REPORT
      modifies this, events, keys, queue, store
      ensures Valid() && Onward(old(Abs()), Abs())
      ensures failure.None? ==> me < |procs| && procs[me].Succeeded? && procs[me].task == t
      ensures failure.None? ==> decoded.Some? && Report.ReadRows(rows) == decoded
      ensures failure.Some? ==> me < |procs| && procs[me] == RunFailed(t.id)
      ensures failure.Some? && failure.value.NoUsableSource? ==> failure.value.why == ParentNotFetched(Unavailable)
      ensures failure == Some(BadParams) <==> TextField(t.payload, "scraped_key").None?
      ensures failure.None? ==> StoredAs(t.id, "reports/" + (t.id + ".csv"))
      ensures failure == Some(BadPage) ==> decoded.None?
      ensures failure == Some(DownloadFailed) && Objects in steady ==>
                var own := TextField(t.payload, "scraped_key");
                own.Some? && own.value != "" && own.value !in store.objects
      ensures failure.Some? ==>
                || failure.value in [BadParams, DownloadFailed, BadPage, StorageUnavailable, ResultNotSaved]
                || failure.value.NoUsableSource?
      ensures Objects in steady ==> failure != Some(StorageUnavailable)
      ensures EventRows in steady ==> failure != Some(ResultNotSaved) && !(failure.Some? && failure.value.NoUsableSource?)
    {
      hide FallsBack, Onward, StoredAs, TextField, Inv, Marshal, Decode, Apply, Enabled, StorageKey, Report.RowsOf, Report.ReadRows;
      rows := [];
      ghost var start := Abs();
      var source := FindReportSource(me, task, t);
      if source.Err? { return Some(source.error), rows; }
      label sourced:
      Interfere(me);
      OnwardJoin(start, old@sourced(Abs()), Abs());
      OnwardKeepsObjects(old@sourced(Abs()), Abs());
      ghost var before := Abs();
      failure, rows := BuildReport(me, task, t, source.value, decoded);
      OnwardJoin(start, before, Abs());
    }

    /** From a known source on: download and decode it, write the rows, the tail. */
    method BuildReport(ghost me: nat, task: WorkerTask, ghost t: Task, source: string, decoded: Option<Report.Page>)
      returns (failure: Option<RunError>, rows: seq<Report.ReportRow>)
      requires Valid() && me < |procs| && procs[me] == Sourced(t, source) && t.kind == REPORT && task.id == t.id
      modifies this, events, keys, queue, store
      ensures Valid() && Onward(old(Abs()), Abs())
      ensures failure.None? ==> me < |procs| && procs[me].Succeeded? && procs[me].task == t
      ensures failure.None? ==> decoded.Some? && Report.ReadRows(rows) == decoded
      ensures failure.Some? ==> me < |procs| && procs[me] == RunFailed(t.id)
      ensures failure.None? ==> StoredAs(t.id, "reports/" + (t.id + ".csv"))
      ensures failure == Some(BadPage) ==> decoded.None?
      ensures failure == Some(DownloadFailed) && Objects in steady ==> source !in store.objects && source !in old(store.objects)
      ensures failure.Some? ==> failure.value in [DownloadFailed, BadPage, StorageUnavailable, ResultNotSaved]
      ensures Objects in steady ==> failure != Some(StorageUnavailable)
      ensures EventRows in steady ==> failure != Some(ResultNotSaved)
    {
      hide Inv, Marshal, Decode, Apply, Enabled, StorageKey, Report.RowsOf, Report.ReadRows;
      rows := [];
      var fetched := store.Download(source);
      if !fetched || decoded.None? {
        FailRun(me, t);
        return Some(if fetched then BadPage else DownloadFailed), rows;
      }
      rows := Report.WriteRows(decoded.value);
      Report.RowsDeterminePage(decoded.value);
      var key := "reports/" + (task.id + ".csv");
      assert key == KeyOfTask(t) by { ReportKey(t); }
      failure := UploadAndRecord(me, t, task.id, key);
    }

    lemma ReportKey(t: Task)
      requires t.kind == REPORT
      ensures KeyOfTask(t) == "reports/" + (t.id + ".csv")
    {
    }

    lemma SourcedStep(before: State, me: nat, t: Task, source: string, st: State)
      requires me < |before.procs| && before.procs[me] == Running(t) && t.kind == REPORT
      requires SourceKey(before.events, t) == Some(source)
      requires st == before.(procs := before.procs[me := Sourced(t, source)])
      ensures Did(before, Label.FindSource(me), st)
    {
      hide SourceKey;
    }

    lemma FallbackStored(st: State, me: nat, t: Task, source: string)
      requires Inv(st) && me < |st.procs| && st.procs[me] == Running(t) && t.kind == REPORT
      requires TextField(t.payload, "scraped_key") == Some("")
      requires t.root in st.events && FileKey(st.events[t.root].result) == Some(source)
      ensures source in st.objects
    {
      hide SpawnOk, DedupOk, NoneStranded, FamiliesOk, ResultsOk, FileKey;
      assert st.procs[me] in st.procs && ProcOk(st.events, st.procs[me]);
      FallbackFindsObject(st, t);
    }

    lemma SourceExists(st: State, me: nat, t: Task)
      requires Inv(st) && me < |st.procs| && st.procs[me] == Running(t) && t.kind == REPORT
      requires TextField(t.payload, "scraped_key") == Some("")
      ensures t.root in st.events && FileKey(st.events[t.root].result).Some?
    {
      hide SpawnOk, DedupOk, NoneStranded, FamiliesOk, ResultsOk, FileKey;
      assert st.procs[me] in st.procs && ProcOk(st.events, st.procs[me]);
      FallbackFindsObject(st, t);
    }

    // ---- chaining ----

    /** The handler registered for the task's type, if there is one. */
    method RunHandler(ghost me: nat, task: WorkerTask, ghost t: Task, fetched: bool, decoded: Option<Report.Page>)
      returns (failure: Option<RunError>)
      requires Valid() && me < |procs| && procs[me] == Running(t) && Represents(task, t)
      modifies this, events, keys, queue, store
      ensures Valid() && Onward(old(Abs()), Abs())
      ensures failure.None? ==> me < |procs| && procs[me].Succeeded? && procs[me].task == t
      ensures failure.Some? ==> me < |procs| && procs[me] == RunFailed(t.id)
      ensures failure == Some(NoHandler) <==> t.kind !in ["resize_image", "scrape_url", "generate_report"]
      ensures failure == Some(BadParams) <==> Registered(t.kind) && !ParamsDecode(t.kind, t.payload)
      ensures failure == Some(FetchFailed) <==> (t.kind == RESIZE || t.kind == SCRAPE) && ParamsDecode(t.kind, t.payload) && !fetched
      ensures failure == Some(BadPage) ==> t.kind == REPORT && decoded.None?
      ensures failure == Some(DownloadFailed) && Objects in steady ==>
                t.kind == REPORT && exists own :: TextField(t.payload, "scraped_key") == Some(own) && own != ""
      ensures Objects in steady ==> failure != Some(StorageUnavailable)
      ensures EventRows in steady ==>
                failure != Some(ResultNotSaved) && !(failure.Some? && failure.value.NoUsableSource?)
      ensures failure != Some(ChildNotSaved) && failure != Some(ChildNotQueued)
    {
      hide Inv, Marshal, Decode, Apply, Enabled, Represents, StoredAs;
      KindIs(task, t);
      if task.kind == "resize_image" {
        failure := ResizeImage(me, task, t, fetched);
      } else if task.kind == "scrape_url" {
        failure := ScrapeUrl(me, task, t, fetched);
      } else if task.kind == "generate_report" {
        var rows;
        failure, rows := GenerateReport(me, task, t, decoded);
      } else {
        FailRun(me, t);
        failure := Some(NoHandler);
      }
    }

    /** Runs the registered handler and, on its success only, creates and queues the following
        link. A failure anywhere ends the run as failed. */
    method Wrap(ghost me: nat, task: WorkerTask, ghost t: Task, fetched: bool, decoded: Option<Report.Page>)
      returns (failure: Option<RunError>, child: Option<Id>)
      requires Valid() && me < |procs| && procs[me] == Running(t) && Represents(task, t)
      modifies this, events, keys, queue, store
      ensures Valid() && Onward(old(Abs()), Abs())
      ensures failure.None? ==> me < |procs| && procs[me] == Finished(t.id)
      ensures failure.Some? ==> me < |procs| && procs[me] == RunFailed(t.id)
      ensures failure == Some(NoHandler) <==> t.kind !in ["resize_image", "scrape_url", "generate_report"]
      ensures failure == Some(BadParams) <==> Registered(t.kind) && !ParamsDecode(t.kind, t.payload)
      ensures failure == Some(FetchFailed) <==> (t.kind == RESIZE || t.kind == SCRAPE) && ParamsDecode(t.kind, t.payload) && !fetched
      ensures failure == Some(BadPage) ==> t.kind == REPORT && decoded.None?
      ensures failure == Some(DownloadFailed) && Objects in steady ==>
                t.kind == REPORT && exists own :: TextField(t.payload, "scraped_key") == Some(own) && own != ""
      ensures Objects in steady ==> failure != Some(StorageUnavailable)
      ensures EventRows in steady ==>
                && failure != Some(ResultNotSaved) && failure != Some(ChildNotSaved)
                && !(failure.Some? && failure.value.NoUsableSource?)
      ensures Tokens in steady ==> failure != Some(ChildNotQueued)
      ensures failure.None? ==> ChainedTo(Abs(), old(Abs()), t, child)
    {
      hide Registered, ParamsDecode, TextField, Inv, Marshal, Decode, Apply, Enabled, Represents, ChainedTo;
      ghost var start := Abs();
      child := None;
      failure := RunHandler(me, task, t, fetched, decoded);
      if failure.Some? { return; }
      ghost var before := Abs();
      failure, child := ChainNext(me, task, t);
      OnwardJoin(start, before, Abs());
      if failure.None? {
        ChainedFrom(start, before, Abs(), t, child);
      }
    }

    lemma KindIs(task: WorkerTask, t: Task)
      requires Represents(task, t)
      ensures task.kind == t.kind
    {
    }

    lemma ChainedFrom(start: State, before: State, st: State, t: Task, child: Option<Id>)
      requires Onward(start, before) && ChainedTo(st, before, t, child)
      ensures ChainedTo(st, start, t, child)
    {
      hide Inv;
      OnwardGrows(start, before);
    }

    /** After a successful handler: creates and queues the following link, if there is one. */
    method ChainNext(ghost me: nat, task: WorkerTask, ghost t: Task) returns (failure: Option<RunError>, child: Option<Id>)
      requires Valid() && me < |procs| && procs[me].Succeeded? && procs[me].task == t && Represents(task, t)
      modifies this, events, keys, queue, store
      ensures Valid() && Onward(old(Abs()), Abs())
      ensures failure.None? ==> me < |procs| && procs[me] == Finished(t.id)
      ensures failure.Some? ==> me < |procs| && procs[me] == RunFailed(t.id)
      ensures failure.None? ==> ChainedTo(Abs(), old(Abs()), t, child)
      ensures failure.Some? ==> failure.value == ChildNotSaved || failure.value == ChildNotQueued
      ensures EventRows in steady ==> failure != Some(ChildNotSaved)
      ensures Tokens in steady ==> failure != Some(ChildNotQueued)
      ensures failure == Some(ChildNotQueued) ==> t.next.Some? && exists c :: NewChild(Abs(), old(Abs()), t, t.next.value, c)
    {
      hide Inv, Marshal, Decode, Apply, Enabled, MetaText;
      child := None;
      if "next" !in task.meta {
        EndRun(me, t);
        return None, None;
      }
      var decoded := Decode(task.meta["next"]);
      if decoded.None? {
        assert false;
      }
      var next := decoded.value;
      if next.kind == "" {
        EndRun(me, t);
        return None, None;
      }
      var root := MetaText(task, "root_task_id");
      if root == "" {
        root := task.id;
      }
      failure, child := CreateChild(me, task, t, next, root);
    }

    /** Ends a successful run that has no following link. */
    ghost method EndRun(me: nat, t: Task)
      requires Valid() && me < |procs| && procs[me].Succeeded? && procs[me].task == t && FollowingOf(t).None?
      modifies this`procs
      ensures Valid() && Onward(old(Abs()), Abs())
      ensures me < |procs| && procs[me] == Finished(t.id)
    {
      hide Inv, Marshal;
      ghost var before := Abs();
      procs := procs[me := Finished(t.id)];
      assert Did(before, EndChain(me), Abs());
      StepOnward(before, EndChain(me), Abs());
    }

    /** Saves the child, then queues it: the save comes first, so a failed queue call leaves a
        pending child behind and fails the run. */
    method CreateChild(ghost me: nat, task: WorkerTask, ghost t: Task, next: TaskRequest, root: string)
      returns (failure: Option<RunError>, child: Option<Id>)
      requires Valid() && me < |procs| && procs[me].Succeeded? && procs[me].task == t && Represents(task, t)
      requires FollowingOf(t) == Some(next) && root == t.root
      modifies this, events, keys, queue, store
      ensures Valid() && Onward(old(Abs()), Abs())
      ensures failure.None? ==> me < |procs| && procs[me] == Finished(t.id)
      ensures failure.Some? ==> me < |procs| && procs[me] == RunFailed(t.id)
      ensures failure.None? ==> ChainedTo(Abs(), old(Abs()), t, child)
      ensures failure.Some? ==> failure.value == ChildNotSaved || failure.value == ChildNotQueued
      ensures EventRows in steady ==> failure != Some(ChildNotSaved)
      ensures Tokens in steady ==> failure != Some(ChildNotQueued)
      ensures failure == Some(ChildNotQueued) ==> t.next.Some? && exists c :: NewChild(Abs(), old(Abs()), t, t.next.value, c)
    {
      hide Inv, Marshal, Decode, Apply, Enabled, Represents;
      ghost var start := Abs();
      Interfere(me);
      ghost var before := Abs();
      var id := NewId();
      ghost var run := procs[me].run;
      var saved := SaveChildEvent(me, task, t, next, root, id, run);
      OnwardStep(start, before, SaveChild(me, id, !saved), Abs());
      if !saved { return Some(ChildNotSaved), None; }
      OnwardGrows(start, before);
      failure := QueueChild(start, me, t, next, id);
      child := if failure.None? then Some(id) else None;
    }

    /** The queue call for a saved child. */
    method QueueChild(ghost start: State, ghost me: nat, ghost t: Task, next: TaskRequest, id: Id)
      returns (failure: Option<RunError>)
      requires Valid() && Onward(start, Abs()) && me < |procs| && procs[me] == ChildSaved(t, id)
      requires FollowingOf(t) == Some(next) && id !in start.events
      modifies this, events, keys, queue, store
      ensures Valid() && Onward(start, Abs())
      ensures failure.None? ==> me < |procs| && procs[me] == Finished(t.id) && ChainedTo(Abs(), start, t, Some(id))
      ensures failure.Some? ==> me < |procs| && procs[me] == RunFailed(t.id) && failure.value == ChildNotQueued
      ensures failure.Some? ==> NewChild(Abs(), start, t, next, id)
      ensures Tokens in steady ==> failure.None?
    {
      hide Inv, Marshal, Decode, Apply, Enabled, Represents, NewChild, Launched;
      Interfere(me);
      OnwardJoin(start, old(Abs()), Abs());
      ghost var before := Abs();
      ChildIsNew(start, before, me, t, id);
      NextIs(t);
      var queued := LaunchCall(id, next.priority, next.executeAt);
      if queued {
        hist := hist.(orphaned := hist.orphaned - {id});
        procs := procs[me := Finished(t.id)];
      } else {
        hist := hist.(orphaned := hist.orphaned + {id});
        procs := procs[me := RunFailed(t.id)];
      }
      LaunchedStep(before, me, t, id, queued, Abs());
      OnwardStep(start, before, LaunchChild(me, !queued), Abs());
      SameRowsNewChild(start, before, Abs(), t, next, id);
      if !queued { return Some(ChildNotQueued); }
      LaunchQueues(before.(procs := procs), id, next.priority, next.executeAt);
      failure := None;
    }

    lemma ChildIsNew(start: State, st: State, me: nat, t: Task, id: Id)
      requires Inv(st) && me < |st.procs| && st.procs[me] == ChildSaved(t, id) && id !in start.events
      ensures FollowingOf(t).Some? && NewChild(st, start, t, FollowingOf(t).value, id)
    {
      hide Inv;
      ChildKept(st, me, t, id);
    }

    lemma NextIs(t: Task)
      requires FollowingOf(t).Some?
      ensures t.next == FollowingOf(t) && t.next.value.kind != ""
    {
    }

    lemma SameRowsNewChild(start: State, a: State, b: State, t: Task, n: TaskRequest, id: Id)
      requires a.events == b.events && NewChild(a, start, t, n, id)
      ensures NewChild(b, start, t, n, id)
    {
    }

    lemma ChildKept(st: State, me: nat, t: Task, id: Id)
      requires Inv(st) && me < |st.procs| && st.procs[me] == ChildSaved(t, id)
      ensures FollowingOf(t).Some? && id in st.events
      ensures SameColumns(st.events[id], ChildEvent(t, FollowingOf(t).value, st.events[id].createdAt))
    {
      assert st.procs[me] in st.procs && ProcOk(st.events, st.procs[me]);
    }

    lemma LaunchedStep(before: State, me: nat, t: Task, id: Id, queued: bool, st: State)
      requires me < |before.procs| && before.procs[me] == ChildSaved(t, id) && t.next.Some?
      requires var moved := before.(procs := before.procs[me := if queued then Finished(t.id) else RunFailed(t.id)]);
               if queued then st == Issue(moved, id, Launch(t.next.value.priority, t.next.value.executeAt))
               else st == Orphan(moved, id)
      ensures Did(before, LaunchChild(me, !queued), st)
    {
    }

    method SaveChildEvent(ghost me: nat, task: WorkerTask, ghost t: Task, next: TaskRequest, root: string, id: Id, ghost run: nat)
      returns (ok: bool)
      requires Valid() && me < |procs| && procs[me] == Succeeded(t, run) && Represents(task, t)
      requires FollowingOf(t) == Some(next) && root == t.root && IsId(id) && id !in events.rows
      modifies `procs, `hist, events`rows
      ensures Did(old(Abs()), SaveChild(me, id, !ok), Abs()) && Canonical(events.rows)
      ensures ok == old(events.up)
      ensures me < |procs| && procs[me] == (if ok then ChildSaved(t, id) else RunFailed(t.id))
    {
      hide Inv, Marshal, Decode, Apply, Enabled;
      ghost var before := Abs();
      ok := events.SaveProcessedEvent(id, next.kind, Marshal(next), MetaText(task, "trace_id"), next.priority, root, next.executeAt, now);
      if ok {
        procs := procs[me := ChildSaved(t, id)];
        hist := hist.(creator := hist.creator[id := run]);
        RoundTrip(next);
        NewRowView(next, t.traceId, root, now);
        ViewsUpdate(old(events.rows), id, events.rows[id]);
        ChildSavedStep(before, me, t, run, id, next, Abs());
      } else {
        procs := procs[me := RunFailed(t.id)];
        hist := hist.(lost := hist.lost + {run});
        ChildLostStep(before, me, t, run, id, Abs());
      }
    }

    lemma ChildSavedStep(before: State, me: nat, t: Task, run: nat, id: Id, next: TaskRequest, st: State)
      requires me < |before.procs| && before.procs[me] == Succeeded(t, run) && FollowingOf(t) == Some(next)
      requires IsId(id) && id !in before.events && t.root != ""
      requires st == before.(events := before.events[id := Event(next.kind, next, before.now, Pending, t.traceId, Column(next.priority),
                                                                 Column(t.root), next.executeAt, None)],
                             procs := before.procs[me := ChildSaved(t, id)],
                             hist := before.hist.(creator := before.hist.creator[id := run]))
      ensures Did(before, SaveChild(me, id, false), st)
    {
    }

    lemma ChildLostStep(before: State, me: nat, t: Task, run: nat, id: Id, st: State)
      requires me < |before.procs| && before.procs[me] == Succeeded(t, run) && FollowingOf(t).Some?
      requires IsId(id) && id !in before.events
      requires st == before.(procs := before.procs[me := RunFailed(t.id)],
                             hist := before.hist.(lost := before.hist.lost + {run}))
      ensures Did(before, SaveChild(me, id, true), st)
    {
    }

    // ---- cancel, retry, requeue ----

    /** DELETE /tasks/{id}: while the table is up, cancels exactly a pending task; refuses with
        nothing changed otherwise. */
    method HandleCancelTask(id: string) returns (resp: AdminResponse)
      requires Valid()
      modifies `procs, `hist, events`rows
      ensures Valid() && Onward(old(Abs()), Abs())
      ensures resp == BadRequest <==> id == ""
      ensures resp == Okay ==>
                && id in old(Abs()).events && old(Abs()).events[id].status == Pending
                && Abs() == old(Abs()).(events := Views(old(events.rows))[id := Views(old(events.rows))[id].(status := Cancelled)])
      ensures resp == Okay <==> id != "" && old(events.up) && id in old(Abs()).events && old(Abs()).events[id].status == Pending
      ensures resp != Okay ==> resp.BadRequest? || resp.Conflict?
      ensures resp != Okay ==> Abs() == old(Abs())
    {
      hide Inv, Marshal, Decode, Apply, Enabled;
      ghost var before := Abs();
      OnwardSelf(before);
      if id == "" { return BadRequest; }
      ghost var rows := events.rows;
      var affected := events.CancelEventIfPending(id);
      if affected.Err? || affected.value == 0 { return Conflict; }
      StatusView(rows, id, Cancelled);
      CancelledStep(before, id, Abs());
      StepOnward(before, Label.Cancel(id), Abs());
      resp := Okay;
    }

    lemma CancelledStep(before: State, id: Id, st: State)
      requires id in before.events && before.events[id].status == Pending
      requires st == before.(events := before.events[id := before.events[id].(status := Cancelled)])
      ensures Did(before, Label.Cancel(id), st)
    {
    }

    lemma StatusView(rows: map<Id, Row>, id: Id, status: Status)
      requires id in rows && Canonical(rows)
      ensures Canonical(rows[id := rows[id].(status := status)])
      ensures Views(rows[id := rows[id].(status := status)]) == Views(rows)[id := Views(rows)[id].(status := status)]
    {
      hide Marshal;
      ViewsUpdate(rows, id, rows[id].(status := status));
    }

    /** The repository's reset: a missing or empty priority reads as medium. */
    method ResetForRetry(id: Id) returns (r: Result<string, DbError>)
      requires Canonical(events.rows)
      modifies events`rows
      ensures Canonical(events.rows)
      ensures r == Err(Unavailable) <==> !old(events.up)
      ensures r.Err? ==> events.rows == old(events.rows)
      ensures r == Err(NoRows) ==> id !in old(events.rows) || !Retryable(old(events.rows)[id].status)
      ensures r.Ok? ==> id in old(events.rows) && events.rows == old(events.rows)[id := old(events.rows)[id].(status := Pending)]
      ensures r.Ok? <==> old(events.up) && id in old(events.rows)
                         && (old(events.rows)[id].status == Failed || old(events.rows)[id].status == Cancelled)
      ensures r.Ok? ==>
                && id in Views(old(events.rows)) && Retryable(Views(old(events.rows))[id].status)
                && r.value == RetryPriority(Views(old(events.rows))[id])
                && Views(events.rows) == Views(old(events.rows))[id := Views(old(events.rows))[id].(status := Pending)]
    {
      hide Marshal, Decode, CanonicalRow, StoredRequestOf;
      var priority := events.ResetTaskForRetry(id);
      if priority.Err? {
        assert priority == Err(priority.error) && (priority.error == NoRows || priority.error == Unavailable);
        return Err(priority.error);
      }
      StatusView(old(events.rows), id, Pending);
      var p := if priority.value.Some? then priority.value.value else "";
      if p == "" {
        p := "medium";
      }
      r := Ok(p);
    }

    /** Queues a task that was just reset. */
    method EnqueueRetry(ghost start: State, ghost me: nat, id: Id, priority: string) returns (resp: AdminResponse)
      requires Valid() && Onward(start, Abs()) && me < |procs| && procs[me] == RetryReset(id, priority)
      modifies this, events, keys, queue, store
      ensures Valid() && Onward(start, Abs())
      ensures resp == Issued(Enqueue(priority)) || resp == ServerError
      ensures resp.Issued? ==> InQueue(Abs(), id, Enqueue(priority))
      ensures Tokens in steady ==> !resp.ServerError?
      ensures id in untouched && id in old(events.rows) ==> id in events.rows && events.rows[id] == old(events.rows)[id]
      ensures resp.ServerError? ==> Faulted(start, Abs(), me) && id in hist.orphaned
    {
      hide Inv, Marshal, Decode, Apply, Enabled, Faulted;
      Interfere(me);
      OnwardJoin(start, old(Abs()), Abs());
      ghost var before := Abs();
      var ok := queue.EnqueueWithPriority(id, priority);
      procs := procs[me := Done];
      hist := hist.(orphaned := if ok then hist.orphaned - {id} else hist.orphaned + {id});
      RetriedStep(before, me, id, priority, ok, Abs());
      OnwardStep(start, before, LaunchRetry(me, !ok), Abs());
      if !ok {
        FaultedHere(start, before, LaunchRetry(me, true), Abs(), me);
        return ServerError;
      }
      IssueQueues(before.(procs := procs), id, Enqueue(priority));
      resp := Issued(Enqueue(priority));
    }

    lemma RetriedStep(before: State, me: nat, id: Id, priority: string, ok: bool, st: State)
      requires me < |before.procs| && before.procs[me] == RetryReset(id, priority)
      requires var moved := before.(procs := before.procs[me := Done]);
               if ok then st == Issue(moved, id, Enqueue(priority)) else st == Orphan(moved, id)
      ensures Did(before, LaunchRetry(me, !ok), st)
    {
    }

    /** POST /tasks/{id}/retry: resets a failed or cancelled task and queues it again. A conflict
        means it was neither; after a server error nothing changed or the queue call failed. */
    method HandleRetryTask(id: string) returns (resp: AdminResponse)
      requires Valid()
      modifies this, events, keys, queue, store
      ensures Valid() && Onward(old(Abs()), Abs())
      ensures resp == BadRequest <==> id == ""
      ensures resp.Issued? || resp.Conflict? || resp.ServerError? || resp.BadRequest?
      ensures resp.Issued? ==>
                && id in old(events.rows)
                && (old(events.rows)[id].status == Failed || old(events.rows)[id].status == Cancelled)
                && resp.command == Enqueue(match old(events.rows)[id].priority
                                           case Some(p) => if p == "" then "medium" else p
                                           case None => "medium")
                && InQueue(Abs(), id, resp.command)
      ensures resp.Conflict? <==>
                && id != "" && old(events.up)
                && (id !in old(events.rows) || old(events.rows)[id].status == Pending || old(events.rows)[id].status == Processed)
      ensures resp.Conflict? || resp.BadRequest? ==> Abs() == old(Abs())
      ensures resp.Issued? && id in untouched ==>
                && id in old(events.rows) && id in events.rows
                && events.rows[id] == old(events.rows)[id].(status := Pending)
      ensures {EventRows, Tokens} <= steady ==> !resp.ServerError?
      ensures resp.ServerError? ==>
                || (!old(events.up) && Abs() == old(Abs()))
                || (Faulted(old(Abs()), Abs(), |old(procs)|) && id in hist.orphaned)
    {
      hide Inv, Marshal, Decode, Apply, Enabled, Faulted;
      ghost var start := Abs();
      OnwardSelf(start);
      if id == "" { return BadRequest; }
      var priority := ResetForRetry(id);
      if priority.Err? { return if priority.error == NoRows then Conflict else ServerError; }
      ghost var me := |procs|;
      procs := procs + [RetryReset(id, priority.value)];
      ResetStep(start, id, Abs());
      OnwardStep(start, start, ResetTask(id), Abs());
      resp := EnqueueRetry(start, me, id, priority.value);
    }

    lemma ResetStep(before: State, id: Id, st: State)
      requires id in before.events && Retryable(before.events[id].status)
      requires st == before.(events := before.events[id := before.events[id].(status := Pending)],
                             procs := before.procs + [RetryReset(id, RetryPriority(before.events[id]))])
      ensures Did(before, ResetTask(id), st)
    {
    }

    /** POST /dlq/{id}/retry: takes the id off the dead-letter queue, then resets and queues it
        at its own priority. */
    method HandleRetryDLQTask(id: string) returns (resp: AdminResponse)
      requires Valid()
      modifies this, events, keys, queue, store
      ensures Valid() && Onward(old(Abs()), Abs())
      ensures resp == BadRequest <==> id == ""
      ensures resp.BadRequest? || resp.NotFound? ==> Abs() == old(Abs())
      ensures resp.NotFound? <==> id != "" && !(old(queue.up) && id in old(queue.dead))
      ensures resp.Issued? || resp.Conflict? ==> id in old(queue.dead) && id in old(Abs()).events
      ensures resp.Issued? ==>
                && resp.command == Enqueue(match old(events.rows)[id].priority
                                           case Some(p) => if p == "" then "medium" else p
                                           case None => "medium")
                && InQueue(Abs(), id, resp.command)
      ensures resp.Conflict? ==> FoundUnretryable(old(Abs()), Abs(), |old(procs)|, id)
      ensures resp.Issued? && id in untouched ==>
                && id in old(events.rows) && id in events.rows
                && events.rows[id] == old(events.rows)[id].(status := Pending)
      ensures {EventRows, Tokens} <= steady ==> !resp.ServerError?
      ensures {EventRows, Tokens} <= steady && id in untouched && id != "" && id in old(queue.dead) ==>
                && id in old(events.rows)
                && (resp.Issued? <==> old(events.rows)[id].status == Failed || old(events.rows)[id].status == Cancelled)
                && (resp.Conflict? <==> old(events.rows)[id].status == Pending || old(events.rows)[id].status == Processed)
      ensures resp.ServerError? ==> id in old(queue.dead) && Faulted(old(Abs()), Abs(), |old(procs)|)
    {
      hide Inv, Marshal, Decode, Apply, Enabled, Faulted, InQueue, FoundUnretryable;
      ghost var start := Abs();
      OnwardSelf(start);
      if id == "" { return BadRequest; }
      var removed := queue.RemoveFromDLQ(id);
      if !removed { return NotFound; }
      ghost var me := |procs|;
      procs := procs + [DeadTaken(id)];
      DeadExists(start, id);
      TakenStep(start, id, true, Abs());
      OnwardStep(start, start, TakeDead(id, true), Abs());
      resp := RetryTaken(start, me, id);
    }

    lemma DeadExists(st: State, id: Id)
      requires Inv(st) && id in st.dead
      ensures id in st.events
    {
    }

    lemma TakenStep(before: State, id: Id, retry: bool, st: State)
      requires id in before.dead
      requires st == before.(dead := before.dead - {id}, procs := before.procs + [if retry then DeadTaken(id) else Done])
      ensures Did(before, TakeDead(id, retry), st)
    {
    }

    method RetryTaken(ghost start: State, ghost me: nat, id: Id) returns (resp: AdminResponse)
      requires Valid() && Onward(start, Abs()) && me < |procs| && procs[me] == DeadTaken(id) && id in start.events && id in events.rows
      modifies this, events, keys, queue, store
      ensures Valid() && Onward(start, Abs())
      ensures resp.Issued? || resp.Conflict? || resp.ServerError?
      ensures resp.Issued? ==>
                && resp.command == Enqueue(RetryPriority(start.events[id]))
                && InQueue(Abs(), id, resp.command)
      ensures resp.Conflict? ==> FoundUnretryable(start, Abs(), me, id)
      ensures resp.Issued? && id in untouched ==>
                && id in events.rows
                && events.rows[id] == old(events.rows)[id].(status := Pending)
      ensures {EventRows, Tokens} <= steady ==> !resp.ServerError?
      ensures {EventRows, Tokens} <= steady && id in untouched ==>
                && (resp.Issued? <==> old(events.rows)[id].status == Failed || old(events.rows)[id].status == Cancelled)
                && (resp.Conflict? <==> old(events.rows)[id].status == Pending || old(events.rows)[id].status == Processed)
      ensures resp.ServerError? ==> Faulted(start, Abs(), me)
    {
      hide RetryPriority, SameColumns, Retryable, Did, Inv, Marshal, Decode, Apply, Enabled, Faulted, InQueue, FoundUnretryable;
      Interfere(me);
      OnwardJoin(start, old(Abs()), Abs());
      OnwardGrows(start, Abs());
      var priority := ResetTaken(start, me, id);
      if priority.Err? {
        return if priority.error == NoRows then Conflict else ServerError;
      }
      resp := EnqueueRetry(start, me, id, priority.value);
    }

    /** The reset of a task taken off the dead-letter queue. */
    method ResetTaken(ghost start: State, ghost me: nat, id: Id) returns (priority: Result<string, DbError>)
      requires Valid() && Onward(start, Abs()) && me < |procs| && procs[me] == DeadTaken(id)
      requires id in start.events && id in events.rows
      modifies `procs, events`rows
      ensures Valid() && Onward(start, Abs())
      ensures priority.Ok? <==> events.up && (old(events.rows)[id].status == Failed || old(events.rows)[id].status == Cancelled)
      ensures priority.Ok? ==>
                && events.rows == old(events.rows)[id := old(events.rows)[id].(status := Pending)]
                && procs == old(procs)[me := RetryReset(id, priority.value)]
                && priority.value == RetryPriority(start.events[id])
      ensures priority.Err? ==> events.rows == old(events.rows)
      ensures priority.Err? ==> priority.error == NoRows || priority.error == Unavailable
      ensures priority == Err(NoRows) ==>
                && FoundUnretryable(start, Abs(), me, id)
                && (events.rows[id].status == Pending || events.rows[id].status == Processed)
      ensures priority == Err(Unavailable) ==> !events.up && Faulted(start, Abs(), me)
    {
      hide RetryPriority, SameColumns, Retryable, Did, Inv, Marshal, Decode, Apply, Enabled, Faulted, FoundUnretryable;
      ghost var before := Abs();
      OnwardGrows(start, before);
      priority := ResetForRetry(id);
      if priority.Err? {
        procs := procs[me := Done];
        RefusedStatus(before.events[id].status);
        RefusedReset(start, before, me, id, priority.error, Abs());
        return;
      }
      procs := procs[me := RetryReset(id, priority.value)];
      DeadResetStep(before, me, id, Abs());
      OnwardStep(start, before, ResetDead(me, false), Abs());
      SameRetry(start.events[id], before.events[id]);
    }

    lemma RefusedStatus(s: Status)
      ensures !Retryable(s) <==> s == Pending || s == Processed
    {
    }

    lemma RefusedReset(start: State, before: State, me: nat, id: Id, error: DbError, st: State)
      requires Onward(start, before) && me < |before.procs| && before.procs[me] == DeadTaken(id) && id in before.events
      requires error == NoRows || error == Unavailable
      requires error == NoRows ==> !Retryable(before.events[id].status)
      requires st == before.(procs := before.procs[me := Done])
      ensures Onward(start, st)
      ensures error == NoRows ==> FoundUnretryable(start, st, me, id)
      ensures error == Unavailable ==> Faulted(start, st, me)
    {
      hide Inv, Enabled, Apply, Did, FoundUnretryable, Faulted;
      NotResetStep(before, me, id, error == Unavailable, st);
      OnwardStep(start, before, ResetDead(me, error == Unavailable), st);
      if error == NoRows {
        OnwardSelf(st);
        ResetFoundUnretryable(start, before, st, me, id);
      } else {
        DeadResetFailed(start, before, st, me);
      }
    }

    lemma DeadResetFailed(start: State, a: State, b: State, me: nat)
      requires Onward(start, a) && Did(a, ResetDead(me, true), b)
      ensures Faulted(start, b, me)
    {
      hide Inv, Enabled, Apply;
      FaultedHere(start, a, ResetDead(me, true), b, me);
    }

    lemma ResetFoundUnretryable(start: State, a: State, b: State, me: nat, id: Id)
      requires Onward(start, a) && Did(a, ResetDead(me, false), b) && Onward(b, b)
      requires id in a.events && !Retryable(a.events[id].status)
      ensures FoundUnretryable(start, b, me, id)
    {
      hide Inv, Enabled, Apply;
    }

    lemma SameRetry(a: Event, b: Event)
      requires SameColumns(a, b)
      ensures RetryPriority(a) == RetryPriority(b)
    {
    }

    lemma NotResetStep(before: State, me: nat, id: Id, fault: bool, st: State)
      requires me < |before.procs| && before.procs[me] == DeadTaken(id)
      requires fault || id !in before.events || !Retryable(before.events[id].status)
      requires st == before.(procs := before.procs[me := Done])
      ensures Did(before, ResetDead(me, fault), st)
    {
    }

    lemma DeadResetStep(before: State, me: nat, id: Id, st: State)
      requires me < |before.procs| && before.procs[me] == DeadTaken(id)
      requires id in before.events && Retryable(before.events[id].status)
      requires st == before.(events := before.events[id := before.events[id].(status := Pending)],
                             procs := before.procs[me := RetryReset(id, RetryPriority(before.events[id]))])
      ensures Did(before, ResetDead(me, false), st)
    {
    }

    /** DELETE /dlq/{id}. */
    method HandleRemoveDLQTask(id: string) returns (resp: AdminResponse)
      requires Valid()
      modifies `procs, `hist, queue`dead
      ensures Valid() && Onward(old(Abs()), Abs())
      ensures resp == BadRequest <==> id == ""
      ensures resp.BadRequest? || resp.NotFound? ==> Abs() == old(Abs())
      ensures resp.BadRequest? || resp.NotFound? || resp.Okay?
      ensures resp.NotFound? <==> id != "" && !(old(queue.up) && id in old(queue.dead))
      ensures resp.Okay? ==>
                && id in old(queue.dead)
                && Abs() == old(Abs()).(dead := old(queue.dead) - {id}, procs := old(procs) + [Done])
    {
      hide Inv, Marshal, Decode, Apply, Enabled;
      ghost var start := Abs();
      OnwardSelf(start);
      if id == "" { return BadRequest; }
      var removed := queue.RemoveFromDLQ(id);
      if !removed { return NotFound; }
      procs := procs + [Done];
      TakenStep(start, id, false, Abs());
      OnwardStep(start, start, TakeDead(id, false), Abs());
      resp := Okay;
    }

    /** POST /tasks/{id}/requeue: repeats the queue call of a pending task from its stored request. */
    method HandleRequeueTask(id: string) returns (resp: AdminResponse)
      requires Valid()
      modifies this, events, keys, queue, store
      ensures Valid() && Onward(old(Abs()), Abs())
      ensures resp == BadRequest <==> id == ""
      ensures resp.NotFound? <==> id != "" && !(old(events.up) && id in old(Abs()).events)
      ensures resp.Conflict? <==> id != "" && old(events.up) && id in old(Abs()).events && old(Abs()).events[id].status != Pending
      ensures resp.BadRequest? || resp.NotFound? || resp.Conflict? ==> Abs() == old(Abs())
      ensures resp.Issued? || resp.ServerError? ==> id in old(Abs()).events && old(Abs()).events[id].status == Pending
      ensures resp.Issued? ==>
                && InQueue(Abs(), id, resp.command)
                && var e := old(Abs()).events[id];
                   var priority := if e.req.priority != "" then e.req.priority
                                   else if e.priority.Some? then e.priority.value else "medium";
                   resp.command == if e.req.executeAt.Some? && e.req.executeAt.value > now
                                   then Schedule(priority, e.req.executeAt.value) else Enqueue(priority)
      ensures Tokens in steady ==> !resp.ServerError?
      ensures resp.ServerError? ==> Faulted(old(Abs()), Abs(), |old(procs)|)
    {
      hide Inv, Marshal, Decode, Apply, Enabled, Faulted, InQueue;
      ghost var start := Abs();
      OnwardSelf(start);
      if id == "" { return BadRequest; }
      var got := events.GetEventByID(id);
      if got.Err? {
        assert got == Err(got.error) && (got.error == Unavailable || id !in start.events);
        return NotFound;
      }
      var event := got.value;
      if event.status != Pending { return Conflict; }
      ghost var me := |procs|;
      procs := procs + [RequeueRead(id)];
      ReadStep(start, id, Abs());
      OnwardStep(start, start, ReadPending(id), Abs());

      var stored := ReadLaunch(event.payload);
      LaunchStored(event);
      var priority := stored.0;
      if priority == "" {
        priority := if event.priority.Some? then event.priority.value else "medium";
      }
      RequeuePriority(start.events[id]);
      resp := IssueRequeue(start, me, id, priority, stored.1);
    }

    method RequeueCall(id: Id, priority: string, executeAt: Option<int>) returns (ok: bool, command: Command)
      modifies queue`ready, queue`delayed
      ensures command == if executeAt.Some? && executeAt.value > now then Schedule(priority, executeAt.value) else Enqueue(priority)
      ensures ok == queue.up
      ensures !ok ==> queue.ready == old(queue.ready) && queue.delayed == old(queue.delayed)
      ensures ok ==>
                match command
                case Enqueue(p) => queue.ready == old(queue.ready) + [Ready(id, p)] && queue.delayed == old(queue.delayed)
                case Schedule(p, t) => queue.delayed == old(queue.delayed) + [Delayed(id, p, t)] && queue.ready == old(queue.ready)
    {
      if executeAt.Some? && executeAt.value > now {
        command := Schedule(priority, executeAt.value);
        ok := queue.ScheduleAt(id, priority, executeAt.value);
      } else {
        command := Enqueue(priority);
        ok := queue.EnqueueWithPriority(id, priority);
      }
    }

    /** The requeue handler's queue call. */
    method IssueRequeue(ghost start: State, ghost me: nat, id: Id, priority: string, executeAt: Option<int>)
      returns (resp: AdminResponse)
      requires Valid() && Onward(start, Abs()) && me < |procs| && procs[me] == RequeueRead(id)
      requires id in start.events && executeAt == start.events[id].req.executeAt
      requires forall t :: priority == RequeueCommand(start.events[id], t).priority
      modifies this, events, keys, queue, store
      ensures Valid() && Onward(start, Abs())
      ensures resp.Issued? || resp.ServerError?
      ensures resp.Issued? ==> resp.command == RequeueCommand(start.events[id], now) && InQueue(Abs(), id, resp.command)
      ensures Tokens in steady ==> !resp.ServerError?
      ensures resp.ServerError? ==> Faulted(start, Abs(), me)
    {
      hide InQueue, RequeueCommand, SameColumns, Inv, Marshal, Decode, Apply, Enabled, Faulted;
      Interfere(me);
      OnwardJoin(start, old(Abs()), Abs());
      ghost var before := Abs();
      OnwardGrows(start, before);
      SameRequeue(start.events[id], before.events[id], now);
      RequeueIs(start.events[id], now);
      var ok, command := RequeueCall(id, priority, executeAt);
      procs := procs[me := Done];
      if ok {
        hist := hist.(orphaned := hist.orphaned - {id});
      }
      RequeueTaken(start, before, me, id, command, ok, Abs());
      if !ok { return ServerError; }
      resp := Issued(command);
    }

    lemma RequeueIs(e: Event, t: int)
      ensures var priority := RequeueCommand(e, t).priority;
              RequeueCommand(e, t) == if e.req.executeAt.Some? && e.req.executeAt.value > t
                                      then Schedule(priority, e.req.executeAt.value) else Enqueue(priority)
    {
    }

    lemma RequeuePriority(e: Event)
      ensures forall t :: RequeueCommand(e, t).priority
                       == if e.req.priority != "" then e.req.priority
                          else if e.priority.Some? then e.priority.value else "medium"
    {
    }

    lemma SameRequeue(a: Event, b: Event, t: int)
      requires SameColumns(a, b)
      ensures RequeueCommand(a, t) == RequeueCommand(b, t)
    {
    }

    lemma ReadStep(before: State, id: Id, st: State)
      requires id in before.events && before.events[id].status == Pending
      requires st == before.(procs := before.procs + [RequeueRead(id)])
      ensures Did(before, ReadPending(id), st)
    {
    }

    lemma RequeueTaken(start: State, before: State, me: nat, id: Id, command: Command, ok: bool, st: State)
      requires Onward(start, before) && me < |before.procs| && before.procs[me] == RequeueRead(id) && id in before.events
      requires command == RequeueCommand(before.events[id], before.now)
      requires var moved := before.(procs := before.procs[me := Done]);
               st == if ok then Issue(moved, id, command) else moved
      ensures Onward(start, st)
      ensures if ok then InQueue(st, id, command) else Faulted(start, st, me)
    {
      hide Inv, Enabled, Apply, Did, Faulted, Issue, RequeueCommand, InQueue;
      RequeuedStep(before, me, id, command, ok, st);
      OnwardStep(start, before, LaunchRequeue(me, !ok), st);
      if ok {
        IssueQueues(before.(procs := before.procs[me := Done]), id, command);
      } else {
        FaultedHere(start, before, LaunchRequeue(me, true), st, me);
      }
    }

    lemma RequeuedStep(before: State, me: nat, id: Id, command: Command, ok: bool, st: State)
      requires me < |before.procs| && before.procs[me] == RequeueRead(id) && id in before.events
      requires command == RequeueCommand(before.events[id], before.now)
      requires var moved := before.(procs := before.procs[me := Done]);
               st == if ok then Issue(moved, id, command) else moved
      ensures Did(before, LaunchRequeue(me, !ok), st)
    {
    }

    lemma LaunchStored(row: Row)
      requires CanonicalRow(row)
      ensures ReadLaunch(row.payload) == (StoredRequestOf(row).priority, StoredRequestOf(row).executeAt)
    {
      hide Marshal, Decode, ReadLaunch;
      LaunchOfMarshalled(StoredRequestOf(row));
    }

    /** Removes expired idempotency keys. */
    method CleanupExpired() returns (r: Result<nat, DbError>)
      requires Valid()
      modifies `procs, `hist, keys`rows
      ensures Valid() && Onward(old(Abs()), Abs())
      ensures r.Ok? <==> old(keys.up)
      ensures r.Ok? ==> keys.rows == map k | k in old(keys.rows) && old(keys.rows)[k].expiresAt >= now :: old(keys.rows)[k]
      ensures r.Ok? ==> Did(old(Abs()), Cleanup, Abs())
      ensures r.Err? ==> Abs() == old(Abs())
    {
      hide Inv, Marshal, Decode;
      ghost var before := Abs();
      OnwardSelf(before);
      r := keys.DeleteExpiredIdempotencyKeys(now);
      if r.Ok? {
        assert Did(before, Cleanup, Abs());
        StepOnward(before, Cleanup, Abs());
      }
    }
  }
}
