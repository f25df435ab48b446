/** Stored results: fixed by an event's immutable columns, backed by an object, and present on the
    root of every chained event. */
module Results {
  import opened Prelude
  import opened Json
  import opened TaskWire
  import opened Records
  import opened Admission
  import opened Lifecycle
  import opened Effects
  import opened Ownership
  import opened Families

  function KeyOfEvent(id: Id, e: Event): string {
    StorageKey(id, e.kind, PayloadValue(e.req))
  }

  // ---- storage keys ----

  function Folder(kind: string): (r: string)
    ensures |r| == 8
  {
    if kind == RESIZE then "resized/" else if kind == SCRAPE then "scraped/" else "reports/"
  }

  function Suffix(kind: string, payload: Json): string {
    if kind == RESIZE then OutputFormat(payload) else if kind == SCRAPE then "json" else "csv"
  }

  lemma KeyShape(id: Id, kind: string, payload: Json)
    ensures StorageKey(id, kind, payload) == Folder(kind) + (id + ("." + Suffix(kind, payload)))
  {
    assert "." + "json" == ".json" && "." + "csv" == ".csv";
  }

  /** Distinct tasks never share a storage key, whatever their types and payloads. */
  lemma StorageKeysDistinct(id1: Id, kind1: string, payload1: Json, id2: Id, kind2: string, payload2: Json)
    requires IsId(id1) && IsId(id2)
    requires StorageKey(id1, kind1, payload1) == StorageKey(id2, kind2, payload2)
    ensures id1 == id2
  {
    hide StorageKey, OutputFormat;
    KeyShape(id1, kind1, payload1);
    KeyShape(id2, kind2, payload2);
    var t1 := id1 + ("." + Suffix(kind1, payload1));
    var t2 := id2 + ("." + Suffix(kind2, payload2));
    assert t1 == (Folder(kind1) + t1)[8..] && t2 == (Folder(kind2) + t2)[8..];
    SplitAtFirst('.', id1, Suffix(kind1, payload1), id2, Suffix(kind2, payload2));
  }

  /** The fallback reads back exactly the key a handler stored. */
  lemma FileKeyReads(key: string)
    requires key != ""
    ensures FileKey(Some(FileResult(key))) == Some(key)
  {
    FieldNamesFold();
    var a, b := Member("key", Str(key)), Member("kind", Str("file"));
    var ms := [a, b];
    assert ms[..1] == [a] && [a][..0] == [];
    assert MembersText([], "kind") == Some("") && MembersText([], "key") == Some("");
    assert MembersText([a], "kind") == Some("") && MembersText([a], "key") == Some(key);
    assert MembersText(ms, "kind") == Some("file") && MembersText(ms, "key") == Some(key);
  }

  // ---- the invariant ----

  ghost predicate ResultOk(st: State, id: Id, e: Event) {
    && (e.result.Some? ==> e.result == Some(FileResult(KeyOfEvent(id, e))) && KeyOfEvent(id, e) in st.objects)
    && (e.parent.Some? ==> HasResult(st.events, e.parent.value))
  }

  ghost predicate HasResult(events: map<Id, Event>, id: Id) {
    id in events && events[id].result.Some?
  }

  ghost predicate ProcHasResult(st: State, q: Proc) {
    match q
    case Uploaded(t) => KeyOfTask(t) in st.objects
    case Succeeded(t, _) => HasResult(st.events, t.root)
    case ChildSaved(t, _) => HasResult(st.events, t.root)
    case _ => true
  }

  ghost predicate ResultsOk(st: State) {
    && (forall id :: id in st.events ==> ResultOk(st, id, st.events[id]))
    && (forall q :: q in st.procs ==> ProcHasResult(st, q))
  }

  lemma ResultRecorded(st: State, l: Label)
    requires Enabled(st, l) && l.RecordResult?
    ensures At(st, l.p) && st.procs[l.p].Uploaded? && st.procs[l.p].task.id in st.events
    ensures var t := st.procs[l.p].task;
            Apply(st, l).events == st.events[t.id := st.events[t.id].(result := Some(FileResult(KeyOfTask(t))))]
  {
    hide StorageKey, ParamsDecode, SourceKey, FileResult, Accepted, IsId, SubmissionKey, RootEvent, ChildEvent,
      TaskOf, KeyOfTask, Launch, RequeueCommand, RetryPriority, RemoveAt, Retryable, ApplyCreate, ApplyAdmin,
      ApplyWorker, ApplyOther;
  }

  /** Results change only when a worker records one, and then to the key it has just uploaded. */
  lemma ResultEffect(st: State, l: Label)
    requires Enabled(st, l)
    ensures st.objects <= Apply(st, l).objects
    ensures forall id :: id in st.events && !(l.RecordResult? && st.procs[l.p].task.id == id) ==>
                           id in Apply(st, l).events && Apply(st, l).events[id].result == st.events[id].result
    ensures l.RecordResult? ==>
              var t := st.procs[l.p].task;
              && t.id in st.events
              && Apply(st, l).events == st.events[t.id := st.events[t.id].(result := Some(FileResult(KeyOfTask(t))))]
  {
    hide Apply, FileResult, KeyOfTask, ParamsDecode, SourceKey, Accepted;
    StepEffect(st, l);
    if l.RecordResult? { ResultRecorded(st, l); }
  }

  lemma HasResultStays(st: State, l: Label, id: Id)
    requires Enabled(st, l) && HasResult(st.events, id)
    ensures HasResult(Apply(st, l).events, id)
  {
    hide Apply, Enabled;
    ResultEffect(st, l);
    StepGrows(st, l);
  }

  lemma RecordedResultOk(st: State, next: State, t: Task, id: Id)
    requires Owned(st) && ResultsOk(st) && FamiliesOk(st)
    requires TaskOk(st.events, t) && KeyOfTask(t) in st.objects && st.objects <= next.objects
    requires next.events == st.events[t.id := st.events[t.id].(result := Some(FileResult(KeyOfTask(t))))]
    requires id in next.events
    ensures ResultOk(next, id, next.events[id])
  {
    assert ResultOk(st, id, st.events[id]);
  }

  lemma ResultsStep(st: State, l: Label)
    requires Enabled(st, l) && Owned(st) && FamiliesOk(st) && ResultsOk(st)
    ensures forall id :: id in Apply(st, l).events ==> ResultOk(Apply(st, l), id, Apply(st, l).events[id])
  {
    hide Apply, Enabled, ProcOk, Actor, StorageKey, RootEvent, ChildEvent, MemberOk, FileResult;
    var next := Apply(st, l);
    ResultEffect(st, l);
    StepGrows(st, l);
    forall id | id in next.events
      ensures ResultOk(next, id, next.events[id])
    {
      if l.RecordResult? {
        RecorderOk(st, l);
        RecordedResultOk(st, next, st.procs[l.p].task, id);
      } else if id in st.events {
        assert ResultOk(st, id, st.events[id]);
        if st.events[id].parent.Some? {
          HasResultStays(st, l, st.events[id].parent.value);
        }
      } else {
        NewEvents(st, l, id);
        NewResultOk(st, l, id);
      }
    }
  }

  lemma RecorderOk(st: State, l: Label)
    requires Enabled(st, l) && l.RecordResult? && Owned(st) && ResultsOk(st)
    ensures At(st, l.p) && st.procs[l.p].Uploaded?
    ensures TaskOk(st.events, st.procs[l.p].task) && KeyOfTask(st.procs[l.p].task) in st.objects
  {
    assert st.procs[l.p] in st.procs;
    assert ProcOk(st.events, st.procs[l.p]) && ProcHasResult(st, st.procs[l.p]);
  }

  lemma NewResultOk(st: State, l: Label, id: Id)
    requires Enabled(st, l) && Owned(st) && ResultsOk(st)
    requires id in Apply(st, l).events && id !in st.events
    ensures ResultOk(Apply(st, l), id, Apply(st, l).events[id])
  {
    hide Apply, Enabled, ProcOk, StorageKey;
    NewEvents(st, l, id);
    var q := st.procs[Actor(st, l).value];
    assert q in st.procs && ProcHasResult(st, q);
    if q.Succeeded? {
      HasResultStays(st, l, q.task.root);
    }
  }

  lemma ProcResultsStep(st: State, l: Label)
    requires Enabled(st, l) && Owned(st) && FamiliesOk(st) && ResultsOk(st)
    ensures forall q :: q in Apply(st, l).procs ==> ProcHasResult(Apply(st, l), q)
  {
    hide Apply, Enabled, ProcOk, Actor, StorageKey, ProcHasResult, MemberOk, FileResult;
    var next := Apply(st, l);
    OneMoves(st, l);
    forall q | q in next.procs
      ensures ProcHasResult(next, q)
    {
      var k :| 0 <= k < |next.procs| && next.procs[k] == q;
      if Actor(st, l) == Some(k) {
        ActorHasResult(st, l, k);
      } else {
        assert st.procs[k] in st.procs;
        StillHasResult(st, l, q);
      }
    }
  }

  lemma StillHasResult(st: State, l: Label, q: Proc)
    requires Enabled(st, l) && ProcHasResult(st, q)
    ensures ProcHasResult(Apply(st, l), q)
  {
    hide Apply, Enabled, StorageKey;
    ResultEffect(st, l);
    if q.Succeeded? || q.ChildSaved? {
      HasResultStays(st, l, q.task.root);
    }
  }

  lemma UploadEffect(st: State, l: Label)
    requires Enabled(st, l) && l.Upload?
    ensures At(st, l.p) && Apply(st, l).procs[l.p].Uploaded? && KeyOfTask(Apply(st, l).procs[l.p].task) in Apply(st, l).objects
  {
    hide StorageKey, ParamsDecode, SourceKey, FileResult, Accepted, IsId, SubmissionKey, RootEvent, ChildEvent,
      TaskOf, KeyOfTask, Launch, RequeueCommand, RetryPriority, RemoveAt, Retryable, ApplyCreate, ApplyAdmin,
      ApplyChain, ApplyOther;
  }

  /** A process claims a result only by recording it, and passes the claim on to its child's save. */
  lemma ClaimEffect(st: State, l: Label, k: nat)
    requires Enabled(st, l) && Actor(st, l) == Some(k) && k < |Apply(st, l).procs|
    ensures var q := Apply(st, l).procs[k];
            && (q.Uploaded? ==> KeyOfTask(q.task) in Apply(st, l).objects)
            && (q.Succeeded? ==> l.RecordResult? && At(st, k) && k == l.p && q.task == st.procs[k].task)
            && (q.ChildSaved? ==> At(st, k) && st.procs[k].Succeeded? && q.task == st.procs[k].task)
  {
    hide Apply, Enabled, KeyOfTask;
    StepEffect(st, l);
    if l.Upload? {
      UploadEffect(st, l);
    } else if l.RecordResult? {
      RunRecorded(st, l);
    } else if l.SaveChild? {
      ChildSavedEffect(st, l);
    }
  }

  lemma ActorHasResult(st: State, l: Label, k: nat)
    requires Enabled(st, l) && Owned(st) && FamiliesOk(st) && ResultsOk(st)
    requires Actor(st, l) == Some(k) && k < |Apply(st, l).procs|
    ensures ProcHasResult(Apply(st, l), Apply(st, l).procs[k])
  {
    hide Apply, Enabled, StorageKey, MemberOk, ProcOk, ResultOk, Actor;
    ClaimEffect(st, l, k);
    var q := Apply(st, l).procs[k];
    if q.Succeeded? {
      RootHasResult(st, l);
    } else if q.ChildSaved? {
      assert st.procs[k] in st.procs && ProcHasResult(st, st.procs[k]);
      HasResultStays(st, l, q.task.root);
    }
  }

  lemma RootHasResult(st: State, l: Label)
    requires Enabled(st, l) && l.RecordResult? && Owned(st) && FamiliesOk(st) && ResultsOk(st)
    ensures At(st, l.p) && st.procs[l.p].Uploaded?
    ensures HasResult(Apply(st, l).events, st.procs[l.p].task.root)
  {
    hide Apply, Enabled, StorageKey, MemberOk, FileResult;
    RecorderOk(st, l);
    ResultEffect(st, l);
    var t := st.procs[l.p].task;
    assert ResultOk(st, t.id, st.events[t.id]);
  }

  // ---- consequences ----

  /** In any step, a result that is set stays the same value. */
  lemma ResultsStable(st: State, l: Label, id: Id)
    requires Enabled(st, l) && Owned(st) && FamiliesOk(st) && ResultsOk(st)
    requires HasResult(st.events, id)
    ensures id in Apply(st, l).events && Apply(st, l).events[id].result == st.events[id].result
  {
    hide Apply, Enabled, StorageKey, ProcOk;
    ResultEffect(st, l);
    assert ResultOk(st, id, st.events[id]);
    if l.RecordResult? {
      RecorderOk(st, l);
    }
  }

  /** A worker holding a report task whose payload carries no scraped_key of its own finds its
      root's file result and the object behind it: the fallback cannot fail. */
  lemma FallbackFindsObject(st: State, t: Task)
    requires Owned(st) && FamiliesOk(st) && ResultsOk(st)
    requires TaskOk(st.events, t) && t.kind == REPORT
    requires TextField(t.payload, "scraped_key") == Some("")
    ensures st.events[t.id].parent == Some(t.root)
    ensures SourceKey(st.events, t) == Some(KeyOfEvent(t.root, st.events[t.root]))
    ensures SourceKey(st.events, t).value in st.objects
  {
    hide StorageKey, FileResult, FileKey;
    assert MemberOk(st.events, st.hist.creator, t.id, st.events[t.id]);
    assert ResultOk(st, t.id, st.events[t.id]);
    assert ResultOk(st, t.root, st.events[t.root]);
    var key := KeyOfEvent(t.root, st.events[t.root]);
    KeyShape(t.root, st.events[t.root].kind, PayloadValue(st.events[t.root].req));
    FileKeyReads(key);
  }
}
