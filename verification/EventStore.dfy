/** The worker's view of a stored event, the chaining decision taken on it, and what unrolling a
    whole chain through the text column produces. */
module EventStore {
  import opened Prelude
  import opened Json
  import opened TaskWire
  import opened Records

  datatype WorkerTask = WorkerTask(
    id: Id,
    kind: string,
    payload: Json,
    priority: string,
    status: Status,
    meta: map<string, Json>)

  function TextOf(column: Option<string>): string {
    match column case Some(s) => s case None => ""
  }

  /** The family a row belongs to: its parent if it has one, else itself. */
  function RootOf(id: Id, parent: Option<Id>): Id {
    if parent.Some? && parent.value != "" then parent.value else id
  }

  function TraceMeta(traceContext: string): map<string, Json> {
    if traceContext != "" then map["trace_context" := Str(traceContext)] else map[]
  }

  function TraceIdMeta(traceId: string): map<string, Json> {
    if traceId != "" then map["trace_id" := Str(traceId)] else map[]
  }

  function NextMeta(next: Option<Json>): map<string, Json> {
    match next case Some(j) => map["next" := j] case None => map[]
  }

  /** What the worker store returns for a row. */
  function Project(id: Id, row: Row): WorkerTask {
    var e := Open(row.payload);
    WorkerTask(id, row.kind,
               if e.ok && e.payload.Some? then e.payload.value else row.payload,
               TextOf(row.priority), row.status,
               TraceMeta(e.traceContext) + TraceIdMeta(row.traceId) + NextMeta(e.next)
               + map["root_task_id" := Str(RootOf(id, row.parent))])
  }

  /** Builds the worker's task from a row, filling its metadata piece by piece. */
  method ProjectRow(id: Id, event: Row) returns (task: WorkerTask)
    ensures task == Project(id, event)
  {
    hide Open;
    var wrapper := Open(event.payload);
    var payload := event.payload;
    if wrapper.ok && wrapper.payload.Some? {
      payload := wrapper.payload.value;
    }

    var meta: map<string, Json> := map[];
    if wrapper.traceContext != "" {
      meta := meta["trace_context" := Str(wrapper.traceContext)];
    }
    ghost var traced := TraceMeta(wrapper.traceContext);
    assert meta == traced;
    if event.traceId != "" {
      meta := meta["trace_id" := Str(event.traceId)];
    }
    ghost var identified := traced + TraceIdMeta(event.traceId);
    assert meta == identified;
    if wrapper.next.Some? {
      meta := meta["next" := wrapper.next.value];
    }
    ghost var linked := identified + NextMeta(wrapper.next);
    assert meta == linked;
    var rootTaskId := id;
    if event.parent.Some? && event.parent.value != "" {
      rootTaskId := event.parent.value;
    }
    meta := meta["root_task_id" := Str(rootTaskId)];
    assert meta == linked + map["root_task_id" := Str(RootOf(id, event.parent))];

    var priority := "";
    if event.priority.Some? {
      priority := event.priority.value;
    }
    task := WorkerTask(id, event.kind, payload, priority, event.status, meta);
  }

  function MetaText(task: WorkerTask, name: string): string {
    if name in task.meta && task.meta[name].Str? then task.meta[name].text else ""
  }

  datatype ChainStep = NoLink | BadLink | Link(row: Row, launch: Command)

  /** Chaining's decision after the handler succeeded: nothing to do, an unreadable next link,
      or the row to save together with the queue call to make for it. */
  function Chain(task: WorkerTask, now: int): ChainStep {
    if "next" !in task.meta then NoLink
    else
      match Decode(task.meta["next"])
      case None => BadLink
      case Some(next) =>
        if next.kind == "" then NoLink
        else
          var root := MetaText(task, "root_task_id");
          Link(NewRow(next.kind, Marshal(next), MetaText(task, "trace_id"), next.priority,
                      if root == "" then task.id else root, next.executeAt, now),
               Launch(next.priority, next.executeAt))
  }

  /** The row of one link: the root's when parent is empty, a chained one's otherwise. */
  function LinkRow(r: TaskRequest, traceId: string, parent: string, now: int): Row {
    NewRow(r.kind, Marshal(r), traceId, r.priority, parent, r.executeAt, now)
  }

  /** Projecting a stored request recovers its payload, its family and its next link. */
  lemma ProjectStored(id: Id, row: Row, r: TaskRequest)
    requires row.payload == Marshal(r)
    ensures Project(id, row).payload == PayloadValue(r)
    ensures MetaText(Project(id, row), "root_task_id") == RootOf(id, row.parent)
    ensures MetaText(Project(id, row), "trace_id") == row.traceId
    ensures r.next.None? ==> "next" !in Project(id, row).meta
    ensures r.next.Some? ==> "next" in Project(id, row).meta && Project(id, row).meta["next"] == Marshal(r.next.value)
    ensures MetaText(Project(id, row), "trace_context") == r.traceContext
    ensures Project(id, row).id == id && Project(id, row).kind == row.kind && Project(id, row).status == row.status
    ensures Project(id, row).priority == if row.priority.Some? then row.priority.value else ""
  {
    hide Marshal, Open;
    OpenStored(r);
  }

  /** The link chaining creates after a stored request is the request's own following link,
      in the same family and trace. */
  lemma ChainFollows(id: Id, row: Row, r: TaskRequest, now: int)
    requires row.payload == Marshal(r) && id != ""
    ensures Chain(Project(id, row), now)
         == match Following(r)
            case None => NoLink
            case Some(n) => Link(LinkRow(n, row.traceId, RootOf(id, row.parent), now), Launch(n.priority, n.executeAt))
  {
    hide Marshal, Open, Project, Decode;
    ProjectStored(id, row, r);
    if r.next.Some? {
      RoundTrip(r.next.value);
      MarshalNormal(r.next.value);
    }
  }

  /** The rows that running a family to its end creates, one delivery per row; ids(k) is the id
      of the k-th and fuel bounds the number of deliveries. */
  function Unroll(ids: nat -> Id, k: nat, row: Row, now: int, fuel: nat): seq<Row>
    decreases fuel
  {
    [row] + if fuel == 0 then [] else
              match Chain(Project(ids(k), row), now)
              case Link(child, _) => Unroll(ids, k + 1, child, now, fuel - 1)
              case _ => []
  }

  /** Row and link agree on everything a worker or an administrator reads. */
  ghost predicate Carries(id: Id, row: Row, link: TaskRequest) {
    && row.kind == link.kind
    && Project(id, row).kind == link.kind
    && Project(id, row).payload == PayloadValue(link)
    && Project(id, row).priority == link.priority
    && row.priority == Column(link.priority)
    && row.scheduledAt == link.executeAt
    && row.status == Pending
  }

  lemma CarriesLink(id: Id, r: TaskRequest, trace: string, parent: string, now: int)
    ensures Carries(id, LinkRow(r, trace, parent, now), r)
  {
    hide Marshal, Open;
    ProjectStored(id, LinkRow(r, trace, parent, now), r);
  }

  lemma UnrollOne(ids: nat -> Id, k: nat, r: TaskRequest, trace: string, parent: string, now: int, fuel: nat)
    requires ids(k) != "" && ids(0) != "" && parent == (if k == 0 then "" else ids(0))
    requires fuel >= 1
    ensures Unroll(ids, k, LinkRow(r, trace, parent, now), now, fuel)
         == [LinkRow(r, trace, parent, now)]
            + match Following(r)
              case None => []
              case Some(n) => Unroll(ids, k + 1, LinkRow(n, trace, ids(0), now), now, fuel - 1)
  {
    hide Chain, Marshal, Project, Following;
    var row := LinkRow(r, trace, parent, now);
    ChainFollows(ids(k), row, r, now);
    assert RootOf(ids(k), row.parent) == ids(0);
  }

  lemma {:induction false} UnrollLinks(ids: nat -> Id, k: nat, r: TaskRequest, trace: string, parent: string, now: int, fuel: nat)
    requires forall i :: ids(i) != ""
    requires parent == (if k == 0 then "" else ids(0))
    requires fuel >= |Links(r)|
    ensures var rows := Unroll(ids, k, LinkRow(r, trace, parent, now), now, fuel);
            && |rows| == |Links(r)|
            && forall i :: 0 <= i < |rows| ==>
                 && Carries(ids(k + i), rows[i], Links(r)[i])
                 && rows[i].traceId == trace
                 && rows[i].parent == (if k + i == 0 then None else Some(ids(0)))
    decreases fuel
  {
    hide Chain, Marshal, Open, Carries, Unroll, Project;
    var row := LinkRow(r, trace, parent, now);
    CarriesLink(ids(k), r, trace, parent, now);
    UnrollOne(ids, k, r, trace, parent, now, fuel);
    if Following(r).Some? {
      var n := Following(r).value;
      UnrollLinks(ids, k + 1, n, trace, ids(0), now, fuel - 1);
      var rest := Unroll(ids, k + 1, LinkRow(n, trace, ids(0), now), now, fuel - 1);
      forall i | 0 <= i < |rest| + 1
        ensures Carries(ids(k + i), ([row] + rest)[i], Links(r)[i])
        ensures ([row] + rest)[i].traceId == trace
        ensures ([row] + rest)[i].parent == (if k + i == 0 then None else Some(ids(0)))
      {
        if i > 0 {
          assert ([row] + rest)[i] == rest[i - 1] && Links(r)[i] == Links(n)[i - 1];
          assert Carries(ids(k + 1 + (i - 1)), rest[i - 1], Links(n)[i - 1]);
        }
      }
    }
  }

  /** Unrolling preserves meaning: a submitted chain of any length becomes exactly one row per
      link, in order, each carrying its link's type, payload value, priority and schedule, all
      sharing the root's trace id, the chained ones naming the root as parent. */
  lemma UnrollPreservesMeaning(ids: nat -> Id, r: TaskRequest, trace: string, now: int, fuel: nat)
    requires forall i :: ids(i) != ""
    requires fuel >= |Links(r)|
    ensures var rows := Unroll(ids, 0, LinkRow(r, trace, "", now), now, fuel);
            && |rows| == |Links(r)|
            && forall i :: 0 <= i < |rows| ==>
                 && Carries(ids(i), rows[i], Links(r)[i])
                 && rows[i].traceId == trace
                 && rows[i].parent == (if i == 0 then None else Some(ids(0)))
  {
    UnrollLinks(ids, 0, r, trace, "", now, fuel);
  }
}
