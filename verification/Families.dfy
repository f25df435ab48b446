/** Chained families: every chained event carries a proper suffix of its root's chain, the forest
    is flat, and the children of a root are exactly what its chain produced. */
module Families {
  import opened Prelude
  import opened TaskWire
  import opened Records
  import opened Lifecycle
  import opened Effects
  import opened Ownership

  function RootId(id: Id, e: Event): Id {
    if e.parent.Some? then e.parent.value else id
  }

  ghost predicate ColumnsAgree(e: Event) {
    && e.kind == e.req.kind
    && e.priority == Column(e.req.priority)
    && e.scheduledAt == e.req.executeAt
  }

  /** A root is submittable and prioritised; a chained event names an earlier root of the same
      trace and carries a proper suffix of that root's request. */
  ghost predicate MemberOk(events: map<Id, Event>, creator: map<Id, nat>, id: Id, e: Event) {
    match e.parent
    case None => (e.kind == RESIZE || e.kind == SCRAPE) && e.req.priority != "" && id !in creator
    case Some(r) =>
      && r in events && events[r].parent == None
      && IsProperSuffix(e.req, events[r].req)
      && e.traceId == events[r].traceId
      && events[r].createdAt <= e.createdAt
      && e.kind != ""
      && id in creator
  }

  ghost predicate FamiliesOk(st: State) {
    && st.hist.creator.Keys <= st.events.Keys
    && forall id :: id in st.events ==>
      && IsId(id)
      && ColumnsAgree(st.events[id])
      && st.events[id].createdAt <= st.now
      && MemberOk(st.events, st.hist.creator, id, st.events[id])
  }

  /** Recording a result appends a run of the recorder's event, and nothing else about runs moves. */
  lemma RunRecorded(st: State, l: Label)
    requires Enabled(st, l) && l.RecordResult?
    ensures At(st, l.p) && st.procs[l.p].Uploaded?
    ensures Apply(st, l).hist.log == st.hist.log + [Success(st.procs[l.p].task.id)]
    ensures Apply(st, l).procs == st.procs[l.p := Succeeded(st.procs[l.p].task, |st.hist.log|)]
    ensures Apply(st, l).hist.creator == st.hist.creator && Apply(st, l).hist.lost == st.hist.lost
  {
    hide StorageKey, ParamsDecode, SourceKey, FileResult, Accepted, IsId, SubmissionKey, RootEvent, ChildEvent,
      TaskOf, KeyOfTask, Launch, RequeueCommand, RetryPriority, RemoveAt, Retryable, ApplyCreate, ApplyAdmin,
      ApplyWorker, ApplyOther;
  }

  lemma ChildSavedEffect(st: State, l: Label)
    requires Enabled(st, l) && l.SaveChild?
    ensures At(st, l.p) && st.procs[l.p].Succeeded? && FollowingOf(st.procs[l.p].task).Some?
    ensures IsId(l.id)
    ensures l.fault ==>
              && Apply(st, l).events == st.events
              && Apply(st, l).hist.lost == st.hist.lost + {st.procs[l.p].run}
              && Apply(st, l).hist.creator == st.hist.creator
              && Apply(st, l).procs == st.procs[l.p := RunFailed(st.procs[l.p].task.id)]
    ensures !l.fault ==>
              && l.id !in st.events
              && Apply(st, l).hist.lost == st.hist.lost
              && Apply(st, l).hist.creator == st.hist.creator[l.id := st.procs[l.p].run]
              && Apply(st, l).procs == st.procs[l.p := ChildSaved(st.procs[l.p].task, l.id)]
              && Apply(st, l).events == st.events[l.id := ChildEvent(st.procs[l.p].task, FollowingOf(st.procs[l.p].task).value, st.now)]
  {
    hide StorageKey, ParamsDecode, SourceKey, FileResult, Accepted, IsId, SubmissionKey, RootEvent, ChildEvent,
      TaskOf, KeyOfTask, Launch, RequeueCommand, RetryPriority, RemoveAt, Retryable, ApplyCreate, ApplyAdmin,
      ApplyWorker, ApplyOther;
  }

  lemma RootSavedEffect(st: State, l: Label)
    requires Enabled(st, l) && l.SaveRoot?
    ensures At(st, l.p) && st.procs[l.p].CreateUnseen? && IsId(l.id)
    ensures Apply(st, l).events == if l.fault then st.events else st.events[l.id := RootEvent(st.procs[l.p].sub, st.now)]
  {
    hide StorageKey, ParamsDecode, SourceKey, FileResult, Accepted, IsId, SubmissionKey, RootEvent, ChildEvent,
      TaskOf, KeyOfTask, Launch, RequeueCommand, RetryPriority, RemoveAt, Retryable, ApplyAdmin, ApplyWorker, ApplyChain, ApplyOther;
  }

  /** Events appear only by a create or a chain step, with these contents. */
  lemma NewEvents(st: State, l: Label, id: Id)
    requires Enabled(st, l) && id in Apply(st, l).events && id !in st.events
    ensures IsId(id)
    ensures Actor(st, l).Some? && Actor(st, l).value < |st.procs|
    ensures var q := st.procs[Actor(st, l).value];
            || (q.CreateUnseen? && Apply(st, l).events[id] == RootEvent(q.sub, st.now)
                && Apply(st, l).hist.creator == st.hist.creator)
            || (q.Succeeded? && FollowingOf(q.task).Some?
                && Apply(st, l).events[id] == ChildEvent(q.task, FollowingOf(q.task).value, st.now)
                && Apply(st, l).hist.creator == st.hist.creator[id := q.run])
  {
    hide Apply, Enabled, RootEvent, ChildEvent, IsId;
    StepEffect(st, l);
    assert id in Apply(st, l).events.Keys && id !in st.events.Keys;
    if l.SaveRoot? {
      RootSavedEffect(st, l);
    } else if l.SaveChild? {
      ChildSavedEffect(st, l);
    }
  }

  lemma CreatorsGrow(st: State, l: Label)
    requires Enabled(st, l)
    ensures st.now <= Apply(st, l).now
    ensures forall c :: c in Apply(st, l).hist.creator ==> c in st.hist.creator || (c in Apply(st, l).events && c !in st.events)
    ensures forall c :: c in st.hist.creator && c in st.events ==>
                          c in Apply(st, l).hist.creator && Apply(st, l).hist.creator[c] == st.hist.creator[c]
  {
    hide Apply, Enabled, ChildEvent;
    StepEffect(st, l);
    if l.SaveChild? { ChildSavedEffect(st, l); }
  }

  lemma NewRootOk(events: map<Id, Event>, creator: map<Id, nat>, id: Id, sub: Submission, now: int)
    requires IsAdmitted(sub) && id !in creator
    ensures ColumnsAgree(RootEvent(sub, now)) && MemberOk(events, creator, id, RootEvent(sub, now))
  {
  }

  lemma NewChildOk(st: State, next: map<Id, Event>, creator: map<Id, nat>, id: Id, t: Task)
    requires FamiliesOk(st) && TaskOk(st.events, t) && FollowingOf(t).Some?
    requires Grown(st.events, next) && id in creator
    ensures var e := ChildEvent(t, FollowingOf(t).value, st.now); ColumnsAgree(e) && MemberOk(next, creator, id, e)
  {
    var parent := st.events[t.id];
    if parent.parent.Some? {
      var root := st.events[parent.parent.value];
      NextOfSuffix(parent.req, root.req);
    }
  }

  lemma OldMemberOk(st: State, next: State, id: Id)
    requires FamiliesOk(st) && id in st.events
    requires Grown(st.events, next.events) && st.now <= next.now
    requires forall c :: c in next.hist.creator ==> c in st.hist.creator || (c in next.events && c !in st.events)
    requires forall c :: c in st.hist.creator && c in st.events ==> c in next.hist.creator
    ensures IsId(id) && ColumnsAgree(next.events[id]) && next.events[id].createdAt <= next.now
    ensures MemberOk(next.events, next.hist.creator, id, next.events[id])
  {
  }

  lemma NewMemberOk(st: State, l: Label, id: Id)
    requires Enabled(st, l) && Owned(st) && FamiliesOk(st)
    requires id in Apply(st, l).events && id !in st.events
    ensures var next := Apply(st, l);
            && IsId(id) && ColumnsAgree(next.events[id]) && next.events[id].createdAt <= next.now
            && MemberOk(next.events, next.hist.creator, id, next.events[id])
  {
    hide Apply, Enabled, Actor, MemberOk, ColumnsAgree, IsId, RootEvent, ChildEvent;
    var next := Apply(st, l);
    StepGrows(st, l);
    CreatorsGrow(st, l);
    NewEvents(st, l, id);
    var q := st.procs[Actor(st, l).value];
    assert q in st.procs && ProcOk(st.events, q);
    FreshDates(q, st.now);
    if q.CreateUnseen? {
      NewRootOk(next.events, next.hist.creator, id, q.sub, st.now);
    } else {
      NewChildOk(st, next.events, next.hist.creator, id, q.task);
    }
  }

  lemma FamiliesStep(st: State, l: Label)
    requires Enabled(st, l) && Owned(st) && FamiliesOk(st)
    ensures FamiliesOk(Apply(st, l))
  {
    hide Apply, Enabled, Owned, MemberOk, ColumnsAgree, IsId;
    var next := Apply(st, l);
    StepGrows(st, l);
    CreatorsGrow(st, l);
    forall id | id in next.events
      ensures IsId(id) && ColumnsAgree(next.events[id]) && next.events[id].createdAt <= next.now
      ensures MemberOk(next.events, next.hist.creator, id, next.events[id])
    {
      if id in st.events {
        OldMemberOk(st, next, id);
      } else {
        NewMemberOk(st, l, id);
      }
    }
  }

  lemma FreshDates(q: Proc, now: int)
    ensures q.CreateUnseen? ==> RootEvent(q.sub, now).createdAt == now
    ensures q.Succeeded? && FollowingOf(q.task).Some? ==> ChildEvent(q.task, FollowingOf(q.task).value, now).createdAt == now
  {
  }
}
