/** Draining terminates: without new work, every step lowers a measure, and workers make at most
    as many handler runs as there are links left behind outstanding tokens. */
module Draining {
  import opened Prelude
  import opened TaskWire
  import opened Records
  import opened Lifecycle
  import opened Effects
  import opened Ownership

  /** Chain links a token for this event can still run. */
  function LinksLeft(events: map<Id, Event>, id: Id): nat {
    if id in events then |Links(events[id].req)| else 0
  }

  function LinksBehind(t: Task): nat {
    match FollowingOf(t) case Some(n) => |Links(n)| case None => 0
  }

  /** Handler runs a process can still cause. */
  function RunsLeft(events: map<Id, Event>, q: Proc): nat {
    match q
    case CreateStart(sub) => |Links(StoredRequest(sub))|
    case CreateUnseen(sub) => |Links(StoredRequest(sub))|
    case CreateSaved(_, id) => LinksLeft(events, id)
    case CreateRecorded(_, id) => LinksLeft(events, id)
    case RetryReset(id, _) => LinksLeft(events, id)
    case DeadTaken(id) => LinksLeft(events, id)
    case RequeueRead(id) => LinksLeft(events, id)
    case Holding(id) => LinksLeft(events, id)
    case Running(t) => 1 + LinksBehind(t)
    case Sourced(t, _) => 1 + LinksBehind(t)
    case Uploaded(t) => 1 + LinksBehind(t)
    case Succeeded(t, _) => LinksBehind(t)
    case ChildSaved(t, child) => LinksLeft(events, child)
    case _ => 0
  }

  /** Calls a process makes before it is done, counting those of the token it may issue. */
  function Stage(q: Proc): nat {
    match q
    case CreateStart(_) => 15
    case CreateUnseen(_) => 14
    case CreateSaved(_, _) => 13
    case CreateRecorded(_, _) => 12
    case CreateUnqueued(_) => 1
    case RetryReset(_, _) => 12
    case DeadTaken(_) => 13
    case RequeueRead(_) => 12
    case Holding(_) => 9
    case Skipping(_) => 1
    case Running(_) => 8
    case Sourced(_, _) => 7
    case Uploaded(_) => 6
    case Succeeded(_, _) => 16
    case ChildSaved(_, _) => 15
    case Finished(_) => 2
    case RunFailed(_) => 2
    case Ended(_) => 1
    case Done => 0
  }

  const LINK_STEPS := 16

  function ProcCost(events: map<Id, Event>, q: Proc): nat {
    LINK_STEPS * RunsLeft(events, q) + Stage(q)
  }

  /** A price for every kind of token. */
  datatype Weights = Weights(ready: Ready -> nat, delayed: Delayed -> nat, proc: Proc -> nat)

  function RunWeights(events: map<Id, Event>): Weights {
    Weights((r: Ready) => LinksLeft(events, r.id), (d: Delayed) => LinksLeft(events, d.id), (q: Proc) => RunsLeft(events, q))
  }

  function StepWeights(events: map<Id, Event>): Weights {
    Weights((r: Ready) => LINK_STEPS * LinksLeft(events, r.id) + 10,
            (d: Delayed) => LINK_STEPS * LinksLeft(events, d.id) + 11,
            (q: Proc) => ProcCost(events, q))
  }

  ghost function Total(st: State, w: Weights): nat {
    Sum(st.ready, w.ready) + Sum(st.delayed, w.delayed) + Sum(st.procs, w.proc)
  }

  /** Handler runs behind all outstanding tokens: the sum of their remaining chain lengths. */
  ghost function Outstanding(st: State): nat {
    Total(st, RunWeights(st.events))
  }

  /** Bound on the steps left. */
  ghost function Measure(st: State): nat {
    Total(st, StepWeights(st.events))
  }

  /** Labels that bring work from outside: submissions, retries, requeues and put-backs. */
  predicate NewWork(l: Label) {
    l.Submit? || l.ResetTask? || l.TakeDead? || l.ReadPending? || l.PutBack?
  }

  /** Labels that move no token and no process. */
  predicate Idle(l: Label) {
    l.Tick? || l.Cancel? || l.Cleanup? || l.Bury?
  }

  // ---- one step, one process ----

  lemma LinksOfTask(events: map<Id, Event>, t: Task)
    requires TaskOk(events, t)
    ensures LinksLeft(events, t.id) == 1 + LinksBehind(t)
  {
  }

  /** A saved root has the links of its submission. */
  lemma LinksOfRoot(events: map<Id, Event>, sub: Submission, id: Id)
    requires SavedFor(events, sub, id)
    ensures LinksLeft(events, id) == |Links(StoredRequest(sub))|
  {
  }

  ghost predicate Pays(before: nat, after: nat, run: bool) {
    after + (if run then 1 else 0) <= before
  }

  /** What the acting process had covers what it keeps and the token it issues; a completed
      handler run costs one, and every step costs something. */
  ghost predicate ActorPays(st: State, l: Label, p: nat)
    requires Enabled(st, l)
  {
    && At(st, p) && At(Apply(st, l), p)
    && var q, q' := st.procs[p], Apply(st, l).procs[p];
       var (runs, steps) := IssuedCost(st, l);
       && Pays(RunsLeft(st.events, q), RunsLeft(Apply(st, l).events, q') + runs, l.RecordResult?)
       && ProcCost(Apply(st, l).events, q') + steps < ProcCost(st.events, q)
  }

  lemma SavedRootPays(st: State, l: Label)
    requires Enabled(st, l) && Owned(st) && l.SaveRoot?
    ensures ActorPays(st, l, l.p)
  {
    hide StorageKey, PayloadValue, Accepted, Links, StoredRequest, IsAdmitted, ApplyAdmin, ApplyWorker, ApplyChain,
      ApplyOther;
    assert st.procs[l.p] in st.procs && ProcOk(st.events, st.procs[l.p]);
    if !l.fault {
      LinksOfRoot(Apply(st, l).events, st.procs[l.p].sub, l.id);
    }
  }

  lemma CreatePays(st: State, l: Label)
    requires Enabled(st, l) && Owned(st) && (l.CheckKey? || l.RecordKey? || l.MarkFailed?)
    ensures ActorPays(st, l, l.p)
  {
    hide StorageKey, ParamsDecode, SourceKey, PayloadValue, Accepted, Links, StoredRequest, LinksLeft, SubmissionKey,
      FileResult, IsId, RootEvent, ChildEvent, KeyOfTask, RemoveAt, ApplyAdmin, ApplyWorker, ApplyChain, ApplyOther;
  }

  lemma LaunchedRootPays(st: State, l: Label)
    requires Enabled(st, l) && Owned(st) && l.LaunchRoot?
    ensures ActorPays(st, l, l.p)
  {
    hide StorageKey, ParamsDecode, SourceKey, PayloadValue, Accepted, Links, StoredRequest, LinksLeft, SubmissionKey,
      FileResult, IsId, RootEvent, ChildEvent, KeyOfTask, RemoveAt, ApplyAdmin, ApplyWorker, ApplyChain, ApplyOther;
  }

  lemma ReaderPays(st: State, l: Label)
    requires Enabled(st, l) && Owned(st) && l.GetTask?
    ensures ActorPays(st, l, l.p)
  {
    hide StorageKey, ParamsDecode, SourceKey, PayloadValue, Links, LinksBehind, ApplyCreate, ApplyAdmin, ApplyChain,
      ApplyOther;
    assert st.procs[l.p] in st.procs && ProcOk(st.events, st.procs[l.p]);
    TaskRead(st.events, st.procs[l.p].id);
    LinksOfTask(st.events, TaskOf(st.procs[l.p].id, st.events[st.procs[l.p].id]));
  }

  lemma HandlerPays(st: State, l: Label)
    requires Enabled(st, l) && (l.FindSource? || l.Upload? || l.Fail?)
    ensures ActorPays(st, l, l.p)
  {
    hide StorageKey, ParamsDecode, SourceKey, PayloadValue, Links, LinksLeft, LinksBehind, FileResult, IsId,
      RootEvent, ChildEvent, KeyOfTask, RemoveAt, ApplyCreate, ApplyAdmin, ApplyChain, ApplyOther;
  }

  lemma EndingPays(st: State, l: Label)
    requires Enabled(st, l) && (l.Skip? || l.WriteStatus?)
    ensures ActorPays(st, l, l.p)
  {
    hide StorageKey, ParamsDecode, SourceKey, PayloadValue, Links, LinksLeft, LinksBehind, FileResult, IsId,
      RootEvent, ChildEvent, KeyOfTask, RemoveAt, ApplyCreate, ApplyAdmin, ApplyChain, ApplyOther;
  }

  lemma HandledPays(st: State, l: Label)
    requires Enabled(st, l) && Owned(st) && (l.RecordResult? || l.EndChain?)
    ensures ActorPays(st, l, l.p)
  {
    hide StorageKey, ParamsDecode, SourceKey, FileResult, Links, ApplyCreate, ApplyAdmin, ApplyWorker, ApplyOther;
  }

  lemma SavedChildPays(st: State, l: Label)
    requires Enabled(st, l) && Owned(st) && l.SaveChild?
    ensures ActorPays(st, l, l.p)
  {
    hide StorageKey, ParamsDecode, SourceKey, FileResult, Links, LinksLeft, LinksBehind, ApplyCreate, ApplyAdmin,
      ApplyWorker, ApplyOther;
    if !l.fault { ChildLinks(st, l); }
  }

  lemma LaunchedChildPays(st: State, l: Label)
    requires Enabled(st, l) && Owned(st) && l.LaunchChild?
    ensures ActorPays(st, l, l.p)
  {
    hide StorageKey, ParamsDecode, SourceKey, FileResult, Links, LinksLeft, LinksBehind, ApplyCreate, ApplyAdmin,
      ApplyWorker, ApplyOther;
  }

  lemma DeadResetPays(st: State, l: Label)
    requires Enabled(st, l) && Owned(st) && l.ResetDead?
    ensures ActorPays(st, l, l.p)
  {
    hide StorageKey, ParamsDecode, SourceKey, FileResult, Links, IsId, RootEvent, ChildEvent, KeyOfTask, RemoveAt,
      ApplyCreate, ApplyWorker, ApplyChain, ApplyOther;
  }

  lemma RetriedPays(st: State, l: Label)
    requires Enabled(st, l) && Owned(st) && l.LaunchRetry?
    ensures ActorPays(st, l, l.p)
  {
    hide StorageKey, ParamsDecode, SourceKey, FileResult, Links, IsId, RootEvent, ChildEvent, KeyOfTask, RemoveAt,
      ApplyCreate, ApplyWorker, ApplyChain, ApplyOther;
  }

  lemma RequeuedPays(st: State, l: Label)
    requires Enabled(st, l) && Owned(st) && l.LaunchRequeue?
    ensures ActorPays(st, l, l.p)
  {
    hide StorageKey, ParamsDecode, SourceKey, FileResult, Links, IsId, RootEvent, ChildEvent, KeyOfTask, RemoveAt,
      ApplyCreate, ApplyWorker, ApplyChain, ApplyOther;
  }

  lemma SomeonePays(st: State, l: Label, p: nat)
    requires Enabled(st, l) && Owned(st) && !NewWork(l)
    requires Actor(st, l) == Some(p) && p < |st.procs|
    ensures ActorPays(st, l, p)
  {
    hide Apply, Enabled, Owned, ActorPays;
    if l.SaveRoot? {
      SavedRootPays(st, l);
    } else if l.LaunchRoot? {
      LaunchedRootPays(st, l);
    } else if IsCreate(l) {
      CreatePays(st, l);
    } else if l.GetTask? {
      ReaderPays(st, l);
    } else if l.Skip? || l.WriteStatus? {
      EndingPays(st, l);
    } else if IsWorker(l) {
      HandlerPays(st, l);
    } else if l.RecordResult? || l.EndChain? {
      HandledPays(st, l);
    } else if l.SaveChild? {
      SavedChildPays(st, l);
    } else if l.LaunchChild? {
      LaunchedChildPays(st, l);
    } else if l.ResetDead? {
      DeadResetPays(st, l);
    } else if l.LaunchRetry? {
      RetriedPays(st, l);
    } else if l.LaunchRequeue? {
      RequeuedPays(st, l);
    }
  }

  lemma TaskRead(events: map<Id, Event>, id: Id)
    requires id in events
    ensures TaskOk(events, TaskOf(id, events[id]))
  {
  }

  lemma ChildLinks(st: State, l: Label)
    requires Enabled(st, l) && l.SaveChild? && !l.fault
    ensures LinksLeft(Apply(st, l).events, l.id) == LinksBehind(st.procs[l.p].task)
  {
  }

  function TokenCost(w: Weights, id: Id, command: Command): nat {
    match command
    case Enqueue(priority) => w.ready(Ready(id, priority))
    case Schedule(priority, at) => w.delayed(Delayed(id, priority, at))
  }

  /** Runs and steps carried by the token a label issues. */
  function IssuedCost(st: State, l: Label): (nat, nat)
    requires Enabled(st, l)
  {
    match Issued(st, l)
    case None => (0, 0)
    case Some((id, command)) =>
      (TokenCost(RunWeights(st.events), id, command), TokenCost(StepWeights(st.events), id, command))
  }

  // ---- one step, all tokens ----

  lemma LinksKept(a: map<Id, Event>, b: map<Id, Event>, id: Id)
    requires Grown(a, b) && id in a
    ensures LinksLeft(a, id) == LinksLeft(b, id)
  {
  }

  lemma RunsKept(a: map<Id, Event>, b: map<Id, Event>, q: Proc)
    requires Grown(a, b) && ProcOk(a, q)
    ensures RunsLeft(a, q) == RunsLeft(b, q)
  {
    hide Links, StoredRequest, IsAdmitted, SavedFor;
    if q.CreateSaved? || q.CreateRecorded? {
      SavedExists(a, q);
    }
  }

  lemma SavedExists(events: map<Id, Event>, q: Proc)
    requires ProcOk(events, q) && (q.CreateSaved? || q.CreateRecorded?)
    ensures q.id in events
  {
  }

  /** Costs are the same read against a grown table. */
  lemma TotalsKept(st: State, events: map<Id, Event>)
    requires Owned(st) && Grown(st.events, events)
    ensures Total(st, RunWeights(st.events)) == Total(st, RunWeights(events))
    ensures Total(st, StepWeights(st.events)) == Total(st, StepWeights(events))
  {
    hide ProcOk, RunsLeft, LinksLeft;
    forall r | r in st.ready ensures LinksLeft(st.events, r.id) == LinksLeft(events, r.id) { LinksKept(st.events, events, r.id); }
    forall d | d in st.delayed ensures LinksLeft(st.events, d.id) == LinksLeft(events, d.id) { LinksKept(st.events, events, d.id); }
    forall q | q in st.procs ensures RunsLeft(st.events, q) == RunsLeft(events, q) { RunsKept(st.events, events, q); }
    var a, b := RunWeights(st.events), RunWeights(events);
    SumSame(st.ready, a.ready, b.ready);
    SumSame(st.delayed, a.delayed, b.delayed);
    SumSame(st.procs, a.proc, b.proc);
    var c, d := StepWeights(st.events), StepWeights(events);
    SumSame(st.ready, c.ready, d.ready);
    SumSame(st.delayed, c.delayed, d.delayed);
    SumSame(st.procs, c.proc, d.proc);
  }

  /** Under any prices, a step of an existing process changes the total by what the process had,
      what it keeps, and the token it issues. */
  lemma MoveTotal(st: State, l: Label, p: nat, w: Weights)
    requires Enabled(st, l) && Actor(st, l) == Some(p) && p < |st.procs|
    ensures At(Apply(st, l), p)
    ensures var token := if Issued(st, l).Some? then TokenCost(w, Issued(st, l).value.0, Issued(st, l).value.1) else 0;
            Total(Apply(st, l), w) + w.proc(st.procs[p]) == Total(st, w) + w.proc(Apply(st, l).procs[p]) + token
  {
    hide Apply, Enabled, Issued, Sum;
    var next := Apply(st, l);
    QueueEffect(st, l);
    ActorMoves(st, l, p);
    assert next.procs == st.procs[p := next.procs[p]];
    SumUpdate(st.procs, p, next.procs[p], w.proc);
    if Issued(st, l).Some? {
      var (id, command) := Issued(st, l).value;
      match command
      case Enqueue(priority) => SumAppend(st.ready, Ready(id, priority), w.ready);
      case Schedule(priority, at) => SumAppend(st.delayed, Delayed(id, priority, at), w.delayed);
    }
  }

  lemma ActorMoves(st: State, l: Label, p: nat)
    requires Enabled(st, l) && Actor(st, l) == Some(p) && p < |st.procs|
    ensures !l.Promote? && !l.Dequeue?
    ensures |Apply(st, l).procs| == |st.procs|
    ensures forall k :: 0 <= k < |st.procs| && k != p ==> Apply(st, l).procs[k] == st.procs[k]
  {
    OneMoves(st, l);
    assert |Apply(st, l).procs| == |st.procs| + 1 ==> Actor(st, l) == Some(|st.procs|);
  }

  lemma DequeueTotal(st: State, l: Label, w: Weights)
    requires Enabled(st, l) && l.Dequeue?
    ensures l.i < |st.ready|
    ensures Total(Apply(st, l), w) + w.ready(st.ready[l.i]) == Total(st, w) + w.proc(Holding(st.ready[l.i].id))
  {
    hide Sum;
    SumRemove(st.ready, l.i, w.ready);
    SumAppend(st.procs, Holding(st.ready[l.i].id), w.proc);
  }

  lemma PromoteTotal(st: State, l: Label, w: Weights)
    requires Enabled(st, l) && l.Promote?
    ensures l.i < |st.delayed|
    ensures var d := st.delayed[l.i];
            Total(Apply(st, l), w) + w.delayed(d) == Total(st, w) + w.ready(Ready(d.id, d.priority))
  {
    hide Sum;
    SumRemove(st.delayed, l.i, w.delayed);
    SumAppend(st.ready, Ready(st.delayed[l.i].id, st.delayed[l.i].priority), w.ready);
  }

  lemma IdleTotal(st: State, l: Label, w: Weights)
    requires Enabled(st, l) && Idle(l)
    ensures Total(Apply(st, l), w) == Total(st, w)
  {
  }

  lemma NonActors(st: State, l: Label)
    requires Enabled(st, l) && !NewWork(l)
    ensures l.Dequeue? || l.Promote? || Idle(l) || (Actor(st, l).Some? && Actor(st, l).value < |st.procs|)
  {
  }

  /** Without new work, no step adds runs, a completed handler run uses one up, and every step
      that moves anything lowers the measure. */
  lemma DrainStep(st: State, l: Label)
    requires Enabled(st, l) && Owned(st) && !NewWork(l)
    ensures Outstanding(Apply(st, l)) + (if l.RecordResult? then 1 else 0) <= Outstanding(st)
    ensures Measure(Apply(st, l)) + (if Idle(l) then 0 else 1) <= Measure(st)
  {
    hide Apply, Enabled, Owned, Total, Issued, Actor;
    var next := Apply(st, l);
    StepGrows(st, l);
    TotalsKept(st, next.events);
    NonActors(st, l);
    var r, s := RunWeights(next.events), StepWeights(next.events);
    if l.Dequeue? {
      DequeueTotal(st, l, r);
      DequeueTotal(st, l, s);
    } else if l.Promote? {
      PromoteTotal(st, l, r);
      PromoteTotal(st, l, s);
    } else if Idle(l) {
      IdleTotal(st, l, r);
      IdleTotal(st, l, s);
    } else {
      var p := Actor(st, l).value;
      MoveTotal(st, l, p, r);
      MoveTotal(st, l, p, s);
      SomeonePays(st, l, p);
      OldCosts(st, l, p);
    }
  }

  /** The payer's old price and its token's price do not depend on the events just added. */
  lemma OldCosts(st: State, l: Label, p: nat)
    requires Enabled(st, l) && Owned(st) && Actor(st, l) == Some(p) && p < |st.procs|
    ensures RunsLeft(st.events, st.procs[p]) == RunsLeft(Apply(st, l).events, st.procs[p])
    ensures Issued(st, l).Some? ==>
              var (id, command) := Issued(st, l).value;
              && TokenCost(RunWeights(st.events), id, command) == TokenCost(RunWeights(Apply(st, l).events), id, command)
              && TokenCost(StepWeights(st.events), id, command) == TokenCost(StepWeights(Apply(st, l).events), id, command)
  {
    hide Apply, Enabled, Issued, Actor, ProcOk, RunsLeft, LinksLeft;
    StepGrows(st, l);
    assert st.procs[p] in st.procs;
    RunsKept(st.events, Apply(st, l).events, st.procs[p]);
    if Issued(st, l).Some? {
      IssuedExists(st, l);
      LinksKept(st.events, Apply(st, l).events, Issued(st, l).value.0);
    }
  }

  // ---- whole runs ----

  function HandlerRuns(ls: seq<Label>): nat {
    if ls == [] then 0 else HandlerRuns(ls[..|ls| - 1]) + if ls[|ls| - 1].RecordResult? then 1 else 0
  }

  function Moves(ls: seq<Label>): nat {
    if ls == [] then 0 else Moves(ls[..|ls| - 1]) + if Idle(ls[|ls| - 1]) then 0 else 1
  }

  /** Draining terminates: with no new submissions, retries, requeues or put-backs, any run makes
      at most Outstanding handler runs and at most Measure moves, although runs create new tasks. */
  lemma {:induction false} DrainRun(st: State, ls: seq<Label>)
    requires CanRun(st, ls) && Owned(st)
    requires forall l :: l in ls ==> !NewWork(l)
    ensures Owned(After(st, ls))
    ensures HandlerRuns(ls) + Outstanding(After(st, ls)) <= Outstanding(st)
    ensures Moves(ls) + Measure(After(st, ls)) <= Measure(st)
    decreases |ls|
  {
    hide Apply, Enabled, Owned, Outstanding, Measure, NewWork, Idle;
    if ls != [] {
      var before := ls[..|ls| - 1];
      assert forall l :: l in before ==> l in ls;
      DrainRun(st, before);
      OwnedStep(After(st, before), ls[|ls| - 1]);
      DrainStep(After(st, before), ls[|ls| - 1]);
    }
  }
}
