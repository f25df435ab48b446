/** The idempotency race: when duplicates can be accepted, and what a duplicate answer names. */
module Dedup {
  import opened Prelude
  import opened JsonText
  import opened TaskWire
  import opened Records
  import opened Idempotency
  import opened Lifecycle
  import opened Effects
  import opened Ownership

  /** The stored request has the submission's type, payload value and priority. */
  ghost predicate SameRequest(e: Event, sub: Submission) {
    && e.req.kind == sub.req.kind
    && e.req.payload == sub.req.payload
    && e.req.priority == sub.req.priority
  }

  ghost predicate KeyRowOk(st: State, key: string) {
    && key in st.keys && key in st.hist.subs
    && SubmissionKey(st.hist.subs[key]) == key
    && IsAdmitted(st.hist.subs[key])
    && SavedFor(st.events, st.hist.subs[key], st.keys[key].eventId)
  }

  ghost predicate AnswerOk(st: State, e: Entry) {
    e.Duplicate? ==> e.id in st.events && SameRequest(st.events[e.id], e.sub)
  }

  /** The row behind a completed insert is still there, or has expired. */
  ghost predicate RowOrExpired(st: State, e: Entry) {
    e.Recorded? ==>
      || e.expiresAt < st.now
      || (e.key in st.keys && st.keys[e.key].expiresAt == e.expiresAt && (e.inserted ==> st.keys[e.key].eventId == e.id))
  }

  /** A row is written for thirty days, counted in nanoseconds. */
  ghost predicate Window(e: Entry) {
    e.Recorded? && e.inserted ==> e.expiresAt == e.at + 2_592_000_000_000_000
  }

  /** What an earlier insert says about a later entry for the same key. */
  ghost predicate Ordered(earlier: Entry, later: Entry) {
    && (earlier.Recorded? && later.Passed? && earlier.key == later.key ==> earlier.expiresAt <= later.at)
    && (earlier.Recorded? && later.Recorded? && later.inserted && earlier.key == later.key ==>
          earlier.expiresAt < later.at)
  }

  /** Every row was put there by an insert that completed. */
  ghost predicate RowLogged(st: State, key: string) {
    key in st.keys && exists i :: 0 <= i < |st.hist.log| && WroteRow(st.hist.log[i], key, st.keys[key])
  }

  predicate WroteRow(e: Entry, key: string, row: KeyRow) {
    e.Recorded? && e.key == key && e.inserted && e.id == row.eventId && e.expiresAt == row.expiresAt
  }

  ghost predicate DedupOk(st: State) {
    && (forall key :: key in st.keys ==> KeyRowOk(st, key) && RowLogged(st, key))
    && (forall i :: 0 <= i < |st.hist.log| ==>
          AnswerOk(st, st.hist.log[i]) && RowOrExpired(st, st.hist.log[i]) && Window(st.hist.log[i]))
    && (forall i, j :: 0 <= i < j < |st.hist.log| ==> Ordered(st.hist.log[i], st.hist.log[j]))
  }

  // ---- steps ----

  lemma CleanupEffect(st: State, l: Label)
    requires Enabled(st, l) && l.Cleanup?
    ensures Apply(st, l).now == st.now
    ensures forall key :: key in Apply(st, l).keys ==> key in st.keys && Apply(st, l).keys[key] == st.keys[key]
    ensures forall key :: key in st.keys ==> key in Apply(st, l).keys || st.keys[key].expiresAt < st.now
  {
    hide Enabled, StorageKey, ParamsDecode, SourceKey, FileResult, Accepted, IsId, SubmissionKey, RootEvent,
      ChildEvent, TaskOf, KeyOfTask, Launch, RequeueCommand, RetryPriority, RemoveAt, Retryable, ApplyCreate,
      ApplyAdmin, ApplyWorker, ApplyChain;
  }

  /** Keys change by a first insert and by cleanup only; every other step leaves keys alone. */
  lemma KeyEffect(st: State, l: Label)
    requires Enabled(st, l)
    ensures st.now <= Apply(st, l).now
    ensures !l.RecordKey? && !l.Cleanup? ==> Apply(st, l).keys == st.keys
    ensures !l.RecordKey? ==> Apply(st, l).hist.subs == st.hist.subs
    ensures forall key :: key in Apply(st, l).keys && key in st.keys ==> Apply(st, l).keys[key] == st.keys[key]
    ensures l.Cleanup? ==> forall key :: key in st.keys ==> key in Apply(st, l).keys || st.keys[key].expiresAt < Apply(st, l).now
    ensures l.Cleanup? ==> forall key :: key in Apply(st, l).keys ==> key in st.keys
  {
    hide Apply, Enabled, SubmissionKey;
    StepEffect(st, l);
    if l.RecordKey? { CreateEffect(st, l); }
    if l.Cleanup? { CleanupEffect(st, l); }
  }

  /** The two steps of the create handler that touch the key table, spelled out. */
  lemma CreateEffect(st: State, l: Label)
    requires Enabled(st, l) && (l.CheckKey? || l.RecordKey?)
    ensures At(st, l.p) && (l.CheckKey? ==> st.procs[l.p].CreateStart?) && (l.RecordKey? ==> st.procs[l.p].CreateSaved?)
    ensures Apply(st, l).now == st.now && Apply(st, l).events == st.events
    ensures var sub := st.procs[l.p].sub;
            var key := SubmissionKey(sub);
            var next := Apply(st, l);
            if l.fault then next.keys == st.keys && next.hist.subs == st.hist.subs && next.hist.log == st.hist.log
            else if l.CheckKey? then
              && next.keys == st.keys
              && if key in st.keys && st.keys[key].expiresAt > st.now
                 then next.hist.log == st.hist.log + [Duplicate(sub, st.keys[key].eventId)]
                 else next.hist.log == st.hist.log + [Passed(key, st.now)]
            else if key in st.keys then
              && next.keys == st.keys && next.hist.subs == st.hist.subs
              && next.hist.log == st.hist.log + [Recorded(key, st.procs[l.p].id, false, st.now, st.keys[key].expiresAt)]
            else
              && next.keys == st.keys[key := KeyRow(st.procs[l.p].id, st.now + THIRTY_DAYS)]
              && next.hist.subs == st.hist.subs[key := sub]
              && next.hist.log == st.hist.log + [Recorded(key, st.procs[l.p].id, true, st.now, st.now + THIRTY_DAYS)]
  {
    hide StorageKey, ParamsDecode, SourceKey, FileResult, Accepted, RootEvent, ChildEvent, SubmissionKey, ApplyAdmin,
      ApplyWorker, ApplyChain, ApplyOther;
  }

  lemma KeyRowsStep(st: State, l: Label)
    requires Enabled(st, l) && Owned(st) && DedupOk(st)
    ensures forall key :: key in Apply(st, l).keys ==> KeyRowOk(Apply(st, l), key)
  {
    hide Apply, Enabled, SubmissionKey, IsAdmitted, RootEvent, RowLogged;
    var next := Apply(st, l);
    StepGrows(st, l);
    KeyEffect(st, l);
    if l.RecordKey? {
      CreateEffect(st, l);
      assert st.procs[l.p] in st.procs && ProcOk(st.events, st.procs[l.p]);
    }
    forall key | key in next.keys
      ensures KeyRowOk(next, key)
    {
      if key in st.keys {
        assert KeyRowOk(st, key);
      }
    }
  }

  lemma RowsLoggedStep(st: State, l: Label)
    requires Enabled(st, l) && DedupOk(st)
    ensures forall key :: key in Apply(st, l).keys ==> RowLogged(Apply(st, l), key)
  {
    hide Apply, Enabled, SubmissionKey, KeyRowOk, AnswerOk, RowOrExpired, Ordered;
    var next := Apply(st, l);
    KeyEffect(st, l);
    LogGrows(st, l);
    if l.RecordKey? { CreateEffect(st, l); }
    forall key | key in next.keys
      ensures RowLogged(next, key)
    {
      if key in st.keys {
        assert RowLogged(st, key);
        var i :| 0 <= i < |st.hist.log| && WroteRow(st.hist.log[i], key, st.keys[key]);
        assert WroteRow(next.hist.log[i], key, next.keys[key]);
      } else {
        assert WroteRow(next.hist.log[|st.hist.log|], key, next.keys[key]);
      }
    }
  }

  /** A live row under a submission's key names an event that stores the same request. */
  lemma KeyNamesSameRequest(st: State, sub: Submission)
    requires DedupOk(st) && IsAdmitted(sub) && SubmissionKey(sub) in st.keys
    ensures st.keys[SubmissionKey(sub)].eventId in st.events
    ensures SameRequest(st.events[st.keys[SubmissionKey(sub)].eventId], sub)
  {
    hide KeyOf, IsObjectText, ValueOf;
    var key := SubmissionKey(sub);
    assert KeyRowOk(st, key);
    var other := st.hist.subs[key];
    assert ':' !in RESIZE && ':' !in SCRAPE;
    KeyDeterminesRequest(sub.req.kind, sub.raw, sub.req.priority, other.req.kind, other.raw, other.req.priority);
  }

  lemma AnswersStep(st: State, l: Label)
    requires Enabled(st, l) && Owned(st) && DedupOk(st)
    ensures forall i :: 0 <= i < |Apply(st, l).hist.log| ==> AnswerOk(Apply(st, l), Apply(st, l).hist.log[i])
  {
    hide Apply, Enabled, SubmissionKey, IsAdmitted, RootEvent, RowLogged, KeyRowOk, RowOrExpired, Ordered;
    var next := Apply(st, l);
    StepGrows(st, l);
    LogGrows(st, l);
    forall i | 0 <= i < |next.hist.log|
      ensures AnswerOk(next, next.hist.log[i])
    {
      if i < |st.hist.log| {
        assert AnswerOk(st, st.hist.log[i]);
      } else if l.CheckKey? {
        CreateEffect(st, l);
        assert st.procs[l.p] in st.procs && ProcOk(st.events, st.procs[l.p]);
        if SubmissionKey(st.procs[l.p].sub) in st.keys {
          KeyNamesSameRequest(st, st.procs[l.p].sub);
        }
      } else if l.RecordKey? {
        CreateEffect(st, l);
      }
    }
  }

  lemma RowsStep(st: State, l: Label)
    requires Enabled(st, l) && DedupOk(st)
    ensures forall i :: 0 <= i < |Apply(st, l).hist.log| ==> RowOrExpired(Apply(st, l), Apply(st, l).hist.log[i])
    ensures forall i :: 0 <= i < |Apply(st, l).hist.log| ==> Window(Apply(st, l).hist.log[i])
  {
    hide Apply, Enabled, SubmissionKey, IsAdmitted, RootEvent, RowLogged, KeyRowOk, AnswerOk, Ordered;
    var next := Apply(st, l);
    LogGrows(st, l);
    KeyEffect(st, l);
    if l.CheckKey? || l.RecordKey? { CreateEffect(st, l); }
    forall i | 0 <= i < |next.hist.log|
      ensures RowOrExpired(next, next.hist.log[i]) && Window(next.hist.log[i])
    {
      if i < |st.hist.log| {
        assert RowOrExpired(st, st.hist.log[i]) && Window(st.hist.log[i]);
      }
    }
  }

  lemma OrderStep(st: State, l: Label)
    requires Enabled(st, l) && DedupOk(st)
    ensures forall i, j :: 0 <= i < j < |Apply(st, l).hist.log| ==> Ordered(Apply(st, l).hist.log[i], Apply(st, l).hist.log[j])
  {
    hide Apply, Enabled, SubmissionKey, IsAdmitted, RootEvent, RowLogged, KeyRowOk, AnswerOk;
    var next := Apply(st, l);
    LogGrows(st, l);
    if l.CheckKey? || l.RecordKey? { CreateEffect(st, l); }
    forall i, j | 0 <= i < j < |next.hist.log|
      ensures Ordered(next.hist.log[i], next.hist.log[j])
    {
      if j < |st.hist.log| {
        assert Ordered(st.hist.log[i], st.hist.log[j]);
      } else {
        assert RowOrExpired(st, st.hist.log[i]);
      }
    }
  }

  lemma DedupStep(st: State, l: Label)
    requires Enabled(st, l) && Owned(st) && DedupOk(st)
    ensures DedupOk(Apply(st, l))
  {
    hide Apply, Enabled, KeyRowOk, RowLogged, AnswerOk, RowOrExpired, Ordered;
    KeyRowsStep(st, l);
    RowsLoggedStep(st, l);
    AnswersStep(st, l);
    RowsStep(st, l);
    OrderStep(st, l);
  }

  // ---- exactly one insert wins ----

  function Inserts(log: seq<Entry>, key: string): nat {
    if log == [] then 0
    else Inserts(log[..|log| - 1], key) + if Wins(log[|log| - 1], key) then 1 else 0
  }

  predicate Wins(e: Entry, key: string) {
    e.Recorded? && e.key == key && e.inserted
  }

  predicate Touches(e: Entry, key: string) {
    e.Recorded? && e.key == key
  }

  lemma LogExtended(log: seq<Entry>, base: nat, e: Entry, key: string)
    requires base <= |log|
    ensures Inserts((log + [e])[base..], key) == Inserts(log[base..], key) + if Wins(e, key) then 1 else 0
    ensures Touched((log + [e])[base..], key) <==> Touched(log[base..], key) || Touches(e, key)
  {
    var recent := (log + [e])[base..];
    assert recent == log[base..] + [e];
    assert recent[..|recent| - 1] == log[base..];
    assert recent[|log| - base] == e;
    forall k | k in log[base..] ensures k in recent {}
  }

  predicate Touched(log: seq<Entry>, key: string) {
    exists e :: e in log && Touches(e, key)
  }

  /** From a state without the key, as long as nothing is cleaned up: however many creates
      record it in whatever order, exactly one of them reports "not already processed". */
  lemma {:induction false} ExactlyOneInsertWins(st: State, ls: seq<Label>, key: string)
    requires CanRun(st, ls) && key !in st.keys
    requires forall l :: l in ls ==> !l.Cleanup?
    ensures |st.hist.log| <= |After(st, ls).hist.log|
    ensures var recent := After(st, ls).hist.log[|st.hist.log|..];
            && Inserts(recent, key) == (if Touched(recent, key) then 1 else 0)
            && (Touched(recent, key) <==> key in After(st, ls).keys)
    decreases |ls|
  {
    hide Apply, Enabled, SubmissionKey, Inserts, Touched;
    var base := |st.hist.log|;
    if ls == [] {
      assert st.hist.log[base..] == [];
      NothingTouched(key);
    } else {
      var before := ls[..|ls| - 1];
      var l := ls[|ls| - 1];
      assert forall k :: k in before ==> k in ls;
      ExactlyOneInsertWins(st, before, key);
      var mid := After(st, before);
      var next := After(st, ls);
      LogGrows(mid, l);
      KeyEffect(mid, l);
      if l.CheckKey? || l.RecordKey? { CreateEffect(mid, l); }
      if |next.hist.log| == |mid.hist.log| {
        assert next.hist.log == mid.hist.log;
      } else {
        var e := next.hist.log[|mid.hist.log|];
        assert next.hist.log == mid.hist.log + [e];
        LogExtended(mid.hist.log, base, e, key);
      }
    }
  }

  lemma NothingTouched(key: string)
    ensures Inserts([], key) == 0 && !Touched([], key)
  {
  }
}
