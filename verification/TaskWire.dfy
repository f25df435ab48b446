/** The recursive task request and its JSON form: what create and chaining marshal into the
    text column, and what the worker store and chaining read back out of it. */
module TaskWire {
  import opened Prelude
  import opened Json

  datatype TaskRequest = TaskRequest(
    kind: string,
    payload: Option<Json>,
    priority: string,
    executeAt: Option<int>,
    next: Option<TaskRequest>,
    traceContext: string)

  const BLANK := TaskRequest("", None, "", None, None, "")

  /** An absent raw message marshals as null. */
  function PayloadValue(r: TaskRequest): Json {
    match r.payload case Some(v) => v case None => Null
  }

  function Marshal(r: TaskRequest): Json
    decreases r, 1
  {
    Obj([Member("type", Str(r.kind)), Member("payload", PayloadValue(r)), Member("priority", Str(r.priority))]
        + ExecuteAtMember(r) + NextMember(r) + TraceMember(r))
  }

  function ExecuteAtMember(r: TaskRequest): seq<Member> {
    match r.executeAt case Some(t) => [Member("execute_at", Stamp(t))] case None => []
  }

  function NextMember(r: TaskRequest): seq<Member>
    decreases r, 0
  {
    match r.next case Some(n) => [Member("next", Marshal(n))] case None => []
  }

  function TraceMember(r: TaskRequest): seq<Member> {
    if r.traceContext == "" then [] else [Member("trace_context", Str(r.traceContext))]
  }

  /** Decoding into an existing struct: null changes nothing, members apply in order, a second
      "next" merges into the first, unknown members are ignored, a type mismatch is an error. */
  function DecodeInto(base: TaskRequest, j: Json): Option<TaskRequest>
    decreases j
  {
    match j
    case Null => Some(base)
    case Obj(members) => DecodeMembers(base, members)
    case _ => None
  }

  function DecodeMembers(base: TaskRequest, members: seq<Member>): Option<TaskRequest>
    decreases members
  {
    if members == [] then Some(base)
    else
      match DecodeMembers(base, members[..|members| - 1])
      case None => None
      case Some(r) => DecodeMember(r, members[|members| - 1])
  }

  function DecodeMember(r: TaskRequest, m: Member): Option<TaskRequest>
    decreases m
  {
    if Names(m, "type") then
      match AsText(m.value) case Keep => Some(r) case Set(s) => Some(r.(kind := s)) case Mismatch => None
    else if Names(m, "payload") then Some(r.(payload := Some(m.value)))
    else if Names(m, "priority") then
      match AsText(m.value) case Keep => Some(r) case Set(s) => Some(r.(priority := s)) case Mismatch => None
    else if Names(m, "execute_at") then
      match m.value
      case Null => Some(r.(executeAt := None))
      case Stamp(t) => Some(r.(executeAt := Some(t)))
      case _ => None
    else if Names(m, "next") then
      if m.value.Null? then Some(r.(next := None))
      else
        match DecodeInto(if r.next.Some? then r.next.value else BLANK, m.value)
        case None => None
        case Some(n) => Some(r.(next := Some(n)))
    else if Names(m, "trace_context") then
      match AsText(m.value) case Keep => Some(r) case Set(s) => Some(r.(traceContext := s)) case Mismatch => None
    else Some(r)
  }

  function Decode(j: Json): Option<TaskRequest> {
    DecodeInto(BLANK, j)
  }

  /** What one trip through the wire makes of a request: absent payloads become null. */
  function Normal(r: TaskRequest): TaskRequest {
    r.(payload := Some(PayloadValue(r)),
       next := match r.next case Some(n) => Some(Normal(n)) case None => None)
  }

  lemma {:induction false} NormalTwice(r: TaskRequest)
    ensures Normal(Normal(r)) == Normal(r)
  {
    if r.next.Some? {
      NormalTwice(r.next.value);
    }
  }

  lemma {:induction false} MarshalNormal(r: TaskRequest)
    ensures Marshal(Normal(r)) == Marshal(r)
  {
    if r.next.Some? {
      MarshalNormal(r.next.value);
    }
  }

  lemma LowerCaseFolds(name: string)
    requires forall c :: c in name ==> 'a' <= c <= 'z' || c == '_'
    ensures Fold(name) == name
  {
    forall i | 0 <= i < |name|
      ensures Fold(name)[i] == name[i]
    {
      assert name[i] in name;
    }
  }

  lemma FieldNamesFold()
    ensures Fold("type") == "type" && Fold("payload") == "payload" && Fold("priority") == "priority"
    ensures Fold("execute_at") == "execute_at" && Fold("next") == "next"
    ensures Fold("trace_context") == "trace_context"
    ensures Fold("kind") == "kind" && Fold("key") == "key"
  {
    LowerCaseFolds("type");
    LowerCaseFolds("payload");
    LowerCaseFolds("priority");
    LowerCaseFolds("execute_at");
    LowerCaseFolds("next");
    LowerCaseFolds("trace_context");
    LowerCaseFolds("kind");
    LowerCaseFolds("key");
  }

  lemma DecodeAppend(base: TaskRequest, members: seq<Member>, m: Member)
    ensures DecodeMembers(base, members + [m])
         == match DecodeMembers(base, members) case None => None case Some(r) => DecodeMember(r, m)
  {
    assert (members + [m])[..|members|] == members;
  }

  /** Marshalling and reading back loses nothing but the difference between an absent payload
      and a null one, at every depth of the chain. */
  lemma {:induction false} RoundTrip(r: TaskRequest)
    ensures Decode(Marshal(r)) == Some(Normal(r))
  {
    hide Names, DecodeMembers;
    FieldNamesFold();
    var m1 := [Member("type", Str(r.kind))];
    var m2 := m1 + [Member("payload", PayloadValue(r))];
    var m3 := m2 + [Member("priority", Str(r.priority))];
    var m4 := m3 + ExecuteAtMember(r);
    var m5 := m4 + NextMember(r);
    var r1 := BLANK.(kind := r.kind);
    var r3 := r1.(payload := Some(PayloadValue(r)), priority := r.priority);
    var r4 := r3.(executeAt := r.executeAt);
    HeadDecodes(r);
    assert m3 == [Member("type", Str(r.kind)), Member("payload", PayloadValue(r)), Member("priority", Str(r.priority))];
    assert DecodeMembers(BLANK, m4) == Some(r4) by {
      if r.executeAt.Some? {
        DecodeAppend(BLANK, m3, ExecuteAtMember(r)[0]);
        ExecuteAtDecodes(r3, r.executeAt.value);
      } else {
        assert m4 == m3;
      }
    }
    var r5 := r4.(next := Normal(r).next);
    assert DecodeMembers(BLANK, m5) == Some(r5) by {
      if r.next.Some? {
        RoundTrip(r.next.value);
        DecodeAppend(BLANK, m4, NextMember(r)[0]);
        NextDecodes(r4, Marshal(r.next.value));
      } else {
        assert m5 == m4;
      }
    }
    if r.traceContext != "" {
      DecodeAppend(BLANK, m5, TraceMember(r)[0]);
      TraceDecodes(r5, r.traceContext);
    } else {
      assert m5 + TraceMember(r) == m5;
    }
  }

  lemma HeadDecodes(r: TaskRequest)
    ensures DecodeMembers(BLANK, [Member("type", Str(r.kind)), Member("payload", PayloadValue(r)), Member("priority", Str(r.priority))])
         == Some(BLANK.(kind := r.kind, payload := Some(PayloadValue(r)), priority := r.priority))
  {
    hide DecodeMember, DecodeMembers;
    var a := Member("type", Str(r.kind));
    var b := Member("payload", PayloadValue(r));
    var c := Member("priority", Str(r.priority));
    DecodeNone(BLANK);
    DecodeAppend(BLANK, [], a);
    DecodeAppend(BLANK, [a], b);
    DecodeAppend(BLANK, [a, b], c);
    assert [] + [a] == [a] && [a] + [b] == [a, b] && [a, b] + [c] == [a, b, c];
    KindDecodes(BLANK, r.kind);
    PayloadDecodes(BLANK.(kind := r.kind), PayloadValue(r));
    PriorityDecodes(BLANK.(kind := r.kind, payload := Some(PayloadValue(r))), r.priority);
  }

  lemma DecodeNone(base: TaskRequest)
    ensures DecodeMembers(base, []) == Some(base)
  {
  }

  lemma KindDecodes(r: TaskRequest, s: string)
    ensures DecodeMember(r, Member("type", Str(s))) == Some(r.(kind := s))
  {
    FieldNamesFold();
  }

  lemma PayloadDecodes(r: TaskRequest, j: Json)
    ensures DecodeMember(r, Member("payload", j)) == Some(r.(payload := Some(j)))
  {
    FieldNamesFold();
  }

  lemma PriorityDecodes(r: TaskRequest, s: string)
    ensures DecodeMember(r, Member("priority", Str(s))) == Some(r.(priority := s))
  {
    FieldNamesFold();
  }

  lemma ExecuteAtDecodes(r: TaskRequest, t: int)
    ensures DecodeMember(r, Member("execute_at", Stamp(t))) == Some(r.(executeAt := Some(t)))
  {
    FieldNamesFold();
  }

  lemma NextDecodes(r: TaskRequest, j: Json)
    requires r.next == None && !j.Null? && Decode(j).Some?
    ensures DecodeMember(r, Member("next", j)) == Some(r.(next := Decode(j)))
  {
    hide DecodeInto;
    FieldNamesFold();
  }

  lemma TraceDecodes(r: TaskRequest, s: string)
    ensures DecodeMember(r, Member("trace_context", Str(s))) == Some(r.(traceContext := s))
  {
    FieldNamesFold();
  }

  // ---- the worker store's narrower view of the same column ----

  /** The fields the worker store pulls out; ok is false when decoding reported an error, which
      leaves the fields seen so far in place. */
  datatype Envelope = Envelope(payload: Option<Json>, traceContext: string, next: Option<Json>, ok: bool)

  const EMPTY_ENVELOPE := Envelope(None, "", None, true)

  function OpenMember(e: Envelope, m: Member): Envelope {
    if Names(m, "payload") then e.(payload := Some(m.value))
    else if Names(m, "next") then e.(next := Some(m.value))
    else if Names(m, "trace_context") then
      match AsText(m.value)
      case Keep => e
      case Set(s) => e.(traceContext := s)
      case Mismatch => e.(ok := false)
    else e
  }

  function OpenMembers(members: seq<Member>): Envelope {
    if members == [] then EMPTY_ENVELOPE
    else OpenMember(OpenMembers(members[..|members| - 1]), members[|members| - 1])
  }

  function Open(j: Json): Envelope {
    match j
    case Null => EMPTY_ENVELOPE
    case Obj(members) => OpenMembers(members)
    case _ => EMPTY_ENVELOPE.(ok := false)
  }

  lemma OpenAppend(members: seq<Member>, m: Member)
    ensures OpenMembers(members + [m]) == OpenMember(OpenMembers(members), m)
  {
    assert (members + [m])[..|members|] == members;
  }

  /** Opening a marshalled request yields exactly its payload, its trace context and the
      marshalled next link. */
  lemma OpenStored(r: TaskRequest)
    ensures Open(Marshal(r))
         == Envelope(Some(PayloadValue(r)), r.traceContext, match r.next case Some(n) => Some(Marshal(n)) case None => None, true)
  {
    hide OpenMembers, Marshal;
    FieldNamesFold();
    var a := Member("type", Str(r.kind));
    var b := Member("payload", PayloadValue(r));
    var c := Member("priority", Str(r.priority));
    OpenHead(a, b, c);
    var head := [a, b, c];
    var m4 := head + ExecuteAtMember(r);
    var m5 := m4 + NextMember(r);
    assert OpenMembers(m4) == OpenMembers(head) by {
      if r.executeAt.Some? { OpenAppend(head, ExecuteAtMember(r)[0]); } else { assert m4 == head; }
    }
    if r.next.Some? { OpenAppend(m4, NextMember(r)[0]); } else { assert m5 == m4; }
    if r.traceContext != "" { OpenAppend(m5, TraceMember(r)[0]); } else { assert m5 + TraceMember(r) == m5; }
    MarshalIs(r);
  }

  lemma MarshalIs(r: TaskRequest)
    ensures Marshal(r) == Obj([Member("type", Str(r.kind)), Member("payload", PayloadValue(r)), Member("priority", Str(r.priority))]
                              + ExecuteAtMember(r) + NextMember(r) + TraceMember(r))
  {
  }

  lemma OpenHead(a: Member, b: Member, c: Member)
    requires a.name == "type" && b.name == "payload" && c.name == "priority"
    ensures OpenMembers([a, b, c]) == EMPTY_ENVELOPE.(payload := Some(b.value))
  {
    hide OpenMembers, Names;
    HeadNames(a, b, c);
    OpenNone();
    OpenAppend([], a);
    OpenAppend([a], b);
    OpenAppend([a, b], c);
    assert [] + [a] == [a] && [a] + [b] == [a, b] && [a, b] + [c] == [a, b, c];
  }

  lemma OpenNone()
    ensures OpenMembers([]) == EMPTY_ENVELOPE
  {
  }

  lemma HeadNames(a: Member, b: Member, c: Member)
    requires a.name == "type" && b.name == "payload" && c.name == "priority"
    ensures Names(b, "payload")
    ensures forall m :: m in [a, c] ==> !Names(m, "payload") && !Names(m, "next") && !Names(m, "trace_context")
  {
    FieldNamesFold();
  }

  // ---- the requeue handler's view ----

  /** Priority and execute_at as far as they decode; a mismatch leaves a field unset. */
  function ReadLaunchMembers(members: seq<Member>): (string, Option<int>) {
    if members == [] then ("", None)
    else
      var (priority, at) := ReadLaunchMembers(members[..|members| - 1]);
      var m := members[|members| - 1];
      if Names(m, "priority") then
        match AsText(m.value) case Set(s) => (s, at) case _ => (priority, at)
      else if Names(m, "execute_at") then
        match m.value case Null => (priority, None) case Stamp(t) => (priority, Some(t)) case _ => (priority, at)
      else (priority, at)
  }

  function ReadLaunch(j: Json): (string, Option<int>) {
    match j case Obj(members) => ReadLaunchMembers(members) case _ => ("", None)
  }

  lemma ReadLaunchAppend(members: seq<Member>, m: Member)
    ensures ReadLaunchMembers(members + [m])
         == var (priority, at) := ReadLaunchMembers(members);
            if Names(m, "priority") then
              match AsText(m.value) case Set(s) => (s, at) case _ => (priority, at)
            else if Names(m, "execute_at") then
              match m.value case Null => (priority, None) case Stamp(t) => (priority, Some(t)) case _ => (priority, at)
            else (priority, at)
  {
    assert (members + [m])[..|members|] == members;
  }

  /** A marshalled request gives its own priority and schedule back. */
  lemma LaunchOfMarshalled(r: TaskRequest)
    ensures ReadLaunch(Marshal(r)) == (r.priority, r.executeAt)
  {
    hide ReadLaunchMembers, Marshal;
    FieldNamesFold();
    var a := Member("type", Str(r.kind));
    var b := Member("payload", PayloadValue(r));
    var c := Member("priority", Str(r.priority));
    ReadLaunchHead(a, b, c);
    var head := [a, b, c];
    var m4 := head + ExecuteAtMember(r);
    var m5 := m4 + NextMember(r);
    if r.executeAt.Some? { ReadLaunchAppend(head, ExecuteAtMember(r)[0]); } else { assert m4 == head; }
    if r.next.Some? { ReadLaunchAppend(m4, NextMember(r)[0]); } else { assert m5 == m4; }
    if r.traceContext != "" { ReadLaunchAppend(m5, TraceMember(r)[0]); } else { assert m5 + TraceMember(r) == m5; }
    MarshalIs(r);
  }

  lemma ReadLaunchHead(a: Member, b: Member, c: Member)
    requires a.name == "type" && b.name == "payload" && c.name == "priority" && c.value.Str?
    ensures ReadLaunchMembers([a, b, c]) == (c.value.text, None)
  {
    FieldNamesFold();
    ReadLaunchAppend([], a);
    ReadLaunchAppend([a], b);
    ReadLaunchAppend([a, b], c);
    assert [] + [a] == [a] && [a] + [b] == [a, b] && [a, b] + [c] == [a, b, c];
  }

  // ---- chains ----

  /** A next link that chaining acts on: present and with a type. */
  function Named(next: Option<TaskRequest>): Option<TaskRequest> {
    if next.Some? && next.value.kind != "" then next else None
  }

  /** The link that runs after r, if any: chaining stops at an absent next or an empty type. */
  function Following(r: TaskRequest): Option<TaskRequest> {
    Named(r.next)
  }

  /** The links that run when every handler succeeds. */
  function Links(r: TaskRequest): (links: seq<TaskRequest>)
    ensures |links| > 0 && links[0] == r
  {
    [r] + match Following(r) case Some(n) => Links(n) case None => []
  }

  predicate IsSuffix(s: TaskRequest, r: TaskRequest) {
    s == r || (r.next.Some? && IsSuffix(s, r.next.value))
  }

  predicate IsProperSuffix(s: TaskRequest, r: TaskRequest) {
    r.next.Some? && IsSuffix(s, r.next.value)
  }

  function Depth(r: TaskRequest): (d: nat)
    ensures d > 0
  {
    1 + if r.next.Some? then Depth(r.next.value) else 0
  }

  lemma {:induction false} SuffixDepth(s: TaskRequest, r: TaskRequest)
    requires IsSuffix(s, r)
    ensures Depth(s) <= Depth(r)
    ensures Depth(s) == Depth(r) ==> s == r
  {
    if s != r {
      SuffixDepth(s, r.next.value);
    }
  }

  lemma {:induction false} NextOfSuffix(s: TaskRequest, r: TaskRequest)
    requires IsSuffix(s, r) && s.next.Some?
    ensures IsProperSuffix(s.next.value, r)
  {
    if s != r {
      NextOfSuffix(s, r.next.value);
    }
  }
}
