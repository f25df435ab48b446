/** What a submitted request must satisfy: the payload validator and the checks of the create
    handler that come before the idempotency check. */
module Admission {
  import opened Prelude
  import opened Json
  import opened TaskWire

  // ---- decoding payload structs ----

  /** A string field of a struct decoded from these members; None is a type mismatch. */
  function MembersText(members: seq<Member>, field: string): Option<string> {
    if members == [] then Some("")
    else
      match MembersText(members[..|members| - 1], field)
      case None => None
      case Some(before) =>
        var m := members[|members| - 1];
        if !Names(m, field) then Some(before)
        else
          match AsText(m.value) case Keep => Some(before) case Set(s) => Some(s) case Mismatch => None
  }

  const INT64_MIN := -0x8000_0000_0000_0000
  const INT64_MAX := 0x7FFF_FFFF_FFFF_FFFF

  /** An int field; fractions, exponents and values outside 64 bits are mismatches. */
  function MembersInt(members: seq<Member>, field: string): Option<int> {
    if members == [] then Some(0)
    else
      match MembersInt(members[..|members| - 1], field)
      case None => None
      case Some(before) =>
        var m := members[|members| - 1];
        if !Names(m, field) then Some(before)
        else
          match m.value
          case Null => Some(before)
          case Num(Whole(n)) => if INT64_MIN <= n <= INT64_MAX then Some(n) else None
          case _ => None
  }

  /** Null decodes to the zero struct, anything but an object is an error. */
  function StructMembers(payload: Json): Option<seq<Member>> {
    match payload
    case Null => Some([])
    case Obj(members) => Some(members)
    case _ => None
  }

  function TextField(payload: Json, field: string): Option<string> {
    match StructMembers(payload) case None => None case Some(ms) => MembersText(ms, field)
  }

  function IntField(payload: Json, field: string): Option<int> {
    match StructMembers(payload) case None => None case Some(ms) => MembersInt(ms, field)
  }

  // ---- the validator ----

  datatype Verdict =
    | Valid | BadFormat | UrlRequired | SizeRequired | BadMode | BadOutputFormat | BadQuality | Unsupported

  function Validate(kind: string, payload: Json): Verdict {
    if kind == "resize_image" then ValidateResize(payload)
    else if kind == "scrape_url" then
      match TextField(payload, "url")
      case None => BadFormat
      case Some(url) => if url == "" then UrlRequired else Valid
    else if kind == "generate_report" then
      if StructMembers(payload).None? then BadFormat else Valid
    else Unsupported
  }

  function ValidateResize(payload: Json): Verdict {
    match (TextField(payload, "image_url"), IntField(payload, "width"), IntField(payload, "height"),
           TextField(payload, "mode"), TextField(payload, "output_format"), IntField(payload, "quality"))
    case (Some(url), Some(width), Some(height), Some(mode), Some(format), Some(quality)) =>
      if url == "" then UrlRequired
      else if width <= 0 || height <= 0 then SizeRequired
      else if mode != "" && mode != "fit" && mode != "fill" && mode != "stretch" then BadMode
      else if format != "" && format != "jpeg" && format != "png" then BadOutputFormat
      else if quality < 0 || quality > 100 then BadQuality
      else Valid
    case _ => BadFormat
  }

  // ---- the create handler's checks ----

  datatype Refusal =
    | BadBody | MissingType | DirectReport | MissingPayload | PastExecuteAt
    | InvalidPayload(verdict: Verdict) | NextTypeEmpty | InvalidNext(verdict: Verdict)

  function Defaulted(r: TaskRequest): TaskRequest {
    if r.priority == "" then r.(priority := "medium") else r
  }

  /** The handler's checks in its own order; None of a body is one that is not JSON. */
  function Admit(body: Option<Json>, now: int): Result<TaskRequest, Refusal> {
    match body
    case None => Err(BadBody)
    case Some(j) =>
      match Decode(j)
      case None => Err(BadBody)
      case Some(r) =>
        if r.kind == "" then Err(MissingType)
        else if r.kind == "generate_report" then Err(DirectReport)
        else if r.payload.None? then Err(MissingPayload)
        else if r.executeAt.Some? && r.executeAt.value < now then Err(PastExecuteAt)
        else if Validate(r.kind, r.payload.value) != Valid then Err(InvalidPayload(Validate(r.kind, r.payload.value)))
        else if r.next.Some? && r.next.value.kind == "" then Err(NextTypeEmpty)
        else if r.next.Some? && r.next.value.payload.Some?
                && Validate(r.next.value.kind, r.next.value.payload.value) != Valid then
          Err(InvalidNext(Validate(r.next.value.kind, r.next.value.payload.value)))
        else Ok(Defaulted(r))
  }

  // ---- fields, read without recursion ----

  /** Member i is a non-null value for this field. */
  predicate Hit(ms: seq<Member>, i: nat, field: string) {
    i < |ms| && Names(ms[i], field) && !ms[i].value.Null?
  }

  ghost predicate LastHit(ms: seq<Member>, i: nat, field: string) {
    Hit(ms, i, field) && forall k: nat :: Hit(ms, k, field) ==> k <= i
  }

  ghost predicate NoHit(ms: seq<Member>, field: string) {
    forall i: nat :: !Hit(ms, i, field)
  }

  lemma HitsBefore(ms: seq<Member>, field: string)
    requires ms != []
    ensures forall i: nat :: Hit(ms[..|ms| - 1], i, field) <==> Hit(ms, i, field) && i < |ms| - 1
    ensures forall i: nat :: LastHit(ms, i, field) && i < |ms| - 1 ==> LastHit(ms[..|ms| - 1], i, field)
    ensures Hit(ms, |ms| - 1, field) ==> forall i: nat :: LastHit(ms, i, field) ==> i == |ms| - 1
    ensures NoHit(ms, field) ==> NoHit(ms[..|ms| - 1], field)
  {
    var before := ms[..|ms| - 1];
    assert forall i: nat :: Hit(before, i, field) <==> Hit(ms, i, field) && i < |ms| - 1;
    forall i: nat | LastHit(ms, i, field) && i < |ms| - 1
      ensures LastHit(before, i, field)
    {
      assert forall k: nat :: Hit(before, k, field) ==> Hit(ms, k, field);
    }
  }

  /** A string field is the last string given for it, "" when none is; it fails to decode exactly
      when some member gives it a value that is neither null nor a string. */
  lemma {:induction false} TextFieldExactly(ms: seq<Member>, field: string)
    ensures TextField(Obj(ms), field).None? <==> exists i: nat :: Hit(ms, i, field) && !ms[i].value.Str? && !ms[i].value.Stamp?
    ensures forall i: nat :: TextField(Obj(ms), field).Some? && LastHit(ms, i, field) && ms[i].value.Str? ==>
                               TextField(Obj(ms), field).value == ms[i].value.text
    ensures NoHit(ms, field) ==> TextField(Obj(ms), field) == Some("")
    decreases |ms|
  {
    hide LastHit, Names;
    assert TextField(Obj(ms), field) == MembersText(ms, field);
    if ms == [] {
      assert forall i: nat :: LastHit(ms, i, field) ==> Hit(ms, i, field) by { LastIsHit(ms, field); }
    } else {
      var before, m := ms[..|ms| - 1], ms[|ms| - 1];
      TextFieldExactly(before, field);
      HitsBefore(ms, field);
      LastIsHit(ms, field);
      assert TextField(Obj(before), field) == MembersText(before, field);
      if Names(m, field) && !m.value.Null? {
        assert Hit(ms, |ms| - 1, field);
      }
    }
  }

  lemma LastIsHit(ms: seq<Member>, field: string)
    ensures forall i: nat :: LastHit(ms, i, field) ==> Hit(ms, i, field)
  {
  }

  predicate IsInt64(v: Json) {
    v.Num? && v.number.Whole? && -0x8000_0000_0000_0000 <= v.number.n <= 0x7FFF_FFFF_FFFF_FFFF
  }

  /** An int field likewise: the last whole number of 64 bits given for it, 0 when none is. */
  lemma {:induction false} IntFieldExactly(ms: seq<Member>, field: string)
    ensures IntField(Obj(ms), field).None? <==> exists i: nat :: Hit(ms, i, field) && !IsInt64(ms[i].value)
    ensures forall i: nat :: IntField(Obj(ms), field).Some? && LastHit(ms, i, field) && IsInt64(ms[i].value) ==>
                               IntField(Obj(ms), field).value == ms[i].value.number.n
    ensures NoHit(ms, field) ==> IntField(Obj(ms), field) == Some(0)
    decreases |ms|
  {
    hide LastHit, Names;
    assert IntField(Obj(ms), field) == MembersInt(ms, field);
    if ms == [] {
      assert forall i: nat :: LastHit(ms, i, field) ==> Hit(ms, i, field) by { LastIsHit(ms, field); }
    } else {
      var before, m := ms[..|ms| - 1], ms[|ms| - 1];
      IntFieldExactly(before, field);
      HitsBefore(ms, field);
      LastIsHit(ms, field);
      assert IntField(Obj(before), field) == MembersInt(before, field);
      if Names(m, field) && !m.value.Null? {
        assert Hit(ms, |ms| - 1, field);
      }
    }
  }

  /** A decoded request's texts are those fields; its payload is the last one given, null included. */
  lemma {:induction false} DecodedFields(ms: seq<Member>)
    requires Decode(Obj(ms)).Some?
    ensures var r := Decode(Obj(ms)).value;
            && TextField(Obj(ms), "type") == Some(r.kind)
            && TextField(Obj(ms), "priority") == Some(r.priority)
            && TextField(Obj(ms), "trace_context") == Some(r.traceContext)
    ensures forall i: nat :: i < |ms| && Names(ms[i], "payload") && (forall k :: i < k < |ms| ==> !Names(ms[k], "payload")) ==>
                               Decode(Obj(ms)).value.payload == Some(ms[i].value)
    ensures (forall i: nat :: i < |ms| ==> !Names(ms[i], "payload")) ==> Decode(Obj(ms)).value.payload == None
    decreases |ms|
  {
    hide Names;
    assert Decode(Obj(ms)) == DecodeMembers(BLANK, ms);
    if ms == [] {
      assert MembersText(ms, "type") == Some("") && MembersText(ms, "priority") == Some("") && MembersText(ms, "trace_context") == Some("");
    } else {
      var before, m := ms[..|ms| - 1], ms[|ms| - 1];
      assert Decode(Obj(before)) == DecodeMembers(BLANK, before);
      assert DecodeMembers(BLANK, ms) == match DecodeMembers(BLANK, before) case None => None case Some(r) => DecodeMember(r, m);
      DecodedFields(before);
      DistinctFields(m);
      TextStep(ms, "type");
      TextStep(ms, "priority");
      TextStep(ms, "trace_context");
      assert forall i: nat :: i < |before| ==> before[i] == ms[i];
    }
  }

  lemma TextStep(ms: seq<Member>, field: string)
    requires ms != []
    ensures TextField(Obj(ms), field)
         == var before := TextField(Obj(ms[..|ms| - 1]), field);
            if before.None? || !Names(ms[|ms| - 1], field) then before
            else match AsText(ms[|ms| - 1].value) case Keep => before case Set(s) => Some(s) case Mismatch => None
  {
  }

  lemma DistinctFields(m: Member)
    ensures Names(m, "type") ==>
              && !Names(m, "payload") && !Names(m, "priority") && !Names(m, "execute_at")
              && !Names(m, "next") && !Names(m, "trace_context")
    ensures Names(m, "payload") ==> !Names(m, "priority") && !Names(m, "execute_at") && !Names(m, "next") && !Names(m, "trace_context")
    ensures Names(m, "priority") ==> !Names(m, "execute_at") && !Names(m, "next") && !Names(m, "trace_context")
    ensures Names(m, "execute_at") ==> !Names(m, "next") && !Names(m, "trace_context")
    ensures Names(m, "next") ==> !Names(m, "trace_context")
  {
    assert |"type"| == 4 && |"payload"| == 7 && |"priority"| == 8 && |"execute_at"| == 10 && |"trace_context"| == 13;
    assert "type"[0] != "next"[0];
  }

  /** A member that names none of the six fields changes nothing, wherever it stands. */
  lemma {:induction false} UnknownMembersIgnored(a: seq<Member>, m: Member, b: seq<Member>)
    requires Unknown(m)
    ensures Decode(Obj(a + [m] + b)) == Decode(Obj(a + b))
    decreases |b|
  {
    hide Names, DecodeMembers;
    if b == [] {
      assert a + [m] + b == a + [m] && a + b == a;
      DecodeAppend(BLANK, a, m);
      UnknownMember(m);
    } else {
      var front, last := b[..|b| - 1], b[|b| - 1];
      UnknownMembersIgnored(a, m, front);
      assert a + [m] + b == (a + [m] + front) + [last] && a + b == (a + front) + [last];
      DecodeAppend(BLANK, a + [m] + front, last);
      DecodeAppend(BLANK, a + front, last);
    }
  }

  predicate Unknown(m: Member) {
    forall f :: f in ["type", "payload", "priority", "execute_at", "next", "trace_context"] ==> !Names(m, f)
  }

  lemma UnknownMember(m: Member)
    requires Unknown(m)
    ensures forall r :: DecodeMember(r, m) == Some(r)
  {
    hide Names;
    var known := ["type", "payload", "priority", "execute_at", "next", "trace_context"];
    assert known[0] in known && known[1] in known && known[2] in known && known[3] in known && known[4] in known && known[5] in known;
  }

  // ---- what is admitted ----

  /** Parameters of a resize: a url, a positive size, a known mode and format, a percentage. */
  ghost predicate ResizeParams(p: Json) {
    && TextField(p, "image_url").Some? && TextField(p, "image_url").value != ""
    && IntField(p, "width").Some? && IntField(p, "width").value >= 1
    && IntField(p, "height").Some? && IntField(p, "height").value >= 1
    && TextField(p, "mode").Some? && TextField(p, "mode").value in ["", "fit", "fill", "stretch"]
    && TextField(p, "output_format").Some? && TextField(p, "output_format").value in ["", "jpeg", "png"]
    && IntField(p, "quality").Some? && 0 <= IntField(p, "quality").value <= 100
  }

  ghost predicate ScrapeParams(p: Json) {
    TextField(p, "url").Some? && TextField(p, "url").value != ""
  }

  /** A known type with parameters of that type; a report takes any object, and null. */
  ghost predicate ParamsFor(kind: string, p: Json) {
    || (kind == "resize_image" && ResizeParams(p))
    || (kind == "scrape_url" && ScrapeParams(p))
    || (kind == "generate_report" && (p.Obj? || p.Null?))
  }

  /** Exactly the parameters the validator accepts. */
  lemma ValidExactly(kind: string, payload: Json)
    ensures Validate(kind, payload) == Valid <==> ParamsFor(kind, payload)
  {
    hide TextField, IntField, ValidateResize, ResizeParams;
    ValidResize(payload);
  }

  lemma ValidResize(payload: Json)
    ensures ValidateResize(payload) == Valid <==> ResizeParams(payload)
  {
    hide TextField, IntField;
  }

  /** What every admitted request satisfies: one of the two submittable types with parameters of
      that type in an object, a priority, no past schedule, and a first link that is named and, if
      it has a payload, has parameters of its type. */
  ghost predicate Admissible(r: TaskRequest, now: int) {
    && (r.kind == "resize_image" || r.kind == "scrape_url")
    && r.payload.Some? && r.payload.value.Obj? && ParamsFor(r.kind, r.payload.value)
    && r.priority != ""
    && (r.executeAt.Some? ==> now <= r.executeAt.value)
    && (r.next.Some? ==> r.next.value.kind != "")
    && (r.next.Some? && r.next.value.payload.Some? ==>
          && ParamsFor(r.next.value.kind, r.next.value.payload.value)
          && (r.next.value.payload.value.Obj? || (r.next.value.kind == "generate_report" && r.next.value.payload.value.Null?))
          && r.next.value.kind in ["resize_image", "scrape_url", "generate_report"])
  }

  lemma NothingInNull(field: string)
    ensures TextField(Null, field) == Some("") && IntField(Null, field) == Some(0)
  {
  }

  /** The validator accepts only known types, and an accepted payload is an object, except that
      generate_report also takes null. */
  lemma ValidPayloadShape(kind: string, payload: Json)
    requires Validate(kind, payload) == Valid
    ensures kind in ["resize_image", "scrape_url", "generate_report"]
    ensures payload.Obj? || (kind == "generate_report" && payload.Null?)
  {
    NothingInNull("url");
    NothingInNull("image_url");
  }

  lemma AdmittedShape(body: Option<Json>, now: int)
    requires Admit(body, now).Ok?
    ensures Admissible(Admit(body, now).value, now)
  {
    hide Validate, ParamsFor;
    var r := Decode(body.value).value;
    ValidExactly(r.kind, r.payload.value);
    ValidPayloadShape(r.kind, r.payload.value);
    if r.next.Some? && r.next.value.payload.Some? {
      ValidExactly(r.next.value.kind, r.next.value.payload.value);
      ValidPayloadShape(r.next.value.kind, r.next.value.payload.value);
    }
  }

  /** Exactly when a decoded request is admitted, whatever order the checks run in; an admitted one
      keeps everything but an empty priority, which becomes medium. */
  lemma AdmittedExactly(j: Json, now: int)
    requires Decode(j).Some?
    ensures var r := Decode(j).value;
            Admit(Some(j), now).Ok? <==>
              && r.kind != "generate_report"
              && r.payload.Some? && ParamsFor(r.kind, r.payload.value)
              && (r.executeAt.Some? ==> now <= r.executeAt.value)
              && (r.next.Some? ==>
                    && r.next.value.kind != ""
                    && (r.next.value.payload.Some? ==> ParamsFor(r.next.value.kind, r.next.value.payload.value)))
    ensures Admit(Some(j), now).Ok? ==>
              var r := Decode(j).value;
              Admit(Some(j), now).value == if r.priority == "" then r.(priority := "medium") else r
  {
    hide Decode, Validate, ParamsFor;
    var r := Decode(j).value;
    if r.payload.Some? {
      ValidExactly(r.kind, r.payload.value);
      ValidExactly("", r.payload.value);
      NoParamsForNoType(r.payload.value);
    }
    if r.next.Some? && r.next.value.payload.Some? {
      ValidExactly(r.next.value.kind, r.next.value.payload.value);
    }
  }

  lemma NoParamsForNoType(p: Json)
    ensures !ParamsFor("", p)
  {
  }

  /** The reason of a refusal, in the order the checks are made. */
  lemma RefusedBecause(j: Json, now: int)
    requires Decode(j).Some?
    ensures var r := Decode(j).value;
            var answer := Admit(Some(j), now);
            && (answer == Err(MissingType) <==> r.kind == "")
            && (answer == Err(DirectReport) <==> r.kind == "generate_report")
            && (answer == Err(MissingPayload) <==> r.kind !in ["", "generate_report"] && r.payload.None?)
            && (answer == Err(PastExecuteAt) <==>
                  r.kind !in ["", "generate_report"] && r.payload.Some? && r.executeAt.Some? && r.executeAt.value < now)
            && (answer.Err? && answer.error.InvalidPayload? <==>
                  && r.kind !in ["", "generate_report"] && r.payload.Some? && !(r.executeAt.Some? && r.executeAt.value < now)
                  && !ParamsFor(r.kind, r.payload.value))
            && (answer == Err(NextTypeEmpty) ==> r.next.Some? && r.next.value.kind == "")
            && (answer.Err? && answer.error.InvalidNext? ==>
                  r.next.Some? && r.next.value.payload.Some? && !ParamsFor(r.next.value.kind, r.next.value.payload.value))
    ensures Admit(None, now) == Err(BadBody)
  {
    hide Decode, Validate, ParamsFor;
    var r := Decode(j).value;
    if r.payload.Some? { ValidExactly(r.kind, r.payload.value); }
    if r.next.Some? && r.next.value.payload.Some? {
      ValidExactly(r.next.value.kind, r.next.value.payload.value);
    }
  }

  /** The request with everything behind its first link replaced. */
  function Rechained(r: TaskRequest, rest: Option<TaskRequest>): TaskRequest
    requires r.next.Some?
  {
    r.(next := Some(r.next.value.(next := rest)))
  }

  /** The checks stop one link down: whatever chain stands behind an accepted request's first link,
      the request is accepted just the same. */
  lemma DeeperLinksUnchecked(r: TaskRequest, rest: Option<TaskRequest>, now: int)
    requires r.next.Some? && Admit(Some(Marshal(r)), now).Ok?
    ensures Admit(Some(Marshal(Rechained(r, rest))), now) == Ok(Defaulted(Normal(Rechained(r, rest))))
  {
    hide Marshal, Decode, Validate, Admit, ParamsFor;
    RoundTrip(r);
    RoundTrip(Rechained(r, rest));
    AdmittedExactly(Marshal(r), now);
    AdmittedExactly(Marshal(Rechained(r, rest)), now);
  }
}
