/** JSON values as the standard decoder hands them to the program, and its rule for matching
    object members to struct fields. */
module Json {
  datatype Number = Whole(n: int) | Inexact(literal: string)

  datatype Member = Member(name: string, value: Json)

  /** Stamp(t) is the date-time string of an execute_at member, kept as the instant it denotes;
      any other string is a Str. */
  datatype Json =
    | Null
    | Bool(flag: bool)
    | Num(number: Number)
    | Str(text: string)
    | Stamp(at: int)
    | Arr(items: seq<Json>)
    | Obj(members: seq<Member>)

  /** Struct fields match member names up to simple case folding; the two non-ASCII letters
      are the ones that fold to 's' and 'k'. */
  function FoldChar(c: char): char {
    if 'A' <= c <= 'Z' then (c as int + 32) as char
    else if c == '\U{017F}' then 's'
    else if c == '\U{212A}' then 'k'
    else c
  }

  function Fold(name: string): (r: string)
    ensures |r| == |name|
  {
    seq(|name|, i requires 0 <= i < |name| => FoldChar(name[i]))
  }

  /** A field is named by its lower-case name in any capitalisation of its letters. */
  lemma NamesIgnoreCase(name: string, field: string, v: Json)
    requires forall c :: c in field ==> 'a' <= c <= 'z' || c == '_'
    requires |name| == |field|
    requires forall i :: 0 <= i < |name| ==> name[i] == field[i] || name[i] as int == field[i] as int - 32
    requires forall i :: 0 <= i < |name| ==> field[i] == '_' ==> name[i] == '_'
    ensures Names(Member(name, v), field)
  {
    forall i | 0 <= i < |name|
      ensures Fold(name)[i] == field[i]
    {
      assert field[i] in field;
    }
  }

  predicate Names(member: Member, field: string) {
    Fold(member.name) == field
  }

  /** Decoding a member into a string field: null leaves the field alone, any other
      non-string is a type error. */
  datatype Field = Keep | Set(text: string) | Mismatch

  function AsText(v: Json): Field {
    match v
    case Null => Keep
    case Str(text) => Set(text)
    case Stamp(at) => Set("date-time")
    case _ => Mismatch
  }
}
