/** JSON texts (sections 2 to 7 of RFC 8259): a parser, and a depth scanner showing that no
    object text is a proper prefix of another. */
module JsonText {
  import opened Prelude
  import opened Json

  type Parsed<T> = Option<(T, nat)>

  predicate IsSpace(c: char) { c == ' ' || c == '\t' || c == '\n' || c == '\r' }

  predicate IsDigit(c: char) { '0' <= c <= '9' }

  function SkipSpace(s: string, i: nat): (j: nat)
    requires i <= |s|
    ensures i <= j <= |s|
    ensures forall k :: i <= k < j ==> IsSpace(s[k])
    decreases |s| - i
  {
    if i < |s| && IsSpace(s[i]) then SkipSpace(s, i + 1) else i
  }

  function SkipDigits(s: string, i: nat): (j: nat)
    requires i <= |s|
    ensures i <= j <= |s|
    ensures forall k :: i <= k < j ==> IsDigit(s[k])
    decreases |s| - i
  {
    if i < |s| && IsDigit(s[i]) then SkipDigits(s, i + 1) else i
  }

  function DigitsValue(s: string, i: nat, j: nat): int
    requires i <= j <= |s|
    requires forall k :: i <= k < j ==> IsDigit(s[k])
    decreases j
  {
    if i == j then 0 else 10 * DigitsValue(s, i, j - 1) + (s[j - 1] as int - '0' as int)
  }

  /** The end of an optional fraction starting at i; None when a '.' has no digit after it. */
  function Fraction(s: string, i: nat): (r: Option<nat>)
    requires i <= |s|
    ensures r.Some? ==> i <= r.value <= |s| && forall k :: i <= k < r.value ==> NumberChar(s[k])
  {
    if i < |s| && s[i] == '.' then
      var j := SkipDigits(s, i + 1);
      if j == i + 1 then None else Some(j)
    else Some(i)
  }

  function Exponent(s: string, i: nat): (r: Option<nat>)
    requires i <= |s|
    ensures r.Some? ==> i <= r.value <= |s| && forall k :: i <= k < r.value ==> NumberChar(s[k])
  {
    if i < |s| && (s[i] == 'e' || s[i] == 'E') then
      var k := if i + 1 < |s| && (s[i + 1] == '+' || s[i + 1] == '-') then i + 2 else i + 1;
      var j := SkipDigits(s, k);
      if j == k then None else Some(j)
    else Some(i)
  }

  predicate NumberChar(c: char) {
    IsDigit(c) || c == '-' || c == '+' || c == '.' || c == 'e' || c == 'E'
  }

  function ParseNumber(s: string, i: nat): (r: Parsed<Number>)
    requires i < |s|
    ensures r.Some? ==> i < r.value.1 <= |s| && forall k :: i <= k < r.value.1 ==> NumberChar(s[k])
  {
    var start := if s[i] == '-' then i + 1 else i;
    var end := SkipDigits(s, start);
    if end == start || (s[start] == '0' && end != start + 1) then None
    else
      match Fraction(s, end)
      case None => None
      case Some(f) =>
        match Exponent(s, f)
        case None => None
        case Some(e) =>
          var magnitude := DigitsValue(s, start, end);
          if e == end then Some((Whole(if start == i then magnitude else -magnitude), e))
          else Some((Inexact(s[i..e]), e))
  }

  function HexValue(c: char): Option<int> {
    if IsDigit(c) then Some(c as int - '0' as int)
    else if 'a' <= c <= 'f' then Some(c as int - 'a' as int + 10)
    else if 'A' <= c <= 'F' then Some(c as int - 'A' as int + 10)
    else None
  }

  function Hex4(s: string, i: nat): (r: Option<int>)
    requires i <= |s|
    ensures r.Some? ==> i + 4 <= |s| && 0 <= r.value < 0x1_0000
    ensures r.Some? ==> forall k :: i <= k < i + 4 ==> HexValue(s[k]).Some?
  {
    if i + 4 > |s| then None
    else
      match (HexValue(s[i]), HexValue(s[i + 1]), HexValue(s[i + 2]), HexValue(s[i + 3]))
      case (Some(a), Some(b), Some(c), Some(d)) => Some(4096 * a + 256 * b + 16 * c + d)
      case _ => None
  }

  function SimpleEscape(c: char): Option<char> {
    match c
    case '"' => Some('"')
    case '\\' => Some('\\')
    case '/' => Some('/')
    case 'b' => Some(8 as char)
    case 'f' => Some(12 as char)
    case 'n' => Some('\n')
    case 'r' => Some('\r')
    case 't' => Some('\t')
    case _ => None
  }

  const REPLACEMENT: char := '\U{FFFD}'

  function Flush(acc: string, high: Option<int>): string {
    if high.Some? then acc + [REPLACEMENT] else acc
  }

  /** One UTF-16 code unit joins a pending high surrogate or becomes a character of its own. */
  function AddUnit(acc: string, high: Option<int>, unit: int): (r: (string, Option<int>))
    requires 0 <= unit < 0x1_0000
    requires high.Some? ==> 0xD800 <= high.value < 0xDC00
    ensures r.1.Some? ==> 0xD800 <= r.1.value < 0xDC00
  {
    if 0xD800 <= unit < 0xDC00 then (Flush(acc, high), Some(unit))
    else if 0xDC00 <= unit < 0xE000 then
      if high.Some? then
        (acc + [(0x1_0000 + (high.value - 0xD800) * 0x400 + (unit - 0xDC00)) as char], None)
      else (acc + [REPLACEMENT], None)
    else (Flush(acc, high) + [unit as char], None)
  }

  /** The characters of a string whose opening quote is behind i; the result ends after the
      closing quote. Control characters and unknown escapes are errors. */
  function ParseChars(s: string, i: nat, acc: string, high: Option<int>): (r: Parsed<string>)
    requires i <= |s|
    requires high.Some? ==> 0xD800 <= high.value < 0xDC00
    ensures r.Some? ==> i < r.value.1 <= |s|
    decreases |s| - i
  {
    if i == |s| || s[i] < ' ' then None
    else if s[i] == '"' then Some((Flush(acc, high), i + 1))
    else if s[i] != '\\' then ParseChars(s, i + 1, Flush(acc, high) + [s[i]], None)
    else if i + 1 == |s| then None
    else if s[i + 1] == 'u' then
      match Hex4(s, i + 2)
      case None => None
      case Some(unit) =>
        var (text, pending) := AddUnit(acc, high, unit);
        ParseChars(s, i + 6, text, pending)
    else
      match SimpleEscape(s[i + 1])
      case None => None
      case Some(c) => ParseChars(s, i + 2, Flush(acc, high) + [c], None)
  }

  function ParseLiteral(s: string, i: nat, word: string, v: Json): (r: Parsed<Json>)
    requires i <= |s|
    ensures r.Some? ==> r.value.1 == i + |word| <= |s| && s[i..i + |word|] == word
  {
    if i + |word| <= |s| && s[i..i + |word|] == word then Some((v, i + |word|)) else None
  }

  function ParseValue(s: string, i: nat): (r: Parsed<Json>)
    requires i <= |s|
    ensures r.Some? ==> i < r.value.1 <= |s|
    decreases |s| - i, 0
  {
    if i == |s| then None
    else if s[i] == '{' then
      var k := SkipSpace(s, i + 1);
      if k < |s| && s[k] == '}' then Some((Obj([]), k + 1)) else ParseMembers(s, k, [])
    else if s[i] == '[' then
      var k := SkipSpace(s, i + 1);
      if k < |s| && s[k] == ']' then Some((Arr([]), k + 1)) else ParseItems(s, k, [])
    else if s[i] == '"' then
      match ParseChars(s, i + 1, "", None)
      case None => None
      case Some((text, j)) => Some((Str(text), j))
    else if s[i] == 't' then ParseLiteral(s, i, "true", Bool(true))
    else if s[i] == 'f' then ParseLiteral(s, i, "false", Bool(false))
    else if s[i] == 'n' then ParseLiteral(s, i, "null", Null)
    else
      match ParseNumber(s, i)
      case None => None
      case Some((number, j)) => Some((Num(number), j))
  }

  function ParseItems(s: string, i: nat, acc: seq<Json>): (r: Parsed<Json>)
    requires i <= |s|
    ensures r.Some? ==> i < r.value.1 <= |s|
    decreases |s| - i, 1
  {
    match ParseValue(s, i)
    case None => None
    case Some((v, j)) =>
      var k := SkipSpace(s, j);
      if k == |s| then None
      else if s[k] == ']' then Some((Arr(acc + [v]), k + 1))
      else if s[k] == ',' then ParseItems(s, SkipSpace(s, k + 1), acc + [v])
      else None
  }

  function ParseName(s: string, i: nat): (r: Parsed<string>)
    requires i <= |s|
    ensures r.Some? ==> i < r.value.1 <= |s|
  {
    if i == |s| || s[i] != '"' then None
    else
      match ParseChars(s, i + 1, "", None)
      case None => None
      case Some((name, j)) =>
        var k := SkipSpace(s, j);
        if k == |s| || s[k] != ':' then None else Some((name, SkipSpace(s, k + 1)))
  }

  function ParseMembers(s: string, i: nat, acc: seq<Member>): (r: Parsed<Json>)
    requires i <= |s|
    ensures r.Some? ==> i < r.value.1 <= |s|
    decreases |s| - i, 1
  {
    match ParseName(s, i)
    case None => None
    case Some((name, at)) =>
      match ParseValue(s, at)
      case None => None
      case Some((v, j)) =>
        var k := SkipSpace(s, j);
        if k == |s| then None
        else if s[k] == '}' then Some((Obj(acc + [Member(name, v)]), k + 1))
        else if s[k] == ',' then ParseMembers(s, SkipSpace(s, k + 1), acc + [Member(name, v)])
        else None
  }

  /** The value of a raw message: exactly one JSON text, with no space around it. */
  function ValueOf(raw: string): Option<Json> {
    match ParseValue(raw, 0)
    case None => None
    case Some((v, end)) => if end == |raw| then Some(v) else None
  }

  predicate IsObjectText(raw: string) {
    ValueOf(raw).Some? && ValueOf(raw).value.Obj?
  }

  // ---- the scanner ----

  datatype Scan = Scan(depth: int, inText: bool, escaped: bool)

  function Outside(depth: int): Scan { Scan(depth, false, false) }

  function Inside(depth: int): Scan { Scan(depth, true, false) }

  function Advance(sc: Scan, c: char): Scan {
    if sc.inText then
      if sc.escaped then sc.(escaped := false)
      else if c == '\\' then sc.(escaped := true)
      else if c == '"' then sc.(inText := false)
      else sc
    else if c == '"' then sc.(inText := true)
    else if c == '{' || c == '[' then sc.(depth := sc.depth + 1)
    else if c == '}' || c == ']' then sc.(depth := sc.depth - 1)
    else sc
  }

  function Run(s: string, i: nat, j: nat, sc: Scan): Scan
    requires i <= j <= |s|
    decreases j
  {
    if i == j then sc else Advance(Run(s, i, j - 1, sc), s[j - 1])
  }

  lemma {:induction false} RunCompose(s: string, i: nat, k: nat, j: nat, sc: Scan)
    requires i <= k <= j <= |s|
    ensures Run(s, i, j, sc) == Run(s, k, j, Run(s, i, k, sc))
    decreases j
  {
    if k < j {
      RunCompose(s, i, k, j - 1, sc);
    }
  }

  lemma {:induction false} RunPrefix(p: string, s: string, j: nat, sc: Scan)
    requires j <= |p| && p <= s
    ensures Run(p, 0, j, sc) == Run(s, 0, j, sc)
    decreases j
  {
    if j > 0 {
      RunPrefix(p, s, j - 1, sc);
    }
  }

  /** Scanning s[i..j] from depth d, outside any string, comes back there and never drops below. */
  ghost predicate Balanced(s: string, i: nat, j: nat, d: int) {
    && i <= j <= |s|
    && Run(s, i, j, Outside(d)) == Outside(d)
    && forall k :: i <= k <= j ==> Run(s, i, k, Outside(d)).depth >= d
  }

  lemma BalancedJoin(s: string, i: nat, k: nat, j: nat, d: int)
    requires Balanced(s, i, k, d) && Balanced(s, k, j, d)
    ensures Balanced(s, i, j, d)
  {
    RunCompose(s, i, k, j, Outside(d));
    forall m | i <= m <= j
      ensures Run(s, i, m, Outside(d)).depth >= d
    {
      if k <= m {
        RunCompose(s, i, k, m, Outside(d));
      }
    }
  }

  predicate Structural(c: char) {
    c == '"' || c == '{' || c == '}' || c == '[' || c == ']'
  }

  lemma {:induction false} BalancedPlain(s: string, i: nat, j: nat, d: int)
    requires i <= j <= |s|
    requires forall k :: i <= k < j ==> !Structural(s[k])
    ensures Balanced(s, i, j, d)
    decreases j
  {
    if i < j {
      BalancedPlain(s, i, j - 1, d);
    }
  }

  lemma RunFirst(s: string, i: nat, j: nat, sc: Scan)
    requires i < j <= |s|
    ensures Run(s, i, j, sc) == Run(s, i + 1, j, Advance(sc, s[i]))
  {
    RunCompose(s, i, i + 1, j, sc);
    assert Run(s, i, i + 1, sc) == Advance(Run(s, i, i, sc), s[i]);
  }

  /** Wrapping balanced text in brackets keeps it balanced, and everything strictly inside is
      at least one level deeper. */
  lemma BalancedNest(s: string, i: nat, j: nat, d: int)
    requires i + 2 <= j <= |s|
    requires s[i] == '{' || s[i] == '['
    requires s[j - 1] == '}' || s[j - 1] == ']'
    requires Balanced(s, i + 1, j - 1, d + 1)
    ensures Balanced(s, i, j, d)
    ensures forall k :: i < k < j ==> Run(s, i, k, Outside(d)).depth >= d + 1
  {
    forall k | i < k <= j
      ensures k < j ==> Run(s, i, k, Outside(d)).depth >= d + 1
      ensures k == j ==> Run(s, i, k, Outside(d)) == Outside(d)
    {
      RunFirst(s, i, k, Outside(d));
      assert Advance(Outside(d), s[i]) == Outside(d + 1);
      if k < j {
        assert Run(s, i + 1, k, Outside(d + 1)).depth >= d + 1;
      } else {
        assert Run(s, i + 1, j, Outside(d + 1)) == Advance(Outside(d + 1), s[j - 1]);
      }
    }
  }

  /** Inside a string the scanner keeps its depth up to the closing quote. */
  lemma {:induction false} CharsBalanced(s: string, i: nat, acc: string, high: Option<int>, d: int)
    requires i <= |s|
    requires high.Some? ==> 0xD800 <= high.value < 0xDC00
    requires ParseChars(s, i, acc, high).Some?
    ensures var j := ParseChars(s, i, acc, high).value.1;
            && Run(s, i, j, Inside(d)) == Outside(d)
            && forall k :: i <= k <= j ==> Run(s, i, k, Inside(d)).depth == d
    decreases |s| - i
  {
    hide Hex4, SimpleEscape;
    var j := ParseChars(s, i, acc, high).value.1;
    assert Run(s, i, i, Inside(d)) == Inside(d);
    assert Run(s, i, i + 1, Inside(d)) == Advance(Inside(d), s[i]);
    if s[i] == '"' {
      assert j == i + 1;
    } else if s[i] != '\\' {
      CharsBalanced(s, i + 1, Flush(acc, high) + [s[i]], None, d);
      ResumeInside(s, i, i + 1, j, d);
    } else {
      assert Run(s, i, i + 2, Inside(d)) == Advance(Run(s, i, i + 1, Inside(d)), s[i + 1]) == Inside(d);
      if s[i + 1] == 'u' {
        var (text, pending) := AddUnit(acc, high, Hex4(s, i + 2).value);
        CharsBalanced(s, i + 6, text, pending, d);
        InsideText(s, i + 2, i + 6, d);
        RunCompose(s, i, i + 2, i + 6, Inside(d));
        forall k | i <= k <= i + 6
          ensures Run(s, i, k, Inside(d)).depth == d
        {
          if i + 2 <= k {
            RunCompose(s, i, i + 2, k, Inside(d));
          }
        }
        ResumeInside(s, i, i + 6, j, d);
      } else {
        CharsBalanced(s, i + 2, Flush(acc, high) + [SimpleEscape(s[i + 1]).value], None, d);
        ResumeInside(s, i, i + 2, j, d);
      }
    }
  }

  lemma ResumeInside(s: string, i: nat, k: nat, j: nat, d: int)
    requires i <= k <= j <= |s|
    requires Run(s, i, k, Inside(d)) == Inside(d)
    requires forall m :: i <= m <= k ==> Run(s, i, m, Inside(d)).depth == d
    requires Run(s, k, j, Inside(d)) == Outside(d)
    requires forall m :: k <= m <= j ==> Run(s, k, m, Inside(d)).depth == d
    ensures Run(s, i, j, Inside(d)) == Outside(d)
    ensures forall m :: i <= m <= j ==> Run(s, i, m, Inside(d)).depth == d
  {
    RunCompose(s, i, k, j, Inside(d));
    forall m | k <= m <= j
      ensures Run(s, i, m, Inside(d)).depth == d
    {
      RunCompose(s, i, k, m, Inside(d));
    }
  }

  lemma {:induction false} InsideText(s: string, i: nat, j: nat, d: int)
    requires i <= j <= |s|
    requires forall k :: i <= k < j ==> s[k] != '"' && s[k] != '\\'
    ensures Run(s, i, j, Inside(d)) == Inside(d)
    ensures forall k :: i <= k <= j ==> Run(s, i, k, Inside(d)) == Inside(d)
    decreases j
  {
    if i < j {
      InsideText(s, i, j - 1, d);
    }
  }

  lemma QuotedBalanced(s: string, i: nat, d: int)
    requires i < |s| && s[i] == '"'
    requires ParseChars(s, i + 1, "", None).Some?
    ensures Balanced(s, i, ParseChars(s, i + 1, "", None).value.1, d)
  {
    var j := ParseChars(s, i + 1, "", None).value.1;
    CharsBalanced(s, i + 1, "", None, d);
    forall k | i < k <= j
      ensures Run(s, i, k, Outside(d)) == Run(s, i + 1, k, Inside(d))
    {
      RunFirst(s, i, k, Outside(d));
    }
  }

  lemma WordBalanced(s: string, i: nat, word: string, d: int)
    requires i + |word| <= |s| && s[i..i + |word|] == word
    requires forall k :: 0 <= k < |word| ==> !Structural(word[k])
    ensures Balanced(s, i, i + |word|, d)
  {
    assert forall k :: i <= k < i + |word| ==> s[k] == s[i..i + |word|][k - i];
    BalancedPlain(s, i, i + |word|, d);
  }

  /** Whatever the parser accepts as a value, the scanner crosses without net effect; an object
      keeps it at least one level deeper until its closing brace. */
  lemma {:induction false} ValueBalanced(s: string, i: nat, d: int)
    requires i <= |s|
    requires ParseValue(s, i).Some?
    ensures Balanced(s, i, ParseValue(s, i).value.1, d)
    ensures ParseValue(s, i).value.0.Obj? ==>
              forall k :: i < k < ParseValue(s, i).value.1 ==> Run(s, i, k, Outside(d)).depth >= d + 1
    decreases |s| - i, 0
  {
    if s[i] == '{' || s[i] == '[' {
      ContainerBalanced(s, i, d);
    } else if s[i] == '"' {
      QuotedBalanced(s, i, d);
    } else if s[i] == 't' || s[i] == 'f' || s[i] == 'n' {
      WordBalanced(s, i, if s[i] == 't' then "true" else if s[i] == 'f' then "false" else "null", d);
    } else {
      BalancedPlain(s, i, ParseValue(s, i).value.1, d);
    }
  }

  lemma {:induction false} ContainerBalanced(s: string, i: nat, d: int)
    requires i < |s| && (s[i] == '{' || s[i] == '[')
    requires ParseValue(s, i).Some?
    ensures var j := ParseValue(s, i).value.1;
            && Balanced(s, i, j, d)
            && forall k :: i < k < j ==> Run(s, i, k, Outside(d)).depth >= d + 1
    decreases |s| - i - 1, 2
  {
    hide Run, Balanced, ParseItems, ParseMembers, ParseNumber, ParseChars, ParseLiteral;
    var j := ParseValue(s, i).value.1;
    var k := SkipSpace(s, i + 1);
    BalancedPlain(s, i + 1, k, d + 1);
    if s[i] == '{' {
      if k == |s| || s[k] != '}' {
        MembersBalanced(s, k, [], d + 1);
        BalancedJoin(s, i + 1, k, j - 1, d + 1);
      }
    } else if k == |s| || s[k] != ']' {
      ItemsBalanced(s, k, [], d + 1);
      BalancedJoin(s, i + 1, k, j - 1, d + 1);
    }
    BalancedNest(s, i, j, d);
  }

  lemma {:induction false} ItemsBalanced(s: string, i: nat, acc: seq<Json>, d: int)
    requires i <= |s|
    requires ParseItems(s, i, acc).Some?
    ensures ParseItems(s, i, acc).value.0.Arr?
    ensures var j := ParseItems(s, i, acc).value.1; s[j - 1] == ']' && Balanced(s, i, j - 1, d)
    decreases |s| - i, 1
  {
    hide Run, Balanced, ParseValue, ParseMembers;
    var (v, j) := ParseValue(s, i).value;
    var k := SkipSpace(s, j);
    ValueBalanced(s, i, d);
    SpaceAfter(s, i, j, d);
    if s[k] == ',' {
      ItemsBalanced(s, SkipSpace(s, k + 1), acc + [v], d);
      CommaAfter(s, i, k, ParseItems(s, i, acc).value.1 - 1, d);
    }
  }

  lemma {:induction false} MembersBalanced(s: string, i: nat, acc: seq<Member>, d: int)
    requires i <= |s|
    requires ParseMembers(s, i, acc).Some?
    ensures ParseMembers(s, i, acc).value.0.Obj?
    ensures var j := ParseMembers(s, i, acc).value.1; s[j - 1] == '}' && Balanced(s, i, j - 1, d)
    decreases |s| - i, 1
  {
    hide Run, Balanced, ParseValue, ParseItems, ParseName;
    var (name, at) := ParseName(s, i).value;
    var (v, j) := ParseValue(s, at).value;
    var k := SkipSpace(s, j);
    NameBalanced(s, i, d);
    ValueBalanced(s, at, d);
    BalancedJoin(s, i, at, j, d);
    SpaceAfter(s, i, j, d);
    if s[k] == ',' {
      MembersBalanced(s, SkipSpace(s, k + 1), acc + [Member(name, v)], d);
      CommaAfter(s, i, k, ParseMembers(s, i, acc).value.1 - 1, d);
    }
  }

  lemma SpaceAfter(s: string, i: nat, j: nat, d: int)
    requires i <= j <= |s| && Balanced(s, i, j, d)
    ensures Balanced(s, i, SkipSpace(s, j), d)
  {
    BalancedPlain(s, j, SkipSpace(s, j), d);
    BalancedJoin(s, i, j, SkipSpace(s, j), d);
  }

  lemma CommaAfter(s: string, i: nat, k: nat, end: nat, d: int)
    requires i <= k < |s| && s[k] == ',' && Balanced(s, i, k, d)
    requires SkipSpace(s, k + 1) <= end <= |s| && Balanced(s, SkipSpace(s, k + 1), end, d)
    ensures Balanced(s, i, end, d)
  {
    var m := SkipSpace(s, k + 1);
    BalancedPlain(s, k, m, d);
    BalancedJoin(s, i, k, m, d);
    BalancedJoin(s, i, m, end, d);
  }

  lemma NameBalanced(s: string, i: nat, d: int)
    requires i <= |s|
    requires ParseName(s, i).Some?
    ensures Balanced(s, i, ParseName(s, i).value.1, d)
  {
    var j := ParseChars(s, i + 1, "", None).value.1;
    QuotedBalanced(s, i, d);
    BalancedPlain(s, j, ParseName(s, i).value.1, d);
    BalancedJoin(s, i, j, ParseName(s, i).value.1, d);
  }

  /** No JSON object text is a proper prefix of another one. */
  lemma ObjectTextsArePrefixFree(p: string, q: string)
    requires IsObjectText(p) && IsObjectText(q)
    requires p <= q
    ensures p == q
  {
    ValueBalanced(p, 0, 0);
    ValueBalanced(q, 0, 0);
    RunPrefix(p, q, |p|, Outside(0));
    assert Run(q, 0, |p|, Outside(0)).depth == 0;
  }
}
