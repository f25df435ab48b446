/** Writing JSON values as texts, with any white space in the gaps: the parser reads every such text
    back as the value it was written from. */
module JsonPrint {
  import opened Prelude
  import opened Json
  import opened JsonText

  function HexDigit(n: int): char
    requires 0 <= n < 16
  {
    if n < 10 then ('0' as int + n) as char else ('a' as int + n - 10) as char
  }

  /** One character inside a string: quotes, backslashes and control characters are escaped. */
  function Escape(c: char): string {
    if c == '"' || c == '\\' then ['\\', c]
    else if c < ' ' then ['\\', 'u', '0', '0', HexDigit(c as int / 16), HexDigit(c as int % 16)]
    else [c]
  }

  function Escaped(t: string): string {
    if t == "" then "" else Escape(t[0]) + Escaped(t[1..])
  }

  function Quoted(t: string): string {
    "\"" + Escaped(t) + "\""
  }

  function Digits(n: nat): string {
    if n < 10 then [('0' as int + n) as char] else Digits(n / 10) + [('0' as int + n % 10) as char]
  }

  function PrintInt(n: int): string {
    if n < 0 then "-" + Digits(-n) else Digits(n)
  }

  /** Values whose numbers are whole; a date-time is no JSON value of its own. */
  predicate Plain(j: Json)
    decreases j
  {
    match j
    case Num(number) => number.Whole?
    case Stamp(_) => false
    case Arr(items) => forall v :: v in items ==> Plain(v)
    case Obj(members) => forall m :: m in members ==> Plain(m.value)
    case _ => true
  }

  predicate Blank(ws: string) {
    forall c :: c in ws ==> c == ' ' || c == '\t' || c == '\n' || c == '\r'
  }

  function Print(j: Json, ws: string): string
    requires Plain(j)
    decreases j
  {
    match j
    case Null => "null"
    case Bool(flag) => if flag then "true" else "false"
    case Num(number) => PrintInt(number.n)
    case Str(text) => Quoted(text)
    case Arr(items) => "[" + (ws + ((if items == [] then "" else PrintItems(items, ws)) + "]"))
    case Obj(members) => "{" + (ws + ((if members == [] then "" else PrintMembers(members, ws)) + "}"))
  }

  function PrintItems(items: seq<Json>, ws: string): string
    requires items != [] && forall v :: v in items ==> Plain(v)
    decreases items
  {
    Print(items[0], ws) + (ws + if |items| == 1 then "" else "," + (ws + PrintItems(items[1..], ws)))
  }

  function PrintMember(m: Member, ws: string): string
    requires Plain(m.value)
    decreases m
  {
    Quoted(m.name) + (ws + (":" + (ws + Print(m.value, ws))))
  }

  function PrintMembers(members: seq<Member>, ws: string): string
    requires members != [] && forall m :: m in members ==> Plain(m.value)
    decreases members
  {
    PrintMember(members[0], ws) + (ws + if |members| == 1 then "" else "," + (ws + PrintMembers(members[1..], ws)))
  }

  // ---- texts at a position ----

  predicate Here(s: string, i: nat, t: string) {
    i + |t| <= |s| && s[i..i + |t|] == t
  }

  lemma HereSplit(s: string, i: nat, a: string, b: string)
    requires Here(s, i, a + b)
    ensures Here(s, i, a) && Here(s, i + |a|, b)
  {
    var t := a + b;
    assert t[..|a|] == a && t[|a|..] == b;
    assert s[i..i + |t|][..|a|] == s[i..i + |a|] && s[i..i + |t|][|a|..] == s[i + |a|..i + |t|];
  }

  lemma HereFits(s: string, i: nat, t: string)
    requires Here(s, i, t)
    ensures i + |t| <= |s|
  {
  }

  lemma HereFirst(s: string, i: nat, t: string)
    requires Here(s, i, t) && t != ""
    ensures i < |s| && s[i] == t[0]
  {
    assert s[i..i + |t|][0] == s[i];
  }

  lemma {:induction false} SkipsBlank(s: string, i: nat, ws: string)
    requires Blank(ws) && Here(s, i, ws)
    requires i + |ws| < |s| ==> !IsSpace(s[i + |ws|])
    ensures SkipSpace(s, i) == i + |ws|
    decreases |ws|
  {
    if ws != "" {
      assert ws == ws[..1] + ws[1..];
      HereSplit(s, i, ws[..1], ws[1..]);
      HereFirst(s, i, ws);
      assert ws[0] in ws && forall c :: c in ws[1..] ==> c in ws;
      SkipsBlank(s, i + 1, ws[1..]);
    }
  }

  // ---- strings ----

  lemma HereAt(s: string, i: nat, t: string, k: nat)
    requires Here(s, i, t) && k < |t|
    ensures i + k < |s| && s[i + k] == t[k]
  {
    assert s[i..i + |t|][k] == s[i + k];
  }

  lemma EscapeReads(s: string, i: nat, c: char, acc: string)
    requires Here(s, i, Escape(c))
    ensures ParseChars(s, i, acc, None) == ParseChars(s, i + |Escape(c)|, acc + [c], None)
  {
    HereAt(s, i, Escape(c), 0);
    if c == '"' || c == '\\' {
      HereAt(s, i, Escape(c), 1);
      SignReads(s, i, c, acc);
    } else if c < ' ' {
      HereAt(s, i, Escape(c), 1);
      HereAt(s, i, Escape(c), 2);
      HereAt(s, i, Escape(c), 3);
      HereAt(s, i, Escape(c), 4);
      HereAt(s, i, Escape(c), 5);
      ControlReads(s, i, c, acc);
    }
  }

  lemma SignReads(s: string, i: nat, c: char, acc: string)
    requires (c == '"' || c == '\\') && i + 1 < |s| && s[i] == '\\' && s[i + 1] == c
    ensures ParseChars(s, i, acc, None) == ParseChars(s, i + 2, acc + [c], None)
  {
    assert SimpleEscape(c) == Some(c);
  }

  lemma ControlReads(s: string, i: nat, c: char, acc: string)
    requires c < ' ' && i + 6 <= |s| && s[i] == '\\' && s[i + 1] == 'u' && s[i + 2] == '0' && s[i + 3] == '0'
    requires s[i + 4] == HexDigit(c as int / 16) && s[i + 5] == HexDigit(c as int % 16)
    ensures ParseChars(s, i, acc, None) == ParseChars(s, i + 6, acc + [c], None)
  {
    HexReads(s, i + 2, c);
    hide Hex4, HexDigit;
    assert AddUnit(acc, None, c as int) == (acc + [c], None);
  }

  lemma HexReads(s: string, i: nat, c: char)
    requires c < ' ' && i + 4 <= |s|
    requires s[i] == '0' && s[i + 1] == '0' && s[i + 2] == HexDigit(c as int / 16) && s[i + 3] == HexDigit(c as int % 16)
    ensures Hex4(s, i) == Some(c as int)
  {
    hide HexDigit, HexValue;
    HexDigitReads(c as int / 16);
    HexDigitReads(c as int % 16);
    HexZero();
  }

  lemma HexDigitReads(n: int)
    requires 0 <= n < 16
    ensures HexValue(HexDigit(n)) == Some(n)
  {
  }

  lemma {:induction false} CharsRead(s: string, i: nat, t: string, acc: string)
    requires Here(s, i, Escaped(t) + "\"")
    ensures ParseChars(s, i, acc, None) == Some((acc + t, i + |Escaped(t)| + 1))
    decreases |t|
  {
    hide ParseChars, Escape;
    if t == "" {
      HereFirst(s, i, Escaped(t) + "\"");
      CloseReads(s, i, acc);
      assert acc + t == acc;
    } else {
      assert Escaped(t) + "\"" == Escape(t[0]) + (Escaped(t[1..]) + "\"");
      HereSplit(s, i, Escape(t[0]), Escaped(t[1..]) + "\"");
      EscapeReads(s, i, t[0], acc);
      CharsRead(s, i + |Escape(t[0])|, t[1..], acc + [t[0]]);
      assert acc + [t[0]] + t[1..] == acc + t;
    }
  }

  lemma CloseReads(s: string, i: nat, acc: string)
    requires i < |s| && s[i] == '"'
    ensures ParseChars(s, i, acc, None) == Some((acc, i + 1))
  {
  }

  lemma QuotedReads(s: string, i: nat, t: string)
    requires Here(s, i, Quoted(t))
    ensures i < |s| && s[i] == '"' && ParseChars(s, i + 1, "", None) == Some((t, i + |Quoted(t)|))
  {
    hide ParseChars, Escaped;
    assert Quoted(t) == "\"" + (Escaped(t) + "\"");
    HereSplit(s, i, "\"", Escaped(t) + "\"");
    HereFirst(s, i, "\"");
    CharsRead(s, i + 1, t, "");
    assert "" + t == t;
  }

  // ---- numbers ----

  lemma {:induction false} DigitsAre(n: nat)
    ensures |Digits(n)| > 0 && forall c :: c in Digits(n) ==> IsDigit(c)
    ensures Digits(n)[0] == '0' ==> n == 0 && |Digits(n)| == 1
    decreases n
  {
    if n >= 10 {
      DigitsAre(n / 10);
    }
  }

  lemma {:induction false} DigitsSkip(s: string, i: nat, t: string)
    requires Here(s, i, t) && forall c :: c in t ==> IsDigit(c)
    requires i + |t| < |s| ==> !IsDigit(s[i + |t|])
    ensures SkipDigits(s, i) == i + |t|
    decreases |t|
  {
    if t != "" {
      assert t == t[..1] + t[1..];
      HereSplit(s, i, t[..1], t[1..]);
      HereFirst(s, i, t);
      assert t[0] in t;
      DigitsSkip(s, i + 1, t[1..]);
    }
  }

  lemma {:induction false} DigitsRead(s: string, i: nat, n: nat)
    requires Here(s, i, Digits(n))
    requires forall k :: i <= k < i + |Digits(n)| ==> IsDigit(s[k])
    ensures DigitsValue(s, i, i + |Digits(n)|) == n
    decreases n
  {
    var j := i + |Digits(n)|;
    if n < 10 {
      HereFirst(s, i, Digits(n));
      assert DigitsValue(s, i, i) == 0;
    } else {
      var last := [('0' as int + n % 10) as char];
      HereSplit(s, i, Digits(n / 10), last);
      HereFirst(s, j - 1, last);
      DigitsRead(s, i, n / 10);
    }
  }

  lemma HexZero()
    ensures HexValue('0') == Some(0)
  {
  }

  /** Nothing of a number follows. */
  predicate NumberEnds(s: string, i: nat) {
    i < |s| ==> !NumberChar(s[i])
  }

  lemma MagnitudeReads(s: string, i: nat, n: nat)
    requires Here(s, i, Digits(n)) && NumberEnds(s, i + |Digits(n)|)
    ensures |Digits(n)| > 0 && IsDigit(s[i]) && (s[i] == '0' ==> |Digits(n)| == 1)
    ensures var end := i + |Digits(n)|; end <= |s| && SkipDigits(s, i) == end && DigitsValue(s, i, end) == n
    ensures var end := i + |Digits(n)|; Fraction(s, end) == Some(end) && Exponent(s, end) == Some(end)
  {
    DigitsAre(n);
    HereFirst(s, i, Digits(n));
    assert Digits(n)[0] in Digits(n);
    DigitsSkip(s, i, Digits(n));
    DigitsRead(s, i, n);
  }

  lemma IntReads(s: string, i: nat, n: int)
    requires Here(s, i, PrintInt(n)) && NumberEnds(s, i + |PrintInt(n)|)
    ensures i < |s| && ParseNumber(s, i) == Some((Whole(n), i + |PrintInt(n)|))
  {
    hide Digits, SkipDigits, DigitsValue, Fraction, Exponent, Here, NumberEnds;
    if n < 0 {
      HereSplit(s, i, "-", Digits(-n));
      HereFirst(s, i, "-");
      MagnitudeReads(s, i + 1, -n);
    } else {
      MagnitudeReads(s, i, n);
    }
  }

  // ---- values ----

  lemma PrintStarts(j: Json, ws: string)
    requires Plain(j)
    ensures Print(j, ws) != ""
    ensures var c := Print(j, ws)[0]; !IsSpace(c) && c != ']' && c != '}'
  {
    if j.Num? {
      DigitsAre(if j.number.n < 0 then -j.number.n else j.number.n);
      var d := Digits(if j.number.n < 0 then -j.number.n else j.number.n);
      assert d[0] in d;
    }
  }

  /** Between a value and what follows it stand white space and one of these signs. */
  lemma GapEnds(s: string, i: nat, ws: string, sign: char)
    requires Blank(ws) && (sign == ',' || sign == ']' || sign == '}' || sign == ':')
    requires Here(s, i, ws + [sign])
    ensures NumberEnds(s, i) && SkipSpace(s, i) == i + |ws| && i + |ws| < |s| && s[i + |ws|] == sign
  {
    HereSplit(s, i, ws, [sign]);
    HereFirst(s, i + |ws|, [sign]);
    SkipsBlank(s, i, ws);
    HereFirst(s, i, ws + [sign]);
    if ws != "" {
      assert ws[0] in ws;
    }
  }

  lemma GapBefore(s: string, i: nat, ws: string, t: string)
    requires Blank(ws) && t != "" && !IsSpace(t[0]) && Here(s, i, ws + t)
    ensures SkipSpace(s, i) == i + |ws| && Here(s, i + |ws|, t) && i + |ws| < |s| && s[i + |ws|] == t[0]
  {
    HereSplit(s, i, ws, t);
    HereFirst(s, i + |ws|, t);
    SkipsBlank(s, i, ws);
  }

  lemma {:induction false} ValueReads(s: string, i: nat, j: Json, ws: string)
    requires Plain(j) && Blank(ws) && Here(s, i, Print(j, ws)) && NumberEnds(s, i + |Print(j, ws)|)
    ensures ParseValue(s, i) == Some((j, i + |Print(j, ws)|))
    decreases j
  {
    hide ParseChars, ParseNumber, ParseItems, ParseMembers, SkipSpace, Quoted, PrintInt, PrintItems, PrintMembers;
    PrintStarts(j, ws);
    HereFirst(s, i, Print(j, ws));
    match j
    case Null =>
    case Bool(flag) =>
    case Num(number) =>
      IntStarts(number.n);
      IntReads(s, i, number.n);
    case Str(text) =>
      QuotedReads(s, i, text);
    case Arr(items) =>
      ArrayReads(s, i, items, ws);
    case Obj(members) =>
      ObjectReads(s, i, members, ws);
  }

  lemma IntStarts(n: int)
    ensures PrintInt(n) != "" && (PrintInt(n)[0] == '-' || IsDigit(PrintInt(n)[0]))
  {
    DigitsAre(if n < 0 then -n else n);
    var d := Digits(if n < 0 then -n else n);
    assert d[0] in d;
  }

  lemma {:induction false} ArrayReads(s: string, i: nat, items: seq<Json>, ws: string)
    requires (forall v :: v in items ==> Plain(v)) && Blank(ws) && Here(s, i, Print(Arr(items), ws))
    ensures ParseValue(s, i) == Some((Arr(items), i + |Print(Arr(items), ws)|))
    decreases items, 1
  {
    hide ParseItems, SkipSpace, PrintItems;
    var inner := (if items == [] then "" else PrintItems(items, ws)) + "]";
    HereSplit(s, i, "[", ws + inner);
    HereFirst(s, i, "[");
    if items == [] {
      GapBefore(s, i + 1, ws, inner);
    } else {
      ItemsStart(items, ws);
      GapBefore(s, i + 1, ws, inner);
      ItemsRead(s, i + 1 + |ws|, items, [], ws);
      assert [] + items == items;
    }
  }

  lemma ItemsStart(items: seq<Json>, ws: string)
    requires items != [] && forall v :: v in items ==> Plain(v)
    ensures PrintItems(items, ws) != ""
    ensures var c := PrintItems(items, ws)[0]; !IsSpace(c) && c != ']'
  {
    PrintStarts(items[0], ws);
  }

  lemma {:induction false} ItemsRead(s: string, i: nat, items: seq<Json>, acc: seq<Json>, ws: string)
    requires items != [] && (forall v :: v in items ==> Plain(v)) && Blank(ws)
    requires Here(s, i, PrintItems(items, ws) + "]")
    ensures ParseItems(s, i, acc) == Some((Arr(acc + items), i + |PrintItems(items, ws)| + 1))
    decreases items, 0
  {
    hide ParseItems, ParseValue, SkipSpace, Print, Here, Blank, Plain, NumberEnds, IsSpace;
    var first := Print(items[0], ws);
    var k := i + |first|;
    if |items| == 1 {
      assert PrintItems(items, ws) + "]" == first + (ws + "]");
      LastHere(s, i, first, ws, ']');
      ValueReads(s, i, items[0], ws);
      LastItem(s, i, acc, items[0], k);
      assert acc + items == acc + [items[0]];
    } else {
      var rest := PrintItems(items[1..], ws) + "]";
      assert PrintItems(items, ws) + "]" == first + (ws + ("," + (ws + rest)));
      ItemsStart(items[1..], ws);
      MoreHere(s, i, first, ws, ',', rest);
      ValueReads(s, i, items[0], ws);
      ItemsRead(s, k + |ws| + 1 + |ws|, items[1..], acc + [items[0]], ws);
      MoreItems(s, i, acc, items[0], k);
      assert acc + [items[0]] + items[1..] == acc + items;
    }
  }

  lemma LastItem(s: string, i: nat, acc: seq<Json>, v: Json, j: nat)
    requires i <= |s| && j <= |s| && ParseValue(s, i) == Some((v, j))
    requires SkipSpace(s, j) < |s| && s[SkipSpace(s, j)] == ']'
    ensures ParseItems(s, i, acc) == Some((Arr(acc + [v]), SkipSpace(s, j) + 1))
  {
    hide ParseValue, SkipSpace;
  }

  lemma MoreItems(s: string, i: nat, acc: seq<Json>, v: Json, j: nat)
    requires i <= |s| && j <= |s| && ParseValue(s, i) == Some((v, j))
    requires SkipSpace(s, j) < |s| && s[SkipSpace(s, j)] == ','
    ensures ParseItems(s, i, acc) == ParseItems(s, SkipSpace(s, SkipSpace(s, j) + 1), acc + [v])
  {
    hide ParseValue, SkipSpace;
  }

  /** The last member of a list, a gap, and the closing sign. */
  lemma LastHere(s: string, i: nat, first: string, ws: string, sign: char)
    requires Blank(ws) && (sign == ']' || sign == '}') && Here(s, i, first + (ws + [sign]))
    ensures Here(s, i, first) && NumberEnds(s, i + |first|)
    ensures var k := i + |first|; SkipSpace(s, k) == k + |ws| && k + |ws| < |s| && s[k + |ws|] == sign
  {
    hide SkipSpace, Blank, Here, NumberEnds;
    HereSplit(s, i, first, ws + [sign]);
    HereFits(s, i, first);
    GapEnds(s, i + |first|, ws, sign);
  }

  /** A part, a gap, a sign, a gap, and the rest. */
  lemma MoreHere(s: string, i: nat, first: string, ws: string, sign: char, rest: string)
    requires Blank(ws) && rest != "" && !IsSpace(rest[0]) && (sign == ',' || sign == ':')
    requires Here(s, i, first + (ws + ([sign] + (ws + rest))))
    ensures Here(s, i, first) && NumberEnds(s, i + |first|)
    ensures var k := i + |first|; SkipSpace(s, k) == k + |ws| && k + |ws| < |s| && s[k + |ws|] == sign
    ensures var at := i + |first| + |ws| + 1; at <= |s| && SkipSpace(s, at) == at + |ws| && Here(s, at + |ws|, rest)
  {
    hide SkipSpace, Blank, Here, NumberEnds;
    var k := i + |first|;
    HereSplit(s, i, first, ws + ([sign] + (ws + rest)));
    HereFits(s, i, first);
    assert ws + ([sign] + (ws + rest)) == (ws + [sign]) + (ws + rest);
    HereSplit(s, k, ws + [sign], ws + rest);
    GapEnds(s, k, ws, sign);
    assert |ws + [sign]| == |ws| + 1;
    GapBefore(s, k + |ws| + 1, ws, rest);
  }

  lemma {:induction false} ObjectReads(s: string, i: nat, members: seq<Member>, ws: string)
    requires (forall m :: m in members ==> Plain(m.value)) && Blank(ws) && Here(s, i, Print(Obj(members), ws))
    ensures ParseValue(s, i) == Some((Obj(members), i + |Print(Obj(members), ws)|))
    decreases members, 1
  {
    hide ParseMembers, SkipSpace, PrintMembers;
    var inner := (if members == [] then "" else PrintMembers(members, ws)) + "}";
    HereSplit(s, i, "{", ws + inner);
    HereFirst(s, i, "{");
    if members == [] {
      GapBefore(s, i + 1, ws, inner);
    } else {
      MembersStart(members, ws);
      GapBefore(s, i + 1, ws, inner);
      MembersRead(s, i + 1 + |ws|, members, [], ws);
      assert [] + members == members;
    }
  }

  lemma MembersStart(members: seq<Member>, ws: string)
    requires members != [] && forall m :: m in members ==> Plain(m.value)
    ensures PrintMembers(members, ws) != "" && PrintMembers(members, ws)[0] == '"' && !IsSpace('"')
  {
  }

  lemma {:induction false} MemberReads(s: string, i: nat, m: Member, ws: string)
    requires Plain(m.value) && Blank(ws) && Here(s, i, PrintMember(m, ws)) && NumberEnds(s, i + |PrintMember(m, ws)|)
    ensures ParseName(s, i).Some? && ParseName(s, i).value.0 == m.name
    ensures ParseValue(s, ParseName(s, i).value.1) == Some((m.value, i + |PrintMember(m, ws)|))
    decreases m
  {
    hide ParseName, ParseValue, SkipSpace, Print, Quoted, Here, NumberEnds, Blank, IsSpace, Plain;
    var name, value := Quoted(m.name), Print(m.value, ws);
    PrintStarts(m.value, ws);
    assert PrintMember(m, ws) == name + (ws + (":" + (ws + value)));
    MoreHere(s, i, name, ws, ':', value);
    QuotedReads(s, i, m.name);
    NameReads(s, i, m.name, i + |name|);
    ValueReads(s, i + |name| + |ws| + 1 + |ws|, m.value, ws);
  }

  lemma NameReads(s: string, i: nat, name: string, j: nat)
    requires i < |s| && j <= |s| && s[i] == '"' && ParseChars(s, i + 1, "", None) == Some((name, j))
    requires SkipSpace(s, j) < |s| && s[SkipSpace(s, j)] == ':'
    ensures ParseName(s, i) == Some((name, SkipSpace(s, SkipSpace(s, j) + 1)))
  {
    hide ParseChars, SkipSpace;
  }

  lemma {:induction false} MembersRead(s: string, i: nat, members: seq<Member>, acc: seq<Member>, ws: string)
    requires members != [] && (forall m :: m in members ==> Plain(m.value)) && Blank(ws)
    requires Here(s, i, PrintMembers(members, ws) + "}")
    ensures ParseMembers(s, i, acc) == Some((Obj(acc + members), i + |PrintMembers(members, ws)| + 1))
    decreases members, 0
  {
    hide ParseMembers, ParseValue, ParseName, SkipSpace, PrintMember, Here, Blank, Plain, NumberEnds, IsSpace;
    var m := members[0];
    var first := PrintMember(m, ws);
    var k := i + |first|;
    if |members| == 1 {
      assert PrintMembers(members, ws) + "}" == first + (ws + "}");
      LastHere(s, i, first, ws, '}');
      MemberReads(s, i, m, ws);
      LastMember(s, i, acc, m, k);
      assert acc + members == acc + [m];
    } else {
      var rest := PrintMembers(members[1..], ws) + "}";
      assert PrintMembers(members, ws) + "}" == first + (ws + ("," + (ws + rest)));
      MembersStart(members[1..], ws);
      MoreHere(s, i, first, ws, ',', rest);
      MemberReads(s, i, m, ws);
      MembersRead(s, k + |ws| + 1 + |ws|, members[1..], acc + [m], ws);
      MoreMembers(s, i, acc, m, k);
      assert acc + [m] + members[1..] == acc + members;
    }
  }

  lemma LastMember(s: string, i: nat, acc: seq<Member>, m: Member, j: nat)
    requires i <= |s| && j <= |s| && ParseName(s, i).Some? && ParseName(s, i).value.0 == m.name
    requires ParseValue(s, ParseName(s, i).value.1) == Some((m.value, j))
    requires SkipSpace(s, j) < |s| && s[SkipSpace(s, j)] == '}'
    ensures ParseMembers(s, i, acc) == Some((Obj(acc + [m]), SkipSpace(s, j) + 1))
  {
    hide ParseValue, ParseName, SkipSpace;
    assert Member(m.name, m.value) == m;
  }

  lemma MoreMembers(s: string, i: nat, acc: seq<Member>, m: Member, j: nat)
    requires i <= |s| && j <= |s| && ParseName(s, i).Some? && ParseName(s, i).value.0 == m.name
    requires ParseValue(s, ParseName(s, i).value.1) == Some((m.value, j))
    requires SkipSpace(s, j) < |s| && s[SkipSpace(s, j)] == ','
    ensures ParseMembers(s, i, acc) == ParseMembers(s, SkipSpace(s, SkipSpace(s, j) + 1), acc + [m])
  {
    hide ParseValue, ParseName, SkipSpace;
    assert Member(m.name, m.value) == m;
  }

  /** The parser reads every written value back, whatever white space stands in its gaps: objects,
      arrays, strings with escapes, whole numbers and the three words, nested without limit. */
  lemma ReadsWhatIsWritten(j: Json, ws: string)
    requires Plain(j) && Blank(ws)
    ensures ValueOf(Print(j, ws)) == Some(j)
  {
    hide Print, ParseValue;
    var s := Print(j, ws);
    assert s[0..|s|] == s;
    ValueReads(s, 0, j, ws);
  }
}
