/** Byte strings: one char per byte, as the program's strings are. Trimming follows UTF-8. */
module ByteText {
  /** Length of the white-space character encoded at the front of s, 0 if there is none. */
  function SpaceAtFront(s: string): (n: nat)
    ensures n <= |s|
  {
    if |s| >= 1 && (s[0] == ' ' || '\t' <= s[0] <= '\r') then 1
    else if |s| >= 2 && IsSpace2(s[0], s[1]) then 2
    else if |s| >= 3 && IsSpace3(s[0], s[1], s[2]) then 3
    else 0
  }

  function SpaceAtBack(s: string): (n: nat)
    ensures n <= |s|
  {
    if |s| >= 1 && (s[|s| - 1] == ' ' || '\t' <= s[|s| - 1] <= '\r') then 1
    else if |s| >= 2 && IsSpace2(s[|s| - 2], s[|s| - 1]) then 2
    else if |s| >= 3 && IsSpace3(s[|s| - 3], s[|s| - 2], s[|s| - 1]) then 3
    else 0
  }

  /** U+0085 and U+00A0. */
  predicate IsSpace2(a: char, b: char) {
    a == '\U{C2}' && (b == '\U{85}' || b == '\U{A0}')
  }

  /** U+1680, U+2000 to U+200A, U+2028, U+2029, U+202F, U+205F and U+3000. */
  predicate IsSpace3(a: char, b: char, c: char) {
    || (a == '\U{E1}' && b == '\U{9A}' && c == '\U{80}')
    || (a == '\U{E2}' && b == '\U{80}' && ('\U{80}' <= c <= '\U{8A}' || c == '\U{A8}' || c == '\U{A9}' || c == '\U{AF}'))
    || (a == '\U{E2}' && b == '\U{81}' && c == '\U{9F}')
    || (a == '\U{E3}' && b == '\U{80}' && c == '\U{80}')
  }

  function TrimLeft(s: string): string
    decreases |s|
  {
    if SpaceAtFront(s) == 0 then s else TrimLeft(s[SpaceAtFront(s)..])
  }

  function TrimRight(s: string): string
    decreases |s|
  {
    if SpaceAtBack(s) == 0 then s else TrimRight(s[..|s| - SpaceAtBack(s)])
  }

  function TrimSpace(s: string): string {
    TrimRight(TrimLeft(s))
  }

  predicate HasPrefix(s: string, p: string) {
    p <= s
  }

  // ---- trimming, against Unicode and UTF-8 ----

  /** The code points Unicode calls white space. */
  predicate WhiteSpace(cp: int) {
    || 0x09 <= cp <= 0x0D || cp == 0x20 || cp == 0x85 || cp == 0xA0 || cp == 0x1680 || 0x2000 <= cp <= 0x200A
    || cp == 0x2028 || cp == 0x2029 || cp == 0x202F || cp == 0x205F || cp == 0x3000
  }

  /** The UTF-8 bytes of a code point below U+D800. */
  function Utf8(cp: int): string
    requires 0 <= cp < 0xD800
  {
    if cp < 0x80 then [cp as char]
    else if cp < 0x800 then [(0xC0 + cp / 64) as char, (0x80 + cp % 64) as char]
    else [(0xE0 + cp / 4096) as char, (0x80 + cp / 64 % 64) as char, (0x80 + cp % 64) as char]
  }

  /** The bytes of one white-space character. */
  ghost predicate Space(w: string) {
    exists cp :: WhiteSpace(cp) && w == Utf8(cp)
  }

  lemma ShortSpaces(w: string)
    requires |w| == 1
    ensures Space(w) <==> w[0] == ' ' || '\t' <= w[0] <= '\r'
  {
    if w[0] == ' ' || '\t' <= w[0] <= '\r' {
      assert WhiteSpace(w[0] as int) && w == Utf8(w[0] as int);
    }
  }

  lemma MiddleSpaces(w: string)
    requires |w| == 2
    ensures Space(w) <==> IsSpace2(w[0], w[1])
  {
    if IsSpace2(w[0], w[1]) {
      assert WhiteSpace(w[1] as int) && w == Utf8(w[1] as int);
    }
  }

  lemma LongSpaces(w: string)
    requires |w| == 3
    ensures Space(w) <==> IsSpace3(w[0], w[1], w[2])
  {
    if IsSpace3(w[0], w[1], w[2]) {
      var cp := (w[0] as int - 0xE0) * 4096 + (w[1] as int - 0x80) * 64 + (w[2] as int - 0x80);
      assert WhiteSpace(cp) && w == Utf8(cp);
    }
  }

  lemma SpaceLengths(w: string)
    requires Space(w)
    ensures 1 <= |w| <= 3
  {
  }

  /** One white-space character after another. */
  ghost predicate AllSpace(s: string)
    decreases |s|
  {
    s == "" || exists n :: 0 < n <= |s| && Space(s[..n]) && AllSpace(s[n..])
  }

  lemma FrontIsSpace(s: string)
    ensures SpaceAtFront(s) > 0 ==> Space(s[..SpaceAtFront(s)])
    ensures SpaceAtFront(s) == 0 ==> forall n :: 0 < n <= |s| ==> !Space(s[..n])
  {
    hide Space;
    if |s| >= 1 { ShortSpaces(s[..1]); }
    if |s| >= 2 { MiddleSpaces(s[..2]); }
    if |s| >= 3 { LongSpaces(s[..3]); }
    forall n | 0 < n <= |s| && Space(s[..n])
      ensures SpaceAtFront(s) > 0
    {
      SpaceLengths(s[..n]);
    }
  }

  lemma BackIsSpace(s: string)
    ensures SpaceAtBack(s) > 0 ==> Space(s[|s| - SpaceAtBack(s)..])
    ensures SpaceAtBack(s) == 0 ==> forall n :: 0 <= n < |s| ==> !Space(s[n..])
  {
    hide Space, SpaceAtBack;
    BackFound(s);
    forall n | 0 <= n < |s| && Space(s[n..])
      ensures SpaceAtBack(s) > 0
    {
      SpaceLengths(s[n..]);
      BackMissed(s, n);
    }
  }

  lemma BackFound(s: string)
    ensures SpaceAtBack(s) > 0 ==> Space(s[|s| - SpaceAtBack(s)..])
  {
    hide Space;
    var n := |s| - SpaceAtBack(s);
    if SpaceAtBack(s) == 1 {
      ShortSpaces(s[n..]);
    } else if SpaceAtBack(s) == 2 {
      MiddleSpaces(s[n..]);
    } else if SpaceAtBack(s) == 3 {
      LongSpaces(s[n..]);
    }
  }

  lemma BackMissed(s: string, n: nat)
    requires n < |s| && 1 <= |s| - n <= 3 && Space(s[n..])
    ensures SpaceAtBack(s) > 0
  {
    hide Space;
    if |s| - n == 1 {
      ShortSpaces(s[n..]);
    } else if |s| - n == 2 {
      MiddleSpaces(s[n..]);
    } else {
      LongSpaces(s[n..]);
    }
  }

  lemma {:induction false} TrimLeftIs(s: string) returns (n: nat)
    ensures n <= |s| && AllSpace(s[..n]) && TrimLeft(s) == s[n..]
    ensures forall k :: 0 < k <= |TrimLeft(s)| ==> !Space(TrimLeft(s)[..k])
    decreases |s|
  {
    hide Space, SpaceAtFront;
    FrontIsSpace(s);
    var f := SpaceAtFront(s);
    if f == 0 {
      n := 0;
    } else {
      var m := TrimLeftIs(s[f..]);
      n := f + m;
      assert s[..n][..f] == s[..f] && s[..n][f..] == s[f..][..m] && s[f..][m..] == s[n..];
    }
  }

  lemma {:induction false} SpaceThenSpace(a: string, w: string)
    requires AllSpace(a) && Space(w)
    ensures AllSpace(a + w)
    decreases |a|
  {
    hide Space;
    if a == "" {
      SpaceLengths(w);
      assert a + w == w && w[..|w|] == w && w[|w|..] == "";
    } else {
      var n :| 0 < n <= |a| && Space(a[..n]) && AllSpace(a[n..]);
      SpaceThenSpace(a[n..], w);
      assert (a + w)[..n] == a[..n] && (a + w)[n..] == a[n..] + w;
    }
  }

  lemma {:induction false} TrimRightIs(s: string) returns (n: nat)
    ensures n <= |s| && AllSpace(s[n..]) && TrimRight(s) == s[..n]
    ensures forall k :: 0 <= k < |TrimRight(s)| ==> !Space(TrimRight(s)[k..])
    decreases |s|
  {
    hide Space, SpaceAtBack;
    BackIsSpace(s);
    var b := |s| - SpaceAtBack(s);
    if b == |s| {
      n := |s|;
    } else {
      n := TrimRightIs(s[..b]);
      assert s[n..] == s[..b][n..] + s[b..] && s[..b][..n] == s[..n];
      SpaceThenSpace(s[..b][n..], s[b..]);
    }
  }

  /** Trimming takes white-space characters off both ends and nothing else, until neither end has
      one. */
  lemma TrimSpaceExactly(s: string) returns (i: nat, j: nat)
    ensures i <= j <= |s| && TrimSpace(s) == s[i..j]
    ensures AllSpace(s[..i]) && AllSpace(s[j..])
    ensures forall k :: 0 < k <= |TrimSpace(s)| ==> !Space(TrimSpace(s)[..k])
    ensures forall k :: 0 <= k < |TrimSpace(s)| ==> !Space(TrimSpace(s)[k..])
  {
    hide Space, TrimLeft, TrimRight;
    i := TrimLeftIs(s);
    var rest := s[i..];
    var n := TrimRightIs(rest);
    j := i + n;
    assert rest[..n] == s[i..j] && rest[n..] == s[j..];
    forall k | 0 < k <= n
      ensures !Space(TrimSpace(s)[..k])
    {
      assert rest[..n][..k] == rest[..k];
    }
  }
}
