/** The stack-trace filter: keeps this module's frames, each with the line after it. */
module StackFilter {
  import opened ByteText

  /** Splitting at newlines: always at least one line. */
  function Split(s: string): (lines: seq<string>)
    ensures |lines| > 0
    ensures forall line :: line in lines ==> '\n' !in line
  {
    if s == "" then [""]
    else
      var rest := Split(s[1..]);
      if s[0] == '\n' then [""] + rest else [[s[0]] + rest[0]] + rest[1..]
  }

  function Join(lines: seq<string>): string {
    if lines == [] then ""
    else if |lines| == 1 then lines[0]
    else lines[0] + ("\n" + Join(lines[1..]))
  }

  predicate IsFrame(line: string) {
    var trimmed := TrimSpace(line);
    HasPrefix(trimmed, "github.com/isaacthajunior/") || HasPrefix(trimmed, "main.")
  }

  /** The kept lines: a frame takes the line after it along, whatever that line is. */
  function Kept(lines: seq<string>): seq<string> {
    if lines == [] then []
    else if !IsFrame(lines[0]) then Kept(lines[1..])
    else if |lines| == 1 then lines
    else lines[..2] + Kept(lines[2..])
  }

  function Filtered(full: string): string {
    Join(Kept(Split(full)))
  }

  method FilterStack(full: string) returns (r: string)
    ensures r == Filtered(full)
  {
    var kept: seq<string> := [];
    var lines := Split(full);
    var i := 0;
    while i < |lines|
      invariant 0 <= i <= |lines|
      invariant kept + Kept(lines[i..]) == Kept(lines)
    {
      hide IsFrame;
      var rest := lines[i..];
      var line := lines[i];
      assert rest[0] == line && rest[1..] == lines[i + 1..];
      if IsFrame(line) {
        kept := kept + [line];
        if i + 1 < |lines| {
          assert rest[..2] == [line, lines[i + 1]] && rest[2..] == lines[i + 2..];
          i := i + 1;
          kept := kept + [lines[i]];
        }
      }
      i := i + 1;
    }
    assert lines[i..] == [] && kept + [] == kept;
    r := Join(kept);
  }

  // ---- joining and splitting ----

  lemma {:induction false} SplitLine(line: string, rest: string)
    requires '\n' !in line
    ensures Split(line + ("\n" + rest)) == [line] + Split(rest)
    ensures Split(line) == [line]
  {
    if line == "" {
      assert line + ("\n" + rest) == "\n" + rest;
      assert ("\n" + rest)[1..] == rest;
    } else {
      SplitLine(line[1..], rest);
      var s := line + ("\n" + rest);
      assert s[1..] == line[1..] + ("\n" + rest);
      assert line == [line[0]] + line[1..];
    }
  }

  /** Splitting undoes joining, for at least one line without newlines. */
  lemma {:induction false} SplitJoin(lines: seq<string>)
    requires |lines| > 0 && forall line :: line in lines ==> '\n' !in line
    ensures Split(Join(lines)) == lines
  {
    if |lines| == 1 {
      SplitLine(lines[0], "");
    } else {
      SplitJoin(lines[1..]);
      SplitLine(lines[0], Join(lines[1..]));
    }
  }

  /** Joining undoes splitting, for every text. */
  lemma {:induction false} JoinSplit(s: string)
    ensures Join(Split(s)) == s
  {
    if s != "" {
      JoinSplit(s[1..]);
      var rest := Split(s[1..]);
      if s[0] == '\n' {
        assert ([""] + rest)[1..] == rest;
        assert s == "" + ("\n" + s[1..]);
      } else if |rest| == 1 {
        assert s == [s[0]] + s[1..];
      } else {
        assert ([[s[0]] + rest[0]] + rest[1..])[1..] == rest[1..];
        assert Join(rest) == rest[0] + ("\n" + Join(rest[1..]));
        assert ([s[0]] + rest[0]) + ("\n" + Join(rest[1..])) == [s[0]] + Join(rest);
        assert s == [s[0]] + s[1..];
      }
    }
  }

  // ---- properties ----

  lemma {:induction false} KeptTwice(lines: seq<string>)
    ensures Kept(Kept(lines)) == Kept(lines)
  {
    hide IsFrame;
    if lines == [] {
    } else if !IsFrame(lines[0]) {
      KeptTwice(lines[1..]);
    } else if |lines| > 1 {
      var rest := Kept(lines[2..]);
      KeptTwice(lines[2..]);
      var kept := lines[..2] + rest;
      assert kept[0] == lines[0] && kept[..2] == lines[..2] && kept[2..] == rest;
    }
  }

  lemma {:induction false} KeptAreLines(lines: seq<string>)
    ensures forall line :: line in Kept(lines) ==> line in lines
  {
    hide IsFrame;
    if lines == [] {
    } else if !IsFrame(lines[0]) {
      KeptAreLines(lines[1..]);
    } else if |lines| > 1 {
      KeptAreLines(lines[2..]);
    }
  }

  /** The lines of the output: exactly the kept lines, or one empty line when nothing is kept. */
  lemma OutputLines(full: string)
    ensures Split(Filtered(full)) == if Kept(Split(full)) == [] then [""] else Kept(Split(full))
  {
    KeptAreLines(Split(full));
    if Kept(Split(full)) != [] {
      SplitJoin(Kept(Split(full)));
    }
  }

  /** Filtering a filtered trace changes nothing, for every text. */
  lemma FilterIsIdempotent(full: string)
    ensures Filtered(Filtered(full)) == Filtered(full)
  {
    hide IsFrame;
    OutputLines(full);
    if Kept(Split(full)) == [] {
      EmptyIsNoFrame();
      assert Kept([""][1..]) == [];
      assert Kept([""]) == [];
    } else {
      KeptTwice(Split(full));
    }
  }

  lemma EmptyIsNoFrame()
    ensures !IsFrame("")
  {
  }

  // ---- which lines are kept ----

  /** Frames are the lines that begin, after white space, with this module's path or main. */
  lemma FramesExactly(line: string)
    ensures IsFrame(line) <==> "github.com/isaacthajunior/" <= TrimSpace(line) || "main." <= TrimSpace(line)
  {
  }

  /** How many frame lines in a row end at line i. */
  function Run(lines: seq<string>, i: nat): nat
    requires i < |lines|
  {
    if !IsFrame(lines[i]) then 0 else 1 + if i == 0 then 0 else Run(lines, i - 1)
  }

  /** A frame takes the next line along unless the line before took it: every other one of a row. */
  predicate Takes(lines: seq<string>, i: nat)
    requires i < |lines|
  {
    Run(lines, i) % 2 == 1
  }

  predicate KeepsLine(lines: seq<string>, i: nat)
    requires i < |lines|
  {
    Takes(lines, i) || (i > 0 && Takes(lines, i - 1))
  }

  lemma {:induction false} RunShift(lines: seq<string>, k: nat, i: nat)
    requires 1 <= k <= 2 && k <= i < |lines|
    requires k == 1 ==> !IsFrame(lines[0])
    requires k == 2 ==> IsFrame(lines[0])
    ensures Run(lines[k..], i - k) % 2 == Run(lines, i) % 2
    decreases i
  {
    hide IsFrame;
    if IsFrame(lines[i]) {
      if i > k {
        RunShift(lines, k, i - 1);
      } else if k == 1 {
        assert Run(lines, 0) == 0;
      } else {
        assert Run(lines, 0) == 1;
        assert Run(lines, 1) % 2 == 0;
      }
    }
  }

  /** Increasing positions in b that spell a. */
  ghost predicate Picks(a: seq<string>, b: seq<string>, at: seq<nat>) {
    && |at| == |a|
    && (forall i :: 0 <= i < |a| ==> at[i] < |b| && b[at[i]] == a[i])
    && (forall i, j :: 0 <= i < j < |a| ==> at[i] < at[j])
  }

  lemma KeepsShift(lines: seq<string>, k: nat, i: nat)
    requires 1 <= k <= 2 && k <= i < |lines|
    requires k == 1 ==> !IsFrame(lines[0])
    requires k == 2 ==> IsFrame(lines[0])
    ensures KeepsLine(lines, i) <==> KeepsLine(lines[k..], i - k)
  {
    hide IsFrame;
    RunShift(lines, k, i);
    if i > k {
      RunShift(lines, k, i - 1);
    } else if k == 2 {
      assert Run(lines, 0) == 1;
    }
  }

  function Shifted(at: seq<nat>, k: nat): seq<nat> {
    seq(|at|, i requires 0 <= i < |at| => at[i] + k)
  }

  lemma InShifted(at: seq<nat>, k: nat, i: nat)
    ensures i in Shifted(at, k) <==> i >= k && i - k in at
  {
    if i >= k && i - k in at {
      var m :| 0 <= m < |at| && at[m] == i - k;
      assert Shifted(at, k)[m] == i;
    }
  }

  /** Exactly which lines are kept, in their order: the frames that take a line and the lines they
      take. So every frame line is kept, and the line after a frame is kept unless that frame was
      itself taken along and the line is no frame. */
  lemma {:induction false} KeptExactly(lines: seq<string>) returns (at: seq<nat>)
    ensures Picks(Kept(lines), lines, at)
    ensures forall i: nat :: i < |lines| ==> (i in at <==> KeepsLine(lines, i))
  {
    hide IsFrame, KeepsLine;
    if lines == [] {
      at := [];
    } else if !IsFrame(lines[0]) {
      var rest := KeptExactly(lines[1..]);
      at := Shifted(rest, 1);
      forall i: nat | i < |lines|
        ensures i in at <==> KeepsLine(lines, i)
      {
        InShifted(rest, 1, i);
        if i == 0 { FirstLine(lines); } else { KeepsShift(lines, 1, i); }
      }
    } else if |lines| == 1 {
      at := [0];
      FirstLine(lines);
    } else {
      var rest := KeptExactly(lines[2..]);
      at := [0, 1] + Shifted(rest, 2);
      assert forall i :: 2 <= i < |at| ==> Kept(lines)[i] == Kept(lines[2..])[i - 2];
      forall i: nat | i < |lines|
        ensures i in at <==> KeepsLine(lines, i)
      {
        InShifted(rest, 2, i);
        FirstLine(lines);
        if i >= 2 { KeepsShift(lines, 2, i); }
      }
    }
  }

  lemma FirstLine(lines: seq<string>)
    requires lines != []
    ensures KeepsLine(lines, 0) <==> IsFrame(lines[0])
    ensures |lines| > 1 && IsFrame(lines[0]) ==> KeepsLine(lines, 1)
  {
    hide IsFrame;
  }

  /** No frame line is dropped, and a frame that follows no frame keeps the line after it. */
  lemma FramesAreKept(lines: seq<string>, i: nat)
    requires i < |lines| && IsFrame(lines[i])
    ensures KeepsLine(lines, i) && lines[i] in Kept(lines)
    ensures i + 1 < |lines| && (i == 0 || !IsFrame(lines[i - 1])) ==> KeepsLine(lines, i + 1) && lines[i + 1] in Kept(lines)
    ensures i + 1 < |lines| && !IsFrame(lines[i + 1]) ==> (KeepsLine(lines, i + 1) <==> Run(lines, i) % 2 == 1)
  {
    hide IsFrame, Kept;
    var at := KeptExactly(lines);
    assert KeepsLine(lines, i);
    assert i in at;
  }

  /** The line after the second of two frames in a row is dropped. */
  lemma FollowerDropped()
    ensures IsFrame("main.b()") && Kept(["main.a()", "main.b()", "b.go:1"]) == ["main.a()", "main.b()"]
  {
    hide TrimSpace;
    var lines := ["main.a()", "main.b()", "b.go:1"];
    Untrimmed(lines[0]);
    Untrimmed(lines[1]);
    Untrimmed(lines[2]);
    assert lines[2][..1] == "b";
    assert lines[0][..5] == "main." && lines[1][..5] == "main.";
    assert lines[..2] == ["main.a()", "main.b()"] && lines[2..] == [lines[2]] && lines[2..][1..] == [];
    assert Kept(lines[2..]) == Kept(lines[2..][1..]) == [];
  }

  lemma Untrimmed(line: string)
    requires line != "" && 'a' <= line[0] <= 'z' && (line[|line| - 1] == ')' || line[|line| - 1] == '1')
    ensures TrimSpace(line) == line
  {
    assert SpaceAtFront(line) == 0 && SpaceAtBack(line) == 0;
  }

  /** The kept lines are a subsequence of the input lines. */
  lemma KeptIsSubsequence(lines: seq<string>) returns (at: seq<nat>)
    ensures Picks(Kept(lines), lines, at)
  {
    at := KeptExactly(lines);
  }
}
