/** The idempotency key: its pre-image, and when two requests share one. */
module Idempotency {
  import opened Prelude
  import opened Json
  import opened JsonText

  /** The bytes fed to the digest: every part followed by a colon. */
  function PreImage(parts: seq<string>): string {
    if parts == [] then "" else PreImage(parts[..|parts| - 1]) + parts[|parts| - 1] + ":"
  }

  /** A collision-free digest stands for its input, so the key is modelled by its pre-image. */
  function KeyOf(parts: seq<string>): string {
    "key_" + PreImage(parts)
  }

  method GenerateIdempotencyKey(parts: seq<string>) returns (key: string)
    ensures key == KeyOf(parts)
  {
    var fed := "";
    var i := 0;
    while i < |parts|
      invariant 0 <= i <= |parts|
      invariant fed == PreImage(parts[..i])
    {
      fed := fed + parts[i];
      fed := fed + ":";
      assert parts[..i + 1][..i] == parts[..i];
      i := i + 1;
    }
    assert parts[..i] == parts;
    key := "key_" + fed;
  }

  lemma PreImageOfThree(kind: string, raw: string, priority: string)
    ensures PreImage([kind, raw, priority]) == kind + (":" + (raw + (":" + (priority + ":"))))
  {
    var parts := [kind, raw, priority];
    assert parts[..2] == [kind, raw] && [kind, raw][..1] == [kind] && [kind][..0] == [];
    assert PreImage([]) == "";
    assert PreImage([kind]) == kind + ":";
    assert PreImage([kind, raw]) == kind + ":" + raw + ":";
  }

  lemma ComparablePrefixes(p: string, x: string, q: string, y: string)
    requires p + x == q + y
    ensures p <= q || q <= p
  {
    var s := p + x;
    assert p == s[..|p|] && q == s[..|q|];
    if |p| <= |q| {
      assert p == q[..|p|];
    } else {
      assert q == p[..|q|];
    }
  }

  /** The pre-image of type, payload and priority is injective as soon as types have no colon
      and payloads are JSON object texts; payloads and priorities may contain colons. */
  lemma KeyDeterminesRequest(k1: string, raw1: string, p1: string, k2: string, raw2: string, p2: string)
    requires ':' !in k1 && ':' !in k2
    requires IsObjectText(raw1) && IsObjectText(raw2)
    requires KeyOf([k1, raw1, p1]) == KeyOf([k2, raw2, p2])
    ensures k1 == k2 && raw1 == raw2 && p1 == p2
  {
    hide PreImage, IsObjectText;
    PreImageOfThree(k1, raw1, p1);
    PreImageOfThree(k2, raw2, p2);
    var a, b := PreImage([k1, raw1, p1]), PreImage([k2, raw2, p2]);
    assert a == KeyOf([k1, raw1, p1])[4..] && b == KeyOf([k2, raw2, p2])[4..];
    SplitAtFirst(':', k1, raw1 + (":" + (p1 + ":")), k2, raw2 + (":" + (p2 + ":")));
    ComparablePrefixes(raw1, ":" + (p1 + ":"), raw2, ":" + (p2 + ":"));
    if raw1 <= raw2 {
      ObjectTextsArePrefixFree(raw1, raw2);
    } else {
      ObjectTextsArePrefixFree(raw2, raw1);
    }
    var rest1, rest2 := ":" + (p1 + ":"), ":" + (p2 + ":");
    assert rest1 == (raw1 + rest1)[|raw1|..] && rest2 == (raw2 + rest2)[|raw2|..];
    assert p1 == rest1[1..|rest1| - 1] && p2 == rest2[1..|rest2| - 1];
  }

  /** Without the object condition the encoding is ambiguous: the parts are not escaped. */
  lemma AmbiguousWithoutObjects()
    ensures KeyOf(["scrape_url", "1:2", "3"]) == KeyOf(["scrape_url", "1", "2:3"])
  {
    PreImageOfThree("scrape_url", "1:2", "3");
    PreImageOfThree("scrape_url", "1", "2:3");
    assert "1:2" + (":" + ("3" + ":")) == "1" + (":" + ("2:3" + ":"));
  }
}
