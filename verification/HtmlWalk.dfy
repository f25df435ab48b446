/** Page extraction: the accumulating walk over first-child/next-sibling trees, against a
    pre-order specification. */
module HtmlWalk {
  import opened Prelude
  import opened ByteText

  datatype Kind = Element | Text | Other

  datatype Attr = Attr(key: string, value: string)

  datatype Node =
    | NoNode
    | Node(kind: Kind, data: string, attrs: seq<Attr>, firstChild: Node, nextSibling: Node)

  predicate IsElement(n: Node, name: string) {
    n.Node? && n.kind == Element && n.data == name
  }

  predicate Pruned(n: Node) {
    IsElement(n, "script") || IsElement(n, "style")
  }

  /** The nodes of a subtree in pre-order; a pruning walk does not enter script and style. */
  function Walked(n: Node, pruning: bool): seq<Node>
    requires n.Node?
    decreases n, 1
  {
    [n] + if pruning && Pruned(n) then [] else WalkedSiblings(n.firstChild, pruning)
  }

  function WalkedSiblings(c: Node, pruning: bool): seq<Node>
    decreases c, 2
  {
    if c.NoNode? then [] else Walked(c, pruning) + WalkedSiblings(c.nextSibling, pruning)
  }

  /** All nodes of a subtree, as the text walk looks at them. */
  function AllNodes(n: Node): seq<Node>
    requires n.Node?
  {
    Walked(n, false)
  }

  function AllSiblings(c: Node): seq<Node> {
    WalkedSiblings(c, false)
  }

  /** The nodes the page walk looks at. */
  function Visited(n: Node): seq<Node>
    requires n.Node?
  {
    Walked(n, true)
  }

  function VisitedSiblings(c: Node): seq<Node> {
    WalkedSiblings(c, true)
  }

  /** What each node contributes, concatenated in order. */
  function Collect<T>(nodes: seq<Node>, f: Node -> seq<T>): seq<T> {
    if nodes == [] then [] else Collect(nodes[..|nodes| - 1], f) + f(nodes[|nodes| - 1])
  }

  lemma {:induction false} CollectConcat<T>(a: seq<Node>, b: seq<Node>, f: Node -> seq<T>)
    ensures Collect(a + b, f) == Collect(a, f) + Collect(b, f)
  {
    if b == [] {
      assert a + b == a;
    } else {
      CollectConcat(a, b[..|b| - 1], f);
      assert (a + b)[..|a + b| - 1] == a + b[..|b| - 1];
    }
  }

  lemma CollectOne<T>(n: Node, f: Node -> seq<T>)
    ensures Collect([n], f) == f(n)
  {
    assert [n][..0] == [];
  }

  // ---- text ----

  function OwnText(n: Node): string {
    if n.Node? && n.kind == Text then n.data else ""
  }

  /** The trimmed text of a subtree: all of its text nodes, script and style included. */
  function TextOf(n: Node): string
    requires n.Node?
  {
    TrimSpace(Collect(AllNodes(n), OwnText))
  }

  class TextBuilder {
    var text: string

    constructor ()
      ensures text == ""
    {
      text := "";
    }

    method Walk(n: Node)
      requires n.Node?
      modifies this
      ensures text == old(text) + Collect(AllNodes(n), OwnText)
      decreases n
    {
      hide Collect, AllNodes, AllSiblings, OwnText;
      TextUnfolds(n);
      if n.kind == Text {
        text := text + n.data;
      }
      var c := n.firstChild;
      ghost var start := old(text) + OwnText(n);
      ghost var done: seq<Node> := [];
      while c.Node?
        invariant c == NoNode || c < n
        invariant done + AllSiblings(c) == AllSiblings(n.firstChild)
        invariant text == start + Collect(done, OwnText)
        decreases c
      {
        SiblingsUnfold(c);
        CollectConcat(done, AllNodes(c), OwnText);
        assert (done + AllNodes(c)) + AllSiblings(c.nextSibling) == done + (AllNodes(c) + AllSiblings(c.nextSibling));
        Walk(c);
        done := done + AllNodes(c);
        c := c.nextSibling;
      }
      SiblingsUnfold(c);
      assert done == AllSiblings(n.firstChild);
    }
  }

  lemma TextUnfolds(n: Node)
    requires n.Node?
    ensures Collect(AllNodes(n), OwnText) == OwnText(n) + Collect(AllSiblings(n.firstChild), OwnText)
    ensures OwnText(n) == if n.kind == Text then n.data else ""
    ensures Collect([], OwnText) == ""
  {
    CollectOne(n, OwnText);
    CollectConcat([n], AllSiblings(n.firstChild), OwnText);
  }

  lemma SiblingsUnfold(c: Node)
    ensures AllSiblings(c) == if c.NoNode? then [] else AllNodes(c) + AllSiblings(c.nextSibling)
  {
  }

  method ExtractText(n: Node) returns (text: string)
    requires n.Node?
    ensures text == TextOf(n)
  {
    var b := new TextBuilder();
    b.Walk(n);
    assert "" + Collect(AllNodes(n), OwnText) == Collect(AllNodes(n), OwnText);
    text := TrimSpace(b.text);
  }

  // ---- what a page collects ----

  function HeadingsAt(n: Node): seq<string> {
    if (IsElement(n, "h1") || IsElement(n, "h2") || IsElement(n, "h3")) && TextOf(n) != "" then [TextOf(n)] else []
  }

  function Cut(text: string): string {
    if |text| > 300 then text[..300] else text
  }

  function ParagraphsAt(n: Node): seq<string> {
    if IsElement(n, "p") && |TextOf(n)| >= 20 then [Cut(TextOf(n))] else []
  }

  predicate IsLink(a: Attr) {
    a.key == "href" && HasPrefix(a.value, "http")
  }

  function LinksIn(attrs: seq<Attr>): seq<string> {
    if attrs == [] then []
    else LinksIn(attrs[..|attrs| - 1]) + if IsLink(attrs[|attrs| - 1]) then [attrs[|attrs| - 1].value] else []
  }

  function LinksAt(n: Node): seq<string> {
    if IsElement(n, "a") then LinksIn(n.attrs) else []
  }

  /** Titles come from title elements whose first child is text. */
  function TitlesAt(n: Node): seq<string> {
    if IsElement(n, "title") && n.firstChild.Node? && n.firstChild.kind == Text then [TrimSpace(n.firstChild.data)] else []
  }

  function LastOr(titles: seq<string>, title: string): string {
    if titles == [] then title else titles[|titles| - 1]
  }

  datatype Extract = Extract(title: string, headings: seq<string>, paragraphs: seq<string>, links: seq<string>)

  /** A page after further nodes: ordered filter-maps over them are appended; the last title wins. */
  function Extend(e: Extract, nodes: seq<Node>): Extract {
    Extract(LastOr(Collect(nodes, TitlesAt), e.title), e.headings + Collect(nodes, HeadingsAt),
            e.paragraphs + Collect(nodes, ParagraphsAt), e.links + Collect(nodes, LinksAt))
  }

  lemma ExtendOne(e: Extract, n: Node)
    ensures Extend(e, [n])
         == Extract(LastOr(TitlesAt(n), e.title), e.headings + HeadingsAt(n), e.paragraphs + ParagraphsAt(n), e.links + LinksAt(n))
  {
    hide HeadingsAt, ParagraphsAt, LinksAt, TitlesAt;
    CollectOne(n, TitlesAt);
    CollectOne(n, HeadingsAt);
    CollectOne(n, ParagraphsAt);
    CollectOne(n, LinksAt);
  }

  lemma ExtendJoin(e: Extract, a: seq<Node>, b: seq<Node>)
    ensures Extend(Extend(e, a), b) == Extend(e, a + b)
  {
    hide HeadingsAt, ParagraphsAt, LinksAt, TitlesAt, Collect;
    CollectConcat(a, b, HeadingsAt);
    CollectConcat(a, b, ParagraphsAt);
    CollectConcat(a, b, LinksAt);
    CollectConcat(a, b, TitlesAt);
  }

  class PageBuilder {
    var title: string
    var headings: seq<string>
    var paragraphs: seq<string>
    var links: seq<string>

    constructor ()
      ensures Page() == Extract("", [], [], [])
    {
      title, headings, paragraphs, links := "", [], [], [];
    }

    /** The page so far. */
    function Page(): Extract
      reads this
    {
      Extract(title, headings, paragraphs, links)
    }

    method Note(n: Node)
      requires n.Node?
      modifies this
      ensures title == LastOr(TitlesAt(n), old(title))
      ensures headings == old(headings) + HeadingsAt(n)
      ensures paragraphs == old(paragraphs) + ParagraphsAt(n)
      ensures links == old(links) + LinksAt(n)
    {
      hide TextOf, TrimSpace;
      if n.kind == Element {
        if n.data == "title" {
          if n.firstChild.Node? && n.firstChild.kind == Text {
            title := TrimSpace(n.firstChild.data);
          }
        } else if n.data == "h1" || n.data == "h2" || n.data == "h3" {
          var text := ExtractText(n);
          if text != "" {
            headings := headings + [text];
          }
        } else if n.data == "p" {
          var text := ExtractText(n);
          if |text| >= 20 {
            if |text| > 300 {
              text := text[..300];
            }
            paragraphs := paragraphs + [text];
          }
        } else if n.data == "a" {
          var i := 0;
          var start := links;
          while i < |n.attrs|
            invariant 0 <= i <= |n.attrs|
            invariant links == start + LinksIn(n.attrs[..i])
            invariant title == old(title) && headings == old(headings) && paragraphs == old(paragraphs)
          {
            assert n.attrs[..i + 1][..i] == n.attrs[..i];
            if n.attrs[i].key == "href" && HasPrefix(n.attrs[i].value, "http") {
              links := links + [n.attrs[i].value];
            }
            i := i + 1;
          }
          assert n.attrs[..i] == n.attrs;
        }
      }
    }

    /** The accumulating walk adds exactly what the visited nodes contribute, in order. */
    method Walk(n: Node)
      requires n.Node?
      modifies this
      ensures Page() == Extend(old(Page()), Visited(n))
      decreases n
    {
      hide HeadingsAt, ParagraphsAt, LinksAt, TitlesAt, Visited, VisitedSiblings, LastOr, Extend;
      ghost var page := Page();
      if n.kind == Element && (n.data == "script" || n.data == "style") {
        PrunedAddsNothing(page, n);
        return;
      }
      Note(n);
      ExtendOne(page, n);
      VisitedUnfolds(n);
      var c := n.firstChild;
      ghost var done: seq<Node> := [n];
      while c.Node?
        invariant c == NoNode || c < n
        invariant done + VisitedSiblings(c) == Visited(n)
        invariant Page() == Extend(page, done)
        decreases c
      {
        VisitedSiblingsUnfold(c);
        assert (done + Visited(c)) + VisitedSiblings(c.nextSibling) == done + (Visited(c) + VisitedSiblings(c.nextSibling));
        Walk(c);
        ExtendJoin(page, done, Visited(c));
        done := done + Visited(c);
        c := c.nextSibling;
      }
      VisitedSiblingsUnfold(c);
      assert done == Visited(n);
    }
  }

  lemma VisitedUnfolds(n: Node)
    requires n.Node? && !Pruned(n)
    ensures Visited(n) == [n] + VisitedSiblings(n.firstChild)
  {
  }

  lemma VisitedSiblingsUnfold(c: Node)
    ensures VisitedSiblings(c) == if c.NoNode? then [] else Visited(c) + VisitedSiblings(c.nextSibling)
  {
  }

  lemma PrunedAddsNothing(e: Extract, n: Node)
    requires n.Node? && Pruned(n)
    ensures Extend(e, Visited(n)) == e
  {
    hide TextOf, TrimSpace, Extend, Collect;
    ExtendOne(e, n);
    assert Visited(n) == [n];
    assert e.headings + [] == e.headings && e.paragraphs + [] == e.paragraphs && e.links + [] == e.links;
  }

  /** The page of a document: an empty page extended by the visited nodes. */
  function PageOf(doc: Node): Extract
    requires doc.Node?
  {
    Extend(Extract("", [], [], []), Visited(doc))
  }

  method ExtractPage(doc: Node) returns (page: Extract)
    requires doc.Node?
    ensures page == PageOf(doc)
  {
    hide Extend, Visited;
    var b := new PageBuilder();
    b.Walk(doc);
    page := Extract(b.title, b.headings, b.paragraphs, b.links);
  }

  // ---- consequences ----

  lemma {:induction false} CollectAll<T>(nodes: seq<Node>, f: Node -> seq<T>, good: T -> bool)
    requires forall n, x :: n in nodes && x in f(n) ==> good(x)
    ensures forall x :: x in Collect(nodes, f) ==> good(x)
  {
    if nodes != [] {
      CollectAll(nodes[..|nodes| - 1], f, good);
    }
  }

  /** Every collected paragraph has 20 to 300 bytes, no heading is empty, and every link starts
      with http. */
  lemma ExtractBounds(doc: Node)
    requires doc.Node?
    ensures forall p :: p in PageOf(doc).paragraphs ==> 20 <= |p| <= 300
    ensures forall h :: h in PageOf(doc).headings ==> h != ""
    ensures forall l :: l in PageOf(doc).links ==> HasPrefix(l, "http")
  {
    hide TextOf, Visited;
    CollectAll(Visited(doc), ParagraphsAt, p => 20 <= |p| <= 300);
    CollectAll(Visited(doc), HeadingsAt, h => h != "");
    forall n, x | n in Visited(doc) && x in LinksAt(n) ensures HasPrefix(x, "http") { LinksAreHttp(n.attrs); }
    CollectAll(Visited(doc), LinksAt, (l: string) => HasPrefix(l, "http"));
  }

  lemma {:induction false} LinksAreHttp(attrs: seq<Attr>)
    ensures forall l :: l in LinksIn(attrs) ==> HasPrefix(l, "http")
  {
    if attrs != [] {
      LinksAreHttp(attrs[..|attrs| - 1]);
    }
  }

  // ---- document order ----

  /** The k-th of the siblings from c on. */
  function Child(c: Node, k: nat): Node {
    if c.NoNode? then NoNode else if k == 0 then c else Child(c.nextSibling, k - 1)
  }

  /** The node at a path of child numbers; NoNode where the tree has none. */
  function At(n: Node, path: seq<nat>): Node
    decreases |path|
  {
    if n.NoNode? || path == [] then n else At(Child(n.firstChild, path[0]), path[1..])
  }

  predicate ScriptOrStyle(n: Node) {
    n.Node? && n.kind == Element && (n.data == "script" || n.data == "style")
  }

  /** No proper ancestor of the node at this path is a script or style element. */
  ghost predicate Shown(n: Node, path: seq<nat>) {
    forall j :: 0 <= j < |path| ==> !ScriptOrStyle(At(n, path[..j]))
  }

  /** Document order: a node before its descendants, an earlier sibling's subtree before a later's. */
  predicate Before(p: seq<nat>, q: seq<nat>) {
    if q == [] then false
    else if p == [] then true
    else p[0] < q[0] || (p[0] == q[0] && Before(p[1..], q[1..]))
  }

  function Under(k: nat, paths: seq<seq<nat>>): seq<seq<nat>> {
    seq(|paths|, i requires 0 <= i < |paths| => [k] + paths[i])
  }

  function Paths(n: Node, pruning: bool): seq<seq<nat>>
    requires n.Node?
    decreases n, 1
  {
    [[]] + if pruning && Pruned(n) then [] else SiblingPaths(n.firstChild, 0, pruning)
  }

  function SiblingPaths(c: Node, k: nat, pruning: bool): seq<seq<nat>>
    decreases c, 2
  {
    if c.NoNode? then [] else Under(k, Paths(c, pruning)) + SiblingPaths(c.nextSibling, k + 1, pruning)
  }

  /** The path i leads from a list of siblings to the i-th node walked. */
  ghost predicate LeadsTo(first: Node, path: seq<nat>, n: Node) {
    path != [] && At(Child(first, path[0]), path[1..]) == n
  }

  lemma NextChild(first: Node, k: nat, c: Node)
    requires Child(first, k) == c && c.Node?
    ensures Child(first, k + 1) == c.nextSibling
    decreases k
  {
    if k > 0 {
      NextChild(first.nextSibling, k - 1, c);
    }
  }

  lemma {:induction false} PathsLead(n: Node, pruning: bool)
    requires n.Node?
    ensures |Paths(n, pruning)| == |Walked(n, pruning)|
    ensures forall i :: 0 <= i < |Paths(n, pruning)| ==> At(n, Paths(n, pruning)[i]) == Walked(n, pruning)[i]
    decreases n, 1
  {
    hide Pruned;
    if !(pruning && Pruned(n)) {
      SiblingPathsLead(n.firstChild, n.firstChild, 0, pruning);
      var paths, nodes := SiblingPaths(n.firstChild, 0, pruning), WalkedSiblings(n.firstChild, pruning);
      forall i | 0 <= i < |Paths(n, pruning)|
        ensures At(n, Paths(n, pruning)[i]) == Walked(n, pruning)[i]
      {
        if i > 0 {
          assert LeadsTo(n.firstChild, paths[i - 1], nodes[i - 1]);
        }
      }
    }
  }

  lemma {:induction false} SiblingPathsLead(first: Node, c: Node, k: nat, pruning: bool)
    requires Child(first, k) == c
    ensures |SiblingPaths(c, k, pruning)| == |WalkedSiblings(c, pruning)|
    ensures forall i :: 0 <= i < |SiblingPaths(c, k, pruning)| ==>
                          LeadsTo(first, SiblingPaths(c, k, pruning)[i], WalkedSiblings(c, pruning)[i])
    decreases c, 2
  {
    hide Paths, Walked, At;
    if c.Node? {
      NextChild(first, k, c);
      PathsLead(c, pruning);
      SiblingPathsLead(first, c.nextSibling, k + 1, pruning);
      var here := Under(k, Paths(c, pruning));
      forall i | 0 <= i < |here|
        ensures LeadsTo(first, here[i], Walked(c, pruning)[i])
      {
        assert here[i][1..] == Paths(c, pruning)[i];
      }
    }
  }

  ghost predicate Increasing(paths: seq<seq<nat>>) {
    forall i, j :: 0 <= i < j < |paths| ==> Before(paths[i], paths[j])
  }

  lemma {:induction false} PathsIncrease(n: Node, pruning: bool)
    requires n.Node?
    ensures Increasing(Paths(n, pruning))
    decreases n, 1
  {
    hide Pruned;
    if !(pruning && Pruned(n)) {
      SiblingPathsIncrease(n.firstChild, 0, pruning);
      var below := SiblingPaths(n.firstChild, 0, pruning);
      forall i, j | 0 <= i < j < |below| + 1
        ensures Before(([[]] + below)[i], ([[]] + below)[j])
      {
        assert below[j - 1] in below;
        if i > 0 {
          assert Before(below[i - 1], below[j - 1]);
        }
      }
    }
  }

  lemma {:induction false} SiblingPathsIncrease(c: Node, k: nat, pruning: bool)
    ensures Increasing(SiblingPaths(c, k, pruning))
    ensures forall p :: p in SiblingPaths(c, k, pruning) ==> p != [] && p[0] >= k
    decreases c, 2
  {
    hide Paths;
    if c.Node? {
      PathsIncrease(c, pruning);
      SiblingPathsIncrease(c.nextSibling, k + 1, pruning);
      var here, rest := Under(k, Paths(c, pruning)), SiblingPaths(c.nextSibling, k + 1, pruning);
      forall i, j | 0 <= i < j < |here + rest|
        ensures Before((here + rest)[i], (here + rest)[j])
      {
        if j < |here| {
          assert here[i][1..] == Paths(c, pruning)[i] && here[j][1..] == Paths(c, pruning)[j];
        } else {
          assert rest[j - |here|] in rest;
          if i >= |here| {
            assert Before(rest[i - |here|], rest[j - |here|]);
          }
        }
      }
    }
  }

  lemma ShownBelow(n: Node, path: seq<nat>)
    requires n.Node? && path != []
    ensures Shown(n, path) <==> !ScriptOrStyle(n) && Shown(Child(n.firstChild, path[0]), path[1..])
  {
    var child := Child(n.firstChild, path[0]);
    assert path[..0] == [];
    forall j | 0 < j <= |path|
      ensures At(n, path[..j]) == At(child, path[1..][..j - 1])
    {
      assert path[..j][1..] == path[1..][..j - 1];
    }
    if Shown(n, path) {
      forall j | 0 <= j < |path[1..]|
        ensures !ScriptOrStyle(At(child, path[1..][..j]))
      {
        assert !ScriptOrStyle(At(n, path[..j + 1]));
      }
    }
  }

  /** What a walk reaches: every path of the tree, or every path not inside script or style. */
  ghost predicate Reached(n: Node, path: seq<nat>, pruning: bool) {
    At(n, path).Node? && (pruning ==> Shown(n, path))
  }

  lemma {:induction false} PathsComplete(n: Node, path: seq<nat>, pruning: bool)
    requires n.Node?
    ensures path in Paths(n, pruning) <==> Reached(n, path, pruning)
    decreases n, 1
  {
    assert Pruned(n) == ScriptOrStyle(n);
    if path == [] {
      assert Paths(n, pruning)[0] == [];
    } else {
      ShownBelow(n, path);
      SiblingPathsIncrease(n.firstChild, 0, pruning);
      if !(pruning && Pruned(n)) {
        SiblingPathsComplete(n.firstChild, n.firstChild, 0, path, pruning);
        assert path in Paths(n, pruning) <==> path in SiblingPaths(n.firstChild, 0, pruning);
      }
    }
  }

  lemma {:induction false} SiblingPathsComplete(first: Node, c: Node, k: nat, path: seq<nat>, pruning: bool)
    requires Child(first, k) == c && path != []
    ensures path in SiblingPaths(c, k, pruning) <==> path[0] >= k && Reached(Child(first, path[0]), path[1..], pruning)
    decreases c, 2
  {
    hide Paths, Reached, At;
    if c.NoNode? {
      if path[0] >= k { NoLaterChild(first, k, path[0]); }
      NothingReached(path[1..], pruning);
    } else {
      NextChild(first, k, c);
      PathsComplete(c, path[1..], pruning);
      SiblingPathsComplete(first, c.nextSibling, k + 1, path, pruning);
      InUnder(k, Paths(c, pruning), path);
    }
  }

  lemma {:induction false} NoLaterChild(first: Node, k: nat, m: nat)
    requires Child(first, k) == NoNode && m >= k
    ensures Child(first, m) == NoNode
    decreases k
  {
    if first.Node? && k > 0 {
      NoLaterChild(first.nextSibling, k - 1, m - 1);
    }
  }

  lemma NothingReached(path: seq<nat>, pruning: bool)
    ensures !Reached(NoNode, path, pruning)
  {
  }

  lemma InUnder(k: nat, paths: seq<seq<nat>>, path: seq<nat>)
    requires path != []
    ensures path in Under(k, paths) <==> path[0] == k && path[1..] in paths
  {
    if path in Under(k, paths) {
      var i :| 0 <= i < |paths| && Under(k, paths)[i] == path;
      assert path[1..] == paths[i];
    }
    if path[0] == k && path[1..] in paths {
      var i :| 0 <= i < |paths| && paths[i] == path[1..];
      assert Under(k, paths)[i] == [k] + path[1..] == path;
    }
  }

  /** The page walk visits, in document order and once each, exactly the nodes no proper ancestor
      of which is a script or style element. */
  lemma VisitedExactly(doc: Node) returns (paths: seq<seq<nat>>)
    requires doc.Node?
    ensures |paths| == |Visited(doc)| && forall i :: 0 <= i < |paths| ==> At(doc, paths[i]) == Visited(doc)[i]
    ensures Increasing(paths)
    ensures forall p :: p in paths <==> At(doc, p).Node? && Shown(doc, p)
  {
    paths := Paths(doc, true);
    PathsLead(doc, true);
    PathsIncrease(doc, true);
    forall p ensures p in paths <==> At(doc, p).Node? && Shown(doc, p) { PathsComplete(doc, p, true); }
  }

  /** The text walk visits every node of its subtree, in document order and once each. */
  lemma TextWalkExactly(n: Node) returns (paths: seq<seq<nat>>)
    requires n.Node?
    ensures |paths| == |AllNodes(n)| && forall i :: 0 <= i < |paths| ==> At(n, paths[i]) == AllNodes(n)[i]
    ensures Increasing(paths)
    ensures forall p :: p in paths <==> At(n, p).Node?
  {
    paths := Paths(n, false);
    PathsLead(n, false);
    PathsIncrease(n, false);
    forall p ensures p in paths <==> At(n, p).Node? { PathsComplete(n, p, false); }
  }

  // ---- what the page says of the document ----

  /** The paths of the nodes that contribute something. */
  function Chosen<T>(nodes: seq<Node>, paths: seq<seq<nat>>, f: Node -> seq<T>): seq<seq<nat>>
    requires |nodes| == |paths|
  {
    if nodes == [] then []
    else
      var last := |nodes| - 1;
      Chosen(nodes[..last], paths[..last], f) + if f(nodes[last]) == [] then [] else [paths[last]]
  }

  lemma {:induction false} ChosenExactly<T>(doc: Node, nodes: seq<Node>, paths: seq<seq<nat>>, f: Node -> seq<T>)
    requires |nodes| == |paths| && Increasing(paths)
    requires forall i :: 0 <= i < |nodes| ==> At(doc, paths[i]) == nodes[i] && |f(nodes[i])| <= 1
    ensures var ps := Chosen(nodes, paths, f);
            && Increasing(ps) && |ps| == |Collect(nodes, f)|
            && (forall i :: 0 <= i < |ps| ==> f(At(doc, ps[i])) == [Collect(nodes, f)[i]])
            && (forall p :: p in ps <==> p in paths && f(At(doc, p)) != [])
    decreases |nodes|
  {
    hide At, Before;
    if nodes != [] {
      var last := |nodes| - 1;
      ChosenExactly(doc, nodes[..last], paths[..last], f);
      assert paths == paths[..last] + [paths[last]];
      var ps := Chosen(nodes[..last], paths[..last], f);
      forall i | 0 <= i < |ps|
        ensures Before(ps[i], paths[last])
      {
        assert ps[i] in ps && ps[i] in paths[..last];
      }
    }
  }

  lemma OnePerNode<T>(doc: Node, f: Node -> seq<T>) returns (ps: seq<seq<nat>>)
    requires doc.Node? && forall n :: |f(n)| <= 1
    ensures Increasing(ps) && |ps| == |Collect(Visited(doc), f)|
    ensures forall i :: 0 <= i < |ps| ==> f(At(doc, ps[i])) == [Collect(Visited(doc), f)[i]]
    ensures forall p :: p in ps <==> At(doc, p).Node? && Shown(doc, p) && f(At(doc, p)) != []
  {
    hide Visited, Shown, Increasing, At, Chosen, Collect;
    var paths := VisitedExactly(doc);
    ChosenExactly(doc, Visited(doc), paths, f);
    ps := Chosen(Visited(doc), paths, f);
  }

  function TextAt(n: Node): seq<string> {
    if n.Node? && n.kind == Text then [n.data] else []
  }

  function Concat(parts: seq<string>): string {
    if parts == [] then "" else Concat(parts[..|parts| - 1]) + parts[|parts| - 1]
  }

  lemma {:induction false} ConcatTexts(nodes: seq<Node>)
    ensures Concat(Collect(nodes, TextAt)) == Collect(nodes, OwnText)
  {
    if nodes != [] {
      var before := Collect(nodes[..|nodes| - 1], TextAt);
      ConcatTexts(nodes[..|nodes| - 1]);
      var n := nodes[|nodes| - 1];
      if n.Node? && n.kind == Text {
        assert (before + [n.data])[..|before + [n.data]| - 1] == before;
      } else {
        assert before + [] == before;
      }
    }
  }

  /** The text of an element is the trimmed concatenation of the text nodes below it, at any depth,
      in document order and once each. */
  lemma TextExactly(n: Node) returns (ps: seq<seq<nat>>, parts: seq<string>)
    requires n.Node?
    ensures Increasing(ps) && forall p :: p in ps <==> At(n, p).Node? && At(n, p).kind == Text
    ensures |ps| == |parts| && forall i :: 0 <= i < |ps| ==> At(n, ps[i]).Node? && parts[i] == At(n, ps[i]).data
    ensures TextOf(n) == TrimSpace(Concat(parts))
  {
    hide AllNodes, At, Increasing, Collect, Concat, TrimSpace, Chosen, OwnText;
    var paths := TextWalkExactly(n);
    ChosenExactly(n, AllNodes(n), paths, TextAt);
    ps := Chosen(AllNodes(n), paths, TextAt);
    parts := Collect(AllNodes(n), TextAt);
    ConcatTexts(AllNodes(n));
    forall i | 0 <= i < |ps|
      ensures At(n, ps[i]).Node? && parts[i] == At(n, ps[i]).data
    {
      assert TextAt(At(n, ps[i])) == [parts[i]];
    }
  }

  predicate IsHeading(n: Node) {
    && n.Node? && n.kind == Element && (n.data == "h1" || n.data == "h2" || n.data == "h3")
    && TextOf(n) != ""
  }

  /** The headings are the texts of the h1, h2 and h3 elements outside script and style that have
      any, in document order and once each. */
  lemma HeadingsExactly(doc: Node) returns (ps: seq<seq<nat>>)
    requires doc.Node?
    ensures Increasing(ps) && forall p :: p in ps <==> Shown(doc, p) && IsHeading(At(doc, p))
    ensures var headings := PageOf(doc).headings;
            |ps| == |headings| && forall i :: 0 <= i < |ps| ==> At(doc, ps[i]).Node? && headings[i] == TextOf(At(doc, ps[i]))
  {
    hide TextOf, Visited, Shown, At, Increasing, Collect;
    ps := OnePerNode(doc, HeadingsAt);
  }

  predicate IsParagraph(n: Node) {
    n.Node? && n.kind == Element && n.data == "p" && |TextOf(n)| >= 20
  }

  /** The paragraphs likewise, from the p elements with at least 20 bytes of text, cut at 300. */
  lemma ParagraphsExactly(doc: Node) returns (ps: seq<seq<nat>>)
    requires doc.Node?
    ensures Increasing(ps) && forall p :: p in ps <==> Shown(doc, p) && IsParagraph(At(doc, p))
    ensures var paragraphs := PageOf(doc).paragraphs;
            |ps| == |paragraphs| && forall i :: 0 <= i < |ps| ==>
              && At(doc, ps[i]).Node?
              && var text := TextOf(At(doc, ps[i]));
                 paragraphs[i] == if |text| > 300 then text[..300] else text
  {
    hide TextOf, Visited, Shown, At, Increasing, Collect;
    ps := OnePerNode(doc, ParagraphsAt);
  }

  predicate IsTitle(n: Node) {
    n.Node? && n.kind == Element && n.data == "title" && n.firstChild.Node? && n.firstChild.kind == Text
  }

  /** The title is the trimmed text of the last title element outside script and style whose first
      child is text; empty without one. */
  lemma TitleExactly(doc: Node) returns (ps: seq<seq<nat>>)
    requires doc.Node?
    ensures Increasing(ps) && forall p :: p in ps <==> Shown(doc, p) && IsTitle(At(doc, p))
    ensures if ps == [] then PageOf(doc).title == ""
            else IsTitle(At(doc, ps[|ps| - 1])) && PageOf(doc).title == TrimSpace(At(doc, ps[|ps| - 1]).firstChild.data)
  {
    hide TrimSpace, Visited, Shown, At, Increasing, Collect;
    ps := OnePerNode(doc, TitlesAt);
    if ps != [] {
      var last := |ps| - 1;
      assert TitlesAt(At(doc, ps[last])) == [Collect(Visited(doc), TitlesAt)[last]];
    }
  }

  // ---- links: several per element ----

  predicate HttpLink(a: Attr) {
    a.key == "href" && "http" <= a.value
  }

  /** The positions of the links among the attributes. */
  function LinkPlaces(attrs: seq<Attr>): seq<nat> {
    if attrs == [] then []
    else LinkPlaces(attrs[..|attrs| - 1]) + if HttpLink(attrs[|attrs| - 1]) then [|attrs| - 1] else []
  }

  lemma {:induction false} LinkPlacesExactly(attrs: seq<Attr>)
    ensures var ks := LinkPlaces(attrs);
            && |ks| == |LinksIn(attrs)|
            && (forall i, j :: 0 <= i < j < |ks| ==> ks[i] < ks[j])
            && (forall i :: 0 <= i < |ks| ==> ks[i] < |attrs| && LinksIn(attrs)[i] == attrs[ks[i]].value)
            && (forall k: nat :: k in ks <==> k < |attrs| && HttpLink(attrs[k]))
  {
    if attrs != [] {
      var last := |attrs| - 1;
      LinkPlacesExactly(attrs[..last]);
      forall i | 0 <= i < |LinkPlaces(attrs[..last])|
        ensures LinkPlaces(attrs[..last])[i] < last
      {
      }
    }
  }

  /** Where a link comes from: a node's path and the position of its attribute. */
  datatype Place = Place(path: seq<nat>, attr: nat)

  predicate PlaceBefore(a: Place, b: Place) {
    Before(a.path, b.path) || (a.path == b.path && a.attr < b.attr)
  }

  ghost predicate InOrder(places: seq<Place>) {
    forall i, j :: 0 <= i < j < |places| ==> PlaceBefore(places[i], places[j])
  }

  function PlacesAt(n: Node, path: seq<nat>): (r: seq<Place>)
    ensures forall i :: 0 <= i < |r| ==> r[i].path == path
  {
    if IsElement(n, "a") then
      var ks := LinkPlaces(n.attrs);
      seq(|ks|, i requires 0 <= i < |ks| => Place(path, ks[i]))
    else []
  }

  predicate IsLinkPlace(doc: Node, place: Place) {
    var n := At(doc, place.path);
    && n.Node? && n.kind == Element && n.data == "a"
    && place.attr < |n.attrs| && n.attrs[place.attr].key == "href" && "http" <= n.attrs[place.attr].value
  }

  /** Where these links of a document stand. */
  ghost predicate StandAt(doc: Node, links: seq<string>, places: seq<Place>) {
    |links| == |places| && forall i :: 0 <= i < |places| ==>
      IsLinkPlace(doc, places[i]) && links[i] == At(doc, places[i].path).attrs[places[i].attr].value
  }

  lemma PlacesOfNode(doc: Node, path: seq<nat>)
    ensures var places := PlacesAt(At(doc, path), path);
            && InOrder(places) && StandAt(doc, LinksAt(At(doc, path)), places)
            && forall place: Place :: place in places <==> place.path == path && IsLinkPlace(doc, place)
  {
    hide At, LinksIn, LinkPlaces, Before;
    var n := At(doc, path);
    if IsElement(n, "a") {
      LinkPlacesExactly(n.attrs);
      var ks := LinkPlaces(n.attrs);
      forall place: Place | place.path == path && IsLinkPlace(doc, place)
        ensures place in PlacesAt(n, path)
      {
        assert HttpLink(n.attrs[place.attr]) && place.attr in ks;
        var i :| 0 <= i < |ks| && ks[i] == place.attr;
        assert PlacesAt(n, path)[i] == place;
      }
    }
  }

  function AllPlaces(nodes: seq<Node>, paths: seq<seq<nat>>): seq<Place>
    requires |nodes| == |paths|
  {
    if nodes == [] then []
    else
      var last := |nodes| - 1;
      AllPlaces(nodes[..last], paths[..last]) + PlacesAt(nodes[last], paths[last])
  }

  lemma {:induction false} AllPlacesExactly(doc: Node, nodes: seq<Node>, paths: seq<seq<nat>>)
    requires |nodes| == |paths| && Increasing(paths)
    requires forall i :: 0 <= i < |nodes| ==> At(doc, paths[i]) == nodes[i]
    ensures var places := AllPlaces(nodes, paths);
            && InOrder(places) && StandAt(doc, Collect(nodes, LinksAt), places)
            && forall place: Place :: place in places <==> place.path in paths && IsLinkPlace(doc, place)
    decreases |nodes|
  {
    hide At, Before, IsLinkPlace, LinksAt, PlacesAt;
    if nodes != [] {
      var last := |nodes| - 1;
      AllPlacesExactly(doc, nodes[..last], paths[..last]);
      PlacesOfNode(doc, paths[last]);
      assert paths == paths[..last] + [paths[last]];
      var places, more := AllPlaces(nodes[..last], paths[..last]), PlacesAt(nodes[last], paths[last]);
      forall i, j | 0 <= i < |places| && 0 <= j < |more|
        ensures PlaceBefore(places[i], more[j])
      {
        assert places[i] in places && places[i].path in paths[..last];
      }
    }
  }

  /** The links are the http values of href attributes of the a elements outside script and style,
      in document order, within an element in the order of its attributes, and once each. */
  lemma LinksExactly(doc: Node) returns (places: seq<Place>)
    requires doc.Node?
    ensures InOrder(places) && StandAt(doc, PageOf(doc).links, places)
    ensures forall place: Place :: place in places <==> Shown(doc, place.path) && IsLinkPlace(doc, place)
  {
    hide Visited, Shown, At, Increasing, Collect, InOrder, StandAt, LinksAt, AllPlaces;
    var paths := VisitedExactly(doc);
    AllPlacesExactly(doc, Visited(doc), paths);
    places := AllPlaces(Visited(doc), paths);
    assert [] + Collect(Visited(doc), LinksAt) == Collect(Visited(doc), LinksAt);
  }

  /** Pruning is all the walk leaves out: it visits every node of a tree that has no script or
      style element. */
  lemma {:induction false} NothingElsePruned(n: Node)
    requires n.Node? && forall m :: m in AllNodes(n) && m.Node? && m.kind == Element ==> m.data != "script" && m.data != "style"
    ensures Visited(n) == AllNodes(n)
    decreases n, 1
  {
    assert n in AllNodes(n);
    assert forall m :: m in AllSiblings(n.firstChild) ==> m in AllNodes(n);
    NoSiblingPruned(n.firstChild);
  }

  lemma {:induction false} NoSiblingPruned(c: Node)
    requires forall m :: m in AllSiblings(c) && m.Node? && m.kind == Element ==> m.data != "script" && m.data != "style"
    ensures VisitedSiblings(c) == AllSiblings(c)
    decreases c, 2
  {
    if c.Node? {
      assert forall m :: m in AllNodes(c) ==> m in AllSiblings(c);
      assert forall m :: m in AllSiblings(c.nextSibling) ==> m in AllSiblings(c);
      NothingElsePruned(c);
      NoSiblingPruned(c.nextSibling);
    }
  }
}
