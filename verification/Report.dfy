/** The rows of a report and what can be read back from them. */
module Report {
  import opened Prelude

  datatype Page = Page(
    url: string,
    title: string,
    headings: seq<string>,
    paragraphs: seq<string>,
    links: seq<string>,
    scrapedAt: string)

  datatype ReportRow = ReportRow(section: string, content: string)

  function Section(name: string, contents: seq<string>): (rows: seq<ReportRow>)
    ensures |rows| == |contents|
    ensures forall i :: 0 <= i < |rows| ==> rows[i] == ReportRow(name, contents[i])
  {
    seq(|contents|, i requires 0 <= i < |contents| => ReportRow(name, contents[i]))
  }

  /** The rows of a page: a header, three fixed rows, then headings, paragraphs and links. */
  function RowsOf(page: Page): seq<ReportRow> {
    [ReportRow("section", "content"), ReportRow("url", page.url), ReportRow("title", page.title), ReportRow("scraped_at", page.scrapedAt)]
    + Section("heading", page.headings) + Section("paragraph", page.paragraphs) + Section("link", page.links)
  }

  /** The rows, one by one. */
  ghost predicate RowByRow(rows: seq<ReportRow>, page: Page) {
    var h, p, l := |page.headings|, |page.paragraphs|, |page.links|;
    && |rows| == 4 + h + p + l
    && rows[0] == ReportRow("section", "content") && rows[1] == ReportRow("url", page.url)
    && rows[2] == ReportRow("title", page.title) && rows[3] == ReportRow("scraped_at", page.scrapedAt)
    && (forall i :: 0 <= i < h ==> rows[4 + i] == ReportRow("heading", page.headings[i]))
    && (forall i :: 0 <= i < p ==> rows[4 + h + i] == ReportRow("paragraph", page.paragraphs[i]))
    && (forall i :: 0 <= i < l ==> rows[4 + h + p + i] == ReportRow("link", page.links[i]))
  }

  method WriteRows(page: Page) returns (rows: seq<ReportRow>)
    ensures rows == RowsOf(page)
    ensures RowByRow(rows, page)
  {
    rows := [];
    rows := rows + [ReportRow("section", "content")];
    rows := rows + [ReportRow("url", page.url)];
    rows := rows + [ReportRow("title", page.title)];
    rows := rows + [ReportRow("scraped_at", page.scrapedAt)];
    var head := rows;
    for i := 0 to |page.headings|
      invariant rows == head + Section("heading", page.headings[..i])
    {
      SectionAppend("heading", page.headings, i);
      rows := rows + [ReportRow("heading", page.headings[i])];
    }
    assert page.headings[..|page.headings|] == page.headings;
    var upToHeadings := rows;
    for i := 0 to |page.paragraphs|
      invariant rows == upToHeadings + Section("paragraph", page.paragraphs[..i])
    {
      SectionAppend("paragraph", page.paragraphs, i);
      rows := rows + [ReportRow("paragraph", page.paragraphs[i])];
    }
    assert page.paragraphs[..|page.paragraphs|] == page.paragraphs;
    var upToParagraphs := rows;
    for i := 0 to |page.links|
      invariant rows == upToParagraphs + Section("link", page.links[..i])
    {
      SectionAppend("link", page.links, i);
      rows := rows + [ReportRow("link", page.links[i])];
    }
    assert page.links[..|page.links|] == page.links;
  }

  lemma SectionAppend(name: string, contents: seq<string>, i: nat)
    requires i < |contents|
    ensures Section(name, contents[..i + 1]) == Section(name, contents[..i]) + [ReportRow(name, contents[i])]
  {
  }

  // ---- reading a report back ----

  /** The contents of the rows of one section, in order. */
  function ContentsOf(rows: seq<ReportRow>, name: string): seq<string> {
    if rows == [] then []
    else
      var last := rows[|rows| - 1];
      ContentsOf(rows[..|rows| - 1], name) + if last.section == name then [last.content] else []
  }

  /** The page a report describes; None for rows that are not a report. */
  function ReadRows(rows: seq<ReportRow>): Option<Page> {
    if |rows| < 4 then None
    else
      var body := rows[4..];
      Some(Page(rows[1].content, rows[2].content, ContentsOf(body, "heading"), ContentsOf(body, "paragraph"),
                ContentsOf(body, "link"), rows[3].content))
  }

  lemma {:induction false} ContentsConcat(a: seq<ReportRow>, b: seq<ReportRow>, name: string)
    ensures ContentsOf(a + b, name) == ContentsOf(a, name) + ContentsOf(b, name)
  {
    if b == [] {
      assert a + b == a;
    } else {
      ContentsConcat(a, b[..|b| - 1], name);
      assert (a + b)[..|a + b| - 1] == a + b[..|b| - 1];
    }
  }

  lemma {:induction false} ContentsOfSection(section: string, contents: seq<string>, name: string)
    ensures ContentsOf(Section(section, contents), name) == (if section == name then contents else [])
  {
    if contents != [] {
      ContentsOfSection(section, contents[..|contents| - 1], name);
      assert Section(section, contents)[..|contents| - 1] == Section(section, contents[..|contents| - 1]);
      assert contents == contents[..|contents| - 1] + [contents[|contents| - 1]];
    }
  }

  lemma ContentsOfBody(page: Page, name: string)
    ensures ContentsOf(Section("heading", page.headings) + Section("paragraph", page.paragraphs) + Section("link", page.links), name)
         == (if name == "heading" then page.headings else if name == "paragraph" then page.paragraphs
             else if name == "link" then page.links else [])
  {
    hide ContentsOf, Section;
    var h, p, l := Section("heading", page.headings), Section("paragraph", page.paragraphs), Section("link", page.links);
    ContentsConcat(h + p, l, name);
    ContentsConcat(h, p, name);
    ContentsOfSection("heading", page.headings, name);
    ContentsOfSection("paragraph", page.paragraphs, name);
    ContentsOfSection("link", page.links, name);
  }

  /** Report rows lose nothing: whatever strings a page holds, its url, title, time and three
      lists can be read back from its rows. */
  lemma RowsDeterminePage(page: Page)
    ensures ReadRows(RowsOf(page)) == Some(page)
  {
    var body := Section("heading", page.headings) + Section("paragraph", page.paragraphs) + Section("link", page.links);
    assert RowsOf(page)[4..] == body;
    ContentsOfBody(page, "heading");
    ContentsOfBody(page, "paragraph");
    ContentsOfBody(page, "link");
  }
}
