/** The filtered task list, page by page. */
module Pagination {
  import opened Prelude
  import opened PageCount

  /** The rows a filter keeps, in order. */
  function Matches<T>(rows: seq<T>, keep: T -> bool): seq<T> {
    if rows == [] then []
    else Matches(rows[..|rows| - 1], keep) + if keep(rows[|rows| - 1]) then [rows[|rows| - 1]] else []
  }

  /** What a filter keeps: exactly the rows that pass it, as often as they occur. */
  lemma {:induction false} MatchesExactly<T>(rows: seq<T>, keep: T -> bool, x: T)
    ensures multiset(Matches(rows, keep))[x] == if keep(x) then multiset(rows)[x] else 0
  {
    if rows != [] {
      var last := |rows| - 1;
      assert rows == rows[..last] + [rows[last]];
      MatchesExactly(rows[..last], keep, x);
    }
  }

  /** And in their order: the matches of a prefix come before those of the rest. */
  lemma {:induction false} MatchesInOrder<T>(a: seq<T>, b: seq<T>, keep: T -> bool)
    ensures Matches(a + b, keep) == Matches(a, keep) + Matches(b, keep)
  {
    if b == [] {
      assert a + b == a;
    } else {
      MatchesInOrder(a, b[..|b| - 1], keep);
      assert (a + b)[..|a + b| - 1] == a + b[..|b| - 1];
    }
  }

  function Min(a: int, b: int): int { if a < b then a else b }

  /** LIMIT/OFFSET on a result: at most limit rows after skipping offset. */
  function Window<T>(rows: seq<T>, offset: nat, limit: nat): seq<T> {
    rows[Min(offset, |rows|)..Min(offset + limit, |rows|)]
  }

  /** Conversion to a 32-bit integer keeps the low 32 bits. */
  function Int32(x: int): (r: int)
    ensures -0x8000_0000 <= r < 0x8000_0000
    ensures -0x8000_0000 <= x < 0x8000_0000 ==> r == x
  {
    var low := x % 0x1_0000_0000;
    if low < 0x8000_0000 then low else low - 0x1_0000_0000
  }

  method CountEventsFiltered<T>(rows: seq<T>, keep: T -> bool) returns (count: nat)
    ensures count == |Matches(rows, keep)|
  {
    count := 0;
    for i := 0 to |rows|
      invariant count == |Matches(rows[..i], keep)|
    {
      assert rows[..i + 1][..i] == rows[..i];
      if keep(rows[i]) {
        count := count + 1;
      }
    }
    assert rows[..|rows|] == rows;
  }

  /** The list query over rows in their sort order; a negative offset is an SQL error. */
  method ListEventsFiltered<T>(rows: seq<T>, keep: T -> bool, offset: int, limit: nat) returns (items: Option<seq<T>>)
    ensures items.None? <==> offset < 0
    ensures items.Some? ==> items.value == Window(Matches(rows, keep), offset, limit)
  {
    if offset < 0 { return None; }
    var out: seq<T> := [];
    var seen := 0;
    for i := 0 to |rows|
      invariant seen == |Matches(rows[..i], keep)|
      invariant out == Window(Matches(rows[..i], keep), offset, limit)
    {
      var before := Matches(rows[..i], keep);
      assert rows[..i + 1][..i] == rows[..i];
      if keep(rows[i]) {
        assert Matches(rows[..i + 1], keep) == before + [rows[i]];
        if offset <= seen < offset + limit {
          out := out + [rows[i]];
        }
        seen := seen + 1;
      }
    }
    assert rows[..|rows|] == rows;
    items := Some(out);
  }

  /** One page of the repository's listing with the total; its own defaults for page and size. */
  method ListEvents<T>(rows: seq<T>, keep: T -> bool, page: int, pageSize: int) returns (r: Option<(seq<T>, nat)>)
    ensures var size := if pageSize <= 0 then 20 else pageSize;
            var number := if page <= 0 then 1 else page;
            var offset := Int32((number - 1) * size);
            && (r.None? <==> offset < 0)
            && (r.Some? ==> r.value == (Window(Matches(rows, keep), offset, Max(0, Int32(size))), |Matches(rows, keep)|))
  {
    var size, number := pageSize, page;
    if size <= 0 { size := 20; }
    if number <= 0 { number := 1; }
    var total := CountEventsFiltered(rows, keep);
    var offset := Int32((number - 1) * size);
    var items := ListEventsFiltered(rows, keep, offset, Max(0, Int32(size)));
    r := if items.Some? then Some((items.value, total)) else None;
  }

  function Max(a: int, b: int): (m: nat)
    requires a >= 0
    ensures m >= a && m >= b && (m == a || m == b)
  {
    if a > b then a else b
  }

  /** The handler's clamping of the two query parameters. */
  function ClampedPage(page: int): (r: int)
    ensures r >= 1
  {
    if page < 1 then 1 else page
  }

  function ClampedSize(size: int): (r: int)
    ensures 1 <= r <= 100
  {
    if size < 1 || size > 100 then 20 else size
  }

  datatype Listing<T> = Listing(tasks: seq<T>, total: nat, page: int, pageSize: int, totalPages: int)

  /** GET /tasks: while the offset fits in 32 bits, page k of the matches, with the number of
      matches and, below 2^53 of them, the exact page count. */
  method HandleListTasks<T>(rows: seq<T>, keep: T -> bool, page: int, pageSize: int) returns (r: Option<Listing<T>>)
    ensures r.None? <==> Int32((ClampedPage(page) - 1) * ClampedSize(pageSize)) < 0
    ensures r.Some? ==>
              && r.value.total == |Matches(rows, keep)|
              && r.value.page == ClampedPage(page) && r.value.pageSize == ClampedSize(pageSize)
              && r.value.page == (if page >= 1 then page else 1) && r.value.pageSize == (if 1 <= pageSize <= 100 then pageSize else 20)
              && r.value.totalPages == TotalPages(r.value.total, r.value.pageSize)
    ensures r.Some? ==>
              r.value.tasks == Window(Matches(rows, keep), Int32((ClampedPage(page) - 1) * ClampedSize(pageSize)), ClampedSize(pageSize))
    ensures r.Some? && (ClampedPage(page) - 1) * ClampedSize(pageSize) < 0x8000_0000 ==>
              r.value.tasks == PageOf(Matches(rows, keep), ClampedPage(page), ClampedSize(pageSize))
    ensures r.Some? && r.value.total < 9007199254740992 ==>
              r.value.totalPages == (r.value.total + r.value.pageSize - 1) / r.value.pageSize
  {
    hide TotalPages, PageOf;
    var number := if page < 1 then 1 else page;
    var size := if pageSize < 1 || pageSize > 100 then 20 else pageSize;
    var listed := ListEvents(rows, keep, number, size);
    if listed.None? { return None; }
    var tasks := listed.value.0;
    var total := listed.value.1;
    r := Some(Listing(tasks, total, number, size, TotalPages(total, size)));
    if total < 9007199254740992 {
      PageCountExact(total, size);
    }
    if (number - 1) * size < 0x8000_0000 {
      OffsetExact(number, size);
      PageIsWindow(Matches(rows, keep), number, size);
    }
  }

  // ---- pages partition the list ----

  /** Page k of a list cut into pages of the given size. */
  function PageOf<T>(matches: seq<T>, k: int, size: int): seq<T>
    requires k >= 1 && size >= 1
  {
    Positive(k - 1, size);
    Positive(k, size);
    Ordered(k, size);
    matches[Min((k - 1) * size, |matches|)..Min(k * size, |matches|)]
  }

  lemma Positive(a: int, b: int)
    requires a >= 0 && b >= 1
    ensures a * b >= 0
  {
  }

  lemma Ordered(k: int, size: int)
    requires k >= 1 && size >= 1
    ensures (k - 1) * size + size == k * size
  {
  }

  lemma PageIsWindow<T>(matches: seq<T>, k: int, size: int)
    requires k >= 1 && size >= 1 && (k - 1) * size >= 0
    ensures PageOf(matches, k, size) == Window(matches, (k - 1) * size, size)
  {
    Ordered(k, size);
  }

  function FirstPages<T>(matches: seq<T>, k: nat, size: int): seq<T>
    requires size >= 1
  {
    if k == 0 then [] else FirstPages(matches, k - 1, size) + PageOf(matches, k, size)
  }

  lemma {:induction false} FirstPagesArePrefix<T>(matches: seq<T>, k: nat, size: int)
    requires size >= 1
    ensures k * size >= 0
    ensures FirstPages(matches, k, size) == matches[..Min(k * size, |matches|)]
    decreases k
  {
    if k > 0 {
      FirstPagesArePrefix(matches, k - 1, size);
      Ordered(k, size);
    }
  }

  /** Pages 1 to total_pages list every match exactly once, in order; every page but the last is
      full and the last is not empty. */
  lemma PagesPartition<T>(matches: seq<T>, size: int)
    requires 1 <= size <= 100 && |matches| < 9007199254740992
    ensures TotalPages(|matches|, size) >= 0
    ensures FirstPages(matches, TotalPages(|matches|, size), size) == matches
    ensures forall k :: 1 <= k < TotalPages(|matches|, size) ==> |PageOf(matches, k, size)| == size
    ensures TotalPages(|matches|, size) >= 1 ==> 0 < |PageOf(matches, TotalPages(|matches|, size), size)| <= size
  {
    hide TotalPages, PageOf, FirstPages;
    PageCountExact(|matches|, size);
    var n := TotalPages(|matches|, size);
    LastPage(|matches|, size, n);
    FirstPagesArePrefix(matches, n, size);
    assert Min(n * size, |matches|) == |matches|;
    forall k | 1 <= k < n
      ensures |PageOf(matches, k, size)| == size
    {
      PageLength(matches, k, size);
      EarlierPage(k, n, size);
    }
    if n >= 1 {
      PageLength(matches, n, size);
    }
  }

  lemma PageLength<T>(matches: seq<T>, k: int, size: int)
    requires k >= 1 && size >= 1
    ensures (k - 1) * size >= 0
    ensures |PageOf(matches, k, size)| == Min(k * size, |matches|) - Min((k - 1) * size, |matches|)
    ensures k * size == (k - 1) * size + size
  {
    Positive(k - 1, size);
    Ordered(k, size);
  }

  lemma LastPage(total: nat, size: int, n: int)
    requires size >= 1 && n == (total + size - 1) / size
    ensures n >= 0 && (n - 1) * size < total <= n * size && (total > 0 ==> n >= 1)
  {
    assert total + size - 1 == n * size + (total + size - 1) % size;
    assert (n - 1) * size == n * size - size;
    if total > 0 {
      assert total + size - 1 >= size;
    }
  }

  lemma EarlierPage(k: int, n: int, size: int)
    requires k < n && size >= 1
    ensures k * size <= (n - 1) * size
  {
    assert (n - 1 - k) * size >= 0;
  }

  /** For the pages that exist among fewer than 2^31 matches, no 32-bit offset overflows. */
  lemma NoOffsetOverflow(total: nat, size: int, k: int)
    requires total < 0x8000_0000 && 1 <= size <= 100
    requires 1 <= k <= (total + size - 1) / size
    ensures Int32((k - 1) * size) == (k - 1) * size
  {
    var n := (total + size - 1) / size;
    LastPage(total, size, n);
    Positive(k - 1, size);
    EarlierPage(k - 1, n, size);
  }

  /** The stored offset is the intended one exactly while it stays below 2^31. */
  lemma OffsetExact(k: int, size: int)
    requires k >= 1 && size >= 1
    ensures Int32((k - 1) * size) == (k - 1) * size <==> (k - 1) * size < 0x8000_0000
  {
    Positive(k - 1, size);
  }

  /** When a request that is answered shows the page it asked for, exactly: while the offset fits
      in 32 bits, or when even the wrapped offset lies past the last match. */
  lemma WrappedPageExactly<T>(matches: seq<T>, k: int, size: int)
    requires k >= 1 && 1 <= size <= 100 && Int32((k - 1) * size) >= 0
    requires forall i, j :: 0 <= i < j < |matches| ==> matches[i] != matches[j]
    ensures Window(matches, Int32((k - 1) * size), size) == PageOf(matches, k, size)
       <==> (k - 1) * size < 0x8000_0000 || Int32((k - 1) * size) >= |matches|
  {
    Positive(k - 1, size);
    OffsetExact(k, size);
    PageIsWindow(matches, k, size);
    WindowsDiffer(matches, Int32((k - 1) * size), (k - 1) * size, size);
  }

  lemma WindowsDiffer<T>(matches: seq<T>, low: nat, offset: nat, size: nat)
    requires size >= 1 && low <= offset
    requires forall i, j :: 0 <= i < j < |matches| ==> matches[i] != matches[j]
    ensures Window(matches, low, size) == Window(matches, offset, size) <==> low == offset || low >= |matches|
  {
    if low < offset && low < |matches| {
      assert Window(matches, low, size)[0] == matches[low];
      if offset < |matches| {
        assert Window(matches, offset, size)[0] == matches[offset];
      }
    }
  }

  /** A page number whose offset wraps round to 4: it is answered with rows from the first pages. */
  lemma WrappedPage()
    ensures Int32((42_949_674 - 1) * 100) == 4
  {
  }

  /** Past that bound a request can fail: this page number makes the offset negative. */
  lemma FarPageFails()
    ensures Int32((21_474_838 - 1) * 100) < 0
  {
  }
}
