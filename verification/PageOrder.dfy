/** Pages asked for one query at a time: the list query sorts by creation time only, so every query
    may order rows of equal time differently. When the pages still add up, exactly. */
module PageOrder {
  import opened Pagination
  import opened PageCount

  datatype Stamped = Stamped(id: nat, createdAt: int)

  predicate NewestFirst(rows: seq<Stamped>) {
    forall i, j :: 0 <= i < j < |rows| ==> rows[i].createdAt >= rows[j].createdAt
  }

  /** An order in which a query may return these rows. */
  ghost predicate Allowed(order: seq<Stamped>, rows: seq<Stamped>) {
    NewestFirst(order) && multiset(order) == multiset(rows)
  }

  ghost predicate Distinct(rows: seq<Stamped>) {
    forall i, j :: 0 <= i < j < |rows| ==> rows[i] != rows[j]
  }

  ghost predicate DistinctTimes(rows: seq<Stamped>) {
    forall i, j :: 0 <= i < j < |rows| ==> rows[i].createdAt != rows[j].createdAt
  }

  /** Every page comes from a query of its own. */
  ghost predicate Answers(orders: seq<seq<Stamped>>, rows: seq<Stamped>) {
    forall o :: o in orders ==> Allowed(o, rows)
  }

  /** Page 1 of the first answer, page 2 of the second, and so on. */
  function Collected(orders: seq<seq<Stamped>>, size: int): seq<Stamped>
    requires size >= 1
  {
    if orders == [] then []
    else Collected(orders[..|orders| - 1], size) + PageOf(orders[|orders| - 1], |orders|, size)
  }

  /** Where page k ends in a list of this length. */
  function End(k: nat, size: int, total: nat): (e: nat)
    requires size >= 1
    ensures e <= total
  {
    Positive(k, size);
    Min(k * size, total)
  }

  lemma EndGrows(k: nat, m: nat, size: int, total: nat)
    requires size >= 1 && k <= m
    ensures End(k, size, total) <= End(m, size, total)
    ensures End(0, size, total) == 0
  {
    AtMost(k, m, size);
  }

  lemma PageBetween(a: seq<Stamped>, k: nat, size: int)
    requires size >= 1 && k >= 1
    ensures End(k - 1, size, |a|) <= End(k, size, |a|)
    ensures PageOf(a, k, size) == a[End(k - 1, size, |a|)..End(k, size, |a|)]
  {
    EndGrows(k - 1, k, size, |a|);
  }

  lemma AtMost(k: int, c: int, size: int)
    requires k <= c && size >= 1
    ensures k * size <= c * size
  {
    Positive(c - k, size);
    assert (c - k) * size == c * size - k * size;
  }

  // ---- when the order is determined ----

  lemma {:induction false} OrderUnique(a: seq<Stamped>, b: seq<Stamped>)
    requires NewestFirst(a) && NewestFirst(b) && multiset(a) == multiset(b) && DistinctTimes(a)
    ensures a == b
  {
    hide NewestFirst, DistinctTimes;
    assert |a| == |multiset(a)| && |b| == |multiset(b)|;
    if a != [] {
      SameNewest(a, b);
      WithoutNewest(a);
      WithoutNewest(b);
      OrderUnique(a[1..], b[1..]);
      assert a == [a[0]] + a[1..] && b == [b[0]] + b[1..];
    }
  }

  lemma WithoutNewest(a: seq<Stamped>)
    requires NewestFirst(a) && a != []
    ensures NewestFirst(a[1..]) && (DistinctTimes(a) ==> DistinctTimes(a[1..]))
    ensures multiset(a[1..]) == multiset(a) - multiset{a[0]}
  {
    assert a == [a[0]] + a[1..];
  }

  lemma SameNewest(a: seq<Stamped>, b: seq<Stamped>)
    requires NewestFirst(a) && NewestFirst(b) && multiset(a) == multiset(b) && DistinctTimes(a) && a != [] && b != []
    ensures a[0] == b[0]
  {
    assert a[0] in multiset(b) && b[0] in multiset(a);
    var k :| 0 <= k < |a| && a[k] == b[0];
    var j :| 0 <= j < |b| && b[j] == a[0];
    assert a[0].createdAt >= a[k].createdAt && b[0].createdAt >= b[j].createdAt;
  }

  function Swapped(a: seq<Stamped>, i: nat): seq<Stamped>
    requires i + 1 < |a|
  {
    a[i := a[i + 1]][i + 1 := a[i]]
  }

  lemma SwapAllowed(a: seq<Stamped>, i: nat)
    requires i + 1 < |a| && NewestFirst(a) && a[i].createdAt == a[i + 1].createdAt
    ensures Allowed(Swapped(a, i), a)
  {
  }

  /** In a sorted list, two rows of equal time leave two neighbours of equal time. */
  lemma NeighboursTie(a: seq<Stamped>) returns (i: nat)
    requires NewestFirst(a) && !DistinctTimes(a)
    ensures i + 1 < |a| && a[i].createdAt == a[i + 1].createdAt
  {
    var j, k :| 0 <= j < k < |a| && a[j].createdAt == a[k].createdAt;
    i := j;
    if j + 1 < k {
      assert a[j].createdAt >= a[j + 1].createdAt >= a[k].createdAt;
    }
  }

  /** All orders the query allows coincide if and only if no two rows share a creation time. */
  lemma OrderDetermined(a: seq<Stamped>)
    requires NewestFirst(a) && Distinct(a)
    ensures (forall b :: Allowed(b, a) ==> b == a) <==> DistinctTimes(a)
  {
    if DistinctTimes(a) {
      forall b | Allowed(b, a) ensures b == a { OrderUnique(a, b); }
    } else {
      var i := NeighboursTie(a);
      SwapAllowed(a, i);
      assert Swapped(a, i)[i] != a[i];
    }
  }

  // ---- when a prefix is determined ----

  lemma {:induction false} MatchesPrefix(rows: seq<Stamped>, keep: Stamped -> bool, m: nat)
    requires m <= |rows| && forall i :: 0 <= i < |rows| ==> (keep(rows[i]) <==> i < m)
    ensures Matches(rows, keep) == rows[..m]
  {
    if rows != [] {
      var last := |rows| - 1;
      if m == |rows| {
        MatchesPrefix(rows[..last], keep, last);
        assert rows == rows[..last] + [rows[last]] && rows[..last][..last] == rows[..last];
      } else {
        MatchesPrefix(rows[..last], keep, m);
        assert rows[..last][..m] == rows[..m];
      }
    }
  }

  /** Where the rows of at least a given time end. */
  lemma {:induction false} CutAt(rows: seq<Stamped>, time: int) returns (m: nat)
    requires NewestFirst(rows)
    ensures m <= |rows| && forall i :: 0 <= i < |rows| ==> (rows[i].createdAt >= time <==> i < m)
  {
    if rows == [] || rows[|rows| - 1].createdAt >= time {
      m := |rows|;
    } else {
      m := CutAt(rows[..|rows| - 1], time);
    }
  }

  /** A prefix that does not end inside a run of equal times holds the same rows in every order. */
  lemma PrefixDetermined(a: seq<Stamped>, b: seq<Stamped>, m: nat)
    requires NewestFirst(a) && Allowed(b, a) && m <= |a|
    requires 0 < m < |a| ==> a[m - 1].createdAt != a[m].createdAt
    ensures |b| == |a| && multiset(b[..m]) == multiset(a[..m])
  {
    assert |a| == |multiset(a)| && |b| == |multiset(b)|;
    if m == |a| {
      assert a[..m] == a && b[..m] == b;
    } else if m > 0 {
      var time := a[m - 1].createdAt;
      var keep := (r: Stamped) => r.createdAt >= time;
      var n := CutAt(b, time);
      MatchesPrefix(a, keep, m);
      MatchesPrefix(b, keep, n);
      forall x
        ensures multiset(a[..m])[x] == multiset(b[..n])[x]
      {
        MatchesExactly(a, keep, x);
        MatchesExactly(b, keep, x);
      }
      assert multiset(a[..m]) == multiset(b[..n]);
      assert |a[..m]| == |multiset(a[..m])| && |b[..n]| == |multiset(b[..n])|;
    }
  }

  // ---- when pages add up ----

  /** No two rows of equal time stand on either side of a page boundary. */
  ghost predicate NoTieAcross(a: seq<Stamped>, size: int)
    requires size >= 1
  {
    forall i :: 0 < i < |a| && i % size == 0 ==> a[i - 1].createdAt != a[i].createdAt
  }

  lemma BoundaryDetermined(a: seq<Stamped>, b: seq<Stamped>, k: nat, size: int)
    requires size >= 1 && NewestFirst(a) && Allowed(b, a) && NoTieAcross(a, size)
    ensures |b| == |a|
    ensures multiset(b[..End(k, size, |a|)]) == multiset(a[..End(k, size, |a|)])
  {
    Positive(k, size);
    MultipleOf(k, size);
    PrefixDetermined(a, b, End(k, size, |a|));
  }

  lemma MultipleOf(k: nat, size: int)
    requires size >= 1
    ensures k * size >= 0 && (k * size) % size == 0 && (k * size) / size == k
  {
    Positive(k, size);
    var q, r := (k * size) / size, (k * size) % size;
    assert k * size == q * size + r;
    SameQuotient(k, q, r, size);
  }

  lemma SameQuotient(k: int, q: int, r: int, size: int)
    requires size >= 1 && 0 <= r < size && k * size == q * size + r
    ensures k == q && r == 0
  {
    assert (k - q) * size == r;
    if k - q >= 1 {
      Positive(k - q - 1, size);
    } else if k - q <= -1 {
      Positive(q - k - 1, size);
    }
  }

  lemma {:induction false} FirstPagesHold(orders: seq<seq<Stamped>>, a: seq<Stamped>, size: int)
    requires size >= 1 && NewestFirst(a) && NoTieAcross(a, size) && Answers(orders, a)
    ensures multiset(Collected(orders, size)) == multiset(a[..End(|orders|, size, |a|)])
    decreases |orders|
  {
    hide NoTieAcross, Allowed, End, PageOf;
    var k := |orders|;
    if k == 0 {
      EndGrows(0, 0, size, |a|);
    } else {
      var b := orders[k - 1];
      assert b in orders;
      assert forall o :: o in orders[..k - 1] ==> o in orders;
      FirstPagesHold(orders[..k - 1], a, size);
      BoundaryDetermined(a, b, k - 1, size);
      BoundaryDetermined(a, b, k, size);
      PageBetween(b, k, size);
      var from, to := End(k - 1, size, |a|), End(k, size, |a|);
      assert b[..to] == b[..from] + b[from..to];
    }
  }

  /** The first c pages from order a, the others from order b. */
  function Mixed(a: seq<Stamped>, b: seq<Stamped>, c: nat, n: nat): seq<seq<Stamped>> {
    seq(n, k => if k < c then a else b)
  }

  lemma {:induction false} MixedPages(a: seq<Stamped>, b: seq<Stamped>, c: nat, n: nat, size: int)
    requires size >= 1 && |a| == |b|
    ensures n > c ==> End(c, size, |a|) <= End(n, size, |a|)
    ensures Collected(Mixed(a, b, c, n), size)
         == if n <= c then a[..End(n, size, |a|)]
            else a[..End(c, size, |a|)] + b[End(c, size, |a|)..End(n, size, |a|)]
    decreases n
  {
    hide End, PageOf;
    if n == 0 {
      EndGrows(0, 0, size, |a|);
    } else {
      MixedPages(a, b, c, n - 1, size);
      assert Mixed(a, b, c, n)[..n - 1] == Mixed(a, b, c, n - 1);
      var page := if n <= c then a else b;
      PageBetween(page, n, size);
      if n > c {
        EndGrows(c, n - 1, size, |a|);
      }
    }
  }

  lemma AllPages(a: seq<Stamped>, size: int)
    requires 1 <= size <= 100 && |a| < 9007199254740992
    ensures var n := TotalPages(|a|, size); n >= 0 && End(n, size, |a|) == |a|
  {
    hide TotalPages;
    PageCountExact(|a|, size);
    LastPage(|a|, size, TotalPages(|a|, size));
  }

  /** A tie across the boundary behind page c lets two queries repeat the row before it, as last
      row of page c and again as first row of page c + 1, and return the row after it on no page. */
  lemma TieHidesRow(a: seq<Stamped>, size: int, i: nat) returns (b: seq<Stamped>)
    requires size >= 1 && NewestFirst(a) && Distinct(a)
    requires 0 < i < |a| && i % size == 0 && a[i - 1].createdAt == a[i].createdAt
    ensures Allowed(b, a) && i / size >= 1
    ensures a[i - 1] in PageOf(a, i / size, size) && a[i - 1] in PageOf(b, i / size + 1, size)
    ensures forall k :: 1 <= k <= i / size ==> a[i] !in PageOf(a, k, size)
    ensures forall k :: k > i / size ==> a[i] !in PageOf(b, k, size)
  {
    b := Swapped(a, i - 1);
    SwapAllowed(a, i - 1);
    SwapDistinct(a, i - 1);
    var c := BoundaryPage(i, size);
    OnPage(a, c, size, i - 1);
    OnPage(b, c + 1, size, i);
    forall k | 1 <= k <= c
      ensures a[i] !in PageOf(a, k, size)
    {
      AtMost(k, c, size);
      OnPage(a, k, size, i);
    }
    forall k | k > c
      ensures a[i] !in PageOf(b, k, size)
    {
      AtMost(c, k - 1, size);
      OnPage(b, k, size, i - 1);
    }
  }

  lemma SwapDistinct(a: seq<Stamped>, i: nat)
    requires i + 1 < |a| && Distinct(a)
    ensures Distinct(Swapped(a, i))
  {
  }

  /** The page that ends where index i begins a new one. */
  lemma BoundaryPage(i: nat, size: int) returns (c: nat)
    requires size >= 1 && i > 0 && i % size == 0
    ensures c == i / size && c >= 1
    ensures (c - 1) * size <= i - 1 < c * size && c * size <= i < (c + 1) * size
  {
    var q := i / size;
    assert i == q * size;
    if q <= 0 { Positive(-q, size); }
    c := q;
    Ordered(c, size);
    Ordered(c + 1, size);
  }

  lemma OnPage(a: seq<Stamped>, k: int, size: int, j: nat)
    requires size >= 1 && k >= 1 && j < |a| && Distinct(a)
    ensures a[j] in PageOf(a, k, size) <==> (k - 1) * size <= j < k * size
  {
    Positive(k - 1, size);
    Ordered(k, size);
    var from := Min((k - 1) * size, |a|);
    var page := PageOf(a, k, size);
    if (k - 1) * size <= j < k * size {
      assert page[j - from] == a[j];
    }
  }

  /** Pages 1 to total_pages, each from a query of its own, hold every row exactly once for all
      answers the queries may give if and only if no tie stands across a page boundary. */
  lemma PagesAddUpExactly(a: seq<Stamped>, size: int)
    requires NewestFirst(a) && Distinct(a) && 1 <= size <= 100 && |a| < 9007199254740992
    ensures (forall orders :: |orders| == TotalPages(|a|, size) && Answers(orders, a) ==>
                                multiset(Collected(orders, size)) == multiset(a))
       <==> NoTieAcross(a, size)
  {
    hide TotalPages;
    AllPages(a, size);
    var n := TotalPages(|a|, size);
    if NoTieAcross(a, size) {
      forall orders | |orders| == n && Answers(orders, a)
        ensures multiset(Collected(orders, size)) == multiset(a)
      {
        FirstPagesHold(orders, a, size);
        assert a[..|a|] == a;
      }
    } else {
      var i :| 0 < i < |a| && i % size == 0 && a[i - 1].createdAt == a[i].createdAt;
      var orders := TieLosesRow(a, size, i, n);
      assert a[i] in multiset(a) && a[i] !in multiset(Collected(orders, size));
    }
  }

  lemma TieLosesRow(a: seq<Stamped>, size: int, i: nat, n: nat) returns (orders: seq<seq<Stamped>>)
    requires size >= 1 && NewestFirst(a) && Distinct(a) && End(n, size, |a|) == |a|
    requires 0 < i < |a| && i % size == 0 && a[i - 1].createdAt == a[i].createdAt
    ensures |orders| == n && Answers(orders, a) && a[i] !in Collected(orders, size)
  {
    var b := Swapped(a, i - 1);
    SwapAllowed(a, i - 1);
    var c := BoundaryPage(i, size);
    EndHere(c, size, i, |a|);
    orders := Mixed(a, b, c, n);
    MixedAnswers(a, b, c, n);
    MixedPages(a, b, c, n, size);
    if n <= c { EndGrows(n, c, size, |a|); }
    RestMisses(a, i);
  }

  lemma EndHere(c: nat, size: int, i: nat, total: nat)
    requires size >= 1 && i < total && c == i / size && i % size == 0
    ensures End(c, size, total) == i
  {
    assert i == c * size;
  }

  lemma MixedAnswers(a: seq<Stamped>, b: seq<Stamped>, c: nat, n: nat)
    requires NewestFirst(a) && Allowed(b, a)
    ensures Answers(Mixed(a, b, c, n), a)
  {
    hide NewestFirst;
    forall o | o in Mixed(a, b, c, n) ensures o == a || o == b {}
    assert Allowed(a, a);
  }

  lemma RestMisses(a: seq<Stamped>, i: nat)
    requires 0 < i < |a| && Distinct(a)
    ensures a[i] !in a[..i] + Swapped(a, i - 1)[i..]
  {
  }

  /** They come out in one order, the same for all answers, if and only if no two rows share a
      creation time. */
  lemma PagesInOrderExactly(a: seq<Stamped>, size: int)
    requires NewestFirst(a) && Distinct(a) && 1 <= size <= 100 && |a| < 9007199254740992
    ensures (forall orders :: |orders| == TotalPages(|a|, size) && Answers(orders, a) ==> Collected(orders, size) == a)
       <==> DistinctTimes(a)
  {
    hide TotalPages, NewestFirst, DistinctTimes, Distinct, Collected, Mixed;
    AllPages(a, size);
    var n := TotalPages(|a|, size);
    if DistinctTimes(a) {
      forall orders | |orders| == n && Answers(orders, a)
        ensures Collected(orders, size) == a
      {
        OnlyOrder(orders, a, n);
        OneOrder(a, n, size);
      }
    } else {
      var i := NeighboursTie(a);
      var b := Swapped(a, i);
      SwapAllowed(a, i);
      assert |b| == |a|;
      OneOrder(b, n, size);
      AllFromOne(a, b, n);
      SwapDiffers(a, i);
    }
  }

  lemma OnlyOrder(orders: seq<seq<Stamped>>, a: seq<Stamped>, n: nat)
    requires |orders| == n && Answers(orders, a) && NewestFirst(a) && DistinctTimes(a)
    ensures orders == Mixed(a, a, n, n)
  {
    forall k | 0 <= k < n
      ensures orders[k] == a
    {
      assert orders[k] in orders;
      OrderUnique(a, orders[k]);
    }
  }

  lemma AllFromOne(a: seq<Stamped>, b: seq<Stamped>, n: nat)
    requires Allowed(b, a)
    ensures |Mixed(b, b, n, n)| == n && Answers(Mixed(b, b, n, n), a)
  {
    hide Allowed;
    forall o | o in Mixed(b, b, n, n) ensures o == b {}
  }

  lemma SwapDiffers(a: seq<Stamped>, i: nat)
    requires i + 1 < |a| && Distinct(a)
    ensures Swapped(a, i) != a
  {
    assert Swapped(a, i)[i] == a[i + 1];
  }

  lemma OneOrder(a: seq<Stamped>, n: nat, size: int)
    requires size >= 1 && End(n, size, |a|) == |a|
    ensures Collected(Mixed(a, a, n, n), size) == a
  {
    MixedPages(a, a, n, n, size);
    assert a[..|a|] == a;
  }
}
