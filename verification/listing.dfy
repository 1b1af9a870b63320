/**
 * Pieces shared by the three paginated list pages (budgets, transactions,
 * users): the sliding five-button page window, the navigation buttons, the
 * "Showing x to y of n entries" range, the column-sort toggle and the query
 * parameters, kept as an ordered list of key/value pairs.
 */
module Listing {
  import opened Wrappers
  import opened Js

  function Min(a: int, b: int): int {
    if a <= b then a else b
  }

  // ----------------------------------------------------------------------
  // The page-button window

  /** Number of page buttons: `Math.min(5, totalPages)`. */
  function WindowSize(totalPages: int): int {
    Min(5, totalPages)
  }

  /** The page number written on the button at position `idx`. */
  function PageNumberAt(page: int, totalPages: int, idx: int): int {
    if totalPages <= 5 then idx + 1
    else if page <= 3 then idx + 1
    else if page >= totalPages - 2 then totalPages - 4 + idx
    else page - 2 + idx
  }

  /** The first page shown by the window. */
  function WindowStart(page: int, totalPages: int): int {
    PageNumberAt(page, totalPages, 0)
  }

  /**
   * Builds the page buttons the way the `.map` over
   * `[...Array(Math.min(5, totalPages))]` does: one number per index.
   * The array constructor throws on a negative length, hence the requires.
   */
  method PageWindow(page: int, totalPages: int) returns (w: seq<int>)
    requires totalPages >= 0
    ensures |w| == WindowSize(totalPages)
    ensures forall idx :: 0 <= idx < |w| ==> w[idx] == WindowStart(page, totalPages) + idx
    ensures 1 <= page <= totalPages ==>
      && (forall idx :: 0 <= idx < |w| ==> 1 <= w[idx] <= totalPages)
      && page in w
    ensures totalPages <= 5 ==> forall idx :: 0 <= idx < |w| ==> w[idx] == idx + 1
  {
    var size := Min(5, totalPages);
    w := [];
    var idx := 0;
    while idx < size
      invariant 0 <= idx <= size
      invariant |w| == idx
      invariant forall k :: 0 <= k < idx ==> w[k] == PageNumberAt(page, totalPages, k)
    {
      var pageNum;
      if totalPages <= 5 {
        pageNum := idx + 1;
      } else if page <= 3 {
        pageNum := idx + 1;
      } else if page >= totalPages - 2 {
        pageNum := totalPages - 4 + idx;
      } else {
        pageNum := page - 2 + idx;
      }
      w := w + [pageNum];
      idx := idx + 1;
    }
    if 1 <= page <= totalPages {
      var start := WindowStart(page, totalPages);
      assert start <= page < start + size;
      assert w[page - start] == page;
    }
  }

  // ----------------------------------------------------------------------
  // Navigation

  /** The pagination controls under each table. */
  datatype NavButton = FirstPage | PreviousPage | NextPage | LastPage | PageButton(n: int)

  /**
   * The page a click asks for: `setPage(1)`, `setPage(page - 1)`,
   * `setPage(page + 1)`, `setPage(totalPages)` or `setPage(pageNum)`.
   */
  function Target(page: int, totalPages: int, b: NavButton): int {
    match b
    case FirstPage => 1
    case PreviousPage => page - 1
    case NextPage => page + 1
    case LastPage => totalPages
    case PageButton(n) => n
  }

  /** First and Previous are disabled on page 1, Next and Last on the last page; the numbered buttons never are. */
  predicate Disabled(page: int, totalPages: int, b: NavButton) {
    ((b.FirstPage? || b.PreviousPage?) && page == 1) || ((b.NextPage? || b.LastPage?) && page == totalPages)
  }

  /** The page a click leads to where the Button honours `disabled`, or None when the button is disabled. */
  function Navigate(page: int, totalPages: int, b: NavButton): Option<int> {
    if Disabled(page, totalPages, b) then None else Some(Target(page, totalPages, b))
  }

  /**
   * Navigating with an enabled arrow button, or with a button of the
   * window, never leaves 1..totalPages.
   */
  lemma NavigateStaysInRange(page: int, totalPages: int, b: NavButton)
    requires 1 <= page <= totalPages
    requires b.PageButton? ==> exists idx :: 0 <= idx < WindowSize(totalPages)
                                  && b.n == PageNumberAt(page, totalPages, idx)
    ensures Navigate(page, totalPages, b).Some? ==>
      1 <= Navigate(page, totalPages, b).value <= totalPages
    ensures b.NextPage? ==> (Navigate(page, totalPages, b).Some? <==> page < totalPages)
    ensures b.PreviousPage? ==> (Navigate(page, totalPages, b).Some? <==> page > 1)
  {
  }

  /**
   * Where the arrows are never disabled, every click lands on its target:
   * Previous leads from page 1 to page 0 and Next from the last page to
   * the one after it, and those are the only clicks, from a page of
   * 1..totalPages with a button of the window, that leave 1..totalPages.
   */
  lemma LiveArrowsLeaveRange(page: int, totalPages: int, b: NavButton)
    requires 1 <= page <= totalPages
    requires b.PageButton? ==> exists idx :: 0 <= idx < WindowSize(totalPages)
                                  && b.n == PageNumberAt(page, totalPages, idx)
    ensures b.PreviousPage? && page == 1 ==> Target(page, totalPages, b) == 0
    ensures b.NextPage? && page == totalPages ==> Target(page, totalPages, b) == totalPages + 1
    ensures 1 <= Target(page, totalPages, b) <= totalPages <==>
              !(b.PreviousPage? && page == 1) && !(b.NextPage? && page == totalPages)
  {
  }

  // ----------------------------------------------------------------------
  // "Showing x to y of n entries"

  /** The number of the first entry on `page`: `((page - 1) * pageSize) + 1`. */
  function ShowingFirst(page: int, pageSize: int): int {
    (page - 1) * pageSize + 1
  }

  /** The number of the last entry on `page`: `Math.min(page * pageSize, totalItems)`. */
  function ShowingLast(page: int, pageSize: int, totalItems: int): int {
    Min(page * pageSize, totalItems)
  }

  /**
   * On a page that holds at least one entry, the shown range lies inside
   * 1..totalItems, covers at most one page of entries, and covers a full
   * page exactly when the page is not the last one.
   */
  lemma {:induction false} ShowingRangeBounds(page: int, pageSize: int, totalItems: int)
    requires page >= 1 && pageSize >= 1
    requires (page - 1) * pageSize < totalItems
    ensures var first, last := ShowingFirst(page, pageSize), ShowingLast(page, pageSize, totalItems);
      && 1 <= first <= last <= totalItems
      && last - first + 1 <= pageSize
      && (last - first + 1 == pageSize <==> page * pageSize <= totalItems)
  {
    var before := (page - 1) * pageSize;
    assert page * pageSize == before + pageSize by {
      assert page * pageSize == (page - 1) * pageSize + pageSize;
    }
    assert before >= 0 by {
      assert page - 1 >= 0;
    }
  }

  // ----------------------------------------------------------------------
  // Sorting

  datatype SortDir = Asc | Desc

  /** The `sort_dir` value sent to the server. */
  function SortDirName(d: SortDir): string {
    match d
    case Asc => "asc"
    case Desc => "desc"
  }

  /** Sort state of a list page: the column (`''` when unsorted) and the direction. */
  datatype Sort = Sort(sortBy: string, sortDir: SortDir)

  /** Sort state of a fresh page, and after clearing the filters. */
  const UNSORTED := Sort("", Asc)

  /**
   * `handleSort(field)`: clicking the current column flips the direction,
   * clicking another column selects it ascending.
   */
  function NextSort(s: Sort, field: string): (r: Sort)
    ensures r.sortBy == field
    ensures s.sortBy == field ==> r.sortDir != s.sortDir
    ensures s.sortBy != field ==> r.sortDir == Asc
  {
    if s.sortBy == field then
      Sort(field, if s.sortDir == Asc then Desc else Asc)
    else
      Sort(field, Asc)
  }

  /**
   * Two clicks on the current column restore the original sort; two clicks
   * on a new column leave it sorted descending.
   */
  lemma SortTwice(s: Sort, field: string)
    ensures s.sortBy == field ==> NextSort(NextSort(s, field), field) == s
    ensures s.sortBy != field ==> NextSort(NextSort(s, field), field) == Sort(field, Desc)
  {
  }

  // ----------------------------------------------------------------------
  // Query parameters

  /** One `URLSearchParams` entry. */
  type Param = (string, string)
  type Query = seq<Param>

  /**
   * The entries kept by a run of `if (value) params.append(key, value)`:
   * each candidate, in order, whose value is a non-empty string.
   */
  function Present(candidates: Query): Query {
    if candidates == [] then []
    else if candidates[0].1 != "" then [candidates[0]] + Present(candidates[1..])
    else Present(candidates[1..])
  }

  /** An entry is kept exactly when it is a candidate with a non-empty value. */
  lemma {:induction false} PresentMembers(candidates: Query)
    ensures forall p :: p in Present(candidates) <==> p in candidates && p.1 != ""
  {
    if candidates != [] {
      PresentMembers(candidates[1..]);
      assert forall p :: p in candidates <==> p == candidates[0] || p in candidates[1..];
    }
  }

  /** The sort entries: `sort_by` then `sort_dir`, present only when a column is selected. */
  function SortParams(s: Sort): Query {
    if s.sortBy != "" then [("sort_by", s.sortBy), ("sort_dir", SortDirName(s.sortDir))] else []
  }

  /** Whether `xs` is `ys` with some entries removed, order kept. */
  predicate IsSubsequence(xs: Query, ys: Query)
    decreases |ys|
  {
    if ys == [] then xs == []
    else
      || (xs != [] && xs[0] == ys[0] && IsSubsequence(xs[1..], ys[1..]))
      || IsSubsequence(xs, ys[1..])
  }

  /** The optional entries keep the order in which they are appended. */
  lemma {:induction false} PresentKeepsOrder(candidates: Query)
    ensures IsSubsequence(Present(candidates), candidates)
  {
    if candidates != [] {
      PresentKeepsOrder(candidates[1..]);
      var rest := Present(candidates[1..]);
      if candidates[0].1 != "" {
        assert ([candidates[0]] + rest)[1..] == rest;
      }
    }
  }

  /** The value `URLSearchParams.get(key)` returns: the first entry with that key. */
  function Lookup(q: Query, key: string): (r: Option<string>)
    ensures r.Some? <==> exists i :: 0 <= i < |q| && q[i].0 == key
    ensures r.Some? ==> (key, r.value) in q
  {
    if q == [] then None
    else if q[0].0 == key then Some(q[0].1)
    else
      var r := Lookup(q[1..], key);
      assert forall i :: 0 < i < |q| ==> q[i] == q[1..][i - 1];
      assert r.Some? ==> exists i :: 0 <= i < |q| && q[i].0 == key by {
        if r.Some? {
          var j :| 0 <= j < |q[1..]| && q[1..][j].0 == key;
          assert q[j + 1].0 == key;
        }
      }
      r
  }

  /** Looking a key up in a concatenation consults the first part first. */
  lemma {:induction false} LookupAppend(a: Query, b: Query, key: string)
    ensures Lookup(a + b, key) == if Lookup(a, key).Some? then Lookup(a, key) else Lookup(b, key)
  {
    if a != [] {
      assert (a + b)[0] == a[0];
      assert (a + b)[1..] == a[1..] + b;
      LookupAppend(a[1..], b, key);
    } else {
      assert a + b == b;
    }
  }

  /**
   * In a run of optional entries with distinct keys, the entry for the key at
   * position `i` is sent exactly when its value is non-empty.
   */
  lemma {:induction false} LookupPresent(candidates: Query, i: int)
    requires 0 <= i < |candidates|
    requires forall j, k :: 0 <= j < k < |candidates| ==> candidates[j].0 != candidates[k].0
    ensures Lookup(Present(candidates), candidates[i].0)
      == if candidates[i].1 != "" then Some(candidates[i].1) else None
  {
    var key := candidates[i].0;
    var rest := Present(candidates[1..]);
    PresentMembers(candidates[1..]);
    if i == 0 {
      assert Lookup(rest, key) == None by {
        assert forall p :: p in rest ==> p in candidates[1..];
      }
    } else {
      LookupPresent(candidates[1..], i - 1);
      assert candidates[1..][i - 1] == candidates[i];
    }
  }

  /** A key no candidate carries is never sent. */
  lemma LookupAbsent(candidates: Query, key: string)
    requires forall j :: 0 <= j < |candidates| ==> candidates[j].0 != key
    ensures Lookup(Present(candidates), key) == None
  {
    PresentMembers(candidates);
  }

  /** Keeping the non-empty entries of a concatenation keeps those of each part. */
  lemma {:induction false} PresentAppend(a: Query, b: Query)
    ensures Present(a + b) == Present(a) + Present(b)
  {
    if a == [] {
      assert a + b == b;
    } else {
      assert (a + b)[0] == a[0];
      assert (a + b)[1..] == a[1..] + b;
      PresentAppend(a[1..], b);
    }
  }

  /** Five appends in a row keep what `Present` keeps of the five candidates. */
  lemma PresentOfFive(a: Param, b: Param, c: Param, d: Param, e: Param)
    ensures [] + Present([a]) + Present([b]) + Present([c]) + Present([d]) + Present([e])
      == Present([a, b, c, d, e])
  {
    var s1 := [a];
    var s2 := s1 + [b];
    var s3 := s2 + [c];
    var s4 := s3 + [d];
    var s5 := s4 + [e];
    PresentAppend(s1, [b]);
    PresentAppend(s2, [c]);
    PresentAppend(s3, [d]);
    PresentAppend(s4, [e]);
    assert [] + Present(s1) == Present(s1);
    assert s5 == [a, b, c, d, e];
  }

  /** Whether no entry of `q` has the key. */
  predicate KeyAbsent(q: Query, key: string) {
    forall j :: 0 <= j < |q| ==> q[j].0 != key
  }

  /** Whether the keys of `q` are pairwise different. */
  predicate DistinctKeys(q: Query) {
    forall j, k :: 0 <= j < k < |q| ==> q[j].0 != q[k].0
  }

  /**
   * In a list query (fixed entries, then the non-empty filters, then a
   * tail), a filter whose key appears nowhere else is sent, with its value,
   * exactly when the value is non-empty.
   */
  lemma FilterLookup(fixed: Query, filters: Query, tail: Query, i: int)
    requires 0 <= i < |filters| && DistinctKeys(filters)
    requires KeyAbsent(fixed, filters[i].0) && KeyAbsent(tail, filters[i].0)
    ensures Lookup(fixed + Present(filters) + tail, filters[i].0)
      == if filters[i].1 != "" then Some(filters[i].1) else None
  {
    var key := filters[i].0;
    assert fixed + Present(filters) + tail == fixed + (Present(filters) + tail);
    LookupAppend(fixed, Present(filters) + tail, key);
    LookupAppend(Present(filters), tail, key);
    LookupPresent(filters, i);
  }

  /** `FilterLookup` for every filter at once. */
  lemma AllFilterLookups(fixed: Query, filters: Query, tail: Query)
    requires DistinctKeys(filters)
    requires forall i :: 0 <= i < |filters| ==> KeyAbsent(fixed, filters[i].0) && KeyAbsent(tail, filters[i].0)
    ensures forall i :: 0 <= i < |filters| ==>
      Lookup(fixed + Present(filters) + tail, filters[i].0) == if filters[i].1 != "" then Some(filters[i].1) else None
  {
    forall i | 0 <= i < |filters|
      ensures Lookup(fixed + Present(filters) + tail, filters[i].0)
        == if filters[i].1 != "" then Some(filters[i].1) else None
    {
      FilterLookup(fixed, filters, tail, i);
    }
  }

  /** A key carried by neither the fixed entries nor the filters is looked up in the tail. */
  lemma TailLookup(fixed: Query, filters: Query, tail: Query, key: string)
    requires KeyAbsent(fixed, key) && KeyAbsent(filters, key)
    ensures Lookup(fixed + Present(filters) + tail, key) == Lookup(tail, key)
  {
    assert fixed + Present(filters) + tail == fixed + (Present(filters) + tail);
    LookupAppend(fixed, Present(filters) + tail, key);
    LookupAppend(Present(filters), tail, key);
    LookupAbsent(filters, key);
  }

  /** `if (value) params.append(key, value)` */
  method AppendIfPresent(params: Query, key: string, value: string) returns (r: Query)
    ensures r == params + Present([(key, value)])
  {
    r := params;
    if value != "" {
      r := r + [(key, value)];
    }
  }

  /** The sort entries come as a pair: `sort_dir` is sent exactly when `sort_by` is. */
  lemma SortParamsPaired(s: Sort)
    ensures Lookup(SortParams(s), "sort_by").Some? <==> s.sortBy != ""
    ensures Lookup(SortParams(s), "sort_dir").Some? <==> s.sortBy != ""
    ensures s.sortBy != "" ==> Lookup(SortParams(s), "sort_by") == Some(s.sortBy)
    ensures s.sortBy != "" ==> Lookup(SortParams(s), "sort_dir") == Some(SortDirName(s.sortDir))
  {
  }

  // ----------------------------------------------------------------------
  // Totals read from a list response

  /**
   * `total_pages || 1` and `total_items || 0`: a missing or zero count falls
   * back to the default.
   */
  function CountOr(v: Option<int>, d: int): (r: int)
    ensures v.Some? && v.value != 0 ==> r == v.value
    ensures v.None? || v.value == 0 ==> r == d
  {
    if v.Some? && v.value != 0 then v.value else d
  }
}
