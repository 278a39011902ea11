/**
 * What the two `getMany` procedures share: validation of the
 * `{ page, pageSize, search }` input, the optional case-insensitive name
 * filter, the order `createdAt DESC, id DESC`, the `LIMIT pageSize OFFSET
 * (page - 1) * pageSize` slice and `totalPages = Math.ceil(total / pageSize)`.
 */
module Paging {
  import opened Schema
  import opened Text

  /** The raw procedure input; absent fields take their defaults. */
  datatype ListInput = ListInput(page: Option<int>, pageSize: Option<int>, search: Option<string>)

  /** DEFAULT_PAGE, DEFAULT_PAGE_SIZE, MIN_PAGE_SIZE and MAX_PAGE_SIZE. */
  datatype PageLimits = PageLimits(defaultPage: int, defaultPageSize: int, minPageSize: int, maxPageSize: int)

  /** An input that passed validation. */
  datatype PageRequest = PageRequest(page: int, pageSize: int, search: Option<string>)

  /** What a `getMany` returns: one page of items and the size of the whole result. */
  datatype Listing<T> = Listing(items: seq<T>, total: nat, totalPages: nat)

  /** Stands for the message of a failed input check, which lists the failed rules; only the code is modelled. */
  const INVALID_INPUT := "Invalid input"

  function Min(a: int, b: int): (m: int) { if a <= b then a else b }

  /**
   * The input schema: `page` at least 1 and `pageSize` within
   * [MIN_PAGE_SIZE, MAX_PAGE_SIZE], after the defaults are filled in.
   */
  function ValidateListInput(input: ListInput, limits: PageLimits): (r: Result<PageRequest>)
    ensures r.Ok? <==>
              input.page.GetOr(limits.defaultPage) >= 1 &&
              limits.minPageSize <= input.pageSize.GetOr(limits.defaultPageSize) <= limits.maxPageSize
    ensures r.Err? ==> r.error == BadRequest(INVALID_INPUT)
    ensures r.Ok? ==> r.value.search == input.search &&
                      (input.page.Some? ==> r.value.page == input.page.value) &&
                      (input.page.None? ==> r.value.page == limits.defaultPage) &&
                      (input.pageSize.Some? ==> r.value.pageSize == input.pageSize.value) &&
                      (input.pageSize.None? ==> r.value.pageSize == limits.defaultPageSize)
  {
    var page := input.page.GetOr(limits.defaultPage);
    var pageSize := input.pageSize.GetOr(limits.defaultPageSize);
    if page < 1 || pageSize < limits.minPageSize || pageSize > limits.maxPageSize then
      Err(BadRequest(INVALID_INPUT))
    else
      Ok(PageRequest(page, pageSize, input.search))
  }

  /** The `where` clause on the name: no filter, or a case-insensitive substring match. */
  predicate MatchesSearch(name: string, search: Option<string>)
    ensures search.None? || search == Some("") ==> MatchesSearch(name, search)
    ensures Truthy(search) ==>
              (MatchesSearch(name, search) <==> exists i :: OccursAt(LowerStr(search.value), LowerStr(name), i))
  {
    !Truthy(search) || ContainsIgnoreCase(name, search.value)
  }

  /** Leaving out the filter and filtering on "" select the same rows. */
  lemma {:induction false} EmptySearchMatchesAll(name: string, search: Option<string>)
    requires !Truthy(search)
    ensures MatchesSearch(name, search)
    ensures search.Some? ==> ContainsIgnoreCase(name, search.value)
  {
    if search.Some? {
      ContainsIgnoreCaseEmpty(name);
    }
  }

  /** Row (c1, id1) comes before row (c2, id2) under `createdAt DESC, id DESC`. */
  predicate Before(c1: int, id1: string, c2: int, id2: string)
    ensures Before(c1, id1, c2, id2) ==> c1 >= c2
    ensures c1 != c2 ==> (Before(c1, id1, c2, id2) <==> c1 > c2)
    ensures c1 == c2 ==> (Before(c1, id1, c2, id2) <==> StrLess(id2, id1))
    ensures Before(c1, id1, c2, id2) ==> (c1, id1) != (c2, id2)
  {
    c1 > c2 || (c1 == c2 && StrLess(id2, id1))
  }

  lemma {:induction false} BeforeTransitive(c1: int, id1: string, c2: int, id2: string, c3: int, id3: string)
    requires Before(c1, id1, c2, id2) && Before(c2, id2, c3, id3)
    ensures Before(c1, id1, c3, id3)
  {
    if c1 == c2 && c2 == c3 {
      StrLessTransitive(id3, id2, id1);
    }
  }

  lemma {:induction false} BeforeTotal(c1: int, id1: string, c2: int, id2: string)
    requires id1 != id2
    ensures Before(c1, id1, c2, id2) || Before(c2, id2, c1, id1)
  {
    StrLessTotal(id1, id2);
  }

  lemma {:induction false} BeforeAsymmetric(c1: int, id1: string, c2: int, id2: string)
    requires Before(c1, id1, c2, id2)
    ensures !Before(c2, id2, c1, id1)
  {
    if c1 == c2 {
      StrLessAsymmetric(id2, id1);
    }
  }

  /** Ids ordered strictly by (createdAt DESC, id DESC). */
  ghost predicate SortedIds(ids: seq<string>, createdAt: string -> int) {
    forall i, j :: 0 <= i < j < |ids| ==> Before(createdAt(ids[i]), ids[i], createdAt(ids[j]), ids[j])
  }

  /** A strictly ordered sequence repeats no id. */
  lemma {:induction false} SortedIdsDistinct(ids: seq<string>, createdAt: string -> int)
    requires SortedIds(ids, createdAt)
    ensures forall i, j :: 0 <= i < j < |ids| ==> ids[i] != ids[j]
  {
    forall i, j | 0 <= i < j < |ids| ensures ids[i] != ids[j] {
      if ids[i] == ids[j] {
        StrLessIrreflexive(ids[i]);
      }
    }
  }

  /** Inserts x at its place in an ordered sequence. */
  function InsertId(x: string, s: seq<string>, createdAt: string -> int): (r: seq<string>)
    ensures |r| == |s| + 1
    ensures forall y :: y in r <==> y == x || y in s
    ensures SortedIds(s, createdAt) && x !in s ==> SortedIds(r, createdAt)
    decreases |s|
  {
    if s == [] then [x]
    else if Before(createdAt(x), x, createdAt(s[0]), s[0]) then
      var r := [x] + s;
      assert SortedIds(s, createdAt) ==> SortedIds(r, createdAt) by {
        if SortedIds(s, createdAt) {
          forall j | 0 < j < |r| ensures Before(createdAt(x), x, createdAt(r[j]), r[j]) {
            if j > 1 {
              BeforeTransitive(createdAt(x), x, createdAt(s[0]), s[0], createdAt(r[j]), r[j]);
            }
          }
        }
      }
      r
    else
      var tail := InsertId(x, s[1..], createdAt);
      var r := [s[0]] + tail;
      assert SortedIds(s, createdAt) && x !in s ==> SortedIds(r, createdAt) by {
        if SortedIds(s, createdAt) && x !in s {
          assert SortedIds(s[1..], createdAt);
          BeforeTotal(createdAt(x), x, createdAt(s[0]), s[0]);
          forall j | 0 < j < |r| ensures Before(createdAt(s[0]), s[0], createdAt(r[j]), r[j]) {
            assert r[j] in tail;
            if r[j] != x {
              var k :| 0 <= k < |s[1..]| && s[1..][k] == r[j];
              assert s[k + 1] == r[j];
            }
          }
        }
      }
      r
  }

  /**
   * `ORDER BY createdAt DESC, id DESC` of a set of rows, given by their ids:
   * the ids exactly once each, in that order.
   */
  ghost function SortIds(ids: set<string>, createdAt: string -> int): (r: seq<string>)
    ensures |r| == |ids|
    ensures forall x :: x in r <==> x in ids
    ensures SortedIds(r, createdAt)
    decreases |ids|
  {
    if ids == {} then []
    else
      var x :| x in ids;
      InsertId(x, SortIds(ids - {x}, createdAt), createdAt)
  }

  /** `OFFSET (page - 1) * pageSize`: the rows on the pages before this one. */
  function PageOffset(page: int, pageSize: int): (o: nat)
    requires page >= 1 && pageSize >= 1
    ensures page == 1 <==> o == 0
    ensures page > 1 ==> o >= pageSize
  {
    NonNegativeProduct(page - 1, pageSize);
    assert page > 1 ==> (page - 1) * pageSize >= pageSize by {
      if page > 1 {
        assert (page - 1) * pageSize == (page - 2) * pageSize + pageSize;
        NonNegativeProduct(page - 2, pageSize);
      }
    }
    (page - 1) * pageSize
  }

  /** Each page starts pageSize rows after the one before it. */
  lemma {:induction false} PageOffsetNext(page: int, pageSize: int)
    requires page >= 1 && pageSize >= 1
    ensures PageOffset(page + 1, pageSize) == PageOffset(page, pageSize) + pageSize
  {
    assert page * pageSize == (page - 1) * pageSize + pageSize;
  }

  /** The rows `LIMIT pageSize OFFSET (page - 1) * pageSize` keeps. */
  function PageSlice<T>(rows: seq<T>, page: int, pageSize: int): (r: seq<T>)
    requires page >= 1 && pageSize >= 1
    ensures |r| <= pageSize
    ensures |r| == if PageOffset(page, pageSize) >= |rows| then 0 else Min(pageSize, |rows| - PageOffset(page, pageSize))
    ensures forall i :: 0 <= i < |r| ==> PageOffset(page, pageSize) + i < |rows| && r[i] == rows[PageOffset(page, pageSize) + i]
  {
    var offset := PageOffset(page, pageSize);
    if offset >= |rows| then [] else rows[offset..Min(offset + pageSize, |rows|)]
  }

  /**
   * One page of an ordered query: the matching ids in (createdAt DESC, id
   * DESC) order, from the page's offset on, at most pageSize of them.
   */
  ghost function PageOfIds(ids: set<string>, createdAt: string -> int, page: int, pageSize: int): (r: seq<string>)
    requires page >= 1 && pageSize >= 1
    ensures |r| <= pageSize
    ensures forall i :: 0 <= i < |r| ==> r[i] in ids
    ensures SortedIds(r, createdAt)
    ensures forall i :: 0 <= i < |r| ==>
              PageOffset(page, pageSize) + i < |ids| && r[i] == SortIds(ids, createdAt)[PageOffset(page, pageSize) + i]
    ensures PageOffset(page, pageSize) < |ids| ==> |r| == Min(pageSize, |ids| - PageOffset(page, pageSize))
  {
    var ordered := SortIds(ids, createdAt);
    var r := PageSlice(ordered, page, pageSize);
    SliceOfSorted(ordered, createdAt, page, pageSize);
    forall i | 0 <= i < |r| ensures r[i] in ids {
      assert r[i] == ordered[PageOffset(page, pageSize) + i];
    }
    r
  }

  /** A page of an ordered sequence is ordered. */
  lemma {:induction false} SliceOfSorted(rows: seq<string>, createdAt: string -> int, page: int, pageSize: int)
    requires page >= 1 && pageSize >= 1
    requires SortedIds(rows, createdAt)
    ensures SortedIds(PageSlice(rows, page, pageSize), createdAt)
  {
    var r := PageSlice(rows, page, pageSize);
    var offset := PageOffset(page, pageSize);
    forall i, j | 0 <= i < j < |r| ensures Before(createdAt(r[i]), r[i], createdAt(r[j]), r[j]) {
      assert r[i] == rows[offset + i] && r[j] == rows[offset + j];
    }
  }

  lemma NonNegativeProduct(a: int, b: int)
    requires a >= 0 && b >= 0
    ensures a * b >= 0
  {
  }

  /** `Math.ceil(total / pageSize)`: the fewest pages of pageSize that hold total rows. */
  function TotalPages(total: nat, pageSize: int): (n: nat)
    requires pageSize >= 1
    ensures total <= n * pageSize
    ensures n > 0 ==> (n - 1) * pageSize < total
  {
    var n := (total + pageSize - 1) / pageSize;
    var rem := (total + pageSize - 1) % pageSize;
    assert total + pageSize - 1 == n * pageSize + rem && 0 <= rem < pageSize;
    assert (n - 1) * pageSize == n * pageSize - pageSize;
    n
  }

  lemma {:induction false} NoRowsNoPages(pageSize: int)
    requires pageSize >= 1
    ensures TotalPages(0, pageSize) == 0
  {
    var n := TotalPages(0, pageSize);
    NonNegativeProduct(n, pageSize);
  }

  /** Pages 1 to n, one after the other. */
  function PagesUpTo<T>(rows: seq<T>, pageSize: int, n: nat): (pages: seq<T>)
    requires pageSize >= 1
  {
    if n == 0 then [] else PagesUpTo(rows, pageSize, n - 1) + PageSlice(rows, n, pageSize)
  }

  lemma {:induction false} PagesUpToIsPrefix<T>(rows: seq<T>, pageSize: int, n: nat)
    requires pageSize >= 1
    ensures n * pageSize >= 0
    ensures PagesUpTo(rows, pageSize, n) == rows[..Min(n * pageSize, |rows|)]
  {
    NonNegativeProduct(n, pageSize);
    if n > 0 {
      PagesUpToIsPrefix(rows, pageSize, n - 1);
      var before := (n - 1) * pageSize;
      assert PageOffset(n, pageSize) == before;
      assert n * pageSize == before + pageSize;
      var prefix := rows[..Min(before, |rows|)];
      var page := PageSlice(rows, n, pageSize);
      assert PagesUpTo(rows, pageSize, n) == prefix + page;
      if before >= |rows| {
        assert page == [];
        assert Min(n * pageSize, |rows|) == |rows|;
      } else {
        var end := Min(n * pageSize, |rows|);
        assert |page| == end - before;
        assert page == rows[before..end];
        assert rows[..before] + rows[before..end] == rows[..end];
      }
    }
  }

  /** Reading every page from 1 to totalPages returns every row once, in order. */
  lemma {:induction false} PagesCoverRows<T>(rows: seq<T>, pageSize: int)
    requires pageSize >= 1
    ensures PagesUpTo(rows, pageSize, TotalPages(|rows|, pageSize)) == rows
  {
    var n := TotalPages(|rows|, pageSize);
    PagesUpToIsPrefix(rows, pageSize, n);
  }

  /** A page after the last one is empty. */
  lemma {:induction false} PagePastLastIsEmpty<T>(rows: seq<T>, pageSize: int, page: int)
    requires pageSize >= 1 && page > TotalPages(|rows|, pageSize)
    ensures PageSlice(rows, page, pageSize) == []
  {
    var n := TotalPages(|rows|, pageSize);
    assert (page - 1) * pageSize >= n * pageSize by {
      assert (page - 1) * pageSize - n * pageSize == (page - 1 - n) * pageSize;
      NonNegativeProduct(page - 1 - n, pageSize);
    }
  }
}
