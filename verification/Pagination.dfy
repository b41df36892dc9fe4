/** Keyset pagination over rows that may come and go between pages. Ids are compared only, so they are numbers here. */
module Pagination {
  import opened Ordering

  type Id = int

  datatype Page = Page(items: seq<Id>, nextCursor: Option<Id>)

  predicate Increasing(s: seq<Id>) {
    forall i, j :: 0 <= i < j < |s| ==> s[i] < s[j]
  }

  predicate Distinct(s: seq<Id>) {
    forall i, j :: 0 <= i < j < |s| ==> s[i] != s[j]
  }

  function Insert(id: Id, sorted: seq<Id>): seq<Id> {
    if sorted == [] || id <= sorted[0] then [id] + sorted else [sorted[0]] + Insert(id, sorted[1..])
  }

  function Sort(rows: seq<Id>): seq<Id> {
    if rows == [] then [] else Insert(rows[0], Sort(rows[1..]))
  }

  /** Index of the first id above the cursor, `|sorted|` when there is none. */
  function StartOf(sorted: seq<Id>, cursor: Option<Id>): (i: nat)
    ensures i <= |sorted| && (i < |sorted| && cursor.Some? ==> sorted[i] > cursor.value)
    ensures forall k :: 0 <= k < i ==> cursor.Some? && sorted[k] <= cursor.value
  {
    if cursor.None? || sorted == [] || sorted[0] > cursor.value then 0 else 1 + StartOf(sorted[1..], cursor)
  }

  function PageOf(sorted: seq<Id>, cursor: Option<Id>, limit: nat): Page
    requires limit >= 1
  {
    var start := StartOf(sorted, cursor);
    if start + limit < |sorted| then Page(sorted[start..start + limit], Some(sorted[start + limit - 1]))
    else Page(sorted[start..], None)
  }

  /** `paginate`. */
  function Paginate(rows: seq<Id>, cursor: Option<Id>, limit: nat): Page
    requires limit >= 1
  {
    PageOf(Sort(rows), cursor, limit)
  }

  lemma {:induction false} InsertKeeps(id: Id, sorted: seq<Id>)
    requires Increasing(sorted) && id !in sorted
    ensures Increasing(Insert(id, sorted)) && forall x :: x in Insert(id, sorted) <==> x == id || x in sorted
  {
    if sorted != [] && id > sorted[0] {
      InsertKeeps(id, sorted[1..]);
      var r := Insert(id, sorted[1..]);
      forall j | 0 <= j < |r| ensures sorted[0] < r[j] { assert r[j] in r; }
      assert sorted == [sorted[0]] + sorted[1..];
    }
  }

  lemma {:induction false} SortSorts(rows: seq<Id>)
    requires Distinct(rows)
    ensures Increasing(Sort(rows)) && forall x :: x in Sort(rows) <==> x in rows
  {
    if rows != [] {
      SortSorts(rows[1..]);
      assert rows == [rows[0]] + rows[1..];
      forall i | 0 <= i < |rows[1..]| ensures rows[1..][i] != rows[0] { assert rows[1..][i] == rows[i + 1]; }
      InsertKeeps(rows[0], Sort(rows[1..]));
    }
  }

  predicate Beyond(id: Id, cursor: Option<Id>) {
    cursor.None? || id > cursor.value
  }

  lemma {:induction false} PageItems(sorted: seq<Id>, cursor: Option<Id>, limit: nat)
    requires limit >= 1
    ensures var page, start := PageOf(sorted, cursor, limit), StartOf(sorted, cursor);
            if page.nextCursor.None? then page.items == sorted[start..]
            else start + limit < |sorted| && page.items == sorted[start..start + limit]
                 && page.nextCursor == Some(sorted[start + limit - 1])
  {
  }

  lemma {:induction false} PageBounds(sorted: seq<Id>, cursor: Option<Id>, limit: nat, i: nat)
    requires limit >= 1 && Increasing(sorted) && i < |sorted|
    ensures var page, start := PageOf(sorted, cursor, limit), StartOf(sorted, cursor);
            && (Beyond(sorted[i], cursor) <==> start <= i)
            && (start <= i ==> ((page.nextCursor.None? || sorted[i] <= page.nextCursor.value) <==> i < start + |page.items|))
  {
    var page, start := PageOf(sorted, cursor, limit), StartOf(sorted, cursor);
    if start <= i && cursor.Some? { assert sorted[start] > cursor.value; }
  }

  lemma PageIndex(sorted: seq<Id>, cursor: Option<Id>, limit: nat, i: nat)
    requires limit >= 1 && Increasing(sorted) && i < |sorted|
    requires var page := PageOf(sorted, cursor, limit);
             Beyond(sorted[i], cursor) && (page.nextCursor.None? || sorted[i] <= page.nextCursor.value)
    ensures sorted[i] in PageOf(sorted, cursor, limit).items
  {
    var page, start := PageOf(sorted, cursor, limit), StartOf(sorted, cursor);
    PageBounds(sorted, cursor, limit, i);
    assert page.items[i - start] == sorted[i];
  }

  lemma {:induction false} IndexOnPage(sorted: seq<Id>, cursor: Option<Id>, limit: nat, i: nat)
    requires limit >= 1 && Increasing(sorted) && i < |PageOf(sorted, cursor, limit).items|
    ensures var page, j := PageOf(sorted, cursor, limit), StartOf(sorted, cursor) + i;
            && j < |sorted| && page.items[i] == sorted[j]
            && Beyond(sorted[j], cursor) && (page.nextCursor.None? || sorted[j] <= page.nextCursor.value)
  {
    PageItems(sorted, cursor, limit);
    PageBounds(sorted, cursor, limit, StartOf(sorted, cursor) + i);
  }

  lemma OnPage(sorted: seq<Id>, cursor: Option<Id>, limit: nat, x: Id)
    requires limit >= 1 && Increasing(sorted)
    ensures var page := PageOf(sorted, cursor, limit);
            x in page.items <==> x in sorted && Beyond(x, cursor) && (page.nextCursor.None? || x <= page.nextCursor.value)
  {
    var page := PageOf(sorted, cursor, limit);
    if x in sorted && Beyond(x, cursor) && (page.nextCursor.None? || x <= page.nextCursor.value) {
      var i :| 0 <= i < |sorted| && sorted[i] == x;
      PageIndex(sorted, cursor, limit, i);
    }
    if x in page.items {
      var i :| 0 <= i < |page.items| && page.items[i] == x;
      IndexOnPage(sorted, cursor, limit, i);
    }
  }

  /** A page is the rows just beyond its cursor, in order and none skipped; only the last page has no next cursor. */
  lemma PageCovers(rows: seq<Id>, cursor: Option<Id>, limit: nat)
    requires limit >= 1 && Distinct(rows)
    ensures var page := Paginate(rows, cursor, limit);
            && Increasing(page.items) && |page.items| <= limit
            && (forall x :: x in page.items <==> x in rows && Beyond(x, cursor) && (page.nextCursor.None? || x <= page.nextCursor.value))
            && (page.nextCursor.Some? ==> page.items != [] && page.nextCursor.value == page.items[|page.items| - 1])
  {
    SortSorts(rows);
    var page := Paginate(rows, cursor, limit);
    forall x ensures x in page.items <==> x in rows && Beyond(x, cursor) && (page.nextCursor.None? || x <= page.nextCursor.value) {
      OnPage(Sort(rows), cursor, limit, x);
    }
  }

  // ---- following cursors over a fixed set ----

  function Following(rows: seq<Id>, limit: nat, cursor: Option<Id>): seq<Id>
    requires limit >= 1 && Distinct(rows)
    decreases |Sort(rows)| - StartOf(Sort(rows), cursor)
  {
    var page := Paginate(rows, cursor, limit);
    if page.nextCursor.None? then page.items
    else
      NextPageStarts(rows, limit, cursor);
      page.items + Following(rows, limit, page.nextCursor)
  }

  lemma {:induction false} NextStarts(sorted: seq<Id>, limit: nat, cursor: Option<Id>)
    requires limit >= 1 && Increasing(sorted) && PageOf(sorted, cursor, limit).nextCursor.Some?
    ensures StartOf(sorted, PageOf(sorted, cursor, limit).nextCursor) == StartOf(sorted, cursor) + limit < |sorted|
  {
    PageItems(sorted, cursor, limit);
    StartAfter(sorted, StartOf(sorted, cursor) + limit - 1);
  }

  lemma {:induction false} NextPageStarts(rows: seq<Id>, limit: nat, cursor: Option<Id>)
    requires limit >= 1 && Distinct(rows) && Paginate(rows, cursor, limit).nextCursor.Some?
    ensures StartOf(Sort(rows), Paginate(rows, cursor, limit).nextCursor) == StartOf(Sort(rows), cursor) + limit
    ensures StartOf(Sort(rows), cursor) + limit < |Sort(rows)|
  {
    SortSorts(rows);
    NextStarts(Sort(rows), limit, cursor);
  }

  lemma {:induction false} StartAfter(sorted: seq<Id>, i: nat)
    requires Increasing(sorted) && i + 1 < |sorted|
    ensures StartOf(sorted, Some(sorted[i])) == i + 1
  {
    var k := StartOf(sorted, Some(sorted[i]));
    assert sorted[i + 1] > sorted[i];
  }

  lemma {:induction false} RestAfterPage(sorted: seq<Id>, limit: nat, cursor: Option<Id>)
    requires limit >= 1 && Increasing(sorted)
    ensures var page := PageOf(sorted, cursor, limit);
            sorted[StartOf(sorted, cursor)..] ==
            page.items + if page.nextCursor.None? then [] else sorted[StartOf(sorted, page.nextCursor)..]
  {
    var page, start := PageOf(sorted, cursor, limit), StartOf(sorted, cursor);
    PageItems(sorted, cursor, limit);
    if page.nextCursor.Some? {
      NextStarts(sorted, limit, cursor);
      SplitsAt(sorted, start, limit);
      assert page.items == sorted[start..start + limit];
    } else {
      assert page.items + [] == page.items;
    }
  }

  lemma {:induction false} FollowingIsRest(rows: seq<Id>, limit: nat, cursor: Option<Id>)
    requires limit >= 1 && Distinct(rows)
    ensures Following(rows, limit, cursor) == Sort(rows)[StartOf(Sort(rows), cursor)..]
    decreases |Sort(rows)| - StartOf(Sort(rows), cursor)
  {
    var page := Paginate(rows, cursor, limit);
    SortSorts(rows);
    RestAfterPage(Sort(rows), limit, cursor);
    if page.nextCursor.Some? {
      NextPageStarts(rows, limit, cursor);
      FollowingIsRest(rows, limit, page.nextCursor);
    } else {
      assert page.items + [] == page.items;
    }
  }

  lemma SplitsAt(s: seq<Id>, i: nat, n: nat)
    requires i + n <= |s|
    ensures s[i..i + n] + s[i + n..] == s[i..]
  {
  }

  /** Following cursors over a fixed set ends, and its pages concatenate to the sorted rows. */
  lemma {:induction false} PagesConcatenate(rows: seq<Id>, limit: nat)
    requires limit >= 1 && Distinct(rows)
    ensures Following(rows, limit, None) == Sort(rows) && Increasing(Sort(rows)) && forall x :: x in Sort(rows) <==> x in rows
  {
    FollowingIsRest(rows, limit, None);
    SortSorts(rows);
  }

  // ---- rows that come and go ----

  function CursorBefore(pages: seq<Page>, k: nat): Option<Id>
    requires k <= |pages|
  {
    if k == 0 then None else pages[k - 1].nextCursor
  }

  /** Page `k` is read from `tables[k]`, beyond the cursor page `k - 1` gave; only the last page may lack one. */
  ghost predicate PageAt(tables: seq<seq<Id>>, limit: nat, pages: seq<Page>, k: nat)
    requires limit >= 1 && k < |pages| == |tables|
  {
    && Distinct(tables[k]) && pages[k] == Paginate(tables[k], CursorBefore(pages, k), limit)
    && (k > 0 ==> pages[k - 1].nextCursor.Some?)
  }

  ghost predicate IsWalk(tables: seq<seq<Id>>, limit: nat, pages: seq<Page>)
    requires limit >= 1
  {
    |pages| == |tables| && forall k :: 0 <= k < |pages| ==> PageAt(tables, limit, pages, k)
  }

  /** Cursors grow along a walk, and every page lies between its two cursors. */
  lemma PageLies(tables: seq<seq<Id>>, limit: nat, pages: seq<Page>, k: nat)
    requires limit >= 1 && IsWalk(tables, limit, pages) && k < |pages|
    ensures k > 0 ==> pages[k - 1].nextCursor.Some?
    ensures forall x :: x in pages[k].items <==>
              x in tables[k] && Beyond(x, CursorBefore(pages, k)) && (pages[k].nextCursor.None? || x <= pages[k].nextCursor.value)
    ensures Increasing(pages[k].items) && (pages[k].nextCursor.Some? ==> pages[k].nextCursor.value in pages[k].items)
  {
    assert PageAt(tables, limit, pages, k);
    PageCovers(tables[k], CursorBefore(pages, k), limit);
  }

  lemma {:induction false} CursorsGrow(tables: seq<seq<Id>>, limit: nat, pages: seq<Page>, j: nat, k: nat)
    requires limit >= 1 && IsWalk(tables, limit, pages) && j < k < |pages| && pages[k].nextCursor.Some?
    ensures pages[j].nextCursor.Some? && pages[j].nextCursor.value < pages[k].nextCursor.value
    decreases k
  {
    PageLies(tables, limit, pages, k);
    if j < k - 1 { CursorsGrow(tables, limit, pages, j, k - 1); }
  }

  /** No id is returned twice, whatever happens to the rows between pages; later pages only hold larger ids. */
  lemma NothingTwice(tables: seq<seq<Id>>, limit: nat, pages: seq<Page>, j: nat, k: nat, x: Id, y: Id)
    requires limit >= 1 && IsWalk(tables, limit, pages) && j < k < |pages| && x in pages[j].items && y in pages[k].items
    ensures x < y
  {
    PageLies(tables, limit, pages, j);
    PageLies(tables, limit, pages, k);
    if j < k - 1 { CursorsGrow(tables, limit, pages, j, k - 1); }
  }

  /** In a walk that ends, a row present throughout is on a page. */
  lemma {:induction false} NothingMissed(tables: seq<seq<Id>>, limit: nat, pages: seq<Page>, x: Id, from: nat) returns (k: nat)
    requires limit >= 1 && IsWalk(tables, limit, pages) && from < |pages| && pages[|pages| - 1].nextCursor.None?
    requires forall t :: 0 <= t < |tables| ==> x in tables[t]
    requires Beyond(x, CursorBefore(pages, from))
    ensures from <= k < |pages| && x in pages[k].items
    decreases |pages| - from
  {
    PageLies(tables, limit, pages, from);
    if pages[from].nextCursor.None? || x <= pages[from].nextCursor.value {
      k := from;
    } else {
      k := NothingMissed(tables, limit, pages, x, from + 1);
    }
  }

  /** In a walk that ends, every row present throughout is returned on exactly one page, and once on it. */
  lemma PresentRowsReturnedOnce(tables: seq<seq<Id>>, limit: nat, pages: seq<Page>, x: Id)
    requires limit >= 1 && IsWalk(tables, limit, pages) && pages != [] && pages[|pages| - 1].nextCursor.None?
    requires forall t :: 0 <= t < |tables| ==> x in tables[t]
    ensures exists k :: 0 <= k < |pages| && x in pages[k].items && (forall j :: 0 <= j < |pages| && x in pages[j].items ==> j == k)
                        && multiset(pages[k].items)[x] == 1
  {
    var k := NothingMissed(tables, limit, pages, x, 0);
    forall j | 0 <= j < |pages| && x in pages[j].items ensures j == k {
      if j < k { NothingTwice(tables, limit, pages, j, k, x, x); }
      if k < j { NothingTwice(tables, limit, pages, k, j, x, x); }
    }
    PageLies(tables, limit, pages, k);
    IncreasingHoldsOnce(pages[k].items, x);
  }

  lemma {:induction false} IncreasingHoldsOnce(s: seq<Id>, x: Id)
    requires Increasing(s) && x in s
    ensures multiset(s)[x] == 1
  {
    assert s == [s[0]] + s[1..];
    if s[0] == x {
      forall i | 0 <= i < |s[1..]| ensures s[1..][i] != x { assert s[1..][i] == s[i + 1]; }
      assert multiset(s) == multiset{s[0]} + multiset(s[1..]);
    } else {
      IncreasingHoldsOnce(s[1..], x);
    }
  }
}
