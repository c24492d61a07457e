/**
 Keyset paging of `list_workspace_jobs`: following next_cursor visits every row exactly once,
 newest first, also while rows are being inserted.
 */
module Paging {
  import opened Options
  import opened Counting
  import opened Cursors
  import opened FixedText

  // ---------------------------------------------------------------- the order (created_at DESC, id DESC)

  /** The columns that order rows, most significant first: the parts of the time, then those of the id. */
  function SortColumns(p: Position): Values {
    var (t, u) := (p.at, p.id);
    Cons(t.year, Cons(t.month, Cons(t.day, Cons(t.hour, Cons(t.minute, Cons(t.second, Cons(t.micro,
      Cons(u.low, Cons(u.mid, Cons(u.high, Cons(u.clock, Cons(u.node, Nil))))))))))))
  }

  predicate Less(a: Values, b: Values) {
    a.Cons? && b.Cons? && (a.head < b.head || (a.head == b.head && Less(a.tail, b.tail)))
  }

  predicate SameLength(a: Values, b: Values) {
    a.Cons? == b.Cons? && (a.Cons? ==> SameLength(a.tail, b.tail))
  }

  lemma {:induction false} LessIsTransitive(a: Values, b: Values, c: Values)
    requires Less(a, b) && Less(b, c)
    ensures Less(a, c)
  {
    if a.head == b.head == c.head {
      LessIsTransitive(a.tail, b.tail, c.tail);
    }
  }

  lemma {:induction false} LessIsTotal(a: Values, b: Values)
    requires SameLength(a, b)
    ensures a == b || Less(a, b) || Less(b, a)
    ensures !(Less(a, b) && Less(b, a)) && !Less(a, a)
    decreases a
  {
    if a.Cons? {
      LessIsTotal(a.tail, b.tail);
    }
  }

  /** The WHERE clause of the query: `p` comes after the cursor position `c`. */
  predicate Older(p: Position, c: Position) {
    Less(SortColumns(p), SortColumns(c))
  }

  lemma OlderIsTransitive(a: Position, b: Position, c: Position)
    requires Older(a, b) && Older(b, c)
    ensures Older(a, c)
  {
    LessIsTransitive(SortColumns(a), SortColumns(b), SortColumns(c));
  }

  lemma ColumnsDetermine(a: Position, b: Position)
    requires SortColumns(a) == SortColumns(b)
    ensures a == b
  {
  }

  lemma ColumnsHaveSameLength(a: Position, b: Position)
    ensures SameLength(SortColumns(a), SortColumns(b))
  {
    var (x, y) := (SortColumns(a), SortColumns(b));
    var (x6, y6) := (x.tail.tail.tail.tail.tail.tail, y.tail.tail.tail.tail.tail.tail);
    assert SameLength(x6.tail.tail.tail.tail, y6.tail.tail.tail.tail);
    assert SameLength(x6.tail.tail, y6.tail.tail);
    assert SameLength(x6, y6);
    assert SameLength(x.tail.tail.tail.tail, y.tail.tail.tail.tail);
    assert SameLength(x.tail.tail, y.tail.tail);
  }

  lemma OlderIsTotal(a: Position, b: Position)
    ensures a == b || Older(a, b) || Older(b, a)
    ensures !(Older(a, b) && Older(b, a)) && !Older(a, a)
  {
    ColumnsHaveSameLength(a, b);
    LessIsTotal(SortColumns(a), SortColumns(b));
    if SortColumns(a) == SortColumns(b) {
      ColumnsDetermine(a, b);
    }
  }

  // ---------------------------------------------------------------- one fetch

  predicate Matches(rows: set<Position>, after: Option<Position>, p: Position) {
    p in rows && (after.Some? ==> Older(p, after.value))
  }

  predicate NewestFirst(items: seq<Position>) {
    forall i, j :: 0 <= i < j < |items| ==> Older(items[j], items[i])
  }

  /** `result` is what the query with LIMIT `n` returns. */
  predicate IsQuery(rows: set<Position>, after: Option<Position>, n: nat, result: seq<Position>) {
    && |result| <= n && NewestFirst(result)
    && (forall i :: 0 <= i < |result| ==> Matches(rows, after, result[i]))
    && (forall p :: p in rows && Matches(rows, after, p) && p !in result ==>
          |result| == n && forall i :: 0 <= i < |result| ==> Older(p, result[i]))
  }

  /** The rows a page shows; the query asks for one more to see whether there is a next page. */
  function PageItems(result: seq<Position>, limit: nat): seq<Position> {
    if |result| > limit then result[..limit] else result
  }

  function NextCursor(result: seq<Position>, limit: nat): Option<string>
    requires 1 <= limit && forall p :: p in result ==> ValidPosition(p)
  {
    if |result| > limit then Some(EncodeCursor(result[limit - 1])) else None
  }

  // ---------------------------------------------------------------- following the cursors

  /** The table at the time of a fetch, and what the query returned. */
  datatype Fetch = Fetch(rows: set<Position>, result: seq<Position>)

  predicate ValidRows(rows: set<Position>) {
    forall p :: p in rows ==> ValidPosition(p)
  }

  /** The position a request starts after; None stands for a refused cursor. */
  function StartOf(cursor: Option<string>): Option<Option<Position>> {
    match cursor
    case None => Some(None)
    case Some(c) =>
      var p := DecodeCursor(c);
      if p.None? then None else Some(p)
  }

  /** A client fetches pages from `cursor` on until next_cursor is null; rows may be added in between. */
  predicate Walk(fetches: seq<Fetch>, limit: nat, cursor: Option<string>) {
    && fetches != [] && limit >= 1 && ValidRows(fetches[0].rows)
    && StartOf(cursor).Some?
    && IsQuery(fetches[0].rows, StartOf(cursor).value, limit + 1, fetches[0].result)
    && (forall p :: p in fetches[0].result ==> ValidPosition(p))
    && var next := NextCursor(fetches[0].result, limit);
       if next.None? then |fetches| == 1
       else |fetches| > 1 && fetches[0].rows <= fetches[1].rows && Walk(fetches[1..], limit, next)
  }

  function Items(fetches: seq<Fetch>, limit: nat): seq<Position> {
    if fetches == [] then [] else PageItems(fetches[0].result, limit) + Items(fetches[1..], limit)
  }

  /** The same walk told by positions instead of cursors: each page goes on after the last row of the one before. */
  predicate WalkFrom(fetches: seq<Fetch>, limit: nat, start: Option<Position>) {
    && fetches != [] && limit >= 1
    && IsQuery(fetches[0].rows, start, limit + 1, fetches[0].result)
    && if |fetches[0].result| <= limit then |fetches| == 1
       else |fetches| > 1 && fetches[0].rows <= fetches[1].rows &&
            WalkFrom(fetches[1..], limit, Some(fetches[0].result[limit - 1]))
  }

  /**
   The cursor of a full page leads on after the page's last row, and is refused if and only if that row is from before
   1970.
   */
  lemma NextStartsAfterLast(result: seq<Position>, limit: nat)
    requires 1 <= limit < |result| && forall p :: p in result ==> ValidPosition(p)
    ensures StartOf(NextCursor(result, limit)) ==
            if result[limit - 1].at.year < 1970 then None else Some(Some(result[limit - 1]))
  {
    var p := result[limit - 1];
    assert p in result;
    CursorRoundTrip(p, 0);
    assert EncodeCursor(p)[..|EncodeCursor(p)| - 0] == EncodeCursor(p);
  }

  /** Following the cursors is walking on from the last row of each page. */
  lemma {:induction false} CursorsLeadOn(fetches: seq<Fetch>, limit: nat, cursor: Option<string>)
    requires Walk(fetches, limit, cursor)
    ensures WalkFrom(fetches, limit, StartOf(cursor).value)
    decreases |fetches|
  {
    var f := fetches[0];
    if |fetches| > 1 {
      NextStartsAfterLast(f.result, limit);
      CursorsLeadOn(fetches[1..], limit, NextCursor(f.result, limit));
    }
  }

  // ---------------------------------------------------------------- every table can be walked

  /** The table's rows, newest first. */
  ghost predicate IsListing(rows: set<Position>, all: seq<Position>) {
    NewestFirst(all) && forall p :: p in all <==> p in rows
  }

  lemma {:induction false} NewestExists(rows: set<Position>) returns (p: Position)
    requires rows != {}
    ensures p in rows && forall q :: q in rows && q != p ==> Older(q, p)
    decreases rows
  {
    var x :| x in rows;
    p := x;
    var rest := rows - {x};
    assert forall y :: y in rows ==> y == x || y in rest;
    if rest != {} {
      var q := NewestExists(rest);
      OlderIsTotal(x, q);
      p := if Older(x, q) then q else x;
      forall y | y in rows && y != p ensures Older(y, p) {
        if p == x && y != q {
          OlderIsTransitive(y, q, x);
        }
      }
    }
  }

  lemma {:induction false} ListingExists(rows: set<Position>) returns (all: seq<Position>)
    ensures IsListing(rows, all)
    decreases rows
  {
    if rows == {} {
      all := [];
    } else {
      var p := NewestExists(rows);
      var rest := ListingExists(rows - {p});
      all := [p] + rest;
      forall i, j | 0 <= i < j < |all| ensures Older(all[j], all[i]) {
        assert all[j] == rest[j - 1] && all[j] in rest;
        assert i > 0 ==> all[i] == rest[i - 1];
      }
    }
  }

  /** Where a page that begins at index `n` of the listing starts. */
  function StartAt(all: seq<Position>, n: nat): Option<Position>
    requires n <= |all|
  {
    if n == 0 then None else Some(all[n - 1])
  }

  function PageAt(all: seq<Position>, n: nat, limit: nat): seq<Position>
    requires n <= |all|
  {
    if |all| <= n + limit + 1 then all[n..] else all[n..n + limit + 1]
  }

  lemma MatchingIsLater(rows: set<Position>, all: seq<Position>, n: nat, i: nat)
    requires IsListing(rows, all) && n <= |all| && i < |all|
    ensures Matches(rows, StartAt(all, n), all[i]) <==> n <= i
  {
    assert all[i] in all;
    if n > 0 {
      OlderIsTotal(all[i], all[n - 1]);
    }
  }

  lemma LaterThanPage(all: seq<Position>, n: nat, limit: nat, k: nat)
    requires n <= k < |all| && all[k] !in PageAt(all, n, limit)
    ensures k >= n + |PageAt(all, n, limit)| && |PageAt(all, n, limit)| == limit + 1
  {
    var page := PageAt(all, n, limit);
    assert forall i :: n <= i < n + |page| ==> page[i - n] == all[i] && all[i] in page;
  }

  lemma PageIsQuery(rows: set<Position>, all: seq<Position>, n: nat, limit: nat)
    requires IsListing(rows, all) && n <= |all|
    ensures IsQuery(rows, StartAt(all, n), limit + 1, PageAt(all, n, limit))
  {
    var page := PageAt(all, n, limit);
    forall i | 0 <= i < |page| ensures Matches(rows, StartAt(all, n), page[i]) {
      MatchingIsLater(rows, all, n, n + i);
    }
    forall p | p in rows && Matches(rows, StartAt(all, n), p) && p !in page
      ensures |page| == limit + 1 && forall i :: 0 <= i < |page| ==> Older(p, page[i])
    {
      var k :| 0 <= k < |all| && all[k] == p;
      MatchingIsLater(rows, all, n, k);
      LaterThanPage(all, n, limit, k);
    }
  }

  /** The pages from index `n` of the listing on. */
  function Pages(rows: set<Position>, all: seq<Position>, n: nat, limit: nat): seq<Fetch>
    requires n <= |all| && limit >= 1
    decreases |all| - n
  {
    [Fetch(rows, PageAt(all, n, limit))] + if n + limit < |all| then Pages(rows, all, n + limit, limit) else []
  }

  predicate AllSee(fetches: seq<Fetch>, rows: set<Position>) {
    forall k :: 0 <= k < |fetches| ==> fetches[k].rows == rows
  }

  lemma PageShape(all: seq<Position>, n: nat, limit: nat)
    requires n <= |all| && limit >= 1
    ensures |PageAt(all, n, limit)| > limit <==> n + limit < |all|
    ensures n + limit < |all| ==> Some(PageAt(all, n, limit)[limit - 1]) == StartAt(all, n + limit)
  {
  }

  /** Pages from `next` on, put behind a full page that ends at `next`. */
  lemma JoinPages(f: Fetch, rest: seq<Fetch>, fetches: seq<Fetch>, limit: nat, start: Option<Position>, next: Position)
    requires limit >= 1 && IsQuery(f.rows, start, limit + 1, f.result) && |f.result| > limit
    requires next == f.result[limit - 1] && WalkFrom(rest, limit, Some(next)) && AllSee(rest, f.rows)
    requires fetches == [f] + rest
    ensures WalkFrom(fetches, limit, start) && AllSee(fetches, f.rows)
  {
    assert fetches[1..] == rest;
  }

  lemma LastPageIsWalk(f: Fetch, limit: nat, start: Option<Position>)
    requires limit >= 1 && IsQuery(f.rows, start, limit + 1, f.result) && |f.result| <= limit
    ensures WalkFrom([f], limit, start) && AllSee([f], f.rows)
  {
  }

  /** The pages from index `n` of the listing on are a walk. */
  predicate WalksFrom(rows: set<Position>, all: seq<Position>, n: nat, limit: nat)
    requires n <= |all| && limit >= 1
  {
    WalkFrom(Pages(rows, all, n, limit), limit, StartAt(all, n)) && AllSee(Pages(rows, all, n, limit), rows)
  }

  /** The page at index `n` makes a walk of the walk that follows it. */
  predicate WalkGoesOn(rows: set<Position>, all: seq<Position>, n: nat, limit: nat)
    requires n <= |all| && limit >= 1
  {
    n + limit >= |all| || WalksFrom(rows, all, n + limit, limit) ==> WalksFrom(rows, all, n, limit)
  }

  lemma QueryStartsWalk(rows: set<Position>, all: seq<Position>, n: nat, limit: nat)
    requires n <= |all| && limit >= 1 && IsQuery(rows, StartAt(all, n), limit + 1, PageAt(all, n, limit))
    ensures WalkGoesOn(rows, all, n, limit)
  {
    var (f, fetches) := (Fetch(rows, PageAt(all, n, limit)), Pages(rows, all, n, limit));
    PageShape(all, n, limit);
    if n + limit < |all| {
      if WalksFrom(rows, all, n + limit, limit) {
        JoinPages(f, Pages(rows, all, n + limit, limit), fetches, limit, StartAt(all, n), f.result[limit - 1]);
      }
    } else {
      LastPageIsWalk(f, limit, StartAt(all, n));
      assert fetches == [f];
    }
  }

  lemma {:induction false} WalkReachesStart(rows: set<Position>, all: seq<Position>, n: nat, limit: nat)
    requires n <= |all| && limit >= 1 && forall m: nat :: m <= |all| ==> WalkGoesOn(rows, all, m, limit)
    ensures WalksFrom(rows, all, n, limit)
    decreases |all| - n
  {
    assert WalkGoesOn(rows, all, n, limit);
    if n + limit < |all| {
      WalkReachesStart(rows, all, n + limit, limit);
    }
  }

  lemma PagesAreWalk(rows: set<Position>, all: seq<Position>, limit: nat)
    requires IsListing(rows, all) && limit >= 1
    ensures WalksFrom(rows, all, 0, limit)
  {
    forall m: nat | m <= |all| ensures WalkGoesOn(rows, all, m, limit) {
      PageIsQuery(rows, all, m, limit);
      QueryStartsWalk(rows, all, m, limit);
    }
    WalkReachesStart(rows, all, 0, limit);
  }

  /** The cursor of every page but the last decodes: the page does not end with a row from before 1970. */
  predicate CursorsDecode(fetches: seq<Fetch>, limit: nat)
    requires limit >= 1
  {
    forall k :: 0 <= k < |fetches| - 1 && limit <= |fetches[k].result| ==> fetches[k].result[limit - 1].at.year >= 1970
  }

  /** A walk told by positions can be made with cursors if every cursor decodes. */
  lemma {:induction false} DecodingWalk(fetches: seq<Fetch>, limit: nat, cursor: Option<string>,
                                        start: Option<Position>)
    requires WalkFrom(fetches, limit, start) && StartOf(cursor) == Some(start) && CursorsDecode(fetches, limit)
    requires forall k :: 0 <= k < |fetches| ==> ValidRows(fetches[k].rows)
    ensures Walk(fetches, limit, cursor)
    decreases |fetches|
  {
    var f := fetches[0];
    ResultIsValid(f, start, limit + 1);
    if |fetches| > 1 {
      NextStartsAfterLast(f.result, limit);
      assert CursorsDecode(fetches[1..], limit);
      DecodingWalk(fetches[1..], limit, NextCursor(f.result, limit), Some(f.result[limit - 1]));
    }
  }

  lemma ResultIsValid(f: Fetch, start: Option<Position>, n: nat)
    requires IsQuery(f.rows, start, n, f.result) && ValidRows(f.rows)
    ensures forall p :: p in f.result ==> p in f.rows && ValidPosition(p)
  {
    forall p | p in f.result ensures p in f.rows {
      var i :| 0 <= i < |f.result| && f.result[i] == p;
      assert Matches(f.rows, start, f.result[i]);
    }
  }

  lemma FirstDecodes(fetches: seq<Fetch>, limit: nat, cursor: Option<string>) returns (next: Option<string>)
    requires Walk(fetches, limit, cursor) && |fetches| > 1
    ensures Walk(fetches[1..], limit, next)
    ensures limit < |fetches[0].result| && fetches[0].result[limit - 1].at.year >= 1970
  {
    next := NextCursor(fetches[0].result, limit);
    NextStartsAfterLast(fetches[0].result, limit);
  }

  lemma JoinDecoding(fetches: seq<Fetch>, limit: nat)
    requires |fetches| > 1 && limit >= 1 && CursorsDecode(fetches[1..], limit)
    requires limit <= |fetches[0].result| && fetches[0].result[limit - 1].at.year >= 1970
    ensures CursorsDecode(fetches, limit)
  {
    assert forall k :: 1 <= k < |fetches| ==> fetches[k] == fetches[1..][k - 1];
  }

  /** The cursors that were followed all decoded. */
  lemma {:induction false} FollowedDecode(fetches: seq<Fetch>, limit: nat, cursor: Option<string>)
    requires Walk(fetches, limit, cursor)
    ensures CursorsDecode(fetches, limit)
    decreases |fetches|
  {
    if |fetches| > 1 {
      var next := FirstDecodes(fetches, limit, cursor);
      FollowedDecode(fetches[1..], limit, next);
      JoinDecoding(fetches, limit);
    }
  }

  /** A client gets through these pages with cursors if and only if every cursor but the last page's decodes. */
  lemma WalkIff(fetches: seq<Fetch>, limit: nat)
    requires limit >= 1 && forall k :: 0 <= k < |fetches| ==> ValidRows(fetches[k].rows)
    ensures Walk(fetches, limit, None) <==> WalkFrom(fetches, limit, None) && CursorsDecode(fetches, limit)
  {
    if Walk(fetches, limit, None) {
      CursorsLeadOn(fetches, limit, None);
      FollowedDecode(fetches, limit, None);
    } else if WalkFrom(fetches, limit, None) && CursorsDecode(fetches, limit) {
      DecodingWalk(fetches, limit, None, None);
    }
  }

  /**
   Every table has its pages for every limit, and a client gets through them if and only if no page but the last ends
   with a row from before 1970.
   */
  lemma WalkExists(rows: set<Position>, limit: nat) returns (fetches: seq<Fetch>)
    requires ValidRows(rows) && limit >= 1
    ensures WalkFrom(fetches, limit, None) && forall k :: 0 <= k < |fetches| ==> fetches[k].rows == rows
    ensures Walk(fetches, limit, None) <==> CursorsDecode(fetches, limit)
  {
    var all := ListingExists(rows);
    fetches := Pages(rows, all, 0, limit);
    PagesAreWalk(rows, all, limit);
    WalkIff(fetches, limit);
  }

  // ---------------------------------------------------------------- what a walk returns

  /** A row that matches and is not on the page is older than the page's last row. */
  lemma LeftForLater(rows: set<Position>, start: Option<Position>, limit: nat, result: seq<Position>, p: Position)
    requires IsQuery(rows, start, limit + 1, result) && 1 <= limit < |result|
    requires Matches(rows, start, p) && p !in result[..limit]
    ensures Older(p, result[limit - 1])
  {
    assert p in result[limit..] || p !in result by {
      assert result == result[..limit] + result[limit..];
    }
    if p in result[limit..] {
      var i :| limit <= i < |result| && result[i] == p;
    }
  }

  /** In order, and older than where the walk started. */
  predicate InOrderAfter(items: seq<Position>, start: Option<Position>) {
    NewestFirst(items) && (start.Some? ==> forall i :: 0 <= i < |items| ==> Older(items[i], start.value))
  }

  lemma JoinInOrder(page: seq<Position>, rest: seq<Position>, start: Option<Position>)
    requires page != [] && InOrderAfter(page, start) && InOrderAfter(rest, Some(page[|page| - 1]))
    ensures InOrderAfter(page + rest, start)
  {
    var last, all := page[|page| - 1], page + rest;
    forall i, j | 0 <= i < j < |all| ensures Older(all[j], all[i]) {
      if i < |page| <= j {
        assert all[j] == rest[j - |page|];
        if i < |page| - 1 {
          OlderIsTransitive(all[j], last, all[i]);
        }
      }
    }
    forall i | start.Some? && 0 <= i < |all| ensures Older(all[i], start.value) {
      if i >= |page| {
        OlderIsTransitive(all[i], last, start.value);
      }
    }
  }

  lemma PageInOrder(f: Fetch, start: Option<Position>, limit: nat)
    requires IsQuery(f.rows, start, limit + 1, f.result)
    ensures InOrderAfter(PageItems(f.result, limit), start)
  {
    forall i | 0 <= i < |f.result| ensures Matches(f.rows, start, f.result[i]) {}
  }

  lemma LastPage(fetches: seq<Fetch>, limit: nat)
    requires |fetches| == 1
    ensures Items(fetches, limit) == PageItems(fetches[0].result, limit)
  {
    assert Items(fetches[1..], limit) == [];
  }

  lemma {:induction false} WalkInOrder(fetches: seq<Fetch>, limit: nat, start: Option<Position>)
    requires WalkFrom(fetches, limit, start)
    ensures InOrderAfter(Items(fetches, limit), start)
    decreases |fetches|
  {
    var f := fetches[0];
    PageInOrder(f, start, limit);
    if |fetches| > 1 {
      WalkInOrder(fetches[1..], limit, Some(f.result[limit - 1]));
      JoinInOrder(f.result[..limit], Items(fetches[1..], limit), start);
    } else {
      LastPage(fetches, limit);
    }
  }

  /** Every row that is there when the walk reaches its position is returned. */
  lemma {:induction false} WalkFindsAll(fetches: seq<Fetch>, limit: nat, start: Option<Position>, p: Position)
    requires WalkFrom(fetches, limit, start) && Matches(fetches[0].rows, start, p)
    ensures p in Items(fetches, limit)
    decreases |fetches|
  {
    var f := fetches[0];
    if |fetches| > 1 && p !in f.result[..limit] {
      LeftForLater(f.rows, start, limit, f.result, p);
      WalkFindsAll(fetches[1..], limit, Some(f.result[limit - 1]), p);
    }
  }

  lemma {:induction false} LastHasAll(fetches: seq<Fetch>, limit: nat, start: Option<Position>, p: Position)
    requires WalkFrom(fetches, limit, start) && p in fetches[0].rows
    ensures p in fetches[|fetches| - 1].rows
    decreases |fetches|
  {
    if |fetches| > 1 {
      LastHasAll(fetches[1..], limit, Some(fetches[0].result[limit - 1]), p);
    }
  }

  lemma PageIsFromTable(f: Fetch, start: Option<Position>, limit: nat, p: Position)
    requires IsQuery(f.rows, start, limit + 1, f.result) && p in PageItems(f.result, limit)
    ensures p in f.rows
  {
    var i :| 0 <= i < |f.result| && f.result[i] == p;
    assert Matches(f.rows, start, f.result[i]);
  }

  /** Only rows of the table are returned. */
  lemma {:induction false} WalkReturnsRows(fetches: seq<Fetch>, limit: nat, start: Option<Position>, p: Position)
    requires WalkFrom(fetches, limit, start) && p in Items(fetches, limit)
    ensures p in fetches[|fetches| - 1].rows
    decreases |fetches|
  {
    var f := fetches[0];
    if p in PageItems(f.result, limit) {
      PageIsFromTable(f, start, limit, p);
      LastHasAll(fetches, limit, start, p);
    } else if |fetches| > 1 {
      WalkReturnsRows(fetches[1..], limit, Some(f.result[limit - 1]), p);
    } else {
      LastPage(fetches, limit);
    }
  }

  /**
   Keyset paging is exact: following next_cursor from the first page until it is null returns rows
   newest first and none twice, every row that was there from the start, and only rows of the table,
   although rows are inserted between fetches.
   */
  lemma PagingIsExact(fetches: seq<Fetch>, limit: nat)
    requires Walk(fetches, limit, None)
    ensures var items := Items(fetches, limit);
            && NewestFirst(items)
            && (forall i, j :: 0 <= i < j < |items| ==> items[i] != items[j])
            && (forall p :: p in fetches[0].rows ==> p in items)
            && (forall p :: p in items ==> p in fetches[|fetches| - 1].rows)
  {
    var items := Items(fetches, limit);
    CursorsLeadOn(fetches, limit, None);
    WalkInOrder(fetches, limit, None);
    forall i, j | 0 <= i < j < |items| ensures items[i] != items[j] {
      OlderIsTotal(items[i], items[j]);
    }
    forall p | p in fetches[0].rows ensures p in items {
      WalkFindsAll(fetches, limit, None, p);
    }
    forall p | p in items ensures p in fetches[|fetches| - 1].rows {
      WalkReturnsRows(fetches, limit, None, p);
    }
  }

  lemma OneMore(a: nat, n: nat)
    requires n > 0
    ensures a * n == a + a * (n - 1)
  {
  }

  lemma {:induction false} FullPages(fetches: seq<Fetch>, limit: nat, start: Option<Position>)
    requires WalkFrom(fetches, limit, start)
    ensures |Items(fetches, limit)| >= limit * (|fetches| - 1)
    decreases |fetches|
  {
    if |fetches| > 1 {
      FullPages(fetches[1..], limit, Some(fetches[0].result[limit - 1]));
      OneMore(limit, |fetches| - 1);
    }
  }

  function ToSet(items: seq<Position>): set<Position> {
    set p | p in items
  }

  lemma {:induction false} DistinctSize(items: seq<Position>)
    requires forall i, j :: 0 <= i < j < |items| ==> items[i] != items[j]
    ensures |ToSet(items)| == |items|
    decreases |items|
  {
    if items != [] {
      var rest := items[1..];
      DistinctSize(rest);
      assert items[0] !in rest;
      assert ToSet(items) == ToSet(rest) + {items[0]};
    }
  }

  /** The walk ends: every page but the last is full, so there are at most rows / limit pages before it. */
  lemma WalkIsShort(fetches: seq<Fetch>, limit: nat)
    requires Walk(fetches, limit, None)
    ensures limit * (|fetches| - 1) <= |fetches[|fetches| - 1].rows|
  {
    PagingIsExact(fetches, limit);
    CursorsLeadOn(fetches, limit, None);
    FullPages(fetches, limit, None);
    DistinctSize(Items(fetches, limit));
    SubsetIsNoLarger(ToSet(Items(fetches, limit)), fetches[|fetches| - 1].rows);
  }
}
