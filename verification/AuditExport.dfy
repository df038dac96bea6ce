/**
  Collecting an audit export: following the cursors of a page server until they end, repeat, or
  a limit on rows or pages is met. The server is arbitrary; what it answers may depend on the
  number of the call and on the cursor it is given.
 */
module AuditExport {
  import opened Basics

  const MAX_ROWS := 5_000
  const MAX_PAGES := 100

  datatype Usage = Usage(eventId: string, report: string)

  datatype Page<+E> = Page(
    items: seq<E>,
    nextCursor: Option<string>,
    coverageKnown: bool,
    toolUsage: Option<seq<Usage>>)

  datatype Export<+E> = Export(
    items: seq<E>,
    pages: nat,
    truncated: bool,
    toolUsage: map<string, Usage>,
    toolUsageReported: bool)

  // ---- The chain of pages ----

  type Server<!E> = (nat, Option<string>) -> Page<E>

  function CursorAt<E>(server: Server<E>, n: nat): Option<string> {
    if n == 0 then None else server(n - 1, CursorAt(server, n - 1)).nextCursor
  }

  function PageAt<E>(server: Server<E>, n: nat): Page<E> { server(n, CursorAt(server, n)) }

  /** A page names a further one; the empty cursor counts as none. */
  predicate HasNext<E>(page: Page<E>) { page.nextCursor.Some? && page.nextCursor.value != "" }

  /** The rows of the first `n` pages, in order. */
  function Rows<E>(server: Server<E>, n: nat): seq<E> {
    if n == 0 then [] else Rows(server, n - 1) + PageAt(server, n - 1).items
  }

  function Take<E>(s: seq<E>, n: int): seq<E> {
    if n <= 0 then [] else if n < |s| then s[..n] else s
  }

  /** The cursor of page `n` was not asked for before. */
  ghost predicate FreshCursor<E>(server: Server<E>, n: nat) {
    forall i: nat :: i < n ==> CursorAt(server, i) != CursorAt(server, n)
  }

  /** After `n` pages there is reason and room to fetch another. */
  ghost predicate Continues<E>(server: Server<E>, maxRows: int, maxPages: int, n: nat) {
    && |Rows(server, n)| < maxRows && n < maxPages
    && (n > 0 ==> HasNext(PageAt(server, n - 1)) && FreshCursor(server, n))
  }

  ghost predicate ContinuesUntil<E>(server: Server<E>, maxRows: int, maxPages: int, n: nat) {
    forall k: nat :: k < n ==> Continues(server, maxRows, maxPages, k)
  }

  ghost predicate KnownUntil<E>(server: Server<E>, n: nat) {
    forall k: nat :: k < n ==> PageAt(server, k).coverageKnown
  }

  // ---- The tool usage index ----

  function UsageOf<E>(page: Page<E>): seq<Usage> { page.toolUsage.GetOr([]) }

  function AllUsage<E>(pages: seq<Page<E>>): seq<Usage> {
    if pages == [] then [] else AllUsage(pages[..|pages| - 1]) + UsageOf(pages[|pages| - 1])
  }

  ghost predicate LastFor(rows: seq<Usage>, eventId: string, k: int) {
    0 <= k < |rows| && rows[k].eventId == eventId && forall j :: k < j < |rows| ==> rows[j].eventId != eventId
  }

  /** The index holds, for every event that has a row, the last one. */
  ghost predicate Indexes(index: map<string, Usage>, rows: seq<Usage>) {
    && (forall k :: 0 <= k < |rows| ==> rows[k].eventId in index)
    && (forall id :: id in index ==> exists k :: LastFor(rows, id, k) && index[id] == rows[k])
  }

  lemma IndexOneMore(index: map<string, Usage>, rows: seq<Usage>, row: Usage)
    requires Indexes(index, rows)
    ensures Indexes(index[row.eventId := row], rows + [row])
  {
    var all, index' := rows + [row], index[row.eventId := row];
    forall id | id in index' ensures exists k :: LastFor(all, id, k) && index'[id] == all[k] {
      if id == row.eventId {
        assert LastFor(all, id, |rows|);
      } else {
        var k :| LastFor(rows, id, k) && index[id] == rows[k];
        assert LastFor(all, id, k);
      }
    }
  }

  method IndexRows(index: map<string, Usage>, rows: seq<Usage>, ghost before: seq<Usage>)
      returns (index': map<string, Usage>)
    requires Indexes(index, before)
    ensures Indexes(index', before + rows)
  {
    index' := index;
    assert before + rows[..0] == before;
    for j := 0 to |rows|
      invariant Indexes(index', before + rows[..j])
    {
      IndexOneMore(index', before + rows[..j], rows[j]);
      assert before + rows[..j + 1] == before + rows[..j] + [rows[j]];
      index' := index'[rows[j].eventId := rows[j]];
    }
    assert rows[..|rows|] == rows;
  }

  lemma UsageOneMore<E>(pages: seq<Page<E>>, i: nat)
    requires i < |pages|
    ensures AllUsage(pages[..i + 1]) == AllUsage(pages[..i]) + UsageOf(pages[i])
  {
    assert pages[..i + 1][..i] == pages[..i];
  }

  /** `auditToolUsageIndex`. */
  method ToolUsageIndex<E>(pages: seq<Page<E>>) returns (byEventId: map<string, Usage>, serverReported: bool)
    ensures Indexes(byEventId, AllUsage(pages))
    ensures serverReported <==> pages == [] || exists i :: 0 <= i < |pages| && pages[i].toolUsage.Some?
  {
    byEventId, serverReported := map[], |pages| == 0;
    for i := 0 to |pages|
      invariant Indexes(byEventId, AllUsage(pages[..i]))
      invariant serverReported <==> pages == [] || exists k :: 0 <= k < i && pages[k].toolUsage.Some?
    {
      UsageOneMore(pages, i);
      if pages[i].toolUsage.Some? {
        serverReported := true;
        byEventId := IndexRows(byEventId, pages[i].toolUsage.value, AllUsage(pages[..i]));
      } else {
        assert AllUsage(pages[..i]) + [] == AllUsage(pages[..i]);
      }
    }
    assert pages[..|pages|] == pages;
  }

  // ---- The collector ----

  function Pages<E>(server: Server<E>, n: nat): (r: seq<Page<E>>)
    ensures |r| == n && forall i :: 0 <= i < n ==> r[i] == PageAt(server, i)
  {
    if n == 0 then [] else Pages(server, n - 1) + [PageAt(server, n - 1)]
  }

  /** The collector stops after `n` pages with these rows. */
  ghost predicate StopsAfter<E>(server: Server<E>, maxRows: int, maxPages: int, n: nat, items: seq<E>,
                                truncated: bool) {
    && ContinuesUntil(server, maxRows, maxPages, n) && !Continues(server, maxRows, maxPages, n)
    && KnownUntil(server, n)
    && items == Take(Rows(server, n), maxRows)
    && (truncated <==> n > 0 && (HasNext(PageAt(server, n - 1)) || |Rows(server, n)| > maxRows))
  }

  /** What a finished export says about the chain. */
  ghost predicate IsExport<E>(server: Server<E>, maxRows: int, maxPages: int, e: Export<E>) {
    StopsAfter(server, maxRows, maxPages, e.pages, e.items, e.truncated)
  }

  /** What the variables of the collector hold after `n` pages. */
  ghost predicate Collected<E>(server: Server<E>, maxRows: int, maxPages: int, n: nat,
                               items: seq<E>, cursor: Option<string>, seen: set<string>) {
    && ContinuesUntil(server, maxRows, maxPages, n) && KnownUntil(server, n)
    && cursor == CursorAt(server, n) && items == Take(Rows(server, n), maxRows)
    && (n > 0 ==> HasNext(PageAt(server, n - 1)) && FreshCursor(server, n))
    && (forall i: nat :: 0 < i <= n ==> CursorAt(server, i).Some? && CursorAt(server, i).value in seen)
    && (forall c :: c in seen ==> exists i: nat :: 0 < i <= n && CursorAt(server, i) == Some(c))
  }

  lemma NothingCollected<E>(server: Server<E>, maxRows: int, maxPages: int)
    ensures Collected(server, maxRows, maxPages, 0, [], None, {})
  {
  }

  /** One more page of known coverage is one more page of the chain. */
  lemma PageAppended<E>(server: Server<E>, maxRows: int, maxPages: int, n: nat,
                        items: seq<E>, cursor: Option<string>, seen: set<string>, page: Page<E>)
    requires Collected(server, maxRows, maxPages, n, items, cursor, seen)
    requires |items| < maxRows && n < maxPages && page == server(n, cursor) && page.coverageKnown
    ensures page == PageAt(server, n) && page.nextCursor == CursorAt(server, n + 1)
    ensures ContinuesUntil(server, maxRows, maxPages, n + 1) && KnownUntil(server, n + 1)
    ensures items + Take(page.items, maxRows - |items|) == Take(Rows(server, n + 1), maxRows)
    ensures |page.items| > maxRows - |items| <==> |Rows(server, n + 1)| > maxRows
  {
    assert items == Rows(server, n);
    assert Continues(server, maxRows, maxPages, n);
  }

  /** The set of seen cursors decides whether the next one is new. */
  lemma SeenMeansRepeated<E>(server: Server<E>, maxRows: int, maxPages: int, n: nat,
                             items: seq<E>, cursor: Option<string>, seen: set<string>, next: string)
    requires Collected(server, maxRows, maxPages, n, items, cursor, seen) && CursorAt(server, n + 1) == Some(next)
    ensures next in seen <==> !FreshCursor(server, n + 1)
  {
    assert CursorAt(server, 0) == None;
    if next in seen {
      var i: nat :| 0 < i <= n && CursorAt(server, i) == Some(next);
      assert !FreshCursor(server, n + 1);
    } else {
      forall i: nat | i < n + 1 ensures CursorAt(server, i) != CursorAt(server, n + 1) {
        if i > 0 { assert CursorAt(server, i).value in seen; }
      }
    }
  }

  /** The export either ends with the page, or goes on. */
  lemma OnePage<E>(server: Server<E>, maxRows: int, maxPages: int, n: nat,
                   items: seq<E>, cursor: Option<string>, seen: set<string>, page: Page<E>)
    requires Collected(server, maxRows, maxPages, n, items, cursor, seen)
    requires |items| < maxRows && n < maxPages && page == server(n, cursor) && page.coverageKnown
    ensures page == PageAt(server, n)
    ensures !HasNext(page) ==> StopsAfter(server, maxRows, maxPages, n + 1,
      items + Take(page.items, maxRows - |items|), |page.items| > maxRows - |items|)
    ensures HasNext(page) && page.nextCursor.value in seen ==> StopsAfter(server, maxRows, maxPages, n + 1,
      items + Take(page.items, maxRows - |items|), true)
    ensures HasNext(page) && page.nextCursor.value !in seen ==> Collected(server, maxRows, maxPages, n + 1,
      items + Take(page.items, maxRows - |items|), page.nextCursor, seen + {page.nextCursor.value})
  {
    hide ContinuesUntil, KnownUntil, Rows, CursorAt, FreshCursor, Take;
    PageAppended(server, maxRows, maxPages, n, items, cursor, seen, page);
    if HasNext(page) {
      SeenMeansRepeated(server, maxRows, maxPages, n, items, cursor, seen, page.nextCursor.value);
    }
  }

  /** `collectAuditExport`: the pages are those of the chain, up to the first that does not
      continue; it fails exactly when one of those has unknown coverage. */
  method Collect<E>(server: Server<E>, maxRowsOption: Option<int>, maxPagesOption: Option<int>)
    returns (r: Result<Export<E>, nat>)
    ensures r.Ok? ==> IsExport(server, maxRowsOption.GetOr(5_000), maxPagesOption.GetOr(100), r.value)
    ensures r.Ok? ==> HasUsageOf(server, r.value)
    ensures r.Err? ==>
      && ContinuesUntil(server, maxRowsOption.GetOr(5_000), maxPagesOption.GetOr(100), r.error + 1)
      && KnownUntil(server, r.error) && !PageAt(server, r.error).coverageKnown
  {
    hide Continues, FreshCursor, ContinuesUntil, KnownUntil, StopsAfter, Collected, HasUsageOf, Rows;
    var maxRows, maxPages := maxRowsOption.GetOr(MAX_ROWS), maxPagesOption.GetOr(MAX_PAGES);
    NothingCollected(server, maxRows, maxPages);
    var items: seq<E>, collected: seq<Page<E>> := [], [];
    var seen: set<string> := {};
    var cursor: Option<string> := None;
    var pages := 0;
    while |items| < maxRows && pages < maxPages
      invariant collected == Pages(server, pages)
      invariant Collected(server, maxRows, maxPages, pages, items, cursor, seen)
      decreases maxPages - pages
    {
      var page := server(pages, cursor);
      if !page.coverageKnown {
        UnknownPage(server, maxRows, maxPages, pages, items, cursor, seen);
        return Err(pages);
      }
      OnePage(server, maxRows, maxPages, pages, items, cursor, seen, page);
      assert page == PageAt(server, pages);
      pages := pages + 1;
      var remaining := maxRows - |items|;
      var pageWasCut := |page.items| > remaining;
      items := items + if pageWasCut then page.items[..remaining] else page.items;
      collected := collected + [page];
      if page.nextCursor.GetOr("") == "" {
        var e := Finish(server, pages, items, collected, pageWasCut);
        return Ok(e);
      }
      if page.nextCursor.value in seen {
        var e := Finish(server, pages, items, collected, true);
        return Ok(e);
      }
      seen := seen + {page.nextCursor.value};
      cursor := page.nextCursor;
    }
    LimitReached(server, maxRows, maxPages, pages, items, cursor, seen);
    var e := Finish(server, pages, items, collected, cursor.Some? && cursor.value != "");
    return Ok(e);
  }

  lemma UnknownPage<E>(server: Server<E>, maxRows: int, maxPages: int, n: nat,
                       items: seq<E>, cursor: Option<string>, seen: set<string>)
    requires Collected(server, maxRows, maxPages, n, items, cursor, seen) && |items| < maxRows && n < maxPages
    ensures ContinuesUntil(server, maxRows, maxPages, n + 1) && KnownUntil(server, n) && cursor == CursorAt(server, n)
  {
    assert items == Rows(server, n);
    assert Continues(server, maxRows, maxPages, n);
  }

  lemma LimitReached<E>(server: Server<E>, maxRows: int, maxPages: int, n: nat,
                        items: seq<E>, cursor: Option<string>, seen: set<string>)
    requires Collected(server, maxRows, maxPages, n, items, cursor, seen) && (|items| >= maxRows || n >= maxPages)
    ensures StopsAfter(server, maxRows, maxPages, n, items, cursor.Some? && cursor.value != "")
  {
    assert n > 0 ==> cursor == PageAt(server, n - 1).nextCursor;
  }

  /** The usage index is that of the pages fetched. */
  ghost predicate HasUsageOf<E>(server: Server<E>, e: Export<E>) {
    && Indexes(e.toolUsage, AllUsage(Pages(server, e.pages)))
    && (e.toolUsageReported <==> e.pages == 0 || exists i: nat :: i < e.pages && PageAt(server, i).toolUsage.Some?)
  }

  /** The closure `finish`. */
  method Finish<E>(ghost server: Server<E>, n: nat, items: seq<E>, collected: seq<Page<E>>, truncated: bool)
    returns (e: Export<E>)
    requires collected == Pages(server, n)
    ensures e.items == items && e.pages == n && e.truncated == truncated && HasUsageOf(server, e)
  {
    var byEventId, reported := ToolUsageIndex(collected);
    assert reported <==> n == 0 || exists i: nat :: i < n && PageAt(server, i).toolUsage.Some? by {
      if i :| 0 <= i < n && collected[i].toolUsage.Some? { assert PageAt(server, i).toolUsage.Some?; }
      if i: nat :| i < n && PageAt(server, i).toolUsage.Some? { assert collected[i].toolUsage.Some?; }
    }
    return Export(items, n, truncated, byEventId, reported);
  }

  // ---- What an export means ----

  /** The chain ends after exactly `n` pages. */
  ghost predicate EndsAfter<E>(server: Server<E>, n: nat) {
    && n > 0 && !HasNext(PageAt(server, n - 1))
    && (forall k: nat :: k < n - 1 ==> HasNext(PageAt(server, k)))
  }

  /** No cursor is fetched twice, whatever the server answers. */
  lemma NoCursorTwice<E>(server: Server<E>, maxRows: int, maxPages: int, e: Export<E>, i: nat, j: nat)
    requires IsExport(server, maxRows, maxPages, e) && i < j < e.pages
    ensures CursorAt(server, i) != CursorAt(server, j)
  {
    assert Continues(server, maxRows, maxPages, j);
  }

  /** The rows are a prefix of the concatenated pages, no longer than the limit, and within it
      nothing is dropped. */
  lemma ExportIsAPrefix<E>(server: Server<E>, maxRows: int, maxPages: int, e: Export<E>)
    requires IsExport(server, maxRows, maxPages, e) && maxRows >= 0
    ensures e.items <= Rows(server, e.pages) && |e.items| <= maxRows
    ensures |e.items| == maxRows || e.items == Rows(server, e.pages)
    ensures e.pages <= maxPages || e.pages == 0
  {
    if e.pages > 0 { assert Continues(server, maxRows, maxPages, e.pages - 1); }
  }

  /** An export that is not marked as truncated holds every row of a chain that ended. */
  lemma UntruncatedIsEverything<E>(server: Server<E>, maxRows: int, maxPages: int, e: Export<E>)
    requires IsExport(server, maxRows, maxPages, e) && maxRows >= 1 && maxPages >= 1
    ensures !e.truncated ==> EndsAfter(server, e.pages) && e.items == Rows(server, e.pages)
  {
    if e.pages > 0 {
      forall k: nat | k < e.pages - 1 ensures HasNext(PageAt(server, k)) {
        assert Continues(server, maxRows, maxPages, k + 1);
      }
    }
  }

  /** A limit below one is never reported as a truncation, although nothing is exported. */
  lemma ZeroLimitLooksComplete<E>(server: Server<E>, maxRows: int, maxPages: int, e: Export<E>)
    requires IsExport(server, maxRows, maxPages, e) && (maxRows < 1 || maxPages < 1)
    ensures e.pages == 0 && e.items == [] && !e.truncated
  {
    var first: nat := 0;
    assert first < e.pages ==> Continues(server, maxRows, maxPages, first);
  }

  /** That an unmarked export is everything holds if and only if both limits are at least one. */
  lemma UntruncatedIsEverythingExactly<E>(server: Server<E>, maxRows: int, maxPages: int, e: Export<E>)
    requires IsExport(server, maxRows, maxPages, e)
    ensures (!e.truncated ==> EndsAfter(server, e.pages) && e.items == Rows(server, e.pages))
      <==> maxRows >= 1 && maxPages >= 1
  {
    if maxRows >= 1 && maxPages >= 1 {
      UntruncatedIsEverything(server, maxRows, maxPages, e);
    } else {
      ZeroLimitLooksComplete(server, maxRows, maxPages, e);
    }
  }

  /** Conversely, a chain that ends within the limits is exported whole. */
  lemma EndedChainsAreComplete<E>(server: Server<E>, maxRows: int, maxPages: int, e: Export<E>, n: nat)
    requires IsExport(server, maxRows, maxPages, e)
    requires EndsAfter(server, n) && forall k: nat :: 0 < k < n ==> FreshCursor(server, k)
    requires n <= maxPages && |Rows(server, n - 1)| < maxRows && |Rows(server, n)| <= maxRows
    ensures e.pages == n && !e.truncated && e.items == Rows(server, n)
  {
    if e.pages < n { RowsGrow(server, e.pages, n - 1); }
    assert e.pages > n ==> Continues(server, maxRows, maxPages, n);
  }

  lemma {:induction false} RowsGrow<E>(server: Server<E>, i: nat, j: nat)
    requires i <= j
    ensures |Rows(server, i)| <= |Rows(server, j)|
  {
    if i < j { RowsGrow(server, i, j - 1); }
  }
}
