/**
 * `useResponse` and its `fetchAllData` loop: follow the server's
 * `nextStartTime` cursor from `start` until it is falsy, concatenating the
 * pages' results, and publish the list, or `null` on any failure.
 */
module Pagination {
  import opened Options
  import opened Decimal
  import opened Samples
  import opened Cache

  /**
   * A page request `${API_URL}/bitcoin/${cursor}/${end}`, by its parts: the
   * asset segment is fixed, whatever coin is asked for.  `fetcher` keys its
   * store by the rendered URL; since `Url` is one-to-one (`UrlInjective`),
   * keying it by the request itself hits and misses alike.
   */
  datatype PageRequest = PageRequest(apiUrl: string, cursor: int, end: int)

  function Url(r: PageRequest): (u: string)
    ensures r.apiUrl + "/bitcoin/" <= u
  {
    r.apiUrl + "/bitcoin/" + IntToString(r.cursor) + "/" + IntToString(r.end)
  }

  function FirstIndexOf(s: string, c: char): (k: nat)
    ensures k <= |s|
    ensures forall j :: 0 <= j < k ==> s[j] != c
    ensures k < |s| ==> s[k] == c
    decreases |s|
  {
    if s == [] then 0 else if s[0] == c then 0 else 1 + FirstIndexOf(s[1..], c)
  }

  lemma {:induction false} FirstSlash(a: string, b: string)
    requires forall j :: 0 <= j < |a| ==> a[j] != '/'
    ensures FirstIndexOf(a + "/" + b, '/') == |a|
    decreases |a|
  {
    if a != [] {
      assert (a + "/" + b)[1..] == a[1..] + "/" + b;
      FirstSlash(a[1..], b);
    }
  }

  /** A slash-free head is recovered from `head + "/" + tail`, and so is the tail. */
  lemma SplitAtSlash(a: string, b: string, c: string, d: string)
    requires forall j :: 0 <= j < |a| ==> a[j] != '/'
    requires forall j :: 0 <= j < |c| ==> c[j] != '/'
    requires a + "/" + b == c + "/" + d
    ensures a == c && b == d
  {
    FirstSlash(a, b);
    FirstSlash(c, d);
    var s := a + "/" + b;
    assert a == s[..|a|] && c == s[..|c|];
    assert b == s[|a| + 1..] && d == s[|c| + 1..];
  }

  /** Different requests never render to the same URL, so they never share a cache key. */
  lemma UrlInjective(r: PageRequest, q: PageRequest)
    requires r.apiUrl == q.apiUrl
    requires Url(r) == Url(q)
    ensures r == q
  {
    var prefix := r.apiUrl + "/bitcoin/";
    var x := IntToString(r.cursor) + "/" + IntToString(r.end);
    var y := IntToString(q.cursor) + "/" + IntToString(q.end);
    assert Url(r) == prefix + x;
    assert Url(q) == prefix + y;
    assert x == (prefix + x)[|prefix|..];
    assert y == (prefix + y)[|prefix|..];
    SplitAtSlash(IntToString(r.cursor), IntToString(r.end), IntToString(q.cursor), IntToString(q.end));
    IntToStringInjective(r.cursor, q.cursor);
    IntToStringInjective(r.end, q.end);
  }

  /** The requests for a run of cursors against one fixed end. */
  function Requests(apiUrl: string, cursors: seq<int>, end: int): seq<PageRequest>
    decreases |cursors|
  {
    if cursors == [] then []
    else Requests(apiUrl, cursors[..|cursors| - 1], end) + [PageRequest(apiUrl, cursors[|cursors| - 1], end)]
  }

  /** Every request of a cycle is for its cursor, with the same end on all pages. */
  lemma {:induction false} RequestsAt(apiUrl: string, cursors: seq<int>, end: int)
    ensures |Requests(apiUrl, cursors, end)| == |cursors|
    ensures forall i :: 0 <= i < |cursors| ==> Requests(apiUrl, cursors, end)[i] == PageRequest(apiUrl, cursors[i], end)
    decreases |cursors|
  {
    if cursors != [] {
      var before := cursors[..|cursors| - 1];
      RequestsAt(apiUrl, before, end);
      assert forall i :: 0 <= i < |before| ==> cursors[i] == before[i];
    }
  }

  /** Distinct cursors make requests with distinct URLs. */
  lemma RequestsDistinct(apiUrl: string, cursors: seq<int>, end: int)
    requires forall i, j :: 0 <= i < j < |cursors| ==> cursors[i] != cursors[j]
    ensures |Requests(apiUrl, cursors, end)| == |cursors|
    ensures forall i, j :: 0 <= i < j < |cursors| ==>
      Url(Requests(apiUrl, cursors, end)[i]) != Url(Requests(apiUrl, cursors, end)[j])
  {
    RequestsAt(apiUrl, cursors, end);
    forall i, j | 0 <= i < j < |cursors|
      ensures Url(Requests(apiUrl, cursors, end)[i]) != Url(Requests(apiUrl, cursors, end)[j])
    {
      var r, q := Requests(apiUrl, cursors, end)[i], Requests(apiUrl, cursors, end)[j];
      if Url(r) == Url(q) {
        UrlInjective(r, q);
      }
    }
  }

  /** Why a cycle ended without data: the fetch failed, or the body was not a page. */
  datatype CycleError = FetchFailed(cause: FetchError) | NotAPage

  /** Pending: the cursor was still truthy after the allowed number of pages. */
  datatype Outcome = Complete(results: seq<Sample>) | Aborted(error: CycleError) | Pending

  function Prepend(done: seq<Sample>, rest: Outcome): Outcome {
    match rest
    case Complete(more) => Complete(done + more)
    case _ => rest
  }

  /** What `fetcher` gives for the page at `cursor`. */
  function Served(entries: map<PageRequest, Body>, network: Network<PageRequest>, apiUrl: string, cursor: int, end: int): Answer {
    Resolve(entries, network, PageRequest(apiUrl, cursor, end))
  }

  predicate ServesPage(entries: map<PageRequest, Body>, network: Network<PageRequest>, apiUrl: string, cursor: int, end: int) {
    Served(entries, network, apiUrl, cursor, end).Decoded? && Served(entries, network, apiUrl, cursor, end).body.Page?
  }

  /** The result of the loop from `cursor`, fetching at most `fuel` pages. */
  function Paginate(entries: map<PageRequest, Body>, network: Network<PageRequest>, apiUrl: string, cursor: int, end: int, fuel: nat): (o: Outcome)
    ensures o.Pending? ==> cursor != 0
    ensures o.Aborted? ==> cursor != 0 && fuel > 0
    ensures o.Complete? && cursor != 0 ==> ServesPage(entries, network, apiUrl, cursor, end)
    decreases fuel
  {
    if cursor == 0 then Complete([])
    else if fuel == 0 then Pending
    else match Served(entries, network, apiUrl, cursor, end)
      case Failed(e) => Aborted(FetchFailed(e))
      case Decoded(Malformed(_)) => Aborted(NotAPage)
      case Decoded(Page(rs, next)) => Prepend(rs, Paginate(entries, network, apiUrl, next, end, fuel - 1))
  }

  /** The cursors the loop requests from `cursor`, in order. */
  function Cursors(entries: map<PageRequest, Body>, network: Network<PageRequest>, apiUrl: string, cursor: int, end: int, fuel: nat): seq<int>
    decreases fuel
  {
    if cursor == 0 || fuel == 0 then []
    else match Served(entries, network, apiUrl, cursor, end)
      case Decoded(Page(_, next)) => [cursor] + Cursors(entries, network, apiUrl, next, end, fuel - 1)
      case _ => [cursor]
  }

  /**
   * The requests of one cycle: at most one per allowed page, none for a
   * falsy start, the first at `start`, every cursor truthy, and each next
   * cursor the previous page's `nextStartTime`.
   */
  lemma {:induction false} CursorsShape(entries: map<PageRequest, Body>, network: Network<PageRequest>, apiUrl: string, cursor: int, end: int, fuel: nat)
    ensures var cs := Cursors(entries, network, apiUrl, cursor, end, fuel);
      && |cs| <= fuel
      && (cursor == 0 ==> cs == [])
      && (cursor != 0 && fuel > 0 ==> |cs| >= 1 && cs[0] == cursor)
      && (forall i :: 0 <= i < |cs| ==> cs[i] != 0)
      && (forall i :: 0 <= i < |cs| - 1 ==>
            ServesPage(entries, network, apiUrl, cs[i], end) && NextOf(entries, network, apiUrl, cs[i], end) == cs[i + 1])
    decreases fuel
  {
    if cursor != 0 && fuel > 0 && ServesPage(entries, network, apiUrl, cursor, end) {
      var next := NextOf(entries, network, apiUrl, cursor, end);
      CursorsShape(entries, network, apiUrl, next, end, fuel - 1);
      var cs := Cursors(entries, network, apiUrl, cursor, end, fuel);
      assert cs == [cursor] + Cursors(entries, network, apiUrl, next, end, fuel - 1);
    }
  }

  /** The pages' results at `cursors`, concatenated in order. */
  function Concat(entries: map<PageRequest, Body>, network: Network<PageRequest>, apiUrl: string, cursors: seq<int>, end: int): seq<Sample>
    decreases |cursors|
  {
    if cursors == [] then []
    else
      var a := Served(entries, network, apiUrl, cursors[0], end);
      (if a.Decoded? && a.body.Page? then a.body.results else []) + Concat(entries, network, apiUrl, cursors[1..], end)
  }

  /** The continuation cursor of the page at `cursor`; 0 when it serves no page. */
  function NextOf(entries: map<PageRequest, Body>, network: Network<PageRequest>, apiUrl: string, cursor: int, end: int): int {
    if ServesPage(entries, network, apiUrl, cursor, end) then Served(entries, network, apiUrl, cursor, end).body.nextStartTime else 0
  }

  /**
   * The server leads from `start` through `cursors` to exhaustion: every
   * cursor is truthy and serves a page, each page's `nextStartTime` is the
   * next cursor, and the last page's is falsy.
   */
  ghost predicate Chain(entries: map<PageRequest, Body>, network: Network<PageRequest>, apiUrl: string, end: int, start: int, cursors: seq<int>) {
    && (start == 0 <==> cursors == [])
    && (cursors != [] ==> cursors[0] == start)
    && (forall i :: 0 <= i < |cursors| ==> cursors[i] != 0 && ServesPage(entries, network, apiUrl, cursors[i], end))
    && (forall i :: 0 <= i < |cursors| - 1 ==> NextOf(entries, network, apiUrl, cursors[i], end) == cursors[i + 1])
    && (cursors != [] ==> NextOf(entries, network, apiUrl, cursors[|cursors| - 1], end) == 0)
  }

  /** A page whose continuation starts a chain extends that chain by one cursor at the front. */
  lemma ChainCons(entries: map<PageRequest, Body>, network: Network<PageRequest>, apiUrl: string, end: int, start: int, rest: seq<int>)
    requires start != 0 && ServesPage(entries, network, apiUrl, start, end)
    requires Chain(entries, network, apiUrl, end, NextOf(entries, network, apiUrl, start, end), rest)
    ensures Chain(entries, network, apiUrl, end, start, [start] + rest)
  {
    var cs := [start] + rest;
    assert forall i :: 1 <= i < |cs| ==> cs[i] == rest[i - 1];
  }

  /**
   * A completed cycle followed the server's chain of cursors and its result
   * is the concatenation of those pages' results, in request order.
   */
  lemma {:induction false} CompleteFollowsChain(entries: map<PageRequest, Body>, network: Network<PageRequest>, apiUrl: string, start: int, end: int, fuel: nat)
    requires Paginate(entries, network, apiUrl, start, end, fuel).Complete?
    ensures Chain(entries, network, apiUrl, end, start, Cursors(entries, network, apiUrl, start, end, fuel))
    ensures Paginate(entries, network, apiUrl, start, end, fuel).results ==
      Concat(entries, network, apiUrl, Cursors(entries, network, apiUrl, start, end, fuel), end)
    decreases fuel
  {
    if start != 0 {
      var page := Served(entries, network, apiUrl, start, end).body;
      assert ServesPage(entries, network, apiUrl, start, end);
      var next := page.nextStartTime;
      assert Paginate(entries, network, apiUrl, start, end, fuel) ==
        Prepend(page.results, Paginate(entries, network, apiUrl, next, end, fuel - 1));
      CompleteFollowsChain(entries, network, apiUrl, next, end, fuel - 1);
      var later := Cursors(entries, network, apiUrl, next, end, fuel - 1);
      assert Cursors(entries, network, apiUrl, start, end, fuel) == [start] + later;
      ChainCons(entries, network, apiUrl, end, start, later);
      assert ([start] + later)[1..] == later;
    }
  }

  /** The chain from a truthy cursor is that cursor's page followed by the chain from its continuation. */
  lemma ChainTail(entries: map<PageRequest, Body>, network: Network<PageRequest>, apiUrl: string, end: int, start: int, cursors: seq<int>)
    requires Chain(entries, network, apiUrl, end, start, cursors)
    requires start != 0
    ensures ServesPage(entries, network, apiUrl, start, end)
    ensures cursors == [start] + cursors[1..]
    ensures Chain(entries, network, apiUrl, end, NextOf(entries, network, apiUrl, start, end), cursors[1..])
  {
    var rest := cursors[1..];
    forall i | 0 <= i < |rest|
      ensures rest[i] != 0 && ServesPage(entries, network, apiUrl, rest[i], end)
    {
      assert rest[i] == cursors[i + 1];
    }
    forall i | 0 <= i < |rest| - 1
      ensures NextOf(entries, network, apiUrl, rest[i], end) == rest[i + 1]
    {
      assert rest[i] == cursors[i + 1] && rest[i + 1] == cursors[i + 2];
    }
    if |cursors| >= 2 {
      assert NextOf(entries, network, apiUrl, cursors[0], end) == cursors[1] != 0;
    } else {
      assert NextOf(entries, network, apiUrl, cursors[|cursors| - 1], end) == 0;
    }
  }

  /**
   * Conversely, when the server's chain from `start` fits in the page
   * budget, the cycle completes with exactly those pages' results.
   */
  lemma {:induction false} ChainCompletes(entries: map<PageRequest, Body>, network: Network<PageRequest>, apiUrl: string, start: int, end: int, fuel: nat, cursors: seq<int>)
    requires Chain(entries, network, apiUrl, end, start, cursors)
    requires |cursors| <= fuel
    ensures Paginate(entries, network, apiUrl, start, end, fuel) == Complete(Concat(entries, network, apiUrl, cursors, end))
    ensures Cursors(entries, network, apiUrl, start, end, fuel) == cursors
    decreases fuel
  {
    if start != 0 {
      ChainTail(entries, network, apiUrl, end, start, cursors);
      var page := Served(entries, network, apiUrl, start, end).body;
      var next := NextOf(entries, network, apiUrl, start, end);
      var rest := cursors[1..];
      ChainCompletes(entries, network, apiUrl, next, end, fuel - 1, rest);
      assert Paginate(entries, network, apiUrl, start, end, fuel) ==
        Prepend(page.results, Paginate(entries, network, apiUrl, next, end, fuel - 1));
      assert Cursors(entries, network, apiUrl, start, end, fuel) == [start] + Cursors(entries, network, apiUrl, next, end, fuel - 1);
      assert Concat(entries, network, apiUrl, cursors, end) == page.results + Concat(entries, network, apiUrl, rest, end);
    }
  }

  /** A falsy start sends no request and yields the empty list. */
  lemma FalsyStart(entries: map<PageRequest, Body>, network: Network<PageRequest>, apiUrl: string, end: int, fuel: nat)
    ensures Paginate(entries, network, apiUrl, 0, end, fuel) == Complete([])
    ensures Cursors(entries, network, apiUrl, 0, end, fuel) == []
  {
  }

  /** The page budget is invisible once it suffices: more pages change nothing. */
  lemma {:induction false} PaginateFuelMonotone(entries: map<PageRequest, Body>, network: Network<PageRequest>, apiUrl: string, cursor: int, end: int, fuel: nat, more: nat)
    requires !Paginate(entries, network, apiUrl, cursor, end, fuel).Pending?
    requires fuel <= more
    ensures Paginate(entries, network, apiUrl, cursor, end, more) == Paginate(entries, network, apiUrl, cursor, end, fuel)
    ensures Cursors(entries, network, apiUrl, cursor, end, more) == Cursors(entries, network, apiUrl, cursor, end, fuel)
    decreases fuel
  {
    if cursor != 0 {
      match Served(entries, network, apiUrl, cursor, end)
      case Decoded(Page(_, next)) =>
        PaginateFuelMonotone(entries, network, apiUrl, next, end, fuel - 1, more - 1);
      case _ =>
    }
  }

  /**
   * Two cursors of a chain that ends are different: a repeated cursor
   * would lead through the same pages again and never reach a falsy one.
   */
  lemma {:induction false} ChainNoRepeat(entries: map<PageRequest, Body>, network: Network<PageRequest>, apiUrl: string, end: int, start: int, cursors: seq<int>, i: nat, j: nat)
    requires Chain(entries, network, apiUrl, end, start, cursors)
    requires i < j < |cursors|
    ensures cursors[i] != cursors[j]
    decreases |cursors| - j
  {
    assert NextOf(entries, network, apiUrl, cursors[i], end) == cursors[i + 1] != 0;
    if j < |cursors| - 1 {
      ChainNoRepeat(entries, network, apiUrl, end, start, cursors, i + 1, j + 1);
      assert NextOf(entries, network, apiUrl, cursors[j], end) == cursors[j + 1];
    }
    assert NextOf(entries, network, apiUrl, cursors[i], end) != NextOf(entries, network, apiUrl, cursors[j], end);
  }

  lemma ChainDistinct(entries: map<PageRequest, Body>, network: Network<PageRequest>, apiUrl: string, end: int, start: int, cursors: seq<int>)
    requires Chain(entries, network, apiUrl, end, start, cursors)
    ensures forall i, j :: 0 <= i < j < |cursors| ==> cursors[i] != cursors[j]
  {
    forall i, j | 0 <= i < j < |cursors|
      ensures cursors[i] != cursors[j]
    {
      ChainNoRepeat(entries, network, apiUrl, end, start, cursors, i, j);
    }
  }

  /** The loop reads the store only through `fetcher`, so a store that resolves alike gives the same cycle. */
  lemma {:induction false} PaginateAfterStoreAll(entries: map<PageRequest, Body>, network: Network<PageRequest>, urls: seq<PageRequest>, apiUrl: string, cursor: int, end: int, fuel: nat)
    ensures Paginate(StoreAll(entries, network, urls), network, apiUrl, cursor, end, fuel) == Paginate(entries, network, apiUrl, cursor, end, fuel)
    ensures Cursors(StoreAll(entries, network, urls), network, apiUrl, cursor, end, fuel) == Cursors(entries, network, apiUrl, cursor, end, fuel)
    decreases fuel
  {
    if cursor != 0 && fuel > 0 {
      StoreAllTransparent(entries, network, urls, PageRequest(apiUrl, cursor, end));
      match Served(entries, network, apiUrl, cursor, end)
      case Decoded(Page(_, next)) =>
        PaginateAfterStoreAll(entries, network, urls, apiUrl, next, end, fuel - 1);
      case _ =>
    }
  }

  /**
   * Repeating a completed cycle over the store it left behind sends no
   * request, leaves the store as it is and yields the same data.
   */
  lemma RepeatServedFromCache(entries: map<PageRequest, Body>, network: Network<PageRequest>, apiUrl: string, start: int, end: int, fuel: nat)
    requires Paginate(entries, network, apiUrl, start, end, fuel).Complete?
    ensures var urls := Requests(apiUrl, Cursors(entries, network, apiUrl, start, end, fuel), end);
      var after := StoreAll(entries, network, urls);
      && Paginate(after, network, apiUrl, start, end, fuel) == Paginate(entries, network, apiUrl, start, end, fuel)
      && Cursors(after, network, apiUrl, start, end, fuel) == Cursors(entries, network, apiUrl, start, end, fuel)
      && Misses(after, network, urls) == []
      && StoreAll(after, network, urls) == after
  {
    var cs := Cursors(entries, network, apiUrl, start, end, fuel);
    var urls := Requests(apiUrl, cs, end);
    var after := StoreAll(entries, network, urls);
    CompleteFollowsChain(entries, network, apiUrl, start, end, fuel);
    PaginateAfterStoreAll(entries, network, urls, apiUrl, start, end, fuel);
    RequestsAt(apiUrl, cs, end);
    forall k | 0 <= k < |urls|
      ensures Hit(after, urls[k])
    {
      assert urls[k] == PageRequest(apiUrl, cs[k], end);
      assert ServesPage(entries, network, apiUrl, cs[k], end);
      StoreAllCaches(entries, network, urls, k);
    }
    MissesAllCached(after, network, urls);
  }

  /** After `mcache.clear()` a completed cycle sends exactly one request per page, in request order. */
  lemma ClearedCycleRequestsEveryPage(network: Network<PageRequest>, apiUrl: string, start: int, end: int, fuel: nat)
    requires Paginate(map[], network, apiUrl, start, end, fuel).Complete?
    ensures var urls := Requests(apiUrl, Cursors(map[], network, apiUrl, start, end, fuel), end);
      Misses(map[], network, urls) == urls
  {
    var cs := Cursors(map[], network, apiUrl, start, end, fuel);
    CompleteFollowsChain(map[], network, apiUrl, start, end, fuel);
    ChainDistinct(map[], network, apiUrl, end, start, cs);
    RequestsAt(apiUrl, cs, end);
    MissesAllUncached(map[], network, Requests(apiUrl, cs, end));
  }

  /**
   * The loop's bookkeeping: the whole cycle's outcome and cursors are what
   * was gathered so far followed by what the rest of the loop gives.
   */
  ghost predicate Progress(entries: map<PageRequest, Body>, network: Network<PageRequest>, apiUrl: string, end: int,
                           total: Outcome, allCursors: seq<int>, results: seq<Sample>, visited: seq<int>,
                           cursor: int, fuel: nat)
  {
    && total == Prepend(results, Paginate(entries, network, apiUrl, cursor, end, fuel))
    && allCursors == visited + Cursors(entries, network, apiUrl, cursor, end, fuel)
  }

  /** PrependTwice: accumulating two runs of results in turn is accumulating their concatenation. */
  lemma PrependTwice(done: seq<Sample>, rs: seq<Sample>, rest: Outcome)
    ensures Prepend(done, Prepend(rs, rest)) == Prepend(done + rs, rest)
  {
    if rest.Complete? {
      assert done + (rs + rest.results) == (done + rs) + rest.results;
    }
  }

  /** The loop after a page: its results join the accumulator and the cursor moves on. */
  lemma AdvanceOnPage(entries: map<PageRequest, Body>, network: Network<PageRequest>, apiUrl: string, end: int,
                      total: Outcome, allCursors: seq<int>, results: seq<Sample>, visited: seq<int>,
                      cursor: int, fuel: nat, rs: seq<Sample>, next: int)
    requires cursor != 0 && fuel > 0
    requires Progress(entries, network, apiUrl, end, total, allCursors, results, visited, cursor, fuel)
    requires Served(entries, network, apiUrl, cursor, end) == Decoded(Page(rs, next))
    ensures Progress(entries, network, apiUrl, end, total, allCursors, results + rs, visited + [cursor], next, fuel - 1)
  {
    var rest := Paginate(entries, network, apiUrl, next, end, fuel - 1);
    assert Paginate(entries, network, apiUrl, cursor, end, fuel) == Prepend(rs, rest);
    PrependTwice(results, rs, rest);
    var later := Cursors(entries, network, apiUrl, next, end, fuel - 1);
    assert Cursors(entries, network, apiUrl, cursor, end, fuel) == [cursor] + later;
    assert visited + ([cursor] + later) == (visited + [cursor]) + later;
  }

  /** The loop after a failed page: the cycle is aborted and that page was its last request. */
  lemma StopOnFailure(entries: map<PageRequest, Body>, network: Network<PageRequest>, apiUrl: string, end: int,
                      total: Outcome, allCursors: seq<int>, results: seq<Sample>, visited: seq<int>,
                      cursor: int, fuel: nat)
    requires cursor != 0 && fuel > 0
    requires Progress(entries, network, apiUrl, end, total, allCursors, results, visited, cursor, fuel)
    requires !ServesPage(entries, network, apiUrl, cursor, end)
    ensures Served(entries, network, apiUrl, cursor, end).Failed? ==>
      total == Aborted(FetchFailed(Served(entries, network, apiUrl, cursor, end).error))
    ensures Served(entries, network, apiUrl, cursor, end).Decoded? ==> total == Aborted(NotAPage)
    ensures allCursors == visited + [cursor]
  {
  }

  /** The loop after its guard fails: a falsy cursor completes the cycle, a spent budget leaves it pending. */
  lemma StopAtGuard(entries: map<PageRequest, Body>, network: Network<PageRequest>, apiUrl: string, end: int,
                    total: Outcome, allCursors: seq<int>, results: seq<Sample>, visited: seq<int>,
                    cursor: int, fuel: nat)
    requires cursor == 0 || fuel == 0
    requires Progress(entries, network, apiUrl, end, total, allCursors, results, visited, cursor, fuel)
    ensures cursor == 0 ==> total == Complete(results)
    ensures cursor != 0 ==> total == Pending
    ensures allCursors == visited
  {
    assert results + [] == results;
  }

  /** The store and request log after one more page fetch. */
  lemma FetchBookkeeping(entries: map<PageRequest, Body>, network: Network<PageRequest>, apiUrl: string, end: int,
                         visited: seq<int>, cursor: int)
    ensures Requests(apiUrl, visited + [cursor], end) == Requests(apiUrl, visited, end) + [PageRequest(apiUrl, cursor, end)]
    ensures Resolve(StoreAll(entries, network, Requests(apiUrl, visited, end)), network, PageRequest(apiUrl, cursor, end)) ==
      Served(entries, network, apiUrl, cursor, end)
  {
    assert (visited + [cursor])[..|visited|] == visited;
    StoreAllTransparent(entries, network, Requests(apiUrl, visited, end), PageRequest(apiUrl, cursor, end));
  }

  /** The state `useResponse` returns: `data`, `loading`, `error`. */
  class ResponseHook {
    const apiUrl: string
    var data: Option<seq<Sample>>
    var loading: bool
    var error: Option<CycleError>

    constructor (apiUrl: string)
      ensures this.apiUrl == apiUrl
      ensures data == None && !loading && error == None
    {
      this.apiUrl := apiUrl;
      data := None;
      loading := false;
      error := None;
    }

    /**
     * One run of the effect.  On success the data is the whole accumulated
     * list and the previous error is left as it was; on any failure the data
     * is cleared, never partial.  If the cursor is still truthy after
     * `maxPages` requests the source would still be looping: `loading` stays
     * set and the data is untouched.  `coin` plays no part.
     */
    method FetchAllData(fetcher: Fetcher<PageRequest>, coin: string, start: int, end: int, maxPages: nat)
      modifies this, fetcher
      ensures match Paginate(old(fetcher.entries), fetcher.network, apiUrl, start, end, maxPages)
        case Complete(rs) => data == Some(rs) && !loading && error == old(error)
        case Aborted(e) => data == None && !loading && error == Some(e)
        case Pending => data == old(data) && loading && error == old(error)
      ensures var urls := Requests(apiUrl, Cursors(old(fetcher.entries), fetcher.network, apiUrl, start, end, maxPages), end);
        && fetcher.entries == StoreAll(old(fetcher.entries), fetcher.network, urls)
        && fetcher.requests == old(fetcher.requests) + Misses(old(fetcher.entries), fetcher.network, urls)
    {
      loading := true;
      var outcome := CollectPages(fetcher, apiUrl, start, end, maxPages);
      match outcome
      case Complete(results) =>
        loading := false;
        data := Some(results);
      case Aborted(e) =>
        loading := false;
        error := Some(e);
        data := None;
      case Pending =>
    }
  }

  /**
   * One request of the loop: `fetcher` answers for the page at `cursor` as
   * the store it was given would, and the store and request log take one
   * more page into account.
   */
  method FetchPage(fetcher: Fetcher<PageRequest>, apiUrl: string, cursor: int, end: int,
                   ghost entries0: map<PageRequest, Body>, ghost requests0: seq<PageRequest>, ghost visited: seq<int>)
    returns (answer: Answer)
    modifies fetcher
    requires fetcher.Replayed(entries0, requests0, Requests(apiUrl, visited, end))
    ensures answer == Served(entries0, fetcher.network, apiUrl, cursor, end)
    ensures fetcher.Replayed(entries0, requests0, Requests(apiUrl, visited + [cursor], end))
  {
    var request := PageRequest(apiUrl, cursor, end);
    FetchBookkeeping(entries0, fetcher.network, apiUrl, end, visited, cursor);
    FetchOneMore(entries0, fetcher.network, Requests(apiUrl, visited, end), request);
    answer := fetcher.Fetch(request);
  }

  /**
   * The `while (startPoint)` loop of `fetchAllData`: request the page at the
   * cursor through `fetcher`, append its results, move to its
   * `nextStartTime`; any failure ends the loop and drops what was gathered.
   * The loop is cut off after `maxPages` requests.
   */
  method CollectPages(fetcher: Fetcher<PageRequest>, apiUrl: string, start: int, end: int, maxPages: nat) returns (outcome: Outcome)
    modifies fetcher
    ensures outcome == Paginate(old(fetcher.entries), fetcher.network, apiUrl, start, end, maxPages)
    ensures var urls := Requests(apiUrl, Cursors(old(fetcher.entries), fetcher.network, apiUrl, start, end, maxPages), end);
      && fetcher.entries == StoreAll(old(fetcher.entries), fetcher.network, urls)
      && fetcher.requests == old(fetcher.requests) + Misses(old(fetcher.entries), fetcher.network, urls)
  {
    ghost var entries0 := fetcher.entries;
    ghost var requests0 := fetcher.requests;
    ghost var network := fetcher.network;
    ghost var total := Paginate(entries0, network, apiUrl, start, end, maxPages);
    ghost var allCursors := Cursors(entries0, network, apiUrl, start, end, maxPages);
    ghost var visited: seq<int> := [];
    var results: seq<Sample> := [];
    var startPoint := start;
    var budget := maxPages;
    while startPoint != 0 && budget > 0
      invariant Progress(entries0, network, apiUrl, end, total, allCursors, results, visited, startPoint, budget)
      invariant fetcher.Replayed(entries0, requests0, Requests(apiUrl, visited, end))
      decreases budget
    {
      var answer := FetchPage(fetcher, apiUrl, startPoint, end, entries0, requests0, visited);
      if !(answer.Decoded? && answer.body.Page?) {
        StopOnFailure(entries0, network, apiUrl, end, total, allCursors, results, visited, startPoint, budget);
        visited := visited + [startPoint];
        return if answer.Failed? then Aborted(FetchFailed(answer.error)) else Aborted(NotAPage);
      }
      AdvanceOnPage(entries0, network, apiUrl, end, total, allCursors, results, visited, startPoint, budget, answer.body.results, answer.body.nextStartTime);
      visited := visited + [startPoint];
      budget := budget - 1;
      results := results + answer.body.results;
      startPoint := answer.body.nextStartTime;
    }
    StopAtGuard(entries0, network, apiUrl, end, total, allCursors, results, visited, startPoint, budget);
    outcome := if startPoint == 0 then Complete(results) else Pending;
  }
}
