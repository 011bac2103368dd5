/** The react-query wiring of the story and item queries: the page-parameter
    rule of the infinite story query, its `enabled` guard, and the pages it
    accumulates. Caching, stale times and refetching belong to the query
    library and are not modelled. The remote is one fixed `Api` value, so
    every page is fetched from the same category list and items. */
module StoryQueries {
  import opened Wrappers
  import opened Items
  import opened HackerNewsApi

  const InitialPageParam: int := 0

  /** `enabled: !!type`: the story query runs only for a non-empty type. */
  predicate InfiniteStoriesEnabled(storyType: string) {
    storyType != ""
  }

  /** `enabled: !!storyId`: the single-item query never runs for id 0. */
  predicate StoryEnabled(storyId: int) {
    storyId != 0
  }

  /** `GetStory(storyId)`: `None` when the query is disabled, otherwise the
      outcome of its fetch. */
  function RunGetStory(api: Api, storyId: int): (r: Option<Result<Option<Item>>>)
    ensures r.None? <==> storyId == 0
    ensures r.Some? ==> (r.value.Ok? <==> api.itemAt(storyId).Fetched?)
    ensures r.Some? && r.value.Ok? ==> r.value.value == api.itemAt(storyId).body
  {
    if StoryEnabled(storyId) then Some(GetStory(api, storyId)) else None
  }

  /** The query function: page `pageParam` of size `limit`. */
  function QueryFn(api: Api, storyType: string, limit: int, pageParam: int): Result<PageResult> {
    GetPaginatedStories(api, storyType, pageParam, limit)
  }

  /** `getNextPageParam`: the next page's number is the count of pages
      loaded so far, and there is none once a page reports no more. */
  function NextPageParam(lastPage: PageResult, allPages: seq<PageResult>): (p: Option<int>)
    ensures p.Some? <==> lastPage.hasMore
    ensures p.Some? ==> p.value == |allPages|
  {
    if lastPage.hasMore then Some(|allPages|) else None
  }

  /** The pages loaded so far, with the page parameter each was fetched
      with. */
  datatype InfiniteData = InfiniteData(pages: seq<PageResult>, pageParams: seq<int>)

  const NoData: InfiniteData := InfiniteData([], [])

  /** The parameter of the page the query would fetch next, if any. */
  function PendingPageParam(d: InfiniteData): Option<int> {
    if |d.pages| == 0 then Some(InitialPageParam)
    else NextPageParam(d.pages[|d.pages| - 1], d.pages)
  }

  /** react-query's `hasNextPage`. */
  predicate HasNextPage(d: InfiniteData) {
    |d.pages| > 0 && NextPageParam(d.pages[|d.pages| - 1], d.pages).Some?
  }

  datatype FetchOutcome = FetchOutcome(data: InfiniteData, error: Option<string>)

  /** One fetch of the infinite query: the initial page when nothing is
      loaded and the query is enabled, the next page when the last one has
      more, and nothing otherwise. A failed fetch keeps the loaded pages and
      reports the error. */
  function FetchNext(api: Api, storyType: string, limit: int, d: InfiniteData): (r: FetchOutcome)
    ensures |r.data.pages| == |d.pages| || |r.data.pages| == |d.pages| + 1
    ensures |r.data.pageParams| >= |d.pageParams|
    ensures r.data.pages[..|d.pages|] == d.pages && r.data.pageParams[..|d.pageParams|] == d.pageParams
    ensures |r.data.pages| == |d.pages| + 1 ==>
      && (|d.pages| > 0 || InfiniteStoriesEnabled(storyType))
      && PendingPageParam(d).Some?
      && r.data.pageParams == d.pageParams + [PendingPageParam(d).value]
      && QueryFn(api, storyType, limit, PendingPageParam(d).value) == Ok(r.data.pages[|d.pages|])
    ensures |d.pages| > 0 && !HasNextPage(d) ==> r == FetchOutcome(d, None)
    ensures |d.pages| == 0 && !InfiniteStoriesEnabled(storyType) ==> r == FetchOutcome(d, None)
    ensures (|d.pages| > 0 || InfiniteStoriesEnabled(storyType)) && PendingPageParam(d).Some? ==>
      var outcome := QueryFn(api, storyType, limit, PendingPageParam(d).value);
      && (outcome.Ok? ==> |r.data.pages| == |d.pages| + 1 && r.error.None?)
      && (outcome.Err? ==> r == FetchOutcome(d, Some(outcome.message)))
  {
    if |d.pages| == 0 && !InfiniteStoriesEnabled(storyType) then FetchOutcome(d, None)
    else
      match PendingPageParam(d)
      case None => FetchOutcome(d, None)
      case Some(p) =>
        match QueryFn(api, storyType, limit, p)
        case Err(m) => FetchOutcome(d, Some(m))
        case Ok(page) => FetchOutcome(InfiniteData(d.pages + [page], d.pageParams + [p]), None)
  }

  /** Every loaded page `i` was fetched with parameter `i` and is what the
      remote returns for page `i`. */
  predicate Consistent(api: Api, storyType: string, limit: int, d: InfiniteData) {
    && |d.pages| == |d.pageParams|
    && forall i | 0 <= i < |d.pages| ::
         d.pageParams[i] == i && QueryFn(api, storyType, limit, i) == Ok(d.pages[i])
  }

  /** Fetching asks for page number `|pages|` every time: the first page is
      0 and each next one follows the last, so page parameters run
      0, 1, 2, ... with no gap. */
  lemma FetchNextKeepsConsistent(api: Api, storyType: string, limit: int, d: InfiniteData)
    requires Consistent(api, storyType, limit, d)
    ensures Consistent(api, storyType, limit, FetchNext(api, storyType, limit, d).data)
  {
    var r := FetchNext(api, storyType, limit, d).data;
    if |r.pages| == |d.pages| + 1 {
      assert PendingPageParam(d).value == |d.pages|;
      assert QueryFn(api, storyType, limit, |d.pages|) == Ok(r.pages[|d.pages|]);
      forall i | 0 <= i < |r.pages|
        ensures r.pageParams[i] == i && QueryFn(api, storyType, limit, i) == Ok(r.pages[i])
      {
        if i < |d.pages| {
          assert r.pages[i] == r.pages[..|d.pages|][i];
          assert r.pageParams[i] == r.pageParams[..|d.pageParams|][i];
        }
      }
    } else {
      assert r.pages == r.pages[..|d.pages|];
      assert r.pageParams == r.pageParams[..|d.pageParams|];
    }
  }

  /** `n` successive fetches starting with no data. Whatever each fetch
      did, page `i` is the remote's page `i`. */
  function Drive(api: Api, storyType: string, limit: int, n: nat): (d: InfiniteData)
    ensures Consistent(api, storyType, limit, d)
    decreases n
  {
    if n == 0 then NoData
    else
      var prev := Drive(api, storyType, limit, n - 1);
      FetchNextKeepsConsistent(api, storyType, limit, prev);
      FetchNext(api, storyType, limit, prev).data
  }

  /** The stories of all loaded pages, page after page. */
  function Flatten(pages: seq<PageResult>): seq<Item>
    decreases |pages|
  {
    if |pages| == 0 then [] else Flatten(pages[..|pages| - 1]) + pages[|pages| - 1].stories
  }

  /** The loaded stories are exactly the items of the first
      `|pages| * limit` ids of the category (deleted ones dropped), in list
      order: pages are contiguous, never overlap and never skip. */
  lemma {:induction false} LoadedStoriesArePrefix(api: Api, storyType: string, limit: nat, d: InfiniteData)
    requires Consistent(api, storyType, limit, d)
    requires |d.pages| > 0
    ensures CategoryIds(api, storyType).Some?
    ensures var ids := CategoryIds(api, storyType).value;
      GetStories(api, ids[..Reach(|d.pages|, limit, |ids|)]) == Ok(Flatten(d.pages))
    decreases |d.pages|
  {
    var k := |d.pages| - 1;
    assert QueryFn(api, storyType, limit, k) == Ok(d.pages[k]);
    var ids := CategoryIds(api, storyType).value;
    var before := InfiniteData(d.pages[..k], d.pageParams[..k]);
    // The stories of the pages before page k come from the ids before its window.
    if k == 0 {
      assert ids[..Reach(k, limit, |ids|)] == [];
      assert FetchAll(api, []) == Ok([]);
      assert before.pages == [];
      assert GetStories(api, ids[..Reach(k, limit, |ids|)]) == Ok(Flatten(before.pages));
    } else {
      assert Consistent(api, storyType, limit, before) by {
        forall i | 0 <= i < k
          ensures before.pageParams[i] == i && QueryFn(api, storyType, limit, i) == Ok(before.pages[i])
        {
          assert before.pages[i] == d.pages[i];
        }
      }
      LoadedStoriesArePrefix(api, storyType, limit, before);
    }
    PaginatedPageIsWindow(api, storyType, k, limit, d.pages[k]);
    NextWindowExtends(api, ids, limit, k, Flatten(before.pages), d.pages[k].stories);
    assert d.pages[..k] == before.pages;
    assert Flatten(d.pages) == Flatten(before.pages) + d.pages[k].stories;
  }

  /** While the query reports a next page, the loaded pages have not
      reached the end of the list. */
  lemma HasNextPageMeansMoreIds(api: Api, storyType: string, limit: nat, d: InfiniteData)
    requires Consistent(api, storyType, limit, d)
    requires |d.pages| > 0
    ensures CategoryIds(api, storyType).Some?
    ensures var ids := CategoryIds(api, storyType).value;
      HasNextPage(d) <==> Reach(|d.pages|, limit, |ids|) < |ids|
  {
    var k := |d.pages| - 1;
    assert QueryFn(api, storyType, limit, k) == Ok(d.pages[k]);
    PaginatedPageIsWindow(api, storyType, k, limit, d.pages[k]);
  }

  /** Once the last page reports no more, the loaded stories cover the
      whole category list. */
  lemma ExhaustedQueryCoversList(api: Api, storyType: string, limit: nat, d: InfiniteData)
    requires Consistent(api, storyType, limit, d)
    requires |d.pages| > 0 && !HasNextPage(d)
    ensures CategoryIds(api, storyType).Some?
    ensures GetStories(api, CategoryIds(api, storyType).value) == Ok(Flatten(d.pages))
  {
    LoadedStoriesArePrefix(api, storyType, limit, d);
    HasNextPageMeansMoreIds(api, storyType, limit, d);
    var ids := CategoryIds(api, storyType).value;
    assert ids[..Reach(|d.pages|, limit, |ids|)] == ids;
  }
}
