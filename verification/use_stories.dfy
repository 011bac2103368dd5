/** The hand-written story-list hook: a small state machine over the loaded
    stories, the loading flag, the last error, whether more pages exist and
    the number of the last page requested. Each asynchronous load is
    modelled as its two halves (start, settle) and as their composition;
    a load settles before the next one starts, so overlapping loads are not
    modelled. */
module UseStories {
  import opened Wrappers
  import opened Items
  import opened HackerNewsApi

  datatype State = State(
    stories: seq<Item>,
    loading: bool,
    error: Option<string>,
    hasMore: bool,
    currentPage: int)

  /** The hook's state before anything has run. */
  const Initial: State := State([], false, None, true, 0)

  /** The effect that runs whenever the story type changes. */
  function ResetForType(s: State): (r: State)
    ensures r.stories == [] && r.currentPage == 0 && r.hasMore && r.error.None?
    ensures r.loading == s.loading
  {
    s.(stories := [], currentPage := 0, hasMore := true, error := None)
  }

  /** The synchronous start of `loadStories`. */
  function BeginLoad(s: State): (r: State)
    ensures r.loading && r.error.None?
    ensures r.stories == s.stories && r.hasMore == s.hasMore && r.currentPage == s.currentPage
  {
    s.(loading := true, error := None)
  }

  /** The end of `loadStories(page, append)` once the request settled. */
  function Settle(s: State, page: int, append: bool, outcome: Result<PageResult>): (r: State)
    ensures !r.loading
    ensures outcome.Ok? ==>
      && r.stories == (if append then s.stories + outcome.value.stories else outcome.value.stories)
      && r.hasMore == outcome.value.hasMore
      && r.currentPage == page
      && r.error == s.error
    ensures outcome.Err? ==>
      && r.error == Some(outcome.message)
      && r.stories == s.stories && r.hasMore == s.hasMore && r.currentPage == s.currentPage
  {
    match outcome
    case Ok(result) =>
      var stories := if append then s.stories + result.stories else result.stories;
      s.(stories := stories, hasMore := result.hasMore, currentPage := page, loading := false)
    case Err(m) => s.(error := Some(m), loading := false)
  }

  /** `loadStories(page, append)` from start to settlement. */
  function LoadStories(api: Api, storyType: string, pageSize: int, s: State, page: int, append: bool): (r: State)
    ensures !r.loading
    ensures GetPaginatedStories(api, storyType, page, pageSize).Ok? ==> r.error.None? && r.currentPage == page
    ensures GetPaginatedStories(api, storyType, page, pageSize).Err? ==>
      && r.error == Some(GetPaginatedStories(api, storyType, page, pageSize).message)
      && r.stories == s.stories && r.hasMore == s.hasMore && r.currentPage == s.currentPage
  {
    Settle(BeginLoad(s), page, append, GetPaginatedStories(api, storyType, page, pageSize))
  }

  /** The page `loadMore` asks for, when it asks at all. */
  function LoadMoreRequest(s: State): (p: Option<int>)
    ensures p.Some? <==> !s.loading && s.hasMore
    ensures p.Some? ==> p.value == s.currentPage + 1
  {
    if !s.loading && s.hasMore then Some(s.currentPage + 1) else None
  }

  /** `loadMore`: append the page after the current one, unless a load is
      running or there is nothing more. */
  function LoadMore(api: Api, storyType: string, pageSize: int, s: State): (r: State)
    ensures s.loading || !s.hasMore ==> r == s
    ensures !s.loading && s.hasMore ==> r == LoadStories(api, storyType, pageSize, s, s.currentPage + 1, true)
  {
    match LoadMoreRequest(s)
    case None => s
    case Some(page) => LoadStories(api, storyType, pageSize, s, page, true)
  }

  /** `refresh`: clear the list, rewind, and load page 0 in replace mode. */
  function Refresh(api: Api, storyType: string, pageSize: int, s: State): (r: State)
    ensures FirstLoaded(api, storyType, pageSize, r)
  {
    LoadStories(api, storyType, pageSize, s.(stories := [], currentPage := 0, hasMore := true), 0, false)
  }

  /** Mounting the hook, or switching to another story type: the reset
      effect followed by the initial `loadStories(0, false)`. */
  function ChangeType(api: Api, storyType: string, pageSize: int, s: State): (r: State)
    ensures FirstLoaded(api, storyType, pageSize, r)
  {
    LoadStories(api, storyType, pageSize, ResetForType(s), 0, false)
  }

  /** The state after loading page 0 from scratch has settled: on success
      it holds exactly that page, on failure an empty list with the error,
      and either way page 0 is current and nothing is loading. */
  predicate FirstLoaded(api: Api, storyType: string, pageSize: int, r: State) {
    var outcome := GetPaginatedStories(api, storyType, 0, pageSize);
    && !r.loading
    && r.currentPage == 0
    && (outcome.Ok? ==>
          r.stories == outcome.value.stories && r.hasMore == outcome.value.hasMore && r.error.None?)
    && (outcome.Err? ==> r.stories == [] && r.hasMore && r.error == Some(outcome.message))
  }

  /** `refresh` and a change of story type leave the hook in the same
      state. */
  lemma RefreshIsChangeType(api: Api, storyType: string, pageSize: int, s: State)
    ensures Refresh(api, storyType, pageSize, s) == ChangeType(api, storyType, pageSize, s)
  {
  }

  /** Mounting the hook: the reset effect finds the initial state already
      reset, so only the first load has any effect. */
  function Mount(api: Api, storyType: string, pageSize: int): (r: State)
    ensures r == LoadStories(api, storyType, pageSize, Initial, 0, false)
    ensures FirstLoaded(api, storyType, pageSize, r)
  {
    ChangeType(api, storyType, pageSize, Initial)
  }

  /** The state shows pages `0 .. currentPage` of the category: its stories
      are the items of the first `(currentPage + 1) * pageSize` ids, and
      `hasMore` says whether the list goes on. */
  predicate Tracks(api: Api, storyType: string, pageSize: nat, s: State) {
    && CategoryIds(api, storyType).Some?
    && ShowsPrefix(api, CategoryIds(api, storyType).value, pageSize, s)
  }

  /** The state shows pages `0 .. currentPage` of the list `ids`. */
  predicate ShowsPrefix(api: Api, ids: seq<int>, pageSize: nat, s: State) {
    && s.currentPage >= 0
    && GetStories(api, ids[..Reach(s.currentPage + 1, pageSize, |ids|)]) == Ok(s.stories)
    && (s.hasMore <==> Reach(s.currentPage + 1, pageSize, |ids|) < |ids|)
  }

  /** A successful refresh or type change shows page 0. */
  lemma FirstLoadTracks(api: Api, storyType: string, pageSize: nat, s: State)
    requires GetPaginatedStories(api, storyType, 0, pageSize).Ok?
    ensures Tracks(api, storyType, pageSize, Refresh(api, storyType, pageSize, s))
    ensures Tracks(api, storyType, pageSize, ChangeType(api, storyType, pageSize, s))
    ensures Refresh(api, storyType, pageSize, s).stories == GetPaginatedStories(api, storyType, 0, pageSize).value.stories
  {
    PaginatedPageIsWindow(api, storyType, 0, pageSize, GetPaginatedStories(api, storyType, 0, pageSize).value);
    var ids := CategoryIds(api, storyType).value;
    assert Reach(0, pageSize, |ids|) == 0;
  }

  /** `loadMore` keeps the list contiguous: a successful call appends
      exactly the next page, a failed or refused one changes no story. */
  lemma LoadMoreKeepsTracking(api: Api, storyType: string, pageSize: nat, s: State)
    requires Tracks(api, storyType, pageSize, s)
    ensures Tracks(api, storyType, pageSize, LoadMore(api, storyType, pageSize, s))
  {
    if LoadMoreRequest(s).Some? {
      var page: nat := s.currentPage + 1;
      var outcome := GetPaginatedStories(api, storyType, page, pageSize);
      var r := LoadMore(api, storyType, pageSize, s);
      assert r == Settle(BeginLoad(s), page, true, outcome);
      if outcome.Ok? {
        var ids := CategoryIds(api, storyType).value;
        PaginatedPageIsWindow(api, storyType, page, pageSize, outcome.value);
        AppendNextPageTracks(api, ids, pageSize, s, outcome.value.stories, outcome.value.hasMore, r);
      } else {
        assert r.stories == s.stories && r.hasMore == s.hasMore && r.currentPage == s.currentPage;
      }
    }
  }

  /** Appending the window of page `currentPage + 1` to a state that
      shows pages `0 .. currentPage` gives one that shows one page more. */
  lemma AppendNextPageTracks(api: Api, ids: seq<int>, pageSize: nat, s: State,
                             stories: seq<Item>, hasMore: bool, r: State)
    requires ShowsPrefix(api, ids, pageSize, s)
    requires GetStories(api, Window(ids, s.currentPage + 1, pageSize)) == Ok(stories)
    requires hasMore <==> Reach(s.currentPage + 2, pageSize, |ids|) < |ids|
    requires r.stories == s.stories + stories
    requires r.hasMore == hasMore && r.currentPage == s.currentPage + 1
    ensures ShowsPrefix(api, ids, pageSize, r)
  {
    var next: nat := s.currentPage + 1;
    var hi := Reach(next + 1, pageSize, |ids|);
    assert hi == Reach(r.currentPage + 1, pageSize, |ids|);
    NextWindowExtends(api, ids, pageSize, next, s.stories, stories);
    assert GetStories(api, ids[..hi]) == Ok(r.stories);
  }

  /** As written, a failed first load leaves page 0 recorded as current, so
      the next `loadMore` asks for page 1: page 0 is never shown. */
  lemma FailedRefreshThenLoadMoreSkipsFirstPage(api: Api, storyType: string, pageSize: int, s: State)
    requires GetPaginatedStories(api, storyType, 0, pageSize).Err?
    ensures var r := Refresh(api, storyType, pageSize, s);
      r.stories == [] && r.error.Some? && LoadMoreRequest(r) == Some(1)
  {
  }
}
