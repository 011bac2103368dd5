/** The state the story list renders, derived from the route's category and
    the infinite story query (the `useStoryList` hook). The query's status
    flags come from the query library and are inputs here. */
module StoryListView {
  import opened Wrappers
  import opened Items
  import opened HackerNewsApi
  import opened StoryQueries
  import LoginSlice

  /** The page size the list passes to the infinite story query. */
  const ListPageSize: nat := 30

  /** `type || 'top'`: the route's category, or "top" when it has none. */
  function CurrentType(routeType: Option<string>): (t: string)
    ensures t != ""
    ensures routeType.Some? && routeType.value != "" ==> t == routeType.value
    ensures routeType.None? || routeType.value == "" ==> t == DefaultStoryType
  {
    if routeType.Some? && routeType.value != "" then routeType.value else DefaultStoryType
  }

  /** The list's query is never disabled: the category it is given is never
      empty, and it is the route's when the route names one. */
  lemma CurrentTypeEnablesQuery(routeType: Option<string>)
    ensures InfiniteStoriesEnabled(CurrentType(routeType))
    ensures routeType.Some? && routeType.value != "" ==> CurrentType(routeType) == routeType.value
    ensures routeType.None? ==> CurrentType(routeType) == DefaultStoryType
  {
  }

  /** What the query library reports about the infinite story query. */
  datatype QueryState = QueryState(
    data: Option<InfiniteData>,
    isLoading: bool,
    isFetchingNextPage: bool,
    error: Option<string>)

  predicate QueryHasNextPage(q: QueryState) {
    q.data.Some? && HasNextPage(q.data.value)
  }

  datatype View = View(
    stories: seq<Item>,
    currentType: string,
    loading: bool,
    error: Option<string>,
    hasMore: bool,
    currentPage: nat)

  /** The hook's result. */
  function Derive(routeType: Option<string>, q: QueryState): (v: View)
    ensures q.data.None? ==> v.stories == [] && v.currentPage == 0
    ensures v.loading <==> q.isLoading || q.isFetchingNextPage
    ensures v.hasMore <==> QueryHasNextPage(q)
    ensures v.error == q.error && v.currentType == CurrentType(routeType)
  {
    var pages := if q.data.Some? then q.data.value.pages else [];
    View(Flatten(pages), CurrentType(routeType), q.isLoading || q.isFetchingNextPage,
         q.error, QueryHasNextPage(q), |pages|)
  }

  /** `loadMore` asks for the next page only when none is being fetched and
      one exists. */
  predicate LoadMoreFetches(q: QueryState) {
    !q.isFetchingNextPage && QueryHasNextPage(q)
  }

  /** `loadMore`, followed by the settlement of the fetch it starts. */
  function LoadMore(api: Api, routeType: Option<string>, q: QueryState): (r: QueryState)
    ensures !LoadMoreFetches(q) ==> r == q
    ensures LoadMoreFetches(q) ==> r.data.Some? && !r.isFetchingNextPage
    ensures LoadMoreFetches(q) ==>
      var o := FetchNext(api, CurrentType(routeType), ListPageSize, q.data.value);
      r.data == Some(o.data) && r.error == o.error
  {
    if LoadMoreFetches(q) then
      var outcome := FetchNext(api, CurrentType(routeType), ListPageSize, q.data.value);
      q.(data := Some(outcome.data), isFetchingNextPage := false, error := outcome.error)
    else q
  }

  /** The rendered list shows the first `currentPage` pages of the route's
      category, i.e. the items of its first `currentPage * 30` ids in list
      order, and `hasMore` says whether the list goes on. */
  lemma ViewShowsLoadedPrefix(api: Api, routeType: Option<string>, q: QueryState)
    requires q.data.Some? && |q.data.value.pages| > 0
    requires Consistent(api, CurrentType(routeType), ListPageSize, q.data.value)
    ensures CategoryIds(api, CurrentType(routeType)).Some?
    ensures var v := Derive(routeType, q);
      var ids := CategoryIds(api, CurrentType(routeType)).value;
      && v.currentPage == |q.data.value.pages|
      && GetStories(api, ids[..Reach(v.currentPage, ListPageSize, |ids|)]) == Ok(v.stories)
      && (v.hasMore <==> Reach(v.currentPage, ListPageSize, |ids|) < |ids|)
  {
    LoadedStoriesArePrefix(api, CurrentType(routeType), ListPageSize, q.data.value);
    HasNextPageMeansMoreIds(api, CurrentType(routeType), ListPageSize, q.data.value);
  }

  /** `loadMore` fetches the page after the loaded ones: when the remote
      serves it, exactly one page is added and the rendered page count goes
      up by one; when the remote fails, its message is shown and the pages
      are kept. Either way the pages stay consistent with the remote. */
  lemma LoadMoreAddsOnePage(api: Api, routeType: Option<string>, q: QueryState)
    requires q.data.Some? && Consistent(api, CurrentType(routeType), ListPageSize, q.data.value)
    requires LoadMoreFetches(q)
    ensures var r := LoadMore(api, routeType, q);
      && Consistent(api, CurrentType(routeType), ListPageSize, r.data.value)
      && (r.error.None? ==> Derive(routeType, r).currentPage == Derive(routeType, q).currentPage + 1)
      && (r.error.Some? ==> r.data == q.data)
    ensures var r := LoadMore(api, routeType, q);
      var served := QueryFn(api, CurrentType(routeType), ListPageSize, |q.data.value.pages|);
      && (served.Ok? ==>
            r.error.None? && Derive(routeType, r).currentPage == Derive(routeType, q).currentPage + 1)
      && (served.Err? ==> r.error == Some(served.message) && r.data == q.data)
  {
    var d := q.data.value;
    FetchNextKeepsConsistent(api, CurrentType(routeType), ListPageSize, d);
    assert PendingPageParam(d) == Some(|d.pages|);
  }

  /** `handleLoginClick(message)` opens the login modal with that message. */
  function HandleLoginClick(s: LoginSlice.LoginState, message: string): (r: LoginSlice.LoginState)
    ensures r.isLoginModalOpen && r.user == s.user
    ensures r.loginMessage == (if message == "" then None else Some(message))
  {
    LoginSlice.OpenLoginModal(s, Some(message))
  }
}
