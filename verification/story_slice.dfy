/** The story slice of the Redux store: a cached list of stories per
    category, the current category, and the loading, error, has-more and
    page fields shared by all categories. */
module StorySlice {
  import opened Wrappers
  import opened Items

  /** `Record<StoryType, Story[]>`: one list per category. */
  datatype Catalog = Catalog(
    topList: seq<Item>,
    newList: seq<Item>,
    askList: seq<Item>,
    showList: seq<Item>,
    jobsList: seq<Item>)
  {
    function Get(t: StoryType): seq<Item> {
      match t
      case Top => topList
      case New => newList
      case Ask => askList
      case Show => showList
      case Jobs => jobsList
    }

    /** The catalog with category `t`'s list replaced. */
    function Set(t: StoryType, list: seq<Item>): (c: Catalog)
      ensures c.Get(t) == list
      ensures forall u: StoryType | u != t :: c.Get(u) == Get(u)
    {
      match t
      case Top => this.(topList := list)
      case New => this.(newList := list)
      case Ask => this.(askList := list)
      case Show => this.(showList := list)
      case Jobs => this.(jobsList := list)
    }
  }

  const EmptyCatalog: Catalog := Catalog([], [], [], [], [])

  datatype StoryState = StoryState(
    storiesByType: Catalog,
    currentType: StoryType,
    loading: bool,
    error: Option<string>,
    hasMore: bool,
    currentPage: int)

  const InitialStoryState: StoryState := StoryState(EmptyCatalog, Top, false, None, true, 0)

  /** No category has any story. */
  predicate AllEmpty(c: Catalog) {
    forall t: StoryType :: c.Get(t) == []
  }

  /** The fields that are not the catalog agree. */
  predicate SameScalars(a: StoryState, b: StoryState) {
    && a.currentType == b.currentType
    && a.loading == b.loading
    && a.error == b.error
    && a.hasMore == b.hasMore
    && a.currentPage == b.currentPage
  }

  /** `setStoriesForType({type, stories, append})`. */
  function SetStoriesForType(s: StoryState, t: StoryType, stories: seq<Item>, append: bool): (r: StoryState)
    ensures r.storiesByType.Get(t) == (if append then s.storiesByType.Get(t) + stories else stories)
    ensures forall u: StoryType | u != t :: r.storiesByType.Get(u) == s.storiesByType.Get(u)
    ensures SameScalars(r, s)
  {
    var list := if append then s.storiesByType.Get(t) + stories else stories;
    s.(storiesByType := s.storiesByType.Set(t, list))
  }

  function SetStoryType(s: StoryState, t: StoryType): (r: StoryState)
    ensures r.currentType == t
    ensures r.storiesByType == s.storiesByType && r.loading == s.loading && r.error == s.error
    ensures r.hasMore == s.hasMore && r.currentPage == s.currentPage
  {
    s.(currentType := t)
  }

  function SetLoading(s: StoryState, loading: bool): (r: StoryState)
    ensures r.loading == loading
    ensures r.storiesByType == s.storiesByType && r.currentType == s.currentType && r.error == s.error
    ensures r.hasMore == s.hasMore && r.currentPage == s.currentPage
  {
    s.(loading := loading)
  }

  function SetError(s: StoryState, error: Option<string>): (r: StoryState)
    ensures r.error == error
    ensures r.storiesByType == s.storiesByType && r.currentType == s.currentType && r.loading == s.loading
    ensures r.hasMore == s.hasMore && r.currentPage == s.currentPage
  {
    s.(error := error)
  }

  function SetHasMore(s: StoryState, hasMore: bool): (r: StoryState)
    ensures r.hasMore == hasMore
    ensures r.storiesByType == s.storiesByType && r.currentType == s.currentType && r.loading == s.loading
    ensures r.error == s.error && r.currentPage == s.currentPage
  {
    s.(hasMore := hasMore)
  }

  function SetCurrentPage(s: StoryState, page: int): (r: StoryState)
    ensures r.currentPage == page
    ensures r.storiesByType == s.storiesByType && r.currentType == s.currentType && r.loading == s.loading
    ensures r.error == s.error && r.hasMore == s.hasMore
  {
    s.(currentPage := page)
  }

  /** `resetStoriesForType(type)`: empties that category's list and resets
      the shared paging fields; the other lists, the current category and
      the loading flag are untouched. */
  function ResetStoriesForType(s: StoryState, t: StoryType): (r: StoryState)
    ensures r.storiesByType.Get(t) == []
    ensures forall u: StoryType | u != t :: r.storiesByType.Get(u) == s.storiesByType.Get(u)
    ensures r.currentPage == 0 && r.hasMore && r.error.None?
    ensures r.currentType == s.currentType && r.loading == s.loading
  {
    s.(storiesByType := s.storiesByType.Set(t, []), currentPage := 0, hasMore := true, error := None)
  }

  /** `clearAllStories`: every list emptied, paging fields reset. */
  function ClearAllStories(s: StoryState): (r: StoryState)
    ensures AllEmpty(r.storiesByType)
    ensures r.currentPage == 0 && r.hasMore && r.error.None?
    ensures r.currentType == s.currentType && r.loading == s.loading
  {
    s.(storiesByType := EmptyCatalog, currentPage := 0, hasMore := true, error := None)
  }

  lemma InitialStateIsEmpty()
    ensures AllEmpty(InitialStoryState.storiesByType)
    ensures InitialStoryState.currentType == Top && !InitialStoryState.loading
    ensures InitialStoryState.error.None? && InitialStoryState.hasMore && InitialStoryState.currentPage == 0
  {
  }

  lemma ClearAllStoriesIdempotent(s: StoryState)
    ensures ClearAllStories(ClearAllStories(s)) == ClearAllStories(s)
  {
  }

  /** Clearing everything is resetting every category in turn. */
  lemma ClearAllIsResetOfEveryType(s: StoryState)
    ensures ClearAllStories(s) ==
      ResetStoriesForType(ResetStoriesForType(ResetStoriesForType(
        ResetStoriesForType(ResetStoriesForType(s, Top), New), Ask), Show), Jobs)
  {
    var r := ResetStoriesForType(ResetStoriesForType(ResetStoriesForType(
        ResetStoriesForType(ResetStoriesForType(s, Top), New), Ask), Show), Jobs);
    assert r.storiesByType.Get(Top) == [] && r.storiesByType.Get(New) == [];
    assert r.storiesByType.Get(Ask) == [] && r.storiesByType.Get(Show) == [];
    assert r.storiesByType.Get(Jobs) == [];
  }

  /** Appending two batches in turn is appending them together, and a
      replace discards whatever the category held. */
  lemma SetStoriesForTypeComposes(s: StoryState, t: StoryType, a: seq<Item>, b: seq<Item>)
    ensures SetStoriesForType(SetStoriesForType(s, t, a, true), t, b, true) == SetStoriesForType(s, t, a + b, true)
    ensures SetStoriesForType(SetStoriesForType(s, t, a, true), t, b, false) == SetStoriesForType(s, t, b, false)
  {
    var prior := s.storiesByType.Get(t);
    assert prior + a + b == prior + (a + b);
    var c := s.storiesByType;
    assert c.Set(t, prior + a).Set(t, prior + a + b) == c.Set(t, prior + (a + b)) by {
      CatalogSetTwice(c, t, prior + a, prior + a + b);
    }
    CatalogSetTwice(c, t, prior + a, b);
  }

  lemma CatalogSetTwice(c: Catalog, t: StoryType, first: seq<Item>, second: seq<Item>)
    ensures c.Set(t, first).Set(t, second) == c.Set(t, second)
  {
  }
}
