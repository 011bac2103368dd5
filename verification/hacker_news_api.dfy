/** The client's service layer: fetching a category's id list, single items,
    batches of items, one page of a category, and the direct comments of a
    story. The network is replaced by an abstract `Api` value; a rejected
    promise is an `Err` carrying the `Error`'s message. */
module HackerNewsApi {
  import opened Wrappers
  import opened Text
  import opened Items

  /** What one HTTP GET yields: the parsed JSON body, or a failure whose
      text is the HTTP client's error message. */
  datatype Fetch<+T> = Failed(reason: string) | Fetched(body: T)

  /** The remote API. Category lists are looked up by request path, so the
      path the client builds is part of the model; a list body may be JSON
      `null`. Items are looked up by id; a `null` item is a deleted one. */
  datatype Api = Api(
    listAt: string -> Fetch<Option<seq<int>>>,
    itemAt: int -> Fetch<Option<Item>>)

  function Min(a: int, b: int): int {
    if a <= b then a else b
  }

  // ---------------------------------------------------------------------------
  // Category id lists
  // ---------------------------------------------------------------------------

  /** The request path for a category's id list. */
  function ListPath(storyType: string): string {
    "/" + storyType + "stories.json"
  }

  /** Distinct category names give distinct paths. */
  lemma ListPathInjective(a: string, b: string)
    ensures ListPath(a) == ListPath(b) <==> a == b
  {
    if ListPath(a) == ListPath(b) {
      assert a == ListPath(a)[1..|ListPath(a)| - 12];
      assert b == ListPath(b)[1..|ListPath(b)| - 12];
    }
  }

  /** The jobs category is requested at "/jobsstories.json", not at the
      "/jobstories.json" endpoint the public API (and the test mock) serve. */
  lemma JobsListPath()
    ensures ListPath(TypeName(Jobs)) == "/jobsstories.json"
    ensures ListPath(TypeName(Jobs)) != "/jobstories.json"
  {
  }

  const StoriesFailurePrefix: string := "Failed to fetch stories: "

  /** The id list of a category; a transport failure becomes an error
      prefixed "Failed to fetch stories: ". */
  function GetStoriesByType(api: Api, storyType: string): (r: Result<Option<seq<int>>>)
    ensures r.Ok? <==> api.listAt(ListPath(storyType)).Fetched?
    ensures r.Ok? ==> r.value == api.listAt(ListPath(storyType)).body
    ensures r.Err? ==> r.message == StoriesFailurePrefix + api.listAt(ListPath(storyType)).reason
  {
    match api.listAt(ListPath(storyType))
    case Failed(reason) => Err(StoriesFailurePrefix + reason)
    case Fetched(body) => Ok(body)
  }

  // ---------------------------------------------------------------------------
  // Items and batches of items
  // ---------------------------------------------------------------------------

  function StoryFailureMessage(id: int, reason: string): string {
    "Failed to fetch story " + IntToString(id) + ": " + reason
  }

  /** One item by id; `Ok(None)` is a deleted item. */
  function GetStory(api: Api, id: int): (r: Result<Option<Item>>)
    ensures r.Ok? <==> api.itemAt(id).Fetched?
    ensures r.Ok? ==> r.value == api.itemAt(id).body
    ensures r.Err? ==> r.message == StoryFailureMessage(id, api.itemAt(id).reason)
  {
    match api.itemAt(id)
    case Failed(reason) => Err(StoryFailureMessage(id, reason))
    case Fetched(body) => Ok(body)
  }

  predicate AllFetched(api: Api, ids: seq<int>) {
    forall k | 0 <= k < |ids| :: api.itemAt(ids[k]).Fetched?
  }

  /** The bodies of the items `ids` names, in order. */
  function LookedUp(api: Api, ids: seq<int>): (xs: seq<Option<Item>>)
    requires AllFetched(api, ids)
    ensures |xs| == |ids|
  {
    seq(|ids|, k requires 0 <= k < |ids| => api.itemAt(ids[k]).body)
  }

  /** Index of the first id whose lookup fails, or `|ids|` when none does. */
  function FirstFailure(api: Api, ids: seq<int>): (k: nat)
    ensures k <= |ids|
    ensures forall j | 0 <= j < k :: api.itemAt(ids[j]).Fetched?
    ensures k < |ids| ==> api.itemAt(ids[k]).Failed?
    decreases |ids|
  {
    if |ids| == 0 then 0
    else if api.itemAt(ids[0]).Failed? then 0
    else 1 + FirstFailure(api, ids[1..])
  }

  /** `Promise.all(ids.map(getStory))`, run in index order: every lookup
      must succeed, and otherwise the batch rejects with the message of the
      first failing lookup. */
  function FetchAll(api: Api, ids: seq<int>): (r: Result<seq<Option<Item>>>)
    ensures r.Ok? <==> AllFetched(api, ids)
    ensures r.Ok? ==> r.value == LookedUp(api, ids)
    ensures r.Err? ==>
      var k := FirstFailure(api, ids);
      k < |ids| && r.message == StoryFailureMessage(ids[k], api.itemAt(ids[k]).reason)
    decreases |ids|
  {
    if |ids| == 0 then Ok([])
    else
      match GetStory(api, ids[0])
      case Err(m) => Err(m)
      case Ok(x) =>
        match FetchAll(api, ids[1..])
        case Err(m) => Err(m)
        case Ok(xs) => Ok([x] + xs)
  }

  /** The three filters the client applies to a batch of looked-up items. */
  datatype ItemFilter =
    | NonNull       // deleted (null) items dropped
    | CommentsOnly  // non-null items whose type is "comment"
    | WithText      // non-null items with a non-empty text

  predicate Admits(f: ItemFilter, it: Item) {
    match f
    case NonNull => true
    case CommentsOnly => it.kind == "comment"
    case WithText => Truthy(it.text)
  }

  /** The non-null items of `xs` that `f` admits, in their original order. */
  function Keep(xs: seq<Option<Item>>, f: ItemFilter): (r: seq<Item>)
    ensures |r| <= |xs|
    decreases |xs|
  {
    if |xs| == 0 then []
    else
      var rest := Keep(xs[1..], f);
      if xs[0].Some? && Admits(f, xs[0].value) then [xs[0].value] + rest else rest
  }

  /** An item survives the filter exactly when it is present in `xs` and
      the filter admits it. */
  lemma {:induction false} KeepMembers(xs: seq<Option<Item>>, f: ItemFilter)
    ensures forall it :: it in Keep(xs, f) <==> Some(it) in xs && Admits(f, it)
    decreases |xs|
  {
    if |xs| > 0 {
      KeepMembers(xs[1..], f);
      assert xs == [xs[0]] + xs[1..];
    }
  }

  /** Filtering distributes over concatenation, so it keeps order. */
  lemma {:induction false} KeepConcat(a: seq<Option<Item>>, b: seq<Option<Item>>, f: ItemFilter)
    ensures Keep(a + b, f) == Keep(a, f) + Keep(b, f)
    decreases |a|
  {
    if |a| == 0 {
      assert a + b == b;
    } else {
      assert (a + b)[0] == a[0];
      assert (a + b)[1..] == a[1..] + b;
      KeepConcat(a[1..], b, f);
    }
  }

  /** Dropping nulls removes exactly the null entries. */
  lemma {:induction false} KeepNonNullCount(xs: seq<Option<Item>>)
    ensures |Keep(xs, NonNull)| == |xs| <==> forall k | 0 <= k < |xs| :: xs[k].Some?
    decreases |xs|
  {
    if |xs| > 0 {
      KeepNonNullCount(xs[1..]);
      assert forall k | 1 <= k < |xs| :: xs[k] == xs[1..][k - 1];
    }
  }

  /** `getStories`: the batch with deleted items filtered out, in input
      order; a failed lookup rejects the whole batch. */
  function GetStories(api: Api, ids: seq<int>): (r: Result<seq<Item>>)
    ensures r.Ok? <==> AllFetched(api, ids)
    ensures r.Ok? ==> r.value == Keep(LookedUp(api, ids), NonNull)
    ensures r.Err? ==> StoriesFailurePrefix <= r.message
  {
    match FetchAll(api, ids)
    case Err(m) => Err(StoriesFailurePrefix + m)
    case Ok(xs) => Ok(Keep(xs, NonNull))
  }

  lemma LookedUpConcat(api: Api, a: seq<int>, b: seq<int>)
    requires AllFetched(api, a + b)
    ensures AllFetched(api, a) && AllFetched(api, b)
    ensures LookedUp(api, a + b) == LookedUp(api, a) + LookedUp(api, b)
  {
    assert forall k | 0 <= k < |a| :: a[k] == (a + b)[k];
    assert forall k | 0 <= k < |b| :: b[k] == (a + b)[|a| + k];
  }

  /** Fetching two batches one after the other gives the same items, in
      the same order, as fetching them as one batch. */
  lemma GetStoriesConcat(api: Api, a: seq<int>, b: seq<int>)
    ensures GetStories(api, a + b).Ok? <==> GetStories(api, a).Ok? && GetStories(api, b).Ok?
    ensures GetStories(api, a + b).Ok? ==>
      GetStories(api, a + b).value == GetStories(api, a).value + GetStories(api, b).value
  {
    if AllFetched(api, a + b) {
      LookedUpConcat(api, a, b);
      KeepConcat(LookedUp(api, a), LookedUp(api, b), NonNull);
    } else if AllFetched(api, a) && AllFetched(api, b) {
      forall k | 0 <= k < |a + b|
        ensures api.itemAt((a + b)[k]).Fetched?
      {
        if k >= |a| {
          assert (a + b)[k] == b[k - |a|];
        }
      }
    }
  }

  /** Extending a fetched prefix of a list by the next window extends the
      fetched items by that window's items. */
  lemma GetStoriesExtend(api: Api, ids: seq<int>, lo: nat, hi: nat, a: seq<Item>, b: seq<Item>)
    requires lo <= hi <= |ids|
    requires GetStories(api, ids[..lo]) == Ok(a)
    requires GetStories(api, ids[lo..hi]) == Ok(b)
    ensures GetStories(api, ids[..hi]) == Ok(a + b)
  {
    assert ids[..hi] == ids[..lo] + ids[lo..hi];
    GetStoriesConcat(api, ids[..lo], ids[lo..hi]);
  }

  /** A single id yields its item, or nothing when the item was deleted. */
  lemma GetStoriesSingle(api: Api, id: int)
    ensures api.itemAt(id) == Fetched(None) ==> GetStories(api, [id]) == Ok([])
    ensures forall it :: api.itemAt(id) == Fetched(Some(it)) ==> GetStories(api, [id]) == Ok([it])
    ensures api.itemAt(id).Failed? ==>
      GetStories(api, [id]) == Err(StoriesFailurePrefix + StoryFailureMessage(id, api.itemAt(id).reason))
  {
    if api.itemAt(id).Fetched? {
      var xs := LookedUp(api, [id]);
      assert xs == [api.itemAt(id).body];
      assert xs[1..] == [];
      assert Keep(xs, NonNull) == (if xs[0].Some? then [xs[0].value] else []);
    }
  }

  /** The batch cases of the service's test suite: no ids give no stories,
      and a deleted item between two live ones is dropped while the other
      two keep their order. */
  lemma GetStoriesExamples(api: Api, a: int, b: int, c: int, x: Item, y: Item)
    requires api.itemAt(a) == Fetched(Some(x))
    requires api.itemAt(b) == Fetched(None)
    requires api.itemAt(c) == Fetched(Some(y))
    ensures GetStories(api, []) == Ok([])
    ensures GetStories(api, [a, b, c]) == Ok([x, y])
  {
    GetStoriesSingle(api, a);
    GetStoriesSingle(api, b);
    GetStoriesSingle(api, c);
    assert [a] + [b] == [a, b];
    GetStoriesConcat(api, [a], [b]);
    assert GetStories(api, [a, b]) == Ok([x]);
    assert [a, b] + [c] == [a, b, c];
    GetStoriesConcat(api, [a, b], [c]);
    assert [x] + [y] == [x, y];
  }

  // ---------------------------------------------------------------------------
  // Pagination
  // ---------------------------------------------------------------------------

  /** Where a `slice` argument lands: negative values count from the end;
      the result is clamped to the length. */
  function RelativeIndex(n: nat, x: int): (k: nat)
    ensures k <= n
    ensures 0 <= x ==> k == Min(x, n)
  {
    if x < 0 then (if n + x < 0 then 0 else n + x)
    else if x > n then n
    else x
  }

  /** `Array.prototype.slice(start, end)`. */
  function JsSlice<T>(s: seq<T>, start: int, end: int): (r: seq<T>)
    ensures var a := RelativeIndex(|s|, start); a + |r| <= |s| && r == s[a..a + |r|]
    ensures 0 <= start <= end ==> r == s[Min(start, |s|)..Min(end, |s|)]
  {
    var a := RelativeIndex(|s|, start);
    var b := RelativeIndex(|s|, end);
    if a <= b then s[a..b] else []
  }

  /** The ids of page `page` of size `limit`. */
  function PageIds(ids: seq<int>, page: int, limit: int): (r: seq<int>)
    ensures var lo := RelativeIndex(|ids|, page * limit); lo + |r| <= |ids| && r == ids[lo..lo + |r|]
  {
    JsSlice(ids, page * limit, page * limit + limit)
  }

  /** How far into a list of length `n` the first `k` pages of size
      `limit` reach, one page at a time. */
  function Reach(k: nat, limit: nat, n: nat): (i: nat)
    ensures i <= n
    decreases k
  {
    if k == 0 then 0 else Min(Reach(k - 1, limit, n) + limit, n)
  }

  /** The first `k` pages reach position `min(k*limit, n)`. */
  lemma {:induction false} ReachIsMin(k: nat, limit: nat, n: nat)
    ensures Reach(k, limit, n) == Min(k * limit, n)
    decreases k
  {
    if k > 0 {
      ReachIsMin(k - 1, limit, n);
      MulSucc(k - 1, limit);
    }
  }

  /** The window `[page*limit, (page+1)*limit)` of `ids`, cut off at its
      end. */
  function Window(ids: seq<int>, page: nat, limit: nat): seq<int> {
    ids[Reach(page, limit, |ids|)..Reach(page + 1, limit, |ids|)]
  }

  /** Page `page` is the window `[page*limit, (page+1)*limit)` of the list,
      cut off at its end. */
  lemma PageIdsWindow(ids: seq<int>, page: nat, limit: nat)
    ensures PageIds(ids, page, limit) == Window(ids, page, limit)
  {
    ReachIsMin(page, limit, |ids|);
    ReachIsMin(page + 1, limit, |ids|);
    MulSucc(page, limit);
  }

  /** A page never holds more than `limit` ids, whatever the page number. */
  lemma PageIdsBounded(ids: seq<int>, page: int, limit: nat)
    ensures |PageIds(ids, page, limit)| <= limit
  {
    var n := |ids|;
    var start := page * limit;
    var end := start + limit;
    var a := RelativeIndex(n, start);
    var b := RelativeIndex(n, end);
    if a <= b {
      if start >= 0 {
        assert b - a <= limit;
      } else if end < 0 {
        assert b - a <= limit;
      } else {
        assert b <= end;
        assert b - a <= limit;
      }
    }
  }

  /** The ids of pages `0 .. k-1`, one after the other. */
  function PagesUpTo(ids: seq<int>, k: nat, limit: int): seq<int>
    decreases k
  {
    if k == 0 then [] else PagesUpTo(ids, k - 1, limit) + PageIds(ids, k - 1, limit)
  }

  /** Successive pages tile a prefix of the list: no id is skipped and none
      is repeated. */
  lemma {:induction false} PagesTile(ids: seq<int>, k: nat, limit: nat)
    ensures PagesUpTo(ids, k, limit) == ids[..Reach(k, limit, |ids|)]
    decreases k
  {
    if k == 0 {
      assert Reach(k, limit, |ids|) == 0;
    } else {
      var m := k - 1;
      var lo := Reach(m, limit, |ids|);
      var hi := Reach(k, limit, |ids|);
      PageIdsWindow(ids, m, limit);
      assert PageIds(ids, m, limit) == ids[lo..hi];
      PagesTile(ids, m, limit);
      assert PagesUpTo(ids, k, limit) == ids[..lo] + ids[lo..hi];
      assert ids[..lo] + ids[lo..hi] == ids[..hi];
    }
  }

  lemma MulSucc(m: nat, limit: nat)
    ensures (m + 1) * limit == m * limit + limit
    ensures m * limit <= (m + 1) * limit
  {
  }

  /** Later pages reach further. */
  lemma {:induction false} ReachMonotone(i: nat, j: nat, limit: nat, n: nat)
    requires i <= j
    ensures Reach(i, limit, n) <= Reach(j, limit, n)
    decreases j - i
  {
    if i < j {
      ReachMonotone(i, j - 1, limit, n);
    }
  }

  /** The items of pages `0 .. page-1` followed by those of page `page` are
      the items of pages `0 .. page`. */
  lemma NextWindowExtends(api: Api, ids: seq<int>, limit: nat, page: nat, a: seq<Item>, b: seq<Item>)
    requires GetStories(api, ids[..Reach(page, limit, |ids|)]) == Ok(a)
    requires GetStories(api, Window(ids, page, limit)) == Ok(b)
    ensures GetStories(api, ids[..Reach(page + 1, limit, |ids|)]) == Ok(a + b)
  {
    GetStoriesExtend(api, ids, Reach(page, limit, |ids|), Reach(page + 1, limit, |ids|), a, b);
  }

  /** With distinct ids, two different page windows share no id. */
  lemma PagesDisjoint(ids: seq<int>, i: nat, j: nat, limit: nat)
    requires forall p, q | 0 <= p < q < |ids| :: ids[p] != ids[q]
    requires i != j
    ensures forall x :: x in Window(ids, i, limit) ==> x !in Window(ids, j, limit)
  {
    forall x | x in Window(ids, i, limit)
      ensures x !in Window(ids, j, limit)
    {
      var p := PositionInPage(ids, i, limit, x);
      if x in Window(ids, j, limit) {
        var q := PositionInPage(ids, j, limit, x);
        if i < j {
          ReachMonotone(i + 1, j, limit, |ids|);
        } else {
          ReachMonotone(j + 1, i, limit, |ids|);
        }
        SamePosition(ids, p, q);
        assert false;
      }
    }
  }

  /** In a list without duplicates, an id sits at one position only. */
  lemma SamePosition(ids: seq<int>, p: nat, q: nat)
    requires forall p, q | 0 <= p < q < |ids| :: ids[p] != ids[q]
    requires p < |ids| && q < |ids| && ids[p] == ids[q]
    ensures p == q
  {
  }

  /** Where an id of page window `page` sits in the whole list. */
  lemma PositionInPage(ids: seq<int>, page: nat, limit: nat, x: int) returns (p: nat)
    requires x in Window(ids, page, limit)
    ensures p < |ids| && ids[p] == x
    ensures Reach(page, limit, |ids|) <= p < Reach(page + 1, limit, |ids|)
  {
    var w := Window(ids, page, limit);
    var lo := Reach(page, limit, |ids|);
    var t :| 0 <= t < |w| && w[t] == x;
    p := lo + t;
    assert ids[p] == w[t];
  }

  /** One page of a category. `total` is the length of the whole list. */
  datatype PageResult = PageResult(stories: seq<Item>, hasMore: bool, total: nat)

  const InvalidTypePrefix: string := "Invalid story type: "
  const PaginatedFailurePrefix: string := "Failed to fetch paginated stories: "

  /** The TypeError a JavaScript engine (V8) raises when `slice` is called
      on a `null` list body. */
  const NullListMessage: string := "Cannot read properties of null (reading 'slice')"

  /** The category's id list, when its name is valid, its fetch succeeds
      and its body is not null. */
  function CategoryIds(api: Api, storyType: string): Option<seq<int>> {
    if ParseStoryType(storyType).None? then None
    else
      match api.listAt(ListPath(storyType))
      case Failed(_) => None
      case Fetched(body) => body
  }

  /** `getPaginatedStories(type, page, limit)`. */
  function GetPaginatedStories(api: Api, storyType: string, page: int, limit: int): (r: Result<PageResult>)
    ensures ParseStoryType(storyType).None? ==>
      r == Err(PaginatedFailurePrefix + InvalidTypePrefix + storyType)
    ensures r.Err? ==> PaginatedFailurePrefix <= r.message
    ensures r.Ok? <==>
      CategoryIds(api, storyType).Some? &&
      AllFetched(api, PageIds(CategoryIds(api, storyType).value, page, limit))
    ensures r.Ok? ==>
      var ids := CategoryIds(api, storyType).value;
      && r.value.total == |ids|
      && (r.value.hasMore <==> page * limit + limit < |ids|)
      && GetStories(api, PageIds(ids, page, limit)) == Ok(r.value.stories)
  {
    var listed :=
      if ParseStoryType(storyType).Some? then GetStoriesByType(api, storyType)
      else Err(InvalidTypePrefix + storyType);
    match listed
    case Err(m) =>
      assert PaginatedFailurePrefix + (InvalidTypePrefix + storyType)
          == PaginatedFailurePrefix + InvalidTypePrefix + storyType;
      Err(PaginatedFailurePrefix + m)
    case Ok(None) => Err(PaginatedFailurePrefix + NullListMessage)
    case Ok(Some(ids)) =>
      var startIndex := page * limit;
      var endIndex := startIndex + limit;
      match GetStories(api, JsSlice(ids, startIndex, endIndex))
      case Err(m) => Err(PaginatedFailurePrefix + m)
      case Ok(stories) => Ok(PageResult(stories, endIndex < |ids|, |ids|))
  }

  /** For a valid category and non-negative page and size: the page holds
      the items of the window `[page*limit, (page+1)*limit)` of the list,
      `hasMore` says whether the list goes on past the window, and `total`
      is the list's length. */
  lemma PaginatedPageIsWindow(api: Api, storyType: string, page: nat, limit: nat, r: PageResult)
    requires GetPaginatedStories(api, storyType, page, limit) == Ok(r)
    ensures CategoryIds(api, storyType).Some?
    ensures var ids := CategoryIds(api, storyType).value;
      && GetStories(api, Window(ids, page, limit)) == Ok(r.stories)
      && (r.hasMore <==> Reach(page + 1, limit, |ids|) < |ids|)
      && r.total == |ids|
  {
    PageOfWindow(api, CategoryIds(api, storyType).value, page, limit, r.stories, r.hasMore);
  }

  lemma PageOfWindow(api: Api, ids: seq<int>, page: nat, limit: nat, stories: seq<Item>, hasMore: bool)
    requires GetStories(api, PageIds(ids, page, limit)) == Ok(stories)
    requires hasMore <==> page * limit + limit < |ids|
    ensures GetStories(api, Window(ids, page, limit)) == Ok(stories)
    ensures hasMore <==> Reach(page + 1, limit, |ids|) < |ids|
  {
    ReachIsMin(page + 1, limit, |ids|);
    MulSucc(page, limit);
    PageIdsWindow(ids, page, limit);
  }

  /** A page never returns more than `limit` stories. */
  lemma PaginatedStoriesBounded(api: Api, storyType: string, page: int, limit: nat)
    requires GetPaginatedStories(api, storyType, page, limit).Ok?
    ensures |GetPaginatedStories(api, storyType, page, limit).value.stories| <= limit
  {
    PageIdsBounded(CategoryIds(api, storyType).value, page, limit);
  }

  /** An unknown category is rejected before any request is made: the
      outcome is the same error whatever the remote would answer. */
  lemma InvalidTypeRejected(api1: Api, api2: Api, storyType: string, page: int, limit: int)
    requires ParseStoryType(storyType).None?
    ensures GetPaginatedStories(api1, storyType, page, limit) == GetPaginatedStories(api2, storyType, page, limit)
    ensures GetPaginatedStories(api1, storyType, page, limit).Err?
    ensures InvalidTypePrefix + storyType <= GetPaginatedStories(api1, storyType, page, limit).message[|PaginatedFailurePrefix|..]
  {
  }

  /** One failed item lookup on the page fails the page, with the first
      failing lookup's message under both prefixes and no partial result. */
  lemma FailedLookupFailsPage(api: Api, storyType: string, page: int, limit: int)
    requires CategoryIds(api, storyType).Some?
    requires !AllFetched(api, PageIds(CategoryIds(api, storyType).value, page, limit))
    ensures var pageIds := PageIds(CategoryIds(api, storyType).value, page, limit);
      var k := FirstFailure(api, pageIds);
      && k < |pageIds|
      && GetPaginatedStories(api, storyType, page, limit) ==
           Err(PaginatedFailurePrefix + StoriesFailurePrefix
               + StoryFailureMessage(pageIds[k], api.itemAt(pageIds[k]).reason))
  {
    var ids := CategoryIds(api, storyType).value;
    var pageIds := PageIds(ids, page, limit);
    assert GetStoriesByType(api, storyType) == Ok(Some(ids));
    var g := GetStories(api, pageIds);
    var k := FirstFailure(api, pageIds);
    var m := StoryFailureMessage(pageIds[k], api.itemAt(pageIds[k]).reason);
    assert FetchAll(api, pageIds) == Err(m);
    assert g == Err(StoriesFailurePrefix + m);
    assert GetPaginatedStories(api, storyType, page, limit) == Err(PaginatedFailurePrefix + g.message);
    assert PaginatedFailurePrefix + (StoriesFailurePrefix + m) == PaginatedFailurePrefix + StoriesFailurePrefix + m;
  }

  /** The paging examples of the service's test suite, over five ids that
      all resolve: page 0 of size 2 has two stories and more to come; page
      2 of size 5 is past the end. */
  lemma PaginationExamples(api: Api, ids: seq<int>)
    requires |ids| == 5
    requires api.listAt(ListPath("top")) == Fetched(Some(ids))
    requires forall k | 0 <= k < 5 :: api.itemAt(ids[k]).Fetched? && api.itemAt(ids[k]).body.Some?
    ensures GetPaginatedStories(api, "top", 0, 2).Ok?
    ensures GetPaginatedStories(api, "top", 0, 2).value.hasMore
    ensures |GetPaginatedStories(api, "top", 0, 2).value.stories| == 2
    ensures GetPaginatedStories(api, "top", 0, 2).value.total == 5
    ensures GetPaginatedStories(api, "top", 2, 5) == Ok(PageResult([], false, 5))
  {
    var w := PageIds(ids, 0, 2);
    assert w == ids[0..2];
    KeepNonNullCount(LookedUp(api, w));
    assert PageIds(ids, 2, 5) == [];
  }

  // ---------------------------------------------------------------------------
  // Comments of a story
  // ---------------------------------------------------------------------------

  /** `getAllComments`'s result; `hasMore` is absent (`None`) when the story
      has comments, because only the empty answer sets it. */
  datatype CommentsResult = CommentsResult(comments: seq<Item>, hasMore: Option<bool>, total: nat)

  const NoComments: CommentsResult := CommentsResult([], Some(false), 0)

  function CommentsFailureMessage(storyId: int, m: string): string {
    "Failed to fetch paginated comments for story " + IntToString(storyId) + ": " + m
  }

  /** The reply ids of an item, when it has a non-empty `kids` list. */
  function KidsOf(it: Option<Item>): seq<int> {
    if it.Some? && it.value.kids.Some? then it.value.kids.value else []
  }

  /** `getAllComments(storyId)`: the story's direct children that are
      comments, in `kids` order. */
  function GetAllComments(api: Api, storyId: int): (r: Result<CommentsResult>)
    ensures r.Err? ==> CommentsFailureMessage(storyId, "") <= r.message
  {
    match GetStory(api, storyId)
    case Err(m) => Err(CommentsFailureMessage(storyId, m))
    case Ok(story) =>
      var kids := KidsOf(story);
      if |kids| == 0 then Ok(NoComments)
      else
        match FetchAll(api, kids)
        case Err(m) => Err(CommentsFailureMessage(storyId, m))
        case Ok(xs) => Ok(CommentsResult(Keep(xs, CommentsOnly), None, |kids|))
  }

  /** A deleted story, or one without replies, has the empty answer. */
  lemma AllCommentsEmpty(api: Api, storyId: int)
    requires api.itemAt(storyId).Fetched?
    requires var story := api.itemAt(storyId).body;
      story.None? || story.value.kids.None? || story.value.kids.value == []
    ensures GetAllComments(api, storyId) == Ok(CommentsResult([], Some(false), 0))
  {
  }

  /** Otherwise the comments are the children, in order, that exist and are
      of type "comment"; `total` counts every child. */
  lemma AllCommentsOfKids(api: Api, storyId: int, story: Item)
    requires api.itemAt(storyId) == Fetched(Some(story))
    requires story.kids.Some? && |story.kids.value| > 0
    ensures GetAllComments(api, storyId).Ok? <==> AllFetched(api, story.kids.value)
    ensures GetAllComments(api, storyId).Ok? ==>
      var r := GetAllComments(api, storyId).value;
      && r.comments == Keep(LookedUp(api, story.kids.value), CommentsOnly)
      && (forall c :: c in r.comments ==> c.kind == "comment")
      && r.total == |story.kids.value|
      && r.hasMore.None?
  {
    if AllFetched(api, story.kids.value) {
      KeepMembers(LookedUp(api, story.kids.value), CommentsOnly);
    }
  }
}
