# Hacker News client: verified model of the paging, cache, login and time logic

This Dafny project models the decision logic of a React client for the
Hacker News API. The network is replaced by an abstract `Api` value that
answers two kinds of lookup: a category's id list, keyed by request path,
and a single item, keyed by id. Each lookup either fails with a reason or
returns a body, which may be `null`. The modules follow the program's
files:

- `Wrappers`: `Option` and `Result`. `Err(message)` stands for a rejected
  promise carrying that `Error` message.
- `Text`: the JavaScript string behaviour the code relies on.
  - `${n}` rendering of integers, with a parse-back round trip.
  - `String.prototype.trim` with the ECMAScript whitespace set.
  - `length` counted in UTF-16 code units.
- `Items`: the item record and the five story categories.
- `HackerNewsApi`: the service class. It covers:
  - the list path
  - single and batch item lookup, with `Promise.all` read as a sequential
    map that fails when any element fails
  - removal of deleted (`null`) items
  - category validation
  - page slicing with JavaScript `slice` semantics
  - `hasMore` and `total`
  - the comment listing
- `StoryQueries` and `CommentQueries`: the react-query wiring.
  - `StoryQueries` has the infinite query's page-parameter rule and its
    `enabled` guard, and it folds fetches into accumulated pages.
  - `CommentQueries` has the comment and reply query functions and their
    guards.
- `UseStories`: the hand-written `useStories` hook as a state machine. Its
  states are the hook's five `useState` values, and its transitions are the
  reset effect, `loadStories`, `loadMore` and `refresh`. No component in the
  repository calls this hook.
- `StoryListView`: the values `useStoryList` derives from the infinite query.
- `StorySlice` and `LoginSlice`: the two Redux reducers, as pure functions
  of the previous state.
- `LoginForm`: the login/registration form. It covers field validation,
  per-field error clearing, the mode toggle, the reset on opening and the
  outcome of a submit.
- `FormatTime`: relative ages ("3 hours ago") with the clock as a parameter.

Paging is stated at two levels. The index windows of successive pages tile
a prefix of any id list: they are contiguous, never overlap and never skip a
position (`HackerNewsApi.PagesTile`, `HackerNewsApi.PagesDisjoint`). This
does not depend on the remote. The stories, in contrast, come from a fresh
fetch of the category list for every page. The model's remote is one fixed
`Api` value, so the end-to-end results hold for a remote that does not
change between the fetches of one query. For such a remote,
`StoryQueries.LoadedStoriesArePrefix` states that however many pages the
infinite query has loaded, their stories are exactly the live items among
the first `pages * limit` ids of the category (all of them when the list is
shorter), in list order. `UseStories.LoadMoreKeepsTracking` states the same
invariant for the hand-written hook, with each load running to completion
before the next one starts.

Two behaviours of the code as written are kept in the model:

- **The jobs list path.** The list path is built as `"/" + type +
  "stories.json"`. For `jobs` this requests `/jobsstories.json`, while the
  mock server of the test suite answers `/jobstories.json`.
  `HackerNewsApi.JobsListPath` states this.
- **A page is skipped after a failed first load in `useStories`.**
  `refresh` resets `currentPage` to 0. If that load then fails, the state
  keeps `hasMore` true and `currentPage` 0. The next `loadMore` therefore
  asks for page 1 and appends it to an empty list, so page 0 is never
  shown. `UseStories.FailedRefreshThenLoadMoreSkipsFirstPage` states this.

## Model

| member | source | states |
|---|---|---|
| Items.ParseStoryType | src/services/hackerNewsApi.ts:44-56 | a category name is accepted exactly when it is one of top, new, ask, show, jobs, and an accepted name maps back to itself |
| Items.ParseTypeNameRoundTrip | src/store/slices/StorySlice.tsx:3-9 | every value of the category enum is accepted under its own name |
| Text.NatToString | src/services/hackerNewsApi.ts:26 | the rendering of a natural number is a non-empty digit string without a leading zero, and is "0" only for 0 |
| Text.IntToString | src/services/hackerNewsApi.ts:26 | the rendering of an integer is a well-formed numeral that starts with '-' exactly when the number is negative |
| Text.NatToStringRoundTrip | src/services/hackerNewsApi.ts:26 | parsing the rendering of a natural number gives the number back |
| Text.IntToStringRoundTrip | src/services/hackerNewsApi.ts:26 | parsing the rendering of an integer gives the integer back |
| Text.IntToStringInjective | src/services/hackerNewsApi.ts:26 | two integers render the same exactly when they are equal, so an id in an error message identifies the item |
| Text.TrimStart | src/components/LoginPage.tsx:25-27 | the result is a suffix of the input, what is dropped is all whitespace, and the result does not start with whitespace |
| Text.TrimEnd | src/components/LoginPage.tsx:25-27 | the result is a prefix of the input, what is dropped is all whitespace, and the result does not end with whitespace |
| Text.TrimIsInfix | src/components/LoginPage.tsx:25-27 | the trimmed name is a contiguous part of the name with only whitespace before and after it |
| Text.TrimEndsAreNotWhitespace | src/components/LoginPage.tsx:25-27 | a non-empty trimmed name neither starts nor ends with whitespace |
| Text.TrimEmptyIffAllWhitespace | src/components/LoginPage.tsx:25 | the trimmed name is empty exactly when the name is made only of whitespace |
| Text.Utf16Length | src/components/LoginPage.tsx:27-33 | the JavaScript length is between one and two units per character, and equals the character count exactly when no character lies outside the Basic Multilingual Plane |
| HackerNewsApi.GetStoriesByType | src/services/hackerNewsApi.ts:12-19 | the list request succeeds exactly when the GET of the category's path does, yields its body (possibly null), and otherwise fails with "Failed to fetch stories: " followed by the transport's message |
| HackerNewsApi.GetStory | src/services/hackerNewsApi.ts:21-28 | the item request succeeds exactly when the GET of the item does, yields its body (null for a deleted item), and otherwise fails with "Failed to fetch story <id>: " followed by the transport's message |
| HackerNewsApi.ListPathInjective | src/services/hackerNewsApi.ts:14 | two category names request the same path exactly when they are the same name |
| HackerNewsApi.JobsListPath | src/services/hackerNewsApi.ts:14 | the jobs category requests "/jobsstories.json" and not "/jobstories.json" |
| HackerNewsApi.FirstFailure | src/services/hackerNewsApi.ts:32-33 | the position returned is the first failed lookup: every lookup before it succeeded, and the one at it failed |
| HackerNewsApi.FetchAll | src/services/hackerNewsApi.ts:21-33 | the batch succeeds exactly when every lookup succeeds, yields the bodies in id order, and otherwise fails with "Failed to fetch story <id>: <reason>" for the first failing id |
| HackerNewsApi.Keep | src/services/hackerNewsApi.ts:34 | the filter never lengthens the list |
| HackerNewsApi.KeepMembers | src/services/hackerNewsApi.ts:34 | an item survives the filter exactly when it is present and passes the test |
| HackerNewsApi.KeepConcat | src/services/hackerNewsApi.ts:34 | filtering two lists one after the other is filtering their concatenation, so the order is kept |
| HackerNewsApi.KeepNonNullCount | src/services/hackerNewsApi.ts:34 | dropping deleted items removes nothing exactly when no item is null |
| HackerNewsApi.GetStories | src/services/hackerNewsApi.ts:30-37 | the batch succeeds exactly when every lookup succeeds, its result is the non-null items in id order, and a failure carries the "Failed to fetch stories: " prefix |
| HackerNewsApi.GetStoriesConcat | src/services/hackerNewsApi.ts:30-37 | fetching a+b succeeds exactly when fetching a and fetching b both do, and then gives the stories of a followed by those of b |
| HackerNewsApi.GetStoriesExtend | src/services/hackerNewsApi.ts:30-37 | the stories of ids[..lo] followed by those of ids[lo..hi] are the stories of ids[..hi] |
| HackerNewsApi.GetStoriesSingle | src/services/hackerNewsApi.ts:30-37 | for one id: a deleted item gives no story, a live item gives itself, and a failed lookup gives the doubly prefixed message |
| HackerNewsApi.GetStoriesExamples | src/services/__tests__/hackerNewsApi.test.ts:124-135 | no ids give no stories, and a deleted item between two live ones is dropped while the live ones keep their order |
| HackerNewsApi.RelativeIndex | src/services/hackerNewsApi.ts:60 | a slice bound lands in [0, length] and equals min(bound, length) for a non-negative bound |
| HackerNewsApi.JsSlice | src/services/hackerNewsApi.ts:60 | the slice is always a run of consecutive elements starting where `slice` places start (negative values counting from the end), and for 0 <= start <= end it is the window [start, end) cut off at the list's end |
| HackerNewsApi.PageIds | src/services/hackerNewsApi.ts:58-60 | a page, for any page number and limit, is a run of consecutive ids of the list starting where `slice` places page*limit |
| HackerNewsApi.ReachIsMin | src/services/hackerNewsApi.ts:58-60 | k pages of size limit, taken one after another, reach position min(k*limit, n) of a list of length n |
| HackerNewsApi.PageIdsWindow | src/services/hackerNewsApi.ts:58-60 | page k of size limit is ids[min(k*limit, n) .. min((k+1)*limit, n)] |
| HackerNewsApi.PageIdsBounded | src/services/hackerNewsApi.ts:58-60 | a page holds at most limit ids for every page number, negative ones included |
| HackerNewsApi.PagesTile | src/services/hackerNewsApi.ts:58-60 | pages 0 .. k-1 laid end to end are exactly the first min(k*limit, n) ids |
| HackerNewsApi.NextWindowExtends | src/services/hackerNewsApi.ts:58-62 | the stories of pages before k followed by the stories of page k are the stories of the ids before page k+1 |
| HackerNewsApi.ReachMonotone | src/services/hackerNewsApi.ts:58-60 | more pages never reach less far into the list |
| HackerNewsApi.PagesDisjoint | src/services/hackerNewsApi.ts:58-60 | with distinct ids, the windows of two different pages (which are the pages, by PageIdsWindow) share no id |
| HackerNewsApi.PositionInPage | src/services/hackerNewsApi.ts:58-60 | every id in the window of page k sits at a position of the list between where pages 0 .. k-1 end and where pages 0 .. k end |
| HackerNewsApi.GetPaginatedStories | src/services/hackerNewsApi.ts:40-72 | an unknown category fails with "Failed to fetch paginated stories: Invalid story type: <type>". Every failure carries the outer prefix. The page succeeds exactly when the list is available and every id in the window resolves. On success, total is the list length, hasMore holds iff page*limit+limit < length, and the stories are those of the window |
| HackerNewsApi.PaginatedPageIsWindow | src/services/hackerNewsApi.ts:58-68 | for non-negative page and limit, the stories are those of ids[k*limit .. (k+1)*limit), hasMore holds iff pages 0 .. k stop short of the end of the list, and total = n |
| HackerNewsApi.PaginatedStoriesBounded | src/services/hackerNewsApi.ts:60-62 | a page never returns more than limit stories |
| HackerNewsApi.InvalidTypeRejected | src/services/hackerNewsApi.ts:43-56 | an unknown category fails the same way whatever the remote would answer, so nothing is fetched, and the message holds "Invalid story type: <type>" after the outer prefix |
| HackerNewsApi.FailedLookupFailsPage | src/services/hackerNewsApi.ts:30-70 | one failed item lookup fails the whole page with no partial result, with the first failure's message under both prefixes |
| HackerNewsApi.PaginationExamples | src/services/__tests__/hackerNewsApi.test.ts:55-87 | of five resolvable ids, page 0 of size 2 has two stories, more to come and total 5, and page 2 of size 5 is empty with nothing more |
| HackerNewsApi.GetAllComments | src/services/hackerNewsApi.ts:74-95 | every failure carries "Failed to fetch paginated comments for story <id>: " |
| HackerNewsApi.AllCommentsEmpty | src/services/hackerNewsApi.ts:76-78 | a deleted story, or one with absent or empty kids, gives no comments, hasMore false and total 0 |
| HackerNewsApi.AllCommentsOfKids | src/services/hackerNewsApi.ts:81-91 | with kids, the listing succeeds exactly when every kid resolves. It then gives the non-null kids of type "comment" in kids order and total = number of kids, and has no hasMore field |
| StoryQueries.RunGetStory | src/quaries/Stories.ts:18-25 | the query is idle exactly for id 0, and otherwise succeeds exactly when the lookup does, with the looked-up body |
| StoryQueries.NextPageParam | src/quaries/Stories.ts:9-11 | a next page exists exactly when the last page has more, and its number is the count of pages loaded |
| StoryQueries.FetchNext | src/quaries/Stories.ts:4-16 | a fetch adds at most one page and keeps the earlier ones. An added page was fetched with the pending parameter: 0 for the first page (and only for a non-empty type), then the page count. When a page is pending and the query is enabled, a page the service delivers is added with no error, and a failure keeps the pages and reports its message. A disabled query, or one whose last page has no more, changes nothing |
| StoryQueries.FetchNextKeepsConsistent | src/quaries/Stories.ts:7-12 | if page i was fetched with parameter i for every i, that still holds after another fetch |
| StoryQueries.Drive | src/quaries/Stories.ts:7-12 | after any number of fetches from nothing, the pages are the service's pages 0, 1, 2, ... in order, with no gap |
| StoryQueries.LoadedStoriesArePrefix | src/quaries/Stories.ts:7-11 | the stories of the loaded pages, page after page, are exactly the stories of the first pages*limit ids of the category |
| StoryQueries.HasNextPageMeansMoreIds | src/quaries/Stories.ts:9-11 | the query reports a next page exactly when the loaded pages stop short of the end of the list |
| StoryQueries.ExhaustedQueryCoversList | src/quaries/Stories.ts:9-11 | once no next page is reported, the loaded stories are those of the whole list |
| CommentQueries.RunGetComments | src/quaries/Comments.ts:4-10 | the comments query is idle exactly for id 0 and otherwise runs the comment listing |
| CommentQueries.RunGetReplies | src/quaries/Comments.ts:12-28 | the replies query is idle exactly for id 0 and otherwise runs the reply query function |
| CommentQueries.Replies | src/quaries/Comments.ts:15-25 | replies are only ever delivered for a comment that was fetched and is not deleted, and there are never more replies than the comment has kids |
| CommentQueries.RepliesOfLeaf | src/quaries/Comments.ts:16-19 | a comment with absent or empty kids has no replies |
| CommentQueries.RepliesOfKids | src/quaries/Comments.ts:20-24 | with kids, the replies succeed exactly when every kid resolves, and are then the non-null kids with a non-empty text in kids order. Otherwise they fail with the first failing kid's message |
| CommentQueries.RepliesOfMissingParent | src/quaries/Comments.ts:16-17 | a deleted parent fails with the TypeError of reading kids of null, and a failed parent lookup fails with its own message |
| CommentQueries.ChildFiltersDiffer | src/quaries/Comments.ts:24 | the reply filter (truthy text) and the comment-listing filter (type "comment") disagree in both directions |
| UseStories.ResetForType | src/hooks/useStories.ts:11-16 | changing the type empties the stories, sets page 0, sets hasMore and clears the error |
| UseStories.BeginLoad | src/hooks/useStories.ts:19-20 | starting a load sets loading and clears the error, leaving the rest |
| UseStories.Settle | src/hooks/useStories.ts:23-34 | a success appends or replaces the stories, takes hasMore from the page and sets the page number. A failure records the message and leaves stories, hasMore and page alone. Both end with loading false |
| UseStories.LoadStories | src/hooks/useStories.ts:18-35 | a load ends not loading. A success leaves no error and sets the page. A failure records the service's message and keeps stories, hasMore and page |
| UseStories.LoadMoreRequest | src/hooks/useStories.ts:41-45 | a further page is requested exactly when not loading and hasMore holds, and it is page currentPage + 1 |
| UseStories.LoadMore | src/hooks/useStories.ts:41-45 | loadMore changes nothing while loading or when there is no more, and otherwise is the appending load of page currentPage + 1 |
| UseStories.Refresh | src/hooks/useStories.ts:47-52 | after a refresh page 0 is current and nothing is loading. On success the stories and hasMore are those of page 0 with no error; on failure the list is empty, hasMore holds and the error is the service's message |
| UseStories.ChangeType | src/hooks/useStories.ts:11-39 | after a change of story type the state is as after a refresh: page 0 loaded, or an empty list with the service's error |
| UseStories.RefreshIsChangeType | src/hooks/useStories.ts:11-52 | a refresh and a change of story type lead to the same state from any state |
| UseStories.Mount | src/hooks/useStories.ts:4-39 | on mount the reset effect changes nothing, so the hook's state is that of loading page 0 in replace mode from the initial state |
| UseStories.FirstLoadTracks | src/hooks/useStories.ts:37-52 | a successful refresh or type change shows exactly page 0 of the category |
| UseStories.LoadMoreKeepsTracking | src/hooks/useStories.ts:41-45 | if the state shows pages 0 .. currentPage of the category, it still does after loadMore |
| UseStories.AppendNextPageTracks | src/hooks/useStories.ts:25-29 | appending page currentPage + 1 to a state that shows pages 0 .. currentPage gives a state that shows pages 0 .. currentPage + 1 |
| UseStories.FailedRefreshThenLoadMoreSkipsFirstPage | src/hooks/useStories.ts:47-52 | after a refresh whose load fails, there are no stories and an error, and the next loadMore asks for page 1 |
| StoryListView.CurrentType | src/components/hooks/hooks.tsx:62 | the category is never empty: it is the route's type when that is non-empty, and "top" otherwise |
| StoryListView.CurrentTypeEnablesQuery | src/components/hooks/hooks.tsx:61-72 | the category is the route's type when given and "top" otherwise, and it never disables the query |
| StoryListView.Derive | src/components/hooks/hooks.tsx:74-96 | with no data there are no stories and page 0. loading is isLoading or isFetchingNextPage, hasMore is hasNextPage, and the error and type pass through |
| StoryListView.LoadMore | src/components/hooks/hooks.tsx:76-80 | loadMore does nothing unless no fetch is running and a next page exists; otherwise it shows the data and error of fetching the next page of the current category at 30 ids per page |
| StoryListView.ViewShowsLoadedPrefix | src/components/hooks/hooks.tsx:74-96 | the page counter is the number of loaded pages. The stories shown are those of the first currentPage*30 ids of the category, and hasMore holds exactly when the list goes on |
| StoryListView.LoadMoreAddsOnePage | src/components/hooks/hooks.tsx:76-80 | a loadMore that fetches asks the remote for the page after the loaded ones; if the remote serves it the page counter rises by one with no error, if it fails its message is shown and the pages are unchanged; the pages stay consistent with the remote |
| StoryListView.HandleLoginClick | src/components/hooks/hooks.tsx:86-88 | the login prompt opens the modal with the given message, an empty message counting as none, and keeps the user |
| StorySlice.SetStoriesForType | src/store/slices/StorySlice.tsx:51-58 | the category's list becomes old ++ new when appending and new otherwise. Other categories and every scalar field are unchanged |
| StorySlice.SetStoryType | src/store/slices/StorySlice.tsx:59-61 | only the current type changes |
| StorySlice.SetLoading | src/store/slices/StorySlice.tsx:62-64 | only the loading flag changes |
| StorySlice.SetError | src/store/slices/StorySlice.tsx:65-67 | only the error changes |
| StorySlice.SetHasMore | src/store/slices/StorySlice.tsx:68-70 | only hasMore changes |
| StorySlice.SetCurrentPage | src/store/slices/StorySlice.tsx:71-73 | only the page counter changes |
| StorySlice.ResetStoriesForType | src/store/slices/StorySlice.tsx:74-80 | only the given category's list is emptied. The shared page counter goes to 0, hasMore to true and the error to null, and the type and loading flag stay |
| StorySlice.ClearAllStories | src/store/slices/StorySlice.tsx:81-92 | every list is emptied with the same scalar resets, and the type and loading flag stay |
| StorySlice.InitialStateIsEmpty | src/store/slices/StorySlice.tsx:32-45 | initially all five lists are empty, the type is top, not loading, no error, hasMore, page 0 |
| StorySlice.ClearAllStoriesIdempotent | src/store/slices/StorySlice.tsx:81-92 | clearing twice is clearing once |
| StorySlice.ClearAllIsResetOfEveryType | src/store/slices/StorySlice.tsx:74-92 | clearing all is resetting each of the five categories in turn |
| StorySlice.SetStoriesForTypeComposes | src/store/slices/StorySlice.tsx:51-58 | appending a then b is appending a ++ b, and a replace discards earlier appends |
| StorySlice.CatalogSetTwice | src/store/slices/StorySlice.tsx:54-56 | writing a category's list twice keeps only the second write |
| LoginSlice.SetUser | src/store/slices/LoginSlice.tsx:23-25 | only the user changes |
| LoginSlice.SetLoginModalOpen | src/store/slices/LoginSlice.tsx:26-28 | only the modal flag changes |
| LoginSlice.SetLoginMessage | src/store/slices/LoginSlice.tsx:29-31 | only the message changes |
| LoginSlice.Login | src/store/slices/LoginSlice.tsx:32-36 | logging in sets the user to the given name, closes the modal and clears the message |
| LoginSlice.Logout | src/store/slices/LoginSlice.tsx:37-39 | logging out clears the user and nothing else |
| LoginSlice.NormalizeMessage | src/store/slices/LoginSlice.tsx:42 | null and the empty string become null, and any other message is kept |
| LoginSlice.OpenLoginModal | src/store/slices/LoginSlice.tsx:40-43 | opening shows the modal with the normalised message and keeps the user |
| LoginSlice.CloseLoginModal | src/store/slices/LoginSlice.tsx:44-47 | closing hides the modal, clears the message and keeps the user |
| LoginSlice.LogoutIdempotent | src/store/slices/LoginSlice.tsx:37-39 | logging out twice is logging out once |
| LoginSlice.OpenThenCloseIsClose | src/store/slices/LoginSlice.tsx:40-47 | opening and then closing leaves the same state as closing alone |
| LoginSlice.LoginThenLogoutIsInitial | src/store/slices/LoginSlice.tsx:13-39 | a login followed by a logout returns to the initial state, whatever came before |
| LoginForm.UsernameError | src/components/LoginPage.tsx:25-29 | "Username is required" exactly when the trimmed name is empty, "Username must be at least 2 characters" exactly when it is non-empty and under 2 code units, and no error exactly when it is at least 2 |
| LoginForm.UsernameRequiredIffBlank | src/components/LoginPage.tsx:25-26 | a name is reported missing exactly when it is made only of whitespace |
| LoginForm.PasswordError | src/components/LoginPage.tsx:31-35 | "Password is required" exactly when empty, "Password must be at least 6 characters" exactly when non-empty and under 6 code units, with no trimming, and no error otherwise |
| LoginForm.Validate | src/components/LoginPage.tsx:22-39 | the form is valid exactly when the trimmed name has at least 2 code units and the password at least 6, which is exactly when no error is set. No general error is set |
| LoginForm.EmptyFormExample | src/components/__tests__/LoginPage.test.tsx:56-65 | an empty form reports both fields as required |
| LoginForm.ShortUsernameExample | src/components/__tests__/LoginPage.test.tsx:67-78 | the name "a" is too short |
| LoginForm.ShortPasswordExample | src/components/__tests__/LoginPage.test.tsx:80-91 | the password "123" is too short |
| LoginForm.ValidFormExample | src/components/__tests__/LoginPage.test.tsx:109-127 | "testuser" with "password123" is valid |
| LoginForm.InputChange | src/components/LoginPage.tsx:41-54 | the edited field takes the new value and its displayed error is blanked. The other field, its error, the general error, the mode and the loading flag are unchanged |
| LoginForm.InputChangeHidesOnlyThatError | src/components/__tests__/LoginPage.test.tsx:93-107 | after typing, the edited field shows no error and the other field shows what it showed before |
| LoginForm.ToggleMode | src/components/LoginPage.tsx:91-94 | "login" becomes "register" and anything else "login", all errors are cleared, and the fields are kept |
| LoginForm.ToggleModeTwice | src/components/LoginPage.tsx:91-94 | toggling twice from "login" or "register" comes back to the same mode |
| LoginForm.OpenReset | src/components/LoginPage.tsx:14-20 | opening sets the mode to the modal type, clears the errors and empties both fields. A closed form is left alone |
| LoginForm.OpenResetRestoresInitialForm | src/components/LoginPage.tsx:6-20 | opening returns the form to its state at mount for that mode, apart from the loading flag, and opening again changes nothing |
| LoginForm.Submit | src/components/LoginPage.tsx:56-83 | an invalid submit only sets the validation errors and calls nothing. A valid one calls onLogin (if given) with the untrimmed name, empties the fields and errors, ends not loading and calls onClose if given |
| LoginForm.SubmitLogsInOnlyValidNames | src/components/LoginPage.tsx:56-77 | a login happens only with a valid name and password, and passes the name as typed |
| FormatTime.AgeAt | src/services/format_time.ts:2-15 | the four buckets are chosen by the difference in milliseconds against 1, 2 and 24 hours, are disjoint and exhaustive, and each count is the whole number of minutes, hours (2 to 23) or days (at least 1) elapsed, rounded down |
| FormatTime.FormatAge | src/services/format_time.ts:1-16 | the phrase is non-empty and has no minus sign when the item is not in the future |
| FormatTime.FormatAgeMatchesExact | src/services/format_time.ts:1-16 | the integer bucketing gives the same phrase as the code's hour arithmetic done with exact real numbers and floor, for every timestamp and clock |
| FormatTime.RenderInjective | src/services/format_time.ts:6-15 | different ages give different phrases, so the phrase determines the bucket and the count |

## Left out

- HTTP, axios, the base URL and the 10 s timeout are replaced by the abstract `Api` lookup. The failure reasons are opaque strings.
- HackerNewsApi.FetchAll: when several lookups fail, it reports the first failure by position. `Promise.all` reports the first by time, which depends on network timing.
- The item lookups of one batch run concurrently. The model runs them in id order. The resolved values do not depend on the order; which rejection is reported does (see the line above).
- The category list and the items are assumed not to change between the fetches of one query. Every page fetches the whole category list again, and pages can be loaded minutes apart. If the live list shifts between page k and page k + 1, a story can appear on both pages or on neither. The index windows still tile the list (`HackerNewsApi.PagesTile`), but the statements about loaded stories (`StoryQueries.LoadedStoriesArePrefix`, `StoryQueries.ExhaustedQueryCoversList`, `StoryListView.ViewShowsLoadedPrefix`, `UseStories.LoadMoreKeepsTracking`) hold only for an unchanging remote.
- Overlapping loads in `useStories` are not modelled: each `loadStories` runs from start to settlement in one step. The hook does not serialise loads. `refresh` and the reload on a type change start a load without checking `loading`, so a `loadMore` still in flight can settle afterwards. It would append page k + 1 after page 0, or after another category's list. `UseStories.LoadMoreKeepsTracking` holds for loads that do not overlap.
- Only the part of react-query the code configures is modelled: the page-parameter rule, the initial page and the `enabled` guards.
  - The library's caching, `staleTime`, retries, query keys and refetching are left out.
  - So `refresh` in `useStoryList` (a `refetch`) is not modelled.
- Rendering, the DOM, CSS and the intersection-observer hook are left out: they are UI with no state logic beyond flags. So are the two story-list and navbar components, the story card, the comment and reply views, `App` and `main`.
- The overlay click and the close button of the login form are left out: they only call `onClose`.
- The story card's `getDomain` is left out because it depends on the platform URL parser.
- The story card's private copy of the time formatter is left out because it is the same code as `format_time.ts`.
- LoginForm.Submit: the 1500 ms simulated delay is collapsed to an immediate success. The `catch` branch ("Login failed. Please try again."), which runs only when `onLogin` or `onClose` throws, is left out.
- FormatTime.AgeAt: timestamps and the clock are integers, and the counts are exact floors of integer divisions. The code divides in IEEE-754 double arithmetic, and its rounding is not modelled. For some items dated in the future the code's count is one lower. For example, a difference of -1,860,000 ms (31 minutes ahead) gives `diffInHours * 60 = -31.000000000000004`, which the code prints as "-32 minutes ago", while the model gives Minutes(-31). `Date` arithmetic on fractional or non-finite numbers is not modelled either.
- The messages of the `TypeError`s raised for a `null` list body and a `null` parent comment follow the V8 engine's wording. Other engines word them differently.
- Item fields are assumed well typed, for example `kids` is a list of integers. Values of the wrong JavaScript type are not modelled.
- `page` and `limit` are integers, and JavaScript numbers beyond 2^53 are not modelled.
- Story and comment ids are integers. The comments page computes its story id with `parseInt(id || '0')`, which is NaN for a non-numeric route segment. `enabled: !!storyId` is false for NaN as well as for 0, so such a route also leaves the story and comment queries idle. The model's queries (`StoryQueries.RunGetStory`, `CommentQueries.RunGetComments`, `CommentQueries.RunGetReplies`) cannot receive NaN, so that case is not modelled.
- The end-to-end test setup (server start-up, browser steps, configuration files) is left out: it is process and file plumbing.
- The service test suite calls `getTopStories`, `getNewStories`, `getAskStories`, `getShowStories` and `getJobs`, which the service class does not define. Those calls are not modelled.
