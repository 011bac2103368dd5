/** The comment and reply queries: `GetComments` runs `getAllComments`,
    `GetReplies` looks up a comment's direct replies itself. Both are
    disabled for id 0. */
module CommentQueries {
  import opened Wrappers
  import opened Items
  import opened HackerNewsApi

  /** `enabled: !!storyId` / `enabled: !!commentId`. */
  predicate QueryEnabled(id: int) {
    id != 0
  }

  /** `GetComments(storyId)`: `None` when disabled. */
  function RunGetComments(api: Api, storyId: int): (r: Option<Result<CommentsResult>>)
    ensures r.None? <==> storyId == 0
    ensures r.Some? ==> r.value == GetAllComments(api, storyId)
  {
    if QueryEnabled(storyId) then Some(GetAllComments(api, storyId)) else None
  }

  /** The TypeError a JavaScript engine (V8) raises when `.kids` is read on a
      `null` item. */
  const NullKidsMessage: string := "Cannot read properties of null (reading 'kids')"

  /** The query function of `GetReplies`. Unlike `getAllComments`, it keeps
      the children that have a non-empty `text`, whatever their type, and
      it fails on a deleted parent. */
  function Replies(api: Api, commentId: int): (r: Result<seq<Item>>)
    ensures r.Ok? ==> api.itemAt(commentId).Fetched? && api.itemAt(commentId).body.Some?
    ensures r.Ok? ==> |r.value| <= |KidsOf(api.itemAt(commentId).body)|
  {
    match GetStory(api, commentId)
    case Err(m) => Err(m)
    case Ok(None) => Err(NullKidsMessage)
    case Ok(Some(comment)) =>
      if comment.kids.None? || |comment.kids.value| == 0 then Ok([])
      else
        match FetchAll(api, comment.kids.value)
        case Err(m) => Err(m)
        case Ok(xs) => Ok(Keep(xs, WithText))
  }

  /** `GetReplies(commentId)`: `None` when disabled. */
  function RunGetReplies(api: Api, commentId: int): (r: Option<Result<seq<Item>>>)
    ensures r.None? <==> commentId == 0
    ensures r.Some? ==> r.value == Replies(api, commentId)
  {
    if QueryEnabled(commentId) then Some(Replies(api, commentId)) else None
  }

  /** A comment without replies yields the empty list. */
  lemma RepliesOfLeaf(api: Api, commentId: int, comment: Item)
    requires api.itemAt(commentId) == Fetched(Some(comment))
    requires comment.kids.None? || comment.kids.value == []
    ensures Replies(api, commentId) == Ok([])
  {
  }

  /** Otherwise the replies are the children, in `kids` order, that exist
      and have a non-empty text; any failed child lookup fails the query. */
  lemma RepliesOfKids(api: Api, commentId: int, comment: Item)
    requires api.itemAt(commentId) == Fetched(Some(comment))
    requires comment.kids.Some? && |comment.kids.value| > 0
    ensures Replies(api, commentId).Ok? <==> AllFetched(api, comment.kids.value)
    ensures Replies(api, commentId).Ok? ==>
      && Replies(api, commentId).value == Keep(LookedUp(api, comment.kids.value), WithText)
      && forall reply :: reply in Replies(api, commentId).value ==> Truthy(reply.text)
    ensures !AllFetched(api, comment.kids.value) ==>
      var kids := comment.kids.value;
      var k := FirstFailure(api, kids);
      k < |kids| && Replies(api, commentId) == Err(StoryFailureMessage(kids[k], api.itemAt(kids[k]).reason))
  {
    if AllFetched(api, comment.kids.value) {
      KeepMembers(LookedUp(api, comment.kids.value), WithText);
    }
  }

  /** A deleted parent, or a failed parent lookup, fails the query. */
  lemma RepliesOfMissingParent(api: Api, commentId: int)
    requires !(api.itemAt(commentId).Fetched? && api.itemAt(commentId).body.Some?)
    ensures api.itemAt(commentId) == Fetched(None) ==> Replies(api, commentId) == Err(NullKidsMessage)
    ensures api.itemAt(commentId).Failed? ==>
      Replies(api, commentId) == Err(StoryFailureMessage(commentId, api.itemAt(commentId).reason))
  {
  }

  /** The two child filters differ: a text-less comment is shown among a
      story's comments but not among a comment's replies, and a non-comment
      child with text the other way round. */
  lemma ChildFiltersDiffer(it: Item)
    ensures it.kind == "comment" && it.text.None? ==> Admits(CommentsOnly, it) && !Admits(WithText, it)
    ensures it.kind != "comment" && Truthy(it.text) ==> !Admits(CommentsOnly, it) && Admits(WithText, it)
  {
  }
}
