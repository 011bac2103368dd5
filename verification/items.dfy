/** The Hacker News item record (a story, a job or a comment) as the
    client reads it from the remote API, and the five story categories. */
module Items {
  import opened Wrappers

  /** One item of the remote API. `kind` is the item's `type` field
      ("story", "comment", "job", ...). `author` is the `by` field. Fields the API may omit are
      `Option`s; `kids` lists the ids of the item's direct replies. */
  datatype Item = Item(
    id: int,
    kind: string,
    author: string,
    time: int,
    title: Option<string>,
    url: Option<string>,
    score: Option<int>,
    descendants: Option<int>,
    text: Option<string>,
    kids: Option<seq<int>>)

  /** JavaScript truthiness of an optional string: present and non-empty. */
  predicate Truthy(s: Option<string>) {
    s.Some? && s.value != ""
  }

  /** The story categories the client offers. */
  datatype StoryType = Top | New | Ask | Show | Jobs

  /** The category the story list falls back to when the route names none. */
  const DefaultStoryType: string := "top"

  /** The category's name as it appears in routes and in the list path. */
  function TypeName(t: StoryType): string {
    match t
    case Top => "top"
    case New => "new"
    case Ask => "ask"
    case Show => "show"
    case Jobs => "jobs"
  }

  /** Category validation: exactly the five names are accepted. */
  function ParseStoryType(name: string): (r: Option<StoryType>)
    ensures r.Some? <==> name in {"top", "new", "ask", "show", "jobs"}
    ensures r.Some? ==> TypeName(r.value) == name
  {
    if name == "top" then Some(Top)
    else if name == "new" then Some(New)
    else if name == "ask" then Some(Ask)
    else if name == "show" then Some(Show)
    else if name == "jobs" then Some(Jobs)
    else None
  }

  lemma ParseTypeNameRoundTrip(t: StoryType)
    ensures ParseStoryType(TypeName(t)) == Some(t)
  {
  }
}
