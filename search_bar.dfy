/** The search box of src/components/SearchBar.tsx: a blank query clears the
    results; otherwise the query's first character picks a user search (`@`),
    a hashtag search (`#`) or a plain post search, whose rows are turned into
    at most five result entries. */
module Search {
  import opened Common

  datatype ResultKind = UserResult | TagResult | PostResult

  datatype SearchResult = SearchResult(
    kind: ResultKind,
    id: string,
    title: string,
    subtitle: Option<string>,
    url: string)

  /** A row of `profiles` as the user search selects it. */
  datatype ProfileRow = ProfileRow(id: string, username: string, fullName: Option<string>)

  /** A row of `posts` as the two post searches select it. */
  datatype PostRow = PostRow(id: string, content: string)

  /** The read a search issues: a case-insensitive LIKE on one column of one
      table, with a row limit. */
  datatype SearchQuery = SearchQuery(table: string, column: string, pattern: string, limit: nat)

  /** The most rows any search asks for. */
  const RowLimit: nat := 5

  /** `q.startsWith(c)`, on the untrimmed query. */
  predicate StartsWith(q: string, c: char)
  {
    |q| > 0 && q[0] == c
  }

  /** Which search a query runs: exactly one of the three, chosen by its first
      character. */
  function Classify(q: string): (k: ResultKind)
    ensures k == UserResult <==> StartsWith(q, '@')
    ensures k == TagResult <==> StartsWith(q, '#')
    ensures k == PostResult <==> !StartsWith(q, '@') && !StartsWith(q, '#')
  {
    if StartsWith(q, '@') then UserResult
    else if StartsWith(q, '#') then TagResult
    else PostResult
  }

  /** The read for a query. A user search matches usernames that begin with
      the query after its `@`; the two post searches match contents that
      contain the whole query, `#` included. */
  function QueryFor(q: string): (r: SearchQuery)
    ensures r.limit == RowLimit
    ensures Classify(q) == UserResult ==>
              r.table == "profiles" && r.column == "username" && r.pattern == q[1..] + "%"
    ensures Classify(q) != UserResult ==>
              r.table == "posts" && r.column == "content" && r.pattern == "%" + q + "%"
  {
    if Classify(q) == UserResult then SearchQuery("profiles", "username", DropPrefix(q, 1) + "%", RowLimit)
    else SearchQuery("posts", "content", "%" + q + "%", RowLimit)
  }

  /** `content.slice(0, 50) + '...'`: at most fifty characters of the content,
      always followed by "...". */
  function Excerpt(content: string): (r: string)
    ensures |r| == Min(50, |content|) + 3
    ensures r[..|r| - 3] == content[..|r| - 3]
    ensures r[|r| - 3..] == "..."
  {
    Prefix(content, 50) + "..."
  }

  /** A user row: its username as title, its full name as subtitle unless that
      is null or empty (`full_name || undefined`), a link to the profile. */
  function ProfileResult(row: ProfileRow): (r: SearchResult)
    ensures r.kind == UserResult && r.id == row.id && r.title == row.username
    ensures r.subtitle.None? <==> row.fullName.None? || row.fullName.value == ""
    ensures r.subtitle.Some? ==> r.subtitle == row.fullName
    ensures r.url == "/profile/" + row.id
  {
    var subtitle := if row.fullName.Some? && row.fullName.value != "" then row.fullName else None;
    SearchResult(UserResult, row.id, row.username, subtitle, "/profile/" + row.id)
  }

  /** A hashtag-search row: the query as title, an excerpt as subtitle. */
  function TagPostResult(q: string, row: PostRow): (r: SearchResult)
    ensures r.kind == TagResult && r.id == row.id && r.title == q
    ensures r.subtitle == Some(Excerpt(row.content))
    ensures r.url == "/post/" + row.id
  {
    SearchResult(TagResult, row.id, q, Some(Excerpt(row.content)), "/post/" + row.id)
  }

  /** A post-search row: an excerpt as title and no subtitle. */
  function PostSearchResult(row: PostRow): (r: SearchResult)
    ensures r.kind == PostResult && r.id == row.id
    ensures r.title == Excerpt(row.content) && r.subtitle.None?
    ensures r.url == "/post/" + row.id
  {
    SearchResult(PostResult, row.id, Excerpt(row.content), None, "/post/" + row.id)
  }

  function MapProfiles(rows: seq<ProfileRow>): (r: seq<SearchResult>)
    ensures |r| == |rows|
    ensures forall i :: 0 <= i < |rows| ==> r[i] == ProfileResult(rows[i])
  {
    seq(|rows|, i requires 0 <= i < |rows| => ProfileResult(rows[i]))
  }

  function MapTagPosts(q: string, rows: seq<PostRow>): (r: seq<SearchResult>)
    ensures |r| == |rows|
    ensures forall i :: 0 <= i < |rows| ==> r[i] == TagPostResult(q, rows[i])
  {
    seq(|rows|, i requires 0 <= i < |rows| => TagPostResult(q, rows[i]))
  }

  function MapPosts(rows: seq<PostRow>): (r: seq<SearchResult>)
    ensures |r| == |rows|
    ensures forall i :: 0 <= i < |rows| ==> r[i] == PostSearchResult(rows[i])
  {
    seq(|rows|, i requires 0 <= i < |rows| => PostSearchResult(rows[i]))
  }

  /** The results shown after a search for `q`. `profiles` is the answer of
      the profiles table, `posts` that of the posts table; only the one the
      query reads is consulted. A rejected call keeps the earlier results; a
      reply without data (the reply's error is not inspected) shows none. */
  function ResultsAfter(q: string, profiles: Remote<Option<seq<ProfileRow>>>,
                        posts: Remote<Option<seq<PostRow>>>, before: seq<SearchResult>): (r: seq<SearchResult>)
    ensures Blank(q) ==> r == []
    ensures !Blank(q) && Classify(q) == UserResult ==>
              match profiles
              case Failure => r == before
              case Success(None) => r == []
              case Success(Some(rows)) => |r| == |rows| && forall i :: 0 <= i < |rows| ==> r[i] == ProfileResult(rows[i])
    ensures !Blank(q) && Classify(q) == TagResult ==>
              match posts
              case Failure => r == before
              case Success(None) => r == []
              case Success(Some(rows)) => |r| == |rows| && forall i :: 0 <= i < |rows| ==> r[i] == TagPostResult(q, rows[i])
    ensures !Blank(q) && Classify(q) == PostResult ==>
              match posts
              case Failure => r == before
              case Success(None) => r == []
              case Success(Some(rows)) => |r| == |rows| && forall i :: 0 <= i < |rows| ==> r[i] == PostSearchResult(rows[i])
    // every result is of the kind the query asked for
    ensures !Blank(q) && r != before ==> forall i :: 0 <= i < |r| ==> r[i].kind == Classify(q)
  {
    if Blank(q) then []
    else match Classify(q)
      case UserResult =>
        (match profiles
         case Failure => before
         case Success(data) => if data.Some? then MapProfiles(data.value) else [])
      case TagResult =>
        (match posts
         case Failure => before
         case Success(data) => if data.Some? then MapTagPosts(q, data.value) else [])
      case PostResult =>
        (match posts
         case Failure => before
         case Success(data) => if data.Some? then MapPosts(data.value) else [])
  }

  /** A store that honours the row limit yields at most five results. */
  lemma AtMostFiveResults(q: string, profiles: Remote<Option<seq<ProfileRow>>>,
                          posts: Remote<Option<seq<PostRow>>>, before: seq<SearchResult>)
    requires profiles.Success? && profiles.data.Some? ==> |profiles.data.value| <= QueryFor(q).limit
    requires posts.Success? && posts.data.Some? ==> |posts.data.value| <= QueryFor(q).limit
    requires |before| <= RowLimit
    ensures |ResultsAfter(q, profiles, posts, before)| <= RowLimit
  {
  }

  class SearchBar {
    var results: seq<SearchResult>
    var loading: bool

    constructor ()
      ensures results == [] && !loading
    {
      results := [];
      loading := false;
    }

    /** `searchData`: returns the read it issued, if any. */
    method SearchData(q: string, profiles: Remote<Option<seq<ProfileRow>>>, posts: Remote<Option<seq<PostRow>>>)
      returns (issued: Option<SearchQuery>)
      modifies this
      ensures results == ResultsAfter(q, profiles, posts, old(results))
      ensures issued == if Blank(q) then None else Some(QueryFor(q))
      ensures loading == if Blank(q) then old(loading) else false
    {
      if Blank(q) {
        results := [];
        return None;
      }
      loading := true;
      issued := Some(QueryFor(q));
      var failed := false;
      var searchResults: seq<SearchResult> := [];
      if StartsWith(q, '@') {
        match profiles {
          case Failure => failed := true;
          case Success(users) =>
            if users.Some? {
              searchResults := MapProfiles(users.value);
            }
        }
      } else if StartsWith(q, '#') {
        match posts {
          case Failure => failed := true;
          case Success(rows) =>
            if rows.Some? {
              searchResults := MapTagPosts(q, rows.value);
            }
        }
      } else {
        match posts {
          case Failure => failed := true;
          case Success(rows) =>
            if rows.Some? {
              searchResults := MapPosts(rows.value);
            }
        }
      }
      if !failed {
        results := searchResults;
      }
      loading := false;
    }
  }
}
