# Social feed client: interaction state, trending tags, search, composer, invites

A Dafny model of the client-side logic of a small social feed written as
React components over a Supabase store. Five components are modelled, each
as one Dafny module over a shared `Common` module:

- `PostCards` (src/components/PostCard.tsx): the state of one post card. It
  covers liking and unliking, opening the comment thread (which loads the
  comments), adding a comment, and the link and text used for sharing. The
  card is a class whose fields are the component's state. Each handler is a
  method that takes the outcome of its awaited remote call as a parameter.
  The like and comment handlers are specified by pure step functions
  (`LikeStep`, `AddCommentStep`), whose properties are proved.
- `Trending` (src/components/TrendingSidebar.tsx): the trending-hashtag
  ranking. It extracts `#\w+` matches from every post, lower-cases them and
  tallies them in a record (the `reduce`, modelled as the loop method
  `CountTags`). It then reads the record back in key-creation order, sorts
  it stably by count, largest first, and keeps the first five.
  `TopTagsSpec` states what the sidebar shows.
- `Search` (src/components/SearchBar.tsx): the search box. A blank query
  clears the results. Otherwise the first character of the untrimmed query
  picks a user, hashtag or post search. The model builds the LIKE pattern
  and maps the rows to result entries.
- `CreatePost` (src/components/CreatePostForm.tsx): the post composer. It
  checks the user, then the content, builds the insert payload, and clears
  the draft only on success.
- `Invites` (src/components/GroupInvites.tsx): loading pending invites and
  answering one. An answer writes a status string and, on success, filters
  the invite out of the list.

`Common` holds `Option`, the remote outcome `Remote<T> = Success(data) |
Failure`, and the JavaScript string operations the components rely on:
`trim` (with ECMAScript's full whitespace set), `slice(0, n)`, `slice(n)`,
and an ASCII `toLowerCase`.

The remote store is never modelled. Every call to it is represented by the
answer it gives, passed in as a parameter, and every handler is one atomic
step taken after that answer arrives. Each method returns the request it
issued (the like write, the comment insert, the comment fetch, the search
query, the trending read, the invite read and the invite update), or `None`
when it issues nothing. This makes "issues no write"
part of the method's contract. Callbacks (`onPostUpdate`, `onPostCreated`)
are modelled as counters of how often they were called.

Where an optimistic client would behave differently, the model follows the code:

- Liking is not optimistic. The flag and counter change only after the
  write succeeds, a failed write changes nothing, and there is no
  supersession of stale toggles.
- The comment counter also moves only after a successful insert.
- Opening the thread fetches the comments again every time; they are not
  cached.
- Creating a post does not insert it into a feed. The form calls its
  `onPostCreated` callback.

A consequence of the initial defaulting: a post that arrives with
`user_has_liked` set but no `likes_count` starts as liked with a count of 0.
A successful unlike then shows -1 (`InconsistentStartGoesNegative`). Every
step preserves `LikeConsistent`, but the initial defaulting does not
establish it.

## Model

| member | source | states |
|---|---|---|
| PostCards.CountOrZero | src/components/PostCard.tsx:20-21 | a present count is kept, an absent one becomes 0 |
| PostCards.InitialLikes | src/components/PostCard.tsx:19-20 | the card starts liked exactly when `user_has_liked` is true, with the post's count or 0 |
| PostCards.PostCard.constructor | src/components/PostCard.tsx:15-22 | the initial state of every field: thread closed and empty, empty draft, not loading, menu closed, flag and counters defaulted from the post |
| PostCards.LikeWriteFor | src/components/PostCard.tsx:88-102 | a liked post issues a delete of this viewer's like, an unliked one an insert, for this post and user |
| PostCards.LikeStep | src/components/PostCard.tsx:81-113 | the state changes exactly when a signed-in write succeeded; flag and counter change together; the counter follows the flag by exactly one; consistency (count ≥ 0, liked ⇒ count ≥ 1) is preserved |
| PostCards.LikeTwiceRestores | src/components/PostCard.tsx:88-108 | two successful clicks restore the original flag and count |
| PostCards.InconsistentStartGoesNegative | src/components/PostCard.tsx:19-20 | an own like with no counter starts inconsistent, and a successful unlike then shows -1 |
| PostCards.PostCard.HandleLike | src/components/PostCard.tsx:81-113 | the new flag and count are `LikeStep` of the old ones; no write without a user, otherwise the delete or insert the flag calls for; nothing else changes |
| PostCards.AddCommentStep | src/components/PostCard.tsx:46-79 | the thread changes exactly when a signed-in, non-blank submission succeeded; then the returned comment is prepended, the draft cleared and the count raised by one; count minus list length is preserved |
| PostCards.PostCard.HandleAddComment | src/components/PostCard.tsx:46-79 | the thread is `AddCommentStep` of the old one; without a user or with a blank draft nothing is sent; otherwise the trimmed draft is sent, loading ends false, and `onPostUpdate` runs once per success |
| PostCards.PostCard.ToggleComments | src/components/PostCard.tsx:24-44 | visibility always flips; only opening fetches (newest first); a failed fetch keeps the comments; loading ends false |
| PostCards.ShareUrl | src/components/PostCard.tsx:116 | the link is the origin, then `/post/`, then the post id, each recoverable from its position |
| PostCards.ShareText | src/components/PostCard.tsx:117 | content of up to 100 characters is shared whole; longer content as its first 100 characters followed by "..." |
| PostCards.PostCard.HandleShare | src/components/PostCard.tsx:115-145 | each share method hands over the link (and for Twitter the text), and the menu is closed afterwards |
| Trending.WordRun | src/components/TrendingSidebar.tsx:25 | the length of the maximal run of `\w` characters at the start |
| Trending.IsWordChar | src/components/TrendingSidebar.tsx:25 | `\w`: ASCII letters, digits and `_` |
| Trending.IsHashtag | src/components/TrendingSidebar.tsx:25 | the shape of a match: `#` and one or more word characters |
| Trending.StartsTag | src/components/TrendingSidebar.tsx:25 | a match starts at a position holding `#` followed by a word character |
| Trending.TagAt | src/components/TrendingSidebar.tsx:25 | the match at such a position is a hashtag, a slice of the text from that position, ending at the end of the text or before a non-word character |
| Trending.TagsFrom | src/components/TrendingSidebar.tsx:25-27 | reference reading: one match per start position, in order of the positions |
| Trending.Hashtags | src/components/TrendingSidebar.tsx:25-27 | the scanner of `match(/#(\w+)/g)`; every match is `#` followed by one or more word characters |
| Trending.SkipWordChars | src/components/TrendingSidebar.tsx:25 | no match starts at a word character, so positions inside a match add no match |
| Trending.HashtagsStep | src/components/TrendingSidebar.tsx:25-27 | one scanner step on a suffix: nothing left under two characters, a match taken at a start position, one character skipped otherwise |
| Trending.HashtagsFrom | src/components/TrendingSidebar.tsx:25-27 | the scan of any suffix of the text gives the reference matches from that position on |
| Trending.HashtagsAreTagsAtStarts | src/components/TrendingSidebar.tsx:25-27 | the matches are, left to right and with repeats, the whole-run tokens at every position where `#` is followed by a word character |
| Trending.NoHashNoTags | src/components/TrendingSidebar.tsx:27 | text without `#` yields no match |
| Trending.LowerHashtag | src/components/TrendingSidebar.tsx:29 | a lower-cased match is still a hashtag and has no upper-case letter |
| Trending.LowerAll | src/components/TrendingSidebar.tsx:29 | each tag lower-cased, in place |
| Trending.AllTags | src/components/TrendingSidebar.tsx:26-29 | every collected tag is a lower-cased hashtag |
| Trending.AllTagsAppend | src/components/TrendingSidebar.tsx:26-29 | the tags of two batches of posts are the tags of each, in order |
| Trending.Distinct | src/components/TrendingSidebar.tsx:31-37 | the record's keys in creation order: exactly the tags of the list, none twice |
| Trending.Occurrences | src/components/TrendingSidebar.tsx:31-34 | a tag's count is positive exactly when it occurs |
| Trending.TallyCounts | src/components/TrendingSidebar.tsx:31-34 | the record holds exactly the tags seen, each mapped to its total number of occurrences, repeats within one post included |
| Trending.Tally | src/components/TrendingSidebar.tsx:31-34 | the record the `reduce` builds; its keys and values are given by `TallyCounts` |
| Trending.CountStep | src/components/TrendingSidebar.tsx:31-34 | one more tag appends it to the key order if new and raises its count by one, starting from 0 |
| Trending.CountTags | src/components/TrendingSidebar.tsx:31-34 | the `reduce` loop builds the keys in first-occurrence order and maps each tag to its number of occurrences (at least 1) |
| Trending.Entries | src/components/TrendingSidebar.tsx:36-37 | one entry per distinct tag |
| Trending.EntriesFacts | src/components/TrendingSidebar.tsx:36-37 | entries have distinct tags, each with its own count, and every tag has its entry |
| Trending.Insert | src/components/TrendingSidebar.tsx:38 | one step of a stable insertion sort: the entry goes before the first entry whose count is not larger |
| Trending.SortByCount | src/components/TrendingSidebar.tsx:38 | `.sort((a, b) => b.count - a.count)` as a stable sort; a sorted permutation by `SortPermutes` and `SortSorted` |
| Trending.InsertMembers | src/components/TrendingSidebar.tsx:38 | an insertion step holds exactly the new entry and the old ones |
| Trending.InsertPermutes | src/components/TrendingSidebar.tsx:38 | an insertion step adds exactly the new entry |
| Trending.InsertSorted | src/components/TrendingSidebar.tsx:38 | an insertion step keeps the list sorted by count, largest first |
| Trending.InsertTagsDistinct | src/components/TrendingSidebar.tsx:38 | inserting a new tag keeps tags distinct |
| Trending.SortPermutes | src/components/TrendingSidebar.tsx:38 | the sort is a permutation of its input |
| Trending.SortSorted | src/components/TrendingSidebar.tsx:38 | the sort's output is non-increasing in count |
| Trending.SortTagsDistinct | src/components/TrendingSidebar.tsx:38 | the sort keeps tags distinct |
| Trending.SortedEntriesFacts | src/components/TrendingSidebar.tsx:31-38 | the sorted tally has one entry per distinct tag, is sorted, and each entry is a tag of the posts with its count |
| Trending.PrefixTags | src/components/TrendingSidebar.tsx:39 | the tags kept are those of the first entries |
| Trending.CutKeepsLargest | src/components/TrendingSidebar.tsx:38-39 | every entry cut off counts no more than any entry kept |
| Trending.TagsOf | src/components/TrendingSidebar.tsx:36-37 | the tags of a list of entries, in order |
| Trending.TopTags | src/components/TrendingSidebar.tsx:26-39 | the whole pipeline: all tags, tallied, sorted by count, first five; its properties are `TopTagsLength` and `TopTagsSpec` |
| Trending.TopTagsCounts | src/components/TrendingSidebar.tsx:25-39 | each tag shown is a lower-cased hashtag with its total number of occurrences, at least 1 |
| Trending.TopTagsCutOff | src/components/TrendingSidebar.tsx:38-39 | no tag left out occurs more often than any tag shown |
| Trending.TopTagsLength | src/components/TrendingSidebar.tsx:39 | five entries, or one per distinct tag when there are fewer than five |
| Trending.TopTagsSpec | src/components/TrendingSidebar.tsx:25-39 | the list is sorted by count, has no tag twice, shows each tag's true count, and drops only tags no more frequent than those kept |
| Trending.PostWithoutTagsChangesNothing | src/components/TrendingSidebar.tsx:26-29 | a post without hashtags does not change the ranking |
| Trending.TrendingSidebar.constructor | src/components/TrendingSidebar.tsx:10-11 | starts with no tags and loading |
| Trending.TrendingSidebar.FetchTrendingTags | src/components/TrendingSidebar.tsx:17-48 | always issues the read of `posts.content`; on success the list is the top-five ranking of the returned contents; on failure it is kept; loading ends false either way |
| Search.StartsWith | src/components/SearchBar.tsx:43 | `q.startsWith(c)` on the untrimmed query: non-empty with `c` first |
| Search.Classify | src/components/SearchBar.tsx:43-77 | `@` gives a user search, `#` a hashtag search, anything else a post search, tested on the untrimmed query |
| Search.QueryFor | src/components/SearchBar.tsx:45-83 | user search: `profiles.username` LIKE the query after `@` then `%`; post searches: `posts.content` LIKE `%`, query, `%`; always at most 5 rows |
| Search.Excerpt | src/components/SearchBar.tsx:73 | at most the first 50 characters, always followed by "..." |
| Search.ProfileResult | src/components/SearchBar.tsx:52-58 | a user entry: username as title, full name as subtitle unless null or empty, link `/profile/` + id |
| Search.TagPostResult | src/components/SearchBar.tsx:69-75 | a hashtag entry: the query as title, an excerpt as subtitle, link `/post/` + id |
| Search.PostSearchResult | src/components/SearchBar.tsx:86-91 | a post entry: an excerpt as title, no subtitle, link `/post/` + id |
| Search.MapProfiles | src/components/SearchBar.tsx:52-58 | one entry per row, same order |
| Search.MapTagPosts | src/components/SearchBar.tsx:69-75 | one entry per row, same order |
| Search.MapPosts | src/components/SearchBar.tsx:86-91 | one entry per row, same order |
| Search.ResultsAfter | src/components/SearchBar.tsx:33-95 | blank query: no results; otherwise the chosen branch's rows mapped one to one and in order; a reply without data gives none; a rejected call keeps the old results; all new entries have the branch's kind |
| Search.AtMostFiveResults | src/components/SearchBar.tsx:45-92 | when the store honours the row limit, at most five results are shown |
| Search.SearchBar.constructor | src/components/SearchBar.tsx:17-18 | starts with no results, not loading |
| Search.SearchBar.SearchData | src/components/SearchBar.tsx:33-101 | results become `ResultsAfter`; a blank query issues no read and leaves loading alone; any other query issues `QueryFor` and ends not loading |
| CreatePost.Validate | src/components/CreatePostForm.tsx:19-27 | no user is refused first; then blank content; otherwise accepted |
| CreatePost.Payload | src/components/CreatePostForm.tsx:33-37 | trimmed content; trimmed image link, or null when it trims to nothing |
| CreatePost.SubmitEnabled | src/components/CreatePostForm.tsx:98 | the button is enabled when nothing is in flight and the content is not blank |
| CreatePost.EnabledSubmitPassesValidation | src/components/CreatePostForm.tsx:98 | when the button is enabled, a signed-in submission passes validation and sends non-blank content |
| CreatePost.CreatePostForm.constructor | src/components/CreatePostForm.tsx:13-15 | empty draft, not submitting |
| CreatePost.CreatePostForm.HandleSubmit | src/components/CreatePostForm.tsx:17-52 | a refused submission changes nothing; an accepted one sends `Payload`, ends not submitting, clears the draft and calls `onPostCreated` once on success, and keeps the draft on failure |
| Invites.PendingFor | src/components/GroupInvites.tsx:47-48 | the read selects exactly the invites addressed to the user whose status is `pending` |
| Invites.StatusFor | src/components/GroupInvites.tsx:64 | `accepted` exactly when accepting, `declined` exactly when declining |
| Invites.Remove | src/components/GroupInvites.tsx:69 | the kept invites are exactly those whose id differs |
| Invites.RemoveAppend | src/components/GroupInvites.tsx:69 | the filter distributes over concatenation, so kept invites stay in order |
| Invites.RemoveAbsent | src/components/GroupInvites.tsx:69 | removing an id no invite has leaves the list as it is |
| Invites.RemoveIdempotent | src/components/GroupInvites.tsx:69 | removing twice is removing once |
| Invites.RemoveCount | src/components/GroupInvites.tsx:69 | the list shrinks by exactly the number of invites with that id |
| Invites.GroupInvites.constructor | src/components/GroupInvites.tsx:9-10 | no invites, loading |
| Invites.GroupInvites.FetchInvites | src/components/GroupInvites.tsx:18-58 | without a user nothing is read or changed; otherwise the pending-for-user read is issued, its rows shown on success and the list kept on failure, and loading ends false |
| Invites.GroupInvites.HandleInviteResponse | src/components/GroupInvites.tsx:60-75 | writes `StatusFor(accept)` for the invite; on success the list is `Remove` of the old one, on failure it is unchanged |
| Common.Prefix | src/components/PostCard.tsx:117 | `slice(0, n)`: the first min(n, length) elements |
| Common.DropPrefix | src/components/SearchBar.tsx:48 | `slice(n)`: the rest after the first n characters |
| Common.LowerChar | src/components/TrendingSidebar.tsx:29 | an ASCII capital becomes the small letter at the same offset from `a`; every other character is kept; the result is never a capital |
| Common.Lower | src/components/TrendingSidebar.tsx:29 | same length, each ASCII capital replaced by its small letter, everything else kept |
| Common.IsJsWhitespace | src/components/CreatePostForm.tsx:24 | the characters ECMAScript's `trim` removes: the white space and line terminator characters |
| Common.TrimStart | src/components/CreatePostForm.tsx:24 | removes leading whitespace; never longer than its input; characterised by `TrimStartSpec` |
| Common.TrimEnd | src/components/CreatePostForm.tsx:24 | removes trailing whitespace; never longer than its input; characterised by `TrimEndSpec` |
| Common.Trim | src/components/PostCard.tsx:62 | `trim()`: both ends; never longer than its input; characterised by `TrimSpec` |
| Common.Blank | src/components/SearchBar.tsx:34 | `!s.trim()`: the trimmed text is empty; all whitespace by `TrimBlank` |
| Common.TrimStartSpec | src/components/CreatePostForm.tsx:24 | leading trim drops only whitespace and stops at the first other character |
| Common.TrimEndSpec | src/components/CreatePostForm.tsx:24 | trailing trim drops only whitespace and stops at the last other character |
| Common.TrimBlank | src/components/SearchBar.tsx:34 | `!s.trim()` holds exactly when `s` is all whitespace |
| Common.TrimSpec | src/components/PostCard.tsx:52 | the trimmed text is a contiguous part of the input, does not start or end with whitespace, and is empty exactly for all-whitespace input |
| Common.TrimIdempotent | src/components/CreatePostForm.tsx:35 | trimming twice is trimming once |

## Left out

- The Supabase client and its query builder (src/lib/supabase.ts:1-6). Every call is an outcome parameter. The model does not implement how the store evaluates LIKE patterns, `.eq` filters, `.order` or `.limit`: rows are taken as the store returns them.
- Invites.GroupInvites.FetchInvites: the contract states the filter the read asks for; it does not state that the rows the store returns satisfy it, because that is the store's job.
- Search.SearchBar.SearchData: the two remote parameters stand for the answer of the `profiles` table and of the `posts` table; only the one the branch reads is used.
- Async interleaving: overlapping requests, rapid clicks against closure-captured state, and the 300 ms `debounce` in src/components/SearchBar.tsx:103. Each handler is one atomic step.
- Rendering and browser effects: JSX, toasts, `console.error`, `formatDistanceToNow`, `navigator.clipboard`, `window.open`, `encodeURIComponent`, the share-menu toggle button (src/components/PostCard.tsx:203), the click-outside listener and the input handler of the search box (src/components/SearchBar.tsx:22-31, 105-110). `HandleShare` returns the action handed to the browser with raw text and link.
- The `useEffect` hooks that trigger the fetches on mount. The fetch methods are modelled; when they run is not.
- Numbers: counts are mathematical integers. JavaScript numbers are doubles, and `typeof NaN === 'number'` is not modelled.
- Strings are sequences of Unicode scalar values. JavaScript's `length` and `slice` count UTF-16 code units, so text with characters outside the Basic Multilingual Plane is cut at a different place.
- Lower-casing is ASCII only, and `\w` is ASCII letters, digits and `_`, as in JavaScript's non-Unicode regular expressions.
- PostCards.PostCard.HandleAddComment: the insert's outcome is its first returned row. A successful reply with an empty array, which would prepend `undefined`, is not modelled.
- Trending: the stable insertion sort fixes an order among equal counts. ECMAScript's sort is stable, so ties stay in first-occurrence order, but no property of tie order is stated.
- The navigation and layout files (src/components/Navbar.tsx, src/components/MobileNavbar.tsx, src/components/Sidebar.tsx, src/components/MainFeed.tsx, src/App.tsx, src/pages/HomePage.tsx, src/pages/CreatePostPage.tsx, tailwind.config.js): they hold no logic of this core.
- Aggregate counts are not computed anywhere in this code. They arrive on `Post` (src/lib/supabase.ts:26-28) and are only defaulted.
