# Feed controller of a React Native news reader, in Dafny

The app lists stories from a paginated search API. Its one piece of real logic
is the `HomeScreen` component in `App.js`, which is a small sequential state
machine over five fields:

- `posts`, an append-only list.
- `currentPage`, a cursor that starts at `INITIAL_PAGE = 0`.
- `isFetchingMore`, the in-flight flag.
- `lastFetchedPage`, null or a page number.
- `searchQuery`, a string.

The component also derives pure views from that state: the case-insensitive
search filter, the page count, the page buttons and the list chosen for
display. The detail screen `src/PostDetailScreen.js` adds a fixed-template
formatter, `formatPostDetails`.

Layout:

- `wrappers.dfy` (`Wrappers`): `Option`, used for `lastFetchedPage`.
- `text.dfy` (`Text`): lower-casing, `includes` and `join`, with their lemmas.
- `posts.dfy` (`Posts`): the `Post` record. Its `tags` field is the API's `_tags`.
- `views.dfy` (`Views`): `filteredPosts`, `totalPages`, the page buttons,
  JavaScript `slice` semantics, the page window and the displayed list.
- `feed.dfy` (`Feed`): the handlers as pure transitions on a `FeedState` value,
  an event-trace semantics, and the class `HomeScreen`. Each method of the class
  updates the fields in place and is proved to produce `State() == F(old(State()))`
  for the matching transition `F`.
- `post_details.dfy` (`PostDetails`): `formatPostDetails` and its layout lemmas.

`fetchPosts` is split in two. Its synchronous start raises the flag and hands
the page to the API; the method returns that page as `request`. Its completion
receives the API's answer as a `FetchOutcome`, either `Fetched(hits)` or
`Failed`. A ghost field `pending` remembers the page captured by the call in
flight, so a completion always settles the fetch that was started.

Behaviour of the code that the lemmas make explicit:

- After the mount fetch of page 0 succeeds, `lastFetchedPage == currentPage == 0`.
  The next end-of-list event therefore fetches nothing (`Feed.MountThenScroll`).
- With an empty query the display cursor is 1-based: `(currentPage - 1) * 10`.
  So right after mount, page 0 shows an empty list.
- After a failed fetch of page p, the next scroll asks for page p + 1. The failed
  page is skipped, not retried (`Feed.FailedPageIsSkipped`).
- `slice` follows JavaScript: a negative index counts from the end of the list,
  and an out-of-range window is empty, never an error. `handlePagination` does
  not clamp, so a negative page shows a window counted from the end
  (`Views.NegativePageCountsFromEnd`).

## Model

| member | source | states |
|---|---|---|
| Text.LowerChar | App.js:45-46 | the folded character is never upper-case, and a character that is not an upper-case ASCII letter is kept |
| Text.Lower | App.js:45-46 | lower-casing keeps the length and folds each character in place: an upper-case ASCII letter becomes its lower-case letter, every other character is kept, and no upper-case letter is left |
| Text.LowerIdempotent | App.js:45-46 | folding an already folded string changes nothing |
| Text.Includes | App.js:45-46 | `includes` holds whenever the needle is a prefix, and only when the needle is no longer than the haystack |
| Text.IncludesIff | App.js:45-46 | `includes` holds exactly when the needle occurs at some position of the haystack (both directions) |
| Text.IncludesEmpty | App.js:45-46 | the empty string is included in every string |
| Text.Join | src/PostDetailScreen.js:20 | `join` of no parts is empty, of one part is that part, and of two or more starts with the first part and a separator |
| Text.JoinLength | src/PostDetailScreen.js:20 | `join` of n >= 1 parts is as long as the parts plus n - 1 separators; of no parts, empty |
| Text.JoinSnoc | src/PostDetailScreen.js:20 | appending a part to a non-empty list appends one separator and the part to the joined text |
| Text.JoinSingle | src/PostDetailScreen.js:20 | a single part is joined with no separator |
| Views.SliceIsSubsequence | App.js:123 | any window of the list is an order-preserving subsequence of it |
| Views.Matches | App.js:44-47 | a post matches exactly when the folded query occurs somewhere in the folded title or the folded author; the empty query matches every post |
| Views.FilteredPosts | App.js:42-49 | the result is no longer than `posts`, and each of its posts is in `posts` and matches the folded query in title or author |
| Views.FilterKeepsMatches | App.js:42-49 | every post of `posts` that matches is kept, so the result holds exactly the matching posts |
| Views.FilterIsSubsequence | App.js:42-49 | the filter result is an order-preserving subsequence of `posts` |
| Views.FilterAppend | App.js:42-49 | filtering commutes with concatenation: the matches of a newly appended page come after the older matches |
| Views.FilterEmptyQuery | App.js:42-49 | an empty query keeps every post |
| Views.FilterCaseInsensitive | App.js:42-49 | a query and its lower-case form select the same posts (the query is folded at filter time) |
| Views.TotalPages | App.js:71-73 | the page count is the ceiling of length / 10: enough pages for all posts, the last page non-empty, 0 exactly when there are no posts |
| Views.PageButtons | App.js:149 | the buttons are exactly the numbers 1..totalPages, once each, in increasing order |
| Views.Slice | App.js:123 | `slice(start, end)` never fails and returns at most the list: an in-range window is `s[start..end]`, a reversed window or one starting past the list is empty, an end past the list stops at its end, a negative index in `[-length, 0)` counts from the end whatever the other index, a start below `-length` counts as 0 and an end below `-length` gives the empty list |
| Views.PaginatedPosts | App.js:123 | the page window holds at most 10 posts; page 0 and pages past the data are empty; page c >= 1 is `posts[(c-1)*10 .. min(c*10, length)]` |
| Views.PaginatedIsSubsequence | App.js:123 | the page window of any cursor is an order-preserving subsequence of `posts` |
| Views.NegativePageCountsFromEnd | App.js:123 | a negative page whose window fits in the list shows `posts[length + (page-1)*10 .. length + page*10]`, counted from the end |
| Views.PageNonEmptyIffButton | App.js:123 | a page c >= 0 shows posts exactly when c is one of the page buttons |
| Views.PagesUpToPrefix | App.js:123 | the pages 1..k read in order are the first min(10k, length) posts |
| Views.PagesPartitionPosts | App.js:123 | the pages behind the buttons 1..totalPages, read in order, are exactly `posts` |
| Views.DisplayedPosts | App.js:121-124 | with a non-empty query the display is the filter result, all of it matching; with an empty query it is the page window of the cursor, at most 10 posts; either way a subsequence of `posts` |
| Views.SearchIgnoresPage | App.js:124 | with a non-empty query the display is the filter result, whatever the cursor |
| Feed.CompleteFetch | App.js:30-39 | on success the old posts are a prefix of the new, the hits follow them and `lastFetchedPage` is the page; on failure posts and `lastFetchedPage` are kept; always the flag drops and cursor and query are kept |
| Feed.BeginFetch | App.js:26-28 | starting a fetch requests the given page and raises the flag, nothing else changes |
| Feed.Mount | App.js:51-53 | mounting requests the current page and raises the flag, nothing else changes |
| Feed.EndReached | App.js:55-61 | a fetch starts exactly when no fetch is in flight and the last fetched page is not the cursor; it then moves the cursor to old + 1, requests exactly that page and raises the flag, touching nothing else; otherwise nothing changes |
| Feed.Search | App.js:67-69 | the query is stored verbatim and nothing else changes |
| Feed.Paginate | App.js:75-77 | the cursor becomes the page, unclamped, and nothing else changes; no fetch is requested |
| Feed.NoRefetchAfterSuccess | App.js:55-56 | right after page p arrives while the cursor is on p, reaching the end changes nothing and requests nothing |
| Feed.FailedPageIsSkipped | App.js:55-59 | after the fetch of page c + 1 fails, the next end-of-list requests c + 2 |
| Feed.MountThenScroll | App.js:51-56 | from construction, mount requests page 0; once it succeeds posts are the hits, the empty-query display is empty, the buttons cover the hits and reaching the end requests nothing |
| Feed.PostsAccumulate | App.js:31-34 | over any sequence of events, posts end as the old posts followed by the hits of each successful fetch in completion order |
| Feed.LastFetchedTracksSuccess | App.js:31-36 | over any sequence of events, `lastFetchedPage` is the page of the latest successful fetch, or unchanged if none succeeded |
| Feed.HomeScreen.constructor | App.js:14-24 | the state starts with no posts, cursor 0, no fetch in flight, no last page and an empty query |
| Feed.HomeScreen.FetchPostsBegin | App.js:26-29 | the flag rises, the page is recorded as in flight and nothing else changes |
| Feed.HomeScreen.FetchPostsComplete | App.js:30-39 | the fields become `CompleteFetch` of the old state for the settled page, and nothing is left in flight |
| Feed.HomeScreen.ComponentDidMount | App.js:51-53 | the fields become `Mount` of the old state, and the request is the current page |
| Feed.HomeScreen.HandleEndReached | App.js:55-61 | the fields and the request are `EndReached` of the old state; a started fetch is the one in flight |
| Feed.HomeScreen.HandleMomentumScrollBegin | App.js:63-65 | behaves exactly as `HandleEndReached` |
| Feed.HomeScreen.HandleSearch | App.js:67-69 | the fields become `Search` of the old state |
| Feed.HomeScreen.HandlePagination | App.js:75-77 | the fields become `Paginate` of the old state |
| PostDetails.FormatPostDetails | src/PostDetailScreen.js:17-21 | the text begins with "Title: "; with no tags it ends with "Tags: " |
| PostDetails.FormatLayout | src/PostDetailScreen.js:20 | the labels Title, Author, URL, Created At, Tags appear in that order, each followed by its field, at offsets fixed by the field lengths; the joined tags end the text |
| PostDetails.FormatLength | src/PostDetailScreen.js:18-20 | the length is the 46-character template plus the four fields, the tags and n - 1 separators for n >= 1 tags |
| PostDetails.FormatSingleTag | src/PostDetailScreen.js:20 | a single tag ends the text right after "Tags: ", with no separator |

## Left out

- The HTTP request through `axios` to the search endpoint (App.js:7, 9, 29). The page requested is an output, and the answer is an input.
- React's asynchronous, batched `setState` and any interleaving of events with it. Each handler is one atomic update.
- Feed.HomeScreen.FetchPostsBegin: requires that no fetch is in flight. Every call site of `fetchPosts` meets this in a sequential run, so overlapping fetches are not modelled.
- Feed.HomeScreen.ComponentDidMount: requires that no fetch is in flight, which holds when the component mounts.
- Cancellation, and completions that arrive after the screen unmounts. The source handles neither: an awaited request still calls `setState` after unmount.
- `toLowerCase` beyond ASCII. Lower-casing folds only `A`-`Z`.
- A post without a `url`, which the template prints as `undefined`. `url` is always a string here.
- Validation of the API payload. The source does none, and the model takes `hits` as well-formed posts.
- `console.error` logging of a failed fetch. It changes no state.
- The markup and styles: `renderItem`, `Card`, `ListItem`, `Button`, `FlatList` and `StyleSheet` (App.js:79-98, 126-168, 212-306; src/PostDetailScreen.js:4-15, 23-43). Also the list key extractors, the scroll thresholds and the commented-out header code (App.js:100-118).
- The raw-JSON detail screen in App.js (App.js:172-188). Its output is `JSON.stringify`'s, which is not part of this model.
- Navigation and the stack navigator wiring (App.js:190-211).
