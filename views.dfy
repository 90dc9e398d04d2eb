/** The pure views `HomeScreen` derives from its state: the search filter,
    the page count, the page buttons and the list chosen for display. */
module Views {
  import opened Posts
  import opened Text

  /** `ITEMS_PER_PAGE`: the size of one display page. */
  const ITEMS_PER_PAGE: nat := 10

  /** `a` is `b` with some elements dropped, the rest kept in order. */
  predicate IsSubsequence<T(==)>(a: seq<T>, b: seq<T>)
    decreases |b|
  {
    if a == [] then true
    else if b == [] then false
    else (a[0] == b[0] && IsSubsequence(a[1..], b[1..])) || IsSubsequence(a, b[1..])
  }

  lemma {:induction false} SliceIsSubsequence<T>(s: seq<T>, i: nat, j: nat)
    requires i <= j <= |s|
    ensures IsSubsequence(s[i..j], s)
    decreases |s|
  {
    if i == j {
    } else if i == 0 {
      assert s[1..][0..j - 1] == s[1..j];
      SliceIsSubsequence(s[1..], 0, j - 1);
    } else {
      assert s[1..][i - 1..j - 1] == s[i..j];
      SliceIsSubsequence(s[1..], i - 1, j - 1);
    }
  }

  /** The filter test: the folded title or the folded author includes the
      folded query. */
  predicate Matches(p: Post, query: string): (b: bool)
    ensures b <==> (exists i: nat :: OccursAt(Lower(p.title), Lower(query), i)) ||
                   (exists i: nat :: OccursAt(Lower(p.author), Lower(query), i))
    ensures query == "" ==> b
  {
    IncludesIff(Lower(p.title), Lower(query));
    IncludesIff(Lower(p.author), Lower(query));
    Includes(Lower(p.title), Lower(query)) || Includes(Lower(p.author), Lower(query))
  }

  /** `filteredPosts`: the posts that match the search query, in order. */
  function FilteredPosts(posts: seq<Post>, query: string): (r: seq<Post>)
    ensures |r| <= |posts|
    ensures forall p :: p in r ==> p in posts && Matches(p, query)
  {
    if posts == [] then []
    else if Matches(posts[0], query) then [posts[0]] + FilteredPosts(posts[1..], query)
    else FilteredPosts(posts[1..], query)
  }

  /** Filtering keeps the order of the list: it commutes with concatenation,
      so the posts of an appended page are filtered after the older ones. */
  lemma {:induction false} FilterAppend(a: seq<Post>, b: seq<Post>, query: string)
    ensures FilteredPosts(a + b, query) == FilteredPosts(a, query) + FilteredPosts(b, query)
  {
    if a == [] {
      assert a + b == b;
    } else {
      assert (a + b)[1..] == a[1..] + b;
      FilterAppend(a[1..], b, query);
    }
  }

  lemma {:induction false} FilterIsSubsequence(posts: seq<Post>, query: string)
    ensures IsSubsequence(FilteredPosts(posts, query), posts)
  {
    if posts != [] {
      FilterIsSubsequence(posts[1..], query);
    }
  }

  /** Every matching post is kept: with `FilteredPosts`' own contract, the
      result holds exactly the matching posts. */
  lemma {:induction false} FilterKeepsMatches(posts: seq<Post>, query: string, i: nat)
    requires i < |posts| && Matches(posts[i], query)
    ensures posts[i] in FilteredPosts(posts, query)
  {
    if i > 0 {
      FilterKeepsMatches(posts[1..], query, i - 1);
    }
  }

  /** The empty query is included in every title, so nothing is filtered out. */
  lemma {:induction false} FilterEmptyQuery(posts: seq<Post>)
    ensures FilteredPosts(posts, "") == posts
  {
    if posts != [] {
      assert Lower("") == "";
      IncludesEmpty(Lower(posts[0].title));
      FilterEmptyQuery(posts[1..]);
    }
  }

  /** The query is folded at filter time: a query and its lower-case form
      select the same posts. */
  lemma {:induction false} FilterCaseInsensitive(posts: seq<Post>, query: string)
    ensures FilteredPosts(posts, query) == FilteredPosts(posts, Lower(query))
  {
    LowerIdempotent(query);
    if posts != [] {
      FilterCaseInsensitive(posts[1..], query);
    }
  }

  /** `totalPages`: `Math.ceil(posts.length / ITEMS_PER_PAGE)`. */
  function TotalPages(count: nat): (r: nat)
    ensures r * ITEMS_PER_PAGE >= count
    ensures count > 0 ==> (r - 1) * ITEMS_PER_PAGE < count
    ensures r == 0 <==> count == 0
  {
    (count + ITEMS_PER_PAGE - 1) / ITEMS_PER_PAGE
  }

  /** The page buttons: `Array.from({ length: total }, (_, i) => i + 1)`. */
  function PageButtons(total: nat): (r: seq<int>)
    ensures |r| == total
    ensures forall k :: k in r <==> 1 <= k <= total
    ensures forall i, j :: 0 <= i < j < |r| ==> r[i] < r[j]
  {
    var r := seq(total, i => i + 1);
    ButtonsCover(r, total);
    r
  }

  lemma ButtonsCover(r: seq<int>, total: nat)
    requires r == seq(total, i => i + 1)
    ensures forall k :: 1 <= k <= total ==> k in r
  {
    forall k | 1 <= k <= total ensures k in r {
      assert r[k - 1] == k;
    }
  }

  /** How `Array.prototype.slice` turns a relative index into a position:
      a negative index counts from the end, and both are clamped to the list. */
  function SliceIndex(relative: int, length: nat): (r: nat)
    ensures r <= length
  {
    if relative < 0 then (if length + relative < 0 then 0 else length + relative)
    else if relative < length then relative
    else length
  }

  /** `Array.prototype.slice(start, end)`: never fails; an empty or reversed
      window gives the empty list. */
  function Slice<T>(s: seq<T>, start: int, end: int): (r: seq<T>)
    ensures |r| <= |s|
    ensures 0 <= start <= end <= |s| ==> r == s[start..end]
    ensures 0 <= end <= start ==> r == []
    ensures |s| <= start ==> r == []
    ensures 0 <= start && |s| < end ==> r == Slice(s, start, |s|)
    ensures -|s| <= start < 0 ==> r == Slice(s, |s| + start, end)
    ensures -|s| <= end < 0 ==> r == Slice(s, start, |s| + end)
    ensures start < -|s| ==> r == Slice(s, 0, end)
    ensures end < -|s| ==> r == []
    decreases (if start < 0 then 2 else 0) + (if end < 0 || end > |s| then 1 else 0)
  {
    var from, to := SliceIndex(start, |s|), SliceIndex(end, |s|);
    if from < to then s[from..to] else []
  }

  /** The page slice of `render`:
      `posts.slice((currentPage - 1) * ITEMS_PER_PAGE, currentPage * ITEMS_PER_PAGE)`. */
  function PaginatedPosts(posts: seq<Post>, page: int): (r: seq<Post>)
    ensures |r| <= ITEMS_PER_PAGE
    ensures page == 0 ==> r == []
    ensures page >= 1 && (page - 1) * ITEMS_PER_PAGE >= |posts| ==> r == []
    ensures page >= 1 && (page - 1) * ITEMS_PER_PAGE < |posts| ==>
      r == posts[(page - 1) * ITEMS_PER_PAGE ..
                 if page * ITEMS_PER_PAGE < |posts| then page * ITEMS_PER_PAGE else |posts|]
  {
    Slice(posts, (page - 1) * ITEMS_PER_PAGE, page * ITEMS_PER_PAGE)
  }

  /** A non-negative page shows posts exactly when it has a button. */
  lemma PageNonEmptyIffButton(posts: seq<Post>, page: int)
    requires page >= 0
    ensures PaginatedPosts(posts, page) != [] <==> page in PageButtons(TotalPages(|posts|))
  {
  }

  /** The pages behind buttons 1..k, one after the other. */
  function PagesUpTo(posts: seq<Post>, k: nat): seq<Post> {
    if k == 0 then [] else PagesUpTo(posts, k - 1) + PaginatedPosts(posts, k)
  }

  lemma {:induction false} PagesUpToPrefix(posts: seq<Post>, k: nat)
    ensures PagesUpTo(posts, k) ==
            posts[..if k * ITEMS_PER_PAGE < |posts| then k * ITEMS_PER_PAGE else |posts|]
  {
    if k > 0 {
      PagesUpToPrefix(posts, k - 1);
    }
  }

  /** The page buttons split the accumulated posts: reading pages 1..totalPages
      in order yields every post exactly once. */
  lemma PagesPartitionPosts(posts: seq<Post>)
    ensures PagesUpTo(posts, TotalPages(|posts|)) == posts
  {
    PagesUpToPrefix(posts, TotalPages(|posts|));
  }

  lemma PaginatedIsSubsequence(posts: seq<Post>, page: int)
    ensures IsSubsequence(PaginatedPosts(posts, page), posts)
  {
    var from := SliceIndex((page - 1) * ITEMS_PER_PAGE, |posts|);
    var to := SliceIndex(page * ITEMS_PER_PAGE, |posts|);
    if from < to {
      SliceIsSubsequence(posts, from, to);
    }
  }

  /** A negative page, which `handlePagination` does not reject, shows the
      window that lies as far from the end of the list as page 1 - page lies
      from the start. */
  lemma NegativePageCountsFromEnd(posts: seq<Post>, page: int)
    requires page < 0 && (1 - page) * ITEMS_PER_PAGE <= |posts|
    ensures PaginatedPosts(posts, page) ==
            posts[|posts| + (page - 1) * ITEMS_PER_PAGE .. |posts| + page * ITEMS_PER_PAGE]
  {
  }

  /** `displayedPosts` in `render`: the search result while the query is
      non-empty (a JavaScript truthy string), otherwise the current page. */
  function DisplayedPosts(posts: seq<Post>, page: int, query: string): (r: seq<Post>)
    ensures IsSubsequence(r, posts)
    ensures query != "" ==> r == FilteredPosts(posts, query)
    ensures query != "" ==> forall p :: p in r ==> Matches(p, query)
    ensures query == "" ==> r == PaginatedPosts(posts, page)
    ensures query == "" ==> |r| <= ITEMS_PER_PAGE
  {
    FilterIsSubsequence(posts, query);
    PaginatedIsSubsequence(posts, page);
    if query != "" then FilteredPosts(posts, query) else PaginatedPosts(posts, page)
  }

  /** While searching, the page cursor has no effect on what is shown. */
  lemma SearchIgnoresPage(posts: seq<Post>, query: string, page1: int, page2: int)
    requires query != ""
    ensures DisplayedPosts(posts, page1, query) == DisplayedPosts(posts, page2, query)
    ensures DisplayedPosts(posts, page1, query) == FilteredPosts(posts, query)
  {
  }
}
