/** The feed controller of `HomeScreen`: its five state fields, the handlers
    that change them, and the class whose methods perform those changes in
    place.  Each handler is an atomic update; the HTTP request is an output
    (the page asked for) and its answer an input (`FetchOutcome`). */
module Feed {
  import opened Wrappers
  import opened Posts
  import Views

  /** `INITIAL_PAGE`: the cursor at construction. */
  const INITIAL_PAGE: int := 0

  /** What the request for one page produced: its `hits`, or an error
      (network, status or body) that the fetch swallows. */
  datatype FetchOutcome = Fetched(hits: seq<Post>) | Failed

  datatype FeedState = FeedState(
    posts: seq<Post>,
    currentPage: int,
    isFetchingMore: bool,
    lastFetchedPage: Option<int>,
    searchQuery: string)

  /** A handler's new state and the page it asked the API for, if it
      started a fetch. */
  datatype Step = Step(state: FeedState, request: Option<int>)

  /** The state set up by the constructor. */
  function Initial(): FeedState {
    FeedState([], INITIAL_PAGE, false, None, "")
  }

  /** The synchronous start of `fetchPosts(page)`: raise the flag and send
      the request. */
  function BeginFetch(s: FeedState, page: int): (r: Step)
    ensures r.request == Some(page)
    ensures r.state.isFetchingMore
    ensures r.state.(isFetchingMore := s.isFetchingMore) == s
  {
    Step(s.(isFetchingMore := true), Some(page))
  }

  /** The rest of `fetchPosts(page)` once the request settles: on success the
      hits are appended and the page remembered; in every case the flag drops. */
  function CompleteFetch(s: FeedState, page: int, outcome: FetchOutcome): (r: FeedState)
    ensures !r.isFetchingMore
    ensures r.currentPage == s.currentPage && r.searchQuery == s.searchQuery
    ensures outcome.Fetched? ==>
      s.posts <= r.posts && |r.posts| == |s.posts| + |outcome.hits| &&
      r.posts[|s.posts|..] == outcome.hits && r.lastFetchedPage == Some(page)
    ensures outcome.Failed? ==> r.posts == s.posts && r.lastFetchedPage == s.lastFetchedPage
  {
    match outcome
    case Fetched(hits) =>
      s.(posts := s.posts + hits, lastFetchedPage := Some(page), isFetchingMore := false)
    case Failed =>
      s.(isFetchingMore := false)
  }

  /** `componentDidMount`: fetch the current page. */
  function Mount(s: FeedState): (r: Step)
    ensures r.request == Some(s.currentPage)
    ensures r.state.isFetchingMore
    ensures r.state.(isFetchingMore := s.isFetchingMore) == s
  {
    BeginFetch(s, s.currentPage)
  }

  /** The guard of `handleEndReached`: no fetch in flight and the current
      page is not the one fetched last. */
  predicate MayFetchNext(s: FeedState) {
    !s.isFetchingMore && s.lastFetchedPage != Some(s.currentPage)
  }

  /** `handleEndReached` (and `handleMomentumScrollBegin`, which calls it). */
  function EndReached(s: FeedState): (r: Step)
    ensures r.request.Some? <==> MayFetchNext(s)
    ensures r.request.None? ==> r.state == s
    ensures r.request.Some? ==>
      r.request.value == r.state.currentPage == s.currentPage + 1 &&
      r.state.isFetchingMore &&
      r.state.posts == s.posts && r.state.lastFetchedPage == s.lastFetchedPage &&
      r.state.searchQuery == s.searchQuery
  {
    if MayFetchNext(s) then
      var nextPage := s.currentPage + 1;
      BeginFetch(s.(currentPage := nextPage), nextPage)
    else
      Step(s, None)
  }

  /** `handleSearch`: store the query verbatim. */
  function Search(s: FeedState, query: string): (r: FeedState)
    ensures r.searchQuery == query
    ensures r.(searchQuery := s.searchQuery) == s
  {
    s.(searchQuery := query)
  }

  /** `handlePagination`: move the cursor, unclamped, without fetching. */
  function Paginate(s: FeedState, page: int): (r: FeedState)
    ensures r.currentPage == page
    ensures r.(currentPage := s.currentPage) == s
  {
    s.(currentPage := page)
  }

  /** The list `render` hands to the list view. */
  function Displayed(s: FeedState): seq<Post> {
    Views.DisplayedPosts(s.posts, s.currentPage, s.searchQuery)
  }

  /** Right after page p arrives while the cursor is on p, reaching the end of
      the list does nothing. */
  lemma NoRefetchAfterSuccess(s: FeedState, hits: seq<Post>)
    ensures EndReached(CompleteFetch(s, s.currentPage, Fetched(hits))) ==
            Step(CompleteFetch(s, s.currentPage, Fetched(hits)), None)
  {
  }

  /** A failed page is not asked for again: `lastFetchedPage` still differs
      from the cursor, so the next end-of-list advances past it. */
  lemma FailedPageIsSkipped(s: FeedState)
    requires MayFetchNext(s)
    requires s.lastFetchedPage != Some(s.currentPage + 1)
    ensures var first := EndReached(s);
            var second := EndReached(CompleteFetch(first.state, first.request.value, Failed));
            first.request == Some(s.currentPage + 1) &&
            second.request == Some(s.currentPage + 2)
  {
  }

  /** What happens from construction on: the mount fetch asks for page 0;
      once it succeeds page 0 displays nothing (display pages start at 1),
      the buttons cover the hits, and reaching the end fetches nothing. */
  lemma MountThenScroll(hits: seq<Post>)
    ensures var mounted := Mount(Initial());
            var loaded := CompleteFetch(mounted.state, mounted.request.value, Fetched(hits));
            mounted.request == Some(0) &&
            loaded.posts == hits &&
            Displayed(loaded) == [] &&
            Views.TotalPages(|loaded.posts|) * Views.ITEMS_PER_PAGE >= |hits| &&
            EndReached(loaded).request == None
  {
  }

  /** The events the screen receives; `Completed` is the settling of the
      request for `page`. */
  datatype Event =
    | DidMount
    | ScrollEnd
    | MomentumScrollBegin
    | SearchChanged(query: string)
    | PagePressed(page: int)
    | Completed(page: int, outcome: FetchOutcome)

  function Apply(s: FeedState, e: Event): Step {
    match e
    case DidMount => Mount(s)
    case ScrollEnd => EndReached(s)
    case MomentumScrollBegin => EndReached(s)
    case SearchChanged(q) => Step(Search(s, q), None)
    case PagePressed(p) => Step(Paginate(s, p), None)
    case Completed(p, o) => Step(CompleteFetch(s, p, o), None)
  }

  function Run(s: FeedState, events: seq<Event>): FeedState
    decreases |events|
  {
    if events == [] then s else Run(Apply(s, events[0]).state, events[1..])
  }

  /** The hits of the successful completions among `events`, in order. */
  function FetchedHits(events: seq<Event>): seq<Post> {
    if events == [] then []
    else
      var here := match events[0]
        case Completed(_, Fetched(hits)) => hits
        case _ => [];
      here + FetchedHits(events[1..])
  }

  /** The page of the last successful completion among `events`, if any. */
  function LastFetched(events: seq<Event>, before: Option<int>): Option<int>
    decreases |events|
  {
    if events == [] then before
    else
      var here := match events[0]
        case Completed(p, Fetched(_)) => Some(p)
        case _ => before;
      LastFetched(events[1..], here)
  }

  /** Posts only ever grow, by the hits of each successful fetch in the order
      the fetches completed, whatever searches, page presses, scrolls and
      failures come between. */
  lemma {:induction false} PostsAccumulate(s: FeedState, events: seq<Event>)
    ensures Run(s, events).posts == s.posts + FetchedHits(events)
    decreases |events|
  {
    if events != [] {
      var next := Apply(s, events[0]).state;
      PostsAccumulate(next, events[1..]);
      assert next.posts == s.posts + FetchedHits([events[0]]);
      assert FetchedHits(events) == FetchedHits([events[0]]) + FetchedHits(events[1..]);
    }
  }

  /** `lastFetchedPage` is the page of the latest successful fetch; failures
      leave it alone. */
  lemma {:induction false} LastFetchedTracksSuccess(s: FeedState, events: seq<Event>)
    ensures Run(s, events).lastFetchedPage == LastFetched(events, s.lastFetchedPage)
    decreases |events|
  {
    if events != [] {
      var next := Apply(s, events[0]).state;
      LastFetchedTracksSuccess(next, events[1..]);
    }
  }

  /** The `HomeScreen` component: the five fields of `this.state`, updated
      in place by the handlers. */
  class HomeScreen {
    var posts: seq<Post>
    var currentPage: int
    var isFetchingMore: bool
    var lastFetchedPage: Option<int>
    var searchQuery: string
    /** The page captured by the `fetchPosts` call in flight, if any. */
    ghost var pending: Option<int>

    ghost predicate Valid()
      reads this
    {
      isFetchingMore <==> pending.Some?
    }

    function State(): FeedState
      reads this
    {
      FeedState(posts, currentPage, isFetchingMore, lastFetchedPage, searchQuery)
    }

    constructor ()
      ensures Valid() && pending == None
      ensures State() == Initial()
    {
      posts := [];
      currentPage := INITIAL_PAGE;
      isFetchingMore := false;
      lastFetchedPage := None;
      searchQuery := "";
      pending := None;
    }

    /** The start of `fetchPosts(page)`; `page` goes to the API. */
    method FetchPostsBegin(page: int)
      requires Valid() && !isFetchingMore
      modifies this
      ensures Valid() && pending == Some(page)
      ensures Step(State(), Some(page)) == BeginFetch(old(State()), page)
    {
      isFetchingMore := true;
      pending := Some(page);
    }

    /** The end of `fetchPosts(page)`, with the answer to its request. */
    method FetchPostsComplete(page: int, outcome: FetchOutcome)
      requires Valid() && pending == Some(page)
      modifies this
      ensures Valid() && pending == None
      ensures State() == CompleteFetch(old(State()), page, outcome)
    {
      if outcome.Fetched? {
        posts := posts + outcome.hits;
        lastFetchedPage := Some(page);
      }
      isFetchingMore := false;
      pending := None;
    }

    method ComponentDidMount() returns (request: int)
      requires Valid() && !isFetchingMore
      modifies this
      ensures Valid() && pending == Some(request)
      ensures Step(State(), Some(request)) == Mount(old(State()))
    {
      request := currentPage;
      FetchPostsBegin(request);
    }

    method HandleEndReached() returns (request: Option<int>)
      requires Valid()
      modifies this
      ensures Valid()
      ensures Step(State(), request) == EndReached(old(State()))
      ensures pending == if request.Some? then request else old(pending)
    {
      request := None;
      if !isFetchingMore && lastFetchedPage != Some(currentPage) {
        var nextPage := currentPage + 1;
        currentPage := nextPage;
        FetchPostsBegin(nextPage);
        request := Some(nextPage);
      }
    }

    method HandleMomentumScrollBegin() returns (request: Option<int>)
      requires Valid()
      modifies this
      ensures Valid()
      ensures Step(State(), request) == EndReached(old(State()))
      ensures pending == if request.Some? then request else old(pending)
    {
      request := HandleEndReached();
    }

    method HandleSearch(query: string)
      requires Valid()
      modifies this
      ensures Valid() && pending == old(pending)
      ensures State() == Search(old(State()), query)
    {
      searchQuery := query;
    }

    method HandlePagination(page: int)
      requires Valid()
      modifies this
      ensures Valid() && pending == old(pending)
      ensures State() == Paginate(old(State()), page)
    {
      currentPage := page;
    }
  }
}
