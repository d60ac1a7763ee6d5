/** The view state of the home page and its transitions: the search box,
    the tag selector, the pagination control and the two outcomes of a
    fetch. Each handler of the component is a pure update of the state
    record; the network response is an input of the success transition. */
module Home {
  import opened Posts
  import opened Tags
  import opened TagFilter
  import opened Paging

  /** The pagination record: page (from 1), posts per page, and the number
      of matches the endpoint last reported. */
  datatype Pagination = Pagination(current: int, pageSize: int, total: int)

  /** Every piece of state the component holds. */
  datatype ViewState = ViewState(
    posts: seq<Post>,
    loading: bool,
    pagination: Pagination,
    searchQuery: string,
    selectedTags: seq<string>,
    allTags: seq<string>)

  /** The `posts` and `total` of a successful search response. */
  datatype Response = Response(posts: seq<Post>, total: int)

  /** How an awaited request ends: with a response, or by throwing. */
  datatype FetchOutcome = Succeeded(response: Response) | Failed

  /** The state on mount: loading, page 1 of size 10, nothing loaded or selected. */
  const Initial: ViewState := ViewState([], true, Pagination(1, 10, 0), "", [], [])

  /** What every reachable state satisfies: a positive page and page size, a
      non-negative total, and tag options that are the universe of the loaded posts. */
  predicate Valid(s: ViewState)
  {
    && s.pagination.current >= 1
    && s.pagination.pageSize >= 1
    && s.pagination.total >= 0
    && s.allTags == TagUniverse(s.posts)
  }

  /** The inputs a handler can actually receive: the pagination control reports
      positive pages and sizes, and the endpoint a non-negative total. */
  datatype Event =
    | PageChanged(page: int, size: int)
    | SearchSubmitted(value: string)
    | TagsChanged(tags: seq<string>)
    | SearchTyped(text: string)
    | FetchStarted
    | FetchCompleted(outcome: FetchOutcome)

  predicate Admissible(e: Event)
  {
    match e
    case PageChanged(page, size) => page >= 1 && size >= 1
    case FetchCompleted(Succeeded(resp)) => resp.total >= 0
    case _ => true
  }

  /** The posts the table shows: the loaded posts narrowed by the selected tags. */
  function Displayed(s: ViewState): (r: seq<Post>)
    ensures IsSubsequence(r, s.posts)
    ensures forall p :: p in r <==> p in s.posts && HasEveryTag(p, s.selectedTags)
    ensures forall p :: multiset(r)[p] ==
              if HasEveryTag(p, s.selectedTags) then multiset(s.posts)[p] else 0
    ensures |s.selectedTags| == 0 ==> r == s.posts
  {
    FilteredIsKeepTagged(s.posts, s.selectedTags);
    KeepTaggedIsSubsequence(s.posts, s.selectedTags);
    assert forall p :: multiset(KeepTagged(s.posts, s.selectedTags))[p] ==
             if HasEveryTag(p, s.selectedTags) then multiset(s.posts)[p] else 0 by {
      forall p ensures multiset(KeepTagged(s.posts, s.selectedTags))[p] ==
                       if HasEveryTag(p, s.selectedTags) then multiset(s.posts)[p] else 0 {
        KeepTaggedCounts(s.posts, s.selectedTags, p);
      }
    }
    FilteredPosts(s.posts, s.selectedTags)
  }

  /** The request a fetch sends from state `s`. */
  function FetchRequest(s: ViewState): (r: Request)
    ensures r.query == s.searchQuery && r.limit == s.pagination.pageSize
    ensures s.pagination.current >= 1 && s.pagination.pageSize >= 1 ==>
              r.skip >= 0 && r.skip % r.limit == 0
    ensures s.pagination.pageSize >= 1 ==> r.skip / r.limit + 1 == s.pagination.current
  {
    PageRequest(s.searchQuery, s.pagination.current, s.pagination.pageSize)
  }

  /** The values the debounced effect depends on; a change in any of them
      restarts the timer that leads to the next fetch. */
  function FetchKey(s: ViewState): (string, int, int)
  {
    (s.searchQuery, s.pagination.current, s.pagination.pageSize)
  }

  /** Start of `fetchData`: the loading indicator comes on, nothing else changes. */
  function BeginFetch(s: ViewState): (r: ViewState)
    ensures r.loading
    ensures r.posts == s.posts && r.pagination == s.pagination && r.allTags == s.allTags
    ensures r.searchQuery == s.searchQuery && r.selectedTags == s.selectedTags
    ensures Valid(s) ==> Valid(r)
  {
    s.(loading := true)
  }

  /** A response arrived: posts and total are replaced, the tag options are
      rebuilt from the new posts, the page and page size are kept. */
  function FetchSucceeded(s: ViewState, resp: Response): (r: ViewState)
    ensures r.posts == resp.posts && r.pagination.total == resp.total && !r.loading
    ensures r.pagination.current == s.pagination.current
    ensures r.pagination.pageSize == s.pagination.pageSize
    ensures r.searchQuery == s.searchQuery && r.selectedTags == s.selectedTags
    ensures r.allTags == TagUniverse(resp.posts)
    ensures NoDuplicates(r.allTags)
    ensures forall t :: t in r.allTags <==> Occurs(t, resp.posts)
    ensures FirstOccurrenceOrder(r.allTags, Flatten(resp.posts))
    ensures Valid(s) && resp.total >= 0 ==> Valid(r)
  {
    UniverseOrder(resp.posts);
    assert forall t :: t in TagUniverse(resp.posts) <==> Occurs(t, resp.posts) by {
      forall t ensures t in TagUniverse(resp.posts) <==> Occurs(t, resp.posts) {
        UniverseMembers(resp.posts, t);
      }
    }
    s.(posts := resp.posts,
       pagination := s.pagination.(total := resp.total),
       allTags := TagUniverse(resp.posts),
       loading := false)
  }

  /** The request threw: the error is logged, the loading indicator goes off,
      the last good data stays. */
  function FetchFailed(s: ViewState): (r: ViewState)
    ensures !r.loading
    ensures r.posts == s.posts && r.pagination == s.pagination && r.allTags == s.allTags
    ensures r.searchQuery == s.searchQuery && r.selectedTags == s.selectedTags
    ensures Valid(s) ==> Valid(r)
  {
    s.(loading := false)
  }

  function FetchFinished(s: ViewState, outcome: FetchOutcome): (r: ViewState)
    ensures !r.loading
  {
    match outcome
    case Succeeded(resp) => FetchSucceeded(s, resp)
    case Failed => FetchFailed(s)
  }

  /** `handlePaginationChange(page, pageSize)`: move to `page` with `size` posts per page. */
  function HandlePaginationChange(s: ViewState, page: int, size: int): (r: ViewState)
    ensures r.pagination.current == page && r.pagination.pageSize == size
    ensures r.pagination.total == s.pagination.total
    ensures r.posts == s.posts && r.allTags == s.allTags && r.loading == s.loading
    ensures r.searchQuery == s.searchQuery && r.selectedTags == s.selectedTags
    ensures Valid(s) && page >= 1 && size >= 1 ==> Valid(r)
  {
    s.(pagination := s.pagination.(current := page, pageSize := size))
  }

  /** `handleSearch(value)`: submit a search and go back to the first page. */
  function HandleSearch(s: ViewState, value: string): (r: ViewState)
    ensures r.searchQuery == value && r.pagination.current == 1
    ensures r.pagination.pageSize == s.pagination.pageSize
    ensures r.pagination.total == s.pagination.total
    ensures r.posts == s.posts && r.allTags == s.allTags && r.loading == s.loading
    ensures r.selectedTags == s.selectedTags
    ensures FetchRequest(r) == Request(value, 0, s.pagination.pageSize)
    ensures Valid(s) ==> Valid(r)
  {
    s.(searchQuery := value, pagination := s.pagination.(current := 1))
  }

  /** `handleTagChange(value)`: select the tags `tags` and go back to the first page. */
  function HandleTagChange(s: ViewState, tags: seq<string>): (r: ViewState)
    ensures r.selectedTags == tags && r.pagination.current == 1
    ensures r.pagination.pageSize == s.pagination.pageSize
    ensures r.pagination.total == s.pagination.total
    ensures r.posts == s.posts && r.allTags == s.allTags && r.loading == s.loading
    ensures r.searchQuery == s.searchQuery
    ensures Valid(s) ==> Valid(r)
  {
    s.(selectedTags := tags, pagination := s.pagination.(current := 1))
  }

  /** The search box's `onChange`: the text follows the input, the page stays. */
  function SearchTextChanged(s: ViewState, text: string): (r: ViewState)
    ensures r.searchQuery == text
    ensures r.pagination == s.pagination
    ensures r.posts == s.posts && r.allTags == s.allTags && r.loading == s.loading
    ensures r.selectedTags == s.selectedTags
    ensures FetchRequest(r).query == text && FetchRequest(r).skip == FetchRequest(s).skip
    ensures Valid(s) ==> Valid(r)
  {
    s.(searchQuery := text)
  }

  /** One event applied to the state. */
  function Step(s: ViewState, e: Event): (r: ViewState)
    ensures Valid(s) && Admissible(e) ==> Valid(r)
  {
    match e
    case PageChanged(page, size) => HandlePaginationChange(s, page, size)
    case SearchSubmitted(value) => HandleSearch(s, value)
    case TagsChanged(tags) => HandleTagChange(s, tags)
    case SearchTyped(text) => SearchTextChanged(s, text)
    case FetchStarted => BeginFetch(s)
    case FetchCompleted(outcome) => FetchFinished(s, outcome)
  }

  /** A sequence of events applied in order. */
  function Run(s: ViewState, events: seq<Event>): ViewState
    decreases |events|
  {
    if |events| == 0 then s else Run(Step(s, events[0]), events[1..])
  }

  /** Every admissible history keeps the state valid. */
  lemma {:induction false} RunPreservesValid(s: ViewState, events: seq<Event>)
    requires Valid(s)
    requires forall k :: 0 <= k < |events| ==> Admissible(events[k])
    ensures Valid(Run(s, events))
    decreases |events|
  {
    if |events| > 0 {
      assert Admissible(events[0]);
      var rest := events[1..];
      assert forall k :: 0 <= k < |rest| ==> Admissible(rest[k]) by {
        forall k | 0 <= k < |rest| ensures Admissible(rest[k]) {
          assert rest[k] == events[k + 1];
        }
      }
      RunPreservesValid(Step(s, events[0]), rest);
    }
  }

  /** On mount nothing is shown or offered, and the first fetch asks for the
      first ten matches of the empty query. */
  lemma InitialState()
    ensures Valid(Initial)
    ensures Displayed(Initial) == [] && Initial.allTags == [] && Initial.loading
    ensures FetchRequest(Initial) == Request("", 0, 10)
  {
  }

  /** In every state reachable from mounting, the tag options are duplicate-free,
      and the next request asks for a non-negative, page-aligned offset. */
  lemma ReachableIsValid(events: seq<Event>)
    requires forall k :: 0 <= k < |events| ==> Admissible(events[k])
    ensures var s := Run(Initial, events);
            Valid(s) && NoDuplicates(s.allTags) &&
            FetchRequest(s).skip >= 0 && FetchRequest(s).skip % FetchRequest(s).limit == 0
  {
    InitialState();
    RunPreservesValid(Initial, events);
  }

  /** `handlePaginationChange` checks neither argument: page 0 would request a
      negative offset, which is why `Admissible` assumes the control's positive pages. */
  lemma UncheckedPageZero()
    ensures FetchRequest(HandlePaginationChange(Initial, 0, 10)).skip == -10
    ensures !Valid(HandlePaginationChange(Initial, 0, 10))
  {
  }

  /** Which events restart the debounced effect: exactly those that change the
      query, the page or the page size; tag changes only through the page reset,
      and fetches never. */
  lemma FetchKeyChanges(s: ViewState, e: Event)
    ensures FetchKey(Step(s, e)) != FetchKey(s) <==>
      match e
      case PageChanged(page, size) => page != s.pagination.current || size != s.pagination.pageSize
      case SearchSubmitted(value) => value != s.searchQuery || s.pagination.current != 1
      case TagsChanged(_) => s.pagination.current != 1
      case SearchTyped(text) => text != s.searchQuery
      case FetchStarted => false
      case FetchCompleted(_) => false
  {
  }

  /** Every tag offered for selection matches at least one loaded post. */
  lemma {:induction false} OfferedTagSelectsSomething(s: ViewState, t: string)
    requires Valid(s) && t in s.allTags
    ensures FilteredPosts(s.posts, [t]) != []
  {
    UniverseMembers(s.posts, t);
    var i :| 0 <= i < |s.posts| && t in s.posts[i].tags;
    assert HasEveryTag(s.posts[i], [t]);
    assert s.posts[i] in KeepTagged(s.posts, [t]);
  }

  /** Typing and then submitting the same text is the same as submitting it. */
  lemma TypeThenSubmit(s: ViewState, text: string)
    ensures HandleSearch(SearchTextChanged(s, text), text) == HandleSearch(s, text)
  {
  }

  /** Submitting twice is submitting once; likewise for selecting tags. */
  lemma HandlersIdempotent(s: ViewState, value: string, tags: seq<string>)
    ensures HandleSearch(HandleSearch(s, value), value) == HandleSearch(s, value)
    ensures HandleTagChange(HandleTagChange(s, tags), tags) == HandleTagChange(s, tags)
  {
  }

  /** Searching and selecting tags commute. */
  lemma SearchAndTagsCommute(s: ViewState, value: string, tags: seq<string>)
    ensures HandleTagChange(HandleSearch(s, value), tags) == HandleSearch(HandleTagChange(s, tags), value)
  {
  }

  /** Selecting tags is local to the view: it keeps the query and page size of the
      request, and it changes the debounced effect's inputs exactly when the page
      was not already the first one. */
  lemma TagChangeAndFetch(s: ViewState, tags: seq<string>)
    ensures FetchRequest(HandleTagChange(s, tags)).query == FetchRequest(s).query
    ensures FetchRequest(HandleTagChange(s, tags)).limit == FetchRequest(s).limit
    ensures FetchKey(HandleTagChange(s, tags)) != FetchKey(s) <==> s.pagination.current != 1
  {
  }

  /** Selecting tags shows exactly the loaded posts that carry all of them. */
  lemma TagChangeDisplay(s: ViewState, tags: seq<string>)
    ensures Displayed(HandleTagChange(s, tags)) == FilteredPosts(s.posts, tags)
  {
  }

  /** Neither starting nor finishing a fetch touches the effect's inputs, so a
      fetch never schedules another one by itself. */
  lemma FetchKeepsFetchKey(s: ViewState, outcome: FetchOutcome)
    ensures FetchKey(BeginFetch(s)) == FetchKey(s)
    ensures FetchKey(FetchFinished(s, outcome)) == FetchKey(s)
  {
  }

  /** A failed fetch leaves the table as it was. */
  lemma FailureKeepsDisplay(s: ViewState)
    ensures Displayed(FetchFailed(s)) == Displayed(s)
  {
  }

  /** A successful fetch replaces the data wholesale: the result does not depend on
      the posts, total, tag options or loading flag held before. */
  lemma SuccessReplacesData(s1: ViewState, s2: ViewState, resp: Response)
    requires s1.pagination.current == s2.pagination.current
    requires s1.pagination.pageSize == s2.pagination.pageSize
    requires s1.searchQuery == s2.searchQuery && s1.selectedTags == s2.selectedTags
    ensures FetchSucceeded(s1, resp) == FetchSucceeded(s2, resp)
  {
  }

  /** After a successful fetch the table shows the new posts narrowed by the
      selection that was already in place. */
  lemma SuccessDisplay(s: ViewState, resp: Response)
    ensures Displayed(FetchSucceeded(s, resp)) == FilteredPosts(resp.posts, s.selectedTags)
  {
  }
}
