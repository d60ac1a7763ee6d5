# Home view state of the posts browser

The home page of this application shows a table of posts from a remote
search endpoint. It has a search box, a multi-select of tags and a
pagination control. This project models the view-state logic of that
component (`src/components/home.jsx`) as pure Dafny and proves what it
promises. The view state is the record of `posts`, `loading`,
`pagination {current, pageSize, total}`, `searchQuery`, `selectedTags` and
`allTags`.

- `posts.dfy` (module `Posts`): the post record and the order in which tags are scanned.
- `tag_universe.dfy` (module `Tags`): the `reduce` that builds the tag options
  (`allTags`). `CollectTags` has the same two nested loops as the source, and it
  is proved equal to the fold `TagUniverse`. The tag universe has no duplicates,
  holds exactly the tags some post carries, and lists each tag in the order of
  its first occurrence. These three properties determine the list completely.
- `tag_filter.dfy` (module `TagFilter`): the `filteredPosts` expression. A post
  is kept when it carries every selected tag. The result is proved to be the
  order-preserving subsequence of exactly those posts, with every copy kept.
- `paging.dfy` (module `Paging`): the `q`/`skip`/`limit` request parameters.
- `home.dfy` (module `Home`): the state record and its transitions.
  - The three handlers and the search box's `onChange`.
  - The start, success and failure of `fetchData`.
  - A `Valid` invariant kept by every admissible event sequence from the
    initial state (admissible: the pagination control reports a positive page
    and size, the endpoint a non-negative total). It says the page and page size are positive, the total is
    non-negative, and `allTags` is always the tag universe of `posts`.
  - `FetchKey`, the inputs of the debounced effect.

The network response is a parameter of the success transition; a failed
request is the `Failed` outcome. Integers are unbounded. In JavaScript they
are doubles; the model treats page numbers, sizes, offsets and totals as exact
integers, which they are as long as they stay below 2^53.

Selecting tags only filters locally: no request parameter depends on
`selectedTags`. But `handleTagChange` also resets `current` to 1, and
`current` is an input of the debounced effect. So a tag change made away from
page 1 does lead to a new fetch (`TagChangeAndFetch`). The model follows the
code here. The URL write of the same handler also changes the location, which
starts a fetch as well; that part is router behaviour and is not modelled.
`selectedTags` is an array in the code, not a set. The model keeps it a
sequence and proves that the filter depends only on which tags are in it
(`KeepTaggedSameSelection`).

## Model

| member | source | states |
|---|---|---|
| `Posts.FlattenOccurs` | src/components/home.jsx:50-57 | a tag is met by the scan over posts and their tags exactly when some post carries it |
| `Tags.CollectTags` | src/components/home.jsx:50-57 | the nested `forEach` loops with `includes`/`push` compute the tag universe; the result has no duplicates, holds exactly the tags of some post, and is in first-occurrence order |
| `Tags.UniverseIsDedup` | src/components/home.jsx:50-57 | folding post by post equals de-duplicating the whole flattened tag scan |
| `Tags.AddTag` | src/components/home.jsx:52-54 | one `includes`/`push` step adds the tag, keeps what was there as a prefix, and keeps the list duplicate-free |
| `Tags.AddTags` | src/components/home.jsx:51-55 | the inner `forEach` extends the accumulator, ends with exactly its old tags plus the post's tags, and keeps it duplicate-free |
| `Tags.TagUniverse` | src/components/home.jsx:50-57 | the whole `reduce` from `[]` yields a duplicate-free list of exactly the tags the scan meets |
| `Tags.UniverseMembers` | src/components/home.jsx:50-57 | a tag is in the universe if and only if some fetched post carries it |
| `Tags.UniverseOrder` | src/components/home.jsx:50-57 | tags stand in the order of their first occurrence, posts in order and each post's tags in order |
| `Tags.UniverseDeterminedByOrder` | src/components/home.jsx:50-57 | any duplicate-free list of exactly the scanned tags in first-occurrence order is the tag universe |
| `Tags.DedupOrder` | src/components/home.jsx:51-55 | the de-duplicating push loop keeps elements in first-occurrence order |
| `Tags.AddTagsAppend` | src/components/home.jsx:50-57 | continuing the fold over a second list of tags is folding over the concatenation |
| `TagFilter.HasEveryTagIsSubset` | src/components/home.jsx:118 | `every(tag => post.tags.includes(tag))` holds exactly when the selected tags form a subset of the post's tags |
| `TagFilter.KeepTagged` | src/components/home.jsx:117-119 | the filter keeps a post if and only if it was loaded and carries every selected tag, and never lengthens the list |
| `TagFilter.FilteredPosts` | src/components/home.jsx:116-120 | with no selected tag the displayed list is the posts unchanged; otherwise a post is shown if and only if it carries every selected tag |
| `TagFilter.KeepTaggedAppend` | src/components/home.jsx:117-119 | filtering distributes over concatenation, so the relative order of posts is kept |
| `TagFilter.KeepTaggedSingle` | src/components/home.jsx:117-119 | one post is kept exactly when all selected tags are among its tags |
| `TagFilter.KeepTaggedIsSubsequence` | src/components/home.jsx:117-119 | the filtered list is an order-preserving subsequence of the posts |
| `TagFilter.KeepTaggedCounts` | src/components/home.jsx:117-119 | a matching post keeps all its copies and a non-matching one has none |
| `TagFilter.KeepTaggedNoSelection` | src/components/home.jsx:118 | with no selected tags `every` is true of each post, so the filter itself already returns the posts unchanged |
| `TagFilter.FilteredIsKeepTagged` | src/components/home.jsx:116-120 | the empty-selection shortcut and the filter always agree |
| `TagFilter.MoreTagsFewerPosts` | src/components/home.jsx:117-119 | selecting more tags yields a subsequence of what fewer tags yield (AND semantics) |
| `TagFilter.KeepTaggedSameSelection` | src/components/home.jsx:118 | the result depends only on which tags are selected, not on their order or repetition |
| `TagFilter.SelectingOneTag` | src/components/home.jsx:116-120 | a post tagged "x","y" is kept when "x" is selected and dropped when "z" is selected |
| `Paging.Offset` | src/components/home.jsx:41 | for a page from 1 and a positive size the offset is non-negative, a multiple of the size, and divides back to `current - 1` |
| `Paging.PageRequest` | src/components/home.jsx:39-43 | the request carries the query, `skip = (current - 1) * pageSize` and `limit = pageSize` |
| `Paging.NextPageFollows` | src/components/home.jsx:41 | the next page starts exactly where this one ends |
| `Paging.PagesDisjoint` | src/components/home.jsx:41 | distinct pages of the same size do not overlap |
| `Home.Displayed` | src/components/home.jsx:116-120 | the table shows an order-preserving subsequence of the posts holding every copy of each post that carries every selected tag and no other post, and the posts themselves when none is selected |
| `Home.FetchRequest` | src/components/home.jsx:39-43 | a fetch queries the current search text (before URL encoding) with a page-aligned offset whose page is `current` and limit `pageSize` |
| `Home.BeginFetch` | src/components/home.jsx:38 | starting a fetch turns loading on and changes nothing else |
| `Home.FetchSucceeded` | src/components/home.jsx:44-59 | a response replaces posts and total, sets the tag options to the tag universe of the new posts (duplicate-free, exactly their tags, in first-occurrence order), clears loading, and keeps page, size, query and selection |
| `Home.FetchFailed` | src/components/home.jsx:60-63 | a failed request clears loading and leaves posts, pagination, tag options, query and selection unchanged |
| `Home.FetchFinished` | src/components/home.jsx:36-64 | whichever way the awaited request ends, loading is off afterwards |
| `Home.HandlePaginationChange` | src/components/home.jsx:66-73 | sets page and page size; keeps total, posts, tag options, query and selection |
| `Home.HandleSearch` | src/components/home.jsx:75-82 | sets the query and page 1, so the next request is the new query at offset 0; keeps page size, total, posts, selection and tag options |
| `Home.HandleTagChange` | src/components/home.jsx:84-91 | sets the selection and page 1; keeps query, page size, total, posts and tag options |
| `Home.SearchTextChanged` | src/components/home.jsx:143 | typing changes only the query; the page is not reset, so the next request keeps its offset |
| `Home.Step` | src/components/home.jsx:36-91 | every admissible event keeps the state invariant |
| `Home.RunPreservesValid` | src/components/home.jsx:36-91 | any sequence of admissible events keeps the state invariant |
| `Home.InitialState` | src/components/home.jsx:14-23 | the initial state is valid, shows and offers nothing, is loading, and its first request is the empty query at offset 0 with limit 10 |
| `Home.ReachableIsValid` | src/components/home.jsx:14-91 | every state reached from the initial one by admissible events (positive page and size from the pagination control, non-negative total from the endpoint) is valid, has duplicate-free tag options, and requests a non-negative, page-aligned offset |
| `Home.OfferedTagSelectsSomething` | src/components/home.jsx:155-159 | every tag offered in the selector matches at least one loaded post |
| `Home.TypeThenSubmit` | src/components/home.jsx:140-143 | typing a text and submitting it ends in the same state as submitting it |
| `Home.HandlersIdempotent` | src/components/home.jsx:75-91 | repeating a search submission or a tag selection changes nothing more |
| `Home.SearchAndTagsCommute` | src/components/home.jsx:75-91 | a search and a tag selection give the same state in either order |
| `Home.TagChangeAndFetch` | src/components/home.jsx:84-91 | a tag change keeps the request's query and limit, and changes the debounced effect's inputs exactly when the page was not 1 |
| `Home.TagChangeDisplay` | src/components/home.jsx:84-91 | after a tag change the table shows the loaded posts filtered by the new tags |
| `Home.UncheckedPageZero` | src/components/home.jsx:66-73 | the handler accepts page 0 unchecked; the next request then asks for offset -10 and the state leaves the invariant |
| `Home.FetchKeyChanges` | src/components/home.jsx:29-34 | an event changes the debounced effect's inputs exactly when it changes the query, the page or the page size: a tag change only when the page was not 1, a fetch never |
| `Home.FetchKeepsFetchKey` | src/components/home.jsx:29-34 | starting or finishing a fetch does not change the debounced effect's inputs |
| `Home.FailureKeepsDisplay` | src/components/home.jsx:60-63 | after a failed fetch the table shows what it showed before |
| `Home.SuccessReplacesData` | src/components/home.jsx:44-58 | a successful fetch's result does not depend on the posts, total, tag options or loading flag held before |
| `Home.SuccessDisplay` | src/components/home.jsx:44-58 | after a successful fetch the table shows the new posts filtered by the current selection |

## Left out

- The HTTP GET and the URL it is sent to (lines 39-43): network I/O. Only the `q`/`skip`/`limit` values are modelled, and the modelled `query` is the search text before it is put into the URL. The code interpolates it without encoding, so text holding `&`, `#`, `+` or `%` reaches the server as a different `q` and can add parameters; the model does not capture that. The response is an input.
- The 500 ms `setTimeout`/`clearTimeout` debounce and the two `useEffect` triggers (lines 25-34): timers and React scheduling. Only the effect's inputs (`FetchKey`) are modelled.
- Out-of-order application of overlapping requests: a concurrency race. In the model, fetches start and finish in one sequential event stream.
- The `navigate(...)` URL writes (lines 72, 81, 90) and the location-triggered fetch they cause: router side effects.
- `Home.Admissible` (and with it `Home.Step`, `Home.RunPreservesValid` and `Home.ReachableIsValid`): the model assumes the pagination control reports page >= 1 and size >= 1, and the endpoint reports total >= 0. The source checks neither (`handlePaginationChange`, lines 66-73, and the response at line 44), so the non-negative, page-aligned offset of reachable states rests on that assumption about code outside this repository. `Home.UncheckedPageZero` shows what an unchecked page 0 would do.
- `console.error` in the failure path: logging.
- Rendering, the table columns, the antd widgets and the animations (lines 93-194): UI library code.
- Malformed response bodies: the model's posts always carry a `tags` list. In the code, a post without `tags` would throw inside the `reduce`, after `setPosts` and the total update have already run. That would leave new posts with the old tag options.
- React batching of the setters inside one handler: each handler is modelled as one atomic update, which is the state React settles on.
