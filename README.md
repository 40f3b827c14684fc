# Artworks list controller

A model of the pagination and search controller behind the artworks list of
gilomen2/react-apollo-deck (the `useArtworksList` hook). The controller keeps
three state cells — the page to query (initially 1), the uncommitted text of
the search box (initially empty) and the committed search term (initially
unset) — queries the list service with `{pageSize: 20, page, term}`, derives
`artworks`, `previousPage` and `total` from whatever the service has returned
so far, and offers four handlers: commit the search, next page, previous page,
and set the search text.

Files:

- `wrappers.dfy` — `Option`, standing for `undefined`.
- `artworks_query.dfy` (module `ArtworksQuery`) — the shape of a query result
  as a nest of options, one per link read with optional chaining, and the three
  derived fields with their defaults.
- `artworks_list.dfy` (module `ArtworksList`) — the query variables, the
  controller as a state machine on values (`Snapshot`, `Event`, `Apply`, `Run`),
  and the class `ListController` whose handler methods overwrite its fields and
  are specified by `Apply`.
- `artworks_list_properties.dfy` (module `ArtworksListProperties`) — what the
  handlers promise, alone and over any sequence of handler calls.

Behaviours kept exactly as the code has them:

- Only the empty string commits as "no term" (`searchInputValue || undefined`);
  whitespace-only input is not treated as empty: a blank input such as `"  "`
  is committed as a term (`BlankInputIsCommitted`).
- Prev sets the page to `previousPage` unclamped, so with no cursor it queries
  page 0: the page can fall below 1. `page >= 1` is kept only conditionally, and
  `StepPagePositive` and `PagePositive` say exactly when.
- `previousPage` is whatever the service reports; nothing makes it non-negative.

## Model

| member | source | states |
|---|---|---|
| ArtworksQuery.Filtered | examples/useArtworksList_v1.js:14-16 | the filtered-artworks node is present exactly when the result, `filter_artworks` and `filtered_artworks` all are |
| ArtworksQuery.PreviousCursor | examples/useArtworksList_v1.js:15-16 | the cursor is reported exactly when every link of `filter_artworks.filtered_artworks.pageCursors.previous.page` is present, and is then that `page` |
| ArtworksQuery.ReportedEdges | examples/useArtworksList_v1.js:14 | the edges are reported exactly when the filtered-artworks node and its `edges` are present, and are then those `edges` |
| ArtworksQuery.ReportedTotal | examples/useArtworksList_v1.js:17 | the total is reported exactly when the result, `filter_artworks` and `counts.total` are present, and is then that `counts.total`; `counts` itself is never optional |
| ArtworksQuery.DeriveItems | examples/useArtworksList_v1.js:14 | `artworks` is the reported edges, or empty when they are missing |
| ArtworksQuery.DerivePrevious | examples/useArtworksList_v1.js:15-16 | `previousPage` is the reported cursor, or 0 when it is missing |
| ArtworksQuery.DeriveTotal | examples/useArtworksList_v1.js:17 | `total` is the reported count, or 0 when it is missing |
| ArtworksQuery.Complete | examples/useArtworksList_v1.js:14-17 | a fully populated result reports exactly the given items, cursor and total on the three paths the controller reads |
| ArtworksQuery.DeriveComplete | examples/useArtworksList_v1.js:14-17 | from a complete result the three derived fields are exactly the reported total, cursor and items |
| ArtworksQuery.DeriveNoResult | examples/useArtworksList_v1.js:14-17 | before any result: no items, `previousPage` 0, `total` 0 |
| ArtworksQuery.PreviousDefaults | examples/useArtworksList_v1.js:15-16 | each of the six possible missing links on the cursor path yields `previousPage` 0 |
| ArtworksQuery.ItemsDefaults | examples/useArtworksList_v1.js:14 | each of the four possible missing links on the edges path yields no items |
| ArtworksQuery.TotalDefaults | examples/useArtworksList_v1.js:17 | `total` is 0 if and only if the result, `filter_artworks` or `counts.total` is missing or the count is 0 |
| ArtworksQuery.PartialResultValues | examples/useArtworksList_v1.js:14-17 | a first page without cursors still derives its items, and a result without the filtered-artworks node still derives its total, whatever that node holds |
| ArtworksQuery.PreviousReadsOnlyCursor | examples/useArtworksList_v1.js:15-16 | `previousPage` does not change when the items or the counts of the result change |
| ArtworksList.Init | examples/useArtworksList_v1.js:8-10 | the initial state is page 1, empty input, no term |
| ArtworksList.CommittedTerm | examples/useArtworksList_v1.js:20 | the committed term is unset if and only if the input is the empty string, and is the input otherwise |
| ArtworksList.Apply | examples/useArtworksList_v1.js:19-40 | commit sets the committed form of the input and page 1, Next and Prev set the page to `previousPage + 2` and `previousPage`, SetInput (line 40) sets the input; every other cell is kept |
| ArtworksList.Run | examples/useArtworksList_v1.js:19-40 | the handlers applied in order: the empty sequence changes nothing and a single handler is `Apply` |
| ArtworksList.Variables | examples/useArtworksList_v1.js:11-13 | the query variables are the page size 20 (line 5), the state's page and its committed term |
| ArtworksList.ListController.constructor | examples/useArtworksList_v1.js:8-10 | a new controller has page 1, empty input and no term, i.e. the state `Init` |
| ArtworksList.ListController.QueryVars | examples/useArtworksList_v1.js:11-13 | the controller queries with page size 20, its current page and its committed term |
| ArtworksList.ListController.View | examples/useArtworksList_v1.js:32-42 | the returned fields are the three derived fields of the current result, the loading flag as given and the uncommitted input |
| ArtworksList.ListController.CommitSearch | examples/useArtworksList_v1.js:19-23 | the term becomes the committed form of the input, the page becomes 1, the input is kept |
| ArtworksList.ListController.Next | examples/useArtworksList_v1.js:24-27 | the page becomes `previousPage + 2`; input and term are kept |
| ArtworksList.ListController.Prev | examples/useArtworksList_v1.js:28-30 | the page becomes `previousPage`; input and term are kept |
| ArtworksList.ListController.SetInput | examples/useArtworksList_v1.js:40 | only the input text changes; page, term and query variables are unchanged |
| ArtworksListProperties.InitialQuery | examples/useArtworksList_v1.js:8-13 | a new controller queries `{20, 1, unset}` |
| ArtworksListProperties.CommitResetsPage | examples/useArtworksList_v1.js:19-23 | commit always gives page 1, keeps the input, and commits unset for `""` and the input otherwise |
| ArtworksListProperties.BlankInputIsCommitted | examples/useArtworksList_v1.js:20 | a whitespace input is committed as that very term |
| ArtworksListProperties.NewSearchFromPageThree | examples/useArtworksList_v1.js:19-23 | typing "david bowie" and committing from page 3 queries `{20, 1, "david bowie"}` |
| ArtworksListProperties.NextIgnoresPage | examples/useArtworksList_v1.js:24-27 | Next yields `previousPage + 2` independently of the current page and is idempotent against one result |
| ArtworksListProperties.NextFromFirstResult | examples/useArtworksList_v1.js:24-27 | with no cursor reported, Next goes to page 2 |
| ArtworksListProperties.NextThenPrev | examples/useArtworksList_v1.js:24-30 | Next then Prev on the same result ends on `previousPage`, the same state as Prev alone |
| ArtworksListProperties.PrevCanReachPageZero | examples/useArtworksList_v1.js:28-30 | Prev with a missing or zero cursor sets page 0 |
| ArtworksListProperties.PagingKeepsSearch | examples/useArtworksList_v1.js:24-30 | Next and Prev keep the input text and the committed term |
| ArtworksListProperties.SetInputKeepsQuery | examples/useArtworksList_v1.js:40 | setting the input text leaves the query variables unchanged |
| ArtworksListProperties.PagingReadsOnlyPrevious | examples/useArtworksList_v1.js:24-30 | two results with the same derived `previousPage` give the same Next and Prev |
| ArtworksListProperties.RunAppend | examples/useArtworksList_v1.js:19-30 | running two handler sequences in turn is running their concatenation |
| ArtworksListProperties.RunLast | examples/useArtworksList_v1.js:19-40 | the last handler of a nonempty sequence acts on the state the earlier ones left |
| ArtworksListProperties.TypingKeepsQuery | examples/useArtworksList_v1.js:40 | any sequence of input changes leaves the query unchanged and the input equal to the last text |
| ArtworksListProperties.NoCommitKeepsTerm | examples/useArtworksList_v1.js:19-30 | without a commit, no sequence of handlers changes the committed term |
| ArtworksListProperties.PagingOnlyKeepsSearch | examples/useArtworksList_v1.js:24-30 | any sequence of Next and Prev keeps input and term |
| ArtworksListProperties.NeverCommitsEmptyTerm | examples/useArtworksList_v1.js:20-21 | no sequence of handlers ever commits the empty string as a term |
| ArtworksListProperties.LastCommitDecidesQuery | examples/useArtworksList_v1.js:19-23 | after a trace ending in a commit, page is 1 and the term is the committed form of the input just before it |
| ArtworksListProperties.StepPagePositive | examples/useArtworksList_v1.js:19-30 | a handler keeps `page >= 1` from every state with `page >= 1` if and only if its cursor allows (Prev needs `previousPage >= 1`) |
| ArtworksListProperties.PagePositive | examples/useArtworksList_v1.js:19-30 | `page >= 1` holds after any trace whose paging handlers all read safe cursors |
| ArtworksListProperties.PrevFromStartQueriesPageZero | examples/useArtworksList_v1.js:28-30 | from a new controller, Prev before any result queries page 0 |
| ArtworksListProperties.CompleteResultScenario | examples/useArtworksList_v1.js:14-17 | a result with total 10, cursor 0 and two items derives exactly those |

## Left out

- The query runner (`useQuery` and the Apollo client): network I/O, caching and stale responses. The current result is a parameter (`Option<QueryData>`), and `loading` is an opaque flag passed through `View`.
- React's state mechanics: each setter is an immediate assignment to a field of `ListController`; re-rendering, batching of the two assignments in `handleNewTerm`, and handlers closing over the values of an older render are not modelled.
- A result whose `filter_artworks` is present but has no `counts`: the code throws there; the model makes `counts` a required field instead.
- JavaScript numbers are doubles: `previousPage + 2` in `handleNext` is exact only below 2^53; the model's `int` is unbounded, so `Next` does not reproduce rounding above that.
- JavaScript values that are not integers where numbers are expected (`NaN`, strings): cursor and total are `int`, so `x || 0` is exactly "x, or 0 when missing".
- The query document, the list component and its rendering, and the mocked-provider test (whose data shape does not follow the path the hook reads) are not part of this model.
