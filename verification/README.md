# Flame-graph top table, scoped dashboards and span flame graphs

A Dafny model of three small pieces of logic in Grafana's web front end, with
the UI framework, rendering and network I/O stripped away:

- **TopTable** (`top_table.dfy`): the flame graph's top table. It picks the
  `value`, `self` and `label` fields of a profile data frame, adds up self and
  total cost per resolved symbol in one pass, formats each number with its
  column's unit, and builds one table row per symbol.
- **ScopesDashboards** (`scopes_dashboards.dfy`): the scene that lists the
  dashboards bound to the selected scopes. Its state is
  `{dashboards, filteredDashboards, isLoading, searchQuery}`. The transitions
  are the constructor, a search-query change, the start of a fetch and its
  completion. A fetch collects dashboard UIDs per scope and then resolves each
  UID to its details. The search is a case-insensitive substring filter.
- **SpanFlameGraph** (`span_flame_graph.dfy`): the flame graph in a trace
  span's details. It covers the ±30 s profile window around the span, the
  condition for issuing a profile query, the request sent, the choice of
  response frame, and the per-span cache of results.
- **Wrappers** (`wrappers.dfy`): an `Option` type standing for JavaScript's
  `undefined`.

Every network call is a function parameter. This covers the data-source
lookup, the profile query, the scope-binding list and the dashboard-detail
request, and a failed call is `None` or an empty list. The display processor
is a parameter too. Its `(text, suffix)` output is opaque, and the suffix is an
`Option<string>` because it can be undefined. The feature toggle is a boolean
parameter.

The main properties proved:

- For every resolved label, the top table holds the sums of that label's
  `self` and `value` cells. The table has no other keys, and the row values add
  up to the column sums.
- The falsy-guarded update `x ? x + v : v` behaves as ordinary addition.
- `filteredDashboards == filter(dashboards, searchQuery)` holds in every
  reachable state.
- The filter keeps exactly the matching dashboards, each as often as it
  occurs, in their original order, and filtering twice gives the same result
  as filtering once.
- A profile query is issued exactly when all of its gating conditions hold.
- A cache update touches only the span's own key, and the effect changes the
  cache exactly when a query is issued and its response holds a flame graph.
- Once a flame graph is stored, it is rendered and no further query is sent.

Row order in the top table. The code builds rows with `for…in` over a
JavaScript object. That visits integer-like keys first and the other keys in
insertion order, so rows do not always follow the order in which labels first
appear. The model fixes no order: `EnumerateKeys` may visit the keys in any
order.

## Model

| member | source | states |
|---|---|---|
| `TopTable.FindFirst` | public/app/plugins/panel/flamegraph/components/TopTable/FlameGraphTopTableContainer.tsx:36-40 | `fields.find`: the index of the first field matching the probe, with no earlier match; None exactly when no field matches |
| `TopTable.SelectField` | public/app/plugins/panel/flamegraph/components/TopTable/FlameGraphTopTableContainer.tsx:36-39 | value/self field choice: the first field with the given name if there is one, else the first number field; None exactly when neither exists |
| `TopTable.LabelField` | public/app/plugins/panel/flamegraph/components/TopTable/FlameGraphTopTableContainer.tsx:40 | the label field is the first field named `label`, with no numeric fallback; None exactly when no field has that name |
| `TopTable.Accumulate` | public/app/plugins/panel/flamegraph/components/TopTable/FlameGraphTopTableContainer.tsx:56-57 | the falsy-guarded update `x ? x + v : v` on a possibly undefined sum equals plain addition with undefined read as 0 |
| `TopTable.AggregateStep` | public/app/plugins/panel/flamegraph/components/TopTable/FlameGraphTopTableContainer.tsx:54-57 | one loop iteration: adding row i to its label's entry, or creating that entry, keeps the table equal to the per-label sums of rows 0..i |
| `TopTable.AggregateColumns` | public/app/plugins/panel/flamegraph/components/TopTable/FlameGraphTopTableContainer.tsx:47-58 | the one-pass loop ends with keys equal to the set of resolved labels, and each key's self and total equal the sums of its rows' self and value cells |
| `TopTable.SortLevelsIntoTable` | public/app/plugins/panel/flamegraph/components/TopTable/FlameGraphTopTableContainer.tsx:42-62 | empty table when the value, self or label field is missing; otherwise keys are exactly the resolved labels and each entry holds that label's sums |
| `TopTable.UnitString` | public/app/plugins/panel/flamegraph/components/TopTable/FlameGraphTopTableContainer.tsx:64-86 | bytes and nanoseconds: text followed by the suffix, with an undefined suffix printed as "undefined"; any other unit: text followed by the suffix, or the text alone when the suffix is empty or undefined |
| `TopTable.UnitsDisagreeOnlyWithoutSuffix` | public/app/plugins/panel/flamegraph/components/TopTable/FlameGraphTopTableContainer.tsx:68-83 | two units can only give different strings when the suffix is undefined; with any defined suffix, empty or not, every unit gives the same string |
| `TopTable.ElementsSnoc` | public/app/plugins/panel/flamegraph/components/TopTable/FlameGraphTopTableContainer.tsx:92 | appending a key to the visited list adds exactly that key to the set of visited keys |
| `TopTable.EnumerateKeys` | public/app/plugins/panel/flamegraph/components/TopTable/FlameGraphTopTableContainer.tsx:92 | `for…in` visits every key of the table once, in some order: no key is missing and none is repeated |
| `TopTable.AssembleTopTable` | public/app/plugins/panel/flamegraph/components/TopTable/FlameGraphTopTableContainer.tsx:91-101 | one row per table key, with no duplicate symbols; each row copies its key's self and total unchanged and formats them with the self and value fields' units |
| `TopTable.KeySums` | public/app/plugins/panel/flamegraph/components/TopTable/FlameGraphTopTableContainer.tsx:51-58 | for each key in a list, the sum of the cells whose label is that key |
| `TopTable.SumOfEmptyColumns` | public/app/plugins/panel/flamegraph/components/TopTable/FlameGraphTopTableContainer.tsx:46-61 | with no rows, every key's sum is 0 |
| `TopTable.SumForAbsent` | public/app/plugins/panel/flamegraph/components/TopTable/FlameGraphTopTableContainer.tsx:55 | a label that occurs in no row sums to 0, so a new entry starts from nothing |
| `TopTable.KeySumsSnoc` | public/app/plugins/panel/flamegraph/components/TopTable/FlameGraphTopTableContainer.tsx:51-58 | adding one row adds its value to exactly one key's sum, or to none when its label is not among the keys |
| `TopTable.KeySumsConserve` | public/app/plugins/panel/flamegraph/components/TopTable/FlameGraphTopTableContainer.tsx:51-58 | conservation: over a duplicate-free key list covering every label, the per-key sums add up to the column sum |
| `TopTable.RowsConserve` | public/app/plugins/panel/flamegraph/components/TopTable/FlameGraphTopTableContainer.tsx:88-101 | the top-table rows' self values add up to the self column's sum, and their total values to the value column's sum |
| `TopTable.TopTableFor` | public/app/plugins/panel/flamegraph/components/TopTable/FlameGraphTopTableContainer.tsx:88-104 | the effect: no rows when a field is missing; otherwise one row per resolved label with that label's sums, formatted by unit, with no cost lost or counted twice |
| `TopTable.SelectionReadable` | public/app/plugins/panel/flamegraph/components/TopTable/FlameGraphTopTableContainer.tsx:46-49 | in a well-formed frame the three selected columns are parallel and the value and self columns hold numbers |
| `TopTable.FallbackSharesColumn` | public/app/plugins/panel/flamegraph/components/TopTable/FlameGraphTopTableContainer.tsx:36-39 | with no field named `value` or `self`, both fall back to the same number field, so the self and total columns are equal |
| `TopTable.FallbackRowsAgree` | public/app/plugins/panel/flamegraph/components/TopTable/FlameGraphTopTableContainer.tsx:36-58 | in that case every top-table row has equal self and total values |
| `ScopesDashboards.Lower` | public/app/features/dashboard-scene/scene/ScopesDashboardsScene.tsx:121-122 | lower-casing keeps the length and lower-cases each character (ASCII) |
| `ScopesDashboards.IncludesWitness` | public/app/features/dashboard-scene/scene/ScopesDashboardsScene.tsx:122 | when `includes` holds, the query occurs in the title at some index |
| `ScopesDashboards.OccursIncludes` | public/app/features/dashboard-scene/scene/ScopesDashboardsScene.tsx:122 | an occurrence of the query at any index makes `includes` hold |
| `ScopesDashboards.IncludesAt` | public/app/features/dashboard-scene/scene/ScopesDashboardsScene.tsx:122 | `includes` holds exactly when the query occurs in the title at some index |
| `ScopesDashboards.FilterLowered` | public/app/features/dashboard-scene/scene/ScopesDashboardsScene.tsx:122 | keeps exactly the dashboards whose lower-cased title contains the lower-cased query; the result is a subsequence of the input, so order is kept |
| `ScopesDashboards.FilterCounts` | public/app/features/dashboard-scene/scene/ScopesDashboardsScene.tsx:122 | repeats survive: each matching dashboard appears in the result as many times as in the input, and a non-matching one not at all |
| `ScopesDashboards.FilterAppend` | public/app/features/dashboard-scene/scene/ScopesDashboardsScene.tsx:122 | the filter works element by element: filtering `a + b` gives the filter of `a` followed by the filter of `b` |
| `ScopesDashboards.FilterDashboards` | public/app/features/dashboard-scene/scene/ScopesDashboardsScene.tsx:120-123 | case-insensitive substring filter: a dashboard is kept iff it is in the input and its lower-cased title contains the lower-cased query; a kept dashboard appears as often as in the input (duplicates are not removed), in the original order |
| `ScopesDashboards.FilterKeepsMatching` | public/app/features/dashboard-scene/scene/ScopesDashboardsScene.tsx:122 | a list in which every dashboard matches passes through the filter unchanged |
| `ScopesDashboards.FilterIdempotent` | public/app/features/dashboard-scene/scene/ScopesDashboardsScene.tsx:120-123 | filtering twice equals filtering once |
| `ScopesDashboards.FilterEmptyQuery` | public/app/features/dashboard-scene/scene/ScopesDashboardsScene.tsx:62-68 | the empty query keeps every dashboard, so the shortcut for an empty query agrees with the filter |
| `ScopesDashboards.ChangeSearchQuery` | public/app/features/dashboard-scene/scene/ScopesDashboardsScene.tsx:62-69 | stores the query, leaves `dashboards` and `isLoading` alone, and the shown list is the filter of `dashboards` by the new query, even for the empty query |
| `ScopesDashboards.StartFetch` | public/app/features/dashboard-scene/scene/ScopesDashboardsScene.tsx:43-48 | no scopes: both lists empty and not loading; otherwise loading with the lists untouched; the query is kept either way |
| `ScopesDashboards.CompleteFetch` | public/app/features/dashboard-scene/scene/ScopesDashboardsScene.tsx:55-59 | stores the fetched list and stops loading; the shown list is the filter of the fetched list by the query current at completion, so it holds exactly the fetched dashboards that match |
| `ScopesDashboards.NonEmpty` | public/app/features/dashboard-scene/scene/ScopesDashboardsScene.tsx:83 | drops exactly the empty UIDs and keeps every other UID as often as it occurs, in order |
| `ScopesDashboards.BindingUids` | public/app/features/dashboard-scene/scene/ScopesDashboardsScene.tsx:71-87 | a failed binding lookup contributes no UIDs; a successful one contributes its non-empty UIDs, repeats included, in order |
| `ScopesDashboards.CollectUids` | public/app/features/dashboard-scene/scene/ScopesDashboardsScene.tsx:50-53 | a UID is collected iff some scope's binding list contributes it |
| `ScopesDashboards.CollectUidsAppend` | public/app/features/dashboard-scene/scene/ScopesDashboardsScene.tsx:50-53 | collection is concatenation in scope order: collecting over `a + b` gives `a`'s UIDs followed by `b`'s |
| `ScopesDashboards.FetchDetails` | public/app/features/dashboard-scene/scene/ScopesDashboardsScene.tsx:89-118 | a dashboard is in the result iff some UID's detail lookup returned it; the result is no longer than the UID list; if no lookup fails, the result holds each UID's details in UID order |
| `ScopesDashboards.FetchDetailsAppend` | public/app/features/dashboard-scene/scene/ScopesDashboardsScene.tsx:91-95 | order is kept: the details for `a + b` are those for `a` followed by those for `b` |
| `ScopesDashboards.FetchDashboards` | public/app/features/dashboard-scene/scene/ScopesDashboardsScene.tsx:43-60 | a whole fetch ends not loading, keeps the query, stores the dashboards resolved from the scopes' bindings (none for no scopes), and satisfies the invariant |
| `ScopesDashboards.InitEstablishes` | public/app/features/dashboard-scene/scene/ScopesDashboardsScene.tsx:34-41 | the constructor's state satisfies the invariant: empty lists, not loading |
| `ScopesDashboards.StepPreserves` | public/app/features/dashboard-scene/scene/ScopesDashboardsScene.tsx:43-68 | every transition keeps `filteredDashboards == filter(dashboards, searchQuery)` |
| `ScopesDashboards.RunPreserves` | public/app/features/dashboard-scene/scene/ScopesDashboardsScene.tsx:43-68 | any sequence of transitions keeps the invariant |
| `ScopesDashboards.ReachableInvariant` | public/app/features/dashboard-scene/scene/ScopesDashboardsScene.tsx:34-68 | every state reachable from the constructor satisfies the invariant |
| `SpanFlameGraph.TimeRangeForProfile` | public/app/features/explore/TraceView/components/TraceTimelineViewer/SpanDetail/SpanFlameGraph.tsx:40-54 | the window starts at the span start floored to a millisecond less 30 s, and ends exactly 30 s after the span end |
| `SpanFlameGraph.WindowCoversSpan` | public/app/features/explore/TraceView/components/TraceTimelineViewer/SpanDetail/SpanFlameGraph.tsx:41-42 | for a non-negative duration the window is at least 60 000 ms long and contains the whole span |
| `SpanFlameGraph.FirstResponse` | public/app/features/explore/TraceView/components/TraceTimelineViewer/SpanDetail/SpanFlameGraph.tsx:60-62 | the first frame named `response`, if any |
| `SpanFlameGraph.GetFlameGraphData` | public/app/features/explore/TraceView/components/TraceTimelineViewer/SpanDetail/SpanFlameGraph.tsx:56-67 | a frame is returned iff the data source is Pyroscope and the first `response` frame has more than one row, and then it is that frame |
| `SpanFlameGraph.BuildRequest` | public/app/features/explore/TraceView/components/TraceTimelineViewer/SpanDetail/SpanFlameGraph.tsx:74-97 | one target selecting the span's ID, with the options' profile type or `''` and the resolved data source; its range covers the span |
| `SpanFlameGraph.HasTag` | public/app/features/explore/TraceView/components/TraceTimelineViewer/SpanDetail/SpanFlameGraph.tsx:113 | `tags.some`: true iff some tag has the key |
| `SpanFlameGraph.ProfilesDataSource` | public/app/features/explore/TraceView/components/TraceTimelineViewer/SpanDetail/SpanFlameGraph.tsx:107-118 | a query is issued iff the toggle is on, the span is not cached, it has the profile tag, options are present and name a non-empty data source UID whose settings resolve; it goes to those settings |
| `SpanFlameGraph.UpdateCache` | public/app/features/explore/TraceView/components/TraceTimelineViewer/SpanDetail/SpanFlameGraph.tsx:100-102 | a non-empty frame is stored under the span's ID; no other key is added, removed or changed; otherwise the cache is unchanged |
| `SpanFlameGraph.Rendered` | public/app/features/explore/TraceView/components/TraceTimelineViewer/SpanDetail/SpanFlameGraph.tsx:131-139 | nothing is rendered iff the cache has no entry for the span; otherwise that entry is |
| `SpanFlameGraph.Effect` | public/app/features/explore/TraceView/components/TraceTimelineViewer/SpanDetail/SpanFlameGraph.tsx:69-118 | one run of the effect changes only the span's key and never overwrites an existing entry; with no query issued the cache is unchanged; with a query issued, the response's flame graph (first `response` frame with more than one row, from Pyroscope) is stored, and any other response leaves the cache unchanged |
| `SpanFlameGraph.NoRequery` | public/app/features/explore/TraceView/components/TraceTimelineViewer/SpanDetail/SpanFlameGraph.tsx:100-133 | after the effect stores a flame graph, it is rendered, no further query is issued, and running the effect again changes nothing |

## Left out

- Rendering, styles, `AutoSizer`, hook dependency lists and scene-object plumbing: UI framework mechanics with no logic of their own.
- Network and async I/O: the data-source lookups, the profile query, the scope-binding list and the dashboard-detail requests are function parameters. A fetch is one sequential run, and overlapping fetches are not modelled. Other events may still occur between `StartFetch` and `CompleteFetch`.
- The alert published when fetching dashboard details fails as a whole: each detail lookup already catches its own failure, so that path cannot be reached through the code shown.
- `getDisplayProcessor`: magnitude scaling and suffix choice happen in a library that is not part of this model. Its `(text, suffix)` result is an input.
- The unit names `bytes` and `ns` come from the flame graph's `SampleUnit` enum, and the profile tag key `pyroscope.profile.id` comes from `createSpanLink`. Neither file is part of this model; their values are taken as constants.
- Floating point: costs are integers, so NaN (falsy in the accumulation guard) does not arise. Span times are integer microseconds. The window end is a `real`, and the conversion to a date object is not modelled.
- JavaScript object keys: the table is a `map`. The prototype behaviour a plain object gives keys such as `__proto__` or inherited names like `toString` is not modelled.
- Unicode case mapping: lower-casing is ASCII only.
- The request's constant `scopedVars` and `app` fields carry no logic and are omitted.
- `searchQuery ?? ''`: a query is always a string in the model, so the null case does not arise.
- `TopTable.SortLevelsIntoTable`: requires a well-formed frame, meaning equal column lengths (the data-frame invariant) and numbers in fields named `value` or `self` or typed as numbers. The string concatenation JavaScript would perform on text cells in those columns is not modelled.
- `TopTable.TopTableFor`: requires the same well-formed frame, for the same reason.
- `TopTable.AggregateColumns`: requires parallel columns (equal lengths) with numbers in the value and self columns, the same restriction for the same reason.
- `SpanFlameGraph.Effect`: the cache it updates is the one it was given. The source's `queryFlameGraph` spreads the `traceFlameGraphs` snapshot captured when the query started (SpanFlameGraph.tsx:101, 104), so two overlapping queries for different spans can drop each other's entry. "Only the span's own key changes" holds relative to that snapshot; concurrent queries are not modelled.
