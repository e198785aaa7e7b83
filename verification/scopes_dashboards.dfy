/** The list of dashboards suggested for the selected scopes: fetched per scope,
    resolved to dashboard details, and filtered by a case-insensitive search. */
module ScopesDashboards {
  import opened Wrappers

  datatype ScopeDashboard = ScopeDashboard(uid: string, title: string, url: string)

  datatype Scope = Scope(name: string)

  datatype SceneState = SceneState(
    dashboards: seq<ScopeDashboard>,
    filteredDashboards: seq<ScopeDashboard>,
    isLoading: bool,
    searchQuery: string)

  // ---------------------------------------------------------------------------
  // Strings

  /** ASCII lower-casing of one character. */
  function LowerChar(c: char): char {
    if 'A' <= c <= 'Z' then (c as int + 32) as char else c
  }

  function Lower(s: string): (r: string)
    ensures |r| == |s|
    ensures forall i :: 0 <= i < |s| ==> r[i] == LowerChar(s[i])
  {
    if |s| == 0 then [] else [LowerChar(s[0])] + Lower(s[1..])
  }

  /** `s.includes(sub)`: `sub` occurs in `s` at some position. */
  predicate Includes(s: string, sub: string)
    decreases |s|
  {
    sub <= s || (|s| > 0 && Includes(s[1..], sub))
  }

  /** `sub` occurs in `s` starting at index `i`. */
  predicate OccursAt(s: string, sub: string, i: int) {
    0 <= i <= |s| - |sub| && s[i..i + |sub|] == sub
  }

  /** An inclusion has an index where `sub` occurs. */
  lemma {:induction false} IncludesWitness(s: string, sub: string) returns (i: int)
    requires Includes(s, sub)
    ensures OccursAt(s, sub, i)
    decreases |s|
  {
    if sub <= s {
      i := 0;
    } else {
      var j := IncludesWitness(s[1..], sub);
      i := j + 1;
      assert s[1..][j..j + |sub|] == s[i..i + |sub|];
    }
  }

  /** An occurrence at any index is an inclusion. */
  lemma {:induction false} OccursIncludes(s: string, sub: string, i: int)
    requires OccursAt(s, sub, i)
    ensures Includes(s, sub)
    decreases i
  {
    if i == 0 {
      assert s[..|sub|] == sub;
    } else {
      assert s[1..][i - 1..i - 1 + |sub|] == s[i..i + |sub|];
      OccursIncludes(s[1..], sub, i - 1);
    }
  }

  /** `Includes` holds exactly when `sub` occurs at some index of `s`. */
  lemma IncludesAt(s: string, sub: string)
    ensures Includes(s, sub) <==> exists i :: OccursAt(s, sub, i)
  {
    if Includes(s, sub) {
      var i := IncludesWitness(s, sub);
    }
    forall i | OccursAt(s, sub, i) ensures Includes(s, sub) {
      OccursIncludes(s, sub, i);
    }
  }

  // ---------------------------------------------------------------------------
  // Filtering

  predicate Matches(d: ScopeDashboard, lowerQuery: string) {
    Includes(Lower(d.title), lowerQuery)
  }

  function FilterLowered(ds: seq<ScopeDashboard>, lowerQuery: string): (r: seq<ScopeDashboard>)
    ensures |r| <= |ds|
    ensures forall d :: d in r <==> d in ds && Matches(d, lowerQuery)
    ensures IsSubsequence(r, ds)
  {
    if |ds| == 0 then []
    else if Matches(ds[0], lowerQuery) then [ds[0]] + FilterLowered(ds[1..], lowerQuery)
    else FilterLowered(ds[1..], lowerQuery)
  }

  /** Every matching dashboard is kept as often as it occurs, so repeats survive. */
  lemma {:induction false} FilterCounts(ds: seq<ScopeDashboard>, lowerQuery: string)
    ensures forall d :: multiset(FilterLowered(ds, lowerQuery))[d] ==
              if Matches(d, lowerQuery) then multiset(ds)[d] else 0
  {
    if |ds| > 0 {
      assert ds == [ds[0]] + ds[1..];
      FilterCounts(ds[1..], lowerQuery);
    }
  }

  /** Filtering a concatenation filters each part and concatenates. */
  lemma {:induction false} FilterAppend(a: seq<ScopeDashboard>, b: seq<ScopeDashboard>, lowerQuery: string)
    ensures FilterLowered(a + b, lowerQuery) == FilterLowered(a, lowerQuery) + FilterLowered(b, lowerQuery)
  {
    if |a| == 0 {
      assert a + b == b;
    } else {
      assert (a + b)[1..] == a[1..] + b;
      FilterAppend(a[1..], b, lowerQuery);
    }
  }

  /** The dashboards whose title contains the search query, ignoring case,
      in their original order. */
  function FilterDashboards(ds: seq<ScopeDashboard>, searchQuery: string): (r: seq<ScopeDashboard>)
    ensures forall d :: d in r <==> d in ds && Includes(Lower(d.title), Lower(searchQuery))
    ensures IsSubsequence(r, ds)
    ensures forall d :: multiset(r)[d] ==
              if Includes(Lower(d.title), Lower(searchQuery)) then multiset(ds)[d] else 0
  {
    FilterCounts(ds, Lower(searchQuery));
    FilterLowered(ds, Lower(searchQuery))
  }

  /** `a` can be obtained from `b` by deleting elements. */
  predicate IsSubsequence<T(==)>(a: seq<T>, b: seq<T>)
    decreases |b|
  {
    |a| == 0 || (|b| > 0 && ((a[0] == b[0] && IsSubsequence(a[1..], b[1..])) || IsSubsequence(a, b[1..])))
  }

  lemma {:induction false} FilterKeepsMatching(ds: seq<ScopeDashboard>, lowerQuery: string)
    requires forall i :: 0 <= i < |ds| ==> Matches(ds[i], lowerQuery)
    ensures FilterLowered(ds, lowerQuery) == ds
  {
    if |ds| > 0 {
      FilterKeepsMatching(ds[1..], lowerQuery);
      assert [ds[0]] + ds[1..] == ds;
    }
  }

  /** Filtering the filtered list changes nothing. */
  lemma FilterIdempotent(ds: seq<ScopeDashboard>, searchQuery: string)
    ensures FilterDashboards(FilterDashboards(ds, searchQuery), searchQuery) == FilterDashboards(ds, searchQuery)
  {
    var r := FilterDashboards(ds, searchQuery);
    assert forall i :: 0 <= i < |r| ==> r[i] in r;
    FilterKeepsMatching(r, Lower(searchQuery));
  }

  /** The empty query keeps every dashboard. */
  lemma {:induction false} FilterEmptyQuery(ds: seq<ScopeDashboard>)
    ensures FilterDashboards(ds, "") == ds
  {
    assert Lower("") == "";
    forall i | 0 <= i < |ds| ensures Matches(ds[i], "") {
      assert "" <= Lower(ds[i].title);
    }
    FilterKeepsMatching(ds, "");
  }

  // ---------------------------------------------------------------------------
  // Fetching

  /** The dashboard UIDs bound to one scope; a failed lookup yields none, and
      empty UIDs are dropped. */
  function BindingUids(response: Option<seq<string>>): (r: seq<string>)
    ensures response.None? ==> r == []
    ensures response.Some? ==> IsSubsequence(r, response.value)
    ensures response.Some? ==> forall u :: u in r <==> u in response.value && u != ""
    ensures response.Some? ==> forall u :: multiset(r)[u] == if u != "" then multiset(response.value)[u] else 0
  {
    match response
    case None => []
    case Some(uids) => NonEmpty(uids)
  }

  function NonEmpty(uids: seq<string>): (r: seq<string>)
    ensures IsSubsequence(r, uids)
    ensures forall u :: u in r <==> u in uids && u != ""
    // a repeated UID is kept as often as it occurs
    ensures forall u :: multiset(r)[u] == if u != "" then multiset(uids)[u] else 0
  {
    if |uids| == 0 then []
    else
      assert uids == [uids[0]] + uids[1..];
      if uids[0] != "" then [uids[0]] + NonEmpty(uids[1..])
      else NonEmpty(uids[1..])
  }

  /** The UIDs of all scopes, concatenated in scope order. */
  function CollectUids(scopes: seq<Scope>, listBindings: string -> Option<seq<string>>): (r: seq<string>)
    ensures forall u :: u in r <==>
              exists i :: 0 <= i < |scopes| && u in BindingUids(listBindings(scopes[i].name))
  {
    if |scopes| == 0 then []
    else BindingUids(listBindings(scopes[0].name)) + CollectUids(scopes[1..], listBindings)
  }

  /** Collecting over two runs of scopes is collecting each in turn. */
  lemma {:induction false} CollectUidsAppend(a: seq<Scope>, b: seq<Scope>, listBindings: string -> Option<seq<string>>)
    ensures CollectUids(a + b, listBindings) == CollectUids(a, listBindings) + CollectUids(b, listBindings)
  {
    if |a| == 0 {
      assert a + b == b;
    } else {
      assert (a + b)[1..] == a[1..] + b;
      CollectUidsAppend(a[1..], b, listBindings);
    }
  }

  /** The details of each UID; a UID whose lookup fails is dropped and the
      others keep their order. */
  function FetchDetails(uids: seq<string>, getDetails: string -> Option<ScopeDashboard>): (r: seq<ScopeDashboard>)
    ensures |r| <= |uids|
    ensures forall d :: d in r <==> exists i :: 0 <= i < |uids| && getDetails(uids[i]) == Some(d)
    ensures (forall i :: 0 <= i < |uids| ==> getDetails(uids[i]).Some?) ==>
              |r| == |uids| && forall i :: 0 <= i < |uids| ==> Some(r[i]) == getDetails(uids[i])
  {
    if |uids| == 0 then []
    else
      var rest := FetchDetails(uids[1..], getDetails);
      match getDetails(uids[0])
      case Some(d) => [d] + rest
      case None => rest
  }

  lemma {:induction false} FetchDetailsAppend(a: seq<string>, b: seq<string>, getDetails: string -> Option<ScopeDashboard>)
    ensures FetchDetails(a + b, getDetails) == FetchDetails(a, getDetails) + FetchDetails(b, getDetails)
  {
    if |a| == 0 {
      assert a + b == b;
    } else {
      assert (a + b)[1..] == a[1..] + b;
      FetchDetailsAppend(a[1..], b, getDetails);
    }
  }

  /** The dashboards a fetch for `scopes` ends with. */
  function FetchedDashboards(scopes: seq<Scope>, listBindings: string -> Option<seq<string>>,
                             getDetails: string -> Option<ScopeDashboard>): seq<ScopeDashboard>
  {
    FetchDetails(CollectUids(scopes, listBindings), getDetails)
  }

  // ---------------------------------------------------------------------------
  // Transitions

  function Init(): SceneState {
    SceneState([], [], false, "")
  }

  /** Typing in the search box. */
  function ChangeSearchQuery(s: SceneState, searchQuery: string): (r: SceneState)
    ensures r.searchQuery == searchQuery
    ensures r.dashboards == s.dashboards && r.isLoading == s.isLoading
    ensures r.filteredDashboards == FilterDashboards(s.dashboards, searchQuery)
  {
    if searchQuery != "" then
      s.(filteredDashboards := FilterDashboards(s.dashboards, searchQuery), searchQuery := searchQuery)
    else
      FilterEmptyQuery(s.dashboards);
      s.(filteredDashboards := s.dashboards, searchQuery := searchQuery)
  }

  /** The synchronous start of a fetch: an empty scope list clears the list,
      otherwise the scene shows it is loading. */
  function StartFetch(s: SceneState, scopes: seq<Scope>): (r: SceneState)
    ensures r.searchQuery == s.searchQuery
    ensures |scopes| == 0 ==> r.dashboards == [] && r.filteredDashboards == [] && !r.isLoading
    ensures |scopes| > 0 ==> r.isLoading && r.dashboards == s.dashboards &&
                             r.filteredDashboards == s.filteredDashboards
  {
    if |scopes| == 0 then s.(dashboards := [], filteredDashboards := [], isLoading := false)
    else s.(isLoading := true)
  }

  /** The end of a fetch: the fetched list is stored and filtered by the
      search query current at that moment. */
  function CompleteFetch(s: SceneState, dashboards: seq<ScopeDashboard>): (r: SceneState)
    ensures r.dashboards == dashboards && !r.isLoading && r.searchQuery == s.searchQuery
    ensures forall d :: d in r.filteredDashboards <==>
              d in dashboards && Includes(Lower(d.title), Lower(s.searchQuery))
    ensures r.filteredDashboards == FilterDashboards(dashboards, s.searchQuery)
  {
    s.(dashboards := dashboards, filteredDashboards := FilterDashboards(dashboards, s.searchQuery),
       isLoading := false)
  }

  /** A whole fetch with nothing happening in between. */
  function FetchDashboards(s: SceneState, scopes: seq<Scope>, listBindings: string -> Option<seq<string>>,
                           getDetails: string -> Option<ScopeDashboard>): (r: SceneState)
    ensures !r.isLoading && r.searchQuery == s.searchQuery
    ensures r.dashboards == FetchedDashboards(scopes, listBindings, getDetails)
    ensures Invariant(r)
  {
    if |scopes| == 0 then
      StartFetch(s, scopes)
    else
      CompleteFetch(StartFetch(s, scopes), FetchedDashboards(scopes, listBindings, getDetails))
  }

  // ---------------------------------------------------------------------------
  // The invariant

  /** The shown list is always the stored list filtered by the stored query
      (`FilterDashboards`, written out so its contract is not dragged along). */
  predicate Invariant(s: SceneState) {
    s.filteredDashboards == FilterLowered(s.dashboards, Lower(s.searchQuery))
  }

  datatype Event =
    | SearchChanged(query: string)
    | FetchStarted(scopes: seq<Scope>)
    | FetchCompleted(fetched: seq<ScopeDashboard>)

  function Step(s: SceneState, e: Event): SceneState {
    match e
    case SearchChanged(q) => ChangeSearchQuery(s, q)
    case FetchStarted(scopes) => StartFetch(s, scopes)
    case FetchCompleted(fetched) => CompleteFetch(s, fetched)
  }

  function Run(s: SceneState, events: seq<Event>): SceneState
    decreases |events|
  {
    if |events| == 0 then s else Run(Step(s, events[0]), events[1..])
  }

  lemma InitEstablishes()
    ensures Invariant(Init())
    ensures Init().dashboards == [] && !Init().isLoading
  {
  }

  lemma StepPreserves(s: SceneState, e: Event)
    requires Invariant(s)
    ensures Invariant(Step(s, e))
  {
  }

  /** Every state reachable from the constructor satisfies the invariant. */
  lemma {:induction false} RunPreserves(s: SceneState, events: seq<Event>)
    requires Invariant(s)
    ensures Invariant(Run(s, events))
    decreases |events|
  {
    if |events| > 0 {
      StepPreserves(s, events[0]);
      RunPreserves(Step(s, events[0]), events[1..]);
    }
  }

  lemma ReachableInvariant(events: seq<Event>)
    ensures Invariant(Run(Init(), events))
  {
    RunPreserves(Init(), events);
  }
}
