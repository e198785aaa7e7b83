/** The flame graph shown in a trace span's details: when to ask the profiles
    data source for one, the request it sends, which response frame it keeps,
    and the per-span cache of results. */
module SpanFlameGraph {
  import opened Wrappers

  /** Tag key marking a span that has a profile attached. */
  const ProfileTag: string := "pyroscope.profile.id"
  /** Padding on each side of the span, in milliseconds. */
  const PaddingMs: int := 30000
  const ResponseFrameName: string := "response"

  datatype Tag = Tag(key: string, value: string)

  /** A span; start time and duration are in microseconds. */
  datatype TraceSpan = TraceSpan(spanID: string, startTime: int, duration: int, tags: seq<Tag>)

  /** A time range in epoch milliseconds; the end may be fractional. */
  datatype TimeRange = TimeRange(from: int, to: real)

  /** A data frame, as far as this component looks at it. */
  datatype DataFrame = DataFrame(name: Option<string>, length: nat)

  datatype DataSourceKind = Pyroscope | OtherKind

  datatype DataSourceSettings = DataSourceSettings(uid: string, dsType: string)

  datatype TraceToProfilesOptions = TraceToProfilesOptions(datasourceUid: Option<string>, profileTypeId: Option<string>)

  datatype ProfileQuery = ProfileQuery(
    labelSelector: string,
    groupBy: seq<string>,
    profileTypeId: string,
    queryType: string,
    spanSelector: seq<string>,
    refId: string,
    datasource: DataSourceSettings)

  datatype QueryRequest = QueryRequest(
    requestId: string,
    interval: string,
    intervalMs: int,
    range: TimeRange,
    timezone: string,
    startTime: int,
    targets: seq<ProfileQuery>)

  /** Flame graphs already fetched, by span ID. */
  type Cache = map<string, DataFrame>

  // ---------------------------------------------------------------------------
  // Time window

  /** The span padded by 30 s on each side: the start is rounded down to a
      whole millisecond, the end is kept exact. */
  function TimeRangeForProfile(span: TraceSpan): (r: TimeRange)
    ensures r.from as real * 1000.0 <= span.startTime as real - 30000000.0
    ensures r.from as real * 1000.0 > span.startTime as real - 30001000.0
    ensures r.to * 1000.0 == (span.startTime + span.duration) as real + 30000000.0
  {
    var q := span.startTime / 1000;
    assert span.startTime == q * 1000 + span.startTime % 1000;
    TimeRange(q - PaddingMs, (span.startTime + span.duration) as real / 1000.0 + PaddingMs as real)
  }

  /** For a span of non-negative duration the window is at least a minute
      long and contains the whole span. */
  lemma WindowCoversSpan(span: TraceSpan)
    requires span.duration >= 0
    ensures var r := TimeRangeForProfile(span);
            && r.to - r.from as real >= 60000.0
            && r.from as real * 1000.0 <= span.startTime as real
            && (span.startTime + span.duration) as real <= r.to * 1000.0
  {
  }

  // ---------------------------------------------------------------------------
  // Response frame

  /** Index of the first frame named `response`. */
  function FirstResponse(frames: seq<DataFrame>): (r: Option<nat>)
    ensures r.Some? ==> r.value < |frames| && frames[r.value].name == Some(ResponseFrameName)
    ensures r.Some? ==> forall j :: 0 <= j < r.value ==> frames[j].name != Some(ResponseFrameName)
    ensures r.None? <==> forall j :: 0 <= j < |frames| ==> frames[j].name != Some(ResponseFrameName)
  {
    if |frames| == 0 then None
    else if frames[0].name == Some(ResponseFrameName) then Some(0)
    else
      match FirstResponse(frames[1..])
      case None => None
      case Some(k) => Some(k + 1)
  }

  /** The flame graph in a query response: only from a Pyroscope data source,
      only the first frame named `response`, and only if it has more than one row. */
  function GetFlameGraphData(kind: DataSourceKind, frames: seq<DataFrame>): (r: Option<DataFrame>)
    ensures r.Some? ==> kind == Pyroscope
    ensures r.Some? ==> r.value.length > 1 && r.value.name == Some(ResponseFrameName)
    ensures r.Some? ==> exists i :: 0 <= i < |frames| && frames[i] == r.value &&
                          forall j :: 0 <= j < i ==> frames[j].name != Some(ResponseFrameName)
    ensures r.None? <==>
              || kind != Pyroscope
              || (forall j :: 0 <= j < |frames| ==> frames[j].name != Some(ResponseFrameName))
              || exists i :: 0 <= i < |frames| && frames[i].name == Some(ResponseFrameName) &&
                   frames[i].length <= 1 &&
                   forall j :: 0 <= j < i ==> frames[j].name != Some(ResponseFrameName)
  {
    if kind == Pyroscope then
      var i := FirstResponse(frames);
      if i.Some? && frames[i.value].length > 1 then Some(frames[i.value]) else None
    else None
  }

  // ---------------------------------------------------------------------------
  // Request

  function BuildRequest(span: TraceSpan, settings: DataSourceSettings, options: TraceToProfilesOptions,
                        timezone: string): (r: QueryRequest)
    ensures |r.targets| == 1
    ensures r.targets[0].spanSelector == [span.spanID]
    ensures options.profileTypeId.Some? ==> r.targets[0].profileTypeId == options.profileTypeId.value
    ensures options.profileTypeId.None? ==> r.targets[0].profileTypeId == ""
    ensures r.targets[0].datasource == settings
    ensures span.duration >= 0 ==> r.range.from as real * 1000.0 <= span.startTime as real &&
                                   (span.startTime + span.duration) as real <= r.range.to * 1000.0
  {
    QueryRequest(
      "span-flamegraph-requestId",
      "2s",
      2000,
      TimeRangeForProfile(span),
      timezone,
      span.startTime,
      [ProfileQuery("{}", [], options.profileTypeId.GetOr(""), "profile", [span.spanID],
                    "span-flamegraph-refId", settings)])
  }

  // ---------------------------------------------------------------------------
  // Deciding to query

  function HasTag(tags: seq<Tag>, key: string): (r: bool)
    ensures r <==> exists i :: 0 <= i < |tags| && tags[i].key == key
  {
    |tags| > 0 && (tags[0].key == key || HasTag(tags[1..], key))
  }

  /** The data source to query for the span's flame graph, or None when no
      query is issued: the feature must be on, the span not yet cached, the
      span tagged with a profile, and the options must name a data source that
      resolves. */
  function ProfilesDataSource(featureEnabled: bool, cache: Cache, span: TraceSpan,
                              options: Option<TraceToProfilesOptions>,
                              instanceSettings: string -> Option<DataSourceSettings>): (r: Option<DataSourceSettings>)
    ensures r.Some? <==>
              && featureEnabled
              && span.spanID !in cache
              && (exists i :: 0 <= i < |span.tags| && span.tags[i].key == ProfileTag)
              && options.Some?
              && options.value.datasourceUid.Some?
              && options.value.datasourceUid.value != ""
              && instanceSettings(options.value.datasourceUid.value).Some?
    ensures r.Some? ==> r == instanceSettings(options.value.datasourceUid.value)
  {
    if featureEnabled && span.spanID !in cache then
      var settings :=
        if options.Some? && options.value.datasourceUid.Some? && options.value.datasourceUid.value != ""
        then instanceSettings(options.value.datasourceUid.value)
        else None;
      if HasTag(span.tags, ProfileTag) && options.Some? && settings.Some? then settings else None
    else None
  }

  // ---------------------------------------------------------------------------
  // Cache

  /** Stores a non-empty flame graph under the span's ID; nothing else changes. */
  function UpdateCache(cache: Cache, spanID: string, flameGraph: Option<DataFrame>): (r: Cache)
    ensures forall k :: k != spanID ==> (k in r <==> k in cache) && (k in cache ==> r[k] == cache[k])
    ensures flameGraph.Some? && flameGraph.value.length > 0 ==> spanID in r && r[spanID] == flameGraph.value
    ensures !(flameGraph.Some? && flameGraph.value.length > 0) ==> r == cache
  {
    if flameGraph.Some? && flameGraph.value.length > 0 then cache[spanID := flameGraph.value] else cache
  }

  /** What is rendered for the span: its cached flame graph, or nothing. */
  function Rendered(cache: Cache, spanID: string): (r: Option<DataFrame>)
    ensures r.Some? <==> spanID in cache
    ensures r.Some? ==> r.value == cache[spanID]
  {
    if spanID in cache then Some(cache[spanID]) else None
  }

  // ---------------------------------------------------------------------------
  // The effect

  /** One run of the component's effect, with the data source lookups and the
      query answered by the given functions. */
  function Effect(featureEnabled: bool, cache: Cache, span: TraceSpan,
                  options: Option<TraceToProfilesOptions>,
                  instanceSettings: string -> Option<DataSourceSettings>,
                  kindOf: string -> DataSourceKind,
                  query: QueryRequest -> seq<DataFrame>,
                  timezone: string): (r: Cache)
    ensures forall k :: k != span.spanID ==> (k in r <==> k in cache) && (k in cache ==> r[k] == cache[k])
    ensures span.spanID in cache ==> r == cache
    ensures span.spanID in r && span.spanID !in cache ==>
              r[span.spanID].name == Some(ResponseFrameName) && r[span.spanID].length > 1
    // no query, no change
    ensures ProfilesDataSource(featureEnabled, cache, span, options, instanceSettings).None? ==> r == cache
    // a query whose response holds a flame graph stores it; any other response changes nothing
    ensures ProfilesDataSource(featureEnabled, cache, span, options, instanceSettings).Some? ==>
              var settings := ProfilesDataSource(featureEnabled, cache, span, options, instanceSettings).value;
              var flameGraph := GetFlameGraphData(kindOf(settings.uid),
                                                  query(BuildRequest(span, settings, options.value, timezone)));
              && (flameGraph.Some? ==> span.spanID in r && r[span.spanID] == flameGraph.value)
              && (flameGraph.None? ==> r == cache)
  {
    match ProfilesDataSource(featureEnabled, cache, span, options, instanceSettings)
    case None => cache
    case Some(settings) =>
      var request := BuildRequest(span, settings, options.value, timezone);
      UpdateCache(cache, span.spanID, GetFlameGraphData(kindOf(settings.uid), query(request)))
  }

  /** Once the effect has stored a flame graph, it is rendered and the next run
      of the effect issues no query and changes nothing. */
  lemma {:induction false} NoRequery(featureEnabled: bool, cache: Cache, span: TraceSpan,
                                     options: Option<TraceToProfilesOptions>,
                                     instanceSettings: string -> Option<DataSourceSettings>,
                                     kindOf: string -> DataSourceKind,
                                     query: QueryRequest -> seq<DataFrame>,
                                     timezone: string)
    requires span.spanID !in cache
    ensures var c := Effect(featureEnabled, cache, span, options, instanceSettings, kindOf, query, timezone);
            span.spanID in c ==>
              && Rendered(c, span.spanID).Some?
              && ProfilesDataSource(featureEnabled, c, span, options, instanceSettings).None?
              && Effect(featureEnabled, c, span, options, instanceSettings, kindOf, query, timezone) == c
  {
  }
}
