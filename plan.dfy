/** The query planner of the analyzer: which fact table a statistics query
    reads, which tables it joins, and which fields and filters each joined
    sub-query carries. The plan stops where the SQL text would be written. */
module QueryPlanning {
  import opened Wrappers
  import opened Text
  import opened Fields
  import opened Filters

  // ---------------------------------------------------------------------
  // Searching field and string lists

  /** Filter.fieldsContain. */
  function FieldsContain(haystack: seq<Field>, needle: Field): (r: bool)
    ensures r <==> needle in haystack
  {
    if |haystack| == 0 then false
    else haystack[0] == needle || FieldsContain(haystack[1..], needle)
  }

  /** Filter.valuesContainPrefix: whether some string of `haystack` starts
      with `prefix`. */
  function ValuesContainPrefix(haystack: seq<string>, prefix: string): (r: bool)
    ensures r <==> exists i :: 0 <= i < |haystack| && HasPrefix(haystack[i], prefix)
  {
    if |haystack| == 0 then false
    else
      HasPrefix(haystack[0], prefix) || (
        var r' := ValuesContainPrefix(haystack[1..], prefix);
        assert r' ==> exists i :: 0 <= i < |haystack| && HasPrefix(haystack[i], prefix) by {
          if r' {
            var i :| 0 <= i < |haystack[1..]| && HasPrefix(haystack[1..][i], prefix);
            assert haystack[i + 1] == haystack[1..][i];
          }
        }
        assert (exists i :: 1 <= i < |haystack| && HasPrefix(haystack[i], prefix)) ==> r' by {
          if exists i :: 1 <= i < |haystack| && HasPrefix(haystack[i], prefix) {
            var i :| 1 <= i < |haystack| && HasPrefix(haystack[i], prefix);
            assert haystack[1..][i - 1] == haystack[i];
          }
        }
        r')
  }

  /** Filter.searchContains on the filter's Search list: whether some search
      is on `needle`. */
  function SearchContains(search: seq<Search>, needle: Field): (r: bool)
    ensures r <==> exists i :: 0 <= i < |search| && search[i].field == needle
  {
    if |search| == 0 then false
    else
      search[0].field == needle || (
        var r' := SearchContains(search[1..], needle);
        assert r' ==> exists i :: 0 <= i < |search| && search[i].field == needle by {
          if r' {
            var i :| 0 <= i < |search[1..]| && search[1..][i].field == needle;
            assert search[i + 1] == search[1..][i];
          }
        }
        assert (exists i :: 1 <= i < |search| && search[i].field == needle) ==> r' by {
          if exists i :: 1 <= i < |search| && search[i].field == needle {
            var i :| 1 <= i < |search| && search[i].field == needle;
            assert search[1..][i - 1] == search[i];
          }
        }
        r')
  }

  /** Filter.excludeFields: `fields` without the fields of `exclude`, the
      others kept with their multiplicities. */
  function ExcludeFields(fields: seq<Field>, exclude: seq<Field>): (r: seq<Field>)
    ensures forall x :: x in r <==> x in fields && x !in exclude
    ensures |r| <= |fields|
  {
    if |fields| == 0 then []
    else (if FieldsContain(exclude, fields[0]) then [] else [fields[0]]) + ExcludeFields(fields[1..], exclude)
  }

  /** No field occurs twice. */
  predicate DistinctFields(s: seq<Field>) {
    forall i, j :: 0 <= i < j < |s| ==> s[i] != s[j]
  }

  // ---------------------------------------------------------------------
  // table

  /** The filters and fields that make `table` read page views. */
  predicate PageViewTrigger(f: FilterData, fields: seq<Field>) {
    |f.dims.path| > 0 || |f.dims.pathPattern| > 0 || |f.dims.tags| > 0 || |f.dims.tag| > 0 ||
    FieldsContain(fields, FieldPageViewsAll) || FieldsContain(fields, FieldPath) ||
    FieldsContain(fields, FieldEntries) || FieldsContain(fields, FieldExits) ||
    FieldsContain(fields, FieldHour) || FieldsContain(fields, FieldMinute) ||
    FieldsContain(fields, FieldTagKeysRaw) || FieldsContain(fields, FieldTagValuesRaw) ||
    TagFields(fields) || SearchContains(f.search, FieldPath)
  }

  /** A tag key or tag value column is requested. */
  predicate TagFields(fields: seq<Field>) {
    FieldsContain(fields, FieldTagKey) || FieldsContain(fields, FieldTagValue)
  }

  /** Both the custom metric key and its type are set. */
  predicate FullCustomMetric(f: FilterData) {
    f.customMetricType != "" && f.customMetricKey != ""
  }

  /** The first rule of `table`: a page view trigger, not overridden by a
      full custom metric without tag fields or by all session columns. */
  predicate PageViewRule(f: FilterData, fields: seq<Field>) {
    PageViewTrigger(f, fields) && (!FullCustomMetric(f) || TagFields(fields)) && FieldSessionsAll !in fields
  }

  /** The filters and fields that make `table` read events. */
  predicate EventTrigger(f: FilterData, fields: seq<Field>) {
    |f.dims.eventName| > 0 || FieldsContain(fields, FieldEventName) ||
    FieldsContain(fields, FieldEventsAll) || FullCustomMetric(f)
  }

  /** Filter.table: the primary fact table for `fields`. Page views come
      first, then entry and exit paths (sessions), then events; sessions
      otherwise. FieldSessionsAll overrides both page views and events. */
  function TableFor(f: FilterData, fields: seq<Field>): (r: Table)
    ensures FieldSessionsAll in fields ==> r == Sessions
    ensures r == PageViews ==> PageViewTrigger(f, fields) && (!FullCustomMetric(f) || TagFields(fields))
    ensures r == Events ==> EventTrigger(f, fields) && FieldEntryPath !in fields && FieldExitPath !in fields
  {
    var allSessions := FieldsContain(fields, FieldSessionsAll);
    if PageViewTrigger(f, fields) && (!FullCustomMetric(f) || TagFields(fields)) && !allSessions then PageViews
    else if FieldsContain(fields, FieldEntryPath) || FieldsContain(fields, FieldExitPath) then Sessions
    else if EventTrigger(f, fields) && !allSessions then Events
    else Sessions
  }

  // ---------------------------------------------------------------------
  // The query plan

  /** A queryBuilder up to the point where it writes SQL: the filter it
      applies, the table it reads, the fields it selects, whether it applies
      the event filter itself, the settings it is created with, and the
      sub-queries it joins. */
  datatype QueryBuilder = QueryBuilder(
    filter: FilterData,
    from: Table,
    fields: seq<Field>,
    includeEventFilter: bool,
    settings: Settings,
    joins: Joins)

  /** The fields of a queryBuilder that are set when it is created and not
      changed by the planner. */
  datatype Settings = Settings(
    fieldsImported: seq<Field>,
    fromImported: string,
    joinStep: int,
    search: seq<Search>,
    groupBy: seq<Field>,
    orderBy: seq<Field>,
    offset: int,
    limit: int,
    sample: nat,
    final: bool)

  /** The sub-queries of a queryBuilder (nil pointers are None). */
  datatype Joins = Joins(
    join: Option<QueryBuilder>,
    joinSecond: Option<QueryBuilder>,
    leftJoin: Option<QueryBuilder>,
    joinThird: Option<QueryBuilder>)

  const NoJoins: Joins := Joins(None, None, None, None)

  /** A sub-query builder: the fields the literal `&queryBuilder{...}` sets,
      every other field zero. */
  function SubQuery(filter: FilterData, fields: seq<Field>, from: Table, groupBy: seq<Field>,
                    orderBy: seq<Field>, sample: nat, final: bool): QueryBuilder {
    QueryBuilder(filter, from, fields, false, Settings([], "", 0, [], groupBy, orderBy, 0, 0, sample, final), NoJoins)
  }

  /** What every join of the planner looks like: it reads `from`, selects
      the visitor and session first and no field twice, groups by fields it
      selects, keeps the sample, has no order, no Sort and no sub-queries of
      its own. */
  predicate JoinShape(f: FilterData, q: QueryBuilder, from: Table) {
    q.from == from &&
    |q.fields| >= 2 && q.fields[0] == FieldVisitorID && q.fields[1] == FieldSessionID &&
    DistinctFields(q.fields) &&
    (forall x :: x in q.settings.groupBy ==> x in q.fields) &&
    q.settings.orderBy == [] && q.filter.sort == [] && q.settings.sample == f.sample &&
    q.joins == NoJoins
  }

  /** The fields of `cands` that `want` selects, in the order of `cands`:
      what a run of `if cond { fields = append(fields, x) }` statements
      builds, one statement per candidate in source order. */
  function Keep(cands: seq<Field>, want: Field -> bool): (r: seq<Field>)
    ensures forall y :: y in r <==> y in cands && want(y)
    ensures DistinctFields(cands) ==> DistinctFields(r)
  {
    if |cands| == 0 then []
    else
      var init, last := cands[..|cands| - 1], cands[|cands| - 1];
      assert cands == init + [last];
      Keep(init, want) + (if want(last) then [last] else [])
  }

  lemma DistinctConcat(a: seq<Field>, b: seq<Field>)
    requires DistinctFields(a) && DistinctFields(b) && forall y :: y in a ==> y !in b
    ensures DistinctFields(a + b)
  {
    forall i, j | 0 <= i < j < |a + b|
      ensures (a + b)[i] != (a + b)[j]
    {
      if j >= |a| {
        assert (a + b)[j] == b[j - |a|];
        if i < |a| {
          assert (a + b)[i] == a[i] && a[i] in a;
        } else {
          assert (a + b)[i] == b[i - |a|];
        }
      }
    }
  }

  /** The list every join starts from. */
  const VisitorAndSession: seq<Field> := [FieldVisitorID, FieldSessionID]

  /** A join list: the visitor and session, then the wanted candidates. */
  function JoinFields(cands: seq<Field>, want: Field -> bool): (r: seq<Field>)
    requires DistinctFields(cands) && FieldVisitorID !in cands && FieldSessionID !in cands
    ensures DistinctFields(r) && |r| >= 2 && r[0] == FieldVisitorID && r[1] == FieldSessionID
    ensures forall y :: y in r <==> y in VisitorAndSession || (y in cands && want(y))
  {
    var k := Keep(cands, want);
    DistinctConcat(VisitorAndSession, k);
    VisitorAndSession + k
  }

  // ---------------------------------------------------------------------
  // joinSessions

  /** When joinSessions builds a sessions join for a query on table `t`. */
  predicate SessionsJoinNeeded(f: FilterData, t: Table, fields: seq<Field>) {
    |f.dims.entryPath| > 0 || |f.dims.exitPath| > 0 || FieldsContain(fields, FieldBounces) ||
    (t == Events && FieldsContain(fields, FieldViews)) ||
    FieldsContain(fields, FieldEntryPath) || FieldsContain(fields, FieldExitPath)
  }

  /** The entry path is filtered, requested or searched. */
  predicate WantsEntryPath(f: FilterData, fields: seq<Field>) {
    |f.dims.entryPath| > 0 || FieldsContain(fields, FieldEntryPath) || SearchContains(f.search, FieldEntryPath)
  }

  /** The exit path is filtered, requested or searched. */
  predicate WantsExitPath(f: FilterData, fields: seq<Field>) {
    |f.dims.exitPath| > 0 || FieldsContain(fields, FieldExitPath) || SearchContains(f.search, FieldExitPath)
  }

  /** The columns joinSessions adds after the visitor and session, in the
      order it appends them. */
  const SessionCandidates: seq<Field> :=
    [FieldEntryPath, FieldEntryTitle, FieldExitPath, FieldExitTitle, FieldBounces, FieldViews]

  /** Whether joinSessions selects `y`: the entry and exit path (each with
      its title under IncludeTitle), the bounces and the views. */
  predicate WantsSessionField(f: FilterData, fields: seq<Field>, y: Field) {
    (y == FieldEntryPath && WantsEntryPath(f, fields)) ||
    (y == FieldEntryTitle && WantsEntryPath(f, fields) && f.includeTitle) ||
    (y == FieldExitPath && WantsExitPath(f, fields)) ||
    (y == FieldExitTitle && WantsExitPath(f, fields) && f.includeTitle) ||
    (y == FieldBounces && FieldsContain(fields, FieldBounces)) ||
    (y == FieldViews && FieldsContain(fields, FieldViews))
  }

  lemma SessionCandidatesDistinct()
    ensures DistinctFields(SessionCandidates[..4]) && DistinctFields(SessionCandidates)
    ensures FieldVisitorID !in SessionCandidates && FieldSessionID !in SessionCandidates
  {
  }

  /** The fields of the sessions join. */
  function SessionFields(f: FilterData, fields: seq<Field>): (r: seq<Field>)
    ensures DistinctFields(r) && |r| >= 2 && r[0] == FieldVisitorID && r[1] == FieldSessionID
    ensures forall y :: y in r <==>
      y in VisitorAndSession || (y in SessionCandidates && WantsSessionField(f, fields, y))
  {
    SessionCandidatesDistinct();
    JoinFields(SessionCandidates, y => WantsSessionField(f, fields, y))
  }

  /** The group-by list of the sessions join: its fields without the
      bounces and the views. */
  function SessionGroupBy(f: FilterData, fields: seq<Field>): (r: seq<Field>)
    ensures |r| >= 2 && r[0] == FieldVisitorID && r[1] == FieldSessionID
    ensures forall y :: y in r <==>
      y in VisitorAndSession || (y in SessionCandidates[..4] && WantsSessionField(f, fields, y))
  {
    SessionCandidatesDistinct();
    JoinFields(SessionCandidates[..4], y => WantsSessionField(f, fields, y))
  }

  /** The sessions join groups by its fields except the bounces and the
      views. */
  lemma SessionGroupByOfFields(f: FilterData, fields: seq<Field>)
    ensures forall y :: y in SessionGroupBy(f, fields) <==>
      y in SessionFields(f, fields) && y != FieldBounces && y != FieldViews
  {
    var g, s := SessionGroupBy(f, fields), SessionFields(f, fields);
    forall y
      ensures y in g <==> y in s && y != FieldBounces && y != FieldViews
    {
      GroupedSessionCandidate(y, WantsSessionField(f, fields, y));
    }
  }

  /** The grouped session candidates are the candidates other than the
      bounces and the views. */
  lemma GroupedSessionCandidate(y: Field, w: bool)
    ensures (y in VisitorAndSession || (y in SessionCandidates[..4] && w)) <==>
      (y in VisitorAndSession || (y in SessionCandidates && w)) && y != FieldBounces && y != FieldViews
  {
    assert SessionCandidates[..4] == [FieldEntryPath, FieldEntryTitle, FieldExitPath, FieldExitTitle];
  }

  /** Filter.joinSessions. */
  function JoinSessions(f: FilterData, t: Table, fields: seq<Field>): (r: Option<QueryBuilder>)
    ensures r.Some? <==> SessionsJoinNeeded(f, t, fields)
    ensures r.Some? ==> JoinShape(f, r.value, Sessions) && r.value.filter == f.(sort := [])
    ensures r.Some? ==> r.value.settings.final == (FieldSessionsAll in fields)
    ensures r.Some? ==> r.value.fields == SessionFields(f, fields) && r.value.settings.groupBy == SessionGroupBy(f, fields)
  {
    if SessionsJoinNeeded(f, t, fields) then
      SessionGroupByOfFields(f, fields);
      Some(SubQuery(f.(sort := []), SessionFields(f, fields), Sessions, SessionGroupBy(f, fields), [], f.sample,
                    FieldsContain(fields, FieldSessionsAll)))
    else None
  }

  // ---------------------------------------------------------------------
  // joinPageViews

  /** When joinPageViews builds a page views join. */
  predicate PageViewsJoinNeeded(f: FilterData, fields: seq<Field>) {
    |f.dims.path| > 0 || |f.dims.pathPattern| > 0 || |f.dims.tag| > 0 || |f.dims.tags| > 0 ||
    SearchContains(f.search, FieldPath) ||
    FieldsContain(fields, FieldTagKey) || FieldsContain(fields, FieldTagValue) ||
    FieldsContain(fields, FieldTagKeysRaw) || FieldsContain(fields, FieldTagValuesRaw)
  }

  /** The columns joinPageViews adds after the visitor and session. */
  const PageViewCandidates: seq<Field> := [FieldPath, FieldTagKeysRaw, FieldTagValuesRaw]

  /** Whether joinPageViews selects `y`: the path when it is filtered,
      requested or searched, and the raw tag keys and values when a tag
      column is requested. */
  predicate WantsPageViewField(f: FilterData, fields: seq<Field>, y: Field) {
    (y == FieldPath && (|f.dims.pathPattern| > 0 || |f.dims.path| > 0 ||
                        FieldsContain(fields, FieldPath) || SearchContains(f.search, FieldPath))) ||
    (y == FieldTagKeysRaw && (FieldsContain(fields, FieldTagKey) || FieldsContain(fields, FieldTagKeysRaw))) ||
    (y == FieldTagValuesRaw && (FieldsContain(fields, FieldTagValue) || FieldsContain(fields, FieldTagValuesRaw)))
  }

  /** The fields of the page views join. */
  function PageViewFields(f: FilterData, fields: seq<Field>): (r: seq<Field>)
    ensures DistinctFields(r) && |r| >= 2 && r[0] == FieldVisitorID && r[1] == FieldSessionID
    ensures forall y :: y in r <==>
      y in VisitorAndSession || (y in PageViewCandidates && WantsPageViewField(f, fields, y))
  {
    JoinFields(PageViewCandidates, y => WantsPageViewField(f, fields, y))
  }

  /** Filter.joinPageViews: the fields are also the group-by list. */
  function JoinPageViews(f: FilterData, fields: seq<Field>): (r: Option<QueryBuilder>)
    ensures r.Some? <==> PageViewsJoinNeeded(f, fields)
    ensures r.Some? ==> JoinShape(f, r.value, PageViews) && r.value.filter == f.(sort := []) &&
                        r.value.settings.groupBy == r.value.fields && !r.value.settings.final
    ensures r.Some? ==> r.value.fields == PageViewFields(f, fields)
  {
    if PageViewsJoinNeeded(f, fields) then
      var pageViewFields := PageViewFields(f, fields);
      Some(SubQuery(f.(sort := []), pageViewFields, PageViews, pageViewFields, [], f.sample, false))
    else None
  }

  // ---------------------------------------------------------------------
  // joinEvents and leftJoinEvents

  /** The columns joinEvents adds after the visitor and session, in the
      order it appends them. */
  const EventCandidates: seq<Field> :=
    [FieldHour, FieldMinute, FieldEventName, FieldEventPath, FieldEventTitle,
     FieldEventMetaKeysRaw, FieldEventMetaValuesRaw]

  /** Whether joinEvents selects `y`: the requested hour, minute, event
      name, path and title; both raw meta data columns for a full custom
      metric, otherwise the ones the requested meta data fields need. */
  predicate WantsEventField(f: FilterData, fields: seq<Field>, y: Field) {
    (y == FieldHour && FieldsContain(fields, FieldHour)) ||
    (y == FieldMinute && FieldsContain(fields, FieldMinute)) ||
    (y == FieldEventName && FieldsContain(fields, FieldEventName)) ||
    (y == FieldEventPath && FieldsContain(fields, FieldEventPath)) ||
    (y == FieldEventTitle && FieldsContain(fields, FieldEventTitle)) ||
    (y == FieldEventMetaKeysRaw &&
      (FullCustomMetric(f) ||
       FieldsContain(fields, FieldEventMetaKeysRaw) || FieldsContain(fields, FieldEventMetaKeys) ||
       FieldsContain(fields, FieldEventMeta) || FieldsContain(fields, FieldEventMetaValues))) ||
    (y == FieldEventMetaValuesRaw &&
      (FullCustomMetric(f) ||
       FieldsContain(fields, FieldEventMetaValuesRaw) || FieldsContain(fields, FieldEventMetaValues) ||
       FieldsContain(fields, FieldEventMeta)))
  }

  lemma EventCandidatesDistinct()
    ensures DistinctFields(EventCandidates)
    ensures FieldVisitorID !in EventCandidates && FieldSessionID !in EventCandidates
  {
  }

  /** The filter of the events join: no path filters and no Sort. */
  function EventsJoinFilter(f: FilterData): (r: FilterData)
    ensures r.dims.path == [] && r.dims.anyPath == [] && r.sort == []
    ensures r.(dims := f.dims, sort := f.sort) == f
    ensures r.dims.(path := f.dims.path, anyPath := f.dims.anyPath) == f.dims
  {
    f.(dims := f.dims.(path := [], anyPath := []), sort := [])
  }

  /** The fields of the events join. */
  function EventFields(f: FilterData, fields: seq<Field>): (r: seq<Field>)
    ensures DistinctFields(r) && |r| >= 2 && r[0] == FieldVisitorID && r[1] == FieldSessionID
    ensures forall y :: y in r <==>
      y in VisitorAndSession || (y in EventCandidates && WantsEventField(f, fields, y))
  {
    EventCandidatesDistinct();
    JoinFields(EventCandidates, y => WantsEventField(f, fields, y))
  }

  /** Filter.joinEvents: an events join when an event name is filtered or
      requested; its fields are also its group-by list. */
  function JoinEvents(f: FilterData, fields: seq<Field>): (r: Option<QueryBuilder>)
    ensures r.Some? <==> |f.dims.eventName| > 0 || FieldEventName in fields
    ensures r.Some? ==> JoinShape(f, r.value, Events) && r.value.filter == EventsJoinFilter(f) &&
                        r.value.settings.groupBy == r.value.fields
    ensures r.Some? ==> r.value.fields == EventFields(f, fields)
  {
    if |f.dims.eventName| > 0 || FieldsContain(fields, FieldEventName) then
      var eventFields := EventFields(f, fields);
      Some(SubQuery(EventsJoinFilter(f), eventFields, Events, eventFields, [], f.sample, false))
    else None
  }

  /** The filter of the events left join: no event name, meta key or meta
      data filter, and no Sort; the left join keeps sessions without a
      matching event, and the outer query applies the event filter. */
  function LeftJoinFilter(f: FilterData): (r: FilterData)
    ensures r.dims.eventName == [] && r.dims.eventMetaKey == [] && |r.dims.eventMeta| == 0 && r.sort == []
    ensures r.(dims := f.dims, sort := f.sort) == f
    ensures r.dims.(eventName := f.dims.eventName, eventMetaKey := f.dims.eventMetaKey,
                    eventMeta := f.dims.eventMeta) == f.dims
  {
    f.(dims := f.dims.(eventName := [], eventMetaKey := [], eventMeta := map[]), sort := [])
  }

  /** The columns leftJoinEvents adds after the visitor and session, in the
      order it appends them. */
  const LeftJoinCandidates: seq<Field> :=
    [FieldEventName, FieldEventMetaKeysRaw, FieldEventMetaValuesRaw, FieldEventPath, FieldEventTitle]

  /** Event meta data is filtered or requested as key-value pairs. */
  predicate WantsMeta(f: FilterData, fields: seq<Field>) {
    |f.dims.eventMeta| > 0 || FieldsContain(fields, FieldEventMeta) || FieldsContain(fields, FieldEventMetaValues)
  }

  /** Whether leftJoinEvents selects `y`: the event name always; both raw
      meta data columns for meta data, else the keys for meta keys; the
      requested event path and title. */
  predicate WantsLeftJoinField(f: FilterData, fields: seq<Field>, y: Field) {
    y == FieldEventName ||
    (y == FieldEventMetaKeysRaw &&
      (WantsMeta(f, fields) || |f.dims.eventMetaKey| > 0 || FieldsContain(fields, FieldEventMetaKeys))) ||
    (y == FieldEventMetaValuesRaw && WantsMeta(f, fields)) ||
    (y == FieldEventPath && FieldsContain(fields, FieldEventPath)) ||
    (y == FieldEventTitle && FieldsContain(fields, FieldEventTitle))
  }

  lemma LeftJoinCandidatesDistinct()
    ensures DistinctFields(LeftJoinCandidates)
    ensures FieldVisitorID !in LeftJoinCandidates && FieldSessionID !in LeftJoinCandidates
  {
  }

  /** The fields of the events left join; the event name is always one. */
  function LeftJoinFields(f: FilterData, fields: seq<Field>): (r: seq<Field>)
    ensures DistinctFields(r) && |r| >= 2 && r[0] == FieldVisitorID && r[1] == FieldSessionID
    ensures forall y :: y in r <==>
      y in VisitorAndSession || (y in LeftJoinCandidates && WantsLeftJoinField(f, fields, y))
    ensures FieldEventName in r
  {
    LeftJoinCandidatesDistinct();
    var want := y => WantsLeftJoinField(f, fields, y);
    var r := JoinFields(LeftJoinCandidates, want);
    assert FieldEventName in r by {
      assert want(FieldEventName) && LeftJoinCandidates[0] == FieldEventName;
    }
    r
  }

  /** Filter.leftJoinEvents. It always builds a join (Go never returns nil
      here), which always selects the event name; its fields are also its
      group-by list. */
  function LeftJoinEvents(f: FilterData, fields: seq<Field>): (r: QueryBuilder)
    ensures JoinShape(f, r, Events) && r.filter == LeftJoinFilter(f) && r.settings.groupBy == r.fields
    ensures r.fields == LeftJoinFields(f, fields)
  {
    var eventFields := LeftJoinFields(f, fields);
    SubQuery(LeftJoinFilter(f), eventFields, Events, eventFields, [], f.sample, false)
  }

  /** Some event name filter is a negation ("!name"). */
  predicate NegatedEventName(f: FilterData) {
    ValuesContainPrefix(f.dims.eventName, "!")
  }

  /** Filter.joinOrLeftJoinEvents on the builder `q`: a negated event name
      needs the left join and the event filter on the outer query; otherwise
      the events are an inner join (when one is needed at all). */
  function JoinOrLeftJoinEvents(f: FilterData, q: QueryBuilder, fields: seq<Field>): (r: QueryBuilder)
    ensures NegatedEventName(f) ==>
      r == q.(includeEventFilter := true, joins := q.joins.(leftJoin := Some(LeftJoinEvents(f, fields))))
    ensures !NegatedEventName(f) ==> r == q.(joins := q.joins.(joinSecond := JoinEvents(f, fields)))
  {
    if ValuesContainPrefix(f.dims.eventName, "!") then
      q.(includeEventFilter := true, joins := q.joins.(leftJoin := Some(LeftJoinEvents(f, fields))))
    else
      q.(joins := q.joins.(joinSecond := JoinEvents(f, fields)))
  }

  // ---------------------------------------------------------------------
  // joinUniqueVisitorsByPeriod

  /** The time unit the conversion rate per period is grouped by. */
  function PeriodField(fields: seq<Field>): (g: Field)
    ensures g == FieldDay || g == FieldMinute || g == FieldHour
    ensures g == FieldDay <==> FieldDay in fields
    ensures g == FieldMinute <==> FieldDay !in fields && FieldMinute in fields
    ensures g == FieldHour <==> FieldDay !in fields && FieldMinute !in fields
  {
    if FieldsContain(fields, FieldDay) then FieldDay
    else if FieldsContain(fields, FieldMinute) then FieldMinute
    else FieldHour
  }

  /** The filter of the unique-visitors join: a new filter that keeps only
      the client, time zone, range, period, IncludeTime and WeekdayMode. */
  function PeriodFilter(f: FilterData): (r: FilterData)
    ensures r.Empty() && r.sort == []
    ensures r.clientID == f.clientID && r.timezone == f.timezone && r.from == f.from && r.to == f.to
    ensures r.period == f.period && r.includeTime == f.includeTime && r.weekdayMode == f.weekdayMode
    ensures r.dims == NoDimensions && r.search == [] && r.importedUntil == 0 && r.importedFrom == 0 && r.importedTo == 0
    ensures r.offset == 0 && r.limit == 0 && r.customMetricKey == "" && r.customMetricType == ""
    ensures !r.includeTitle && !r.includeTimeOnPage && !r.includeCR
    ensures r.maxTimeOnPageSeconds == 0 && r.sample == 0 && r.funnelStep == 0
  {
    NewFilterData(f.clientID).(timezone := f.timezone, from := f.from, to := f.to, period := f.period,
                               includeTime := f.includeTime, weekdayMode := f.weekdayMode)
  }

  /** Filter.joinUniqueVisitorsByPeriod: only for the conversion rate per
      period; it counts raw visitors per day, minute or hour. */
  function JoinUniqueVisitorsByPeriod(f: FilterData, fields: seq<Field>): (r: Option<QueryBuilder>)
    ensures r.Some? <==> FieldCRPeriod in fields
    ensures r.Some? ==> var g := PeriodField(fields);
      r.value.fields == [g, FieldVisitorsRaw] && r.value.settings.groupBy == [g] && r.value.settings.orderBy == [g] &&
      r.value.from == Sessions && r.value.filter == PeriodFilter(f) && r.value.settings.sample == f.sample
  {
    if FieldsContain(fields, FieldCRPeriod) then
      var g := PeriodField(fields);
      Some(SubQuery(PeriodFilter(f), [g, FieldVisitorsRaw], Sessions, [g], [g], f.sample, false))
    else None
  }

  // ---------------------------------------------------------------------
  // buildQuery

  /** Event fields or a custom metric (key or type) without tag fields: the
      query reads events, whatever `table` chose. */
  predicate EventsForced(f: FilterData, fields: seq<Field>) {
    (FieldsContain(fields, FieldEventName) || f.customMetricKey != "" || f.customMetricType != "" ||
     FieldsContain(fields, FieldEventsAll)) &&
    !FieldsContain(fields, FieldTagKey) && !FieldsContain(fields, FieldTagValue)
  }

  /** The builder buildQuery starts from: the filter, the table `table`
      picks, and the settings taken from the arguments and the filter. */
  function InitialBuilder(f: FilterData, fields: seq<Field>, groupBy: seq<Field>, orderBy: seq<Field>,
                          fieldsImported: seq<Field>, fromImported: string): QueryBuilder {
    QueryBuilder(f, TableFor(f, fields), [], false,
                 Settings(fieldsImported, fromImported, f.funnelStep, f.search, groupBy, orderBy,
                          f.offset, f.limit, f.sample, FieldsContain(fields, FieldSessionsAll)),
                 NoJoins)
  }

  /** The table, fields and joins buildQuery settles on, from the builder
      `q0` it starts from. */
  function PlanJoins(f: FilterData, fields: seq<Field>, q0: QueryBuilder): (r: QueryBuilder)
    ensures r.filter == q0.filter && r.settings == q0.settings && r.joins.joinThird == q0.joins.joinThird
  {
    if EventsForced(f, fields) then
      q0.(from := Events, fields := fields, includeEventFilter := true,
          joins := q0.joins.(join := JoinSessions(f, Events, fields)))
    else if q0.from == Events then
      q0.(from := Sessions, fields := ExcludeFields(fields, [FieldPath]), includeEventFilter := true,
          joins := q0.joins.(leftJoin := Some(LeftJoinEvents(f, fields))))
    else if q0.from == PageViews then
      // The source's guards `q.from != sessions` and `q.from != events`
      // hold here, as q.from is pageViews.
      JoinOrLeftJoinEvents(f, q0.(fields := fields, joins := q0.joins.(join := JoinSessions(f, q0.from, fields))), fields)
    else
      JoinOrLeftJoinEvents(f, q0.(fields := fields, joins := q0.joins.(join := JoinPageViews(f, fields))), fields)
  }

  /** Filter.buildQuery up to `q.query()`: the plan of the query. */
  function BuildQuery(f: FilterData, fields: seq<Field>, groupBy: seq<Field>, orderBy: seq<Field>,
                      fieldsImported: seq<Field>, fromImported: string): (q: QueryBuilder)
    ensures q.filter == f && q.settings.search == f.search
    ensures q.settings.groupBy == groupBy && q.settings.orderBy == orderBy
    ensures q.joins.joinThird == JoinUniqueVisitorsByPeriod(f, fields)
  {
    var q0 := InitialBuilder(f, fields, groupBy, orderBy, fieldsImported, fromImported);
    var q1 := PlanJoins(f, fields, q0);
    q1.(joins := q1.joins.(joinThird := JoinUniqueVisitorsByPeriod(f, fields)))
  }
}
