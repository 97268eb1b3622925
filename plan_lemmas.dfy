/** What the query planner promises: the precedence of the fact tables, the
    joins each plan carries, and the shape of every join. */
module PlanProperties {
  import opened Wrappers
  import opened Text
  import opened Fields
  import opened Filters
  import opened QueryPlanning

  // ---------------------------------------------------------------------
  // Field lists

  /** excludeFields keeps the order of the fields it keeps: it distributes
      over concatenation. */
  lemma {:induction false} ExcludeFieldsConcat(a: seq<Field>, b: seq<Field>, e: seq<Field>)
    ensures ExcludeFields(a + b, e) == ExcludeFields(a, e) + ExcludeFields(b, e)
    decreases |a|
  {
    if |a| == 0 {
      assert a + b == b;
    } else {
      assert (a + b)[0] == a[0] && (a + b)[1..] == a[1..] + b;
      ExcludeFieldsConcat(a[1..], b, e);
    }
  }

  /** Excluding fields that do not occur changes nothing. */
  lemma {:induction false} ExcludeFieldsAbsent(a: seq<Field>, e: seq<Field>)
    requires forall x :: x in e ==> x !in a
    ensures ExcludeFields(a, e) == a
    decreases |a|
  {
    if |a| > 0 {
      ExcludeFieldsAbsent(a[1..], e);
    }
  }

  /** Excluding the same fields twice is excluding them once. */
  lemma ExcludeFieldsIdempotent(a: seq<Field>, e: seq<Field>)
    ensures ExcludeFields(ExcludeFields(a, e), e) == ExcludeFields(a, e)
  {
    ExcludeFieldsAbsent(ExcludeFields(a, e), e);
  }

  /** A string list has a string with the prefix when one of its parts has. */
  lemma ValuesContainPrefixConcat(a: seq<string>, b: seq<string>, prefix: string)
    ensures ValuesContainPrefix(a + b, prefix) <==> ValuesContainPrefix(a, prefix) || ValuesContainPrefix(b, prefix)
  {
    if ValuesContainPrefix(b, prefix) {
      var i :| 0 <= i < |b| && HasPrefix(b[i], prefix);
      assert (a + b)[|a| + i] == b[i];
    }
    if ValuesContainPrefix(a, prefix) {
      var i :| 0 <= i < |a| && HasPrefix(a[i], prefix);
      assert (a + b)[i] == a[i];
    }
    if ValuesContainPrefix(a + b, prefix) {
      var i :| 0 <= i < |a + b| && HasPrefix((a + b)[i], prefix);
      if i >= |a| {
        assert (a + b)[i] == b[i - |a|];
      }
    }
  }

  /** A negated event name ("!name") is what makes the planner use the left
      join; a plain name is not negated. */
  lemma NegatedEventNameExample(f: FilterData, name: string)
    requires f.dims.eventName == ["!" + name]
    ensures NegatedEventName(f)
  {
    assert HasPrefix(f.dims.eventName[0], "!");
  }

  lemma PlainEventNameExample(f: FilterData, name: string)
    requires f.dims.eventName == [name] && (|name| == 0 || name[0] != '!')
    ensures !NegatedEventName(f)
  {
  }

  // ---------------------------------------------------------------------
  // table

  /** The whole precedence of `table`: page views exactly when the page
      view rule fires; events exactly when it does not, no entry or exit
      path is requested, an event trigger is present and all session
      columns are not requested; sessions in every other case. */
  lemma TablePrecedence(f: FilterData, fields: seq<Field>)
    ensures TableFor(f, fields) == PageViews <==> PageViewRule(f, fields)
    ensures TableFor(f, fields) == Events <==>
      !PageViewRule(f, fields) && FieldEntryPath !in fields && FieldExitPath !in fields &&
      EventTrigger(f, fields) && FieldSessionsAll !in fields
    ensures TableFor(f, fields) == Sessions <==>
      !PageViewRule(f, fields) &&
      (FieldEntryPath in fields || FieldExitPath in fields || !EventTrigger(f, fields) || FieldSessionsAll in fields)
  {
  }

  /** Any page view trigger (a path, path pattern, tag or tags filter, a
      path search, or a page view field) reads page views unless a full
      custom metric is set without tag fields, or all session columns are
      requested. */
  lemma TablePageViewTrigger(f: FilterData, fields: seq<Field>)
    requires PageViewTrigger(f, fields) && (!FullCustomMetric(f) || TagFields(fields))
    requires FieldSessionsAll !in fields
    ensures TableFor(f, fields) == PageViews
  {
  }

  /** A path filter is one of the page view triggers. */
  lemma TablePathFilter(f: FilterData, fields: seq<Field>)
    requires |f.dims.path| > 0 && (!FullCustomMetric(f) || TagFields(fields))
    requires FieldSessionsAll !in fields
    ensures TableFor(f, fields) == PageViews
  {
    TablePageViewTrigger(f, fields);
  }

  /** A full custom metric without tag fields overrides every page view
      trigger: the query reads events unless entry or exit paths or all
      session columns are requested. */
  lemma TableCustomMetric(f: FilterData, fields: seq<Field>)
    requires FullCustomMetric(f) && !TagFields(fields)
    requires FieldEntryPath !in fields && FieldExitPath !in fields && FieldSessionsAll !in fields
    ensures TableFor(f, fields) == Events
  {
  }

  /** Entry and exit paths come from sessions whenever the page view rule
      does not fire, whether for lack of a trigger or because a full custom
      metric or all session columns override it. */
  lemma TableEntryExitPath(f: FilterData, fields: seq<Field>)
    requires FieldEntryPath in fields || FieldExitPath in fields
    requires !PageViewRule(f, fields)
    ensures TableFor(f, fields) == Sessions
  {
  }

  /** Any event trigger (an event name filter, the event name or all event
      columns, a full custom metric) reads events when the page view rule
      does not fire, no entry or exit path is requested and all session
      columns are not. */
  lemma TableEventTrigger(f: FilterData, fields: seq<Field>)
    requires EventTrigger(f, fields) && !PageViewRule(f, fields)
    requires FieldEntryPath !in fields && FieldExitPath !in fields && FieldSessionsAll !in fields
    ensures TableFor(f, fields) == Events
  {
  }

  /** An event name filter is one of the event triggers. */
  lemma TableEventNameFilter(f: FilterData, fields: seq<Field>)
    requires |f.dims.eventName| > 0 && !PageViewTrigger(f, fields)
    requires FieldEntryPath !in fields && FieldExitPath !in fields && FieldSessionsAll !in fields
    ensures TableFor(f, fields) == Events
  {
    TableEventTrigger(f, fields);
  }

  /** Without page view and event triggers the query reads sessions. */
  lemma TableDefault(f: FilterData, fields: seq<Field>)
    requires !PageViewTrigger(f, fields) && !EventTrigger(f, fields)
    ensures TableFor(f, fields) == Sessions
  {
  }

  // ---------------------------------------------------------------------
  // buildQuery: the table and the joins

  /** The plan when event fields or a custom metric without tag fields
      force the events table. */
  lemma PlanForced(f: FilterData, fields: seq<Field>, groupBy: seq<Field>, orderBy: seq<Field>,
                   fieldsImported: seq<Field>, fromImported: string)
    requires EventsForced(f, fields)
    ensures var q := BuildQuery(f, fields, groupBy, orderBy, fieldsImported, fromImported);
      q.from == Events && q.fields == fields && q.includeEventFilter &&
      q.joins == Joins(JoinSessions(f, Events, fields), None, None, JoinUniqueVisitorsByPeriod(f, fields))
  {
  }

  /** The plan when `table` picks events that are not forced. */
  lemma PlanEventsTable(f: FilterData, fields: seq<Field>, groupBy: seq<Field>, orderBy: seq<Field>,
                        fieldsImported: seq<Field>, fromImported: string)
    requires !EventsForced(f, fields) && TableFor(f, fields) == Events
    ensures var q := BuildQuery(f, fields, groupBy, orderBy, fieldsImported, fromImported);
      q.from == Sessions && q.fields == ExcludeFields(fields, [FieldPath]) && q.includeEventFilter &&
      q.joins == Joins(None, None, Some(LeftJoinEvents(f, fields)), JoinUniqueVisitorsByPeriod(f, fields))
  {
  }

  /** The plan when `table` picks page views and events are not forced. */
  lemma PlanPageViews(f: FilterData, fields: seq<Field>, groupBy: seq<Field>, orderBy: seq<Field>,
                      fieldsImported: seq<Field>, fromImported: string)
    requires !EventsForced(f, fields) && TableFor(f, fields) == PageViews
    ensures var q := BuildQuery(f, fields, groupBy, orderBy, fieldsImported, fromImported);
      q.from == PageViews && q.fields == fields && q.includeEventFilter == NegatedEventName(f) &&
      q.joins == Joins(JoinSessions(f, PageViews, fields),
                       if NegatedEventName(f) then None else JoinEvents(f, fields),
                       if NegatedEventName(f) then Some(LeftJoinEvents(f, fields)) else None,
                       JoinUniqueVisitorsByPeriod(f, fields))
  {
  }

  /** The plan when `table` picks sessions and events are not forced. */
  lemma PlanSessions(f: FilterData, fields: seq<Field>, groupBy: seq<Field>, orderBy: seq<Field>,
                     fieldsImported: seq<Field>, fromImported: string)
    requires !EventsForced(f, fields) && TableFor(f, fields) == Sessions
    ensures var q := BuildQuery(f, fields, groupBy, orderBy, fieldsImported, fromImported);
      q.from == Sessions && q.fields == fields && q.includeEventFilter == NegatedEventName(f) &&
      q.joins == Joins(JoinPageViews(f, fields),
                       if NegatedEventName(f) then None else JoinEvents(f, fields),
                       if NegatedEventName(f) then Some(LeftJoinEvents(f, fields)) else None,
                       JoinUniqueVisitorsByPeriod(f, fields))
  {
  }

  /** The four plans, one for each outcome of the planner's tests. */
  lemma PlanAll(f: FilterData, fields: seq<Field>, groupBy: seq<Field>, orderBy: seq<Field>,
                fieldsImported: seq<Field>, fromImported: string)
    ensures var q := BuildQuery(f, fields, groupBy, orderBy, fieldsImported, fromImported);
      EventsForced(f, fields) ==>
        q.from == Events && q.fields == fields && q.includeEventFilter &&
        q.joins == Joins(JoinSessions(f, Events, fields), None, None, JoinUniqueVisitorsByPeriod(f, fields))
    ensures var q := BuildQuery(f, fields, groupBy, orderBy, fieldsImported, fromImported);
      !EventsForced(f, fields) && TableFor(f, fields) == Events ==>
        q.from == Sessions && q.fields == ExcludeFields(fields, [FieldPath]) && q.includeEventFilter &&
        q.joins == Joins(None, None, Some(LeftJoinEvents(f, fields)), JoinUniqueVisitorsByPeriod(f, fields))
    ensures var q := BuildQuery(f, fields, groupBy, orderBy, fieldsImported, fromImported);
      !EventsForced(f, fields) && TableFor(f, fields) == PageViews ==>
        q.from == PageViews && q.fields == fields && q.includeEventFilter == NegatedEventName(f) &&
        q.joins == Joins(JoinSessions(f, PageViews, fields),
                         if NegatedEventName(f) then None else JoinEvents(f, fields),
                         if NegatedEventName(f) then Some(LeftJoinEvents(f, fields)) else None,
                         JoinUniqueVisitorsByPeriod(f, fields))
    ensures var q := BuildQuery(f, fields, groupBy, orderBy, fieldsImported, fromImported);
      !EventsForced(f, fields) && TableFor(f, fields) == Sessions ==>
        q.from == Sessions && q.fields == fields && q.includeEventFilter == NegatedEventName(f) &&
        q.joins == Joins(JoinPageViews(f, fields),
                         if NegatedEventName(f) then None else JoinEvents(f, fields),
                         if NegatedEventName(f) then Some(LeftJoinEvents(f, fields)) else None,
                         JoinUniqueVisitorsByPeriod(f, fields))
  {
    if EventsForced(f, fields) {
      PlanForced(f, fields, groupBy, orderBy, fieldsImported, fromImported);
    } else if TableFor(f, fields) == Events {
      PlanEventsTable(f, fields, groupBy, orderBy, fieldsImported, fromImported);
    } else if TableFor(f, fields) == PageViews {
      PlanPageViews(f, fields, groupBy, orderBy, fieldsImported, fromImported);
    } else {
      PlanSessions(f, fields, groupBy, orderBy, fieldsImported, fromImported);
    }
  }

  /** When `table` picks events and the events are not forced, the query
      reads sessions instead, drops FieldPath, applies the event filter and
      left-joins the events. */
  lemma BuildQueryEventsTable(f: FilterData, fields: seq<Field>, groupBy: seq<Field>, orderBy: seq<Field>,
                              fieldsImported: seq<Field>, fromImported: string)
    requires !EventsForced(f, fields) && TableFor(f, fields) == Events
    ensures var q := BuildQuery(f, fields, groupBy, orderBy, fieldsImported, fromImported);
      q.from == Sessions && FieldPath !in q.fields &&
      (forall x :: x in q.fields <==> x in fields && x != FieldPath) &&
      q.includeEventFilter && q.joins.leftJoin.Some? && q.joins.join.None? && q.joins.joinSecond.None?
  {
    PlanEventsTable(f, fields, groupBy, orderBy, fieldsImported, fromImported);
  }

  /** That case arises only from an event name filter without event
      columns and without a custom metric. */
  lemma EventsTableOnlyForEventNameFilter(f: FilterData, fields: seq<Field>)
    requires !EventsForced(f, fields) && TableFor(f, fields) == Events
    ensures |f.dims.eventName| > 0 && FieldEventName !in fields && FieldEventsAll !in fields
    ensures f.customMetricKey == "" && f.customMetricType == ""
  {
    if TagFields(fields) {
      assert PageViewTrigger(f, fields);
    }
  }

  /** On page views or sessions, a negated event name left-joins the events
      and applies the event filter on the outer query; otherwise the
      events, when needed, are the second inner join. */
  lemma BuildQueryEventJoin(f: FilterData, fields: seq<Field>, groupBy: seq<Field>, orderBy: seq<Field>,
                            fieldsImported: seq<Field>, fromImported: string)
    requires !EventsForced(f, fields) && TableFor(f, fields) != Events
    ensures var q := BuildQuery(f, fields, groupBy, orderBy, fieldsImported, fromImported);
      q.from == TableFor(f, fields) && q.fields == fields &&
      (NegatedEventName(f) ==> q.includeEventFilter && q.joins.leftJoin == Some(LeftJoinEvents(f, fields)) &&
                               q.joins.joinSecond.None?) &&
      (!NegatedEventName(f) ==> !q.includeEventFilter && q.joins.joinSecond == JoinEvents(f, fields) &&
                                q.joins.leftJoin.None?)
  {
    if TableFor(f, fields) == PageViews {
      PlanPageViews(f, fields, groupBy, orderBy, fieldsImported, fromImported);
    } else {
      PlanSessions(f, fields, groupBy, orderBy, fieldsImported, fromImported);
    }
  }

  /** The table the plan reads: events exactly when forced, page views
      exactly when `table` picks them and events are not forced. */
  lemma BuildQueryFrom(f: FilterData, fields: seq<Field>, groupBy: seq<Field>, orderBy: seq<Field>,
                       fieldsImported: seq<Field>, fromImported: string)
    ensures var q := BuildQuery(f, fields, groupBy, orderBy, fieldsImported, fromImported);
      (q.from == Events <==> EventsForced(f, fields)) &&
      (q.from == PageViews <==> !EventsForced(f, fields) && TableFor(f, fields) == PageViews)
  {
    PlanAll(f, fields, groupBy, orderBy, fieldsImported, fromImported);
  }

  /** The outer query applies the event filter exactly when it reads
      events itself or left-joins them. */
  lemma BuildQueryEventFilter(f: FilterData, fields: seq<Field>, groupBy: seq<Field>, orderBy: seq<Field>,
                              fieldsImported: seq<Field>, fromImported: string)
    ensures var q := BuildQuery(f, fields, groupBy, orderBy, fieldsImported, fromImported);
      q.includeEventFilter <==> q.from == Events || q.joins.leftJoin.Some?
  {
    PlanAll(f, fields, groupBy, orderBy, fieldsImported, fromImported);
  }

  /** The joined tables: sessions from page views or events, page views
      from sessions, events from page views or sessions; never the table of
      the outer query. */
  lemma BuildQueryJoinsOtherTables(f: FilterData, fields: seq<Field>, groupBy: seq<Field>, orderBy: seq<Field>,
                                   fieldsImported: seq<Field>, fromImported: string)
    ensures var q := BuildQuery(f, fields, groupBy, orderBy, fieldsImported, fromImported);
      (q.joins.join.Some? ==> q.joins.join.value.from != q.from) &&
      (q.joins.joinSecond.Some? ==> q.joins.joinSecond.value.from == Events && q.from != Events) &&
      (q.joins.leftJoin.Some? ==> q.joins.leftJoin.value.from == Events && q.from != Events)
  {
    PlanAll(f, fields, groupBy, orderBy, fieldsImported, fromImported);
  }

  // ---------------------------------------------------------------------
  // buildQuery: the joins' shape and filters

  /** Every join of the plan selects the visitor and session first, no
      field twice, groups by fields it selects, and has no Sort; the events
      joins carry the filter without the conditions they must not apply. */
  lemma BuildQueryJoins(f: FilterData, fields: seq<Field>, groupBy: seq<Field>, orderBy: seq<Field>,
                        fieldsImported: seq<Field>, fromImported: string)
    ensures var q := BuildQuery(f, fields, groupBy, orderBy, fieldsImported, fromImported);
      (q.joins.join.Some? ==> JoinShape(f, q.joins.join.value, q.joins.join.value.from) &&
                              q.joins.join.value.filter == f.(sort := [])) &&
      (q.joins.joinSecond.Some? ==> JoinShape(f, q.joins.joinSecond.value, Events) &&
                                    q.joins.joinSecond.value.filter == EventsJoinFilter(f)) &&
      (q.joins.leftJoin.Some? ==> JoinShape(f, q.joins.leftJoin.value, Events) &&
                                  q.joins.leftJoin.value.filter == LeftJoinFilter(f))
  {
    PlanAll(f, fields, groupBy, orderBy, fieldsImported, fromImported);
  }

  /** The unique-visitors join exists exactly for the conversion rate per
      period, and its filter keeps only the period of the query. */
  lemma BuildQueryJoinThird(f: FilterData, fields: seq<Field>, groupBy: seq<Field>, orderBy: seq<Field>,
                            fieldsImported: seq<Field>, fromImported: string)
    ensures var q := BuildQuery(f, fields, groupBy, orderBy, fieldsImported, fromImported);
      (q.joins.joinThird.Some? <==> FieldCRPeriod in fields) &&
      (q.joins.joinThird.Some? ==> q.joins.joinThird.value.filter.sort == [] &&
                                   q.joins.joinThird.value.filter.Empty() &&
                                   q.joins.joinThird.value.joins == NoJoins)
  {
  }
}
