/** The visitor statistics: the growth rate rule, the move of a filter to
    the previous comparison window, the statistics that compare two
    periods (Growth, TotalVisitorsPageViews) and the field lists of the
    referrer and active-visitor statistics. The store is a parameter: a
    function from a query plan to the rows it yields, or to an error. */
module Visitors {
  import opened Wrappers
  import opened Times
  import opened Fields
  import opened Filters
  import opened QueryPlanning
  import opened Analyzer
  import FilterProperties

  // ---------------------------------------------------------------------
  // calculateGrowth

  /** calculateGrowth: the change from `previous` to `current` relative to
      `previous`; no change from nothing is 0, any change from nothing is
      1. The arithmetic is exact (float64 rounding is not modelled). */
  function CalculateGrowth(current: real, previous: real): (g: real)
    ensures current == 0.0 && previous == 0.0 ==> g == 0.0
    ensures current != 0.0 && previous == 0.0 ==> g == 1.0
    ensures previous != 0.0 ==> previous * (1.0 + g) == current
  {
    if current == 0.0 && previous == 0.0 then 0.0
    else if previous == 0.0 then 1.0
    else (current - previous) / previous
  }

  /** Against a positive previous value the growth is positive, zero or
      negative exactly as the value rose, stayed or fell. */
  lemma GrowthSign(current: real, previous: real)
    requires previous > 0.0
    ensures CalculateGrowth(current, previous) > 0.0 <==> current > previous
    ensures CalculateGrowth(current, previous) == 0.0 <==> current == previous
    ensures CalculateGrowth(current, previous) < 0.0 <==> current < previous
  {
    var g := CalculateGrowth(current, previous);
    assert current - previous == previous * g;
  }

  /** A value that did not change has grown by 0, including from nothing. */
  lemma GrowthOfSame(x: real)
    ensures CalculateGrowth(x, x) == 0.0
  {
  }

  /** Halving is a growth of -0.5, doubling one of 1. */
  lemma GrowthExamples()
    ensures CalculateGrowth(5.0, 10.0) == -0.5
    ensures CalculateGrowth(20.0, 10.0) == 1.0
    ensures CalculateGrowth(7.0, 0.0) == 1.0
    ensures CalculateGrowth(0.0, 0.0) == 0.0
  {
  }

  // ---------------------------------------------------------------------
  // getPreviousPeriod

  /** `time.Hour * 24 * 7` in seconds. */
  const Week: int := 7 * Day

  /** A comparison window: its start, its end and whether it keeps the
      time of day. */
  datatype Window = Window(from: int, to: int, includeTime: bool)

  /** The start of the range getPreviousPeriod moves: the earlier of From
      and a set importedFrom. */
  function RangeStart(f: FilterData): (r: int)
    ensures r <= f.from
    ensures f.importedFrom != 0 ==> r <= f.importedFrom
    ensures r == f.from || (r == f.importedFrom && f.importedFrom != 0)
  {
    if f.importedFrom != 0 && f.importedFrom < f.from then f.importedFrom else f.from
  }

  /** The window before [from, to]: a single day is compared with the same
      day a week earlier (today only up to `now`, with the time of day);
      a range of at least a day with the range of the same length that
      ends the day before it starts; a shorter range with itself a day
      earlier. */
  function PreviousWindow(from: int, to: int, includeTime: bool, today: int, now: int): Window {
    if from == to then
      if to == today then Window(from - Week, now - Week, true)
      else Window(from - Week, to - Week, includeTime)
    else
      var days := to - from;
      if days >= Day then Window(from - Day - days, from - Day, includeTime)
      else Window(from - Day, to - Day, includeTime)
  }

  /** The previous window is as long as the range and keeps IncludeTime,
      except for today, which is compared up to `now` with the time of
      day. */
  lemma PreviousWindowLength(from: int, to: int, includeTime: bool, today: int, now: int)
    ensures var w := PreviousWindow(from, to, includeTime, today, now);
      (!(from == to == today) ==> w.to - w.from == to - from && w.includeTime == includeTime) &&
      (from == to == today ==> w.includeTime)
  {
  }

  /** Today is compared with the same day a week ago up to the same time of
      day. */
  lemma PreviousOfToday(today: int, includeTime: bool, now: int)
    ensures PreviousWindow(today, today, includeTime, today, now) == Window(today - Week, now - Week, true)
  {
  }

  /** Any other single day is compared with the same day a week earlier. */
  lemma PreviousOfDay(day: int, includeTime: bool, today: int, now: int)
    requires day != today
    ensures PreviousWindow(day, day, includeTime, today, now) == Window(day - Week, day - Week, includeTime)
  {
  }

  /** A range of a day or more is compared with the range of the same
      length that ends the day before it starts. */
  lemma PreviousOfRange(from: int, to: int, includeTime: bool, today: int, now: int)
    requires to - from >= Day
    ensures var w := PreviousWindow(from, to, includeTime, today, now);
      w.to == from - Day && w.to - w.from == to - from && w.includeTime == includeTime
  {
  }

  /** A range shorter than a day moves back by a day. */
  lemma PreviousOfShortRange(from: int, to: int, includeTime: bool, today: int, now: int)
    requires from != to && to - from < Day
    ensures PreviousWindow(from, to, includeTime, today, now) == Window(from - Day, to - Day, includeTime)
  {
  }

  /** For a range in order the previous window is in order and ends before
      the range starts, provided `now` lies within today when the range is
      today. */
  lemma PreviousEndsBefore(from: int, to: int, includeTime: bool, today: int, now: int)
    requires from <= to
    requires from == to == today ==> today <= now < today + Day
    ensures var w := PreviousWindow(from, to, includeTime, today, now);
      w.from <= w.to < from
  {
  }

  /** The filter after getPreviousPeriod: From, To and IncludeTime set to
      the previous window of the range, and the whole filter validated
      again when ImportedUntil is set. */
  function PreviousPeriod(f: FilterData, today: int, now: int): FilterData {
    var w := PreviousWindow(RangeStart(f), f.to, f.includeTime, today, now);
    var g := f.(from := w.from, to := w.to, includeTime := w.includeTime);
    if f.importedUntil != 0 then Validated(g, today) else g
  }

  /** Visitors.getPreviousPeriod: moves the filter's range back in place. */
  method GetPreviousPeriod(filter: Filter, today: int, now: int)
    modifies filter
    ensures filter.value == PreviousPeriod(old(filter.value), today, now)
  {
    ghost var f0 := filter.value;
    var from := filter.value.from;
    var to := filter.value.to;
    var includeTime := filter.value.includeTime;
    if filter.value.importedFrom != 0 && filter.value.importedFrom < from {
      from := filter.value.importedFrom;
    }
    if from == to {
      if to == today {
        from := from - Week;
        to := now - Week;
        includeTime := true;
      } else {
        from := from - Week;
        to := to - Week;
      }
    } else {
      var days := to - from;
      if days >= Day {
        to := from - Day;
        from := to - days;
      } else {
        from := from - Day;
        to := to - Day;
      }
    }
    ghost var w := PreviousWindow(RangeStart(f0), f0.to, f0.includeTime, today, now);
    assert Window(from, to, includeTime) == w;
    filter.value := filter.value.(from := from, to := to, includeTime := includeTime);
    ghost var g := filter.value;
    assert g == f0.(from := w.from, to := w.to, includeTime := w.includeTime);
    if filter.value.importedUntil != 0 {
      filter.Validate(today);
      assert filter.value == Validated(g, today);
    }
  }

  /** Without imported statistics only From, To and IncludeTime change, and
      a range in order moves to a window that ends before it starts. */
  lemma PreviousPeriodWithoutImport(f: FilterData, today: int, now: int)
    requires f.importedUntil == 0
    requires RangeStart(f) <= f.to
    requires RangeStart(f) == f.to == today ==> today <= now < today + Day
    ensures var r := PreviousPeriod(f, today, now);
      r.(from := f.from, to := f.to, includeTime := f.includeTime) == f &&
      r.from <= r.to < RangeStart(f) <= f.from
  {
    PreviousEndsBefore(RangeStart(f), f.to, f.includeTime, today, now);
  }

  /** With imported statistics the moved filter is validated again, which
      recomputes the imported split of the new window. */
  lemma PreviousPeriodWithImport(f: FilterData, today: int, now: int)
    requires f.importedUntil != 0
    ensures var w := PreviousWindow(RangeStart(f), f.to, f.includeTime, today, now);
      var r := PreviousPeriod(f, today, now);
      SpanOf(r) == ValidatedSpan(Span(w.from, w.to, f.importedUntil, f.importedFrom, f.importedTo),
                                 w.includeTime, today) &&
      r.includeTime == w.includeTime
  {
    var w := PreviousWindow(RangeStart(f), f.to, f.includeTime, today, now);
    FilterProperties.LaterStepsKeepSpan(f.(from := w.from, to := w.to, includeTime := w.includeTime), today);
  }

  // ---------------------------------------------------------------------
  // The period guard and the time-spent source of Growth

  /** The error of Growth and TotalVisitorsPageViews, or an error the
      store reported. */
  datatype Error = ErrNoPeriodOrDay | StoreError(message: string)

  /** Growth and TotalVisitorsPageViews need both ends of the range. */
  predicate NoPeriodOrDay(f: FilterData) {
    f.from == 0 || f.to == 0
  }

  /** How Growth measures the time spent: by the duration of the filtered
      events, by the session duration, or by the time on the filtered
      pages. */
  datatype TimeSpentSource = EventDuration | SessionDuration | TimeOnPage

  function TimeSpentOf(f: FilterData): (s: TimeSpentSource)
    ensures s == EventDuration <==> |f.dims.eventName| > 0
    ensures s == SessionDuration <==> |f.dims.eventName| == 0 && |f.dims.path| == 0
    ensures s == TimeOnPage <==> |f.dims.eventName| == 0 && |f.dims.path| > 0
  {
    if |f.dims.eventName| > 0 then EventDuration
    else if |f.dims.path| == 0 then SessionDuration
    else TimeOnPage
  }

  /** The current and the previous period of Growth measure the time spent
      the same way: moving the range and validating again keeps EventName
      and Path empty or non-empty. */
  lemma TimeSpentSourceKept(f: FilterData, today: int, now: int)
    ensures TimeSpentOf(PreviousPeriod(f, today, now)) == TimeSpentOf(f)
  {
    if f.importedUntil != 0 {
      var w := PreviousWindow(RangeStart(f), f.to, f.includeTime, today, now);
      var g := f.(from := w.from, to := w.to, includeTime := w.includeTime);
      FilterProperties.ValidatedLists(g, today);
      assert Validated(g, today).dims.List(EventName) == Dedup(g.dims.eventName);
      assert Validated(g, today).dims.List(Path) == Dedup(g.dims.path);
      FilterProperties.DedupEmpty(g.dims.eventName);
      FilterProperties.DedupEmpty(g.dims.path);
    }
  }

  /** Whether Growth and ByPeriod ask for the custom metric columns. */
  predicate CustomMetricRequested(f: FilterData) {
    |f.dims.eventName| > 0 && f.customMetricType != "" && f.customMetricKey != ""
  }

  const GrowthBase := [FieldVisitors, FieldSessions, FieldViews, FieldBounces, FieldBounceRate]
  const GrowthImported := [FieldVisitors, FieldSessions, FieldViews, FieldBounces]

  /** The columns Growth selects: the visitor counts and the bounce rate,
      then the conversion rate when requested, then the custom metric
      when an event and a complete custom metric are filtered. */
  function GrowthFields(f: FilterData): (fields: seq<Field>)
    ensures |fields| >= 5 && fields[..5] == GrowthBase
    ensures FieldCR in fields <==> f.includeCR
    ensures FieldEventMetaCustomMetricAvg in fields <==> CustomMetricRequested(f)
    ensures FieldEventMetaCustomMetricTotal in fields <==> CustomMetricRequested(f)
    ensures forall x :: x in GrowthImported ==> x in fields
  {
    var withCR := GrowthBase + (if f.includeCR then [FieldCR] else []);
    withCR + (if CustomMetricRequested(f) then [FieldEventMetaCustomMetricAvg, FieldEventMetaCustomMetricTotal] else [])
  }

  /** One Growth query over the filter `f`. */
  function GrowthQuery(f: FilterData, fields: seq<Field>): QueryRequest {
    QueryRequest(f, Selection(fields, [], [], GrowthImported), "imported_visitors")
  }

  // ---------------------------------------------------------------------
  // Growth

  /** The store's growth row (model.GrowthStats), every number as a real. */
  datatype GrowthStats = GrowthStats(visitors: real, views: real, sessions: real, bounces: real,
                                     bounceRate: real, cr: real,
                                     customMetricAvg: real, customMetricTotal: real)

  /** model.Growth */
  datatype GrowthRates = GrowthRates(visitorsGrowth: real, viewsGrowth: real, sessionsGrowth: real,
                           bouncesGrowth: real, timeSpentGrowth: real, crGrowth: real,
                           customMetricAvgGrowth: real, customMetricTotalGrowth: real)

  /** The growth of every figure from `prev` to `cur`. BouncesGrowth is
      computed from the bounce rate, as in the source. */
  function GrowthBetween(cur: GrowthStats, prev: GrowthStats, curTime: int, prevTime: int): GrowthRates {
    GrowthRates(CalculateGrowth(cur.visitors, prev.visitors), CalculateGrowth(cur.views, prev.views),
           CalculateGrowth(cur.sessions, prev.sessions), CalculateGrowth(cur.bounceRate, prev.bounceRate),
           CalculateGrowth(curTime as real, prevTime as real), CalculateGrowth(cur.cr, prev.cr),
           CalculateGrowth(cur.customMetricAvg, prev.customMetricAvg),
           CalculateGrowth(cur.customMetricTotal, prev.customMetricTotal))
  }

  /** The figures and the time spent of one period of Growth: the growth
      query (with IncludeCR and the custom metric flag), then the time
      spent as TimeSpentOf chooses; the first error ends it. */
  function PeriodFigures(f: FilterData, fields: seq<Field>, cm: bool,
                         stats: (QueryRequest, bool, bool) -> Result<GrowthStats, string>,
                         spent: (TimeSpentSource, FilterData) -> Result<int, string>)
    : (r: Result<(GrowthStats, int), Error>)
    ensures r.Failure? <==> stats(GrowthQuery(f, fields), f.includeCR, cm).Failure? || spent(TimeSpentOf(f), f).Failure?
    ensures r.Failure? ==> r.error.StoreError?
  {
    var figures := stats(GrowthQuery(f, fields), f.includeCR, cm);
    if figures.Failure? then Failure(StoreError(figures.error))
    else
      var time := spent(TimeSpentOf(f), f);
      if time.Failure? then Failure(StoreError(time.error))
      else Success((figures.value, time.value))
  }

  /** What Growth returns for the validated filter `v`, with the store's
      growth query `stats` and its time-spent query `spent`: the period
      guard first, then the current period, then the previous period over
      the same columns; the first error ends it. */
  function GrowthOutcome(v: FilterData, today: int, now: int,
                         stats: (QueryRequest, bool, bool) -> Result<GrowthStats, string>,
                         spent: (TimeSpentSource, FilterData) -> Result<int, string>): Result<GrowthRates, Error> {
    if NoPeriodOrDay(v) then Failure(ErrNoPeriodOrDay)
    else
      var fields := GrowthFields(v);
      var cm := CustomMetricRequested(v);
      var cur := PeriodFigures(v, fields, cm, stats, spent);
      if cur.Failure? then Failure(cur.error)
      else
        var prev := PeriodFigures(PreviousPeriod(v, today, now), fields, cm, stats, spent);
        if prev.Failure? then Failure(prev.error)
        else Success(GrowthBetween(cur.value.0, prev.value.0, cur.value.1, prev.value.1))
  }

  /** The figures and time spent under the filter as it is now. */
  method Figures(filter: Filter, fields: seq<Field>, includeCustomMetric: bool,
                 stats: (QueryRequest, bool, bool) -> Result<GrowthStats, string>,
                 spent: (TimeSpentSource, FilterData) -> Result<int, string>)
    returns (r: Result<(GrowthStats, int), Error>)
    ensures r == PeriodFigures(filter.value, fields, includeCustomMetric, stats, spent)
  {
    var figures := stats(GrowthQuery(filter.value, fields), filter.value.includeCR, includeCustomMetric);
    if figures.Failure? {
      return Failure(StoreError(figures.error));
    }
    var time: Result<int, string>;
    if |filter.value.dims.eventName| > 0 {
      time := spent(EventDuration, filter.value);
    } else if |filter.value.dims.path| == 0 {
      time := spent(SessionDuration, filter.value);
    } else {
      time := spent(TimeOnPage, filter.value);
    }
    if time.Failure? {
      return Failure(StoreError(time.error));
    }
    r := Success((figures.value, time.value));
  }

  /** Visitors.Growth: the growth of every figure relative to the previous
      period. The caller's filter is validated in place by getFilter; the
      previous period is computed on the copy. */
  method Growth(filter: Filter?, today: int, now: int,
                stats: (QueryRequest, bool, bool) -> Result<GrowthStats, string>,
                spent: (TimeSpentSource, FilterData) -> Result<int, string>)
    returns (r: Result<GrowthRates, Error>)
    modifies filter
    ensures filter != null ==> filter.value == Validated(old(filter.value), today)
    ensures var raw := if filter == null then NewFilterData(NullClient) else old(filter.value);
      r == GrowthOutcome(Validated(raw, today), today, now, stats, spent)
  {
    var f := GetFilter(filter, today);
    ghost var v := f.value;
    if f.value.from == 0 || f.value.to == 0 {
      return Failure(ErrNoPeriodOrDay);
    }
    var fields, includeCustomMetric := GrowthFieldList(f.value);
    var current := Figures(f, fields, includeCustomMetric, stats, spent);
    if current.Failure? {
      return Failure(current.error);
    }
    GetPreviousPeriod(f, today, now);
    assert f.value == PreviousPeriod(v, today, now);
    var previous := Figures(f, fields, includeCustomMetric, stats, spent);
    if previous.Failure? {
      return Failure(previous.error);
    }
    r := Success(GrowthBetween(current.value.0, previous.value.0, current.value.1, previous.value.1));
    assert r == GrowthOutcome(v, today, now, stats, spent);
  }

  /** The columns of Growth, built by appending as the source does. */
  method GrowthFieldList(f: FilterData) returns (fields: seq<Field>, includeCustomMetric: bool)
    ensures fields == GrowthFields(f) && includeCustomMetric == CustomMetricRequested(f)
  {
    fields := GrowthBase;
    if f.includeCR {
      fields := fields + [FieldCR];
    }
    includeCustomMetric := false;
    if |f.dims.eventName| > 0 && f.customMetricType != "" && f.customMetricKey != "" {
      fields := fields + [FieldEventMetaCustomMetricAvg, FieldEventMetaCustomMetricTotal];
      includeCustomMetric := true;
    }
  }

  /** Growth fails with ErrNoPeriodOrDay exactly when From or To is unset;
      every other failure is the store's. */
  lemma GrowthGuard(v: FilterData, today: int, now: int,
                    stats: (QueryRequest, bool, bool) -> Result<GrowthStats, string>,
                    spent: (TimeSpentSource, FilterData) -> Result<int, string>)
    ensures GrowthOutcome(v, today, now, stats, spent) == Failure(ErrNoPeriodOrDay) <==> NoPeriodOrDay(v)
  {
  }

  /** When the store reports the same figures and time spent for every
      query, every growth is 0. */
  lemma GrowthOfSteadyStore(v: FilterData, today: int, now: int, s: GrowthStats, t: int,
                            stats: (QueryRequest, bool, bool) -> Result<GrowthStats, string>,
                            spent: (TimeSpentSource, FilterData) -> Result<int, string>)
    requires !NoPeriodOrDay(v)
    requires forall q, cr, cm :: stats(q, cr, cm) == Success(s)
    requires forall src, f :: spent(src, f) == Success(t)
    ensures GrowthOutcome(v, today, now, stats, spent) == Success(GrowthRates(0.0, 0.0, 0.0, 0.0, 0.0, 0.0, 0.0, 0.0))
  {
    var fields, cm := GrowthFields(v), CustomMetricRequested(v);
    assert PeriodFigures(v, fields, cm, stats, spent) == Success((s, t));
    var p := PreviousPeriod(v, today, now);
    assert PeriodFigures(p, fields, cm, stats, spent) == Success((s, t));
  }

  // ---------------------------------------------------------------------
  // TotalVisitorsPageViews

  /** The store's total visitors and page views. */
  datatype VisitorsPageViews = VisitorsPageViews(visitors: int, views: int)

  /** model.TotalVisitorsPageViewsStats */
  datatype TotalVisitorsPageViewsStats =
    TotalVisitorsPageViewsStats(visitors: int, views: int, visitorsGrowth: real, viewsGrowth: real)

  const TotalsFields := [FieldVisitors, FieldViews]

  function TotalsQuery(f: FilterData): QueryRequest {
    QueryRequest(f, Selection(TotalsFields, [], [], TotalsFields), "imported_visitors")
  }

  /** What TotalVisitorsPageViews returns for the validated filter `v`: the
      period guard, then the current totals, then the previous totals. */
  function TotalVisitorsPageViewsOutcome(v: FilterData, today: int, now: int,
                                         totals: QueryRequest -> Result<VisitorsPageViews, string>)
    : Result<TotalVisitorsPageViewsStats, Error> {
    if NoPeriodOrDay(v) then Failure(ErrNoPeriodOrDay)
    else
      var cur := totals(TotalsQuery(v));
      if cur.Failure? then Failure(StoreError(cur.error))
      else
        var prev := totals(TotalsQuery(PreviousPeriod(v, today, now)));
        if prev.Failure? then Failure(StoreError(prev.error))
        else Success(TotalVisitorsPageViewsStats(
          cur.value.visitors, cur.value.views,
          CalculateGrowth(cur.value.visitors as real, prev.value.visitors as real),
          CalculateGrowth(cur.value.views as real, prev.value.views as real)))
  }

  /** Visitors.TotalVisitorsPageViews */
  method TotalVisitorsPageViews(filter: Filter?, today: int, now: int,
                                totals: QueryRequest -> Result<VisitorsPageViews, string>)
    returns (r: Result<TotalVisitorsPageViewsStats, Error>)
    modifies filter
    ensures filter != null ==> filter.value == Validated(old(filter.value), today)
    ensures var raw := if filter == null then NewFilterData(NullClient) else old(filter.value);
      r == TotalVisitorsPageViewsOutcome(Validated(raw, today), today, now, totals)
  {
    var f := GetFilter(filter, today);
    ghost var v := f.value;
    if f.value.from == 0 || f.value.to == 0 {
      return Failure(ErrNoPeriodOrDay);
    }
    var current := totals(TotalsQuery(f.value));
    if current.Failure? {
      return Failure(StoreError(current.error));
    }
    GetPreviousPeriod(f, today, now);
    assert f.value == PreviousPeriod(v, today, now);
    var previous := totals(TotalsQuery(f.value));
    if previous.Failure? {
      return Failure(StoreError(previous.error));
    }
    r := Success(TotalVisitorsPageViewsStats(
      current.value.visitors, current.value.views,
      CalculateGrowth(current.value.visitors as real, previous.value.visitors as real),
      CalculateGrowth(current.value.views as real, previous.value.views as real)));
  }

  /** TotalVisitorsPageViews fails with ErrNoPeriodOrDay exactly when From
      or To is unset; otherwise it reports the current totals unchanged. */
  lemma TotalVisitorsPageViewsGuard(v: FilterData, today: int, now: int,
                                    totals: QueryRequest -> Result<VisitorsPageViews, string>)
    ensures TotalVisitorsPageViewsOutcome(v, today, now, totals) == Failure(ErrNoPeriodOrDay) <==> NoPeriodOrDay(v)
    ensures var r := TotalVisitorsPageViewsOutcome(v, today, now, totals);
      r.Success? ==>
        (totals(TotalsQuery(v)).Success? &&
         r.value.visitors == totals(TotalsQuery(v)).value.visitors &&
         r.value.views == totals(TotalsQuery(v)).value.views)
  {
  }

  // ---------------------------------------------------------------------
  // Referrer

  /** A filter on the referrer or the referrer name. */
  predicate ReferrerFiltered(f: FilterData) {
    |f.dims.referrer| > 0 || |f.dims.referrerName| > 0
  }

  /** The field lists of Visitors.Referrer. Without imported statistics the
      referrer itself is a grouped column only when the referrer is
      filtered, and any referrer is shown otherwise. With imported
      statistics the imported columns take their place. */
  function ReferrerSelection(f: FilterData): Selection {
    if f.importedUntil == 0 then
      var fields := [FieldReferrerName, FieldReferrerIcon, FieldVisitors, FieldSessions,
                     FieldRelativeVisitors, FieldBounces, FieldBounceRate];
      if ReferrerFiltered(f) then
        Selection(fields + [FieldReferrer], [FieldReferrerName, FieldReferrer],
                  [FieldVisitors, FieldReferrerName, FieldReferrer], [])
      else
        Selection(fields + [FieldAnyReferrer], [FieldReferrerName], [FieldVisitors, FieldReferrerName], [])
    else
      var counts := [FieldVisitors, FieldSessions, FieldBounces];
      if ReferrerFiltered(f) || SearchContains(f.search, FieldReferrer) then
        Selection([FieldReferrerNameImported, FieldAnyReferrerIcon, FieldVisitors, FieldSessions,
                   FieldRelativeVisitors, FieldBounces, FieldBounceRate, FieldAnyReferrerImported],
                  [FieldReferrerName, FieldAnyReferrerImported],
                  [FieldVisitors, FieldReferrerName, FieldAnyReferrerImported],
                  [FieldReferrerName] + counts)
      else
        Selection([FieldReferrerName, FieldAnyReferrerIcon, FieldVisitors, FieldSessions,
                   FieldRelativeVisitors, FieldBounces, FieldBounceRate, FieldAnyReferrer],
                  [FieldReferrerName], [FieldVisitors, FieldReferrerName],
                  [FieldReferrer] + counts)
  }

  /** Without imported statistics the referrer is selected, grouped and
      ordered by exactly when a referrer or referrer name is filtered, and
      any referrer is selected (and not grouped) exactly otherwise; every
      grouped and ordered column is selected and nothing is imported. */
  lemma ReferrerWithoutImport(f: FilterData)
    requires f.importedUntil == 0
    ensures var s := ReferrerSelection(f);
      (FieldReferrer in s.fields <==> ReferrerFiltered(f)) &&
      (FieldReferrer in s.groupBy <==> ReferrerFiltered(f)) &&
      (FieldReferrer in s.orderBy <==> ReferrerFiltered(f)) &&
      (FieldAnyReferrer in s.fields <==> !ReferrerFiltered(f)) &&
      FieldAnyReferrer !in s.groupBy && FieldAnyReferrer !in s.orderBy &&
      GroupsSelected(s) && OrdersSelected(s) && s.fieldsImported == [] &&
      s.groupBy[0] == FieldReferrerName && s.orderBy[..2] == [FieldVisitors, FieldReferrerName]
  {
  }

  /** With imported statistics the imported referrer is grouped by exactly
      when the referrer is filtered or searched; the imported columns end in
      the visitor, session and bounce counts. */
  lemma ReferrerWithImport(f: FilterData)
    requires f.importedUntil != 0
    ensures var s := ReferrerSelection(f);
      var narrowed := ReferrerFiltered(f) || SearchContains(f.search, FieldReferrer);
      (FieldAnyReferrerImported in s.groupBy <==> narrowed) &&
      (FieldAnyReferrerImported in s.fields <==> narrowed) &&
      (FieldAnyReferrer in s.fields <==> !narrowed) &&
      |s.fieldsImported| == 4 && s.fieldsImported[1..] == [FieldVisitors, FieldSessions, FieldBounces] &&
      s.fieldsImported[0] == (if narrowed then FieldReferrerName else FieldReferrer) &&
      OrdersSelected(s.(fields := s.fields + [FieldReferrerName]))
  {
  }

  /** Visitors.Referrer: the filter through getFilter, then the plan over
      the referrer field lists and the imported referrer table. */
  method Referrer(filter: Filter?, today: int) returns (copy: Filter, request: QueryRequest)
    modifies filter
    ensures fresh(copy)
    ensures var raw := if filter == null then NewFilterData(NullClient) else old(filter.value);
      copy.value == Validated(raw, today)
    ensures filter != null ==> filter.value == copy.value
    ensures request == QueryRequest(copy.value, ReferrerSelection(copy.value), "imported_referrer")
  {
    copy := GetFilter(filter, today);
    request := QueryRequest(copy.value, ReferrerSelection(copy.value), "imported_referrer");
  }

  // ---------------------------------------------------------------------
  // Active

  /** The field lists of Visitors.Active: hostname and path, the title when
      requested, and the visitor count; ordered by visitors first. */
  function ActiveSelection(includeTitle: bool): Selection {
    var grouped := [FieldHostname, FieldPath] + (if includeTitle then [FieldTitle] else []);
    Selection(grouped + [FieldVisitors], grouped, [FieldVisitors] + grouped, [])
  }

  /** Active groups by every selected column but the visitor count, orders
      by the visitor count first and shows the title exactly when asked. */
  lemma ActiveSelectionShape(includeTitle: bool)
    ensures var s := ActiveSelection(includeTitle);
      GroupsSelected(s) && OrdersSelected(s) &&
      s.fields == s.groupBy + [FieldVisitors] && s.orderBy == [FieldVisitors] + s.groupBy &&
      FieldVisitors !in s.groupBy &&
      (FieldTitle in s.fields <==> includeTitle) && s.fieldsImported == []
  {
  }

  /** Visitors.Active: the visitors of the last `duration` seconds before
      `now`, with the time of day. Returns the plan of the per-page
      statistics and of the total count. */
  method Active(filter: Filter?, duration: int, today: int, now: int)
    returns (copy: Filter, pages: QueryRequest, count: QueryRequest)
    modifies filter
    ensures fresh(copy)
    ensures var raw := if filter == null then NewFilterData(NullClient) else old(filter.value);
      copy.value == Validated(raw, today).(from := now - duration, includeTime := true)
    ensures filter != null ==> filter.value == Validated(old(filter.value), today)
    ensures pages == QueryRequest(copy.value, ActiveSelection(copy.value.includeTitle), "")
    ensures count == QueryRequest(copy.value, Selection([FieldVisitors], [], [], []), "")
  {
    copy := GetFilter(filter, today);
    copy.value := copy.value.(from := now - duration, includeTime := true);
    var s := ActiveFields(copy.value.includeTitle);
    pages := QueryRequest(copy.value, s, "");
    count := QueryRequest(copy.value, Selection([FieldVisitors], [], [], []), "");
  }

  /** The lists of Active, built by appending as the source does. */
  method ActiveFields(includeTitle: bool) returns (s: Selection)
    ensures s == ActiveSelection(includeTitle)
  {
    var fields := [FieldHostname, FieldPath];
    var groupBy := [FieldHostname, FieldPath];
    var orderBy := [FieldVisitors, FieldHostname, FieldPath];
    if includeTitle {
      fields := fields + [FieldTitle];
      groupBy := groupBy + [FieldTitle];
      orderBy := orderBy + [FieldTitle];
    }
    fields := fields + [FieldVisitors];
    s := Selection(fields, groupBy, orderBy, []);
  }
}
