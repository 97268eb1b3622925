/** The filter every statistics query takes (pkg/analyzer/filter.go): its
    fields, its normalisation `validate` with `removeDuplicates` and
    `toDate`, and the predicates `Empty` and `Equal`. */
module Filters {
  import opened Wrappers
  import opened Text
  import opened Times
  import opened Fields
  import Sorting

  /** Search: the results are restricted to rows whose `field` contains `input`. */
  datatype Search = Search(field: Field, input: string)

  /** Sort: the results are ordered by `field` in `direction` ("ASC" or "DESC"). */
  datatype Sort = Sort(field: Field, direction: string)

  /** The two accepted start days of the week. */
  const WeekdayMonday: int := 1
  const WeekdaySunday: int := 2

  /** The two accepted custom metric types. */
  const CustomMetricTypeInteger: string := "integer"
  const CustomMetricTypeFloat: string := "float"

  /** The client ID of a filter that is not restricted to one client. */
  const NullClient: int := 0

  /** Names for the 26 string-list fields of a filter. */
  datatype ListField =
    | Hostname | Path | AnyPath | EntryPath | ExitPath | PathPattern
    | Language | Country | Region | City | Referrer | ReferrerName | Channel
    | OS | OSVersion | Browser | BrowserVersion | ScreenClass
    | UTMSource | UTMMedium | UTMCampaign | UTMContent | UTMTerm
    | Tag | EventName | EventMetaKey

  /** The dimension fields of a filter, from Hostname to SessionID in
      declaration order: the fields Empty looks at (besides Search). */
  datatype Dimensions = Dimensions(
    hostname: seq<string>,
    path: seq<string>,
    anyPath: seq<string>,
    entryPath: seq<string>,
    exitPath: seq<string>,
    pathPattern: seq<string>,
    language: seq<string>,
    country: seq<string>,
    region: seq<string>,
    city: seq<string>,
    referrer: seq<string>,
    referrerName: seq<string>,
    channel: seq<string>,
    os: seq<string>,
    osVersion: seq<string>,
    browser: seq<string>,
    browserVersion: seq<string>,
    platform: string,
    screenClass: seq<string>,
    utmSource: seq<string>,
    utmMedium: seq<string>,
    utmCampaign: seq<string>,
    utmContent: seq<string>,
    utmTerm: seq<string>,
    tags: map<string, string>,
    tag: seq<string>,
    eventName: seq<string>,
    eventMetaKey: seq<string>,
    eventMeta: map<string, string>,
    visitorID: nat,
    sessionID: nat)
  {
    /** The string list that `l` names. */
    function List(l: ListField): seq<string> {
      match l
      case Hostname => hostname
      case Path => path
      case AnyPath => anyPath
      case EntryPath => entryPath
      case ExitPath => exitPath
      case PathPattern => pathPattern
      case Language => language
      case Country => country
      case Region => region
      case City => city
      case Referrer => referrer
      case ReferrerName => referrerName
      case Channel => channel
      case OS => os
      case OSVersion => osVersion
      case Browser => browser
      case BrowserVersion => browserVersion
      case ScreenClass => screenClass
      case UTMSource => utmSource
      case UTMMedium => utmMedium
      case UTMCampaign => utmCampaign
      case UTMContent => utmContent
      case UTMTerm => utmTerm
      case Tag => tag
      case EventName => eventName
      case EventMetaKey => eventMetaKey
    }

    /** These dimensions with the string list `l` replaced by `v`. */
    function WithList(l: ListField, v: seq<string>): (r: Dimensions)
      ensures r.List(l) == v
      ensures forall m :: m != l ==> r.List(m) == List(m)
      ensures SameExceptLists(this, r)
    {
      match l
      case Hostname => this.(hostname := v)
      case Path => this.(path := v)
      case AnyPath => this.(anyPath := v)
      case EntryPath => this.(entryPath := v)
      case ExitPath => this.(exitPath := v)
      case PathPattern => this.(pathPattern := v)
      case Language => this.(language := v)
      case Country => this.(country := v)
      case Region => this.(region := v)
      case City => this.(city := v)
      case Referrer => this.(referrer := v)
      case ReferrerName => this.(referrerName := v)
      case Channel => this.(channel := v)
      case OS => this.(os := v)
      case OSVersion => this.(osVersion := v)
      case Browser => this.(browser := v)
      case BrowserVersion => this.(browserVersion := v)
      case ScreenClass => this.(screenClass := v)
      case UTMSource => this.(utmSource := v)
      case UTMMedium => this.(utmMedium := v)
      case UTMCampaign => this.(utmCampaign := v)
      case UTMContent => this.(utmContent := v)
      case UTMTerm => this.(utmTerm := v)
      case Tag => this.(tag := v)
      case EventName => this.(eventName := v)
      case EventMetaKey => this.(eventMetaKey := v)
    }

    /** No dimension is filtered: every string list is empty (ListField
        names all 26 of them), Platform is "", Tags and EventMeta are
        empty and VisitorID and SessionID are zero. */
    predicate Empty() {
      (forall l :: |List(l)| == 0) &&
      platform == "" && |tags| == 0 && |eventMeta| == 0 &&
      visitorID == 0 && sessionID == 0
    }
  }

  /** `a` and `b` agree on every dimension that is not a string list. */
  predicate SameExceptLists(a: Dimensions, b: Dimensions) {
    a.platform == b.platform &&
    a.tags == b.tags &&
    a.eventMeta == b.eventMeta &&
    a.visitorID == b.visitorID &&
    a.sessionID == b.sessionID
  }

  /** The dimensions of a new filter: nothing is filtered. */
  const NoDimensions: Dimensions := Dimensions([], [], [], [], [], [], [], [], [], [], [], [], [], [], [], [], [], "", [], [], [], [], [], [], map[], [], [], [], map[], 0, 0)

  /** The value of a Filter struct, its fields in declaration order with
      the dimensions grouped in `dims` (the context `Ctx` is left out).
      Times are seconds (0 is the zero time), a nil time zone is `None`, a
      nil slice or map is empty. */
  datatype FilterData = FilterData(
    clientID: int,
    timezone: Option<string>,
    from: int,
    to: int,
    importedUntil: int,
    period: int,
    dims: Dimensions,
    search: seq<Search>,
    sort: seq<Sort>,
    offset: int,
    limit: int,
    customMetricKey: string,
    customMetricType: string,
    includeTime: bool,
    includeTitle: bool,
    includeTimeOnPage: bool,
    includeCR: bool,
    weekdayMode: int,
    maxTimeOnPageSeconds: int,
    sample: nat,
    funnelStep: int,
    importedFrom: int,
    importedTo: int)
  {
    /** Filter.Empty: no dimension is filtered and there is no search. The
        period (From, To, ImportedUntil), paging (Offset, Limit), Sort and
        the options (the Include flags, WeekdayMode, the custom metric,
        MaxTimeOnPageSeconds, Sample) do not count. */
    predicate Empty() {
      dims.Empty() && |search| == 0
    }
  }

  /** The value of NewFilter(clientID): every other field is zero. */
  function NewFilterData(clientID: int): FilterData {
    FilterData(clientID, None, 0, 0, 0, 0, NoDimensions, [], [], 0, 0, "", "", false, false, false, false, 0, 0, 0, 0, 0, 0)
  }

  // ---------------------------------------------------------------------
  // removeDuplicates

  predicate NoDuplicates(s: seq<string>) {
    forall i, j :: 0 <= i < j < |s| ==> s[i] != s[j]
  }

  /** What removeDuplicates returns: every string of `s` that was not seen
      before, in input order. Stated from the last element backwards, the
      way the loop extends its result. */
  function Dedup(s: seq<string>): (r: seq<string>)
    ensures forall x :: x in r <==> x in s
    ensures NoDuplicates(r)
    ensures |r| <= |s|
  {
    if |s| == 0 then []
    else
      var p := s[..|s| - 1];
      if s[|s| - 1] in p then Dedup(p) else Dedup(p) + [s[|s| - 1]]
  }

  /** The position of the first occurrence of `x` in `s`. */
  function FirstIndex(s: seq<string>, x: string): (k: nat)
    requires x in s
    ensures k < |s| && s[k] == x && x !in s[..k]
  {
    if s[0] == x then 0
    else
      var k := 1 + FirstIndex(s[1..], x);
      assert s[..k] == [s[0]] + s[1..][..k - 1];
      k
  }

  lemma {:induction false} FirstIndexAppend(p: seq<string>, x: string, y: string)
    requires y in p
    ensures FirstIndex(p + [x], y) == FirstIndex(p, y)
  {
    if p[0] != y {
      assert (p + [x])[1..] == p[1..] + [x];
      FirstIndexAppend(p[1..], x, y);
    }
  }

  lemma FirstIndexOfNew(p: seq<string>, x: string)
    requires x !in p
    ensures FirstIndex(p + [x], x) == |p|
  {
    forall i | 0 <= i < |p|
      ensures (p + [x])[i] != x
    {
    }
  }

  /** removeDuplicates keeps first-occurrence order: the strings of the
      result appear in the order in which they first appear in the input. */
  lemma {:induction false} DedupKeepsFirstOccurrenceOrder(s: seq<string>)
    ensures forall i, j :: 0 <= i < j < |Dedup(s)| ==>
      FirstIndex(s, Dedup(s)[i]) < FirstIndex(s, Dedup(s)[j])
  {
    if |s| > 0 {
      var p, x := s[..|s| - 1], s[|s| - 1];
      assert s == p + [x];
      DedupKeepsFirstOccurrenceOrder(p);
      var q := Dedup(p);
      forall y | y in p
        ensures FirstIndex(s, y) == FirstIndex(p, y)
      {
        FirstIndexAppend(p, x, y);
      }
      if x !in p {
        FirstIndexOfNew(p, x);
        forall i | 0 <= i < |q|
          ensures FirstIndex(s, q[i]) < |p|
        {
        }
      }
    }
  }

  /** A list without duplicates passes removeDuplicates unchanged. */
  lemma {:induction false} DedupOfNoDuplicates(s: seq<string>)
    requires NoDuplicates(s)
    ensures Dedup(s) == s
  {
    if |s| > 0 {
      var p := s[..|s| - 1];
      assert s[|s| - 1] !in p;
      DedupOfNoDuplicates(p);
      assert s == p + [s[|s| - 1]];
    }
  }

  /** removeDuplicates is idempotent. */
  lemma DedupIdempotent(s: seq<string>)
    ensures Dedup(Dedup(s)) == Dedup(s)
  {
    DedupOfNoDuplicates(Dedup(s));
  }

  // ---------------------------------------------------------------------
  // validate

  /** A country entry validate keeps: two bytes (an ISO country code) or
      three bytes starting with "!" (a negated code). */
  predicate ValidCountry(c: string) {
    var n := ByteLen(c);
    n == 2 || (n == 3 && HasPrefix(c, "!"))
  }

  /** The `countries` list validate builds: the valid entries, in order. */
  function CountryCodes(s: seq<string>): (r: seq<string>)
    ensures forall x :: x in r <==> x in s && ValidCountry(x)
    ensures NoDuplicates(s) ==> NoDuplicates(r)
  {
    if |s| == 0 then []
    else
      var c := s[|s| - 1];
      CountryCodes(s[..|s| - 1]) + (if ValidCountry(c) then [c] else [])
  }

  /** A list of valid entries passes the country filter unchanged. */
  lemma {:induction false} CountryCodesOfValid(s: seq<string>)
    requires forall i :: 0 <= i < |s| ==> ValidCountry(s[i])
    ensures CountryCodes(s) == s
  {
    if |s| > 0 {
      var p, c := s[..|s| - 1], s[|s| - 1];
      assert s == p + [c];
      assert CountryCodes(s) == CountryCodes(p) + [c] by {
        assert ValidCountry(c);
      }
      CountryCodesOfValid(p);
    }
  }

  predicate ValidCustomMetricType(t: string) {
    t == "" || t == CustomMetricTypeInteger || t == CustomMetricTypeFloat
  }

  predicate ValidWeekdayMode(w: int) {
    w == WeekdayMonday || w == WeekdaySunday
  }

  function TrimmedSearch(s: Search): Search {
    s.(input := TrimSpace(s.input))
  }

  /** The Search list after the trimming loop. */
  function TrimSearches(s: seq<Search>): (r: seq<Search>)
    ensures |r| == |s|
    ensures forall i :: 0 <= i < |s| ==>
      r[i].field == s[i].field && r[i].input == TrimSpace(s[i].input) && Trimmed(r[i].input)
  {
    seq(|s|, i requires 0 <= i < |s| => TrimmedSearch(s[i]))
  }

  /** A set From or To becomes the UTC midnight of its day, unless
      IncludeTime keeps the time of day (converting to UTC does not move
      the instant). The zero time stays zero. */
  function DateOf(t: int, includeTime: bool): int {
    if t == 0 || includeTime then t else ToDate(t)
  }

  /** A nil time zone becomes UTC. */
  function DefaultTimezone(tz: Option<string>): Option<string> {
    if tz.None? then Some("UTC") else tz
  }

  /** The time fields of a filter: the range, the import boundary and the
      imported part of the range. */
  datatype Span = Span(from: int, to: int, importedUntil: int, importedFrom: int, importedTo: int)

  function SpanOf(f: FilterData): Span {
    Span(f.from, f.to, f.importedUntil, f.importedFrom, f.importedTo)
  }

  function WithSpan(f: FilterData, s: Span): (r: FilterData)
    ensures SpanOf(r) == s
  {
    f.(from := s.from, to := s.to, importedUntil := s.importedUntil,
       importedFrom := s.importedFrom, importedTo := s.importedTo)
  }

  /** From and To as dates. */
  function SpanDates(s: Span, includeTime: bool): Span {
    s.(from := DateOf(s.from, includeTime), to := DateOf(s.to, includeTime))
  }

  /** An inverted range (with To set) is swapped. */
  function SpanOrdered(s: Span): Span {
    if s.to != 0 && s.from > s.to then s.(from := s.to, to := s.from) else s
  }

  /** The range is split at ImportedUntil into an imported part
      [importedFrom, importedTo] and a live part [From, To]. */
  function SpanSplit(s: Span): Span {
    if s.importedUntil != 0 && s.from < s.importedUntil then
      if s.to < s.importedUntil then s.(importedFrom := s.from, importedTo := s.to)
      else s.(importedFrom := s.from, from := s.importedUntil, importedTo := s.importedUntil - Day)
    else s
  }

  /** A To after tomorrow becomes tomorrow. */
  function SpanCapped(s: Span, today: int): Span {
    if s.to != 0 && s.to > today + Day then s.(to := today + Day) else s
  }

  /** The time fields as validate leaves them. */
  function ValidatedSpan(s: Span, includeTime: bool, today: int): Span {
    SpanCapped(SpanSplit(SpanOrdered(SpanDates(s, includeTime))), today)
  }

  /** The time zone and time steps of validate. */
  function WithPeriod(f: FilterData, today: int): FilterData {
    WithSpan(f.(timezone := DefaultTimezone(f.timezone)), ValidatedSpan(SpanOf(f), f.includeTime, today))
  }

  /** Path wins over PathPattern, the search inputs are trimmed, paging is
      clamped at zero and unknown option values are reset. */
  function WithOptions(f: FilterData): FilterData {
    f.(dims := f.dims.(pathPattern := if |f.dims.path| > 0 && |f.dims.pathPattern| > 0 then [] else f.dims.pathPattern),
       search := TrimSearches(f.search),
       offset := if f.offset < 0 then 0 else f.offset,
       limit := if f.limit < 0 then 0 else f.limit,
       customMetricType := if ValidCustomMetricType(f.customMetricType) then f.customMetricType else "",
       weekdayMode := if ValidWeekdayMode(f.weekdayMode) then f.weekdayMode else WeekdayMonday)
  }

  /** The country filter and the de-duplication of the other lists
      (AnyPath is not de-duplicated). */
  function WithLists(f: FilterData): FilterData {
    var d := f.dims;
    f.(dims := d.(
      country := CountryCodes(Dedup(d.country)),
      hostname := Dedup(d.hostname),
      path := Dedup(d.path),
      entryPath := Dedup(d.entryPath),
      exitPath := Dedup(d.exitPath),
      pathPattern := Dedup(d.pathPattern),
      language := Dedup(d.language),
      region := Dedup(d.region),
      city := Dedup(d.city),
      referrer := Dedup(d.referrer),
      referrerName := Dedup(d.referrerName),
      channel := Dedup(d.channel),
      os := Dedup(d.os),
      osVersion := Dedup(d.osVersion),
      browser := Dedup(d.browser),
      browserVersion := Dedup(d.browserVersion),
      screenClass := Dedup(d.screenClass),
      utmSource := Dedup(d.utmSource),
      utmMedium := Dedup(d.utmMedium),
      utmCampaign := Dedup(d.utmCampaign),
      utmContent := Dedup(d.utmContent),
      utmTerm := Dedup(d.utmTerm),
      tag := Dedup(d.tag),
      eventName := Dedup(d.eventName),
      eventMetaKey := Dedup(d.eventMetaKey)))
  }

  /** The filter validate leaves behind, as a function of the filter it
      starts from and of today's date (util.Today()). */
  function Validated(f: FilterData, today: int): FilterData {
    WithLists(WithOptions(WithPeriod(f, today)))
  }

  // ---------------------------------------------------------------------
  // Equal

  /** `Timezone.String()`: a nil location prints as "UTC". */
  function TimezoneName(tz: Option<string>): string {
    if tz.None? then "UTC" else tz.value
  }

  /** The scalar comparison Equal starts with. WeekdayMode, the funnel step
      and the imported range are not part of it. */
  predicate ScalarsEqual(a: FilterData, b: FilterData) {
    a.clientID == b.clientID &&
    TimezoneName(a.timezone) == TimezoneName(b.timezone) &&
    a.from == b.from &&
    a.to == b.to &&
    a.importedUntil == b.importedUntil &&
    a.period == b.period &&
    a.dims.platform == b.dims.platform &&
    a.dims.visitorID == b.dims.visitorID &&
    a.dims.sessionID == b.dims.sessionID &&
    a.offset == b.offset &&
    a.limit == b.limit &&
    a.customMetricKey == b.customMetricKey &&
    a.customMetricType == b.customMetricType &&
    a.includeTime == b.includeTime &&
    a.includeTitle == b.includeTitle &&
    a.includeTimeOnPage == b.includeTimeOnPage &&
    a.includeCR == b.includeCR &&
    a.maxTimeOnPageSeconds == b.maxTimeOnPageSeconds &&
    a.sample == b.sample
  }

  /** The string lists in the order Equal sorts and compares them; Tag is
      sorted and compared twice. */
  const EqualOrder: seq<ListField> := [
    Hostname, Path, AnyPath, EntryPath, ExitPath, PathPattern, Language,
    Country, Region, City, Referrer, ReferrerName, Channel, OS, OSVersion,
    Browser, BrowserVersion, ScreenClass, UTMSource, UTMMedium, UTMCampaign,
    UTMContent, UTMTerm, Tag, Tag, EventName, EventMetaKey]

  /** `d` with the list `l` sorted in place (slices.Sort). */
  function SortList(d: Dimensions, l: ListField): Dimensions {
    d.WithList(l, Sorting.SortStrings(d.List(l)))
  }

  /** The verdict of the list comparison and the two sets of lists as it
      leaves them. */
  datatype ListComparison = ListComparison(equal: bool, left: Dimensions, right: Dimensions)

  /** Sorting and comparing the lists of `order` one after the other, up to
      the first list that differs. */
  function CompareLists(a: Dimensions, b: Dimensions, order: seq<ListField>): ListComparison
    decreases |order|
  {
    if |order| == 0 then ListComparison(true, a, b)
    else
      var a', b' := SortList(a, order[0]), SortList(b, order[0]);
      if a'.List(order[0]) != b'.List(order[0]) then ListComparison(false, a', b')
      else CompareLists(a', b', order[1..])
  }

  /** Comparing a set of lists with itself leaves both sides alike. */
  lemma {:induction false} CompareListsOfSame(a: Dimensions, order: seq<ListField>)
    ensures CompareLists(a, a, order).equal && CompareLists(a, a, order).left == CompareLists(a, a, order).right
    decreases |order|
  {
    if |order| > 0 {
      CompareListsOfSame(SortList(a, order[0]), order[1..]);
    }
  }

  /** The verdict of Equal and the two filters as Equal leaves them. */
  datatype Comparison = Comparison(equal: bool, left: FilterData, right: FilterData)

  /** The sort keys of slices.SortFunc in Equal: Search by Input and Sort by
      Direction, larger keys first. */
  function SearchInput(s: Search): string { s.input }
  function SortDirection(s: Sort): string { s.direction }

  /** Search sorted by Input in both filters, then compared. */
  function CompareSearches(a: FilterData, b: FilterData): Comparison {
    var a' := a.(search := Sorting.SortByKeyDesc(a.search, SearchInput));
    var b' := b.(search := Sorting.SortByKeyDesc(b.search, SearchInput));
    Comparison(a'.search == b'.search, a', b')
  }

  /** Sort sorted by Direction in both filters, then compared. */
  function CompareSorts(a: FilterData, b: FilterData): Comparison {
    var a' := a.(sort := Sorting.SortByKeyDesc(a.sort, SortDirection));
    var b' := b.(sort := Sorting.SortByKeyDesc(b.sort, SortDirection));
    Comparison(a'.sort == b'.sort, a', b')
  }

  /** What Equal computes on the values of its two filters: each stage runs
      on the filters the previous stage left behind, and the first stage
      that finds a difference ends the comparison. */
  function CompareFilters(a: FilterData, b: FilterData): Comparison {
    if !ScalarsEqual(a, b) then Comparison(false, a, b)
    else
      var c1 := CompareLists(a.dims, b.dims, EqualOrder);
      var a1, b1 := a.(dims := c1.left), b.(dims := c1.right);
      if !c1.equal then Comparison(false, a1, b1)
      else
        var c2 := CompareSearches(a1, b1);
        if !c2.equal then c2
        else
          var c3 := CompareSorts(c2.left, c2.right);
          if !c3.equal then c3
          else
            Comparison(c3.left.dims.tags == c3.right.dims.tags && c3.left.dims.eventMeta == c3.right.dims.eventMeta,
                       c3.left, c3.right)
  }

  // ---------------------------------------------------------------------
  // The Filter object

  /** A `*Filter`: a pointer to a filter struct that the analyzer updates
      in place. Go copies the struct as one value (`filterCopy := *filter`),
      so the object holds it as one record, and the methods update that
      record field by field. */
  class Filter {
    var value: FilterData

    /** `&filterCopy` for `filterCopy := d`. */
    constructor (d: FilterData)
      ensures value == d
    {
      value := d;
    }

    /** Filter.removeDuplicates: the distinct strings of `input` in the order
        of their first occurrence (nil for an empty input). */
    method RemoveDuplicates(input: seq<string>) returns (list: seq<string>)
      ensures list == Dedup(input)
    {
      if |input| == 0 {
        return [];
      }
      var keys: set<string> := {};
      list := [];
      for i := 0 to |input|
        invariant list == Dedup(input[..i])
        invariant forall x :: x in keys <==> x in input[..i]
      {
        assert input[..i + 1][..i] == input[..i];
        if input[i] !in keys {
          keys := keys + {input[i]};
          list := list + [input[i]];
        }
      }
      assert input[..|input|] == input;
    }

    /** Filter.validate: rewrites the filter into canonical form, in the
        order of the source: time zone and dates, the imported split, the
        cap at tomorrow, the options, the country filter and the
        de-duplication of the lists. */
    method Validate(today: int)
      modifies this
      ensures value == Validated(old(value), today)
    {
      NormalizeDates();
      OrderRange();
      SplitImported();
      CapTo(today);
      NormalizeOptions();
      DeduplicateLists();
    }

    method NormalizeDates()
      modifies this
      ensures value == WithSpan(old(value).(timezone := DefaultTimezone(old(value).timezone)),
                                SpanDates(SpanOf(old(value)), old(value).includeTime))
    {
      if value.timezone.None? {
        value := value.(timezone := Some("UTC"));
      }
      // With IncludeTime the times are only converted to UTC, which keeps
      // the instant.
      if value.from != 0 && !value.includeTime {
        value := value.(from := ToDate(value.from));
      }
      if value.to != 0 && !value.includeTime {
        value := value.(to := ToDate(value.to));
      }
    }

    method OrderRange()
      modifies this
      ensures value == WithSpan(old(value), SpanOrdered(SpanOf(old(value))))
    {
      if value.to != 0 && value.from > value.to {
        value := value.(from := value.to, to := value.from);
      }
    }

    method SplitImported()
      modifies this
      ensures value == WithSpan(old(value), SpanSplit(SpanOf(old(value))))
    {
      if value.importedUntil != 0 {
        if value.from < value.importedUntil {
          value := value.(importedFrom := value.from);
          if value.to < value.importedUntil {
            value := value.(importedTo := value.to);
          } else {
            value := value.(from := value.importedUntil);
            value := value.(importedTo := value.importedUntil - Day);
          }
        }
      }
    }

    method CapTo(today: int)
      modifies this
      ensures value == WithSpan(old(value), SpanCapped(SpanOf(old(value)), today))
    {
      var tomorrow := today + Day;
      if value.to != 0 && value.to > tomorrow {
        value := value.(to := tomorrow);
      }
    }

    method NormalizeOptions()
      modifies this
      ensures value == WithOptions(old(value))
    {
      var pathPattern := value.dims.pathPattern;
      if |value.dims.path| > 0 && |value.dims.pathPattern| > 0 {
        pathPattern := [];
      }
      var search := TrimSearchInputs(value.search);
      var offset, limit := value.offset, value.limit;
      if offset < 0 {
        offset := 0;
      }
      if limit < 0 {
        limit := 0;
      }
      var customMetricType := value.customMetricType;
      if customMetricType != "" &&
         customMetricType != CustomMetricTypeInteger &&
         customMetricType != CustomMetricTypeFloat {
        customMetricType := "";
      }
      var weekdayMode := value.weekdayMode;
      if weekdayMode != WeekdayMonday && weekdayMode != WeekdaySunday {
        weekdayMode := WeekdayMonday;
      }
      value := value.(dims := value.dims.(pathPattern := pathPattern), search := search,
                      offset := offset, limit := limit,
                      customMetricType := customMetricType, weekdayMode := weekdayMode);
    }

    /** The trimming loop over the Search inputs. */
    method TrimSearchInputs(s: seq<Search>) returns (search: seq<Search>)
      ensures search == TrimSearches(s)
    {
      search := s;
      for i := 0 to |search|
        invariant |search| == |s|
        invariant forall k :: 0 <= k < i ==> search[k] == TrimmedSearch(s[k])
        invariant forall k :: i <= k < |search| ==> search[k] == s[k]
      {
        search := search[i := search[i].(input := TrimSpace(search[i].input))];
      }
    }

    /** The country filter loop over the de-duplicated countries. */
    method FilterCountries(country: seq<string>) returns (countries: seq<string>)
      ensures countries == CountryCodes(country)
    {
      countries := [];
      for i := 0 to |country|
        invariant countries == CountryCodes(country[..i])
      {
        assert country[..i + 1][..i] == country[..i];
        var n := ByteLen(country[i]);
        if n == 2 || (n == 3 && HasPrefix(country[i], "!")) {
          countries := countries + [country[i]];
        }
      }
      assert country[..|country|] == country;
    }

    method DeduplicateLists()
      modifies this
      ensures value == WithLists(old(value))
    {
      var d := value.dims;
      var country := RemoveDuplicates(d.country);
      var countries := FilterCountries(country);
      var hostname := RemoveDuplicates(d.hostname);
      var path := RemoveDuplicates(d.path);
      var entryPath := RemoveDuplicates(d.entryPath);
      var exitPath := RemoveDuplicates(d.exitPath);
      var pathPattern := RemoveDuplicates(d.pathPattern);
      var language := RemoveDuplicates(d.language);
      var region := RemoveDuplicates(d.region);
      var city := RemoveDuplicates(d.city);
      var referrer := RemoveDuplicates(d.referrer);
      var referrerName := RemoveDuplicates(d.referrerName);
      var channel := RemoveDuplicates(d.channel);
      var os := RemoveDuplicates(d.os);
      var osVersion := RemoveDuplicates(d.osVersion);
      var browser := RemoveDuplicates(d.browser);
      var browserVersion := RemoveDuplicates(d.browserVersion);
      var screenClass := RemoveDuplicates(d.screenClass);
      var utmSource := RemoveDuplicates(d.utmSource);
      var utmMedium := RemoveDuplicates(d.utmMedium);
      var utmCampaign := RemoveDuplicates(d.utmCampaign);
      var utmContent := RemoveDuplicates(d.utmContent);
      var utmTerm := RemoveDuplicates(d.utmTerm);
      var tag := RemoveDuplicates(d.tag);
      var eventName := RemoveDuplicates(d.eventName);
      var eventMetaKey := RemoveDuplicates(d.eventMetaKey);
      value := value.(dims := d.(
        hostname := hostname,
        path := path,
        entryPath := entryPath,
        exitPath := exitPath,
        pathPattern := pathPattern,
        language := language,
        country := countries,
        region := region,
        city := city,
        referrer := referrer,
        referrerName := referrerName,
        channel := channel,
        os := os,
        osVersion := osVersion,
        browser := browser,
        browserVersion := browserVersion,
        screenClass := screenClass,
        utmSource := utmSource,
        utmMedium := utmMedium,
        utmCampaign := utmCampaign,
        utmContent := utmContent,
        utmTerm := utmTerm,
        tag := tag,
        eventName := eventName,
        eventMetaKey := eventMetaKey));
    }

    /** Filter.Equal: compares the scalar fields, then sorts and compares
        the string lists one by one, then sorts and compares Search and
        Sort, then compares the Tags and EventMeta maps, stopping at the
        first difference. The sorting stays behind in both filters. */
    method Equal(other: Filter) returns (eq: bool)
      modifies this, other
      ensures eq == CompareFilters(old(value), old(other.value)).equal
      ensures value == CompareFilters(old(value), old(other.value)).left
      ensures other.value == CompareFilters(old(value), old(other.value)).right
    {
      if !ScalarsEqual(value, other.value) {
        return false;
      }
      eq := SortAndCompareLists(other);
      if !eq {
        return false;
      }
      eq := SortAndCompareSearch(other);
      if !eq {
        return false;
      }
      eq := SortAndCompareSort(other);
      if !eq {
        return false;
      }
      return value.dims.tags == other.value.dims.tags && value.dims.eventMeta == other.value.dims.eventMeta;
    }

    /** The string-list part of Equal: the lists of both filters sorted
        and compared one by one (SortLists), then stored in both filters.
        Both new filters are computed before either is stored, so this also
        holds when `other` is this filter. */
    method SortAndCompareLists(other: Filter) returns (eq: bool)
      modifies this, other
      ensures var c := CompareLists(old(value).dims, old(other.value).dims, EqualOrder);
        eq == c.equal && value == old(value).(dims := c.left) && other.value == old(other.value).(dims := c.right)
    {
      var a, b;
      eq, a, b := SortLists(value.dims, other.value.dims, EqualOrder);
      if other == this {
        CompareListsOfSame(value.dims, EqualOrder);
        assert a == b;
      }
      var left, right := value.(dims := a), other.value.(dims := b);
      value := left;
      other.value := right;
    }

    /** Sorts and compares the lists of `a` and `b` in `order`, up to the
        first difference. The lists are sorted in working copies, which
        nothing reads before the comparison ends. */
    method SortLists(a: Dimensions, b: Dimensions, order: seq<ListField>) returns (eq: bool, a': Dimensions, b': Dimensions)
      ensures ListComparison(eq, a', b') == CompareLists(a, b, order)
    {
      a', b' := a, b;
      var i := 0;
      while i < |order|
        invariant 0 <= i <= |order|
        invariant CompareLists(a', b', order[i..]) == CompareLists(a, b, order)
      {
        var l := order[i];
        assert order[i..][0] == l && order[i..][1..] == order[i + 1..];
        var a1, b1 := SortList(a', l), SortList(b', l);
        assert CompareLists(a', b', order[i..]) ==
          if a1.List(l) != b1.List(l) then ListComparison(false, a1, b1)
          else CompareLists(a1, b1, order[i + 1..]);
        a', b' := a1, b1;
        if a'.List(l) != b'.List(l) {
          return false, a', b';
        }
        i := i + 1;
      }
      assert order[i..] == [];
      return true, a', b';
    }

    /** Sorts both Search lists by Input, larger first, and compares them. */
    method SortAndCompareSearch(other: Filter) returns (eq: bool)
      modifies this, other
      ensures eq == CompareSearches(old(value), old(other.value)).equal
      ensures value == CompareSearches(old(value), old(other.value)).left
      ensures other.value == CompareSearches(old(value), old(other.value)).right
    {
      var mine := Sorting.SortByKeyDesc(value.search, SearchInput);
      var theirs := Sorting.SortByKeyDesc(other.value.search, SearchInput);
      value := value.(search := mine);
      other.value := other.value.(search := theirs);
      eq := mine == theirs;
    }

    /** Sorts both Sort lists by Direction, larger first, and compares them. */
    method SortAndCompareSort(other: Filter) returns (eq: bool)
      modifies this, other
      ensures eq == CompareSorts(old(value), old(other.value)).equal
      ensures value == CompareSorts(old(value), old(other.value)).left
      ensures other.value == CompareSorts(old(value), old(other.value)).right
    {
      var mine := Sorting.SortByKeyDesc(value.sort, SortDirection);
      var theirs := Sorting.SortByKeyDesc(other.value.sort, SortDirection);
      value := value.(sort := mine);
      other.value := other.value.(sort := theirs);
      eq := mine == theirs;
    }
  }

  /** NewFilter: a fresh filter for `clientID`. */
  method NewFilter(clientID: int) returns (f: Filter)
    ensures fresh(f)
    ensures f.value == NewFilterData(clientID)
  {
    f := new Filter(NewFilterData(clientID));
  }
}
