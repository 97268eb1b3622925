/** What `validate`, `Empty` and `Equal` promise, proved about the
    functions that specify them (pkg/analyzer/filter.go). */
module FilterProperties {
  import opened Wrappers
  import opened Text
  import opened Times
  import opened Fields
  import opened Filters
  import Sorting

  // ---------------------------------------------------------------------
  // validate: the period

  /** The option and list steps of validate leave the time fields alone. */
  lemma LaterStepsKeepSpan(f: FilterData, today: int)
    ensures SpanOf(Validated(f, today)) == ValidatedSpan(SpanOf(f), f.includeTime, today)
    ensures Validated(f, today).timezone.Some?
    ensures Validated(f, today).includeTime == f.includeTime
  {
  }

  /** After validate a set To is never after tomorrow, and the range is in
      order, provided neither From nor ImportedUntil lies beyond tomorrow:
      the cap at tomorrow runs after the swap, so a From beyond tomorrow can
      end up after the capped To. */
  lemma ValidatedRangeOrdered(f: FilterData, today: int)
    requires today >= 0 && f.from <= today + Day && f.importedUntil <= today + Day
    ensures var r := Validated(f, today);
      r.to <= today + Day && (r.to == 0 || r.from <= r.to)
  {
    LaterStepsKeepSpan(f, today);
    SpanOrderedWithinTomorrow(SpanOf(f), f.includeTime, today);
  }

  lemma SpanOrderedWithinTomorrow(s: Span, includeTime: bool, today: int)
    requires today >= 0 && s.from <= today + Day && s.importedUntil <= today + Day
    ensures var r := ValidatedSpan(s, includeTime, today);
      r.to <= today + Day && (r.to == 0 || r.from <= r.to)
  {
    assert SpanDates(s, includeTime).from <= s.from;
  }

  /** The swap and the cap in the wrong order: with From and To both after
      tomorrow, validate leaves From after To, and validating again swaps
      them back into the same day. */
  lemma ValidateCapAfterSwap(today: int)
    requires today % Day == 0 && today > 0
    ensures var f := NewFilterData(NullClient).(from := today + 3 * Day, to := today + 2 * Day);
      var r := Validated(f, today);
      r.from == today + 2 * Day && r.to == today + Day && r.from > r.to &&
      Validated(r, today).from == today + Day && Validated(r, today).to == today + Day
  {
    var f := NewFilterData(NullClient).(from := today + 3 * Day, to := today + 2 * Day);
    ToDateOfMidnight(today + 3 * Day);
    ToDateOfMidnight(today + 2 * Day);
    ToDateOfMidnight(today + Day);
    LaterStepsKeepSpan(f, today);
    assert SpanOf(f) == Span(today + 3 * Day, today + 2 * Day, 0, 0, 0);
    assert ValidatedSpan(SpanOf(f), false, today) == Span(today + 2 * Day, today + Day, 0, 0, 0);
    var r := Validated(f, today);
    LaterStepsKeepSpan(r, today);
    assert ValidatedSpan(SpanOf(r), false, today) == Span(today + Day, today + Day, 0, 0, 0);
  }

  /** The date step moves only From and To, to midnights unless
      IncludeTime keeps them. */
  lemma SpanDatesMidnights(s: Span, includeTime: bool)
    ensures var r := SpanDates(s, includeTime);
      r.importedUntil == s.importedUntil && r.importedFrom == s.importedFrom && r.importedTo == s.importedTo &&
      (includeTime ==> r == s) &&
      (!includeTime ==> r.from % Day == 0 && r.to % Day == 0)
  {
  }

  /** The ordering step leaves From before To (when To is set) by keeping
      or swapping the two, and touches nothing else. */
  lemma SpanOrderedOrders(s: Span)
    ensures var r := SpanOrdered(s);
      (r.to == 0 || r.from <= r.to) &&
      ((r.from, r.to) == (s.from, s.to) || (r.from, r.to) == (s.to, s.from)) &&
      r.importedUntil == s.importedUntil && r.importedFrom == s.importedFrom && r.importedTo == s.importedTo
  {
  }

  /** The cap leaves To at tomorrow at the latest, changes only To, and
      changes nothing when To is not after tomorrow. */
  lemma SpanCappedCaps(s: Span, today: int)
    ensures var r := SpanCapped(s, today);
      (r.to == 0 || r.to <= today + Day) &&
      r.from == s.from && r.importedUntil == s.importedUntil &&
      r.importedFrom == s.importedFrom && r.importedTo == s.importedTo &&
      (s.to <= today + Day ==> r == s)
  {
  }

  /** The time fields as validate leaves them end on tomorrow at the
      latest and keep ImportedUntil. */
  lemma ValidatedSpanCapped(s: Span, includeTime: bool, today: int)
    ensures var r := ValidatedSpan(s, includeTime, today);
      (r.to == 0 || r.to <= today + Day) && r.importedUntil == s.importedUntil
  {
  }

  /** The imported split: nothing is imported when ImportedUntil is zero or
      the (normalised) range starts at or after it; a range that ends before
      ImportedUntil is imported as a whole; otherwise the range is cut at
      ImportedUntil, the days before it imported, the rest live. */
  lemma SplitCases(s: Span)
    ensures var r := SpanSplit(s);
      r.to == s.to && r.importedUntil == s.importedUntil &&
      (s.importedUntil == 0 || s.from >= s.importedUntil ==> r == s) &&
      (s.importedUntil != 0 && s.from < s.importedUntil && s.to < s.importedUntil ==>
        r.from == s.from && r.importedFrom == s.from && r.importedTo == s.to) &&
      (s.importedUntil != 0 && s.from < s.importedUntil <= s.to ==>
        r.from == s.importedUntil && r.importedFrom == s.from && r.importedTo == s.importedUntil - Day)
  {
  }

  // ---------------------------------------------------------------------
  // validate is idempotent on realistic input

  /** Time fields that the time steps of validate leave as they are. */
  predicate FixedSpan(s: Span, includeTime: bool, today: int) {
    DateOf(s.from, includeTime) == s.from &&
    DateOf(s.to, includeTime) == s.to &&
    (s.to == 0 || (s.from <= s.to && s.to <= today + Day)) &&
    (s.importedUntil == 0 || s.from >= s.importedUntil ||
     (s.to < s.importedUntil && s.importedFrom == s.from && s.importedTo == s.to))
  }

  lemma ValidatedSpanOfFixed(s: Span, includeTime: bool, today: int)
    requires FixedSpan(s, includeTime, today)
    ensures ValidatedSpan(s, includeTime, today) == s
  {
  }

  lemma DateOfMidnight(t: int, includeTime: bool)
    requires t % Day == 0 || includeTime
    ensures DateOf(t, includeTime) == t
  {
    if !includeTime && t != 0 {
      ToDateOfMidnight(t);
    }
  }

  lemma DateOfIdempotent(t: int, includeTime: bool)
    ensures DateOf(DateOf(t, includeTime), includeTime) == DateOf(t, includeTime)
  {
    if !includeTime && t != 0 {
      ToDateIdempotent(t);
    }
  }

  /** The time steps reach fixed time fields when today is a midnight, From
      and ImportedUntil are not beyond tomorrow and ImportedUntil is a
      midnight unless times are kept. */
  lemma ValidatedSpanFixed(s: Span, includeTime: bool, today: int)
    requires today % Day == 0 && today >= 0
    requires s.from <= today + Day && s.importedUntil <= today + Day
    requires includeTime || s.importedUntil % Day == 0
    ensures FixedSpan(ValidatedSpan(s, includeTime, today), includeTime, today)
  {
    DateOfIdempotent(s.from, includeTime);
    DateOfIdempotent(s.to, includeTime);
    DateOfMidnight(s.importedUntil, includeTime);
    DateOfMidnight(today + Day, includeTime);
    SpanOrderedWithinTomorrow(s, includeTime, today);
  }

  /** Trimming the search inputs twice is trimming them once. */
  lemma TrimSearchesIdempotent(s: seq<Search>)
    ensures TrimSearches(TrimSearches(s)) == TrimSearches(s)
  {
    forall i | 0 <= i < |s|
      ensures TrimSpace(TrimSpace(s[i].input)) == TrimSpace(s[i].input)
    {
      TrimSpaceIdempotent(s[i].input);
    }
  }

  lemma WithOptionsIdempotent(f: FilterData)
    ensures WithOptions(WithOptions(f)) == WithOptions(f)
  {
    TrimSearchesIdempotent(f.search);
  }

  /** The country filter keeps what it produces. */
  lemma CountryStepIdempotent(s: seq<string>)
    ensures CountryCodes(Dedup(CountryCodes(Dedup(s)))) == CountryCodes(Dedup(s))
  {
    var c := CountryCodes(Dedup(s));
    DedupOfNoDuplicates(c);
    forall i | 0 <= i < |c|
      ensures ValidCountry(c[i])
    {
      assert c[i] in c;
    }
    CountryCodesOfValid(c);
  }

  lemma WithListsIdempotent(f: FilterData)
    ensures WithLists(WithLists(f)) == WithLists(f)
  {
    var d := f.dims;
    CountryStepIdempotent(d.country);
    DedupIdempotent(d.hostname);
    DedupIdempotent(d.path);
    DedupIdempotent(d.entryPath);
    DedupIdempotent(d.exitPath);
    DedupIdempotent(d.pathPattern);
    DedupIdempotent(d.language);
    DedupIdempotent(d.region);
    DedupIdempotent(d.city);
    DedupIdempotent(d.referrer);
    DedupIdempotent(d.referrerName);
    DedupIdempotent(d.channel);
    DedupIdempotent(d.os);
    DedupIdempotent(d.osVersion);
    DedupIdempotent(d.browser);
    DedupIdempotent(d.browserVersion);
    DedupIdempotent(d.screenClass);
    DedupIdempotent(d.utmSource);
    DedupIdempotent(d.utmMedium);
    DedupIdempotent(d.utmCampaign);
    DedupIdempotent(d.utmContent);
    DedupIdempotent(d.utmTerm);
    DedupIdempotent(d.tag);
    DedupIdempotent(d.eventName);
    DedupIdempotent(d.eventMetaKey);
  }

  /** De-duplication keeps a list empty or non-empty, so it does not change
      whether Path wins over PathPattern: the option step and the list step
      can be taken in either order. */
  lemma OptionsListsCommute(f: FilterData)
    ensures WithOptions(WithLists(f)) == WithLists(WithOptions(f))
  {
    DedupEmpty(f.dims.path);
    DedupEmpty(f.dims.pathPattern);
  }

  /** validate is idempotent when the period is realistic: today is a
      midnight, From and ImportedUntil are not beyond tomorrow and
      ImportedUntil is a midnight unless times are kept. Without the bound
      on From it is not (ValidateCapAfterSwap). */
  lemma ValidateIdempotent(f: FilterData, today: int)
    requires today % Day == 0 && today >= 0
    requires f.from <= today + Day && f.importedUntil <= today + Day
    requires f.includeTime || f.importedUntil % Day == 0
    ensures Validated(Validated(f, today), today) == Validated(f, today)
  {
    var p := WithPeriod(f, today);
    var r := Validated(f, today);
    LaterStepsKeepSpan(f, today);
    ValidatedSpanFixed(SpanOf(f), f.includeTime, today);
    ValidatedSpanOfFixed(SpanOf(r), r.includeTime, today);
    assert WithPeriod(r, today) == r;
    calc {
      Validated(r, today);
      WithLists(WithOptions(r));
      { OptionsListsCommute(WithOptions(p)); }
      WithLists(WithLists(WithOptions(WithOptions(p))));
      { WithOptionsIdempotent(p); WithListsIdempotent(WithOptions(p)); }
      r;
    }
  }

  // ---------------------------------------------------------------------
  // validate: options and lists

  /** The option steps: paging is clamped at zero, only the two custom
      metric types and the two week start days survive, the search inputs
      are trimmed, Path wins over PathPattern, and the other options are
      left alone. */
  lemma ValidatedOptions(f: FilterData, today: int)
    ensures var r := Validated(f, today);
      r.offset >= 0 && (f.offset >= 0 ==> r.offset == f.offset) && (f.offset < 0 ==> r.offset == 0) &&
      r.limit >= 0 && (f.limit >= 0 ==> r.limit == f.limit) && (f.limit < 0 ==> r.limit == 0) &&
      ValidCustomMetricType(r.customMetricType) &&
      (r.customMetricType == f.customMetricType <==> ValidCustomMetricType(f.customMetricType)) &&
      (!ValidCustomMetricType(f.customMetricType) ==> r.customMetricType == "") &&
      ValidWeekdayMode(r.weekdayMode) &&
      (r.weekdayMode == f.weekdayMode <==> ValidWeekdayMode(f.weekdayMode)) &&
      (!ValidWeekdayMode(f.weekdayMode) ==> r.weekdayMode == WeekdayMonday) &&
      r.clientID == f.clientID && r.period == f.period && r.sort == f.sort &&
      r.customMetricKey == f.customMetricKey && r.includeTime == f.includeTime &&
      r.includeTitle == f.includeTitle && r.includeTimeOnPage == f.includeTimeOnPage &&
      r.includeCR == f.includeCR && r.maxTimeOnPageSeconds == f.maxTimeOnPageSeconds &&
      r.sample == f.sample && r.funnelStep == f.funnelStep
  {
  }

  /** Every search input is trimmed, the fields stay. */
  lemma ValidatedSearch(f: FilterData, today: int)
    ensures var r := Validated(f, today);
      |r.search| == |f.search| &&
      forall i :: 0 <= i < |r.search| ==>
        r.search[i].field == f.search[i].field &&
        r.search[i].input == TrimSpace(f.search[i].input) && Trimmed(r.search[i].input)
  {
  }

  /** Path wins over PathPattern: afterwards they are never both set, and
      without a Path the patterns are only de-duplicated. */
  lemma ValidatedPathPattern(f: FilterData, today: int)
    ensures var r := Validated(f, today);
      !(|r.dims.path| > 0 && |r.dims.pathPattern| > 0) &&
      (|f.dims.path| > 0 ==> r.dims.pathPattern == []) &&
      (|f.dims.path| == 0 ==> r.dims.pathPattern == Dedup(f.dims.pathPattern))
  {
    var d := f.dims;
    assert |Dedup(d.path)| > 0 <==> |d.path| > 0 by {
      if |d.path| > 0 {
        assert d.path[0] in Dedup(d.path);
      }
    }
  }

  /** `r` lists strings of `t` in the order of their first occurrence in `t`. */
  predicate InFirstOccurrenceOrder(r: seq<string>, t: seq<string>) {
    (forall x :: x in r ==> x in t) &&
    forall i, j :: 0 <= i < j < |r| ==> FirstIndex(t, r[i]) < FirstIndex(t, r[j])
  }

  /** The country filter keeps the order of what it keeps. */
  lemma {:induction false} CountryCodesKeepOrder(s: seq<string>, t: seq<string>)
    requires InFirstOccurrenceOrder(s, t)
    ensures InFirstOccurrenceOrder(CountryCodes(s), t)
  {
    if |s| > 0 {
      var p, c := s[..|s| - 1], s[|s| - 1];
      assert InFirstOccurrenceOrder(p, t) by {
        forall i, j | 0 <= i < j < |p|
          ensures FirstIndex(t, p[i]) < FirstIndex(t, p[j])
        {
          assert p[i] == s[i] && p[j] == s[j];
        }
      }
      CountryCodesKeepOrder(p, t);
      var q := CountryCodes(p);
      if ValidCountry(c) {
        forall i | 0 <= i < |q|
          ensures FirstIndex(t, q[i]) < FirstIndex(t, c)
        {
          assert q[i] in p;
          var k :| 0 <= k < |p| && p[k] == q[i];
          assert s[k] == q[i];
        }
      }
    }
  }

  /** Country after validate: the distinct valid codes of the input (two
      bytes, or three bytes starting with "!"), in the order of their first
      occurrence; every other entry is dropped. */
  lemma ValidatedCountries(f: FilterData, today: int)
    ensures var r := Validated(f, today);
      (forall x :: x in r.dims.country <==> x in f.dims.country && ValidCountry(x)) &&
      NoDuplicates(r.dims.country) &&
      InFirstOccurrenceOrder(r.dims.country, f.dims.country)
  {
    var s := f.dims.country;
    DedupKeepsFirstOccurrenceOrder(s);
    CountryCodesKeepOrder(Dedup(s), s);
  }

  /** Every other list is de-duplicated, except AnyPath, which validate
      leaves as it is; Platform, Tags, EventMeta and the IDs are untouched. */
  lemma ValidatedLists(f: FilterData, today: int)
    ensures var r := Validated(f, today);
      (forall l :: l != Country && l != AnyPath && l != PathPattern ==>
        r.dims.List(l) == Dedup(f.dims.List(l))) &&
      r.dims.anyPath == f.dims.anyPath &&
      SameExceptLists(f.dims, r.dims)
  {
    var g := WithOptions(WithPeriod(f, today));
    var v := g.dims.pathPattern;
    assert g.dims == f.dims.(pathPattern := v);
    assert f.dims.(pathPattern := v) == f.dims.WithList(PathPattern, v);
    var r := WithLists(g);
    WithListsFrame(g);
    forall l | l != Country && l != AnyPath && l != PathPattern
      ensures r.dims.List(l) == Dedup(f.dims.List(l))
    {
      WithListsList(g, l);
    }
  }

  /** The list step de-duplicates one list other than Country and AnyPath. */
  lemma WithListsList(g: FilterData, l: ListField)
    requires l != Country && l != AnyPath
    ensures WithLists(g).dims.List(l) == Dedup(g.dims.List(l))
  {
    match l
    case Hostname =>
    case Path =>
    case EntryPath =>
    case ExitPath =>
    case PathPattern =>
    case Language =>
    case Region =>
    case City =>
    case Referrer =>
    case ReferrerName =>
    case Channel =>
    case OS =>
    case OSVersion =>
    case Browser =>
    case BrowserVersion =>
    case ScreenClass =>
    case UTMSource =>
    case UTMMedium =>
    case UTMCampaign =>
    case UTMContent =>
    case UTMTerm =>
    case Tag =>
    case EventName =>
    case EventMetaKey =>
  }

  /** The list step keeps AnyPath and every dimension that is not a list. */
  lemma WithListsFrame(g: FilterData)
    ensures WithLists(g).dims.anyPath == g.dims.anyPath
    ensures SameExceptLists(g.dims, WithLists(g).dims)
  {
  }

  // ---------------------------------------------------------------------
  // The examples of the filter tests (pkg/analyzer/filter_test.go)

  /** util.PastDay(n): the midnight `n` days before today. */
  function PastDay(today: int, n: nat): int {
    today - n * Day
  }

  lemma PastDayIsDate(today: int, n: nat)
    requires today % Day == 0
    ensures PastDay(today, n) % Day == 0
  {
    assert PastDay(today, n) == (today / Day - n) * Day;
  }

  /** Dedup seen from the end: the last string is kept when it is new. */
  lemma DedupSnoc(p: seq<string>, x: string)
    ensures Dedup(p + [x]) == if x in p then Dedup(p) else Dedup(p) + [x]
  {
    assert (p + [x])[..|p|] == p;
  }

  lemma CountryCodesSnoc(p: seq<string>, x: string)
    ensures CountryCodes(p + [x]) == CountryCodes(p) + if ValidCountry(x) then [x] else []
  {
    assert (p + [x])[..|p|] == p;
  }

  lemma DedupSingle(a: string)
    ensures Dedup([a]) == [a]
  {
    DedupSnoc([], a);
    assert [] + [a] == [a];
  }

  lemma DedupPair(a: string)
    ensures Dedup([a, a]) == [a]
  {
    DedupSingle(a);
    DedupSnoc([a], a);
    assert [a] + [a] == [a, a];
  }

  lemma DedupFirstThree(a: string, b: string)
    requires a != b
    ensures Dedup([a, a, b]) == [a, b]
  {
    DedupPair(a);
    DedupSnoc([a, a], b);
    assert [a, a] + [b] == [a, a, b];
  }

  lemma DedupFirstFive(a: string, b: string, c: string, d: string)
    requires a != b && a != c && a != d && b != c && b != d && c != d
    ensures Dedup([a, a, b, c, d]) == [a, b, c, d]
  {
    DedupFirstThree(a, b);
    DedupSnoc([a, a, b], c);
    assert [a, a, b] + [c] == [a, a, b, c];
    DedupSnoc([a, a, b, c], d);
    assert [a, a, b, c] + [d] == [a, a, b, c, d];
  }

  /** The shape of the de-duplication test: a repeated first string and a
      string repeated at the end are kept once, at their first place. */
  lemma DedupRepeats(a: string, b: string, c: string, d: string)
    requires a != b && a != c && a != d && b != c && b != d && c != d
    ensures Dedup([a, a, b, c, d, b]) == [a, b, c, d]
  {
    DedupFirstFive(a, b, c, d);
    DedupSnoc([a, a, b, c, d], b);
    assert [a, a, b, c, d] + [b] == [a, a, b, c, d, b];
  }

  /** removeDuplicates keeps the first of each string, comparing
      case-sensitively ("/foo" and "/Foo" are different). */
  lemma DedupExample()
    ensures Dedup(["/", "/", "/foo", "/Foo", "/bar", "/foo"]) == ["/", "/foo", "/Foo", "/bar"]
  {
    DedupRepeats("/", "/foo", "/Foo", "/bar");
  }

  lemma CountryExampleDistinct()
    ensures Dedup(["de", "gb", "!en", "invalid", ""]) == ["de", "gb", "!en", "invalid", ""]
  {
    var s := ["de", "gb", "!en", "invalid", ""];
    assert NoDuplicates(s) by {
      assert s[0] != s[1] && s[0] != s[2] && s[0] != s[3] && s[0] != s[4];
      assert s[1] != s[2] && s[1] != s[3] && s[1] != s[4];
      assert s[2] != s[3] && s[2] != s[4] && s[3] != s[4];
    }
    DedupOfNoDuplicates(s);
  }

  lemma CountryExampleValid()
    ensures CountryCodes(["de", "gb", "!en"]) == ["de", "gb", "!en"]
  {
    var v := ["de", "gb", "!en"];
    assert HasPrefix("!en", "!");
    assert ValidCountry(v[0]) && ValidCountry(v[1]) && ValidCountry(v[2]);
    CountryCodesOfValid(v);
  }

  lemma CountryExampleInvalid()
    ensures CountryCodes(["de", "gb", "!en", "invalid"]) == ["de", "gb", "!en"]
  {
    CountryExampleValid();
    CountryCodesSnoc(["de", "gb", "!en"], "invalid");
    assert ["de", "gb", "!en"] + ["invalid"] == ["de", "gb", "!en", "invalid"];
  }

  /** The country example: an invalid name and an empty string are dropped. */
  lemma CountryExample()
    ensures CountryCodes(Dedup(["de", "gb", "!en", "invalid", ""])) == ["de", "gb", "!en"]
  {
    CountryExampleDistinct();
    CountryExampleInvalid();
    CountryCodesSnoc(["de", "gb", "!en", "invalid"], "");
    assert ["de", "gb", "!en", "invalid"] + [""] == ["de", "gb", "!en", "invalid", ""];
  }

  /** The country check counts bytes, not characters: one character of two
      bytes passes, two such characters do not. */
  lemma CountryByteLength()
    ensures ValidCountry("\U{fc}") && !ValidCountry("\U{fc}\U{fc}") && ValidCountry("ab")
  {
  }

  /** A new filter: UTC, no period. */
  lemma ValidateNewFilterExample(today: int)
    ensures var r := Validated(NewFilterData(NullClient), today);
      r.timezone == Some("UTC") && r.from == 0 && r.to == 0
  {
    LaterStepsKeepSpan(NewFilterData(NullClient), today);
  }

  /** An inverted range is swapped and Limit kept. */
  lemma ValidateSwapExample(today: int)
    requires today % Day == 0 && today > 5 * Day
    ensures var r := Validated(NewFilterData(NullClient).(from := PastDay(today, 2), to := PastDay(today, 5), limit := 42), today);
      r.from == PastDay(today, 5) && r.to == PastDay(today, 2) && r.limit == 42
  {
    var f := NewFilterData(NullClient).(from := PastDay(today, 2), to := PastDay(today, 5), limit := 42);
    PastDayIsDate(today, 2);
    PastDayIsDate(today, 5);
    DateOfMidnight(f.from, false);
    DateOfMidnight(f.to, false);
    LaterStepsKeepSpan(f, today);
  }

  /** A To five days ahead becomes tomorrow. */
  lemma ValidateCapExample(today: int)
    requires today % Day == 0 && today > 0
    ensures var r := Validated(NewFilterData(NullClient).(from := PastDay(today, 2), to := today + 5 * Day), today);
      r.from == PastDay(today, 2) && r.to == today + Day
  {
    var f := NewFilterData(NullClient).(from := PastDay(today, 2), to := today + 5 * Day);
    PastDayIsDate(today, 2);
    DateOfMidnight(f.from, false);
    DateOfMidnight(f.to, false);
    LaterStepsKeepSpan(f, today);
  }

  /** Path wins over PathPattern, a negative Limit becomes zero, and a
      repeated pattern is kept once. */
  lemma ValidatePathExamples(today: int)
    ensures var d := NoDimensions.(path := ["/path"], pathPattern := ["pattern"]);
      var r := Validated(NewFilterData(NullClient).(limit := -42, dims := d), today);
      r.limit == 0 && r.dims.path == ["/path"] && r.dims.pathPattern == []
    ensures var d := NoDimensions.(pathPattern := ["pattern", "pattern"]);
      var r := Validated(NewFilterData(NullClient).(limit := -42, dims := d), today);
      r.limit == 0 && r.dims.path == [] && r.dims.pathPattern == ["pattern"]
  {
    var s := ["pattern", "pattern"];
    assert s[..1] == ["pattern"];
    assert ["/path"][..0] == [];
  }

  /** The imported split on the six ranges of the tests (PastDay(n) is n
      days before today). */
  lemma ValidateImportExamples(today: int)
    requires today % Day == 0 && today >= 31 * Day
    ensures var r := ValidatedSpan(Span(PastDay(today, 30), PastDay(today, 5), PastDay(today, 31), 0, 0), false, today);
      r == Span(PastDay(today, 30), PastDay(today, 5), PastDay(today, 31), 0, 0)
    ensures var r := ValidatedSpan(Span(PastDay(today, 5), PastDay(today, 30), PastDay(today, 3), 0, 0), false, today);
      r == Span(PastDay(today, 30), PastDay(today, 5), PastDay(today, 3), PastDay(today, 30), PastDay(today, 5))
    ensures var r := ValidatedSpan(Span(PastDay(today, 30), PastDay(today, 5), PastDay(today, 20), 0, 0), false, today);
      r == Span(PastDay(today, 20), PastDay(today, 5), PastDay(today, 20), PastDay(today, 30), PastDay(today, 21))
    ensures var r := ValidatedSpan(Span(PastDay(today, 1), today, today, 0, 0), false, today);
      r == Span(today, today, today, PastDay(today, 1), PastDay(today, 1))
    ensures var r := ValidatedSpan(Span(PastDay(today, 30), PastDay(today, 15), PastDay(today, 5), 0, 0), false, today);
      r == Span(PastDay(today, 30), PastDay(today, 15), PastDay(today, 5), PastDay(today, 30), PastDay(today, 15))
    ensures var r := ValidatedSpan(Span(PastDay(today, 5), PastDay(today, 5), PastDay(today, 4), 0, 0), false, today);
      r == Span(PastDay(today, 5), PastDay(today, 5), PastDay(today, 4), PastDay(today, 5), PastDay(today, 5))
  {
    PastDayIsDate(today, 30);
    PastDayIsDate(today, 15);
    PastDayIsDate(today, 5);
    PastDayIsDate(today, 1);
    DateOfMidnight(PastDay(today, 30), false);
    DateOfMidnight(PastDay(today, 15), false);
    DateOfMidnight(PastDay(today, 5), false);
    DateOfMidnight(PastDay(today, 1), false);
    DateOfMidnight(today, false);
  }

  // ---------------------------------------------------------------------
  // Empty

  /** A new filter is empty. */
  lemma NewFilterEmpty(clientID: int)
    ensures NewFilterData(clientID).Empty()
  {
  }

  /** Empty ignores the period, paging, sorting and every option. */
  lemma EmptyIgnoresOptions(f: FilterData, g: FilterData)
    requires f.dims == g.dims && f.search == g.search
    ensures f.Empty() == g.Empty()
  {
  }

  lemma DedupEmpty(s: seq<string>)
    ensures |Dedup(s)| == 0 <==> |s| == 0
  {
    if |s| > 0 {
      assert s[0] in Dedup(s);
    }
  }

  /** No dimension other than Country is filtered. */
  predicate OnlyCountry(d: Dimensions) {
    (forall l :: l != Country ==> |d.List(l)| == 0) && d.platform == "" &&
    |d.tags| == 0 && |d.eventMeta| == 0 && d.visitorID == 0 && d.sessionID == 0
  }

  /** validate leaves the lists other than Country all empty exactly when
      they were all empty. */
  lemma ValidatedOtherListsEmpty(f: FilterData, today: int)
    ensures var r := Validated(f, today);
      (forall l :: l != Country ==> |r.dims.List(l)| == 0) <==>
      (forall l :: l != Country ==> |f.dims.List(l)| == 0)
  {
    var r := Validated(f, today);
    ValidatedLists(f, today);
    ValidatedPathPattern(f, today);
    forall l | l != Country && l != AnyPath && l != PathPattern
      ensures |r.dims.List(l)| == 0 <==> |f.dims.List(l)| == 0
    {
      DedupEmpty(f.dims.List(l));
    }
    DedupEmpty(f.dims.pathPattern);
    DedupEmpty(f.dims.path);
    assert r.dims.List(Path) == r.dims.path && f.dims.List(Path) == f.dims.path;
    assert r.dims.List(PathPattern) == r.dims.pathPattern && f.dims.List(PathPattern) == f.dims.pathPattern;
    assert r.dims.List(AnyPath) == r.dims.anyPath && f.dims.List(AnyPath) == f.dims.anyPath;
  }

  /** validate leaves Country empty exactly when it holds no valid code. */
  lemma ValidatedCountryEmpty(f: FilterData, today: int)
    ensures |Validated(f, today).dims.country| == 0 <==> forall x :: x in f.dims.country ==> !ValidCountry(x)
  {
    var c := Validated(f, today).dims.country;
    ValidatedCountries(f, today);
    if |c| > 0 {
      assert c[0] in c;
    }
  }

  /** After validate a filter is empty exactly when it filtered on nothing
      but Country and searched nothing, and its Country holds no valid code:
      validate can empty a filter, but never fills one. */
  lemma ValidatedEmpty(f: FilterData, today: int)
    ensures Validated(f, today).Empty() <==>
      OnlyCountry(f.dims) && |f.search| == 0 && forall x :: x in f.dims.country ==> !ValidCountry(x)
  {
    var r := Validated(f, today);
    ValidatedOtherListsEmpty(f, today);
    ValidatedCountryEmpty(f, today);
    ValidatedLists(f, today);
    ValidatedSearch(f, today);
    assert r.dims.List(Country) == r.dims.country;
    assert (forall l :: |r.dims.List(l)| == 0) <==>
      (forall l :: l != Country ==> |r.dims.List(l)| == 0) && |r.dims.country| == 0;
  }

  /** A filter on invalid country codes only is not empty, but validate
      empties it. */
  lemma ValidateEmptiesInvalidCountry(f: FilterData, today: int)
    requires OnlyCountry(f.dims) && |f.search| == 0 && |f.dims.country| > 0
    requires forall x :: x in f.dims.country ==> !ValidCountry(x)
    ensures !f.Empty() && Validated(f, today).Empty()
  {
    assert |f.dims.List(Country)| > 0;
    ValidatedEmpty(f, today);
  }

  // ---------------------------------------------------------------------
  // Equal

  /** Two filters are equivalent for Equal when their scalar fields match,
      their string lists hold the same strings with the same
      multiplicities (they sort to the same list), Search and Sort sort to
      the same lists, and Tags and EventMeta are equal. */
  predicate Equivalent(a: FilterData, b: FilterData) {
    ScalarsEqual(a, b) &&
    (forall l :: Sorting.SortStrings(a.dims.List(l)) == Sorting.SortStrings(b.dims.List(l))) &&
    Sorting.SortByKeyDesc(a.search, SearchInput) == Sorting.SortByKeyDesc(b.search, SearchInput) &&
    Sorting.SortByKeyDesc(a.sort, SortDirection) == Sorting.SortByKeyDesc(b.sort, SortDirection) &&
    a.dims.tags == b.dims.tags && a.dims.eventMeta == b.dims.eventMeta
  }

  /** Equal compares every string list. */
  lemma EveryListCompared(l: ListField)
    ensures l in EqualOrder
  {
  }

  lemma SortTwice(s: seq<string>)
    ensures Sorting.SortStrings(Sorting.SortStrings(s)) == Sorting.SortStrings(s)
  {
    Sorting.SortStringsOfSorted(Sorting.SortStrings(s));
  }

  /** Sorting a list changes how no list sorts. */
  lemma SortListKeepsSorts(a: Dimensions, l0: ListField)
    ensures forall m :: Sorting.SortStrings(SortList(a, l0).List(m)) == Sorting.SortStrings(a.List(m))
  {
    forall m
      ensures Sorting.SortStrings(SortList(a, l0).List(m)) == Sorting.SortStrings(a.List(m))
    {
      SortTwice(a.List(m));
    }
  }

  /** The verdict of sorting and comparing the lists of `order`: whether
      each list of `order` sorts the same in both filters. */
  lemma {:induction false} CompareListsVerdict(a: Dimensions, b: Dimensions, order: seq<ListField>)
    ensures CompareLists(a, b, order).equal <==> forall i :: 0 <= i < |order| ==>
      Sorting.SortStrings(a.List(order[i])) == Sorting.SortStrings(b.List(order[i]))
    decreases |order|
  {
    if |order| > 0 {
      var l0 := order[0];
      var a', b' := SortList(a, l0), SortList(b, l0);
      CompareListsVerdict(a', b', order[1..]);
      SortListKeepsSorts(a, l0);
      SortListKeepsSorts(b, l0);
      forall i | 1 <= i < |order|
        ensures order[i] == order[1..][i - 1]
      {
      }
    }
  }

  /** Sorting and comparing changes only lists. */
  lemma {:induction false} CompareListsFrame(a: Dimensions, b: Dimensions, order: seq<ListField>)
    ensures SameExceptLists(a, CompareLists(a, b, order).left)
    ensures SameExceptLists(b, CompareLists(a, b, order).right)
    decreases |order|
  {
    if |order| > 0 {
      CompareListsFrame(SortList(a, order[0]), SortList(b, order[0]), order[1..]);
    }
  }

  /** A comparison that finds no difference leaves every list of `order`
      sorted on both sides. */
  lemma {:induction false} CompareListsSorted(a: Dimensions, b: Dimensions, order: seq<ListField>)
    requires CompareLists(a, b, order).equal
    ensures forall m ::
      CompareLists(a, b, order).left.List(m) == if m in order then Sorting.SortStrings(a.List(m)) else a.List(m)
    ensures forall m ::
      CompareLists(a, b, order).right.List(m) == if m in order then Sorting.SortStrings(b.List(m)) else b.List(m)
    decreases |order|
  {
    if |order| > 0 {
      var l0 := order[0];
      var a', b' := SortList(a, l0), SortList(b, l0);
      CompareListsSorted(a', b', order[1..]);
      var c := CompareLists(a', b', order[1..]);
      forall m
        ensures c.left.List(m) == if m in order then Sorting.SortStrings(a.List(m)) else a.List(m)
        ensures c.right.List(m) == if m in order then Sorting.SortStrings(b.List(m)) else b.List(m)
      {
        assert m in order <==> m == l0 || m in order[1..];
        SortTwice(a.List(m));
        SortTwice(b.List(m));
      }
    }
  }

  /** How many lists of `order` CompareLists sorts: all of them when it
      finds no difference, otherwise those up to and including the first
      list that differs. */
  function ListsCompared(a: Dimensions, b: Dimensions, order: seq<ListField>): (n: nat)
    ensures n <= |order|
    ensures |order| > 0 ==> n > 0
    decreases |order|
  {
    if |order| == 0 then 0
    else
      var a', b' := SortList(a, order[0]), SortList(b, order[0]);
      if a'.List(order[0]) != b'.List(order[0]) then 1 else 1 + ListsCompared(a', b', order[1..])
  }

  /** The lists of `order` sorted one after the other. */
  function SortEach(d: Dimensions, order: seq<ListField>): Dimensions
    decreases |order|
  {
    if |order| == 0 then d else SortEach(SortList(d, order[0]), order[1..])
  }

  /** Sorting the lists of `order` sorts exactly those lists. */
  lemma {:induction false} SortEachLists(d: Dimensions, order: seq<ListField>)
    ensures forall m :: SortEach(d, order).List(m) == if m in order then Sorting.SortStrings(d.List(m)) else d.List(m)
    decreases |order|
  {
    if |order| > 0 {
      var l0 := order[0];
      SortEachLists(SortList(d, l0), order[1..]);
      forall m
        ensures SortEach(d, order).List(m) == if m in order then Sorting.SortStrings(d.List(m)) else d.List(m)
      {
        assert m in order <==> m == l0 || m in order[1..];
        SortTwice(d.List(m));
      }
    }
  }

  /** Whatever its verdict, the list stage leaves both sides with the
      first ListsCompared lists of `order` sorted and nothing else
      changed. */
  lemma {:induction false} CompareListsLeaves(a: Dimensions, b: Dimensions, order: seq<ListField>)
    ensures var c, n := CompareLists(a, b, order), ListsCompared(a, b, order);
      c.left == SortEach(a, order[..n]) && c.right == SortEach(b, order[..n])
    decreases |order|
  {
    if |order| > 0 {
      var l0 := order[0];
      var a', b' := SortList(a, l0), SortList(b, l0);
      if a'.List(l0) == b'.List(l0) {
        CompareListsLeaves(a', b', order[1..]);
        var n' := ListsCompared(a', b', order[1..]);
        assert order[..n' + 1][0] == l0 && order[..n' + 1][1..] == order[1..][..n'];
      } else {
        CompareListsLeavesFirst(a, b, order);
      }
    }
  }

  /** The step of CompareListsLeaves when the first list differs. */
  lemma CompareListsLeavesFirst(a: Dimensions, b: Dimensions, order: seq<ListField>)
    requires |order| > 0 && SortList(a, order[0]).List(order[0]) != SortList(b, order[0]).List(order[0])
    ensures var c, n := CompareLists(a, b, order), ListsCompared(a, b, order);
      c.left == SortEach(a, order[..n]) && c.right == SortEach(b, order[..n])
  {
    assert order[..1][0] == order[0] && order[..1][1..] == [];
  }

  /** A list stage that finds no difference sorts every list of `order`. */
  lemma {:induction false} CompareListsEqualCount(a: Dimensions, b: Dimensions, order: seq<ListField>)
    ensures CompareLists(a, b, order).equal ==> ListsCompared(a, b, order) == |order|
    decreases |order|
  {
    if |order| > 0 {
      CompareListsEqualCount(SortList(a, order[0]), SortList(b, order[0]), order[1..]);
    }
  }

  /** Every list the list stage sorts before the last one sorts the same on
      both sides. */
  lemma {:induction false} CompareListsSameBefore(a: Dimensions, b: Dimensions, order: seq<ListField>)
    ensures var n := ListsCompared(a, b, order);
      forall i :: 0 <= i < n - 1 ==> Sorting.SortStrings(a.List(order[i])) == Sorting.SortStrings(b.List(order[i]))
    decreases |order|
  {
    if |order| > 0 {
      var l0 := order[0];
      var a', b' := SortList(a, l0), SortList(b, l0);
      if a'.List(l0) == b'.List(l0) {
        CompareListsSameBefore(a', b', order[1..]);
        var n' := ListsCompared(a', b', order[1..]);
        SortListKeepsSorts(a, l0);
        SortListKeepsSorts(b, l0);
        forall i | 1 <= i < n'
          ensures order[i] == order[1..][i - 1]
        {
        }
      }
    }
  }

  /** When the list stage finds a difference, the last list it sorts is a
      list that sorts differently on the two sides. */
  lemma {:induction false} CompareListsFirstDifference(a: Dimensions, b: Dimensions, order: seq<ListField>)
    ensures var n := ListsCompared(a, b, order);
      !CompareLists(a, b, order).equal ==>
        0 < n && Sorting.SortStrings(a.List(order[n - 1])) != Sorting.SortStrings(b.List(order[n - 1]))
    decreases |order|
  {
    if |order| > 0 {
      var l0 := order[0];
      var a', b' := SortList(a, l0), SortList(b, l0);
      if a'.List(l0) == b'.List(l0) && !CompareLists(a', b', order[1..]).equal {
        CompareListsFirstDifference(a', b', order[1..]);
        var n' := ListsCompared(a', b', order[1..]);
        assert order[n'] == order[1..][n' - 1];
        SortListKeepsSorts(a, l0);
        SortListKeepsSorts(b, l0);
      }
    }
  }

  /** The verdict of the list stage and where it stops: every list before
      the last one sorted sorts the same on both sides, and when the
      verdict is false the last one sorted is the first list that
      differs. */
  lemma CompareListsStopVerdict(a: Dimensions, b: Dimensions, order: seq<ListField>)
    ensures var c, n := CompareLists(a, b, order), ListsCompared(a, b, order);
      (c.equal ==> n == |order|) &&
      (!c.equal ==> 0 < n && Sorting.SortStrings(a.List(order[n - 1])) != Sorting.SortStrings(b.List(order[n - 1]))) &&
      (forall i :: 0 <= i < n - 1 ==> Sorting.SortStrings(a.List(order[i])) == Sorting.SortStrings(b.List(order[i])))
  {
    CompareListsEqualCount(a, b, order);
    CompareListsSameBefore(a, b, order);
    CompareListsFirstDifference(a, b, order);
  }

  /** What the list stage leaves behind whatever its verdict: the first
      ListsCompared lists of `order` are sorted on both sides and every
      other list is as it was. */
  lemma CompareListsStops(a: Dimensions, b: Dimensions, order: seq<ListField>)
    ensures var c, n := CompareLists(a, b, order), ListsCompared(a, b, order);
      forall m :: c.left.List(m) == if m in order[..n] then Sorting.SortStrings(a.List(m)) else a.List(m)
    ensures var c, n := CompareLists(a, b, order), ListsCompared(a, b, order);
      forall m :: c.right.List(m) == if m in order[..n] then Sorting.SortStrings(b.List(m)) else b.List(m)
  {
    var n := ListsCompared(a, b, order);
    CompareListsLeaves(a, b, order);
    SortEachLists(a, order[..n]);
    SortEachLists(b, order[..n]);
  }

  /** The stages of Equal one after the other: its verdict is the
      conjunction of the verdicts of the stages, each stage looking at
      fields the earlier stages did not change. */
  lemma CompareFiltersVerdict(a: FilterData, b: FilterData)
    ensures CompareFilters(a, b).equal <==>
      ScalarsEqual(a, b) && CompareLists(a.dims, b.dims, EqualOrder).equal &&
      Sorting.SortByKeyDesc(a.search, SearchInput) == Sorting.SortByKeyDesc(b.search, SearchInput) &&
      Sorting.SortByKeyDesc(a.sort, SortDirection) == Sorting.SortByKeyDesc(b.sort, SortDirection) &&
      a.dims.tags == b.dims.tags && a.dims.eventMeta == b.dims.eventMeta
  {
    var c1 := CompareLists(a.dims, b.dims, EqualOrder);
    CompareListsFrame(a.dims, b.dims, EqualOrder);
    assert c1.left.tags == a.dims.tags && c1.left.eventMeta == a.dims.eventMeta;
    assert c1.right.tags == b.dims.tags && c1.right.eventMeta == b.dims.eventMeta;
  }

  /** The list stage of Equal finds no difference exactly when every
      list sorts the same in both filters. */
  lemma EveryListVerdict(a: Dimensions, b: Dimensions)
    ensures CompareLists(a, b, EqualOrder).equal <==>
      forall l :: Sorting.SortStrings(a.List(l)) == Sorting.SortStrings(b.List(l))
  {
    CompareListsVerdict(a, b, EqualOrder);
    if CompareLists(a, b, EqualOrder).equal {
      forall l
        ensures Sorting.SortStrings(a.List(l)) == Sorting.SortStrings(b.List(l))
      {
        EveryListCompared(l);
        var i :| 0 <= i < |EqualOrder| && EqualOrder[i] == l;
      }
    }
  }

  /** Equal with unequal scalar fields changes nothing. */
  lemma EqualScalarsDiffer(a: FilterData, b: FilterData)
    requires !ScalarsEqual(a, b)
    ensures CompareFilters(a, b).left == a && CompareFilters(a, b).right == b
  {
  }

  /** After the scalar fields, the dims of both filters are what the list
      stage leaves behind, whatever the verdict. */
  lemma EqualDims(a: FilterData, b: FilterData)
    requires ScalarsEqual(a, b)
    ensures CompareFilters(a, b).left.dims == CompareLists(a.dims, b.dims, EqualOrder).left
    ensures CompareFilters(a, b).right.dims == CompareLists(a.dims, b.dims, EqualOrder).right
  {
    var c1 := CompareLists(a.dims, b.dims, EqualOrder);
    var a1, b1 := a.(dims := c1.left), b.(dims := c1.right);
    var c2 := CompareSearches(a1, b1);
    assert c2.left.dims == c1.left && c2.right.dims == c1.right;
    var c3 := CompareSorts(c2.left, c2.right);
    assert c3.left.dims == c1.left && c3.right.dims == c1.right;
  }

  /** When a string list differs, Equal leaves Search and Sort as they
      were. */
  lemma EqualListsDiffer(a: FilterData, b: FilterData)
    requires ScalarsEqual(a, b) && !CompareLists(a.dims, b.dims, EqualOrder).equal
    ensures var c := CompareFilters(a, b);
      c.left == a.(dims := c.left.dims) && c.right == b.(dims := c.right.dims)
  {
  }

  /** What Equal leaves behind whatever its verdict, once the scalar
      fields match: the string lists of EqualOrder are sorted on both sides
      up to and including the first one that differs, and the later ones
      are as they were. */
  lemma EqualLeavesBehind(a: FilterData, b: FilterData)
    requires ScalarsEqual(a, b)
    ensures var c, n := CompareFilters(a, b), ListsCompared(a.dims, b.dims, EqualOrder);
      (forall m :: c.left.dims.List(m) ==
         if m in EqualOrder[..n] then Sorting.SortStrings(a.dims.List(m)) else a.dims.List(m)) &&
      (forall m :: c.right.dims.List(m) ==
         if m in EqualOrder[..n] then Sorting.SortStrings(b.dims.List(m)) else b.dims.List(m))
  {
    EqualDims(a, b);
    CompareListsStops(a.dims, b.dims, EqualOrder);
  }

  /** Equal on the values: it returns true exactly for equivalent filters. */
  lemma EqualIffEquivalent(a: FilterData, b: FilterData)
    ensures CompareFilters(a, b).equal <==> Equivalent(a, b)
  {
    CompareFiltersVerdict(a, b);
    EveryListVerdict(a.dims, b.dims);
  }

  /** Equal leaves its work behind: when it returns true, every string
      list, Search and Sort of both filters is sorted, and nothing else
      has changed. */
  lemma EqualSortsBoth(a: FilterData, b: FilterData)
    requires CompareFilters(a, b).equal
    ensures var c := CompareFilters(a, b);
      (forall l :: c.left.dims.List(l) == Sorting.SortStrings(a.dims.List(l)) &&
                   c.right.dims.List(l) == Sorting.SortStrings(b.dims.List(l))) &&
      SameExceptLists(a.dims, c.left.dims) && SameExceptLists(b.dims, c.right.dims) &&
      c.left.search == Sorting.SortByKeyDesc(a.search, SearchInput) &&
      c.right.search == Sorting.SortByKeyDesc(b.search, SearchInput) &&
      c.left.sort == Sorting.SortByKeyDesc(a.sort, SortDirection) &&
      c.right.sort == Sorting.SortByKeyDesc(b.sort, SortDirection) &&
      c.left == a.(dims := c.left.dims, search := c.left.search, sort := c.left.sort) &&
      c.right == b.(dims := c.right.dims, search := c.right.search, sort := c.right.sort)
  {
    EqualResult(a, b);
    EveryListSorted(a.dims, b.dims);
  }

  /** When Equal returns true, each filter has gone through all three
      sorting stages. */
  lemma EqualResult(a: FilterData, b: FilterData)
    requires CompareFilters(a, b).equal
    ensures var c1 := CompareLists(a.dims, b.dims, EqualOrder);
      CompareFilters(a, b).left == a.(dims := c1.left,
        search := Sorting.SortByKeyDesc(a.search, SearchInput),
        sort := Sorting.SortByKeyDesc(a.sort, SortDirection)) &&
      CompareFilters(a, b).right == b.(dims := c1.right,
        search := Sorting.SortByKeyDesc(b.search, SearchInput),
        sort := Sorting.SortByKeyDesc(b.sort, SortDirection))
  {
  }

  /** A list stage that finds no difference has sorted every string list
      of both filters and changed nothing else. */
  lemma EveryListSorted(a: Dimensions, b: Dimensions)
    requires CompareLists(a, b, EqualOrder).equal
    ensures var c := CompareLists(a, b, EqualOrder);
      (forall l :: c.left.List(l) == Sorting.SortStrings(a.List(l)) &&
                   c.right.List(l) == Sorting.SortStrings(b.List(l))) &&
      SameExceptLists(a, c.left) && SameExceptLists(b, c.right)
  {
    CompareListsSorted(a, b, EqualOrder);
    CompareListsFrame(a, b, EqualOrder);
    var c := CompareLists(a, b, EqualOrder);
    forall l
      ensures c.left.List(l) == Sorting.SortStrings(a.List(l))
      ensures c.right.List(l) == Sorting.SortStrings(b.List(l))
    {
      EveryListCompared(l);
    }
  }

  /** Filters whose scalar fields match and whose string lists are
      permutations of each other are Equal (given equal Search, Sort, Tags
      and EventMeta). */
  lemma EqualOfPermutations(a: FilterData, b: FilterData)
    requires ScalarsEqual(a, b)
    requires forall l :: multiset(a.dims.List(l)) == multiset(b.dims.List(l))
    requires a.search == b.search && a.sort == b.sort
    requires a.dims.tags == b.dims.tags && a.dims.eventMeta == b.dims.eventMeta
    ensures CompareFilters(a, b).equal
  {
    forall l ensures Sorting.SortStrings(a.dims.List(l)) == Sorting.SortStrings(b.dims.List(l)) {
      Sorting.SortStringsPermutation(a.dims.List(l), b.dims.List(l));
    }
    EqualIffEquivalent(a, b);
  }

  /** Equal does not look at WeekdayMode, the funnel step or the imported
      part of the range. */
  lemma EqualIgnoresWeekdayMode(a: FilterData, b: FilterData, w: int, step: int, from: int, to: int)
    ensures CompareFilters(a.(weekdayMode := w, funnelStep := step, importedFrom := from, importedTo := to), b).equal ==
            CompareFilters(a, b).equal
  {
    EqualIffEquivalent(a, b);
    EqualIffEquivalent(a.(weekdayMode := w, funnelStep := step, importedFrom := from, importedTo := to), b);
  }

  /** Sort entries are ordered by Direction only (stably), so two Sort
      lists in different order with equal directions are not Equal. */
  lemma EqualSortOrderMatters(a: FilterData, s1: Sort, s2: Sort)
    requires s1 != s2 && s1.direction == s2.direction
    ensures !CompareFilters(a.(sort := [s1, s2]), a.(sort := [s2, s1])).equal
  {
    SortPairKept(s1, s2);
    SortPairKept(s2, s1);
    assert [s1, s2][0] != [s2, s1][0];
    CompareFiltersVerdict(a.(sort := [s1, s2]), a.(sort := [s2, s1]));
  }

  /** Two Sort entries with the same direction keep their order. */
  lemma SortPairKept(s1: Sort, s2: Sort)
    requires s1.direction == s2.direction
    ensures Sorting.SortByKeyDesc([s1, s2], SortDirection) == [s1, s2]
  {
    Sorting.LessIrreflexive(s1.direction);
    assert [s1, s2][..1] == [s1];
  }
}
