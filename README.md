# pirsch analyzer core in Dafny

This project models the core of the pirsch analyzer (`pkg/analyzer`). The
analyzer turns a statistics request into a query plan for the ClickHouse
store. The model covers four parts:

- **The filter.** `Filter` is a class whose single field holds the Go
  struct value (`FilterData`). The model covers:
  - `NewFilter`;
  - `Empty`;
  - `Equal`, which sorts both filters' lists in place and then compares them;
  - `validate`: the time zone default, date truncation, ordering of the
    range, splitting off the imported statistics range, capping at
    tomorrow, path versus path pattern, trimming search inputs, the
    offset/limit/custom-metric/weekday defaults, the country code check
    and de-duplication of every list;
  - `removeDuplicates` and `toDate`.
- **Query planning** (`buildQuery`'s plan, lines 670-721 of
  `pkg/analyzer/filter.go`). The model covers:
  - `table`;
  - the builders `joinSessions`, `joinPageViews`, `joinOrLeftJoinEvents`,
    `joinEvents`, `leftJoinEvents` and `joinUniqueVisitorsByPeriod`;
  - the helpers `excludeFields`, `fieldsContain`, `valuesContainPrefix`
    and `searchContains`.

  The plan is a `QueryBuilder` value: the source table, the selected
  fields, the filter each sub-query applies, its settings and its joins.
  The SQL text is not produced.
- **The analyzer's entry points** (`pkg/analyzer/analyzer.go`):
  - `getFilter`, which validates the caller's filter in place and returns
    a copy;
  - `timeOnPageQuery`, the capped duration expression;
  - `selectByAttribute`.
- **Visitor statistics** (`pkg/analyzer/visitors.go`):
  - `calculateGrowth`;
  - `getPreviousPeriod`;
  - `Growth` and `TotalVisitorsPageViews`, including their guard that
    rejects a filter without a period or day;
  - the source `Growth` uses to compute time spent;
  - the field lists that `Referrer` and `Active` hand to `buildQuery`.

A statistic does not run SQL in the model. It builds a `QueryRequest`,
which holds the arguments it passes to `buildQuery`. The plan is
`Analyzer.PlanOf(request)`. The store is a function parameter that maps a
request to a result or an error message. The same holds for the
time-spent queries: `spent` maps a `TimeSpentSource` and a filter to a
number of seconds.

Times are integer seconds with 0 as Go's zero time. A date is a multiple
of `Times.Day`. `util.Today()` and `time.Now()` become the parameters
`today` and `now`. Growth rates and the statistics they are computed from
are `real`s.

The model follows the code literally where that may be surprising:

- `AnyPath` is not de-duplicated by `validate`.
- With imported statistics and a referrer filter or search, `Referrer`
  groups and orders by `ReferrerName`, but the selected fields hold the
  imported referrer name column instead of `ReferrerName`.
- The period sub-query of `joinUniqueVisitorsByPeriod` selects
  `[day|hour|minute, visitors_raw]`. It does not start with visitor ID
  and session ID as the other join builders' sub-queries do.

The model also records some behaviour of the code that is easy to miss:

- `validate` is not idempotent when `From > To` lies beyond tomorrow. The
  swap happens before the cap, so the first run can leave `From > To`;
  this is `FilterProperties.ValidateCapAfterSwap`.
- `validate` is also not idempotent when `ImportedUntil` lies after
  tomorrow. The split sets `From` to `ImportedUntil` and the cap then
  moves `To` back to tomorrow, so `From > To` and a second run swaps them.
- `validate` is also not idempotent when `ImportedUntil` is not a
  midnight and `IncludeTime` is false. The split sets `From` to
  `ImportedUntil` without truncating it, and a second run truncates it.
  `FilterProperties.ValidateIdempotent` rules out all three cases by
  requiring From and ImportedUntil not after tomorrow, and ImportedUntil
  a midnight unless IncludeTime is set.
- `Equal` does not compare `WeekdayMode`, `FunnelStep` or the imported
  sub-range.
- `Equal` compares `Tag` twice.
- `Equal` treats `Sort` entries with equal directions as different when
  their order differs.

## Model

| member | source | states |
|---|---|---|
| Filters.NewFilter | pkg/analyzer/filter.go:213-217 | a fresh filter for the client whose every other field is zero |
| FilterProperties.NewFilterEmpty | pkg/analyzer/filter.go:213-253 | a new filter filters nothing |
| FilterProperties.EmptyIgnoresOptions | pkg/analyzer/filter.go:220-253 | Empty depends only on the dimension lists, the maps and the search entries |
| FilterProperties.ValidatedEmpty | pkg/analyzer/filter.go:220-253 | a validated filter is empty exactly when only countries were set, none of them valid, and there is no search |
| FilterProperties.ValidateEmptiesInvalidCountry | pkg/analyzer/filter.go:610-619 | a filter that names only invalid countries is not empty, but becomes empty once validated |
| Filters.Filter.constructor | pkg/analyzer/filter.go:213-217 | the object holds the given struct value |
| Filters.Filter.RemoveDuplicates | pkg/analyzer/filter.go:648-664 | the result is the input without repeats, computed by the map-guarded loop |
| Filters.Dedup | pkg/analyzer/filter.go:648-664 | same elements as the input, no duplicates, no longer than the input |
| Filters.DedupKeepsFirstOccurrenceOrder | pkg/analyzer/filter.go:656-661 | the kept elements appear in the order of their first occurrence |
| Filters.DedupOfNoDuplicates | pkg/analyzer/filter.go:648-664 | a list without repeats is returned unchanged |
| Filters.DedupIdempotent | pkg/analyzer/filter.go:648-664 | removing duplicates twice is the same as once |
| FilterProperties.DedupEmpty | pkg/analyzer/filter.go:649-651 | the result is empty exactly when the input is |
| FilterProperties.DedupSnoc | pkg/analyzer/filter.go:656-661 | one more element is appended exactly when it has not been seen |
| FilterProperties.DedupExample | pkg/analyzer/filter_test.go:113-129 | the repeated-path example keeps "/", "/foo", "/Foo", "/bar" in that order |
| Filters.FirstIndex | pkg/analyzer/filter.go:656-661 | the position of the first occurrence of an element |
| Times.ToDate | pkg/analyzer/filter.go:666-668 | a midnight at most one day before the time |
| Times.ToDateOfMidnight | pkg/analyzer/filter.go:666-668 | a midnight is its own date |
| Times.ToDateIdempotent | pkg/analyzer/filter.go:666-668 | truncating twice is truncating once |
| Times.ToDateMonotonic | pkg/analyzer/filter.go:666-668 | truncation keeps the order of times |
| Filters.Dimensions.Empty | pkg/analyzer/filter.go:221-251 | no string list, map, platform, visitor ID or session ID is set |
| Filters.FilterData.Empty | pkg/analyzer/filter.go:220-253 | no dimension is set and there is no search; range, paging, sort and options do not count (see EmptyIgnoresOptions) |
| Filters.Validated | pkg/analyzer/filter.go:535-646 | validate's effect on the value: the time steps, then the options, then the lists; its properties are the FilterProperties lemmas below |
| Filters.WithPeriod | pkg/analyzer/filter.go:537-582 | the time zone default and the time steps (see LaterStepsKeepSpan) |
| Filters.WithOptions | pkg/analyzer/filter.go:584-608 | path over path pattern, trimmed searches and the option defaults (see ValidatedOptions, WithOptionsIdempotent) |
| Filters.WithLists | pkg/analyzer/filter.go:610-645 | the country check and de-duplication of every list but AnyPath (see WithListsList, WithListsFrame) |
| Filters.ValidatedSpan | pkg/analyzer/filter.go:544-582 | the four time steps in the source's order (see ValidatedSpanCapped, ValidatedSpanFixed) |
| Filters.SpanDates | pkg/analyzer/filter.go:544-558 | From and To as dates (see SpanDatesMidnights) |
| Filters.SpanOrdered | pkg/analyzer/filter.go:560-562 | an inverted range swapped (see SpanOrderedOrders) |
| Filters.SpanSplit | pkg/analyzer/filter.go:564-575 | the split at ImportedUntil (see SplitCases) |
| Filters.SpanCapped | pkg/analyzer/filter.go:577-582 | To capped at tomorrow (see SpanCappedCaps) |
| Filters.Filter.Validate | pkg/analyzer/filter.go:535-646 | the new value is the validated old value, phase by phase |
| Filters.Filter.NormalizeDates | pkg/analyzer/filter.go:540-558 | default time zone UTC; a non-zero From and To truncated to dates unless IncludeTime |
| Filters.Filter.OrderRange | pkg/analyzer/filter.go:560-562 | From and To swapped when To is set and From is later |
| Filters.Filter.SplitImported | pkg/analyzer/filter.go:564-575 | the range before ImportedUntil moves to the imported sub-range |
| Filters.Filter.CapTo | pkg/analyzer/filter.go:577-582 | a To later than tomorrow becomes tomorrow |
| Filters.Filter.NormalizeOptions | pkg/analyzer/filter.go:584-608 | path pattern dropped when a path is set; offset, limit, custom metric type and weekday mode given their defaults |
| Filters.Filter.TrimSearchInputs | pkg/analyzer/filter.go:588-590 | every search input trimmed, with its field kept |
| Filters.TrimSearches | pkg/analyzer/filter.go:588-590 | same length; each entry keeps its field and has its input trimmed |
| Filters.Filter.FilterCountries | pkg/analyzer/filter.go:611-619 | the loop keeps exactly the valid country codes |
| Filters.CountryCodes | pkg/analyzer/filter.go:613-619 | keeps exactly the valid codes (2 bytes, or 3 bytes starting with "!"), and a list without repeats stays without repeats |
| Filters.CountryCodesOfValid | pkg/analyzer/filter.go:613-619 | a list of valid codes is kept whole |
| FilterProperties.CountryCodesKeepOrder | pkg/analyzer/filter.go:613-619 | the kept codes stay in first-occurrence order |
| FilterProperties.CountryCodesSnoc | pkg/analyzer/filter.go:616-617 | one more code is appended exactly when it is valid |
| FilterProperties.CountryByteLength | pkg/analyzer/filter.go:614-616 | the length check counts UTF-8 bytes, so one two-byte letter passes |
| Filters.Filter.DeduplicateLists | pkg/analyzer/filter.go:610-645 | countries de-duplicated and checked, every other list except AnyPath de-duplicated |
| FilterProperties.LaterStepsKeepSpan | pkg/analyzer/filter.go:535-646 | only the date steps change the range; a time zone is set; IncludeTime is kept |
| FilterProperties.ValidatedRangeOrdered | pkg/analyzer/filter.go:544-582 | when From and ImportedUntil are at most tomorrow, To is at most tomorrow and From is not after a set To |
| FilterProperties.SpanOrderedWithinTomorrow | pkg/analyzer/filter.go:544-582 | the same ordering and cap stated on the date fields alone |
| FilterProperties.ValidateCapAfterSwap | pkg/analyzer/filter.go:560-582 | a range beyond tomorrow given in reverse is swapped before the cap and ends with From after To; a second validation changes it again |
| FilterProperties.SpanDatesMidnights | pkg/analyzer/filter.go:544-558 | the date step moves only From and To, to midnights unless IncludeTime keeps them |
| FilterProperties.SpanOrderedOrders | pkg/analyzer/filter.go:560-562 | after the ordering step From is not after a set To, From and To are kept or swapped, and nothing else changes |
| FilterProperties.SpanCappedCaps | pkg/analyzer/filter.go:577-582 | after the cap a set To is at most tomorrow, only To changes, and a To not after tomorrow is kept |
| FilterProperties.ValidatedSpanCapped | pkg/analyzer/filter.go:544-582 | the validated range ends tomorrow at the latest and keeps ImportedUntil |
| FilterProperties.SplitCases | pkg/analyzer/filter.go:564-575 | the three cases of the imported split: none, all imported, and the split at ImportedUntil |
| FilterProperties.ValidatedSpanOfFixed | pkg/analyzer/filter.go:544-582 | a range that is already dated, ordered, split and capped is unchanged |
| FilterProperties.ValidatedSpanFixed | pkg/analyzer/filter.go:544-582 | a validated range is such a fixed range |
| FilterProperties.DateOfMidnight | pkg/analyzer/filter.go:544-558 | a midnight, or any time with IncludeTime, is kept |
| FilterProperties.DateOfIdempotent | pkg/analyzer/filter.go:544-558 | the date step is idempotent |
| FilterProperties.TrimSearchesIdempotent | pkg/analyzer/filter.go:588-590 | trimming the search inputs twice is trimming once |
| FilterProperties.WithOptionsIdempotent | pkg/analyzer/filter.go:584-608 | the option defaults are idempotent |
| FilterProperties.CountryStepIdempotent | pkg/analyzer/filter.go:610-619 | the country step is idempotent |
| FilterProperties.WithListsIdempotent | pkg/analyzer/filter.go:610-645 | the list step is idempotent |
| FilterProperties.OptionsListsCommute | pkg/analyzer/filter.go:584-645 | the option defaults and the list step commute |
| FilterProperties.ValidateIdempotent | pkg/analyzer/filter.go:535-646 | validate is idempotent when From and ImportedUntil are at most tomorrow and ImportedUntil is a date (or IncludeTime) |
| FilterProperties.ValidatedOptions | pkg/analyzer/filter.go:592-608 | a negative offset or limit becomes 0 and a non-negative one is kept; an invalid custom metric type becomes "" and an invalid weekday mode becomes Monday, valid ones are kept; the other options kept |
| FilterProperties.ValidatedSearch | pkg/analyzer/filter.go:588-590 | each search entry keeps its field, and its input is trimmed |
| FilterProperties.ValidatedPathPattern | pkg/analyzer/filter.go:584-586 | a set path drops the path pattern; otherwise the pattern is de-duplicated |
| FilterProperties.ValidatedCountries | pkg/analyzer/filter.go:610-627 | exactly the valid input countries, without repeats, in first-occurrence order |
| FilterProperties.ValidatedLists | pkg/analyzer/filter.go:621-645 | every other list is de-duplicated, AnyPath and the maps kept |
| FilterProperties.WithListsList | pkg/analyzer/filter.go:621-645 | the list step de-duplicates each list other than Country and AnyPath |
| FilterProperties.WithListsFrame | pkg/analyzer/filter.go:621-645 | the list step keeps AnyPath, Platform, Tags, EventMeta and the IDs |
| FilterProperties.ValidatedOtherListsEmpty | pkg/analyzer/filter.go:621-645 | the non-country lists are all empty afterwards exactly when they were before |
| FilterProperties.ValidatedCountryEmpty | pkg/analyzer/filter.go:610-627 | no country is left exactly when none was valid |
| FilterProperties.ValidateNewFilterExample | pkg/analyzer/filter_test.go:14-20 | a new filter gets time zone UTC and a zero range |
| FilterProperties.ValidateSwapExample | pkg/analyzer/filter_test.go:21-25 | a reversed range is swapped and the limit kept |
| FilterProperties.ValidateCapExample | pkg/analyzer/filter_test.go:26-29 | a To five days ahead is capped at tomorrow |
| FilterProperties.ValidatePathExamples | pkg/analyzer/filter_test.go:30-40 | a negative limit becomes 0; a path drops the pattern; a repeated pattern is kept once |
| FilterProperties.ValidateImportExamples | pkg/analyzer/filter_test.go:47-110 | the imported-range split on the test's ranges |
| FilterProperties.CountryExample | pkg/analyzer/filter_test.go:41-46 | of "de", "gb", "!en", "invalid", "" the first three are kept |
| FilterProperties.CountryExampleInvalid | pkg/analyzer/filter_test.go:41-46 | "invalid" is dropped |
| Text.TrimSpace | pkg/analyzer/filter.go:588-590 | the result has no leading or trailing white space and is no longer than the input |
| Text.TrimSpacePadding | pkg/analyzer/filter.go:588-590 | padding a trimmed string with white space and trimming returns it |
| Text.TrimSpaceIdempotent | pkg/analyzer/filter.go:588-590 | trimming twice is trimming once |
| Text.ByteLen | pkg/analyzer/filter.go:613-616 | the UTF-8 byte length is between one and four bytes per character, and equals the character count exactly for ASCII text |
| Sorting.SortStrings | pkg/analyzer/filter.go:281-470 | slices.Sort: a sorted permutation of the list |
| Sorting.SortedUnique | pkg/analyzer/filter.go:281-470 | two sorted permutations of one list are equal |
| Sorting.SortStringsPermutation | pkg/analyzer/filter.go:281-470 | permutations of one list sort to the same list |
| Sorting.SortStringsOfSorted | pkg/analyzer/filter.go:281-470 | a sorted list is kept |
| Sorting.SortByKeyDesc | pkg/analyzer/filter.go:472-522 | slices.SortFunc by descending key: a permutation sorted by that key |
| Filters.ScalarsEqual | pkg/analyzer/filter.go:257-279 | the simple comparison of Equal: client, time zone name, range, period, paging, custom metric, Include flags, time-on-page cap, sample and the single-valued dimensions |
| Filters.CompareLists | pkg/analyzer/filter.go:281-470 | the list stage: sort each list of the order on both sides, stop at the first that differs (see CompareListsVerdict, CompareListsStops) |
| Filters.CompareFilters | pkg/analyzer/filter.go:256-533 | Equal's verdict and the two values it leaves, stage after stage (see CompareFiltersVerdict, EqualIffEquivalent, EqualLeavesBehind) |
| Filters.Filter.Equal | pkg/analyzer/filter.go:256-533 | the verdict and the sorted lists left in both filters are those of the comparison |
| Filters.Filter.SortAndCompareLists | pkg/analyzer/filter.go:281-470 | each list of both filters sorted in place, verdict is list equality |
| Filters.Filter.SortLists | pkg/analyzer/filter.go:281-470 | the loop that sorts and compares the lists one by one computes the list comparison |
| Filters.Filter.SortAndCompareSearch | pkg/analyzer/filter.go:472-495 | Search sorted by descending input in both filters, verdict is equality |
| Filters.Filter.SortAndCompareSort | pkg/analyzer/filter.go:497-522 | Sort sorted by descending direction in both filters, verdict is equality |
| Filters.CompareListsOfSame | pkg/analyzer/filter.go:281-470 | a filter's lists equal themselves, with both sides sorted alike |
| FilterProperties.EveryListCompared | pkg/analyzer/filter.go:281-470 | every string list takes part in the comparison |
| FilterProperties.SortTwice | pkg/analyzer/filter.go:281-282 | sorting an already sorted list keeps it |
| FilterProperties.SortListKeepsSorts | pkg/analyzer/filter.go:281-470 | sorting one list leaves every list's sorted form unchanged |
| FilterProperties.CompareListsVerdict | pkg/analyzer/filter.go:281-470 | lists compare equal exactly when each compared list has equal sorted forms |
| FilterProperties.CompareListsFrame | pkg/analyzer/filter.go:281-470 | list comparison changes only the lists |
| FilterProperties.CompareListsSorted | pkg/analyzer/filter.go:281-470 | after an equal verdict the compared lists are sorted and the others unchanged |
| FilterProperties.ListsCompared | pkg/analyzer/filter.go:281-470 | how many lists the list stage sorts: at most all of them, and at least one when there is any |
| FilterProperties.SortEachLists | pkg/analyzer/filter.go:281-470 | sorting the lists of an order one after the other sorts exactly those lists |
| FilterProperties.CompareListsLeaves | pkg/analyzer/filter.go:281-470 | whatever the verdict, both sides are left with the first ListsCompared lists sorted and nothing else changed |
| FilterProperties.CompareListsLeavesFirst | pkg/analyzer/filter.go:281-284 | when the first list differs, only that list is sorted on both sides |
| FilterProperties.CompareListsEqualCount | pkg/analyzer/filter.go:281-470 | an equal verdict sorts every list of the order |
| FilterProperties.CompareListsSameBefore | pkg/analyzer/filter.go:281-470 | every list sorted before the last one sorts the same on both sides |
| FilterProperties.CompareListsFirstDifference | pkg/analyzer/filter.go:281-470 | on a false verdict the last list sorted sorts differently on the two sides |
| FilterProperties.CompareListsStopVerdict | pkg/analyzer/filter.go:281-470 | the list stage stops at the first list that sorts differently, and sorts all lists when none does |
| FilterProperties.CompareListsStops | pkg/analyzer/filter.go:281-470 | whatever the verdict, each list up to and including the first differing one is sorted on both sides and each later list is as it was |
| FilterProperties.EqualScalarsDiffer | pkg/analyzer/filter.go:257-279 | unequal scalar fields return false before anything is sorted |
| FilterProperties.EqualDims | pkg/analyzer/filter.go:256-533 | after the scalar check the dimensions of both filters are those the list stage leaves, whatever the verdict |
| FilterProperties.EqualListsDiffer | pkg/analyzer/filter.go:281-470 | when a list differs, Search, Sort and every non-dimension field of both filters are left as they were |
| FilterProperties.EqualLeavesBehind | pkg/analyzer/filter.go:256-533 | whatever the verdict, once the scalars match, both filters hold each list of EqualOrder up to and including the first differing one sorted, and each later list unchanged |
| FilterProperties.CompareFiltersVerdict | pkg/analyzer/filter.go:256-533 | Equal holds exactly when scalars, sorted lists, sorted Search, sorted Sort and both maps agree |
| FilterProperties.EveryListVerdict | pkg/analyzer/filter.go:281-470 | lists compare equal exactly when every list has equal sorted forms |
| FilterProperties.EqualIffEquivalent | pkg/analyzer/filter.go:256-533 | Equal is exactly the equivalence relation Equivalent |
| FilterProperties.EqualSortsBoth | pkg/analyzer/filter.go:256-533 | after Equal returns true, both filters hold sorted lists, Search and Sort and nothing else has changed |
| FilterProperties.EqualResult | pkg/analyzer/filter.go:256-533 | after a true verdict each filter is its old value with sorted lists, Search and Sort |
| FilterProperties.EveryListSorted | pkg/analyzer/filter.go:281-470 | after an equal verdict every list is sorted and nothing else changed |
| FilterProperties.EqualOfPermutations | pkg/analyzer/filter_test.go:288-312 | filters whose lists are permutations of each other are Equal |
| FilterProperties.EqualIgnoresWeekdayMode | pkg/analyzer/filter.go:257-279 | WeekdayMode, FunnelStep and the imported sub-range do not affect Equal |
| FilterProperties.EqualSortOrderMatters | pkg/analyzer/filter.go:497-522 | two Sort entries with one direction in opposite orders are not Equal |
| FilterProperties.SortPairKept | pkg/analyzer/filter.go:497-522 | the stable sort keeps entries with equal directions in order |
| QueryPlanning.FieldsContain | pkg/analyzer/filter.go:1000-1008 | true exactly when the field is in the list |
| QueryPlanning.ValuesContainPrefix | pkg/analyzer/filter.go:1010-1018 | true exactly when some value starts with the prefix |
| QueryPlanning.SearchContains | pkg/analyzer/filter.go:1020-1028 | true exactly when some search entry is on the field |
| QueryPlanning.ExcludeFields | pkg/analyzer/filter.go:988-998 | exactly the fields not excluded, and no more of them |
| PlanProperties.ExcludeFieldsConcat | pkg/analyzer/filter.go:988-998 | excluding distributes over concatenation, so order is kept |
| PlanProperties.ExcludeFieldsAbsent | pkg/analyzer/filter.go:988-998 | excluding absent fields keeps the list |
| PlanProperties.ExcludeFieldsIdempotent | pkg/analyzer/filter.go:988-998 | excluding twice is excluding once |
| PlanProperties.ValuesContainPrefixConcat | pkg/analyzer/filter.go:1010-1018 | a prefix is in a concatenation exactly when it is in one part |
| QueryPlanning.TableFor | pkg/analyzer/filter.go:730-769 | sessions when all session fields are requested; page views and events only under their triggers |
| PlanProperties.TablePrecedence | pkg/analyzer/filter.go:730-769 | the whole precedence, each rule as an if-and-only-if: page views exactly when the page view rule fires; events exactly when it does not, no entry or exit path is requested, an event trigger is present and not all session fields are requested; sessions otherwise |
| PlanProperties.TablePageViewTrigger | pkg/analyzer/filter.go:735-754 | any page view trigger (path, path pattern, tag or tags filter, path search, page view field) selects page views unless a full custom metric without tag fields or all session fields block it |
| PlanProperties.TablePathFilter | pkg/analyzer/filter.go:735-754 | a path filter selects page views |
| PlanProperties.TableCustomMetric | pkg/analyzer/filter.go:760-766 | a custom metric without tag fields selects events |
| PlanProperties.TableEntryExitPath | pkg/analyzer/filter.go:756-758 | entry or exit path selects sessions whenever the page view rule does not fire, also when a custom metric or all session fields block it |
| PlanProperties.TableEventTrigger | pkg/analyzer/filter.go:760-766 | any event trigger (event name filter, event name or all event fields, full custom metric) selects events when the page view rule does not fire, no entry or exit path and not all session fields are requested |
| PlanProperties.TableEventNameFilter | pkg/analyzer/filter.go:760-766 | an event name filter without a page view trigger selects events |
| PlanProperties.TableDefault | pkg/analyzer/filter.go:768 | without a trigger the table is sessions |
| QueryPlanning.JoinFields | pkg/analyzer/filter.go:771-953 | a join's fields start with visitor ID and session ID, are distinct, and are exactly the wanted candidates |
| QueryPlanning.SessionFields | pkg/analyzer/filter.go:778-807 | the session sub-query's fields: visitor and session ID and the wanted session columns |
| QueryPlanning.SessionGroupBy | pkg/analyzer/filter.go:779-799 | the grouping: visitor and session ID, then the wanted entry and exit path columns |
| QueryPlanning.SessionGroupByOfFields | pkg/analyzer/filter.go:778-807 | the grouping is exactly the selected fields without bounces and views |
| QueryPlanning.JoinSessions | pkg/analyzer/filter.go:771-822 | a sessions join exactly when needed, on the filter without sort, final when all session fields are requested |
| QueryPlanning.PageViewFields | pkg/analyzer/filter.go:828-841 | the page view sub-query's fields |
| QueryPlanning.JoinPageViews | pkg/analyzer/filter.go:824-855 | a page view join exactly when needed, grouped by its fields |
| QueryPlanning.EventsJoinFilter | pkg/analyzer/filter.go:908-911 | the events join drops path, any-path and sort filters and keeps the rest |
| QueryPlanning.EventFields | pkg/analyzer/filter.go:868-906 | the events sub-query's fields |
| QueryPlanning.JoinEvents | pkg/analyzer/filter.go:866-922 | an events join exactly when an event name is filtered or selected |
| QueryPlanning.LeftJoinFilter | pkg/analyzer/filter.go:941-945 | the left join drops event name, meta key, meta and sort filters and keeps the rest |
| QueryPlanning.LeftJoinFields | pkg/analyzer/filter.go:925-939 | the left join's fields, always including the event name |
| QueryPlanning.LeftJoinEvents | pkg/analyzer/filter.go:924-953 | an events sub-query on the left-join filter, grouped by its fields |
| QueryPlanning.JoinOrLeftJoinEvents | pkg/analyzer/filter.go:857-864 | a negated event name gives a left join and the event filter; otherwise the events join |
| QueryPlanning.PeriodField | pkg/analyzer/filter.go:957-965 | day exactly when day is requested; minute exactly when minute but not day is requested; hour exactly when neither is |
| QueryPlanning.PeriodFilter | pkg/analyzer/filter.go:968-976 | a fresh filter that keeps client, time zone, range, period, IncludeTime and weekday mode; every other field, the dimensions, search, sort, the imported range, offset, limit, custom metric, the Include flags, the time-on-page cap, sample and funnel step, is zero |
| QueryPlanning.JoinUniqueVisitorsByPeriod | pkg/analyzer/filter.go:955-986 | a period sub-query exactly when the period conversion rate is requested, on sessions, grouped and ordered by the period |
| QueryPlanning.PlanJoins | pkg/analyzer/filter.go:686-720 | the join steps keep the filter, the settings and the third join |
| QueryPlanning.BuildQuery | pkg/analyzer/filter.go:670-721 | the plan keeps the filter, search, grouping and ordering, and its third join is the period join |
| QueryPlanning.EventsForced | pkg/analyzer/filter.go:686-691 | event fields or a custom metric key or type, without tag fields, force the events table |
| QueryPlanning.InitialBuilder | pkg/analyzer/filter.go:671-684 | the builder before the joins: the filter, table's choice and the settings from the arguments (see BuildQueryFrom) |
| PlanProperties.PlanForced | pkg/analyzer/filter.go:686-695 | forced events: events table, a sessions join and the event filter |
| PlanProperties.PlanEventsTable | pkg/analyzer/filter.go:696-700 | events table: sessions with path excluded and a left join on events |
| PlanProperties.PlanPageViews | pkg/analyzer/filter.go:701-714 | page views table: a sessions join and the events join or left join |
| PlanProperties.PlanSessions | pkg/analyzer/filter.go:715-719 | sessions table: a page view join and the events join or left join |
| PlanProperties.PlanAll | pkg/analyzer/filter.go:670-721 | the plan of each of the four cases |
| PlanProperties.BuildQueryEventsTable | pkg/analyzer/filter.go:696-700 | the events-table case reads sessions without the path field |
| PlanProperties.EventsTableOnlyForEventNameFilter | pkg/analyzer/filter.go:730-769 | outside the forced case, the events table comes only from an event name filter without custom metric |
| PlanProperties.BuildQueryEventJoin | pkg/analyzer/filter.go:701-719 | other tables get the events join or left join as the event name is negated |
| PlanProperties.BuildQueryFrom | pkg/analyzer/filter.go:686-719 | the plan reads events exactly when forced; page views exactly when selected by table |
| PlanProperties.BuildQueryEventFilter | pkg/analyzer/filter.go:686-719 | the event filter is on exactly when reading events or left-joining them |
| PlanProperties.BuildQueryJoinsOtherTables | pkg/analyzer/filter.go:686-719 | no join reads the plan's own table |
| PlanProperties.BuildQueryJoins | pkg/analyzer/filter.go:686-719 | every join starts with visitor and session ID on the filter its builder sets |
| PlanProperties.BuildQueryJoinThird | pkg/analyzer/filter.go:721 | the third join exists exactly for the period conversion rate and filters nothing |
| PlanProperties.NegatedEventNameExample | pkg/analyzer/filter.go:858 | an event name starting with "!" is negated |
| PlanProperties.PlainEventNameExample | pkg/analyzer/filter.go:858 | a plain event name is not negated |
| Analyzer.PlanOf | pkg/analyzer/filter.go:670-721 | the plan of a request keeps its filter, grouping, ordering and imported fields |
| Analyzer.GetFilter | pkg/analyzer/analyzer.go:97-105 | nil becomes a validated filter for the null client; otherwise the filter is validated in place and a fresh copy returned |
| Analyzer.NilFilter | pkg/analyzer/analyzer.go:98-102 | getFilter(nil) filters nothing, is for the null client and has a zero range |
| Analyzer.TimeOnPageQuery | pkg/analyzer/analyzer.go:75-83 | the plain duration column without a cap, otherwise least(duration_seconds, N) with decimal N |
| Analyzer.TimeOnPageCap | pkg/analyzer/analyzer.go:78-80 | N reads back as MaxTimeOnPageSeconds |
| Analyzer.TimeOnPageCapped | pkg/analyzer/analyzer.go:75-83 | the least expression appears exactly for a positive cap |
| Analyzer.TimeOnPageExample | pkg/analyzer/analyzer.go:78-80 | a cap of 30 gives least(duration_seconds, 30) |
| Text.NatToString | pkg/analyzer/analyzer.go:79 | a decimal numeral without leading zero |
| Text.ParseNatToString | pkg/analyzer/analyzer.go:79 | the numeral reads back as the number |
| Analyzer.AttributeSelection | pkg/analyzer/analyzer.go:85-95 | attributes then visitors and share; grouped by the attributes; ordered by visitors then the attributes; imported first attribute and visitors |
| Analyzer.AttributeSelectionConsistent | pkg/analyzer/analyzer.go:85-95 | every grouped, ordered and imported field is selected, and the ordering is the grouping plus visitors |
| Analyzer.SelectByAttribute | pkg/analyzer/analyzer.go:85-95 | the filter comes from getFilter and the request holds the attribute field lists |
| Visitors.CalculateGrowth | pkg/analyzer/visitors.go:697-707 | 0 for 0 over 0, 1 from 0 to non-zero, otherwise previous × (1 + growth) = current |
| Visitors.GrowthSign | pkg/analyzer/visitors.go:697-707 | with a positive previous value, growth is positive, zero or negative as current is greater, equal or smaller |
| Visitors.GrowthOfSame | pkg/analyzer/visitors.go:697-707 | an unchanged value has zero growth |
| Visitors.GrowthExamples | pkg/analyzer/visitors.go:697-707 | halving is −0.5, doubling is 1, from 0 is 1, 0 to 0 is 0 |
| Visitors.RangeStart | pkg/analyzer/visitors.go:534-536 | the start is From, or the imported start when that is earlier and set |
| Visitors.PreviousWindow | pkg/analyzer/visitors.go:538-557 | the window before a range (see PreviousWindowLength, PreviousEndsBefore) |
| Visitors.PreviousWindowLength | pkg/analyzer/visitors.go:538-557 | the previous window is as long as the range and keeps IncludeTime, except for today, which is compared up to now with the time of day |
| Visitors.PreviousOfToday | pkg/analyzer/visitors.go:538-543 | today compares with the same time of day a week ago |
| Visitors.PreviousOfDay | pkg/analyzer/visitors.go:538-546 | another single day compares with the day a week before |
| Visitors.PreviousOfRange | pkg/analyzer/visitors.go:547-552 | a range of a day or more compares with the range of the same length ending the day before |
| Visitors.PreviousOfShortRange | pkg/analyzer/visitors.go:553-557 | a range shorter than a day moves back one day |
| Visitors.PreviousEndsBefore | pkg/analyzer/visitors.go:538-557 | the previous window is ordered and ends before the current one starts |
| Visitors.PreviousPeriod | pkg/analyzer/visitors.go:530-565 | the filter getPreviousPeriod leaves (see PreviousPeriodWithoutImport, PreviousPeriodWithImport) |
| Visitors.GetPreviousPeriod | pkg/analyzer/visitors.go:530-565 | the filter is moved to the previous period, revalidated when imported statistics are used |
| Visitors.PreviousPeriodWithoutImport | pkg/analyzer/visitors.go:530-565 | without imports only the range and IncludeTime change, and the new range ends before the old one starts |
| Visitors.PreviousPeriodWithImport | pkg/analyzer/visitors.go:559-564 | with imports the new range is the validated previous window |
| Visitors.TimeSpentOf | pkg/analyzer/visitors.go:398-410 | event duration for an event name filter, time on page for a path filter, otherwise session duration |
| Visitors.TimeSpentSourceKept | pkg/analyzer/visitors.go:412-432 | the previous period uses the same time-spent source as the current one |
| Visitors.GrowthFields | pkg/analyzer/visitors.go:366-388 | the five base fields, CR exactly when requested, custom metric fields exactly with a key and type, and every imported field selected |
| Visitors.GrowthFieldList | pkg/analyzer/visitors.go:366-388 | the appends build GrowthFields and the custom metric flag |
| Visitors.PeriodFigures | pkg/analyzer/visitors.go:390-432 | a period's statistics and time spent; it fails exactly when the store's statistics or time-spent query fails, and then with the store's error |
| Visitors.GrowthBetween | pkg/analyzer/visitors.go:434-443 | each growth rate from the current and previous figures (see GrowthOfSteadyStore) |
| Visitors.GrowthOutcome | pkg/analyzer/visitors.go:358-444 | Growth's result on a validated filter (see GrowthGuard) |
| Visitors.Figures | pkg/analyzer/visitors.go:390-410 | the period's statistics and time spent, or the store's error |
| Visitors.Growth | pkg/analyzer/visitors.go:358-444 | the filter is validated in place and the result is the growth outcome of the validated filter |
| Visitors.GrowthGuard | pkg/analyzer/visitors.go:359-363 | Growth fails with the period error exactly when From or To is missing |
| Visitors.GrowthOfSteadyStore | pkg/analyzer/visitors.go:412-444 | a store that reports the same figures for both periods gives zero growth everywhere |
| Visitors.TotalVisitorsPageViews | pkg/analyzer/visitors.go:160-200 | the filter is validated in place and the result is the outcome for the validated filter |
| Visitors.TotalVisitorsPageViewsOutcome | pkg/analyzer/visitors.go:160-200 | TotalVisitorsPageViews' result on a validated filter (see TotalVisitorsPageViewsGuard) |
| Visitors.TotalVisitorsPageViewsGuard | pkg/analyzer/visitors.go:161-199 | fails with the period error exactly when From or To is missing; a success reports the store's totals |
| Visitors.ReferrerSelection | pkg/analyzer/visitors.go:449-518 | the fields, grouping, ordering and imported fields Referrer passes to buildQuery (see ReferrerWithoutImport, ReferrerWithImport) |
| Visitors.ReferrerWithoutImport | pkg/analyzer/visitors.go:451-475 | referrer selected, grouped and ordered exactly when a referrer is filtered, the any-referrer column otherwise |
| Visitors.ReferrerWithImport | pkg/analyzer/visitors.go:476-518 | the imported grouping narrows exactly when a referrer is filtered or searched; the imported fields |
| Visitors.Referrer | pkg/analyzer/visitors.go:447-520 | the filter comes from getFilter and the request holds the referrer selection over the imported referrer table |
| Visitors.ActiveSelection | pkg/analyzer/visitors.go:30-40 | the fields, grouping and ordering Active passes to buildQuery (see ActiveSelectionShape) |
| Visitors.ActiveSelectionShape | pkg/analyzer/visitors.go:31-41 | hostname, path and the title exactly when requested, then visitors; grouped by all but visitors and ordered by visitors first |
| Visitors.ActiveFields | pkg/analyzer/visitors.go:31-41 | the appends build the active selection |
| Visitors.Active | pkg/analyzer/visitors.go:26-49 | the caller's filter is validated in place; the copy starts `duration` before now with exact times; the page and the count requests use it |

## Left out

- SQL text: `queryBuilder.query`, the WHERE clause, the field catalog's
  column expressions and the query arguments are not produced. A plan is
  a value, and every statistic returns the request it passes to the
  store.
- The `parent` pointer that `buildQuery` sets on each join is not
  modelled (`pkg/analyzer/filter.go:707-709`). It only links the
  generated SQL.
- `Filter.Ctx` and its default background context are not modelled.
- Strings that are not valid UTF-8: Go's `len` counts their raw bytes
  and `<` compares bytes, but the model's strings are sequences of code
  points, so such a string has no representation. `Text.ByteLen` is the
  byte length of a valid string.
- Visitors.PreviousWindow: `to.Sub(from)` in `getPreviousPeriod`
  (`pkg/analyzer/visitors.go:548`) is a `time.Duration`, which saturates
  at about ±292 years. The model's differences are unbounded integers.
- Time zones: the model keeps only the time zone's name. `In(time.UTC)`
  is the identity on the model's times, and `toDate` truncates in UTC.
- Analyzer.GetFilter: in Go the copy is shallow and shares its slices
  with the caller's filter, so a later in-place sort in one (by `Equal`)
  reaches the other. The model's copy does not share storage.
- Sorting.SortByKeyDesc: `slices.SortFunc` is an insertion sort up to 12
  elements and pattern-defeating quicksort above. The model is a stable
  insertion sort at every length. This only affects the order of entries
  with equal keys in lists longer than 12.
- Visitors.CalculateGrowth: computed over reals. float64 rounding and
  the int-to-float conversion are not modelled.
- Visitors.Active: `duration` is whole seconds. The saturation of
  `time.Duration` arithmetic is not modelled.
- The store: every ClickHouse call is a function parameter. So are
  `totalSessionDuration`, `totalEventDuration` and `totalTimeOnPage`
  (`pkg/analyzer/visitors.go:567-695`), whose SQL is not modelled. A nil
  statistics pointer from the store is not modelled.
- `NewAnalyzer`, the other statistics of `Visitors` (`Total`,
  `ByPeriod`, `ByHour`, …) and `events.go` are not part of this model.
- `buildTimeQuery` and `fieldsContainByQuerySession` are not part of
  this model.
- Visitors.TotalVisitorsPageViews: the (visitors, views) pair the store
  returns is taken as given.
- QueryPlanning.JoinUniqueVisitorsByPeriod: its field list is `[period,
  visitors_raw]`. The claim that every join sub-query starts with
  visitor ID and session ID holds, and is proved, for the other three
  join builders only.
