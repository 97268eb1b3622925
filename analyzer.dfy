/** The analyzer's entry point: how every statistic obtains the filter it
    works on, the capped duration expression for time on page, and the
    field lists of the "visitors by one attribute" statistics. */
module Analyzer {
  import opened Text
  import opened Fields
  import opened Filters
  import opened QueryPlanning
  import FilterProperties

  /** The four field lists a statistic hands to buildQuery: the selected
      columns, the grouping, the ordering and the columns read from the
      imported statistics table. */
  datatype Selection = Selection(fields: seq<Field>, groupBy: seq<Field>, orderBy: seq<Field>,
                                 fieldsImported: seq<Field>)

  /** The arguments a statistic hands to buildQuery: the filter, the field
      lists and the imported statistics table. The store runs the plan
      PlanOf builds from them. */
  datatype QueryRequest = QueryRequest(filter: FilterData, selection: Selection, fromImported: string)

  /** Filter.buildQuery applied to the request. */
  function PlanOf(r: QueryRequest): (q: QueryBuilder)
    ensures q.filter == r.filter
    ensures q.settings.groupBy == r.selection.groupBy && q.settings.orderBy == r.selection.orderBy
    ensures q.settings.fieldsImported == r.selection.fieldsImported
    ensures q.settings.fromImported == r.fromImported
  {
    BuildQuery(r.filter, r.selection.fields, r.selection.groupBy, r.selection.orderBy,
               r.selection.fieldsImported, r.fromImported)
  }

  /** Every grouped column is also selected. */
  predicate GroupsSelected(s: Selection) {
    forall x :: x in s.groupBy ==> x in s.fields
  }

  /** Every ordering column is also selected. */
  predicate OrdersSelected(s: Selection) {
    forall x :: x in s.orderBy ==> x in s.fields
  }

  // ---------------------------------------------------------------------
  // getFilter

  /** Analyzer.getFilter: a nil filter becomes a new filter for the null
      client. The filter is validated IN PLACE, so a caller's filter is
      changed, and a copy of the validated struct is returned as a new
      pointer. The copy is shallow in Go; here the copy holds the same
      values, and later updates of one object do not reach the other. */
  method GetFilter(filter: Filter?, today: int) returns (copy: Filter)
    modifies filter
    ensures fresh(copy)
    ensures filter == null ==> copy.value == Validated(NewFilterData(NullClient), today)
    ensures filter != null ==> filter.value == Validated(old(filter.value), today)
    ensures filter != null ==> copy.value == filter.value
  {
    var f := filter;
    if f == null {
      f := NewFilter(NullClient);
    }
    f.Validate(today);
    copy := new Filter(f.value);
  }

  /** getFilter(nil) yields a filter for the null client that filters
      nothing, with no time range and the first page of results. */
  lemma NilFilter(today: int)
    ensures Validated(NewFilterData(NullClient), today).Empty()
    ensures Validated(NewFilterData(NullClient), today).clientID == NullClient
    ensures Validated(NewFilterData(NullClient), today).from == 0
    ensures Validated(NewFilterData(NullClient), today).to == 0
  {
    FilterProperties.ValidatedEmpty(NewFilterData(NullClient), today);
  }

  // ---------------------------------------------------------------------
  // timeOnPageQuery

  const DurationColumn := "duration_seconds"
  const LeastPrefix := "least(duration_seconds, "

  /** Analyzer.timeOnPageQuery: the duration of a page view, capped at
      MaxTimeOnPageSeconds when that is positive. */
  function TimeOnPageQuery(filter: FilterData): (s: string)
    ensures filter.maxTimeOnPageSeconds <= 0 ==> s == DurationColumn
    ensures filter.maxTimeOnPageSeconds > 0 ==>
      HasPrefix(s, LeastPrefix) && s[|s| - 1] == ')' && IsDecimal(s[|LeastPrefix|..|s| - 1])
  {
    if filter.maxTimeOnPageSeconds > 0 then
      LeastPrefix + NatToString(filter.maxTimeOnPageSeconds) + ")"
    else
      DurationColumn
  }

  /** The cap in the expression is MaxTimeOnPageSeconds itself: its digits
      read back as the configured number. */
  lemma TimeOnPageCap(filter: FilterData)
    requires filter.maxTimeOnPageSeconds > 0
    ensures var s := TimeOnPageQuery(filter);
      IsDecimal(s[|LeastPrefix|..|s| - 1]) &&
      ParseNat(s[|LeastPrefix|..|s| - 1]) == filter.maxTimeOnPageSeconds
  {
    var n: nat := filter.maxTimeOnPageSeconds;
    var s := TimeOnPageQuery(filter);
    assert s[|LeastPrefix|..|s| - 1] == NatToString(n);
    ParseNatToString(n);
  }

  /** Only a positive cap produces the `least` expression. */
  lemma TimeOnPageCapped(filter: FilterData)
    ensures HasPrefix(TimeOnPageQuery(filter), "least(") <==> filter.maxTimeOnPageSeconds > 0
  {
    if filter.maxTimeOnPageSeconds <= 0 {
      assert TimeOnPageQuery(filter)[0] == 'd';
    } else {
      assert TimeOnPageQuery(filter)[..6] == LeastPrefix[..6];
    }
  }

  /** A cap of 30 seconds. */
  lemma TimeOnPageExample(filter: FilterData)
    requires filter.maxTimeOnPageSeconds == 30
    ensures TimeOnPageQuery(filter) == "least(duration_seconds, 30)"
  {
    assert NatToString(30) == "30" by {
      assert NatToString(3) == "3";
    }
  }

  // ---------------------------------------------------------------------
  // selectByAttribute

  /** The field lists of selectByAttribute: the attributes followed by the
      visitor count and share, grouped by the attributes, ordered by
      visitors first and then by the attributes; the imported table
      supplies the first attribute and the visitor count. */
  function AttributeSelection(attr: seq<Field>): (s: Selection)
    requires |attr| > 0
    ensures s.groupBy == attr
    ensures |s.fields| == |attr| + 2 && |s.orderBy| == |attr| + 1
    ensures s.fields[..|attr|] == attr && s.fields[|attr|..] == [FieldVisitors, FieldRelativeVisitors]
    ensures s.orderBy[0] == FieldVisitors && s.orderBy[1..] == attr
    ensures s.fieldsImported == [attr[0], FieldVisitors]
  {
    Selection(attr + [FieldVisitors, FieldRelativeVisitors], attr, [FieldVisitors] + attr,
              [attr[0], FieldVisitors])
  }

  /** Every column that selectByAttribute groups, orders or imports by is
      one it selects, and the ordering is the grouping plus the visitor
      count. */
  lemma AttributeSelectionConsistent(attr: seq<Field>)
    requires |attr| > 0
    ensures GroupsSelected(AttributeSelection(attr))
    ensures OrdersSelected(AttributeSelection(attr))
    ensures forall x :: x in AttributeSelection(attr).fieldsImported ==> x in AttributeSelection(attr).fields
    ensures multiset(AttributeSelection(attr).orderBy) == multiset(attr) + multiset{FieldVisitors}
  {
    var s := AttributeSelection(attr);
    assert s.fields == attr + [FieldVisitors, FieldRelativeVisitors];
    assert s.orderBy == [FieldVisitors] + attr;
  }

  /** Analyzer.selectByAttribute: obtains the filter through getFilter (so
      a caller's filter is validated in place) and plans the query over
      the attribute field lists. `attr` must not be empty: the source
      reads attr[0]. The context and the SQL text are not modelled; the
      request, and the plan PlanOf builds from it, stand for them. */
  method SelectByAttribute(filter: Filter?, fromImported: string, attr: seq<Field>, today: int)
    returns (copy: Filter, request: QueryRequest)
    requires |attr| > 0
    modifies filter
    ensures fresh(copy)
    ensures filter == null ==> copy.value == Validated(NewFilterData(NullClient), today)
    ensures filter != null ==> filter.value == Validated(old(filter.value), today) && copy.value == filter.value
    ensures request == QueryRequest(copy.value, AttributeSelection(attr), fromImported)
  {
    var fields := attr;
    fields := fields + [FieldVisitors, FieldRelativeVisitors];
    var orderBy := [FieldVisitors];
    orderBy := orderBy + attr;
    copy := GetFilter(filter, today);
    request := QueryRequest(copy.value, Selection(fields, attr, orderBy, [attr[0], FieldVisitors]), fromImported);
  }
}
