/** The result columns a query can ask for, and the fact tables a query can
    read from. */
module Fields {

  /** The entries of the field catalog that the query planner and the
      visitor statistics mention by name. Every other catalog entry is
      `FieldOther`, told apart from the rest by its name. Two fields are
      equal exactly when they are the same catalog entry, as Go's `==` on
      the Field struct decides for the catalog's distinct values. */
  datatype Field =
    | FieldVisitorID | FieldSessionID
    | FieldHostname | FieldPath | FieldTitle
    | FieldEntryPath | FieldExitPath | FieldEntryTitle | FieldExitTitle
    | FieldEntries | FieldExits
    | FieldPageViewsAll | FieldSessionsAll | FieldEventsAll
    | FieldEventName | FieldEventPath | FieldEventTitle
    | FieldEventMeta | FieldEventMetaKeys | FieldEventMetaValues
    | FieldEventMetaKeysRaw | FieldEventMetaValuesRaw
    | FieldEventMetaCustomMetricAvg | FieldEventMetaCustomMetricTotal
    | FieldEventDurationSeconds
    | FieldTagKey | FieldTagValue | FieldTagKeysRaw | FieldTagValuesRaw
    | FieldHour | FieldMinute | FieldDay | FieldCRPeriod
    | FieldVisitors | FieldVisitorsRaw | FieldRelativeVisitors
    | FieldSessions | FieldViews | FieldBounces | FieldBounceRate | FieldCR
    | FieldReferrer | FieldReferrerName | FieldReferrerIcon
    | FieldReferrerNameImported | FieldAnyReferrer | FieldAnyReferrerIcon
    | FieldAnyReferrerImported
    | FieldOther(name: string)

  /** The three fact tables: `pageViews`, `sessions` and `events`. */
  datatype Table = PageViews | Sessions | Events
}
