/** The row events a Baserow webhook can be asked to deliver (the `events` option of the node). */
module Events {
  import opened Wrappers

  datatype EventKind = RowsCreated | RowsDeleted | RowsUpdated

  /** The option value the node sends for each event kind. */
  function Value(k: EventKind): string
  {
    match k
    case RowsCreated => "rows.created"
    case RowsDeleted => "rows.deleted"
    case RowsUpdated => "rows.updated"
  }

  /** The event kind an option value names, if any. */
  function Parse(s: string): (r: Option<EventKind>)
    ensures r.Some? ==> Value(r.value) == s
    ensures r.None? ==> s !in {"rows.created", "rows.deleted", "rows.updated"}
  {
    if s == "rows.created" then Some(RowsCreated)
    else if s == "rows.deleted" then Some(RowsDeleted)
    else if s == "rows.updated" then Some(RowsUpdated)
    else None
  }

  /** Every event kind's value parses back to that kind. */
  lemma ParseValue(k: EventKind)
    ensures Parse(Value(k)) == Some(k)
  {
  }
}
