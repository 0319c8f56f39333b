/** The session lifecycle vocabulary: the four statuses a session row can hold and the
    update record that changes a row. */
module Generation {
  import opened Prelude

  /** `SessionStatus`: the literal type over 'queued', 'processing', 'completed', 'failed'. */
  datatype SessionStatus = Queued | Processing | Completed | Failed

  /** The string a status is stored as. */
  function StatusName(s: SessionStatus): string {
    match s
    case Queued => "queued"
    case Processing => "processing"
    case Completed => "completed"
    case Failed => "failed"
  }

  /** The literal check: a string is a status exactly when it is one of the four names. */
  function ParseStatus(name: string): (r: Option<SessionStatus>)
    ensures r.Some? ==> StatusName(r.value) == name
  {
    if name == "queued" then Some(Queued)
    else if name == "processing" then Some(Processing)
    else if name == "completed" then Some(Completed)
    else if name == "failed" then Some(Failed)
    else None
  }

  /** Parsing accepts every status name and only those, and names are distinct. */
  lemma ParseStatusExact(name: string, s: SessionStatus)
    ensures ParseStatus(name) == Some(s) <==> name == StatusName(s)
  {
    match s
    case Queued =>
    case Processing =>
    case Completed =>
    case Failed =>
  }

  /** A session that a worker owns or is about to own; the reconciler selects these. */
  predicate InFlight(s: SessionStatus) {
    s == Queued || s == Processing
  }

  /** `SessionUpdate`: a required status, and two optional fields that default to None.
      When the worker writes an update, a None field is a column the update leaves alone. */
  datatype SessionUpdate = SessionUpdate(status: SessionStatus, resultImageUrl: Option<string>, errorMessage: Option<string>)

  /** The record built from a status alone, as in `{'status': 'processing'}`: both optional
      fields take their default. */
  function StatusOnly(status: SessionStatus): SessionUpdate {
    SessionUpdate(status, None, None)
  }
}
