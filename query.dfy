/** The query function of the dashboard: fetch the logs, and on any failure
    fall back to the built-in sample data. */
module Query {
  import opened Logs

  /** What the network and the JSON parser did, from the dashboard's side.
      `Ok` carries the parsed body (JSON `null` is `None`); a response whose
      status is not OK is `NotOk`; a transport or parse failure is `Thrown`. */
  datatype FetchOutcome = Ok(body: Option<seq<Log>>) | NotOk | Thrown(message: string)

  /** How an async function's promise settles. */
  datatype Settled<+T> = Resolved(value: T) | Rejected(reason: string)

  /** The value the query resolves with. `isSample` records that it is the
      sample-data constant itself: only the fallback returns that object, since
      a parsed response is always a fresh value. */
  datatype Fetched = Fetched(logs: Option<seq<Log>>, isSample: bool)

  /** A resolved value as the component can receive it: whatever passes the
      identity test against the sample data is the sample data. */
  type QueryData = f: Fetched | f.isSample ==> f.logs == Some(MockData)
    witness Fetched(None, false)

  const NotOkMessage := "Network response was not ok"

  /** The body of the `try` block: a response that is not OK throws, and so
      does a failed fetch or parse; otherwise the parsed data is returned. */
  function TryFetch(outcome: FetchOutcome): (r: Settled<Option<seq<Log>>>)
    ensures r.Resolved? <==> outcome.Ok?
    ensures outcome.Ok? ==> r.value == outcome.body
    ensures outcome.NotOk? ==> r == Rejected(NotOkMessage)
    ensures outcome.Thrown? ==> r == Rejected(outcome.message)
  {
    match outcome
    case Ok(body) => Resolved(body)
    case NotOk => Rejected(NotOkMessage)
    case Thrown(message) => Rejected(message)
  }

  /** The query function: whatever the `try` block throws is caught and the
      sample data is returned instead. */
  function QueryFn(outcome: FetchOutcome): (r: Settled<QueryData>)
    ensures r.Resolved?
    ensures r.value.isSample <==> !outcome.Ok?
    ensures outcome.Ok? ==> r.value.logs == outcome.body
    ensures !outcome.Ok? ==> r.value.logs == Some(MockData)
  {
    match TryFetch(outcome)
    case Resolved(data) => Resolved(Fetched(data, false))
    case Rejected(_) => Resolved(Fetched(Some(MockData), true))
  }
}
