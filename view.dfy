/** What the dashboard component shows for a given state of the log query. */
module View {
  import opened Logs
  import opened Grouping
  import opened Query

  /** The four things the component can render. */
  datatype Screen =
    | Loading
    | Failed(message: string)
    | NoData
    | Dashboard(sampleBanner: bool, charts: seq<Entry>)

  /** The fields of the query result the component reads. */
  datatype QueryState = QueryState(isLoading: bool, error: Option<string>, data: Option<QueryData>)

  /** The query once its function's promise has settled, for a single attempt:
      a resolved value becomes the data, a rejection becomes the error. */
  function Settle(settled: Settled<QueryData>): (q: QueryState)
    ensures !q.isLoading
    ensures settled.Resolved? ==> q.error == None && q.data == Some(settled.value)
    ensures settled.Rejected? ==> q.error == Some(settled.reason) && q.data == None
  {
    match settled
    case Resolved(value) => QueryState(false, None, Some(value))
    case Rejected(reason) => QueryState(false, Some(reason), None)
  }

  /** The `logs` the component sees: absent until data arrives, and absent
      when the response body was JSON `null`. */
  function ShownLogs(state: QueryState): (logs: Option<seq<Log>>)
    ensures state.data.None? ==> logs == None
    ensures state.data.Some? ==> logs == state.data.value.logs
  {
    if state.data.Some? then state.data.value.logs else None
  }

  /** The component's cascade: loading wins over an error, an error over
      "no data", and "no data" over the charts. The charts group the logs by
      request name; the sample banner shows when the logs are the sample data. */
  function Render(state: QueryState, formatDate: string -> string): (v: Screen)
    ensures v.Loading? <==> state.isLoading
    ensures v.Failed? <==> !state.isLoading && state.error.Some?
    ensures v.Failed? ==> v.message == state.error.value
    ensures v.NoData? <==>
              !state.isLoading && state.error.None? && (ShownLogs(state) == None || ShownLogs(state) == Some([]))
    ensures v.Dashboard? ==>
              && ShownLogs(state).Some? && ShownLogs(state).value != []
              && v.sampleBanner == state.data.value.isSample
              && v.charts == Charts(ShownLogs(state).value, formatDate)
    ensures v.Dashboard? && v.sampleBanner ==> v.charts == Charts(MockData, formatDate)
  {
    if state.isLoading then Loading
    else if state.error.Some? then Failed(state.error.value)
    else if ShownLogs(state) == None || ShownLogs(state).value == [] then NoData
    else Dashboard(state.data.value.isSample, Charts(ShownLogs(state).value, formatDate))
  }

  /** A dashboard shows at least one chart, no empty chart, and exactly one
      point per fetched record. */
  lemma DashboardShowsEveryRecord(state: QueryState, formatDate: string -> string)
    requires Render(state, formatDate).Dashboard?
    ensures var charts := Render(state, formatDate).charts;
            && charts != []
            && (forall i :: 0 <= i < |charts| ==> charts[i].1 != [])
            && PointCount(charts) == |ShownLogs(state).value|
  {
    var logs := ShownLogs(state).value;
    EveryRecordPlottedOnce(logs, formatDate);
    ChartsHoldTheirRecords(logs, formatDate);
    OneChartPerName(logs, formatDate);
    assert logs[0].requestName in NameSet(logs);
  }

  /** Once the query has settled, the error screen cannot appear: every fetch
      failure ends in the sample-data dashboard with its banner, and a real
      response never shows the banner. */
  lemma SettledQueryNeverFails(outcome: FetchOutcome, formatDate: string -> string)
    ensures var v := Render(Settle(QueryFn(outcome)), formatDate);
            && !v.Loading? && !v.Failed?
            && (v.NoData? <==> outcome.Ok? && (outcome.body == None || outcome.body == Some([])))
            && (!outcome.Ok? ==> v == Dashboard(true, Charts(MockData, formatDate)))
            && (outcome.Ok? && v.Dashboard? ==> !v.sampleBanner)
  {
  }
}
