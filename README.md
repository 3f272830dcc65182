# Request-log dashboard: grouping, fallback and view selection

The dashboard fetches a list of request-log records (date, request name,
execution time, status code, description) and draws one chart per request
name, plotting execution time and status code over time. This project models
its three pieces of logic and proves what they promise:

- **Grouping** (`grouping.dfy`, module `Grouping`). The `reduce` that walks the
  records in order, creates an empty list the first time a request name is
  seen, and appends that record's chart point to its name's list.
  `GroupByRequestName` is that loop, with a map of sequences as the
  accumulator and a sequence that records the order in which keys were
  inserted. It is proved equal to a functional specification: `Names` (the
  distinct names in first-occurrence order) and `Grouped` (each name mapped to
  its records, selected by `Matching` and turned into points). Lemmas about
  that specification prove the following. No record is lost or duplicated.
  There is one chart per distinct name and no chart is empty. Each chart holds
  exactly its name's records, in input order, with copied fields. Charts come
  in first-occurrence order.
- **Query function** (`query.dfy`, module `Query`). The `try` block fails on a
  non-OK response and on any thrown fetch or parse error. The `catch` returns
  the built-in sample data instead. `QueryFn` is proved never to reject. The
  resolved value carries a flag that records whether it is the sample-data
  constant itself, which is what the banner's identity test checks.
- **View selection** (`view.dfy`, module `View`). The component's cascade picks
  one screen in this order: loading, then error, then "no data", then the
  charts with an optional sample-data banner.

`logs.dfy` holds the record types, the point conversion and the sample data.
`sample.dfy` proves what grouping the sample data gives: three charts, in this
order and with these points.

Date formatting (`toLocaleDateString`) depends on locale and time zone, so it
is a parameter `formatDate: string -> string` of every function that builds
points. The network call and JSON parsing are an abstract outcome value,
`FetchOutcome`: `Ok(body)`, `NotOk` or `Thrown(message)`.

## Model

| member | source | states |
|---|---|---|
| `Logs.ToPoint` | src/App.tsx:187-191 | The point pushed for a record: its date passed through the date formatter (standing for `new Date(...).toLocaleDateString()`), and its execution time and status code copied unchanged. |
| `Grouping.GroupByRequestName` | src/App.tsx:183-193 | The reduce loop's map ends equal to `Grouped(logs)` and its key-insertion order ends equal to `Names(logs)`, for every input, including the empty one. |
| `Grouping.Names` | src/App.tsx:184-186 | The key-insertion order of the grouping object: a name is appended when it is first seen. There are no more keys than records, and there are none exactly when there are no records. |
| `Grouping.NamesAreDistinctNames` | src/App.tsx:184-186 | The object's keys: no name appears twice, and a name is a key exactly when some record carries it. |
| `Grouping.Matching` | src/App.tsx:183-191 | A name's records: every one carries that name, there are no more of them than records, and the list is non-empty exactly when the name occurs. |
| `Grouping.Grouped` | src/App.tsx:183-193 | The object the reduce builds: its keys are exactly the request names that occur, and no key holds an empty list. |
| `Grouping.Positions` | src/App.tsx:183-191 | Reference for a group's members: the indices of the records with that name, strictly increasing, and including every such index. |
| `Grouping.FirstIndex` | src/App.tsx:184-186 | The index where a name first occurs: it carries the name and no earlier record does. |
| `Grouping.Entries` | src/App.tsx:205 | `Object.entries` pairs the i-th inserted key with its value, one entry per key. |
| `Grouping.ReduceStep` | src/App.tsx:184-191 | One turn of the reduce: the name is already a key exactly when it already has a group; a new name is appended to the keys and gets a group of just this point, and a known name gets this point appended. |
| `Grouping.Charts` | src/App.tsx:205 | What `Object.entries(groupedData)` yields: one entry per key, in insertion order (`Names`), each paired with that key's points in `Grouped`. |
| `Grouping.GroupedSnoc` | src/App.tsx:184-191 | One record more appends its point to its name's group, and creates the group (starting from empty) only if the name is new. |
| `Grouping.GroupIsOrderedSelection` | src/App.tsx:183-191 | A name's group has one point per record with that name. The points follow input order. Each point's date is `formatDate` of the record's date, and its execution time and status code are the record's. The group is non-empty. |
| `Grouping.EveryRecordPlottedOnce` | src/App.tsx:183-193 | The point counts of all charts add up to the number of records. |
| `Grouping.OneChartPerName` | src/App.tsx:184-186 | There are as many charts as distinct request names. Every name has a chart, and no name has two. |
| `Grouping.ChartsHoldTheirRecords` | src/App.tsx:184-191 | No chart is empty. Each chart's points are its name's records, in order, turned into points. |
| `Grouping.NamesFirstOccurrenceOrder` | src/App.tsx:184-186 | Keys are inserted in the order their names first occur in the input. |
| `Grouping.ChartsInFirstOccurrenceOrder` | src/App.tsx:205 | Charts are listed in the order their names first occur in the input. |
| `Query.TryFetch` | src/App.tsx:156-165 | The `try` block fails exactly when the response is not OK or fetching/parsing throws. Otherwise it yields the parsed body. |
| `Query.QueryFn` | src/App.tsx:155-170 | The query function never rejects. On any failure it resolves with the sample data, marked as the sample. On success it resolves with the parsed body, not marked. Its result type `QueryData` only admits a value marked as the sample when its logs are the sample data. |
| `View.Settle` | src/App.tsx:148-152 | After the promise settles the query is not loading. A resolved value becomes its data and leaves no error. A rejection becomes its error, with the rejection's reason as the message, and leaves no data. |
| `View.ShownLogs` | src/App.tsx:148-152 | The `logs` the component reads: absent while the query has no data, and otherwise the resolved value's logs (absent for a JSON `null` body). |
| `View.Render` | src/App.tsx:177-180 | Loading wins over an error, an error over "no data", and "no data" over charts. "No data" shows exactly when the logs are absent or empty. The charts are the grouping of the logs, and the banner shows exactly when the logs are the sample data, in which case the charts are those of the sample data. |
| `View.DashboardShowsEveryRecord` | src/App.tsx:179-193 | A dashboard has at least one chart and no empty chart. It plots exactly one point per fetched record. |
| `View.SettledQueryNeverFails` | src/App.tsx:155-180 | Once the query settles, neither the loading screen nor the error screen can appear. Every fetch failure shows the sample-data charts with the banner. A real response never shows the banner. "No data" shows exactly when a real response was null or empty. |
| `SampleData.SampleDataCharts` | src/App.tsx:27-84 | The sample data gives exactly three charts, in this order: GetBalance (3 points), TransferMoney (2) and GetTransactions (3), with the listed dates, times and status codes. |
| `SampleData.SampleDataNames` | src/App.tsx:27-84 | The sample data's keys are GetBalance, TransferMoney and GetTransactions, in that order. |
| `SampleData.SampleDataGroups` | src/App.tsx:27-84 | The sample data's groups are records 0-2, 3-4 and 5-7. |

## Left out

- The `fetch` call, the endpoint and `response.json()` (src/App.tsx:157-163) are network I/O. They appear only as the abstract `FetchOutcome`.
- The parsed body is taken to be JSON `null` or an array of records with the declared field types. Other JSON values are not modelled. A falsy body (`0`, `false`, `""`) makes `!logs` true at src/App.tsx:179, so the page shows "no data". A truthy non-array (a non-zero number, `true`, a non-empty string, an object whose `length` is not 0) gets past that test and then throws a `TypeError` at `logs.reduce` (src/App.tsx:183), which is not a function on those values.
- `toLocaleDateString` (src/App.tsx:188) depends on locale and time zone. It is the parameter `formatDate`.
- React Query's behaviour (src/App.tsx:148-171) is foreign library code: its state machine, caching and `retry: 3`. `View.Settle` models one settled attempt only. The query function never rejects, so a retry would never be triggered, but the model does not show this.
- Grouping.ChartsInFirstOccurrenceOrder: keys are modelled as plain strings kept in insertion order. In JavaScript, `Object.entries` lists integer-like keys such as `"42"` first, in ascending numeric order. The property therefore holds of the real program only when no request name is integer-like.
- Grouping.GroupByRequestName: every request name is treated as a fresh key. Names that are properties of `Object.prototype`, such as `"constructor"` or `"toString"`, make `!acc[name]` false at src/App.tsx:184, and the following `push` then fails. `"__proto__"` behaves the same way: `acc["__proto__"]` reads `Object.prototype`, which is truthy, so no list is created and the `push` at src/App.tsx:187 throws a `TypeError`. None of this is modelled.
- `ExecutionTime` and `StatusCode` are JavaScript numbers. They are modelled as `int`, because they are only copied, never computed with.
- The identity test `logs === mockData` (src/App.tsx:200) is modelled by the `isSample` flag of the resolved value. The type `QueryData` ties the flag to the logs: a flagged value always holds the sample data. Only the `catch` path returns the constant object; a parsed response is always a fresh array.
- `console.log` diagnostics (src/App.tsx:164, 167, 173-175, 195) are side output only.
- The JSX, the recharts components and `styles` (src/App.tsx:86-145, 197-255) are presentation only.
- A strict variant that reports fetch errors instead of falling back to sample data is not part of `src/App.tsx`, so it is not modelled; the model follows the fallback code that is there.
