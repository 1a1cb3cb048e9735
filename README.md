# uploader: a Dafny model of the replication step

`uploader/uploader.py` copies InfluxDB points from a local store to a cloud
store. Each top-level section of its configuration is a source: a
measurement, a list of fields, a tag map and a limit. The replication step
works on these sources in four parts:

- It builds an InfluxQL `SELECT` for each source and queries the local store.
- It turns the first result series into a batch of points.
- It writes the batch to the cloud. Only if that write returns truthy does it
  mark every point by coercing its fields to float and setting `status` to 1.0.
  The marked batch is then written back to the local store.
- It waits for the cloud with a 30-second retry, and walks the sources in key
  order, skipping `local` and `cloud`.

The model has these modules:

- `Wrappers`: `Option` and `Result`.
- `Dicts`: Python's insertion-ordered `dict`, as a sequence of entries.
  - `Get` is `d[k]`, `Remove` is `del d[k]`, and `Put` is `d[k] = v`.
- `Values`: column values, including `None`.
  - Also the exceptions the uploader meets.
  - Also Python's `float()`, as `ToFloat`.
- `Config`: the configuration, and the reserved keys `local` and `cloud`.
- `QueryText`: the query text, exactly as `get_points` formats it.
  - It is checked against an independent quoting of the field list.
  - The limit is checked against an independent numeral reader.
  - Two quirks of the source are reproduced rather than corrected:
    - The tag conditions are joined with `''`. Two tags therefore give
      `"a"='x'"b"='y'`, with no `AND` between them.
    - An empty tag map leaves `AND  LIMIT` with an empty slot between.
- `Points`: row-to-point conversion, the batch-building append loop and the
  marking loop.
  - The marking loop is a method that rewrites an `array` of points in place.
  - It is proved equal to the function `MarkAll` on the array's old contents.
  - A conversion error stops the marking part-way. Points and fields before
    the failure are already converted, exactly as the nested loops leave them.
- `Clients`: the two `InfluxDBClient`s, as a scripted environment.
  - The n-th cloud ping, local ping, cloud write, local write and query get
    the outcome the environment gives for n. Writes also depend on the batch,
    and queries on the query text.
  - Every call, every `time.sleep` and every `close()` is recorded, in order,
    in a trace held by a `Log`.
- `Replication`: the replication step as pure functions of the environment
  and the log. These are `AwaitCloud` (`connected_to_cloud`), `Upload`
  (`upload_data`), `Fetch` (`get_points`), `Pass` (one pass of the loop in
  `main`), `Startup` (the start-up checks of `main`) and `Replicate`
  (start-up followed by the first pass). The lemmas state what these steps
  promise:
  - AwaitCloud: retry behaviour.
  - Ordering: no local write unless a remote write of that batch returned
    truthy first.
  - Error paths: closing and re-raising.
  - Empty results.
  - Key order and pacing.
  - Start-up: the local check is one-shot and fatal.
- `Uploader`: class `Replicator`, which holds the global state of the script.
  - Fields: the environment, `CONF` and the log of client calls.
  - Each function of the step is a method that makes its client calls one at
    a time, loops as the source loops and marks the batch in place.
  - Each method is proved to end in the state, and with the result, that the
    matching `Replication` function gives.

An exception is modelled as an `Err` result carrying an `Error`. The handlers
of the source become the branches that close clients and pass the same
`Err` on.

Four behaviours of the code are easy to miss, and the model keeps them:

- The tag conditions are not joined into a conjunction. They are concatenated
  with no separator.
- Only the query's `InfluxDBClientError` is caught in `get_points`. Any other
  exception from the query reaches `main` without that first pair of closes.
  In both cases `main` then closes both clients again.
- A remote write that returns falsy is not an error. Nothing is marked,
  nothing is written locally, and the loop goes on.
- Only the first series of the query result is turned into a batch.

## Model

| member | source | states |
|---|---|---|
| Dicts.Get | uploader/uploader.py:103 | `d[k]` finds a value exactly when the key is present, and the value is the one stored under it |
| Dicts.Remove | uploader/uploader.py:105 | `del d[k]` leaves no entry for k, keeps every other key's value, adds no entry and keeps the keys distinct |
| Dicts.Put | uploader/uploader.py:56 | `d[k] = v`: replaces the value of an existing key in place or appends a new entry; its contract is stated by Dicts.GetPut and Dicts.PutIdempotent |
| Dicts.GetPut | uploader/uploader.py:56 | after `d[k] = v`, k reads v and every other key reads as before |
| Dicts.PutEntries | uploader/uploader.py:56 | `d[k] = v` stores only `v` and old entries, grows the dict by one exactly when k is new, and keeps the keys distinct |
| Dicts.PutIdempotent | uploader/uploader.py:56 | setting `status` twice to the same value is the same as setting it once |
| Dicts.GetReplace | uploader/uploader.py:56 | assigning to a key that is already present changes the lookup of that key only |
| Values.ToFloat | uploader/uploader.py:55 | `float(v)` fails exactly for `None` and unparsable text; ints convert exactly, and floats are returned unchanged |
| Config.StreamSections | uploader/uploader.py:161-163 | the loop visits exactly the sections whose key is neither `local` nor `cloud` |
| QueryText.SelectQuery | uploader/uploader.py:74-80 | the query text of a source; its contract is stated by QueryText.QueryWithOneTag, QueryWithTwoTags, TagClauseAt, JoinQuoted and DecimalRoundTrip |
| QueryText.JoinQuoted | uploader/uploader.py:75-76 | `"` + `'","'.join(fields)` + `"` equals the comma-separated list of the separately quoted field names |
| QueryText.TagClauseAppend | uploader/uploader.py:74 | the tag clause of a split tag map is the clauses of its parts abutted, with no separator |
| QueryText.TagClauseAt | uploader/uploader.py:74 | every tag's `"k"='v'` condition appears in key order, directly between its neighbours |
| QueryText.QueryWithOneTag | uploader/uploader.py:74-80 | with one tag the query is exactly `SELECT "f1",…,"fn" FROM "m" WHERE "status"=0 AND "k"='v' LIMIT L` |
| QueryText.QueryWithTwoTags | uploader/uploader.py:74-80 | with two tags the two conditions are adjacent, with no `AND` between them |
| QueryText.NatDigitsValue | uploader/uploader.py:79 | the numeral written for a non-negative limit is all digits, and its value is the limit |
| QueryText.DecimalRoundTrip | uploader/uploader.py:79 | the limit is written as a numeral that an independent reader parses back to the same integer |
| Points.ToPoint | uploader/uploader.py:96-106 | a row becomes a point with the source's measurement and tags and the row's time. Its fields are the row without `time`, every other column keeping its value. A missing `time` raises KeyError |
| Points.ToBatch | uploader/uploader.py:92-107 | one point per row, in row order, each the conversion of its row. KeyError('time') exactly when some row lacks `time` |
| Points.BuildBatch | uploader/uploader.py:92-107 | the append loop over the series builds exactly ToBatch's batch |
| Points.Coerce | uploader/uploader.py:54-55 | the coercion loop over one point's fields, keeping their number; its contract is stated by Points.CoerceSpec, CoerceStops and GetCoerced |
| Points.CoerceSpec | uploader/uploader.py:54-55 | keys and order are kept. The loop completes exactly when every value converts, leaving each as its float. Otherwise it stops with the exception of a value that fails |
| Points.CoerceFields | uploader/uploader.py:54-55 | the in-place coercion loop over one point's fields ends as Coerce says |
| Points.GetCoerced | uploader/uploader.py:54-55 | after a complete coercion, every key reads the float of its old value |
| Points.CoerceStops | uploader/uploader.py:54-55 | the coercion stops at the first failing field: fields before it are converted, that field and later ones are untouched, and its exception is raised |
| Points.CoerceFloats | uploader/uploader.py:55 | fields that already hold floats are left unchanged |
| Points.MarkPoint | uploader/uploader.py:53-56 | one iteration of the outer marking loop; its contract is stated by Points.MarkPointSpec and MarkIdempotent |
| Points.MarkAll | uploader/uploader.py:53-56 | the marking loop over the batch, keeping its length; its contract is stated by Points.MarkAllComplete, MarkAllSpec and MarkAllStops |
| Points.MarkPointSpec | uploader/uploader.py:53-56 | marking keeps measurement, tags and time. It succeeds exactly when every field converts. Then `status` reads 1.0, every other key reads the float of its old value, the keys are the old keys plus `status`, and all values are floats |
| Points.MarkIdempotent | uploader/uploader.py:53-56 | marking a marked point changes nothing |
| Points.MarkAllComplete | uploader/uploader.py:53-56 | the marking loop completes exactly when every point marks, and then each point is its marked form |
| Points.MarkAllSpec | uploader/uploader.py:53-56 | after a complete marking, point i keeps its measurement, tags and time. `status` reads 1.0 and every other field reads its float |
| Points.MarkAllStops | uploader/uploader.py:53-56 | a failing point stops the loop. Earlier points are marked, the failing point is partly converted, later points are untouched, and that point's exception is raised |
| Points.MarkInPlace | uploader/uploader.py:53-56 | the nested in-place loops leave the array as MarkAll of its old contents, and return MarkAll's exception |
| Clients.Ping | uploader/uploader.py:35 | `ping()`; its contract is stated by Clients.PingRecorded |
| Clients.PingRecorded | uploader/uploader.py:35 | a ping takes the next scripted outcome of its store, moves only that store's ping counter and records exactly itself |
| Clients.Write | uploader/uploader.py:49 | `write_points(...)`; its contract is stated by Clients.WriteRecorded |
| Clients.WriteRecorded | uploader/uploader.py:49 | a write takes the next scripted outcome of its store for that batch, moves only that store's write counter and records exactly itself |
| Clients.Query | uploader/uploader.py:83 | `query(...)`; its contract is stated by Clients.QueryRecorded |
| Clients.QueryRecorded | uploader/uploader.py:83 | a query takes the next scripted result for its text, moves only the query counter and records exactly itself |
| Clients.Sleep | uploader/uploader.py:43 | `time.sleep(...)`; its contract is stated by Clients.SleepCloseRecorded |
| Clients.CloseBoth | uploader/uploader.py:61-62 | two `close()` calls in order; its contract is stated by Clients.SleepCloseRecorded |
| Clients.SleepCloseRecorded | uploader/uploader.py:61-62 | a sleep and a pair of closes move no counter and only record themselves, the closes in the given order |
| Replication.AwaitCloud | uploader/uploader.py:28-43 | connected_to_cloud; its contract is stated by Replication.AwaitCloudSpec, AwaitCloudQuiet and AwaitCloudPings |
| Replication.AwaitCloudSpec | uploader/uploader.py:28-43 | the retry adds cloud pings alternating with 30-second waits. Every ping but the last raised ConnectionError. Only cloud pings are counted. It returns True right after a ping that did not raise, and otherwise fails with the last ping's exception |
| Replication.AwaitCloudQuiet | uploader/uploader.py:28-43 | waiting for the cloud writes nothing, queries nothing, changes no write counter, and succeeds only with True |
| Replication.AwaitCloudPings | uploader/uploader.py:33-43 | the pings of a retry take consecutive scripted ping outcomes, with no attempt limit |
| Replication.Upload | uploader/uploader.py:45-63 | upload_data; its contract is stated by Replication.UploadOrder, UploadSends, UploadMarksAfterRemote and the Upload outcome lemmas below |
| Replication.UploadSends | uploader/uploader.py:47-49 | once the cloud answered, the very batch given to upload_data is sent to the cloud and recorded with its outcome, whatever happens afterwards |
| Replication.UploadOrder | uploader/uploader.py:45-63 | upload_data only adds to the trace, and every local write comes directly after a truthy remote write of the batch that the local write marks |
| Replication.UploadMarksAfterRemote | uploader/uploader.py:49-56 | the batch is changed only if a remote write of that batch returned truthy |
| Replication.UploadOffline | uploader/uploader.py:47 | when the cloud check fails, the batch is unchanged, nothing is written and the ping's exception propagates |
| Replication.UploadRemoteFalsy | uploader/uploader.py:49-58 | a falsy remote write: nothing is marked, there is no local write and no exception |
| Replication.UploadRemoteRaised | uploader/uploader.py:48-63 | a raising remote write: nothing is marked and there is no local write. Both clients are closed (cloud, then local) and the same exception propagates |
| Replication.UploadMarkingFails | uploader/uploader.py:53-63 | a conversion error while marking: no local write, both clients closed, and the same exception propagates |
| Replication.UploadMarked | uploader/uploader.py:53-63 | after a truthy remote write and a complete marking, the marked batch is written locally. upload_data succeeds exactly when that write does not raise; if it raises, both clients are closed and its exception propagates |
| Replication.Fetch | uploader/uploader.py:66-111 | get_points; its contract is stated by Replication.FetchOrder, FetchEmpty, FetchUploads, FetchMissingTime and FetchQueryRaised |
| Replication.FetchEmpty | uploader/uploader.py:82-89 | an empty result: one query and nothing more. No batch, no upload, no exception |
| Replication.FetchUploads | uploader/uploader.py:88-111 | with a non-empty result whose rows all have `time`: the query is the first new event, the batch has one point per row carrying the source's measurement and tags and the row's time, once the cloud answers that very batch is written to the cloud, and get_points raises exactly what the upload raised |
| Replication.FetchMissingTime | uploader/uploader.py:93-103 | a row without `time` raises KeyError after the query, and nothing is uploaded |
| Replication.FetchQueryRaised | uploader/uploader.py:82-87 | an exception from the query propagates. Only InfluxDBClientError closes both clients (local, then cloud) here |
| Replication.FetchOrder | uploader/uploader.py:66-111 | get_points sends exactly its source's query, keeps the ordering rule and only adds to the trace; a section without a tag map raises KeyError('tags') and records nothing |
| Replication.Pass | uploader/uploader.py:160-169 | one pass of the source loop; its contract is stated by Replication.PassSpec |
| Replication.PassSpec | uploader/uploader.py:160-169 | a pass keeps the ordering rule. Without an exception it visits exactly the stream sections in key order, one query and one 5-second wait each. With an exception it has taken a prefix of those steps and closed both clients last, and the exception is the one a visit raised (Replication.PassRaised) |
| Replication.PassRaises | uploader/uploader.py:162-169 | a pass fails only when the fetch of some non-reserved section raised; it re-raises that exception unchanged and ends by closing local then cloud right after that fetch |
| Replication.Startup | uploader/uploader.py:148-158 | the start-up checks of main; its contract is stated by Replication.StartupSpec and StartupQuiet |
| Replication.StartupSpec | uploader/uploader.py:148-158 | the local store is pinged exactly once, first. Its ConnectionError closes both clients before any cloud ping. Start-up succeeds only after the local ping and then a cloud ping answered. Any other exception of the local ping is raised with no close and no further event. An answered local ping is followed by connected_to_cloud's retry run, and start-up then returns True or the last cloud ping's exception |
| Replication.StartupQuiet | uploader/uploader.py:148-158 | the start-up checks query nothing, write nothing, and succeed only with True |
| Replication.Replicate | uploader/uploader.py:148-169 | start-up, then the first pass; its contract is stated by Replication.ReplicateSpec |
| Replication.ReplicateSpec | uploader/uploader.py:148-169 | over a whole run the ordering rule holds, no source is queried unless start-up succeeded, and the sources are visited as planned. A failed run failed either in start-up, with start-up's exception, or in the first pass, with the exception a visit raised |
| Uploader.Replicator.constructor | uploader/uploader.py:118-146 | the state once both clients exist: the configuration, and no calls made yet |
| Uploader.Replicator.PingStore | uploader/uploader.py:35 | one recorded ping |
| Uploader.Replicator.WritePoints | uploader/uploader.py:49 | one recorded `write_points` |
| Uploader.Replicator.QueryLocal | uploader/uploader.py:83 | one recorded query |
| Uploader.Replicator.SleepFor | uploader/uploader.py:43 | one recorded `time.sleep` |
| Uploader.Replicator.CloseClients | uploader/uploader.py:61-62 | the two recorded `close()` calls |
| Uploader.Replicator.ConnectedToCloud | uploader/uploader.py:28-43 | the `cloud_connected` flag loop ends in AwaitCloud's state and result |
| Uploader.Replicator.UploadData | uploader/uploader.py:45-63 | upload_data on an array ends with Upload's log, batch contents and result |
| Uploader.Replicator.GetPoints | uploader/uploader.py:66-111 | get_points, building the batch with the append loop and uploading it as an array, ends as Fetch says |
| Uploader.Replicator.SourceLoop | uploader/uploader.py:160-169 | the `for config in CONF.keys()` loop ends as Pass says |
| Uploader.Replicator.Connect | uploader/uploader.py:148-158 | the start-up checks end as Startup says |
| Uploader.Replicator.Run | uploader/uploader.py:148-169 | main, after the clients are built, ends its first pass as Replicate says |

## Left out

- Reading the TOML file, and the connection keys of `local` and `cloud`: file I/O and a foreign parser. The configuration is an input.
- Building the clients, TLS and credential options, and silencing the urllib3 warning: these wrap libraries that are not part of this model.
- What the stores do with a query or a write. This covers the `status=0` filter, `LIMIT`, and overwriting a point with the same measurement, tags and time. Outcomes are scripted by the environment.
- The `epoch='ms'` argument of the query (line 83) and `time_precision='ms'` of both writes (lines 49 and 58). They fix only the unit in which the stores read and store point times, and what the stores do with a point is already left out. `Queried` and `Wrote` events therefore do not carry them.
- Logging, and the real duration of `time.sleep`. Sleeps are recorded as trace events with their seconds.
- `KeyboardInterrupt` and `sys.exit(0)`: signals are outside a sequential model.
- The `while True` around the source loop: the model runs one pass, and any later pass starts again from the `Pass` state.
- Runs where the cloud never again answers a ping. The source blocks forever there. The model requires that every run of ConnectionErrors is finite (`EventuallyReachable`).
- Values.ToFloat: float() is exact here. There is no rounding to a double, and the OverflowError that float() raises for an int too large for a double is not modelled. Text parsing is an input function returning a real, so it cannot yield the NaN and ±inf that `float('nan')` and `float('inf')` give in Python.
- Points.ToPoint: the row dict itself is reused as the point's `fields` dict and the source's tag dict is shared by all points. The model copies values, so this aliasing is not captured. It is not observable in the source after the batch is built.
- A source section that lacks `fields`, `measurement` or `limit` while having `tags`. A source is either complete or a section with no tag map, which raises KeyError('tags') at line 74.
- The `if 'tags' in conf` test at line 101 is always true in the model. Line 74 would already have raised KeyError without it.
- setup.py: packaging metadata.
