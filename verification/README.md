# Performance Monitor API — a Dafny model of its core

This project models the core of the Performance Monitor API in Dafny. Several parts are covered:

- The retention store (`DatabaseManager`). It has three tables: metrics, errors and API keys. The model covers:
  - the inserts;
  - the newest-first filtered queries behind `get_metrics` and `get_errors`;
  - the eviction that keeps the `MAX_HISTORY_RECORDS` newest metric rows;
  - API-key creation and validation.
- The monitoring engine (`PerformanceMonitor`). The model covers:
  - its threshold map;
  - `log_error`;
  - the diagnostic catalog and the impact score;
  - the logging and saving that `monitor_function` does once the wrapped body has ended;
  - one pass of the background monitoring loop;
  - the `require_api_key` guard;
  - the threshold update of `manage_thresholds`.
- The client-side helpers of `python_client.py`: averages, peaks, error counts and base-URL normalisation.

The repository has two server files that share this core. The difference that matters here is where eviction happens:

- `enhanced_monitor_api.py` evicts inside `save_metric`. This is `Variant.InlineEviction`.
- `app.py` evicts in the background loop. This is `Variant.PeriodicEviction`.

The model separates pure logic from state:

- The store is a class, `Store.DatabaseManager`, whose fields are the tables; its methods update them in place.
- Each method is specified against a function on the value `Retention.Tables`, through `State()`.
- `Monitoring.PerformanceMonitor` owns a store and the mutable threshold map.
- Pure computations are functions. This covers the catalog, the impact score, the rows a monitoring window logs, a background cycle and the authentication decision.
- Lemmas state the properties the source promises.

Some things outside the program become parameters or opaque values:

- host samples (`Types.Sample`);
- clock readings and formatted messages (`now`, message strings);
- tracebacks;
- the password-hash check (`matches`);
- a store exception in the background loop (`Monitoring.Fault`).

Row order in a table is insertion order. It stands in for `created_at`.

## Model

| member | source | states |
|---|---|---|
| Types.Upper | enhanced_monitor_api.py:405 | `str.upper()` on ASCII: it keeps the length, lifts each lower-case letter, leaves every other character alone, and leaves no lower-case letter. |
| Diagnostics.Explain | enhanced_monitor_api.py:356-368 | A catalogued error type yields exactly its catalog explanation. Any other type yields the generic template: the fixed prefix, then the type, then the fixed infix, then the message. |
| Diagnostics.SuggestFix | enhanced_monitor_api.py:370-381 | A catalogued error type yields exactly its catalog fix. Any other type yields the generic advice: the fixed prefix, then the type, then the fixed suffix, whatever the message. |
| Diagnostics.ExplainUsesMessageOnlyForUnknownTypes | enhanced_monitor_api.py:356-368 | Two messages give the same explanation for a catalogued type. For an uncatalogued type, different messages give different explanations. |
| Diagnostics.SuggestFixDeterminedByType | enhanced_monitor_api.py:370-381 | The suggested fix never depends on the message. Two distinct uncatalogued types get distinct fixes. |
| Diagnostics.CatalogCoverage | enhanced_monitor_api.py:358-381 | The fix catalog covers exactly the explained types except DATABASE_ERROR. DATABASE_ERROR gets its catalogued explanation but the generic fix. |
| Diagnostics.PerformanceImpact | enhanced_monitor_api.py:383-390 | The impacts are never negative. The CPU impact is positive iff CPU > 20 %, and the memory impact iff memory > 30 %. Severity is at most 10, is non-negative for non-negative readings, and equals 10 iff CPU + memory ≥ 200. An unavailable sample (`{}`) gives all zeros. |
| Diagnostics.ImpactMonotone | enhanced_monitor_api.py:383-390 | A sample with higher CPU and memory never has lower impacts or lower severity. |
| Retention.Newest | enhanced_monitor_api.py:209-212 | A `WHERE … ORDER BY created_at DESC LIMIT n` query returns at most `n` rows, every one of which matches the filter and is in the table. |
| Retention.NewestIsNewestFirst | enhanced_monitor_api.py:209 | The query's rows have strictly decreasing ids: newest first. |
| Retention.NewestSize | enhanced_monitor_api.py:209-210 | The query returns exactly min(n, number of matching rows) rows. |
| Retention.NewestSkipsOnlyOlder | enhanced_monitor_api.py:209-210 | A matching row left out is older than every returned row. It is left out only because `n` rows were already returned. |
| Retention.KeepNewest | enhanced_monitor_api.py:241-252 | Eviction keeps min(n, max) rows, and they are the newest ones, as a suffix of the table in order. |
| Retention.KeepNewestIdempotent | enhanced_monitor_api.py:241-252 | Evicting twice with the same cap is evicting once. |
| Retention.NewestUnfilteredAt | enhanced_monitor_api.py:246-250 | The inner unfiltered `LIMIT max` selection returns the last `max` rows, newest first. |
| Retention.KeepNewestIsDeleteNotIn | enhanced_monitor_api.py:246-250 | The rows eviction keeps are exactly those whose id the inner `SELECT id … LIMIT max` returns, so `DELETE … WHERE id NOT IN (…)` is the suffix. |
| Retention.QueryMetrics | enhanced_monitor_api.py:197-215 | `get_metrics` returns at most `limit` rows, all from the table. With a key, every row belongs to that key. Without one, they are the last min(limit, n) rows, newest first. |
| Retention.QueryErrors | enhanced_monitor_api.py:217-239 | `get_errors` returns at most `limit` rows. Every row has the upper-cased level filter, when one is given, and the owner, when one is given. |
| Retention.QueryErrorsNewestFirst | enhanced_monitor_api.py:217-239 | Error rows come back newest first, and exactly min(limit, number of matching rows) of them. |
| Retention.QueryMetricsNewestFirst | enhanced_monitor_api.py:197-215 | Metric rows come back newest first, exactly min(limit, number of rows the filter admits) of them, and a matching row is left out only when it is older than every returned one. |
| Retention.FirstActiveMatch | enhanced_monitor_api.py:277-291 | The index found is that of an active row whose hash accepts the key, with no such row before it. None means no active row accepts it. |
| Retention.TouchHash | enhanced_monitor_api.py:283-287 | The `UPDATE … WHERE key_hash = ?` keeps the number of key rows (its effect row by row is in TouchHashChangesOneRow). |
| Retention.TouchHashChangesOneRow | enhanced_monitor_api.py:283-287 | With unique hashes, the update sets `last_used` on the one row with that hash, and every other row is unchanged. |
| Retention.Tables.InsertMetric | enhanced_monitor_api.py:161-176 | The insert appends one metric row whose id exceeds every earlier one. It keeps the table valid and changes nothing else. |
| Retention.Tables.InsertError | enhanced_monitor_api.py:180-195 | `save_error` appends one error row with the next id. It keeps the tables valid and changes nothing else. |
| Retention.Tables.InsertErrors | enhanced_monitor_api.py:180-195 | Saving several errors appends them in order, with consecutive ids, leaving earlier rows and the other tables unchanged. |
| Retention.Tables.CleanupOldMetrics | enhanced_monitor_api.py:241-252 | Cleanup leaves the metrics as `KeepNewest`, keeps the tables valid and touches no other table. |
| Retention.Tables.TouchKey | enhanced_monitor_api.py:272-291 | Validation changes no metric or error row, and no id counter. It keeps the tables valid and the number of key rows. |
| Retention.Tables.InsertKey | enhanced_monitor_api.py:254-270 | Creating a key keeps the tables valid, including unique hashes, and leaves metrics and errors unchanged. A new hash adds one row, holding that hash and name, active and never used, after the earlier rows. A hash already present changes nothing. |
| Retention.Tables.SaveMetric | enhanced_monitor_api.py:161-178 | `save_metric` keeps the tables valid, leaves errors and keys alone and uses one metric id. In app.py the row is appended. In enhanced_monitor_api.py the result is the newest min(n + 1, max) rows of the grown table, in order. |
| Retention.ValidateApiKeyEffect | app.py:266-285 | A key validates iff some active row's hash accepts it. On failure nothing changes. On success the first accepting active row gets `last_used` set, and no other row changes. |
| Retention.CreatedKeyValidates | enhanced_monitor_api.py:254-291 | A newly created key adds one row, and the token it was hashed from validates from then on. |
| Retention.SaveMetricPeriodicAppends | app.py:158-172 | In app.py `save_metric` appends exactly one row with the next id, leaving every earlier row untouched. |
| Retention.SaveMetricInlineBounded | enhanced_monitor_api.py:161-178 | In enhanced_monitor_api.py `save_metric` keeps the tables valid and leaves min(n + 1, max) rows. |
| Retention.SaveMetricInlineKeepsNewRow | enhanced_monitor_api.py:161-178 | With max ≥ 1 the newly saved row survives eviction as the newest row, and every other surviving row was already there. |
| Retention.SaveAllInlineStaysBounded | enhanced_monitor_api.py:161-178 | With eviction after each insert, a table within the cap stays valid and within the cap after any number of saves. |
| Retention.SaveMetricAsWritten | enhanced_monitor_api.py:241-252 | As written, `save_metric` raises every time. The committed insert stays, and nothing is evicted. |
| Retention.AsWrittenSavesNeverEvict | enhanced_monitor_api.py:246-250 | As written, a table already at the cap grows by one row per save, without bound. The corrected `SaveMetric` leaves it at the cap. |
| Store.DatabaseManager.constructor | enhanced_monitor_api.py:83-87 | A store opened on a fresh database has three empty, valid tables whose ids start at 1. |
| Store.DatabaseManager.SaveMetric | enhanced_monitor_api.py:161-178 | The new state is `Tables.SaveMetric` of the old state, for this store's variant and cap, and it stays valid. |
| Store.DatabaseManager.SaveError | enhanced_monitor_api.py:180-195 | The new state is the old state with the error row inserted, and it stays valid. |
| Store.DatabaseManager.GetMetrics | enhanced_monitor_api.py:197-215 | It returns the newest-first filtered query of the metrics table and changes nothing. |
| Store.DatabaseManager.GetErrors | enhanced_monitor_api.py:217-239 | It returns the newest-first level- and owner-filtered query of the errors table and changes nothing. |
| Store.DatabaseManager.CleanupOldMetrics | enhanced_monitor_api.py:241-252 | The new state is the old state with the metrics evicted down to the cap. |
| Store.DatabaseManager.CreateApiKey | enhanced_monitor_api.py:254-270 | It returns the key iff no row has the same hash, and stores an active, never-used row for it. Otherwise the UNIQUE constraint rejects it and nothing changes. |
| Store.DatabaseManager.ValidateApiKey | enhanced_monitor_api.py:272-291 | The scan answers `KeyIsValid` of the old state and leaves `TouchKey` of the old state. |
| Monitoring.NewErrorLog | enhanced_monitor_api.py:329-354 | The logged row carries the type, message, level, function name and owner as given. The traceback is the one being handled, or the fixed sentinel. The impacts are `PerformanceImpact` of the sample taken at logging time, so they are non-negative and severity is at most 10. The explanation and fix columns are not stored: they are `Diagnostics.Explain` and `Diagnostics.SuggestFix` of the row's type and message. |
| Monitoring.LowerCaseLevelIsNeverFound | enhanced_monitor_api.py:225-227 | The level is stored as passed, but the filter is upper-cased. A row whose level holds a lower-case letter never matches a level query. |
| Monitoring.FinallyRaisesOnlyUnderNegativeThreshold | enhanced_monitor_api.py:414-420 | The CPU check in `finally` reads `end_metrics['cpu_usage']` from a failed sample, and so raises KeyError, iff the sample failed and `thresholds['cpu']` is negative. |
| Monitoring.MonitorLogs | enhanced_monitor_api.py:401-433 | A window writes at most three error rows, and every one carries the window's function name and API key. |
| Monitoring.MonitorMetric | enhanced_monitor_api.py:435-448 | The saved metric has status "completed", the measured execution time, the window's function name and key, and the end sample's readings. A failed sample gives zeros. |
| Monitoring.MonitorLogsCount | enhanced_monitor_api.py:401-433 | When the `finally` block runs to the end, a window logs one row for a raising body, one for CPU above its threshold and one for a response time above its threshold. When the CPU check raises KeyError, only the raising body's row is logged. |
| Monitoring.MonitorErrorRowFirst | enhanced_monitor_api.py:403-410 | A raising body's row comes first. It is an ERROR row typed with the upper-cased class name and carrying the exception's message and traceback. Every other row is a WARNING. |
| Monitoring.RowsLayout | enhanced_monitor_api.py:403-433 | Layout of a window's rows: the ERROR row, then HIGH_CPU_USAGE, then SLOW_RESPONSE, each present only when its condition holds. |
| Monitoring.MonitorWarnsOnHighCpu | enhanced_monitor_api.py:417-424 | A window logs a HIGH_CPU_USAGE warning iff the end sample is a reading whose CPU strictly exceeds `thresholds['cpu']`. |
| Monitoring.MonitorWarnsOnSlowResponse | enhanced_monitor_api.py:414-433 | A window logs a SLOW_RESPONSE warning iff the CPU check did not raise and the execution time strictly exceeds `thresholds['response_time']`. |
| Monitoring.MonitorCpuWarningBeforeSlow | enhanced_monitor_api.py:417-433 | When both warnings are logged, the CPU warning precedes the slow-response warning. |
| Monitoring.MonitorSavesAtMostOneMetric | enhanced_monitor_api.py:414-450 | A window whose `finally` block runs to the end, failing body or not, saves exactly one metric row. In app.py that row is appended; in enhanced_monitor_api.py it is the newest row left, within the cap. A window whose CPU check raises saves none. Error rows are appended in order. |
| Monitoring.FinallyKeyErrorKeepsOnlyTheErrorRow | enhanced_monitor_api.py:403-450 | When the CPU check raises KeyError, the window keeps only the `except` block's row: no warning and no metric. |
| Monitoring.MonitorStagesCompose | enhanced_monitor_api.py:401-450 | Running the except block and the CPU check, then the slow check and the save unless the CPU check raised, gives the window's combined effect. |
| Monitoring.CycleWarningsInOrder | app.py:647-661 | Logging the CPU check's row, if written, and then the memory check's row, if written, stores the same table as logging the cycle's warning list at once. |
| Monitoring.Cycle | app.py:641-672 | A cycle sleeps 60 s iff it logs a BACKGROUND_MONITOR_ERROR ERROR row, and 30 s otherwise. It evicts iff this is app.py and nothing raised. Every warning it writes is a WARNING of `background_monitor` without owner. |
| Monitoring.WarningRaisesWhen | app.py:647-661 | The threshold checks raise iff a check fires on a failed sample, whose missing key raises KeyError, or on a store write that raises. |
| Monitoring.CycleOutcome | app.py:641-672 | A cycle logs a failure iff a threshold check fires on a failed sample or a failing write, or, in app.py, the cleanup raises. |
| Monitoring.CycleWarnsIffOverThreshold | app.py:647-661 | When no check meets a failed sample and nothing raises, a cycle warns on CPU and on memory iff each strictly exceeds its threshold, one row each, and sleeps 30 s. |
| Monitoring.CycleFailedSampleRaisesKeyError | app.py:647-672 | A check that fires on a failed sample raises KeyError on the missing key. The cycle writes no warning, skips eviction, logs the KeyError's text and traceback and sleeps 60 s. |
| Monitoring.CycleStoreFaultIsLogged | app.py:641-672 | On a sample no check fails on, a failure comes only from a store exception, and the failure row carries that exception's message and traceback. |
| Monitoring.CleanCycleBoundsMetrics | app.py:663-669 | In app.py a cycle that completes, on a sample no check fails on, leaves at most `max` metric rows, the newest ones, whatever came before. |
| Monitoring.CycleAsWritten | app.py:641-672 | As written, a cycle ends the thread iff its sample crosses a threshold or, in app.py, the cleanup raises. Otherwise it goes on, logs nothing and sleeps 30 s, evicting iff this is app.py. |
| Monitoring.BackgroundWarningsAreLostAsWritten | app.py:647-661 | For a real reading, the thread dies as written exactly when the corrected `Cycle` would have logged a warning. The corrected cycle then sleeps 30 s without failure. |
| Monitoring.RejectedRequestsNeverRunTheHandler | app.py:477-503 | A rejected request leaves exactly one new AUTHENTICATION_ERROR WARNING row, changes no metric or key row and never runs the handler. An accepted request logs nothing. |
| Monitoring.Authenticate | enhanced_monitor_api.py:486-512 | A request is rejected with 401 iff the header is missing or empty, or no active key accepts it. An accepted key is passed on, and only its `last_used` is touched. |
| Monitoring.Merge | app.py:573 | `dict.update`: supplied keys take the new values, and all other keys keep theirs. No key is dropped. |
| Monitoring.MergesKeepDefaultKeys | app.py:573 | No sequence of updates removes a key. The four default thresholds stay present, so the lookups that use them never miss. |
| Monitoring.PerformanceMonitor.constructor | enhanced_monitor_api.py:296-306 | A new monitor on a fresh database has an empty store and thresholds cpu 80, memory 80, disk 90 and response_time 5. |
| Monitoring.PerformanceMonitor.LogError | enhanced_monitor_api.py:329-354 | The store's new state is the old state with `NewErrorLog` inserted. |
| Monitoring.PerformanceMonitor.LogRaised | enhanced_monitor_api.py:403-410 | It logs exactly the window's ERROR row, if the body raised. |
| Monitoring.PerformanceMonitor.LogHighCpu | enhanced_monitor_api.py:414-424 | It logs exactly the window's HIGH_CPU_USAGE row, if any, and reports whether the check raised KeyError on a failed sample. |
| Monitoring.PerformanceMonitor.LogSlow | enhanced_monitor_api.py:426-433 | It logs exactly the window's SLOW_RESPONSE row, if any. |
| Monitoring.PerformanceMonitor.MonitorFunction | enhanced_monitor_api.py:392-452 | It re-raises the body's outcome unchanged, unless the CPU check raises KeyError, which replaces it. The store ends as `AfterMonitor` of the window's logs and its metric, if one was saved. |
| Monitoring.PerformanceMonitor.BackgroundCycle | app.py:641-672 | The store ends as `AfterCycle` of `Cycle`, and the method answers the cycle's sleep interval. |
| Monitoring.PerformanceMonitor.BackgroundWarnings | app.py:647-661 | The CPU check runs first. The memory check is reached only if the CPU check did not raise. The store gains exactly the WARNING rows that were written, in order, and the answer is the exception raised, if any. |
| Monitoring.PerformanceMonitor.BackgroundWarning | app.py:647-653 | One threshold check: it writes one WARNING row with owner `background_monitor` iff the check fires and neither the sample's missing key nor the write raises. It answers the exception raised, if any. |
| Monitoring.PerformanceMonitor.RequireApiKey | enhanced_monitor_api.py:486-512 | The store change and the answer are exactly `Authenticate` of the old state. |
| Monitoring.PerformanceMonitor.UpdateThresholds | app.py:564-580 | The POST branch merges a JSON object into the thresholds without logging a row of its own. A body `update` rejects logs THRESHOLD_UPDATE_ERROR and keeps the thresholds. The `monitor_function` window around the branch is `MonitorFunction`'s, run after it against the thresholds it set. |
| ClientStats.CalculateAverages | python_client.py:267-294 | An empty list gives the empty dict. Otherwise each of the four fields is the sum of its values, with a missing field counted as 0, divided by the count. |
| ClientStats.TotalBounds | python_client.py:280-291 | When every value lies in [lo, hi], the total lies in [n·lo, n·hi]. |
| ClientStats.AverageWithinBounds | python_client.py:280-294 | When every value lies in [lo, hi], so does the average. |
| ClientStats.FindPeakUsage | python_client.py:297-338 | An empty list gives the empty dict. Otherwise it gives the peak of CPU, memory and execution time, each with its timestamp and function. |
| ClientStats.PeakDominates | python_client.py:310-336 | The peak value is at least 0 and at least every value of that field in the list. |
| ClientStats.PeakUnsetIff | python_client.py:310-336 | No peak is recorded iff no metric has a positive value for that field, since the scan starts from 0 with a strict comparison. |
| ClientStats.PeakIsEarliestMaximum | python_client.py:316-336 | The recorded peak comes from the first metric that attains the maximum; later ties do not replace it. |
| ClientStats.CountErrorsByType | python_client.py:341-355 | The loop builds exactly `Tally` of the list. |
| ClientStats.TallyCountsEachType | python_client.py:351-355 | The keys are exactly the types present, with a missing type counted as "UNKNOWN", and each count is the number of errors of that type. |
| ClientStats.TallySumsToLength | python_client.py:351-355 | The counts add up to the number of errors. |
| Client.RStripSlash | python_client.py:46 | `rstrip('/')` returns a prefix that does not end in '/', and everything it removed was '/'. |
| Client.RStripSlashIdempotent | python_client.py:46 | Stripping twice is stripping once. |
| Client.TrailingSlashesDoNotMatter | python_client.py:46 | Any number of trailing slashes on the configured URL gives the same base. |
| Client.PerformanceMonitorClient.constructor | python_client.py:37-53 | The client stores the stripped URL, which never ends in '/', plus the key and timeout. |
| Client.RequestUrlHasOneSlashAtJoin | python_client.py:46-70 | A client's request URL does not depend on how many trailing slashes the configured URL had. For an endpoint beginning with '/', the join has exactly one '/'. |

## Left out

- Host sampling through `psutil` is not modelled. A sample is a parameter (`Types.Sample`), and a failed sample is `Unavailable`, which reads as zeros like `.get(…, 0)` on `{}`. When a threshold check fires on it, the source indexes the missing key and raises KeyError, and the model follows that path.
- The start sample `monitor_function` takes before the body runs is never used, so it is not modelled.
- The `logger.error` line at the end of `log_error` is not modelled. It writes to the process log, not to the store.
- Only `except Exception` is modelled. A `BaseException` that is not an `Exception`, such as `KeyboardInterrupt`, passes through the `except` blocks and is not modelled.
- Clock readings, `time.time()` arithmetic and the `:.2f` formatted messages are not modelled. They are parameters: `now`, `elapsed` and the message strings.
- SQL text, connections, commits and Flask's `g` are not modelled. Each operation's effect on the tables is modelled as one atomic step.
- Store exceptions are modelled only in the background loop (`Monitoring.Fault`). On the request path the store is assumed not to raise:
- `Monitoring.PerformanceMonitor.MonitorFunction`: a raising `log_error` or `save_metric` would replace the body's outcome and cut the `finally` block short. The model does not capture this.
- `Monitoring.PerformanceMonitor.RequireApiKey`: a raising `validate_api_key` or `log_error` would end the request before the handler. The model does not capture this.
- `Monitoring.PerformanceMonitor.LogError`: a raising `save_error` is not modelled; the row is always stored.
- `explanation` and `suggested_fix` are not stored in `Types.ErrorLog`. `log_error` computes both from the error type and message, so the model derives them with `Diagnostics.Explain` and `Diagnostics.SuggestFix` instead of copying them into each row.
- `created_at` is not modelled as a timestamp. Insertion order stands for it, so rows inserted in the same second are ordered by insertion here.
- `validate_api_key` selects active keys without `ORDER BY`. The model scans them in table order.
- A negative `limit` is not modelled. Limits are `nat`.
- `generate_password_hash` is not modelled, and neither is `secrets.token_urlsafe`. The hash check is the parameter `matches`, and the generated key and its hash are parameters of `CreateApiKey`.
- `Store.DatabaseManager.CreateApiKey`: a hash collision, which the UNIQUE constraint turns into an exception, is modelled as a `None` answer.
- Flask routing, CORS, the rate limiter, JSON responses and the `/api/*` handlers beyond `require_api_key` and the threshold update are not modelled. Neither is `simulate_load`.
- The background loop's infinite repetition, real sleeps and its concurrency with request threads are not modelled. The model covers one cycle and its sleep interval.
- The client's HTTP methods, `requests.Session` and retries are not modelled. Only base-URL handling and the static statistics helpers are.
- `init_db.py` is not part of this model.
- Floating point is modelled as `real`. Rounding is not modelled.
- `Types.Upper`: only ASCII letters are case-mapped. Python's full Unicode `str.upper()` is not modelled.
- `Monitoring.PerformanceMonitor.UpdateThresholds`: a JSON object's values are taken as numbers. Any failure of `update` (a non-object body) is the `Malformed` case, so non-numeric values are not modelled. A JSON array of pairs can update some keys before `update` raises on a bad element; the model applies a body wholly or not at all.
- `ClientStats.CalculateAverages`: a key present with a `None` value is treated like a missing key. The source would raise a TypeError on it.
- `ClientStats.FindPeakUsage`: a key present with a `None` value is treated like a missing key. The source's comparison of `None` with the current peak raises a TypeError.
- `ClientStats.CountErrorsByType`: an absent `error_type` and one present with a `null` value are both counted under "UNKNOWN". The source counts the second under the key `None`.
- `Store.DatabaseManager.constructor`: only a fresh database is modelled. `CREATE TABLE IF NOT EXISTS` on an existing database keeps its rows and its id sequences, which the model does not represent.
- Dictionary key order in the client helpers' results is not modelled. Maps are unordered.
- Levels: the level passed to `log_error` is stored as given and only the query filter is upper-cased. The model follows the code here rather than a stored, case-normalised level, and `Monitoring.LowerCaseLevelIsNeverFound` states the consequence.
- Background loop: the loop is intended to be self-healing. The code as written lets its thread die on the first warning, or on a failing cleanup in app.py, which is the second finding below. The rest of the model uses the intended cycle.

## Findings

| source | as written | input that shows it | evidently intended | confidence | as-written member | corrected member |
|---|---|---|---|---|---|---|
| enhanced_monitor_api.py:246-250 | `_cleanup_old_metrics` passes its limit through a `?` placeholder, which the PostgreSQL driver does not substitute. The statement raises after `save_metric` has committed its insert (lines 175-178), so every save raises and no row is ever evicted. | Any `save_metric` call, e.g. with `MAX_HISTORY_RECORDS` rows already stored: the table then holds one row more than the cap. | The placeholder is `%s`, so each save keeps the newest `MAX_HISTORY_RECORDS` rows and returns normally. | high, not executed | Retention.AsWrittenSavesNeverEvict | Retention.SaveAllInlineStaysBounded |
| app.py:641-672 | The background thread calls `monitor.log_error`, whose store connection lookup uses Flask's `g` (app.py:150-156), outside any application context. The handler's own `log_error` raises the same way, so the thread ends. | A background sample with CPU above `thresholds['cpu']`: the warning is never stored and no later cycle runs. | Log the warning and keep cycling every 30 s, backing off 60 s after a failure. | high, not executed | Monitoring.BackgroundWarningsAreLostAsWritten | Monitoring.CycleOutcome |
