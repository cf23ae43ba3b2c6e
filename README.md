# Market-data poller core, modelled in Dafny

This project models the core of a small market-data poller. The poller pulls
OHLC price candles for currency-pair instruments from a remote API, checks
them, and stores them in a SQLite table with an audit trail. Four pieces are
modelled:

- `DataValidator` (`data_validator.dfy`): the batch check `validate_price_data`.
  A batch (frame) of rows passes only if no cell is missing and every row keeps
  `low <= open, close <= high`.
- `ApiClient` (`api_client.dfy`): the credential-shape check, the paced
  request under its five-try retry decorator, the error classification, and
  the candle request with its response check. `OandaApiClient` is a class
  whose `lastRequestTime` field is the pacing watermark.
- `Database` (`database.dfy`): `DatabaseManager` is a class over the price rows
  (`prices`, whose primary key is (instrument, timestamp)), the audit rows
  (`audit`) and the AUTOINCREMENT counter. Its methods model the
  commit/rollback connection, the atomic batch insert, the latest-timestamp
  query and the best-effort audit append.
- `SyncManager` (`sync_manager.dfy`): the prologue of `sync_instrument`. It is
  a method over the per-instrument status and progress maps, plus a ghost
  trace that records the order of its steps.

`Exceptions` (`exceptions.dfy`) turns the exception classes into one `Error`
datatype. It also holds the `Option`, `Result` and `Outcome` wrappers that the
operations return in place of raising.

Modelling conventions:
- Time is an integer number of milliseconds, so `MIN_REQUEST_INTERVAL` (0.01 s) is 10.
- Prices are integers, and are only ever compared.
- The clock and the remote service are oracles passed in as function
  parameters. `clock(k)` gives attempt k's readings and `remote(k)` gives what
  the library does on attempt k.
- Storage faults other than key collisions come in as a `storageFault` flag.
- Sleeps are returned as durations; nothing actually waits.

Where the code and the design description disagree, the model follows the code:
- The watermark moves only when a response arrives, not after a not-found error.
- A not-found answer reaches the caller of `fetch_candles` as `DataIntegrityError`, not as an empty list.
- The minimum interval is 10 ms, not about 100 ms.
- The validator checks nothing about timestamp order.
- A key collision rejects the whole batch with `DatabaseError`. It is never ignored.
- An instrument with no stored rows makes the latest-timestamp query fail (see Findings).

## Model

| member | source | states |
|---|---|---|
| DataValidator.ValidatePriceData | src/data_validator.py:13-29 | empty batch returns True before any check; DataValidationError iff some cell of some row is missing; PriceIntegrityError iff no cell is missing and some row breaks low <= open, close <= high; falls through (None) iff non-empty, null-free and every row well formed; no other error |
| DataValidator.HighBelowLowRedundant | src/data_validator.py:20-26 | for a null-free row the five-way disjunction equals the four open/close comparisons: high < low adds nothing |
| DataValidator.NullCheckPrecedesPriceCheck | src/data_validator.py:17-29 | one missing cell anywhere gives DataValidationError whatever the prices are |
| DataValidator.PriceRejectionPersists | src/data_validator.py:20-29 | a batch rejected for prices stays rejected for prices when null-free rows are appended: one bad row rejects any batch containing it |
| DataValidator.CheckPriceData | src/data_validator.py:13-29 | corrected check: returns Ok(true) exactly for the empty batch or a null-free batch of well-formed rows, and otherwise the same error as the code |
| DataValidator.AcceptedBatchReturnsNone | src/data_validator.py:14-29 | a well-formed one-row batch makes the code as written return None, while the corrected check returns true |
| ApiClient.ValidCredentials | src/api_client.py:25-28 | a token is accepted iff it is non-empty and has at least 10 characters, equivalently iff its length is at least 10 |
| ApiClient.OpenClient | src/api_client.py:14-16 | the constructor fails with SecurityError iff the token fails the shape check, and then builds no client; otherwise a fresh client with watermark 0 and the given environment |
| ApiClient.OandaApiClient.constructor | src/api_client.py:18-23 | a client starts with last_request_time 0 and keeps its environment |
| ApiClient.PacingDelay | src/api_client.py:37-41 | the pacing sleep is never negative; it is zero iff the minimum interval has elapsed; a positive sleep ends exactly one interval after the last request; it is at most one interval unless the clock went backwards |
| ApiClient.ClassifyApiError | src/api_client.py:47-54 | TOO_MANY_REQUESTS iff RateLimitExceeded; INSTRUMENT_NOT_FOUND or PRICE_NOT_FOUND iff a None return; every other code, or no code, is re-raised |
| ApiClient.AttemptResult | src/api_client.py:43-54 | one run of the request body returns a body iff the library responded; returns None iff the error was a not-found code; a rate-limit error is RateLimitExceeded; other library errors are re-raised as they are, other exceptions propagate |
| ApiClient.OandaApiClient.TryOnce | src/api_client.py:36-54 | one attempt sleeps PacingDelay from the watermark, gives AttemptResult of the outcome, and moves the watermark to the post-response time only when a response came back |
| ApiClient.OandaApiClient.MakeRequest | src/api_client.py:30-54 | between 1 and 5 attempts; every attempt but the last raised V20Error or RateLimitExceeded; the run stops early only on a result it does not retry (a response, a not-found None, a foreign exception); the result is the last attempt's; each attempt's sleep is paced from the unchanged watermark; the watermark moves only when the final attempt got a response |
| ApiClient.CandleParams | src/api_client.py:66-85 | every candle request asks for count 5000 and alignment UTC, keeps instrument, granularity and price, truncates both bounds to whole seconds, and sends gzip and RFC3339 headers |
| ApiClient.DefaultCandleParams | src/api_client.py:66-67 | granularity defaults to S10 and price to MBA |
| ApiClient.CheckCandlesResponse | src/api_client.py:89-95 | DataIntegrityError iff there is no response or it has no candles entry; TypeError iff the entry is something `len` cannot measure (null, number, boolean), because the log line takes its length; otherwise Ok with the entry returned unchanged |
| ApiClient.FetchResult | src/api_client.py:87-98 | an exception from the request propagates unchanged; a None (not-found) result becomes DataIntegrityError; an unmeasurable candles entry becomes TypeError; success iff a response with an array, object or string candles entry, which is returned |
| ApiClient.NotFoundSurfacesAsIntegrityError | src/api_client.py:87-90 | a not-found error code ends as DataIntegrityError from fetch_candles |
| ApiClient.NotFoundNeverRetried | src/api_client.py:30-53 | a not-found error code is not among the results the retry decorator repeats |
| ApiClient.OandaApiClient.FetchCandles | src/api_client.py:66-98 | sends CandleParams' request; between 1 and 5 attempts, every earlier one a retried error; each attempt's pacing sleep taken from the unchanged watermark; returns FetchResult of the final attempt; the watermark moves only on a response |
| Database.MaxTimestamp | src/database.py:74-77 | the per-instrument MAX(timestamp) is NULL iff the instrument has no rows, and otherwise is a timestamp of one of its rows that no other row of it exceeds |
| Database.MaxTimestampAppend | src/database.py:74-77 | after rows are appended, an instrument's latest timestamp is the larger of its old latest and the appended rows' latest |
| Database.OtherInstrumentsUnaffected | src/database.py:74-77 | appending rows of other instruments leaves an instrument's latest timestamp unchanged |
| Database.KeysUniqueAppend | src/database.py:44 | table plus batch keeps the (instrument, timestamp) key unique iff the table does, the batch does, and no batch key is already in the table |
| Database.DuplicateBatchCollides | src/database.py:44 | saving a non-empty batch a second time always violates the key, so the store never holds a batch twice |
| Database.CloseConnection | src/database.py:15-26 | leaving the connection commits the pending state iff the body raised nothing; otherwise the committed state is kept unchanged and DatabaseError is raised whatever the cause |
| Database.LastSync | src/database.py:71-83 | as written: succeeds iff the instrument has rows, with the latest timestamp of its rows; otherwise DatabaseError (the unbound timedelta) |
| Database.LastSyncOrDefault | src/database.py:78-80 | corrected: the latest timestamp of the instrument's rows, or one day before now when it has none; agrees with LastSync wherever that succeeds |
| Database.FirstSyncFailsAsWritten | src/database.py:80-83 | for an instrument never stored, the code gives DatabaseError where the corrected query gives now minus one day |
| Database.DatabaseManager.constructor | src/database.py:28-59 | opening keeps the existing tables, which satisfy the key and id constraints |
| Database.DatabaseManager.LogAudit | src/database.py:61-69 | appends exactly one record with the next id, the given operation, details and status (default completed); on a storage fault nothing changes; never raises; the price table is untouched; ids stay increasing |
| Database.DatabaseManager.GetLastTimestamp | src/database.py:71-83 | read-only; a failing connection or query gives DatabaseError; otherwise the result is LastSync of the table: the instrument's latest timestamp, or DatabaseError when it has no rows; every failure is DatabaseError |
| Database.DatabaseManager.SaveCandles | src/database.py:85-94 | empty batch: no-op and no error; success iff no storage fault and table plus batch keeps the key unique; on success the table is the old table followed by exactly the batch; on failure DatabaseError and an unchanged table; the key invariant and the audit table are preserved |
| SyncManager.OandaSync.Update | src/sync_manager.py:6 | overwrites one instrument's status and message, nothing else; the done <= total invariant is kept |
| SyncManager.OandaSync.SetProgress | src/sync_manager.py:17 | overwrites one instrument's progress counter, nothing else; given done <= total, the invariant is kept |
| SyncManager.OandaSync.SyncInstrument | src/sync_manager.py:2-17 | not due: status skipped / Not due for sync and no range, chunks or progress; due: status running / Analyzing data range... before the range is asked for, chunks from exactly that range and instrument, progress (0, number of chunks); other instruments unchanged; done <= total preserved |

## Left out

- `validate_account`: a wrapper that issues one request and re-raises. It adds nothing to `MakeRequest`.
- The retry decorator's `max_time=300` bound and its exponential, jittered waits: only the attempt count is modelled. The waits show up only in the clock readings of later attempts.
- Real-valued time and sleeping. Sleeps are returned as integer durations.
- RFC3339 rendering of the request bounds: the request carries the whole-second values that `strftime` would print.
- Logging, the HTTP transport, gzip, and the oandapyV20 request objects. In that library a `V20Error`'s `code` may hold an HTTP status rather than an error-code string. The model takes `code` as the string the classification compares against.
- pandas internals. `to_sql` is modelled as INSERT statements of up to 1000 rows inside one transaction. A frame without one of the price columns (a `KeyError` in the validator) is not modelled: rows always have the four price columns.
- The `validation_hash` and `created_at` contents of price rows, the two secondary indexes, and `row_factory`. The audit timestamp is a parameter.
- Where the store lives on disk, and failures while creating the tables. The constructor starts from the tables as they are already stored.
- Parsing ISO timestamp text back into datetimes: timestamps are stored as integers.
- A stored timestamp that is present but falsy. The code treats it like a missing one; with integer timestamps the model cannot express that case.
- `SyncManager.OandaSync.Update`, `SyncManager.OandaSync.SetProgress`: the `SyncStatus` class is not part of this model. Its `update` and `set_progress` are modelled as overwrites of one instrument's entry. `SetProgress` is only called with done <= total; what the unseen class does with a larger done is not modelled.
- `SyncManager.OandaSync.SyncInstrument`: eligibility (`_should_sync_now`), the range (`_get_historical_range`) and chunking (`_calculate_historical_chunks`) are uninterpreted parameters. Exceptions they might raise are not modelled, and neither is the handler after line 17. The chunk loop, the run loop, the worker pool and signal handling are not shown in the source and are not modelled.
- Process bootstrap, configuration loading and packaging.

## Findings

| source | as written | input that shows it | evidently intended | confidence | as-written member | corrected member |
|---|---|---|---|---|---|---|
| src/data_validator.py:13-29 | declared to return bool, but only the empty batch returns True; a non-empty batch that passes every check falls off the end and returns None | one row open 10, high 12, low 9, close 11 | True for every accepted batch | medium; not executed | DataValidator.AcceptedBatchReturnsNone | DataValidator.CheckPriceData |
| src/database.py:80 | the no-rows fallback uses `timedelta`, which line 4 never imports; the NameError is rolled back and re-raised as DatabaseError | any instrument with no stored rows, e.g. an empty table | one day before now | high; not executed | Database.FirstSyncFailsAsWritten | Database.LastSyncOrDefault |
