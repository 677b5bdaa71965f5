# FuelPHP PDO query routine, modelled in Dafny

This project models `Database_PDO_Connection::query` from the Fuel database
layer (`db/classes/Fuel/Connection.php`). The routine:

- connects lazily;
- when profiling is on, starts a profiler benchmark over a filtered stack
  trace;
- submits the SQL in a `do ... while ($attempts-- > 0)` countdown that starts
  at 3;
- reconnects after a failure whose message contains `2006 MySQL` while the
  countdown is positive;
- turns every other failure, and a fourth failure of any kind, into a
  `Database_Exception`, choosing its code through a fallback chain;
- shapes the successful result by query type.

The driver is a script: `script[i]` is the answer to the `i`-th submission,
either a statement or a driver error. The side effects come back as an event
log, in order: connect, disconnect, submit, profiler start/stop/delete, and
the INSERT log call. The log is a real out-parameter.

Modules:

- `Php`: the PHP built-ins the routine relies on. `empty()` on strings;
  `strpos(...) !== false` as substring search (PHP 8, so an empty needle is
  found); `is_numeric()` on PHP 8 numeric strings.
- `Trace`: the backtrace filter and its sticky `$include` flag.
- `Errors`: the disconnect classifier, the error-code fallback and the
  exception message.
- `Shaping`: the three return shapes and the fetch mode chosen by `$as_object`.
- `Events`: the event log and the reconnecting rounds.
- `Connection`: the routine itself. `Open` is the lazy connect and benchmark
  start. `Submissions` is the retry loop. `Close` is the terminal branch or
  the success path. `Query` runs the three in order. `ExpectedOutcome` and
  `ExpectedLog` are the closed-form reference definitions that `Query` is
  proved to produce.
- `Scenarios`: the routine's behaviours, one scenario at a time, stated over
  those reference definitions. Also two concrete stacks for the trace filter.

## Model

| member | source | states |
|---|---|---|
| Php.Contains | db/classes/Fuel/Connection.php:50 | `strpos($haystack, $needle) !== false` holds exactly when the needle occurs at some index of the haystack |
| Php.IsNumeric | db/classes/Fuel/Connection.php:96-117 | PHP 8 `is_numeric`: integers are numeric, null is not, a string is numeric exactly when it is a numeric string |
| Php.IsNumericString | db/classes/Fuel/Connection.php:96 | the PHP 8 numeric-string grammar (white space, sign, digits with at most one point, exponent, white space); a numeric string holds at least one digit |
| Php.DigitsAreNumeric | db/classes/Fuel/Connection.php:96 | a non-empty string of decimal digits, like the SQLSTATE `23000`, is numeric to `is_numeric` |
| Php.NoDigitNotNumeric | db/classes/Fuel/Connection.php:117 | a string without any digit is never numeric |
| Php.LetterFirstNotNumeric | db/classes/Fuel/Connection.php:96 | a string starting with anything other than white space, a sign, a digit or `.` is not numeric |
| Trace.HasFile | db/classes/Fuel/Connection.php:45 | `empty($page['file']) === false` holds exactly when the key is present and its value is neither `""` nor `"0"` |
| Trace.AnyPathIn | db/classes/Fuel/Connection.php:48-55 | the inner path loop sets the flag exactly when some configured path occurs in the frame's file |
| Trace.KeptEntries | db/classes/Fuel/Connection.php:41-63 | the trace is shorter than the backtrace, and every entry is the cleaned file and line of some file-bearing frame other than frame 0 |
| Trace.StackTrace | db/classes/Fuel/Connection.php:41-63 | the trace-building loop, with its sticky `$include` flag, yields exactly the kept frames in stack order; it never includes frame 0 or a frame without a file |
| Trace.NoPathsKeepsEveryFiledFrame | db/classes/Fuel/Connection.php:45-61 | with no configured paths, every file-bearing frame except frame 0 is traced, in stack order |
| Trace.KeptFromFirstSwitch | db/classes/Fuel/Connection.php:41-61 | with paths configured, a frame is traced exactly when it has a file and is not before the first frame whose file contains a configured path |
| Trace.NoSwitchKeepsNothing | db/classes/Fuel/Connection.php:50-61 | with paths configured and no file containing one of them, the trace is empty |
| Trace.KeptIsSticky | db/classes/Fuel/Connection.php:41-53 | once a frame is traced, every later frame with a file is traced too |
| Errors.Classify | db/classes/Fuel/Connection.php:85 | a failure is classified as a disconnect exactly when its message contains `2006 MySQL` anywhere, whatever its error number |
| Errors.GoneAwayIsReconnect | db/classes/Fuel/Connection.php:85-89 | PDO's "2006 MySQL server has gone away" message is classified as a disconnect |
| Errors.LostConnectionIsTerminal | db/classes/Fuel/Connection.php:85-93 | MySQL's 2013 "lost connection during query" message does not contain the marker, so it is terminal; the message text decides what is retried, not the error number |
| Errors.QuotedMarkerIsRetried | db/classes/Fuel/Connection.php:85-89 | a 1064 syntax error whose message quotes SQL holding `2006 MySQL` is retried like a disconnect |
| Errors.ErrorCode | db/classes/Fuel/Connection.php:96-107 | the code passed to the exception is `getCode()` when numeric; otherwise `errorinfo()[1]` when a handle exists; otherwise 0 |
| Errors.FallbackOnlyWhenNotNumeric | db/classes/Fuel/Connection.php:96-102 | the code passed to the exception differs from `getCode()` only when `getCode()` is not numeric, and with a handle it is then `errorinfo()[1]` |
| Errors.NumericSqlStateKept | db/classes/Fuel/Connection.php:117-118 | a `getCode()` of `"23000"` is passed to the exception constructor unchanged |
| Errors.LetterSqlStateFallsBack | db/classes/Fuel/Connection.php:117-128 | an exception code `"HY000"` is replaced by the connection's error info, or by 0 without a handle |
| Errors.Normalize | db/classes/Fuel/Connection.php:109 | the exception wraps the driver error as previous; its message is the driver message, then ` with query: "`, then the SQL, then `"` |
| Errors.NormalizeKeepsQuery | db/classes/Fuel/Connection.php:129 | the SQL can be recovered from the message: two queries failing with the same error give the same message only if they are the same SQL |
| Shaping.FetchModeFor | db/classes/Fuel/Connection.php:146-157 | `$as_object === false` gives associative arrays; a string gives that class; anything else gives `stdClass` |
| Shaping.Shape | db/classes/Fuel/Connection.php:143-176 | SELECT gives a cached result over all rows with the SQL, `$as_object` and its fetch mode; INSERT gives `[-1, rowCount]`; every other type gives `rowCount` when the error code is `00000`, else -1 |
| Shaping.ShapeVariantFollowsType | db/classes/Fuel/Connection.php:163-175 | the shape depends on the query type alone, so UPDATE and DELETE take the generic branch whatever the statement |
| Shaping.SelectKeepsRows | db/classes/Fuel/Connection.php:148-161 | a SELECT result holds every fetched row, in order |
| Events.Reconnects | db/classes/Fuel/Connection.php:76-89 | `n` retried rounds are `3n` events, each a submission of the SQL, a disconnect or a connect, starting with a submission |
| Events.ReconnectCounts | db/classes/Fuel/Connection.php:76-89 | `n` retried rounds submit `n` times, disconnect `n` times and connect `n` times |
| Connection.StopIndex | db/classes/Fuel/Connection.php:69-133 | the last submission is at most the fourth; every earlier one failed with a disconnect; if it is before the fourth, it is not a disconnect |
| Connection.StopIndexIff | db/classes/Fuel/Connection.php:71-133 | submission `k` is the last exactly when all earlier answers are disconnects and it is either not a disconnect or the fourth |
| Connection.Submissions | db/classes/Fuel/Connection.php:69-133 | the retry loop always terminates; it stops at the last submission with that answer, after exactly that many disconnect and connect rounds |
| Connection.Open | db/classes/Fuel/Connection.php:30-66 | afterwards a handle exists; the routine connected first exactly when it had no handle; with profiling on, one benchmark start follows, carrying the filtered trace |
| Connection.PreludeCounts | db/classes/Fuel/Connection.php:30-66 | before the first submission there is at most one connect (only without a handle) and at most one benchmark start (only when profiling), and nothing else |
| Connection.Close | db/classes/Fuel/Connection.php:82-176 | a failed last answer is thrown as the normalised exception with `last_query` untouched; a statement is returned in its shape with `last_query` set to the SQL |
| Connection.TailCounts | db/classes/Fuel/Connection.php:93-165 | after the last submission: one stop on success when profiling; one delete on a failure before the fourth submission when profiling; one `insert end` log for a successful INSERT; nothing else |
| Connection.LogHead | db/classes/Fuel/Connection.php:30-76 | the log starts with the connect exactly when there was no handle; the benchmark start comes next and is followed by the first submission |
| Connection.SubmissionCounts | db/classes/Fuel/Connection.php:69-133 | after `k` retried rounds the SQL is submitted `k + 1` times, with `k` disconnects and `k` connects, plus the lazy connect |
| Connection.ProfilerStartCount | db/classes/Fuel/Connection.php:32-66 | the benchmark is started exactly once when profiling is on, before the loop and not per attempt, and never otherwise |
| Connection.ProfilerEndCounts | db/classes/Fuel/Connection.php:93-165 | stop once on success; delete once only when a non-disconnect failure ends the call before the fourth submission; log once for a successful INSERT |
| Connection.Query | db/classes/Fuel/Connection.php:27-177 | the routine's outcome and event log equal the closed-form reference definitions; a handle exists afterwards; `last_query` changes to the SQL only on success |
| Connection.QueryEvents | db/classes/Fuel/Connection.php:27-177 | the count of every kind of event in any call's log, and the order of the first events, in terms of the index of the last submission and its answer |
| Scenarios.LazyConnect | db/classes/Fuel/Connection.php:30 | with an existing handle and a first answer that is not a disconnect, nothing connects; without a handle, one connect comes first |
| Scenarios.PersistentDisconnect | db/classes/Fuel/Connection.php:69-133 | four disconnects in a row give four submissions, three disconnect and connect pairs, then the fourth failure is thrown; no stop, no delete |
| Scenarios.ExhaustedKeepsBenchmark | db/classes/Fuel/Connection.php:113-130 | any failure of the fourth submission, disconnect or not, is thrown without deleting the benchmark |
| Scenarios.TerminalError | db/classes/Fuel/Connection.php:82-110 | a non-disconnect failure before the fourth submission ends the call: no more submissions or reconnects, a delete when profiling, no stop and no log, and that failure is thrown |
| Scenarios.SuccessAfterReconnects | db/classes/Fuel/Connection.php:76-141 | a statement after `k` disconnects is returned in its shape after exactly `k` reconnects; the benchmark is stopped once when profiling and never deleted |
| Scenarios.ThrownCode | db/classes/Fuel/Connection.php:96-129 | a thrown exception carries the SQL and the failed submission's error; its code is `getCode()` when numeric, else the error info, because a handle always exists by then |
| Scenarios.VendorAfterAppIsKept | db/classes/Fuel/Connection.php:41-61 | with paths `["/app/src"]`, a `/lib/vendor` frame further out than an `/app/src` frame (an outer caller) is traced too |
| Scenarios.VendorBeforeAppIsDropped | db/classes/Fuel/Connection.php:41-61 | with paths `["/app/src"]`, a `/lib/vendor` frame between the query and the first `/app/src` frame (library code the application called) is not traced |

## Left out

- Errors.Normalize: the exception's `code` is the argument passed to `new \Database_Exception(...)`, not what its `getCode()` returns. `Database_Exception` is not part of this model. If it keeps PHP's integer code, a string such as `"23000"` would be coerced to 23000 and a null error info to 0; that coercion is not modelled.
- `db/bootstrap.php` only registers classes with the autoloader. It has no behaviour to model.
- Real PDO connections, sockets and `debug_backtrace()` are not modelled. The driver is the `script` of answers, and the backtrace is an input sequence of frames.
- Connection.Query: `connect()` is assumed to succeed. If it threw, the exception would escape the routine, and that path is not modelled. As a result a handle always exists inside the loop. So the `else 0` fallback of the error code is unreachable from the routine. `Errors.ErrorCode` still models it.
- Connection.Query requires at least four scripted answers, the most the routine ever consumes. Answers beyond the last submission are ignored.
- `isset($benchmark)` is modelled as "profiling is on". `Profiler::start` is assumed to return a handle.
- `\Profiler`, `\Config::get`, `\Log::info` and `\Database_Result_Cached` are recorded as events or data, not modelled. `Fuel::clean_path` is an arbitrary function parameter. An unset (null) or empty `profiling_paths` is read as the empty list. Other non-array values are not modelled: a non-empty scalar such as `"/app"` would leave `$include` false while `empty($paths)` is false, so no frame would be traced.
- `PDOStatement::fetchAll`, `rowCount` and `errorCode` are fields of the statement. Row hydration into objects is recorded only as a fetch mode.
- The `$index` of the inner `foreach` (line 48) shadows the outer one. After the inner loop only `$include` is read, so this has no effect and is not modelled.
- Float codes, and codes that are neither integers nor strings, are not modelled. `Php.Code` covers integers, strings and null.

Four behaviours of the code that are easy to misread:

- The stack trace is built, and the benchmark started, once, before the loop, not once per attempt (`Connection.ProfilerStartCount`).
- The `$include` flag is never cleared. Frame 0 is the call to the query routine and higher indices are outer callers. So a vendor frame later in backtrace order (an outer caller) than the first matching frame is traced as well (`Scenarios.VendorAfterAppIsKept`). A vendor frame between the query and that frame is not (`Scenarios.VendorBeforeAppIsDropped`).
- `Profiler::delete` runs only on the terminal branch (line 93). It does not run on a reconnect, or when the fourth submission fails (`Scenarios.ExhaustedKeepsBenchmark`).
- Only `\DB::INSERT` gets the `[-1, rowCount]` shape. UPDATE and DELETE take the generic branch (`Shaping.ShapeVariantFollowsType`).
