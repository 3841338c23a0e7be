# Blue/green log watcher: detector and alert sender

This project is a Dafny model of the core of `watcher.py`. The watcher tails an
nginx access log written as one JSON object per line. It raises a Slack alert
in two cases: when the reported backend pool changes (a failover), and when
the share of server errors among the last `WINDOW_SIZE` requests passes
`ERROR_RATE_THRESHOLD` percent. All alerts go through one global cooldown.

The model has two modules.

- `LogWatcher` (watcher.dfy) holds the data model and the operations. Class
  `Watcher` has one field for each module global of the source: `lastPool`,
  `errorWindow` (the bounded deque, as a sequence) and `lastAlertTime`. The
  environment settings are its constant `config`. `ProcessLogLine` and
  `SendSlackAlert` follow `process_log_line` and `send_slack_alert` step by
  step. Each method is proved equal to a pure function of the old state: `Step`
  for one line, and `Alert` for one send.
- `WatcherProperties` (properties.dfy) proves what the source promises about
  `Step`, and about `Run`, which applies `Step` to a sequence of lines in log
  order.

The inputs of one line are as follows.

- `Line` is what `json.loads` returns: not JSON, JSON that is not an object,
  or an object.
- A field value is a string (`Str`) or any other JSON value (`NonStr`). This
  keeps the path where `startswith` raises on a non-string, with Python's
  short-circuit `or`: `status` is only looked at when `upstream_status` does
  not start with `'5'`.
- Each of the two alerts a line may send gets a `Call`: its reading of
  `time.time()` and what the webhook POST does (a status code, or an
  exception).

The code lacks several features a blue/green watcher might have, and the
model follows the code:

- `last_pool` starts at `ACTIVE_POOL` (default `blue`). It is never unset, so
  the first record from another pool already alerts (`FirstForeignPoolFailsOver`).
- An entry counts as an error when the status text starts with `'5'`. There is
  no numeric 500–599 test.
- Only an HTTP status of exactly 200 counts as delivered, not any 2xx status.
- There is one cooldown timestamp for every alert. There are no per-pair keys,
  no mute flag and no decimation schedule. The error rate is checked on every
  record once the window is full.
- The window is cleared after a breach even when the alert was suppressed or
  failed.
- There is no attempt-level failover over comma-separated upstream lists, and
  no handling of log rotation.
- `WINDOW_SIZE = 0` is allowed. The deque then stays empty, and the rate
  computation divides by zero. The `except Exception` handler catches this,
  after the failover check has already run. The model keeps that path
  (`Errored` with the failover outcome) and does not require a positive window.

## Model

| member | source | states |
|---|---|---|
| `LogWatcher.Watcher.constructor` | watcher.py:11-19 | the settings become `config`; the initial state has `last_pool = ACTIVE_POOL`, an empty window and `last_alert_time = 0` |
| `LogWatcher.Initial` | watcher.py:17-19 | the starting state has `last_pool = ACTIVE_POOL`, an empty deque and last alert time 0 |
| `LogWatcher.Watcher.SendSlackAlert` | watcher.py:21-45 | the delivery outcome and the new `last_alert_time` are exactly those of `Alert` on the old timestamp |
| `LogWatcher.Alert` | watcher.py:26-45 | suppressed iff `now - last_alert_time < ALERT_COOLDOWN_SEC`; delivered iff not suppressed and the POST answered 200; the timestamp becomes `now` on delivery and is unchanged on suppression, another status or an exception |
| `LogWatcher.Step` | watcher.py:47-82 | no contract of its own: its behaviour is stated by `MalformedLineChangesNothing`, `StepAppendsOneEntry`, `StepKeepsWindowBounded`, `StepFailover` and `StepErrorRate` below. Together they give the result kind, the new window and `last_pool`, and the outcome of each alert as `send_slack_alert` decides it (the failover alert on the old `last_alert_time`, the error-rate alert on the one the failover alert left) |
| `LogWatcher.Watcher.ProcessLogLine` | watcher.py:47-82 | the line's result and the new values of the three globals are those of `Step` on the old values; the deque stays within `WINDOW_SIZE` |
| `LogWatcher.ErrorFlag` | watcher.py:60 | the expression raises iff `upstream_status` is not a string, or it does not start with '5' and `status` is not a string; it is true iff either string starts with '5' |
| `LogWatcher.RecordPool` | watcher.py:55 | the pool a record reports is its `pool` field, and 'unknown' when the field is absent |
| `LogWatcher.Flag` | watcher.py:52-60 | a line appends nothing unless it is a JSON object; an object without status fields appends a non-error entry |
| `LogWatcher.Recent` | watcher.py:18 | a `deque(maxlen=n)` holds n elements once n or more were appended, and all of them before that |
| `WatcherProperties.RecentIsTail` | watcher.py:18 | what the deque holds is the tail of everything appended: its elements are the latest ones, in order |
| `LogWatcher.Pushed` | watcher.py:61 | appending to a non-full deque adds the entry at the end; appending to a full one drops the oldest entry and keeps the rest in order; the new entry is last |
| `LogWatcher.CheckFailover` | watcher.py:64-67 | an alert is attempted iff the pool is not 'unknown' and differs from `last_pool`; the window is untouched |
| `LogWatcher.CheckErrorRate` | watcher.py:70-76 | an alert is attempted iff the rate breaches the threshold, and the window is then empty; otherwise it is unchanged |
| `WatcherProperties.ErrorEntryOfRecord` | watcher.py:56-61 | for string or absent status fields the entry is an error iff `upstream_status` or `status` starts with '5'; absent fields count as no error |
| `WatcherProperties.MalformedLineChangesNothing` | watcher.py:52-82 | a line that is not JSON, not an object, or whose status fields make `startswith` raise leaves all three globals unchanged; only non-JSON is skipped silently |
| `WatcherProperties.StepAppendsOneEntry` | watcher.py:60-61 | a record that reaches the append adds exactly one entry, its error flag; only an error-rate alert leaves the window empty; an exception is reported iff `WINDOW_SIZE` is 0 |
| `WatcherProperties.StepKeepsWindowBounded` | watcher.py:18 | one line never takes the window past `WINDOW_SIZE` |
| `WatcherProperties.StepFailover` | watcher.py:63-67 | a failover alert is attempted iff the pool is known and differs from `last_pool`; its outcome is that of `send_slack_alert`; afterwards `last_pool` is the pool whatever the outcome, and an 'unknown' pool leaves it unchanged |
| `WatcherProperties.StepErrorRate` | watcher.py:69-76 | the error-rate alert is attempted iff the window is full after the append and the rate breaches the threshold; its outcome and the new `last_alert_time` are those of `send_slack_alert` on the timestamp the record's failover alert left; the window is then emptied whatever the outcome, and otherwise left as the append made it |
| `WatcherProperties.SharedCooldown` | watcher.py:64-76 | when a failover alert is delivered and the same record then breaches at the same clock reading with a positive cooldown, the error-rate alert is suppressed and the window is still cleared |
| `WatcherProperties.FirstForeignPoolFailsOver` | watcher.py:17 | because `last_pool` starts at `ACTIVE_POOL`, the first record from any other known pool attempts a failover alert |
| `WatcherProperties.ServedStep` | watcher.py:55-67 | a record of a known pool without status fields, while the window has room, appends a non-error entry, makes its pool `last_pool`, attempts no error-rate alert, and attempts a failover alert iff its pool differs from `last_pool` |
| `WatcherProperties.DefaultsFailOverToGreen` | watcher.py:11-19 | with the default settings (threshold 2.0, window 200, cooldown 300, `ACTIVE_POOL` blue), the records blue, blue, green attempt exactly one failover alert, on green, and no error-rate alert |
| `LogWatcher.ErrorCount` | watcher.py:71 | the sum of the 0/1 window is at most its length |
| `LogWatcher.Breached` | watcher.py:71-72 | `(sum / len) * 100 > threshold` holds exactly when `sum * 100 > threshold * len` |
| `WatcherProperties.RateAtMostHundred` | watcher.py:71-72 | the error rate is at most 100 percent, so a threshold of 100 or more is never breached |
| `WatcherProperties.NoRateAlertFromHundredPercent` | watcher.py:70-76 | with a threshold of 100 or more, no line ever attempts an error-rate alert |
| `WatcherProperties.PushedKeepsLatest` | watcher.py:61 | appending to a deque that holds the last n entries gives the last n entries of the longer history |
| `WatcherProperties.Run` | watcher.py:101-104 | each line read yields exactly one result, in log order |
| `WatcherProperties.RunKeepsWindowBounded` | watcher.py:18 | over any run the window stays within `WINDOW_SIZE` |
| `WatcherProperties.PartialWindowNeverTriggers` | watcher.py:61-76 | while the window's entries plus those the lines append stay below `WINDOW_SIZE`, the window is the old one followed by every appended entry in order, and no line attempts an error-rate alert: after a clear a new alert needs `WINDOW_SIZE` fresh records, however many malformed lines come between |
| `WatcherProperties.WindowHoldsLatestFlags` | watcher.py:61 | when no line attempts an error-rate alert, the window is the last `WINDOW_SIZE` of all entries appended, in order |
| `WatcherProperties.StepWindowKeepsLatest` | watcher.py:61 | when the deque holds the latest entries of a history, a line without an error-rate alert leaves it holding the latest entries of that history extended by the line's entry |
| `WatcherProperties.LastPoolIsLatestKnown` | watcher.py:64-67 | after any run `last_pool` is the latest known pool reported by a record that reached the append, or the starting pool |
| `WatcherProperties.StepDeliveriesSpaced` | watcher.py:26-41 | each alert one line delivers comes at least the cooldown after the previous delivery, and the last one sets `last_alert_time` |
| `WatcherProperties.DeliveriesAreSpaced` | watcher.py:26-41 | over any run, consecutive delivered alerts of either kind are at least `ALERT_COOLDOWN_SEC` apart by the clock readings used, and `last_alert_time` is the time of the latest delivery |

## Left out

- The `main` tail loop (watcher.py:84-106) is not modelled. This covers
  waiting for the log file, seeking to its end, `readline`, `strip` and the
  sleeps. It is file I/O and timing. `Run` only models feeding lines in order.
- The webhook POST and its payload (watcher.py:31-38) are not modelled. The
  call is a foreign network call, so its outcome is an input: a status code or
  an exception. When `SLACK_WEBHOOK_URL` is unset, the POST raises, which is
  the exception outcome.
- The clocks (`time.time()` at watcher.py:26, `datetime.now()` at
  watcher.py:65) are not modelled. Each send gets its own `now` as an input.
- Message text and the `print` diagnostics are left out as presentation. The
  `Delivery` and `LineResult` values still tell the diagnostic branches apart.
- Environment parsing (watcher.py:11-17) is left out. The settings are the
  `Config` and `activePool` parameters of the constructor.
- `json.loads` (watcher.py:52) is a library call. The model starts from its
  decoded result.
- Floating point is not modelled. Time, the threshold and the rate are exact
  `real` values. Rounding, NaN and infinite thresholds are outside the model.
  Rounding can move the float rate either way, so near the threshold the
  model and the source can disagree in both directions. With `WINDOW_SIZE`
  50, 7 errors and a threshold of 14.0, Python computes `(7/50)*100` as
  14.000000000000002 and alerts, while `Breached` compares 14 with 14 and
  does not. With `WINDOW_SIZE` 100, 29 errors and a threshold of
  28.999999999999996 (the double just below 29), the model breaches, while
  Python computes 28.999999999999996 and does not.
- Equality of pools that are not strings is not Python's. Two non-string pool
  values are equal in the model iff their JSON texts are equal, so Python's
  `1 == 1.0 == true` does not carry over.
