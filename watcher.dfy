/** A model of the blue/green log watcher in watcher.py: the per-line detector
    (process_log_line) and its cooldown-gated alert sender (send_slack_alert).
    The three module-level globals of the source are the fields of class Watcher;
    the clock, the webhook's answer and json.loads are inputs. */
module LogWatcher {

  datatype Option<T> = None | Some(value: T)

  /** A value as `json.loads` returns it inside an object: a string, or any other
      JSON value (number, boolean, null, array, object), kept as its JSON text. */
  datatype Value = Str(s: string) | NonStr(text: string)

  /** What `json.loads` makes of one stripped log line. */
  datatype Line =
    | NotJson                             // json.loads raises JSONDecodeError
    | NotObject                           // valid JSON that is not an object: `.get` raises
    | Object(fields: map<string, Value>)  // a JSON object (the last of duplicate keys wins)

  /** ERROR_RATE_THRESHOLD (percent), WINDOW_SIZE and ALERT_COOLDOWN_SEC.
      A negative WINDOW_SIZE makes `deque(maxlen=...)` raise when the module loads,
      so the watcher never runs with one. */
  datatype Config = Config(threshold: real, windowSize: nat, cooldown: int)

  /** The defaults used when the environment does not set them. */
  const DefaultConfig := Config(2.0, 200, 300)
  const DefaultActivePool := "blue"

  /** How `requests.post` ends: with an HTTP status code, or by raising. */
  datatype Response = HttpStatus(code: int) | RequestException

  /** One call of send_slack_alert as the outside world answers it: the reading of
      `time.time()` and what the webhook POST would do if it is made. */
  datatype Call = Call(now: real, response: Response)

  /** The four ways send_slack_alert ends, each with its own diagnostic line. */
  datatype Delivery = Suppressed | Delivered | Rejected(code: int) | SendError

  datatype AlertResult = AlertResult(delivery: Delivery, lastAlertTime: real)

  /** The values of last_pool, error_window and last_alert_time. */
  datatype State = State(lastPool: Value, window: seq<bool>, lastAlertTime: real)

  /** What process_log_line did with a line: skipped it silently (not JSON),
      reported an exception, or handled it; with the outcome of each alert it tried. */
  datatype LineResult =
    | Ignored
    | Errored(failover: Option<Delivery>)
    | Handled(failover: Option<Delivery>, highErrorRate: Option<Delivery>)

  datatype Transition = Transition(result: LineResult, after: State)

  datatype Check = Check(alert: Option<Delivery>, state: State)

  /** The state right after the module loads: last_pool is ACTIVE_POOL. */
  function Initial(activePool: string): (st: State)
    ensures st.lastPool == Str(activePool) && st.window == [] && st.lastAlertTime == 0.0
  {
    State(Str(activePool), [], 0.0)
  }

  /** `d.get(key, default)` */
  function Get(fields: map<string, Value>, key: string, default: Value): Value
  {
    if key in fields then fields[key] else default
  }

  /** `s.startswith('5')` */
  predicate StartsWithFive(s: string)
  {
    |s| > 0 && s[0] == '5'
  }

  /** `upstream_status.startswith('5') or status.startswith('5')`, or None when
      that expression raises because `startswith` reaches a non-string. Python's
      `or` looks at `status` only when `upstream_status` does not start with '5'. */
  function ErrorFlag(upstream: Value, status: Value): (r: Option<bool>)
    ensures r.None? <==> upstream.NonStr? || (!StartsWithFive(upstream.s) && status.NonStr?)
    ensures r == Some(true) <==>
              upstream.Str? && (StartsWithFive(upstream.s) || (status.Str? && StartsWithFive(status.s)))
  {
    if upstream.NonStr? then None
    else if StartsWithFive(upstream.s) then Some(true)
    else if status.NonStr? then None
    else Some(StartsWithFive(status.s))
  }

  /** The pool a record reports; 'unknown' when it does not. */
  function RecordPool(fields: map<string, Value>): (r: Value)
    ensures "pool" in fields ==> r == fields["pool"]
    ensures "pool" !in fields ==> r == Str("unknown")
  {
    Get(fields, "pool", Str("unknown"))
  }

  /** The entry a line appends to the error window, or None when the line never
      reaches the append. */
  function Flag(line: Line): (r: Option<bool>)
    ensures line.Object? && "upstream_status" !in line.fields && "status" !in line.fields ==> r == Some(false)
    ensures !line.Object? ==> r.None?
  {
    match line
    case Object(fields) =>
      ErrorFlag(Get(fields, "upstream_status", Str("")), Get(fields, "status", Str("")))
    case _ => None
  }

  /** The last n elements of s (all of s when it is shorter): what a
      `deque(maxlen=n)` holds after the elements of s were appended in order. */
  function Recent<T>(s: seq<T>, n: nat): (r: seq<T>)
    ensures |r| == if |s| <= n then |s| else n
  {
    if |s| <= n then s else s[|s| - n..]
  }

  /** `window.append(x)` on a `deque(maxlen=n)`. */
  function Pushed(w: seq<bool>, x: bool, n: nat): (r: seq<bool>)
    ensures |w| < n ==> r == w + [x]
    ensures |w| == n > 0 ==> r == w[1..] + [x]
    ensures |w| <= n ==> |r| == if |w| < n then |w| + 1 else n
    ensures n > 0 ==> |r| > 0 && r[|r| - 1] == x
  {
    Recent(w + [x], n)
  }

  /** `sum(error_window)`: the number of error entries. */
  function ErrorCount(w: seq<bool>): (r: nat)
    ensures r <= |w|
  {
    if w == [] then 0 else (if w[0] then 1 else 0) + ErrorCount(w[1..])
  }

  /** `(sum / len) * 100 > ERROR_RATE_THRESHOLD`, in exact arithmetic, which is
      the integer-scaled test `sum * 100 > threshold * len`. */
  predicate Breached(count: nat, len: nat, threshold: real)
    requires len > 0
    ensures Breached(count, len, threshold) <==> (count * 100) as real > threshold * len as real
  {
    (count as real / len as real) * 100.0 > threshold
  }

  /** send_slack_alert: the cooldown gate, then the POST; only a 200 answer
      moves last_alert_time. */
  function Alert(cooldown: int, lastAlertTime: real, call: Call): (r: AlertResult)
    ensures r.delivery == Suppressed <==> call.now - lastAlertTime < cooldown as real
    ensures r.delivery == Delivered <==>
              call.now - lastAlertTime >= cooldown as real && call.response == HttpStatus(200)
    ensures r.lastAlertTime == if r.delivery == Delivered then call.now else lastAlertTime
  {
    if call.now - lastAlertTime < cooldown as real then
      AlertResult(Suppressed, lastAlertTime)
    else
      match call.response
      case HttpStatus(code) =>
        if code == 200 then AlertResult(Delivered, call.now) else AlertResult(Rejected(code), lastAlertTime)
      case RequestException => AlertResult(SendError, lastAlertTime)
  }

  /** The pool-change check: an alert, then last_pool := pool. */
  function CheckFailover(c: Config, st: State, pool: Value, call: Call): (r: Check)
    ensures r.state.window == st.window
    ensures r.alert.Some? <==> pool != Str("unknown") && pool != st.lastPool
  {
    if pool != Str("unknown") && pool != st.lastPool then
      var a := Alert(c.cooldown, st.lastAlertTime, call);
      Check(Some(a.delivery), State(pool, st.window, a.lastAlertTime))
    else
      Check(None, st)
  }

  /** The error-rate check on a full window: on a breach an alert, then the
      window is cleared whatever the alert's outcome. */
  function CheckErrorRate(c: Config, st: State, call: Call): (r: Check)
    requires |st.window| > 0
    ensures r.state.lastPool == st.lastPool
    ensures r.alert.Some? <==> Breached(ErrorCount(st.window), |st.window|, c.threshold)
    ensures r.state.window == if r.alert.Some? then [] else st.window
  {
    if Breached(ErrorCount(st.window), |st.window|, c.threshold) then
      var a := Alert(c.cooldown, st.lastAlertTime, call);
      Check(Some(a.delivery), State(st.lastPool, [], a.lastAlertTime))
    else
      Check(None, st)
  }

  /** process_log_line on one line, given the two calls of send_slack_alert it
      may make (the failover alert and the error-rate alert). With WINDOW_SIZE 0
      the rate computation divides by zero, which the line's `except` reports
      after the failover check has already run. */
  function Step(c: Config, st: State, line: Line, failoverCall: Call, rateCall: Call): (t: Transition)
  {
    match line
    case NotJson => Transition(Ignored, st)
    case NotObject => Transition(Errored(None), st)
    case Object(fields) =>
      var flag := Flag(line);
      if flag.None? then Transition(Errored(None), st)
      else
        var window := Pushed(st.window, flag.value, c.windowSize);
        var f := CheckFailover(c, State(st.lastPool, window, st.lastAlertTime), RecordPool(fields), failoverCall);
        if |window| < c.windowSize then Transition(Handled(f.alert, None), f.state)
        else if c.windowSize == 0 then Transition(Errored(f.alert), f.state)
        else
          var e := CheckErrorRate(c, f.state, rateCall);
          Transition(Handled(f.alert, e.alert), e.state)
  }

  /** The watcher: the module globals of watcher.py as fields, the configuration
      read from the environment as constants. */
  class Watcher {
    const config: Config
    var lastPool: Value
    var errorWindow: seq<bool>
    var lastAlertTime: real

    function Snapshot(): State
      reads this
    {
      State(lastPool, errorWindow, lastAlertTime)
    }

    /** The deque never holds more than its maxlen. */
    ghost predicate Valid()
      reads this
    {
      |errorWindow| <= config.windowSize
    }

    constructor (config: Config, activePool: string)
      ensures Valid()
      ensures this.config == config && Snapshot() == Initial(activePool)
    {
      this.config := config;
      lastPool := Str(activePool);
      errorWindow := [];
      lastAlertTime := 0.0;
    }

    method SendSlackAlert(call: Call) returns (d: Delivery)
      modifies this`lastAlertTime
      ensures AlertResult(d, lastAlertTime) == Alert(config.cooldown, old(lastAlertTime), call)
    {
      if call.now - lastAlertTime < config.cooldown as real {
        return Suppressed;
      }
      match call.response
      case HttpStatus(code) =>
        if code == 200 {
          lastAlertTime := call.now;
          d := Delivered;
        } else {
          d := Rejected(code);
        }
      case RequestException =>
        d := SendError;
    }

    method ProcessLogLine(line: Line, failoverCall: Call, rateCall: Call) returns (r: LineResult)
      requires Valid()
      modifies this
      ensures Valid()
      ensures Transition(r, Snapshot()) == Step(config, old(Snapshot()), line, failoverCall, rateCall)
    {
      if line.NotJson? {
        return Ignored;
      }
      if line.NotObject? {
        return Errored(None);
      }
      var flag := Flag(line);
      if flag.None? {
        return Errored(None);
      }
      var pool := RecordPool(line.fields);
      errorWindow := Pushed(errorWindow, flag.value, config.windowSize);

      var failover: Option<Delivery> := None;
      if pool != Str("unknown") && pool != lastPool {
        var d := SendSlackAlert(failoverCall);
        failover := Some(d);
        lastPool := pool;
      }

      if |errorWindow| >= config.windowSize {
        if config.windowSize == 0 {
          return Errored(failover);
        }
        if Breached(ErrorCount(errorWindow), |errorWindow|, config.threshold) {
          var d := SendSlackAlert(rateCall);
          errorWindow := [];
          return Handled(failover, Some(d));
        }
      }
      r := Handled(failover, None);
    }
  }
}
