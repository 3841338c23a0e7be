/** What the detector of watcher.py guarantees: about one line (Step), and about
    a run of lines fed to it in log order (Run). */
module WatcherProperties {
  import opened LogWatcher

  /** The failover alert a line attempted, if any. */
  function FailoverAlert(r: LineResult): Option<Delivery>
  {
    match r
    case Ignored => None
    case Errored(f) => f
    case Handled(f, _) => f
  }

  /** Whether a line attempted the error-rate alert. */
  predicate RateAlertAttempted(r: LineResult)
  {
    r.Handled? && r.highErrorRate.Some?
  }

  /** No line of a run attempted the error-rate alert. */
  ghost predicate NoRateAlerts(rs: seq<LineResult>)
  {
    forall i :: 0 <= i < |rs| ==> !RateAlertAttempted(rs[i])
  }

  lemma NoRateAlertsSnoc(rs: seq<LineResult>, r: LineResult)
    ensures NoRateAlerts(rs + [r]) <==> NoRateAlerts(rs) && !RateAlertAttempted(r)
  {
    if NoRateAlerts(rs + [r]) {
      forall i | 0 <= i < |rs|
        ensures !RateAlertAttempted(rs[i])
      {
        assert rs[i] == (rs + [r])[i];
      }
      assert (rs + [r])[|rs|] == r;
    }
  }

  // ---------------------------------------------------------------- one line

  /** With string or absent status fields a record's entry is 1 exactly when
      upstream_status or status starts with '5'; an absent field reads as ''
      and so counts as no error. */
  lemma ErrorEntryOfRecord(fields: map<string, Value>)
    requires "upstream_status" in fields ==> fields["upstream_status"].Str?
    requires "status" in fields ==> fields["status"].Str?
    ensures Flag(Object(fields)) == Some(
              ("upstream_status" in fields && StartsWithFive(fields["upstream_status"].s)) ||
              ("status" in fields && StartsWithFive(fields["status"].s)))
  {
  }

  /** A line that is not JSON, is not an object, or whose status fields make
      `startswith` raise changes none of the three globals and alerts nobody. */
  lemma MalformedLineChangesNothing(c: Config, st: State, line: Line, f: Call, g: Call)
    requires Flag(line).None?
    ensures Step(c, st, line, f, g).after == st
    ensures Step(c, st, line, f, g).result == if line.NotJson? then Ignored else Errored(None)
  {
  }

  /** A record that reaches the append adds exactly one entry, its error flag,
      to the deque; the window is left empty only after an error-rate alert.
      The rate computation reports an exception exactly when WINDOW_SIZE is 0. */
  lemma StepAppendsOneEntry(c: Config, st: State, line: Line, f: Call, g: Call)
    requires Flag(line).Some?
    ensures var t := Step(c, st, line, f, g);
      && !t.result.Ignored?
      && (t.result.Errored? <==> c.windowSize == 0)
      && t.after.window == if RateAlertAttempted(t.result) then [] else Pushed(st.window, Flag(line).value, c.windowSize)
  {
  }

  /** The deque never grows past WINDOW_SIZE. */
  lemma StepKeepsWindowBounded(c: Config, st: State, line: Line, f: Call, g: Call)
    requires |st.window| <= c.windowSize
    ensures |Step(c, st, line, f, g).after.window| <= c.windowSize
  {
  }

  /** A failover alert is attempted exactly when the record's pool is known and
      differs from last_pool; afterwards last_pool is that pool whatever the
      alert's outcome, and a missing or 'unknown' pool leaves last_pool alone. */
  lemma StepFailover(c: Config, st: State, line: Line, f: Call, g: Call)
    requires line.Object? && Flag(line).Some?
    ensures var t := Step(c, st, line, f, g); var pool := RecordPool(line.fields);
      && (FailoverAlert(t.result).Some? <==> pool != Str("unknown") && pool != st.lastPool)
      && (FailoverAlert(t.result).Some? ==> FailoverAlert(t.result).value == Alert(c.cooldown, st.lastAlertTime, f).delivery)
      && t.after.lastPool == if pool != Str("unknown") then pool else st.lastPool
  {
  }

  /** The error rate is looked at only when the deque is full; a breach attempts
      an alert and empties the window whatever the alert's outcome, and no
      breach leaves the window as the append made it. The alert goes through
      send_slack_alert on the timestamp the record's failover alert left. */
  lemma StepErrorRate(c: Config, st: State, line: Line, f: Call, g: Call)
    requires Flag(line).Some?
    ensures var w := Pushed(st.window, Flag(line).value, c.windowSize); var t := Step(c, st, line, f, g);
      && (RateAlertAttempted(t.result) <==>
            c.windowSize > 0 && |w| >= c.windowSize && Breached(ErrorCount(w), |w|, c.threshold))
      && t.after.window == (if RateAlertAttempted(t.result) then [] else w)
      && var mid := if FailoverAlert(t.result).Some? then Alert(c.cooldown, st.lastAlertTime, f).lastAlertTime
                    else st.lastAlertTime;
         RateAlertAttempted(t.result) ==>
           && t.result.highErrorRate.value == Alert(c.cooldown, mid, g).delivery
           && t.after.lastAlertTime == Alert(c.cooldown, mid, g).lastAlertTime
  {
  }

  /** One timestamp serves both alerts: when a record's failover alert is
      delivered and the same record breaches the threshold at the same clock
      reading, the error-rate alert is suppressed, and the window is still cleared. */
  lemma SharedCooldown(c: Config, st: State, line: Line, f: Call, g: Call)
    requires c.cooldown > 0 && f.now == g.now
    requires FailoverAlert(Step(c, st, line, f, g).result) == Some(Delivered)
    requires RateAlertAttempted(Step(c, st, line, f, g).result)
    ensures Step(c, st, line, f, g).result.highErrorRate == Some(Suppressed)
    ensures Step(c, st, line, f, g).after.window == []
    ensures Step(c, st, line, f, g).after.lastAlertTime == f.now
  {
  }

  /** last_pool starts at ACTIVE_POOL, so the very first record from any other
      known pool already attempts a failover alert. */
  lemma FirstForeignPoolFailsOver(c: Config, activePool: string, line: Line, f: Call, g: Call)
    requires line.Object? && Flag(line).Some?
    requires RecordPool(line.fields) != Str("unknown") && RecordPool(line.fields) != Str(activePool)
    ensures FailoverAlert(Step(c, Initial(activePool), line, f, g).result).Some?
  {
  }

  /** A record served by `pool`, without status fields. */
  function Served(pool: string): Line
  {
    Object(map["pool" := Str(pool)])
  }

  /** With the default settings the watcher starts on blue: two blue records
      alert nobody and the green one after them attempts the failover alert. */
  lemma DefaultsFailOverToGreen(f: Call, g: Call)
    ensures var rs := Run(DefaultConfig, Initial(DefaultActivePool),
                          [Input(Served("blue"), f, g), Input(Served("blue"), f, g), Input(Served("green"), f, g)]).results;
      && FailoverAlert(rs[0]).None? && FailoverAlert(rs[1]).None? && FailoverAlert(rs[2]).Some?
      && !RateAlertAttempted(rs[0]) && !RateAlertAttempted(rs[1]) && !RateAlertAttempted(rs[2])
  {
    var c, st := DefaultConfig, Initial(DefaultActivePool);
    var ins := [Input(Served("blue"), f, g), Input(Served("blue"), f, g), Input(Served("green"), f, g)];
    ServedStep(c, st, "blue", f, g);
    var t1 := Step(c, st, Served("blue"), f, g);
    ServedStep(c, t1.after, "blue", f, g);
    var t2 := Step(c, t1.after, Served("blue"), f, g);
    ServedStep(c, t2.after, "green", f, g);
    var t3 := Step(c, t2.after, Served("green"), f, g);
    assert ins[..2][..1][..0] == [];
    assert Run(c, st, ins[..2][..1]) == Trace([t1.result], t1.after);
    assert Run(c, st, ins[..2]) == Trace([t1.result, t2.result], t2.after);
    assert Run(c, st, ins).results == [t1.result, t2.result, t3.result];
  }

  /** A record of a known pool without status fields, while the window has room
      for it, appends
      a non-error entry, makes its pool current and attempts the failover alert
      exactly when the pool changes. */
  lemma ServedStep(c: Config, st: State, pool: string, f: Call, g: Call)
    requires pool != "unknown" && |st.window| + 1 < c.windowSize
    ensures var t := Step(c, st, Served(pool), f, g);
      && t.after.window == st.window + [false] && t.after.lastPool == Str(pool)
      && t.result.Handled? && t.result.highErrorRate.None?
      && (t.result.failover.Some? <==> Str(pool) != st.lastPool)
  {
  }

  /** The error rate of a window is at most 100 percent. */
  lemma RateAtMostHundred(count: nat, len: nat, threshold: real)
    requires 0 < len && count <= len && threshold >= 100.0
    ensures !Breached(count, len, threshold)
  {
  }

  /** So a threshold of 100 or more never fires an error-rate alert. */
  lemma NoRateAlertFromHundredPercent(c: Config, st: State, line: Line, f: Call, g: Call)
    requires c.threshold >= 100.0
    ensures !RateAlertAttempted(Step(c, st, line, f, g).result)
  {
    if Flag(line).Some? {
      var w := Pushed(st.window, Flag(line).value, c.windowSize);
      StepErrorRate(c, st, line, f, g);
      if c.windowSize > 0 && |w| >= c.windowSize {
        RateAtMostHundred(ErrorCount(w), |w|, c.threshold);
      }
    } else {
      MalformedLineChangesNothing(c, st, line, f, g);
    }
  }

  // ------------------------------------------------------------- deque order

  /** Recent(s, n) is the tail of s: its elements are the last |r| of s, in order. */
  lemma RecentIsTail<T>(s: seq<T>, n: nat)
    ensures var r := Recent(s, n); forall i :: 0 <= i < |r| ==> r[i] == s[|s| - |r| + i]
  {
  }

  /** Appending to a deque that holds the last n elements of s yields the last
      n elements of s + [x]: the oldest entry is dropped, the rest keep their order. */
  lemma PushedKeepsLatest(s: seq<bool>, x: bool, n: nat)
    ensures Pushed(Recent(s, n), x, n) == Recent(s + [x], n)
  {
  }

  // -------------------------------------------------------------------- runs

  /** One line of the log with the two calls of send_slack_alert it may make. */
  datatype Input = Input(line: Line, failoverCall: Call, rateCall: Call)

  datatype Trace = Trace(results: seq<LineResult>, final: State)

  /** process_log_line applied to each line in log order. */
  function Run(c: Config, st: State, ins: seq<Input>): (t: Trace)
    ensures |t.results| == |ins|
    decreases |ins|
  {
    if ins == [] then Trace([], st)
    else
      var t := Run(c, st, ins[..|ins| - 1]);
      var x := ins[|ins| - 1];
      var s := Step(c, t.final, x.line, x.failoverCall, x.rateCall);
      Trace(t.results + [s.result], s.after)
  }

  /** The entries the lines append, in order. */
  function Flags(ins: seq<Input>): seq<bool>
    decreases |ins|
  {
    if ins == [] then []
    else
      Flags(ins[..|ins| - 1]) + Appended(ins[|ins| - 1].line)
  }

  /** The entries one line appends: its flag, or none. */
  function Appended(line: Line): seq<bool>
  {
    if Flag(line).Some? then [Flag(line).value] else []
  }

  /** The pool a line makes current, if any: a known pool of a record that gets
      past the error-flag expression. */
  function KnownPool(line: Line): Option<Value>
  {
    if line.Object? && Flag(line).Some? && RecordPool(line.fields) != Str("unknown")
    then Some(RecordPool(line.fields)) else None
  }

  /** The most recent known pool among the lines, or start. */
  function LatestKnownPool(start: Value, ins: seq<Input>): Value
    decreases |ins|
  {
    if ins == [] then start
    else match KnownPool(ins[|ins| - 1].line)
      case Some(p) => p
      case None => LatestKnownPool(start, ins[..|ins| - 1])
  }

  /** The clock readings of the alerts one line delivered, in order. */
  function DeliveredAt(x: Input, r: LineResult): seq<real>
  {
    (if FailoverAlert(r) == Some(Delivered) then [x.failoverCall.now] else []) +
    (if r.Handled? && r.highErrorRate == Some(Delivered) then [x.rateCall.now] else [])
  }

  /** The clock readings of all delivered alerts of a run, in order. */
  function Deliveries(ins: seq<Input>, rs: seq<LineResult>): seq<real>
    requires |rs| == |ins|
    decreases |ins|
  {
    if ins == [] then []
    else Deliveries(ins[..|ins| - 1], rs[..|rs| - 1]) + DeliveredAt(ins[|ins| - 1], rs[|rs| - 1])
  }

  /** Each time is at least cooldown after the one before it, the first at least
      cooldown after start. */
  ghost predicate Spaced(start: real, times: seq<real>, cooldown: int)
  {
    forall i :: 0 <= i < |times| ==> Previous(start, times, i) + cooldown as real <= times[i]
  }

  /** The time before times[i]: start for the first one. */
  function Previous(start: real, times: seq<real>, i: nat): real
    requires i <= |times|
  {
    if i == 0 then start else times[i - 1]
  }

  function LastOr(start: real, times: seq<real>): real
  {
    if times == [] then start else times[|times| - 1]
  }

  /** The deque stays within WINDOW_SIZE over any run. */
  lemma {:induction false} RunKeepsWindowBounded(c: Config, st: State, ins: seq<Input>)
    requires |st.window| <= c.windowSize
    ensures |Run(c, st, ins).final.window| <= c.windowSize
    decreases |ins|
  {
    if ins != [] {
      var pre := ins[..|ins| - 1];
      var x := ins[|ins| - 1];
      RunKeepsWindowBounded(c, st, pre);
      StepKeepsWindowBounded(c, Run(c, st, pre).final, x.line, x.failoverCall, x.rateCall);
    }
  }

  /** A partial window never triggers: while the entries appended have not yet
      filled the window, each is added at the end and no line attempts an
      error-rate alert; after a clear a new alert needs WINDOW_SIZE fresh records. */
  lemma {:induction false} PartialWindowNeverTriggers(c: Config, st: State, ins: seq<Input>)
    requires |st.window| + |Flags(ins)| < c.windowSize
    ensures Run(c, st, ins).final.window == st.window + Flags(ins)
    ensures NoRateAlerts(Run(c, st, ins).results)
    decreases |ins|
  {
    if ins != [] {
      var pre := ins[..|ins| - 1];
      var x := ins[|ins| - 1];
      assert Flags(ins) == Flags(pre) + Appended(x.line);
      PartialWindowNeverTriggers(c, st, pre);
      var t := Run(c, st, pre);
      var s := Step(c, t.final, x.line, x.failoverCall, x.rateCall);
      if Flag(x.line).Some? {
        StepErrorRate(c, t.final, x.line, x.failoverCall, x.rateCall);
      } else {
        MalformedLineChangesNothing(c, t.final, x.line, x.failoverCall, x.rateCall);
      }
      assert s.after.window == t.final.window + Appended(x.line);
      assert Run(c, st, ins).results == t.results + [s.result];
      NoRateAlertsSnoc(t.results, s.result);
      assert st.window + Flags(ins) == (st.window + Flags(pre)) + Appended(x.line);
    }
  }

  /** Between error-rate alerts the window holds exactly the latest WINDOW_SIZE
      entries the lines appended, oldest first. */
  lemma {:induction false} WindowHoldsLatestFlags(c: Config, st: State, ins: seq<Input>)
    requires |st.window| <= c.windowSize
    requires NoRateAlerts(Run(c, st, ins).results)
    ensures Run(c, st, ins).final.window == Recent(st.window + Flags(ins), c.windowSize)
    decreases |ins|
  {
    if ins == [] {
      assert st.window + Flags(ins) == st.window;
    } else {
      var pre := ins[..|ins| - 1];
      var x := ins[|ins| - 1];
      var t := Run(c, st, pre);
      var s := Step(c, t.final, x.line, x.failoverCall, x.rateCall);
      assert Run(c, st, ins).results == t.results + [s.result];
      NoRateAlertsSnoc(t.results, s.result);
      WindowHoldsLatestFlags(c, st, pre);
      assert st.window + Flags(ins) == (st.window + Flags(pre)) + Appended(x.line);
      StepWindowKeepsLatest(c, t.final, x, st.window + Flags(pre));
    }
  }

  /** One line without an error-rate alert extends the deque's history by the
      entries that line appends. */
  lemma StepWindowKeepsLatest(c: Config, st: State, x: Input, h: seq<bool>)
    requires st.window == Recent(h, c.windowSize)
    requires !RateAlertAttempted(Step(c, st, x.line, x.failoverCall, x.rateCall).result)
    ensures Step(c, st, x.line, x.failoverCall, x.rateCall).after.window == Recent(h + Appended(x.line), c.windowSize)
  {
  }

  /** last_pool is always the most recent known pool any processed record
      reported, or ACTIVE_POOL when there was none. */
  lemma {:induction false} LastPoolIsLatestKnown(c: Config, st: State, ins: seq<Input>)
    ensures Run(c, st, ins).final.lastPool == LatestKnownPool(st.lastPool, ins)
    decreases |ins|
  {
    if ins != [] {
      var pre := ins[..|ins| - 1];
      var x := ins[|ins| - 1];
      LastPoolIsLatestKnown(c, st, pre);
      if Flag(x.line).Some? {
        if x.line.Object? {
          StepFailover(c, Run(c, st, pre).final, x.line, x.failoverCall, x.rateCall);
        }
      } else {
        MalformedLineChangesNothing(c, Run(c, st, pre).final, x.line, x.failoverCall, x.rateCall);
      }
    }
  }

  /** The alerts one line delivers are spaced by the cooldown from
      last_alert_time and from each other, and the last of them is the new
      last_alert_time. */
  lemma StepDeliveriesSpaced(c: Config, st: State, x: Input)
    ensures var s := Step(c, st, x.line, x.failoverCall, x.rateCall);
      && Spaced(st.lastAlertTime, DeliveredAt(x, s.result), c.cooldown)
      && s.after.lastAlertTime == LastOr(st.lastAlertTime, DeliveredAt(x, s.result))
  {
  }

  lemma SpacedConcat(start: real, a: seq<real>, b: seq<real>, cooldown: int)
    requires Spaced(start, a, cooldown) && Spaced(LastOr(start, a), b, cooldown)
    ensures Spaced(start, a + b, cooldown)
    ensures LastOr(start, a + b) == LastOr(LastOr(start, a), b)
  {
  }

  /** No flooding: over any run, every delivered alert comes at least
      ALERT_COOLDOWN_SEC after the delivered alert before it (the first one at
      least that long after the starting last_alert_time), and last_alert_time is
      the time of the latest delivery. */
  lemma {:induction false} DeliveriesAreSpaced(c: Config, st: State, ins: seq<Input>)
    ensures var t := Run(c, st, ins);
      && Spaced(st.lastAlertTime, Deliveries(ins, t.results), c.cooldown)
      && t.final.lastAlertTime == LastOr(st.lastAlertTime, Deliveries(ins, t.results))
    decreases |ins|
  {
    if ins != [] {
      var pre := ins[..|ins| - 1];
      var x := ins[|ins| - 1];
      var t := Run(c, st, pre);
      var s := Step(c, t.final, x.line, x.failoverCall, x.rateCall);
      var rs := Run(c, st, ins).results;
      assert rs == t.results + [s.result];
      assert rs[..|rs| - 1] == t.results;
      DeliveriesAreSpaced(c, st, pre);
      StepDeliveriesSpaced(c, t.final, x);
      SpacedConcat(st.lastAlertTime, Deliveries(pre, t.results), DeliveredAt(x, s.result), c.cooldown);
    }
  }
}
