/**
 * `PerformanceMonitor`: the threshold map, `log_error`, the wrap-up of `monitor_function`,
 * one cycle of `background_monitoring`, the `require_api_key` guard and the threshold update
 * of `manage_thresholds`. Host samples, clock readings, formatted messages and tracebacks
 * are parameters.
 */
module Monitoring {
  import opened Types
  import opened Diagnostics
  import opened Retention
  import opened Store

  const NO_TRACEBACK: string := "No traceback available"

  /** The thresholds every `PerformanceMonitor` starts with. */
  const DEFAULT_THRESHOLDS: map<string, real> := map["cpu" := 80.0, "memory" := 80.0, "disk" := 90.0, "response_time" := 5.0]

  /** Seconds the background loop sleeps after a clean cycle and after a failed one. */
  const CYCLE_SLEEP_SECONDS: nat := 30
  const BACKOFF_SLEEP_SECONDS: nat := 60

  /**
   * The row `log_error` writes: the level exactly as passed, the impact of the fresh `probe`
   * sample, and the traceback of the exception being handled if there is one.
   */
  function NewErrorLog(errorType: string, message: string, functionName: string, level: string,
                       apiKey: Option<string>, handling: Option<string>, probe: Sample, now: string): (e: ErrorLog)
    ensures e.level == level && e.errorType == errorType && e.message == message
    ensures e.functionName == functionName && e.apiKey == apiKey && e.timestamp == now
    ensures e.tracebackInfo == if handling.Some? then handling.value else NO_TRACEBACK
    ensures e.cpuImpact == PerformanceImpact(probe).cpuImpact && e.memoryImpact == PerformanceImpact(probe).memoryImpact
    ensures e.severity == PerformanceImpact(probe).overallSeverity
    ensures e.cpuImpact >= 0.0 && e.memoryImpact >= 0.0 && e.severity <= 10.0
  {
    var impact := PerformanceImpact(probe);
    ErrorLog(now, level, errorType, message,
      if handling.Some? then handling.value else NO_TRACEBACK,
      functionName, impact.cpuImpact, impact.memoryImpact, impact.overallSeverity,
      apiKey)
  }

  /**
   * Since `log_error` does not normalise the level while `get_errors` upper-cases its filter,
   * a row logged with a lower-case letter in its level is never returned by a level query.
   */
  lemma LowerCaseLevelIsNeverFound(errorType: string, message: string, functionName: string, level: string,
                                   apiKey: Option<string>, handling: Option<string>, probe: Sample, now: string,
                                   filter: Option<string>, owner: Option<string>, k: nat)
    requires Truthy(filter) && k < |level| && 'a' <= level[k] <= 'z'
    ensures !ErrorMatches(filter, owner, NewErrorLog(errorType, message, functionName, level, apiKey, handling, probe, now))
  {
    var upper := Upper(filter.value);
    if |upper| == |level| {
      assert upper[k] != level[k];
    }
  }

  /** How the body wrapped by `monitor_function` ended. */
  datatype Outcome = Completed | Raised(className: string, message: string, traceback: string)

  /** The fresh samples taken by `_calculate_performance_impact` for each row `monitor_function` may log. */
  datatype Probes = Probes(onError: Sample, onHighCpu: Sample, onSlow: Sample)

  /** The traceback `log_error` sees inside `monitor_function`: the body's, while its exception is handled. */
  function Handling(outcome: Outcome): Option<string> {
    if outcome.Raised? then Some(outcome.traceback) else None
  }

  /** The `except` block's row: ERROR, typed with the upper-cased exception class name. */
  function RaisedRows(functionName: string, apiKey: Option<string>, outcome: Outcome, probe: Sample, now: string): seq<ErrorLog> {
    if outcome.Raised? then
      [NewErrorLog(Upper(outcome.className), outcome.message, functionName, "ERROR", apiKey, Handling(outcome), probe, now)]
    else []
  }

  /**
   * Whether the `finally` block raises KeyError: its CPU check reads a failed sample as 0, so
   * under a negative `thresholds['cpu']` it fires, and the warning's message then indexes the
   * missing 'cpu_usage' key before `log_error` runs. Nothing after that point of the block runs.
   */
  predicate FinallyRaises(thresholds: map<string, real>, end: Sample)
    requires "cpu" in thresholds
  {
    end.Unavailable? && end.CpuUsage() > thresholds["cpu"]
  }

  /** Only a failed sample under a negative CPU threshold makes the `finally` block raise. */
  lemma FinallyRaisesOnlyUnderNegativeThreshold(thresholds: map<string, real>, end: Sample)
    requires "cpu" in thresholds
    ensures FinallyRaises(thresholds, end) <==> end.Unavailable? && thresholds["cpu"] < 0.0
  {
  }

  /** The `finally` block's CPU check: strictly above `thresholds['cpu']`, with a message that can be formatted. */
  function HighCpuRows(thresholds: map<string, real>, functionName: string, apiKey: Option<string>, outcome: Outcome,
                       end: Sample, probe: Sample, message: string, now: string): seq<ErrorLog>
    requires "cpu" in thresholds
  {
    if end.CpuUsage() > thresholds["cpu"] && !FinallyRaises(thresholds, end) then
      [NewErrorLog("HIGH_CPU_USAGE", message, functionName, "WARNING", apiKey, Handling(outcome), probe, now)]
    else []
  }

  /** The `finally` block's response-time check: strictly above `thresholds['response_time']`. */
  function SlowRows(thresholds: map<string, real>, functionName: string, apiKey: Option<string>, outcome: Outcome,
                    elapsed: real, probe: Sample, message: string, now: string): seq<ErrorLog>
    requires "response_time" in thresholds
  {
    if elapsed > thresholds["response_time"] then
      [NewErrorLog("SLOW_RESPONSE", message, functionName, "WARNING", apiKey, Handling(outcome), probe, now)]
    else []
  }

  /**
   * The error rows the `except` and `finally` blocks of `monitor_function` write, in order:
   * the ERROR row of a raising body, then the HIGH_CPU_USAGE and SLOW_RESPONSE warnings; the
   * response-time check is not reached when the CPU check raised.
   */
  function MonitorLogs(thresholds: map<string, real>, functionName: string, apiKey: Option<string>, outcome: Outcome,
                       elapsed: real, end: Sample, probes: Probes, cpuMessage: string, slowMessage: string, now: string): (logs: seq<ErrorLog>)
    requires "cpu" in thresholds && "response_time" in thresholds
    ensures |logs| <= 3
    ensures forall i :: 0 <= i < |logs| ==> logs[i].functionName == functionName && logs[i].apiKey == apiKey
  {
    RaisedRows(functionName, apiKey, outcome, probes.onError, now)
    + HighCpuRows(thresholds, functionName, apiKey, outcome, end, probes.onHighCpu, cpuMessage, now)
    + ReachedSlowRows(thresholds, functionName, apiKey, outcome, elapsed, end, probes.onSlow, slowMessage, now)
  }

  /** The response-time check's rows, when the `finally` block gets that far. */
  function ReachedSlowRows(thresholds: map<string, real>, functionName: string, apiKey: Option<string>, outcome: Outcome,
                           elapsed: real, end: Sample, probe: Sample, message: string, now: string): seq<ErrorLog>
    requires "cpu" in thresholds && "response_time" in thresholds
  {
    if FinallyRaises(thresholds, end) then [] else SlowRows(thresholds, functionName, apiKey, outcome, elapsed, probe, message, now)
  }

  /**
   * The metric row the `finally` block of `monitor_function` saves: a `completed` row of the
   * wrapped function and the request's key, timed by `elapsed`, with the end sample's readings,
   * a failed sample (`{}` read with `.get(…, 0)`) giving zeros.
   */
  function MonitorMetric(functionName: string, apiKey: Option<string>, elapsed: real, end: Sample, now: string): (r: MetricRecord)
    ensures r.status == "completed" && r.executionTime == elapsed && r.timestamp == now
    ensures r.functionName == functionName && r.apiKey == apiKey
    ensures end.Unavailable? ==>
      r.cpuUsage == 0.0 && r.memoryUsage == 0.0 && r.diskUsage == 0.0 && r.networkSent == 0 && r.networkRecv == 0
    ensures end.Reading? ==>
      && r.cpuUsage == end.cpuPercent && r.memoryUsage == end.memoryPercent && r.diskUsage == end.diskPercent
      && r.networkSent == end.bytesSent && r.networkRecv == end.bytesRecv
  {
    MetricRecord(now, end.CpuUsage(), end.MemoryUsage(), end.DiskUsage(), end.NetworkSent(), end.NetworkRecv(),
                 elapsed, functionName, "completed", apiKey)
  }

  /** The metric a window saves: none when the `finally` block raised before reaching the save. */
  function WindowMetric(thresholds: map<string, real>, functionName: string, apiKey: Option<string>, elapsed: real,
                        end: Sample, now: string): Option<MetricRecord>
    requires "cpu" in thresholds
  {
    if FinallyRaises(thresholds, end) then None else Some(MonitorMetric(functionName, apiKey, elapsed, end, now))
  }

  /** How a window ends for its caller: the body's outcome passed on (re-raised if it raised), or the `finally` block's KeyError. */
  datatype WindowEnd = PassesOn(outcome: Outcome) | FinallyKeyError(key: string)

  /** A window logs one row per triggered case and nothing else. */
  lemma MonitorLogsCount(thresholds: map<string, real>, functionName: string, apiKey: Option<string>, outcome: Outcome,
      elapsed: real, end: Sample, probes: Probes, cpuMessage: string, slowMessage: string, now: string)
    requires "cpu" in thresholds && "response_time" in thresholds
    ensures var logs := MonitorLogs(thresholds, functionName, apiKey, outcome, elapsed, end, probes, cpuMessage, slowMessage, now);
      && (!FinallyRaises(thresholds, end) ==>
            |logs| == (if outcome.Raised? then 1 else 0) + (if end.CpuUsage() > thresholds["cpu"] then 1 else 0)
                      + (if elapsed > thresholds["response_time"] then 1 else 0))
      && (FinallyRaises(thresholds, end) ==> |logs| == if outcome.Raised? then 1 else 0)
  {
  }

  /**
   * A raising body's ERROR row comes first, typed with the upper-cased class name and carrying
   * the exception's message and traceback; every later row is a WARNING.
   */
  lemma MonitorErrorRowFirst(thresholds: map<string, real>, functionName: string, apiKey: Option<string>, outcome: Outcome,
      elapsed: real, end: Sample, probes: Probes, cpuMessage: string, slowMessage: string, now: string)
    requires "cpu" in thresholds && "response_time" in thresholds
    ensures var logs := MonitorLogs(thresholds, functionName, apiKey, outcome, elapsed, end, probes, cpuMessage, slowMessage, now);
      && (outcome.Raised? ==> logs[0].level == "ERROR" && logs[0].errorType == Upper(outcome.className)
                              && logs[0].message == outcome.message && logs[0].tracebackInfo == outcome.traceback)
      && (!outcome.Raised? ==> forall i :: 0 <= i < |logs| ==> logs[i].level == "WARNING")
      && (forall i :: 0 < i < |logs| ==> logs[i].level == "WARNING")
  {
    var a := RaisedRows(functionName, apiKey, outcome, probes.onError, now);
    var b := HighCpuRows(thresholds, functionName, apiKey, outcome, end, probes.onHighCpu, cpuMessage, now);
    var c := ReachedSlowRows(thresholds, functionName, apiKey, outcome, elapsed, end, probes.onSlow, slowMessage, now);
    var logs := a + b + c;
    if outcome.Raised? {
      assert logs[0] == a[0];
    }
    forall i | 0 <= i < |logs| && (0 < i || !outcome.Raised?) ensures logs[i].level == "WARNING" {
      if i < |a| + |b| { assert logs[i] == b[i - |a|]; } else { assert logs[i] == c[i - |a| - |b|]; }
    }
  }

  /** Where each kind of row sits in a window's rows: the ERROR row, then the CPU warning, then the slow warning. */
  lemma RowsLayout(thresholds: map<string, real>, functionName: string, apiKey: Option<string>, outcome: Outcome,
                   elapsed: real, end: Sample, probes: Probes, cpuMessage: string, slowMessage: string, now: string)
    requires "cpu" in thresholds && "response_time" in thresholds
    ensures var a := RaisedRows(functionName, apiKey, outcome, probes.onError, now);
      var b := HighCpuRows(thresholds, functionName, apiKey, outcome, end, probes.onHighCpu, cpuMessage, now);
      var logs := MonitorLogs(thresholds, functionName, apiKey, outcome, elapsed, end, probes, cpuMessage, slowMessage, now);
      forall i :: 0 <= i < |logs| ==>
        && (logs[i].level == "WARNING" <==> i >= |a|)
        && (i >= |a| ==> logs[i].errorType == (if i < |a| + |b| then "HIGH_CPU_USAGE" else "SLOW_RESPONSE"))
  {
    var a := RaisedRows(functionName, apiKey, outcome, probes.onError, now);
    var b := HighCpuRows(thresholds, functionName, apiKey, outcome, end, probes.onHighCpu, cpuMessage, now);
    var c := ReachedSlowRows(thresholds, functionName, apiKey, outcome, elapsed, end, probes.onSlow, slowMessage, now);
    var logs := a + b + c;
    forall i | 0 <= i < |logs|
      ensures && (logs[i].level == "WARNING" <==> i >= |a|)
              && (i >= |a| ==> logs[i].errorType == (if i < |a| + |b| then "HIGH_CPU_USAGE" else "SLOW_RESPONSE"))
    {
      if i < |a| { assert logs[i] == a[i]; }
      else if i < |a| + |b| { assert logs[i] == b[i - |a|]; }
      else { assert logs[i] == c[i - |a| - |b|]; }
    }
  }

  /**
   * A HIGH_CPU_USAGE warning is logged iff the end sample's CPU is strictly above
   * `thresholds['cpu']` and the sample did not fail (a failed one raises KeyError instead).
   */
  lemma MonitorWarnsOnHighCpu(thresholds: map<string, real>, functionName: string, apiKey: Option<string>, outcome: Outcome,
      elapsed: real, end: Sample, probes: Probes, cpuMessage: string, slowMessage: string, now: string)
    requires "cpu" in thresholds && "response_time" in thresholds
    ensures var logs := MonitorLogs(thresholds, functionName, apiKey, outcome, elapsed, end, probes, cpuMessage, slowMessage, now);
      end.Reading? && end.CpuUsage() > thresholds["cpu"] <==>
        exists i :: 0 <= i < |logs| && logs[i].level == "WARNING" && logs[i].errorType == "HIGH_CPU_USAGE"
  {
    var a := RaisedRows(functionName, apiKey, outcome, probes.onError, now);
    var b := HighCpuRows(thresholds, functionName, apiKey, outcome, end, probes.onHighCpu, cpuMessage, now);
    var c := ReachedSlowRows(thresholds, functionName, apiKey, outcome, elapsed, end, probes.onSlow, slowMessage, now);
    var logs := MonitorLogs(thresholds, functionName, apiKey, outcome, elapsed, end, probes, cpuMessage, slowMessage, now);
    RowsLayout(thresholds, functionName, apiKey, outcome, elapsed, end, probes, cpuMessage, slowMessage, now);
    assert |logs| == |a| + |b| + |c|;
    if end.Reading? && end.CpuUsage() > thresholds["cpu"] {
      assert |b| == 1;
      assert logs[|a|].level == "WARNING" && logs[|a|].errorType == "HIGH_CPU_USAGE";
    } else {
      assert |b| == 0;
    }
  }

  /**
   * A SLOW_RESPONSE warning is logged iff the elapsed time is strictly above
   * `thresholds['response_time']` and the CPU check before it did not raise.
   */
  lemma MonitorWarnsOnSlowResponse(thresholds: map<string, real>, functionName: string, apiKey: Option<string>, outcome: Outcome,
      elapsed: real, end: Sample, probes: Probes, cpuMessage: string, slowMessage: string, now: string)
    requires "cpu" in thresholds && "response_time" in thresholds
    ensures var logs := MonitorLogs(thresholds, functionName, apiKey, outcome, elapsed, end, probes, cpuMessage, slowMessage, now);
      !FinallyRaises(thresholds, end) && elapsed > thresholds["response_time"] <==>
        exists i :: 0 <= i < |logs| && logs[i].level == "WARNING" && logs[i].errorType == "SLOW_RESPONSE"
  {
    var a := RaisedRows(functionName, apiKey, outcome, probes.onError, now);
    var b := HighCpuRows(thresholds, functionName, apiKey, outcome, end, probes.onHighCpu, cpuMessage, now);
    var c := ReachedSlowRows(thresholds, functionName, apiKey, outcome, elapsed, end, probes.onSlow, slowMessage, now);
    var logs := MonitorLogs(thresholds, functionName, apiKey, outcome, elapsed, end, probes, cpuMessage, slowMessage, now);
    RowsLayout(thresholds, functionName, apiKey, outcome, elapsed, end, probes, cpuMessage, slowMessage, now);
    assert |logs| == |a| + |b| + |c|;
    if !FinallyRaises(thresholds, end) && elapsed > thresholds["response_time"] {
      assert |c| == 1;
      assert logs[|a| + |b|].level == "WARNING" && logs[|a| + |b|].errorType == "SLOW_RESPONSE";
    } else {
      assert |c| == 0;
    }
  }

  /** The CPU warning is written before the response-time warning. */
  lemma MonitorCpuWarningBeforeSlow(thresholds: map<string, real>, functionName: string, apiKey: Option<string>, outcome: Outcome,
      elapsed: real, end: Sample, probes: Probes, cpuMessage: string, slowMessage: string, now: string)
    requires "cpu" in thresholds && "response_time" in thresholds
    ensures var logs := MonitorLogs(thresholds, functionName, apiKey, outcome, elapsed, end, probes, cpuMessage, slowMessage, now);
      forall i, j ::
        (0 <= i < |logs| && 0 <= j < |logs| && logs[i].level == "WARNING" && logs[i].errorType == "HIGH_CPU_USAGE"
         && logs[j].level == "WARNING" && logs[j].errorType == "SLOW_RESPONSE") ==> i < j
  {
    RowsLayout(thresholds, functionName, apiKey, outcome, elapsed, end, probes, cpuMessage, slowMessage, now);
  }

  /**
   * The tables after one `monitor_function` window: the rows of `MonitorLogs` appended to
   * `errors`, then the window's metric row saved, if any (and, in the enhanced variant, eviction).
   */
  function AfterMonitor(t: Tables, variant: Variant, max: nat, logs: seq<ErrorLog>, metric: Option<MetricRecord>): Tables {
    var u := t.InsertErrors(logs);
    if metric.Some? then u.SaveMetric(variant, max, metric.value) else u
  }

  /**
   * Whether or not the body raised, a window with a metric adds exactly that one row: in app.py
   * the table grows by that one row; in enhanced_monitor_api.py it is the newest row left after
   * eviction. A window without one leaves the metrics alone. The error rows are appended
   * unchanged and in order.
   */
  lemma MonitorSavesAtMostOneMetric(t: Tables, variant: Variant, max: nat, logs: seq<ErrorLog>, metric: Option<MetricRecord>)
    requires t.Valid()
    ensures var t' := AfterMonitor(t, variant, max, logs, metric);
      && t'.Valid()
      && t'.errors == t.errors + t.InsertErrors(logs).errors[|t.errors|..]
      && |t'.errors| == |t.errors| + |logs|
      && (forall i :: 0 <= i < |logs| ==> t'.errors[|t.errors| + i].row == logs[i])
      && (metric.None? ==> t'.metrics == t.metrics && t'.nextMetricId == t.nextMetricId)
      && (metric.Some? ==> t'.nextMetricId == t.nextMetricId + 1)
      && (metric.Some? && variant == PeriodicEviction ==> t'.metrics == t.metrics + [Stored(t.nextMetricId, metric.value)])
      && (metric.Some? && variant == InlineEviction && max >= 1 ==>
            && Last(t'.metrics) == Stored(t.nextMetricId, metric.value)
            && |t'.metrics| <= max
            && forall i :: 0 <= i < |t'.metrics| - 1 ==> t'.metrics[i] in t.metrics)
  {
    var u := t.InsertErrors(logs);
    assert u.errors == t.errors + u.errors[|t.errors|..];
    if metric.Some? {
      SaveMetricPlacement(u, variant, max, metric.value);
    }
  }

  /** Where a saved metric row ends up, and that the error rows stay as they were. */
  lemma SaveMetricPlacement(u: Tables, variant: Variant, max: nat, m: MetricRecord)
    requires u.Valid()
    ensures var t' := u.SaveMetric(variant, max, m);
      && t'.Valid() && t'.errors == u.errors && t'.nextMetricId == u.nextMetricId + 1
      && (variant == PeriodicEviction ==> t'.metrics == u.metrics + [Stored(u.nextMetricId, m)])
      && (variant == InlineEviction && max >= 1 ==>
            && Last(t'.metrics) == Stored(u.nextMetricId, m)
            && |t'.metrics| <= max
            && forall i :: 0 <= i < |t'.metrics| - 1 ==> t'.metrics[i] in u.metrics)
  {
    if variant == PeriodicEviction {
      SaveMetricPeriodicAppends(u, max, m);
    } else {
      SaveMetricInlineBounded(u, max, m);
      SaveMetricInlineKeepsNewRow(u, max, m);
      if max >= 1 {
        var t' := u.SaveMetric(InlineEviction, max, m);
        forall i | 0 <= i < |t'.metrics| - 1 ensures t'.metrics[i] in u.metrics {
          assert t'.metrics[i] in t'.metrics;
          assert t'.metrics[i].id < Last(t'.metrics).id == u.nextMetricId;
        }
      }
    }
  }

  /**
   * When the `finally` block raises KeyError, the window keeps only what the `except` block
   * wrote: the body's ERROR row if it raised, no warning and no metric.
   */
  lemma FinallyKeyErrorKeepsOnlyTheErrorRow(thresholds: map<string, real>, functionName: string, apiKey: Option<string>,
      outcome: Outcome, elapsed: real, end: Sample, probes: Probes, cpuMessage: string, slowMessage: string, now: string)
    requires "cpu" in thresholds && "response_time" in thresholds
    requires FinallyRaises(thresholds, end)
    ensures MonitorLogs(thresholds, functionName, apiKey, outcome, elapsed, end, probes, cpuMessage, slowMessage, now)
         == RaisedRows(functionName, apiKey, outcome, probes.onError, now)
    ensures WindowMetric(thresholds, functionName, apiKey, elapsed, end, now) == None
  {
    var a := RaisedRows(functionName, apiKey, outcome, probes.onError, now);
    assert a + [] + [] == a;
  }

  /** The outcome of one pass of the `while True` body of `background_monitoring`. */
  datatype CycleResult = CycleResult(warnings: seq<ErrorLog>, cleanedUp: bool, failure: Option<ErrorLog>, sleepSeconds: nat)

  /** Where an exception interrupts the cycle: a threshold check, or (app.py) the cleanup. */
  datatype Stage = AtCpuWarning | AtMemoryWarning | AtCleanup

  /** An exception raised at `stage`, with `str(e)` and its formatted traceback. */
  datatype Fault = Fault(stage: Stage, message: string, traceback: string)

  /** Whether the store raises at `stage`. */
  predicate FailsAt(fault: Option<Fault>, stage: Stage) {
    fault.Some? && fault.value.stage == stage
  }

  /**
   * The fresh samples for the rows one cycle may log, and the formatted traceback of the
   * KeyError a threshold check's message raises on a failed sample.
   */
  datatype CycleProbes = CycleProbes(onCpu: Sample, onMemory: Sample, onFailure: Sample, keyErrorTrace: string)

  /** `str(e)` of `KeyError(key)`: the key's repr, in single quotes. */
  function KeyErrorText(key: string): string {
    "'" + key + "'"
  }

  /**
   * The exception a threshold check raises once it fires: KeyError when the sample failed,
   * because the message indexes the missing `key` before `log_error` runs; otherwise the
   * store's exception at that write, if `fault` puts one there.
   */
  function CheckRaises(high: bool, stage: Stage, key: string, sample: Sample, fault: Option<Fault>, keyErrorTrace: string): Option<Fault> {
    if !high then None
    else if sample.Unavailable? then Some(Fault(stage, KeyErrorText(key), keyErrorTrace))
    else if FailsAt(fault, stage) then fault
    else None
  }

  /** The exception the CPU check raises, if any. */
  function CpuRaises(thresholds: map<string, real>, sample: Sample, fault: Option<Fault>, probes: CycleProbes): Option<Fault>
    requires "cpu" in thresholds
  {
    CheckRaises(sample.CpuUsage() > thresholds["cpu"], AtCpuWarning, "cpu_usage", sample, fault, probes.keyErrorTrace)
  }

  /** Whether the memory check is reached (the CPU check did not raise) and fires. */
  predicate MemoryHigh(thresholds: map<string, real>, sample: Sample, fault: Option<Fault>, probes: CycleProbes)
    requires "cpu" in thresholds && "memory" in thresholds
  {
    CpuRaises(thresholds, sample, fault, probes).None? && sample.MemoryUsage() > thresholds["memory"]
  }

  /** The exception the memory check raises, if any. */
  function MemoryRaises(thresholds: map<string, real>, sample: Sample, fault: Option<Fault>, probes: CycleProbes): Option<Fault>
    requires "cpu" in thresholds && "memory" in thresholds
  {
    CheckRaises(MemoryHigh(thresholds, sample, fault, probes), AtMemoryWarning, "memory_usage", sample, fault, probes.keyErrorTrace)
  }

  /** The exception that ends the two threshold checks: the CPU check's, or else the memory check's. */
  function WarningRaises(thresholds: map<string, real>, sample: Sample, fault: Option<Fault>, probes: CycleProbes): Option<Fault>
    requires "cpu" in thresholds && "memory" in thresholds
  {
    var cpu := CpuRaises(thresholds, sample, fault, probes);
    if cpu.Some? then cpu else MemoryRaises(thresholds, sample, fault, probes)
  }

  /** Whether a threshold check meets a failed sample: only a negative threshold fires on it. */
  predicate ChecksMeetFailedSample(thresholds: map<string, real>, sample: Sample)
    requires "cpu" in thresholds && "memory" in thresholds
  {
    sample.Unavailable? && (sample.CpuUsage() > thresholds["cpu"] || sample.MemoryUsage() > thresholds["memory"])
  }

  /**
   * One cycle: a WARNING for CPU and then for memory when the sample strictly exceeds the
   * threshold, then (app.py only) eviction and a 30 s sleep; an exception at any of those
   * steps instead logs BACKGROUND_MONITOR_ERROR with that exception and sleeps 60 s. The rows
   * written before the failing step stay written.
   */
  function Cycle(variant: Variant, thresholds: map<string, real>, sample: Sample, fault: Option<Fault>,
                 probes: CycleProbes, cpuMessage: string, memoryMessage: string, now: string): (r: CycleResult)
    requires "cpu" in thresholds && "memory" in thresholds
    ensures r.sleepSeconds == (if r.failure.Some? then 60 else 30)
    ensures r.failure.Some? ==> r.failure.value.errorType == "BACKGROUND_MONITOR_ERROR" && r.failure.value.level == "ERROR"
                                && r.failure.value.functionName == "background_monitoring" && !r.cleanedUp
    ensures r.cleanedUp <==> variant == PeriodicEviction && r.failure.None?
    ensures forall i :: 0 <= i < |r.warnings| ==>
      r.warnings[i].level == "WARNING" && r.warnings[i].functionName == "background_monitor" && r.warnings[i].apiKey == None
  {
    var warningRaised := WarningRaises(thresholds, sample, fault, probes);
    var raised := if warningRaised.None? && variant == PeriodicEviction && FailsAt(fault, AtCleanup) then fault else warningRaised;
    var written := CycleWarnings(thresholds, sample, fault, probes, cpuMessage, memoryMessage, now);
    if raised.Some? then
      var failure := NewErrorLog("BACKGROUND_MONITOR_ERROR", raised.value.message, "background_monitoring", "ERROR",
                                 None, Some(raised.value.traceback), probes.onFailure, now);
      CycleResult(written, false, Some(failure), BACKOFF_SLEEP_SECONDS)
    else
      CycleResult(written, variant == PeriodicEviction, None, CYCLE_SLEEP_SECONDS)
  }

  /** The warning rows a cycle writes: CPU's, then memory's, each only when its check fires without raising. */
  function CycleWarnings(thresholds: map<string, real>, sample: Sample, fault: Option<Fault>,
                         probes: CycleProbes, cpuMessage: string, memoryMessage: string, now: string): seq<ErrorLog>
    requires "cpu" in thresholds && "memory" in thresholds
  {
    var cpuWritten := sample.CpuUsage() > thresholds["cpu"] && CpuRaises(thresholds, sample, fault, probes).None?;
    var memoryWritten := MemoryHigh(thresholds, sample, fault, probes) && MemoryRaises(thresholds, sample, fault, probes).None?;
    CycleWarning(cpuWritten, "HIGH_CPU_USAGE", cpuMessage, probes.onCpu, now)
      + CycleWarning(memoryWritten, "HIGH_MEMORY_USAGE", memoryMessage, probes.onMemory, now)
  }

  /** The row one threshold check of a cycle writes, when it is written. */
  function CycleWarning(written: bool, errorType: string, message: string, probe: Sample, now: string): seq<ErrorLog> {
    if written then [NewErrorLog(errorType, message, "background_monitor", "WARNING", None, None, probe, now)] else []
  }

  /** The tables after a cycle: its warnings, then its eviction if it ran, then its failure row. */
  function AfterCycle(t: Tables, max: nat, r: CycleResult): Tables {
    var u := t.InsertErrors(r.warnings);
    var v := if r.cleanedUp then u.CleanupOldMetrics(max) else u;
    if r.failure.Some? then v.InsertError(r.failure.value) else v
  }

  /**
   * What any cycle does: it sleeps 30 s, or 60 s exactly when it logs a failure. An exception
   * at a step the cycle reaches logs one BACKGROUND_MONITOR_ERROR and skips the eviction; only
   * app.py evicts; every warning is a WARNING row of "background_monitor" without owner.
   */
  lemma CycleOutcome(variant: Variant, thresholds: map<string, real>, sample: Sample, fault: Option<Fault>,
                     probes: CycleProbes, cpuMessage: string, memoryMessage: string, now: string)
    requires "cpu" in thresholds && "memory" in thresholds
    ensures var r := Cycle(variant, thresholds, sample, fault, probes, cpuMessage, memoryMessage, now);
      var cpuHigh := sample.CpuUsage() > thresholds["cpu"];
      var memoryHigh := sample.MemoryUsage() > thresholds["memory"];
      r.failure.Some? <==> (cpuHigh && (sample.Unavailable? || FailsAt(fault, AtCpuWarning)))
                           || (memoryHigh && (sample.Unavailable? || FailsAt(fault, AtMemoryWarning)))
                           || (variant == PeriodicEviction && FailsAt(fault, AtCleanup))
  {
    WarningRaisesWhen(thresholds, sample, fault, probes);
  }

  /** The threshold checks raise iff one of them fires on a failed sample or on a failing store write. */
  lemma WarningRaisesWhen(thresholds: map<string, real>, sample: Sample, fault: Option<Fault>, probes: CycleProbes)
    requires "cpu" in thresholds && "memory" in thresholds
    ensures WarningRaises(thresholds, sample, fault, probes).Some? <==>
      (sample.CpuUsage() > thresholds["cpu"] && (sample.Unavailable? || FailsAt(fault, AtCpuWarning)))
      || (sample.MemoryUsage() > thresholds["memory"] && (sample.Unavailable? || FailsAt(fault, AtMemoryWarning)))
  {
  }

  /**
   * A cycle in which nothing raises logs HIGH_CPU_USAGE iff CPU > thresholds['cpu'] and
   * HIGH_MEMORY_USAGE iff memory > thresholds['memory'], one row each, and sleeps 30 s.
   */
  lemma CycleWarnsIffOverThreshold(variant: Variant, thresholds: map<string, real>, sample: Sample,
                                   probes: CycleProbes, cpuMessage: string, memoryMessage: string, now: string)
    requires "cpu" in thresholds && "memory" in thresholds
    requires !ChecksMeetFailedSample(thresholds, sample)
    ensures var r := Cycle(variant, thresholds, sample, None, probes, cpuMessage, memoryMessage, now);
      var cpuHigh := sample.CpuUsage() > thresholds["cpu"];
      var memoryHigh := sample.MemoryUsage() > thresholds["memory"];
      && r.sleepSeconds == 30 && r.failure.None?
      && (cpuHigh <==> exists i :: 0 <= i < |r.warnings| && r.warnings[i].errorType == "HIGH_CPU_USAGE")
      && (memoryHigh <==> exists i :: 0 <= i < |r.warnings| && r.warnings[i].errorType == "HIGH_MEMORY_USAGE")
      && |r.warnings| == (if cpuHigh then 1 else 0) + (if memoryHigh then 1 else 0)
  {
    var r := Cycle(variant, thresholds, sample, None, probes, cpuMessage, memoryMessage, now);
    var cpuHigh := sample.CpuUsage() > thresholds["cpu"];
    var memoryHigh := sample.MemoryUsage() > thresholds["memory"];
    assert CpuRaises(thresholds, sample, None, probes) == None;
    assert MemoryRaises(thresholds, sample, None, probes) == None;
    if cpuHigh { assert r.warnings[0].errorType == "HIGH_CPU_USAGE"; }
    if memoryHigh { assert Last(r.warnings).errorType == "HIGH_MEMORY_USAGE"; }
  }

  /**
   * A threshold check that fires on a failed sample raises KeyError for the key its message
   * reads: the cycle writes no warning and logs BACKGROUND_MONITOR_ERROR with that KeyError.
   */
  lemma CycleFailedSampleRaisesKeyError(variant: Variant, thresholds: map<string, real>, sample: Sample, fault: Option<Fault>,
                                        probes: CycleProbes, cpuMessage: string, memoryMessage: string, now: string)
    requires "cpu" in thresholds && "memory" in thresholds
    requires ChecksMeetFailedSample(thresholds, sample)
    ensures var r := Cycle(variant, thresholds, sample, fault, probes, cpuMessage, memoryMessage, now);
      && r.warnings == [] && r.failure.Some? && !r.cleanedUp && r.sleepSeconds == BACKOFF_SLEEP_SECONDS
      && r.failure.value.message == KeyErrorText(if sample.CpuUsage() > thresholds["cpu"] then "cpu_usage" else "memory_usage")
      && r.failure.value.tracebackInfo == probes.keyErrorTrace
  {
    var stage := if sample.CpuUsage() > thresholds["cpu"] then AtCpuWarning else AtMemoryWarning;
    var key := if sample.CpuUsage() > thresholds["cpu"] then "cpu_usage" else "memory_usage";
    assert WarningRaises(thresholds, sample, fault, probes) == Some(Fault(stage, KeyErrorText(key), probes.keyErrorTrace));
    assert CycleWarnings(thresholds, sample, fault, probes, cpuMessage, memoryMessage, now) == [];
  }

  /**
   * A cycle whose checks do not meet a failed sample and that raises nowhere writes no failure row; when a
   * store exception ends it, the failure row carries that exception's message and traceback.
   */
  lemma CycleStoreFaultIsLogged(variant: Variant, thresholds: map<string, real>, sample: Sample, fault: Option<Fault>,
                                probes: CycleProbes, cpuMessage: string, memoryMessage: string, now: string)
    requires "cpu" in thresholds && "memory" in thresholds
    requires !ChecksMeetFailedSample(thresholds, sample)
    ensures var r := Cycle(variant, thresholds, sample, fault, probes, cpuMessage, memoryMessage, now);
      r.failure.Some? ==> fault.Some? && r.failure.value.message == fault.value.message
                          && r.failure.value.tracebackInfo == fault.value.traceback
  {
  }

  /** In app.py, a cycle that completes leaves at most `max` metric rows, whatever the request traffic did before. */
  lemma CleanCycleBoundsMetrics(t: Tables, max: nat, thresholds: map<string, real>, sample: Sample,
                                probes: CycleProbes, cpuMessage: string, memoryMessage: string, now: string)
    requires t.Valid() && "cpu" in thresholds && "memory" in thresholds
    requires !ChecksMeetFailedSample(thresholds, sample)
    ensures var r := Cycle(PeriodicEviction, thresholds, sample, None, probes, cpuMessage, memoryMessage, now);
      var t' := AfterCycle(t, max, r);
      && t'.Valid() && |t'.metrics| <= max
      && t'.metrics == t.metrics[|t.metrics| - |t'.metrics|..]
  {
  }

  /** How one pass of the background thread ends when run as written. */
  datatype ThreadStep = Continues(result: CycleResult) | ThreadDies

  /**
   * One cycle as written: the thread runs `log_error` outside any application context, so the
   * store's connection lookup on `g` raises at the first warning (a failed sample's KeyError
   * raises there first). The exception reaches the handler, whose own `log_error` raises the
   * same way, and the thread ends with no row written. app.py's cleanup runs inside an
   * application context, so it reaches the handler only when the store itself raises there.
   */
  function CycleAsWritten(variant: Variant, thresholds: map<string, real>, sample: Sample, fault: Option<Fault>,
                          probes: CycleProbes, cpuMessage: string, memoryMessage: string, now: string): (s: ThreadStep)
    requires "cpu" in thresholds && "memory" in thresholds
    ensures s.ThreadDies? <==> sample.CpuUsage() > thresholds["cpu"] || sample.MemoryUsage() > thresholds["memory"]
                               || (variant == PeriodicEviction && FailsAt(fault, AtCleanup))
    ensures s.Continues? ==>
      && s.result.warnings == [] && s.result.failure.None? && s.result.sleepSeconds == CYCLE_SLEEP_SECONDS
      && (s.result.cleanedUp <==> variant == PeriodicEviction)
  {
    if sample.CpuUsage() > thresholds["cpu"] || sample.MemoryUsage() > thresholds["memory"]
       || (variant == PeriodicEviction && FailsAt(fault, AtCleanup))
    then ThreadDies
    else Continues(Cycle(variant, thresholds, sample, fault, probes, cpuMessage, memoryMessage, now))
  }

  /**
   * The cases the background check exists for are exactly the ones it cannot report as written:
   * with a reading and no store exception, the thread dies iff `Cycle` would log a warning and go on.
   */
  lemma BackgroundWarningsAreLostAsWritten(variant: Variant, thresholds: map<string, real>, sample: Sample,
                                           probes: CycleProbes, cpuMessage: string, memoryMessage: string, now: string)
    requires "cpu" in thresholds && "memory" in thresholds
    requires sample.Reading?
    ensures var r := Cycle(variant, thresholds, sample, None, probes, cpuMessage, memoryMessage, now);
      && r.sleepSeconds == CYCLE_SLEEP_SECONDS && r.failure.None?
      && (CycleAsWritten(variant, thresholds, sample, None, probes, cpuMessage, memoryMessage, now).ThreadDies? <==> r.warnings != [])
  {
    CycleWarnsIffOverThreshold(variant, thresholds, sample, probes, cpuMessage, memoryMessage, now);
  }

  /** What `require_api_key` decides: run the handler with the key, or answer 401. */
  datatype AuthResult = Authorized(apiKey: string) | Rejected(status: int, error: string)

  /**
   * `require_api_key` on the `X-API-Key` header: a missing or empty key, or one no active key
   * accepts, logs one AUTHENTICATION_ERROR WARNING (without owner) and answers 401; otherwise
   * the key's `last_used` is touched and the handler runs.
   */
  function Authenticate(t: Tables, header: Option<string>, handlerName: string, matches: (string, string) -> bool,
                        probe: Sample, now: string): (r: (Tables, AuthResult))
    ensures r.1.Rejected? <==> !Truthy(header) || !t.KeyIsValid(header.value, matches)
    ensures r.1.Rejected? ==> r.1.status == 401
    ensures r.1.Authorized? ==> r.1.apiKey == header.value && r.0 == t.TouchKey(header.value, matches, now)
  {
    if !Truthy(header) then
      (t.InsertError(NewErrorLog("AUTHENTICATION_ERROR", "Missing API key", handlerName, "WARNING", None, None, probe, now)),
       Rejected(401, "API key required"))
    else if !t.KeyIsValid(header.value, matches) then
      (t.InsertError(NewErrorLog("AUTHENTICATION_ERROR", "Invalid API key", handlerName, "WARNING", None, None, probe, now)),
       Rejected(401, "Invalid API key"))
    else
      (t.TouchKey(header.value, matches, now), Authorized(header.value))
  }

  /** A decorated route: the guard, then the handler only when the guard lets the request through. */
  function Guarded(t: Tables, header: Option<string>, handlerName: string, matches: (string, string) -> bool,
                   probe: Sample, now: string, handler: (string, Tables) -> Tables): Tables
  {
    var (t', result) := Authenticate(t, header, handlerName, matches, probe, now);
    if result.Authorized? then handler(result.apiKey, t') else t'
  }

  /**
   * A rejected request gets 401, leaves exactly one new row, an AUTHENTICATION_ERROR WARNING,
   * changes no metric or key row, and its outcome does not depend on the handler at all.
   * An accepted request logs nothing and only touches `last_used`.
   */
  lemma RejectedRequestsNeverRunTheHandler(t: Tables, header: Option<string>, handlerName: string, matches: (string, string) -> bool,
                                           probe: Sample, now: string, h1: (string, Tables) -> Tables, h2: (string, Tables) -> Tables)
    requires t.Valid()
    ensures var (t', result) := Authenticate(t, header, handlerName, matches, probe, now);
      && (result.Rejected? ==>
            && t'.metrics == t.metrics && t'.apiKeys == t.apiKeys
            && |t'.errors| == |t.errors| + 1 && t'.errors[..|t.errors|] == t.errors
            && Last(t'.errors).row.errorType == "AUTHENTICATION_ERROR" && Last(t'.errors).row.level == "WARNING"
            && Guarded(t, header, handlerName, matches, probe, now, h1) == Guarded(t, header, handlerName, matches, probe, now, h2))
      && (result.Authorized? ==> t'.metrics == t.metrics && t'.errors == t.errors && t'.apiKeys != [])
  {
  }

  /** `thresholds.update(new)`: supplied keys take the new values, all other keys keep theirs. */
  function Merge(current: map<string, real>, update: map<string, real>): (r: map<string, real>)
    ensures r.Keys == current.Keys + update.Keys
    ensures forall k :: k in update ==> r[k] == update[k]
    ensures forall k :: k in current && k !in update ==> r[k] == current[k]
  {
    current + update
  }

  /** No sequence of updates removes a key: the four default keys are always present. */
  lemma {:induction false} MergesKeepDefaultKeys(start: map<string, real>, updates: seq<map<string, real>>)
    requires DEFAULT_THRESHOLDS.Keys <= start.Keys
    ensures DEFAULT_THRESHOLDS.Keys <= MergeAll(start, updates).Keys
    ensures start.Keys <= MergeAll(start, updates).Keys
    decreases |updates|
  {
    if updates != [] {
      MergesKeepDefaultKeys(Merge(start, updates[0]), updates[1..]);
    }
  }

  function MergeAll(start: map<string, real>, updates: seq<map<string, real>>): map<string, real>
    decreases |updates|
  {
    if updates == [] then start else MergeAll(Merge(start, updates[0]), updates[1..])
  }

  /** The POST body of `manage_thresholds`: a JSON object, or one `update` rejects. */
  datatype ThresholdBody = JsonObject(values: map<string, real>) | Malformed(message: string, traceback: string)

  class PerformanceMonitor {
    const db: DatabaseManager
    var thresholds: map<string, real>

    ghost predicate Valid()
      reads this, db
    {
      db.Valid() && "cpu" in thresholds && "memory" in thresholds && "disk" in thresholds && "response_time" in thresholds
    }

    /** `PerformanceMonitor()`: an empty store and the default thresholds. */
    constructor (variant: Variant, maxHistoryRecords: nat)
      ensures Valid() && fresh(db)
      ensures thresholds == DEFAULT_THRESHOLDS
      ensures db.variant == variant && db.maxHistoryRecords == maxHistoryRecords
      ensures db.State() == Tables([], [], [], 1, 1, 1)
    {
      db := new DatabaseManager(variant, maxHistoryRecords);
      thresholds := DEFAULT_THRESHOLDS;
    }

    /** `log_error`: build the row from the catalogs and a fresh sample, and save it. */
    method LogError(errorType: string, message: string, functionName: string, level: string,
                    apiKey: Option<string>, handling: Option<string>, probe: Sample, now: string)
      requires Valid()
      modifies db
      ensures Valid()
      ensures db.State() == old(db.State()).InsertError(NewErrorLog(errorType, message, functionName, level, apiKey, handling, probe, now))
    {
      var error := NewErrorLog(errorType, message, functionName, level, apiKey, handling, probe, now);
      db.SaveError(error);
    }

    /** The `except` block of `monitor_function`: an ERROR row for a raising body. */
    method LogRaised(functionName: string, apiKey: Option<string>, outcome: Outcome, probe: Sample, now: string)
      requires Valid()
      modifies db
      ensures Valid()
      ensures db.State() == old(db.State()).InsertErrors(RaisedRows(functionName, apiKey, outcome, probe, now))
    {
      if outcome.Raised? {
        ghost var t := db.State();
        LogError(Upper(outcome.className), outcome.message, functionName, "ERROR", apiKey, Handling(outcome), probe, now);
        InsertErrorsSnoc(t, [], RaisedRows(functionName, apiKey, outcome, probe, now)[0]);
      }
    }

    /**
     * The CPU check in the `finally` block of `monitor_function`; `keyError` tells whether
     * formatting its message raised because the end sample failed.
     */
    method LogHighCpu(functionName: string, apiKey: Option<string>, outcome: Outcome, end: Sample, probe: Sample,
                      message: string, now: string) returns (keyError: bool)
      requires Valid()
      modifies db
      ensures Valid()
      ensures keyError == FinallyRaises(thresholds, end)
      ensures db.State() == old(db.State()).InsertErrors(HighCpuRows(thresholds, functionName, apiKey, outcome, end, probe, message, now))
    {
      keyError := false;
      if end.CpuUsage() > thresholds["cpu"] {
        if end.Unavailable? {
          // The message indexes the sample's 'cpu_usage' key, which a failed sample lacks.
          keyError := true;
        } else {
          ghost var t := db.State();
          LogError("HIGH_CPU_USAGE", message, functionName, "WARNING", apiKey, Handling(outcome), probe, now);
          InsertErrorsSnoc(t, [], HighCpuRows(thresholds, functionName, apiKey, outcome, end, probe, message, now)[0]);
        }
      }
    }

    /** The response-time check in the `finally` block of `monitor_function`. */
    method LogSlow(functionName: string, apiKey: Option<string>, outcome: Outcome, elapsed: real, probe: Sample,
                   message: string, now: string)
      requires Valid()
      modifies db
      ensures Valid()
      ensures db.State() == old(db.State()).InsertErrors(SlowRows(thresholds, functionName, apiKey, outcome, elapsed, probe, message, now))
    {
      if elapsed > thresholds["response_time"] {
        ghost var t := db.State();
        LogError("SLOW_RESPONSE", message, functionName, "WARNING", apiKey, Handling(outcome), probe, now);
        InsertErrorsSnoc(t, [], SlowRows(thresholds, functionName, apiKey, outcome, elapsed, probe, message, now)[0]);
      }
    }

    /**
     * The `except`/`finally` part of `monitor_function` once the wrapped body has ended with
     * `outcome` after `elapsed` seconds and the end sample `end` was taken: log, save the
     * metric, and hand the body's outcome back to be passed on; a KeyError in the `finally`
     * block cuts the block short and replaces that outcome.
     */
    method MonitorFunction(functionName: string, apiKey: Option<string>, outcome: Outcome, elapsed: real, end: Sample,
                           probes: Probes, cpuMessage: string, slowMessage: string, now: string) returns (ended: WindowEnd)
      requires Valid()
      modifies db
      ensures Valid()
      ensures ended == if FinallyRaises(thresholds, end) then FinallyKeyError("cpu_usage") else PassesOn(outcome)
      ensures db.State() == AfterMonitor(old(db.State()), db.variant, db.maxHistoryRecords,
        MonitorLogs(thresholds, functionName, apiKey, outcome, elapsed, end, probes, cpuMessage, slowMessage, now),
        WindowMetric(thresholds, functionName, apiKey, elapsed, end, now))
    {
      ghost var t := db.State();
      LogRaised(functionName, apiKey, outcome, probes.onError, now);
      var keyError := LogHighCpu(functionName, apiKey, outcome, end, probes.onHighCpu, cpuMessage, now);
      if keyError {
        ended := FinallyKeyError("cpu_usage");
      } else {
        LogSlow(functionName, apiKey, outcome, elapsed, probes.onSlow, slowMessage, now);
        db.SaveMetric(MonitorMetric(functionName, apiKey, elapsed, end, now));
        ended := PassesOn(outcome);
      }
      MonitorStagesCompose(t, db.variant, db.maxHistoryRecords, thresholds, functionName, apiKey, outcome, elapsed, end,
                           probes, cpuMessage, slowMessage, now);
    }

    /** One pass of the `background_monitoring` loop; answers the seconds it then sleeps. */
    method BackgroundCycle(sample: Sample, fault: Option<Fault>, probes: CycleProbes,
                           cpuMessage: string, memoryMessage: string, now: string) returns (sleepSeconds: nat)
      requires Valid()
      modifies db
      ensures Valid()
      ensures var r := Cycle(db.variant, thresholds, sample, fault, probes, cpuMessage, memoryMessage, now);
        && sleepSeconds == r.sleepSeconds
        && db.State() == AfterCycle(old(db.State()), db.maxHistoryRecords, r)
    {
      var raised := BackgroundWarnings(sample, fault, probes, cpuMessage, memoryMessage, now);
      if raised.None? && db.variant == PeriodicEviction {
        if FailsAt(fault, AtCleanup) {
          raised := fault;
        } else {
          db.CleanupOldMetrics();
        }
      }
      if raised.Some? {
        LogError("BACKGROUND_MONITOR_ERROR", raised.value.message, "background_monitoring", "ERROR",
                 None, Some(raised.value.traceback), probes.onFailure, now);
        sleepSeconds := BACKOFF_SLEEP_SECONDS;
      } else {
        sleepSeconds := CYCLE_SLEEP_SECONDS;
      }
    }

    /** The two threshold checks of a cycle; `raised` is the exception that ended them, if any. */
    method BackgroundWarnings(sample: Sample, fault: Option<Fault>, probes: CycleProbes,
                              cpuMessage: string, memoryMessage: string, now: string) returns (raised: Option<Fault>)
      requires Valid()
      modifies db
      ensures Valid()
      ensures raised == WarningRaises(thresholds, sample, fault, probes)
      ensures db.State() == old(db.State()).InsertErrors(CycleWarnings(thresholds, sample, fault, probes, cpuMessage, memoryMessage, now))
    {
      ghost var t := db.State();
      var cpuHigh := sample.CpuUsage() > thresholds["cpu"];
      var cpuRaised := BackgroundWarning(cpuHigh, AtCpuWarning, "cpu_usage", sample, fault, probes.keyErrorTrace,
                                         "HIGH_CPU_USAGE", cpuMessage, probes.onCpu, now);
      // The memory check is reached only when the CPU check did not raise.
      var memoryHigh := cpuRaised.None? && sample.MemoryUsage() > thresholds["memory"];
      var memoryRaised := BackgroundWarning(memoryHigh, AtMemoryWarning, "memory_usage", sample, fault, probes.keyErrorTrace,
                                            "HIGH_MEMORY_USAGE", memoryMessage, probes.onMemory, now);
      assert cpuRaised == CpuRaises(thresholds, sample, fault, probes);
      assert memoryHigh == MemoryHigh(thresholds, sample, fault, probes);
      assert memoryRaised == MemoryRaises(thresholds, sample, fault, probes);
      raised := if cpuRaised.Some? then cpuRaised else memoryRaised;
      CycleWarningsInOrder(t, thresholds, sample, fault, probes, cpuMessage, memoryMessage, now,
                           cpuHigh && cpuRaised.None?, memoryHigh && memoryRaised.None?);
    }

    /**
     * One threshold check of the background loop: when it fires, format the message from the
     * sample's `key` and log the WARNING, unless the formatting or the store raises.
     */
    method BackgroundWarning(high: bool, stage: Stage, key: string, sample: Sample, fault: Option<Fault>, keyErrorTrace: string,
                             errorType: string, message: string, probe: Sample, now: string) returns (raised: Option<Fault>)
      requires Valid()
      modifies db
      ensures Valid()
      ensures raised == CheckRaises(high, stage, key, sample, fault, keyErrorTrace)
      ensures db.State() == old(db.State()).InsertErrors(CycleWarning(high && raised.None?, errorType, message, probe, now))
    {
      raised := None;
      if high {
        if sample.Unavailable? {
          // A failed sample lacks `key`: indexing it raises KeyError before `log_error` runs.
          raised := Some(Fault(stage, KeyErrorText(key), keyErrorTrace));
        } else if FailsAt(fault, stage) {
          raised := fault;
        } else {
          ghost var t := db.State();
          LogError(errorType, message, "background_monitor", "WARNING", None, None, probe, now);
          InsertErrorsSnoc(t, [], CycleWarning(true, errorType, message, probe, now)[0]);
        }
      }
    }

    /** `require_api_key`: reject and log, or validate (touching `last_used`) and let the handler run. */
    method RequireApiKey(header: Option<string>, handlerName: string, matches: (string, string) -> bool,
                         probe: Sample, now: string) returns (result: AuthResult)
      requires Valid()
      modifies db
      ensures Valid()
      ensures (db.State(), result) == Authenticate(old(db.State()), header, handlerName, matches, probe, now)
    {
      if !Truthy(header) {
        LogError("AUTHENTICATION_ERROR", "Missing API key", handlerName, "WARNING", None, None, probe, now);
        return Rejected(401, "API key required");
      }
      var valid := db.ValidateApiKey(header.value, matches, now);
      if !valid {
        LogError("AUTHENTICATION_ERROR", "Invalid API key", handlerName, "WARNING", None, None, probe, now);
        return Rejected(401, "Invalid API key");
      }
      return Authorized(header.value);
    }

    /**
     * The POST branch of `manage_thresholds`: merge the JSON object into the thresholds, or,
     * when `update` raises, log THRESHOLD_UPDATE_ERROR and leave the thresholds as they were.
     */
    method UpdateThresholds(body: ThresholdBody, apiKey: string, probe: Sample, now: string) returns (updated: bool)
      requires Valid()
      modifies this, db
      ensures Valid()
      ensures updated <==> body.JsonObject?
      ensures updated ==> thresholds == Merge(old(thresholds), body.values) && db.State() == old(db.State())
      ensures !updated ==> thresholds == old(thresholds) && db.State() == old(db.State()).InsertError(
        NewErrorLog("THRESHOLD_UPDATE_ERROR", body.message, "manage_thresholds", "ERROR", Some(apiKey), Some(body.traceback), probe, now))
    {
      match body
      case JsonObject(values) =>
        thresholds := Merge(thresholds, values);
        updated := true;
      case Malformed(message, traceback) =>
        LogError("THRESHOLD_UPDATE_ERROR", message, "manage_thresholds", "ERROR", Some(apiKey), Some(traceback), probe, now);
        updated := false;
    }
  }

  /**
   * The logging stages of a window, run one after the other, log exactly `MonitorLogs` and
   * save `WindowMetric`: all of them when the CPU check does not raise, the first two otherwise.
   */
  lemma MonitorStagesCompose(t: Tables, variant: Variant, max: nat, thresholds: map<string, real>, functionName: string,
                             apiKey: Option<string>, outcome: Outcome, elapsed: real, end: Sample, probes: Probes,
                             cpuMessage: string, slowMessage: string, now: string)
    requires "cpu" in thresholds && "response_time" in thresholds
    ensures var u := t.InsertErrors(RaisedRows(functionName, apiKey, outcome, probes.onError, now))
                      .InsertErrors(HighCpuRows(thresholds, functionName, apiKey, outcome, end, probes.onHighCpu, cpuMessage, now));
      (if FinallyRaises(thresholds, end) then u
       else u.InsertErrors(SlowRows(thresholds, functionName, apiKey, outcome, elapsed, probes.onSlow, slowMessage, now))
             .SaveMetric(variant, max, MonitorMetric(functionName, apiKey, elapsed, end, now)))
      == AfterMonitor(t, variant, max,
           MonitorLogs(thresholds, functionName, apiKey, outcome, elapsed, end, probes, cpuMessage, slowMessage, now),
           WindowMetric(thresholds, functionName, apiKey, elapsed, end, now))
  {
    var a := RaisedRows(functionName, apiKey, outcome, probes.onError, now);
    var b := HighCpuRows(thresholds, functionName, apiKey, outcome, end, probes.onHighCpu, cpuMessage, now);
    var c := ReachedSlowRows(thresholds, functionName, apiKey, outcome, elapsed, end, probes.onSlow, slowMessage, now);
    InsertErrorsAppend(t, a, b);
    InsertErrorsAppend(t, a + b, c);
    if FinallyRaises(thresholds, end) {
      assert a + b + c == a + b;
    }
  }

  /** Logging the CPU check's row and then the memory check's is logging the cycle's warnings. */
  lemma CycleWarningsInOrder(t: Tables, thresholds: map<string, real>, sample: Sample, fault: Option<Fault>,
                             probes: CycleProbes, cpuMessage: string, memoryMessage: string, now: string,
                             cpuWritten: bool, memoryWritten: bool)
    requires "cpu" in thresholds && "memory" in thresholds
    requires cpuWritten == (sample.CpuUsage() > thresholds["cpu"] && CpuRaises(thresholds, sample, fault, probes).None?)
    requires memoryWritten == (MemoryHigh(thresholds, sample, fault, probes) && MemoryRaises(thresholds, sample, fault, probes).None?)
    ensures t.InsertErrors(CycleWarning(cpuWritten, "HIGH_CPU_USAGE", cpuMessage, probes.onCpu, now))
             .InsertErrors(CycleWarning(memoryWritten, "HIGH_MEMORY_USAGE", memoryMessage, probes.onMemory, now))
         == t.InsertErrors(CycleWarnings(thresholds, sample, fault, probes, cpuMessage, memoryMessage, now))
  {
    InsertErrorsAppend(t, CycleWarning(cpuWritten, "HIGH_CPU_USAGE", cpuMessage, probes.onCpu, now),
                       CycleWarning(memoryWritten, "HIGH_MEMORY_USAGE", memoryMessage, probes.onMemory, now));
  }

  /** Logging a batch of rows and then another is logging their concatenation. */
  lemma {:induction false} InsertErrorsAppend(t: Tables, xs: seq<ErrorLog>, ys: seq<ErrorLog>)
    ensures t.InsertErrors(xs + ys) == t.InsertErrors(xs).InsertErrors(ys)
    decreases |xs|
  {
    if xs == [] {
      assert xs + ys == ys;
    } else {
      assert (xs + ys)[1..] == xs[1..] + ys;
      InsertErrorsAppend(t.InsertError(xs[0]), xs[1..], ys);
    }
  }

  /** Inserting one more row after a batch is inserting the longer batch. */
  lemma {:induction false} InsertErrorsSnoc(t: Tables, es: seq<ErrorLog>, e: ErrorLog)
    ensures t.InsertErrors(es + [e]) == t.InsertErrors(es).InsertError(e)
    decreases |es|
  {
    if es == [] {
      assert [e][1..] == [];
    } else {
      assert (es + [e])[1..] == es[1..] + [e];
      InsertErrorsSnoc(t.InsertError(es[0]), es[1..], e);
    }
  }
}
