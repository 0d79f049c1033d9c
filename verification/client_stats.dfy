/**
 * `MonitoringStats` of the Python client: averages, peaks and error counts over the records
 * the API returns. Each loop is a method proved against a function over the records seen so far.
 */
module ClientStats {
  import opened Types

  /**
   * A metric record as the client receives it: a JSON object whose fields may be missing.
   * `None` is a missing key.
   */
  datatype MetricDict = MetricDict(
    cpuUsage: Option<real>,
    memoryUsage: Option<real>,
    diskUsage: Option<real>,
    executionTime: Option<real>,
    timestamp: Option<string>,
    functionName: Option<string>)

  /** The numeric fields the helpers aggregate. */
  datatype Field = CpuUsage | MemoryUsage | DiskUsage | ExecutionTime

  /** `metric.get(field, 0)`: a missing field reads as 0. */
  function Get(m: MetricDict, f: Field): real {
    var v := match f
      case CpuUsage => m.cpuUsage
      case MemoryUsage => m.memoryUsage
      case DiskUsage => m.diskUsage
      case ExecutionTime => m.executionTime;
    if v.Some? then v.value else 0.0
  }

  /** The running total of `f` over the records, in the order the loop adds them. */
  function Total(ms: seq<MetricDict>, f: Field): real
    decreases |ms|
  {
    if ms == [] then 0.0 else Total(ms[..|ms| - 1], f) + Get(ms[|ms| - 1], f)
  }

  function Average(ms: seq<MetricDict>, f: Field): real
    requires ms != []
  {
    Total(ms, f) / (|ms| as real)
  }

  /** The dictionary `calculate_averages` returns for a non-empty list. */
  datatype Averages = Averages(cpuUsage: real, memoryUsage: real, diskUsage: real, executionTime: real)

  /** `calculate_averages`: `{}` for no records, otherwise each field's total divided by the count. */
  method CalculateAverages(ms: seq<MetricDict>) returns (r: Option<Averages>)
    ensures r.None? <==> ms == []
    ensures r.Some? ==> r.value == Averages(Average(ms, CpuUsage), Average(ms, MemoryUsage),
                                            Average(ms, DiskUsage), Average(ms, ExecutionTime))
  {
    if |ms| == 0 {
      return None;
    }
    var cpu, memory, disk, time := 0.0, 0.0, 0.0, 0.0;
    for i := 0 to |ms|
      invariant cpu == Total(ms[..i], CpuUsage) && memory == Total(ms[..i], MemoryUsage)
      invariant disk == Total(ms[..i], DiskUsage) && time == Total(ms[..i], ExecutionTime)
    {
      assert ms[..i + 1][..i] == ms[..i];
      cpu := cpu + Get(ms[i], CpuUsage);
      memory := memory + Get(ms[i], MemoryUsage);
      disk := disk + Get(ms[i], DiskUsage);
      time := time + Get(ms[i], ExecutionTime);
    }
    assert ms[..|ms|] == ms;
    var count := |ms| as real;
    return Some(Averages(cpu / count, memory / count, disk / count, time / count));
  }

  /** Bounds on every record bound the total by the count times the bound. */
  lemma {:induction false} TotalBounds(ms: seq<MetricDict>, f: Field, lo: real, hi: real)
    requires forall i :: 0 <= i < |ms| ==> lo <= Get(ms[i], f) <= hi
    ensures (|ms| as real) * lo <= Total(ms, f) <= (|ms| as real) * hi
    decreases |ms|
  {
    if ms == [] {
      assert |ms| as real == 0.0;
    } else {
      var init := ms[..|ms| - 1];
      TotalBounds(init, f, lo, hi);
      BoundsStep(|init| as real, Total(init, f), Get(ms[|ms| - 1], f), lo, hi);
      assert |ms| as real == |init| as real + 1.0;
    }
  }

  /** Adding one more value within [lo, hi] to a total within [n·lo, n·hi]. */
  lemma BoundsStep(n: real, total: real, x: real, lo: real, hi: real)
    requires n * lo <= total <= n * hi && lo <= x <= hi
    ensures (n + 1.0) * lo <= total + x <= (n + 1.0) * hi
  {
    assert (n + 1.0) * lo == n * lo + lo;
    assert (n + 1.0) * hi == n * hi + hi;
  }

  /** An average lies between the smallest and the largest value it averages; missing fields count as 0. */
  lemma AverageWithinBounds(ms: seq<MetricDict>, f: Field, lo: real, hi: real)
    requires ms != []
    requires forall i :: 0 <= i < |ms| ==> lo <= Get(ms[i], f) <= hi
    ensures lo <= Average(ms, f) <= hi
  {
    TotalBounds(ms, f, lo, hi);
    DivisionBounds(Total(ms, f), |ms| as real, lo, hi);
  }

  lemma DivisionBounds(x: real, n: real, lo: real, hi: real)
    requires n > 0.0 && n * lo <= x <= n * hi
    ensures lo <= x / n <= hi
  {
    assert x / n * n == x;
    assert (x / n - lo) * n == x - n * lo;
    assert (hi - x / n) * n == n * hi - x;
  }

  /** One field's peak: the initial `{'value': 0, 'timestamp': None}`, or a record's value, timestamp and function. */
  datatype Peak = Unset | Peak(value: real, timestamp: Option<string>, functionName: Option<string>)

  function PeakValue(p: Peak): real {
    if p.Peak? then p.value else 0.0
  }

  /** One step of the loop: a record replaces the peak only when its value is strictly larger. */
  function Offer(p: Peak, m: MetricDict, f: Field): Peak {
    if Get(m, f) > PeakValue(p) then Peak(Get(m, f), m.timestamp, m.functionName) else p
  }

  /** The peak of `f` after the loop has seen the records in order. */
  function PeakOf(ms: seq<MetricDict>, f: Field): Peak
    decreases |ms|
  {
    if ms == [] then Unset else Offer(PeakOf(ms[..|ms| - 1], f), ms[|ms| - 1], f)
  }

  /** The dictionary `find_peak_usage` returns for a non-empty list. */
  datatype Peaks = Peaks(cpu: Peak, memory: Peak, executionTime: Peak)

  /** `find_peak_usage`: `{}` for no records, otherwise the CPU, memory and execution-time peaks. */
  method FindPeakUsage(ms: seq<MetricDict>) returns (r: Option<Peaks>)
    ensures r.None? <==> ms == []
    ensures r.Some? ==> r.value == Peaks(PeakOf(ms, CpuUsage), PeakOf(ms, MemoryUsage), PeakOf(ms, ExecutionTime))
  {
    if |ms| == 0 {
      return None;
    }
    var cpu, memory, time := Unset, Unset, Unset;
    for i := 0 to |ms|
      invariant cpu == PeakOf(ms[..i], CpuUsage)
      invariant memory == PeakOf(ms[..i], MemoryUsage)
      invariant time == PeakOf(ms[..i], ExecutionTime)
    {
      assert ms[..i + 1][..i] == ms[..i];
      var m := ms[i];
      if Get(m, CpuUsage) > PeakValue(cpu) {
        cpu := Peak(Get(m, CpuUsage), m.timestamp, m.functionName);
      }
      if Get(m, MemoryUsage) > PeakValue(memory) {
        memory := Peak(Get(m, MemoryUsage), m.timestamp, m.functionName);
      }
      if Get(m, ExecutionTime) > PeakValue(time) {
        time := Peak(Get(m, ExecutionTime), m.timestamp, m.functionName);
      }
    }
    assert ms[..|ms|] == ms;
    return Some(Peaks(cpu, memory, time));
  }

  /** A peak is at least 0 and at least every record's value. */
  lemma {:induction false} PeakDominates(ms: seq<MetricDict>, f: Field)
    ensures PeakValue(PeakOf(ms, f)) >= 0.0
    ensures forall i :: 0 <= i < |ms| ==> Get(ms[i], f) <= PeakValue(PeakOf(ms, f))
    decreases |ms|
  {
    if ms != [] {
      var init := ms[..|ms| - 1];
      PeakDominates(init, f);
      forall i | 0 <= i < |ms| ensures Get(ms[i], f) <= PeakValue(PeakOf(ms, f)) {
        if i < |init| {
          assert ms[i] == init[i];
        }
      }
    }
  }

  /** A peak stays `{'value': 0, 'timestamp': None}` iff no record's value exceeds 0. */
  lemma {:induction false} PeakUnsetIff(ms: seq<MetricDict>, f: Field)
    ensures PeakOf(ms, f).Unset? <==> forall i :: 0 <= i < |ms| ==> Get(ms[i], f) <= 0.0
    decreases |ms|
  {
    if ms != [] {
      var init := ms[..|ms| - 1];
      PeakUnsetIff(init, f);
      PeakDominates(init, f);
      if PeakOf(ms, f).Unset? {
        forall i | 0 <= i < |ms| ensures Get(ms[i], f) <= 0.0 {
          if i < |init| {
            assert ms[i] == init[i];
          }
        }
      }
    }
  }

  /**
   * A set peak is the value, timestamp and function of a record, positive, and strictly above
   * every earlier record's value: ties keep the earliest record.
   */
  lemma {:induction false} PeakIsEarliestMaximum(ms: seq<MetricDict>, f: Field)
    requires PeakOf(ms, f).Peak?
    ensures var p := PeakOf(ms, f);
      && p.value > 0.0
      && exists k ::
           && 0 <= k < |ms|
           && p.value == Get(ms[k], f) && p.timestamp == ms[k].timestamp && p.functionName == ms[k].functionName
           && forall j :: 0 <= j < k ==> Get(ms[j], f) < p.value
    decreases |ms|
  {
    var init := ms[..|ms| - 1];
    var last := |ms| - 1;
    var p := PeakOf(ms, f);
    if PeakOf(init, f) == p {
      PeakIsEarliestMaximum(init, f);
      var k :| 0 <= k < |init| && p.value == Get(init[k], f) && p.timestamp == init[k].timestamp
               && p.functionName == init[k].functionName && forall j :: 0 <= j < k ==> Get(init[j], f) < p.value;
      assert ms[k] == init[k];
      forall j | 0 <= j < k ensures Get(ms[j], f) < p.value {
        assert ms[j] == init[j];
      }
    } else {
      PeakDominates(init, f);
      forall j | 0 <= j < last ensures Get(ms[j], f) < p.value {
        assert ms[j] == init[j];
      }
      assert p.value == Get(ms[last], f);
    }
  }

  /** An error record as the client receives it; `None` is a missing `error_type` key. */
  datatype ErrorDict = ErrorDict(errorType: Option<string>)

  /** `error.get('error_type', 'UNKNOWN')` */
  function TypeOf(e: ErrorDict): string {
    if e.errorType.Some? then e.errorType.value else "UNKNOWN"
  }

  /** The counts after the loop has seen the records in order. */
  function Tally(es: seq<ErrorDict>): map<string, nat>
    decreases |es|
  {
    if es == [] then map[]
    else
      var counts := Tally(es[..|es| - 1]);
      var key := TypeOf(es[|es| - 1]);
      counts[key := (if key in counts then counts[key] else 0) + 1]
  }

  /** `count_errors_by_type` */
  method CountErrorsByType(es: seq<ErrorDict>) returns (counts: map<string, nat>)
    ensures counts == Tally(es)
  {
    counts := map[];
    for i := 0 to |es|
      invariant counts == Tally(es[..i])
    {
      assert es[..i + 1][..i] == es[..i];
      var key := TypeOf(es[i]);
      counts := counts[key := (if key in counts then counts[key] else 0) + 1];
    }
    assert es[..|es|] == es;
  }

  /** How many records have type `key`, counted independently from the front. */
  function CountOf(es: seq<ErrorDict>, key: string): nat
    decreases |es|
  {
    if es == [] then 0 else (if TypeOf(es[0]) == key then 1 else 0) + CountOf(es[1..], key)
  }

  lemma {:induction false} CountOfSnoc(es: seq<ErrorDict>, e: ErrorDict, key: string)
    ensures CountOf(es + [e], key) == CountOf(es, key) + (if TypeOf(e) == key then 1 else 0)
    decreases |es|
  {
    if es == [] {
      assert ([] + [e])[1..] == [];
    } else {
      assert (es + [e])[1..] == es[1..] + [e];
      CountOfSnoc(es[1..], e, key);
    }
  }

  /**
   * The counts hold exactly the types that occur, a record without `error_type` counting as
   * 'UNKNOWN', and each count is the number of records of that type.
   */
  lemma {:induction false} TallyCountsEachType(es: seq<ErrorDict>)
    ensures Tally(es).Keys == set i | 0 <= i < |es| :: TypeOf(es[i])
    ensures forall key :: key in Tally(es) ==> Tally(es)[key] == CountOf(es, key)
    ensures forall key :: key !in Tally(es) ==> CountOf(es, key) == 0
    decreases |es|
  {
    if es != [] {
      var init := es[..|es| - 1];
      var e := es[|es| - 1];
      assert es == init + [e];
      TallyCountsEachType(init);
      forall key ensures CountOf(es, key) == CountOf(init, key) + (if TypeOf(e) == key then 1 else 0) {
        CountOfSnoc(init, e, key);
      }
      TypesSnoc(es, init, e);
    }
  }

  /** The types of a list are those of all but its last record, plus the last record's type. */
  lemma TypesSnoc(es: seq<ErrorDict>, init: seq<ErrorDict>, e: ErrorDict)
    requires es == init + [e]
    ensures (set i | 0 <= i < |es| :: TypeOf(es[i])) == (set i | 0 <= i < |init| :: TypeOf(init[i])) + {TypeOf(e)}
  {
    var types := set i | 0 <= i < |es| :: TypeOf(es[i]);
    var initTypes := set i | 0 <= i < |init| :: TypeOf(init[i]);
    forall t | t in types ensures t in initTypes + {TypeOf(e)} {
      var i :| 0 <= i < |es| && TypeOf(es[i]) == t;
      if i < |init| {
        assert init[i] == es[i];
      }
    }
    forall t | t in initTypes ensures t in types {
      var i :| 0 <= i < |init| && TypeOf(init[i]) == t;
      assert es[i] == init[i];
    }
    assert TypeOf(es[|init|]) in types;
  }

  /** The sum of a map's counts. */
  ghost function SumCounts(m: map<string, nat>): nat
    decreases |m.Keys|
  {
    if m == map[] then 0
    else
      var k :| k in m;
      m[k] + SumCounts(m - {k})
  }

  /** The sum does not depend on which key is taken out first. */
  lemma {:induction false} SumCountsWithout(m: map<string, nat>, k: string)
    requires k in m
    ensures SumCounts(m) == m[k] + SumCounts(m - {k})
    decreases |m.Keys|
  {
    var j :| j in m && SumCounts(m) == m[j] + SumCounts(m - {j});
    if j != k {
      SumCountsWithout(m - {j}, k);
      SumCountsWithout(m - {k}, j);
      assert (m - {j}) - {k} == (m - {k}) - {j};
    }
  }

  /** Bumping one key's count bumps the sum by one. */
  lemma SumCountsBump(m: map<string, nat>, k: string)
    ensures SumCounts(m[k := (if k in m then m[k] else 0) + 1]) == SumCounts(m) + 1
  {
    var m' := m[k := (if k in m then m[k] else 0) + 1];
    SumCountsWithout(m', k);
    if k in m {
      SumCountsWithout(m, k);
      assert m' - {k} == m - {k};
    } else {
      assert m' - {k} == m;
    }
  }

  /** The counts sum to the number of records. */
  lemma {:induction false} TallySumsToLength(es: seq<ErrorDict>)
    ensures SumCounts(Tally(es)) == |es|
    decreases |es|
  {
    if es != [] {
      TallySumsToLength(es[..|es| - 1]);
      SumCountsBump(Tally(es[..|es| - 1]), TypeOf(es[|es| - 1]));
    }
  }
}
