/** The diagnostic catalogs and the performance-impact formula of `PerformanceMonitor`: pure lookups. */
module Diagnostics {
  import opened Types

  /** The explanation catalog of `_generate_error_explanation`. */
  const EXPLANATIONS: map<string, string> := map[
    "HIGH_CPU_USAGE" := "CPU usage has exceeded the threshold, indicating intensive processing that may slow down the system.",
    "HIGH_MEMORY_USAGE" := "Memory usage is critically high, which can lead to system instability and slower performance.",
    "DISK_SPACE_LOW" := "Available disk space is running low, which can cause write operations to fail.",
    "SLOW_RESPONSE" := "Function execution time exceeded acceptable limits, indicating performance bottleneck.",
    "NETWORK_ERROR" := "Network connectivity issue detected, which may affect external API calls or data transfers.",
    "DATABASE_ERROR" := "Database operation failed, potentially due to connection issues or query problems.",
    "AUTHENTICATION_ERROR" := "Authentication failed, indicating potential security breach or expired credentials.",
    "RATE_LIMIT_EXCEEDED" := "Too many requests received in a short time period."
  ]

  /** The fix catalog of `_generate_suggested_fix`; it has no DATABASE_ERROR entry. */
  const FIXES: map<string, string> := map[
    "HIGH_CPU_USAGE" := "Consider optimizing algorithms, reducing computational complexity, or scaling horizontally.",
    "HIGH_MEMORY_USAGE" := "Review memory allocation, implement garbage collection, or increase available RAM.",
    "DISK_SPACE_LOW" := "Clean up temporary files, archive old logs, or expand storage capacity.",
    "SLOW_RESPONSE" := "Optimize database queries, implement caching, or consider asynchronous processing.",
    "NETWORK_ERROR" := "Check network connectivity, implement retry logic, or use circuit breaker pattern.",
    "AUTHENTICATION_ERROR" := "Verify API key is valid and has not expired.",
    "RATE_LIMIT_EXCEEDED" := "Reduce request frequency or upgrade to a higher rate limit tier."
  ]

  const EXPLAIN_PREFIX: string := "An error of type '"
  const EXPLAIN_INFIX: string := "' occurred: "
  const FIX_PREFIX: string := "Review the error details and implement appropriate error handling for '"
  const FIX_SUFFIX: string := "'."

  /** `_generate_error_explanation`: the catalog text, or a template naming the type and the message. */
  function Explain(errorType: string, message: string): (r: string)
    ensures r != []
    ensures errorType in EXPLANATIONS ==> r == EXPLANATIONS[errorType]
    ensures errorType !in EXPLANATIONS ==>
      && |r| == |EXPLAIN_PREFIX| + |errorType| + |EXPLAIN_INFIX| + |message|
      && r[..|EXPLAIN_PREFIX|] == EXPLAIN_PREFIX
      && r[|EXPLAIN_PREFIX|..|EXPLAIN_PREFIX| + |errorType|] == errorType
      && r[|EXPLAIN_PREFIX| + |errorType|..|r| - |message|] == EXPLAIN_INFIX
      && r[|r| - |message|..] == message
  {
    if errorType in EXPLANATIONS then EXPLANATIONS[errorType]
    else EXPLAIN_PREFIX + errorType + EXPLAIN_INFIX + message
  }

  /** `_generate_suggested_fix`: the catalog text, or a template naming the type (the message is unused). */
  function SuggestFix(errorType: string, message: string): (r: string)
    ensures r != []
    ensures errorType in FIXES ==> r == FIXES[errorType]
    ensures errorType !in FIXES ==>
      && |r| == |FIX_PREFIX| + |errorType| + |FIX_SUFFIX|
      && r[..|FIX_PREFIX|] == FIX_PREFIX
      && r[|FIX_PREFIX|..|FIX_PREFIX| + |errorType|] == errorType
      && r[|r| - |FIX_SUFFIX|..] == FIX_SUFFIX
  {
    if errorType in FIXES then FIXES[errorType]
    else FIX_PREFIX + errorType + FIX_SUFFIX
  }

  /** A catalogued type's explanation does not depend on the message; an uncatalogued one's does. */
  lemma ExplainUsesMessageOnlyForUnknownTypes(errorType: string, m1: string, m2: string)
    ensures errorType in EXPLANATIONS ==> Explain(errorType, m1) == Explain(errorType, m2)
    ensures errorType !in EXPLANATIONS && m1 != m2 ==> Explain(errorType, m1) != Explain(errorType, m2)
  {
    if errorType !in EXPLANATIONS && m1 != m2 {
      var e1, e2 := Explain(errorType, m1), Explain(errorType, m2);
      var k := |EXPLAIN_PREFIX| + |errorType| + |EXPLAIN_INFIX|;
      if |m1| == |m2| {
        assert e1[k..] == m1 && e2[k..] == m2;
      }
    }
  }

  /** The fix never depends on the message, and the fallback fix names its type unambiguously. */
  lemma SuggestFixDeterminedByType(t1: string, t2: string, m1: string, m2: string)
    ensures SuggestFix(t1, m1) == SuggestFix(t1, m2)
    ensures t1 !in FIXES && t2 !in FIXES && t1 != t2 ==> SuggestFix(t1, m1) != SuggestFix(t2, m2)
  {
    if t1 !in FIXES && t2 !in FIXES && t1 != t2 && |t1| == |t2| {
      var f1, f2 := SuggestFix(t1, m1), SuggestFix(t2, m2);
      assert f1[|FIX_PREFIX|..|FIX_PREFIX| + |t1|] == t1;
      assert f2[|FIX_PREFIX|..|FIX_PREFIX| + |t2|] == t2;
    }
  }

  /** The two catalogs cover the same categories except DATABASE_ERROR, which only has an explanation. */
  lemma CatalogCoverage()
    ensures FIXES.Keys == EXPLANATIONS.Keys - {"DATABASE_ERROR"}
    ensures Explain("DATABASE_ERROR", "") == EXPLANATIONS["DATABASE_ERROR"]
    ensures SuggestFix("DATABASE_ERROR", "") == FIX_PREFIX + "DATABASE_ERROR" + FIX_SUFFIX
  {
  }

  /** What `_calculate_performance_impact` returns. */
  datatype Impact = Impact(cpuImpact: real, memoryImpact: real, overallSeverity: real)

  function Max0(x: real): real { if 0.0 < x then x else 0.0 }
  function Min10(x: real): real { if 10.0 < x then 10.0 else x }

  /** `_calculate_performance_impact` over the fresh sample it takes. */
  function PerformanceImpact(s: Sample): (r: Impact)
    ensures r.cpuImpact >= 0.0 && r.memoryImpact >= 0.0 && r.overallSeverity <= 10.0
    ensures r.cpuImpact > 0.0 <==> s.CpuUsage() > 20.0
    ensures r.memoryImpact > 0.0 <==> s.MemoryUsage() > 30.0
    ensures r.overallSeverity == 10.0 <==> s.CpuUsage() + s.MemoryUsage() >= 200.0
    ensures s.CpuUsage() >= 0.0 && s.MemoryUsage() >= 0.0 ==> r.overallSeverity >= 0.0
    ensures s.Unavailable? ==> r == Impact(0.0, 0.0, 0.0)
  {
    Impact(
      Max0(s.CpuUsage() - 20.0),
      Max0(s.MemoryUsage() - 30.0),
      Min10((s.CpuUsage() + s.MemoryUsage()) / 20.0))
  }

  /** A busier sample never yields a smaller impact. */
  lemma ImpactMonotone(s1: Sample, s2: Sample)
    requires s1.CpuUsage() <= s2.CpuUsage() && s1.MemoryUsage() <= s2.MemoryUsage()
    ensures PerformanceImpact(s1).cpuImpact <= PerformanceImpact(s2).cpuImpact
    ensures PerformanceImpact(s1).memoryImpact <= PerformanceImpact(s2).memoryImpact
    ensures PerformanceImpact(s1).overallSeverity <= PerformanceImpact(s2).overallSeverity
  {
  }
}
