/** Records, host samples and small string helpers shared by the monitoring engine. */
module Types {

  datatype Option<+T> = None | Some(value: T)

  /** Python truthiness of an optional string argument (`if api_key:`): absent and "" are both false. */
  predicate Truthy(s: Option<string>) {
    s.Some? && s.value != ""
  }

  /** What `_get_system_metrics` returns: the full reading, or `{}` when the host call failed. */
  datatype Sample =
    | Unavailable
    | Reading(cpuPercent: real, memoryPercent: real, diskPercent: real, bytesSent: int, bytesRecv: int)
  {
    /** `metrics.get('cpu_usage', 0)` */
    function CpuUsage(): real { if Reading? then cpuPercent else 0.0 }
    /** `metrics.get('memory_usage', 0)` */
    function MemoryUsage(): real { if Reading? then memoryPercent else 0.0 }
    /** `metrics.get('disk_usage', 0)` */
    function DiskUsage(): real { if Reading? then diskPercent else 0.0 }
    /** `metrics.get('network_io', {}).get('bytes_sent', 0)` */
    function NetworkSent(): int { if Reading? then bytesSent else 0 }
    /** `metrics.get('network_io', {}).get('bytes_recv', 0)` */
    function NetworkRecv(): int { if Reading? then bytesRecv else 0 }
  }

  /** One row of the `metrics` table, without its id. */
  datatype MetricRecord = MetricRecord(
    timestamp: string,
    cpuUsage: real,
    memoryUsage: real,
    diskUsage: real,
    networkSent: int,
    networkRecv: int,
    executionTime: real,
    functionName: string,
    status: string,
    apiKey: Option<string>)

  /**
   * One row of the `errors` table, without its id. Its `explanation` and `suggested_fix`
   * columns are functions of `errorType` and `message` alone (`Diagnostics.Explain` and
   * `Diagnostics.SuggestFix`), so they are derived from the row rather than stored in it.
   */
  datatype ErrorLog = ErrorLog(
    timestamp: string,
    level: string,
    errorType: string,
    message: string,
    tracebackInfo: string,
    functionName: string,
    cpuImpact: real,
    memoryImpact: real,
    severity: real,
    apiKey: Option<string>)

  /** One row of the `api_keys` table, without its id. */
  datatype ApiKeyRow = ApiKeyRow(keyHash: string, keyName: string, lastUsed: Option<string>, isActive: bool)

  /** A persisted row: the store-assigned auto-increment id and the record. */
  datatype Stored<T> = Stored(id: nat, row: T)

  /** ASCII upper-casing of one character. */
  function UpperChar(c: char): (u: char)
    ensures 'a' <= c <= 'z' ==> 'A' <= u <= 'Z' && u as int == c as int - 32
    ensures !('a' <= c <= 'z') ==> u == c
  {
    if 'a' <= c <= 'z' then (c as int - 32) as char else c
  }

  /** `str.upper()` restricted to ASCII letters. */
  function Upper(s: string): (r: string)
    ensures |r| == |s|
    ensures forall i :: 0 <= i < |s| ==> r[i] == UpperChar(s[i])
    ensures forall i :: 0 <= i < |r| ==> !('a' <= r[i] <= 'z')
  {
    seq(|s|, i requires 0 <= i < |s| => UpperChar(s[i]))
  }
}
