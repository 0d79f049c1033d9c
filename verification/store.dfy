/** `DatabaseManager`: the three tables as fields that its methods update in place. */
module Store {
  import opened Types
  import opened Retention

  class DatabaseManager {
    /** Whether `save_metric` evicts (enhanced_monitor_api.py) or leaves it to the background loop (app.py). */
    const variant: Variant
    /** `Config.MAX_HISTORY_RECORDS`. */
    const maxHistoryRecords: nat

    var metrics: seq<Stored<MetricRecord>>
    var errors: seq<Stored<ErrorLog>>
    var apiKeys: seq<Stored<ApiKeyRow>>
    var nextMetricId: nat
    var nextErrorId: nat
    var nextKeyId: nat

    /** The tables as a value. */
    function State(): Tables
      reads this
    {
      Tables(metrics, errors, apiKeys, nextMetricId, nextErrorId, nextKeyId)
    }

    ghost predicate Valid()
      reads this
    {
      State().Valid()
    }

    /** `_initialize_database` on an empty database: three empty tables whose ids start at 1. */
    constructor (variant: Variant, maxHistoryRecords: nat)
      ensures Valid()
      ensures this.variant == variant && this.maxHistoryRecords == maxHistoryRecords
      ensures State() == Tables([], [], [], 1, 1, 1)
    {
      this.variant := variant;
      this.maxHistoryRecords := maxHistoryRecords;
      metrics, errors, apiKeys := [], [], [];
      nextMetricId, nextErrorId, nextKeyId := 1, 1, 1;
    }

    /** `save_metric`: insert one row, then evict when this is the enhanced variant. */
    method SaveMetric(metric: MetricRecord)
      requires Valid()
      modifies this
      ensures Valid()
      ensures State() == old(State()).SaveMetric(variant, maxHistoryRecords, metric)
    {
      metrics := metrics + [Stored(nextMetricId, metric)];
      nextMetricId := nextMetricId + 1;
      if variant == InlineEviction {
        CleanupOldMetrics();
      }
    }

    /** `save_error`. */
    method SaveError(error: ErrorLog)
      requires Valid()
      modifies this
      ensures Valid()
      ensures State() == old(State()).InsertError(error)
    {
      errors := errors + [Stored(nextErrorId, error)];
      nextErrorId := nextErrorId + 1;
    }

    /** `get_metrics`. */
    method GetMetrics(limit: nat, apiKey: Option<string>) returns (rows: seq<Stored<MetricRecord>>)
      ensures rows == QueryMetrics(metrics, limit, apiKey)
    {
      rows := QueryMetrics(metrics, limit, apiKey);
    }

    /** `get_errors`. */
    method GetErrors(limit: nat, level: Option<string>, apiKey: Option<string>) returns (rows: seq<Stored<ErrorLog>>)
      ensures rows == QueryErrors(errors, limit, level, apiKey)
    {
      rows := QueryErrors(errors, limit, level, apiKey);
    }

    /** `_cleanup_old_metrics`: keep the `maxHistoryRecords` most recently inserted rows. */
    method CleanupOldMetrics()
      requires Valid()
      modifies this
      ensures Valid()
      ensures State() == old(State()).CleanupOldMetrics(maxHistoryRecords)
    {
      if |metrics| > maxHistoryRecords {
        metrics := metrics[|metrics| - maxHistoryRecords..];
      }
    }

    /**
     * `create_api_key` for the generated key `apiKey` and its hash: the key is returned once its
     * row is stored; `None` stands for the UNIQUE constraint rejecting a hash already present.
     */
    method CreateApiKey(apiKey: string, keyHash: string, keyName: string) returns (created: Option<string>)
      requires Valid()
      modifies this
      ensures Valid()
      ensures created.Some? <==> forall j :: 0 <= j < |old(apiKeys)| ==> old(apiKeys)[j].row.keyHash != keyHash
      ensures created.Some? ==> created.value == apiKey
      ensures State() == old(State()).InsertKey(keyHash, keyName)
    {
      if forall j :: 0 <= j < |apiKeys| ==> apiKeys[j].row.keyHash != keyHash {
        apiKeys := apiKeys + [Stored(nextKeyId, ApiKeyRow(keyHash, keyName, None, true))];
        nextKeyId := nextKeyId + 1;
        created := Some(apiKey);
      } else {
        created := None;
      }
    }

    /**
     * `validate_api_key`: scan the active keys in order; on the first whose hash accepts
     * the token, set `last_used` of the rows with that hash and answer true.
     */
    method ValidateApiKey(apiKey: string, matches: (string, string) -> bool, now: string) returns (valid: bool)
      requires Valid()
      modifies this
      ensures Valid()
      ensures valid == old(State()).KeyIsValid(apiKey, matches)
      ensures State() == old(State()).TouchKey(apiKey, matches, now)
    {
      var i := 0;
      while i < |apiKeys|
        invariant 0 <= i <= |apiKeys|
        invariant forall j :: 0 <= j < i ==> !(apiKeys[j].row.isActive && matches(apiKeys[j].row.keyHash, apiKey))
      {
        var row := apiKeys[i].row;
        if row.isActive && matches(row.keyHash, apiKey) {
          assert FirstActiveMatch(apiKeys, apiKey, matches) == Some(i);
          apiKeys := TouchHash(apiKeys, row.keyHash, now);
          return true;
        }
        i := i + 1;
      }
      return false;
    }
  }
}
