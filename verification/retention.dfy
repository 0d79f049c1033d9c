/**
 * The retention store's tables as values: the newest-first filtered query behind
 * `get_metrics`/`get_errors`, the eviction behind `_cleanup_old_metrics`, and the
 * insert operations. Sequence order is insertion order, which stands in for `created_at`.
 */
module Retention {
  import opened Types

  /** Which server file: enhanced_monitor_api.py evicts inside `save_metric`, app.py in the background loop. */
  datatype Variant = InlineEviction | PeriodicEviction

  /** Ids grow with insertion order and stay below the next id the table will hand out. */
  ghost predicate IdsAscending<T>(rows: seq<Stored<T>>, nextId: nat) {
    && (forall i, j :: 0 <= i < j < |rows| ==> rows[i].id < rows[j].id)
    && (forall i :: 0 <= i < |rows| ==> rows[i].id < nextId)
  }

  /** `key_hash TEXT UNIQUE`. */
  ghost predicate UniqueHashes(keys: seq<Stored<ApiKeyRow>>) {
    forall i, j :: 0 <= i < j < |keys| ==> keys[i].row.keyHash != keys[j].row.keyHash
  }

  /** Number of rows the filter keeps. */
  function CountKept<T>(rows: seq<Stored<T>>, keep: T -> bool): (n: nat)
    ensures n <= |rows|
  {
    if rows == [] then 0
    else CountKept(rows[..|rows| - 1], keep) + (if keep(rows[|rows| - 1].row) then 1 else 0)
  }

  /**
   * `SELECT * ... WHERE <keep> ORDER BY created_at DESC LIMIT limit`:
   * the kept rows, newest first, at most `limit` of them.
   */
  function Newest<T>(rows: seq<Stored<T>>, keep: T -> bool, limit: nat): (r: seq<Stored<T>>)
    ensures |r| <= limit
    ensures forall i :: 0 <= i < |r| ==> keep(r[i].row) && r[i] in rows
  {
    if rows == [] || limit == 0 then []
    else if keep(rows[|rows| - 1].row) then [rows[|rows| - 1]] + Newest(rows[..|rows| - 1], keep, limit - 1)
    else Newest(rows[..|rows| - 1], keep, limit)
  }

  /** The query returns strictly decreasing ids: newest first. */
  lemma {:induction false} NewestIsNewestFirst<T>(rows: seq<Stored<T>>, keep: T -> bool, limit: nat, nextId: nat)
    requires IdsAscending(rows, nextId)
    ensures forall i, j :: 0 <= i < j < |Newest(rows, keep, limit)| ==>
      Newest(rows, keep, limit)[i].id > Newest(rows, keep, limit)[j].id
  {
    if rows != [] && limit != 0 {
      var front := rows[..|rows| - 1];
      var last := rows[|rows| - 1];
      assert IdsAscending(front, last.id);
      if keep(last.row) {
        NewestIsNewestFirst(front, keep, limit - 1, last.id);
        var rest := Newest(front, keep, limit - 1);
        forall j | 0 <= j < |rest| ensures rest[j].id < last.id {
          assert rest[j] in front;
        }
      } else {
        NewestIsNewestFirst(front, keep, limit, nextId);
      }
    }
  }

  /** The query returns min(limit, number of matching rows) rows. */
  lemma {:induction false} NewestSize<T>(rows: seq<Stored<T>>, keep: T -> bool, limit: nat)
    ensures |Newest(rows, keep, limit)| == if limit < CountKept(rows, keep) then limit else CountKept(rows, keep)
  {
    if rows != [] && limit != 0 {
      var front := rows[..|rows| - 1];
      if keep(rows[|rows| - 1].row) {
        NewestSize(front, keep, limit - 1);
      } else {
        NewestSize(front, keep, limit);
      }
    }
  }

  /**
   * A matching row left out of the result is older than every returned row, and it was
   * left out only because `limit` rows were already returned.
   */
  lemma {:induction false} NewestSkipsOnlyOlder<T>(rows: seq<Stored<T>>, keep: T -> bool, limit: nat, nextId: nat, x: Stored<T>)
    requires IdsAscending(rows, nextId)
    requires x in rows && keep(x.row) && x !in Newest(rows, keep, limit)
    ensures |Newest(rows, keep, limit)| == limit
    ensures forall y :: y in Newest(rows, keep, limit) ==> y.id > x.id
  {
    if limit != 0 {
      var front := rows[..|rows| - 1];
      var last := rows[|rows| - 1];
      assert IdsAscending(front, last.id);
      if x == last {
        assert false;
      } else {
        assert x in front;
        var k :| 0 <= k < |front| && front[k] == x;
        assert x.id < last.id;
        if keep(last.row) {
          NewestSkipsOnlyOlder(front, keep, limit - 1, last.id, x);
        } else {
          NewestSkipsOnlyOlder(front, keep, limit, last.id, x);
        }
      }
    }
  }

  /** `DELETE FROM metrics WHERE id NOT IN (SELECT id ... ORDER BY created_at DESC LIMIT max)`. */
  function KeepNewest<T>(rows: seq<Stored<T>>, max: nat): (r: seq<Stored<T>>)
    ensures |r| == if |rows| < max then |rows| else max
    ensures r == rows[|rows| - |r|..]
  {
    if |rows| <= max then rows else rows[|rows| - max..]
  }

  /** Evicting twice with the same cap is evicting once. */
  lemma KeepNewestIdempotent<T>(rows: seq<Stored<T>>, max: nat)
    ensures KeepNewest(KeepNewest(rows, max), max) == KeepNewest(rows, max)
  {
  }

  /** The filter of a query without a WHERE clause. */
  predicate AnyRow<T>(x: T) { true }

  /** Without a filter, the query returns the last `limit` rows in reverse insertion order. */
  lemma {:induction false} NewestUnfilteredAt<T>(rows: seq<Stored<T>>, limit: nat)
    ensures |Newest(rows, AnyRow, limit)| == if |rows| < limit then |rows| else limit
    ensures forall i :: 0 <= i < |Newest(rows, AnyRow, limit)| ==> Newest(rows, AnyRow, limit)[i] == rows[|rows| - 1 - i]
  {
    if rows != [] && limit != 0 {
      NewestUnfilteredAt(rows[..|rows| - 1], limit - 1);
    }
  }

  /** The suffix kept by eviction holds exactly the rows the `NOT IN` subquery selects. */
  lemma KeepNewestIsDeleteNotIn<T>(rows: seq<Stored<T>>, max: nat)
    ensures forall x :: x in KeepNewest(rows, max) <==> x in rows && x in Newest(rows, AnyRow, max)
  {
    NewestUnfilteredAt(rows, max);
    var kept, sel := KeepNewest(rows, max), Newest(rows, AnyRow, max);
    forall k | 0 <= k < |sel| ensures sel[k] == kept[|kept| - 1 - k] {
      assert kept[|kept| - 1 - k] == rows[|rows| - 1 - k];
    }
    ReversedMembers(kept, sel);
  }

  /** A sequence and its reversal hold the same elements. */
  lemma ReversedMembers<T>(a: seq<T>, b: seq<T>)
    requires |a| == |b|
    requires forall k :: 0 <= k < |b| ==> b[k] == a[|a| - 1 - k]
    ensures forall x :: x in a <==> x in b
  {
    forall x | x in a ensures x in b {
      var k :| 0 <= k < |a| && a[k] == x;
      assert b[|a| - 1 - k] == x;
    }
  }

  /** `get_metrics`' WHERE clause: an owner filter only when `api_key` is truthy. */
  predicate MetricMatches(apiKey: Option<string>, m: MetricRecord) {
    Truthy(apiKey) ==> m.apiKey == Some(apiKey.value)
  }

  /** `get_errors`' WHERE clause: `level = level.upper()` and `api_key = ?`, each only when truthy. */
  predicate ErrorMatches(level: Option<string>, apiKey: Option<string>, e: ErrorLog) {
    && (Truthy(level) ==> e.level == Upper(level.value))
    && (Truthy(apiKey) ==> e.apiKey == Some(apiKey.value))
  }

  /** The filter `get_metrics` applies: its WHERE clause when the key is truthy, none otherwise. */
  function MetricFilter(apiKey: Option<string>): MetricRecord -> bool {
    if Truthy(apiKey) then m => MetricMatches(apiKey, m) else AnyRow
  }

  /** The rows `get_metrics(limit, api_key)` returns. */
  function QueryMetrics(rows: seq<Stored<MetricRecord>>, limit: nat, apiKey: Option<string>): (r: seq<Stored<MetricRecord>>)
    ensures |r| <= limit
    ensures forall i :: 0 <= i < |r| ==> r[i] in rows
    ensures Truthy(apiKey) ==> forall i :: 0 <= i < |r| ==> r[i].row.apiKey == apiKey
    ensures !Truthy(apiKey) ==>
      && |r| == (if |rows| < limit then |rows| else limit)
      && forall i :: 0 <= i < |r| ==> r[i] == rows[|rows| - 1 - i]
  {
    if Truthy(apiKey) then Newest(rows, m => MetricMatches(apiKey, m), limit)
    else NewestUnfilteredAt(rows, limit); Newest(rows, AnyRow, limit)
  }

  /** The rows `get_errors(limit, level, api_key)` returns. */
  function QueryErrors(rows: seq<Stored<ErrorLog>>, limit: nat, level: Option<string>, apiKey: Option<string>): (r: seq<Stored<ErrorLog>>)
    ensures |r| <= limit
    ensures forall i :: 0 <= i < |r| ==> r[i] in rows
    ensures Truthy(level) ==> forall i :: 0 <= i < |r| ==> r[i].row.level == Upper(level.value)
    ensures Truthy(apiKey) ==> forall i :: 0 <= i < |r| ==> r[i].row.apiKey == apiKey
  {
    Newest(rows, e => ErrorMatches(level, apiKey, e), limit)
  }

  /**
   * `get_errors` on a valid table is newest first, returns min(limit, matching) rows, and
   * leaves out a matching row only when it is older than every returned row.
   */
  lemma QueryErrorsNewestFirst(rows: seq<Stored<ErrorLog>>, nextId: nat, limit: nat, level: Option<string>, apiKey: Option<string>)
    requires IdsAscending(rows, nextId)
    ensures var r := QueryErrors(rows, limit, level, apiKey);
      && (forall i, j :: 0 <= i < j < |r| ==> r[i].id > r[j].id)
      && |r| == (if limit < CountKept(rows, e => ErrorMatches(level, apiKey, e)) then limit
                 else CountKept(rows, e => ErrorMatches(level, apiKey, e)))
      && (forall x :: x in rows && ErrorMatches(level, apiKey, x.row) && x !in r ==>
            |r| == limit && forall y :: y in r ==> y.id > x.id)
  {
    var keep := e => ErrorMatches(level, apiKey, e);
    NewestIsNewestFirst(rows, keep, limit, nextId);
    NewestSize(rows, keep, limit);
    forall x | x in rows && ErrorMatches(level, apiKey, x.row) && x !in QueryErrors(rows, limit, level, apiKey)
      ensures |QueryErrors(rows, limit, level, apiKey)| == limit
      ensures forall y :: y in QueryErrors(rows, limit, level, apiKey) ==> y.id > x.id
    {
      NewestSkipsOnlyOlder(rows, keep, limit, nextId, x);
    }
  }

  /**
   * `get_metrics` on a valid table is newest first, returns min(limit, matching) rows, and
   * leaves out a matching row only when it is older than every returned row.
   */
  lemma QueryMetricsNewestFirst(rows: seq<Stored<MetricRecord>>, nextId: nat, limit: nat, apiKey: Option<string>)
    requires IdsAscending(rows, nextId)
    ensures var r := QueryMetrics(rows, limit, apiKey);
      && (forall i, j :: 0 <= i < j < |r| ==> r[i].id > r[j].id)
      && |r| == (if limit < CountKept(rows, MetricFilter(apiKey)) then limit else CountKept(rows, MetricFilter(apiKey)))
      && (forall x :: x in rows && MetricMatches(apiKey, x.row) && x !in r ==>
            |r| == limit && forall y :: y in r ==> y.id > x.id)
  {
    var keep := MetricFilter(apiKey);
    assert QueryMetrics(rows, limit, apiKey) == Newest(rows, keep, limit);
    NewestIsNewestFirst(rows, keep, limit, nextId);
    NewestSize(rows, keep, limit);
    forall x | x in rows && MetricMatches(apiKey, x.row) && x !in QueryMetrics(rows, limit, apiKey)
      ensures |QueryMetrics(rows, limit, apiKey)| == limit
      ensures forall y :: y in QueryMetrics(rows, limit, apiKey) ==> y.id > x.id
    {
      NewestSkipsOnlyOlder(rows, keep, limit, nextId, x);
    }
  }

  /**
   * The loop of `validate_api_key` over `SELECT key_hash FROM api_keys WHERE is_active`:
   * the position of the first active row whose hash accepts the key, if any.
   */
  function FirstActiveMatch(keys: seq<Stored<ApiKeyRow>>, apiKey: string, matches: (string, string) -> bool): (r: Option<nat>)
    ensures r.Some? ==> r.value < |keys| && keys[r.value].row.isActive && matches(keys[r.value].row.keyHash, apiKey)
    ensures r.Some? ==> forall j :: 0 <= j < r.value ==> !(keys[j].row.isActive && matches(keys[j].row.keyHash, apiKey))
    ensures r.None? ==> forall j :: 0 <= j < |keys| ==> !(keys[j].row.isActive && matches(keys[j].row.keyHash, apiKey))
  {
    if keys == [] then None
    else if keys[0].row.isActive && matches(keys[0].row.keyHash, apiKey) then Some(0)
    else match FirstActiveMatch(keys[1..], apiKey, matches)
      case None => None
      case Some(i) => Some(i + 1)
  }

  /** `UPDATE api_keys SET last_used = now WHERE key_hash = h`. */
  function TouchHash(keys: seq<Stored<ApiKeyRow>>, h: string, now: string): (r: seq<Stored<ApiKeyRow>>)
    ensures |r| == |keys|
  {
    seq(|keys|, j requires 0 <= j < |keys| =>
      if keys[j].row.keyHash == h then Stored(keys[j].id, keys[j].row.(lastUsed := Some(now))) else keys[j])
  }

  /** Because hashes are unique, the UPDATE by hash changes the matched row's `last_used` and nothing else. */
  lemma TouchHashChangesOneRow(keys: seq<Stored<ApiKeyRow>>, i: nat, now: string)
    requires UniqueHashes(keys) && i < |keys|
    ensures TouchHash(keys, keys[i].row.keyHash, now) == keys[i := Stored(keys[i].id, keys[i].row.(lastUsed := Some(now)))]
  {
  }

  /** The three tables and their id counters. */
  datatype Tables = Tables(
    metrics: seq<Stored<MetricRecord>>,
    errors: seq<Stored<ErrorLog>>,
    apiKeys: seq<Stored<ApiKeyRow>>,
    nextMetricId: nat,
    nextErrorId: nat,
    nextKeyId: nat)
  {
    ghost predicate Valid() {
      && IdsAscending(metrics, nextMetricId)
      && IdsAscending(errors, nextErrorId)
      && IdsAscending(apiKeys, nextKeyId)
      && UniqueHashes(apiKeys)
    }

    /** The `INSERT INTO metrics`: one row whose id exceeds every id in the table. */
    function InsertMetric(m: MetricRecord): (t: Tables)
      ensures Valid() ==> t.Valid()
      ensures t.metrics == metrics + [Stored(nextMetricId, m)] && t.nextMetricId == nextMetricId + 1
      ensures t.errors == errors && t.apiKeys == apiKeys
      ensures t.nextErrorId == nextErrorId && t.nextKeyId == nextKeyId
    {
      this.(metrics := metrics + [Stored(nextMetricId, m)], nextMetricId := nextMetricId + 1)
    }

    /** `save_error`: the `INSERT INTO errors`. */
    function InsertError(e: ErrorLog): (t: Tables)
      ensures Valid() ==> t.Valid()
      ensures t.errors == errors + [Stored(nextErrorId, e)] && t.nextErrorId == nextErrorId + 1
      ensures t.metrics == metrics && t.apiKeys == apiKeys
      ensures t.nextMetricId == nextMetricId && t.nextKeyId == nextKeyId
    {
      this.(errors := errors + [Stored(nextErrorId, e)], nextErrorId := nextErrorId + 1)
    }

    /** Several `save_error` calls in order. */
    function InsertErrors(es: seq<ErrorLog>): (t: Tables)
      ensures Valid() ==> t.Valid()
      ensures |t.errors| == |errors| + |es| && t.errors[..|errors|] == errors
      ensures forall i :: 0 <= i < |es| ==> t.errors[|errors| + i] == Stored(nextErrorId + i, es[i])
      ensures t.nextErrorId == nextErrorId + |es|
      ensures t.metrics == metrics && t.apiKeys == apiKeys
      ensures t.nextMetricId == nextMetricId && t.nextKeyId == nextKeyId
      decreases |es|
    {
      if es == [] then this else InsertError(es[0]).InsertErrors(es[1..])
    }

    /** `_cleanup_old_metrics` with the cap `max`. */
    function CleanupOldMetrics(max: nat): (t: Tables)
      ensures Valid() ==> t.Valid()
      ensures t.metrics == KeepNewest(metrics, max)
      ensures t.errors == errors && t.apiKeys == apiKeys
      ensures t.nextMetricId == nextMetricId && t.nextErrorId == nextErrorId && t.nextKeyId == nextKeyId
    {
      this.(metrics := KeepNewest(metrics, max))
    }

    /** `validate_api_key`'s answer. */
    function KeyIsValid(apiKey: string, matches: (string, string) -> bool): bool {
      FirstActiveMatch(apiKeys, apiKey, matches).Some?
    }

    /** `validate_api_key`'s side effect: touch `last_used` of the first accepting active key. */
    function TouchKey(apiKey: string, matches: (string, string) -> bool, now: string): (t: Tables)
      ensures Valid() ==> t.Valid()
      ensures t.metrics == metrics && t.errors == errors && |t.apiKeys| == |apiKeys|
      ensures t.nextMetricId == nextMetricId && t.nextErrorId == nextErrorId && t.nextKeyId == nextKeyId
    {
      match FirstActiveMatch(apiKeys, apiKey, matches)
      case None => this
      case Some(i) => this.(apiKeys := TouchHash(apiKeys, apiKeys[i].row.keyHash, now))
    }

    /** `create_api_key`'s INSERT; the UNIQUE constraint rejects a hash already present. */
    function InsertKey(keyHash: string, keyName: string): (t: Tables)
      ensures Valid() ==> t.Valid()
      ensures t.metrics == metrics && t.errors == errors
      ensures t.nextMetricId == nextMetricId && t.nextErrorId == nextErrorId
      ensures (forall j :: 0 <= j < |apiKeys| ==> apiKeys[j].row.keyHash != keyHash) ==>
        && |t.apiKeys| == |apiKeys| + 1 && t.apiKeys[..|apiKeys|] == apiKeys
        && t.apiKeys[|apiKeys|].row == ApiKeyRow(keyHash, keyName, None, true)
      ensures (exists j :: 0 <= j < |apiKeys| && apiKeys[j].row.keyHash == keyHash) ==> t == this
    {
      if exists j :: 0 <= j < |apiKeys| && apiKeys[j].row.keyHash == keyHash then this
      else this.(apiKeys := apiKeys + [Stored(nextKeyId, ApiKeyRow(keyHash, keyName, None, true))], nextKeyId := nextKeyId + 1)
    }

    /** `save_metric`: insert, then (enhanced_monitor_api.py only) evict. */
    function SaveMetric(variant: Variant, max: nat, m: MetricRecord): (t: Tables)
      ensures Valid() ==> t.Valid()
      ensures t.errors == errors && t.apiKeys == apiKeys && t.nextMetricId == nextMetricId + 1
      ensures variant == PeriodicEviction ==> t.metrics == metrics + [Stored(nextMetricId, m)]
      ensures variant == InlineEviction ==> var grown := metrics + [Stored(nextMetricId, m)];
        |t.metrics| == (if |grown| < max then |grown| else max) && t.metrics == grown[|grown| - |t.metrics|..]
    {
      var t := InsertMetric(m);
      if variant == InlineEviction then t.CleanupOldMetrics(max) else t
    }
  }

  /**
   * `validate_api_key` answers true iff some active key accepts the token; on success only the
   * first accepting row's `last_used` changes, and on failure no row changes.
   */
  lemma ValidateApiKeyEffect(t: Tables, apiKey: string, matches: (string, string) -> bool, now: string)
    requires t.Valid()
    ensures t.KeyIsValid(apiKey, matches) <==>
      exists j :: 0 <= j < |t.apiKeys| && t.apiKeys[j].row.isActive && matches(t.apiKeys[j].row.keyHash, apiKey)
    ensures !t.KeyIsValid(apiKey, matches) ==> t.TouchKey(apiKey, matches, now) == t
    ensures t.KeyIsValid(apiKey, matches) ==>
      exists i ::
        && 0 <= i < |t.apiKeys|
        && t.apiKeys[i].row.isActive && matches(t.apiKeys[i].row.keyHash, apiKey)
        && (forall j :: 0 <= j < i ==> !(t.apiKeys[j].row.isActive && matches(t.apiKeys[j].row.keyHash, apiKey)))
        && t.TouchKey(apiKey, matches, now).apiKeys == t.apiKeys[i := Stored(t.apiKeys[i].id, t.apiKeys[i].row.(lastUsed := Some(now)))]
  {
    match FirstActiveMatch(t.apiKeys, apiKey, matches)
    case None =>
    case Some(i) =>
      TouchHashChangesOneRow(t.apiKeys, i, now);
  }

  /** A freshly created key is active, so the key it was hashed from validates from then on. */
  lemma CreatedKeyValidates(t: Tables, keyHash: string, keyName: string, apiKey: string, matches: (string, string) -> bool)
    requires forall j :: 0 <= j < |t.apiKeys| ==> t.apiKeys[j].row.keyHash != keyHash
    requires matches(keyHash, apiKey)
    ensures t.InsertKey(keyHash, keyName).KeyIsValid(apiKey, matches)
    ensures |t.InsertKey(keyHash, keyName).apiKeys| == |t.apiKeys| + 1
  {
    var keys := t.InsertKey(keyHash, keyName).apiKeys;
    assert keys[|keys| - 1].row == ApiKeyRow(keyHash, keyName, None, true);
  }

  /** app.py `save_metric` only appends: one more row, every earlier row untouched. */
  lemma SaveMetricPeriodicAppends(t: Tables, max: nat, m: MetricRecord)
    ensures var t' := t.SaveMetric(PeriodicEviction, max, m);
      && |t'.metrics| == |t.metrics| + 1
      && t'.metrics[..|t.metrics|] == t.metrics
      && t'.metrics[|t.metrics|] == Stored(t.nextMetricId, m)
  {
  }

  /**
   * enhanced_monitor_api.py `save_metric`: the new row's id exceeds every earlier id, the
   * table stays valid, and afterwards it holds min(n + 1, max) rows, so at most `max`.
   */
  lemma SaveMetricInlineBounded(t: Tables, max: nat, m: MetricRecord)
    requires t.Valid()
    ensures forall i :: 0 <= i < |t.metrics| ==> t.metrics[i].id < t.nextMetricId
    ensures t.SaveMetric(InlineEviction, max, m).Valid()
    ensures |t.SaveMetric(InlineEviction, max, m).metrics| == (if |t.metrics| + 1 < max then |t.metrics| + 1 else max)
  {
  }

  /**
   * enhanced_monitor_api.py `save_metric`: the new row is the newest one and survives
   * whenever `max >= 1`, and every surviving row was there before or is the new one.
   */
  lemma SaveMetricInlineKeepsNewRow(t: Tables, max: nat, m: MetricRecord)
    ensures max >= 1 ==> Last(t.SaveMetric(InlineEviction, max, m).metrics) == Stored(t.nextMetricId, m)
    ensures forall x :: x in t.SaveMetric(InlineEviction, max, m).metrics ==> x in t.metrics || x == Stored(t.nextMetricId, m)
  {
    var grown := t.metrics + [Stored(t.nextMetricId, m)];
    var kept := KeepNewest(grown, max);
    assert t.SaveMetric(InlineEviction, max, m).metrics == kept;
    if max >= 1 {
      assert Last(kept) == grown[|grown| - 1];
    }
    SuffixMembers(grown, |grown| - |kept|);
  }

  /** Every row of a suffix is a row of the whole sequence. */
  lemma SuffixMembers<T>(rows: seq<T>, from: nat)
    requires from <= |rows|
    ensures forall x :: x in rows[from..] ==> x in rows
  {
    forall x | x in rows[from..] ensures x in rows {
      var k :| 0 <= k < |rows| - from && rows[from..][k] == x;
      assert rows[from + k] == x;
    }
  }

  /** Several `save_metric` calls in order. */
  function SaveAll(t: Tables, variant: Variant, max: nat, ms: seq<MetricRecord>): Tables
    decreases |ms|
  {
    if ms == [] then t else SaveAll(t.SaveMetric(variant, max, ms[0]), variant, max, ms[1..])
  }

  /** With eviction after every insert, a table within the cap stays within it however many rows arrive. */
  lemma {:induction false} SaveAllInlineStaysBounded(t: Tables, max: nat, ms: seq<MetricRecord>)
    requires t.Valid() && |t.metrics| <= max
    ensures SaveAll(t, InlineEviction, max, ms).Valid()
    ensures |SaveAll(t, InlineEviction, max, ms).metrics| <= max
    decreases |ms|
  {
    if ms != [] {
      SaveMetricInlineBounded(t, max, ms[0]);
      SaveAllInlineStaysBounded(t.SaveMetric(InlineEviction, max, ms[0]), max, ms[1..]);
    }
  }

  /** What a `save_metric` call leaves behind, and whether it raised. */
  datatype SaveOutcome = SaveOutcome(tables: Tables, raised: bool)

  /**
   * enhanced_monitor_api.py `save_metric` as written: the cleanup statement carries a `?`
   * placeholder, which the PostgreSQL driver does not substitute, so that statement raises
   * after the insert has been committed: the row stays, nothing is evicted, and the call raises.
   */
  function SaveMetricAsWritten(t: Tables, m: MetricRecord): (r: SaveOutcome)
    ensures r.raised
    ensures r.tables.metrics == t.metrics + [Stored(t.nextMetricId, m)]
    ensures r.tables.errors == t.errors && r.tables.apiKeys == t.apiKeys
  {
    SaveOutcome(t.InsertMetric(m), true)
  }

  function SaveAllAsWritten(t: Tables, ms: seq<MetricRecord>): Tables
    decreases |ms|
  {
    if ms == [] then t else SaveAllAsWritten(SaveMetricAsWritten(t, ms[0]).tables, ms[1..])
  }

  /**
   * As written, every save raises and the table grows by one row per call without bound: with
   * `max` rows already present one save leaves `max + 1`, where `SaveMetric` leaves `max`.
   */
  lemma {:induction false} AsWrittenSavesNeverEvict(t: Tables, max: nat, ms: seq<MetricRecord>)
    requires t.Valid() && |t.metrics| == max
    ensures |SaveAllAsWritten(t, ms).metrics| == max + |ms|
    ensures ms != [] ==> SaveMetricAsWritten(t, ms[0]).raised
    ensures ms != [] ==> |t.SaveMetric(InlineEviction, max, ms[0]).metrics| == max
    decreases |ms|
  {
    if ms != [] {
      var u := SaveMetricAsWritten(t, ms[0]).tables;
      assert u == t.InsertMetric(ms[0]);
      AsWrittenSavesNeverEvict(u, max + 1, ms[1..]);
    }
  }

  function Last<T>(s: seq<T>): T
    requires s != []
  {
    s[|s| - 1]
  }
}
