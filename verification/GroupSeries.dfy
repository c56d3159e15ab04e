/** One metric series per group and model, put together from database rows, Redis hashes and hot
    buckets. */
module GroupSeries {
  import opened Histogram
  import opened MetricCounters
  import opened HotRuns

  /** What the three sources hold, by bucket key; a Redis hash that has expired is absent. */
  datatype Sources = Sources(stored: map<Key, Counters>, redis: map<Key, Counters>, hot: map<Key, Counters>)

  datatype Query = Query(groups: set<string>, start: int, end: int, active: int, width: int, redisEnabled: bool)

  type Buckets = map<Identity, map<int, Counters>>

  predicate Has(b: Buckets, k: Key) { k.of in b && k.ts in b[k.of] }

  function Reported(b: Buckets, k: Key): Counters { if Has(b, k) then b[k.of][k.ts] else ZERO }

  predicate Allowed(q: Query, k: Key) { k.of.ModelGroup? && (q.groups == {} || k.of.group in q.groups) }

  predicate InWindow(q: Query, ts: int) { q.start <= ts <= q.end }

  predicate Wanted(q: Query, k: Key) { Allowed(q, k) && InWindow(q, k.ts) }

  /** Merging one value into the buckets; a value without requests is not merged. */
  function Appended(b: Buckets, k: Key, value: Counters): Buckets {
    if value.requests == 0 then b
    else b[k.of := (if k.of in b then b[k.of] else map[])[k.ts := Plus(Reported(b, k), value)]]
  }

  /** Exactly one bucket changes, and it grows by the value. */
  lemma AppendedReports(b: Buckets, k: Key, value: Counters, other: Key)
    ensures other != k ==> Reported(Appended(b, k, value), other) == Reported(b, other)
    ensures other != k ==> (Has(Appended(b, k, value), other) <==> Has(b, other))
    ensures value.requests != 0 ==> Reported(Appended(b, k, value), k) == Plus(Reported(b, k), value)
    ensures Has(Appended(b, k, value), k) <==> Has(b, k) || value.requests != 0
    ensures other.of in Appended(b, k, value) <==> other.of in b || (value.requests != 0 && other.of == k.of)
  {}

  /** What a source adds to a bucket. */
  function Bump(base: Counters, source: map<Key, Counters>, k: Key): Counters {
    if k in source && source[k].requests != 0 then Plus(base, source[k]) else base
  }

  predicate HasRequests(source: map<Key, Counters>, k: Key) { k in source && source[k].requests != 0 }

  /** Which Redis hashes a query reads: recent buckets in the window, of series that have a row, that
      are not persisted themselves. */
  predicate Asked(q: Query, b: Buckets, k: Key) {
    && q.redisEnabled && k.of in b && (k.ts == q.active || k.ts == q.active - q.width) && InWindow(q, k.ts)
    && k.ts !in b[k.of]
  }

  /** Which of them are merged. */
  predicate FromRedis(q: Query, b: Buckets, redis: map<Key, Counters>, k: Key) {
    Asked(q, b, k) && HasRequests(redis, k)
  }

  function WithRedis(q: Query, b: Buckets, redis: map<Key, Counters>, k: Key): Counters {
    if FromRedis(q, b, redis, k) then Plus(ZERO, redis[k]) else Reported(b, k)
  }

  /** Hot buckets fill in what Redis has not. */
  function WithHot(q: Query, skip: set<Key>, base: Counters, hot: map<Key, Counters>, k: Key): Counters {
    if Wanted(q, k) && k !in skip then Bump(base, hot, k) else base
  }

  /** Every hot bucket but those still to do has been merged. */
  ghost predicate HotMerged(q: Query, skip: set<Key>, before: Buckets, hot: map<Key, Counters>, todo: set<Key>,
                            now: Buckets) {
    forall k :: Reported(now, k) ==
      if k in todo then Reported(before, k) else WithHot(q, skip, Reported(before, k), hot, k)
  }

  lemma HotMergedMore(q: Query, skip: set<Key>, before: Buckets, hot: map<Key, Counters>, todo: set<Key>, was: Buckets,
                      now: Buckets, key: Key)
    requires HotMerged(q, skip, before, hot, todo, was) && key in todo && key in hot
    requires forall k :: k != key ==> Reported(now, k) == Reported(was, k)
    requires Reported(now, key) == WithHot(q, skip, Reported(was, key), map[key := hot[key]], key)
    ensures HotMerged(q, skip, before, hot, todo - {key}, now)
  {
    assert Bump(Reported(was, key), map[key := hot[key]], key) == Bump(Reported(was, key), hot, key);
  }

  /** One query over the database rows, the Redis hashes and the shared bucket objects. */
  class SeriesQuery {
    const q: Query
    const stored: map<Key, Counters>
    const redis: map<Key, Counters>
    const hot: map<Key, AtomicBucket>
    var buckets: Buckets

    constructor (q: Query, stored: map<Key, Counters>, redis: map<Key, Counters>, hot: map<Key, AtomicBucket>)
      ensures this.q == q && this.stored == stored && this.redis == redis && this.hot == hot && buckets == map[]
    {
      this.q, this.stored, this.redis, this.hot, buckets := q, stored, redis, hot, map[];
    }

    /** What the bucket objects hold. */
    ghost function HotContents(): map<Key, Counters>
      reads hot.Values
    {
      map k | k in hot :: hot[k].Contents()
    }

    method AppendGroupModelBucket(key: Key, value: Counters)
      modifies `buckets
      ensures buckets == Appended(old(buckets), key, value)
    {
      if value.requests == 0 { return; }
      if key.of !in buckets { buckets := buckets[key.of := map[]]; }
      var current := if key.ts in buckets[key.of] then buckets[key.of][key.ts] else ZERO;
      buckets := buckets[key.of := buckets[key.of][key.ts := Plus(current, value)]];
    }

    /** The rows the database returns, each merged once. */
    method MergeRows()
      requires buckets == map[]
      modifies `buckets
      ensures forall k :: Reported(buckets, k) == if Wanted(q, k) then Bump(ZERO, stored, k) else ZERO
      ensures forall k :: Has(buckets, k) <==> Wanted(q, k) && HasRequests(stored, k)
    {
      ghost var rows := set k | k in stored && Wanted(q, k);
      var todo := set k | k in stored && Wanted(q, k);
      while todo != {}
        invariant todo <= rows
        invariant forall k :: Reported(buckets, k) == if k in rows && k !in todo then Bump(ZERO, stored, k) else ZERO
        invariant forall k :: Has(buckets, k) <==> k in rows && k !in todo && HasRequests(stored, k)
      {
        var key :| key in todo;
        ghost var before := buckets;
        AppendGroupModelBucket(key, stored[key]);
        forall k { AppendedReports(before, key, stored[key], k); }
        todo := todo - {key};
      }
    }

    method MergeRecentGroupModelRedisBuckets() returns (merged: set<Key>)
      modifies `buckets
      ensures forall k :: k in merged <==> FromRedis(q, old(buckets), redis, k) && redis[k].requests > 0
      ensures forall k :: Reported(buckets, k) == WithRedis(q, old(buckets), redis, k)
    {
      merged := {};
      if !q.redisEnabled || buckets == map[] { return; }
      var commands: set<Key> := {};
      var series := buckets.Keys;
      while series != {}
        invariant series <= buckets.Keys && buckets == old(buckets)
        invariant forall k :: k in commands <==> Asked(q, buckets, k) && k.of !in series
      {
        var of :| of in series;
        if InWindow(q, q.active) && q.active !in buckets[of] { commands := commands + {Key(of, q.active)}; }
        if InWindow(q, q.active - q.width) && q.active - q.width !in buckets[of] {
          commands := commands + {Key(of, q.active - q.width)};
        }
        series := series - {of};
      }
      ghost var asked := commands;
      while commands != {}
        invariant commands <= asked
        invariant forall k :: k in merged <==> k in asked && k !in commands && k in redis && redis[k].requests > 0
        invariant forall k :: k in commands ==> Reported(buckets, k) == Reported(old(buckets), k)
        invariant forall k :: k !in commands ==> Reported(buckets, k) == WithRedis(q, old(buckets), redis, k)
      {
        var key :| key in commands;
        if key in redis {
          var value := redis[key];
          ghost var before := buckets;
          AppendGroupModelBucket(key, value);
          forall k { AppendedReports(before, key, value, k); }
          if value.requests > 0 { merged := merged + {key}; }
        }
        commands := commands - {key};
      }
    }

    /** One hot bucket, read through a snapshot. */
    method MergeHotBucket(key: Key, redisBuckets: set<Key>)
      requires key in hot
      modifies `buckets
      ensures forall k :: k != key ==> Reported(buckets, k) == Reported(old(buckets), k)
      ensures Reported(buckets, key) ==
        WithHot(q, redisBuckets, Reported(old(buckets), key), map[key := hot[key].Contents()], key)
    {
      if !Wanted(q, key) || key in redisBuckets { return; }
      ghost var before := buckets;
      var value := hot[key].Snapshot();
      AppendGroupModelBucket(key, value);
      forall k { AppendedReports(before, key, value, k); }
    }

    method MergeHotGroupModelBuckets(redisBuckets: set<Key>)
      modifies `buckets
      ensures forall k :: Reported(buckets, k) == WithHot(q, redisBuckets, Reported(old(buckets), k), HotContents(), k)
    {
      ghost var contents, before := HotContents(), buckets;
      var todo := hot.Keys;
      while todo != {}
        invariant todo <= hot.Keys && contents == HotContents()
        invariant HotMerged(q, redisBuckets, before, contents, todo, buckets)
      {
        var key :| key in todo;
        ghost var was := buckets;
        MergeHotBucket(key, redisBuckets);
        HotMergedMore(q, redisBuckets, before, contents, todo, was, buckets, key);
        todo := todo - {key};
      }
    }

    /** Rows first, then recent Redis hashes, then hot buckets Redis did not cover. */
    method QuerySeriesByGroupModels()
      requires buckets == map[]
      modifies `buckets
      ensures IsSeries(q, Sources(stored, redis, HotContents()), buckets)
    {
      MergeRows();
      ghost var rows := buckets;
      var merged := MergeRecentGroupModelRedisBuckets();
      MergeHotGroupModelBuckets(merged);
      assert IsSeriesFrom(q, Sources(stored, redis, HotContents()), rows, merged, buckets);
    }
  }

  ghost predicate RowsOnly(q: Query, src: Sources, rows: Buckets) {
    && (forall k :: Reported(rows, k) == if Wanted(q, k) then Bump(ZERO, src.stored, k) else ZERO)
    && (forall k :: Has(rows, k) <==> Wanted(q, k) && HasRequests(src.stored, k))
  }

  function Combined(q: Query, src: Sources, rows: Buckets, merged: set<Key>, k: Key): Counters {
    WithHot(q, merged, WithRedis(q, rows, src.redis, k), src.hot, k)
  }

  ghost predicate IsSeriesFrom(q: Query, src: Sources, rows: Buckets, merged: set<Key>, series: Buckets) {
    && RowsOnly(q, src, rows)
    && (forall k :: k in merged <==> FromRedis(q, rows, src.redis, k) && src.redis[k].requests > 0)
    && (forall k :: Reported(series, k) == Combined(q, src, rows, merged, k))
  }

  /** What a query puts together from its three sources. */
  ghost predicate IsSeries(q: Query, src: Sources, series: Buckets) {
    exists rows, merged :: IsSeriesFrom(q, src, rows, merged, series)
  }

  /** Rows and hot buckets make up the recorded totals, and a Redis hash that is there holds them all. */
  ghost predicate Complete(src: Sources, recorded: seq<Entry>) {
    && (forall k :: k in src.stored ==> Whole(src.stored[k]))
    && (forall k :: k in src.hot ==> Whole(src.hot[k]))
    && (forall k, f :: RowField(f) ==>
        Value(RowAt(src.stored, k), f) + Value(RowAt(src.hot, k), f) == Total(recorded, k, f))
    && RedisComplete(src.redis, recorded)
  }

  ghost predicate RedisComplete(redis: map<Key, Counters>, recorded: seq<Entry>) {
    && (forall k :: k in redis ==> Whole(redis[k]))
    && (forall k, f :: k in redis && RowField(f) ==> Value(redis[k], f) == Total(recorded, k, f))
  }

  lemma BumpAdds(base: Counters, source: map<Key, Counters>, k: Key, f: Field)
    requires k in source ==> Whole(source[k])
    ensures Value(Bump(base, source, k), f) == Value(base, f) + Value(RowAt(source, k), f)
  {
    ZeroIsNothing(f);
    if k in source { PlusAdds(base, source[k], f); }
  }

  /** Nothing is counted twice and nothing is missed: every allowed bucket in the window reports its
      recorded total, whichever of the three sources hold it. */
  lemma SeriesIsTotal(q: Query, src: Sources, series: Buckets, recorded: seq<Entry>, k: Key, f: Field)
    requires Complete(src, recorded) && IsSeries(q, src, series)
    requires Wanted(q, k) && RowField(f)
    ensures Value(Reported(series, k), f) == Total(recorded, k, f)
  {
    var rows, merged :| IsSeriesFrom(q, src, rows, merged, series);
    if FromRedis(q, rows, src.redis, k) {
      FromRedisIsTotal(q, src.redis, rows, merged, Combined(q, src, rows, merged, k), src.hot, recorded, k, f);
    } else {
      FromRowAndHot(q, src, merged, Reported(rows, k), recorded, k, f);
    }
  }

  /** A merged hash is the whole total, and keeps the hot bucket out. */
  lemma FromRedisIsTotal(q: Query, redis: map<Key, Counters>, rows: Buckets, merged: set<Key>, c: Counters,
                         hot: map<Key, Counters>, recorded: seq<Entry>, k: Key, f: Field)
    requires RedisComplete(redis, recorded) && RowField(f) && FromRedis(q, rows, redis, k)
    requires k in merged <==> redis[k].requests > 0
    requires c == WithHot(q, merged, Plus(ZERO, redis[k]), hot, k)
    ensures Value(c, f) == Total(recorded, k, f)
  {
    ZeroIsNothing(f);
    PlusAdds(ZERO, redis[k], f);
  }

  /** Otherwise row and hot bucket are added up. */
  lemma FromRowAndHot(q: Query, src: Sources, merged: set<Key>, row: Counters, recorded: seq<Entry>, k: Key, f: Field)
    requires Complete(src, recorded) && RowField(f) && Wanted(q, k) && k !in merged
    requires row == Bump(ZERO, src.stored, k)
    ensures Value(WithHot(q, merged, row, src.hot, k), f) == Total(recorded, k, f)
  {
    ZeroIsNothing(f);
    BumpAdds(ZERO, src.stored, k, f);
    BumpAdds(row, src.hot, k, f);
  }

  function SourcesOf(s: State, redis: map<Key, Counters>): Sources {
    Sources(s.stored, redis, map k | k in s.hot && s.hot[k] < |s.objects| :: s.objects[s.hot[k]])
  }

  /** After any run of recording and flushing whose adds and deletions land and that leaves no flush in
      flight, with Redis hashes that are complete or gone, the series of every allowed bucket is what was
      recorded. */
  lemma RunThenQuery(now: int, events: seq<Event>, w: int, redis: map<Key, Counters>, q: Query, series: Buckets, k: Key,
                     f: Field)
    requires Width(w) && AllLand(Start(now), events, w)
    requires Run(Start(now), events, w).flight.Resting?
    requires IsSeries(q, SourcesOf(Run(Start(now), events, w), redis), series)
    requires RedisComplete(redis, Run(Start(now), events, w).recorded)
    requires Wanted(q, k) && RowField(f)
    ensures Value(Reported(series, k), f) == Total(Run(Start(now), events, w).recorded, k, f)
  {
    var s := Run(Start(now), events, w);
    ConservedExactly(now, events, w);
    StartConserves(now);
    EndConserved(Start(now), events, w);
    RestIsComplete(s, redis);
    SeriesIsTotal(q, SourcesOf(s, redis), series, s.recorded, k, f);
  }

  lemma RestIsComplete(s: State, redis: map<Key, Counters>)
    requires Based(s) && AllConserved(s) && s.flight.Resting? && RedisComplete(redis, s.recorded)
    ensures Complete(SourcesOf(s, redis), s.recorded)
  {
    var src := SourcesOf(s, redis);
    forall j, g | RowField(g) ensures Value(RowAt(src.stored, j), g) + Value(RowAt(src.hot, j), g) == Total(s.recorded,
        j, g) {
      assert Conserved(s, j, g);
      ZeroIsNothing(g);
    }
  }

  // Summarizing one series.

  function PlaceTs(ts: int, sorted: seq<int>): (r: seq<int>)
    ensures forall t :: t in r <==> t == ts || t in sorted
  {
    if sorted == [] || ts <= sorted[0] then [ts] + sorted else [sorted[0]] + PlaceTs(ts, sorted[1..])
  }

  ghost predicate Ascending(s: seq<int>) { forall i, j :: 0 <= i < j < |s| ==> s[i] < s[j] }

  lemma AscendingCons(ts: int, rest: seq<int>)
    requires Ascending(rest) && forall t :: t in rest ==> ts < t
    ensures Ascending([ts] + rest)
  {
    var all := [ts] + rest;
    forall j | 0 < j < |all| ensures ts < all[j] { assert all[j] == rest[j - 1] && rest[j - 1] in rest; }
  }

  lemma AscendingTail(s: seq<int>)
    requires Ascending(s) && s != []
    ensures Ascending(s[1..]) && forall t :: t in s[1..] ==> s[0] < t
  {}

  lemma {:induction false} PlaceTsAscending(ts: int, sorted: seq<int>)
    requires Ascending(sorted) && ts !in sorted
    ensures Ascending(PlaceTs(ts, sorted))
  {
    if sorted == [] {
    } else {
      AscendingTail(sorted);
      if ts < sorted[0] {
        AscendingCons(ts, sorted);
      } else {
        PlaceTsAscending(ts, sorted[1..]);
        AscendingCons(sorted[0], PlaceTs(ts, sorted[1..]));
      }
    }
  }

  function PointAt(values: map<int, Counters>, ts: int): Counters { if ts in values then values[ts] else ZERO }

  function SumOver(values: map<int, Counters>, order: seq<int>, f: Field): int {
    if order == [] then 0
    else SumOver(values, order[..|order| - 1], f) + Value(PointAt(values, order[|order| - 1]), f)
  }

  /** Every bucket of the series once, in time order, and the sum of them all. */
  method SummarizeMetricBuckets(values: map<int, Counters>) returns (total: Counters, order: seq<int>)
    ensures Ascending(order) && forall t :: t in order <==> t in values
    ensures forall f :: Value(total, f) == SumOver(values, order, f)
  {
    order := [];
    var left := values.Items;
    while left != {}
      invariant left <= values.Items && Ascending(order)
      invariant forall t :: t in order <==> t in values && (t, values[t]) !in left
    {
      var entry :| entry in left;
      var ts := entry.0;
      PlaceTsAscending(ts, order);
      order, left := PlaceTs(ts, order), left - {entry};
    }
    total := ZERO;
    forall f { ZeroIsNothing(f); }
    var i := 0;
    while i < |order|
      invariant 0 <= i <= |order|
      invariant forall f :: Value(total, f) == SumOver(values, order[..i], f)
    {
      assert order[i] in order && order[..i + 1][..i] == order[..i];
      var value := values[order[i]];
      forall f { PlusAdds(total, value, f); }
      total := Plus(total, value);
      i := i + 1;
    }
    assert order[..i] == order;
  }
}
