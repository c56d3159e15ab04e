/** The shared bucket map and its database table: recording a sample, and one undisturbed flush. */
module HotStore {
  import opened Histogram
  import opened MetricCounters
  import opened HotRuns

  /** What a flush does to one bucket's row. */
  function FlushedRow(key: Key, c: Counters, row: Counters, current: int, ok: bool): Counters {
    if key.ts >= current || c.requests == 0 || !ok then row else Plus(row, RowPart(key, c))
  }

  /** What it leaves in the bucket. */
  function FlushedHot(key: Key, c: Counters, current: int, ok: bool): Counters {
    if key.ts >= current then c
    else if c.requests == 0 || ok then ZERO
    else Plus(ZERO, c)
  }

  /** Whether it forgets the bucket. */
  predicate Forgotten(key: Key, c: Counters, current: int, old24: int, ok: bool) {
    key.ts < current && (c.requests == 0 || ok) && key.ts < old24
  }

  /** Counters only move: what a bucket and its row hold together stays the same. */
  lemma FlushMoves(key: Key, c: Counters, row: Counters, current: int, ok: bool, f: Field)
    requires Whole(c) && Persisted(key, f)
    ensures Value(FlushedHot(key, c, current, ok), f) + Value(FlushedRow(key, c, row, current, ok), f)
         == Value(c, f) + Value(row, f)
  {
    ZeroIsNothing(f);
    PlusAdds(ZERO, c, f);
    PlusAdds(row, RowPart(key, c), f);
    RowKeeps(c, f);
  }

  /** A forgotten bucket holds nothing. */
  lemma ForgottenIsEmpty(key: Key, c: Counters, current: int, old24: int, ok: bool)
    requires Forgotten(key, c, current, old24, ok)
    ensures FlushedHot(key, c, current, ok) == ZERO
  {}

  ghost predicate FlushedOne(k: Key, c: Counters, hot: map<Key, Counters>, rows: map<Key, Counters>,
                             stored: map<Key, Counters>,
                       current: int, old24: int, ok: bool)
  {
    && RowAt(stored, k) == FlushedRow(k, c, RowAt(rows, k), current, ok)
    && (if Forgotten(k, c, current, old24, ok) then k !in hot else k in hot && hot[k] == FlushedHot(k, c, current, ok))
  }

  /** Every bucket went through the flush exactly once, and no row outside the map changed. */
  ghost predicate Flushed(was: map<Key, Counters>, hot: map<Key, Counters>, rows: map<Key, Counters>,
                          stored: map<Key, Counters>,
                    current: int, old24: int, failing: set<Key>)
  {
    && hot.Keys <= was.Keys
    && (forall k :: k in was ==> FlushedOne(k, was[k], hot, rows, stored, current, old24, k !in failing))
    && (forall k :: k !in was ==> RowAt(stored, k) == RowAt(rows, k))
  }

  function FlushedMap(hot: map<Key, Counters>, key: Key, current: int, old24: int, ok: bool): map<Key, Counters>
    requires key in hot
  {
    if Forgotten(key, hot[key], current, old24, ok) then hot - {key}
    else hot[key := FlushedHot(key, hot[key], current, ok)]
  }

  lemma YoungKept(hot: map<Key, Counters>, key: Key, row: Counters, current: int, old24: int, ok: bool)
    requires key in hot && key.ts >= current
    ensures FlushedMap(hot, key, current, old24, ok) == hot
    ensures FlushedRow(key, hot[key], row, current, ok) == row
  {
    assert hot[key := hot[key]] == hot;
  }

  /** Drained and settled is flushed. */
  lemma SettledIs(was: map<Key, Counters>, key: Key, row: Counters, current: int, old24: int, ok: bool,
                  left: map<Key, Counters>, newRow: Counters)
    requires key in was && key.ts < current
    requires left == if was[key].requests != 0 && !ok then was[key := ZERO][key := Plus(ZERO, was[key])]
                     else if key.ts < old24 then was[key := ZERO] - {key} else was[key := ZERO]
    requires newRow == if was[key].requests != 0 && ok then Plus(row, RowPart(key, was[key])) else row
    ensures left == FlushedMap(was, key, current, old24, ok)
    ensures newRow == FlushedRow(key, was[key], row, current, ok)
  {
    assert was[key := ZERO] - {key} == was - {key};
    assert was[key := ZERO][key := Plus(ZERO, was[key])] == was[key := Plus(ZERO, was[key])];
  }

  class MetricStore {
    var hot: map<Key, AtomicBucket>
    var stored: map<Key, Counters>
    /** What each bucket holds. */
    ghost var contents: map<Key, Counters>

    ghost predicate Valid()
      reads `hot, `contents, hot.Values
    {
      && (forall j, k :: j in hot && k in hot && j != k ==> hot[j] != hot[k])
      && contents.Keys == hot.Keys
      && (forall k :: k in hot ==> hot[k].Contents() == contents[k])
    }

    constructor ()
      ensures Valid() && hot == map[] && stored == map[]
    {
      hot, stored, contents := map[], map[], map[];
    }

    method LoadOrStore(key: Key)
      requires Valid()
      modifies `hot, `contents
      ensures Valid() && key in hot && fresh(hot.Values - old(hot.Values))
      ensures contents == old(contents)[key := RowAt(old(contents), key)]
    {
      if key !in hot {
        var bucket := new AtomicBucket();
        hot, contents := hot[key := bucket], contents[key := ZERO];
      }
    }

    method AddTo(key: Key, sample: Sample)
      requires Valid() && key in hot
      modifies `contents, hot[key]
      ensures Valid() && contents == old(contents)[key := Plus(old(contents)[key], OfSample(sample))]
    {
      hot[key].Add(sample);
      contents := contents[key := hot[key].Contents()];
    }

    /** The sample lands in its bucket, which is created on first use; no other bucket changes. */
    method RecordHotBucket(key: Key, sample: Sample)
      requires Valid()
      modifies `hot, `contents, hot.Values
      ensures Valid()
      ensures contents == old(contents)[key := Plus(RowAt(old(contents), key), OfSample(sample))]
    {
      LoadOrStore(key);
      AddTo(key, sample);
    }

    method DrainBucket(key: Key) returns (drained: Counters)
      requires Valid() && key in hot
      modifies `contents, hot[key]
      ensures Valid() && drained == old(contents)[key] && contents == old(contents)[key := ZERO]
    {
      drained := hot[key].Drain();
      contents := contents[key := hot[key].Contents()];
    }

    method RestoreBucket(key: Key, drained: Counters)
      requires Valid() && key in hot
      modifies `contents, hot[key]
      ensures Valid() && contents == old(contents)[key := Plus(old(contents)[key], drained)]
    {
      hot[key].AddCounters(drained);
      contents := contents[key := hot[key].Contents()];
    }

    method UpsertMetric(key: Key, c: Counters)
      modifies `stored
      ensures RowAt(stored, key) == Plus(RowAt(old(stored), key), RowPart(key, c))
      ensures forall k :: k != key ==> RowAt(stored, k) == RowAt(old(stored), k)
    {
      stored := stored[key := Plus(RowAt(stored, key), RowPart(key, c))];
    }

    /** What happens to counters once drained: dropped when empty, written, or put back. */
    method SettleDrained(key: Key, drained: Counters, old24: int, ok: bool)
      requires Valid() && key in hot && contents[key] == ZERO
      modifies this, hot[key]
      ensures Valid() && hot.Values <= old(hot.Values)
      ensures contents == if drained.requests != 0 && !ok then old(contents)[key := Plus(ZERO, drained)]
                          else if key.ts < old24 then old(contents) - {key} else old(contents)
      ensures drained.requests != 0 && ok ==> RowAt(stored, key) == Plus(RowAt(old(stored), key), RowPart(key, drained))
      ensures drained.requests == 0 || !ok ==> stored == old(stored)
      ensures forall k :: k != key ==> RowAt(stored, k) == RowAt(old(stored), k)
    {
      if drained.requests == 0 {
        DeleteOldEmptyBucket(key, old24);
        return;
      }
      if !ok {
        RestoreBucket(key, drained);
        return;
      }
      UpsertMetric(key, drained);
      DeleteOldEmptyBucket(key, old24);
    }

    /** One bucket: drain, upsert, put back on failure, forget when old. */
    method FlushBucket(key: Key, current: int, old24: int, ok: bool)
      requires Valid() && key in hot
      modifies this, hot[key]
      ensures Valid() && hot.Values <= old(hot.Values)
      ensures contents == FlushedMap(old(contents), key, current, old24, ok)
      ensures RowAt(stored, key) == FlushedRow(key, old(contents)[key], RowAt(old(stored), key), current, ok)
      ensures forall k :: k != key ==> RowAt(stored, k) == RowAt(old(stored), k)
    {
      ghost var was, row := contents, RowAt(stored, key);
      if key.ts >= current {
        YoungKept(was, key, row, current, old24, ok);
        return;
      }
      var drained := DrainBucket(key);
      SettleDrained(key, drained, old24, ok);
      SettledIs(was, key, row, current, old24, ok, contents, RowAt(stored, key));
    }

    method DeleteOldEmptyBucket(key: Key, old24: int)
      requires Valid()
      modifies `hot, `contents
      ensures Valid() && hot.Values <= old(hot.Values)
      ensures contents == if key.ts < old24 then old(contents) - {key} else old(contents)
    {
      if key.ts < old24 { hot, contents := hot - {key}, contents - {key}; }
    }

    /** Every bucket present is flushed once; the keys whose upsert fails are given by `failing`. */
    method FlushCompletedBuckets(now: int, w: int, failing: set<Key>)
      requires Valid() && Width(w)
      modifies this, hot.Values
      ensures Valid()
      ensures Flushed(old(contents), contents, old(stored), stored, BucketStart(now, w), BucketStart(now - DAY, w),
                      failing)
    {
      var current, old24 := BucketStart(now, w), BucketStart(now - DAY, w);
      ghost var was, rows := contents, stored;
      var todo := hot.Keys;
      while todo != {}
        invariant Valid() && hot.Values <= old(hot.Values) && todo <= contents.Keys
        invariant FlushedBut(was, contents, rows, stored, current, old24, failing, todo)
      {
        var key :| key in todo;
        ghost var before, table := contents, stored;
        FlushBucket(key, current, old24, key !in failing);
        OneMore(was, before, contents, rows, table, stored, current, old24, failing, todo, key);
        todo := todo - {key};
      }
    }
  }

  /** Every bucket but those still to do went through the flush. */
  ghost predicate FlushedBut(was: map<Key, Counters>, hot: map<Key, Counters>, rows: map<Key, Counters>,
                             stored: map<Key, Counters>, current: int, old24: int, failing: set<Key>, todo: set<Key>)
  {
    && todo <= hot.Keys <= was.Keys
    && (forall k :: k in todo ==> hot[k] == was[k])
    && (forall k :: k in todo || k !in was ==> RowAt(stored, k) == RowAt(rows, k))
    && (forall k :: k in was && k !in todo ==> FlushedOne(k, was[k], hot, rows, stored, current, old24, k !in failing))
  }

  lemma OneMore(was: map<Key, Counters>, before: map<Key, Counters>, hot: map<Key, Counters>, rows: map<Key, Counters>,
                table: map<Key, Counters>, stored: map<Key, Counters>, current: int, old24: int, failing: set<Key>,
                todo: set<Key>, key: Key)
    requires FlushedBut(was, before, rows, table, current, old24, failing, todo) && key in todo
    requires hot == FlushedMap(before, key, current, old24, key !in failing)
    requires RowAt(stored, key) == FlushedRow(key, before[key], RowAt(table, key), current, key !in failing)
    requires forall k :: k != key ==> RowAt(stored, k) == RowAt(table, k)
    ensures FlushedBut(was, hot, rows, stored, current, old24, failing, todo - {key})
  {
    forall k | k in was && k !in todo - {key}
      ensures FlushedOne(k, was[k], hot, rows, stored, current, old24, k !in failing)
    {
      if k != key { assert FlushedOne(k, was[k], before, rows, table, current, old24, k !in failing); }
    }
  }

  /** A flush conserves every field a row keeps, whatever fails. */
  lemma FlushConserves(was: map<Key, Counters>, hot: map<Key, Counters>, rows: map<Key, Counters>,
                       stored: map<Key, Counters>,
                       current: int, old24: int, failing: set<Key>, key: Key, f: Field)
    requires Flushed(was, hot, rows, stored, current, old24, failing)
    requires Persisted(key, f) && (key in was ==> Whole(was[key]))
    ensures Value(RowAt(hot, key), f) + Value(RowAt(stored, key), f) ==
      Value(RowAt(was, key), f) + Value(RowAt(rows, key), f)
  {
    if key in was {
      assert FlushedOne(key, was[key], hot, rows, stored, current, old24, key !in failing);
      FlushMoves(key, was[key], RowAt(rows, key), current, key !in failing, f);
      if Forgotten(key, was[key], current, old24, key !in failing) {
        ForgottenIsEmpty(key, was[key], current, old24, key !in failing);
      }
    }
  }
}
