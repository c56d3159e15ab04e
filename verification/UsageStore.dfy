/** The worker's own code, run without interference: one rebuild and one archive batch. */
module UsageStore {
  import opened UsageDaily
  import opened UsageRuns

  function InsertDay(day: int, sorted: seq<int>): (r: seq<int>)
    ensures forall d :: d in r <==> d == day || d in sorted
  {
    if sorted == [] || day <= sorted[0] then [day] + sorted else [sorted[0]] + InsertDay(day, sorted[1..])
  }

  ghost predicate Ascending(days: seq<int>) { forall i, j :: 0 <= i < j < |days| ==> days[i] < days[j] }

  lemma {:induction false} InsertDayAscending(day: int, sorted: seq<int>)
    requires Ascending(sorted) && day !in sorted
    ensures Ascending(InsertDay(day, sorted))
  {
    if sorted != [] && day > sorted[0] {
      InsertDayAscending(day, sorted[1..]);
      var rest := InsertDay(day, sorted[1..]);
      forall d | d in rest ensures sorted[0] < d {
        if d != day { var i :| 0 <= i < |sorted[1..]| && sorted[1..][i] == d; }
      }
      forall i | 0 <= i < |rest| ensures sorted[0] < rest[i] { assert rest[i] in rest; }
    }
  }

  function DaySet(days: seq<int>): set<int> { set d | d in days }

  /** What aggregating each of some days gives. */
  function Rebuilt(logs: seq<Log>, days: set<int>, kind: Identity): Table {
    map d | d in days :: Aggregate(logs, d, kind)
  }

  function Without(t: Table, days: seq<int>): Table { map d | d in t && d !in days :: t[d] }

  /** Deleting the rows of some days and inserting new ones for all of them replaces those days only. */
  lemma DeleteThenInsert(t: Table, days: seq<int>, rows: Table)
    requires rows.Keys == DaySet(days)
    ensures Without(t, days) + rows == Replaced(t, rows)
  {
    forall d ensures d in days <==> d in rows { assert d in DaySet(days) <==> d in days; }
  }

  /** The days a rebuild replaces when it has seen logs up to `max`. */
  function DaysUpTo(logs: seq<Log>, users: Table, channels: Table, cursor: Option<nat>, today: int,
                    max: nat): set<int> {
    AffectedDays(logs, today, cursor, max, NeedsFullBackfill(cursor, max, users, channels))
  }

  /** The days an undisturbed rebuild replaces. */
  function DaysOf(logs: seq<Log>, users: Table, channels: Table, cursor: Option<nat>, today: int): set<int> {
    DaysUpTo(logs, users, channels, cursor, today, MaxId(logs))
  }

  /** Older logs come first in a batch. */
  ghost predicate OldestFirst(logs: seq<Log>) { forall i, j :: 0 <= i < j < |logs| ==> !Older(logs[j], logs[i]) }

  lemma {:induction false} InsertOlderSorted(log: Log, sorted: seq<Log>)
    requires OldestFirst(sorted)
    ensures OldestFirst(InsertOlder(log, sorted))
  {
    if sorted == [] || !Older(sorted[0], log) {
      forall j | 0 <= j < |sorted| ensures !Older(sorted[j], log) {
        if j > 0 { assert !Older(sorted[j], sorted[0]); }
      }
    } else {
      InsertOlderSorted(log, sorted[1..]);
      var rest := InsertOlder(log, sorted[1..]);
      forall j | 0 <= j < |rest| ensures !Older(rest[j], sorted[0]) {
        assert rest[j] in rest;
        if rest[j] != log { var i :| 0 <= i < |sorted[1..]| && sorted[1..][i] == rest[j]; }
      }
    }
  }

  lemma {:induction false} OldestSorted(logs: seq<Log>)
    ensures OldestFirst(Oldest(logs))
  {
    if logs != [] {
      OldestSorted(logs[1..]);
      InsertOlderSorted(logs[0], Oldest(logs[1..]));
    }
  }

  /** No eligible log that a batch leaves behind is older than one it takes. */
  lemma BatchIsOldest(logs: seq<Log>, cutoff: int, cursor: nat, limit: nat, left: Log, taken: Log)
    requires left in logs && left.createdAt < cutoff && left.id <= cursor
    requires left !in ArchiveBatch(logs, cutoff, cursor, limit) && taken in ArchiveBatch(logs, cutoff, cursor, limit)
    ensures taken.createdAt < left.createdAt || (taken.createdAt == left.createdAt && taken.id <= left.id)
    ensures |ArchiveBatch(logs, cutoff, cursor, limit)| == limit
  {
    FilterMembers(logs, cutoff, cursor);
    var all := Oldest(Filter(logs, cutoff, cursor));
    OldestSorted(Filter(logs, cutoff, cursor));
    var j :| 0 <= j < |all| && all[j] == left;
    var i :| 0 <= i < |all[..limit]| && all[..limit][i] == taken;
    forall k | 0 <= k < limit ensures all[k] in all[..limit] { assert all[..limit][k] == all[k]; }
    assert j >= limit;
  }

  lemma {:induction false} RemainingCount(logs: seq<Log>, batch: seq<Log>, cutoff: int, cursor: nat)
    requires Increasing(logs) && forall l :: l in batch ==> l in logs
    ensures forall l :: l in Remaining(logs, Ids(batch), cutoff, cursor) <==>
      l in logs && !(l in batch && Eligible(l, cutoff, cursor))
  {
    RemainingMembers(logs, Ids(batch), cutoff, cursor);
    forall l | l in logs ensures l in batch <==> l.id in Ids(batch) {
      if l.id in Ids(batch) {
        var i :| 0 <= i < |batch| && batch[i].id == l.id;
        SameId(logs, l, batch[i]);
      }
    }
  }

  ghost predicate Distinct(logs: seq<Log>) { forall i, j :: 0 <= i < j < |logs| ==> logs[i] != logs[j] }

  function LogSet(logs: seq<Log>): set<Log> { set l | l in logs }

  lemma {:induction false} DistinctSize(logs: seq<Log>)
    requires Distinct(logs)
    ensures |LogSet(logs)| == |logs|
  {
    if logs != [] {
      DistinctSize(logs[1..]);
      assert LogSet(logs) == {logs[0]} + LogSet(logs[1..]);
    }
  }

  lemma {:induction false} InsertOlderDistinct(log: Log, sorted: seq<Log>)
    requires Distinct(sorted) && log !in sorted
    ensures Distinct(InsertOlder(log, sorted))
  {
    if sorted != [] && Older(sorted[0], log) {
      InsertOlderDistinct(log, sorted[1..]);
      var rest := InsertOlder(log, sorted[1..]);
      assert sorted[0] !in sorted[1..];
      forall j | 0 <= j < |rest| ensures rest[j] != sorted[0] { assert rest[j] in rest; }
    }
  }

  lemma {:induction false} OldestDistinct(logs: seq<Log>)
    requires Distinct(logs)
    ensures Distinct(Oldest(logs))
  {
    if logs != [] {
      OldestDistinct(logs[1..]);
      InsertOlderDistinct(logs[0], Oldest(logs[1..]));
    }
  }

  lemma {:induction false} FilterDistinct(logs: seq<Log>, cutoff: int, cursor: nat)
    requires Distinct(logs)
    ensures Distinct(Filter(logs, cutoff, cursor))
  {
    if logs != [] {
      FilterDistinct(logs[1..], cutoff, cursor);
      FilterMembers(logs[1..], cutoff, cursor);
      var rest := Filter(logs[1..], cutoff, cursor);
      forall j | 0 <= j < |rest| ensures rest[j] != logs[0] { assert rest[j] in rest; }
    }
  }

  lemma {:induction false} RemainingIncreasing(logs: seq<Log>, ids: set<nat>, cutoff: int, cursor: nat)
    requires Increasing(logs)
    ensures Increasing(Remaining(logs, ids, cutoff, cursor))
  {
    if logs != [] {
      RemainingIncreasing(logs[1..], ids, cutoff, cursor);
      RemainingMembers(logs[1..], ids, cutoff, cursor);
      TailIsLater(logs);
      IncreasingCons(logs[0], Remaining(logs[1..], ids, cutoff, cursor));
    }
  }

  lemma TailIsLater(logs: seq<Log>)
    requires logs != [] && Increasing(logs)
    ensures forall l :: l in logs[1..] ==> logs[0].id < l.id
  {
    forall l | l in logs[1..] ensures logs[0].id < l.id {
      var i :| 0 <= i < |logs[1..]| && logs[1..][i] == l;
    }
  }

  lemma IncreasingCons(log: Log, rest: seq<Log>)
    requires Increasing(rest) && log.id > 0 && forall l :: l in rest ==> log.id < l.id
    ensures Increasing([log] + rest)
  {}

  /** With unique ids the delete affects exactly as many rows as the batch holds. */
  lemma DeleteCommits(logs: seq<Log>, cutoff: int, cursor: nat, limit: nat)
    requires Increasing(logs)
    ensures var batch := ArchiveBatch(logs, cutoff, cursor, limit);
      && |logs| - |Remaining(logs, Ids(batch), cutoff, cursor)| == |batch|
      && Increasing(Deleted(logs, batch, cutoff, cursor))
      && forall l :: l in Deleted(logs, batch, cutoff, cursor) <==> l in logs && l !in batch
  {
    var batch := ArchiveBatch(logs, cutoff, cursor, limit);
    var rest := Remaining(logs, Ids(batch), cutoff, cursor);
    BatchMembers(logs, cutoff, cursor, limit);
    RemainingCount(logs, batch, cutoff, cursor);
    RemainingIncreasing(logs, Ids(batch), cutoff, cursor);
    FilterDistinct(logs, cutoff, cursor);
    OldestDistinct(Filter(logs, cutoff, cursor));
    assert Distinct(batch);
    DistinctSize(batch);
    DistinctSize(logs);
    DistinctSize(rest);
    assert LogSet(rest) == LogSet(logs) - LogSet(batch);
    assert LogSet(logs) == LogSet(rest) + LogSet(batch);
  }

  lemma IdsAppend(logs: seq<Log>, log: Log)
    ensures Ids(logs + [log]) == Ids(logs) + {log.id}
  {
    var all := logs + [log];
    forall x | x in Ids(logs) + {log.id} ensures x in Ids(all) {
      if x in Ids(logs) {
        var i :| 0 <= i < |logs| && logs[i].id == x;
        assert all[i].id == x;
      } else {
        assert all[|logs|].id == x;
      }
    }
  }

  /** The rows of every day aggregate a prefix of the logs that reaches the cursor. */
  ghost predicate TableCovers(logs: seq<Log>, t: Table, kind: Identity, c: nat) {
    forall d :: RowsCover(logs, RowsOn(t, d), d, kind, c)
  }

  ghost predicate TableIsFull(logs: seq<Log>, t: Table, kind: Identity) {
    forall d {:trigger Aggregate(logs, d, kind)} :: RowsOn(t, d) == Aggregate(logs, d, kind)
  }

  /** Such a table counts and sums the logs of every day. */
  lemma FullTableIs(logs: seq<Log>, t: Table, kind: Identity, day: int)
    requires TableIsFull(logs, t, kind)
    ensures RowsAre(RowsOn(t, day), logs, day, kind)
  {
    AggregateIs(logs, day, kind);
    assert RowsOn(t, day) == Aggregate(logs, day, kind);
  }

  /** Replacing the affected days of a covering table makes it the aggregation of all logs. */
  lemma ReplacedIsFull(logs: seq<Log>, t: Table, days: set<int>, kind: Identity, c: nat)
    requires Increasing(logs) && TableCovers(logs, t, kind, c)
    requires forall l :: l in logs && l.consume && l.id > c ==> Day(l) in days
    ensures TableIsFull(logs, Replaced(t, Rebuilt(logs, days, kind)), kind)
  {
    forall d ensures RowsOn(Replaced(t, Rebuilt(logs, days, kind)), d) == Aggregate(logs, d, kind) {
      if d !in days {
        CoverAdvances(logs, RowsOn(t, d), d, kind, c, MaxId(logs));
        CoverAll(logs, RowsOn(t, d), d, kind, MaxId(logs));
      }
    }
  }

  lemma FullCovers(logs: seq<Log>, t: Table, kind: Identity, c: nat)
    requires TableIsFull(logs, t, kind)
    ensures TableCovers(logs, t, kind, c)
  {
    forall d ensures RowsCover(logs, RowsOn(t, d), d, kind, c) { CoverNow(logs, d, kind, c); }
  }

  /** The affected days hold every consume log past the cursor. */
  lemma DaysReach(logs: seq<Log>, users: Table, channels: Table, cursor: Option<nat>, today: int, l: Log)
    requires Increasing(logs) && l in logs && l.consume
    requires cursor.None? ==> users == map[] && channels == map[]
    requires cursor.Some? ==> l.id > cursor.value && cursor.value <= MaxId(logs)
    ensures Day(l) in DaysOf(logs, users, channels, cursor, today)
  {
    var i :| 0 <= i < |logs| && logs[i] == l;
  }

  lemma RebuildIsFull(logs: seq<Log>, users: Table, channels: Table, cursor: Option<nat>, today: int)
    requires Increasing(logs) && (cursor.None? ==> users == map[] && channels == map[])
    requires cursor.Some? ==> cursor.value <= MaxId(logs)
    requires var c := if cursor.Some? then cursor.value else 0;
      TableCovers(logs, users, ByUser, c) && TableCovers(logs, channels, ByChannel, c)
    ensures var days := DaysOf(logs, users, channels, cursor, today);
      && FullAndCovering(logs, Replaced(users, Rebuilt(logs, days, ByUser)), ByUser)
      && FullAndCovering(logs, Replaced(channels, Rebuilt(logs, days, ByChannel)), ByChannel)
  {
    var c := if cursor.Some? then cursor.value else 0;
    var days := DaysOf(logs, users, channels, cursor, today);
    forall l | l in logs && l.consume && l.id > c ensures Day(l) in days {
      DaysReach(logs, users, channels, cursor, today, l);
    }
    ReplacedIsFull(logs, users, days, ByUser, c);
    ReplacedIsFull(logs, channels, days, ByChannel, c);
    FullCovers(logs, Replaced(users, Rebuilt(logs, days, ByUser)), ByUser, MaxId(logs));
    FullCovers(logs, Replaced(channels, Rebuilt(logs, days, ByChannel)), ByChannel, MaxId(logs));
  }

  ghost predicate FullAndCovering(logs: seq<Log>, t: Table, kind: Identity) {
    TableIsFull(logs, t, kind) && TableCovers(logs, t, kind, MaxId(logs))
  }

  class UsageWorker {
    var live: seq<Log>
    var users: Table
    var channels: Table
    var cursor: Option<nat>
    var sink: set<Log>

    ghost predicate Valid()
      reads this
    {
      && Increasing(live)
      && (cursor.None? ==> users == map[] && channels == map[])
    }

    function Reached(): nat
      reads this
    {
      if cursor.Some? then cursor.value else 0
    }

    /** Insert-only so far: both tables cover the logs up to the cursor. */
    ghost predicate Covering()
      reads this
    {
      && Valid() && Reached() <= MaxId(live)
      && TableCovers(live, users, ByUser, Reached()) && TableCovers(live, channels, ByChannel, Reached())
    }

    constructor ()
      ensures Covering() && live == []
    {
      live, users, channels, cursor, sink := [], map[], map[], None, {};
      new;
      forall d, kind ensures RowsCover([], map[], d, kind, 0) { CoverNow([], d, kind, 0); }
    }

    method Insert(log: Log)
      requires Valid() && log.id > MaxId(live)
      modifies `live
      ensures Valid() && live == old(live) + [log]
      ensures old(Covering()) ==> Covering()
    {
      ghost var before := live;
      IncreasingAppend(live, log);
      MaxIdAppend(live, log);
      live := live + [log];
      if old(Covering()) {
        forall d { CoverKept(before, log, RowsOn(users, d), d, ByUser, Reached()); }
        forall d { CoverKept(before, log, RowsOn(channels, d), d, ByChannel, Reached()); }
      }
    }

    method AffectedUsageDays(today: int, max: nat) returns (days: seq<int>)
      requires Valid()
      ensures Ascending(days)
      ensures forall d :: d in days <==> d in DaysUpTo(live, users, channels, cursor, today, max)
    {
      var wanted := {today, today - 1};
      var full := NeedsFullBackfill(cursor, max, users, channels);
      var changed: set<int> := {};
      if cursor.Some? || full { changed := ChangedDays(live, Reached(), max, full); }
      var rest := changed;
      while rest != {}
        invariant rest <= changed && wanted == {today, today - 1} + (changed - rest)
      {
        var day :| day in rest;
        wanted, rest := wanted + {day}, rest - {day};
      }
      days := [];
      var left := wanted;
      while left != {}
        invariant left <= wanted && Ascending(days)
        invariant forall d :: d in days <==> d in wanted - left
      {
        var day :| day in left;
        InsertDayAscending(day, days);
        days, left := InsertDay(day, days), left - {day};
      }
    }

    method AggregateUsageDays(days: seq<int>) returns (userRows: Table, channelRows: Table)
      ensures userRows == Rebuilt(live, DaySet(days), ByUser)
      ensures channelRows == Rebuilt(live, DaySet(days), ByChannel)
    {
      userRows, channelRows := map[], map[];
      var i := 0;
      while i < |days|
        invariant 0 <= i <= |days|
        invariant userRows == Rebuilt(live, DaySet(days[..i]), ByUser)
        invariant channelRows == Rebuilt(live, DaySet(days[..i]), ByChannel)
      {
        assert DaySet(days[..i + 1]) == DaySet(days[..i]) + {days[i]} by {
          assert days[..i + 1] == days[..i] + [days[i]];
        }
        userRows := userRows[days[i] := Aggregate(live, days[i], ByUser)];
        channelRows := channelRows[days[i] := Aggregate(live, days[i], ByChannel)];
        i := i + 1;
      }
      assert days[..|days|] == days;
    }

    /** The replacement commits as a whole or not at all. */
    method ReplaceUsageDays(max: nat, days: seq<int>, userRows: Table, channelRows: Table, ok: bool)
      requires userRows.Keys == channelRows.Keys == DaySet(days)
      modifies `users, `channels, `cursor
      ensures users == if ok then Replaced(old(users), userRows) else old(users)
      ensures channels == if ok then Replaced(old(channels), channelRows) else old(channels)
      ensures cursor == if ok then Some(max) else old(cursor)
    {
      if ok {
        DeleteThenInsert(users, days, userRows);
        DeleteThenInsert(channels, days, channelRows);
        users := Without(users, days);
        channels := Without(channels, days);
        users := users + userRows;
        channels := channels + channelRows;
        cursor := Some(max);
      }
    }

    /** The rebuild's own reads and its commit. */
    method Rebuild(today: int, ok: bool)
      requires Valid()
      modifies `users, `channels, `cursor
      ensures cursor == if ok then Some(MaxId(live)) else old(cursor)
      ensures users == if ok then Replaced(old(users), Rebuilt(live, old(Days(today)), ByUser)) else old(users)
      ensures channels == if ok then Replaced(old(channels), Rebuilt(live, old(Days(today)), ByChannel))
        else old(channels)
    {
      var max := MaxId(live);
      var days := AffectedUsageDays(today, max);
      assert DaySet(days) == Days(today);
      var userRows, channelRows := AggregateUsageDays(days);
      ReplaceUsageDays(max, days, userRows, channelRows, ok);
    }

    ghost function Days(today: int): set<int>
      reads this
    {
      DaysOf(live, users, channels, cursor, today)
    }

    /** An undisturbed rebuild replaces the affected days with their aggregation, and makes covering
        tables the aggregation of all logs. */
    method RebuildUsageDailyAt(today: int, ok: bool)
      requires Valid()
      modifies `users, `channels, `cursor
      ensures Valid()
      ensures !ok ==> users == old(users) && channels == old(channels) && cursor == old(cursor)
      ensures ok ==> cursor == Some(MaxId(live))
      ensures ok ==> users == Replaced(old(users), Rebuilt(live, old(Days(today)), ByUser))
      ensures ok ==> channels == Replaced(old(channels), Rebuilt(live, old(Days(today)), ByChannel))
      ensures ok && old(Covering()) ==> TableIsFull(live, users, ByUser) && TableIsFull(live, channels, ByChannel)
      ensures old(Covering()) ==> Covering()
    {
      ghost var covering := Covering();
      ghost var was, wasChannels, from := users, channels, cursor;
      Rebuild(today, ok);
      if ok && covering { RebuildIsFull(live, was, wasChannels, from, today); }
    }

    /** The batch is in the sink before anything is deleted, and the delete takes the batch or nothing;
        logs past the cursor or younger than the retention stay. */
    method ArchiveOldLogsBatch(now: int, retentionDays: int, limit: int, storeOk: bool, deleteOk: bool)
      returns (deleted: nat)
      requires Valid()
      modifies `live, `sink
      ensures Valid()
      ensures deleted == |old(live)| - |live|
      ensures forall l :: l in sink <==>
        l in old(sink) || (storeOk && l in BatchOf(old(live), now, retentionDays, limit))
      ensures if storeOk && deleteOk
        then forall l :: l in live <==> l in old(live) && l !in BatchOf(old(live), now, retentionDays, limit)
        else live == old(live)
    {
      deleted := 0;
      if retentionDays <= 0 || limit <= 0 { return; }
      if cursor.None? || cursor.value == 0 { return; }
      var cutoff := now - retentionDays * 86400;
      var logs := ArchiveBatch(live, cutoff, cursor.value, limit);
      if |logs| == 0 { return; }
      var records: set<Log> := {};
      var ids: set<nat> := {};
      var i := 0;
      while i < |logs|
        invariant 0 <= i <= |logs|
        invariant forall l :: l in records <==> l in logs[..i]
        invariant ids == Ids(logs[..i])
        invariant live == old(live) && sink == old(sink)
      {
        assert logs[..i + 1] == logs[..i] + [logs[i]];
        IdsAppend(logs[..i], logs[i]);
        records, ids := records + {logs[i]}, ids + {logs[i].id};
        i := i + 1;
      }
      assert logs[..|logs|] == logs;
      if !storeOk { return; }
      sink := sink + records;
      if !deleteOk { return; }
      DeleteCommits(live, cutoff, cursor.value, limit);
      var rest := Remaining(live, ids, cutoff, cursor.value);
      if |live| - |rest| == |logs| {
        deleted := |logs|;
        live := rest;
      }
    }

    /** What one call may archive. */
    function BatchOf(logs: seq<Log>, now: int, retentionDays: int, limit: int): seq<Log>
      reads `cursor
    {
      if retentionDays <= 0 || limit <= 0 || cursor.None? || cursor.value == 0 then []
      else ArchiveBatch(logs, now - retentionDays * 86400, cursor.value, limit)
    }
  }
}
