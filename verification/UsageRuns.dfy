/** Inserts, one rebuild worker and one archiver, interleaved at every read, write and commit. */
module UsageRuns {
  import opened UsageDaily

  /** How far a rebuild has come. */
  datatype Rebuild =
    | Idle
    | SawMax(max: nat)
    | SawCursor(max: nat, cursor: Option<nat>)
    | Reading(max: nat, days: set<int>, users: Table, channels: Table, usersSeen: set<nat>, channelsSeen: set<nat>)

  /** How far the archiver has come. */
  datatype Archive =
    | Waiting
    | ReadBound(bound: nat)
    | Selected(batch: seq<Log>, cutoff: int, cursor: nat)
    | Stored(batch: seq<Log>, cutoff: int, cursor: nat)

  /** The databases and the sink; `all` and `counted` are history: every log ever inserted, and the
      ids of the consume logs some committed rebuild aggregated into both tables. */
  datatype State = State(
    live: seq<Log>,
    users: Table,
    channels: Table,
    cursor: Option<nat>,
    sink: set<Log>,
    rebuild: Rebuild,
    archive: Archive,
    all: seq<Log>,
    counted: set<nat>)

  const EMPTY: State := State([], map[], map[], None, {}, Idle, Waiting, [], {})

  datatype Event =
    | Insert(log: Log)
    | ReadMax
    | ReadCursor
    | ReadDays(today: int)
    | ReadUsers(day: int)
    | ReadChannels(day: int)
    | Commit
    | RebuildFails
    | ReadArchiveCursor
    | Select(cutoff: int, limit: nat)
    | Store(ok: bool)
    | Delete(ok: bool)

  /** Ids of the live consume logs of a day. */
  function SeenOn(logs: seq<Log>, day: int): set<nat> {
    set i | 0 <= i < |logs| && On(logs[i], day) :: logs[i].id
  }

  /** One step; an event that does not apply leaves the state alone. Log ids become visible in
      increasing order. */
  function Step(s: State, e: Event): State {
    match e
    case Insert(log) =>
      if log.id > MaxId(s.all) then s.(live := s.live + [log], all := s.all + [log]) else s
    case ReadMax =>
      if s.rebuild.Idle? then s.(rebuild := SawMax(MaxId(s.live))) else s
    case ReadCursor =>
      if s.rebuild.SawMax? then s.(rebuild := SawCursor(s.rebuild.max, s.cursor)) else s
    case ReadDays(today) =>
      if s.rebuild.SawCursor? then
        var max, cursor := s.rebuild.max, s.rebuild.cursor;
        var full := NeedsFullBackfill(cursor, max, s.users, s.channels);
        s.(rebuild := Reading(max, AffectedDays(s.live, today, cursor, max, full), map[], map[], {}, {}))
      else s
    case ReadUsers(day) =>
      if s.rebuild.Reading? && day in s.rebuild.days && day !in s.rebuild.users then
        s.(rebuild := s.rebuild.(users := s.rebuild.users[day := Aggregate(s.live, day, ByUser)],
                                 usersSeen := s.rebuild.usersSeen + SeenOn(s.live, day)))
      else s
    case ReadChannels(day) =>
      if s.rebuild.Reading? && day in s.rebuild.days && day !in s.rebuild.channels then
        s.(rebuild := s.rebuild.(channels := s.rebuild.channels[day := Aggregate(s.live, day, ByChannel)],
                                 channelsSeen := s.rebuild.channelsSeen + SeenOn(s.live, day)))
      else s
    case Commit =>
      if s.rebuild.Reading? && s.rebuild.users.Keys == s.rebuild.days == s.rebuild.channels.Keys then
        s.(users := Replaced(s.users, s.rebuild.users), channels := Replaced(s.channels, s.rebuild.channels),
           cursor := Some(s.rebuild.max), rebuild := Idle,
           counted := s.counted + s.rebuild.usersSeen * s.rebuild.channelsSeen)
      else s
    case RebuildFails => s.(rebuild := Idle)
    case ReadArchiveCursor =>
      if s.archive.Waiting? && s.cursor.Some? && s.cursor.value > 0 then s.(archive := ReadBound(s.cursor.value)) else s
    case Select(cutoff, limit) =>
      if s.archive.ReadBound? && limit > 0 then
        var batch := ArchiveBatch(s.live, cutoff, s.archive.bound, limit);
        s.(archive := if batch == [] then Waiting else Selected(batch, cutoff, s.archive.bound))
      else s
    case Store(ok) =>
      if !s.archive.Selected? then s
      else if !ok then s.(archive := Waiting)
      else s.(sink := s.sink + (set l | l in s.archive.batch),
              archive := Stored(s.archive.batch, s.archive.cutoff, s.archive.cursor))
    case Delete(ok) =>
      if !s.archive.Stored? then s
      else if !ok then s.(archive := Waiting)
      else s.(live := Deleted(s.live, s.archive.batch, s.archive.cutoff, s.archive.cursor), archive := Waiting)
  }

  function Run(s: State, events: seq<Event>): State
    decreases |events|
  {
    if events == [] then s else Run(Step(s, events[0]), events[1..])
  }

  // Archive safety.

  ghost predicate Increasing(logs: seq<Log>) {
    && (forall i, j :: 0 <= i < j < |logs| ==> logs[i].id < logs[j].id)
    && (forall i :: 0 <= i < |logs| ==> logs[i].id > 0)
  }

  ghost predicate CountedUpTo(s: State, bound: nat) {
    forall l :: l in s.all && l.consume && l.id <= bound ==> l.id in s.counted
  }

  /** A log that is gone from the live table is in the sink and has been counted. */
  ghost predicate Accounted(s: State, l: Log) {
    l in s.live || (l in s.sink && (l.consume ==> l.id in s.counted))
  }

  /** Whatever a rebuild in progress still has to cover is on one of its days, and the days it has
      read saw it. */
  ghost predicate RebuildOk(s: State) {
    match s.rebuild
    case Idle => true
    case SawMax(max) => max <= MaxId(s.all)
    case SawCursor(max, cursor) => max <= MaxId(s.all) && cursor == s.cursor
    case Reading(max, days, users, channels, usersSeen, channelsSeen) =>
      && max <= MaxId(s.all)
      && (forall l :: l in s.all && l.consume && l.id <= max && l.id !in s.counted ==>
            && Day(l) in days
            && (Day(l) in users ==> l.id in usersSeen)
            && (Day(l) in channels ==> l.id in channelsSeen))
  }

  ghost predicate ArchiveOk(s: State) {
    match s.archive
    case Waiting => true
    case ReadBound(bound) => bound <= MaxId(s.all) && CountedUpTo(s, bound)
    case Selected(batch, cutoff, cursor) =>
      forall l :: l in batch ==> l in s.all && Eligible(l, cutoff, cursor) && (l.consume ==> l.id in s.counted)
    case Stored(batch, cutoff, cursor) =>
      forall l :: l in batch ==> l in s.all && l in s.sink && Eligible(l, cutoff, cursor) && (l.consume ==>
        l.id in s.counted)
  }

  ghost predicate Safe(s: State) {
    && Increasing(s.all)
    && (forall l :: l in s.live ==> l in s.all)
    && (forall l :: l in s.all ==> Accounted(s, l))
    && (s.cursor.Some? ==> s.cursor.value <= MaxId(s.all) && CountedUpTo(s, s.cursor.value))
    && (s.cursor.None? ==> s.users == map[] && s.channels == map[])
    && RebuildOk(s)
    && ArchiveOk(s)
  }

  lemma MaxIdIn(logs: seq<Log>, l: Log)
    requires l in logs
    ensures l.id <= MaxId(logs)
  {}

  lemma {:induction false} MaxIdAppend(logs: seq<Log>, log: Log)
    requires log.id > MaxId(logs)
    ensures MaxId(logs + [log]) == log.id
  {
    if logs == [] {
      assert logs + [log] == [log] && [log][1..] == [];
    } else {
      assert (logs + [log])[1..] == logs[1..] + [log];
      MaxIdAppend(logs[1..], log);
    }
  }

  lemma IncreasingAppend(logs: seq<Log>, log: Log)
    requires Increasing(logs) && log.id > MaxId(logs)
    ensures Increasing(logs + [log])
  {}

  lemma InsertSafe(s: State, log: Log)
    requires Safe(s)
    ensures Safe(Step(s, Insert(log)))
  {
    if log.id > MaxId(s.all) {
      var t := Step(s, Insert(log));
      MaxIdAppend(s.all, log);
      assert forall l :: l in t.all <==> l in s.all || l == log;
      assert forall l :: l in t.live <==> l in s.live || l == log;
      IncreasingAppend(s.all, log);
      forall l | l in t.all ensures Accounted(t, l) { if l in s.all { assert Accounted(s, l); } }
      InsertKeepsRebuild(s, log);
    }
  }

  lemma InsertKeepsRebuild(s: State, log: Log)
    requires Safe(s) && log.id > MaxId(s.all)
    ensures RebuildOk(Step(s, Insert(log)))
  {
    MaxIdAppend(s.all, log);
    assert forall l :: l in s.all + [log] <==> l in s.all || l == log;
  }

  /** A live log that is not counted yet is past the cursor. */
  lemma ReadDaysSafe(s: State, today: int)
    requires Safe(s)
    ensures Safe(Step(s, ReadDays(today)))
  {
    if s.rebuild.SawCursor? {
      var t := Step(s, ReadDays(today));
      var max, cursor := s.rebuild.max, s.rebuild.cursor;
      forall l | l in s.all && l.consume && l.id <= max && l.id !in s.counted ensures Day(l) in t.rebuild.days {
        assert Accounted(s, l);
        var i :| 0 <= i < |s.live| && s.live[i] == l;
        var j :| 0 <= j < |s.all| && s.all[j] == l;
        assert l.id > 0;
      }
    }
  }

  lemma ReadSafe(s: State, e: Event)
    requires Safe(s) && (e.ReadUsers? || e.ReadChannels?)
    ensures Safe(Step(s, e))
  {
    if s.rebuild.Reading? {
      forall l | l in s.all && l.consume && l.id !in s.counted && Day(l) == e.day ensures l.id in SeenOn(s.live,
          e.day) {
        assert Accounted(s, l);
        var i :| 0 <= i < |s.live| && s.live[i] == l;
      }
    }
  }

  lemma CommitSafe(s: State)
    requires Safe(s)
    ensures Safe(Step(s, Commit))
  {
    if s.rebuild.Reading? && s.rebuild.users.Keys == s.rebuild.days == s.rebuild.channels.Keys {
      var t := Step(s, Commit);
      forall l | l in t.all && l.consume && l.id <= t.cursor.value ensures l.id in t.counted {}
      forall l | l in t.all ensures Accounted(t, l) { assert Accounted(s, l); }
    }
  }

  lemma SelectSafe(s: State, cutoff: int, limit: nat)
    requires Safe(s)
    ensures Safe(Step(s, Select(cutoff, limit)))
  {
    if s.archive.ReadBound? { BatchMembers(s.live, cutoff, s.archive.bound, limit); }
  }

  lemma {:induction false} RemainingMembers(logs: seq<Log>, ids: set<nat>, cutoff: int, cursor: nat)
    ensures forall l :: l in Remaining(logs, ids, cutoff, cursor) <==>
      l in logs && !(l.id in ids && Eligible(l, cutoff, cursor))
  {
    if logs != [] {
      RemainingMembers(logs[1..], ids, cutoff, cursor);
      assert forall l :: l in logs <==> l == logs[0] || l in logs[1..];
    }
  }

  lemma SameId(all: seq<Log>, a: Log, b: Log)
    requires Increasing(all) && a in all && b in all && a.id == b.id
    ensures a == b
  {
    var i :| 0 <= i < |all| && all[i] == a;
    var j :| 0 <= j < |all| && all[j] == b;
    assert i == j;
  }

  lemma DeleteSafe(s: State, ok: bool)
    requires Safe(s)
    ensures Safe(Step(s, Delete(ok)))
  {
    if s.archive.Stored? && ok {
      var t := Step(s, Delete(ok));
      RemainingMembers(s.live, Ids(s.archive.batch), s.archive.cutoff, s.archive.cursor);
      forall l | l in t.all ensures Accounted(t, l) {
        assert Accounted(s, l);
        if l in s.live && l !in t.live {
          var i :| 0 <= i < |s.archive.batch| && s.archive.batch[i].id == l.id;
          SameId(s.all, l, s.archive.batch[i]);
        }
      }
    }
  }

  lemma StoreSafe(s: State, ok: bool)
    requires Safe(s)
    ensures Safe(Step(s, Store(ok)))
  {
    var t := Step(s, Store(ok));
    forall l | l in t.all ensures Accounted(t, l) { assert Accounted(s, l); }
  }

  lemma ReadMaxSafe(s: State)
    requires Safe(s)
    ensures Safe(Step(s, ReadMax))
  {
    if MaxId(s.live) > 0 {
      var i :| 0 <= i < |s.live| && s.live[i].id == MaxId(s.live);
      MaxIdIn(s.all, s.live[i]);
    }
    assert forall l :: Accounted(s, l) <==> Accounted(Step(s, ReadMax), l);
  }

  /** Steps that only move a worker on. */
  lemma QuietSafe(s: State, e: Event)
    requires Safe(s) && (e.ReadCursor? || e.RebuildFails? || e.ReadArchiveCursor?)
    ensures Safe(Step(s, e))
  {
    assert forall l :: Accounted(s, l) <==> Accounted(Step(s, e), l);
  }

  lemma StepSafe(s: State, e: Event)
    requires Safe(s)
    ensures Safe(Step(s, e))
  {
    match e
    case Insert(log) => InsertSafe(s, log);
    case ReadMax => ReadMaxSafe(s);
    case ReadCursor => QuietSafe(s, e);
    case ReadDays(today) => ReadDaysSafe(s, today);
    case ReadUsers(_) => ReadSafe(s, e);
    case ReadChannels(_) => ReadSafe(s, e);
    case Commit => CommitSafe(s);
    case RebuildFails => QuietSafe(s, e);
    case ReadArchiveCursor => QuietSafe(s, e);
    case Select(cutoff, limit) => SelectSafe(s, cutoff, limit);
    case Store(ok) => StoreSafe(s, ok);
    case Delete(ok) => DeleteSafe(s, ok);
  }

  /** Under every interleaving, every log ever inserted is still live, or is in the sink and, if it is
      a consume log, was counted by a committed rebuild. */
  lemma {:induction false} RunSafe(s: State, events: seq<Event>)
    requires Safe(s)
    ensures Safe(Run(s, events))
    decreases |events|
  {
    if events != [] {
      StepSafe(s, events[0]);
      RunSafe(Step(s, events[0]), events[1..]);
    }
  }

  lemma NothingLost(events: seq<Event>, l: Log)
    requires l in Run(EMPTY, events).all
    ensures Accounted(Run(EMPTY, events), l)
  {
    RunSafe(EMPTY, events);
  }

  /** A delete removes exactly the stored batch, or nothing. */
  lemma DeleteIsExact(events: seq<Event>, ok: bool)
    requires Run(EMPTY, events).archive.Stored?
    ensures var s := Run(EMPTY, events);
      var t := Step(s, Delete(ok));
      || t.live == s.live
      || (forall l :: l in t.live <==> l in s.live && l !in s.archive.batch)
  {
    RunSafe(EMPTY, events);
    DeleteExact(Run(EMPTY, events), ok);
  }

  lemma DeleteExact(s: State, ok: bool)
    requires Safe(s) && s.archive.Stored?
    ensures var t := Step(s, Delete(ok));
      t.live == s.live || (forall l :: l in t.live <==> l in s.live && l !in s.archive.batch)
  {
    var batch := s.archive.batch;
    RemainingMembers(s.live, Ids(batch), s.archive.cutoff, s.archive.cursor);
    forall l | l in s.live ensures l in batch <==> l.id in Ids(batch) && Eligible(l, s.archive.cutoff,
        s.archive.cursor) {
      if l.id in Ids(batch) {
        var i :| 0 <= i < |batch| && batch[i].id == l.id;
        SameId(s.all, l, batch[i]);
      }
    }
  }

  // The read model, as long as nothing is archived.

  /** Rows that aggregate some prefix of the log holding at least every log up to c. */
  ghost predicate RowsCover(all: seq<Log>, rows: DayRows, day: int, kind: Identity, c: nat) {
    exists n: nat :: n <= |all| && Past(all, n, c) && rows == Aggregate(all[..n], day, kind)
  }

  /** Every log from position n on is past c. */
  ghost predicate Past(all: seq<Log>, n: nat, c: nat)
  {
    forall i :: n <= i < |all| ==> all[i].id > c
  }

  function CursorOf(s: State): nat { if s.cursor.Some? then s.cursor.value else 0 }

  /** The rows a rebuild has read for its days cover up to its largest id. */
  ghost predicate RowsReach(all: seq<Log>, rows: Table, kind: Identity, max: nat) {
    forall d :: d in rows ==> RowsCover(all, rows[d], d, kind, max)
  }

  lemma ReadReaches(all: seq<Log>, rows: Table, day: int, kind: Identity, max: nat)
    requires RowsReach(all, rows, kind, max)
    ensures RowsReach(all, rows[day := Aggregate(all, day, kind)], kind, max)
  {
    CoverNow(all, day, kind, max);
  }

  lemma ReachKept(all: seq<Log>, log: Log, rows: Table, kind: Identity, max: nat)
    requires RowsReach(all, rows, kind, max) && log.id > max
    ensures RowsReach(all + [log], rows, kind, max)
  {
    forall d | d in rows ensures RowsCover(all + [log], rows[d], d, kind, max) {
      CoverKept(all, log, rows[d], d, kind, max);
    }
  }

  /** The rebuild's days hold every consume log it still has to add, and what it read covers them. */
  ghost predicate ReadingCovers(s: State) {
    s.rebuild.Reading? ==>
      && (forall l :: l in s.all && l.consume && CursorOf(s) < l.id <= s.rebuild.max ==> Day(l) in s.rebuild.days)
      && RowsReach(s.all, s.rebuild.users, ByUser, s.rebuild.max)
      && RowsReach(s.all, s.rebuild.channels, ByChannel, s.rebuild.max)
  }

  ghost predicate Covered(s: State) {
    && s.live == s.all
    && (forall d :: RowsCover(s.all, RowsOn(s.users, d), d, ByUser, CursorOf(s)))
    && (forall d :: RowsCover(s.all, RowsOn(s.channels, d), d, ByChannel, CursorOf(s)))
    && ReadingCovers(s)
  }

  lemma CoverKept(all: seq<Log>, log: Log, rows: DayRows, day: int, kind: Identity, c: nat)
    requires RowsCover(all, rows, day, kind, c) && log.id > c
    ensures RowsCover(all + [log], rows, day, kind, c)
  {
    var n: nat :| n <= |all| && Past(all, n, c) && rows == Aggregate(all[..n], day, kind);
    assert (all + [log])[..n] == all[..n];
    assert Past(all + [log], n, c);
  }

  lemma CoverNow(all: seq<Log>, day: int, kind: Identity, c: nat)
    ensures RowsCover(all, Aggregate(all, day, kind), day, kind, c)
  {
    assert all[..|all|] == all && Past(all, |all|, c);
  }

  /** The number of logs up to c, when ids increase. */
  function UpTo(all: seq<Log>, c: nat): (n: nat)
    ensures n <= |all| && Past(all, n, c)
    ensures n > 0 ==> all[n - 1].id <= c
  {
    if all == [] then 0
    else if all[|all| - 1].id > c then
      var n := UpTo(all[..|all| - 1], c);
      assert Past(all[..|all| - 1], n, c);
      assert forall i :: n <= i < |all| - 1 ==> all[i] == all[..|all| - 1][i];
      n
    else |all|
  }

  /** Rows of a day without consume logs between two cursors cover up to the later one. */
  lemma CoverAdvances(all: seq<Log>, rows: DayRows, day: int, kind: Identity, c: nat, max: nat)
    requires Increasing(all) && RowsCover(all, rows, day, kind, c)
    requires forall l :: l in all && c < l.id <= max ==> !On(l, day)
    ensures RowsCover(all, rows, day, kind, max)
  {
    var n: nat :| n <= |all| && Past(all, n, c) && rows == Aggregate(all[..n], day, kind);
    var k := UpTo(all, max);
    if n < k {
      forall i | n <= i < k ensures !On(all[i], day) {
        assert all[i] in all;
        if i < k - 1 { assert all[i].id < all[k - 1].id; }
      }
      AggregateSkips(all, n, k, day, kind);
    } else {
      assert Past(all, n, max);
    }
  }

  lemma InsertCovered(s: State, log: Log)
    requires Safe(s) && Covered(s)
    ensures Covered(Step(s, Insert(log)))
  {
    if log.id > MaxId(s.all) {
      var t := Step(s, Insert(log));
      forall d ensures RowsCover(t.all, RowsOn(t.users, d), d, ByUser, CursorOf(t)) {
        CoverKept(s.all, log, RowsOn(s.users, d), d, ByUser, CursorOf(s));
      }
      forall d ensures RowsCover(t.all, RowsOn(t.channels, d), d, ByChannel, CursorOf(t)) {
        CoverKept(s.all, log, RowsOn(s.channels, d), d, ByChannel, CursorOf(s));
      }
      if s.rebuild.Reading? {
        ReachKept(s.all, log, s.rebuild.users, ByUser, s.rebuild.max);
        ReachKept(s.all, log, s.rebuild.channels, ByChannel, s.rebuild.max);
      }
    }
  }

  lemma ReadDaysCovered(s: State, today: int)
    requires Safe(s) && Covered(s)
    ensures Covered(Step(s, ReadDays(today)))
  {
    if s.rebuild.SawCursor? {
      var t := Step(s, ReadDays(today));
      forall l | l in s.all && l.consume && CursorOf(s) < l.id <= t.rebuild.max ensures Day(l) in t.rebuild.days {
        var i :| 0 <= i < |s.live| && s.live[i] == l;
      }
    }
  }

  lemma ReadUsersCovered(s: State, day: int)
    requires Covered(s)
    ensures Covered(Step(s, ReadUsers(day)))
  {
    if s.rebuild.Reading? { ReadReaches(s.all, s.rebuild.users, day, ByUser, s.rebuild.max); }
  }

  lemma ReadChannelsCovered(s: State, day: int)
    requires Covered(s)
    ensures Covered(Step(s, ReadChannels(day)))
  {
    if s.rebuild.Reading? { ReadReaches(s.all, s.rebuild.channels, day, ByChannel, s.rebuild.max); }
  }

  lemma TableCovered(s: State, t: Table, rebuilt: Table, kind: Identity, d: int)
    requires Safe(s) && Covered(s) && s.rebuild.Reading? && rebuilt.Keys == s.rebuild.days
    requires RowsCover(s.all, RowsOn(t, d), d, kind, CursorOf(s))
    requires d in rebuilt ==> RowsCover(s.all, rebuilt[d], d, kind, s.rebuild.max)
    ensures RowsCover(s.all, RowsOn(Replaced(t, rebuilt), d), d, kind, s.rebuild.max)
  {
    if d !in rebuilt { CoverAdvances(s.all, RowsOn(t, d), d, kind, CursorOf(s), s.rebuild.max); }
  }

  lemma CommitCovered(s: State)
    requires Safe(s) && Covered(s)
    ensures Covered(Step(s, Commit))
  {
    if s.rebuild.Reading? && s.rebuild.users.Keys == s.rebuild.days == s.rebuild.channels.Keys {
      forall d { TableCovered(s, s.users, s.rebuild.users, ByUser, d); }
      forall d { TableCovered(s, s.channels, s.rebuild.channels, ByChannel, d); }
    }
  }

  lemma StepCovered(s: State, e: Event)
    requires Safe(s) && Covered(s) && !e.Delete?
    ensures Covered(Step(s, e))
  {
    match e
    case Insert(log) => InsertCovered(s, log);
    case ReadDays(today) => ReadDaysCovered(s, today);
    case ReadUsers(day) => ReadUsersCovered(s, day);
    case ReadChannels(day) => ReadChannelsCovered(s, day);
    case Commit => CommitCovered(s);
    case _ =>
  }

  lemma {:induction false} RunCovered(s: State, events: seq<Event>)
    requires Safe(s) && Covered(s) && forall e :: e in events ==> !e.Delete?
    ensures Covered(Run(s, events))
    decreases |events|
  {
    if events != [] {
      StepSafe(s, events[0]);
      StepCovered(s, events[0]);
      RunCovered(Step(s, events[0]), events[1..]);
    }
  }

  lemma EmptyCovered()
    ensures Safe(EMPTY) && Covered(EMPTY)
  {
    forall d, kind ensures RowsCover([], map[], d, kind, 0) { CoverNow([], d, kind, 0); }
  }

  /** In every insert-only run, every day's rows aggregate a prefix of the log that holds at least all
      logs up to the cursor. */
  lemma CursorIsCovered(events: seq<Event>, day: int)
    requires forall e :: e in events ==> !e.Delete?
    ensures var s := Run(EMPTY, events);
      && RowsCover(s.all, RowsOn(s.users, day), day, ByUser, CursorOf(s))
      && RowsCover(s.all, RowsOn(s.channels, day), day, ByChannel, CursorOf(s))
  {
    EmptyCovered();
    RunCovered(EMPTY, events);
  }

  /** Once the cursor has reached the last log, both tables are what aggregating all logs gives. */
  lemma CaughtUpIsFullAggregation(events: seq<Event>, day: int)
    requires forall e :: e in events ==> !e.Delete?
    requires var s := Run(EMPTY, events); CursorOf(s) == MaxId(s.all)
    ensures var s := Run(EMPTY, events);
      && RowsOn(s.users, day) == Aggregate(s.all, day, ByUser)
      && RowsOn(s.channels, day) == Aggregate(s.all, day, ByChannel)
  {
    CursorIsCovered(events, day);
    var s := Run(EMPTY, events);
    CoverAll(s.all, RowsOn(s.users, day), day, ByUser, CursorOf(s));
    CoverAll(s.all, RowsOn(s.channels, day), day, ByChannel, CursorOf(s));
  }

  /** Then each day's rows count and sum the consume logs of each user and each channel on that day. */
  lemma CaughtUpRowsAreSums(events: seq<Event>, day: int)
    requires forall e :: e in events ==> !e.Delete?
    requires var s := Run(EMPTY, events); CursorOf(s) == MaxId(s.all)
    ensures var s := Run(EMPTY, events);
      RowsAre(RowsOn(s.users, day), s.all, day, ByUser) && RowsAre(RowsOn(s.channels, day), s.all, day, ByChannel)
  {
    var s := Run(EMPTY, events);
    CaughtUpIsFullAggregation(events, day);
    AggregateIs(s.all, day, ByUser);
    AggregateIs(s.all, day, ByChannel);
  }

  lemma PastMax(all: seq<Log>, n: nat, c: nat)
    requires n < |all| && Past(all, n, c)
    ensures MaxId(all) > c
  {
    assert all[n].id > c;
  }

  lemma CoverAll(all: seq<Log>, rows: DayRows, day: int, kind: Identity, c: nat)
    requires RowsCover(all, rows, day, kind, c) && c == MaxId(all)
    ensures rows == Aggregate(all, day, kind)
  {
    var n: nat :| n <= |all| && Past(all, n, c) && rows == Aggregate(all[..n], day, kind);
    if n < |all| { PastMax(all, n, c); }
    assert all[..n] == all;
  }
}
