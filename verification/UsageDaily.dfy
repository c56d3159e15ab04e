/** Daily usage read models: consume logs grouped by UTC day and by user or channel, the days a
    rebuild has to look at, and the batch an archiver may move out. */
module UsageDaily {

  datatype Log = Log(
    id: nat,
    createdAt: int,
    consume: bool,
    user: int,
    channel: int,
    prompt: int,
    completion: int,
    quota: int)

  datatype Totals = Totals(requests: int, prompt: int, completion: int, quota: int)

  datatype Identity = ByUser | ByChannel

  /** The rows of one day, by user or channel id. */
  type DayRows = map<int, Totals>

  /** A read-model table, by UTC day. */
  type Table = map<int, DayRows>

  datatype Option<T> = None | Some(value: T)

  function Day(log: Log): int { log.createdAt / 86400 }

  function IdOf(log: Log, kind: Identity): int { if kind.ByUser? then log.user else log.channel }

  function RowsOn(t: Table, day: int): DayRows { if day in t then t[day] else map[] }

  predicate On(log: Log, day: int) { log.consume && Day(log) == day }

  function Added(rows: DayRows, log: Log, kind: Identity): DayRows {
    var id := IdOf(log, kind);
    var was := if id in rows then rows[id] else Totals(0, 0, 0, 0);
    rows[id := Totals(was.requests + 1, was.prompt + log.prompt, was.completion + log.completion,
                      was.quota + log.quota)]
  }

  /** The rows one day's consume logs group into. */
  function Aggregate(logs: seq<Log>, day: int, kind: Identity): DayRows {
    if logs == [] then map[] else
      var last := logs[|logs| - 1];
      var rows := Aggregate(logs[..|logs| - 1], day, kind);
      if On(last, day) then Added(rows, last, kind) else rows
  }

  /** Logs of other days do not change a day's rows. */
  lemma {:induction false} AggregateSkips(logs: seq<Log>, n: nat, m: nat, day: int, kind: Identity)
    requires n <= m <= |logs| && forall i :: n <= i < m ==> !On(logs[i], day)
    ensures Aggregate(logs[..n], day, kind) == Aggregate(logs[..m], day, kind)
    decreases m
  {
    if n < m {
      AggregateSkips(logs, n, m - 1, day, kind);
      assert logs[..m][..m - 1] == logs[..m - 1] && logs[..m][m - 1] == logs[m - 1];
    }
  }

  // What the rows say, log by log.

  /** A consume log of the user or channel, stamped within the UTC day. */
  predicate Falls(log: Log, day: int, kind: Identity, id: int) {
    && log.consume && 86400 * day <= log.createdAt < 86400 * (day + 1)
    && (kind == ByUser ==> log.user == id) && (kind == ByChannel ==> log.channel == id)
  }

  datatype Measure = PromptTokens | CompletionTokens | Quota

  function Measured(log: Log, m: Measure): int {
    match m case PromptTokens => log.prompt case CompletionTokens => log.completion case Quota => log.quota
  }

  function CountOf(logs: seq<Log>, day: int, kind: Identity, id: int): nat {
    if logs == [] then 0
    else CountOf(logs[..|logs| - 1], day, kind, id) + if Falls(logs[|logs| - 1], day, kind, id) then 1 else 0
  }

  function SumOf(logs: seq<Log>, day: int, kind: Identity, id: int, m: Measure): int {
    if logs == [] then 0 else
      var last := logs[|logs| - 1];
      SumOf(logs[..|logs| - 1], day, kind, id, m) + if Falls(last, day, kind, id) then Measured(last, m) else 0
  }

  /** The rows of a day: one for each user or channel with a consume log on it, which counts those logs and
      sums their prompt tokens, completion tokens and quota. */
  ghost predicate RowsAre(rows: DayRows, logs: seq<Log>, day: int, kind: Identity) {
    && (forall id :: id in rows <==> CountOf(logs, day, kind, id) > 0)
    && (forall id :: id in rows ==>
          && rows[id].requests == CountOf(logs, day, kind, id)
          && rows[id].prompt == SumOf(logs, day, kind, id, PromptTokens)
          && rows[id].completion == SumOf(logs, day, kind, id, CompletionTokens)
          && rows[id].quota == SumOf(logs, day, kind, id, Quota))
  }

  lemma FallsIsOn(log: Log, day: int, kind: Identity, id: int)
    ensures Falls(log, day, kind, id) <==> On(log, day) && IdOf(log, kind) == id
  {}

  lemma {:induction false} NothingToSum(logs: seq<Log>, day: int, kind: Identity, id: int)
    requires CountOf(logs, day, kind, id) == 0
    ensures forall m :: SumOf(logs, day, kind, id, m) == 0
  {
    if logs != [] { NothingToSum(logs[..|logs| - 1], day, kind, id); }
  }

  lemma {:induction false} AggregateIs(logs: seq<Log>, day: int, kind: Identity)
    ensures RowsAre(Aggregate(logs, day, kind), logs, day, kind)
  {
    if logs != [] {
      var init, last := logs[..|logs| - 1], logs[|logs| - 1];
      AggregateIs(init, day, kind);
      forall id { FallsIsOn(last, day, kind, id); }
      if On(last, day) && IdOf(last, kind) !in Aggregate(init, day, kind) {
        NothingToSum(init, day, kind, IdOf(last, kind));
      }
    }
  }

  /** The largest log id, or 0. */
  function MaxId(logs: seq<Log>): (m: nat)
    ensures forall i :: 0 <= i < |logs| ==> logs[i].id <= m
    ensures m == 0 || exists i :: 0 <= i < |logs| && logs[i].id == m
  {
    if logs == [] then 0 else
      var rest := MaxId(logs[1..]);
      assert forall i :: 0 < i < |logs| ==> logs[i] == logs[1..][i - 1];
      if logs[0].id > rest then logs[0].id else rest
  }

  predicate NoRows(t: Table) { forall d | d in t :: t[d] == map[] }

  /** Whether history has to be rescanned: on a first run when either table is empty, later when the
      largest id has fallen behind the cursor. */
  predicate NeedsFullBackfill(cursor: Option<nat>, max: nat, users: Table, channels: Table) {
    match cursor
    case Some(last) => max < last
    case None => NoRows(users) || NoRows(channels)
  }

  /** The days of consume logs up to max, past `last` unless everything is rescanned. */
  function ChangedDays(logs: seq<Log>, last: nat, max: nat, full: bool): set<int> {
    if max == 0 || (!full && max <= last) then {}
    else set i | 0 <= i < |logs| && logs[i].consume && logs[i].id <= max && (full || logs[i].id > last) :: Day(logs[i])
  }

  function AffectedDays(logs: seq<Log>, today: int, cursor: Option<nat>, max: nat, full: bool): set<int> {
    {today, today - 1} +
    (if cursor.Some? then ChangedDays(logs, cursor.value, max, full)
     else if full then ChangedDays(logs, 0, max, full) else {})
  }

  /** Deleting and reinserting the rows of some days. */
  function Replaced(t: Table, rebuilt: Table): Table { t + rebuilt }

  /** What the archiver may take: old logs the cursor has passed. */
  predicate Eligible(log: Log, cutoff: int, cursor: nat) { log.createdAt < cutoff && log.id <= cursor }

  function Filter(logs: seq<Log>, cutoff: int, cursor: nat): seq<Log> {
    if logs == [] then [] else
      (if Eligible(logs[0], cutoff, cursor) then [logs[0]] else []) + Filter(logs[1..], cutoff, cursor)
  }

  predicate Older(a: Log, b: Log) { a.createdAt < b.createdAt || (a.createdAt == b.createdAt && a.id < b.id) }

  function InsertOlder(log: Log, sorted: seq<Log>): (r: seq<Log>)
    ensures |r| == |sorted| + 1
    ensures forall l :: l in r <==> l == log || l in sorted
  {
    if sorted == [] || !Older(sorted[0], log) then [log] + sorted else [sorted[0]] + InsertOlder(log, sorted[1..])
  }

  /** The eligible logs, oldest first. */
  function Oldest(logs: seq<Log>): (r: seq<Log>)
    ensures |r| == |logs|
    ensures forall l :: l in r <==> l in logs
  {
    if logs == [] then [] else InsertOlder(logs[0], Oldest(logs[1..]))
  }

  function ArchiveBatch(logs: seq<Log>, cutoff: int, cursor: nat, limit: nat): seq<Log> {
    var all := Oldest(Filter(logs, cutoff, cursor));
    if |all| <= limit then all else all[..limit]
  }

  lemma {:induction false} FilterMembers(logs: seq<Log>, cutoff: int, cursor: nat)
    ensures forall l :: l in Filter(logs, cutoff, cursor) <==> l in logs && Eligible(l, cutoff, cursor)
  {
    if logs != [] {
      FilterMembers(logs[1..], cutoff, cursor); assert forall l :: l in logs <==> l == logs[0] || l in logs[1..];
    }
  }

  lemma BatchMembers(logs: seq<Log>, cutoff: int, cursor: nat, limit: nat)
    ensures forall l :: l in ArchiveBatch(logs, cutoff, cursor, limit) ==>
      l in logs && l.createdAt < cutoff && l.id <= cursor
  {
    FilterMembers(logs, cutoff, cursor);
  }

  function Ids(logs: seq<Log>): set<nat> { set i | 0 <= i < |logs| :: logs[i].id }

  /** The logs a delete by primary key and the batch's own conditions would leave. */
  function Remaining(logs: seq<Log>, ids: set<nat>, cutoff: int, cursor: nat): (r: seq<Log>)
    ensures |r| <= |logs|
  {
    if logs == [] then [] else
      (if logs[0].id in ids && Eligible(logs[0], cutoff, cursor) then [] else [logs[0]]) + Remaining(logs[1..], ids,
          cutoff, cursor)
  }

  /** The delete transaction: it commits only when it removed as many rows as the batch holds. */
  function Deleted(logs: seq<Log>, batch: seq<Log>, cutoff: int, cursor: nat): seq<Log> {
    var rest := Remaining(logs, Ids(batch), cutoff, cursor);
    if |logs| - |rest| == |batch| then rest else logs
  }
}
