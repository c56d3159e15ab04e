/** The daily economics report: settled requests' procurement costs and realized revenue, posted
    to the funding sources their allocations name. Money is exact (over the reals). */
module FundingEconomics {
  import opened FundingLots
  import FundingLedger

  /** One settled request's economics row. */
  datatype Record = Record(
    request: string,
    actual: int,
    subscription: bool,
    procurement: real,
    revenueMultiplier: real)

  datatype SourceEntry = SourceEntry(source: Source, quota: int, revenue: real, cost: real, profit: real)

  datatype Report = Report(
    recognizedRevenue: real,
    recognizedCost: real,
    recognizedProfit: real,
    unattributedCost: real,
    sources: seq<SourceEntry>)

  /** One amount posted to one source. */
  datatype Posting = Posting(source: Source, quota: int, revenue: real, cost: real)

  predicate Unattributed(s: Source) { s == LegacyUnattributed || s == Other }

  function BaseCost(r: Record, quotaPerUnit: real): real
    requires quotaPerUnit > 0.0
  {
    r.actual as real / quotaPerUnit * r.procurement
  }

  /** The allocation rows of one request. */
  function RowsOf(rows: seq<Allocation>, request: string): seq<Allocation> {
    if rows == [] then []
    else (if rows[0].request == request then [rows[0]] else []) + RowsOf(rows[1..], request)
  }

  /** One allocation row's part of its request's cost and revenue. */
  function AllocationPosting(row: Allocation, r: Record, quotaPerUnit: real): Posting
    requires quotaPerUnit > 0.0 && r.actual != 0
  {
    Posting(row.source, row.amount,
            row.amount as real / quotaPerUnit * row.multiplier,
            BaseCost(r, quotaPerUnit) * row.amount as real / r.actual as real)
  }

  function AllocationPostings(rows: seq<Allocation>, r: Record, quotaPerUnit: real): (ps: seq<Posting>)
    requires quotaPerUnit > 0.0 && r.actual != 0
    ensures |ps| == |rows|
  {
    if rows == [] then [] else
      [AllocationPosting(rows[0], r, quotaPerUnit)] + AllocationPostings(rows[1..], r, quotaPerUnit)
  }

  /** A request with allocation rows was settled for a non-zero amount. */
  predicate Divisible(r: Record, rows: seq<Allocation>) {
    r.subscription || RowsOf(rows, r.request) == [] || r.actual != 0
  }

  function SubscriptionPosting(r: Record, quotaPerUnit: real): Posting
    requires quotaPerUnit > 0.0
  {
    Posting(Subscription, r.actual, r.actual as real / quotaPerUnit * r.revenueMultiplier, BaseCost(r, quotaPerUnit))
  }

  predicate AllDivisible(records: seq<Record>, rows: seq<Allocation>) {
    forall i | 0 <= i < |records| :: Divisible(records[i], rows)
  }

  /** What one record posts. */
  function RecordPostings(r: Record, rows: seq<Allocation>, quotaPerUnit: real): seq<Posting>
    requires quotaPerUnit > 0.0 && Divisible(r, rows)
  {
    var base := BaseCost(r, quotaPerUnit);
    if r.subscription then [SubscriptionPosting(r, quotaPerUnit)]
    else if RowsOf(rows, r.request) == [] then [Posting(LegacyUnattributed, r.actual, 0.0, base)]
    else AllocationPostings(RowsOf(rows, r.request), r, quotaPerUnit)
  }

  function Postings(records: seq<Record>, rows: seq<Allocation>, quotaPerUnit: real, n: nat): seq<Posting>
    requires quotaPerUnit > 0.0 && n <= |records| && AllDivisible(records, rows)
  {
    if n == 0 then [] else
      Postings(records, rows, quotaPerUnit, n - 1) + RecordPostings(records[n - 1], rows, quotaPerUnit)
  }

  function SumCost(ps: seq<Posting>): real { if ps == [] then 0.0 else ps[0].cost + SumCost(ps[1..]) }

  /** What the postings to one source add up to. */
  function Totals(ps: seq<Posting>, s: Source): Posting {
    if ps == [] then Posting(s, 0, 0.0, 0.0) else
      var rest := Totals(ps[1..], s);
      if ps[0].source == s then Posting(s, rest.quota + ps[0].quota, rest.revenue + ps[0].revenue,
                                        rest.cost + ps[0].cost)
      else rest
  }

  lemma {:induction false} TotalsSnoc(ps: seq<Posting>, p: Posting, s: Source)
    ensures var was := Totals(ps, s);
      Totals(ps + [p], s) ==
      if p.source == s then Posting(s, was.quota + p.quota, was.revenue + p.revenue, was.cost + p.cost) else was
  {
    if ps != [] { assert (ps + [p])[1..] == ps[1..] + [p]; TotalsSnoc(ps[1..], p, s); }
  }

  /** The sum over a set of sources of what was posted to each. */
  function Over(group: set<Source>, ps: seq<Posting>): Posting {
    var v := (s: Source) => if s in group then Totals(ps, s) else Posting(s, 0, 0.0, 0.0);
    Posting(Other,
      v(Topup).quota + v(BlindBox).quota + v(Subscription).quota + v(LegacyUnattributed).quota + v(Other).quota,
      v(Topup).revenue + v(BlindBox).revenue + v(Subscription).revenue
        + v(LegacyUnattributed).revenue + v(Other).revenue,
      v(Topup).cost + v(BlindBox).cost + v(Subscription).cost + v(LegacyUnattributed).cost + v(Other).cost)
  }

  const ALL: set<Source> := {Topup, BlindBox, Subscription, LegacyUnattributed, Other}

  lemma {:induction false} OverAll(ps: seq<Posting>)
    ensures Over(ALL, ps).cost == SumCost(ps)
  {
    if ps != [] { OverAll(ps[1..]); }
  }

  lemma {:induction false} SumCostAppend(a: seq<Posting>, b: seq<Posting>)
    ensures SumCost(a + b) == SumCost(a) + SumCost(b)
  {
    if a == [] { assert a + b == b; } else { assert (a + b)[1..] == a[1..] + b; SumCostAppend(a[1..], b); }
  }

  /** The amounts of a request's rows, added up. */
  lemma {:induction false} AllocatedCost(rows: seq<Allocation>, r: Record, quotaPerUnit: real)
    requires quotaPerUnit > 0.0 && r.actual != 0
    ensures SumCost(AllocationPostings(rows, r, quotaPerUnit)) * r.actual as real ==
      BaseCost(r, quotaPerUnit) * SumAmount(rows) as real
  {
    if rows != [] {
      AllocatedCost(rows[1..], r, quotaPerUnit);
      var base, a, x := BaseCost(r, quotaPerUnit), r.actual as real, rows[0].amount as real;
      assert base * x / a * a == base * x;
      var ps := AllocationPostings(rows, r, quotaPerUnit);
      assert ps[1..] == AllocationPostings(rows[1..], r, quotaPerUnit);
      assert SumCost(ps) == base * x / a + SumCost(ps[1..]);
      Distribute(base * x / a, SumCost(ps[1..]), a);
      Distribute(x, SumAmount(rows[1..]) as real, base);
    }
  }

  lemma Distribute(x: real, y: real, z: real)
    ensures (x + y) * z == x * z + y * z
  {}

  /** A record's cost is posted in full exactly when it is a subscription or unallocated, its rows
      add up to its amount, or it cost nothing. */
  lemma RecordConserved(r: Record, rows: seq<Allocation>, quotaPerUnit: real)
    requires quotaPerUnit > 0.0 && Divisible(r, rows)
    ensures SumCost(RecordPostings(r, rows, quotaPerUnit)) == BaseCost(r, quotaPerUnit) <==>
      r.subscription || RowsOf(rows, r.request) == [] || SumAmount(RowsOf(rows, r.request)) == r.actual
      || BaseCost(r, quotaPerUnit) == 0.0
  {
    if !r.subscription && RowsOf(rows, r.request) != [] {
      var own := RowsOf(rows, r.request);
      AllocatedCost(own, r, quotaPerUnit);
      ScaledEqual(SumCost(RecordPostings(r, rows, quotaPerUnit)), BaseCost(r, quotaPerUnit), r.actual as real,
                  SumAmount(own) as real);
    }
  }

  lemma ScaledEqual(sum: real, base: real, actual: real, posted: real)
    requires actual != 0.0 && sum * actual == base * posted
    ensures sum == base <==> posted == actual || base == 0.0
  {
    if sum == base && base != 0.0 {
      assert base * (actual - posted) == 0.0;
    }
    if posted == actual || base == 0.0 {
      assert (sum - base) * actual == 0.0;
    }
  }

  function SumBase(records: seq<Record>, quotaPerUnit: real, n: nat): real
    requires quotaPerUnit > 0.0 && n <= |records|
  {
    if n == 0 then 0.0 else SumBase(records, quotaPerUnit, n - 1) + BaseCost(records[n - 1], quotaPerUnit)
  }

  /** A record that posts its whole cost. */
  predicate Full(r: Record, rows: seq<Allocation>) {
    r.subscription || RowsOf(rows, r.request) == [] || SumAmount(RowsOf(rows, r.request)) == r.actual
  }

  lemma CostStep(records: seq<Record>, rows: seq<Allocation>, quotaPerUnit: real, n: nat)
    requires quotaPerUnit > 0.0 && 0 < n <= |records| && AllDivisible(records, rows) && Full(records[n - 1], rows)
    ensures SumCost(Postings(records, rows, quotaPerUnit, n)) ==
      SumCost(Postings(records, rows, quotaPerUnit, n - 1)) + BaseCost(records[n - 1], quotaPerUnit)
  {
    var before, own := Postings(records, rows, quotaPerUnit, n - 1), RecordPostings(records[n - 1], rows, quotaPerUnit);
    RecordConserved(records[n - 1], rows, quotaPerUnit);
    SumCostAppend(before, own);
  }

  /** When every allocated request is allocated in full, no cost is lost or made up. */
  lemma {:induction false} CostConserved(records: seq<Record>, rows: seq<Allocation>, quotaPerUnit: real, n: nat)
    requires quotaPerUnit > 0.0 && n <= |records| && AllDivisible(records, rows)
    requires forall r :: r in records ==> Full(r, rows)
    ensures SumCost(Postings(records, rows, quotaPerUnit, n)) == SumBase(records, quotaPerUnit, n)
  {
    if n > 0 {
      CostConserved(records, rows, quotaPerUnit, n - 1);
      assert records[n - 1] in records;
      CostStep(records, rows, quotaPerUnit, n);
    }
  }

  ghost predicate PostsTo(ps: seq<Posting>, s: Source) {
    exists p :: p in ps && p.source == s
  }

  /** The entries of the sources posted to so far. */
  ghost predicate Posted(sources: map<Source, SourceEntry>, ps: seq<Posting>) {
    && (forall s :: s in sources <==> PostsTo(ps, s))
    && (forall s :: s in sources ==>
          var t := Totals(ps, s);
          sources[s] == SourceEntry(s, t.quota, t.revenue, t.cost, 0.0))
  }

  method AppendFundingEconomics(sources: map<Source, SourceEntry>, p: Posting, ghost ps: seq<Posting>)
    returns (r: map<Source, SourceEntry>)
    requires Posted(sources, ps)
    ensures Posted(r, ps + [p])
  {
    var entry := if p.source in sources then sources[p.source] else SourceEntry(p.source, 0, 0.0, 0.0, 0.0);
    r := sources[p.source := SourceEntry(p.source, entry.quota + p.quota, entry.revenue + p.revenue,
                                         entry.cost + p.cost, 0.0)];
    forall s ensures s in r <==> PostsTo(ps + [p], s) {
      assert p in ps + [p];
      if s in sources { var q :| q in ps && q.source == s; assert q in ps + [p]; }
    }
    if p.source !in sources { TotalsAbsent(ps, p.source); }
    forall s | s in r ensures var t := Totals(ps + [p], s); r[s] == SourceEntry(s, t.quota, t.revenue, t.cost, 0.0) {
      TotalsSnoc(ps, p, s);
    }
  }

  lemma {:induction false} TotalsAbsent(ps: seq<Posting>, s: Source)
    requires forall p :: p in ps ==> p.source != s
    ensures Totals(ps, s) == Posting(s, 0, 0.0, 0.0)
  {
    if ps != [] { TotalsAbsent(ps[1..], s); }
  }

  method PostAllocations(sources: map<Source, SourceEntry>, own: seq<Allocation>, record: Record, quotaPerUnit: real,
                         ghost ps: seq<Posting>) returns (r: map<Source, SourceEntry>)
    requires quotaPerUnit > 0.0 && record.actual != 0 && Posted(sources, ps)
    ensures Posted(r, ps + AllocationPostings(own, record, quotaPerUnit))
  {
    r := sources;
    ghost var lines := AllocationPostings(own, record, quotaPerUnit);
    assert ps + lines[..0] == ps;
    for j := 0 to |own|
      invariant Posted(r, ps + lines[..j])
    {
      var p := AllocationPosting(own[j], record, quotaPerUnit);
      AllocationPostingsAt(own, record, quotaPerUnit, j);
      r := AppendFundingEconomics(r, p, ps + lines[..j]);
      assert ps + lines[..j] + [p] == ps + lines[..j + 1];
    }
    assert lines[..|own|] == lines;
  }

  /** A report is refused for a unit that is not positive; it holds values that are no number when a record
      without amount has allocation rows, whose cost is then zero divided by zero. */
  datatype Outcome = Refused | NotANumber | Reported(report: Report)

  /** The report of one day from its records and their allocation rows. */
  method DailyFundingEconomics(records: seq<Record>, rows: seq<Allocation>, quotaPerUnit: real)
    returns (outcome: Outcome)
    ensures outcome.Refused? <==> quotaPerUnit <= 0.0
    ensures outcome.NotANumber? <==> quotaPerUnit > 0.0 && !AllDivisible(records, rows)
    ensures outcome.Reported? ==> IsReport(outcome.report, Postings(records, rows, quotaPerUnit, |records|))
  {
    if quotaPerUnit <= 0.0 { return Refused; }
    var i := 0;
    while i < |records|
      invariant 0 <= i <= |records| && forall j | 0 <= j < i :: Divisible(records[j], rows)
    {
      if !Divisible(records[i], rows) { return NotANumber; }
      i := i + 1;
    }
    var sources := PostRecords(records, rows, quotaPerUnit);
    var report := Summarize(sources, Postings(records, rows, quotaPerUnit, |records|));
    outcome := Reported(report);
  }

  method PostRecord(sources: map<Source, SourceEntry>, record: Record, rows: seq<Allocation>, quotaPerUnit: real,
                    ghost ps: seq<Posting>) returns (r: map<Source, SourceEntry>)
    requires quotaPerUnit > 0.0 && Divisible(record, rows) && Posted(sources, ps)
    ensures Posted(r, ps + RecordPostings(record, rows, quotaPerUnit))
  {
    var base := BaseCost(record, quotaPerUnit);
    var own := RowsOf(rows, record.request);
    if record.subscription {
      r := AppendFundingEconomics(sources, SubscriptionPosting(record, quotaPerUnit), ps);
    } else if |own| == 0 {
      r := AppendFundingEconomics(sources, Posting(LegacyUnattributed, record.actual, 0.0, base), ps);
    } else {
      r := PostAllocations(sources, own, record, quotaPerUnit, ps);
    }
  }

  method PostRecords(records: seq<Record>, rows: seq<Allocation>, quotaPerUnit: real)
    returns (sources: map<Source, SourceEntry>)
    requires quotaPerUnit > 0.0 && AllDivisible(records, rows)
    ensures Posted(sources, Postings(records, rows, quotaPerUnit, |records|))
  {
    sources := map[];
    for i := 0 to |records|
      invariant Posted(sources, Postings(records, rows, quotaPerUnit, i))
    {
      sources := PostRecord(sources, records[i], rows, quotaPerUnit, Postings(records, rows, quotaPerUnit, i));
    }
  }

  lemma {:induction false} AllocationPostingsAt(rows: seq<Allocation>, r: Record, quotaPerUnit: real, j: nat)
    requires quotaPerUnit > 0.0 && r.actual != 0 && j < |rows|
    ensures AllocationPostings(rows, r, quotaPerUnit)[j] == AllocationPosting(rows[j], r, quotaPerUnit)
  {
    if j > 0 { AllocationPostingsAt(rows[1..], r, quotaPerUnit, j - 1); }
  }

  /** The order sources are listed in: by name. */
  const LISTED: seq<Source> := [BlindBox, LegacyUnattributed, Other, Subscription, Topup]

  ghost predicate InListedOrder(entries: seq<SourceEntry>) {
    forall i, j :: 0 <= i < j < |entries| ==> Rank(entries[i].source) < Rank(entries[j].source)
  }

  function Rank(s: Source): nat {
    match s
    case BlindBox => 0
    case LegacyUnattributed => 1
    case Other => 2
    case Subscription => 3
    case Topup => 4
  }

  ghost predicate Lists(entries: seq<SourceEntry>, s: Source) {
    exists e :: e in entries && e.source == s
  }

  /** The report lists every source posted to, once and in order, with its totals; the recognized
      sums leave out the legacy and other sources, whose cost is reported as unattributed. */
  ghost predicate IsReport(report: Report, ps: seq<Posting>) {
    && InListedOrder(report.sources)
    && (forall s :: PostsTo(ps, s) <==> Lists(report.sources, s))
    && (forall e :: e in report.sources ==>
          var t := Totals(ps, e.source);
          e == SourceEntry(e.source, t.quota, t.revenue, t.cost, t.revenue - t.cost))
    && report.recognizedRevenue == Over(ALL - {LegacyUnattributed, Other}, ps).revenue
    && report.recognizedCost == Over(ALL - {LegacyUnattributed, Other}, ps).cost
    && report.unattributedCost == Over({LegacyUnattributed, Other}, ps).cost
    && report.recognizedProfit == report.recognizedRevenue - report.recognizedCost
  }

  method Summarize(sources: map<Source, SourceEntry>, ghost ps: seq<Posting>) returns (report: Report)
    requires Posted(sources, ps)
    ensures IsReport(report, ps)
  {
    var revenue, cost, unattributed := 0.0, 0.0, 0.0;
    var todo := sources.Keys;
    ghost var done: set<Source> := {};
    while todo != {}
      invariant todo + done == sources.Keys && todo !! done
      invariant revenue == Over(done - {LegacyUnattributed, Other}, ps).revenue
      invariant cost == Over(done - {LegacyUnattributed, Other}, ps).cost
      invariant unattributed == Over(done * {LegacyUnattributed, Other}, ps).cost
      decreases todo
    {
      var s :| s in todo;
      var entry := sources[s];
      OverMore(done, s, ps);
      todo := todo - {s};
      done := done + {s};
      if Unattributed(s) {
        unattributed := unattributed + entry.cost;
      } else {
        revenue := revenue + entry.revenue;
        cost := cost + entry.cost;
      }
    }
    OverPosted(sources, ps);
    var listed := ListSources(sources, ps);
    report := Report(revenue, cost, revenue - cost, unattributed, listed);
  }

  lemma OverAdd(group: set<Source>, s: Source, ps: seq<Posting>)
    requires s !in group
    ensures Over(group + {s}, ps).revenue == Over(group, ps).revenue + Totals(ps, s).revenue
    ensures Over(group + {s}, ps).cost == Over(group, ps).cost + Totals(ps, s).cost
  {}

  lemma OverMore(done: set<Source>, s: Source, ps: seq<Posting>)
    requires s !in done
    ensures Unattributed(s) ==>
      Over((done + {s}) * {LegacyUnattributed, Other}, ps).cost ==
        Over(done * {LegacyUnattributed, Other}, ps).cost + Totals(ps, s).cost
    ensures Unattributed(s) ==> (done + {s}) - {LegacyUnattributed, Other} == done - {LegacyUnattributed, Other}
    ensures !Unattributed(s) ==> (done + {s}) * {LegacyUnattributed, Other} == done * {LegacyUnattributed, Other}
    ensures !Unattributed(s) ==>
      && Over((done + {s}) - {LegacyUnattributed, Other}, ps).revenue ==
         Over(done - {LegacyUnattributed, Other}, ps).revenue + Totals(ps, s).revenue
      && Over((done + {s}) - {LegacyUnattributed, Other}, ps).cost ==
         Over(done - {LegacyUnattributed, Other}, ps).cost + Totals(ps, s).cost
  {
    if Unattributed(s) {
      assert (done + {s}) * {LegacyUnattributed, Other} == done * {LegacyUnattributed, Other} + {s};
      OverAdd(done * {LegacyUnattributed, Other}, s, ps);
    } else {
      assert (done + {s}) - {LegacyUnattributed, Other} == (done - {LegacyUnattributed, Other}) + {s};
      OverAdd(done - {LegacyUnattributed, Other}, s, ps);
    }
  }

  /** Sources nothing was posted to add nothing. */
  lemma OverPosted(sources: map<Source, SourceEntry>, ps: seq<Posting>)
    requires Posted(sources, ps)
    ensures Over(sources.Keys - {LegacyUnattributed, Other}, ps) == Over(ALL - {LegacyUnattributed, Other}, ps)
    ensures Over(sources.Keys * {LegacyUnattributed, Other}, ps) == Over({LegacyUnattributed, Other}, ps)
  {
    forall s | s !in sources ensures Totals(ps, s) == Posting(s, 0, 0.0, 0.0) { TotalsAbsent(ps, s); }
  }

  function Listing(e: SourceEntry): SourceEntry { e.(profit := e.revenue - e.cost) }

  method ListSources(sources: map<Source, SourceEntry>, ghost ps: seq<Posting>) returns (listed: seq<SourceEntry>)
    requires Posted(sources, ps)
    ensures InListedOrder(listed)
    ensures forall s :: s in sources <==> Lists(listed, s)
    ensures forall e :: e in listed ==> e.source in sources && e == Listing(sources[e.source])
  {
    listed := [];
    for i := 0 to 5
      invariant InListedOrder(listed)
      invariant forall e :: e in listed ==> e.source in sources && Rank(e.source) < i && e == Listing(sources[e.source])
      invariant forall s :: s in sources && Rank(s) < i ==> Lists(listed, s)
    {
      var s := LISTED[i];
      ListedAt(i);
      if s in sources {
        ListedMore(listed, Listing(sources[s]));
        listed := listed + [Listing(sources[s])];
      }
    }
  }

  lemma ListedAt(i: nat)
    requires i < 5
    ensures Rank(LISTED[i]) == i && forall s :: Rank(s) < i + 1 ==> Rank(s) < i || s == LISTED[i]
  {}

  lemma ListedMore(listed: seq<SourceEntry>, e: SourceEntry)
    requires InListedOrder(listed) && forall x :: x in listed ==> Rank(x.source) < Rank(e.source)
    ensures InListedOrder(listed + [e])
    ensures forall s :: Lists(listed + [e], s) <==> Lists(listed, s) || s == e.source
    ensures forall x :: x in listed + [e] <==> x in listed || x == e
  {
    var all := listed + [e];
    assert e in all && forall x :: x in listed ==> x in all;
  }

  /** Every report accounts for the whole cost posted, and when every allocated request is
      allocated in full that is the whole procurement cost of the day. */
  lemma ReportConservesCost(report: Report, records: seq<Record>, rows: seq<Allocation>, quotaPerUnit: real)
    requires quotaPerUnit > 0.0 && AllDivisible(records, rows)
    requires IsReport(report, Postings(records, rows, quotaPerUnit, |records|))
    ensures report.recognizedCost + report.unattributedCost == SumCost(Postings(records, rows, quotaPerUnit, |records|))
    ensures (forall r :: r in records ==> Full(r, rows))
      ==> report.recognizedCost + report.unattributedCost == SumBase(records, quotaPerUnit, |records|)
  {
    OverAll(Postings(records, rows, quotaPerUnit, |records|));
    if forall r :: r in records ==> Full(r, rows) {
      CostConserved(records, rows, quotaPerUnit, |records|);
    }
  }

  lemma {:induction false} RowsOfTally(rows: seq<Allocation>, request: string)
    ensures SumAmount(RowsOf(rows, request)) == FundingLedger.Tally(FundingLedger.RequestAmount(request), rows)
    ensures (forall row :: row in rows ==> row.amount > 0) ==>
      (RowsOf(rows, request) == [] <==> SumAmount(RowsOf(rows, request)) == 0) && SumAmount(RowsOf(rows, request)) >= 0
  {
    if rows != [] {
      RowsOfTally(rows[1..], request);
      var rest := RowsOf(rows[1..], request);
      if rows[0].request == request {
        assert rows[0] in rows; assert ([rows[0]] + rest)[1..] == rest;
      } else {
        assert [] + rest == rest;
      }
    }
  }

  /** Over those books no division fails: an allocated request has an amount. */
  lemma AllocatorDivisible(events: seq<FundingLedger.Event>, records: seq<Record>)
    requires forall r :: r in records && !r.subscription ==>
      FundingLedger.FirstAmount(FundingLedger.EMPTY, events, r.request) in {0, r.actual}
    ensures AllDivisible(records, FundingLedger.Run(FundingLedger.EMPTY, events).books.rows)
  {
    var l := FundingLedger.Run(FundingLedger.EMPTY, events);
    FundingLedger.EmptyGood();
    FundingLedger.RunGood(FundingLedger.EMPTY, events);
    forall i | 0 <= i < |records| ensures Divisible(records[i], l.books.rows) {
      var r := records[i];
      FundingLedger.ChargedOnce(events, r.request);
      forall row | row in l.books.rows ensures row.amount > 0 { assert FundingLedger.RowOk(l.books.lots, row); }
      RowsOfTally(l.books.rows, r.request);
    }
  }

  /** Over the books any run of the allocator leaves, a report loses no cost: every wallet request is
      recorded for the amount it was first settled for, or was never allocated. */
  lemma AllocatorCostConserved(report: Report, events: seq<FundingLedger.Event>, records: seq<Record>,
                               quotaPerUnit: real)
    requires var rows := FundingLedger.Run(FundingLedger.EMPTY, events).books.rows;
      && quotaPerUnit > 0.0
      && AllDivisible(records, rows)
      && IsReport(report, Postings(records, rows, quotaPerUnit, |records|))
    requires forall r :: r in records && !r.subscription ==>
      FundingLedger.FirstAmount(FundingLedger.EMPTY, events, r.request) in {0, r.actual}
    ensures report.recognizedCost + report.unattributedCost == SumBase(records, quotaPerUnit, |records|)
  {
    var l := FundingLedger.Run(FundingLedger.EMPTY, events);
    FundingLedger.EmptyGood();
    FundingLedger.RunGood(FundingLedger.EMPTY, events);
    forall r | r in records ensures Full(r, l.books.rows) {
      FundingLedger.ChargedOnce(events, r.request);
      forall row | row in l.books.rows ensures row.amount > 0 { assert FundingLedger.RowOk(l.books.lots, row); }
      RowsOfTally(l.books.rows, r.request);
    }
    ReportConservesCost(report, records, l.books.rows, quotaPerUnit);
  }
}
