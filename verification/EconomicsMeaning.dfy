/** What each source of a daily report is charged and credited, in terms of the records and allocation rows
    themselves. */
module EconomicsMeaning {
  import opened FundingLots
  import opened FundingEconomics

  /** Quota in money, at some multiplier. */
  function Worth(amount: int, multiplier: real, q: real): real
    requires q > 0.0
  {
    amount as real / q * multiplier
  }

  /** One unit of money is q quota. */
  lemma WorthIs(amount: int, multiplier: real, q: real)
    requires q > 0.0
    ensures Worth(amount, multiplier, q) * q == amount as real * multiplier
  {
    Undivide(amount as real, q, multiplier);
  }

  lemma Undivide(x: real, q: real, y: real)
    requires q != 0.0
    ensures x / q * y * q == x * y
  {
    assert x / q * y * q == x / q * q * y;
  }

  predicate AnyRow(rows: seq<Allocation>, request: string) { exists i | 0 <= i < |rows| :: rows[i].request == request }

  predicate Names(row: Allocation, request: string, s: Source) { row.request == request && row.source == s }

  /** What one source gets: quota, revenue and cost. */
  datatype Share = Share(quota: int, revenue: real, cost: real)

  const NOTHING: Share := Share(0, 0.0, 0.0)

  function Plus(a: Share, b: Share): Share { Share(a.quota + b.quota, a.revenue + b.revenue, a.cost + b.cost) }

  function ShareOf(t: Posting): Share { Share(t.quota, t.revenue, t.cost) }

  /** A row's amount, its worth at the row's own multiplier, and its cost at the record's. */
  function RowShare(row: Allocation, procurement: real, q: real): Share
    requires q > 0.0
  {
    Share(row.amount, Worth(row.amount, row.multiplier, q), Worth(row.amount, procurement, q))
  }

  /** What the request's rows that name the source add up to. */
  function Named(rows: seq<Allocation>, request: string, s: Source, procurement: real, q: real): Share
    requires q > 0.0
  {
    if rows == [] then NOTHING else
      var rest := Named(rows[1..], request, s, procurement, q);
      if Names(rows[0], request, s) then Plus(RowShare(rows[0], procurement, q), rest) else rest
  }

  /** A record gives a subscription's whole amount to subscriptions, an unallocated one's to the legacy source
      without revenue, and otherwise what its rows name. */
  function Given(r: Record, rows: seq<Allocation>, s: Source, q: real): Share
    requires q > 0.0
  {
    if r.subscription then
      if s == Subscription
      then Share(r.actual, Worth(r.actual, r.revenueMultiplier, q), Worth(r.actual, r.procurement, q))
      else NOTHING
    else if !AnyRow(rows, r.request) then
      if s == LegacyUnattributed then Share(r.actual, 0.0, Worth(r.actual, r.procurement, q)) else NOTHING
    else Named(rows, r.request, s, r.procurement, q)
  }

  function GivenOver(records: seq<Record>, rows: seq<Allocation>, s: Source, q: real, n: nat): Share
    requires q > 0.0 && n <= |records|
  {
    if n == 0 then NOTHING else Plus(GivenOver(records, rows, s, q, n - 1), Given(records[n - 1], rows, s, q))
  }

  lemma {:induction false} TotalsAppend(a: seq<Posting>, b: seq<Posting>, s: Source)
    ensures ShareOf(Totals(a + b, s)) == Plus(ShareOf(Totals(a, s)), ShareOf(Totals(b, s)))
  {
    if a == [] {
      assert a + b == b;
    } else {
      assert (a + b)[1..] == a[1..] + b;
      TotalsAppend(a[1..], b, s);
    }
  }

  lemma {:induction false} RowsOfAny(rows: seq<Allocation>, request: string)
    ensures RowsOf(rows, request) == [] <==> !AnyRow(rows, request)
  {
    if rows != [] {
      RowsOfAny(rows[1..], request);
      assert forall i :: 0 < i < |rows| ==> rows[i] == rows[1..][i - 1];
    }
  }

  /** A row's part of its record's cost is the row's own amount at the record's procurement multiplier. */
  lemma RowPosting(row: Allocation, r: Record, q: real)
    requires q > 0.0 && r.actual != 0
    ensures var p := AllocationPosting(row, r, q);
      p.source == row.source && ShareOf(p) == RowShare(row, r.procurement, q)
  {
    PartOfCost(r.actual as real, row.amount as real, r.procurement, q);
  }

  lemma PartOfCost(a: real, x: real, procurement: real, q: real)
    requires q > 0.0 && a != 0.0
    ensures a / q * procurement * x / a == x / q * procurement
  {
    var y := a / q * procurement * x / a;
    var z := x / q * procurement;
    Undivide(x, q, procurement);
    Undivide(a, q, procurement);
    assert y * a == a / q * procurement * x;
    assert a / q * procurement * x * q == a * procurement * x;
    assert (y * a) * q == (z * q) * a;
    assert (y - z) * (a * q) == 0.0;
  }

  lemma {:induction false} RowTotals(rows: seq<Allocation>, r: Record, q: real, s: Source)
    requires q > 0.0 && r.actual != 0
    ensures ShareOf(Totals(AllocationPostings(RowsOf(rows, r.request), r, q), s)) ==
      Named(rows, r.request, s, r.procurement, q)
  {
    if rows != [] {
      RowTotals(rows[1..], r, q, s);
      if rows[0].request == r.request {
        FirstPosting(rows, r, q);
        RowPosting(rows[0], r, q);
        FirstTotal(AllocationPosting(rows[0], r, q), AllocationPostings(RowsOf(rows[1..], r.request), r, q), s);
      } else {
        OtherRow(rows, r.request);
      }
    }
  }

  lemma FirstTotal(p: Posting, ps: seq<Posting>, s: Source)
    ensures ShareOf(Totals([p] + ps, s)) ==
      if p.source == s then Plus(ShareOf(p), ShareOf(Totals(ps, s))) else ShareOf(Totals(ps, s))
  {
    assert ([p] + ps)[1..] == ps;
  }

  lemma OtherRow(rows: seq<Allocation>, request: string)
    requires rows != [] && rows[0].request != request
    ensures RowsOf(rows, request) == RowsOf(rows[1..], request)
  {}

  lemma FirstPosting(rows: seq<Allocation>, r: Record, q: real)
    requires q > 0.0 && r.actual != 0 && rows != [] && rows[0].request == r.request
    ensures AllocationPostings(RowsOf(rows, r.request), r, q)
         == [AllocationPosting(rows[0], r, q)] + AllocationPostings(RowsOf(rows[1..], r.request), r, q)
  {
    var own, rest := RowsOf(rows, r.request), RowsOf(rows[1..], r.request);
    assert own == [rows[0]] + rest && own[0] == rows[0] && own[1..] == rest;
  }

  lemma OneTotal(p: Posting, s: Source)
    ensures ShareOf(Totals([p], s)) == if p.source == s then ShareOf(p) else NOTHING
  {
    assert [p][1..] == [];
  }

  lemma RecordTotals(r: Record, rows: seq<Allocation>, q: real, s: Source)
    requires q > 0.0 && Divisible(r, rows)
    ensures ShareOf(Totals(RecordPostings(r, rows, q), s)) == Given(r, rows, s, q)
  {
    RowsOfAny(rows, r.request);
    if r.subscription {
      OneTotal(SubscriptionPosting(r, q), s);
    } else if !AnyRow(rows, r.request) {
      OneTotal(Posting(LegacyUnattributed, r.actual, 0.0, BaseCost(r, q)), s);
    } else {
      RowTotals(rows, r, q, s);
    }
  }

  /** What the postings of the first n records give a source. */
  function PostedTo(records: seq<Record>, rows: seq<Allocation>, q: real, n: nat, s: Source): Share
    requires q > 0.0 && n <= |records| && AllDivisible(records, rows)
  {
    ShareOf(Totals(Postings(records, rows, q, n), s))
  }

  lemma PostedMore(records: seq<Record>, rows: seq<Allocation>, q: real, n: nat, s: Source)
    requires q > 0.0 && 0 < n <= |records| && AllDivisible(records, rows)
    ensures PostedTo(records, rows, q, n, s) ==
      Plus(PostedTo(records, rows, q, n - 1, s), Given(records[n - 1], rows, s, q))
  {
    var before, own := Postings(records, rows, q, n - 1), RecordPostings(records[n - 1], rows, q);
    RecordTotals(records[n - 1], rows, q, s);
    TotalsAppend(before, own, s);
  }

  /** For every source: its quota, revenue and cost in the postings of a day are what the records give it. */
  lemma {:induction false} SourceTotals(records: seq<Record>, rows: seq<Allocation>, q: real, n: nat, s: Source)
    requires q > 0.0 && n <= |records| && AllDivisible(records, rows)
    ensures PostedTo(records, rows, q, n, s) == GivenOver(records, rows, s, q, n)
  {
    if n > 0 {
      SourceTotals(records, rows, q, n - 1, s);
      PostedMore(records, rows, q, n, s);
    }
  }

  /** Every entry of a report says what its source was given, and its profit is revenue less cost. */
  lemma EntriesMean(report: Report, records: seq<Record>, rows: seq<Allocation>, q: real, e: SourceEntry)
    requires q > 0.0 && AllDivisible(records, rows)
    requires IsReport(report, Postings(records, rows, q, |records|)) && e in report.sources
    ensures Share(e.quota, e.revenue, e.cost) == GivenOver(records, rows, e.source, q, |records|)
    ensures e.profit == e.revenue - e.cost
  {
    SourceTotals(records, rows, q, |records|, e.source);
  }

  lemma RecognizedIs(ps: seq<Posting>)
    ensures var t := Over(ALL - {LegacyUnattributed, Other}, ps);
      && t.revenue == Totals(ps, Topup).revenue + Totals(ps, BlindBox).revenue + Totals(ps, Subscription).revenue
      && t.cost == Totals(ps, Topup).cost + Totals(ps, BlindBox).cost + Totals(ps, Subscription).cost
    ensures Over({LegacyUnattributed, Other}, ps).cost == Totals(ps, LegacyUnattributed).cost + Totals(ps, Other).cost
  {}

  /** The recognized sums are those of the three recognized sources, the unattributed cost that of the others. */
  lemma RecognizedMeans(report: Report, records: seq<Record>, rows: seq<Allocation>, q: real)
    requires q > 0.0 && AllDivisible(records, rows)
    requires IsReport(report, Postings(records, rows, q, |records|))
    ensures var topup := GivenOver(records, rows, Topup, q, |records|);
      var box := GivenOver(records, rows, BlindBox, q, |records|);
      var plan := GivenOver(records, rows, Subscription, q, |records|);
      var legacy := GivenOver(records, rows, LegacyUnattributed, q, |records|);
      && report.recognizedRevenue == topup.revenue + box.revenue + plan.revenue
      && report.recognizedCost == topup.cost + box.cost + plan.cost
      && report.unattributedCost == legacy.cost + GivenOver(records, rows, Other, q, |records|).cost
      && report.recognizedProfit == report.recognizedRevenue - report.recognizedCost
  {
    SourceTotals(records, rows, q, |records|, Topup);
    SourceTotals(records, rows, q, |records|, BlindBox);
    SourceTotals(records, rows, q, |records|, Subscription);
    SourceTotals(records, rows, q, |records|, LegacyUnattributed);
    SourceTotals(records, rows, q, |records|, Other);
    RecognizedIs(Postings(records, rows, q, |records|));
  }
}
