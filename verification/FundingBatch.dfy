/** One set-based allocation statement over a bounded FIFO prefix of the lots: candidate rows
    past a keyset cursor, their running sums, the rows they charge, and the update joined on
    physical row ids that may have gone stale. */
module FundingBatch {
  import opened FundingLots

  datatype Option<T> = None | Some(value: T)

  datatype Books = Books(lots: seq<Lot>, rows: seq<Allocation>)

  datatype Draw = Draw(lot: Lot, used: int)

  /** The totals the statement reports about itself. */
  datatype Batch = Batch(
    used: int,
    last: Option<Key>,
    expectedCount: nat,
    expectedUsed: int,
    updatedCount: nat,
    updatedUsed: int,
    insertedCount: nat)

  predicate Complete(batch: Batch) {
    && batch.expectedCount == batch.updatedCount
    && batch.expectedCount == batch.insertedCount
    && batch.expectedUsed == batch.updatedUsed
    && batch.expectedUsed == batch.used
  }

  predicate Follows(key: Key, after: Option<Key>) {
    after.Some? ==> Before(after.value, key)
  }

  /** Live rows past the cursor, at most `limit` of them. */
  function Candidates(lots: seq<Lot>, account: string, after: Option<Key>, limit: nat): seq<Lot> {
    if lots == [] || limit == 0 then []
    else if Live(lots[0], account) > 0 && Follows(lots[0].key, after) then
      [lots[0]] + Candidates(lots[1..], account, after, limit - 1)
    else Candidates(lots[1..], account, after, limit)
  }

  /** Rows whose preceding running sum is below the amount, each with its part of the draw. */
  function Consumed(candidates: seq<Lot>, amount: int, prior: int): seq<Draw> {
    if candidates == [] then [] else
      var lot := candidates[0];
      (if prior < amount then [Draw(lot, Min(lot.remaining, amount - prior))] else []) +
      Consumed(candidates[1..], amount, prior + lot.remaining)
  }

  /** The draws whose row the update's join finds. */
  function Updated(draws: seq<Draw>, physical: bool, stale: set<nat>): seq<Draw> {
    if draws == [] then [] else
      (if physical && draws[0].lot.key.lotId in stale then [] else [draws[0]]) +
      Updated(draws[1..], physical, stale)
  }

  function UsedOf(draws: seq<Draw>, lotId: nat): int {
    if draws == [] then 0
    else if draws[0].lot.key.lotId == lotId then draws[0].used
    else UsedOf(draws[1..], lotId)
  }

  /** The table after the update joined on lot_id. */
  function UpdateTable(lots: seq<Lot>, draws: seq<Draw>): seq<Lot> {
    if lots == [] then [] else
      [Charged(lots[0], UsedOf(draws, lots[0].key.lotId))] + UpdateTable(lots[1..], draws)
  }

  function Inserted(request: string, draws: seq<Draw>): (rows: seq<Allocation>)
    ensures |rows| == |draws|
  {
    if draws == [] then [] else [RowFor(request, draws[0].lot, draws[0].used)] + Inserted(request, draws[1..])
  }

  function SumUsed(draws: seq<Draw>): int {
    if draws == [] then 0 else draws[0].used + SumUsed(draws[1..])
  }

  function LastKey(draws: seq<Draw>): Option<Key> {
    if draws == [] then None else Some(draws[|draws| - 1].lot.key)
  }

  function Draws(books: Books, account: string, amount: int, after: Option<Key>, limit: nat): seq<Draw> {
    Consumed(Candidates(books.lots, account, after, limit), amount, 0)
  }

  /** The whole statement: the new books and the totals it reports. */
  function Statement(books: Books, request: string, account: string, amount: int,
                     after: Option<Key>, limit: nat, physical: bool, stale: set<nat>): (Books, Batch) {
    var draws := Draws(books, account, amount, after, limit);
    var updated := Updated(draws, physical, stale);
    var inserted := Inserted(request, updated);
    (Books(UpdateTable(books.lots, updated), books.rows + inserted),
     Batch(SumAmount(inserted), LastKey(draws), |draws|, SumUsed(draws), |updated|, SumUsed(updated), |inserted|))
  }

  ghost predicate AnyStale(draws: seq<Draw>, stale: set<nat>) {
    exists d :: d in draws && d.lot.key.lotId in stale
  }

  /** A statement reports itself complete exactly when no row it meant to charge was lost to a
      stale row id. */
  lemma CompleteExactly(books: Books, request: string, account: string, amount: int,
                        after: Option<Key>, limit: nat, physical: bool, stale: set<nat>)
    ensures Complete(Statement(books, request, account, amount, after, limit, physical, stale).1) <==>
      !(physical && AnyStale(Draws(books, account, amount, after, limit), stale))
  {
    var draws := Draws(books, account, amount, after, limit);
    UpdatedLength(draws, physical, stale);
    InsertedSum(request, Updated(draws, physical, stale));
  }

  lemma {:induction false} UpdatedLength(draws: seq<Draw>, physical: bool, stale: set<nat>)
    ensures |Updated(draws, physical, stale)| <= |draws|
    ensures |Updated(draws, physical, stale)| == |draws| <==> !(physical && AnyStale(draws, stale))
    ensures |Updated(draws, physical, stale)| == |draws| ==> Updated(draws, physical, stale) == draws
  {
    if draws != [] {
      UpdatedLength(draws[1..], physical, stale);
      assert forall d :: d in draws <==> d == draws[0] || d in draws[1..];
    }
  }

  lemma {:induction false} InsertedSum(request: string, draws: seq<Draw>)
    ensures SumAmount(Inserted(request, draws)) == SumUsed(draws)
  {
    if draws != [] { InsertedSum(request, draws[1..]); }
  }

  /** A complete statement left the books as the keyed statement does: every consumed lot was
      charged once and has one allocation row. */
  lemma CompleteIsKeyed(books: Books, request: string, account: string, amount: int,
                        after: Option<Key>, limit: nat, physical: bool, stale: set<nat>)
    requires Complete(Statement(books, request, account, amount, after, limit, physical, stale).1)
    ensures Statement(books, request, account, amount, after, limit, physical, stale) ==
      Statement(books, request, account, amount, after, limit, false, {})
  {
    var draws := Draws(books, account, amount, after, limit);
    UpdatedLength(draws, physical, stale);
    UpdatedLength(draws, false, {});
  }

  function SumRemaining(candidates: seq<Lot>): int {
    if candidates == [] then 0 else candidates[0].remaining + SumRemaining(candidates[1..])
  }

  ghost predicate NoLiveUpTo(lots: seq<Lot>, account: string, after: Option<Key>) {
    forall lot :: lot in lots && Live(lot, account) > 0 ==> Follows(lot.key, after)
  }

  lemma {:induction false} CandidatesLive(lots: seq<Lot>, account: string, after: Option<Key>, limit: nat)
    ensures forall c :: c in Candidates(lots, account, after, limit) ==>
      c in lots && Live(c, account) == c.remaining > 0
    ensures SumRemaining(Candidates(lots, account, after, limit)) >= 0
  {
    if lots != [] && limit > 0 {
      CandidatesLive(lots[1..], account, after, limit - 1);
      CandidatesLive(lots[1..], account, after, limit);
    }
  }

  lemma {:induction false} ConsumedFrom(candidates: seq<Lot>, amount: int, prior: int)
    ensures forall d :: d in Consumed(candidates, amount, prior) ==> d.lot in candidates
  {
    if candidates != [] { ConsumedFrom(candidates[1..], amount, prior + candidates[0].remaining); }
  }

  lemma {:induction false} UsedOfAbsent(draws: seq<Draw>, lotId: nat)
    requires forall d :: d in draws ==> d.lot.key.lotId != lotId
    ensures UsedOf(draws, lotId) == 0
  {
    if draws != [] { UsedOfAbsent(draws[1..], lotId); }
  }

  lemma {:induction false} UpdateSkips(lots: seq<Lot>, d: Draw, draws: seq<Draw>)
    requires forall lot :: lot in lots ==> lot.key.lotId != d.lot.key.lotId
    ensures UpdateTable(lots, [d] + draws) == UpdateTable(lots, draws)
  {
    if lots != [] { UpdateSkips(lots[1..], d, draws); }
  }

  /** What is still to be drawn once the preceding candidates have given `prior`. */
  function Rest(amount: int, prior: int): nat { if prior < amount then amount - prior else 0 }

  lemma {:induction false} UpdateNothing(lots: seq<Lot>)
    ensures UpdateTable(lots, []) == lots
  {
    if lots != [] { UpdateNothing(lots[1..]); assert Charged(lots[0], 0) == lots[0]; }
  }

  /** Applying these draws is drawing u oldest first. */
  ghost predicate IsDraw(lots: seq<Lot>, request: string, account: string, draws: seq<Draw>, u: int) {
    && u >= 0
    && UpdateTable(lots, draws) == After(lots, account, u)
    && Inserted(request, draws) == Rows(lots, account, request, u)
  }

  lemma DrawHead(lots: seq<Lot>, request: string, account: string, d: Draw, rest: seq<Draw>, u: nat)
    requires lots != [] && AllAfter(lots[0].key, lots[1..]) && d.lot == lots[0]
    requires d.used == Share(lots[0], account, u) > 0
    requires IsDraw(lots[1..], request, account, rest, u - d.used)
    ensures IsDraw(lots, request, account, [d] + rest, u)
  {
    UpdateSkips(lots[1..], d, rest);
    assert ([d] + rest)[1..] == rest;
  }

  lemma SkipHead(lots: seq<Lot>, request: string, account: string, draws: seq<Draw>, u: nat)
    requires lots != [] && AllAfter(lots[0].key, lots[1..])
    requires forall d :: d in draws ==> d.lot in lots[1..]
    requires Share(lots[0], account, u) == 0
    requires IsDraw(lots[1..], request, account, draws, u)
    ensures IsDraw(lots, request, account, draws, u)
  {
    UsedOfAbsent(draws, lots[0].key.lotId);
    assert Charged(lots[0], 0) == lots[0];
  }

  /** What the running sums charge is the oldest-first draw, bounded by the candidates' quota. */
  lemma {:induction false} ConsumedIsDraw(lots: seq<Lot>, request: string, account: string, amount: int, prior: nat,
                                         after: Option<Key>, limit: nat)
    requires Ordered(lots) && NoLiveUpTo(lots, account, after)
    ensures var candidates := Candidates(lots, account, after, limit);
      IsDraw(lots, request, account, Consumed(candidates, amount, prior),
             Min(Rest(amount, prior), SumRemaining(candidates)))
    decreases |lots|, 1
  {
    if lots == [] || limit == 0 {
      UpdateNothing(lots);
      RowsOfNothing(lots, account, request);
    } else if Live(lots[0], account) > 0 {
      ConsumedLiveHead(lots, request, account, amount, prior, after, limit);
    } else {
      var candidates := Candidates(lots, account, after, limit);
      assert NoLiveUpTo(lots[1..], account, after);
      ConsumedIsDraw(lots[1..], request, account, amount, prior, after, limit);
      CandidatesLive(lots[1..], account, after, limit);
      ConsumedFrom(candidates, amount, prior);
      SkipHead(lots, request, account, Consumed(candidates, amount, prior),
               Min(Rest(amount, prior), SumRemaining(candidates)));
    }
  }

  lemma {:induction false} ConsumedLiveHead(lots: seq<Lot>, request: string, account: string, amount: int, prior: nat,
                                            after: Option<Key>, limit: nat)
    requires Ordered(lots) && NoLiveUpTo(lots, account, after)
    requires lots != [] && limit > 0 && Live(lots[0], account) > 0
    ensures var candidates := Candidates(lots, account, after, limit);
      IsDraw(lots, request, account, Consumed(candidates, amount, prior),
             Min(Rest(amount, prior), SumRemaining(candidates)))
    decreases |lots|, 0
  {
    var lot, tail := lots[0], lots[1..];
    assert lot in lots && NoLiveUpTo(tail, account, after);
    var next := Candidates(tail, account, after, limit - 1);
    ConsumedIsDraw(tail, request, account, amount, prior + lot.remaining, after, limit - 1);
    CandidatesLive(tail, account, after, limit - 1);
    LiveHeadStep(lots, request, account, amount, prior, next, Consumed([lot] + next, amount, prior),
                 Min(Rest(amount, prior), SumRemaining([lot] + next)));
  }

  lemma LiveHeadStep(lots: seq<Lot>, request: string, account: string, amount: int, prior: nat, next: seq<Lot>,
                     draws: seq<Draw>, total: int)
    requires lots != [] && AllAfter(lots[0].key, lots[1..]) && Live(lots[0], account) > 0
    requires SumRemaining(next) >= 0 && forall c :: c in next ==> c in lots[1..]
    requires IsDraw(lots[1..], request, account, Consumed(next, amount, prior + lots[0].remaining),
                    Min(Rest(amount, prior + lots[0].remaining), SumRemaining(next)))
    requires draws == Consumed([lots[0]] + next, amount, prior)
    requires total == Min(Rest(amount, prior), SumRemaining([lots[0]] + next))
    ensures IsDraw(lots, request, account, draws, total)
  {
    ConsumedFrom(next, amount, prior + lots[0].remaining);
    ConsumedHead(lots[0], next, amount, prior);
    LiveHead(lots, request, account, amount, prior, Consumed(next, amount, prior + lots[0].remaining),
             SumRemaining(next),
             draws, total);
  }

  /** A live row in front of a tail whose draws are known: `draws` and `total` with it. */
  lemma LiveHead(lots: seq<Lot>, request: string, account: string, amount: int, prior: nat, rest: seq<Draw>, left: nat,
                 draws: seq<Draw>, total: int)
    requires lots != [] && AllAfter(lots[0].key, lots[1..]) && Live(lots[0], account) > 0
    requires forall d :: d in rest ==> d.lot in lots[1..]
    requires IsDraw(lots[1..], request, account, rest, Min(Rest(amount, prior + lots[0].remaining), left))
    requires draws == if prior < amount then [Draw(lots[0], Min(lots[0].remaining, amount - prior))] + rest else rest
    requires total == Min(Rest(amount, prior), lots[0].remaining + left)
    ensures IsDraw(lots, request, account, draws, total)
  {
    if prior < amount {
      LiveHeadDraws(lots, request, account, amount, prior, rest, left);
    } else {
      LiveHeadPast(lots, request, account, amount, prior, rest, left);
    }
  }

  /** Past the amount a live row takes no part. */
  lemma LiveHeadPast(lots: seq<Lot>, request: string, account: string, amount: int, prior: nat, rest: seq<Draw>,
                     left: nat)
    requires lots != [] && AllAfter(lots[0].key, lots[1..]) && Live(lots[0], account) > 0 && prior >= amount
    requires forall d :: d in rest ==> d.lot in lots[1..]
    requires IsDraw(lots[1..], request, account, rest, Min(Rest(amount, prior + lots[0].remaining), left))
    ensures IsDraw(lots, request, account, rest, Min(Rest(amount, prior), lots[0].remaining + left))
  {
    SkipHead(lots, request, account, rest, 0);
  }

  lemma LiveHeadDraws(lots: seq<Lot>, request: string, account: string, amount: int, prior: nat, rest: seq<Draw>,
                      left: nat)
    requires lots != [] && AllAfter(lots[0].key, lots[1..]) && Live(lots[0], account) > 0 && prior < amount
    requires IsDraw(lots[1..], request, account, rest, Min(Rest(amount, prior + lots[0].remaining), left))
    ensures IsDraw(lots, request, account, [Draw(lots[0], Min(lots[0].remaining, amount - prior))] + rest,
                   Min(Rest(amount, prior), lots[0].remaining + left))
  {
    var lot := lots[0];
    var d := Draw(lot, Min(lot.remaining, amount - prior));
    var u := Min(amount - prior, lot.remaining + left);
    assert u - d.used == Min(Rest(amount, prior + lot.remaining), left);
    DrawHead(lots, request, account, d, rest, u);
  }

  lemma ConsumedHead(lot: Lot, next: seq<Lot>, amount: int, prior: int)
    ensures SumRemaining([lot] + next) == lot.remaining + SumRemaining(next)
    ensures var rest := Consumed(next, amount, prior + lot.remaining);
      Consumed([lot] + next, amount, prior) ==
      if prior < amount then [Draw(lot, Min(lot.remaining, amount - prior))] + rest else rest
  {
    assert ([lot] + next)[1..] == next;
    assert [] + Consumed(next, amount, prior + lot.remaining) == Consumed(next, amount, prior + lot.remaining);
  }

  /** A draw keeps keys and owners, and never makes a row more live. */
  lemma {:induction false} AfterRows(lots: seq<Lot>, account: string, x: nat)
    ensures forall m :: m in After(lots, account, x) ==>
      exists lot :: lot in lots && m == lot.(remaining := m.remaining) && Live(m, account) <= Live(lot, account)
  {
    if lots != [] {
      var used := Share(lots[0], account, x);
      var rest := After(lots[1..], account, x - used);
      AfterRows(lots[1..], account, x - used);
      forall m | m in After(lots, account, x)
        ensures exists lot ::
          lot in lots && m == lot.(remaining := m.remaining) && Live(m, account) <= Live(lot, account)
      {
        if m in rest {
          var lot :| lot in lots[1..] && m == lot.(remaining := m.remaining) && Live(m, account) <= Live(lot, account);
          assert lot in lots;
        } else {
          assert m == Charged(lots[0], used) && lots[0] in lots;
        }
      }
    }
  }

  lemma NoLiveKept(lots: seq<Lot>, account: string, x: nat, after: Option<Key>)
    requires NoLiveUpTo(lots, account, after)
    ensures NoLiveUpTo(After(lots, account, x), account, after)
  {
    AfterRows(lots, account, x);
  }

  lemma {:induction false} OrderedAfter(lots: seq<Lot>, account: string, x: nat)
    requires Ordered(lots)
    ensures Ordered(After(lots, account, x))
  {
    if lots != [] {
      var used := Share(lots[0], account, x);
      OrderedAfter(lots[1..], account, x - used);
      AfterRows(lots[1..], account, x - used);
    }
  }

  /** These candidates are a whole number of the oldest live rows, and once they are spent
      nothing live is left up to the last of them. */
  ghost predicate IsPrefix(lots: seq<Lot>, account: string, c: seq<Lot>) {
    && 0 <= SumRemaining(c) <= Total(lots, account)
    && WholeRows(lots, account, SumRemaining(c))
    && (c != [] ==> NoLiveUpTo(After(lots, account, SumRemaining(c)), account, Some(c[|c| - 1].key)))
  }

  /** The candidates are such a prefix, and there are none only when nothing is live. */
  lemma {:induction false} CandidatesPrefix(lots: seq<Lot>, account: string, after: Option<Key>, limit: nat)
    requires Ordered(lots) && NoLiveUpTo(lots, account, after)
    ensures var c := Candidates(lots, account, after, limit);
      IsPrefix(lots, account, c) && (c == [] && limit > 0 ==> Total(lots, account) == 0)
  {
    if lots != [] && limit > 0 {
      assert lots[0] in lots && NoLiveUpTo(lots[1..], account, after);
      if Live(lots[0], account) > 0 {
        CandidatesPrefix(lots[1..], account, after, limit - 1);
        PrefixLiveHead(lots, account, Candidates(lots[1..], account, after, limit - 1));
      } else {
        CandidatesPrefix(lots[1..], account, after, limit);
        PrefixDeadHead(lots, account, Candidates(lots[1..], account, after, limit));
      }
    }
  }

  lemma PrefixLiveHead(lots: seq<Lot>, account: string, next: seq<Lot>)
    requires Ordered(lots) && lots != [] && Live(lots[0], account) > 0
    requires IsPrefix(lots[1..], account, next)
    ensures IsPrefix(lots, account, [lots[0]] + next)
  {
    ConsumedHead(lots[0], next, 0, 0);
    SpentHead(lots, account, next);
  }

  lemma SpentHead(lots: seq<Lot>, account: string, next: seq<Lot>)
    requires Ordered(lots) && lots != [] && Live(lots[0], account) > 0
    requires SumRemaining(next) >= 0
    requires next != [] ==>
      NoLiveUpTo(After(lots[1..], account, SumRemaining(next)), account, Some(next[|next| - 1].key))
    ensures var c := [lots[0]] + next;
      NoLiveUpTo(After(lots, account, SumRemaining(c)), account, Some(c[|c| - 1].key))
  {
    ConsumedHead(lots[0], next, 0, 0);
    var x := SumRemaining(next);
    assert After(lots, account, lots[0].remaining + x) == [Charged(lots[0], lots[0].remaining)] + After(lots[1..],
        account, x);
    AfterRows(lots[1..], account, x);
  }

  lemma PrefixDeadHead(lots: seq<Lot>, account: string, c: seq<Lot>)
    requires lots != [] && Live(lots[0], account) == 0
    requires IsPrefix(lots[1..], account, c)
    ensures IsPrefix(lots, account, c)
  {
    var x := SumRemaining(c);
    assert After(lots, account, x) == [Charged(lots[0], 0)] + After(lots[1..], account, x);
  }

  lemma {:induction false} ConsumedAll(candidates: seq<Lot>, amount: int, prior: int)
    requires forall c :: c in candidates ==> c.remaining > 0
    requires prior + SumRemaining(candidates) < amount
    ensures var draws := Consumed(candidates, amount, prior);
      |draws| == |candidates| && forall i :: 0 <= i < |draws| ==> draws[i].lot == candidates[i]
  {
    if candidates != [] {
      assert candidates[0] in candidates && forall c :: c in candidates[1..] ==> c in candidates;
      SumRemainingPositive(candidates[1..]);
      ConsumedAll(candidates[1..], amount, prior + candidates[0].remaining);
    }
  }

  lemma {:induction false} SumRemainingPositive(candidates: seq<Lot>)
    requires forall c :: c in candidates ==> c.remaining > 0
    ensures SumRemaining(candidates) >= |candidates|
  {
    if candidates != [] {
      assert candidates[0] in candidates && forall c :: c in candidates[1..] ==> c in candidates;
      SumRemainingPositive(candidates[1..]);
    }
  }

  /** One keyed statement is an oldest-first draw of what it reports as used. It uses nothing only
      when nothing is live, and when it leaves part of the amount open it has spent whole rows
      and its last key is a cursor no live row precedes. */
  lemma BatchIsDraw(books: Books, request: string, account: string, amount: nat, after: Option<Key>, limit: nat)
    requires Ordered(books.lots) && NoLiveUpTo(books.lots, account, after) && amount > 0 && limit > 0
    ensures var (b, batch) := Statement(books, request, account, amount, after, limit, false, {});
      var u := batch.used;
      && 0 <= u <= Min(amount, Total(books.lots, account))
      && b.lots == After(books.lots, account, u)
      && b.rows == books.rows + Rows(books.lots, account, request, u)
      && (u == 0 ==> Total(books.lots, account) == 0)
      && (0 < u < amount ==> WholeRows(books.lots, account, u) && NoLiveUpTo(b.lots, account, batch.last))
  {
    var c := Candidates(books.lots, account, after, limit);
    CandidatesPrefix(books.lots, account, after, limit);
    CandidatesLive(books.lots, account, after, limit);
    BatchUsed(books, request, account, amount, after, limit);
    if c != [] { SumRemainingPositive(c); }
    if SumRemaining(c) < amount { ConsumedAll(c, amount, 0); }
  }

  lemma BatchUsed(books: Books, request: string, account: string, amount: nat, after: Option<Key>, limit: nat)
    requires Ordered(books.lots) && NoLiveUpTo(books.lots, account, after)
    ensures var (b, batch) := Statement(books, request, account, amount, after, limit, false, {});
      var u := Min(amount, SumRemaining(Candidates(books.lots, account, after, limit)));
      && batch.used == u >= 0
      && b.lots == After(books.lots, account, u)
      && b.rows == books.rows + Rows(books.lots, account, request, u)
  {
    var c := Candidates(books.lots, account, after, limit);
    UpdatedLength(Consumed(c, amount, 0), false, {});
    ConsumedIsDraw(books.lots, request, account, amount, 0, after, limit);
    CandidatesPrefix(books.lots, account, after, limit);
    RowsTotal(books.lots, account, request, Min(amount, SumRemaining(c)));
  }
}
