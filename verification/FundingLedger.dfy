/** Whole runs of the wallet's funding books: credits, paid top-ups and settlements in any
    serialized order, with repeated requests and repeated credits. */
module FundingLedger {
  import opened FundingLots
  import opened FundingBatch
  import opened FundingAllocator
  import Division

  datatype Event =
    | Credit(params: CreditParams, policies: map<Source, real>, key: Key)
    | PaidTopup(trade: string, params: CreditParams, policies: map<Source, real>, key: Key, paid: int)
    | Settle(request: string, account: string, amount: int, key: Key)

  /** The books with two history variables: the amount each request was first settled for, and
      how much of a lot was consumed when its paid part was frozen. */
  datatype Ledger = Ledger(books: Books, first: map<string, int>, paidFrom: map<nat, int>)

  const EMPTY: Ledger := Ledger(Books([], []), map[], map[])

  /** A paid top-up credits the lot and freezes its paid part in one transaction. */
  function TopupDone(books: Books, e: Event): Result<Books>
    requires e.PaidTopup?
  {
    var params := e.params.(idempotencyKey := TopupKey(e.trade));
    match Recorded(books, params, e.policies, e.key)
    case Failure => Failure
    case Success(credited) => if e.paid > 0 then Snapshotted(credited, e.trade, e.paid) else Success(credited)
  }

  /** One committed transaction; a failed one leaves everything as it was. */
  function Step(l: Ledger, e: Event): Ledger {
    match e
    case Credit(p, policies, key) =>
      var r := Recorded(l.books, p, policies, key);
      if r.Success? then l.(books := r.value) else l
    case PaidTopup(trade, _, _, _, paid) =>
      var r := TopupDone(l.books, e);
      if r.Failure? then l else
        var i := FindKey(r.value.lots, TopupKey(trade));
        if paid > 0 && i < |r.value.lots| && r.value.lots[i].key.lotId !in l.paidFrom then
          var lot := r.value.lots[i];
          l.(books := r.value, paidFrom := l.paidFrom[lot.key.lotId := lot.original - lot.remaining])
        else l.(books := r.value)
    case Settle(request, account, amount, key) =>
      if request == "" || account == "" || amount <= 0 then l else
        var r := Settled(l.books, request, account, amount, key);
        if r.Failure? then l
        else if request in l.first then l.(books := r.value)
        else l.(books := r.value, first := l.first[request := amount])
  }

  function Run(l: Ledger, events: seq<Event>): Ledger
    decreases |events|
  {
    if events == [] then l else Run(Step(l, events[0]), events[1..])
  }

  /** What a sum over allocation rows adds up. */
  datatype Measure = LotAmount(lotId: nat) | LotPaid(lotId: nat) | RequestAmount(request: string)

  function Weight(m: Measure, row: Allocation): int {
    match m
    case LotAmount(id) => if row.lotId == id then row.amount else 0
    case LotPaid(id) => if row.lotId == id then row.paid else 0
    case RequestAmount(r) => if row.request == r then row.amount else 0
  }

  function Tally(m: Measure, rows: seq<Allocation>): int {
    if rows == [] then 0 else Weight(m, rows[0]) + Tally(m, rows[1..])
  }

  lemma {:induction false} TallyAppend(m: Measure, a: seq<Allocation>, b: seq<Allocation>)
    ensures Tally(m, a + b) == Tally(m, a) + Tally(m, b)
  {
    if a == [] { assert a + b == b; } else { assert (a + b)[1..] == a[1..] + b; TallyAppend(m, a[1..], b); }
  }

  /** The paid part of `consumed` quota of a lot. */
  function PaidOf(lot: Lot, consumed: int): int {
    if lot.paid > 0 && lot.paid <= lot.original then FloorPaid(consumed, lot.paid, lot.original) else 0
  }

  function PaidStart(l: Ledger, lot: Lot): int {
    if lot.key.lotId in l.paidFrom then l.paidFrom[lot.key.lotId] else 0
  }

  /** Per lot: quota is conserved and paid shares telescope from the moment the paid part was frozen. */
  ghost predicate LotOk(l: Ledger, lot: Lot) {
    var consumed := lot.original - lot.remaining;
    && 0 <= lot.remaining <= lot.original
    && 0 < lot.original
    && 0 <= lot.paid <= lot.original
    && (lot.paid > 0 <==> lot.key.lotId in l.paidFrom)
    && 0 <= PaidStart(l, lot) <= consumed
    && Tally(LotAmount(lot.key.lotId), l.books.rows) == consumed
    && Tally(LotPaid(lot.key.lotId), l.books.rows) == PaidOf(lot, consumed) - PaidOf(lot, PaidStart(l, lot))
  }

  /** A row names its lot and carries that lot's account, source and multiplier. */
  predicate Carries(row: Allocation, lot: Lot) {
    && row.lotId == lot.key.lotId && row.account == lot.account
    && row.source == lot.source && row.multiplier == lot.multiplier
  }

  /** Per row: it charges a lot of its own account, by a positive amount of which at most all is paid. */
  ghost predicate RowOk(lots: seq<Lot>, row: Allocation) {
    && row.amount > 0
    && 0 <= row.paid <= row.amount
    && exists lot :: lot in lots && Carries(row, lot)
  }

  /** A legacy lot was made for one request's shortfall and is spent on it. */
  ghost predicate LegacyOk(l: Ledger, lot: Lot) {
    lot.source == LegacyUnattributed ==>
      && lot.remaining == 0
      && exists row ::
           && row in l.books.rows && row.lotId == lot.key.lotId
           && row.request == lot.referenceId && row.amount == lot.original
  }

  ghost predicate LotsOk(l: Ledger) {
    && Ordered(l.books.lots)
    && (forall lot :: lot in l.books.lots ==> LotOk(l, lot))
    && (forall id :: id in l.paidFrom ==> exists lot :: lot in l.books.lots && lot.key.lotId == id)
  }

  /** Exactly the settled requests have rows, and those add up to the first amount. */
  ghost predicate RequestsOk(l: Ledger) {
    && (forall r :: Allocated(l.books.rows, r) <==> r in l.first)
    && (forall r :: r in l.first ==> l.first[r] > 0 && Tally(RequestAmount(r), l.books.rows) == l.first[r])
  }

  ghost predicate Good(l: Ledger) {
    && LotsOk(l)
    && RequestsOk(l)
    && (forall lot :: lot in l.books.lots ==> LegacyOk(l, lot))
    && (forall row :: row in l.books.rows ==> RowOk(l.books.lots, row))
  }

  // Paid shares.

  lemma FloorBounds(a: nat, b: nat, paid: nat, granted: nat)
    requires a <= b && 0 < paid <= granted
    ensures 0 <= FloorPaid(b, paid, granted) - FloorPaid(a, paid, granted) <= b - a
  {
    var x, y := a * paid, b * paid;
    assert y - x == (b - a) * paid;
    assert 0 <= (b - a) * paid <= (b - a) * granted;
    Division.Steps(x, y, b - a, granted);
  }

  /** A draw's paid share is the step of the lot's cumulative paid part, and at most the draw. */
  lemma PaidShareStep(lot: Lot, used: nat)
    requires 0 <= used <= lot.remaining <= lot.original && lot.original > 0
    ensures var consumed := lot.original - lot.remaining;
      && PaidShare(lot, used) == PaidOf(lot, consumed + used) - PaidOf(lot, consumed)
      && 0 <= PaidShare(lot, used) <= used
  {
    if lot.paid > 0 && lot.paid <= lot.original {
      FloorBounds(lot.original - lot.remaining, lot.original - lot.remaining + used, lot.paid, lot.original);
    }
  }

  /** The whole paid part has been given out exactly when the lot is exhausted. */
  lemma PaidWhenExhausted(lot: Lot, consumed: nat)
    requires consumed <= lot.original && 0 < lot.paid <= lot.original
    ensures PaidOf(lot, consumed) == lot.paid <==> consumed == lot.original
  {
    var c, p, o := consumed, lot.paid, lot.original;
    assert o * p == p * o;
    Division.AtLeast(o * p, p, o);
    Division.AtMost(o * p, p, o);
    if c < o {
      assert (o - c) * p == o * p - c * p;
      assert (o - c) * p > 0;
      Division.AtMost(c * p, p - 1, o);
    }
  }

  // What the rows of one draw add up to.

  lemma HeadAbsent(lot: Lot, request: string, used: nat, id: nat)
    requires lot.key.lotId != id
    ensures Tally(LotAmount(id), RowsFor(request, lot, used)) == 0
    ensures Tally(LotPaid(id), RowsFor(request, lot, used)) == 0
  {}

  lemma {:induction false} RowsAbsent(lots: seq<Lot>, account: string, request: string, amount: nat, id: nat,
                                      w: Measure)
    requires w == LotAmount(id) || w == LotPaid(id)
    requires forall lot :: lot in lots ==> lot.key.lotId != id
    ensures Tally(w, Rows(lots, account, request, amount)) == 0
  {
    if lots != [] {
      var used := Share(lots[0], account, amount);
      RowsAbsent(lots[1..], account, request, amount - used, id, w);
      HeadAbsent(lots[0], request, used, id);
      TallyAppend(w, RowsFor(request, lots[0], used), Rows(lots[1..], account, request, amount - used));
    }
  }

  lemma HeadTally(lot: Lot, request: string, used: nat)
    ensures Tally(LotAmount(lot.key.lotId), RowsFor(request, lot, used)) == used
    ensures Tally(LotPaid(lot.key.lotId), RowsFor(request, lot, used)) == PaidShare(lot, used)
  {}

  /** What the lot at i loses in a draw. */
  function Lost(lots: seq<Lot>, account: string, amount: nat, i: nat): int
    requires i < |lots|
  {
    lots[i].remaining - After(lots, account, amount)[i].remaining
  }

  /** Only the head's row counts for the head's lot. */
  lemma HeadOnly(lots: seq<Lot>, account: string, request: string, amount: nat, w: Measure)
    requires Ordered(lots) && lots != [] && (w == LotAmount(lots[0].key.lotId) || w == LotPaid(lots[0].key.lotId))
    ensures Tally(w, Rows(lots, account, request, amount)) ==
      Tally(w, RowsFor(request, lots[0], Share(lots[0], account, amount)))
  {
    var used := Share(lots[0], account, amount);
    TallyAppend(w, RowsFor(request, lots[0], used), Rows(lots[1..], account, request, amount - used));
    RowsAbsent(lots[1..], account, request, amount - used, lots[0].key.lotId, w);
  }

  lemma LostHead(lots: seq<Lot>, account: string, amount: nat)
    requires lots != []
    ensures Lost(lots, account, amount, 0) == Share(lots[0], account, amount) >= 0
    ensures Share(lots[0], account, amount) > 0 ==> Share(lots[0], account, amount) <= lots[0].remaining
  {}

  lemma RowsTallyHead(lots: seq<Lot>, account: string, request: string, amount: nat)
    requires Ordered(lots) && lots != []
    ensures var id := lots[0].key.lotId;
      var lost := Lost(lots, account, amount, 0);
      && Tally(LotAmount(id), Rows(lots, account, request, amount)) == lost
      && Tally(LotPaid(id), Rows(lots, account, request, amount)) == PaidShare(lots[0], lost)
      && 0 <= lost && (lost > 0 ==> lost <= lots[0].remaining)
  {
    var id := lots[0].key.lotId;
    HeadOnly(lots, account, request, amount, LotAmount(id));
    HeadOnly(lots, account, request, amount, LotPaid(id));
    LostHead(lots, account, amount);
    HeadTally(lots[0], request, Share(lots[0], account, amount));
  }

  /** The tail's tallies are the tail's own rows'. */
  lemma RowsTallyTail(lots: seq<Lot>, account: string, request: string, amount: nat, id: nat)
    requires lots != [] && lots[0].key.lotId != id
    ensures var used := Share(lots[0], account, amount);
      && Tally(LotAmount(id), Rows(lots, account, request, amount)) == Tally(LotAmount(id),
          Rows(lots[1..], account, request, amount - used))
      && Tally(LotPaid(id), Rows(lots, account, request, amount)) == Tally(LotPaid(id),
                                                                           Rows(lots[1..], account, request,
                                                                               amount - used))
  {
    var used := Share(lots[0], account, amount);
    var head, rest := RowsFor(request, lots[0], used), Rows(lots[1..], account, request, amount - used);
    TallyAppend(LotAmount(id), head, rest);
    TallyAppend(LotPaid(id), head, rest);
    HeadAbsent(lots[0], request, used, id);
  }

  lemma OtherLot(lots: seq<Lot>, i: nat)
    requires Ordered(lots) && 0 < i < |lots|
    ensures Ordered(lots[1..]) && lots[1..][i - 1] == lots[i] && lots[0].key.lotId != lots[i].key.lotId
  {
    assert lots[i] in lots[1..];
  }

  /** A lot is charged once, by exactly what it loses. */
  lemma {:induction false} RowsTally(lots: seq<Lot>, account: string, request: string, amount: nat, i: nat)
    requires Ordered(lots) && i < |lots|
    ensures var id := lots[i].key.lotId;
      var lost := Lost(lots, account, amount, i);
      && Tally(LotAmount(id), Rows(lots, account, request, amount)) == lost
      && Tally(LotPaid(id), Rows(lots, account, request, amount)) == PaidShare(lots[i], lost)
      && 0 <= lost && (lost > 0 ==> lost <= lots[i].remaining)
  {
    if i == 0 {
      RowsTallyHead(lots, account, request, amount);
    } else {
      OtherLot(lots, i);
      RowsTally(lots[1..], account, request, amount - Share(lots[0], account, amount), i - 1);
      RowsTallyTail(lots, account, request, amount, lots[i].key.lotId);
      TailLost(lots, account, amount, i);
    }
  }

  lemma TailLost(lots: seq<Lot>, account: string, amount: nat, i: nat)
    requires 0 < i < |lots|
    ensures Lost(lots, account, amount, i) == Lost(lots[1..], account, amount - Share(lots[0], account, amount), i - 1)
  {}

  lemma {:induction false} RowsRequest(lots: seq<Lot>, account: string, request: string, amount: nat, r: string)
    ensures var rows := Rows(lots, account, request, amount);
      Tally(RequestAmount(r), rows) == if r == request then SumAmount(rows) else 0
  {
    if lots != [] {
      var used := Share(lots[0], account, amount);
      var head, rest := RowsFor(request, lots[0], used), Rows(lots[1..], account, request, amount - used);
      RowsRequest(lots[1..], account, request, amount - used, r);
      TallyAppend(RequestAmount(r), head, rest);
      if used > 0 { assert (head + rest)[1..] == rest; } else { assert head + rest == rest; }
    }
  }

  ghost predicate Whole(lots: seq<Lot>) {
    forall lot :: lot in lots ==> 0 <= lot.remaining <= lot.original && 0 < lot.original
  }

  lemma {:induction false} RowsMembers(lots: seq<Lot>, account: string, request: string, amount: nat)
    requires Whole(lots)
    ensures forall row :: row in Rows(lots, account, request, amount) ==> row.request == request && RowOk(lots, row)
  {
    if lots != [] {
      assert lots[0] in lots;
      var used := Share(lots[0], account, amount);
      RowsMembers(lots[1..], account, request, amount - used);
      PaidShareStep(lots[0], used);
      KeepsMembers(lots[1..], lots);
      forall row | row in Rows(lots[1..], account, request, amount - used) ensures RowOk(lots, row) {
        RowOkWider(lots[1..], lots, row);
      }
    }
  }

  /** The same lots, as far as allocation rows can tell, are still there. */
  ghost predicate KeepsIdentity(lots: seq<Lot>, next: seq<Lot>) {
    forall lot :: lot in lots ==> exists m :: m in next && SameLot(lot, m)
  }

  /** The same lot, apart from what has been drawn and what part is paid. */
  predicate SameLot(lot: Lot, m: Lot) { m == lot.(remaining := m.remaining, paid := m.paid) }

  lemma KeepsMembers(part: seq<Lot>, lots: seq<Lot>)
    requires forall lot :: lot in part ==> lot in lots
    ensures KeepsIdentity(part, lots)
  {
    forall lot | lot in part ensures exists m :: m in lots && SameLot(lot, m) {
      assert lot in lots && SameLot(lot, lot);
    }
  }

  lemma RowOkWider(lots: seq<Lot>, next: seq<Lot>, row: Allocation)
    requires RowOk(lots, row) && KeepsIdentity(lots, next)
    ensures RowOk(next, row)
  {}

  // A draw keeps the books good.

  function Draw(books: Books, account: string, request: string, x: nat): Books {
    Books(After(books.lots, account, x), books.rows + Rows(books.lots, account, request, x))
  }

  lemma DrawLotOk(l: Ledger, account: string, request: string, x: nat, i: nat)
    requires LotsOk(l) && i < |l.books.lots|
    ensures LotOk(l.(books := Draw(l.books, account, request, x)), After(l.books.lots, account, x)[i])
  {
    var lot := l.books.lots[i];
    assert LotOk(l, lot);
    var m := After(l.books.lots, account, x)[i];
    AfterIdentity(l.books.lots, account, x, i);
    RowsTally(l.books.lots, account, request, x, i);
    var id := lot.key.lotId;
    TallyAppend(LotAmount(id), l.books.rows, Rows(l.books.lots, account, request, x));
    TallyAppend(LotPaid(id), l.books.rows, Rows(l.books.lots, account, request, x));
    PaidShareStep(lot, lot.remaining - m.remaining);
  }

  lemma DrawLotsOk(l: Ledger, account: string, request: string, x: nat)
    requires LotsOk(l)
    ensures LotsOk(l.(books := Draw(l.books, account, request, x)))
    ensures KeepsIdentity(l.books.lots, After(l.books.lots, account, x))
  {
    var lots, next := l.books.lots, After(l.books.lots, account, x);
    OrderedAfter(lots, account, x);
    forall m | m in next ensures LotOk(l.(books := Draw(l.books, account, request, x)), m) {
      var i :| 0 <= i < |next| && next[i] == m;
      DrawLotOk(l, account, request, x, i);
    }
    AfterKeepsIdentity(lots, account, x);
    forall id | id in l.paidFrom ensures exists lot :: lot in next && lot.key.lotId == id {
      var lot :| lot in lots && lot.key.lotId == id;
      assert exists m :: m in next && m.key.lotId == lot.key.lotId;
    }
  }

  lemma AfterKeepsIdentity(lots: seq<Lot>, account: string, x: nat)
    ensures KeepsIdentity(lots, After(lots, account, x))
  {
    forall lot | lot in lots
      ensures exists m :: m in After(lots, account, x) && SameLot(lot, m)
    {
      var i :| 0 <= i < |lots| && lots[i] == lot;
      AfterIdentity(lots, account, x, i);
      assert After(lots, account, x)[i] in After(lots, account, x);
    }
  }

  // Inserting a new lot keeps the books good.

  lemma InsertMembers(lots: seq<Lot>, lot: Lot)
    ensures forall m :: m in Insert(lots, lot) <==> m == lot || m in lots
  {
    var p := Position(lots, lot.key);
    assert lots == lots[..p] + lots[p..];
  }

  lemma PutFirst(lots: seq<Lot>, lot: Lot)
    requires Ordered(lots) && lots != [] && !Before(lots[0].key, lot.key)
    requires forall m :: m in lots ==> m.key.lotId != lot.key.lotId
    ensures Ordered([lot] + lots)
  {
    var all := [lot] + lots;
    assert all[1..] == lots && lots[0] in lots;
    forall m | m in lots ensures Before(lot.key, m.key) {
      if m != lots[0] { assert m in lots[1..]; }
    }
  }

  lemma PutLater(head: Lot, tail: seq<Lot>, lot: Lot)
    requires AllAfter(head.key, tail) && Before(head.key, lot.key) && head.key.lotId != lot.key.lotId
      && Ordered(Insert(tail, lot))
    ensures Ordered([head] + Insert(tail, lot))
  {
    InsertMembers(tail, lot);
    assert ([head] + Insert(tail, lot))[1..] == Insert(tail, lot);
  }

  lemma {:induction false} InsertOrdered(lots: seq<Lot>, lot: Lot)
    requires Ordered(lots) && forall m :: m in lots ==> m.key.lotId != lot.key.lotId
    ensures Ordered(Insert(lots, lot))
  {
    if lots == [] {
      return;
    }
    assert lots[0] in lots;
    if Before(lots[0].key, lot.key) {
      InsertOrdered(lots[1..], lot);
      PutLater(lots[0], lots[1..], lot);
      assert Insert(lots, lot) == [lots[0]] + Insert(lots[1..], lot);
    } else {
      PutFirst(lots, lot);
      assert Insert(lots, lot) == [lot] + lots;
    }
  }

  lemma {:induction false} TallyUnused(m: Measure, rows: seq<Allocation>)
    requires forall row :: row in rows ==> Weight(m, row) == 0
    ensures Tally(m, rows) == 0
  {
    if rows != [] { TallyUnused(m, rows[1..]); }
  }

  lemma InsertLotsOk(l: Ledger, lot: Lot)
    requires LotsOk(l) && forall row :: row in l.books.rows ==> RowOk(l.books.lots, row)
    requires !Conflicts(l.books.lots, lot) && 0 < lot.original == lot.remaining && lot.paid == 0
    ensures LotsOk(l.(books := Books(Insert(l.books.lots, lot), l.books.rows)))
    ensures KeepsIdentity(l.books.lots, Insert(l.books.lots, lot))
  {
    var lots, id := l.books.lots, lot.key.lotId;
    assert forall m :: m in lots ==> m.key.lotId != id;
    InsertMembers(lots, lot);
    InsertOrdered(lots, lot);
    TallyUnused(LotAmount(id), l.books.rows);
    TallyUnused(LotPaid(id), l.books.rows);
    var next := l.(books := Books(Insert(lots, lot), l.books.rows));
    forall m | m in next.books.lots ensures LotOk(next, m) {
      if m in lots { assert LotOk(l, m); }
    }
  }

  lemma {:induction false} TotalZero(lots: seq<Lot>, account: string, i: nat)
    requires Total(lots, account) == 0 && i < |lots|
    ensures Live(lots[i], account) == 0
  {
    if i > 0 { TotalZero(lots[1..], account, i - 1); }
  }

  /** With nothing else live, charging the freshly inserted lot is a draw from the wider table. */
  lemma ChargeInserted(books: Books, account: string, request: string, legacy: Lot)
    requires Total(books.lots, account) == 0
    requires legacy.account == account && legacy.remaining > 0
    ensures var wide := Books(Insert(books.lots, legacy), books.rows);
      Draw(wide, account, request, legacy.remaining) ==
      Books(Insert(books.lots, Charged(legacy, legacy.remaining)),
            books.rows + [RowFor(request, legacy, legacy.remaining)])
  {
    var wide := Insert(books.lots, legacy);
    var p := Position(books.lots, legacy.key);
    var k := FirstLive(wide, account);
    if k == |wide| { TotalZero(wide, account, p); }
    if k != p {
      TotalZero(books.lots, account, if k < p then k else k - 1);
      assert false;
    }
    ChargeFirst(wide, account, request, legacy.remaining);
    InsertThenCharge(books.lots, legacy, legacy.remaining);
  }

  ghost predicate RowsOk(books: Books) {
    forall row :: row in books.rows ==> RowOk(books.lots, row)
  }

  ghost predicate LegaciesOk(l: Ledger) {
    forall lot :: lot in l.books.lots ==> LegacyOk(l, lot)
  }

  lemma DrawRowsOk(books: Books, account: string, request: string, x: nat)
    requires RowsOk(books) && Whole(books.lots)
    ensures RowsOk(Draw(books, account, request, x))
  {
    AfterKeepsIdentity(books.lots, account, x);
    RowsMembers(books.lots, account, request, x);
    forall row | row in Draw(books, account, request, x).rows ensures RowOk(After(books.lots, account, x), row) {
      RowOkWider(books.lots, After(books.lots, account, x), row);
    }
  }

  lemma DrawLegaciesOk(l: Ledger, account: string, request: string, x: nat)
    requires LegaciesOk(l)
    ensures LegaciesOk(l.(books := Draw(l.books, account, request, x)))
  {
    var lots, next := l.books.lots, After(l.books.lots, account, x);
    var l' := l.(books := Draw(l.books, account, request, x));
    forall m | m in next ensures LegacyOk(l', m) {
      var i :| 0 <= i < |next| && next[i] == m;
      AfterIdentity(lots, account, x, i);
      AfterLive(lots, account, x, i);
      assert lots[i] in lots && LegacyOk(l, lots[i]);
      if m.source == LegacyUnattributed {
        var row :|
          row in l.books.rows && row.lotId == m.key.lotId && row.request == m.referenceId && row.amount == m.original;
        assert row in l'.books.rows;
      }
    }
  }

  lemma {:induction false} AfterLive(lots: seq<Lot>, account: string, x: nat, i: nat)
    requires i < |lots|
    ensures var m := After(lots, account, x)[i];
      lots[i].remaining - Live(lots[i], account) <= m.remaining <= lots[i].remaining
  {
    if i > 0 { AfterLive(lots[1..], account, x - Share(lots[0], account, x), i - 1); }
  }

  lemma {:induction false} AllocatedAppend(a: seq<Allocation>, b: seq<Allocation>, r: string)
    ensures Allocated(a + b, r) <==> Allocated(a, r) || Allocated(b, r)
  {
    if Allocated(b, r) {
      var i :| 0 <= i < |b| && b[i].request == r;
      assert (a + b)[|a| + i].request == r;
    }
    if Allocated(a, r) {
      var i :| 0 <= i < |a| && a[i].request == r;
      assert (a + b)[i].request == r;
    }
  }

  /** New rows of one request, adding up to its amount, keep the requests right. */
  lemma RequestsExtended(l: Ledger, books: Books, added: seq<Allocation>, request: string, amount: nat)
    requires RequestsOk(l) && !Allocated(l.books.rows, request) && amount > 0
    requires books.rows == l.books.rows + added
    requires forall row :: row in added ==> row.request == request
    requires Tally(RequestAmount(request), added) == amount
    ensures RequestsOk(Ledger(books, l.first[request := amount], l.paidFrom))
  {
    var first := l.first[request := amount];
    forall r ensures Allocated(books.rows, r) <==> r in first {
      AllocatedAppend(l.books.rows, added, r);
      if r == request { assert added != [] && added[0] in added; }
    }
    forall r | r in first ensures first[r] > 0 && Tally(RequestAmount(r), books.rows) == first[r] {
      TallyAppend(RequestAmount(r), l.books.rows, added);
      if r != request {
        TallyUnused(RequestAmount(r), added);
      } else {
        forall row | row in l.books.rows ensures Weight(RequestAmount(request), row) == 0 {
          var i :| 0 <= i < |l.books.rows| && l.books.rows[i] == row;
        }
        TallyUnused(RequestAmount(request), l.books.rows);
      }
    }
  }

  /** Settling from live lots alone keeps everything good. */
  lemma SettleCovered(l: Ledger, request: string, account: string, amount: nat)
    requires Good(l) && !Allocated(l.books.rows, request) && 0 < amount <= Total(l.books.lots, account)
    ensures Good(Ledger(Draw(l.books, account, request, amount), l.first[request := amount], l.paidFrom))
  {
    var t := Ledger(Draw(l.books, account, request, amount), l.first[request := amount], l.paidFrom);
    assert LotsOk(t) by { DrawLotsOk(l, account, request, amount); }
    assert RowsOk(t.books) by { DrawRowsOk(l.books, account, request, amount); }
    assert LegaciesOk(t) by { DrawLegaciesOk(l, account, request, amount); }
    assert RequestsOk(t) by { CoveredRequests(l, request, account, amount); }
  }

  lemma CoveredRequests(l: Ledger, request: string, account: string, amount: nat)
    requires Good(l) && !Allocated(l.books.rows, request) && 0 < amount <= Total(l.books.lots, account)
    ensures RequestsOk(Ledger(Draw(l.books, account, request, amount), l.first[request := amount], l.paidFrom))
  {
    var added := Rows(l.books.lots, account, request, amount);
    RowsMembers(l.books.lots, account, request, amount);
    RowsRequest(l.books.lots, account, request, amount, request);
    RowsTotal(l.books.lots, account, request, amount);
    RequestsExtended(l, Draw(l.books, account, request, amount), added, request, amount);
  }

  /** The books once a legacy lot has been made and spent. */
  function WithLegacy(books: Books, request: string, legacy: Lot): Books {
    Books(Insert(books.lots, Charged(legacy, legacy.remaining)),
          books.rows + [RowFor(request, legacy, legacy.remaining)])
  }

  lemma ShortDrawn(l: Ledger, request: string, account: string, total: nat)
    requires Good(l) && total == Total(l.books.lots, account)
    ensures var mid := l.(books := Draw(l.books, account, request, total));
      LotsOk(mid) && RowsOk(mid.books) && LegaciesOk(mid) && Total(mid.books.lots, account) == 0
  {
    DrawLotsOk(l, account, request, total);
    DrawRowsOk(l.books, account, request, total);
    DrawLegaciesOk(l, account, request, total);
    TotalAfter(l.books.lots, account, total);
  }

  lemma ShortIs(books: Books, request: string, account: string, amount: nat, key: Key)
    requires !Allocated(books.rows, request) && Total(books.lots, account) < amount
    requires Settled(books, request, account, amount, key).Success?
    ensures var total := Total(books.lots, account);
      var legacy, mid := LegacyLot(key, account, request, amount - total), Draw(books, account, request, total);
      && !Conflicts(mid.lots, legacy)
      && Settled(books, request, account, amount, key) == Success(WithLegacy(mid, request, legacy))
  {
    var total := Total(books.lots, account);
    ConflictsKept(books.lots, account, total, LegacyLot(key, account, request, amount - total));
  }

  /** Settling with a shortfall: all live quota is drawn, then a legacy lot is made and spent. */
  lemma SettleShort(l: Ledger, request: string, account: string, amount: nat, key: Key)
    requires Good(l) && !Allocated(l.books.rows, request) && Total(l.books.lots, account) < amount
    requires Settled(l.books, request, account, amount, key).Success?
    ensures Good(Ledger(Settled(l.books, request, account, amount, key).value, l.first[request := amount], l.paidFrom))
  {
    var total := Total(l.books.lots, account);
    var legacy := LegacyLot(key, account, request, amount - total);
    var mid := l.(books := Draw(l.books, account, request, total));
    ShortDrawn(l, request, account, total);
    ShortIs(l.books, request, account, amount, key);
    var done := mid.(books := WithLegacy(mid.books, request, legacy));
    assert LotsOk(done) && RowsOk(done.books) by { ShortLots(mid, account, request, legacy); }
    assert LegaciesOk(done) by { ShortLegacies(mid, legacy, request); }
    FirstIrrelevant(done, l.first[request := amount]);
    assert RequestsOk(done.(first := l.first[request := amount])) by {
      ShortRequests(l, request, account, amount, legacy);
    }
  }

  lemma FirstIrrelevant(l: Ledger, first: map<string, int>)
    requires LotsOk(l) && LegaciesOk(l)
    ensures LotsOk(l.(first := first)) && LegaciesOk(l.(first := first))
  {
    forall lot | lot in l.books.lots ensures LotOk(l.(first := first), lot) && LegacyOk(l.(first := first), lot) {
      assert LotOk(l, lot) && LegacyOk(l, lot);
    }
  }

  lemma ShortLots(mid: Ledger, account: string, request: string, legacy: Lot)
    requires LotsOk(mid) && RowsOk(mid.books) && Total(mid.books.lots, account) == 0
    requires !Conflicts(mid.books.lots, legacy) && legacy.account == account
    requires 0 < legacy.original == legacy.remaining && legacy.paid == 0
    ensures var done := mid.(books := WithLegacy(mid.books, request, legacy)); LotsOk(done) && RowsOk(done.books)
  {
    var wide := mid.(books := Books(Insert(mid.books.lots, legacy), mid.books.rows));
    InsertLotsOk(mid, legacy);
    ChargeInserted(mid.books, account, request, legacy);
    DrawLotsOk(wide, account, request, legacy.remaining);
    forall row | row in mid.books.rows ensures RowOk(wide.books.lots, row) {
      RowOkWider(mid.books.lots, wide.books.lots, row);
    }
    DrawRowsOk(wide.books, account, request, legacy.remaining);
  }

  lemma ShortLegacies(mid: Ledger, legacy: Lot, request: string)
    requires LegaciesOk(mid) && legacy.referenceId == request && legacy.remaining == legacy.original
    ensures LegaciesOk(mid.(books := WithLegacy(mid.books, request, legacy)))
  {
    var row := RowFor(request, legacy, legacy.remaining);
    var next := mid.(books := Books(Insert(mid.books.lots, Charged(legacy, legacy.remaining)), mid.books.rows + [row]));
    InsertMembers(mid.books.lots, Charged(legacy, legacy.remaining));
    forall m | m in next.books.lots ensures LegacyOk(next, m) {
      if m in mid.books.lots {
        assert LegacyOk(mid, m);
        if m.source == LegacyUnattributed {
          var r :|
            r in mid.books.rows && r.lotId == m.key.lotId && r.request == m.referenceId && r.amount == m.original;
          assert r in next.books.rows;
        }
      } else {
        assert row in next.books.rows;
      }
    }
  }

  lemma ShortRequests(l: Ledger, request: string, account: string, amount: nat, legacy: Lot)
    requires RequestsOk(l) && Whole(l.books.lots) && !Allocated(l.books.rows, request)
    requires Total(l.books.lots, account) < amount && legacy.remaining == amount - Total(l.books.lots, account)
    ensures var mid := Draw(l.books, account, request, Total(l.books.lots, account));
      forall lots :: RequestsOk(Ledger(Books(lots, mid.rows + [RowFor(request, legacy, legacy.remaining)]),
                                       l.first[request := amount], l.paidFrom))
  {
    var total := Total(l.books.lots, account);
    var drawn, last := Rows(l.books.lots, account, request, total), [RowFor(request, legacy, legacy.remaining)];
    RowsMembers(l.books.lots, account, request, total);
    RowsRequest(l.books.lots, account, request, total, request);
    RowsTotal(l.books.lots, account, request, total);
    TallyAppend(RequestAmount(request), drawn, last);
    Concat3(l.books.rows, drawn, last);
    forall lots {
      RequestsExtended(l, Books(lots, l.books.rows + (drawn + last)), drawn + last, request, amount);
    }
  }

  // Credits and paid top-ups keep the books good.

  lemma RecordedGood(l: Ledger, p: CreditParams, policies: map<Source, real>, key: Key)
    requires Good(l) && Recorded(l.books, p, policies, key).Success?
    ensures Good(l.(books := Recorded(l.books, p, policies, key).value))
  {
    var b := Recorded(l.books, p, policies, key).value;
    if b != l.books {
      var lot := NewLot(p, policies, key);
      var next := l.(books := b);
      InsertLotsOk(l, lot);
      InsertMembers(l.books.lots, lot);
      forall row | row in b.rows ensures RowOk(b.lots, row) { RowOkWider(l.books.lots, b.lots, row); }
      forall m | m in b.lots ensures LegacyOk(next, m) { if m in l.books.lots { assert LegacyOk(l, m); } }
      assert RequestsOk(next);
    }
  }

  lemma {:induction false} OrderedSameKeys(lots: seq<Lot>, next: seq<Lot>)
    requires Ordered(lots) && |lots| == |next| && forall i :: 0 <= i < |lots| ==> next[i].key == lots[i].key
    ensures Ordered(next)
  {
    if lots != [] {
      OrderedSameKeys(lots[1..], next[1..]);
      forall m | m in next[1..] ensures Before(next[0].key, m.key) && m.key.lotId != next[0].key.lotId {
        var i :| 0 <= i < |next[1..]| && next[1..][i] == m;
        assert lots[1..][i] in lots[1..];
      }
    }
  }

  lemma OrderedDistinct(lots: seq<Lot>, i: nat, j: nat)
    requires Ordered(lots) && i < j < |lots|
    ensures lots[i].key.lotId != lots[j].key.lotId
  {
    if i == 0 { assert lots[j] in lots[1..]; } else { OrderedDistinct(lots[1..], i - 1, j - 1); }
  }

  /** The paid part of lot i, frozen for the first time. */
  function Frozen(l: Ledger, i: nat, paid: int): Ledger
    requires i < |l.books.lots|
  {
    var lot := l.books.lots[i];
    Ledger(Books(l.books.lots[i := lot.(paid := paid)], l.books.rows), l.first,
           l.paidFrom[lot.key.lotId := lot.original - lot.remaining])
  }

  lemma FrozenLotsOk(l: Ledger, i: nat, paid: int)
    requires LotsOk(l) && i < |l.books.lots| && l.books.lots[i].paid == 0 && 0 < paid <= l.books.lots[i].original
    ensures LotsOk(Frozen(l, i, paid))
    ensures KeepsIdentity(l.books.lots, Frozen(l, i, paid).books.lots)
  {
    var lots, next := l.books.lots, Frozen(l, i, paid).books.lots;
    OrderedSameKeys(lots, next);
    forall j | 0 <= j < |next| ensures LotOk(Frozen(l, i, paid), next[j]) {
      assert LotOk(l, lots[j]) && lots[j] in lots;
      if j < i { OrderedDistinct(lots, j, i); } else if i < j { OrderedDistinct(lots, i, j); }
    }
    forall lot | lot in lots
      ensures exists m :: m in next && SameLot(lot, m)
    {
      var j :| 0 <= j < |lots| && lots[j] == lot;
      assert next[j] in next;
    }
    forall id | id in Frozen(l, i, paid).paidFrom ensures exists lot :: lot in next && lot.key.lotId == id {
      if id == lots[i].key.lotId { assert next[i] in next; } else {
        var lot :| lot in lots && lot.key.lotId == id;
        assert exists m :: m in next && m.key.lotId == lot.key.lotId;
      }
    }
  }

  lemma FrozenGood(l: Ledger, i: nat, paid: int)
    requires Good(l) && i < |l.books.lots| && l.books.lots[i].paid == 0 && 0 < paid <= l.books.lots[i].original
    requires l.books.lots[i].source == Topup
    ensures Good(Frozen(l, i, paid))
  {
    var next := Frozen(l, i, paid);
    FrozenLotsOk(l, i, paid);
    forall row | row in next.books.rows ensures RowOk(next.books.lots, row) {
      RowOkWider(l.books.lots, next.books.lots, row);
    }
    forall m | m in next.books.lots ensures LegacyOk(next, m) {
      var j :| 0 <= j < |next.books.lots| && next.books.lots[j] == m;
      assert LegacyOk(l, l.books.lots[j]);
    }
    assert RequestsOk(next);
  }

  lemma FindKeyUnmoved(lots: seq<Lot>, next: seq<Lot>, idempotencyKey: string)
    requires |lots| == |next| && forall j :: 0 <= j < |lots| ==> next[j].idempotencyKey == lots[j].idempotencyKey
    ensures FindKey(next, idempotencyKey) == FindKey(lots, idempotencyKey)
  {}

  /** Freezing the paid part, with its history variable. */
  function SnapshotStep(l: Ledger, trade: string, paid: int): Result<Ledger> {
    var r := Snapshotted(l.books, trade, paid);
    if r.Failure? then Failure else
      var i := FindKey(l.books.lots, TopupKey(trade));
      Success(if l.books.lots[i].key.lotId in l.paidFrom then l.(books := r.value) else Frozen(l, i, paid))
  }

  lemma SnapshotGood(l: Ledger, trade: string, paid: int)
    requires Good(l) && SnapshotStep(l, trade, paid).Success?
    ensures Good(SnapshotStep(l, trade, paid).value)
  {
    var i := FindKey(l.books.lots, TopupKey(trade));
    assert LotOk(l, l.books.lots[i]);
    if l.books.lots[i].paid == 0 {
      FrozenGood(l, i, paid);
    } else {
      assert l.books.lots[i := l.books.lots[i].(paid := paid)] == l.books.lots;
    }
  }

  lemma TopupIsSnapshot(l: Ledger, e: Event)
    requires e.PaidTopup? && e.paid > 0 && TopupDone(l.books, e).Success?
    ensures var params := e.params.(idempotencyKey := TopupKey(e.trade));
      var credited := l.(books := Recorded(l.books, params, e.policies, e.key).value);
      SnapshotStep(credited, e.trade, e.paid) == Success(Step(l, e))
  {
    var params := e.params.(idempotencyKey := TopupKey(e.trade));
    var lots := Recorded(l.books, params, e.policies, e.key).value.lots;
    var i := FindKey(lots, params.idempotencyKey);
    FindKeyUnmoved(lots, lots[i := lots[i].(paid := e.paid)], params.idempotencyKey);
  }

  lemma TopupGood(l: Ledger, e: Event)
    requires Good(l) && e.PaidTopup?
    ensures Good(Step(l, e))
  {
    if TopupDone(l.books, e).Success? {
      var params := e.params.(idempotencyKey := TopupKey(e.trade));
      RecordedGood(l, params, e.policies, e.key);
      if e.paid > 0 {
        TopupIsSnapshot(l, e);
        SnapshotGood(l.(books := Recorded(l.books, params, e.policies, e.key).value), e.trade, e.paid);
      }
    }
  }

  lemma SettleGood(l: Ledger, e: Event)
    requires Good(l) && e.Settle?
    ensures Good(Step(l, e))
  {
    if e.request != "" && e.account != "" && e.amount > 0 && !Allocated(l.books.rows, e.request) {
      if e.amount <= Total(l.books.lots, e.account) {
        SettleCovered(l, e.request, e.account, e.amount);
      } else if Settled(l.books, e.request, e.account, e.amount, e.key).Success? {
        SettleShort(l, e.request, e.account, e.amount, e.key);
      }
    }
  }

  /** Every reachable ledger is good: quota is conserved per lot, paid shares telescope, each
      settled request holds exactly its first amount, and legacy lots are exact shortfalls. */
  lemma {:induction false} RunGood(l: Ledger, events: seq<Event>)
    requires Good(l)
    ensures Good(Run(l, events))
    decreases |events|
  {
    if events != [] {
      match events[0] {
        case Credit(p, policies, key) =>
          if Recorded(l.books, p, policies, key).Success? { RecordedGood(l, p, policies, key); }
        case PaidTopup(_, _, _, _, _) => TopupGood(l, events[0]);
        case Settle(_, _, _, _) => SettleGood(l, events[0]);
      }
      RunGood(Step(l, events[0]), events[1..]);
    }
  }

  lemma EmptyGood()
    ensures Good(EMPTY)
  {}

  /** The amount of the first settlement of r that a run commits. */
  function FirstAmount(l: Ledger, events: seq<Event>, r: string): int
    decreases |events|
  {
    if events == [] then 0
    else if events[0].Settle? && events[0].request == r && r !in l.first && r in Step(l, events[0]).first
      then events[0].amount
    else FirstAmount(Step(l, events[0]), events[1..], r)
  }

  lemma {:induction false} FirstKept(l: Ledger, events: seq<Event>, r: string)
    requires r in l.first
    ensures r in Run(l, events).first && Run(l, events).first[r] == l.first[r]
    decreases |events|
  {
    if events != [] { FirstKept(Step(l, events[0]), events[1..], r); }
  }

  lemma {:induction false} FirstIs(l: Ledger, events: seq<Event>, r: string)
    requires r !in l.first
    ensures var first := Run(l, events).first;
      if r in first then first[r] == FirstAmount(l, events, r) > 0 else FirstAmount(l, events, r) == 0
    decreases |events|
  {
    if events != [] {
      if r in Step(l, events[0]).first {
        FirstKept(Step(l, events[0]), events[1..], r);
      } else {
        FirstIs(Step(l, events[0]), events[1..], r);
      }
    }
  }

  /** Whatever a run retries, each request is charged its first committed amount, once. */
  lemma ChargedOnce(events: seq<Event>, r: string)
    ensures Tally(RequestAmount(r), Run(EMPTY, events).books.rows) == FirstAmount(EMPTY, events, r)
  {
    EmptyGood();
    RunGood(EMPTY, events);
    var l := Run(EMPTY, events);
    FirstIs(EMPTY, events, r);
    if r !in l.first {
      forall row | row in l.books.rows ensures Weight(RequestAmount(r), row) == 0 {
        var i :| 0 <= i < |l.books.rows| && l.books.rows[i] == row;
        assert row.request == r ==> Allocated(l.books.rows, r);
      }
      TallyUnused(RequestAmount(r), l.books.rows);
    }
  }

  /** The paid shares given out by a lot whose paid part was frozen while it was full. */
  lemma PaidSharesTelescope(events: seq<Event>, lot: Lot)
    requires lot in Run(EMPTY, events).books.lots && lot.paid > 0 && PaidStart(Run(EMPTY, events), lot) == 0
    ensures lot.original > 0
    ensures var given := Tally(LotPaid(lot.key.lotId), Run(EMPTY, events).books.rows);
      && given == FloorPaid(lot.original - lot.remaining, lot.paid, lot.original)
      && (given == lot.paid <==> lot.remaining == 0)
  {
    EmptyGood();
    RunGood(EMPTY, events);
    SharesTelescope(Run(EMPTY, events), lot);
  }

  lemma SharesTelescope(l: Ledger, lot: Lot)
    requires Good(l) && lot in l.books.lots && lot.paid > 0 && PaidStart(l, lot) == 0
    ensures lot.original > 0
    ensures var given := Tally(LotPaid(lot.key.lotId), l.books.rows);
      && given == FloorPaid(lot.original - lot.remaining, lot.paid, lot.original)
      && (given == lot.paid <==> lot.remaining == 0)
  {
    assert LotOk(l, lot);
    NothingPaid(lot);
    var consumed := lot.original - lot.remaining;
    assert Tally(LotPaid(lot.key.lotId), l.books.rows) == PaidOf(lot, consumed);
    PaidWhenExhausted(lot, consumed);
  }

  lemma NothingPaid(lot: Lot)
    ensures PaidOf(lot, 0) == 0
  {
    if lot.paid > 0 && lot.paid <= lot.original { assert 0 * lot.paid == 0; }
  }
}
