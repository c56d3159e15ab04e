/** Settlement events of many requests, delivered in any order, repeated and aborted, beside releases. */
module ReferralRuns {
  import opened ReferralContext

  /** A settlement's event in the outbox. */
  datatype Outbox = Outbox(aggregate: string, isSettlement: bool, account: string)

  /** What is fixed: each request's context, the native settlements, and the identity of their events. */
  datatype World = World(plan: map<string, Context>, natives: map<string, Native>, outbox: map<string, Outbox>)

  /** `completions` is history: how often a request's referral has been completed. */
  datatype State = State(
    payloads: map<string, Context>,
    published: set<string>,
    receipts: map<string, Receipt>,
    markets: map<string, Market>,
    debits: map<string, int>,
    completions: map<string, nat>)

  const EMPTY: State := State(map[], {}, map[], map[], map[], map[])

  datatype Event =
    | Attach(request: string)
    | Deliver(id: string, core: Core, commit: bool)
    | OtherReceipt(id: string, rebate: int)
    | Project(request: string)
    | Close(request: string, status: Status)

  /** Writing a context into the events of its settlements: all of them, or none. An event that already
      carries one must carry the same, and one that does not must not have been published. */
  predicate MayAttach(w: World, s: State, ctx: Context) {
    forall id :: id in ctx.ids ==> IsEventOf(w, ctx, id) && MayCarry(s, ctx, id)
  }

  predicate IsEventOf(w: World, ctx: Context, id: string) {
    id in w.outbox && w.outbox[id] == Outbox(id, true, ctx.account)
  }

  predicate MayCarry(s: State, ctx: Context, id: string) {
    if id in s.payloads then s.payloads[id] == ctx else id !in s.published
  }

  function Attached(s: State, ctx: Context): State {
    s.(payloads := map id | id in s.payloads.Keys + IdSet(ctx.ids) ::
      if id in IdSet(ctx.ids) then ctx else s.payloads[id])
  }

  predicate Recordable(ctx: Context) {
    var p := ctx.params;
    p.request != "" && p.group != "" && p.owner > 0 && p.gross > 0 && ctx.fee <= p.gross - ctx.commission
  }

  /** Locking asks for a marketplace route and for the row to be the one these parameters recorded. */
  predicate Lockable(ctx: Context, markets: map<string, Market>) {
    var p := ctx.params;
    && p.request != "" && p.group != "" && p.owner > 0 && p.consumer > 0 && p.granted > 0
    && ctx.request in markets && markets[ctx.request].params == p && markets[ctx.request].status == Pending
  }

  /** The marketplace row recording a request creates, unless it is there. */
  function Recorded(markets: map<string, Market>, ctx: Context): Result<map<string, Market>> {
    if ctx.request in markets then Ok(markets)
    else if !Recordable(ctx) then Err
    else Ok(markets[ctx.request := NewMarket(ctx)])
  }

  /** Moving a reward out of the owner's earnings, keyed by the settlement. */
  function Debit(m: Market, debits: map<string, int>, id: string, amount: int): Result<(Market, map<string, int>)> {
    if amount < 0 then Err
    else if amount == 0 then Ok((m, debits))
    else if !m.referralPending || m.status != Pending || m.ownerNet < amount then Err
    else if id in debits then if debits[id] == amount then Ok((m, debits)) else Err
    else
      var moved := m.(ownerNet := m.ownerNet - amount, rebate := m.rebate + amount);
      if moved.gross - moved.commission - moved.fee - moved.rebate != moved.ownerNet then Err
      else Ok((moved, debits[id := amount]))
  }

  /** The receipt a delivery leaves: the one that was there, or the routine's, marked with its funding. */
  function Marked(receipts: map<string, Receipt>, id: string, core: Core, source: Source,
                  market: string): map<string, Receipt>
    requires core.Core?
  {
    var was := if id in receipts then receipts[id] else Receipt(core.rebate, Unset, "");
    receipts[id := Receipt(was.rebate, source, if source == Marketplace then market else was.market)]
  }

  predicate Matched(receipts: map<string, Receipt>, id: string, request: string) {
    id in receipts && receipts[id].source == Marketplace && receipts[id].market == request
  }

  function MatchedIds(receipts: map<string, Receipt>, ctx: Context): set<string> {
    set id | id in ctx.ids && Matched(receipts, id, ctx.request)
  }

  predicate Done(receipts: map<string, Receipt>, ctx: Context) {
    |MatchedIds(receipts, ctx)| == |ctx.ids|
  }

  /** The delivery after its checks, for a marketplace route. */
  function Funded(s: State, id: string, ctx: Context, core: Core): Result<State> {
    match Recorded(s.markets, ctx)
    case Err => Err
    case Ok(markets) =>
      if !Lockable(ctx, markets) || core.CoreFails? then Err
      else
        match FundedMarket(markets[ctx.request], s.debits, id, core.fund)
        case Err => Err
        case Ok(pair) =>
          var receipts := Marked(s.receipts, id, core, Marketplace, ctx.request);
          var m := if Done(receipts, ctx) then pair.0.(referralPending := false) else pair.0;
          Ok(s.(markets := markets[ctx.request := m], debits := pair.1, receipts := receipts,
                completions := if Done(receipts, ctx) then Completed(s.completions, ctx.request) else s.completions))
  }

  function FundedMarket(m: Market, debits: map<string, int>, id: string, fund: Funding)
    : Result<(Market, map<string, int>)> {
    match fund
    case NoCall => Ok((m, debits))
    case Call(amount) => Debit(m, debits, id, amount)
  }

  function Completed(completions: map<string, nat>, request: string): map<string, nat> {
    completions[request := Times(completions, request) + 1]
  }

  function Times(completions: map<string, nat>, request: string): nat {
    if request in completions then completions[request] else 0
  }

  /** One delivery of a settlement event: settlements of nothing are skipped, and those no credit pack pays
      for go to the rebate routine as they are. */
  ghost function Delivered(w: World, s: State, id: string, core: Core): Result<State> {
    if id !in w.natives then Err
    else if w.natives[id].amount <= 0 then Ok(s)
    else if !w.natives[id].creditPack then PlainlyDelivered(s, id, core)
    else PackDelivered(w, s, id, core)
  }

  function PlainlyDelivered(s: State, id: string, core: Core): Result<State> {
    if core.CoreFails? then Err
    else Ok(if id in s.receipts then s else s.(receipts := s.receipts[id := Receipt(core.rebate, Unset, "")]))
  }

  ghost function PackDelivered(w: World, s: State, id: string, core: Core): Result<State> {
    if id !in s.payloads || !Sound(s.payloads[id], id, w.natives) then Err
    else
      var ctx := s.payloads[id];
      if id in s.receipts && s.receipts[id].source == ctx.source then Ok(s)
      else if id in s.receipts && s.receipts[id].rebate > 0 then Err
      else if ctx.source == Marketplace then Funded(s, id, ctx, core)
      else if core.CoreFails? then Err
      else Ok(s.(receipts := Marked(s.receipts, id, core, ctx.source, "")))
  }

  ghost function Step(w: World, s: State, e: Event): State {
    match e
    case Attach(request) =>
      if request in w.plan && MayAttach(w, s, w.plan[request]) then Attached(s, w.plan[request]) else s
    case Deliver(id, core, commit) =>
      var result := Delivered(w, s, id, core);
      if commit && result.Ok? then result.value.(published := s.published + {id}) else s
    case OtherReceipt(id, rebate) =>
      if id in s.receipts then s else s.(receipts := s.receipts[id := Receipt(rebate, Unset, "")])
    case Project(request) =>
      if request in w.plan && w.plan[request].source == Marketplace && Recorded(s.markets, w.plan[request]).Ok?
      then s.(markets := Recorded(s.markets, w.plan[request]).value) else s
    case Close(request, status) =>
      if request in s.markets && s.markets[request].status == Pending && !s.markets[request].referralPending
      then s.(markets := s.markets[request := s.markets[request].(status := status)]) else s
  }

  ghost function Run(w: World, s: State, events: seq<Event>): State
    decreases |events|
  {
    if events == [] then s else Run(w, Step(w, s, events[0]), events[1..])
  }

  /** Each request's own context names it, its native settlements are distinct, and it is for a pack. */
  ghost predicate Proper(w: World) {
    forall r :: r in w.plan ==>
      && w.plan[r].request == r && w.plan[r].ids != [] && Distinct(w.plan[r].ids)
      && w.plan[r].commission >= 0 && w.plan[r].fee >= 0 && w.plan[r].params.granted > 0
  }

  // What every step keeps.

  /** A settlement's event carries the context of one request, and so do all its siblings. */
  ghost predicate Shared(w: World, s: State) {
    forall id :: id in s.payloads ==>
      && s.payloads[id].request in w.plan && s.payloads[id] == w.plan[s.payloads[id].request]
      && id in s.payloads[id].ids
      && forall j :: j in s.payloads[id].ids ==> j in s.payloads && s.payloads[j] == s.payloads[id]
  }

  ghost predicate AllMatched(s: State, ctx: Context) {
    forall id :: id in ctx.ids ==> Matched(s.receipts, id, ctx.request)
  }

  /** A request's context has been written into its events. */
  ghost predicate IsAttached(w: World, s: State, r: string)
    requires r in w.plan
  {
    forall id :: id in w.plan[r].ids ==> id in s.payloads && s.payloads[id] == w.plan[r]
  }

  ghost predicate MarketOk(w: World, s: State, r: string) {
    && r in s.markets && r in w.plan && w.plan[r].source == Marketplace
    && s.markets[r].gross - s.markets[r].commission - s.markets[r].fee - s.markets[r].rebate == s.markets[r].ownerNet
    && s.markets[r].ownerNet >= 0
    && s.markets[r].rebate == (if IsAttached(w, s, r) then SumOf(w.plan[r].ids, s.debits) else 0)
    && (s.markets[r].referralPending <==> !AllMatched(s, w.plan[r]))
    && (s.markets[r].status != Pending ==> !s.markets[r].referralPending)
    && Times(s.completions, r) == if s.markets[r].referralPending then 0 else 1
  }

  /** A debited settlement has its receipt. */
  ghost predicate DebitsOk(w: World, s: State) {
    forall id :: id in s.debits ==>
      id in s.payloads && s.payloads[id].source == Marketplace && Matched(s.receipts, id, s.payloads[id].request)
      && s.payloads[id].request in s.markets && s.debits[id] > 0
  }

  /** A receipt marked for a marketplace settlement belongs to that request. */
  ghost predicate MarksOk(w: World, s: State) {
    forall id :: id in s.receipts && s.receipts[id].source == Marketplace ==>
      id in s.payloads && s.receipts[id].market == s.payloads[id].request && s.receipts[id].market in s.markets
  }

  ghost predicate Good(w: World, s: State) {
    && Shared(w, s) && DebitsOk(w, s) && MarksOk(w, s)
    && (forall r :: r in s.markets ==> MarketOk(w, s, r))
    && (forall r :: r !in s.markets ==> Times(s.completions, r) == 0)
  }

  lemma {:induction false} SumUntouched(ids: seq<string>, debits: map<string, int>, id: string, amount: int)
    requires id !in ids
    ensures SumOf(ids, debits[id := amount]) == SumOf(ids, debits)
  {
    if ids != [] { SumUntouched(ids[1..], debits, id, amount); }
  }

  lemma {:induction false} SumGrows(ids: seq<string>, debits: map<string, int>, id: string, amount: int)
    requires Distinct(ids) && id in ids && id !in debits
    ensures SumOf(ids, debits[id := amount]) == SumOf(ids, debits) + amount
  {
    if ids[0] == id { SumUntouched(ids[1..], debits, id, amount); } else { SumGrows(ids[1..], debits, id, amount); }
  }

  lemma {:induction false} SumNothing(ids: seq<string>, debits: map<string, int>)
    requires forall id :: id in ids ==> id !in debits
    ensures SumOf(ids, debits) == 0
  {
    if ids != [] { SumNothing(ids[1..], debits); }
  }

  /** The completion test is that every listed settlement is matched. */
  lemma DoneIsAllMatched(s: State, receipts: map<string, Receipt>, ctx: Context)
    requires Distinct(ctx.ids) && receipts == s.receipts
    ensures Done(receipts, ctx) <==> AllMatched(s, ctx)
  {
    var found := set id | id in receipts && Matched(receipts, id, ctx.request);
    assert MatchedIds(receipts, ctx) == IdSet(ctx.ids) * found;
    CountIsAll(ctx.ids, found);
  }

  lemma AttachShared(w: World, s: State, r: string)
    requires Proper(w) && Shared(w, s) && r in w.plan && MayAttach(w, s, w.plan[r])
    ensures Shared(w, Attached(s, w.plan[r]))
  {
    var t, ctx := Attached(s, w.plan[r]), w.plan[r];
    forall id | id in t.payloads
      ensures t.payloads[id].request in w.plan && t.payloads[id] == w.plan[t.payloads[id].request]
        && id in t.payloads[id].ids
      ensures forall j :: j in t.payloads[id].ids ==> j in t.payloads && t.payloads[j] == t.payloads[id]
    {
      if id !in ctx.ids {
        forall j | j in t.payloads[id].ids ensures j in t.payloads && t.payloads[j] == t.payloads[id] {
          assert j in s.payloads && s.payloads[j] == s.payloads[id];
        }
      }
    }
  }

  lemma AttachGood(w: World, s: State, r: string)
    requires Proper(w) && Good(w, s) && r in w.plan && MayAttach(w, s, w.plan[r])
    ensures Good(w, Attached(s, w.plan[r]))
  {
    var t := Attached(s, w.plan[r]);
    AttachShared(w, s, r);
    forall q | q in t.markets ensures MarketOk(w, t, q) { AttachKeepsMarket(w, s, r, q); }
    assert forall id :: id in s.payloads ==> id in t.payloads && t.payloads[id] == s.payloads[id];
  }

  lemma AttachKeepsMarket(w: World, s: State, r: string, q: string)
    requires Proper(w) && Good(w, s) && r in w.plan && MayAttach(w, s, w.plan[r]) && q in s.markets
    ensures MarketOk(w, Attached(s, w.plan[r]), q)
  {
    var t := Attached(s, w.plan[r]);
    assert MarketOk(w, s, q);
    assert AllMatched(t, w.plan[q]) <==> AllMatched(s, w.plan[q]);
    if IsAttached(w, s, q) {
      assert IsAttached(w, t, q);
    } else if IsAttached(w, t, q) {
      forall id | id in w.plan[q].ids ensures id !in s.debits {
        if id in s.payloads { assert IsAttached(w, s, s.payloads[id].request); }
      }
      SumNothing(w.plan[q].ids, s.debits);
    }
  }

  /** Marking one settlement's receipt changes no other. */
  lemma MarkedOthers(s: State, core: Core, id: string, source: Source, market: string, other: string, r: string)
    requires core.Core? && other != id
    ensures Matched(Marked(s.receipts, id, core, source, market), other, r) <==> Matched(s.receipts, other, r)
  {}

  /** The market a delivery works on: the existing row, or a fresh one. */
  lemma RecordedIs(markets: map<string, Market>, ctx: Context)
    requires Recorded(markets, ctx).Ok?
    ensures var after := Recorded(markets, ctx).value;
      && ctx.request in after && after == markets[ctx.request := after[ctx.request]]
      && (ctx.request in markets ==> after[ctx.request] == markets[ctx.request])
      && (ctx.request !in markets ==>
            after[ctx.request] == NewMarket(ctx) && Recordable(ctx))
  {
    if ctx.request in markets { assert markets == markets[ctx.request := markets[ctx.request]]; }
  }

  /** A request without any matched receipt: nothing was debited for it. */
  lemma ProjectGood(w: World, s: State, r: string)
    requires Proper(w) && Good(w, s) && r in w.plan && w.plan[r].source == Marketplace
      && Recorded(s.markets, w.plan[r]).Ok?
    ensures Good(w, s.(markets := Recorded(s.markets, w.plan[r]).value))
  {
    var t := s.(markets := Recorded(s.markets, w.plan[r]).value);
    RecordedIs(s.markets, w.plan[r]);
    forall q | q in t.markets ensures MarketOk(w, t, q) {
      if q in s.markets {
        assert MarketOk(w, s, q);
        assert AllMatched(t, w.plan[q]) <==> AllMatched(s, w.plan[q]);
        assert IsAttached(w, t, q) <==> IsAttached(w, s, q);
      } else {
        FreshMarket(w, s, t, q);
      }
    }
  }

  lemma FreshMarket(w: World, s: State, t: State, r: string)
    requires Proper(w) && Good(w, s) && r in w.plan && w.plan[r].source == Marketplace && r !in s.markets
    requires t == s.(markets := t.markets) && r in t.markets
    requires t.markets[r] == NewMarket(w.plan[r]) && Recordable(w.plan[r])
    ensures MarketOk(w, t, r)
  {
    var ctx := w.plan[r];
    assert ctx.ids[0] in ctx.ids && !Matched(s.receipts, ctx.ids[0], r);
    if IsAttached(w, t, r) { SumNothing(ctx.ids, s.debits); }
  }

  /** A market stays sound when nothing it depends on changes, and it may close once it is complete. */
  lemma MarketKept(w: World, s: State, t: State, r: string)
    requires MarketOk(w, s, r) && r in t.markets && t.payloads == s.payloads && t.debits == s.debits
    requires t.markets[r] == s.markets[r].(status := t.markets[r].status)
      && Times(t.completions, r) == Times(s.completions, r)
    requires t.markets[r].status == s.markets[r].status || !s.markets[r].referralPending
    requires AllMatched(t, w.plan[r]) <==> AllMatched(s, w.plan[r])
    ensures MarketOk(w, t, r)
  {
    assert IsAttached(w, t, r) <==> IsAttached(w, s, r);
  }

  lemma CloseGood(w: World, s: State, r: string, status: Status)
    requires Proper(w) && Good(w, s)
    requires r in s.markets && s.markets[r].status == Pending && !s.markets[r].referralPending
    ensures Good(w, s.(markets := s.markets[r := s.markets[r].(status := status)]))
  {
    var t := s.(markets := s.markets[r := s.markets[r].(status := status)]);
    forall q | q in t.markets ensures MarketOk(w, t, q) {
      assert MarketOk(w, s, q);
      MarketKept(w, s, t, q);
    }
  }

  lemma SameMatches(w: World, s: State, t: State)
    requires forall x, r :: Matched(t.receipts, x, r) <==> Matched(s.receipts, x, r)
    ensures forall r :: r in w.plan ==> (AllMatched(t, w.plan[r]) <==> AllMatched(s, w.plan[r]))
  {}

  /** Receipts that match nothing new leave everything as it was. */
  lemma ReceiptsKept(w: World, s: State, t: State)
    requires Proper(w) && Good(w, s) && t == s.(receipts := t.receipts) && MarksOk(w, t)
    requires forall x, r :: Matched(t.receipts, x, r) <==> Matched(s.receipts, x, r)
    ensures Good(w, t)
  {
    SameMatches(w, s, t);
    forall q | q in t.markets ensures MarketOk(w, t, q) {
      assert MarketOk(w, s, q);
      MarketKept(w, s, t, q);
    }
  }

  lemma OtherReceiptGood(w: World, s: State, id: string, rebate: int)
    requires Proper(w) && Good(w, s) && id !in s.receipts
    ensures Good(w, s.(receipts := s.receipts[id := Receipt(rebate, Unset, "")]))
  {
    ReceiptsKept(w, s, s.(receipts := s.receipts[id := Receipt(rebate, Unset, "")]));
  }

  /** A settlement whose receipt is not yet marked for its request. */
  ghost predicate Unmarked(w: World, s: State, id: string) {
    && id in s.payloads && s.payloads[id].source == Marketplace && s.payloads[id].request in s.markets
    && (id in s.receipts ==> s.receipts[id].source != Marketplace)
  }

  /** What funding does: nothing, or one debit that keeps the split of the gross amount; the guard on the
      split never fires. */
  lemma FundedMarketIs(m: Market, debits: map<string, int>, id: string, fund: Funding)
    requires id !in debits && m.gross - m.commission - m.fee - m.rebate == m.ownerNet
    requires FundedMarket(m, debits, id, fund).Ok?
    ensures var (n, d) := FundedMarket(m, debits, id, fund).value;
      || (n == m && d == debits)
      || (fund.Call? && 0 < fund.amount <= m.ownerNet && m.referralPending && m.status == Pending
          && d == debits[id := fund.amount] && n == m.(ownerNet := m.ownerNet - fund.amount,
                                                       rebate := m.rebate + fund.amount))
  {}

  lemma GuardNeverFires(m: Market, debits: map<string, int>, id: string, amount: int)
    requires id !in debits && m.gross - m.commission - m.fee - m.rebate == m.ownerNet
    ensures Debit(m, debits, id, amount).Ok? <==>
            amount == 0 || (0 < amount <= m.ownerNet && m.referralPending && m.status == Pending)
  {}

  /** An unmarked settlement was never debited, and its request is not complete. */
  lemma UnmarkedIsOpen(w: World, s: State, id: string)
    requires Proper(w) && Good(w, s) && Unmarked(w, s, id)
    ensures id !in s.debits && s.markets[s.payloads[id].request].referralPending
    ensures IsAttached(w, s, s.payloads[id].request) && id in w.plan[s.payloads[id].request].ids
  {
    var r := s.payloads[id].request;
    assert IsAttached(w, s, r);
    assert MarketOk(w, s, r);
    assert !Matched(s.receipts, id, r);
    assert !AllMatched(s, w.plan[r]);
  }

  /** The state a funded delivery leaves. */
  function After(s: State, id: string, core: Core, m: Market, debits: map<string, int>): State
    requires id in s.payloads && core.Core?
  {
    var ctx := s.payloads[id];
    var receipts := Marked(s.receipts, id, core, Marketplace, ctx.request);
    s.(markets := s.markets[ctx.request := if Done(receipts, ctx) then m.(referralPending := false) else m],
       debits := debits, receipts := receipts,
       completions := if Done(receipts, ctx) then Completed(s.completions, ctx.request) else s.completions)
  }

  /** Only the delivered settlement's match changes. */
  lemma AfterMatches(w: World, s: State, id: string, core: Core, m: Market, debits: map<string, int>, x: string,
                     r: string)
    requires Unmarked(w, s, id) && core.Core?
    ensures Matched(After(s, id, core, m, debits).receipts, x, r) <==>
            Matched(s.receipts, x, r) || (x == id && r == s.payloads[id].request)
  {
    if x != id { MarkedOthers(s, core, id, Marketplace, s.payloads[id].request, x, r); }
  }

  /** A debit keeps the split and the sum of the request's debits. */
  lemma FundedSum(ids: seq<string>, was: Market, before: map<string, int>, m: Market, debits: map<string, int>,
                  id: string, fund: Funding)
    requires Distinct(ids) && id in ids && id !in before && was.rebate == SumOf(ids, before) && was.ownerNet >= 0
    requires was.gross - was.commission - was.fee - was.rebate == was.ownerNet
    requires FundedMarket(was, before, id, fund) == Ok((m, debits))
    ensures m.gross - m.commission - m.fee - m.rebate == m.ownerNet && m.ownerNet >= 0 && m.rebate == SumOf(ids, debits)
    ensures m.status == was.status && m.referralPending == was.referralPending
  {
    FundedMarketIs(was, before, id, fund);
    if debits != before { SumGrows(ids, before, id, debits[id]); }
  }

  /** The market a delivery worked on, complete when all its settlements are matched. */
  lemma OwnMarketOk(w: World, t: State, r: string, m: Market, complete: bool)
    requires r in w.plan && w.plan[r].source == Marketplace && r in t.markets && IsAttached(w, t, r)
    requires m.gross - m.commission - m.fee - m.rebate == m.ownerNet && m.ownerNet >= 0
    requires m.rebate == SumOf(w.plan[r].ids, t.debits) && m.referralPending && m.status == Pending
    requires complete <==> AllMatched(t, w.plan[r])
    requires t.markets[r] == if complete then m.(referralPending := false) else m
    requires Times(t.completions, r) == if complete then 1 else 0
    ensures MarketOk(w, t, r)
  {}

  lemma AfterOwnMarket(w: World, s: State, id: string, core: Core, m: Market, debits: map<string, int>)
    requires Proper(w) && Good(w, s) && Unmarked(w, s, id) && core.Core?
    requires var was := s.markets[s.payloads[id].request];
      FundedMarket(was, s.debits, id, core.fund) == Ok((m, debits)) && was.status == Pending
    ensures MarketOk(w, After(s, id, core, m, debits), s.payloads[id].request)
  {
    var r := s.payloads[id].request;
    var t := After(s, id, core, m, debits);
    UnmarkedIsOpen(w, s, id);
    assert MarketOk(w, s, r);
    FundedSum(w.plan[r].ids, s.markets[r], s.debits, m, debits, id, core.fund);
    DoneIsAllMatched(t, t.receipts, w.plan[r]);
    OwnMarketOk(w, t, r, m, Done(t.receipts, w.plan[r]));
  }

  /** A market none of whose settlements, debits or completions changed. */
  lemma OtherMarketOk(w: World, s: State, t: State, q: string)
    requires MarketOk(w, s, q) && q in t.markets && t.markets[q] == s.markets[q] && t.payloads == s.payloads
    requires IsAttached(w, s, q) ==> SumOf(w.plan[q].ids, t.debits) == SumOf(w.plan[q].ids, s.debits)
    requires AllMatched(t, w.plan[q]) <==> AllMatched(s, w.plan[q])
    requires Times(t.completions, q) == Times(s.completions, q)
    ensures MarketOk(w, t, q)
  {
    assert IsAttached(w, t, q) <==> IsAttached(w, s, q);
  }

  lemma OtherSum(w: World, s: State, id: string, debits: map<string, int>, a: int, q: string)
    requires Proper(w) && Shared(w, s) && id in s.payloads && q in w.plan && q != s.payloads[id].request
      && IsAttached(w, s, q)
    requires debits == s.debits || debits == s.debits[id := a]
    ensures SumOf(w.plan[q].ids, debits) == SumOf(w.plan[q].ids, s.debits)
  {
    if debits != s.debits { SumUntouched(w.plan[q].ids, s.debits, id, a); }
  }

  lemma AfterOtherMarket(w: World, s: State, id: string, core: Core, m: Market, debits: map<string, int>, a: int,
                         q: string)
    requires Proper(w) && Good(w, s) && Unmarked(w, s, id) && core.Core? && q in s.markets
      && q != s.payloads[id].request
    requires debits == s.debits || debits == s.debits[id := a]
    ensures MarketOk(w, After(s, id, core, m, debits), q)
  {
    var t := After(s, id, core, m, debits);
    assert MarketOk(w, s, q);
    forall x ensures Matched(t.receipts, x, q) <==> Matched(s.receipts, x, q) {
      AfterMatches(w, s, id, core, m, debits, x, q);
    }
    if IsAttached(w, s, q) { OtherSum(w, s, id, debits, a, q); }
    OtherMarketOk(w, s, t, q);
  }

  lemma AfterMarks(w: World, s: State, id: string, core: Core, m: Market, debits: map<string, int>)
    requires Proper(w) && Good(w, s) && Unmarked(w, s, id) && core.Core?
    ensures MarksOk(w, After(s, id, core, m, debits))
  {
    var t := After(s, id, core, m, debits);
    forall x | x in t.receipts && t.receipts[x].source == Marketplace
      ensures x in t.payloads && t.receipts[x].market == t.payloads[x].request && t.receipts[x].market in t.markets
    {
      if x != id { assert Matched(s.receipts, x, s.receipts[x].market); }
    }
  }

  lemma AfterDebits(w: World, s: State, id: string, core: Core, m: Market, debits: map<string, int>, a: int)
    requires Proper(w) && Good(w, s) && Unmarked(w, s, id) && core.Core?
    requires debits == s.debits || (debits == s.debits[id := a] && a > 0)
    ensures DebitsOk(w, After(s, id, core, m, debits))
  {
    var t := After(s, id, core, m, debits);
    forall x | x in t.debits
      ensures x in t.payloads && t.payloads[x].source == Marketplace && Matched(t.receipts, x, t.payloads[x].request)
      ensures t.payloads[x].request in t.markets && t.debits[x] > 0
    {
      UnmarkedIsOpen(w, s, id);
      if x != id { AfterMatches(w, s, id, core, m, debits, x, s.payloads[x].request); }
    }
  }

  lemma SharedKept(w: World, s: State, t: State)
    requires Shared(w, s) && t.payloads == s.payloads
    ensures Shared(w, t)
  {}

  lemma AfterMarkets(w: World, s: State, id: string, core: Core, m: Market, debits: map<string, int>, a: int)
    requires Proper(w) && Good(w, s) && Unmarked(w, s, id) && core.Core?
    requires debits == s.debits || debits == s.debits[id := a]
    requires var was := s.markets[s.payloads[id].request];
      FundedMarket(was, s.debits, id, core.fund) == Ok((m, debits)) && was.status == Pending
    ensures var t := After(s, id, core, m, debits); forall q :: q in t.markets ==> MarketOk(w, t, q)
  {
    var t := After(s, id, core, m, debits);
    forall q | q in t.markets ensures MarketOk(w, t, q) {
      if q == s.payloads[id].request {
        AfterOwnMarket(w, s, id, core, m, debits);
      } else {
        AfterOtherMarket(w, s, id, core, m, debits, a, q);
      }
    }
  }

  lemma AfterGood(w: World, s: State, id: string, core: Core, m: Market, debits: map<string, int>)
    requires Proper(w) && Good(w, s) && Unmarked(w, s, id) && core.Core?
    requires var was := s.markets[s.payloads[id].request];
      FundedMarket(was, s.debits, id, core.fund) == Ok((m, debits)) && was.status == Pending
    ensures Good(w, After(s, id, core, m, debits))
  {
    var t, r := After(s, id, core, m, debits), s.payloads[id].request;
    UnmarkedIsOpen(w, s, id);
    assert MarketOk(w, s, r);
    FundedMarketIs(s.markets[r], s.debits, id, core.fund);
    var a := if core.fund.Call? then core.fund.amount else 0;
    AfterMarks(w, s, id, core, m, debits);
    AfterDebits(w, s, id, core, m, debits, a);
    AfterMarkets(w, s, id, core, m, debits, a);
    SharedKept(w, s, t);
  }

  lemma FundedGood(w: World, s: State, id: string, core: Core)
    requires Proper(w) && Good(w, s) && id in s.payloads && s.payloads[id].source == Marketplace
    requires id in s.receipts ==> s.receipts[id].source != Marketplace
    requires Funded(s, id, s.payloads[id], core).Ok?
    ensures Good(w, Funded(s, id, s.payloads[id], core).value)
  {
    var ctx := s.payloads[id];
    var markets := Recorded(s.markets, ctx).value;
    var at := s.(markets := markets);
    RecordedIs(s.markets, ctx);
    ProjectGood(w, s, ctx.request);
    var (m, debits) := FundedMarket(markets[ctx.request], s.debits, id, core.fund).value;
    AfterGood(w, at, id, core, m, debits);
    assert Funded(s, id, ctx, core).value == After(at, id, core, m, debits);
  }

  lemma OfficialGood(w: World, s: State, id: string, core: Core)
    requires Proper(w) && Good(w, s) && id in s.payloads && s.payloads[id].source == Official && core.Core?
    requires id in s.receipts ==> s.receipts[id].source != Official
    ensures Good(w, s.(receipts := Marked(s.receipts, id, core, Official, "")))
  {
    var t := s.(receipts := Marked(s.receipts, id, core, Official, ""));
    assert id in s.receipts ==> s.receipts[id].source != Marketplace;
    forall x, r ensures Matched(t.receipts, x, r) <==> Matched(s.receipts, x, r) {
      if x != id { MarkedOthers(s, core, id, Official, "", x, r); }
    }
    ReceiptsKept(w, s, t);
  }

  lemma DeliverGood(w: World, s: State, id: string, core: Core)
    requires Proper(w) && Good(w, s) && Delivered(w, s, id, core).Ok?
    ensures Good(w, Delivered(w, s, id, core).value)
  {
    if w.natives[id].amount > 0 {
      if w.natives[id].creditPack {
        PackGood(w, s, id, core);
      } else if id !in s.receipts {
        OtherReceiptGood(w, s, id, core.rebate);
      }
    }
  }

  lemma PackGood(w: World, s: State, id: string, core: Core)
    requires Proper(w) && Good(w, s) && PackDelivered(w, s, id, core).Ok?
    ensures Good(w, PackDelivered(w, s, id, core).value)
  {
    var ctx := s.payloads[id];
    if id in s.receipts && s.receipts[id].source == ctx.source {
    } else if ctx.source == Marketplace {
      FundedGood(w, s, id, core);
    } else {
      OfficialGood(w, s, id, core);
    }
  }

  lemma PublishGood(w: World, s: State, ids: set<string>)
    requires Good(w, s)
    ensures Good(w, s.(published := ids))
  {
    var t := s.(published := ids);
    forall q | q in t.markets ensures MarketOk(w, t, q) {
      assert MarketOk(w, s, q);
      assert AllMatched(t, w.plan[q]) <==> AllMatched(s, w.plan[q]);
      MarketKept(w, s, t, q);
    }
  }

  lemma StepGood(w: World, s: State, e: Event)
    requires Proper(w) && Good(w, s)
    ensures Good(w, Step(w, s, e))
  {
    match e
    case Attach(r) => if r in w.plan && MayAttach(w, s, w.plan[r]) { AttachGood(w, s, r); }
    case Deliver(id, core, commit) =>
      if commit && Delivered(w, s, id, core).Ok? {
        DeliverGood(w, s, id, core);
        PublishGood(w, Delivered(w, s, id, core).value, s.published + {id});
      }
    case OtherReceipt(id, rebate) => if id !in s.receipts { OtherReceiptGood(w, s, id, rebate); }
    case Project(r) =>
      if r in w.plan && w.plan[r].source == Marketplace && Recorded(s.markets, w.plan[r]).Ok? { ProjectGood(w, s, r); }
    case Close(r, status) =>
      if r in s.markets && s.markets[r].status == Pending && !s.markets[r].referralPending {
        CloseGood(w, s, r, status);
      }
  }

  lemma {:induction false} RunGood(w: World, s: State, events: seq<Event>)
    requires Proper(w) && Good(w, s)
    ensures Good(w, Run(w, s, events))
    decreases |events|
  {
    if events != [] {
      StepGood(w, s, events[0]);
      RunGood(w, Step(w, s, events[0]), events[1..]);
    }
  }

  // Exactly once.

  /** In any run a request completes at most once, and it has completed exactly when every one of its
      settlements has its receipt. */
  lemma CompletesOnce(w: World, events: seq<Event>, r: string)
    requires Proper(w) && r in Run(w, EMPTY, events).markets
    ensures r in w.plan
    ensures Times(Run(w, EMPTY, events).completions, r)
         == if AllMatched(Run(w, EMPTY, events), w.plan[r]) then 1 else 0
  {
    RunGood(w, EMPTY, events);
    assert MarketOk(w, Run(w, EMPTY, events), r);
  }

  /** The gross amount stays split between commission, fee, referral debits and the owner, each
      settlement is debited at most once, and nothing leaves the market before completion. */
  lemma SplitConserved(w: World, events: seq<Event>, r: string)
    requires Proper(w) && r in Run(w, EMPTY, events).markets
    ensures r in w.plan
    ensures var s := Run(w, EMPTY, events);
      && s.markets[r].gross == s.markets[r].commission + s.markets[r].fee + s.markets[r].rebate + s.markets[r].ownerNet
      && 0 <= s.markets[r].ownerNet
      && s.markets[r].rebate == (if IsAttached(w, s, r) then SumOf(w.plan[r].ids, s.debits) else 0)
      && (s.markets[r].status != Pending ==> AllMatched(s, w.plan[r]))
  {
    RunGood(w, EMPTY, events);
    assert MarketOk(w, Run(w, EMPTY, events), r);
  }

  /** A context, a marked receipt and a debit that are still what they were. */
  ghost predicate Kept(s: State, t: State, id: string, r: string) {
    && (id in s.payloads ==> id in t.payloads && t.payloads[id] == s.payloads[id])
    && (Matched(s.receipts, id, r) ==> Matched(t.receipts, id, r))
    && (id in s.debits ==> id in t.debits && t.debits[id] == s.debits[id])
  }

  /** Nothing written is taken back. */
  lemma StepKeeps(w: World, s: State, e: Event, id: string, r: string)
    requires Proper(w) && Good(w, s)
    ensures Kept(s, Step(w, s, e), id, r)
  {
    match e
    case Attach(q) => if q in w.plan && MayAttach(w, s, w.plan[q]) { AttachKeeps(w, s, q, id, r); }
    case Deliver(d, core, commit) => DeliverStepKeeps(w, s, d, core, commit, id, r);
    case OtherReceipt(d, rebate) => OtherKeeps(w, s, e, id, r);
    case Project(_) => OtherKeeps(w, s, e, id, r);
    case Close(_, _) => OtherKeeps(w, s, e, id, r);
  }

  lemma OtherKeeps(w: World, s: State, e: Event, id: string, r: string)
    requires e.OtherReceipt? || e.Project? || e.Close?
    ensures Kept(s, Step(w, s, e), id, r)
  {}

  lemma DeliverStepKeeps(w: World, s: State, d: string, core: Core, commit: bool, id: string, r: string)
    requires Proper(w) && Good(w, s)
    ensures Kept(s, Step(w, s, Deliver(d, core, commit)), id, r)
  {
    if commit && Delivered(w, s, d, core).Ok? { DeliverKeeps(w, s, d, core, id, r); }
  }

  lemma AttachKeeps(w: World, s: State, q: string, id: string, r: string)
    requires q in w.plan && MayAttach(w, s, w.plan[q])
    ensures Kept(s, Attached(s, w.plan[q]), id, r)
  {}

  lemma DeliverKeeps(w: World, s: State, d: string, core: Core, id: string, r: string)
    requires Proper(w) && Good(w, s) && Delivered(w, s, d, core).Ok?
    ensures Kept(s, Delivered(w, s, d, core).value, id, r)
  {
    if w.natives[d].amount > 0 && w.natives[d].creditPack { PackKeeps(w, s, d, core, id, r); }
  }

  lemma PackKeeps(w: World, s: State, d: string, core: Core, id: string, r: string)
    requires Proper(w) && Good(w, s) && PackDelivered(w, s, d, core).Ok?
    ensures Kept(s, PackDelivered(w, s, d, core).value, id, r)
  {
    var ctx := s.payloads[d];
    if d in s.receipts && s.receipts[d].source == ctx.source {
    } else if ctx.source == Marketplace {
      FundedKeeps(w, s, d, core, id, r);
    } else if d != id {
      MarkedOthers(s, core, d, ctx.source, "", id, r);
    }
  }

  lemma FundedKeeps(w: World, s: State, d: string, core: Core, id: string, r: string)
    requires Proper(w) && Good(w, s) && d in s.payloads && s.payloads[d].source == Marketplace
    requires d in s.receipts ==> s.receipts[d].source != Marketplace
    requires Funded(s, d, s.payloads[d], core).Ok?
    ensures Kept(s, Funded(s, d, s.payloads[d], core).value, id, r)
  {
    if d != id { MarkedOthers(s, core, d, Marketplace, s.payloads[d].request, id, r); }
  }

  lemma NoMarketNoMatch(w: World, s: State, r: string)
    requires Proper(w) && Good(w, s) && r in w.plan && r !in s.markets
    ensures !AllMatched(s, w.plan[r])
  {
    assert w.plan[r].ids[0] in w.plan[r].ids && !Matched(s.receipts, w.plan[r].ids[0], r);
  }

  /** Completion fires in exactly the step that matches the last receipt. */
  lemma CompletesWithLastReceipt(w: World, s: State, e: Event, r: string)
    requires Proper(w) && Good(w, s) && r in w.plan
    ensures var t := Step(w, s, e);
      Times(t.completions, r) - Times(s.completions, r)
      == if AllMatched(t, w.plan[r]) && !AllMatched(s, w.plan[r]) then 1 else 0
  {
    var t := Step(w, s, e);
    StepGood(w, s, e);
    forall id | id in w.plan[r].ids ensures Matched(s.receipts, id, r) ==> Matched(t.receipts, id, r) {
      StepKeeps(w, s, e, id, r);
    }
    if r in s.markets { assert MarketOk(w, s, r); } else { NoMarketNoMatch(w, s, r); }
    if r in t.markets { assert MarketOk(w, t, r); } else { NoMarketNoMatch(w, t, r); }
  }

  /** Once every settlement of a request has been delivered, in whatever order and however often
      besides, the request is complete and no money moves for it again. */
  lemma CompleteIsFinal(w: World, s: State, e: Event, r: string)
    requires Proper(w) && Good(w, s) && r in w.plan && AllMatched(s, w.plan[r])
    ensures var t := Step(w, s, e);
      && r in s.markets && r in t.markets && AllMatched(t, w.plan[r])
      && Times(t.completions, r) == Times(s.completions, r) == 1
      && SameMoney(s, t, r)
  {
    var t := Step(w, s, e);
    StepGood(w, s, e);
    CompletesWithLastReceipt(w, s, e, r);
    forall id | id in w.plan[r].ids ensures Matched(t.receipts, id, r) { StepKeeps(w, s, e, id, r); }
    if r !in s.markets { NoMarketNoMatch(w, s, r); }
    if r !in t.markets { NoMarketNoMatch(w, t, r); }
    assert MarketOk(w, s, r) && MarketOk(w, t, r);
    FinalMoney(w, s, e, r);
  }

  lemma FinalMoney(w: World, s: State, e: Event, r: string)
    requires Proper(w) && Good(w, s) && r in w.plan && AllMatched(s, w.plan[r]) && r in s.markets
    ensures SameMoney(s, Step(w, s, e), r)
  {
    match e
    case Deliver(id, core, commit) => FinalDelivery(w, s, id, core, commit, r);
    case _ => OtherMoney(w, s, e, r);
  }

  lemma OtherMoney(w: World, s: State, e: Event, r: string)
    requires r in s.markets && !e.Deliver?
    ensures SameMoney(s, Step(w, s, e), r)
  {
    if e.Project? && e.request in w.plan && Recorded(s.markets, w.plan[e.request]).Ok? {
      ProjectMoney(s, w.plan[e.request], r);
    }
  }

  lemma ProjectMoney(s: State, ctx: Context, r: string)
    requires Recorded(s.markets, ctx).Ok? && r in s.markets
    ensures r in Recorded(s.markets, ctx).value && Recorded(s.markets, ctx).value[r] == s.markets[r]
  {}

  lemma FinalDelivery(w: World, s: State, id: string, core: Core, commit: bool, r: string)
    requires Proper(w) && Good(w, s) && r in w.plan && AllMatched(s, w.plan[r]) && r in s.markets
    ensures SameMoney(s, Step(w, s, Deliver(id, core, commit)), r)
  {
    if commit && Delivered(w, s, id, core).Ok? && w.natives[id].amount > 0 && w.natives[id].creditPack {
      DeliveryElsewhere(w, s, id, core, r);
    }
  }

  predicate SameMoney(s: State, t: State, r: string) {
    r in s.markets && r in t.markets
    && t.markets[r].rebate == s.markets[r].rebate && t.markets[r].ownerNet == s.markets[r].ownerNet
  }

  /** A delivery that does anything for a complete request would be for one of its settlements, and those
      return early. */
  lemma DeliveryElsewhere(w: World, s: State, id: string, core: Core, r: string)
    requires Proper(w) && Good(w, s) && r in w.plan && AllMatched(s, w.plan[r]) && r in s.markets
    requires PackDelivered(w, s, id, core).Ok?
    ensures SameMoney(s, PackDelivered(w, s, id, core).value, r)
  {
    var ctx := s.payloads[id];
    if ctx.request == r {
      assert Matched(s.receipts, id, r) && ctx == w.plan[r];
    } else if ctx.source == Marketplace && (id in s.receipts ==>
      s.receipts[id].source != Marketplace && s.receipts[id].rebate <= 0) {
      FundedElsewhere(s, id, ctx, core, r);
    }
  }

  lemma FundedElsewhere(s: State, id: string, ctx: Context, core: Core, r: string)
    requires ctx.request != r && r in s.markets && Funded(s, id, ctx, core).Ok?
    ensures SameMoney(s, Funded(s, id, ctx, core).value, r)
  {
    ProjectMoney(s, ctx, r);
  }

  // Exactly what completes a request.

  /** The event is a committed delivery of a settlement of the request, on a marketplace route. */
  ghost predicate IsDelivery(w: World, s: State, e: Event, id: string, r: string) {
    && e.Deliver? && e.id == id && e.commit
    && id in w.natives && w.natives[id].amount > 0 && w.natives[id].creditPack
    && PackDelivered(w, s, id, e.core).Ok? && s.payloads[id].source == Marketplace && s.payloads[id].request == r
  }

  ghost predicate WasDelivered(w: World, s: State, events: seq<Event>, id: string, r: string)
    decreases |events|
  {
    events != [] && (IsDelivery(w, s, events[0], id, r) || WasDelivered(w, Step(w, s, events[0]), events[1..], id, r))
  }

  lemma DeliveryMatches(w: World, s: State, e: Event, id: string, r: string)
    requires Proper(w) && Good(w, s) && IsDelivery(w, s, e, id, r)
    ensures Matched(Step(w, s, e).receipts, id, r)
  {}

  lemma OnlyDeliveryMatches(w: World, s: State, e: Event, id: string, r: string)
    requires Proper(w) && Good(w, s) && !Matched(s.receipts, id, r) && !IsDelivery(w, s, e, id, r)
    ensures !Matched(Step(w, s, e).receipts, id, r)
  {
    if e.Deliver? && e.commit && Delivered(w, s, e.id, e.core).Ok?
       && w.natives[e.id].amount > 0 && w.natives[e.id].creditPack {
      PackMatches(w, s, e.id, e.core, id, r);
    }
  }

  lemma PackMatches(w: World, s: State, d: string, core: Core, id: string, r: string)
    requires Proper(w) && Good(w, s) && PackDelivered(w, s, d, core).Ok? && !Matched(s.receipts, id, r)
    requires !(d == id && s.payloads[d].source == Marketplace && s.payloads[d].request == r)
    ensures !Matched(PackDelivered(w, s, d, core).value.receipts, id, r)
  {
    var ctx := s.payloads[d];
    if id != d && core.Core? {
      MarkedOthers(s, core, d, ctx.source, if ctx.source == Marketplace then ctx.request else "", id, r);
    }
  }

  /** A settlement's receipt is marked for a request exactly when it was delivered for it. */
  lemma {:induction false} MatchedExactly(w: World, s: State, events: seq<Event>, id: string, r: string)
    requires Proper(w) && Good(w, s)
    ensures Matched(Run(w, s, events).receipts, id, r) <==>
      Matched(s.receipts, id, r) || WasDelivered(w, s, events, id, r)
    decreases |events|
  {
    if events != [] {
      StepGood(w, s, events[0]);
      MatchedExactly(w, Step(w, s, events[0]), events[1..], id, r);
      if Matched(s.receipts, id, r) {
        StepKeeps(w, s, events[0], id, r);
      } else if IsDelivery(w, s, events[0], id, r) {
        DeliveryMatches(w, s, events[0], id, r);
      } else {
        OnlyDeliveryMatches(w, s, events[0], id, r);
      }
    }
  }

  /** In every run, with deliveries in any order, repeated and aborted: a request has completed once if a
      delivery of each of its settlements has committed, and never otherwise. */
  lemma CompletesWhenAllDelivered(w: World, events: seq<Event>, r: string)
    requires Proper(w) && r in w.plan
    ensures Times(Run(w, EMPTY, events).completions, r)
         == if forall id :: id in w.plan[r].ids ==> WasDelivered(w, EMPTY, events, id, r) then 1 else 0
  {
    var s := Run(w, EMPTY, events);
    RunGood(w, EMPTY, events);
    forall id | id in w.plan[r].ids ensures Matched(s.receipts, id, r) <==> WasDelivered(w, EMPTY, events, id, r) {
      MatchedExactly(w, EMPTY, events, id, r);
    }
    if r in s.markets { assert MarketOk(w, s, r); } else { NoMarketNoMatch(w, s, r); }
  }

  /** In every reachable state a context is on all its events or on none of them. */
  lemma AttachedTogether(w: World, events: seq<Event>, r: string)
    requires Proper(w) && r in w.plan
    ensures var s := Run(w, EMPTY, events);
      || IsAttached(w, s, r)
      || forall id :: id in w.plan[r].ids ==> id !in s.payloads || s.payloads[id] != w.plan[r]
  {
    RunGood(w, EMPTY, events);
  }
}
