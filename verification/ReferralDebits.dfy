/** What deliveries move: a settlement's debit is what the rebate routine of its first committed delivery asked
    its funder for, and the owner's share is the recorded split less those debits. */
module ReferralDebits {
  import opened ReferralContext
  import opened ReferralRuns

  /** What the routine asks its funder for: nothing when it does not call it. */
  function Asked(core: Core): int { if core.Core? && core.fund.Call? then core.fund.amount else 0 }

  /** The settlement's receipt is marked for the request its event names. */
  ghost predicate IsSettled(s: State, id: string) {
    id in s.payloads && Matched(s.receipts, id, s.payloads[id].request)
  }

  /** The event is the delivery that first commits for a settlement of a marketplace route. */
  ghost predicate Opens(w: World, s: State, e: Event, id: string) {
    id in s.payloads && IsDelivery(w, s, e, id, s.payloads[id].request) && !IsSettled(s, id)
  }

  /** What the split leaves the owner before any debit. */
  function FullShare(ctx: Context): int { ctx.params.gross - ctx.commission - ctx.fee }

  function ShareOf(s: State, ctx: Context): int {
    if ctx.request in s.markets then s.markets[ctx.request].ownerNet else FullShare(ctx)
  }

  function RebateOf(s: State, r: string): int { if r in s.markets then s.markets[r].rebate else 0 }

  lemma DebitIs(m: Market, debits: map<string, int>, id: string, fund: Funding)
    requires id !in debits && FundedMarket(m, debits, id, fund).Ok?
    ensures var (n, d) := FundedMarket(m, debits, id, fund).value;
      var asked := if fund.Call? then fund.amount else 0;
      && asked >= 0 && n.ownerNet == m.ownerNet - asked && n.rebate == m.rebate + asked
      && d == if asked > 0 then debits[id := asked] else debits
  {}

  /** The first committed delivery debits its settlement by exactly what was asked, takes exactly that from the
      owner's share, and touches no other request. The receipt keeps an earlier rebate, or gets the routine's. */
  lemma FirstDeliveryDebits(w: World, s: State, e: Event, id: string)
    requires Proper(w) && Good(w, s) && Opens(w, s, e, id)
    ensures var t, ctx := Step(w, s, e), s.payloads[id];
      && Asked(e.core) >= 0 && id !in s.debits
      && t.debits == (if Asked(e.core) > 0 then s.debits[id := Asked(e.core)] else s.debits)
      && ctx.request in t.markets
      && t.markets[ctx.request].ownerNet == ShareOf(s, ctx) - Asked(e.core)
      && t.markets[ctx.request].rebate == RebateOf(s, ctx.request) + Asked(e.core)
      && (forall q :: q != ctx.request ==>
            (q in t.markets <==> q in s.markets) && (q in s.markets ==> t.markets[q] == s.markets[q]))
      && id in t.receipts && t.receipts[id].rebate == if id in s.receipts then s.receipts[id].rebate else e.core.rebate
  {
    var ctx := s.payloads[id];
    assert id !in s.debits;
    assert PackDelivered(w, s, id, e.core) == Funded(s, id, ctx, e.core) by { OpensFunds(w, s, e, id); }
    RecordedIs(s.markets, ctx);
    DebitIs(Recorded(s.markets, ctx).value[ctx.request], s.debits, id, e.core.fund);
  }

  lemma OpensFunds(w: World, s: State, e: Event, id: string)
    requires Proper(w) && Good(w, s) && Opens(w, s, e, id)
    ensures PackDelivered(w, s, id, e.core) == Funded(s, id, s.payloads[id], e.core)
  {}

  /** When it can commit: its context is sound, the rebate routine succeeds, nothing but an empty receipt came before,
      the market is still to be recorded or is pending as recorded, and the owner's share covers what is asked. */
  lemma FirstDeliveryAccepted(w: World, s: State, id: string, core: Core)
    requires Proper(w) && Good(w, s) && id in s.payloads && s.payloads[id].source == Marketplace && !IsSettled(s, id)
    requires id in w.natives && w.natives[id].amount > 0 && w.natives[id].creditPack
    ensures Delivered(w, s, id, core).Ok? <==> var ctx := s.payloads[id];
      && Sound(ctx, id, w.natives) && core.Core? && ctx.params.consumer > 0
      && (id in s.receipts ==> s.receipts[id].rebate <= 0)
      && (if ctx.request in s.markets
          then s.markets[ctx.request].params == ctx.params && s.markets[ctx.request].status == Pending
          else ctx.params.gross > 0 && ctx.fee <= ctx.params.gross - ctx.commission)
      && 0 <= Asked(core) <= ShareOf(s, ctx)
  {
    var ctx := s.payloads[id];
    assert id in s.receipts ==> s.receipts[id].source != Marketplace;
    if Sound(ctx, id, w.natives) && core.Core? {
      OpenMarket(w, s, id);
      if Recorded(s.markets, ctx).Ok? {
        var m := Recorded(s.markets, ctx).value[ctx.request];
        FundedExactly(m, s.debits, id, core);
      }
    }
  }

  /** The market a first delivery works on: as recorded, or fresh. */
  lemma OpenMarket(w: World, s: State, id: string)
    requires Proper(w) && Good(w, s) && id in s.payloads && s.payloads[id].source == Marketplace && !IsSettled(s, id)
    ensures id !in s.debits && s.payloads[id].params.granted > 0
    ensures var ctx := s.payloads[id];
      Recorded(s.markets, ctx).Ok? ==>
      var after := Recorded(s.markets, ctx).value;
      && ctx.request in after && Splits(after[ctx.request]) && after[ctx.request].referralPending
      && after[ctx.request].ownerNet == ShareOf(s, ctx) >= 0
      && (ctx.request in s.markets ==> after[ctx.request] == s.markets[ctx.request])
      && (ctx.request !in s.markets ==> after[ctx.request] == NewMarket(ctx))
  {
    var ctx := s.payloads[id];
    if Recorded(s.markets, ctx).Ok? { RecordedIs(s.markets, ctx); }
    if ctx.request in s.markets {
      assert MarketOk(w, s, ctx.request);
      UnmarkedIsOpen(w, s, id);
    }
  }

  predicate Splits(m: Market) { m.gross - m.commission - m.fee - m.rebate == m.ownerNet }

  lemma FundedExactly(m: Market, debits: map<string, int>, id: string, core: Core)
    requires id !in debits && Splits(m) && m.ownerNet >= 0 && m.referralPending && core.Core?
    ensures m.status == Pending ==> (FundedMarket(m, debits, id, core.fund).Ok? <==> 0 <= Asked(core) <= m.ownerNet)
  {
    if core.fund.Call? { GuardNeverFires(m, debits, id, core.fund.amount); }
  }

  /** The settlement's debit is what it was. */
  predicate SameDebit(s: State, t: State, id: string) {
    (id in t.debits <==> id in s.debits) && (id in s.debits ==> t.debits[id] == s.debits[id])
  }

  lemma QuietDebits(w: World, s: State, e: Event, id: string)
    requires !e.Deliver?
    ensures SameDebit(s, Step(w, s, e), id)
  {}

  lemma DeliveryDebits(w: World, s: State, d: string, core: Core, commit: bool, id: string)
    requires Proper(w) && Good(w, s) && !Opens(w, s, Deliver(d, core, commit), id)
    ensures SameDebit(s, Step(w, s, Deliver(d, core, commit)), id)
  {
    if commit && Delivered(w, s, d, core).Ok? {
      if w.natives[d].amount > 0 && w.natives[d].creditPack {
        PackDebits(w, s, d, core, id);
      } else {
        PlainDebits(w, s, d, core, id);
      }
    }
  }

  lemma PlainDebits(w: World, s: State, d: string, core: Core, id: string)
    requires Delivered(w, s, d, core).Ok? && !(w.natives[d].amount > 0 && w.natives[d].creditPack)
    ensures SameDebit(s, Delivered(w, s, d, core).value, id)
  {}

  /** No other event debits the settlement or changes its debit. */
  lemma OthersDoNotDebit(w: World, s: State, e: Event, id: string)
    requires Proper(w) && Good(w, s) && !Opens(w, s, e, id)
    ensures SameDebit(s, Step(w, s, e), id)
  {
    if e.Deliver? { DeliveryDebits(w, s, e.id, e.core, e.commit, id); } else { QuietDebits(w, s, e, id); }
  }

  lemma PackDebits(w: World, s: State, d: string, core: Core, id: string)
    requires Proper(w) && Good(w, s) && PackDelivered(w, s, d, core).Ok?
    requires d == id ==> s.payloads[d].source != Marketplace || IsSettled(s, d)
    ensures SameDebit(s, PackDelivered(w, s, d, core).value, id)
  {
    var ctx := s.payloads[d];
    if d != id && PackDelivered(w, s, d, core) == Funded(s, d, ctx, core) { FundedDebits(s, d, ctx, core, id); }
  }

  lemma FundedDebits(s: State, d: string, ctx: Context, core: Core, id: string)
    requires d != id && Funded(s, d, ctx, core).Ok?
    ensures SameDebit(s, Funded(s, d, ctx, core).value, id)
  {}

  /** What the first committed delivery of a settlement asks for in a run; 0 when there is none. */
  ghost function FirstAsked(w: World, s: State, events: seq<Event>, id: string): int
    decreases |events|
  {
    if events == [] then 0
    else if Opens(w, s, events[0], id) then Asked(events[0].core)
    else FirstAsked(w, Step(w, s, events[0]), events[1..], id)
  }

  lemma OpensSettles(w: World, s: State, e: Event, id: string)
    requires Proper(w) && Good(w, s) && Opens(w, s, e, id)
    ensures IsSettled(Step(w, s, e), id)
  {
    DeliveryMatches(w, s, e, id, s.payloads[id].request);
    StepKeeps(w, s, e, id, s.payloads[id].request);
  }

  lemma SettledStays(w: World, s: State, e: Event, id: string)
    requires Proper(w) && Good(w, s) && IsSettled(s, id)
    ensures IsSettled(Step(w, s, e), id)
  {
    StepKeeps(w, s, e, id, s.payloads[id].request);
  }

  lemma {:induction false} SettledRun(w: World, s: State, events: seq<Event>, id: string)
    requires Proper(w) && Good(w, s) && IsSettled(s, id)
    ensures Get(Run(w, s, events).debits, id) == Get(s.debits, id)
    decreases |events|
  {
    if events != [] {
      OthersDoNotDebit(w, s, events[0], id);
      SettledStays(w, s, events[0], id);
      StepGood(w, s, events[0]);
      SettledRun(w, Step(w, s, events[0]), events[1..], id);
    }
  }

  lemma {:induction false} DebitsFrom(w: World, s: State, events: seq<Event>, id: string)
    requires Proper(w) && Good(w, s) && id !in s.debits && !IsSettled(s, id)
    ensures Get(Run(w, s, events).debits, id) == FirstAsked(w, s, events, id) >= 0
    decreases |events|
  {
    if events != [] {
      var t := Step(w, s, events[0]);
      StepGood(w, s, events[0]);
      if Opens(w, s, events[0], id) {
        FirstDeliveryDebits(w, s, events[0], id);
        OpensSettles(w, s, events[0], id);
        SettledRun(w, t, events[1..], id);
      } else {
        OthersDoNotDebit(w, s, events[0], id);
        if IsSettled(t, id) {
          OnlyOpensSettles(w, s, events[0], id);
        } else {
          DebitsFrom(w, t, events[1..], id);
        }
      }
    }
  }

  /** A settlement becomes settled by its first committed delivery only. */
  lemma OnlyOpensSettles(w: World, s: State, e: Event, id: string)
    requires Proper(w) && Good(w, s) && !IsSettled(s, id) && IsSettled(Step(w, s, e), id)
    ensures Opens(w, s, e, id)
  {
    var t := Step(w, s, e);
    var r := t.payloads[id].request;
    if Matched(s.receipts, id, r) {
      assert MarksOk(w, s);
      StepKeeps(w, s, e, id, r);
    } else if !IsDelivery(w, s, e, id, r) {
      OnlyDeliveryMatches(w, s, e, id, r);
    }
  }

  /** In every run each settlement is debited by exactly what its first committed delivery asked for: not at all
      when there was no such delivery, or it did not call its funder or called it with 0. */
  lemma DebitsExactly(w: World, events: seq<Event>, id: string)
    requires Proper(w)
    ensures var s := Run(w, EMPTY, events);
      && FirstAsked(w, EMPTY, events, id) >= 0
      && (id in s.debits <==> FirstAsked(w, EMPTY, events, id) > 0)
      && (id in s.debits ==> s.debits[id] == FirstAsked(w, EMPTY, events, id))
  {
    DebitsFrom(w, EMPTY, events, id);
    RunGood(w, EMPTY, events);
  }

  // The owner's share.

  /** Every market was recorded with its request's own terms. */
  ghost predicate TermsOk(w: World, s: State) {
    forall r :: r in s.markets ==> r in w.plan && HasTerms(s.markets[r], w.plan[r])
  }

  predicate HasTerms(m: Market, ctx: Context) {
    m.params == ctx.params && m.gross == ctx.params.gross && m.commission == ctx.commission && m.fee == ctx.fee
  }

  lemma RecordedTerms(w: World, markets: map<string, Market>, r: string)
    requires Proper(w) && r in w.plan && Recorded(markets, w.plan[r]).Ok?
    requires forall q :: q in markets ==> q in w.plan && HasTerms(markets[q], w.plan[q])
    ensures var after := Recorded(markets, w.plan[r]).value;
      forall q :: q in after ==> q in w.plan && HasTerms(after[q], w.plan[q])
  {}

  lemma FundedTerms(w: World, s: State, id: string, core: Core)
    requires Proper(w) && Good(w, s) && TermsOk(w, s) && id in s.payloads && Funded(s, id, s.payloads[id], core).Ok?
    ensures TermsOk(w, Funded(s, id, s.payloads[id], core).value)
  {
    var ctx := s.payloads[id];
    RecordedTerms(w, s.markets, ctx.request);
    RecordedIs(s.markets, ctx);
    KeepsTerms(Recorded(s.markets, ctx).value[ctx.request], s.debits, id, core.fund);
  }

  lemma KeepsTerms(m: Market, debits: map<string, int>, id: string, fund: Funding)
    requires FundedMarket(m, debits, id, fund).Ok?
    ensures var n := FundedMarket(m, debits, id, fund).value.0;
      n.params == m.params && n.gross == m.gross && n.commission == m.commission && n.fee == m.fee
  {}

  lemma PackTerms(w: World, s: State, id: string, core: Core)
    requires Proper(w) && Good(w, s) && TermsOk(w, s) && PackDelivered(w, s, id, core).Ok?
    ensures TermsOk(w, PackDelivered(w, s, id, core).value)
  {
    if PackDelivered(w, s, id, core) == Funded(s, id, s.payloads[id], core) { FundedTerms(w, s, id, core); }
  }

  lemma DeliveredTerms(w: World, s: State, id: string, core: Core)
    requires Proper(w) && Good(w, s) && TermsOk(w, s) && Delivered(w, s, id, core).Ok?
    ensures TermsOk(w, Delivered(w, s, id, core).value)
  {
    if w.natives[id].amount > 0 && w.natives[id].creditPack { PackTerms(w, s, id, core); }
  }

  lemma CloseTerms(w: World, s: State, r: string, status: Status)
    requires TermsOk(w, s) && r in s.markets
    ensures TermsOk(w, s.(markets := s.markets[r := s.markets[r].(status := status)]))
  {}

  lemma StepTerms(w: World, s: State, e: Event)
    requires Proper(w) && Good(w, s) && TermsOk(w, s)
    ensures TermsOk(w, Step(w, s, e))
  {
    match e
    case Deliver(id, core, commit) => if commit && Delivered(w, s, id, core).Ok? { DeliveredTerms(w, s, id, core); }
    case Project(r) => if r in w.plan && Recorded(s.markets, w.plan[r]).Ok? { RecordedTerms(w, s.markets, r); }
    case Close(r, status) => if r in s.markets { CloseTerms(w, s, r, status); }
    case Attach(_) =>
    case OtherReceipt(_, _) =>
  }

  lemma {:induction false} RunTerms(w: World, s: State, events: seq<Event>)
    requires Proper(w) && Good(w, s) && TermsOk(w, s)
    ensures TermsOk(w, Run(w, s, events))
    decreases |events|
  {
    if events != [] {
      StepGood(w, s, events[0]);
      StepTerms(w, s, events[0]);
      RunTerms(w, Step(w, s, events[0]), events[1..]);
    }
  }

  ghost function SumAsked(w: World, events: seq<Event>, ids: seq<string>): int {
    if ids == [] then 0 else FirstAsked(w, EMPTY, events, ids[0]) + SumAsked(w, events, ids[1..])
  }

  lemma {:induction false} DebitsAreAsked(w: World, events: seq<Event>, ids: seq<string>)
    requires Proper(w)
    ensures SumOf(ids, Run(w, EMPTY, events).debits) == SumAsked(w, events, ids)
  {
    if ids != [] {
      DebitsExactly(w, events, ids[0]);
      DebitsAreAsked(w, events, ids[1..]);
    }
  }

  /** In every run a market has its request's recorded gross, commission and fee, and the owner's share is what
      they leave, less what the first committed deliveries of its settlements asked for. */
  lemma OwnerShareExactly(w: World, events: seq<Event>, r: string)
    requires Proper(w) && r in Run(w, EMPTY, events).markets
    ensures r in w.plan && HasTerms(Run(w, EMPTY, events).markets[r], w.plan[r])
    ensures Run(w, EMPTY, events).markets[r].ownerNet == FullShare(w.plan[r]) -
      if IsAttached(w, Run(w, EMPTY, events), r) then SumAsked(w, events, w.plan[r].ids) else 0
  {
    var s := Run(w, EMPTY, events);
    RunGood(w, EMPTY, events);
    RunTerms(w, EMPTY, events);
    SplitConserved(w, events, r);
    DebitsAreAsked(w, events, w.plan[r].ids);
  }
}
