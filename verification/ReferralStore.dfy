/** The two transactions as the worker runs them: writing a context into its events, and consuming one
    settlement event. */
module ReferralStore {
  import opened ReferralContext
  import opened ReferralRuns

  /** A completed native settlement of the funding request, as the attaching query lists it. */
  datatype Settled = Settled(id: string, amount: int)

  function IdsOf(natives: seq<Settled>): seq<string> {
    if natives == [] then [] else IdsOf(natives[..|natives| - 1]) + [natives[|natives| - 1].id]
  }

  function AmountOf(natives: seq<Settled>): int {
    if natives == [] then 0 else AmountOf(natives[..|natives| - 1]) + natives[|natives| - 1].amount
  }

  lemma {:induction false} AmountGrows(natives: seq<Settled>, n: nat)
    requires n <= |natives| && forall m :: m in natives ==> m.amount > 0
    ensures AmountOf(natives[..n]) <= AmountOf(natives)
    decreases |natives| - n
  {
    if n == |natives| {
      assert natives[..n] == natives;
    } else {
      AmountGrows(natives, n + 1);
      assert natives[..n + 1][..n] == natives[..n] && natives[n] in natives;
    }
  }

  /** What the relay knows of a request when it settles. */
  datatype Route = Route(
    request: string, consumer: int, channel: int, official: bool, group: string, owner: int,
    granted: int, paid: int, share: int)

  /** The funding side: its request and account, and the settled amount with what recording it charges. */
  datatype Charge = Charge(request: string, account: string, amount: int, commission: int, fee: int)

  function RouteOf(route: Route): Source {
    if route.group != "" && route.owner > 0 then Marketplace
    else if route.group == "" && route.owner == 0 && route.official then Official
    else Unset
  }

  /** A credit pack's settlement is recorded gross. */
  function ParamsOf(route: Route, amount: int): Params {
    Params(route.request, route.group, route.owner, route.consumer, amount, amount, route.granted, route.paid,
           route.share)
  }

  function ContextOf(route: Route, f: Charge, ids: seq<string>): Context {
    Context(route.request, f.request, f.account, route.consumer, route.channel, route.official, RouteOf(route), ids,
            ParamsOf(route, f.amount), f.commission, f.fee)
  }

  predicate HasEvidence(route: Route, f: Charge) {
    f.request != "" && f.account != "" && route.request != "" && route.channel > 0
  }

  /** The context a settled request gets, when its route is clear and its settlements add up. */
  function Attachable(route: Route, f: Charge, natives: seq<Settled>): Result<Context> {
    if !HasEvidence(route, f) || RouteOf(route) == Unset || natives == [] || AmountOf(natives) != f.amount then Err
    else Ok(ContextOf(route, f, IdsOf(natives)))
  }

  /** A request gets its context exactly when its evidence is there, its route is a marketplace channel or the official
      one beyond doubt, and its settlements add up to what was charged. */
  lemma AttachableExactly(route: Route, f: Charge, natives: seq<Settled>)
    ensures Attachable(route, f, natives).Ok? <==>
      && f.request != "" && f.account != "" && route.request != "" && route.channel > 0
      && ((route.group != "" && route.owner > 0) || (route.group == "" && route.owner == 0 && route.official))
      && natives != [] && AmountOf(natives) == f.amount
    ensures Attachable(route, f, natives).Ok? ==>
      var ctx := Attachable(route, f, natives).value;
      && ctx.source == (if route.group != "" then Marketplace else Official)
      && ctx.ids == IdsOf(natives) && ctx.request == ctx.params.request == route.request
      && ctx.funding == f.request && ctx.account == f.account
      && ctx.params.debit == ctx.params.gross == f.amount && ctx.params.granted == route.granted
  {}

  function NativeOf(route: Route, f: Charge, amount: int): Native {
    Native(amount, true, true, f.request, f.account, route.consumer, route.granted, route.paid, route.share)
  }

  /** The listed settlements are what the database holds for this funding and subscription. */
  ghost predicate Listed(w: World, route: Route, f: Charge, natives: seq<Settled>) {
    && Distinct(IdsOf(natives)) && "" !in IdsOf(natives)
    && (forall n :: n in natives ==> n.id in w.natives && w.natives[n.id] == NativeOf(route, f, n.amount))
  }

  lemma {:induction false} SumListed(natives: seq<Settled>, amounts: map<string, int>)
    requires forall n :: n in natives ==> n.id in amounts && amounts[n.id] == n.amount
    ensures SumOf(IdsOf(natives), amounts) == AmountOf(natives)
  {
    if natives != [] {
      var init, last := natives[..|natives| - 1], natives[|natives| - 1];
      assert last in natives;
      SumListed(init, amounts);
      SumSnoc(IdsOf(init), last.id, amounts);
    }
  }

  lemma {:induction false} SumSnoc(ids: seq<string>, id: string, amounts: map<string, int>)
    ensures SumOf(ids + [id], amounts) == SumOf(ids, amounts) + Get(amounts, id)
  {
    if ids == [] {
      assert ids + [id] == [id] && [id][1..] == [];
    } else {
      assert (ids + [id])[1..] == ids[1..] + [id];
      SumSnoc(ids[1..], id, amounts);
    }
  }

  lemma {:induction false} IdsListed(natives: seq<Settled>, id: string)
    ensures id in IdsOf(natives) <==> exists n :: n in natives && n.id == id
    ensures natives != [] ==> IdsOf(natives) != []
  {
    if natives != [] {
      var init, last := natives[..|natives| - 1], natives[|natives| - 1];
      IdsListed(init, id);
      assert natives == init + [last] && last in natives;
    }
  }

  /** What attaching writes, consuming accepts: for every event it is written into, the context passes
      validation. */
  lemma AttachedIsSound(w: World, route: Route, f: Charge, natives: seq<Settled>, id: string)
    requires Attachable(route, f, natives).Ok? && Listed(w, route, f, natives)
    requires id in Attachable(route, f, natives).value.ids
    ensures Sound(Attachable(route, f, natives).value, id, w.natives)
  {
    var ctx := Attachable(route, f, natives).value;
    var amounts := AmountsOf(w.natives, ctx);
    forall i | i in ctx.ids ensures i in w.natives && Belongs(w.natives[i], ctx) && Names(ctx, w.natives[i]) {
      IdsListed(natives, i);
    }
    forall n | n in natives ensures n.id in amounts && amounts[n.id] == n.amount { IdsListed(natives, n.id); }
    SumListed(natives, amounts);
  }

  /** The payloads once some events carry the context. */
  function AttachedTo(payloads: map<string, Context>, ids: seq<string>, ctx: Context): map<string, Context> {
    map id | id in payloads.Keys + IdSet(ids) :: if id in IdSet(ids) then ctx else payloads[id]
  }

  lemma AttachOne(payloads: map<string, Context>, ids: seq<string>, ctx: Context, id: string)
    ensures AttachedTo(payloads, ids, ctx)[id := ctx] == AttachedTo(payloads, ids + [id], ctx)
  {
    assert IdSet(ids + [id]) == IdSet(ids) + {id};
  }

  /** The first events may all be written. */
  predicate MayWrite(w: World, s: State, ctx: Context, ids: seq<string>) {
    forall id :: id in ids ==> IsEventOf(w, ctx, id) && MayCarry(s, ctx, id)
  }

  /** Looking at the payloads written so far decides the same as looking at the old ones. */
  lemma MayWriteMore(w: World, s: State, ctx: Context, i: nat)
    requires i < |ctx.ids| && MayWrite(w, s, ctx, ctx.ids[..i])
    ensures var payloads, id := AttachedTo(s.payloads, ctx.ids[..i], ctx), ctx.ids[i];
      (if id in payloads then payloads[id] == ctx else id !in s.published) <==> MayCarry(s, ctx, id)
    ensures MayWrite(w, s, ctx, ctx.ids[..i + 1]) <==> IsEventOf(w, ctx, ctx.ids[i]) && MayCarry(s, ctx, ctx.ids[i])
    ensures ctx.ids[..i + 1] == ctx.ids[..i] + [ctx.ids[i]] && ctx.ids[i] in ctx.ids
  {
    var id := ctx.ids[i];
    assert ctx.ids[..i + 1] == ctx.ids[..i] + [id];
  }

  class ReferralLedger {
    var state: State

    constructor ()
      ensures state == EMPTY
    {
      state := EMPTY;
    }

    /** The ids in order, when the amounts add up to exactly what was charged. */
    method CollectSettlements(natives: seq<Settled>, amount: int) returns (r: Result<seq<string>>)
      requires forall n :: n in natives ==> n.amount > 0
      ensures r.Ok? <==> natives != [] && AmountOf(natives) == amount
      ensures r.Ok? ==> r.value == IdsOf(natives)
    {
      var total, ids := 0, [];
      var i := 0;
      while i < |natives|
        invariant 0 <= i <= |natives| && total == AmountOf(natives[..i]) && ids == IdsOf(natives[..i])
      {
        assert natives[..i + 1][..i] == natives[..i];
        if natives[i].amount > amount - total {
          AmountGrows(natives, i + 1);
          return Err;
        }
        total, ids := total + natives[i].amount, ids + [natives[i].id];
        i := i + 1;
      }
      assert natives[..i] == natives;
      if total != amount || |ids| == 0 { return Err; }
      r := Ok(ids);
    }

    /** The whole attachment: nothing for a request no pack pays for, otherwise all events of its context
        carry it afterwards, or it fails and nothing changed. */
    method AttachCreditPackReferralContext(w: World, route: Route, f: Charge, natives: seq<Settled>) returns (ok: bool)
      requires forall n :: n in natives ==> n.amount > 0
      modifies this
      ensures route.granted <= 0 || f.amount <= 0 ==> ok && state == old(state)
      ensures route.granted > 0 && f.amount > 0 ==>
        var ctx := Attachable(route, f, natives);
        && ok == (ctx.Ok? && MayAttach(w, old(state), ctx.value))
        && state == if ok then Attached(old(state), ctx.value) else old(state)
    {
      if route.granted <= 0 || f.amount <= 0 { return true; }
      if f.request == "" || f.account == "" || route.request == "" || route.channel <= 0 { return false; }
      var source := RouteOf(route);
      if source == Unset { return false; }
      var ids := CollectSettlements(natives, f.amount);
      if ids.Err? { return false; }
      ok := WriteContext(w, ContextOf(route, f, ids.value));
    }

    /** Writing a context into its events, all of them or none. */
    method WriteContext(w: World, ctx: Context) returns (ok: bool)
      modifies this
      ensures ok <==> MayAttach(w, old(state), ctx)
      ensures state == if ok then Attached(old(state), ctx) else old(state)
    {
      var payloads := state.payloads;
      var i := 0;
      while i < |ctx.ids|
        invariant 0 <= i <= |ctx.ids| && state == old(state)
        invariant payloads == AttachedTo(state.payloads, ctx.ids[..i], ctx)
        invariant MayWrite(w, state, ctx, ctx.ids[..i])
      {
        var id := ctx.ids[i];
        MayWriteMore(w, state, ctx, i);
        AttachOne(state.payloads, ctx.ids[..i], ctx, id);
        var writable := CheckEvent(w, ctx, id, payloads);
        if !writable { return false; }
        payloads := payloads[id := ctx];
        i := i + 1;
      }
      assert ctx.ids[..i] == ctx.ids;
      state := state.(payloads := payloads);
      ok := true;
    }

    /** One event, as the transaction sees it: its identity, a context already there, its publication. */
    method CheckEvent(w: World, ctx: Context, id: string, payloads: map<string, Context>) returns (ok: bool)
      ensures ok <==> IsEventOf(w, ctx, id) && if id in payloads then payloads[id] == ctx else id !in state.published
    {
      if id !in w.outbox || w.outbox[id] != Outbox(id, true, ctx.account) { return false; }
      if id in payloads && payloads[id] != ctx { return false; }
      if id !in payloads && id in state.published { return false; }
      ok := true;
    }

    /** The marketplace row, created when it is not there yet, locked only while it is pending and is the
        row these parameters recorded. */
    method LockCreditPackReferral(ctx: Context, markets: map<string, Market>) returns (r: Result<map<string, Market>>)
      ensures r == match Recorded(markets, ctx)
                   case Err => Err
                   case Ok(after) => if Lockable(ctx, after) then Ok(after) else Err
    {
      var p := ctx.params;
      if p.request == "" || p.group == "" || p.owner <= 0 || p.consumer <= 0 || p.granted <= 0 { return Err; }
      var after := markets;
      if ctx.request !in markets {
        if p.gross <= 0 || p.gross - ctx.commission < ctx.fee { return Err; }
        after := markets[ctx.request := NewMarket(ctx)];
      }
      if after[ctx.request].params != p { return Err; }
      if after[ctx.request].status != Pending { return Err; }
      r := Ok(after);
    }

    /** One consumption of a settlement event: a failure anywhere, or an aborted commit, leaves no trace. */
    method ConsumeReferralSettlement(w: World, id: string, core: Core, commit: bool) returns (ok: bool)
      modifies this
      ensures ok <==> Delivered(w, old(state), id, core).Ok?
      ensures state == Step(w, old(state), Deliver(id, core, commit))
    {
      if id !in w.natives { return false; }
      if w.natives[id].amount <= 0 {
        if commit { state := state.(published := state.published + {id}); }
        return true;
      }
      var result := if w.natives[id].creditPack then Err else PlainlyDelivered(state, id, core);
      if w.natives[id].creditPack { result := ConsumePack(w, id, core); }
      if result.Err? { return false; }
      if commit { state := result.value.(published := result.value.published + {id}); }
      ok := true;
    }

    /** The delivery of a settlement a credit pack pays for, before its commit. */
    method ConsumePack(w: World, id: string, core: Core) returns (r: Result<State>)
      requires id in w.natives
      ensures r == PackDelivered(w, state, id, core)
    {
      if id !in state.payloads { return Err; }
      var ctx := state.payloads[id];
      var valid := ValidateCreditPackReferralContext(ctx, id, w.natives);
      if !valid { return Err; }
      if id in state.receipts {
        if state.receipts[id].source == ctx.source { return Ok(state); }
        if state.receipts[id].rebate > 0 { return Err; }
      }
      if ctx.source == Marketplace {
        r := FundFromMarket(id, ctx, core);
      } else {
        if core.CoreFails? { return Err; }
        r := Ok(state.(receipts := Marked(state.receipts, id, core, ctx.source, "")));
      }
    }

    /** Locking, the rebate routine with its funder, the receipt, and the completion test. */
    method FundFromMarket(id: string, ctx: Context, core: Core) returns (r: Result<State>)
      requires ctx.source == Marketplace
      ensures r == ReferralRuns.Funded(state, id, ctx, core)
    {
      var locked := LockCreditPackReferral(ctx, state.markets);
      if locked.Err? || core.CoreFails? { return Err; }
      var paid := FundedMarket(locked.value[ctx.request], state.debits, id, core.fund);
      if paid.Err? { return Err; }
      var (m, debits) := paid.value;
      var receipts := Marked(state.receipts, id, core, Marketplace, ctx.request);
      var completions := state.completions;
      var completed := |MatchedIds(receipts, ctx)|;
      if completed == |ctx.ids| {
        m := m.(referralPending := false);
        completions := Completed(completions, ctx.request);
      }
      r := Ok(state.(markets := locked.value[ctx.request := m], debits := debits, receipts := receipts,
                     completions := completions));
    }
  }
}
