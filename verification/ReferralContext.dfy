/** Referral settlement of one credit-pack request: the shared context its settlement events carry, the
    marketplace settlement they draw on, and what one delivery does. */
module ReferralContext {

  datatype Source = Unset | Official | Marketplace

  /** The parameters a marketplace settlement is recorded with. */
  datatype Params = Params(
    request: string, group: string, owner: int, consumer: int, debit: int, gross: int,
    granted: int, paid: int, share: int)

  /** The immutable evidence written into every settlement event of a request; `commission` and `fee`
      are what recording the marketplace settlement charges. */
  datatype Context = Context(
    request: string, funding: string, account: string, consumer: int, channel: int, official: bool,
    source: Source, ids: seq<string>, params: Params, commission: int, fee: int)

  /** A native settlement with what its reservation, account and subscription say; `completed` when it is
      completed and its reservation settled, `creditPack` when a credit pack pays for it. */
  datatype Native = Native(
    amount: int, completed: bool, creditPack: bool, funding: string, account: string,
    consumer: int, granted: int, paid: int, share: int)

  datatype Status = Pending | Released | Forfeited

  datatype Market = Market(
    params: Params, gross: int, commission: int, fee: int, rebate: int,
    ownerNet: int, referralPending: bool, status: Status)

  /** The row recording a request creates. */
  function NewMarket(ctx: Context): Market {
    var gross := ctx.params.gross;
    Market(ctx.params, gross, ctx.commission, ctx.fee, 0, gross - ctx.commission - ctx.fee, ctx.params.granted > 0,
           Pending)
  }

  /** The source and the marketplace settlement are written by the delivery that counts the receipt. */
  datatype Receipt = Receipt(rebate: int, source: Source, market: string)

  datatype Result<T> = Ok(value: T) | Err

  /** One call of the opaque rebate routine: it fails, or leaves a receipt with some rebate where there
      was none and calls its funder at most once. */
  datatype Core = CoreFails | Core(rebate: int, fund: Funding)

  datatype Funding = NoCall | Call(amount: int)

  // Membership.

  predicate Distinct(ids: seq<string>) { ids == [] || (ids[0] !in ids[1..] && Distinct(ids[1..])) }

  function IdSet(ids: seq<string>): set<string> { set id | id in ids }

  function Get(amounts: map<string, int>, id: string): int { if id in amounts then amounts[id] else 0 }

  function SumOf(ids: seq<string>, amounts: map<string, int>): int {
    if ids == [] then 0 else Get(amounts, ids[0]) + SumOf(ids[1..], amounts)
  }

  lemma {:induction false} DistinctAppend(ids: seq<string>, id: string)
    ensures Distinct(ids + [id]) <==> Distinct(ids) && id !in ids
  {
    if ids == [] {
      assert ids + [id] == [id];
    } else {
      assert (ids + [id])[1..] == ids[1..] + [id];
      DistinctAppend(ids[1..], id);
      assert forall x :: x in ids <==> x == ids[0] || x in ids[1..];
    }
  }

  lemma {:induction false} DistinctPrefix(ids: seq<string>, n: nat)
    requires n <= |ids| && Distinct(ids)
    ensures Distinct(ids[..n])
  {
    if n > 0 {
      DistinctPrefix(ids[1..], n - 1);
      assert ids[..n][1..] == ids[1..][..n - 1];
    }
  }

  lemma {:induction false} DistinctSize(ids: seq<string>)
    requires Distinct(ids)
    ensures |IdSet(ids)| == |ids|
  {
    if ids != [] {
      DistinctSize(ids[1..]);
      assert IdSet(ids) == {ids[0]} + IdSet(ids[1..]);
    }
  }

  lemma ProperSize(part: set<string>, whole: set<string>, id: string)
    requires part <= whole && id in whole && id !in part
    ensures |part| < |whole|
  {
    assert part + (whole - part) == whole;
    assert id in whole - part;
  }

  /** Counting the listed ids that have a property finds as many as are listed exactly when all do. */
  lemma CountIsAll(ids: seq<string>, found: set<string>)
    requires Distinct(ids)
    ensures |IdSet(ids) * found| == |ids| <==> forall id :: id in ids ==> id in found
  {
    DistinctSize(ids);
    if forall id :: id in ids ==> id in found {
      assert IdSet(ids) * found == IdSet(ids);
    } else {
      var id :| id in ids && id !in found;
      assert id in IdSet(ids) && id !in IdSet(ids) * found;
      ProperSize(IdSet(ids) * found, IdSet(ids), id);
    }
  }

  /** A completed settlement of the context's funding request and account. */
  predicate Belongs(n: Native, ctx: Context) { n.completed && n.funding == ctx.funding && n.account == ctx.account }

  /** The amounts the totals query sees. */
  function AmountsOf(natives: map<string, Native>, ctx: Context): map<string, int> {
    map id | id in natives && Belongs(natives[id], ctx) :: natives[id].amount
  }

  /** The context names the settlement's own funding and the subscription's own terms. */
  predicate Names(ctx: Context, n: Native) {
    var p := ctx.params;
    && ctx.request != "" && ctx.funding == n.funding && ctx.account == n.account && ctx.consumer == n.consumer
    && ctx.channel > 0 && ctx.ids != []
    && p.request == ctx.request && p.consumer == ctx.consumer
    && p.granted == n.granted && p.paid == n.paid && p.share == n.share
  }

  /** Its route is clearly a marketplace channel or clearly the official one. */
  predicate RouteSound(ctx: Context) {
    match ctx.source
    case Marketplace => ctx.params.group != "" && ctx.params.owner > 0 && ctx.params.gross == ctx.params.debit
    case Official => ctx.params.group == "" && ctx.params.owner == 0 && ctx.official
    case Unset => false
  }

  /** What validation demands of a context: it names the event's funding, its route is sound, its
      settlements are distinct and include this one, and they are all native settlements of the funding
      with amounts that add up to the debit. */
  ghost predicate Sound(ctx: Context, id: string, natives: map<string, Native>) {
    && id in natives && Names(ctx, natives[id]) && RouteSound(ctx)
    && Distinct(ctx.ids) && "" !in ctx.ids && id in ctx.ids
    && (forall i :: i in ctx.ids ==> i in natives && Belongs(natives[i], ctx))
    && SumOf(ctx.ids, AmountsOf(natives, ctx)) == ctx.params.debit
  }

  /** Every id named once, none empty. */
  method SeenIds(ids: seq<string>) returns (ok: bool, seen: set<string>)
    ensures ok <==> Distinct(ids) && "" !in ids
    ensures ok ==> seen == IdSet(ids)
  {
    seen := {};
    var i := 0;
    while i < |ids|
      invariant 0 <= i <= |ids| && seen == IdSet(ids[..i])
      invariant Distinct(ids[..i]) && "" !in ids[..i]
    {
      var next := ids[i];
      assert ids[..i + 1] == ids[..i] + [next];
      DistinctAppend(ids[..i], next);
      if next == "" || next in seen {
        if Distinct(ids) { DistinctPrefix(ids, i + 1); }
        ok := false;
        return;
      }
      seen := seen + {next};
      i := i + 1;
    }
    assert ids[..i] == ids;
    ok := true;
  }

  method ValidateCreditPackReferralContext(ctx: Context, id: string, natives: map<string, Native>) returns (ok: bool)
    requires id in natives
    ensures ok <==> Sound(ctx, id, natives)
  {
    var n, p := natives[id], ctx.params;
    if ctx.request == "" || ctx.funding != n.funding || ctx.account != n.account || ctx.consumer != n.consumer {
      return false;
    }
    if ctx.channel <= 0 || ctx.ids == [] { return false; }
    if p.request != ctx.request || p.consumer != ctx.consumer { return false; }
    if p.granted != n.granted || p.paid != n.paid || p.share != n.share { return false; }
    match ctx.source {
      case Marketplace =>
        if ctx.params.group == "" || ctx.params.owner <= 0 || ctx.params.gross != ctx.params.debit { return false; }
      case Official =>
        if ctx.params.group != "" || ctx.params.owner != 0 || !ctx.official { return false; }
      case Unset => return false;
    }
    var named, seen := SeenIds(ctx.ids);
    if !named || id !in seen { return false; }
    var amounts := AmountsOf(natives, ctx);
    var count := |seen * amounts.Keys|;
    var amount := SumOf(ctx.ids, amounts);
    CountIsAll(ctx.ids, amounts.Keys);
    ok := count == |ctx.ids| && amount == ctx.params.debit;
  }
}
