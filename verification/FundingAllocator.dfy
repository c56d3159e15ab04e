/** The allocator that charges a settled request to its account's funding lots: a row loop, and
    on PostgreSQL batches of set-based statements in front of it. Both refine `Settled`. */
module FundingAllocator {
  import opened FundingLots
  import opened FundingBatch
  import opened Text

  /** LIMIT of the batch statement; the application's is 4096. */
  type Limit = n: nat | n > 0 witness 4096

  datatype Result<T> = Success(value: T) | Failure

  predicate Allocated(rows: seq<Allocation>, request: string) {
    exists i | 0 <= i < |rows| :: rows[i].request == request
  }

  /** lot_id is the primary key and idempotency_key is unique. */
  predicate Conflicts(lots: seq<Lot>, lot: Lot) {
    exists i | 0 <= i < |lots| :: lots[i].key.lotId == lot.key.lotId || lots[i].idempotencyKey == lot.idempotencyKey
  }

  /** How many rows come before the key in table order. */
  function Position(lots: seq<Lot>, key: Key): (p: nat)
    ensures p <= |lots|
  {
    if lots == [] || !Before(lots[0].key, key) then 0 else 1 + Position(lots[1..], key)
  }

  function Insert(lots: seq<Lot>, lot: Lot): seq<Lot> {
    var p := Position(lots, lot.key);
    lots[..p] + [lot] + lots[p..]
  }

  /** The lot that stands for wallet quota older than lot tracking. */
  function LegacyLot(key: Key, account: string, request: string, amount: int): Lot {
    Lot(key, account, LegacyUnattributed, "legacy_wallet", request,
        "legacy-wallet:" + account + ":" + request, amount, 0, amount, 0.0)
  }

  /** What settling a request does to the books: nothing when it is already allocated, otherwise
      an oldest-first draw, with a legacy lot for exactly the part no live lot covers. */
  function Settled(books: Books, request: string, account: string, amount: int, legacyKey: Key): Result<Books> {
    if Allocated(books.rows, request) || amount <= 0 then Success(books) else
      var total := Total(books.lots, account);
      var lots := After(books.lots, account, Min(amount, total));
      var rows := books.rows + Rows(books.lots, account, request, Min(amount, total));
      if amount <= total then Success(Books(lots, rows)) else
        var legacy := LegacyLot(legacyKey, account, request, amount - total);
        if Conflicts(books.lots, legacy) then Failure else
          Success(Books(Insert(lots, Charged(legacy, amount - total)),
                        rows + [RowFor(request, legacy, amount - total)]))
  }

  /** The index of the oldest live row, or the table's length. */
  function FirstLive(lots: seq<Lot>, account: string): (k: nat)
    ensures k <= |lots|
    ensures k < |lots| ==> Live(lots[k], account) > 0
    ensures k == |lots| <==> Total(lots, account) == 0
  {
    if lots == [] || Live(lots[0], account) > 0 then 0 else 1 + FirstLive(lots[1..], account)
  }

  /** Charging the oldest live row is a draw of what that row gives. */
  lemma {:induction false} ChargeFirst(lots: seq<Lot>, account: string, request: string, amount: nat)
    requires amount > 0 && FirstLive(lots, account) < |lots|
    ensures var k := FirstLive(lots, account);
      var used := Min(amount, lots[k].remaining);
      && used <= Total(lots, account)
      && lots[k := Charged(lots[k], used)] == After(lots, account, used)
      && Rows(lots, account, request, used) == [RowFor(request, lots[k], used)]
      && (used < amount ==> WholeRows(lots, account, used))
  {
    var k := FirstLive(lots, account);
    var used := Min(amount, lots[k].remaining);
    if k == 0 {
      RowsOfNothing(lots[1..], account, request);
      assert lots == [lots[0]] + lots[1..];
    } else {
      ChargeFirst(lots[1..], account, request, amount);
      ChargeFirstStep(lots, account, request, used, k);
    }
  }

  lemma ChargeFirstStep(lots: seq<Lot>, account: string, request: string, used: nat, k: nat)
    requires 0 < k < |lots| && Live(lots[0], account) == 0
    requires lots[1..][k - 1 := Charged(lots[k], used)] == After(lots[1..], account, used)
    ensures lots[k := Charged(lots[k], used)] == After(lots, account, used)
    ensures Rows(lots, account, request, used) == Rows(lots[1..], account, request, used)
  {
    DeadHead(lots, account, request, used);
    UpdateTail(lots, k, Charged(lots[k], used));
  }

  lemma UpdateTail(lots: seq<Lot>, k: nat, lot: Lot)
    requires 0 < k < |lots|
    ensures lots[k := lot] == [lots[0]] + lots[1..][k - 1 := lot]
  {}

  /** A row that is not live takes no part in a draw. */
  lemma DeadHead(lots: seq<Lot>, account: string, request: string, used: nat)
    requires lots != [] && Live(lots[0], account) == 0
    ensures After(lots, account, used) == [lots[0]] + After(lots[1..], account, used)
    ensures Rows(lots, account, request, used) == Rows(lots[1..], account, request, used)
  {
    assert Charged(lots[0], 0) == lots[0];
    assert [] + Rows(lots[1..], account, request, used) == Rows(lots[1..], account, request, used);
  }

  lemma {:induction false} WholeCompose(lots: seq<Lot>, account: string, x: nat, y: nat)
    requires WholeRows(lots, account, x) && WholeRows(After(lots, account, x), account, y)
    ensures WholeRows(lots, account, x + y)
  {
    if x == 0 {
      RowsOfNothing(lots, account, "");
    } else if y != 0 {
      var live := Live(lots[0], account);
      var mid := After(lots, account, x);
      assert mid[1..] == After(lots[1..], account, x - live) && Live(mid[0], account) == 0;
      WholeCompose(lots[1..], account, x - live, y);
    }
  }

  /** The part of a settlement done so far: x drawn, in whole rows as long as something is open. */
  ghost predicate DrawnSoFar(before: Books, now: Books, request: string, account: string, x: nat, open: nat) {
    && x <= Total(before.lots, account)
    && now.lots == After(before.lots, account, x)
    && now.rows == before.rows + Rows(before.lots, account, request, x)
    && (open > 0 ==> WholeRows(before.lots, account, x))
  }

  /** `next` is `now` after a draw of u towards the open part. */
  ghost predicate Drew(now: Books, next: Books, request: string, account: string, u: int, open: nat) {
    && 0 <= u <= Min(open, Total(now.lots, account))
    && next.lots == After(now.lots, account, u)
    && next.rows == now.rows + Rows(now.lots, account, request, u)
    && (u < open ==> WholeRows(now.lots, account, u))
  }

  /** One more draw extends the part done so far. */
  lemma DrawMore(before: Books, now: Books, next: Books, request: string, account: string, x: nat, open: nat, u: nat)
    requires open > 0 && DrawnSoFar(before, now, request, account, x, open)
    requires Drew(now, next, request, account, u, open)
    ensures DrawnSoFar(before, next, request, account, x + u, open - u)
  {
    TotalAfter(before.lots, account, x);
    AfterCompose(before.lots, account, x, u);
    RowsCompose(before.lots, account, request, x, u);
    Concat3(before.rows, Rows(before.lots, account, request, x), Rows(now.lots, account, request, u));
    if u < open { WholeCompose(before.lots, account, x, u); }
  }

  /** The allocator's loop invariant while part of the amount is open. */
  ghost predicate Progress(before: Books, now: Books, request: string, account: string, amount: nat, open: nat,
                           cursor: Option<Key>) {
    && 0 < open <= amount && !Allocated(before.rows, request)
    && DrawnSoFar(before, now, request, account, amount - open, open)
    && Ordered(now.lots) && NoLiveUpTo(now.lots, account, cursor)
  }

  lemma DrawnNothing(before: Books, request: string, account: string, amount: nat)
    requires amount > 0 && !Allocated(before.rows, request) && Ordered(before.lots)
    ensures Progress(before, before, request, account, amount, amount, None)
  {
    RowsOfNothing(before.lots, account, request);
  }

  lemma BatchProgress(before: Books, now: Books, next: Books, request: string, account: string, amount: nat, open: nat,
                      u: int, cursor: Option<Key>, last: Option<Key>, legacyKey: Key)
    requires Progress(before, now, request, account, amount, open, cursor)
    requires 0 < u && Drew(now, next, request, account, u, open)
    requires u < open ==> NoLiveUpTo(next.lots, account, last)
    ensures u < open ==> Progress(before, next, request, account, amount, open - u, last)
    ensures u == open ==> Settled(before, request, account, amount, legacyKey) == Success(next)
  {
    DrawMore(before, now, next, request, account, amount - open, open, u);
    OrderedAfter(now.lots, account, u);
  }

  lemma BatchOfNothing(now: Books, request: string, account: string, open: nat, cursor: Option<Key>, limit: Limit)
    requires Ordered(now.lots) && NoLiveUpTo(now.lots, account, cursor) && open > 0
    requires Statement(now, request, account, open, cursor, limit, false, {}).1.used == 0
    ensures Statement(now, request, account, open, cursor, limit, false, {}).0 == now
    ensures Total(now.lots, account) == 0
  {
    BatchIsDraw(now, request, account, open, cursor, limit);
    RowsOfNothing(now.lots, account, request);
  }

  lemma RowProgress(before: Books, now: Books, next: Books, request: string, account: string, amount: nat, open: nat,
                    u: int, cursor: Option<Key>, legacyKey: Key)
    requires Progress(before, now, request, account, amount, open, cursor) && 0 < u <= open
    requires Total(now.lots, account) > 0 ==> Drew(now, next, request, account, u, open)
    requires Total(now.lots, account) == 0 ==>
      var legacy := LegacyLot(legacyKey, account, request, open);
      u == open && !Conflicts(now.lots, legacy) &&
      next == Books(Insert(now.lots, Charged(legacy, open)), now.rows + [RowFor(request, legacy, open)])
    ensures u < open ==> Progress(before, next, request, account, amount, open - u, cursor)
    ensures u == open ==> Settled(before, request, account, amount, legacyKey) == Success(next)
  {
    if Total(now.lots, account) > 0 {
      NoLiveKept(now.lots, account, u, cursor);
      BatchProgress(before, now, next, request, account, amount, open, u, cursor, cursor, legacyKey);
    } else {
      LegacyCompletes(before, now, request, account, amount, open, legacyKey);
    }
  }

  lemma {:induction false} ConflictsKept(lots: seq<Lot>, account: string, x: nat, lot: Lot)
    ensures Conflicts(After(lots, account, x), lot) <==> Conflicts(lots, lot)
  {
    forall i | 0 <= i < |lots|
      ensures After(lots, account, x)[i].key == lots[i].key
        && After(lots, account, x)[i].idempotencyKey == lots[i].idempotencyKey
    {
      AfterIdentity(lots, account, x, i);
    }
  }

  lemma {:induction false} AfterIdentity(lots: seq<Lot>, account: string, x: nat, i: nat)
    requires i < |lots|
    ensures After(lots, account, x)[i] == lots[i].(remaining := After(lots, account, x)[i].remaining)
  {
    if i > 0 { AfterIdentity(lots[1..], account, x - Share(lots[0], account, x), i - 1); }
  }

  /** With nothing live left, a legacy lot for the open part completes the settlement. */
  lemma LegacyCompletes(before: Books, now: Books, request: string, account: string, amount: nat, open: nat,
                        legacyKey: Key)
    requires 0 < open <= amount && !Allocated(before.rows, request)
    requires DrawnSoFar(before, now, request, account, amount - open, open)
    requires Total(now.lots, account) == 0
    ensures var legacy := LegacyLot(legacyKey, account, request, open);
      Settled(before, request, account, amount, legacyKey) ==
      if Conflicts(now.lots, legacy) then Failure
      else Success(Books(Insert(now.lots, Charged(legacy, open)), now.rows + [RowFor(request, legacy, open)]))
  {
    TotalAfter(before.lots, account, amount - open);
    assert Total(before.lots, account) == amount - open;
    ConflictsKept(before.lots, account, amount - open, LegacyLot(legacyKey, account, request, open));
  }

  lemma InsertThenCharge(lots: seq<Lot>, lot: Lot, used: int)
    ensures var p := Position(lots, lot.key);
      Insert(lots, lot)[p] == lot &&
      Insert(lots, lot)[p := Charged(lot, used)] == Insert(lots, Charged(lot, used))
  {}

  function SourceFromReason(reason: string): Source {
    var r := Lower(TrimSpace(reason));
    if Contains(r, "topup") || Contains(r, "top_up") then Topup
    else if Contains(r, "blind_box") || Contains(r, "blind-box") then BlindBox
    else Other
  }

  /** The realized-value multiplier a new lot is given; rebates and conversions carry none. */
  function LotMultiplier(reason: string, policies: map<Source, real>): real {
    var source := SourceFromReason(reason);
    if reason in {"referral_consumption_rebate", "subscription_conversion_base", "subscription_conversion_gift"} then
      0.0
    else if source in policies then policies[source] else 0.0
  }

  datatype CreditParams = CreditParams(
    account: string, amount: int, idempotencyKey: string, reason: string,
    referenceType: string, referenceId: string)

  function NewLot(p: CreditParams, policies: map<Source, real>, key: Key): Lot {
    Lot(key, p.account, SourceFromReason(p.reason), p.referenceType, p.referenceId, p.idempotencyKey,
        p.amount, 0, p.amount, LotMultiplier(p.reason, policies))
  }

  /** The index of the lot with this idempotency key, or the table's length. */
  function FindKey(lots: seq<Lot>, idempotencyKey: string): (i: nat)
    ensures i <= |lots|
    ensures i < |lots| ==> lots[i].idempotencyKey == idempotencyKey
    ensures forall j :: 0 <= j < i ==> lots[j].idempotencyKey != idempotencyKey
  {
    if lots == [] || lots[0].idempotencyKey == idempotencyKey then 0 else 1 + FindKey(lots[1..], idempotencyKey)
  }

  /** Recording a credit as a lot, once per idempotency key. */
  function Recorded(books: Books, p: CreditParams, policies: map<Source, real>, key: Key): Result<Books> {
    if p.amount <= 0 || TrimSpace(p.account) == "" || FindKey(books.lots, p.idempotencyKey) < |books.lots| then
      Success(books)
    else
      var lot := NewLot(p, policies, key);
      if Conflicts(books.lots, lot) then Failure else Success(Books(Insert(books.lots, lot), books.rows))
  }

  function TopupKey(trade: string): string { "topup:" + trade + ":unified" }

  /** Freezing the paid part of a top-up lot. */
  function Snapshotted(books: Books, trade: string, paid: int): Result<Books> {
    var i := FindKey(books.lots, TopupKey(trade));
    if trade == "" || paid <= 0 || i == |books.lots| then Failure else
      var lot := books.lots[i];
      if lot.source != Topup || lot.original <= 0 || paid > lot.original || (lot.paid > 0 && lot.paid != paid) then
        Failure
      else Success(Books(books.lots[i := lot.(paid := paid)], books.rows))
  }

  /** The wallet tables of the billing database. */
  class FundingStore {
    var lots: seq<Lot>
    var allocations: seq<Allocation>

    constructor ()
      ensures lots == [] && allocations == []
    {
      lots, allocations := [], [];
    }

    ghost function State(): Books
      reads this
    {
      Books(lots, allocations)
    }

    /** Records a credit as a lot, unless a lot with its idempotency key is already there. */
    method RecordFundingLot(p: CreditParams, policies: map<Source, real>, key: Key) returns (ok: bool)
      modifies this
      ensures var recorded := Recorded(old(State()), p, policies, key);
        && ok == recorded.Success?
        && State() == if ok then recorded.value else old(State())
    {
      if p.amount <= 0 || TrimSpace(p.account) == "" {
        return true;
      }
      var existing := FindKey(lots, p.idempotencyKey);
      if existing < |lots| {
        return true;
      }
      var lot := NewLot(p, policies, key);
      if Conflicts(lots, lot) {
        return false;
      }
      lots := Insert(lots, lot);
      return true;
    }

    /** Freezes the paid part of a credited top-up lot. */
    method SnapshotTopupPaidQuota(trade: string, paid: int) returns (ok: bool)
      modifies this
      ensures var frozen := Snapshotted(old(State()), trade, paid);
        && ok == frozen.Success?
        && State() == if ok then frozen.value else old(State())
    {
      var i := FindKey(lots, TopupKey(trade));
      if trade == "" || paid <= 0 || i == |lots| {
        return false;
      }
      var lot := lots[i];
      if lot.source != Topup || lot.original <= 0 || paid > lot.original || (lot.paid > 0 && lot.paid != paid) {
        return false;
      }
      lots := lots[i := lot.(paid := paid)];
      return true;
    }

    /** One statement joined on physical row ids; undone and retried by primary key unless every
        row it meant to charge was charged. */
    method AllocateBatch(request: string, account: string, amount: int, after: Option<Key>, limit: Limit,
                         stale: set<nat>)
      returns (result: Result<Batch>)
      modifies this
      ensures result.Success? && Complete(result.value)
      ensures (State(), result.value) ==
        Statement(old(State()), request, account, amount, after, limit, false, {})
    {
      var savedLots, savedRows := lots, allocations;
      var outcome := Statement(Books(lots, allocations), request, account, amount, after, limit, true, stale);
      lots, allocations := outcome.0.lots, outcome.0.rows;
      if !Complete(outcome.1) {
        lots, allocations := savedLots, savedRows;
        outcome := Statement(Books(lots, allocations), request, account, amount, after, limit, false, {});
        lots, allocations := outcome.0.lots, outcome.0.rows;
        CompleteExactly(old(State()), request, account, amount, after, limit, false, {});
        if !Complete(outcome.1) {
          return Failure;
        }
      } else {
        CompleteIsKeyed(old(State()), request, account, amount, after, limit, true, stale);
      }
      return Success(outcome.1);
    }

    /** Charges the oldest live row, or creates and charges a legacy lot for all that is open. */
    method AllocateRow(request: string, account: string, open: nat, legacyKey: Key) returns (ok: bool, used: int)
      requires open > 0
      modifies this
      ensures Total(old(lots), account) > 0 ==>
        ok && 0 < used <= open && Drew(old(State()), State(), request, account, used, open)
      ensures Total(old(lots), account) == 0 ==>
        var legacy := LegacyLot(legacyKey, account, request, open);
        ok == !Conflicts(old(lots), legacy) &&
        (ok ==>
          && used == open
          && lots == Insert(old(lots), Charged(legacy, open))
          && allocations == old(allocations) + [RowFor(request, legacy, open)])
    {
      var lot;
      var k := FirstLive(lots, account);
      if k < |lots| {
        lot := lots[k];
        ChargeFirst(lots, account, request, open);
      } else {
        lot := LegacyLot(legacyKey, account, request, open);
        if Conflicts(lots, lot) {
          return false, 0;
        }
        InsertThenCharge(lots, lot, open);
        k := Position(lots, lot.key);
        lots := Insert(lots, lot);
      }
      used := lot.remaining;
      if used > open { used := open; }
      lots := lots[k := Charged(lot, used)];
      allocations := allocations + [RowFor(request, lot, used)];
      ok := true;
    }

    /** Charges a settled request to the account's lots. `stale(n)` is the set of lots whose
        physical row id is stale in the n-th batch; `legacyKey` is the key a new lot gets. */
    method AllocateSettledFunding(request: string, account: string, amount: int, postgres: bool, limit: Limit,
                                  stale: nat -> set<nat>, legacyKey: Key)
      returns (ok: bool)
      requires Ordered(lots)
      modifies this
      ensures var settled := Settled(old(State()), request, account, amount, legacyKey);
        && ok == settled.Success?
        && State() == if ok then settled.value else old(State())
    {
      if Allocated(allocations, request) || amount <= 0 {
        return true;
      }
      ghost var before := State();
      var savedLots, savedRows := lots, allocations;
      var remaining: int := amount;
      var cursor: Option<Key> := None;
      var attempt := 0;
      DrawnNothing(before, request, account, amount);
      while remaining > 0
        invariant 0 <= remaining <= amount
        invariant remaining > 0 ==> Progress(before, State(), request, account, amount, remaining, cursor)
        invariant remaining == 0 ==> Settled(before, request, account, amount, legacyKey) == Success(State())
      {
        ghost var now := State();
        if postgres {
          BatchIsDraw(now, request, account, remaining, cursor, limit);
          var result := AllocateBatch(request, account, remaining, cursor, limit, stale(attempt));
          attempt := attempt + 1;
          if result.Failure? {
            assert false; // the keyed retry is always complete
          }
          if result.value.used > 0 {
            BatchProgress(before, now, State(), request, account, amount, remaining, result.value.used, cursor,
                          result.value.last, legacyKey);
            remaining := remaining - result.value.used;
            cursor := result.value.last;
            continue;
          }
          BatchOfNothing(now, request, account, remaining, cursor, limit);
        }
        var used;
        ok, used := AllocateRow(request, account, remaining, legacyKey);
        if !ok {
          LegacyCompletes(before, now, request, account, amount, remaining, legacyKey);
          lots, allocations := savedLots, savedRows;
          return false;
        }
        RowProgress(before, now, State(), request, account, amount, remaining, used, cursor, legacyKey);
        remaining := remaining - used;
      }
      ok := true;
    }
  }
}
