/** Wallet funding lots, read in (created_at, lot_id) order, and the allocation rows that
    one request's draw leaves behind. A lot is live for an account when it belongs to the
    account and still holds quota. */
module FundingLots {

  datatype Source = Topup | BlindBox | Subscription | LegacyUnattributed | Other

  /** The sort key and keyset cursor of a lot row. */
  datatype Key = Key(createdAt: int, lotId: nat)

  datatype Lot = Lot(
    key: Key,
    account: string,
    source: Source,
    referenceType: string,
    referenceId: string,
    idempotencyKey: string,
    original: int,
    paid: int,
    remaining: int,
    multiplier: real)

  datatype Allocation = Allocation(
    request: string,
    lotId: nat,
    account: string,
    source: Source,
    amount: int,
    paid: int,
    multiplier: real)

  predicate Before(a: Key, b: Key) {
    a.createdAt < b.createdAt || (a.createdAt == b.createdAt && a.lotId < b.lotId)
  }

  /** Every row of the table comes after `key`, under another primary key. */
  ghost predicate AllAfter(key: Key, lots: seq<Lot>) {
    forall lot :: lot in lots ==> Before(key, lot.key) && lot.key.lotId != key.lotId
  }

  /** The table is read in increasing key order, and lot_id is its primary key. */
  ghost predicate Ordered(lots: seq<Lot>) {
    lots == [] || (AllAfter(lots[0].key, lots[1..]) && Ordered(lots[1..]))
  }

  function Min(a: int, b: int): int { if a < b then a else b }

  function Live(lot: Lot, account: string): nat {
    if lot.account == account && lot.remaining > 0 then lot.remaining else 0
  }

  /** Live quota of the account. */
  function Total(lots: seq<Lot>, account: string): nat {
    if lots == [] then 0 else Live(lots[0], account) + Total(lots[1..], account)
  }

  function Charged(lot: Lot, used: int): Lot {
    lot.(remaining := lot.remaining - used)
  }

  /** What the oldest row gives to a draw of `amount`. */
  function Share(lot: Lot, account: string, amount: nat): nat {
    Min(amount, Live(lot, account))
  }

  /** The table once `amount` has been drawn oldest first. */
  function After(lots: seq<Lot>, account: string, amount: nat): (r: seq<Lot>)
    ensures |r| == |lots|
  {
    if lots == [] then [] else
      var used := Share(lots[0], account, amount);
      [Charged(lots[0], used)] + After(lots[1..], account, amount - used)
  }

  /** floor(amount * paid / granted): the cumulative paid part of `amount`. */
  function FloorPaid(amount: int, paid: int, granted: int): int
    requires granted > 0
  {
    amount * paid / granted
  }

  /** The paid quota carried by drawing `used` from a lot. */
  function PaidShare(lot: Lot, used: int): int {
    if lot.paid > 0 && lot.paid <= lot.original && lot.remaining <= lot.original then
      var consumed := lot.original - lot.remaining;
      FloorPaid(consumed + used, lot.paid, lot.original) - FloorPaid(consumed, lot.paid, lot.original)
    else 0
  }

  function RowFor(request: string, lot: Lot, used: int): Allocation {
    Allocation(request, lot.key.lotId, lot.account, lot.source, used, PaidShare(lot, used), lot.multiplier)
  }

  function RowsFor(request: string, lot: Lot, used: int): seq<Allocation> {
    if used > 0 then [RowFor(request, lot, used)] else []
  }

  /** The allocation rows of a draw. */
  function Rows(lots: seq<Lot>, account: string, request: string, amount: nat): seq<Allocation> {
    if lots == [] then [] else
      var used := Share(lots[0], account, amount);
      RowsFor(request, lots[0], used) + Rows(lots[1..], account, request, amount - used)
  }

  function SumAmount(rows: seq<Allocation>): int {
    if rows == [] then 0 else rows[0].amount + SumAmount(rows[1..])
  }

  /** The rows of a draw sum to the amount asked, or to all live quota when that is less. */
  lemma {:induction false} RowsTotal(lots: seq<Lot>, account: string, request: string, amount: nat)
    ensures SumAmount(Rows(lots, account, request, amount)) == Min(amount, Total(lots, account))
  {
    if lots != [] {
      var used := Share(lots[0], account, amount);
      RowsTotal(lots[1..], account, request, amount - used);
      var rest := Rows(lots[1..], account, request, amount - used);
      if used > 0 { assert ([RowFor(request, lots[0], used)] + rest)[1..] == rest; } else { assert [] + rest == rest; }
    }
  }

  /** Live quota left by a draw. */
  lemma {:induction false} TotalAfter(lots: seq<Lot>, account: string, amount: nat)
    ensures Total(After(lots, account, amount), account) == Total(lots, account) - Min(amount, Total(lots, account))
  {
    if lots != [] {
      var used := Share(lots[0], account, amount);
      TotalAfter(lots[1..], account, amount - used);
      assert After(lots, account, amount)[1..] == After(lots[1..], account, amount - used);
    }
  }

  /** Drawing x and then y leaves the table as one draw of x + y does. */
  lemma {:induction false} AfterCompose(lots: seq<Lot>, account: string, x: nat, y: nat)
    ensures After(After(lots, account, x), account, y) == After(lots, account, x + y)
  {
    if lots != [] {
      var u := Share(lots[0], account, x);
      var mid := After(lots, account, x);
      assert mid[1..] == After(lots[1..], account, x - u);
      var v := Share(mid[0], account, y);
      assert u + v == Share(lots[0], account, x + y);
      AfterCompose(lots[1..], account, x - u, y - v);
    }
  }

  /** x is the live quota of a whole number of the oldest rows. */
  predicate WholeRows(lots: seq<Lot>, account: string, x: nat) {
    x == 0 || (lots != [] && x >= Live(lots[0], account) && WholeRows(lots[1..], account, x - Live(lots[0], account)))
  }

  /** After a draw of whole rows, the rows of a later draw continue those of the first. */
  lemma {:induction false} RowsCompose(lots: seq<Lot>, account: string, request: string, x: nat, y: nat)
    requires WholeRows(lots, account, x)
    ensures Rows(lots, account, request, x + y) ==
      Rows(lots, account, request, x) + Rows(After(lots, account, x), account, request, y)
  {
    if x == 0 {
      RowsOfNothing(lots, account, request);
    } else {
      var live := Live(lots[0], account);
      RowsCompose(lots[1..], account, request, x - live, y);
      RowsSkipHead(lots, account, request, x, y);
      Concat3(RowsFor(request, lots[0], live),
        Rows(lots[1..], account, request, x - live),
        Rows(After(lots[1..], account, x - live), account, request, y));
    }
  }

  lemma RowsSkipHead(lots: seq<Lot>, account: string, request: string, x: nat, y: nat)
    requires lots != [] && x >= Live(lots[0], account)
    ensures var mid := After(lots, account, x);
      Rows(mid, account, request, y) == Rows(After(lots[1..], account, x - Live(lots[0], account)), account, request, y)
  {
    var mid := After(lots, account, x);
    assert Live(mid[0], account) == 0;
    assert mid[1..] == After(lots[1..], account, x - Live(lots[0], account));
  }

  lemma Concat3<T>(a: seq<T>, b: seq<T>, c: seq<T>)
    ensures (a + b) + c == a + (b + c)
  {}

  lemma {:induction false} RowsOfNothing(lots: seq<Lot>, account: string, request: string)
    ensures Rows(lots, account, request, 0) == [] && After(lots, account, 0) == lots
  {
    if lots != [] { RowsOfNothing(lots[1..], account, request); assert Charged(lots[0], 0) == lots[0]; }
  }

  /** Asking for more than there is draws everything there is. */
  lemma {:induction false} DrawCapped(lots: seq<Lot>, account: string, request: string, amount: nat)
    ensures var capped := Min(amount, Total(lots, account));
      After(lots, account, amount) == After(lots, account, capped) &&
      Rows(lots, account, request, amount) == Rows(lots, account, request, capped)
  {
    if lots != [] {
      var used := Share(lots[0], account, amount);
      var capped := Min(amount, Total(lots, account));
      assert used == Share(lots[0], account, capped);
      if amount > capped { assert used == Live(lots[0], account);
        DrawCapped(lots[1..], account, request, amount - used); }
    }
  }
}
