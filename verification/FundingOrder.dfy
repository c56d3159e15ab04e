/** Whether an account's lots are spent oldest first: no lot is touched while an older one still
    holds quota. Exactly which credits keep that shape, and the runs that keep it throughout. */
module FundingOrder {
  import opened FundingLots
  import opened FundingBatch
  import opened FundingAllocator
  import opened FundingLedger
  import Text

  predicate Untouched(lots: seq<Lot>, account: string) {
    forall i | 0 <= i < |lots| :: lots[i].account == account ==> lots[i].remaining == lots[i].original
  }

  /** Behind a row that still holds quota, every row of the same account is full. */
  predicate Fifo(lots: seq<Lot>) {
    lots == [] || (Fifo(lots[1..]) && (lots[0].remaining > 0 ==> Untouched(lots[1..], lots[0].account)))
  }

  /** In such a table an account has at most one partly spent lot, with only empty lots before it
      and only full lots after it. */
  lemma {:induction false} FifoMeaning(lots: seq<Lot>, i: nat, j: nat)
    requires Fifo(lots) && i < j < |lots| && lots[i].account == lots[j].account
    ensures lots[j].remaining != lots[j].original ==> lots[i].remaining <= 0
    ensures 0 < lots[i].remaining < lots[i].original ==> lots[j].remaining == lots[j].original
  {
    if i == 0 { assert lots[1..][j - 1] == lots[j]; } else { FifoMeaning(lots[1..], i - 1, j - 1); }
  }

  lemma {:induction false} OthersUnmoved(lots: seq<Lot>, account: string, x: nat, i: nat)
    requires i < |lots| && (x == 0 || lots[i].account != account)
    ensures After(lots, account, x)[i] == lots[i]
  {
    if x == 0 { RowsOfNothing(lots, account, ""); } else if i > 0 { OthersUnmoved(lots[1..], account,
        x - Share(lots[0], account, x), i - 1); }
  }

  lemma {:induction false} DrawFifo(lots: seq<Lot>, account: string, x: nat)
    requires Fifo(lots) && Whole(lots)
    ensures Fifo(After(lots, account, x))
  {
    if lots != [] {
      assert lots[0] in lots;
      var used := Share(lots[0], account, x);
      var rest := After(lots[1..], account, x - used);
      DrawFifo(lots[1..], account, x - used);
      if After(lots, account, x)[0].remaining > 0 {
        RestUntouched(lots, account, x);
        assert After(lots, account, x)[1..] == rest;
      }
    }
  }

  /** When a draw leaves quota in the first lot, it has not touched the rest. */
  lemma RestUntouched(lots: seq<Lot>, account: string, x: nat)
    requires lots != [] && Fifo(lots) && Whole(lots) && After(lots, account, x)[0].remaining > 0
    ensures Untouched(After(lots[1..], account, x - Share(lots[0], account, x)), lots[0].account)
  {
    assert lots[0] in lots;
    var left := x - Share(lots[0], account, x);
    var rest := After(lots[1..], account, left);
    forall i | 0 <= i < |rest| && rest[i].account == lots[0].account ensures rest[i].remaining == rest[i].original {
      AfterIdentity(lots[1..], account, left, i);
      OthersUnmoved(lots[1..], account, left, i);
    }
  }

  /** A new row keeps the shape exactly when it is not put in front of touched rows of its account,
      nor, already drawn on, behind rows of its account that still hold quota. */
  lemma {:induction false} InsertFifo(lots: seq<Lot>, lot: Lot)
    ensures var p := Position(lots, lot.key);
      Fifo(Insert(lots, lot)) <==>
        && Fifo(lots)
        && (lot.remaining > 0 ==> Untouched(lots[p..], lot.account))
        && (lot.remaining != lot.original ==> forall i | 0 <= i < p :: lots[i].account == lot.account ==>
            lots[i].remaining <= 0)
  {
    var p := Position(lots, lot.key);
    if p == 0 {
      assert Insert(lots, lot) == [lot] + lots;
    } else {
      InsertFifo(lots[1..], lot);
      var rest := Insert(lots[1..], lot);
      assert Insert(lots, lot) == [lots[0]] + rest;
      assert lots[p..] == lots[1..][p - 1..];
      UntouchedInsert(lots[1..], lot, lots[0].account);
      assert (forall i | 0 <= i < p :: lots[i].account == lot.account ==> lots[i].remaining <= 0) <==>
        (lots[0].account == lot.account ==> lots[0].remaining <= 0) &&
        (forall i | 0 <= i < p - 1 :: lots[1..][i].account == lot.account ==> lots[1..][i].remaining <= 0) by {
        assert forall i :: 0 <= i < p - 1 ==> lots[1..][i] == lots[i + 1];
        assert forall i :: 1 <= i < p ==> lots[i] == lots[1..][i - 1];
      }
    }
  }

  lemma UntouchedCons(head: Lot, rest: seq<Lot>, account: string)
    ensures Untouched([head] + rest, account) <==>
      Untouched(rest, account) && (head.account == account ==> head.remaining == head.original)
  {
    var all := [head] + rest;
    assert all[0] == head && forall i :: 0 <= i < |rest| ==> all[i + 1] == rest[i];
  }

  lemma {:induction false} UntouchedInsert(lots: seq<Lot>, lot: Lot, account: string)
    ensures Untouched(Insert(lots, lot), account) <==>
      Untouched(lots, account) && (lot.account == account ==> lot.remaining == lot.original)
  {
    if Position(lots, lot.key) == 0 {
      assert Insert(lots, lot) == [lot] + lots;
      UntouchedCons(lot, lots, account);
    } else {
      UntouchedInsert(lots[1..], lot, account);
      assert Insert(lots, lot) == [lots[0]] + Insert(lots[1..], lot);
      assert lots == [lots[0]] + lots[1..];
      UntouchedCons(lots[0], lots[1..], account);
      UntouchedCons(lots[0], Insert(lots[1..], lot), account);
    }
  }

  /** A credit that is recorded as a new row, not skipped and not refused. */
  predicate GoesIn(books: Books, p: CreditParams, policies: map<Source, real>, key: Key) {
    && p.amount > 0 && Text.TrimSpace(p.account) != "" && FindKey(books.lots, p.idempotencyKey) == |books.lots|
    && !Conflicts(books.lots, NewLot(p, policies, key))
  }

  /** No row of the account that sorts behind the key has been drawn on. */
  predicate LandsBehind(lots: seq<Lot>, account: string, key: Key) {
    Untouched(lots[Position(lots, key)..], account)
  }

  /** The event puts no new row in front of one of its account already drawn on. */
  predicate InOrder(l: Ledger, e: Event) {
    match e
    case Credit(p, policies, key) => GoesIn(l.books, p, policies, key) ==> LandsBehind(l.books.lots, p.account, key)
    case PaidTopup(trade, p, policies, key, _) =>
      TopupDone(l.books, e).Success? && GoesIn(l.books, p.(idempotencyKey := TopupKey(trade)), policies, key) ==>
        LandsBehind(l.books.lots, p.account, key)
    case Settle(_, _, _, _) => true
  }

  /** Every event of the run is in order where it happens. */
  predicate AllInOrder(l: Ledger, events: seq<Event>)
    decreases |events|
  {
    events == [] || (InOrder(l, events[0]) && AllInOrder(Step(l, events[0]), events[1..]))
  }

  /** Lots are spent oldest first at every point of the run. */
  predicate AlwaysFifo(l: Ledger, events: seq<Event>)
    decreases |events|
  {
    Fifo(l.books.lots) && (events == [] || AlwaysFifo(Step(l, events[0]), events[1..]))
  }

  lemma RecordedFifo(books: Books, p: CreditParams, policies: map<Source, real>, key: Key)
    requires Fifo(books.lots) && Recorded(books, p, policies, key).Success?
    ensures Fifo(Recorded(books, p, policies, key).value.lots) <==>
      (GoesIn(books, p, policies, key) ==> LandsBehind(books.lots, p.account, key))
  {
    if GoesIn(books, p, policies, key) { InsertFifo(books.lots, NewLot(p, policies, key)); }
  }

  lemma {:induction false} FrozenFifo(lots: seq<Lot>, i: nat, paid: int)
    requires i < |lots|
    ensures Fifo(lots[i := lots[i].(paid := paid)]) <==> Fifo(lots)
  {
    var next := lots[i := lots[i].(paid := paid)];
    if i == 0 {
      assert next[1..] == lots[1..];
    } else {
      FrozenFifo(lots[1..], i - 1, paid);
      assert next[1..] == lots[1..][i - 1 := lots[i].(paid := paid)];
      assert Untouched(next[1..], lots[0].account) <==> Untouched(lots[1..], lots[0].account) by {
        assert forall j :: 0 <= j < |lots[1..]| ==>
          && next[1..][j].account == lots[1..][j].account
          && next[1..][j].remaining == lots[1..][j].remaining
          && next[1..][j].original == lots[1..][j].original;
      }
    }
  }

  lemma SettledFifo(l: Ledger, request: string, account: string, amount: int, key: Key)
    requires Good(l) && Fifo(l.books.lots) && Settled(l.books, request, account, amount, key).Success?
    ensures Fifo(Settled(l.books, request, account, amount, key).value.lots)
  {
    if !Allocated(l.books.rows, request) && amount > 0 {
      var total := Total(l.books.lots, account);
      forall lot | lot in l.books.lots ensures 0 <= lot.remaining <= lot.original && 0 < lot.original {
        assert LotOk(l, lot);
      }
      DrawFifo(l.books.lots, account, Min(amount, total));
      if amount > total {
        var mid := After(l.books.lots, account, total);
        var legacy := Charged(LegacyLot(key, account, request, amount - total), amount - total);
        TotalAfter(l.books.lots, account, total);
        forall i | 0 <= i < |mid| && mid[i].account == account ensures mid[i].remaining <= 0 {
          TotalZero(mid, account, i);
        }
        InsertFifo(mid, legacy);
      }
    }
  }

  lemma TopupFifo(l: Ledger, e: Event)
    requires e.PaidTopup? && Fifo(l.books.lots)
    ensures Fifo(Step(l, e).books.lots) <==> InOrder(l, e)
  {
    if TopupDone(l.books, e).Success? {
      var params := e.params.(idempotencyKey := TopupKey(e.trade));
      RecordedFifo(l.books, params, e.policies, e.key);
      if e.paid > 0 {
        var lots := Recorded(l.books, params, e.policies, e.key).value.lots;
        FrozenFifo(lots, FindKey(lots, params.idempotencyKey), e.paid);
      }
    }
  }

  /** A step keeps the shape exactly when it is in order. */
  lemma StepFifo(l: Ledger, e: Event)
    requires Good(l) && Fifo(l.books.lots)
    ensures Fifo(Step(l, e).books.lots) <==> InOrder(l, e)
  {
    match e
    case Credit(p, policies, key) =>
      if Recorded(l.books, p, policies, key).Success? { RecordedFifo(l.books, p, policies, key); }
    case PaidTopup(_, _, _, _, _) => TopupFifo(l, e);
    case Settle(request, account, amount, key) =>
      if Settled(l.books, request, account, amount, key).Success? { SettledFifo(l, request, account, amount, key); }
  }

  lemma StepIsGood(l: Ledger, e: Event)
    requires Good(l)
    ensures Good(Step(l, e))
  {
    RunGood(l, [e]);
    assert [e][1..] == [];
    assert Run(Step(l, e), []) == Step(l, e);
  }

  /** For every run: lots are spent oldest first at every point of it exactly when no credit that goes in
      is put in front of a row of its account already drawn on. */
  lemma {:induction false} FifoExactly(l: Ledger, events: seq<Event>)
    requires Good(l) && Fifo(l.books.lots)
    ensures AlwaysFifo(l, events) <==> AllInOrder(l, events)
    decreases |events|
  {
    if events != [] {
      StepFifo(l, events[0]);
      StepIsGood(l, events[0]);
      if InOrder(l, events[0]) { FifoExactly(Step(l, events[0]), events[1..]); }
    }
  }

  /** The same from the empty wallet. */
  lemma RunFifoExactly(events: seq<Event>)
    ensures AlwaysFifo(EMPTY, events) <==> AllInOrder(EMPTY, events)
  {
    EmptyGood();
    FifoExactly(EMPTY, events);
  }

  /** The key comes after every row of the account. */
  predicate Newest(lots: seq<Lot>, account: string, key: Key) {
    forall i | 0 <= i < |lots| :: lots[i].account == account ==> Before(lots[i].key, key)
  }

  /** A credit stamped after all rows of its own account lands behind them. */
  lemma {:induction false} NewestLandsBehind(lots: seq<Lot>, account: string, key: Key)
    requires Ordered(lots) && Newest(lots, account, key)
    ensures LandsBehind(lots, account, key)
  {
    if lots != [] {
      if Before(lots[0].key, key) {
        NewestLandsBehind(lots[1..], account, key);
        assert lots[Position(lots, key)..] == lots[1..][Position(lots[1..], key)..];
      } else {
        forall i | 0 <= i < |lots| ensures lots[i].account != account {
          if i > 0 { assert lots[i] in lots[1..]; }
        }
      }
    }
  }

  /** Every credit of the run is stamped after the rows it finds on its own account. */
  predicate ClockForward(l: Ledger, events: seq<Event>)
    decreases |events|
  {
    events == [] ||
    (&& (!events[0].Settle? ==> Newest(l.books.lots, events[0].params.account, events[0].key))
     && ClockForward(Step(l, events[0]), events[1..]))
  }

  /** A clock that runs forward on each account is enough, whatever the others do. */
  lemma {:induction false} RunFifo(l: Ledger, events: seq<Event>)
    requires Good(l) && Fifo(l.books.lots) && ClockForward(l, events)
    ensures AlwaysFifo(l, events)
    decreases |events|
  {
    if events != [] {
      if !events[0].Settle? { NewestLandsBehind(l.books.lots, events[0].params.account, events[0].key); }
      StepFifo(l, events[0]);
      StepIsGood(l, events[0]);
      RunFifo(Step(l, events[0]), events[1..]);
    }
  }

  /** A credit goes through when nothing with its key or id is there. */
  lemma CreditGoesIn(l: Ledger, p: CreditParams, key: Key)
    requires p.amount > 0 && p.account == "w" && !Conflicts(l.books.lots, NewLot(p, map[], key))
    ensures Step(l, Credit(p, map[], key)) ==
      l.(books := Books(Insert(l.books.lots, NewLot(p, map[], key)), l.books.rows))
  {
    assert !Text.IsSpace('w');
    assert Text.TrimLeft("w") == "w" && Text.TrimRight("w") == "w";
    assert FindKey(l.books.lots, p.idempotencyKey) == |l.books.lots|;
  }

  lemma SettleOne(l: Ledger, lot: Lot, key: Key)
    requires l.books == Books([lot], []) && lot.account == "w" && lot.remaining == 10
    ensures Step(l, Settle("r", "w", 4, key)).books.lots == [Charged(lot, 4)]
  {
    assert l.books.lots[1..] == [];
    assert Total(l.books.lots, "w") == 10;
    assert After([], "w", 0) == [];
    assert After(l.books.lots, "w", 4) == [Charged(lot, 4)];
  }

  /** Two credits with the same timestamp and a smaller second lot id break the order: the second
      lot is put in front of one already drawn on. */
  lemma SameInstantBreaksFifo(first: CreditParams, key: string)
    requires first.account == "w" && first.amount == 10 && key != first.idempotencyKey
    ensures var l := Step(Step(Step(EMPTY, Credit(first, map[], Key(5, 9))), Settle("r", "w", 4, Key(6, 0))),
                          Credit(first.(idempotencyKey := key), map[], Key(5, 3)));
      !Fifo(l.books.lots)
  {
    var a := NewLot(first, map[], Key(5, 9));
    CreditGoesIn(EMPTY, first, Key(5, 9));
    var l1 := Step(EMPTY, Credit(first, map[], Key(5, 9)));
    assert l1.books.lots == [a];
    SettleOne(l1, a, Key(6, 0));
    SecondCredit(Step(l1, Settle("r", "w", 4, Key(6, 0))), Charged(a, 4), first.(idempotencyKey := key));
  }

  lemma SecondCredit(l: Ledger, a: Lot, p: CreditParams)
    requires l.books.lots == [a] && p.amount > 0 && p.account == "w" == a.account
      && a.idempotencyKey != p.idempotencyKey
    requires 0 < a.remaining < a.original && Before(Key(5, 3), a.key) && !Conflicts([a], NewLot(p, map[], Key(5, 3)))
    ensures !Fifo(Step(l, Credit(p, map[], Key(5, 3))).books.lots)
  {
    CreditGoesIn(l, p, Key(5, 3));
    FrontOfTouched(a, NewLot(p, map[], Key(5, 3)));
  }

  /** A row put in front of one already drawn on breaks the order. */
  lemma FrontOfTouched(a: Lot, b: Lot)
    requires a.account == b.account && 0 < a.remaining < a.original && b.remaining > 0 && Before(b.key, a.key)
    ensures !Fifo(Insert([a], b))
  {
    InsertFifo([a], b);
    assert Position([a], b.key) == 0;
    assert [a][0..] == [a];
  }
}
