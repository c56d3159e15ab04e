/** Where a lot comes from and what it is worth: every lot of a run is a recorded credit, with the source and
    multiplier its reason and the policies give, or a legacy lot that carries no revenue. Every allocation row
    carries its lot's source and multiplier. */
module FundingOrigins {
  import opened FundingLots
  import opened FundingBatch
  import opened FundingAllocator
  import opened FundingLedger
  import Text

  /** The source a reason stands for: what it mentions, in any case and wherever it stands. */
  ghost predicate IsSourceOf(source: Source, reason: string) {
    var topup := Text.Mentions(reason, "topup") || Text.Mentions(reason, "top_up");
    var box := Text.Mentions(reason, "blind_box") || Text.Mentions(reason, "blind-box");
    && (source == Topup <==> topup)
    && (source == BlindBox <==> !topup && box)
    && (source == Other <==> !topup && !box)
  }

  predicate Worthless(reason: string) {
    reason == "referral_consumption_rebate" || reason == "subscription_conversion_base"
    || reason == "subscription_conversion_gift"
  }

  /** The multiplier a source's policy gives, unless the reason never earns revenue. */
  predicate IsMultiplierOf(multiplier: real, source: Source, reason: string, policies: map<Source, real>) {
    && (Worthless(reason) || source !in policies ==> multiplier == 0.0)
    && (!Worthless(reason) && source in policies ==> multiplier == policies[source])
  }

  lemma NoSpaces(part: string)
    requires part in {"topup", "top_up", "blind_box", "blind-box"}
    ensures part != [] && forall i :: 0 <= i < |part| ==> !Text.IsSpace(part[i])
  {}

  lemma MentionedReason(reason: string, part: string)
    requires part in {"topup", "top_up", "blind_box", "blind-box"}
    ensures Text.Contains(Text.Lower(Text.TrimSpace(reason)), part) <==> Text.Mentions(reason, part)
  {
    NoSpaces(part);
    Text.MentionsIs(reason, part);
  }

  lemma SourceExactly(reason: string)
    ensures IsSourceOf(SourceFromReason(reason), reason)
  {
    MentionedReason(reason, "topup");
    MentionedReason(reason, "top_up");
    MentionedReason(reason, "blind_box");
    MentionedReason(reason, "blind-box");
  }

  /** The lot a credit leaves: full, nothing of it paid yet, worth what its reason and policy say. */
  ghost predicate IsCreditLot(lot: Lot, p: CreditParams, policies: map<Source, real>, key: Key) {
    && lot.key == key && lot.account == p.account && lot.original == p.amount
    && lot.idempotencyKey == p.idempotencyKey
    && lot.referenceType == p.referenceType && lot.referenceId == p.referenceId
    && IsSourceOf(lot.source, p.reason) && IsMultiplierOf(lot.multiplier, lot.source, p.reason, policies)
  }

  lemma NewLotIs(p: CreditParams, policies: map<Source, real>, key: Key)
    ensures IsCreditLot(NewLot(p, policies, key), p, policies, key)
  {
    SourceExactly(p.reason);
  }

  /** The lot a settlement's shortfall leaves: it earns nothing. */
  predicate IsLegacyLot(lot: Lot, request: string, account: string, key: Key) {
    && lot.key == key && lot.account == account && lot.source == LegacyUnattributed && lot.multiplier == 0.0
    && lot.referenceType == "legacy_wallet" && lot.referenceId == request
    && lot.idempotencyKey == "legacy-wallet:" + account + ":" + request
  }

  /** The event could have made the lot. */
  ghost predicate Made(e: Event, lot: Lot) {
    match e
    case Credit(p, policies, key) => IsCreditLot(lot, p, policies, key)
    case PaidTopup(trade, p, policies, key, _) => IsCreditLot(lot, p.(idempotencyKey := TopupKey(trade)), policies, key)
    case Settle(request, account, _, key) => IsLegacyLot(lot, request, account, key)
  }

  /** A lot that was there already, apart from what was drawn and what part is paid. */
  ghost predicate WasIn(lots: seq<Lot>, lot: Lot) { exists m :: m in lots && SameLot(m, lot) }

  ghost predicate Accounted(lots: seq<Lot>, e: Event, next: seq<Lot>) {
    forall lot :: lot in next ==> WasIn(lots, lot) || Made(e, lot)
  }

  lemma StillIn(lots: seq<Lot>, lot: Lot)
    requires lot in lots
    ensures WasIn(lots, lot)
  {
    assert SameLot(lot, lot);
  }

  lemma MadeFrozen(e: Event, lot: Lot, m: Lot)
    requires Made(e, lot) && SameLot(lot, m)
    ensures Made(e, m)
  {}

  lemma RecordedFrom(books: Books, e: Event, p: CreditParams, policies: map<Source, real>, key: Key)
    requires Recorded(books, p, policies, key).Success?
    requires forall lot :: IsCreditLot(lot, p, policies, key) ==> Made(e, lot)
    ensures Accounted(books.lots, e, Recorded(books, p, policies, key).value.lots)
  {
    var next := Recorded(books, p, policies, key).value.lots;
    NewLotIs(p, policies, key);
    InsertMembers(books.lots, NewLot(p, policies, key));
    forall lot | lot in next ensures WasIn(books.lots, lot) || Made(e, lot) {
      if lot in books.lots { StillIn(books.lots, lot); }
    }
  }

  lemma FrozenFrom(lots: seq<Lot>, e: Event, mid: seq<Lot>, i: nat, paid: int)
    requires Accounted(lots, e, mid) && i < |mid|
    ensures Accounted(lots, e, mid[i := mid[i].(paid := paid)])
  {
    var next := mid[i := mid[i].(paid := paid)];
    forall lot | lot in next ensures WasIn(lots, lot) || Made(e, lot) {
      var j :| 0 <= j < |next| && next[j] == lot;
      assert mid[j] in mid && SameLot(mid[j], lot);
      if WasIn(lots, mid[j]) {
        var m :| m in lots && SameLot(m, mid[j]);
        assert SameLot(m, lot);
      } else {
        MadeFrozen(e, mid[j], lot);
      }
    }
  }

  lemma DrawnFrom(lots: seq<Lot>, account: string, x: nat, lot: Lot)
    requires lot in After(lots, account, x)
    ensures WasIn(lots, lot)
  {
    var i :| 0 <= i < |After(lots, account, x)| && After(lots, account, x)[i] == lot;
    AfterIdentity(lots, account, x, i);
    assert lots[i] in lots && SameLot(lots[i], lot);
  }

  lemma SettledFrom(books: Books, e: Event)
    requires e.Settle? && e.amount > 0 && !Allocated(books.rows, e.request)
    requires Settled(books, e.request, e.account, e.amount, e.key).Success?
    ensures Accounted(books.lots, e, Settled(books, e.request, e.account, e.amount, e.key).value.lots)
  {
    var next := Settled(books, e.request, e.account, e.amount, e.key).value.lots;
    var total := Total(books.lots, e.account);
    var mid := After(books.lots, e.account, Min(e.amount, total));
    var legacy := LegacyLot(e.key, e.account, e.request, e.amount - total);
    InsertMembers(mid, Charged(legacy, e.amount - total));
    forall lot | lot in next ensures WasIn(books.lots, lot) || Made(e, lot) {
      if lot in mid { DrawnFrom(books.lots, e.account, Min(e.amount, total), lot); }
    }
  }

  lemma TopupFrom(l: Ledger, e: Event)
    requires e.PaidTopup?
    ensures Accounted(l.books.lots, e, Step(l, e).books.lots)
  {
    if TopupDone(l.books, e).Success? {
      var params := e.params.(idempotencyKey := TopupKey(e.trade));
      RecordedFrom(l.books, e, params, e.policies, e.key);
      if e.paid > 0 {
        var mid := Recorded(l.books, params, e.policies, e.key).value.lots;
        FrozenFrom(l.books.lots, e, mid, FindKey(mid, params.idempotencyKey), e.paid);
      }
    } else {
      UnchangedFrom(l.books.lots, e);
    }
  }

  lemma UnchangedFrom(lots: seq<Lot>, e: Event)
    ensures Accounted(lots, e, lots)
  {
    forall lot | lot in lots ensures WasIn(lots, lot) { StillIn(lots, lot); }
  }

  /** A step makes no lot but its own event's. */
  lemma StepFrom(l: Ledger, e: Event)
    ensures Accounted(l.books.lots, e, Step(l, e).books.lots)
  {
    match e
    case Credit(p, policies, key) =>
      if Recorded(l.books, p, policies, key).Success? {
        RecordedFrom(l.books, e, p, policies, key);
      } else {
        UnchangedFrom(l.books.lots, e);
      }
    case PaidTopup(_, _, _, _, _) => TopupFrom(l, e);
    case Settle(request, account, amount, key) =>
      if Step(l, e).books == l.books {
        UnchangedFrom(l.books.lots, e);
      } else {
        SettledFrom(l.books, e);
      }
  }

  lemma {:induction false} RunFrom(l: Ledger, events: seq<Event>, lot: Lot)
    requires lot in Run(l, events).books.lots
    ensures WasIn(l.books.lots, lot) || exists e :: e in events && Made(e, lot)
    decreases |events|
  {
    if events == [] {
      StillIn(l.books.lots, lot);
    } else {
      RunFrom(Step(l, events[0]), events[1..], lot);
      StepFrom(l, events[0]);
      if WasIn(Step(l, events[0]).books.lots, lot) {
        var m :| m in Step(l, events[0]).books.lots && SameLot(m, lot);
        if WasIn(l.books.lots, m) {
          var o :| o in l.books.lots && SameLot(o, m);
          assert SameLot(o, lot);
        } else {
          MadeFrozen(events[0], m, lot);
        }
      }
    }
  }

  /** In every run, every lot is the lot of one of its credits, with the source its reason mentions and the
      multiplier that source's policy gives, or the legacy lot of one of its settlements, which earns nothing. */
  lemma LotsAreMade(events: seq<Event>, lot: Lot)
    requires lot in Run(EMPTY, events).books.lots
    ensures exists e :: e in events && Made(e, lot)
  {
    RunFrom(EMPTY, events, lot);
  }

  lemma OneLot(lots: seq<Lot>, a: Lot, b: Lot)
    requires Ordered(lots) && a in lots && b in lots && a.key.lotId == b.key.lotId
    ensures a == b
  {
    var i :| 0 <= i < |lots| && lots[i] == a;
    var j :| 0 <= j < |lots| && lots[j] == b;
    if i < j { OrderedDistinct(lots, i, j); } else if j < i { OrderedDistinct(lots, j, i); }
  }

  /** In every run, every allocation row has its lot, and carries that lot's account, source and multiplier. */
  lemma RowsCarryTheirLots(events: seq<Event>, row: Allocation)
    requires row in Run(EMPTY, events).books.rows
    ensures exists lot :: lot in Run(EMPTY, events).books.lots && lot.key.lotId == row.lotId
    ensures forall lot :: lot in Run(EMPTY, events).books.lots && lot.key.lotId == row.lotId ==> Carries(row, lot)
  {
    EmptyGood();
    RunGood(EMPTY, events);
    var l := Run(EMPTY, events);
    assert RowOk(l.books.lots, row);
    var own :| own in l.books.lots && Carries(row, own);
    forall lot | lot in l.books.lots && lot.key.lotId == row.lotId ensures Carries(row, lot) {
      OneLot(l.books.lots, own, lot);
    }
  }

  // Paid parts.

  /** A lot with the same idempotency key and paid part. */
  ghost predicate PaidIn(lots: seq<Lot>, lot: Lot) {
    exists m :: m in lots && m.idempotencyKey == lot.idempotencyKey && m.paid == lot.paid
  }

  predicate PaidBy(e: Event, lot: Lot) {
    e.PaidTopup? && e.paid == lot.paid && lot.idempotencyKey == TopupKey(e.trade)
  }

  ghost predicate PaidKnown(lots: seq<Lot>, e: Event, next: seq<Lot>) {
    forall lot :: lot in next ==> lot.paid == 0 || PaidIn(lots, lot) || PaidBy(e, lot)
  }

  lemma RecordedPaid(books: Books, e: Event, p: CreditParams, policies: map<Source, real>, key: Key)
    requires Recorded(books, p, policies, key).Success?
    ensures PaidKnown(books.lots, e, Recorded(books, p, policies, key).value.lots)
  {
    InsertMembers(books.lots, NewLot(p, policies, key));
  }

  lemma FrozenPaid(lots: seq<Lot>, e: Event, mid: seq<Lot>, i: nat)
    requires e.PaidTopup? && PaidKnown(lots, e, mid) && i < |mid| && mid[i].idempotencyKey == TopupKey(e.trade)
    ensures PaidKnown(lots, e, mid[i := mid[i].(paid := e.paid)])
  {
    var next := mid[i := mid[i].(paid := e.paid)];
    forall lot | lot in next ensures lot.paid == 0 || PaidIn(lots, lot) || PaidBy(e, lot) {
      var j :| 0 <= j < |next| && next[j] == lot;
      assert mid[j] in mid;
    }
  }

  lemma DrawnPaid(lots: seq<Lot>, account: string, x: nat, lot: Lot)
    requires lot in After(lots, account, x)
    ensures PaidIn(lots, lot)
  {
    var i :| 0 <= i < |After(lots, account, x)| && After(lots, account, x)[i] == lot;
    AfterIdentity(lots, account, x, i);
    assert lots[i] in lots;
  }

  lemma SettledPaid(books: Books, e: Event)
    requires e.Settle? && e.amount > 0 && !Allocated(books.rows, e.request)
    requires Settled(books, e.request, e.account, e.amount, e.key).Success?
    ensures PaidKnown(books.lots, e, Settled(books, e.request, e.account, e.amount, e.key).value.lots)
  {
    var next := Settled(books, e.request, e.account, e.amount, e.key).value.lots;
    var total := Total(books.lots, e.account);
    var mid := After(books.lots, e.account, Min(e.amount, total));
    InsertMembers(mid, Charged(LegacyLot(e.key, e.account, e.request, e.amount - total), e.amount - total));
    forall lot | lot in next ensures lot.paid == 0 || PaidIn(books.lots, lot) {
      if lot in mid { DrawnPaid(books.lots, e.account, Min(e.amount, total), lot); }
    }
  }

  lemma StepPaid(l: Ledger, e: Event)
    ensures PaidKnown(l.books.lots, e, Step(l, e).books.lots)
  {
    match e
    case Credit(p, policies, key) =>
      if Recorded(l.books, p, policies, key).Success? { RecordedPaid(l.books, e, p, policies, key); }
    case PaidTopup(trade, p, policies, key, paid) =>
      if TopupDone(l.books, e).Success? {
        var params := p.(idempotencyKey := TopupKey(trade));
        RecordedPaid(l.books, e, params, policies, key);
        var mid := Recorded(l.books, params, policies, key).value.lots;
        if paid > 0 { FrozenPaid(l.books.lots, e, mid, FindKey(mid, params.idempotencyKey)); }
      }
    case Settle(_, _, _, _) => if Step(l, e).books != l.books { SettledPaid(l.books, e); }
  }

  lemma {:induction false} RunPaid(l: Ledger, events: seq<Event>, lot: Lot)
    requires lot in Run(l, events).books.lots && lot.paid != 0
    ensures PaidIn(l.books.lots, lot) || exists e :: e in events && PaidBy(e, lot)
    decreases |events|
  {
    if events != [] {
      RunPaid(Step(l, events[0]), events[1..], lot);
      StepPaid(l, events[0]);
    }
  }

  /** In every run, a lot's paid part is exactly what one of the run's paid top-ups of its trade said. */
  lemma PaidIsFrozen(events: seq<Event>, lot: Lot)
    requires lot in Run(EMPTY, events).books.lots && lot.paid != 0
    ensures exists e :: e in events && PaidBy(e, lot)
  {
    RunPaid(EMPTY, events, lot);
  }
}
