/** The one-at-a-time reading of every request keeps the table invariants. */
module MarketAtomic {
  import opened Common
  import opened MarketTables
  import opened MarketDecisions
  import opened MarketInvariants
  import opened MarketPreservation
  import opened MarketOrderKeeps
  import opened MarketBidKeeps

  /** What a request may be assumed to carry: lapaks that exist, new uuids and,
      for the sweeper, an order it saw overdue. */
  ghost predicate Admissible(pf: Profiles, op: Op, now: Time, t: Tables) {
    && WellFormed(pf, op)
    && Fresh(t, op)
    && (op.AutoConfirm? && op.order in t.orders && t.orders[op.order].deadline.Some? ==> t.orders[op.order].deadline.value <= now)
  }

  lemma PlaceOrderForm(t: Tables, o: OrderId, row: Order, item: Item)
    requires o !in t.items
    ensures InstallAll(t, [PutOrder(o, row), InsertItem(o, item)]) == t.(orders := t.orders[o := row], items := t.items[o := [item]])
  {
    hide InstallAll;
    Install2(t, PutOrder(o, row), InsertItem(o, item));
    assert [] + [item] == [item];
  }

  lemma PlaceOrderAlone(pf: Profiles, open: map<UserId, nat>, op: Op, now: Time, t: Tables, log: seq<RowWrite>)
    requires Inv(pf, open, t) && op.PlaceOrder? && Admissible(pf, op, now, t) && Decide(pf, op, now, t) == Commit(log)
    ensures Inv(pf, open, InstallAll(t, log))
  {
    var row := NewOrderRow(if op.gig.Some? then FromGig else FromProduct, op.user, op.lapak, None);
    var item := FirstItem(op.price, op.quantity, op.gig);
    PlaceOrderForm(t, op.order, row, item);
    PlaceOrderKeeps(pf, open, t, InstallAll(t, log), op.order, row, item);
  }

  lemma PayAlone(pf: Profiles, open: map<UserId, nat>, op: Op, now: Time, t: Tables, log: seq<RowWrite>)
    requires Inv(pf, open, t) && op.Pay? && Decide(pf, op, now, t) == Commit(log)
    ensures Inv(pf, open, InstallAll(t, log))
  {
    var o, u := op.order, op.user;
    PayKeeps(pf, open, t, u, o, UnpaidRows(Items(t, o)), OutstandingIdr(Items(t, o)), Balance(t, u), |Payments(t, o)|);
  }

  lemma AddItemAlone(pf: Profiles, open: map<UserId, nat>, op: Op, now: Time, t: Tables, log: seq<RowWrite>)
    requires Inv(pf, open, t) && op.AddItem? && Decide(pf, op, now, t) == Commit(log)
    ensures Inv(pf, open, InstallAll(t, log))
  {
    hide Inv, InstallAll, Install;
    var item := Item(op.price, op.tierGig, None);
    assert log == [InsertItem(op.order, item)];
    ItemForm(t, op.order, item);
    AddItemKeeps(pf, open, t, InstallAll(t, log), op.order, item);
  }

  lemma CompleteForm(t: Tables, o: OrderId, row: Order)
    ensures InstallAll(t, [PutOrder(o, row)]) == t.(orders := t.orders[o := row])
  {
    hide InstallAll;
    Install1(t, PutOrder(o, row));
  }

  lemma ItemForm(t: Tables, o: OrderId, item: Item)
    ensures InstallAll(t, [InsertItem(o, item)]) == t.(items := t.items[o := Items(t, o) + [item]])
  {
    hide InstallAll;
    Install1(t, InsertItem(o, item));
  }

  lemma CompleteFacts(pf: Profiles, u: UserId, o: OrderId, seconds: nat, now: Time, deadline: Time, t: Tables, log: seq<RowWrite>)
    requires DecideComplete(pf, t, now, u, o, seconds) == Commit(log) && deadline == now + seconds
    ensures Awaits(t, InstallAll(t, log), o, deadline)
  {
    CompleteForm(t, o, AwaitingRow(t.orders[o], deadline));
  }

  lemma PayoutTables(t: Tables, v: UserId, o: OrderId, row: Order, amount: nat, auto: bool, now: Time)
    requires amount > 0
    ensures InstallAll(t, PayoutLog(row, v, o, amount, Balance(t, v), auto, now))
         == t.(wallets := t.wallets[v := Balance(t, v) + amount],
               ledger := t.ledger[v := Entries(t, v) + [PayoutEntry(o, amount, Balance(t, v) + amount)]],
               orders := t.orders[o := CompletedRow(row, auto, now)])
  {
    hide InstallAll;
    var log := PayoutLog(row, v, o, amount, Balance(t, v), auto, now);
    var a := [SetWallet(v, Balance(t, v) + amount), AppendEntry(v, PayoutEntry(o, amount, Balance(t, v) + amount))];
    assert log == a + [PutOrder(o, CompletedRow(row, auto, now))];
    Install2(t, a[0], a[1]);
    InstallSnoc(t, a, PutOrder(o, CompletedRow(row, auto, now)));
  }

  lemma PayoutMoves(t: Tables, t2: Tables, v: UserId, o: OrderId, amount: nat, after: int)
    requires amount > 0 && after == Balance(t, v) + amount && Balance(t, v) >= 0
    requires t2.wallets == t.wallets[v := after]
    requires t2.ledger == t.ledger[v := Entries(t, v) + [PayoutEntry(o, amount, after)]]
    ensures Moves(t, t2, v, PayoutEntry(o, amount, after))
  {}

  lemma PayoutForm(pf: Profiles, t: Tables, o: OrderId, amount: nat, auto: bool, now: Time)
    requires amount > 0 && o in t.orders && t.orders[o].lapak in pf.userOf && Balance(t, pf.userOf[t.orders[o].lapak]) >= 0
    ensures var v := pf.userOf[t.orders[o].lapak];
      PaidOut(pf, t, InstallAll(t, PayoutLog(t.orders[o], v, o, amount, Balance(t, v), auto, now)), o, amount, auto, now)
  {
    hide InstallAll, Install, PayoutLog, Moves, Entries;
    var v := pf.userOf[t.orders[o].lapak];
    PayoutTables(t, v, o, t.orders[o], amount, auto, now);
    PayoutMoves(t, InstallAll(t, PayoutLog(t.orders[o], v, o, amount, Balance(t, v), auto, now)), v, o, amount, Balance(t, v) + amount);
  }

  lemma PayoutAlone(pf: Profiles, open: map<UserId, nat>, o: OrderId, auto: bool, now: Time, t: Tables, log: seq<RowWrite>)
    requires Inv(pf, open, t) && DecidePayout(pf, t, now, o, auto) == Commit(log)
    requires auto && t.orders[o].deadline.Some? ==> t.orders[o].deadline.value <= now
    ensures Inv(pf, open, InstallAll(t, log))
  {
    assert OrderOk(pf, t, o) && UserOk(open, t, pf.userOf[t.orders[o].lapak]);
    PaidIsTotal(pf, t, o);
    PayoutForm(pf, t, o, PaidIdr(Items(t, o)), auto, now);
    PayoutKeeps(pf, open, t, InstallAll(t, log), o, PaidIdr(Items(t, o)), auto, now);
  }

  lemma PostManualAlone(pf: Profiles, open: map<UserId, nat>, op: Op, now: Time, t: Tables, log: seq<RowWrite>)
    requires Inv(pf, open, t) && op.PostManual? && Admissible(pf, op, now, t) && Decide(pf, op, now, t) == Commit(log)
    ensures Inv(pf, open, InstallAll(t, log))
  {
    hide InstallAll;
    Install1(t, log[0]);
    PostManualKeeps(pf, open, t, InstallAll(t, log), op.bid, op.user, op.budget);
  }

  ghost function MatchedTables(t: Tables, b: BidId, row: Bid): Tables {
    t.(bids := t.bids[b := row],
       wallets := t.wallets[row.customer := Balance(t, row.customer) - row.fee],
       ledger := t.ledger[row.customer := Entries(t, row.customer) + [FeeEntry(b, row.fee, Balance(t, row.customer) - row.fee)]])
  }

  lemma MatchedForm(t: Tables, u: UserId, budget: nat, fee: nat, l: LapakId, b: BidId)
    ensures InstallAll(t, MatchedLog(u, b, budget, fee, Balance(t, u), l))
         == MatchedTables(t, b, AutoBid(u, budget, fee).(status := Proposed, matched := Some(l)))
  {
    hide InstallAll;
    var log := MatchedLog(u, b, budget, fee, Balance(t, u), l);
    Install4(t, log[0], log[1], log[2], log[3]);
    var row := AutoBid(u, budget, fee).(status := Proposed, matched := Some(l));
    assert t.bids[b := AutoBid(u, budget, fee)][b := row] == t.bids[b := row];
  }

  lemma UnmatchedForm(t: Tables, u: UserId, budget: nat, fee: nat, b: BidId)
    ensures FeeRefunded(t, MatchedTables(t, b, AutoBid(u, budget, fee)), InstallAll(t, UnmatchedLog(u, b, budget, fee, Balance(t, u))), b, AutoBid(u, budget, fee))
  {
    hide InstallAll;
    var log := UnmatchedLog(u, b, budget, fee, Balance(t, u));
    assert log == [log[0], log[1], log[2]] + [log[3], log[4], log[5]];
    InstallConcat(t, [log[0], log[1], log[2]], [log[3], log[4], log[5]]);
    Install3(t, log[0], log[1], log[2]);
    var tm := MatchedTables(t, b, AutoBid(u, budget, fee));
    assert InstallAll(t, [log[0], log[1], log[2]]) == tm;
    Install3(tm, log[3], log[4], log[5]);
  }

  lemma MatchedAlone(pf: Profiles, open: map<UserId, nat>, u: UserId, budget: nat, fee: nat, l: LapakId, b: BidId, t: Tables)
    requires Inv(pf, open, t) && b !in t.bids && !pf.IsLapak(u) && l in pf.userOf
    requires 0 < fee <= Balance(t, u)
    ensures Inv(pf, open, InstallAll(t, MatchedLog(u, b, budget, fee, Balance(t, u), l)))
  {
    var row := AutoBid(u, budget, fee).(status := Proposed, matched := Some(l));
    MatchedForm(t, u, budget, fee, l, b);
    MatchedTablesKeep(pf, open, t, b, row);
  }

  lemma MatchedTablesKeep(pf: Profiles, open: map<UserId, nat>, t: Tables, b: BidId, row: Bid)
    requires Inv(pf, open, t) && b !in t.bids && !pf.IsLapak(row.customer)
    requires row.mode == Auto && row.status == Proposed && row.matched.Some? && row.matched.value in pf.userOf
    requires 0 < row.fee <= Balance(t, row.customer)
    ensures Inv(pf, open, MatchedTables(t, b, row))
  {
    MatchedKeeps(pf, open, t, MatchedTables(t, b, row), b, row);
  }

  lemma UnmatchedAlone(pf: Profiles, open: map<UserId, nat>, u: UserId, budget: nat, fee: nat, b: BidId, t: Tables)
    requires Inv(pf, open, t) && b !in t.bids && !pf.IsLapak(u)
    requires 0 < fee <= Balance(t, u)
    ensures Inv(pf, open, InstallAll(t, UnmatchedLog(u, b, budget, fee, Balance(t, u))))
  {
    UnmatchedForm(t, u, budget, fee, b);
    UnmatchedKeeps(pf, open, t, MatchedTables(t, b, AutoBid(u, budget, fee)),
                   InstallAll(t, UnmatchedLog(u, b, budget, fee, Balance(t, u))), b, AutoBid(u, budget, fee));
  }

  lemma ConfirmBidAlone(pf: Profiles, open: map<UserId, nat>, op: Op, now: Time, t: Tables, log: seq<RowWrite>)
    requires Inv(pf, open, t) && op.ConfirmBid? && Decide(pf, op, now, t) == Commit(log)
    ensures Inv(pf, open, InstallAll(t, log))
  {
    hide InstallAll;
    Install1(t, log[0]);
    ConfirmBidKeeps(pf, open, t, InstallAll(t, log), op.bid);
  }

  lemma AcceptForm(t: Tables, row: Bid, lapak: LapakId, b: BidId, o: OrderId)
    ensures InstallAll(t, AcceptLog(row, lapak, b, o))
         == t.(orders := t.orders[o := NewOrderRow(FromAutoBid, row.customer, lapak, Some(b))],
               items := t.items[o := Items(t, o) + [Item(row.budget, None, None)]],
               threads := t.threads + {o},
               bids := t.bids[b := row.(status := Accepted)])
  {
    hide InstallAll;
    var log := AcceptLog(row, lapak, b, o);
    Install4(t, log[0], log[1], log[2], log[3]);
  }

  lemma AcceptAlone(pf: Profiles, open: map<UserId, nat>, u: UserId, b: BidId, o: OrderId, t: Tables, log: seq<RowWrite>)
    requires Inv(pf, open, t) && DecideAccept(pf, t, u, b, o) == Commit(log)
    requires o !in t.orders && o !in t.items && o !in t.payments
    ensures Inv(pf, open, InstallAll(t, log))
  {
    var row, lapak := t.bids[b], pf.lapakOf[u];
    AcceptForm(t, row, lapak, b, o);
    assert Items(t, o) + [Item(row.budget, None, None)] == [Item(row.budget, None, None)];
    AcceptKeeps(pf, open, t, InstallAll(t, log), b, o, NewOrderRow(FromAutoBid, row.customer, lapak, Some(b)), Item(row.budget, None, None));
  }

  lemma PlaceOfferAlone(pf: Profiles, open: map<UserId, nat>, op: Op, now: Time, t: Tables, log: seq<RowWrite>)
    requires Inv(pf, open, t) && op.PlaceOffer? && Decide(pf, op, now, t) == Commit(log)
    ensures Inv(pf, open, InstallAll(t, log))
  {
    hide InstallAll;
    Install1(t, log[0]);
    PlaceOfferKeeps(pf, open, t, InstallAll(t, log), OfferKey(op.bid, pf.lapakOf[op.user]), op.amount);
  }

  /** The award's first half: the fee and the winning offer; then the order and the bid. */
  lemma AwardFirstHalf(t: Tables, u: UserId, key: OfferKey, offer: Offer, fee: nat, o: OrderId, row: Bid)
    ensures InstallAll(t, AwardLog(row, u, key, offer, fee, Balance(t, u), o)[..4])
         == t.(wallets := t.wallets[u := Balance(t, u) - fee],
               ledger := t.ledger[u := Entries(t, u) + [FeeEntry(key.bid, fee, Balance(t, u) - fee)]],
               offers := t.offers[key := offer.(status := OfferAwarded)],
               orders := t.orders[o := NewOrderRow(FromManualBid, u, key.lapak, Some(key.bid))])
  {
    hide InstallAll;
    var log := AwardLog(row, u, key, offer, fee, Balance(t, u), o);
    assert log[..4] == [log[0], log[1], log[2], log[3]];
    Install4(t, log[0], log[1], log[2], log[3]);
  }

  lemma AwardSecondHalf(t: Tables, u: UserId, key: OfferKey, offer: Offer, fee: nat, balance: int, o: OrderId, row: Bid)
    ensures InstallAll(t, AwardLog(row, u, key, offer, fee, balance, o)[4..])
         == t.(items := t.items[o := Items(t, o) + [Item(offer.amount, None, None)]],
               threads := t.threads + {o},
               bids := t.bids[key.bid := row.(status := Awarded, fee := fee)])
  {
    hide InstallAll;
    var log := AwardLog(row, u, key, offer, fee, balance, o);
    assert log[4..] == [log[4], log[5], log[6], log[7]];
    Install4(t, log[4], log[5], log[6], log[7]);
    assert t.bids[key.bid := row.(status := Awarded)][key.bid := row.(status := Awarded, fee := fee)]
        == t.bids[key.bid := row.(status := Awarded, fee := fee)];
  }

  lemma AwardForm(t: Tables, u: UserId, key: OfferKey, fee: nat, o: OrderId)
    requires key.bid in t.bids && key in t.offers
    ensures InstallAll(t, AwardLog(t.bids[key.bid], u, key, t.offers[key], fee, Balance(t, u), o))
         == t.(wallets := t.wallets[u := Balance(t, u) - fee],
               ledger := t.ledger[u := Entries(t, u) + [FeeEntry(key.bid, fee, Balance(t, u) - fee)]],
               offers := t.offers[key := t.offers[key].(status := OfferAwarded)],
               orders := t.orders[o := NewOrderRow(FromManualBid, u, key.lapak, Some(key.bid))],
               items := t.items[o := Items(t, o) + [Item(t.offers[key].amount, None, None)]],
               threads := t.threads + {o},
               bids := t.bids[key.bid := t.bids[key.bid].(status := Awarded, fee := fee)])
  {
    hide InstallAll, Install;
    var log := AwardLog(t.bids[key.bid], u, key, t.offers[key], fee, Balance(t, u), o);
    assert log == log[..4] + log[4..];
    InstallConcat(t, log[..4], log[4..]);
    AwardFirstHalf(t, u, key, t.offers[key], fee, o, t.bids[key.bid]);
    AwardSecondHalf(InstallAll(t, log[..4]), u, key, t.offers[key], fee, Balance(t, u), o, t.bids[key.bid]);
  }

  lemma AwardAlone(pf: Profiles, open: map<UserId, nat>, op: Op, now: Time, t: Tables, log: seq<RowWrite>)
    requires Inv(pf, open, t) && op.Award? && Admissible(pf, op, now, t) && Decide(pf, op, now, t) == Commit(log)
    ensures Inv(pf, open, InstallAll(t, log))
  {
    hide InstallAll, AwardLog, LedgerOk, OrdersOk;
    var key := OfferKey(op.bid, op.offerer);
    AwardForm(t, op.user, key, op.fee, op.order);
    assert Items(t, op.order) + [Item(t.offers[key].amount, None, None)] == [Item(t.offers[key].amount, None, None)];
    AwardKeeps(pf, open, t, InstallAll(t, log), key, op.fee, op.order, FeeEntry(op.bid, op.fee, Balance(t, op.user) - op.fee));
  }

  lemma CompleteAlone(pf: Profiles, open: map<UserId, nat>, u: UserId, o: OrderId, seconds: nat, now: Time, t: Tables, log: seq<RowWrite>)
    requires Inv(pf, open, t) && DecideComplete(pf, t, now, u, o, seconds) == Commit(log)
    ensures Inv(pf, open, InstallAll(t, log))
  {
    var deadline := now + seconds;
    CompleteFacts(pf, u, o, seconds, now, deadline, t, log);
    CompleteKeeps(pf, open, t, InstallAll(t, log), o, deadline);
  }

  lemma EndingDecisionKeeps(pf: Profiles, open: map<UserId, nat>, op: Op, now: Time, t: Tables, log: seq<RowWrite>)
    requires op.Complete? || op.Confirm? || op.AutoConfirm?
    requires Inv(pf, open, t) && Admissible(pf, op, now, t) && Decide(pf, op, now, t) == Commit(log)
    ensures Inv(pf, open, InstallAll(t, log))
  {
    match op
    case Complete(u, o, seconds) => CompleteAlone(pf, open, u, o, seconds, now, t, log);
    case Confirm(_, o) => PayoutAlone(pf, open, o, false, now, t, log);
    case AutoConfirm(o) => PayoutAlone(pf, open, o, true, now, t, log);
  }

  lemma BidDecisionKeeps(pf: Profiles, open: map<UserId, nat>, op: Op, now: Time, t: Tables, log: seq<RowWrite>)
    requires op.PostManual? || op.PostAuto? || op.ConfirmBid? || op.AcceptBid? || op.PlaceOffer? || op.Award?
    requires Inv(pf, open, t) && Admissible(pf, op, now, t) && Decide(pf, op, now, t) == Commit(log)
    ensures Inv(pf, open, InstallAll(t, log))
  {
    match op
    case PostManual(_, _, _) => PostManualAlone(pf, open, op, now, t, log);
    case PostAuto(u, budget, fee, m, b) =>
      if m.Some? {
        MatchedAlone(pf, open, u, budget, fee, m.value, b, t);
      } else {
        UnmatchedAlone(pf, open, u, budget, fee, b, t);
      }
    case ConfirmBid(_, _) => ConfirmBidAlone(pf, open, op, now, t, log);
    case AcceptBid(u, b, o) => AcceptAlone(pf, open, u, b, o, t, log);
    case PlaceOffer(_, _, _) => PlaceOfferAlone(pf, open, op, now, t, log);
    case Award(_, _, _, _, _) => AwardAlone(pf, open, op, now, t, log);
  }

  /** Every request that commits keeps every invariant. */
  lemma DecisionKeeps(pf: Profiles, open: map<UserId, nat>, op: Op, now: Time, t: Tables, log: seq<RowWrite>)
    requires Inv(pf, open, t) && Admissible(pf, op, now, t) && Decide(pf, op, now, t) == Commit(log)
    ensures Inv(pf, open, InstallAll(t, log))
  {
    if op.PlaceOrder? {
      PlaceOrderAlone(pf, open, op, now, t, log);
    } else if op.Pay? {
      PayAlone(pf, open, op, now, t, log);
    } else if op.AddItem? {
      AddItemAlone(pf, open, op, now, t, log);
    } else if op.Complete? || op.Confirm? || op.AutoConfirm? {
      EndingDecisionKeeps(pf, open, op, now, t, log);
    } else {
      BidDecisionKeeps(pf, open, op, now, t, log);
    }
  }

  /** Every request that runs alone keeps every invariant, and one that is refused
      leaves every table as it was. */
  lemma AfterKeeps(pf: Profiles, open: map<UserId, nat>, op: Op, now: Time, t: Tables)
    requires Inv(pf, open, t) && Admissible(pf, op, now, t)
    ensures Inv(pf, open, After(pf, op, now, t))
    ensures Decide(pf, op, now, t).Refuse? ==> After(pf, op, now, t) == t
  {
    if Decide(pf, op, now, t).Commit? {
      DecisionKeeps(pf, open, op, now, t, Decide(pf, op, now, t).log);
    }
  }
}
