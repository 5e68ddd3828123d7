/** Every bid transaction keeps the table invariants. */
module MarketBidKeeps {
  import opened Common
  import opened MarketTables
  import opened MarketDecisions
  import opened MarketInvariants
  import opened MarketPreservation

  // ----- Bids -----

  ghost predicate OthersSame(t: Tables, t2: Tables, b: BidId) {
    && (b in t2.bids && t2.bids == t.bids[b := t2.bids[b]])
    && (forall key :: key in t2.offers && key.bid != b ==> key in t.offers && t2.offers[key] == t.offers[key])
    && (forall key :: key in t.offers && key.bid != b ==> key in t2.offers && t2.offers[key] == t.offers[key])
  }

  /** Every bid but b is as it was, and b is in order. */
  lemma BidsBut(pf: Profiles, t: Tables, t2: Tables, b: BidId)
    requires BidsOk(pf, t) && OthersSame(t, t2, b)
    requires forall o, x :: x != b ==> (Tracks(t2, o, x) <==> Tracks(t, o, x)) && (Tracks(t, o, x) ==> t2.orders[o].lapak == t.orders[o].lapak)
    requires BidOk(pf, t2, b)
    requires forall l :: OfferKey(b, l) in t2.offers ==> OfferOk(pf, t2, OfferKey(b, l))
    requires forall o1, o2 :: Tracks(t2, o1, b) && Tracks(t2, o2, b) ==> o1 == o2
    ensures BidsOk(pf, t2)
  {
    forall x | x in t2.bids ensures BidOk(pf, t2, x) {
      if x != b {
        assert BidOk(pf, t, x);
        if Settled(t.bids[x]) {
          var o :| Tracks(t, o, x);
          assert Tracks(t2, o, x);
        }
      }
    }
    forall key | key in t2.offers ensures OfferOk(pf, t2, key) {
      if key.bid != b {
        assert OfferOk(pf, t, key);
      } else {
        assert key == OfferKey(b, key.lapak);
      }
    }
    forall o1, o2, x | Tracks(t2, o1, x) && Tracks(t2, o2, x) ensures o1 == o2 {
      if x != b {
        assert Tracks(t, o1, x) && Tracks(t, o2, x);
      }
    }
  }

  /** No order tracks an unsettled bid. */
  lemma UnsettledUntracked(pf: Profiles, t: Tables, o: OrderId, b: BidId)
    requires OrdersOk(pf, t)
    requires b in t.bids ==> !Settled(t.bids[b])
    ensures !Tracks(t, o, b)
  {}

  /** Only the unsettled bid b and its offers change; it stays unsettled. */
  ghost predicate BidStep(t: Tables, t2: Tables, b: BidId) {
    && t2.orders == t.orders && t2.items == t.items && t2.payments == t.payments && t2.threads == t.threads
    && OthersSame(t, t2, b)
    && (b in t.bids ==> !Settled(t.bids[b]) && t2.bids[b].customer == t.bids[b].customer)
    && !Settled(t2.bids[b])
  }

  lemma BidStepOrders(pf: Profiles, t: Tables, t2: Tables, b: BidId)
    requires OrdersOk(pf, t) && BidStep(t, t2, b)
    ensures OrdersOk(pf, t2)
  {
    forall x | x in t2.orders ensures OrderOk(pf, t2, x) {
      assert OrderOk(pf, t, x);
      assert SameOrder(t, t2, x);
      OrderKept(pf, t, t2, x);
    }
  }

  lemma BidStepBids(pf: Profiles, t: Tables, t2: Tables, b: BidId)
    requires OrdersOk(pf, t) && BidsOk(pf, t) && BidStep(t, t2, b) && BidOk(pf, t2, b)
    requires forall l :: OfferKey(b, l) in t2.offers ==> OfferOk(pf, t2, OfferKey(b, l))
    ensures BidsOk(pf, t2)
  {
    forall o: OrderId ensures !Tracks(t2, o, b) {
      UnsettledUntracked(pf, t, o, b);
    }
    BidsBut(pf, t, t2, b);
  }

  /** A bid step that moves no money and leaves the fee. */
  lemma BidStepKeeps(pf: Profiles, open: map<UserId, nat>, t: Tables, t2: Tables, b: BidId)
    requires Inv(pf, open, t) && BidStep(t, t2, b) && BidOk(pf, t2, b)
    requires forall l :: OfferKey(b, l) in t2.offers ==> OfferOk(pf, t2, OfferKey(b, l))
    requires t2.wallets == t.wallets && t2.ledger == t.ledger
    requires t2.bids[b].fee == if b in t.bids then t.bids[b].fee else 0
    ensures Inv(pf, open, t2)
  {
    UsersSame(open, t, t2);
    BidStepLedger(pf, t, t2, b);
    BidStepOrders(pf, t, t2, b);
    BidStepBids(pf, t, t2, b);
    HeldSame(t, t2);
    FeesUpdate(t, t2, b, t2.bids[b]);
  }

  lemma BidStepLedger(pf: Profiles, t: Tables, t2: Tables, b: BidId)
    requires LedgerOk(pf, t) && BidStep(t, t2, b) && t2.ledger == t.ledger
    requires t2.bids[b].fee == if b in t.bids then t.bids[b].fee else 0
    ensures LedgerOk(pf, t2)
  {
    assert QuietOrders(t, t2);
    LedgerQuiet(pf, t, t2);
  }

  /** A bid step that moves money: the row's amount is what the fee changed by. */
  lemma BidFeeStepKeeps(pf: Profiles, open: map<UserId, nat>, t: Tables, t2: Tables, b: BidId, e: Entry)
    requires Inv(pf, open, t) && BidStep(t, t2, b) && BidOk(pf, t2, b)
    requires forall l :: OfferKey(b, l) in t2.offers ==> OfferOk(pf, t2, OfferKey(b, l))
    requires Moves(t, t2, t2.bids[b].customer, e) && e.kind in {PlatformFee, Refund} && e.subject == ForBid(b)
    requires t2.bids[b].fee == (if b in t.bids then t.bids[b].fee else 0) - e.amount
    ensures Inv(pf, open, t2)
  {
    UsersMove(open, t, t2, t2.bids[b].customer, e);
    BidFeeStepLedger(pf, t, t2, b, e);
    BidStepOrders(pf, t, t2, b);
    BidStepBids(pf, t, t2, b);
    BidFeeStepMoney(t, t2, b, e);
  }

  lemma BidFeeStepLedger(pf: Profiles, t: Tables, t2: Tables, b: BidId, e: Entry)
    requires LedgerOk(pf, t) && BidStep(t, t2, b)
    requires Moves(t, t2, t2.bids[b].customer, e) && e.kind in {PlatformFee, Refund} && e.subject == ForBid(b)
    requires t2.bids[b].fee == (if b in t.bids then t.bids[b].fee else 0) - e.amount
    ensures LedgerOk(pf, t2)
  {
    assert QuietOrders(t, t2);
    LedgerFee(pf, t, t2, t2.bids[b].customer, b, e);
  }

  lemma BidFeeStepMoney(t: Tables, t2: Tables, b: BidId, e: Entry)
    requires BidStep(t, t2, b) && Moves(t, t2, t2.bids[b].customer, e)
    requires t2.bids[b].fee == (if b in t.bids then t.bids[b].fee else 0) - e.amount
    ensures Money(t2) == Money(t)
  {
    WalletMove(t, t2, t2.bids[b].customer, e);
    HeldSame(t, t2);
    FeesUpdate(t, t2, b, t2.bids[b]);
  }

  lemma PostManualKeeps(pf: Profiles, open: map<UserId, nat>, t: Tables, t2: Tables, b: BidId, user: UserId, budget: nat)
    requires Inv(pf, open, t) && b !in t.bids && !pf.IsLapak(user)
    requires t2 == t.(bids := t.bids[b := Bid(Manual, Open, user, None, budget, 0)])
    ensures Inv(pf, open, t2)
  {
    NoOffersYet(pf, t, b);
    BidStepKeeps(pf, open, t, t2, b);
  }

  lemma NoOffersYet(pf: Profiles, t: Tables, b: BidId)
    requires BidsOk(pf, t) && b !in t.bids
    ensures forall key :: key in t.offers ==> key.bid != b
  {
    forall key | key in t.offers ensures key.bid != b {
      assert OfferOk(pf, t, key);
    }
  }

  lemma AutoHasNoOffers(pf: Profiles, t: Tables, b: BidId)
    requires BidsOk(pf, t) && b in t.bids && t.bids[b].mode == Auto
    ensures forall key :: key in t.offers ==> key.bid != b
  {
    forall key | key in t.offers ensures key.bid != b {
      assert OfferOk(pf, t, key);
    }
  }

  lemma ConfirmBidKeeps(pf: Profiles, open: map<UserId, nat>, t: Tables, t2: Tables, b: BidId)
    requires Inv(pf, open, t) && b in t.bids && t.bids[b].status == Proposed
    requires t2 == t.(bids := t.bids[b := t.bids[b].(status := CustomerConfirmed)])
    ensures Inv(pf, open, t2)
  {
    assert BidOk(pf, t, b);
    AutoHasNoOffers(pf, t, b);
    BidStepKeeps(pf, open, t, t2, b);
  }

  lemma PlaceOfferKeeps(pf: Profiles, open: map<UserId, nat>, t: Tables, t2: Tables, key: OfferKey, amount: nat)
    requires Inv(pf, open, t) && key.bid in t.bids && t.bids[key.bid].mode == Manual && t.bids[key.bid].status == Open
    requires key.lapak in pf.userOf
    requires t2 == t.(offers := t.offers[key := Offer(amount, Pending)])
    ensures Inv(pf, open, t2)
  {
    var b := key.bid;
    assert BidOk(pf, t, b);
    assert t.bids[b := t.bids[b]] == t.bids;
    forall l | OfferKey(b, l) in t2.offers ensures OfferOk(pf, t2, OfferKey(b, l)) {
      if OfferKey(b, l) != key {
        assert OfferOk(pf, t, OfferKey(b, l));
      }
    }
    BidStepKeeps(pf, open, t, t2, b);
  }

  /** The fee taken for a new automatic bid that found its lapak. */
  lemma MatchedKeeps(pf: Profiles, open: map<UserId, nat>, t: Tables, t2: Tables, b: BidId, row: Bid)
    requires Inv(pf, open, t) && b !in t.bids && !pf.IsLapak(row.customer)
    requires row.mode == Auto && row.status == Proposed && row.matched.Some? && row.matched.value in pf.userOf
    requires 0 < row.fee <= Balance(t, row.customer)
    requires t2 == t.(bids := t.bids[b := row],
                      wallets := t.wallets[row.customer := Balance(t, row.customer) - row.fee],
                      ledger := t.ledger[row.customer := Entries(t, row.customer) + [FeeEntry(b, row.fee, Balance(t, row.customer) - row.fee)]])
    ensures Inv(pf, open, t2)
  {
    NoOffersYet(pf, t, b);
    BidFeeStepKeeps(pf, open, t, t2, b, FeeEntry(b, row.fee, Balance(t, row.customer) - row.fee));
  }

  /** A fee and its refund, the second taking back what the first took. */
  ghost predicate FeeRefunded(t: Tables, tm: Tables, t2: Tables, b: BidId, row: Bid) {
    && tm == t.(bids := t.bids[b := row],
                wallets := t.wallets[row.customer := Balance(t, row.customer) - row.fee],
                ledger := t.ledger[row.customer := Entries(t, row.customer) + [FeeEntry(b, row.fee, Balance(t, row.customer) - row.fee)]])
    && t2 == tm.(bids := tm.bids[b := row.(fee := 0)],
                 wallets := tm.wallets[row.customer := Balance(t, row.customer)],
                 ledger := tm.ledger[row.customer := Entries(tm, row.customer) + [RefundEntry(b, row.fee, Balance(t, row.customer))]])
  }

  lemma RefundUsersAndLedger(pf: Profiles, open: map<UserId, nat>, t: Tables, tm: Tables, t2: Tables, b: BidId, row: Bid)
    requires UsersOk(open, t) && LedgerOk(pf, t) && b !in t.bids && !Settled(row)
    requires 0 < row.fee <= Balance(t, row.customer)
    requires FeeRefunded(t, tm, t2, b, row)
    requires forall key :: key in t.offers ==> key.bid != b
    ensures UsersOk(open, t2) && LedgerOk(pf, t2)
  {
    var u, bal := row.customer, Balance(t, row.customer);
    UsersMove(open, t, tm, u, FeeEntry(b, row.fee, bal - row.fee));
    UsersMove(open, tm, t2, u, RefundEntry(b, row.fee, bal));
    BidFeeStepLedger(pf, t, tm, b, FeeEntry(b, row.fee, bal - row.fee));
    BidFeeStepLedger(pf, tm, t2, b, RefundEntry(b, row.fee, bal));
  }

  lemma RefundMoney(t: Tables, tm: Tables, t2: Tables, b: BidId, row: Bid)
    requires b !in t.bids && !Settled(row) && 0 < row.fee <= Balance(t, row.customer)
    requires FeeRefunded(t, tm, t2, b, row)
    requires forall key :: key in t.offers ==> key.bid != b
    ensures Money(t2) == Money(t)
  {
    var u, bal := row.customer, Balance(t, row.customer);
    BidFeeStepMoney(t, tm, b, FeeEntry(b, row.fee, bal - row.fee));
    BidFeeStepMoney(tm, t2, b, RefundEntry(b, row.fee, bal));
  }

  /** The row of an automatic bid whose fee has been charged and not yet refunded. */
  lemma RefundOrdersAndBids(pf: Profiles, t: Tables, tm: Tables, t2: Tables, b: BidId, row: Bid)
    requires OrdersOk(pf, t) && BidsOk(pf, t) && b !in t.bids && !pf.IsLapak(row.customer)
    requires row.mode == Auto && row.status == NoMatch && row.matched == None
    requires FeeRefunded(t, tm, t2, b, row)
    requires forall key :: key in t.offers ==> key.bid != b
    ensures OrdersOk(pf, t2) && BidsOk(pf, t2)
  {
    assert t2.bids == t.bids[b := row.(fee := 0)];
    BidStepOrders(pf, t, t2, b);
    BidStepBids(pf, t, t2, b);
  }

  lemma UnmatchedKeeps(pf: Profiles, open: map<UserId, nat>, t: Tables, tm: Tables, t2: Tables, b: BidId, row: Bid)
    requires Inv(pf, open, t) && b !in t.bids && !pf.IsLapak(row.customer)
    requires row.mode == Auto && row.status == NoMatch && row.matched == None
    requires 0 < row.fee <= Balance(t, row.customer)
    requires FeeRefunded(t, tm, t2, b, row)
    ensures Inv(pf, open, t2)
  {
    NoOffersYet(pf, t, b);
    RefundUsersAndLedger(pf, open, t, tm, t2, b, row);
    RefundMoney(t, tm, t2, b, row);
    RefundOrdersAndBids(pf, t, tm, t2, b, row);
  }

  // ----- A bid becomes a tracked order -----

  ghost predicate TrackStep(t: Tables, t2: Tables, b: BidId, o: OrderId, row: Order, item: Item) {
    && o !in t.orders && o !in t.items && o !in t.payments
    && t2.orders == t.orders[o := row] && t2.items == t.items[o := [item]]
    && t2.payments == t.payments && t2.threads == t.threads + {o}
    && OthersSame(t, t2, b) && b in t.bids && !Settled(t.bids[b])
    && t2.bids[b].customer == t.bids[b].customer
    && row.source in {FromAutoBid, FromManualBid}
    && row == NewOrderRow(row.source, t.bids[b].customer, row.lapak, Some(b)) && item.payment == None && item.gig == None
  }

  lemma TrackStepOrders(pf: Profiles, t: Tables, t2: Tables, b: BidId, o: OrderId, row: Order, item: Item)
    requires OrdersOk(pf, t) && TrackStep(t, t2, b, o, row, item)
    requires !pf.IsLapak(row.customer) && row.lapak in pf.userOf && TrackedOk(t2, o, b)
    ensures OrdersOk(pf, t2)
  {
    hide Tracks;
    assert Items(t2, o) == [item] && Payments(t2, o) == [];
    assert OrderOk(pf, t2, o);
    OrdersBut(pf, t, t2, o);
  }

  lemma TrackStepBids(pf: Profiles, t: Tables, t2: Tables, b: BidId, o: OrderId, row: Order, item: Item)
    requires OrdersOk(pf, t) && BidsOk(pf, t) && TrackStep(t, t2, b, o, row, item)
    requires Tracks(t2, o, b) ==> BidOk(pf, t2, b)
    requires forall l :: OfferKey(b, l) in t2.offers ==>
      && l in pf.userOf && t2.bids[b].mode == Manual
      && (t2.offers[OfferKey(b, l)].status == Pending
          || (t2.offers[OfferKey(b, l)].status == OfferAwarded && t2.bids[b].status == Awarded && l == row.lapak))
    ensures BidsOk(pf, t2)
  {
    assert Tracks(t2, o, b);
    forall x: OrderId ensures Tracks(t2, x, b) <==> x == o {
      UnsettledUntracked(pf, t, x, b);
    }
    BidsBut(pf, t, t2, b);
  }

  lemma TrackStepQuiet(t: Tables, t2: Tables, b: BidId, o: OrderId, row: Order, item: Item)
    requires TrackStep(t, t2, b, o, row, item)
    ensures QuietOrders(t, t2)
  {
    forall x: OrderId ensures QuietOrder(t, t2, x) {
      assert x != o ==> Items(t2, x) == Items(t, x);
    }
  }

  lemma TrackStepMoney(t: Tables, t2: Tables, b: BidId, o: OrderId, row: Order, item: Item)
    requires TrackStep(t, t2, b, o, row, item)
    ensures Total(Held(t2)) == Total(Held(t))
    ensures Total(Fees(t2)) == Total(Fees(t)) - t.bids[b].fee + t2.bids[b].fee
  {
    assert Items(t2, o) == [item] && PaidRows([item]) == {};
    NoRows([item]);
    HeldUpdate(t, t2, o, 0);
    FeesUpdate(t, t2, b, t2.bids[b]);
  }

  lemma AcceptOrders(pf: Profiles, t: Tables, t2: Tables, b: BidId, o: OrderId, row: Order, item: Item)
    requires OrdersOk(pf, t) && BidsOk(pf, t) && TrackStep(t, t2, b, o, row, item)
    requires t2.bids[b] == t.bids[b].(status := Accepted) && t.bids[b].matched == Some(row.lapak)
    requires row.source == FromAutoBid && item.subtotal == t.bids[b].budget
    ensures OrdersOk(pf, t2)
  {
    assert BidOk(pf, t, b);
    assert Items(t2, o) == [item];
    TrackStepOrders(pf, t, t2, b, o, row, item);
  }

  lemma TrackStepLedger(pf: Profiles, t: Tables, t2: Tables, b: BidId, o: OrderId, row: Order, item: Item)
    requires LedgerOk(pf, t) && TrackStep(t, t2, b, o, row, item)
    requires t2.ledger == t.ledger && t2.bids[b].fee == t.bids[b].fee
    ensures LedgerOk(pf, t2)
  {
    TrackStepQuiet(t, t2, b, o, row, item);
    LedgerQuiet(pf, t, t2);
  }

  /** What accepting a bid leaves, beside the new order. */
  ghost predicate Accepts(t: Tables, t2: Tables, b: BidId, o: OrderId, row: Order, item: Item) {
    && TrackStep(t, t2, b, o, row, item)
    && t.bids[b].status == CustomerConfirmed && t.bids[b].matched == Some(row.lapak)
    && row.source == FromAutoBid && item.subtotal == t.bids[b].budget
    && t2.wallets == t.wallets && t2.ledger == t.ledger && t2.offers == t.offers
    && t2.bids == t.bids[b := t.bids[b].(status := Accepted)]
  }

  lemma AcceptMoney(t: Tables, t2: Tables, b: BidId, o: OrderId, row: Order, item: Item)
    requires Accepts(t, t2, b, o, row, item)
    ensures Money(t2) == Money(t)
    ensures (forall x :: x in t.items || x in t.payments ==> x in t.orders) ==> forall x :: x in t2.items || x in t2.payments ==> x in t2.orders
  {
    TrackStepMoney(t, t2, b, o, row, item);
  }

  lemma AcceptKeeps(pf: Profiles, open: map<UserId, nat>, t: Tables, t2: Tables, b: BidId, o: OrderId, row: Order, item: Item)
    requires Inv(pf, open, t) && Accepts(t, t2, b, o, row, item)
    ensures Inv(pf, open, t2)
  {
    UsersSame(open, t, t2);
    TrackStepLedger(pf, t, t2, b, o, row, item);
    AcceptOrders(pf, t, t2, b, o, row, item);
    AcceptBids(pf, t, t2, b, o, row, item);
    AcceptMoney(t, t2, b, o, row, item);
  }

  lemma AcceptBids(pf: Profiles, t: Tables, t2: Tables, b: BidId, o: OrderId, row: Order, item: Item)
    requires OrdersOk(pf, t) && BidsOk(pf, t) && TrackStep(t, t2, b, o, row, item)
    requires t.bids[b].status == CustomerConfirmed
    requires t2.offers == t.offers && t2.bids == t.bids[b := t.bids[b].(status := Accepted)]
    ensures BidsOk(pf, t2)
  {
    assert BidOk(pf, t, b);
    AutoHasNoOffers(pf, t, b);
    TrackStepBids(pf, t, t2, b, o, row, item);
  }

  lemma AwardBids(pf: Profiles, t: Tables, t2: Tables, key: OfferKey, fee: nat, o: OrderId, row: Order, item: Item)
    requires OrdersOk(pf, t) && BidsOk(pf, t) && TrackStep(t, t2, key.bid, o, row, item)
    requires t.bids[key.bid].status == Open && t.bids[key.bid].mode == Manual && row.lapak == key.lapak && fee > 0
    requires key in t.offers && t2.offers == t.offers[key := t.offers[key].(status := OfferAwarded)]
    requires t2.bids == t.bids[key.bid := t.bids[key.bid].(status := Awarded, fee := fee)]
    ensures BidsOk(pf, t2)
  {
    var b := key.bid;
    assert BidOk(pf, t, b) && OfferOk(pf, t, key);
    forall l | OfferKey(b, l) in t2.offers
      ensures l in pf.userOf
      ensures t2.offers[OfferKey(b, l)].status == Pending || (t2.offers[OfferKey(b, l)].status == OfferAwarded && l == row.lapak)
    {
      assert OfferOk(pf, t, OfferKey(b, l));
    }
    TrackStepBids(pf, t, t2, b, o, row, item);
  }

  lemma AwardMoney(t: Tables, t2: Tables, b: BidId, fee: nat, o: OrderId, e: Entry, row: Order, item: Item)
    requires TrackStep(t, t2, b, o, row, item) && t.bids[b].fee == 0 && t2.bids[b].fee == fee
    requires e == FeeEntry(b, fee, e.after) && Moves(t, t2, t.bids[b].customer, e)
    ensures Money(t2) == Money(t)
  {
    TrackStepMoney(t, t2, b, o, row, item);
    WalletMove(t, t2, t.bids[b].customer, e);
  }

  lemma AwardKeeps(pf: Profiles, open: map<UserId, nat>, t: Tables, t2: Tables, key: OfferKey, fee: nat, o: OrderId, e: Entry)
    requires Inv(pf, open, t) && key.bid in t.bids && t.bids[key.bid].status == Open && t.bids[key.bid].mode == Manual
    requires key in t.offers && fee > 0
    requires e == FeeEntry(key.bid, fee, e.after) && Moves(t, t2, t.bids[key.bid].customer, e)
    requires t2.offers == t.offers[key := t.offers[key].(status := OfferAwarded)]
    requires t2.bids == t.bids[key.bid := t.bids[key.bid].(status := Awarded, fee := fee)]
    requires TrackStep(t, t2, key.bid, o, NewOrderRow(FromManualBid, t.bids[key.bid].customer, key.lapak, Some(key.bid)), Item(t.offers[key].amount, None, None))
    ensures Inv(pf, open, t2)
  {
    var b, u, row, item := key.bid, t.bids[key.bid].customer, t2.orders[o], Item(t.offers[key].amount, None, None);
    assert BidOk(pf, t, b);
    UsersMove(open, t, t2, u, e);
    TrackStepQuiet(t, t2, b, o, row, item);
    AwardLedger(pf, t, t2, b, u, fee, e);
    AwardOrders(pf, t, t2, key, o, row, item);
    AwardBids(pf, t, t2, key, fee, o, row, item);
    AwardMoney(t, t2, b, fee, o, e, row, item);
  }

  lemma AwardOrders(pf: Profiles, t: Tables, t2: Tables, key: OfferKey, o: OrderId, row: Order, item: Item)
    requires OrdersOk(pf, t) && BidsOk(pf, t) && TrackStep(t, t2, key.bid, o, row, item)
    requires key in t.offers && item.subtotal == t.offers[key].amount && row.source == FromManualBid && row.lapak == key.lapak
    requires t2.offers == t.offers[key := t.offers[key].(status := OfferAwarded)] && t2.bids[key.bid].status == Awarded
    ensures OrdersOk(pf, t2)
  {
    assert BidOk(pf, t, key.bid) && OfferOk(pf, t, key);
    assert Items(t2, o) == [item];
    assert key == OfferKey(key.bid, key.lapak);
    TrackStepOrders(pf, t, t2, key.bid, o, row, item);
  }

  lemma AwardLedger(pf: Profiles, t: Tables, t2: Tables, b: BidId, u: UserId, fee: nat, e: Entry)
    requires LedgerOk(pf, t) && QuietOrders(t, t2) && b in t.bids && t.bids[b].customer == u && t.bids[b].fee == 0
    requires e == FeeEntry(b, fee, e.after) && Moves(t, t2, u, e)
    requires t2.bids == t.bids[b := t.bids[b].(status := Awarded, fee := fee)]
    ensures LedgerOk(pf, t2)
  {
    LedgerFee(pf, t, t2, u, b, e);
  }
}
