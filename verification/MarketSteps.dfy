/** Every statement of every transaction keeps what the transaction relies on. */
module MarketSteps {
  import opened Common
  import opened MarketTables
  import opened MarketDecisions
  import opened MarketInvariants
  import opened MarketPreservation
  import opened MarketOrderKeeps
  import opened MarketMachine
  import opened MarketTxInvariant

  // ----- Prefixes of a log -----

  lemma PrefixSnoc(log: seq<RowWrite>, n: nat)
    requires n < |log|
    ensures log[..n] + [log[n]] == log[..n + 1]
  {}

  // ----- Pay -----

  lemma PayReadsStep(t: Tables, held: set<Lock>, tx: Tx, u: UserId, o: OrderId)
    requires PayTx(t, held, tx, u, o) && tx.pc <= 2
    ensures var a := NextPay(t, tx, u, o);
      && (a.Acquire? ==> PayTx(t, held + {a.lock}, a.next, u, o))
      && (a.Continue? ==> PayTx(t, held, a.next, u, o))
  {}

  lemma PayHeadStep(t: Tables, held: set<Lock>, tx: Tx, u: UserId, o: OrderId)
    requires PayTx(t, held, tx, u, o) && 3 <= tx.pc <= 6
    ensures var a := NextPay(t, tx, u, o);
      && (a.Acquire? ==> PayTx(t, held + {a.lock}, a.next, u, o))
      && (a.Continue? ==> PayTx(t, held, a.next, u, o))
      && !a.Fail?
  {
    var head := PayHead(u, o, tx.rows, tx.amount, tx.balance, |Payments(t, o)|);
    PrefixSnoc(head, tx.pc - 3);
    if tx.pc == 3 {
      assert head[..0] == [];
    } else if tx.pc == 4 {
      assert head[..1] == [head[0]];
      ViewWallets(t, tx.log);
    } else if tx.pc == 6 {
      assert head[..3] == [head[0], head[1], head[2]];
      ViewItems(t, tx.log);
      assert tx.rows * UnpaidRows(Items(t, o)) == tx.rows;
    }
  }

  lemma PayTailStep(t: Tables, held: set<Lock>, tx: Tx, u: UserId, o: OrderId)
    requires PayTx(t, held, tx, u, o) && 7 <= tx.pc <= 8
    ensures var a := NextPay(t, tx, u, o);
      && (a.Acquire? ==> PayTx(t, held + {a.lock}, a.next, u, o))
      && (a.Continue? ==> PayTx(t, held, a.next, u, o))
      && !a.Fail?
  {
    var head := PayHead(u, o, tx.rows, tx.amount, tx.balance, tx.payment);
    var full := PayLog(t.orders[o], u, o, tx.rows, tx.amount, tx.balance, tx.payment);
    if tx.pc == 7 {
      assert head[..4] == head;
      ViewOrders(t, tx.log);
    } else {
      assert full == full[..|full| - 1] + [OpenThread(o)];
    }
  }

  /** A charge that has summed its rows can only go on to its commit. */
  lemma PayStep(t: Tables, held: set<Lock>, tx: Tx, u: UserId, o: OrderId)
    requires PayTx(t, held, tx, u, o)
    ensures var a := NextPay(t, tx, u, o);
      && (a.Acquire? ==> PayTx(t, held + {a.lock}, a.next, u, o))
      && (a.Continue? ==> PayTx(t, held, a.next, u, o))
      && (tx.pc >= 3 ==> !a.Fail?)
  {
    if tx.pc <= 2 {
      PayReadsStep(t, held, tx, u, o);
    } else if tx.pc <= 6 {
      PayHeadStep(t, held, tx, u, o);
    } else if tx.pc <= 8 {
      PayTailStep(t, held, tx, u, o);
    }
  }

  // ----- PlaceOrder, AddItem, Complete -----

  lemma PlaceOrderStep(pf: Profiles, held: set<Lock>, tx: Tx)
    requires tx.op.PlaceOrder? && PlaceOrderTx(pf, held, tx)
    ensures var a := NextPlaceOrder(pf, tx);
      !a.Acquire? && (a.Continue? ==> PlaceOrderTx(pf, held, a.next))
  {}

  lemma AddItemStep(pf: Profiles, t: Tables, held: set<Lock>, tx: Tx)
    requires tx.op.AddItem? && AddItemTx(t, held, tx)
    ensures var a := NextAddItem(pf, t, tx);
      && (a.Acquire? ==> AddItemTx(t, held + {a.lock}, a.next))
      && (a.Continue? ==> AddItemTx(t, held, a.next))
  {}

  lemma CompleteStep(pf: Profiles, t: Tables, held: set<Lock>, tx: Tx)
    requires tx.op.Complete? && CompleteTx(pf, t, held, tx)
    ensures var a := NextComplete(pf, t, tx);
      && (a.Acquire? ==> CompleteTx(pf, t, held + {a.lock}, a.next))
      && (a.Continue? ==> CompleteTx(pf, t, held, a.next))
      && (tx.pc == 3 ==> a.Acquire?)
  {}

  // ----- Payout -----

  lemma PayoutReadsStep(pf: Profiles, t: Tables, held: set<Lock>, tx: Tx, customer: Option<UserId>, o: OrderId)
    requires OrdersOk(pf, t)
    requires PayoutTx(pf, t, held, tx, customer, o) && tx.pc <= 2
    ensures var a := NextPayout(pf, t, tx, customer, o);
      && (a.Acquire? ==> PayoutTx(pf, t, held + {a.lock}, a.next, customer, o))
      && (a.Continue? ==> PayoutTx(pf, t, held, a.next, customer, o))
  {
    if tx.pc == 2 && tx.status == AwaitingConfirmation {
      assert OrderOk(pf, t, o);
      PaidIsTotal(pf, t, o);
    }
  }

  lemma PayoutCreditStep(pf: Profiles, t: Tables, held: set<Lock>, tx: Tx, customer: Option<UserId>, o: OrderId)
    requires PayoutTx(pf, t, held, tx, customer, o) && tx.pc == 3
    ensures var a := NextPayout(pf, t, tx, customer, o);
      a.Acquire? && PayoutTx(pf, t, held + {a.lock}, a.next, customer, o)
  {
    var v := pf.userOf[t.orders[o].lapak];
    var log := PayoutLog(t.orders[o], v, o, tx.amount, Balance(t, v), customer.None?, tx.start);
    assert log[..1] == [SetWallet(v, Balance(t, v) + tx.amount)];
  }

  lemma PayoutRowsStep(pf: Profiles, t: Tables, held: set<Lock>, tx: Tx, customer: Option<UserId>, o: OrderId)
    requires PayoutTx(pf, t, held, tx, customer, o) && 4 <= tx.pc <= 5
    ensures var a := NextPayout(pf, t, tx, customer, o);
      && (a.Acquire? ==> PayoutTx(pf, t, held + {a.lock}, a.next, customer, o))
      && (a.Continue? ==> PayoutTx(pf, t, held, a.next, customer, o))
      && !a.Fail? && !a.NoChange?
  {
    var v := pf.userOf[t.orders[o].lapak];
    var log := PayoutLog(t.orders[o], v, o, tx.amount, Balance(t, v), customer.None?, tx.start);
    PrefixSnoc(log, tx.pc - 3);
    ViewOrders(t, tx.log);
  }

  /** A payout that found its order awaiting can only go on to its commit. */
  lemma PayoutStep(pf: Profiles, t: Tables, held: set<Lock>, tx: Tx, customer: Option<UserId>, o: OrderId)
    requires OrdersOk(pf, t) && PayoutTx(pf, t, held, tx, customer, o)
    ensures var a := NextPayout(pf, t, tx, customer, o);
      && (a.Acquire? ==> PayoutTx(pf, t, held + {a.lock}, a.next, customer, o))
      && (a.Continue? ==> PayoutTx(pf, t, held, a.next, customer, o))
      && (tx.pc >= 3 ==> !a.Fail? && !a.NoChange?)
  {
    if tx.pc <= 2 {
      PayoutReadsStep(pf, t, held, tx, customer, o);
    } else if tx.pc == 3 {
      PayoutCreditStep(pf, t, held, tx, customer, o);
    } else if tx.pc <= 5 {
      PayoutRowsStep(pf, t, held, tx, customer, o);
    }
  }

  // ----- Bids -----

  lemma PostManualStep(pf: Profiles, held: set<Lock>, tx: Tx)
    requires tx.op.PostManual? && PostManualTx(pf, held, tx)
    ensures var a := NextPostManual(pf, tx);
      !a.Acquire? && (a.Continue? ==> PostManualTx(pf, held, a.next))
  {}

  lemma PostAutoChargeStep(pf: Profiles, t: Tables, held: set<Lock>, tx: Tx)
    requires tx.op.PostAuto? && PostAutoTx(pf, t, held, tx) && tx.pc <= 4
    ensures var a := NextPostAuto(pf, t, tx);
      && (a.Acquire? ==> PostAutoTx(pf, t, held + {a.lock}, a.next))
      && (a.Continue? ==> PostAutoTx(pf, t, held, a.next))
  {
    var op := tx.op;
    if tx.pc == 3 {
      ViewWallets(t, tx.log);
    } else if tx.pc == 4 {
      PrefixSnoc(UnmatchedLog(op.user, op.bid, op.budget, op.fee, t.wallets[op.user]), 2);
    }
  }

  /** The bid and the wallet as the transaction sees them once the fee is charged. */
  lemma ChargedView(t: Tables, u: UserId, b: BidId, budget: nat, fee: nat, balance: int)
    ensures var v := InstallAll(t, UnmatchedLog(u, b, budget, fee, balance)[..3]);
      v.bids == t.bids[b := AutoBid(u, budget, fee)] && v.wallets == t.wallets[u := balance - fee]
  {
    hide InstallAll;
    var log := UnmatchedLog(u, b, budget, fee, balance);
    assert log[..3] == [log[0], log[1], log[2]];
    Install3(t, log[0], log[1], log[2]);
  }

  lemma RefundedView(t: Tables, u: UserId, b: BidId, budget: nat, fee: nat, balance: int)
    ensures InstallAll(t, UnmatchedLog(u, b, budget, fee, balance)[..5]).bids == t.bids[b := AutoBid(u, budget, fee)]
  {
    hide InstallAll;
    var log := UnmatchedLog(u, b, budget, fee, balance);
    assert log[..5] == log[..3] + [log[3], log[4]];
    InstallConcat(t, log[..3], [log[3], log[4]]);
    Install2(InstallAll(t, log[..3]), log[3], log[4]);
    ChargedView(t, u, b, budget, fee, balance);
  }

  lemma PostAutoMatchStep(pf: Profiles, t: Tables, held: set<Lock>, tx: Tx)
    requires tx.op.PostAuto? && PostAutoTx(pf, t, held, tx) && 5 <= tx.pc <= 6
    ensures var a := NextPostAuto(pf, t, tx);
      && (a.Acquire? ==> PostAutoTx(pf, t, held + {a.lock}, a.next))
      && (a.Continue? ==> PostAutoTx(pf, t, held, a.next))
      && !a.Fail?
  {
    var op, balance := tx.op, t.wallets[tx.op.user];
    var log := UnmatchedLog(op.user, op.bid, op.budget, op.fee, balance);
    ChargedView(t, op.user, op.bid, op.budget, op.fee, balance);
    PrefixSnoc(log, 3);
    if tx.pc == 5 && op.match_.Some? {
      assert log[..3] + [PutBid(op.bid, AutoBid(op.user, op.budget, op.fee).(status := Proposed, matched := op.match_))]
          == MatchedLog(op.user, op.bid, op.budget, op.fee, balance, op.match_.value);
    }
  }

  lemma PostAutoRefundStep(pf: Profiles, t: Tables, held: set<Lock>, tx: Tx)
    requires tx.op.PostAuto? && PostAutoTx(pf, t, held, tx) && 7 <= tx.pc <= 8
    ensures var a := NextPostAuto(pf, t, tx);
      && (a.Continue? ==> PostAutoTx(pf, t, held, a.next))
      && a.Continue?
  {
    var op, balance := tx.op, t.wallets[tx.op.user];
    var log := UnmatchedLog(op.user, op.bid, op.budget, op.fee, balance);
    PrefixSnoc(log, tx.pc - 3);
    if tx.pc == 8 {
      RefundedView(t, op.user, op.bid, op.budget, op.fee, balance);
      assert log[..6] == log;
    }
  }

  /** Once the fee is taken, an automatic bid only goes on: to its lapak or to its refund. */
  lemma PostAutoStep(pf: Profiles, t: Tables, held: set<Lock>, tx: Tx)
    requires tx.op.PostAuto? && PostAutoTx(pf, t, held, tx)
    ensures var a := NextPostAuto(pf, t, tx);
      && (a.Acquire? ==> PostAutoTx(pf, t, held + {a.lock}, a.next))
      && (a.Continue? ==> PostAutoTx(pf, t, held, a.next))
      && (tx.pc >= 5 ==> !a.Fail?)
  {
    if tx.pc <= 4 {
      PostAutoChargeStep(pf, t, held, tx);
    } else if tx.pc <= 6 {
      PostAutoMatchStep(pf, t, held, tx);
    } else if tx.pc <= 8 {
      PostAutoRefundStep(pf, t, held, tx);
    }
  }

  lemma ConfirmBidStep(pf: Profiles, t: Tables, held: set<Lock>, tx: Tx)
    requires tx.op.ConfirmBid? && ConfirmBidTx(t, held, tx)
    ensures var a := NextConfirmBid(pf, t, tx);
      && (a.Acquire? ==> ConfirmBidTx(t, held + {a.lock}, a.next))
      && !a.Continue? && a != Fail(BidChanged)
  {}

  lemma PlaceOfferStep(pf: Profiles, t: Tables, held: set<Lock>, tx: Tx)
    requires tx.op.PlaceOffer? && PlaceOfferTx(pf, t, held, tx)
    ensures var a := NextPlaceOffer(pf, t, tx);
      && (a.Acquire? ==> PlaceOfferTx(pf, t, held + {a.lock}, a.next))
      && (a.Continue? ==> PlaceOfferTx(pf, t, held, a.next))
  {}

  lemma AcceptBidStep(pf: Profiles, t: Tables, held: set<Lock>, tx: Tx)
    requires tx.op.AcceptBid? && AcceptBidTx(pf, t, held, tx)
    ensures var a := NextAcceptBid(pf, t, tx);
      && (a.Acquire? ==> AcceptBidTx(pf, t, held + {a.lock}, a.next))
      && (a.Continue? ==> AcceptBidTx(pf, t, held, a.next))
      && a != Fail(BidChanged)
  {
    if 1 <= tx.pc <= 4 && pf.IsLapak(tx.op.user) {
      var log := AcceptLog(tx.bidRow, pf.lapakOf[tx.op.user], tx.op.bid, tx.op.order);
      PrefixSnoc(log, tx.pc - 1);
      assert log[..0] == [];
      if tx.pc == 4 {
        assert log[..3] == [log[0], log[1], log[2]];
        ViewBids(t, tx.log);
      }
    }
  }

  // ----- Award -----

  lemma AwardReadsStep(pf: Profiles, t: Tables, held: set<Lock>, tx: Tx)
    requires tx.op.Award? && AwardTx(t, held, tx) && tx.pc <= 3
    ensures var a := NextAward(pf, t, tx);
      && (a.Acquire? ==> AwardTx(t, held + {a.lock}, a.next))
      && (a.Continue? ==> AwardTx(t, held, a.next))
  {
    if tx.pc == 3 && tx.op.user in t.wallets {
      var log := AwardLog(tx.bidRow, tx.op.user, OfferKey(tx.op.bid, tx.op.offerer), tx.offer, tx.op.fee, t.wallets[tx.op.user], tx.op.order);
      assert log[..0] == [] && log[..1] == [log[0]];
    }
  }

  /** The offer, the order, its line and its thread. */
  lemma AwardWritesStep(pf: Profiles, t: Tables, held: set<Lock>, tx: Tx)
    requires tx.op.Award? && AwardTx(t, held, tx) && 4 <= tx.pc <= 8
    ensures var a := NextAward(pf, t, tx);
      && !a.Acquire? && (a.Continue? ==> AwardTx(t, held, a.next))
      && (tx.pc >= 6 ==> a.Continue?)
  {
    var log := AwardLog(tx.bidRow, tx.op.user, OfferKey(tx.op.bid, tx.op.offerer), tx.offer, tx.op.fee, t.wallets[tx.op.user], tx.op.order);
    PrefixSnoc(log, tx.pc - 3);
    if tx.pc == 5 {
      assert log[..2] == [log[0], log[1]];
      ViewOffers(t, tx.log);
    }
  }

  lemma AwardedView(t: Tables, row: Bid, u: UserId, key: OfferKey, offer: Offer, fee: nat, balance: int, o: OrderId)
    ensures var log := AwardLog(row, u, key, offer, fee, balance, o);
      && InstallAll(t, log[..6]).bids == t.bids
      && InstallAll(t, log[..7]).bids == t.bids[key.bid := row.(status := Awarded)]
  {
    hide InstallAll;
    var log := AwardLog(row, u, key, offer, fee, balance, o);
    assert log[..6] == [log[0], log[1], log[2], log[3], log[4], log[5]];
    ViewBids(t, log[..6]);
    PrefixSnoc(log, 6);
    InstallSnoc(t, log[..6], log[6]);
  }

  lemma AwardBidStep(pf: Profiles, t: Tables, held: set<Lock>, tx: Tx)
    requires tx.op.Award? && AwardTx(t, held, tx) && 9 <= tx.pc <= 10
    ensures var a := NextAward(pf, t, tx);
      a.Acquire? && AwardTx(t, held + {a.lock}, a.next)
  {
    var key := OfferKey(tx.op.bid, tx.op.offerer);
    PrefixSnoc(AwardLog(tx.bidRow, tx.op.user, key, tx.offer, tx.op.fee, t.wallets[tx.op.user], tx.op.order), tx.pc - 3);
    AwardedView(t, tx.bidRow, tx.op.user, key, tx.offer, tx.op.fee, t.wallets[tx.op.user], tx.op.order);
  }

  lemma AwardStep(pf: Profiles, t: Tables, held: set<Lock>, tx: Tx)
    requires tx.op.Award? && AwardTx(t, held, tx)
    ensures var a := NextAward(pf, t, tx);
      && (a.Acquire? ==> AwardTx(t, held + {a.lock}, a.next))
      && (a.Continue? ==> AwardTx(t, held, a.next))
      && (tx.pc >= 6 ==> !a.Fail?)
  {
    if tx.pc <= 3 {
      AwardReadsStep(pf, t, held, tx);
    } else if tx.pc <= 8 {
      AwardWritesStep(pf, t, held, tx);
    } else if tx.pc <= 10 {
      AwardBidStep(pf, t, held, tx);
    }
  }

  // ----- Any transaction -----

  /** Nothing a transaction is identified by ever changes. */
  predicate SameTx(a: Tx, b: Tx) {
    a.op == b.op && a.start == b.start && a.phase == b.phase
  }

  lemma OrderNextSame(pf: Profiles, t: Tables, tx: Tx)
    requires OrderOp(tx.op)
    ensures var a := Next(pf, t, tx);
      (a.Acquire? || a.Continue?) ==> SameTx(tx, a.next)
  {}

  lemma BidNextSame(pf: Profiles, t: Tables, tx: Tx)
    requires !OrderOp(tx.op)
    ensures var a := Next(pf, t, tx);
      (a.Acquire? || a.Continue?) ==> SameTx(tx, a.next)
  {}

  lemma NextSame(pf: Profiles, t: Tables, tx: Tx)
    ensures var a := Next(pf, t, tx);
      (a.Acquire? || a.Continue?) ==> SameTx(tx, a.next)
  {
    if OrderOp(tx.op) {
      OrderNextSame(pf, t, tx);
    } else {
      BidNextSame(pf, t, tx);
    }
  }

  predicate OrderOp(op: Op) {
    op.PlaceOrder? || op.Pay? || op.AddItem? || op.Complete? || op.Confirm? || op.AutoConfirm?
  }

  lemma CustomerTxStep(pf: Profiles, t: Tables, held: set<Lock>, tx: Tx)
    requires tx.op.PlaceOrder? || tx.op.Pay? || tx.op.AddItem?
    requires TxOk(pf, t, held, tx)
    ensures var a := Next(pf, t, tx);
      && (a.Acquire? ==> TxOk(pf, t, held + {a.lock}, a.next))
      && (a.Continue? ==> TxOk(pf, t, held, a.next))
  {
    NextSame(pf, t, tx);
    match tx.op
    case PlaceOrder(_, _, _, _, _, _) => PlaceOrderStep(pf, held, tx);
    case Pay(u, o) => PayStep(t, held, tx, u, o);
    case AddItem(_, _, _, _) => AddItemStep(pf, t, held, tx);
  }

  lemma EndingTxStep(pf: Profiles, t: Tables, held: set<Lock>, tx: Tx)
    requires tx.op.Complete? || tx.op.Confirm? || tx.op.AutoConfirm?
    requires OrdersOk(pf, t) && TxOk(pf, t, held, tx)
    ensures var a := Next(pf, t, tx);
      && (a.Acquire? ==> TxOk(pf, t, held + {a.lock}, a.next))
      && (a.Continue? ==> TxOk(pf, t, held, a.next))
  {
    NextSame(pf, t, tx);
    match tx.op
    case Complete(_, _, _) => CompleteStep(pf, t, held, tx);
    case Confirm(u, o) => PayoutStep(pf, t, held, tx, Some(u), o);
    case AutoConfirm(o) => PayoutStep(pf, t, held, tx, None, o);
  }

  lemma BidTxStep(pf: Profiles, t: Tables, held: set<Lock>, tx: Tx)
    requires !OrderOp(tx.op) && TxOk(pf, t, held, tx)
    ensures var a := Next(pf, t, tx);
      && (a.Acquire? ==> TxOk(pf, t, held + {a.lock}, a.next))
      && (a.Continue? ==> TxOk(pf, t, held, a.next))
  {
    hide InstallAll;
    NextSame(pf, t, tx);
    match tx.op
    case PostManual(_, _, _) => PostManualStep(pf, held, tx);
    case PostAuto(_, _, _, _, _) => PostAutoStep(pf, t, held, tx);
    case ConfirmBid(_, _) => ConfirmBidStep(pf, t, held, tx);
    case AcceptBid(_, _, _) => AcceptBidStep(pf, t, held, tx);
    case PlaceOffer(_, _, _) => PlaceOfferStep(pf, t, held, tx);
    case Award(_, _, _, _, _) => AwardStep(pf, t, held, tx);
  }

  /** One statement, with the lock it waits for, keeps TxOk. */
  lemma TxStep(pf: Profiles, t: Tables, held: set<Lock>, tx: Tx)
    requires OrdersOk(pf, t) && TxOk(pf, t, held, tx)
    ensures var a := Next(pf, t, tx);
      && (a.Acquire? ==> TxOk(pf, t, held + {a.lock}, a.next))
      && (a.Continue? ==> TxOk(pf, t, held, a.next))
  {
    if tx.op.PlaceOrder? || tx.op.Pay? || tx.op.AddItem? {
      CustomerTxStep(pf, t, held, tx);
    } else if OrderOp(tx.op) {
      EndingTxStep(pf, t, held, tx);
    } else {
      BidTxStep(pf, t, held, tx);
    }
  }
}
