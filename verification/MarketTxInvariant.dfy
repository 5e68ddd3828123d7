/** What a running transaction may rely on between its statements: the rows it has
    read are still as it read them, and its writes so far are a prefix of the log
    it will commit. */
module MarketTxInvariant {
  import opened Common
  import opened MarketTables
  import opened MarketDecisions
  import opened MarketOrderKeeps
  import opened MarketMachine

  function HeldBy(locks: map<Lock, Tid>, tid: Tid): set<Lock> {
    set l | l in locks && locks[l] == tid
  }

  /** The locked wallet still has the balance that was read; a customer without
      a wallet row read zero and holds no lock. */
  ghost predicate WalletRead(t: Tables, held: set<Lock>, u: UserId, balance: int) {
    balance == 0 || (WalletLock(u) in held && u in t.wallets && t.wallets[u] == balance)
  }

  ghost predicate PlaceOrderTx(pf: Profiles, held: set<Lock>, tx: Tx)
    requires tx.op.PlaceOrder?
  {
    var op := tx.op;
    var log := [PutOrder(op.order, NewOrderRow(if op.gig.Some? then FromGig else FromProduct, op.user, op.lapak, None)),
                InsertItem(op.order, FirstItem(op.price, op.quantity, op.gig))];
    && tx.pc <= 3 && held == {}
    && (tx.pc >= 1 ==> !pf.IsLapak(op.user))
    && tx.log == if tx.pc <= 1 then [] else log[..tx.pc - 1]
  }

  /** From its sum on, a charge rests on Settles, and holds the wallet lock. */
  ghost predicate PayTx(t: Tables, held: set<Lock>, tx: Tx, u: UserId, o: OrderId) {
    && tx.pc <= 9
    && held <= (if tx.pc <= 1 then {} else if tx.pc <= 7 then {WalletLock(u)} else {WalletLock(u), OrderLock(o)})
    && (tx.pc >= 1 ==> o in t.orders && t.orders[o].customer == u)
    && (tx.pc == 2 ==> WalletRead(t, held, u, tx.balance))
    && (tx.pc >= 3 ==> WalletLock(u) in held && Settles(t, u, o, tx.rows, tx.amount, tx.balance, |Payments(t, o)|))
    && (tx.pc >= 4 ==> tx.payment == |Payments(t, o)|)
    && (tx.pc >= 5 ==> tx.after == tx.balance - tx.amount)
    && (tx.pc >= 8 && t.orders[o].status == PendingPayment ==> OrderLock(o) in held)
    && PayTxLog(t, tx, u, o)
  }

  ghost predicate PayTxLog(t: Tables, tx: Tx, u: UserId, o: OrderId)
    requires tx.pc >= 8 ==> o in t.orders
  {
    var head := PayHead(u, o, tx.rows, tx.amount, tx.balance, tx.payment);
    if tx.pc <= 3 then tx.log == []
    else if tx.pc <= 7 then tx.log == head[..tx.pc - 3]
    else
      var row := t.orders[o];
      var full := PayLog(row, u, o, tx.rows, tx.amount, tx.balance, tx.payment);
      tx.log == if tx.pc == 8 then full[..|full| - 1] else full
  }

  ghost predicate AddItemTx(t: Tables, held: set<Lock>, tx: Tx)
    requires tx.op.AddItem?
  {
    var op, o := tx.op, tx.op.order;
    && tx.pc <= 2
    && held <= (if tx.pc == 0 then {} else {OrderLock(o)})
    && (tx.pc >= 1 ==>
      && OrderLock(o) in held && o in t.orders && t.orders[o].customer == op.user
      && tx.status == t.orders[o].status && tx.gig == OrderGig(Items(t, o)))
    && (tx.pc <= 1 ==> tx.log == [])
    && (tx.pc == 2 ==> tx.status == Paid && op.tierGig.Some? && tx.gig == op.tierGig && tx.log == [InsertItem(o, Item(op.price, op.tierGig, None))])
  }

  ghost predicate CompleteTx(pf: Profiles, t: Tables, held: set<Lock>, tx: Tx)
    requires tx.op.Complete?
  {
    var u, o := tx.op.user, tx.op.order;
    && tx.pc <= 4
    && held <= (if tx.pc <= 1 then {} else {OrderLock(o)})
    && (tx.pc >= 1 ==> pf.IsLapak(u))
    && (tx.pc >= 2 ==> OrderLock(o) in held && o in t.orders && t.orders[o].lapak == pf.lapakOf[u] && tx.status == t.orders[o].status)
    && (tx.pc >= 3 ==> tx.status == Paid && OutstandingIdr(Items(t, o)) == 0)
    && (tx.pc <= 3 ==> tx.log == [])
    && (tx.pc == 4 ==> tx.log == [PutOrder(o, AwaitingRow(t.orders[o], tx.start + tx.op.seconds))])
  }

  ghost predicate PayoutTx(pf: Profiles, t: Tables, held: set<Lock>, tx: Tx, customer: Option<UserId>, o: OrderId) {
    && tx.pc <= 6
    && (tx.pc <= 1 ==> held == {})
    && (tx.pc >= 1 && customer.Some? ==> o in t.orders && t.orders[o].customer == customer.value)
    && (customer.None? ==> o in t.orders && t.orders[o].deadline.Some? && t.orders[o].deadline.value <= tx.start)
    && (tx.pc >= 2 ==>
      && OrderLock(o) in held && o in t.orders && t.orders[o].lapak in pf.userOf
      && held <= (if tx.pc <= 3 then {OrderLock(o)} else {OrderLock(o), WalletLock(pf.userOf[t.orders[o].lapak])})
      && tx.status == t.orders[o].status)
    && (tx.pc >= 3 ==> tx.status == AwaitingConfirmation && 0 < tx.amount == PaidIdr(Items(t, o)))
    && (tx.pc <= 3 ==> tx.log == [])
    && (tx.pc >= 4 ==>
      var v := pf.userOf[t.orders[o].lapak];
      && WalletLock(v) in held && tx.after == Balance(t, v) + tx.amount
      && tx.log == PayoutLog(t.orders[o], v, o, tx.amount, Balance(t, v), customer.None?, tx.start)[..tx.pc - 3])
  }

  ghost predicate PostManualTx(pf: Profiles, held: set<Lock>, tx: Tx)
    requires tx.op.PostManual?
  {
    && tx.pc <= 2 && held == {}
    && (tx.pc >= 1 ==> !pf.IsLapak(tx.op.user))
    && tx.log == if tx.pc <= 1 then [] else [PutBid(tx.op.bid, Bid(Manual, Open, tx.op.user, None, tx.op.budget, 0))]
  }

  /** The fee has been compared with the balance that is still there. */
  ghost predicate Affordable(t: Tables, held: set<Lock>, u: UserId, fee: nat) {
    fee == 0 || (WalletLock(u) in held && u in t.wallets && fee <= t.wallets[u])
  }

  ghost predicate PostAutoTx(pf: Profiles, t: Tables, held: set<Lock>, tx: Tx)
    requires tx.op.PostAuto?
  {
    var op, u, fee := tx.op, tx.op.user, tx.op.fee;
    && tx.pc <= 9
    && held <= (if tx.pc <= 1 then {} else {WalletLock(u)})
    && (tx.pc >= 1 ==> !pf.IsLapak(u))
    && (tx.pc == 2 ==> WalletRead(t, held, u, tx.balance))
    && (tx.pc >= 3 ==> Affordable(t, held, u, fee))
    && (tx.pc >= 5 ==> fee > 0)
    && (6 <= tx.pc <= 8 ==> op.match_ == None)
    && (tx.pc <= 2 ==> tx.log == [])
    && (tx.pc == 3 ==> tx.log == [PutBid(op.bid, AutoBid(u, op.budget, fee))])
    && (tx.pc >= 4 ==>
      WalletLock(u) in held && u in t.wallets && PostAutoLog(tx, t.wallets[u]))
  }

  ghost predicate PostAutoLog(tx: Tx, balance: int)
    requires tx.op.PostAuto?
  {
    var op, fee := tx.op, tx.op.fee;
    var log := UnmatchedLog(op.user, op.bid, op.budget, fee, balance);
    && (4 <= tx.pc <= 5 ==> tx.log == log[..tx.pc - 2] && tx.after == balance - fee)
    && (6 <= tx.pc <= 8 ==> tx.log == log[..tx.pc - 3])
    && (7 <= tx.pc <= 8 ==> tx.after == balance)
    && (tx.pc == 9 && op.match_.None? ==> tx.log == log)
    && (tx.pc == 9 && op.match_.Some? ==> tx.log == MatchedLog(op.user, op.bid, op.budget, fee, balance, op.match_.value))
  }

  /** The bid row is locked and as it was read. */
  ghost predicate BidRead(t: Tables, held: set<Lock>, tx: Tx, b: BidId) {
    BidLock(b) in held && b in t.bids && tx.bidRow == t.bids[b]
  }

  ghost predicate ConfirmBidTx(t: Tables, held: set<Lock>, tx: Tx)
    requires tx.op.ConfirmBid?
  {
    var b := tx.op.bid;
    && tx.pc <= 2
    && held <= (if tx.pc == 0 then {} else {BidLock(b)})
    && (tx.pc >= 1 ==> BidRead(t, held, tx, b))
    && (tx.pc <= 1 ==> tx.log == [])
    && (tx.pc == 2 ==>
      && tx.bidRow.customer == tx.op.user && tx.bidRow.status == Proposed
      && tx.log == [PutBid(b, tx.bidRow.(status := CustomerConfirmed))])
  }

  ghost predicate AcceptBidTx(pf: Profiles, t: Tables, held: set<Lock>, tx: Tx)
    requires tx.op.AcceptBid?
  {
    var u, b := tx.op.user, tx.op.bid;
    && tx.pc <= 5
    && held <= (if tx.pc == 0 then {} else {BidLock(b)})
    && (tx.pc >= 1 ==> BidRead(t, held, tx, b))
    && (tx.pc <= 1 ==> tx.log == [])
    && (tx.pc >= 2 ==>
      && pf.IsLapak(u) && tx.bidRow.matched == Some(pf.lapakOf[u]) && tx.bidRow.status == CustomerConfirmed
      && tx.log == AcceptLog(tx.bidRow, pf.lapakOf[u], b, tx.op.order)[..tx.pc - 1])
  }

  ghost predicate PlaceOfferTx(pf: Profiles, t: Tables, held: set<Lock>, tx: Tx)
    requires tx.op.PlaceOffer?
  {
    var u, b := tx.op.user, tx.op.bid;
    && tx.pc <= 3
    && held <= (if tx.pc <= 1 then {} else {BidLock(b)})
    && (tx.pc >= 1 ==> pf.IsLapak(u))
    && (tx.pc >= 2 ==> BidRead(t, held, tx, b))
    && (tx.pc <= 2 ==> tx.log == [])
    && (tx.pc == 3 ==>
      && tx.bidRow.mode == Manual && tx.bidRow.status == Open
      && tx.log == [PutOffer(OfferKey(b, pf.lapakOf[u]), Offer(tx.op.amount, Pending))])
  }

  ghost predicate AwardTx(t: Tables, held: set<Lock>, tx: Tx)
    requires tx.op.Award?
  {
    var u, b, fee, key := tx.op.user, tx.op.bid, tx.op.fee, OfferKey(tx.op.bid, tx.op.offerer);
    && tx.pc <= 11
    && held <= (if tx.pc == 0 then {} else if tx.pc <= 2 then {BidLock(b)} else {BidLock(b), WalletLock(u)})
    && (tx.pc >= 1 ==> BidRead(t, held, tx, b))
    && (tx.pc >= 2 ==>
      && tx.bidRow.customer == u && tx.bidRow.mode == Manual && tx.bidRow.status == Open
      && key in t.offers && tx.offer == t.offers[key])
    && (tx.pc == 3 ==> WalletRead(t, held, u, tx.balance))
    && (tx.pc >= 4 ==> Affordable(t, held, u, fee))
    && (tx.pc >= 5 ==> fee > 0)
    && (tx.pc >= 6 ==> tx.offer.status == Pending)
    && (tx.pc <= 3 ==> tx.log == [])
    && (tx.pc >= 4 ==>
      && WalletLock(u) in held && u in t.wallets && tx.after == t.wallets[u] - fee
      && tx.log == AwardLog(tx.bidRow, u, key, tx.offer, fee, t.wallets[u], tx.op.order)[..tx.pc - 3])
  }

  ghost predicate TxOk(pf: Profiles, t: Tables, held: set<Lock>, tx: Tx) {
    && WellFormed(pf, tx.op)
    && Fresh(t, tx.op)
    && match tx.op
       case PlaceOrder(_, _, _, _, _, _) => PlaceOrderTx(pf, held, tx)
       case Pay(u, o) => PayTx(t, held, tx, u, o)
       case AddItem(_, _, _, _) => AddItemTx(t, held, tx)
       case Complete(_, _, _) => CompleteTx(pf, t, held, tx)
       case Confirm(u, o) => PayoutTx(pf, t, held, tx, Some(u), o)
       case AutoConfirm(o) => PayoutTx(pf, t, held, tx, None, o)
       case PostManual(_, _, _) => PostManualTx(pf, held, tx)
       case PostAuto(_, _, _, _, _) => PostAutoTx(pf, t, held, tx)
       case ConfirmBid(_, _) => ConfirmBidTx(t, held, tx)
       case AcceptBid(_, _, _) => AcceptBidTx(pf, t, held, tx)
       case PlaceOffer(_, _, _) => PlaceOfferTx(pf, t, held, tx)
       case Award(_, _, _, _, _) => AwardTx(t, held, tx)
  }

  // ----- What a transaction's own writes leave of the view -----

  lemma InstallTouches(t: Tables, x: RowWrite)
    ensures !x.SetWallet? ==> Install(t, x).wallets == t.wallets
    ensures !x.InsertItem? && !x.MarkItems? ==> Install(t, x).items == t.items
    ensures !x.PutOrder? ==> Install(t, x).orders == t.orders
    ensures !x.PutBid? ==> Install(t, x).bids == t.bids
    ensures !x.PutOffer? ==> Install(t, x).offers == t.offers
  {}

  lemma {:induction false} ViewWallets(t: Tables, log: seq<RowWrite>)
    requires forall i :: 0 <= i < |log| ==> !log[i].SetWallet?
    ensures InstallAll(t, log).wallets == t.wallets
  {
    if log != [] {
      var last := |log| - 1;
      ViewWallets(t, log[..last]);
      InstallTouches(InstallAll(t, log[..last]), log[last]);
    }
  }

  lemma {:induction false} ViewItems(t: Tables, log: seq<RowWrite>)
    requires forall i :: 0 <= i < |log| ==> !log[i].InsertItem? && !log[i].MarkItems?
    ensures InstallAll(t, log).items == t.items
  {
    if log != [] {
      var last := |log| - 1;
      ViewItems(t, log[..last]);
      InstallTouches(InstallAll(t, log[..last]), log[last]);
    }
  }

  lemma {:induction false} ViewOrders(t: Tables, log: seq<RowWrite>)
    requires forall i :: 0 <= i < |log| ==> !log[i].PutOrder?
    ensures InstallAll(t, log).orders == t.orders
  {
    if log != [] {
      var last := |log| - 1;
      ViewOrders(t, log[..last]);
      InstallTouches(InstallAll(t, log[..last]), log[last]);
    }
  }

  lemma {:induction false} ViewBids(t: Tables, log: seq<RowWrite>)
    requires forall i :: 0 <= i < |log| ==> !log[i].PutBid?
    ensures InstallAll(t, log).bids == t.bids
  {
    if log != [] {
      var last := |log| - 1;
      ViewBids(t, log[..last]);
      InstallTouches(InstallAll(t, log[..last]), log[last]);
    }
  }

  lemma {:induction false} ViewOffers(t: Tables, log: seq<RowWrite>)
    requires forall i :: 0 <= i < |log| ==> !log[i].PutOffer?
    ensures InstallAll(t, log).offers == t.offers
  {
    if log != [] {
      var last := |log| - 1;
      ViewOffers(t, log[..last]);
      InstallTouches(InstallAll(t, log[..last]), log[last]);
    }
  }
}
