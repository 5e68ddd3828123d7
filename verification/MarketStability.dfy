/** What a running transaction relies on survives every commit of another. */
module MarketStability {
  import opened Common
  import opened MarketTables
  import opened MarketDecisions
  import opened MarketInvariants
  import opened MarketOrderKeeps
  import opened MarketMachine
  import opened MarketTxInvariant
  import opened MarketSteps
  import opened MarketFrames

  // ----- Lines -----

  /** Rows picked while unpaid cost the same after lines were added. */
  lemma PrefixSum(items: seq<Item>, more: seq<Item>, rows: set<nat>)
    requires items <= more && rows <= UnpaidRows(items)
    ensures rows <= UnpaidRows(more) && SumAt(more, rows) == SumAt(items, rows)
  {
    SumAtSame(items, rows, more, rows);
  }

  lemma {:induction false} LinesGig(a: seq<Item>, b: seq<Item>)
    requires LinesSame(a, b)
    ensures OrderGig(b) == OrderGig(a)
  {
    if a != [] {
      LinesGig(a[1..], b[1..]);
    }
  }

  lemma LinesOutstanding(a: seq<Item>, b: seq<Item>)
    requires LinesSame(a, b)
    ensures OutstandingIdr(b) <= OutstandingIdr(a)
  {
    SumAtSame(b, UnpaidRows(b), a, UnpaidRows(b));
    SumAtMonotone(a, UnpaidRows(b), UnpaidRows(a));
  }

  // ----- Each transaction -----

  lemma SettlesStable(t: Tables, t2: Tables, held: set<Lock>, held2: set<Lock>, u: UserId, o: OrderId, rows: set<nat>, amount: nat, balance: int, k: nat)
    requires WalletFrame(t, t2, held2, u) && OrderFrame(t, t2, held2, o) && held !! held2
    requires WalletLock(u) in held && Settles(t, u, o, rows, amount, balance, k)
    ensures Settles(t2, u, o, rows, amount, balance, k)
  {
    PrefixSum(Items(t, o), Items(t2, o), rows);
  }

  lemma PayTxStable(t: Tables, t2: Tables, held: set<Lock>, held2: set<Lock>, tx: Tx, u: UserId, o: OrderId)
    requires WalletFrame(t, t2, held2, u) && OrderFrame(t, t2, held2, o) && held !! held2
    requires PayTx(t, held, tx, u, o)
    ensures PayTx(t2, held, tx, u, o)
  {
    if tx.pc >= 3 {
      SettlesStable(t, t2, held, held2, u, o, tx.rows, tx.amount, tx.balance, |Payments(t, o)|);
    }
  }

  lemma AddItemTxStable(t: Tables, t2: Tables, held: set<Lock>, held2: set<Lock>, tx: Tx)
    requires tx.op.AddItem? && OrderFrame(t, t2, held2, tx.op.order) && held !! held2
    requires AddItemTx(t, held, tx)
    ensures AddItemTx(t2, held, tx)
  {
    if tx.pc >= 1 {
      LinesGig(Items(t, tx.op.order), Items(t2, tx.op.order));
    }
  }

  lemma CompleteTxStable(pf: Profiles, t: Tables, t2: Tables, held: set<Lock>, held2: set<Lock>, tx: Tx)
    requires tx.op.Complete? && OrderFrame(t, t2, held2, tx.op.order) && held !! held2
    requires CompleteTx(pf, t, held, tx)
    ensures CompleteTx(pf, t2, held, tx)
  {
    if tx.pc >= 2 {
      LinesOutstanding(Items(t, tx.op.order), Items(t2, tx.op.order));
    }
  }

  lemma PayoutTxStable(pf: Profiles, t: Tables, t2: Tables, held: set<Lock>, held2: set<Lock>, tx: Tx, customer: Option<UserId>, o: OrderId)
    requires OrderFrame(t, t2, held2, o) && held !! held2
    requires o in t.orders && t.orders[o].lapak in pf.userOf ==> WalletFrame(t, t2, held2, pf.userOf[t.orders[o].lapak])
    requires o in t.orders && t.orders[o].status == Paid ==> t.orders[o].deadline == None
    requires PayoutTx(pf, t, held, tx, customer, o)
    ensures PayoutTx(pf, t2, held, tx, customer, o)
  {}

  lemma PostAutoTxStable(pf: Profiles, t: Tables, t2: Tables, held: set<Lock>, held2: set<Lock>, tx: Tx)
    requires tx.op.PostAuto? && WalletFrame(t, t2, held2, tx.op.user) && held !! held2
    requires PostAutoTx(pf, t, held, tx)
    ensures PostAutoTx(pf, t2, held, tx)
  {}

  lemma ConfirmBidTxStable(t: Tables, t2: Tables, held: set<Lock>, held2: set<Lock>, tx: Tx)
    requires tx.op.ConfirmBid? && BidFrame(t, t2, held2, tx.op.bid) && held !! held2
    requires ConfirmBidTx(t, held, tx)
    ensures ConfirmBidTx(t2, held, tx)
  {}

  lemma AcceptBidTxStable(pf: Profiles, t: Tables, t2: Tables, held: set<Lock>, held2: set<Lock>, tx: Tx)
    requires tx.op.AcceptBid? && BidFrame(t, t2, held2, tx.op.bid) && held !! held2
    requires AcceptBidTx(pf, t, held, tx)
    ensures AcceptBidTx(pf, t2, held, tx)
  {}

  lemma PlaceOfferTxStable(pf: Profiles, t: Tables, t2: Tables, held: set<Lock>, held2: set<Lock>, tx: Tx)
    requires tx.op.PlaceOffer? && BidFrame(t, t2, held2, tx.op.bid) && held !! held2
    requires PlaceOfferTx(pf, t, held, tx)
    ensures PlaceOfferTx(pf, t2, held, tx)
  {}

  lemma AwardTxStable(t: Tables, t2: Tables, held: set<Lock>, held2: set<Lock>, tx: Tx)
    requires tx.op.Award? && held !! held2
    requires BidFrame(t, t2, held2, tx.op.bid) && OfferFrame(t, t2, held2, OfferKey(tx.op.bid, tx.op.offerer))
    requires WalletFrame(t, t2, held2, tx.op.user)
    requires AwardTx(t, held, tx)
    ensures AwardTx(t2, held, tx)
  {}

  lemma OrderTxStable(pf: Profiles, t: Tables, t2: Tables, held: set<Lock>, held2: set<Lock>, tx: Tx)
    requires OrderOp(tx.op) && OrdersOk(pf, t) && Frame(t, t2, held2) && held !! held2
    requires TxOk(pf, t, held, tx) && Fresh(t2, tx.op)
    ensures TxOk(pf, t2, held, tx)
  {
    hide WalletFrame, OrderFrame, BidFrame, OfferFrame;
    match tx.op
    case PlaceOrder(_, _, _, _, _, _) =>
    case Pay(u, o) => PayTxStable(t, t2, held, held2, tx, u, o);
    case AddItem(_, _, _, _) => AddItemTxStable(t, t2, held, held2, tx);
    case Complete(_, _, _) => CompleteTxStable(pf, t, t2, held, held2, tx);
    case Confirm(u, o) =>
      assert o in t.orders ==> OrderOk(pf, t, o);
      PayoutTxStable(pf, t, t2, held, held2, tx, Some(u), o);
    case AutoConfirm(o) =>
      assert o in t.orders ==> OrderOk(pf, t, o);
      PayoutTxStable(pf, t, t2, held, held2, tx, None, o);
  }

  lemma BidTxStable(pf: Profiles, t: Tables, t2: Tables, held: set<Lock>, held2: set<Lock>, tx: Tx)
    requires !OrderOp(tx.op) && Frame(t, t2, held2) && held !! held2
    requires TxOk(pf, t, held, tx) && Fresh(t2, tx.op)
    ensures TxOk(pf, t2, held, tx)
  {
    match tx.op
    case PostManual(_, _, _) =>
    case PostAuto(_, _, _, _, _) => PostAutoTxStable(pf, t, t2, held, held2, tx);
    case ConfirmBid(_, _) => ConfirmBidTxStable(t, t2, held, held2, tx);
    case AcceptBid(_, _, _) => AcceptBidTxStable(pf, t, t2, held, held2, tx);
    case PlaceOffer(_, _, _) => PlaceOfferTxStable(pf, t, t2, held, held2, tx);
    case Award(_, _, _, _, _) => AwardTxStable(t, t2, held, held2, tx);
  }

  /** Another's commit, under disjoint locks, leaves a running transaction all it relies on. */
  lemma TxStable(pf: Profiles, t: Tables, t2: Tables, held: set<Lock>, held2: set<Lock>, tx: Tx)
    requires OrdersOk(pf, t) && Frame(t, t2, held2) && held !! held2
    requires TxOk(pf, t, held, tx) && Fresh(t2, tx.op)
    ensures TxOk(pf, t2, held, tx)
  {
    if OrderOp(tx.op) {
      OrderTxStable(pf, t, t2, held, held2, tx);
    } else {
      BidTxStable(pf, t, t2, held, held2, tx);
    }
  }
}
