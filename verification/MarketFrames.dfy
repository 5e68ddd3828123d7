/** What a commit may change, given the row locks it holds: the facts the other
    running transactions rest on stay as they are. */
module MarketFrames {
  import opened Common
  import opened MarketTables
  import opened MarketDecisions
  import opened MarketInvariants
  import opened MarketPreservation
  import opened MarketOrderKeeps
  import opened MarketBidKeeps
  import opened MarketAtomic
  import opened MarketMachine
  import opened MarketTxInvariant
  import opened MarketSteps

  // ----- A finished transaction does what its request does alone -----

  lemma CompleteTxDecides(pf: Profiles, t: Tables, held: set<Lock>, tx: Tx, deadline: Time)
    requires tx.op.Complete? && CompleteTx(pf, t, held, tx) && tx.pc == 4 && deadline == tx.start + tx.op.seconds
    ensures tx.log == [PutOrder(tx.op.order, AwaitingRow(t.orders[tx.op.order], deadline))]
    ensures DecideComplete(pf, t, tx.start, tx.op.user, tx.op.order, tx.op.seconds) == Commit(tx.log)
  {}

  lemma PayoutTxDecides(pf: Profiles, t: Tables, held: set<Lock>, tx: Tx, customer: Option<UserId>, o: OrderId)
    requires PayoutTx(pf, t, held, tx, customer, o) && tx.pc == 6
    ensures DecidePayout(pf, t, tx.start, o, customer.None?) == Commit(tx.log)
  {
    PayoutLogWhole(pf, t, o, tx.amount, customer.None?, tx.start);
  }

  lemma OrderTxDecides(pf: Profiles, t: Tables, held: set<Lock>, tx: Tx)
    requires OrderOp(tx.op) && !tx.op.Pay?
    requires TxOk(pf, t, held, tx) && Next(pf, t, tx) == Finish
    ensures Decide(pf, tx.op, tx.start, t) == Commit(tx.log)
  {
    hide PayoutLog, InstallAll, PaidIdr, OutstandingIdr;
    match tx.op
    case PlaceOrder(_, _, _, _, _, _) =>
    case AddItem(_, _, _, _) =>
    case Complete(_, _, seconds) =>
      var deadline := tx.start + seconds;
      CompleteTxDecides(pf, t, held, tx, deadline);
    case Confirm(u, o) => PayoutTxDecides(pf, t, held, tx, Some(u), o);
    case AutoConfirm(o) => PayoutTxDecides(pf, t, held, tx, None, o);
  }

  lemma PayoutLogWhole(pf: Profiles, t: Tables, o: OrderId, amount: nat, auto: bool, now: Time)
    requires o in t.orders && t.orders[o].lapak in pf.userOf && amount > 0
    ensures var v := pf.userOf[t.orders[o].lapak];
      var log := PayoutLog(t.orders[o], v, o, amount, Balance(t, v), auto, now);
      log[..3] == log
  {}

  lemma BidTxDecides(pf: Profiles, t: Tables, held: set<Lock>, tx: Tx)
    requires !OrderOp(tx.op)
    requires TxOk(pf, t, held, tx) && Next(pf, t, tx) == Finish
    ensures Decide(pf, tx.op, tx.start, t) == Commit(tx.log)
  {
    match tx.op
    case PostManual(_, _, _) =>
    case PostAuto(_, _, _, _, _) =>
    case ConfirmBid(_, _) =>
    case AcceptBid(u, b, o) => assert tx.log == AcceptLog(tx.bidRow, pf.lapakOf[u], b, o);
    case PlaceOffer(_, _, _) =>
    case Award(_, _, _, _, _) => AwardDecides(pf, t, held, tx);
  }

  lemma AwardDecides(pf: Profiles, t: Tables, held: set<Lock>, tx: Tx)
    requires tx.op.Award? && AwardTx(t, held, tx) && tx.pc == 11
    ensures DecideAward(pf, t, tx.op.user, OfferKey(tx.op.bid, tx.op.offerer), tx.op.fee, tx.op.order) == Commit(tx.log)
  {
    var log := AwardLog(tx.bidRow, tx.op.user, OfferKey(tx.op.bid, tx.op.offerer), tx.offer, tx.op.fee, t.wallets[tx.op.user], tx.op.order);
    assert log[..8] == log;
  }

  /** At its commit, every transaction but Pay decides on the committed tables just
      what it has been doing statement by statement. */
  lemma TxDecides(pf: Profiles, t: Tables, held: set<Lock>, tx: Tx)
    requires !tx.op.Pay? && TxOk(pf, t, held, tx) && Next(pf, t, tx) == Finish
    ensures Decide(pf, tx.op, tx.start, t) == Commit(tx.log)
    ensures Admissible(pf, tx.op, tx.start, t)
  {
    if OrderOp(tx.op) {
      OrderTxDecides(pf, t, held, tx);
    } else {
      BidTxDecides(pf, t, held, tx);
    }
  }

  // ----- The frame of a commit -----

  /** One step along pending_payment, paid, awaiting_confirmation, completed; the
      deadline is set on the way in to awaiting_confirmation and then stays. */
  predicate Forward(a: Order, b: Order) {
    || b == a
    || (a.status == PendingPayment && b == a.(status := Paid))
    || (a.status == Paid && b.deadline.Some? && b == AwaitingRow(a, b.deadline.value))
    || (a.status == AwaitingConfirmation && b.completedAt.Some? && b == CompletedRow(a, b.autoConfirmed, b.completedAt.value))
  }

  /** The same lines, of which some may have become paid. */
  predicate LinesSame(a: seq<Item>, b: seq<Item>) {
    |a| == |b| && forall i :: 0 <= i < |a| ==>
      b[i].gig == a[i].gig && b[i].subtotal == a[i].subtotal && (b[i].payment == None ==> a[i].payment == None)
  }

  /** More lines, none of them repriced and none of the paid ones paid anew. */
  predicate LinesKept(a: seq<Item>, b: seq<Item>) {
    |a| <= |b| && forall i :: 0 <= i < |a| ==>
      b[i].gig == a[i].gig && b[i].subtotal == a[i].subtotal && (a[i].payment.Some? ==> b[i].payment == a[i].payment)
  }

  /** The customer confirms a proposal, the lapak accepts it; the customer awards
      an open bid, paying its fee. */
  predicate BidForward(a: Bid, b: Bid) {
    || b == a
    || (a.status == Proposed && b == a.(status := CustomerConfirmed))
    || (a.status == CustomerConfirmed && b == a.(status := Accepted))
    || (a.status == Open && b == a.(status := Awarded, fee := b.fee))
  }

  /** A wallet moves only under its lock; the ledger only ever grows. */
  ghost predicate WalletFrame(t: Tables, t2: Tables, held: set<Lock>, u: UserId) {
    && (WalletLock(u) !in held ==> (u in t2.wallets <==> u in t.wallets) && (u in t.wallets ==> t2.wallets[u] == t.wallets[u]))
    && Entries(t, u) <= Entries(t2, u)
  }

  /** An order moves only under its lock; lines are added under its lock and paid
      under its customer's, and never once it awaits confirmation. */
  ghost predicate OrderFrame(t: Tables, t2: Tables, held: set<Lock>, o: OrderId) {
    o in t.orders ==>
      && o in t2.orders && Forward(t.orders[o], t2.orders[o])
      && (OrderLock(o) !in held ==> t2.orders[o] == t.orders[o] && LinesSame(Items(t, o), Items(t2, o)))
      && (WalletLock(t.orders[o].customer) !in held ==> Items(t, o) <= Items(t2, o) && Payments(t2, o) == Payments(t, o))
      && (t.orders[o].status in {AwaitingConfirmation, Completed} ==> Items(t2, o) == Items(t, o))
      && LinesKept(Items(t, o), Items(t2, o)) && Payments(t, o) <= Payments(t2, o)
      && (o in t.threads ==> o in t2.threads)
  }

  /** A bid moves only under its lock, and not at all once settled. */
  ghost predicate BidFrame(t: Tables, t2: Tables, held: set<Lock>, b: BidId) {
    b in t.bids ==>
      && b in t2.bids && BidForward(t.bids[b], t2.bids[b])
      && (BidLock(b) !in held || Settled(t.bids[b]) ==> t2.bids[b] == t.bids[b])
  }

  ghost predicate OfferFrame(t: Tables, t2: Tables, held: set<Lock>, key: OfferKey) {
    && (key in t.offers ==> key in t2.offers)
    && (BidLock(key.bid) !in held || (key.bid in t.bids && Settled(t.bids[key.bid])) ==>
          (key in t2.offers ==> key in t.offers && t2.offers[key] == t.offers[key]))
  }

  ghost predicate Frame(t: Tables, t2: Tables, held: set<Lock>) {
    && (forall u: UserId :: WalletFrame(t, t2, held, u))
    && (forall o: OrderId :: OrderFrame(t, t2, held, o))
    && (forall b: BidId :: BidFrame(t, t2, held, b))
    && (forall key: OfferKey :: OfferFrame(t, t2, held, key))
  }

  /** Only the request's own uuids are new. */
  ghost predicate OnlyNew(t: Tables, t2: Tables, op: Op) {
    && (forall o :: o in t2.orders ==> o in t.orders || NewOrder(op) == Some(o))
    && (forall b :: b in t2.bids ==> b in t.bids || NewBid(op) == Some(b))
  }

  lemma StampFrame(items: seq<Item>, rows: set<nat>, k: nat)
    ensures LinesSame(items, Stamp(items, rows, k)) && LinesKept(items, Stamp(items, rows, k))
  {}

  lemma ChargedOrderFrame(t: Tables, t2: Tables, held: set<Lock>, u: UserId, o: OrderId, rows: set<nat>, amount: nat, balance: int, k: nat)
    requires Settles(t, u, o, rows, amount, balance, k) && Charged(t, t2, u, o, rows, amount, balance, k)
    requires t.orders[o].status in {PendingPayment, Paid}
    requires WalletLock(u) in held && (t.orders[o].status == PendingPayment ==> OrderLock(o) in held)
    ensures OrderFrame(t, t2, held, o)
  {
    StampFrame(Items(t, o), rows, k);
  }

  lemma OtherOrderFrame(t: Tables, t2: Tables, held: set<Lock>, o: OrderId, x: OrderId)
    requires x != o && o in t2.orders && o in t2.items && o in t2.payments
    requires t2.orders == t.orders[o := t2.orders[o]] && t2.items == t.items[o := t2.items[o]] && t2.payments == t.payments[o := t2.payments[o]]
    requires t.threads <= t2.threads
    ensures OrderFrame(t, t2, held, x)
  {}

  lemma ChargedOtherFrame(t: Tables, t2: Tables, held: set<Lock>, u: UserId, o: OrderId, rows: set<nat>, amount: nat, balance: int, k: nat, x: OrderId)
    requires o in t.orders && Charged(t, t2, u, o, rows, amount, balance, k) && x != o
    ensures OrderFrame(t, t2, held, x)
  {
    OtherOrderFrame(t, t2, held, o, x);
  }

  lemma ChargedRestFrame(t: Tables, t2: Tables, held: set<Lock>, u: UserId, e: Entry)
    requires Moves(t, t2, u, e) && WalletLock(u) in held && t2.bids == t.bids && t2.offers == t.offers
    ensures forall x: UserId :: WalletFrame(t, t2, held, x)
    ensures forall b: BidId :: BidFrame(t, t2, held, b)
    ensures forall key: OfferKey :: OfferFrame(t, t2, held, key)
  {}

  lemma ChargedFrame(pf: Profiles, t: Tables, t2: Tables, held: set<Lock>, u: UserId, o: OrderId, rows: set<nat>, amount: nat, balance: int, k: nat)
    requires OrdersOk(pf, t) && Settles(t, u, o, rows, amount, balance, k) && Charged(t, t2, u, o, rows, amount, balance, k)
    requires WalletLock(u) in held && (t.orders[o].status == PendingPayment ==> OrderLock(o) in held)
    ensures Frame(t, t2, held)
  {
    OutstandingStatus(pf, t, o, rows);
    ChargedRestFrame(t, t2, held, u, ChargeEntry(o, amount, balance - amount));
    forall x: OrderId ensures OrderFrame(t, t2, held, x) {
      if x == o {
        ChargedOrderFrame(t, t2, held, u, o, rows, amount, balance, k);
      } else {
        ChargedOtherFrame(t, t2, held, u, o, rows, amount, balance, k, x);
      }
    }
  }

  /** A commit that touches one order's row and lines. */
  lemma OrderStepFrame(t: Tables, t2: Tables, held: set<Lock>, o: OrderId)
    requires OrderStep(t, t2, o)
    requires o in t.orders ==> OrderLock(o) in held && Forward(t.orders[o], t2.orders[o]) && Items(t, o) <= Items(t2, o)
    requires o in t.orders && t.orders[o].status in {AwaitingConfirmation, Completed} ==> Items(t2, o) == Items(t, o)
    ensures Frame(t, t2, held)
  {
    forall x: OrderId ensures OrderFrame(t, t2, held, x) {
      assert x != o ==> Items(t2, x) == Items(t, x);
    }
  }

  lemma PaidOutFrame(pf: Profiles, t: Tables, t2: Tables, held: set<Lock>, o: OrderId, amount: nat, auto: bool, now: Time)
    requires o in t.orders && t.orders[o].lapak in pf.userOf && t.orders[o].status == AwaitingConfirmation
    requires PaidOut(pf, t, t2, o, amount, auto, now)
    requires OrderLock(o) in held && WalletLock(pf.userOf[t.orders[o].lapak]) in held
    ensures Frame(t, t2, held)
  {}

  lemma BidStepFrame(t: Tables, t2: Tables, held: set<Lock>, b: BidId)
    requires BidStep(t, t2, b)
    requires forall u: UserId :: WalletFrame(t, t2, held, u)
    requires b in t.bids ==> BidLock(b) in held && BidForward(t.bids[b], t2.bids[b])
    requires forall key :: key in t.offers ==> key in t2.offers
    requires forall key :: key in t2.offers && key.bid == b ==> b in t.bids
    ensures Frame(t, t2, held)
  {}

  lemma TrackStepFrame(t: Tables, t2: Tables, held: set<Lock>, b: BidId, o: OrderId, row: Order, item: Item)
    requires TrackStep(t, t2, b, o, row, item)
    requires forall u: UserId :: WalletFrame(t, t2, held, u)
    requires BidLock(b) in held && BidForward(t.bids[b], t2.bids[b])
    requires forall key :: key in t.offers ==> key in t2.offers
    ensures Frame(t, t2, held)
  {
    forall x: OrderId ensures OrderFrame(t, t2, held, x) {
      assert x != o ==> Items(t2, x) == Items(t, x);
    }
  }

  // ----- The frame of each commit -----

  lemma PlaceOrderCommit(pf: Profiles, t: Tables, held: set<Lock>, tx: Tx)
    requires tx.op.PlaceOrder? && Fresh(t, tx.op) && PlaceOrderTx(pf, held, tx) && tx.pc == 3
    ensures Frame(t, InstallAll(t, tx.log), held) && OnlyNew(t, InstallAll(t, tx.log), tx.op)
  {
    var op := tx.op;
    var row := NewOrderRow(if op.gig.Some? then FromGig else FromProduct, op.user, op.lapak, None);
    PlaceOrderForm(t, op.order, row, FirstItem(op.price, op.quantity, op.gig));
    assert tx.log == [PutOrder(op.order, row), InsertItem(op.order, FirstItem(op.price, op.quantity, op.gig))];
    OrderStepFrame(t, InstallAll(t, tx.log), held, op.order);
  }

  lemma PayCommit(pf: Profiles, t: Tables, held: set<Lock>, tx: Tx, u: UserId, o: OrderId)
    requires OrdersOk(pf, t) && PayTx(t, held, tx, u, o) && tx.pc == 9
    ensures Frame(t, InstallAll(t, tx.log), held) && OnlyNew(t, InstallAll(t, tx.log), Pay(u, o))
  {
    OutstandingStatus(pf, t, o, tx.rows);
    PayForm(t, u, o, tx.rows, tx.amount, tx.balance, tx.payment);
    ChargedFrame(pf, t, InstallAll(t, tx.log), held, u, o, tx.rows, tx.amount, tx.balance, tx.payment);
  }

  lemma AddItemCommit(t: Tables, held: set<Lock>, tx: Tx)
    requires tx.op.AddItem? && AddItemTx(t, held, tx) && tx.pc == 2
    ensures Frame(t, InstallAll(t, tx.log), held) && OnlyNew(t, InstallAll(t, tx.log), tx.op)
  {
    var o, item := tx.op.order, Item(tx.op.price, tx.op.tierGig, None);
    ItemForm(t, o, item);
    assert t.orders[o := t.orders[o]] == t.orders;
    OrderStepFrame(t, InstallAll(t, tx.log), held, o);
  }

  lemma CompleteCommit(pf: Profiles, t: Tables, held: set<Lock>, tx: Tx)
    requires tx.op.Complete? && CompleteTx(pf, t, held, tx) && tx.pc == 4
    ensures Frame(t, InstallAll(t, tx.log), held) && OnlyNew(t, InstallAll(t, tx.log), tx.op)
  {
    var o := tx.op.order;
    CompleteForm(t, o, AwaitingRow(t.orders[o], tx.start + tx.op.seconds));
    OrderStepFrame(t, InstallAll(t, tx.log), held, o);
  }

  lemma PayoutCommit(pf: Profiles, open: map<UserId, nat>, t: Tables, held: set<Lock>, tx: Tx, customer: Option<UserId>, o: OrderId)
    requires UsersOk(open, t) && PayoutTx(pf, t, held, tx, customer, o) && tx.pc == 6
    requires NewOrder(tx.op) == None && NewBid(tx.op) == None
    ensures Frame(t, InstallAll(t, tx.log), held) && OnlyNew(t, InstallAll(t, tx.log), tx.op)
  {
    var auto := customer.None?;
    assert UserOk(open, t, pf.userOf[t.orders[o].lapak]);
    PayoutLogWhole(pf, t, o, tx.amount, auto, tx.start);
    PayoutForm(pf, t, o, tx.amount, auto, tx.start);
    PaidOutFrame(pf, t, InstallAll(t, tx.log), held, o, tx.amount, auto, tx.start);
  }

  lemma PostManualCommit(pf: Profiles, t: Tables, held: set<Lock>, tx: Tx)
    requires BidsOk(pf, t) && tx.op.PostManual? && Fresh(t, tx.op) && PostManualTx(pf, held, tx) && tx.pc == 2
    ensures Frame(t, InstallAll(t, tx.log), held) && OnlyNew(t, InstallAll(t, tx.log), tx.op)
  {
    hide InstallAll;
    NoOffersYet(pf, t, tx.op.bid);
    Install1(t, tx.log[0]);
    BidStepFrame(t, InstallAll(t, tx.log), held, tx.op.bid);
  }

  /** A new bid whose fee is taken, whether or not it is given back. */
  lemma NewBidFrame(t: Tables, t2: Tables, held: set<Lock>, b: BidId, row: Bid, u: UserId)
    requires b !in t.bids && t2.bids == t.bids[b := row] && !Settled(row)
    requires u in t.wallets && u in t2.wallets && t2.wallets == t.wallets[u := t2.wallets[u]] && WalletLock(u) in held
    requires u in t2.ledger && t2.ledger == t.ledger[u := t2.ledger[u]] && Entries(t, u) <= t2.ledger[u]
    requires t2.orders == t.orders && t2.items == t.items && t2.payments == t.payments && t2.threads == t.threads && t2.offers == t.offers
    requires forall key :: key in t.offers ==> key.bid != b
    ensures Frame(t, t2, held)
  {
    BidStepFrame(t, t2, held, b);
  }

  lemma MatchedCommit(t: Tables, held: set<Lock>, u: UserId, budget: nat, fee: nat, l: LapakId, b: BidId)
    requires b !in t.bids && u in t.wallets && WalletLock(u) in held
    requires forall key :: key in t.offers ==> key.bid != b
    ensures var t2 := InstallAll(t, MatchedLog(u, b, budget, fee, t.wallets[u], l));
      Frame(t, t2, held) && t2.orders == t.orders && t2.bids.Keys == t.bids.Keys + {b}
  {
    MatchedForm(t, u, budget, fee, l, b);
    NewBidFrame(t, InstallAll(t, MatchedLog(u, b, budget, fee, t.wallets[u], l)), held, b,
                AutoBid(u, budget, fee).(status := Proposed, matched := Some(l)), u);
  }

  lemma UnmatchedCommit(t: Tables, held: set<Lock>, u: UserId, budget: nat, fee: nat, b: BidId)
    requires b !in t.bids && u in t.wallets && WalletLock(u) in held
    requires forall key :: key in t.offers ==> key.bid != b
    ensures var t2 := InstallAll(t, UnmatchedLog(u, b, budget, fee, t.wallets[u]));
      Frame(t, t2, held) && t2.orders == t.orders && t2.bids.Keys == t.bids.Keys + {b}
  {
    var t2 := InstallAll(t, UnmatchedLog(u, b, budget, fee, t.wallets[u]));
    UnmatchedForm(t, u, budget, fee, b);
    assert t2.bids == t.bids[b := AutoBid(u, budget, 0)];
    NewBidFrame(t, t2, held, b, AutoBid(u, budget, 0), u);
  }

  lemma PostAutoCommit(pf: Profiles, t: Tables, held: set<Lock>, tx: Tx)
    requires BidsOk(pf, t) && tx.op.PostAuto? && Fresh(t, tx.op) && PostAutoTx(pf, t, held, tx) && tx.pc == 9
    ensures Frame(t, InstallAll(t, tx.log), held) && OnlyNew(t, InstallAll(t, tx.log), tx.op)
  {
    var op := tx.op;
    NoOffersYet(pf, t, op.bid);
    if op.match_.Some? {
      MatchedCommit(t, held, op.user, op.budget, op.fee, op.match_.value, op.bid);
    } else {
      UnmatchedCommit(t, held, op.user, op.budget, op.fee, op.bid);
    }
  }

  lemma ConfirmBidCommit(pf: Profiles, t: Tables, held: set<Lock>, tx: Tx)
    requires BidsOk(pf, t) && tx.op.ConfirmBid? && ConfirmBidTx(t, held, tx) && tx.pc == 2
    ensures Frame(t, InstallAll(t, tx.log), held) && OnlyNew(t, InstallAll(t, tx.log), tx.op)
  {
    hide InstallAll;
    Install1(t, tx.log[0]);
    BidStepFrame(t, InstallAll(t, tx.log), held, tx.op.bid);
  }

  lemma PlaceOfferCommit(pf: Profiles, t: Tables, held: set<Lock>, tx: Tx)
    requires tx.op.PlaceOffer? && PlaceOfferTx(pf, t, held, tx) && tx.pc == 3
    ensures Frame(t, InstallAll(t, tx.log), held) && OnlyNew(t, InstallAll(t, tx.log), tx.op)
  {
    hide InstallAll;
    Install1(t, tx.log[0]);
    assert t.bids[tx.op.bid := t.bids[tx.op.bid]] == t.bids;
    BidStepFrame(t, InstallAll(t, tx.log), held, tx.op.bid);
  }

  lemma AcceptBidCommit(pf: Profiles, t: Tables, held: set<Lock>, tx: Tx)
    requires tx.op.AcceptBid? && Fresh(t, tx.op) && AcceptBidTx(pf, t, held, tx) && tx.pc == 5
    ensures Frame(t, InstallAll(t, tx.log), held) && OnlyNew(t, InstallAll(t, tx.log), tx.op)
  {
    var row, lapak, b, o := tx.bidRow, pf.lapakOf[tx.op.user], tx.op.bid, tx.op.order;
    assert tx.log == AcceptLog(row, lapak, b, o);
    AcceptForm(t, row, lapak, b, o);
    assert Items(t, o) + [Item(row.budget, None, None)] == [Item(row.budget, None, None)];
    TrackStepFrame(t, InstallAll(t, tx.log), held, b, o, NewOrderRow(FromAutoBid, row.customer, lapak, Some(b)), Item(row.budget, None, None));
  }

  lemma AwardCommit(pf: Profiles, t: Tables, held: set<Lock>, tx: Tx)
    requires tx.op.Award? && Fresh(t, tx.op) && AwardTx(t, held, tx) && tx.pc == 11
    ensures Frame(t, InstallAll(t, tx.log), held) && OnlyNew(t, InstallAll(t, tx.log), tx.op)
  {
    hide InstallAll, Install, AwardLog;
    var key, u, o := OfferKey(tx.op.bid, tx.op.offerer), tx.op.user, tx.op.order;
    AwardDecides(pf, t, held, tx);
    AwardForm(t, u, key, tx.op.fee, o);
    assert Items(t, o) + [Item(tx.offer.amount, None, None)] == [Item(tx.offer.amount, None, None)];
    TrackStepFrame(t, InstallAll(t, tx.log), held, key.bid, o, NewOrderRow(FromManualBid, u, key.lapak, Some(key.bid)), Item(tx.offer.amount, None, None));
  }

  lemma PayoutTxCommit(pf: Profiles, open: map<UserId, nat>, t: Tables, held: set<Lock>, tx: Tx)
    requires (tx.op.Confirm? || tx.op.AutoConfirm?) && UsersOk(open, t)
    requires TxOk(pf, t, held, tx) && Next(pf, t, tx) == Finish
    ensures Frame(t, InstallAll(t, tx.log), held) && OnlyNew(t, InstallAll(t, tx.log), tx.op)
  {
    PayoutCommit(pf, open, t, held, tx, if tx.op.Confirm? then Some(tx.op.user) else None, tx.op.order);
  }

  lemma OrderTxCommit(pf: Profiles, open: map<UserId, nat>, t: Tables, held: set<Lock>, tx: Tx)
    requires OrderOp(tx.op) && UsersOk(open, t) && OrdersOk(pf, t)
    requires TxOk(pf, t, held, tx) && Next(pf, t, tx) == Finish
    ensures Frame(t, InstallAll(t, tx.log), held) && OnlyNew(t, InstallAll(t, tx.log), tx.op)
  {
    hide Frame, OnlyNew, OrdersOk, UsersOk, InstallAll;
    match tx.op
    case PlaceOrder(_, _, _, _, _, _) => PlaceOrderCommit(pf, t, held, tx);
    case Pay(u, o) => PayCommit(pf, t, held, tx, u, o);
    case AddItem(_, _, _, _) => AddItemCommit(t, held, tx);
    case Complete(_, _, _) => CompleteCommit(pf, t, held, tx);
    case Confirm(_, _) => PayoutTxCommit(pf, open, t, held, tx);
    case AutoConfirm(_) => PayoutTxCommit(pf, open, t, held, tx);
  }

  lemma BidTxCommit(pf: Profiles, t: Tables, held: set<Lock>, tx: Tx)
    requires !OrderOp(tx.op) && BidsOk(pf, t)
    requires TxOk(pf, t, held, tx) && Next(pf, t, tx) == Finish
    ensures Frame(t, InstallAll(t, tx.log), held) && OnlyNew(t, InstallAll(t, tx.log), tx.op)
  {
    hide Frame, OnlyNew, BidsOk, InstallAll;
    match tx.op
    case PostManual(_, _, _) => PostManualCommit(pf, t, held, tx);
    case PostAuto(_, _, _, _, _) => PostAutoCommit(pf, t, held, tx);
    case ConfirmBid(_, _) => ConfirmBidCommit(pf, t, held, tx);
    case AcceptBid(_, _, _) => AcceptBidCommit(pf, t, held, tx);
    case PlaceOffer(_, _, _) => PlaceOfferCommit(pf, t, held, tx);
    case Award(_, _, _, _, _) => AwardCommit(pf, t, held, tx);
  }

  /** Every commit stays within its locks. */
  lemma TxCommit(pf: Profiles, open: map<UserId, nat>, t: Tables, held: set<Lock>, tx: Tx)
    requires UsersOk(open, t) && OrdersOk(pf, t) && BidsOk(pf, t)
    requires TxOk(pf, t, held, tx) && Next(pf, t, tx) == Finish
    ensures Frame(t, InstallAll(t, tx.log), held) && OnlyNew(t, InstallAll(t, tx.log), tx.op)
  {
    if OrderOp(tx.op) {
      OrderTxCommit(pf, open, t, held, tx);
    } else {
      BidTxCommit(pf, t, held, tx);
    }
  }

  /** What a finished transaction installs: a charge of rows it found unpaid, or
      what its request does alone. */
  ghost predicate Commits(pf: Profiles, t: Tables, tx: Tx) {
    if tx.op.Pay? then
      && Settles(t, tx.op.user, tx.op.order, tx.rows, tx.amount, tx.balance, tx.payment)
      && tx.log == PayLog(t.orders[tx.op.order], tx.op.user, tx.op.order, tx.rows, tx.amount, tx.balance, tx.payment)
    else Decide(pf, tx.op, tx.start, t) == Commit(tx.log) && Admissible(pf, tx.op, tx.start, t)
  }

  lemma TxCommits(pf: Profiles, t: Tables, held: set<Lock>, tx: Tx)
    requires TxOk(pf, t, held, tx) && Next(pf, t, tx) == Finish
    ensures Commits(pf, t, tx)
  {
    if !tx.op.Pay? {
      TxDecides(pf, t, held, tx);
    }
  }

  /** Every commit keeps the table invariants. */
  lemma CommitKeeps(pf: Profiles, open: map<UserId, nat>, t: Tables, tx: Tx)
    requires Inv(pf, open, t) && Commits(pf, t, tx)
    ensures Inv(pf, open, InstallAll(t, tx.log))
  {
    if tx.op.Pay? {
      PayKeeps(pf, open, t, tx.op.user, tx.op.order, tx.rows, tx.amount, tx.balance, tx.payment);
    } else {
      DecisionKeeps(pf, open, tx.op, tx.start, t, tx.log);
    }
  }
}
