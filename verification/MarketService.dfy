/** The order and bid services as they are written: methods that issue the
    statements of a transaction and then commit or roll back. */
module MarketService {
  import opened Common
  import opened MarketTables
  import opened MarketDecisions
  import opened MarketInvariants
  import opened MarketMeaning
  import opened MarketMachine
  import opened MarketSweep
  import opened MarketTransaction

  /** A catalog row: whose it is, its price and, for a tier, its gig. */
  datatype Listing = Listing(lapak: LapakId, price: nat, gig: Option<GigId>)

  /** The database: what is committed, and its clock. */
  class Database {
    var committed: Tables
    var now: Time

    constructor (t: Tables, clock: Time)
      ensures committed == t && now == clock
    {
      committed, now := t, clock;
    }
  }

  class OrderService {
    const db: Database
    const pf: Profiles

    constructor (database: Database, profiles: Profiles)
      ensures db == database && pf == profiles
    {
      db, pf := database, profiles;
    }

    /** The request ran alone: its answer and the tables are what was decided. */
    ghost predicate Ran(op: Op, before: Tables, reply: Reply)
      reads db
    {
      db.committed == After(pf, op, db.now, before) && reply == Answer(Decide(pf, op, db.now, before))
    }

    /** Orders one catalog row, looked up by tier or by product. */
    method Create(user: UserId, byTier: bool, listing: Option<Listing>, quantity: int, order: OrderId) returns (reply: Reply)
      requires listing.Some? ==> (listing.value.gig.Some? <==> byTier)
      modifies db`committed
      ensures listing == None ==>
        && db.committed == old(db.committed)
        && reply == Refused(if pf.IsLapak(user) then LapakCannotBuy else if byTier then TierNotFound else ProductNotFound)
      ensures listing.Some? ==>
        var row := listing.value;
        && Ran(PlaceOrder(user, row.lapak, row.price, quantity, row.gig, order), old(db.committed), reply)
        && PlaceOrderMeans(pf, old(db.committed), user, row.lapak, row.price, quantity, row.gig, order, reply, db.committed)
    {
      hide PlaceOrderMeans, Install;
      if listing.Some? {
        DecisionMeans(pf, PlaceOrder(user, listing.value.lapak, listing.value.price, quantity, listing.value.gig, order), db.now, db.committed);
      }
      if pf.IsLapak(user) {
        return Refused(LapakCannotBuy);
      }
      if listing == None {
        return Refused(if byTier then TierNotFound else ProductNotFound);
      }
      var row := listing.value;
      var source, count := FromGig, quantity;
      if byTier {
        count := 1;
      } else {
        source := FromProduct;
        if count < 1 {
          count := 1;
        }
      }
      var tx := new Transaction(db.committed);
      tx.InsertOrder(order, NewOrderRow(source, user, row.lapak, None));
      assert count == Quantity(row.gig, quantity);
      tx.InsertOrderItem(order, Item(row.price * count, row.gig, None));
      assert tx.log == [PutOrder(order, NewOrderRow(source, user, row.lapak, None)), InsertItem(order, FirstItem(row.price, quantity, row.gig))];
      db.committed := tx.rows;
      return Done;
    }

    /** The payment row, the debit and its ledger row. */
    method Debit(tx: Transaction, user: UserId, order: OrderId, balance: int, amount: nat) returns (payment: nat, reply: Reply)
      requires tx.Valid() && tx.log == []
      requires balance == Balance(tx.rows, user) && 0 < amount <= balance
      modifies tx
      ensures reply == Done && payment == |Payments(old(tx.rows), order)|
      ensures tx.Valid() && tx.start == old(tx.start)
      ensures tx.rows.items == old(tx.rows).items && tx.rows.orders == old(tx.rows).orders
      ensures tx.log == [InsertPayment(order, amount), SetWallet(user, balance - amount),
                         AppendEntry(user, ChargeEntry(order, amount, balance - amount))]
    {
      payment := tx.InsertPaymentRow(order, amount);
      var after := tx.MoveWallet(user, -(amount as int));
      if after.None? {
        return payment, Refused(NoWalletRow);
      }
      var listed := tx.InsertLedgerEntry(user, ChargeEntry(order, amount, after.value));
      if !listed {
        return payment, Refused(ZeroLedgerAmount);
      }
      return payment, Done;
    }

    /** Points the charged lines at their payment, moves the order and opens its thread. */
    method Settle(tx: Transaction, order: OrderId, ids: set<nat>, payment: nat) returns (reply: Reply)
      requires tx.Valid() && order in tx.rows.orders && ids == UnpaidRows(Items(tx.rows, order))
      modifies tx
      ensures reply == Done && tx.Valid() && tx.start == old(tx.start)
      ensures tx.log == old(tx.log) + [MarkItems(order, ids, payment)]
        + (if old(tx.rows).orders[order].status == PendingPayment
           then [PutOrder(order, old(tx.rows).orders[order].(status := OrderStatus.Paid))] else [])
        + [OpenThread(order)]
    {
      var row := tx.rows.orders[order];
      assert ids * ids == ids;
      var marked := tx.MarkItemsPaid(order, ids, payment);
      if marked != |ids| {
        return Refused(ItemsChanged);
      }
      var affected := tx.AdvanceOrder(order, PendingPayment, row.(status := OrderStatus.Paid));
      tx.EnsureChatThread(order);
      return Done;
    }

    method PayOrder(user: UserId, order: OrderId) returns (reply: Reply)
      modifies db`committed
      ensures Ran(Pay(user, order), old(db.committed), reply)
      ensures PayMeans(old(db.committed), user, order, reply, db.committed)
    {
      hide PayMeans, Install;
      DecisionMeans(pf, Pay(user, order), db.now, db.committed);
      var tx := new Transaction(db.committed);
      var found := tx.FindCustomerOrder(order, user);
      if !found {
        return Refused(NotFound);
      }
      var balance := tx.LockWalletForUpdate(user);
      var amount, ids := tx.SumUnpaid(order);
      if amount <= 0 {
        return Refused(NothingOutstanding);
      }
      if balance < amount {
        return Refused(InsufficientBalance);
      }
      ghost var row := tx.rows.orders[order];
      var payment;
      payment, reply := Debit(tx, user, order, balance, amount);
      if reply != Done {
        return;
      }
      reply := Settle(tx, order, ids, payment);
      if reply != Done {
        return;
      }
      assert tx.log == PayLog(row, user, order, ids, amount, balance, payment);
      db.committed := tx.rows;
      return Done;
    }
  
    method AddOrderItem(user: UserId, order: OrderId, tierGig: Option<GigId>, price: nat) returns (reply: Reply)
      modifies db`committed
      ensures Ran(AddItem(user, order, tierGig, price), old(db.committed), reply)
      ensures AddItemMeans(pf, old(db.committed), user, order, tierGig, price, reply, db.committed)
    {
      hide AddItemMeans, Install;
      DecisionMeans(pf, AddItem(user, order, tierGig, price), db.now, db.committed);
      var tx := new Transaction(db.committed);
      var found := tx.FindCustomerOrder(order, user);
      if !found {
        return Refused(OrderDenied(pf, tx.rows, user, order));
      }
      var status, gig := tx.rows.orders[order].status, OrderGig(Items(tx.rows, order));
      if status != OrderStatus.Paid {
        return Refused(NotAcceptingItems);
      }
      if tierGig == None {
        return Refused(TierNotFound);
      }
      if gig != tierGig {
        return Refused(DifferentGig);
      }
      tx.InsertOrderItem(order, Item(price, tierGig, None));
      assert tx.log == [InsertItem(order, Item(price, tierGig, None))];
      db.committed := tx.rows;
      return Done;
    }

    method CompleteWork(user: UserId, order: OrderId, seconds: nat) returns (reply: Reply)
      modifies db`committed
      ensures Ran(Complete(user, order, seconds), old(db.committed), reply)
      ensures CompleteMeans(pf, db.now, old(db.committed), user, order, seconds, reply, db.committed)
    {
      hide CompleteMeans, OutstandingIdr, UnpaidRows, Install;
      DecisionMeans(pf, Complete(user, order, seconds), db.now, db.committed);
      if !pf.IsLapak(user) {
        return Refused(OrderDenied(pf, db.committed, user, order));
      }
      var tx := new Transaction(db.committed);
      var found := tx.FindLapakOrder(order, pf.lapakOf[user]);
      if found.None? {
        return Refused(OrderDenied(pf, tx.rows, user, order));
      }
      if found.value.status != OrderStatus.Paid {
        return Refused(OrderNotPaid);
      }
      var outstanding, ids := tx.SumUnpaid(order);
      if outstanding > 0 {
        return Refused(OutstandingItems);
      }
      var deadline := db.now + seconds;
      var affected := tx.AdvanceOrder(order, OrderStatus.Paid, AwaitingRow(found.value, deadline));
      if affected != 1 {
        return Refused(OrderNotPaid);
      }
      assert tx.log == [PutOrder(order, AwaitingRow(found.value, deadline))];
      db.committed := tx.rows;
      return Done;
    }

    /** The credit of a payout and its ledger row; nothing when nothing was paid. */
    method Credit(tx: Transaction, lapakUser: UserId, order: OrderId, amount: nat) returns (reply: Reply)
      requires tx.Valid() && tx.log == []
      modifies tx
      ensures reply == Done && tx.Valid() && tx.start == old(tx.start)
      ensures tx.rows.orders == old(tx.rows).orders
      ensures tx.log == if amount > 0
        then [SetWallet(lapakUser, Balance(old(tx.rows), lapakUser) + amount),
              AppendEntry(lapakUser, PayoutEntry(order, amount, Balance(old(tx.rows), lapakUser) + amount))]
        else []
    {
      if amount > 0 {
        var after := tx.CreditWallet(lapakUser, amount);
        var listed := tx.InsertLedgerEntry(lapakUser, PayoutEntry(order, amount, after));
        if !listed {
          return Refused(ZeroLedgerAmount);
        }
      }
      return Done;
    }

    /** The payout, called by the customer's confirm and by the sweeper. */
    method CompleteOrder(order: OrderId, auto: bool) returns (reply: Reply)
      modifies db`committed
      ensures reply == Answer(DecidePayout(pf, old(db.committed), db.now, order, auto))
      ensures db.committed == AfterPayout(pf, old(db.committed), db.now, order, auto)
      ensures PayoutMeans(pf, db.now, old(db.committed), order, auto, reply, db.committed)
    {
      hide PayoutMeans, PaidIdr, InstallAll;
      PayoutMeant(pf, db.committed, db.now, order, auto, AfterPayout(pf, db.committed, db.now, order, auto));
      var tx := new Transaction(db.committed);
      if order !in tx.rows.orders || tx.rows.orders[order].lapak !in pf.userOf {
        return Refused(NotFound);
      }
      var row := tx.rows.orders[order];
      var lapakUser := pf.userOf[row.lapak];
      if row.status == Completed {
        return Done;
      }
      if row.status != AwaitingConfirmation {
        return Refused(NotAwaitingConfirmation);
      }
      var amount := tx.SumPaid(order);
      reply := Credit(tx, lapakUser, order, amount);
      if reply != Done {
        return;
      }
      var affected := tx.AdvanceOrder(order, AwaitingConfirmation, CompletedRow(row, auto, db.now));
      if affected != 1 {
        return Refused(OrderChanged);
      }
      assert tx.log == PayoutLog(row, lapakUser, order, amount, Balance(tx.start, lapakUser), auto, db.now);
      db.committed := tx.rows;
      return Done;
    }

    method ConfirmOrder(user: UserId, order: OrderId) returns (reply: Reply)
      modifies db`committed
      ensures Ran(Confirm(user, order), old(db.committed), reply)
      ensures ConfirmMeans(pf, db.now, old(db.committed), user, order, reply, db.committed)
    {
      hide PayoutMeans;
      if order !in db.committed.orders || db.committed.orders[order].customer != user {
        return Refused(OrderDenied(pf, db.committed, user, order));
      }
      reply := CompleteOrder(order, false);
    }
  
    /** One tick: every picked order in a transaction of its own, at whatever the clock
        then shows; a failure is skipped. */
    method Sweep(times: seq<Time>) returns (swept: nat, ghost ids: seq<OrderId>)
      requires Clocked(db.now, times, SWEEP_BATCH)
      modifies db
      ensures IsBatch(old(db.committed), old(db.now), ids)
      ensures db.committed == SweptAll(pf, old(db.committed), times[..|ids|], ids)
      ensures swept == SweptCount(pf, old(db.committed), times[..|ids|], ids)
      ensures forall open: map<UserId, nat> :: Inv(pf, open, old(db.committed)) ==>
        && swept == |ids|
        && forall o :: o in old(db.committed).orders ==>
            o in db.committed.orders && Completes(old(db.committed).orders[o], db.committed.orders[o], o in ids, old(db.now))
    {
      var picked := FindOverdueOrders(db.committed, db.now);
      ids, swept := picked, 0;
      var at := times[..|picked|];
      var n := 0;
      while n < |picked|
        invariant 0 <= n <= |picked| && ids == picked
        invariant SweptAll(pf, db.committed, at[n..], picked[n..]) == SweptAll(pf, old(db.committed), at, picked)
        invariant swept + SweptCount(pf, db.committed, at[n..], picked[n..]) == SweptCount(pf, old(db.committed), at, picked)
      {
        assert picked[n..][0] == picked[n] && picked[n..][1..] == picked[n + 1..];
        assert at[n..][0] == at[n] && at[n..][1..] == at[n + 1..];
        db.now := at[n];
        var reply := CompleteOrder(picked[n], true);
        if reply == Done {
          swept := swept + 1;
        }
        n := n + 1;
      }
      SweptAsPicked(old(db.committed), old(db.now), at, picked);
    }

    /** In tables that satisfy the invariants the tick completed what it picked, all of it. */
    lemma SweptAsPicked(t: Tables, now: Time, at: seq<Time>, ids: seq<OrderId>)
      requires IsBatch(t, now, ids) && Clocked(now, at, |ids|)
      ensures forall open: map<UserId, nat> :: Inv(pf, open, t) ==>
        && SweptCount(pf, t, at, ids) == |ids|
        && forall o :: o in t.orders ==>
            o in SweptAll(pf, t, at, ids).orders && Completes(t.orders[o], SweptAll(pf, t, at, ids).orders[o], o in ids, now)
    {
      hide Inv;
      forall open: map<UserId, nat> | Inv(pf, open, t)
        ensures SweptCount(pf, t, at, ids) == |ids|
        ensures CompletedAll(t, SweptAll(pf, t, at, ids), now, ids)
      {
        SweepCompletes(pf, open, t, now, at, ids);
        SweepCountsAll(pf, open, t, now, at, ids);
      }
    }
  }

  /** An order as a tick leaves it: completed now or later by the sweeper, or as it was. */
  predicate Completes(a: Order, b: Order, picked: bool, now: Time) {
    if picked
    then b.completedAt.Some? && now <= b.completedAt.value && b == a.(status := Completed, autoConfirmed := true, completedAt := b.completedAt)
    else b == a
  }

  // ----- The sweeper's query -----

  lemma {:induction false} EarliestExists(t: Tables, os: set<OrderId>)
    requires os != {} && forall o :: o in os ==> o in t.orders && t.orders[o].deadline.Some?
    ensures exists o :: o in os && forall x :: x in os ==> t.orders[o].deadline.value <= t.orders[x].deadline.value
  {
    var c :| c in os;
    if os != {c} {
      EarliestExists(t, os - {c});
      var o :| o in os - {c} && forall x :: x in os - {c} ==> t.orders[o].deadline.value <= t.orders[x].deadline.value;
      var best := if t.orders[c].deadline.value < t.orders[o].deadline.value then c else o;
      assert forall x :: x in os ==> x == c || x in os - {c};
      assert best in os && forall x :: x in os ==> t.orders[best].deadline.value <= t.orders[x].deadline.value;
    }
  }

  /** The overdue orders, earliest deadline first, up to the batch limit. */
  method FindOverdueOrders(t: Tables, now: Time) returns (ids: seq<OrderId>)
    ensures IsBatch(t, now, ids)
  {
    var rest := OverdueOrders(t, now);
    ids := [];
    while |ids| < SWEEP_BATCH && rest != {}
      invariant rest <= OverdueOrders(t, now) && |ids| <= SWEEP_BATCH
      invariant forall i :: 0 <= i < |ids| ==> ids[i] in OverdueOrders(t, now)
      invariant forall o :: o in OverdueOrders(t, now) <==> o in rest || o in ids
      invariant forall o :: o in ids ==> o !in rest
      invariant Distinct(ids) && |ids| + |rest| == |OverdueOrders(t, now)|
      invariant forall i, o :: 0 <= i < |ids| && o in rest ==> t.orders[ids[i]].deadline.value <= t.orders[o].deadline.value
      decreases |rest|
    {
      EarliestExists(t, rest);
      var next :| next in rest && forall o :: o in rest ==> t.orders[next].deadline.value <= t.orders[o].deadline.value;
      ids := ids + [next];
      rest := rest - {next};
    }
  }

  class BidService {
    const db: Database
    const pf: Profiles

    constructor (database: Database, profiles: Profiles)
      ensures db == database && pf == profiles
    {
      db, pf := database, profiles;
    }

    /** The request ran alone: its answer and the tables are what was decided. */
    ghost predicate Ran(op: Op, before: Tables, reply: Reply)
      reads db
    {
      db.committed == After(pf, op, db.now, before) && reply == Answer(Decide(pf, op, db.now, before))
    }

    /** What a bid in a category that does not exist gets. */
    ghost predicate NoCategory(before: Tables, user: UserId, reply: Reply)
      reads db
    {
      db.committed == before && reply == Refused(if pf.IsLapak(user) then LapakCannotBuy else CategoryNotFound)
    }

    method CreateManual(user: UserId, categoryKnown: bool, budget: nat, bid: BidId) returns (reply: Reply)
      modifies db`committed
      ensures if categoryKnown then Ran(PostManual(user, budget, bid), old(db.committed), reply) else NoCategory(old(db.committed), user, reply)
      ensures categoryKnown ==> PostManualMeans(pf, old(db.committed), user, budget, bid, reply, db.committed)
    {
      hide PostManualMeans, Install;
      DecisionMeans(pf, PostManual(user, budget, bid), db.now, db.committed);
      if pf.IsLapak(user) {
        return Refused(LapakCannotBuy);
      }
      if !categoryKnown {
        return Refused(CategoryNotFound);
      }
      var tx := new Transaction(db.committed);
      tx.WriteBid(bid, Bid(Manual, Open, user, None, budget, 0));
      assert tx.log == [PutBid(bid, Bid(Manual, Open, user, None, budget, 0))];
      db.committed := tx.rows;
      return Done;
    }

    /** The fee and its ledger row. */
    method ChargeFee(tx: Transaction, user: UserId, bid: BidId, fee: nat) returns (reply: Reply)
      requires tx.Valid()
      modifies tx
      ensures reply == if user !in old(tx.rows).wallets then Refused(NoWalletRow) else if fee == 0 then Refused(ZeroLedgerAmount) else Done
      ensures reply == Done ==>
        && tx.Valid() && tx.start == old(tx.start)
        && tx.rows.wallets == old(tx.rows).wallets[user := old(tx.rows).wallets[user] - fee]
        && tx.rows.bids == old(tx.rows).bids && tx.rows.offers == old(tx.rows).offers
        && tx.log == old(tx.log) + [SetWallet(user, old(tx.rows).wallets[user] - fee),
                                    AppendEntry(user, FeeEntry(bid, fee, old(tx.rows).wallets[user] - fee))]
    {
      var after := tx.MoveWallet(user, -(fee as int));
      if after.None? {
        return Refused(NoWalletRow);
      }
      var listed := tx.InsertLedgerEntry(user, FeeEntry(bid, fee, after.value));
      if !listed {
        return Refused(ZeroLedgerAmount);
      }
      return Done;
    }

    /** The fee goes back and the bid stops claiming it. */
    method RefundFee(tx: Transaction, user: UserId, bid: BidId, fee: nat) returns (reply: Reply)
      requires tx.Valid() && user in tx.rows.wallets && fee > 0 && bid in tx.rows.bids
      modifies tx
      ensures reply == Done && tx.Valid() && tx.start == old(tx.start)
      ensures tx.log == old(tx.log) + [SetWallet(user, old(tx.rows).wallets[user] + fee),
                                       AppendEntry(user, RefundEntry(bid, fee, old(tx.rows).wallets[user] + fee)),
                                       PutBid(bid, old(tx.rows).bids[bid].(fee := 0))]
    {
      var row := tx.rows.bids[bid];
      var after := tx.MoveWallet(user, fee);
      if after.None? {
        return Refused(NoWalletRow);
      }
      var listed := tx.InsertLedgerEntry(user, RefundEntry(bid, fee, after.value));
      if !listed {
        return Refused(ZeroLedgerAmount);
      }
      tx.WriteBid(bid, row.(fee := 0));
      return Done;
    }

    /** The bid, its fee, and then its lapak or its refund. */
    method WriteAuto(tx: Transaction, user: UserId, budget: nat, fee: nat, match_: Option<LapakId>, bid: BidId) returns (reply: Reply)
      requires tx.Valid() && tx.log == []
      modifies tx
      ensures reply == if user !in old(tx.rows).wallets then Refused(NoWalletRow) else if fee == 0 then Refused(ZeroLedgerAmount) else Done
      ensures reply == Done ==>
        && tx.Valid() && tx.start == old(tx.start)
        && tx.log == match match_
           case Some(l) => MatchedLog(user, bid, budget, fee, old(tx.rows).wallets[user], l)
           case None => UnmatchedLog(user, bid, budget, fee, old(tx.rows).wallets[user])
    {
      var row := AutoBid(user, budget, fee);
      ghost var before := tx.rows.wallets;
      tx.WriteBid(bid, row);
      reply := ChargeFee(tx, user, bid, fee);
      if reply != Done {
        return;
      }
      if match_.None? {
        RefundsBack(before, tx.rows.wallets, user, fee);
        reply := RefundFee(tx, user, bid, fee);
      } else {
        tx.WriteBid(bid, row.(status := Proposed, matched := match_));
      }
    }

    lemma RefundsBack(before: map<UserId, int>, after: map<UserId, int>, user: UserId, fee: nat)
      requires user in before && after == before[user := before[user] - fee]
      ensures user in after && after[user] + fee == before[user]
    {}

    method CreateAuto(user: UserId, categoryKnown: bool, budget: nat, fee: nat, match_: Option<LapakId>, bid: BidId) returns (reply: Reply)
      modifies db`committed
      ensures if categoryKnown then Ran(PostAuto(user, budget, fee, match_, bid), old(db.committed), reply)
              else NoCategory(old(db.committed), user, reply)
      ensures categoryKnown ==> PostAutoMeans(pf, old(db.committed), user, budget, fee, match_, bid, reply, db.committed)
    {
      hide PostAutoMeans;
      DecisionMeans(pf, PostAuto(user, budget, fee, match_, bid), db.now, db.committed);
      if pf.IsLapak(user) {
        return Refused(LapakCannotBuy);
      }
      if !categoryKnown {
        return Refused(CategoryNotFound);
      }
      var tx := new Transaction(db.committed);
      var balance := tx.LockWalletForUpdate(user);
      if balance < fee {
        return Refused(InsufficientBalance);
      }
      reply := WriteAuto(tx, user, budget, fee, match_, bid);
      if reply != Done {
        return;
      }
      db.committed := tx.rows;
    }

    method ConfirmProposal(user: UserId, bid: BidId) returns (reply: Reply)
      modifies db`committed
      ensures Ran(ConfirmBid(user, bid), old(db.committed), reply)
      ensures ConfirmBidMeans(pf, old(db.committed), user, bid, reply, db.committed)
    {
      hide ConfirmBidMeans, Install;
      DecisionMeans(pf, ConfirmBid(user, bid), db.now, db.committed);
      var tx := new Transaction(db.committed);
      var locked := tx.LockBid(bid);
      if locked.None? {
        return Refused(NotFound);
      }
      if locked.value.customer != user {
        return Refused(BidDenied(pf, tx.rows, user, bid));
      }
      if locked.value.status != Proposed {
        return Refused(WrongBidStatus);
      }
      var moved := tx.AdvanceBid(bid, Proposed, CustomerConfirmed);
      if moved != 1 {
        return Refused(BidChanged);
      }
      assert tx.log == [PutBid(bid, locked.value.(status := CustomerConfirmed))];
      db.committed := tx.rows;
      return Done;
    }

    /** The order a bid turns into: one unpaid line, and the thread at once. */
    method CreateTrackedOrder(tx: Transaction, source: Source, customer: UserId, lapak: LapakId, bid: BidId, price: nat, order: OrderId)
      requires tx.Valid()
      modifies tx
      ensures tx.Valid() && tx.start == old(tx.start) && tx.rows.bids == old(tx.rows).bids
      ensures tx.log == old(tx.log) + [PutOrder(order, NewOrderRow(source, customer, lapak, Some(bid))),
                                       InsertItem(order, Item(price, None, None)), OpenThread(order)]
    {
      tx.InsertOrder(order, NewOrderRow(source, customer, lapak, Some(bid)));
      tx.InsertOrderItem(order, Item(price, None, None));
      tx.EnsureChatThread(order);
    }

    method Accept(user: UserId, bid: BidId, order: OrderId) returns (reply: Reply)
      modifies db`committed
      ensures Ran(AcceptBid(user, bid, order), old(db.committed), reply)
      ensures AcceptMeans(pf, old(db.committed), user, bid, order, reply, db.committed)
    {
      hide AcceptMeans;
      DecisionMeans(pf, AcceptBid(user, bid, order), db.now, db.committed);
      var tx := new Transaction(db.committed);
      var locked := tx.LockBid(bid);
      if locked.None? {
        return Refused(NotFound);
      }
      var row := locked.value;
      if !pf.IsLapak(user) || row.matched != Some(pf.lapakOf[user]) {
        if pf.IsLapak(user) || row.customer == user {
          return Refused(NotMatchedLapak);
        }
        return Refused(NotFound);
      }
      if row.status != CustomerConfirmed {
        return Refused(WrongBidStatus);
      }
      CreateTrackedOrder(tx, FromAutoBid, row.customer, pf.lapakOf[user], bid, row.budget, order);
      var moved := tx.AdvanceBid(bid, CustomerConfirmed, Accepted);
      if moved != 1 {
        return Refused(BidChanged);
      }
      assert tx.log == AcceptLog(row, pf.lapakOf[user], bid, order);
      db.committed := tx.rows;
      return Done;
    }

    /** The offer is created or replaces the lapak's earlier one. */
    method PlaceOfferOn(user: UserId, bid: BidId, amount: nat) returns (reply: Reply, created: bool)
      modifies db`committed
      ensures Ran(PlaceOffer(user, bid, amount), old(db.committed), reply)
      ensures PlaceOfferMeans(pf, old(db.committed), user, bid, amount, reply, db.committed)
      ensures created <==> reply == Done && OfferKey(bid, pf.lapakOf[user]) !in old(db.committed).offers
    {
      hide PlaceOfferMeans, Install;
      DecisionMeans(pf, PlaceOffer(user, bid, amount), db.now, db.committed);
      if !pf.IsLapak(user) {
        return Refused(NotLapak), false;
      }
      var tx := new Transaction(db.committed);
      var locked := tx.LockBid(bid);
      if locked.None? {
        return Refused(NotFound), false;
      }
      if locked.value.mode != Manual || locked.value.status != Open {
        return Refused(WrongBidStatus), false;
      }
      created := tx.UpsertOffer(OfferKey(bid, pf.lapakOf[user]), amount);
      assert tx.log == [PutOffer(OfferKey(bid, pf.lapakOf[user]), Offer(amount, Pending))];
      db.committed := tx.rows;
      return Done, created;
    }
  
    /** The bid moves on to awarded and shows the fee it cost. */
    method CloseBid(tx: Transaction, bid: BidId, fee: nat) returns (reply: Reply)
      requires tx.Valid()
      modifies tx
      ensures reply == if bid in old(tx.rows).bids && old(tx.rows).bids[bid].status == Open then Done else Refused(BidChanged)
      ensures reply == Done ==>
        && tx.Valid() && tx.start == old(tx.start)
        && tx.log == old(tx.log) + [PutBid(bid, old(tx.rows).bids[bid].(status := Awarded)),
                                    PutBid(bid, old(tx.rows).bids[bid].(status := Awarded, fee := fee))]
    {
      var moved := tx.AdvanceBid(bid, Open, Awarded);
      if moved != 1 {
        return Refused(BidChanged);
      }
      tx.WriteBid(bid, tx.rows.bids[bid].(fee := fee));
      return Done;
    }

    /** The writes of an award, once the fee is known to be covered. */
    method WriteAward(tx: Transaction, user: UserId, row: Bid, key: OfferKey, offer: Offer, fee: nat, order: OrderId) returns (reply: Reply)
      requires tx.Valid() && tx.log == []
      requires key.bid in tx.rows.bids && tx.rows.bids[key.bid] == row && row.status == Open
      requires key in tx.rows.offers && tx.rows.offers[key] == offer
      modifies tx
      ensures reply ==
        if user !in old(tx.rows).wallets then Refused(NoWalletRow)
        else if fee == 0 then Refused(ZeroLedgerAmount)
        else if offer.status != Pending then Refused(WrongBidStatus)
        else Done
      ensures reply == Done ==>
        && tx.Valid() && tx.start == old(tx.start)
        && tx.log == AwardLog(row, user, key, offer, fee, old(tx.rows).wallets[user], order)
    {
      reply := ChargeFee(tx, user, key.bid, fee);
      if reply != Done {
        return;
      }
      var awarded := tx.MarkOfferAwarded(key);
      if awarded != 1 {
        return Refused(WrongBidStatus);
      }
      CreateTrackedOrder(tx, FromManualBid, user, key.lapak, key.bid, offer.amount, order);
      reply := CloseBid(tx, key.bid, fee);
    }

    method AwardOffer(user: UserId, bid: BidId, offerer: LapakId, fee: nat, order: OrderId) returns (reply: Reply)
      modifies db`committed
      ensures Ran(Award(user, bid, offerer, fee, order), old(db.committed), reply)
      ensures AwardMeans(pf, old(db.committed), user, bid, offerer, fee, order, reply, db.committed)
    {
      hide AwardMeans;
      DecisionMeans(pf, Award(user, bid, offerer, fee, order), db.now, db.committed);
      var tx := new Transaction(db.committed);
      var locked := tx.LockBid(bid);
      if locked.None? {
        return Refused(NotFound);
      }
      var row, key := locked.value, OfferKey(bid, offerer);
      if row.customer != user {
        return Refused(BidDenied(pf, tx.rows, user, bid));
      }
      if row.mode != Manual || row.status != Open {
        return Refused(WrongBidStatus);
      }
      if key !in tx.rows.offers {
        return Refused(OfferNotFound);
      }
      var offer := tx.rows.offers[key];
      var balance := tx.LockWalletForUpdate(user);
      if balance < fee {
        return Refused(InsufficientBalance);
      }
      reply := WriteAward(tx, user, row, key, offer, fee, order);
      if reply != Done {
        return;
      }
      db.committed := tx.rows;
      return Done;
    }
  }
}
