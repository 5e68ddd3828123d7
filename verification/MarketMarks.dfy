/** What a committed request leaves on the tables for good: its own values, row by row,
    and for bids the ledger rows by kind. */
module MarketMarks {
  import opened Common
  import opened MarketTables
  import opened MarketDecisions
  import opened MarketInvariants
  import opened MarketOrderKeeps
  import opened MarketMeaning
  import opened MarketMachine
  import opened MarketTxInvariant
  import opened MarketSteps
  import opened MarketFrames
  import opened MarketSafety
  import opened MarketHistory

  // ----- The mark of a request -----

  /** The one line of a tracked order costs price. */
  ghost predicate CostsOnce(t: Tables, o: OrderId, price: nat) {
    |Items(t, o)| == 1 && Items(t, o)[0].subtotal == price
  }

  ghost predicate OrderMark(pf: Profiles, t: Tables, op: Op, start: Time)
    requires OrderOp(op)
  {
    match op
    case PlaceOrder(u, l, price, quantity, gig, o) =>
      && o in t.orders && t.orders[o].customer == u && t.orders[o].lapak == l && t.orders[o].bid == None
      && Items(t, o) != [] && Items(t, o)[0].gig == gig
      && Items(t, o)[0].subtotal == if gig == None && quantity >= 1 then price * quantity else price
    case Pay(u, o) => o in t.orders && t.orders[o].customer == u && Payments(t, o) != []
    case AddItem(u, o, gig, price) =>
      && o in t.orders && t.orders[o].customer == u
      && exists i :: 0 <= i < |Items(t, o)| && Items(t, o)[i].subtotal == price && Items(t, o)[i].gig == gig
    case Complete(u, o, seconds) =>
      && o in t.orders && u in pf.lapakOf && t.orders[o].lapak == pf.lapakOf[u]
      && t.orders[o].deadline == Some(start + seconds)
    case Confirm(u, o) =>
      && o in t.orders && t.orders[o].customer == u && t.orders[o].status == Completed
      && !t.orders[o].autoConfirmed && t.orders[o].completedAt == Some(start)
    case AutoConfirm(o) =>
      && o in t.orders && t.orders[o].status == Completed
      && t.orders[o].autoConfirmed && t.orders[o].completedAt == Some(start)
    case _ => true
  }

  ghost predicate BidMark(pf: Profiles, t: Tables, op: Op)
    requires !OrderOp(op)
  {
    match op
    case PostManual(u, budget, b) =>
      b in t.bids && t.bids[b].customer == u && t.bids[b].mode == Manual && t.bids[b].budget == budget
    case PostAuto(u, budget, fee, matched, b) =>
      && b in t.bids && t.bids[b].customer == u && t.bids[b].mode == Auto && t.bids[b].budget == budget
      && t.bids[b].matched == matched && t.bids[b].fee == if matched.Some? then fee else 0
    case ConfirmBid(u, b) => b in t.bids && t.bids[b].customer == u && t.bids[b].status in {CustomerConfirmed, Accepted}
    case AcceptBid(u, b, o) =>
      && u in pf.lapakOf && b in t.bids && t.bids[b].status == Accepted && t.bids[b].matched == Some(pf.lapakOf[u])
      && o in t.orders && t.orders[o].bid == Some(b) && t.orders[o].customer == t.bids[b].customer
      && t.orders[o].lapak == pf.lapakOf[u] && CostsOnce(t, o, t.bids[b].budget)
    case PlaceOffer(u, b, _) => u in pf.lapakOf && OfferKey(b, pf.lapakOf[u]) in t.offers
    case Award(u, b, l, fee, o) =>
      && b in t.bids && t.bids[b].status == Awarded && t.bids[b].customer == u && t.bids[b].fee == fee
      && OfferKey(b, l) in t.offers && t.offers[OfferKey(b, l)].status == OfferAwarded
      && o in t.orders && t.orders[o].bid == Some(b) && t.orders[o].customer == u
      && t.orders[o].lapak == l && CostsOnce(t, o, t.offers[OfferKey(b, l)].amount)
    case _ => true
  }

  ghost predicate Mark(pf: Profiles, t: Tables, op: Op, start: Time) {
    if OrderOp(op) then OrderMark(pf, t, op, start) else BidMark(pf, t, op)
  }

  ghost predicate AllMarked(pf: Profiles, s: State) {
    forall tid :: tid in s.txs && s.txs[tid].phase == Committed ==> Mark(pf, s.t, s.txs[tid].op, s.txs[tid].start)
  }

  // ----- Left at the commit -----

  lemma OrderMarkMade(pf: Profiles, t: Tables, t2: Tables, op: Op, start: Time)
    requires OrderOp(op) && !op.Pay? && Fresh(t, op) && Means(pf, op, start, t, Done, t2)
    requires op.Confirm? || op.AutoConfirm? ==> op.order in t.orders && t.orders[op.order].status == AwaitingConfirmation
    ensures OrderMark(pf, t2, op, start)
  {
    hide PaidIdr, OutstandingIdr, AboutGig;
    match op
    case AddItem(_, o, gig, price) => assert Items(t2, o)[|Items(t, o)|] == Item(price, gig, None);
    case PlaceOrder(_, _, _, _, _, o) => assert Items(t, o) == [];
    case _ =>
  }

  lemma BidMarkMade(pf: Profiles, t: Tables, t2: Tables, op: Op, start: Time)
    requires !OrderOp(op) && Fresh(t, op) && Means(pf, op, start, t, Done, t2)
    ensures BidMark(pf, t2, op)
  {
    hide AcceptMeans, AwardMeans, BidMark;
    if op.AcceptBid? {
      AcceptMarkMade(pf, t, t2, op.user, op.bid, op.order);
    } else if op.Award? {
      AwardMarkMade(pf, t, t2, op.user, op.bid, op.offerer, op.fee, op.order);
    } else {
      RowMarkMade(pf, t, t2, op, start);
    }
  }

  lemma RowMarkMade(pf: Profiles, t: Tables, t2: Tables, op: Op, start: Time)
    requires op.PostManual? || op.PostAuto? || op.ConfirmBid? || op.PlaceOffer?
    requires Means(pf, op, start, t, Done, t2)
    ensures BidMark(pf, t2, op)
  {
    hide OnlyReads, Entries;
  }

  lemma AcceptMarkMade(pf: Profiles, t: Tables, t2: Tables, u: UserId, b: BidId, o: OrderId)
    requires o !in t.items && AcceptMeans(pf, t, u, b, o, Done, t2)
    ensures BidMark(pf, t2, AcceptBid(u, b, o))
  {
    assert Items(t, o) == [];
  }

  lemma AwardMarkMade(pf: Profiles, t: Tables, t2: Tables, u: UserId, b: BidId, l: LapakId, fee: nat, o: OrderId)
    requires o !in t.items && AwardMeans(pf, t, u, b, l, fee, o, Done, t2)
    ensures BidMark(pf, t2, Award(u, b, l, fee, o))
  {
    hide OnlyReads, Entries;
    assert Items(t, o) == [];
  }

  lemma PayMarkMade(pf: Profiles, t: Tables, tx: Tx)
    requires OrdersOk(pf, t) && tx.op.Pay? && Commits(pf, t, tx)
    ensures Mark(pf, InstallAll(t, tx.log), tx.op, tx.start)
  {
    hide InstallAll, Install, PayLog;
    OutstandingStatus(pf, t, tx.op.order, tx.rows);
    PayForm(t, tx.op.user, tx.op.order, tx.rows, tx.amount, tx.balance, tx.payment);
  }

  lemma MarkMade(pf: Profiles, t: Tables, tx: Tx)
    requires OrdersOk(pf, t) && Commits(pf, t, tx)
    ensures Mark(pf, InstallAll(t, tx.log), tx.op, tx.start)
  {
    hide Mark, Means, OrdersOk, InstallAll;
    if tx.op.Pay? {
      PayMarkMade(pf, t, tx);
    } else {
      OtherMarkMade(pf, t, tx.op, tx.start, tx.log);
    }
  }

  lemma OtherMarkMade(pf: Profiles, t: Tables, op: Op, start: Time, log: seq<RowWrite>)
    requires !op.Pay? && Decide(pf, op, start, t) == Commit(log) && Fresh(t, op)
    ensures Mark(pf, InstallAll(t, log), op, start)
  {
    hide Means, OrderMark, BidMark, InstallAll;
    DecisionMeans(pf, op, start, t);
    if OrderOp(op) {
      OrderMarkMade(pf, t, InstallAll(t, log), op, start);
    } else {
      BidMarkMade(pf, t, InstallAll(t, log), op, start);
    }
  }

  // ----- and kept -----

  /** One step of a run, for orders and bids alike. */
  ghost predicate Moved(t: Tables, t2: Tables) {
    && Onward(t, t2)
    && (forall b :: b in t.bids ==> b in t2.bids && BidForward(t.bids[b], t2.bids[b]))
  }

  lemma OrderMarkKept(pf: Profiles, t: Tables, t2: Tables, op: Op, start: Time)
    requires OrderOp(op) && OrderMark(pf, t, op, start) && Onward(t, t2)
    ensures OrderMark(pf, t2, op, start)
  {
    match op
    case PlaceOrder(_, _, _, _, _, o) => assert OrderOnward(t, t2, o);
    case Pay(_, o) => assert OrderOnward(t, t2, o);
    case AddItem(_, o, gig, price) =>
      assert OrderOnward(t, t2, o);
      var i :| 0 <= i < |Items(t, o)| && Items(t, o)[i].subtotal == price && Items(t, o)[i].gig == gig;
      assert Items(t2, o)[i].subtotal == price && Items(t2, o)[i].gig == gig;
    case Complete(_, o, _) => assert OrderOnward(t, t2, o);
    case Confirm(_, o) => assert OrderOnward(t, t2, o);
    case AutoConfirm(o) => assert OrderOnward(t, t2, o);
    case _ =>
  }

  lemma TrackedMarkKept(pf: Profiles, t: Tables, t2: Tables, o: OrderId, b: BidId, price: nat)
    requires OrdersOk(pf, t) && OrdersOk(pf, t2) && BidsOk(pf, t2) && Onward(t, t2)
    requires o in t.orders && t.orders[o].bid == Some(b) && CostsOnce(t, o, price)
    ensures o in t2.orders && t2.orders[o].bid == Some(b) && CostsOnce(t2, o, price)
    ensures t2.orders[o].customer == t.orders[o].customer && t2.orders[o].lapak == t.orders[o].lapak
  {
    assert OrderOnward(t, t2, o) && Tracks(t, o, b);
    TrackedKept(pf, t, t2, o, b);
  }

  lemma SettledMarkKept(pf: Profiles, t: Tables, t2: Tables, op: Op)
    requires op.AcceptBid? || op.Award?
    requires OrdersOk(pf, t) && OrdersOk(pf, t2) && BidsOk(pf, t2) && Onward(t, t2) && BidMark(pf, t, op)
    ensures BidMark(pf, t2, op)
  {
    hide OrdersOk, BidsOk;
    assert BidOnward(t, t2, op.bid);
    match op
    case AcceptBid(_, b, o) => TrackedMarkKept(pf, t, t2, o, b, t.bids[b].budget);
    case Award(_, b, l, _, o) =>
      assert OfferOnward(t, t2, OfferKey(b, l));
      TrackedMarkKept(pf, t, t2, o, b, t.offers[OfferKey(b, l)].amount);
  }

  lemma BidMarkKept(pf: Profiles, t: Tables, t2: Tables, op: Op)
    requires !OrderOp(op) && OrdersOk(pf, t) && BidsOk(pf, t) && OrdersOk(pf, t2) && BidsOk(pf, t2)
    requires Moved(t, t2) && BidMark(pf, t, op)
    ensures BidMark(pf, t2, op)
  {
    if op.PlaceOffer? {
      assert OfferOnward(t, t2, OfferKey(op.bid, pf.lapakOf[op.user]));
    } else if op.AcceptBid? || op.Award? {
      SettledMarkKept(pf, t, t2, op);
    } else {
      assert BidForward(t.bids[op.bid], t2.bids[op.bid]) && BidOk(pf, t, op.bid);
    }
  }

  lemma MarkKept(pf: Profiles, t: Tables, t2: Tables, op: Op, start: Time)
    requires OrdersOk(pf, t) && BidsOk(pf, t) && OrdersOk(pf, t2) && BidsOk(pf, t2)
    requires Moved(t, t2) && Mark(pf, t, op, start)
    ensures Mark(pf, t2, op, start)
  {
    hide OrdersOk, BidsOk, OrderMark, BidMark, Onward;
    if OrderOp(op) {
      OrderMarkKept(pf, t, t2, op, start);
    } else {
      BidMarkKept(pf, t, t2, op);
    }
  }

  lemma ExecMarks(pf: Profiles, open: map<UserId, nat>, s: State, ev: Event)
    requires Good(pf, open, s) && AllMarked(pf, s)
    ensures Good(pf, open, Exec(pf, s, ev)) && AllMarked(pf, Exec(pf, s, ev))
  {
    hide Mark, Onward, Inv, TxOk;
    var s2 := Exec(pf, s, ev);
    ExecKeeps(pf, open, s, ev);
    EventMovesOneStep(pf, open, s, ev);
    GoodTables(pf, open, s);
    GoodTables(pf, open, s2);
    forall tid | tid in s2.txs && s2.txs[tid].phase == Committed ensures Mark(pf, s2.t, s2.txs[tid].op, s2.txs[tid].start) {
      if tid in s.txs && s.txs[tid].phase == Committed {
        CommittedStays(pf, s, ev, tid);
        MarkKept(pf, s.t, s2.t, s.txs[tid].op, s.txs[tid].start);
      } else {
        JustCommitted(pf, s, ev, tid);
        CommitsAt(pf, open, s, tid);
        MarkMade(pf, s.t, s.txs[tid]);
      }
    }
  }

  lemma GoodTables(pf: Profiles, open: map<UserId, nat>, s: State)
    requires Good(pf, open, s)
    ensures OrdersOk(pf, s.t) && BidsOk(pf, s.t)
  {}

  lemma CommittedStays(pf: Profiles, s: State, ev: Event, tid: Tid)
    requires tid in s.txs && s.txs[tid].phase == Committed
    ensures tid in Exec(pf, s, ev).txs && Exec(pf, s, ev).txs[tid] == s.txs[tid]
  {}

  lemma JustCommitted(pf: Profiles, s: State, ev: Event, tid: Tid)
    requires tid in Exec(pf, s, ev).txs && Exec(pf, s, ev).txs[tid].phase == Committed
    requires !(tid in s.txs && s.txs[tid].phase == Committed)
    ensures ev == Step(tid) && IsRunning(s, tid) && Next(pf, s.t, s.txs[tid]) == Finish
    ensures Exec(pf, s, ev).t == InstallAll(s.t, s.txs[tid].log)
    ensures Exec(pf, s, ev).txs[tid].op == s.txs[tid].op && Exec(pf, s, ev).txs[tid].start == s.txs[tid].start
  {
    if ev.Step? && IsRunning(s, ev.tid) {
      NextSame(pf, s.t, s.txs[ev.tid]);
    }
  }

  lemma {:induction false} RunMarks(pf: Profiles, open: map<UserId, nat>, s: State, events: seq<Event>)
    requires Good(pf, open, s) && AllMarked(pf, s)
    ensures Good(pf, open, Run(pf, s, events)) && AllMarked(pf, Run(pf, s, events))
    decreases |events|
  {
    hide Good, AllMarked;
    if events != [] {
      ExecMarks(pf, open, s, events[0]);
      RunMarks(pf, open, Exec(pf, s, events[0]), events[1..]);
    }
  }
}
