/** What a request decides does not depend on the charges under way. */
module MarketAhead {
  import opened Common
  import opened MarketTables
  import opened MarketDecisions
  import opened MarketInvariants
  import opened MarketOrderKeeps
  import opened MarketMachine
  import opened MarketSteps
  import opened MarketFrames
  import opened MarketStability
  import opened MarketOverlay

  // ----- A decision does not notice the charges under way -----

  /** The wallets the request moves are of users with no charge under way. */
  ghost predicate WalletsApart(pf: Profiles, t: Tables, op: Op, cs: Charges) {
    match op
    case PostAuto(u, _, _, _, _) => !ChargesUser(cs, u)
    case Award(u, _, _, _, _) => !ChargesUser(cs, u)
    case Confirm(_, o) => o in t.orders && t.orders[o].lapak in pf.userOf ==> !ChargesUser(cs, pf.userOf[t.orders[o].lapak])
    case AutoConfirm(o) => o in t.orders && t.orders[o].lapak in pf.userOf ==> !ChargesUser(cs, pf.userOf[t.orders[o].lapak])
    case _ => true
  }

  ghost predicate AllClear(log: seq<RowWrite>, cs: Charges) {
    forall i :: 0 <= i < |log| ==> Clear(log[i], cs)
  }

  lemma NewOrderClear(t: Tables, cs: Charges, o: OrderId)
    requires ChargesApart(t, cs) && o !in t.orders
    ensures !ChargesOrder(cs, o)
  {
    forall tid | tid in cs ensures cs[tid].order != o {
      assert Underway(t, cs[tid]);
    }
  }

  /** An order with a charge under way is pending or paid, with something outstanding. */
  lemma ChargedOrderStatus(pf: Profiles, t: Tables, cs: Charges, o: OrderId)
    requires OrdersOk(pf, t) && ChargesApart(t, cs) && ChargesOrder(cs, o)
    ensures o in t.orders && t.orders[o].status in {PendingPayment, Paid} && OutstandingIdr(Items(t, o)) > 0
  {
    var tid :| tid in cs && cs[tid].order == o;
    assert Underway(t, cs[tid]);
    OutstandingStatus(pf, t, o, cs[tid].rows);
  }

  lemma UnchargedOrder(pf: Profiles, t: Tables, a: Tables, cs: Charges, o: OrderId)
    requires OrdersOk(pf, t) && ChargesApart(t, cs) && Ahead(t, a, cs) && o in t.orders
    requires t.orders[o].status == AwaitingConfirmation || OutstandingIdr(Items(t, o)) == 0
    ensures !ChargesOrder(cs, o) && OrderSame(t, a, o)
  {
    if ChargesOrder(cs, o) {
      ChargedOrderStatus(pf, t, cs, o);
    }
  }

  lemma PaidOrderView(t: Tables, a: Tables, c: Charge)
    requires ChargeMade(t, a, c) && t.orders[c.order].status == Paid
    ensures a.orders[c.order] == t.orders[c.order] && OrderGig(Items(a, c.order)) == OrderGig(Items(t, c.order))
  {
    StampFrame(Items(t, c.order), c.rows, |Payments(t, c.order)|);
    LinesGig(Items(t, c.order), Items(a, c.order));
  }

  lemma AddItemView(t: Tables, a: Tables, cs: Charges, o: OrderId)
    requires Ahead(t, a, cs) && o in t.orders && t.orders[o].status == Paid
    ensures o in a.orders && a.orders[o] == t.orders[o] && OrderGig(Items(a, o)) == OrderGig(Items(t, o))
  {
    if ChargesOrder(cs, o) {
      var tid :| tid in cs && cs[tid].order == o;
      PaidOrderView(t, a, cs[tid]);
    } else {
      assert OrderSame(t, a, o);
    }
  }

  lemma AddItemAhead(pf: Profiles, t: Tables, a: Tables, cs: Charges, u: UserId, o: OrderId, gig: Option<GigId>, price: nat)
    requires Ahead(t, a, cs) && DecideAddItem(pf, t, u, o, gig, price).Commit?
    ensures DecideAddItem(pf, a, u, o, gig, price) == DecideAddItem(pf, t, u, o, gig, price)
  {
    AddItemView(t, a, cs, o);
  }

  lemma CompleteAhead(pf: Profiles, t: Tables, a: Tables, cs: Charges, now: Time, u: UserId, o: OrderId, seconds: nat)
    requires OrdersOk(pf, t) && ChargesApart(t, cs) && Ahead(t, a, cs)
    requires DecideComplete(pf, t, now, u, o, seconds).Commit?
    ensures DecideComplete(pf, a, now, u, o, seconds) == DecideComplete(pf, t, now, u, o, seconds)
    ensures AllClear(DecideComplete(pf, t, now, u, o, seconds).log, cs)
  {
    UnchargedOrder(pf, t, a, cs, o);
  }

  lemma PayoutClear(row: Order, v: UserId, o: OrderId, amount: nat, balance: int, auto: bool, now: Time, cs: Charges)
    requires !ChargesUser(cs, v) && !ChargesOrder(cs, o)
    ensures AllClear(PayoutLog(row, v, o, amount, balance, auto, now), cs)
  {}

  lemma PayoutAhead(pf: Profiles, t: Tables, a: Tables, cs: Charges, now: Time, o: OrderId, auto: bool)
    requires OrdersOk(pf, t) && ChargesApart(t, cs) && Ahead(t, a, cs)
    requires o in t.orders && t.orders[o].lapak in pf.userOf ==> !ChargesUser(cs, pf.userOf[t.orders[o].lapak])
    requires DecidePayout(pf, t, now, o, auto).Commit?
    ensures DecidePayout(pf, a, now, o, auto) == DecidePayout(pf, t, now, o, auto)
    ensures AllClear(DecidePayout(pf, t, now, o, auto).log, cs)
    ensures o in a.orders && a.orders[o] == t.orders[o]
  {
    var v := pf.userOf[t.orders[o].lapak];
    UnchargedOrder(pf, t, a, cs, o);
    assert UserSame(t, a, v);
    assert Balance(a, v) == Balance(t, v) && Items(a, o) == Items(t, o);
    PayoutClear(t.orders[o], v, o, PaidIdr(Items(t, o)), Balance(t, v), auto, now, cs);
  }

  lemma AheadSame(t: Tables, a: Tables, cs: Charges, u: UserId)
    requires Ahead(t, a, cs) && !ChargesUser(cs, u)
    ensures UserSame(t, a, u) && a.bids == t.bids && a.offers == t.offers
  {}

  lemma PostAutoAhead(pf: Profiles, t: Tables, a: Tables, cs: Charges, u: UserId, budget: nat, fee: nat, m: Option<LapakId>, b: BidId)
    requires Ahead(t, a, cs) && !ChargesUser(cs, u) && DecidePostAuto(pf, t, u, budget, fee, m, b).Commit?
    ensures DecidePostAuto(pf, a, u, budget, fee, m, b) == DecidePostAuto(pf, t, u, budget, fee, m, b)
    ensures AllClear(DecidePostAuto(pf, t, u, budget, fee, m, b).log, cs)
  {
    hide Ahead;
    AheadSame(t, a, cs, u);
  }

  lemma AwardAhead(pf: Profiles, t: Tables, a: Tables, cs: Charges, u: UserId, key: OfferKey, fee: nat, o: OrderId)
    requires ChargesApart(t, cs) && Ahead(t, a, cs) && !ChargesUser(cs, u) && o !in t.orders
    requires DecideAward(pf, t, u, key, fee, o).Commit?
    ensures DecideAward(pf, a, u, key, fee, o) == DecideAward(pf, t, u, key, fee, o)
    ensures AllClear(DecideAward(pf, t, u, key, fee, o).log, cs)
  {
    hide Ahead;
    AheadSame(t, a, cs, u);
    NewOrderClear(t, cs, o);
  }

  lemma AcceptAhead(pf: Profiles, t: Tables, a: Tables, cs: Charges, u: UserId, b: BidId, o: OrderId)
    requires ChargesApart(t, cs) && Ahead(t, a, cs) && o !in t.orders
    requires DecideAccept(pf, t, u, b, o).Commit?
    ensures DecideAccept(pf, a, u, b, o) == DecideAccept(pf, t, u, b, o)
    ensures AllClear(DecideAccept(pf, t, u, b, o).log, cs)
  {
    hide Ahead, ChargesApart;
    BidsSameAhead(t, a, cs);
    NewOrderClear(t, cs, o);
  }

  lemma BidsSameAhead(t: Tables, a: Tables, cs: Charges)
    requires Ahead(t, a, cs)
    ensures a.bids == t.bids
  {}

  lemma PayoutDecideAhead(pf: Profiles, op: Op, now: Time, t: Tables, a: Tables, cs: Charges)
    requires (op.Confirm? || op.AutoConfirm?) && OrdersOk(pf, t)
    requires ChargesApart(t, cs) && Ahead(t, a, cs) && WalletsApart(pf, t, op, cs)
    requires Decide(pf, op, now, t).Commit?
    ensures Decide(pf, op, now, a) == Decide(pf, op, now, t) && AllClear(Decide(pf, op, now, t).log, cs)
  {
    PayoutAhead(pf, t, a, cs, now, op.order, op.AutoConfirm?);
  }

  lemma PlaceOrderAhead(pf: Profiles, op: Op, now: Time, t: Tables, a: Tables, cs: Charges)
    requires op.PlaceOrder? && Fresh(t, op) && ChargesApart(t, cs) && Decide(pf, op, now, t).Commit?
    ensures Decide(pf, op, now, a) == Decide(pf, op, now, t) && AllClear(Decide(pf, op, now, t).log, cs)
  {
    NewOrderClear(t, cs, op.order);
  }

  lemma OrderDecideAhead(pf: Profiles, op: Op, now: Time, t: Tables, a: Tables, cs: Charges)
    requires (op.PlaceOrder? || op.AddItem? || op.Complete?) && OrdersOk(pf, t) && Fresh(t, op)
    requires ChargesApart(t, cs) && Ahead(t, a, cs)
    requires Decide(pf, op, now, t).Commit?
    ensures Decide(pf, op, now, a) == Decide(pf, op, now, t) && AllClear(Decide(pf, op, now, t).log, cs)
  {
    hide ChargesApart, OrdersOk;
    match op
    case PlaceOrder(_, _, _, _, _, _) => PlaceOrderAhead(pf, op, now, t, a, cs);
    case AddItem(u, o, gig, price) => AddItemAhead(pf, t, a, cs, u, o, gig, price);
    case Complete(u, o, seconds) => CompleteAhead(pf, t, a, cs, now, u, o, seconds);
  }

  /** The requests that only write a bid or an offer. */
  lemma RowDecideAhead(pf: Profiles, op: Op, now: Time, t: Tables, a: Tables, cs: Charges)
    requires (op.PostManual? || op.ConfirmBid? || op.PlaceOffer?) && Ahead(t, a, cs) && Decide(pf, op, now, t).Commit?
    ensures Decide(pf, op, now, a) == Decide(pf, op, now, t) && AllClear(Decide(pf, op, now, t).log, cs)
  {}

  lemma BidDecideAhead(pf: Profiles, op: Op, now: Time, t: Tables, a: Tables, cs: Charges)
    requires !OrderOp(op) && Fresh(t, op)
    requires ChargesApart(t, cs) && Ahead(t, a, cs) && WalletsApart(pf, t, op, cs)
    requires Decide(pf, op, now, t).Commit?
    ensures Decide(pf, op, now, a) == Decide(pf, op, now, t) && AllClear(Decide(pf, op, now, t).log, cs)
  {
    hide ChargesApart, Ahead, AllClear;
    match op
    case PostManual(_, _, _) => RowDecideAhead(pf, op, now, t, a, cs);
    case PostAuto(u, budget, fee, m, b) => PostAutoAhead(pf, t, a, cs, u, budget, fee, m, b);
    case ConfirmBid(_, _) => RowDecideAhead(pf, op, now, t, a, cs);
    case AcceptBid(u, b, o) => AcceptAhead(pf, t, a, cs, u, b, o);
    case PlaceOffer(_, _, _) => RowDecideAhead(pf, op, now, t, a, cs);
    case Award(u, b, l, fee, o) => AwardAhead(pf, t, a, cs, u, OfferKey(b, l), fee, o);
  }

  /** A request decides the same, and writes the same, whether or not the charges
      under way are made. */
  lemma DecideAhead(pf: Profiles, op: Op, now: Time, t: Tables, a: Tables, cs: Charges, log: seq<RowWrite>)
    requires !op.Pay? && OrdersOk(pf, t) && Fresh(t, op)
    requires ChargesApart(t, cs) && Ahead(t, a, cs) && WalletsApart(pf, t, op, cs)
    requires Decide(pf, op, now, t) == Commit(log)
    ensures Decide(pf, op, now, a) == Commit(log) && AllClear(log, cs)
  {
    if op.Confirm? || op.AutoConfirm? {
      PayoutDecideAhead(pf, op, now, t, a, cs);
    } else if OrderOp(op) {
      OrderDecideAhead(pf, op, now, t, a, cs);
    } else {
      BidDecideAhead(pf, op, now, t, a, cs);
    }
  }
}
