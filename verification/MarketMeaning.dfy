/** What each request means to its caller, in the rows themselves: which refusal it
    gets and when, and the tables that success leaves. */
module MarketMeaning {
  import opened Common
  import opened MarketTables
  import opened MarketDecisions
  import opened MarketOrderKeeps
  import opened MarketPreservation
  import opened MarketAtomic

  // ----- Orders -----

  /** A product costs its price times the quantity, of which there is at least one; a
      gig tier costs its price. */
  ghost predicate PlaceOrderMeans(pf: Profiles, t: Tables, u: UserId, l: LapakId, price: nat, quantity: int, gig: Option<GigId>,
                                  o: OrderId, reply: Reply, t2: Tables) {
    && (reply == Refused(LapakCannotBuy) <==> u in pf.lapakOf)
    && (reply == Done <==> u !in pf.lapakOf)
    && (reply != Done ==> t2 == t)
    && (reply == Done ==>
          var cost := if gig == None && quantity >= 1 then price * quantity else price;
          t2 == t.(orders := t.orders[o := Order(if gig == None then FromProduct else FromGig, PendingPayment, u, l, None, None, false, None)],
                   items := t.items[o := Items(t, o) + [Item(cost, gig, None)]]))
  }

  /** The unpaid lines before are the lines of the new payment after. */
  ghost predicate LinesPaid(items: seq<Item>, items2: seq<Item>, payment: nat) {
    && |items2| == |items|
    && forall i :: 0 <= i < |items| ==>
         items2[i] == Item(items[i].subtotal, items[i].gig, if items[i].payment == None then Some(payment) else items[i].payment)
  }

  ghost predicate PayMeans(t: Tables, u: UserId, o: OrderId, reply: Reply, t2: Tables) {
    var own := o in t.orders && t.orders[o].customer == u;
    var due := OutstandingIdr(Items(t, o));
    var purse := if u in t.wallets then t.wallets[u] else 0;
    && (reply == Refused(NotFound) <==> !own)
    && (reply == Refused(NothingOutstanding) <==> own && due == 0)
    && (reply == Refused(InsufficientBalance) <==> own && 0 < due && purse < due)
    && (reply == Done <==> own && 0 < due <= purse)
    && (reply != Done ==> t2 == t)
    && (reply == Done ==>
          && LinesPaid(Items(t, o), Items(t2, o), |Payments(t, o)|)
          && t2 == t.(wallets := t.wallets[u := purse - due],
                      ledger := t.ledger[u := Entries(t, u) + [Entry(OrderPayment, -(due as int), purse - due, ForOrder(o))]],
                      payments := t.payments[o := Payments(t, o) + [due]],
                      items := t.items[o := Items(t2, o)],
                      orders := t.orders[o := if t.orders[o].status == PendingPayment then t.orders[o].(status := OrderStatus.Paid) else t.orders[o]],
                      threads := t.threads + {o}))
  }

  /** The first line that is about a gig is about this one. */
  ghost predicate AboutGig(items: seq<Item>, gig: GigId) {
    exists i :: 0 <= i < |items| && items[i].gig == Some(gig) && forall j :: 0 <= j < i ==> items[j].gig == None
  }

  ghost predicate AddItemMeans(pf: Profiles, t: Tables, u: UserId, o: OrderId, tierGig: Option<GigId>, price: nat, reply: Reply, t2: Tables) {
    var known := o in t.orders;
    var own := known && t.orders[o].customer == u;
    var works := known && u in pf.lapakOf && t.orders[o].lapak == pf.lapakOf[u];
    var paid := own && t.orders[o].status == OrderStatus.Paid;
    && (reply == Refused(NotYours) <==> !own && works)
    && (reply == Refused(NotFound) <==> !own && !works)
    && (reply == Refused(NotAcceptingItems) <==> own && !paid)
    && (reply == Refused(TierNotFound) <==> paid && tierGig == None)
    && (reply == Refused(DifferentGig) <==> paid && tierGig.Some? && !AboutGig(Items(t, o), tierGig.value))
    && (reply == Done <==> paid && tierGig.Some? && AboutGig(Items(t, o), tierGig.value))
    && (reply != Done ==> t2 == t)
    && (reply == Done ==> t2 == t.(items := t.items[o := Items(t, o) + [Item(price, tierGig, None)]]))
  }

  ghost predicate CompleteMeans(pf: Profiles, now: Time, t: Tables, u: UserId, o: OrderId, seconds: nat, reply: Reply, t2: Tables) {
    var known := o in t.orders;
    var works := known && u in pf.lapakOf && t.orders[o].lapak == pf.lapakOf[u];
    var buys := known && t.orders[o].customer == u;
    var paid := works && t.orders[o].status == OrderStatus.Paid;
    && (reply == Refused(NotYours) <==> !works && buys)
    && (reply == Refused(NotFound) <==> !works && !buys)
    && (reply == Refused(OrderNotPaid) <==> works && !paid)
    && (reply == Refused(OutstandingItems) <==> paid && OutstandingIdr(Items(t, o)) > 0)
    && (reply == Done <==> paid && OutstandingIdr(Items(t, o)) == 0)
    && (reply != Done ==> t2 == t)
    && (reply == Done ==> t2 == t.(orders := t.orders[o := t.orders[o].(status := AwaitingConfirmation, deadline := Some(now + seconds))]))
  }

  /** The order is completed now, by the sweeper if auto, and the user behind its lapak
      has what was paid for it. */
  ghost predicate PaysOut(pf: Profiles, now: Time, t: Tables, o: OrderId, auto: bool, t2: Tables)
    requires o in t.orders && t.orders[o].lapak in pf.userOf
  {
    var row, v, paid := t.orders[o], pf.userOf[t.orders[o].lapak], PaidIdr(Items(t, o));
    var purse := (if v in t.wallets then t.wallets[v] else 0) + paid;
    t2 == t.(orders := t.orders[o := Order(row.source, Completed, row.customer, row.lapak, row.bid, row.deadline, auto, Some(now))],
             wallets := if paid == 0 then t.wallets else t.wallets[v := purse],
             ledger := if paid == 0 then t.ledger else t.ledger[v := Entries(t, v) + [Entry(Payout, paid, purse, ForOrder(o))]])
  }

  /** What a payout means for an order the caller may complete. */
  ghost predicate PayoutMeans(pf: Profiles, now: Time, t: Tables, o: OrderId, auto: bool, reply: Reply, t2: Tables) {
    var found := o in t.orders && t.orders[o].lapak in pf.userOf;
    && (reply == Refused(NotFound) <==> !found)
    && (reply == Refused(NotAwaitingConfirmation) <==> found && t.orders[o].status !in {AwaitingConfirmation, Completed})
    && (reply == Done <==> found && t.orders[o].status in {AwaitingConfirmation, Completed})
    && (found && t.orders[o].status == AwaitingConfirmation ==> PaysOut(pf, now, t, o, auto, t2))
    && (!(found && t.orders[o].status == AwaitingConfirmation) ==> t2 == t)
  }

  ghost predicate ConfirmMeans(pf: Profiles, now: Time, t: Tables, u: UserId, o: OrderId, reply: Reply, t2: Tables) {
    var known := o in t.orders;
    var works := known && u in pf.lapakOf && t.orders[o].lapak == pf.lapakOf[u];
    if known && t.orders[o].customer == u then PayoutMeans(pf, now, t, o, false, reply, t2)
    else t2 == t && reply == Refused(if works then NotYours else NotFound)
  }

  // ----- Bids -----

  ghost predicate PostManualMeans(pf: Profiles, t: Tables, u: UserId, budget: nat, b: BidId, reply: Reply, t2: Tables) {
    && (reply == Refused(LapakCannotBuy) <==> u in pf.lapakOf)
    && (reply == Done <==> u !in pf.lapakOf)
    && (reply != Done ==> t2 == t)
    && (reply == Done ==> t2 == t.(bids := t.bids[b := Bid(Manual, Open, u, None, budget, 0)]))
  }

  /** With a match the fee is kept; without one it is charged and given back. */
  ghost predicate PostAutoMeans(pf: Profiles, t: Tables, u: UserId, budget: nat, fee: nat, matched: Option<LapakId>, b: BidId,
                                reply: Reply, t2: Tables) {
    var buyer := u !in pf.lapakOf;
    var purse := if u in t.wallets then t.wallets[u] else 0;
    && (reply == Refused(LapakCannotBuy) <==> !buyer)
    && (reply == Refused(InsufficientBalance) <==> buyer && purse < fee)
    && (reply == Refused(NoWalletRow) <==> buyer && u !in t.wallets && fee == 0)
    && (reply == Refused(ZeroLedgerAmount) <==> buyer && u in t.wallets && fee == 0 <= purse)
    && (reply == Done <==> buyer && 0 < fee <= purse)
    && (reply != Done ==> t2 == t)
    && (reply == Done && matched.Some? ==>
          t2 == t.(bids := t.bids[b := Bid(Auto, Proposed, u, matched, budget, fee)],
                   wallets := t.wallets[u := purse - fee],
                   ledger := t.ledger[u := Entries(t, u) + [Entry(PlatformFee, -(fee as int), purse - fee, ForBid(b))]]))
    && (reply == Done && matched.None? ==>
          t2 == t.(bids := t.bids[b := Bid(Auto, NoMatch, u, None, budget, 0)],
                   ledger := t.ledger[u := Entries(t, u) + [Entry(PlatformFee, -(fee as int), purse - fee, ForBid(b)), Entry(Refund, fee, purse, ForBid(b))]]))
  }

  /** The caller is not the bid's customer but may read it: a lapak that it matched,
      that has an offer on it, or that could still make one. */
  ghost predicate OnlyReads(pf: Profiles, t: Tables, u: UserId, b: BidId) {
    && b in t.bids && t.bids[b].customer != u && u in pf.lapakOf
    && (t.bids[b].matched == Some(pf.lapakOf[u]) || OfferKey(b, pf.lapakOf[u]) in t.offers
        || (t.bids[b].mode == Manual && t.bids[b].status == Open))
  }

  ghost predicate ConfirmBidMeans(pf: Profiles, t: Tables, u: UserId, b: BidId, reply: Reply, t2: Tables) {
    var own := b in t.bids && t.bids[b].customer == u;
    && (reply == Refused(NotYours) <==> OnlyReads(pf, t, u, b))
    && (reply == Refused(NotFound) <==> !own && !OnlyReads(pf, t, u, b))
    && (reply == Refused(WrongBidStatus) <==> own && t.bids[b].status != Proposed)
    && (reply == Done <==> own && t.bids[b].status == Proposed)
    && (reply != Done ==> t2 == t)
    && (reply == Done ==> t2 == t.(bids := t.bids[b := t.bids[b].(status := CustomerConfirmed)]))
  }

  /** The order that comes of a bid: one unpaid line at the price, and its thread. */
  function Tracked(t: Tables, o: OrderId, source: Source, u: UserId, l: LapakId, b: BidId, price: nat): Tables {
    t.(orders := t.orders[o := Order(source, PendingPayment, u, l, Some(b), None, false, None)],
       items := t.items[o := Items(t, o) + [Item(price, None, None)]],
       threads := t.threads + {o})
  }

  ghost predicate AcceptMeans(pf: Profiles, t: Tables, u: UserId, b: BidId, o: OrderId, reply: Reply, t2: Tables) {
    var known := b in t.bids;
    var chosen := known && u in pf.lapakOf && t.bids[b].matched == Some(pf.lapakOf[u]);
    var party := known && (u in pf.lapakOf || t.bids[b].customer == u);
    && (reply == Refused(NotMatchedLapak) <==> party && !chosen)
    && (reply == Refused(NotFound) <==> !party)
    && (reply == Refused(WrongBidStatus) <==> chosen && t.bids[b].status != CustomerConfirmed)
    && (reply == Done <==> chosen && t.bids[b].status == CustomerConfirmed)
    && (reply != Done ==> t2 == t)
    && (reply == Done ==>
          t2 == Tracked(t, o, FromAutoBid, t.bids[b].customer, pf.lapakOf[u], b, t.bids[b].budget)
                .(bids := t.bids[b := t.bids[b].(status := Accepted)]))
  }

  ghost predicate PlaceOfferMeans(pf: Profiles, t: Tables, u: UserId, b: BidId, amount: nat, reply: Reply, t2: Tables) {
    var worker := u in pf.lapakOf;
    var open := b in t.bids && t.bids[b].mode == Manual && t.bids[b].status == Open;
    && (reply == Refused(NotLapak) <==> !worker)
    && (reply == Refused(NotFound) <==> worker && b !in t.bids)
    && (reply == Refused(WrongBidStatus) <==> worker && b in t.bids && !open)
    && (reply == Done <==> worker && open)
    && (reply != Done ==> t2 == t)
    && (reply == Done ==> t2 == t.(offers := t.offers[OfferKey(b, pf.lapakOf[u]) := Offer(amount, Pending)]))
  }

  ghost predicate AwardMeans(pf: Profiles, t: Tables, u: UserId, b: BidId, l: LapakId, fee: nat, o: OrderId, reply: Reply, t2: Tables) {
    var own := b in t.bids && t.bids[b].customer == u;
    var open := own && t.bids[b].mode == Manual && t.bids[b].status == Open;
    var key := OfferKey(b, l);
    var offered := open && key in t.offers;
    var purse := if u in t.wallets then t.wallets[u] else 0;
    && (reply == Refused(NotYours) <==> OnlyReads(pf, t, u, b))
    && (reply == Refused(NotFound) <==> !own && !OnlyReads(pf, t, u, b))
    && (reply == Refused(OfferNotFound) <==> open && !offered)
    && (reply == Refused(InsufficientBalance) <==> offered && purse < fee)
    && (reply == Refused(NoWalletRow) <==> offered && u !in t.wallets && fee == 0)
    && (reply == Refused(ZeroLedgerAmount) <==> offered && u in t.wallets && fee == 0 <= purse)
    && (reply == Refused(WrongBidStatus) <==> (own && !open) || (offered && 0 < fee <= purse && t.offers[key].status != Pending))
    && (reply == Done <==> offered && 0 < fee <= purse && t.offers[key].status == Pending)
    && (reply != Done ==> t2 == t)
    && (reply == Done ==>
          t2 == Tracked(t, o, FromManualBid, u, l, b, t.offers[key].amount)
                .(bids := t.bids[b := t.bids[b].(status := Awarded, fee := fee)],
                  offers := t.offers[key := Offer(t.offers[key].amount, OfferAwarded)],
                  wallets := t.wallets[u := purse - fee],
                  ledger := t.ledger[u := Entries(t, u) + [Entry(PlatformFee, -(fee as int), purse - fee, ForBid(b))]]))
  }

  /** What any request means. */
  ghost predicate Means(pf: Profiles, op: Op, now: Time, t: Tables, reply: Reply, t2: Tables) {
    match op
    case PlaceOrder(u, l, price, quantity, gig, o) => PlaceOrderMeans(pf, t, u, l, price, quantity, gig, o, reply, t2)
    case Pay(u, o) => PayMeans(t, u, o, reply, t2)
    case AddItem(u, o, gig, price) => AddItemMeans(pf, t, u, o, gig, price, reply, t2)
    case Complete(u, o, seconds) => CompleteMeans(pf, now, t, u, o, seconds, reply, t2)
    case Confirm(u, o) => ConfirmMeans(pf, now, t, u, o, reply, t2)
    case AutoConfirm(o) => PayoutMeans(pf, now, t, o, true, reply, t2)
    case PostManual(u, budget, b) => PostManualMeans(pf, t, u, budget, b, reply, t2)
    case PostAuto(u, budget, fee, m, b) => PostAutoMeans(pf, t, u, budget, fee, m, b, reply, t2)
    case ConfirmBid(u, b) => ConfirmBidMeans(pf, t, u, b, reply, t2)
    case AcceptBid(u, b, o) => AcceptMeans(pf, t, u, b, o, reply, t2)
    case PlaceOffer(u, b, amount) => PlaceOfferMeans(pf, t, u, b, amount, reply, t2)
    case Award(u, b, l, fee, o) => AwardMeans(pf, t, u, b, l, fee, o, reply, t2)
  }

  // ----- Every decision means it -----

  lemma PlaceOrderMeant(pf: Profiles, op: Op, now: Time, t: Tables)
    requires op.PlaceOrder?
    ensures Means(pf, op, now, t, Answer(Decide(pf, op, now, t)), After(pf, op, now, t))
  {
    hide InstallAll, Install;
    var row := NewOrderRow(if op.gig.Some? then FromGig else FromProduct, op.user, op.lapak, None);
    FirstLine(op.price, op.quantity, op.gig);
    FirstForm(t, op.order, row, FirstItem(op.price, op.quantity, op.gig));
  }

  lemma FirstLine(price: nat, quantity: int, gig: Option<GigId>)
    ensures FirstItem(price, quantity, gig) == Item(if gig == None && quantity >= 1 then price * quantity else price, gig, None)
  {}

  lemma FirstForm(t: Tables, o: OrderId, row: Order, item: Item)
    ensures InstallAll(t, [PutOrder(o, row), InsertItem(o, item)])
         == t.(orders := t.orders[o := row], items := t.items[o := Items(t, o) + [item]])
  {
    hide InstallAll;
    Install2(t, PutOrder(o, row), InsertItem(o, item));
  }

  lemma PayMeant(pf: Profiles, t: Tables, u: UserId, o: OrderId, now: Time)
    ensures PayMeans(t, u, o, Answer(DecidePay(t, u, o)), After(pf, Pay(u, o), now, t))
  {
    hide InstallAll, OutstandingIdr, UnpaidRows;
    var d := DecidePay(t, u, o);
    if d.Commit? {
      hide Install;
      var rows, due, k := UnpaidRows(Items(t, o)), OutstandingIdr(Items(t, o)), |Payments(t, o)|;
      PayHeadForm(t, u, o, rows, due, Balance(t, u), k);
      PayTailForm(t, u, o, rows, due, Balance(t, u), k);
      StampedLines(Items(t, o), k);
    }
  }

  lemma StampedLines(items: seq<Item>, k: nat)
    ensures LinesPaid(items, Stamp(items, UnpaidRows(items), k), k)
  {}

  lemma {:induction false} FirstGig(items: seq<Item>, gig: GigId)
    ensures OrderGig(items) == Some(gig) <==> AboutGig(items, gig)
    decreases |items|
  {
    if items != [] && items[0].gig == None {
      FirstGig(items[1..], gig);
      if AboutGig(items, gig) {
        var i :| 0 <= i < |items| && items[i].gig == Some(gig) && forall j :: 0 <= j < i ==> items[j].gig == None;
        assert items[1..][i - 1].gig == Some(gig);
        assert forall j :: 0 <= j < i - 1 ==> items[1..][j] == items[j + 1];
      }
      if AboutGig(items[1..], gig) {
        var i :| 0 <= i < |items[1..]| && items[1..][i].gig == Some(gig) && forall j :: 0 <= j < i ==> items[1..][j].gig == None;
        assert items[i + 1].gig == Some(gig);
        assert forall j :: 0 < j < i + 1 ==> items[j] == items[1..][j - 1];
      }
    } else if items != [] {
      assert items[0].gig == Some(gig) ==> AboutGig(items, gig);
    }
  }

  lemma AddItemMeant(pf: Profiles, op: Op, now: Time, t: Tables)
    requires op.AddItem?
    ensures Means(pf, op, now, t, Answer(Decide(pf, op, now, t)), After(pf, op, now, t))
  {
    hide InstallAll, AboutGig, OrderGig;
    if op.tierGig.Some? {
      FirstGig(Items(t, op.order), op.tierGig.value);
    }
    Install1(t, InsertItem(op.order, Item(op.price, op.tierGig, None)));
  }

  lemma CompleteMeant(pf: Profiles, op: Op, now: Time, t: Tables)
    requires op.Complete?
    ensures Means(pf, op, now, t, Answer(Decide(pf, op, now, t)), After(pf, op, now, t))
  {
    hide InstallAll, OutstandingIdr;
    if op.order in t.orders {
      var deadline := now + op.seconds;
      Install1(t, PutOrder(op.order, AwaitingRow(t.orders[op.order], deadline)));
    }
  }

  lemma PayoutMeant(pf: Profiles, t: Tables, now: Time, o: OrderId, auto: bool, t2: Tables)
    requires t2 == if DecidePayout(pf, t, now, o, auto).Commit? then InstallAll(t, DecidePayout(pf, t, now, o, auto).log) else t
    ensures PayoutMeans(pf, now, t, o, auto, Answer(DecidePayout(pf, t, now, o, auto)), t2)
  {
    hide InstallAll, PaidIdr;
    if DecidePayout(pf, t, now, o, auto).Commit? {
      var row, v, paid := t.orders[o], pf.userOf[t.orders[o].lapak], PaidIdr(Items(t, o));
      if paid > 0 {
        PayoutTables(t, v, o, row, paid, auto, now);
      } else {
        assert PayoutLog(row, v, o, paid, Balance(t, v), auto, now) == [PutOrder(o, CompletedRow(row, auto, now))];
        Install1(t, PutOrder(o, CompletedRow(row, auto, now)));
      }
    }
  }

  lemma PostAutoMeant(pf: Profiles, op: Op, now: Time, t: Tables)
    requires op.PostAuto?
    ensures Means(pf, op, now, t, Answer(Decide(pf, op, now, t)), After(pf, op, now, t))
  {
    hide InstallAll, Install, MatchedLog, UnmatchedLog;
    hide Entries;
    var u, fee, purse := op.user, op.fee, Balance(t, op.user);
    if Decide(pf, op, now, t).Commit? {
      match op.match_
      case Some(l) => MatchedForm(t, u, op.budget, fee, l, op.bid);
      case None => UnmatchedTables(t, u, op.budget, fee, op.bid, purse);
    }
  }

  /** A fee and its refund leave the wallet as it was and two rows on the ledger. */
  lemma UnmatchedTables(t: Tables, u: UserId, budget: nat, fee: nat, b: BidId, purse: int)
    requires u in t.wallets && purse == t.wallets[u]
    ensures InstallAll(t, UnmatchedLog(u, b, budget, fee, purse))
         == t.(bids := t.bids[b := Bid(Auto, NoMatch, u, None, budget, 0)],
               ledger := t.ledger[u := Entries(t, u) + [FeeEntry(b, fee, purse - fee), RefundEntry(b, fee, purse)]])
  {
    hide InstallAll, Install, UnmatchedLog, FeeEntry, RefundEntry, Entries;
    var after := purse - fee;
    var out, back, mine := FeeEntry(b, fee, after), RefundEntry(b, fee, purse), Entries(t, u);
    UnmatchedForm(t, u, budget, fee, b);
    BackAndForth(t.wallets, t.ledger, u, after, mine, out, back);
    var tm := MatchedTables(t, b, AutoBid(u, budget, fee));
    assert tm.ledger == t.ledger[u := mine + [out]];
    LastEntries(tm, u, mine + [out]);
  }

  lemma LastEntries(t: Tables, u: UserId, mine: seq<Entry>)
    requires u in t.ledger && t.ledger[u] == mine
    ensures Entries(t, u) == mine
  {}

  lemma BackAndForth(wallets: map<UserId, int>, ledger: map<UserId, seq<Entry>>, u: UserId, after: int, mine: seq<Entry>, out: Entry, back: Entry)
    requires u in wallets
    ensures wallets[u := after][u := wallets[u]] == wallets
    ensures ledger[u := mine + [out]][u := mine + [out] + [back]] == ledger[u := mine + [out, back]]
  {
    assert mine + [out] + [back] == mine + [out, back];
  }

  lemma AcceptMeant(pf: Profiles, op: Op, now: Time, t: Tables)
    requires op.AcceptBid?
    ensures Means(pf, op, now, t, Answer(Decide(pf, op, now, t)), After(pf, op, now, t))
  {
    hide InstallAll, AcceptLog;
    if Decide(pf, op, now, t).Commit? {
      AcceptForm(t, t.bids[op.bid], pf.lapakOf[op.user], op.bid, op.order);
    }
  }

  lemma AwardMeant(pf: Profiles, op: Op, now: Time, t: Tables)
    requires op.Award?
    ensures Means(pf, op, now, t, Answer(Decide(pf, op, now, t)), After(pf, op, now, t))
  {
    hide InstallAll, AwardLog;
    if Decide(pf, op, now, t).Commit? {
      AwardForm(t, op.user, OfferKey(op.bid, op.offerer), op.fee, op.order);
    }
  }

  lemma OtherBidMeant(pf: Profiles, op: Op, now: Time, t: Tables)
    requires op.PostManual? || op.ConfirmBid? || op.PlaceOffer?
    ensures Means(pf, op, now, t, Answer(Decide(pf, op, now, t)), After(pf, op, now, t))
  {
    hide InstallAll;
    if Decide(pf, op, now, t).Commit? {
      Install1(t, Decide(pf, op, now, t).log[0]);
    }
  }

  /** Every request, run alone, does what it means. */
  lemma DecisionMeans(pf: Profiles, op: Op, now: Time, t: Tables)
    ensures Means(pf, op, now, t, Answer(Decide(pf, op, now, t)), After(pf, op, now, t))
  {
    hide InstallAll, PayMeans, PayoutMeans;
    match op
    case PlaceOrder(_, _, _, _, _, _) => PlaceOrderMeant(pf, op, now, t);
    case Pay(u, o) => PayMeant(pf, t, u, o, now);
    case AddItem(_, _, _, _) => AddItemMeant(pf, op, now, t);
    case Complete(_, _, _) => CompleteMeant(pf, op, now, t);
    case Confirm(u, o) =>
      if o in t.orders && t.orders[o].customer == u {
        PayoutMeant(pf, t, now, o, false, After(pf, op, now, t));
      }
    case AutoConfirm(o) => PayoutMeant(pf, t, now, o, true, After(pf, op, now, t));
    case PostAuto(_, _, _, _, _) => PostAutoMeant(pf, op, now, t);
    case AcceptBid(_, _, _) => AcceptMeant(pf, op, now, t);
    case Award(_, _, _, _, _) => AwardMeant(pf, op, now, t);
    case _ => OtherBidMeant(pf, op, now, t);
  }
}
