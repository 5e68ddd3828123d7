/** The serial order of a run, read request by request: each does what it means, and a
    book that only looks at the requests knows what every bid, offer and order costs. */
module MarketBooks {
  import opened Common
  import opened MarketTables
  import opened MarketDecisions
  import opened MarketMeaning
  import opened MarketMachine
  import opened MarketSerial

  /** The given transactions, one at a time and each with success, lead from t to t2. */
  ghost predicate Follows(pf: Profiles, t: Tables, txs: map<Tid, Tx>, order: seq<Tid>, t2: Tables)
    decreases |order|
  {
    if order == [] then t2 == t
    else
      && order[0] in txs
      && exists next: Tables :: Means(pf, txs[order[0]].op, txs[order[0]].start, t, Done, next) && Follows(pf, next, txs, order[1..], t2)
  }

  lemma {:induction false} ReplayFollows(pf: Profiles, t: Tables, txs: map<Tid, Tx>, order: seq<Tid>, t2: Tables)
    requires Replays(pf, t, txs, order, t2)
    ensures Follows(pf, t, txs, order, t2)
    decreases |order|
  {
    hide Means, Decide;
    if order != [] {
      var tx := txs[order[0]];
      var next := After(pf, tx.op, tx.start, t);
      DecisionMeans(pf, tx.op, tx.start, t);
      ReplayFollows(pf, next, txs, order[1..], t2);
    }
  }

  // ----- The books -----

  /** What the requests so far say: budgets and fees of bids, amounts of offers and
      what each order's lines add up to. */
  datatype Books = Books(budgets: map<BidId, nat>, fees: map<BidId, nat>, offers: map<OfferKey, nat>, totals: map<OrderId, nat>) {
    function TotalOf(o: OrderId): nat {
      if o in totals then totals[o] else 0
    }

    function Add(o: OrderId, price: nat): Books {
      this.(totals := totals[o := TotalOf(o) + price])
    }

    function Post(b: BidId, budget: nat, fee: nat): Books {
      this.(budgets := budgets[b := budget], fees := fees[b := fee])
    }
  }

  /** What a request that succeeds adds to the books. */
  function Enter(pf: Profiles, k: Books, op: Op): Books {
    match op
    case PlaceOrder(_, _, price, quantity, gig, o) => k.Add(o, if gig == None && quantity >= 1 then price * quantity else price)
    case AddItem(_, o, _, price) => k.Add(o, price)
    case PostManual(_, budget, b) => k.Post(b, budget, 0)
    case PostAuto(_, budget, fee, matched, b) => k.Post(b, budget, if matched.Some? then fee else 0)
    case PlaceOffer(u, b, amount) => if u in pf.lapakOf then k.(offers := k.offers[OfferKey(b, pf.lapakOf[u]) := amount]) else k
    case AcceptBid(_, b, o) => if b in k.budgets then k.Add(o, k.budgets[b]) else k
    case Award(_, b, l, fee, o) =>
      if OfferKey(b, l) in k.offers then k.Add(o, k.offers[OfferKey(b, l)]).(fees := k.fees[b := fee]) else k
    case _ => k
  }

  function EnterAll(pf: Profiles, k: Books, txs: map<Tid, Tx>, order: seq<Tid>): Books
    requires forall i :: 0 <= i < |order| ==> order[i] in txs
    decreases |order|
  {
    if order == [] then k else EnterAll(pf, Enter(pf, k, txs[order[0]].op), txs, order[1..])
  }

  /** The tables say what the books say. */
  ghost predicate Agree(t: Tables, k: Books) {
    && t.bids.Keys == k.budgets.Keys == k.fees.Keys
    && (forall b :: b in t.bids ==> t.bids[b].budget == k.budgets[b] && t.bids[b].fee == k.fees[b])
    && t.offers.Keys == k.offers.Keys
    && (forall key :: key in t.offers ==> t.offers[key].amount == k.offers[key])
    && (forall o: OrderId :: TotalIdr(Items(t, o)) == k.TotalOf(o))
  }

  lemma TotalOfMore(items: seq<Item>, x: Item)
    requires x.payment == None
    ensures TotalIdr(items + [x]) == TotalIdr(items) + x.subtotal
  {
    AppendUnpaid(items, x);
    PaidPlusOutstanding(items);
    PaidPlusOutstanding(items + [x]);
  }

  lemma TotalOfPaid(items: seq<Item>, items2: seq<Item>, payment: nat)
    requires LinesPaid(items, items2, payment)
    ensures TotalIdr(items2) == TotalIdr(items)
  {
    SumAtSame(items, AllRows(items), items2, AllRows(items2));
  }

  /** One more line on an order, one more sum in the books. */
  lemma LineAgrees(t: Tables, t2: Tables, k: Books, k2: Books, o: OrderId, price: nat, gig: Option<GigId>)
    requires Agree(t, k)
    requires t2.items == t.items[o := Items(t, o) + [Item(price, gig, None)]]
    requires k2.totals == k.totals[o := k.TotalOf(o) + price]
    ensures forall x: OrderId :: TotalIdr(Items(t2, x)) == k2.TotalOf(x)
  {
    hide TotalIdr;
    TotalOfMore(Items(t, o), Item(price, gig, None));
    forall x: OrderId ensures TotalIdr(Items(t2, x)) == k2.TotalOf(x) {
      if x != o {
        assert Items(t2, x) == Items(t, x) && k2.TotalOf(x) == k.TotalOf(x);
      }
    }
  }

  lemma OrderEntryAgrees(pf: Profiles, op: Op, now: Time, t: Tables, t2: Tables, k: Books)
    requires op.PlaceOrder? || op.AddItem?
    requires Agree(t, k) && Means(pf, op, now, t, Done, t2)
    ensures Agree(t2, Enter(pf, k, op))
  {
    hide Agree, AboutGig;
    match op
    case PlaceOrder(_, _, price, quantity, gig, o) =>
      var cost := if gig == None && quantity >= 1 then price * quantity else price;
      LineOnly(t, t2, k, o, cost, gig);
    case AddItem(_, o, gig, price) => LineOnly(t, t2, k, o, price, gig);
  }

  lemma LineOnly(t: Tables, t2: Tables, k: Books, o: OrderId, price: nat, gig: Option<GigId>)
    requires Agree(t, k)
    requires t2.items == t.items[o := Items(t, o) + [Item(price, gig, None)]] && t2.bids == t.bids && t2.offers == t.offers
    ensures Agree(t2, k.Add(o, price))
  {
    hide TotalIdr;
    LineAgrees(t, t2, k, k.Add(o, price), o, price, gig);
  }

  lemma PayAgrees(t: Tables, u: UserId, o: OrderId, t2: Tables, k: Books)
    requires Agree(t, k) && PayMeans(t, u, o, Done, t2)
    ensures Agree(t2, k)
  {
    hide TotalIdr, OutstandingIdr, LinesPaid;
    TotalOfPaid(Items(t, o), Items(t2, o), |Payments(t, o)|);
    forall x: OrderId ensures TotalIdr(Items(t2, x)) == k.TotalOf(x) {
      assert x != o ==> Items(t2, x) == Items(t, x);
    }
  }

  lemma QuietAgrees(pf: Profiles, op: Op, now: Time, t: Tables, t2: Tables, k: Books)
    requires op.Complete? || op.Confirm? || op.AutoConfirm? || op.ConfirmBid?
    requires Agree(t, k) && Means(pf, op, now, t, Done, t2)
    ensures Agree(t2, Enter(pf, k, op))
  {
    hide Agree, OutstandingIdr, PaidIdr, OnlyReads;
    if op.ConfirmBid? {
      BookedBid(t, k, op.bid);
      PostAgrees(t, t2, k, op.bid, t2.bids[op.bid]);
      assert k.budgets[op.bid := k.budgets[op.bid]] == k.budgets && k.fees[op.bid := k.fees[op.bid]] == k.fees;
    } else {
      SameAgrees(t, t2, k);
    }
  }

  lemma SameAgrees(t: Tables, t2: Tables, k: Books)
    requires Agree(t, k) && t2.items == t.items && t2.bids == t.bids && t2.offers == t.offers
    ensures Agree(t2, k)
  {
    hide TotalIdr;
    assert forall o: OrderId :: Items(t2, o) == Items(t, o);
  }

  lemma PostAgrees(t: Tables, t2: Tables, k: Books, b: BidId, row: Bid)
    requires Agree(t, k)
    requires t2.bids == t.bids[b := row] && t2.offers == t.offers && t2.items == t.items
    ensures Agree(t2, k.Post(b, row.budget, row.fee))
  {
    hide TotalIdr;
    assert forall o: OrderId :: Items(t2, o) == Items(t, o);
  }

  lemma OfferAgrees(t: Tables, t2: Tables, k: Books, key: OfferKey, amount: nat)
    requires Agree(t, k)
    requires t2 == t.(offers := t.offers[key := Offer(amount, Pending)])
    ensures Agree(t2, k.(offers := k.offers[key := amount]))
  {
    hide TotalIdr;
    assert forall o: OrderId :: Items(t2, o) == Items(t, o);
  }

  lemma PostEntryAgrees(pf: Profiles, op: Op, now: Time, t: Tables, t2: Tables, k: Books)
    requires op.PostManual? || op.PostAuto?
    requires Agree(t, k) && Means(pf, op, now, t, Done, t2)
    ensures Agree(t2, Enter(pf, k, op))
  {
    hide Agree, Entries;
    var row := if op.PostManual? then Bid(Manual, Open, op.user, None, op.budget, 0)
               else if op.match_.Some? then Bid(Auto, Proposed, op.user, op.match_, op.budget, op.fee)
               else Bid(Auto, NoMatch, op.user, None, op.budget, 0);
    PostAgrees(t, t2, k, op.bid, row);
  }

  lemma BidEntryAgrees(pf: Profiles, op: Op, now: Time, t: Tables, t2: Tables, k: Books)
    requires op.PostManual? || op.PostAuto? || op.PlaceOffer?
    requires Agree(t, k) && Means(pf, op, now, t, Done, t2)
    ensures Agree(t2, Enter(pf, k, op))
  {
    hide Agree, PostManualMeans, PostAutoMeans;
    if op.PlaceOffer? {
      OfferAgrees(t, t2, k, OfferKey(op.bid, pf.lapakOf[op.user]), op.amount);
    } else {
      PostEntryAgrees(pf, op, now, t, t2, k);
    }
  }

  lemma TrackAgrees(t: Tables, t2: Tables, k: Books, o: OrderId, price: nat, b: BidId, row: Bid)
    requires Agree(t, k) && b in t.bids && row.budget == t.bids[b].budget
    requires t2.items == t.items[o := Items(t, o) + [Item(price, None, None)]] && t2.bids == t.bids[b := row]
    requires t2.offers.Keys == t.offers.Keys && forall key :: key in t.offers ==> t2.offers[key].amount == t.offers[key].amount
    ensures Agree(t2, k.Add(o, price).(fees := k.fees[b := row.fee]))
  {
    hide TotalIdr;
    LineAgrees(t, t2, k, k.Add(o, price).(fees := k.fees[b := row.fee]), o, price, None);
  }

  lemma TrackEntryAgrees(pf: Profiles, op: Op, now: Time, t: Tables, t2: Tables, k: Books)
    requires op.AcceptBid? || op.Award?
    requires Agree(t, k) && Means(pf, op, now, t, Done, t2)
    ensures Agree(t2, Enter(pf, k, op))
  {
    hide Agree, OnlyReads;
    match op
    case AcceptBid(_, b, o) =>
      BookedBid(t, k, b);
      TrackAgrees(t, t2, k, o, t.bids[b].budget, b, t2.bids[b]);
      assert k.fees[b := k.fees[b]] == k.fees;
    case Award(_, b, l, _, o) =>
      BookedOffer(t, k, OfferKey(b, l));
      TrackAgrees(t, t2, k, o, t.offers[OfferKey(b, l)].amount, b, t2.bids[b]);
  }

  lemma BookedBid(t: Tables, k: Books, b: BidId)
    requires Agree(t, k) && b in t.bids
    ensures b in k.budgets && b in k.fees && t.bids[b].budget == k.budgets[b] && t.bids[b].fee == k.fees[b]
  {}

  lemma BookedOffer(t: Tables, k: Books, key: OfferKey)
    requires Agree(t, k) && key in t.offers
    ensures key in k.offers && t.offers[key].amount == k.offers[key]
  {}

  /** A request that succeeds changes the tables as it changes the books. */
  lemma EntryAgrees(pf: Profiles, op: Op, now: Time, t: Tables, t2: Tables, k: Books)
    requires Agree(t, k) && Means(pf, op, now, t, Done, t2)
    ensures Agree(t2, Enter(pf, k, op))
  {
    if op.PlaceOrder? || op.AddItem? {
      OrderEntryAgrees(pf, op, now, t, t2, k);
    } else if op.Pay? {
      PayAgrees(t, op.user, op.order, t2, k);
    } else if op.PostManual? || op.PostAuto? || op.PlaceOffer? {
      BidEntryAgrees(pf, op, now, t, t2, k);
    } else if op.AcceptBid? || op.Award? {
      TrackEntryAgrees(pf, op, now, t, t2, k);
    } else {
      QuietAgrees(pf, op, now, t, t2, k);
    }
  }

  lemma {:induction false} OrderIsKnown(pf: Profiles, t: Tables, txs: map<Tid, Tx>, order: seq<Tid>, t2: Tables)
    requires Follows(pf, t, txs, order, t2)
    ensures forall i :: 0 <= i < |order| ==> order[i] in txs
    decreases |order|
  {
    if order != [] {
      var next :| Means(pf, txs[order[0]].op, txs[order[0]].start, t, Done, next) && Follows(pf, next, txs, order[1..], t2);
      OrderIsKnown(pf, next, txs, order[1..], t2);
    }
  }

  /** The books kept of the requests alone agree with the tables they lead to. */
  lemma {:induction false} BooksAgree(pf: Profiles, t: Tables, k: Books, txs: map<Tid, Tx>, order: seq<Tid>, t2: Tables)
    requires Agree(t, k) && Follows(pf, t, txs, order, t2)
    ensures forall i :: 0 <= i < |order| ==> order[i] in txs
    ensures Agree(t2, EnterAll(pf, k, txs, order))
    decreases |order|
  {
    hide Means, Agree, Enter;
    OrderIsKnown(pf, t, txs, order, t2);
    if order != [] {
      var op, start := txs[order[0]].op, txs[order[0]].start;
      var next :| Means(pf, op, start, t, Done, next) && Follows(pf, next, txs, order[1..], t2);
      EntryAgrees(pf, op, start, t, next, k);
      BooksAgree(pf, next, Enter(pf, k, op), txs, order[1..], t2);
    }
  }
}
