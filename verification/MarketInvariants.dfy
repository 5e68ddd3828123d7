/** The table invariants: what holds of the committed marketplace tables at any
    moment of any run. */
module MarketInvariants {
  import opened Common
  import opened MarketTables
  import opened MarketDecisions

  // ----- Wallets and the ledger -----

  function Opening(open: map<UserId, nat>, u: UserId): int {
    if u in open then open[u] else 0
  }

  function BalanceBefore(start: int, es: seq<Entry>, i: nat): int
    requires i <= |es|
  {
    if i == 0 then start else es[i - 1].after
  }

  /** Each row continues from the balance the row before it left, none is zero
      and no balance is negative. */
  ghost predicate Chained(start: int, es: seq<Entry>) {
    forall i :: 0 <= i < |es| ==>
      es[i].amount != 0 && es[i].after == BalanceBefore(start, es, i) + es[i].amount && es[i].after >= 0
  }

  /** Replaying the user's ledger from the opening balance gives the wallet. */
  ghost predicate UserOk(open: map<UserId, nat>, t: Tables, u: UserId) {
    && Chained(Opening(open, u), Entries(t, u))
    && Balance(t, u) == BalanceBefore(Opening(open, u), Entries(t, u), |Entries(t, u)|)
    && Balance(t, u) >= 0
  }

  /** The amounts of the rows of one kind about one subject, in ledger order. */
  function Amounts(es: seq<Entry>, kind: EntryKind, about: Subject): seq<int> {
    if es == [] then []
    else
      var last := |es| - 1;
      Amounts(es[..last], kind, about)
      + if es[last].kind == kind && es[last].subject == about then [es[last].amount] else []
  }

  /** The sum of all amounts about one subject. */
  function Net(es: seq<Entry>, about: Subject): int {
    if es == [] then 0
    else
      var last := |es| - 1;
      Net(es[..last], about) + if es[last].subject == about then es[last].amount else 0
  }

  function Negated(amounts: seq<nat>): seq<int> {
    if amounts == [] then []
    else
      var last := |amounts| - 1;
      Negated(amounts[..last]) + [-(amounts[last] as int)]
  }

  // ----- Orders -----

  /** The user's charges for the order are its payments, if it is the user's. */
  ghost predicate ChargesOk(t: Tables, u: UserId, o: OrderId) {
    Amounts(Entries(t, u), OrderPayment, ForOrder(o))
    == if o in t.orders && t.orders[o].customer == u then Negated(Payments(t, o)) else []
  }

  /** One payout of the order's total, to the user behind its lapak, exactly when completed. */
  ghost predicate PayoutOk(pf: Profiles, t: Tables, u: UserId, o: OrderId) {
    Amounts(Entries(t, u), Payout, ForOrder(o))
    == if o in t.orders && t.orders[o].status == Completed && t.orders[o].lapak in pf.userOf && pf.userOf[t.orders[o].lapak] == u
       then [TotalIdr(Items(t, o)) as int] else []
  }

  /** The paid rows are partitioned by the payments, and each payment amounts to
      the rows that point at it. */
  ghost predicate PaymentsOk(items: seq<Item>, payments: seq<nat>) {
    && (forall i :: 0 <= i < |items| && items[i].payment.Some? ==> items[i].payment.value < |payments|)
    && (forall k :: 0 <= k < |payments| ==> payments[k] > 0 && payments[k] == SumAt(items, RowsOf(items, k)))
  }

  ghost predicate OrderOk(pf: Profiles, t: Tables, o: OrderId)
    requires o in t.orders
  {
    var row, items, payments := t.orders[o], Items(t, o), Payments(t, o);
    && !pf.IsLapak(row.customer) && row.lapak in pf.userOf
    && items != [] && (forall i :: 0 <= i < |items| ==> items[i].gig == items[0].gig)
    && PaymentsOk(items, payments)
    && row.status != Cancelled
    && (row.status == PendingPayment <==> payments == [])
    && (row.status != PendingPayment ==> o in t.threads)
    && (row.status in {AwaitingConfirmation, Completed} ==> OutstandingIdr(items) == 0)
    && (row.deadline.Some? <==> row.status in {AwaitingConfirmation, Completed})
    && (row.completedAt.Some? <==> row.status == Completed)
    && (row.autoConfirmed ==> row.status == Completed && row.deadline.value <= row.completedAt.value)
    && (row.bid.Some? <==> row.source in {FromAutoBid, FromManualBid})
    && (row.bid.Some? ==> TrackedOk(t, o, row.bid.value))
  }

  /** An order that tracks bid b: a settled bid of the same customer, one line,
      at the budget or at the awarded offer. */
  ghost predicate TrackedOk(t: Tables, o: OrderId, b: BidId)
    requires o in t.orders
  {
    var row, items := t.orders[o], Items(t, o);
    && b in t.bids && t.bids[b].customer == row.customer
    && |items| == 1 && items[0].gig == None
    && o in t.threads
    && match t.bids[b].status
       case Accepted => row.source == FromAutoBid && t.bids[b].matched == Some(row.lapak) && items[0].subtotal == t.bids[b].budget
       case Awarded =>
         && row.source == FromManualBid
         && OfferKey(b, row.lapak) in t.offers
         && t.offers[OfferKey(b, row.lapak)] == Offer(items[0].subtotal, OfferAwarded)
       case _ => false
  }

  // ----- Bids -----

  predicate Settled(row: Bid) {
    row.status == Accepted || row.status == Awarded
  }

  ghost predicate Tracks(t: Tables, o: OrderId, b: BidId) {
    o in t.orders && t.orders[o].bid == Some(b)
  }

  ghost predicate BidOk(pf: Profiles, t: Tables, b: BidId)
    requires b in t.bids
  {
    var row := t.bids[b];
    && !pf.IsLapak(row.customer)
    && (row.mode == Manual <==> row.status in {Open, Awarded})
    && row.status != BidCancelled
    && (row.matched.Some? <==> row.status in {Proposed, CustomerConfirmed, Accepted})
    && (row.matched.Some? ==> row.matched.value in pf.userOf)
    && (row.fee == 0 <==> row.status in {NoMatch, Open})
    && (Settled(row) ==> exists o :: Tracks(t, o, b))
  }

  ghost predicate OfferOk(pf: Profiles, t: Tables, key: OfferKey)
    requires key in t.offers
  {
    && key.bid in t.bids && t.bids[key.bid].mode == Manual
    && key.lapak in pf.userOf
    && (t.offers[key].status == Pending || t.offers[key].status == OfferAwarded)
    && (t.offers[key].status == OfferAwarded ==>
      && t.bids[key.bid].status == Awarded
      && forall o :: Tracks(t, o, key.bid) ==> t.orders[o].lapak == key.lapak)
  }

  /** What the ledger says about a bid is the fee it claims was paid. */
  ghost predicate FeeOk(t: Tables, u: UserId, b: BidId) {
    Net(Entries(t, u), ForBid(b)) == if b in t.bids && t.bids[b].customer == u then -(t.bids[b].fee as int) else 0
  }

  // ----- Money -----

  /** Money taken from customers and not yet paid out, per order. */
  ghost function Held(t: Tables): map<nat, int> {
    map o | o in t.orders :: if t.orders[o].status == Completed then 0 else PaidIdr(Items(t, o)) as int
  }

  ghost function Fees(t: Tables): map<nat, int> {
    map b | b in t.bids :: t.bids[b].fee as int
  }

  ghost function Money(t: Tables): int {
    Total(t.wallets) + Total(Held(t)) + Total(Fees(t))
  }

  // ----- All of it -----

  ghost predicate UsersOk(open: map<UserId, nat>, t: Tables) {
    forall u: UserId :: UserOk(open, t, u)
  }

  ghost predicate LedgerOk(pf: Profiles, t: Tables) {
    && (forall u: UserId, o: OrderId :: ChargesOk(t, u, o))
    && (forall u: UserId, o: OrderId :: PayoutOk(pf, t, u, o))
    && (forall u: UserId, b: BidId :: FeeOk(t, u, b))
  }

  ghost predicate OrdersOk(pf: Profiles, t: Tables) {
    forall o :: o in t.orders ==> OrderOk(pf, t, o)
  }

  ghost predicate BidsOk(pf: Profiles, t: Tables) {
    && (forall b :: b in t.bids ==> BidOk(pf, t, b))
    && (forall key :: key in t.offers ==> OfferOk(pf, t, key))
    && (forall o1, o2, b :: Tracks(t, o1, b) && Tracks(t, o2, b) ==> o1 == o2)
  }

  ghost predicate Inv(pf: Profiles, open: map<UserId, nat>, t: Tables) {
    && pf.Valid()
    && UsersOk(open, t)
    && LedgerOk(pf, t)
    && OrdersOk(pf, t)
    && BidsOk(pf, t)
    && Money(t) == Total(open)
    && (forall o :: o in t.items || o in t.payments ==> o in t.orders)
  }

  // ----- The empty market -----

  function EmptyMarket(open: map<UserId, nat>): Tables {
    Tables(open, map[], map[], map[], map[], map[], map[], {})
  }

  lemma EmptyMarketOk(pf: Profiles, open: map<UserId, nat>)
    requires pf.Valid()
    ensures Inv(pf, open, EmptyMarket(open))
  {
    var t := EmptyMarket(open);
    assert Held(t) == map[] && Fees(t) == map[];
    assert t.wallets == open;
  }

  // ----- Appending a ledger row -----

  lemma AmountsSnoc(es: seq<Entry>, e: Entry, kind: EntryKind, about: Subject)
    ensures Amounts(es + [e], kind, about)
         == if e.kind == kind && e.subject == about then Amounts(es, kind, about) + [e.amount] else Amounts(es, kind, about)
  {
    assert (es + [e])[..|es|] == es;
    assert Amounts(es, kind, about) + [] == Amounts(es, kind, about);
  }

  lemma NetSnoc(es: seq<Entry>, e: Entry, about: Subject)
    ensures Net(es + [e], about) == Net(es, about) + if e.subject == about then e.amount else 0
  {
    assert (es + [e])[..|es|] == es;
  }
}
