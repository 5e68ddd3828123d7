/** What each marketplace transaction does when it runs alone: it refuses, finds
    nothing to do, or leaves a list of row writes. */
module MarketDecisions {
  import opened Common
  import opened MarketTables

  /** A request. Values the transaction reads from the catalog, the configuration
      or the matching query, and the uuids it draws, are carried along; a tier the
      catalog does not know has no gig. */
  datatype Op =
    | PlaceOrder(user: UserId, lapak: LapakId, price: nat, quantity: int, gig: Option<GigId>, order: OrderId)
    | Pay(user: UserId, order: OrderId)
    | AddItem(user: UserId, order: OrderId, tierGig: Option<GigId>, price: nat)
    | Complete(user: UserId, order: OrderId, seconds: nat)
    | Confirm(user: UserId, order: OrderId)
    | AutoConfirm(order: OrderId)
    | PostManual(user: UserId, budget: nat, bid: BidId)
    | PostAuto(user: UserId, budget: nat, fee: nat, match_: Option<LapakId>, bid: BidId)
    | ConfirmBid(user: UserId, bid: BidId)
    | AcceptBid(user: UserId, bid: BidId, order: OrderId)
    | PlaceOffer(user: UserId, bid: BidId, amount: nat)
    | Award(user: UserId, bid: BidId, offerer: LapakId, fee: nat, order: OrderId)

  datatype Error =
    | LapakCannotBuy | ProductNotFound | CategoryNotFound | NotLapak | NotFound | NotYours | NotMatchedLapak
    | NothingOutstanding | InsufficientBalance | ItemsChanged
    | NotAcceptingItems | TierNotFound | DifferentGig | OrderNotPaid | OutstandingItems
    | NotAwaitingConfirmation | OrderChanged | WrongBidStatus | BidChanged | OfferNotFound
    | ZeroLedgerAmount | NoWalletRow

  datatype Decision = Refuse(error: Error) | Nothing | Commit(log: seq<RowWrite>)

  /** What the caller hears. */
  datatype Reply = Done | Refused(error: Error)

  function Answer(d: Decision): Reply {
    match d
    case Refuse(e) => Refused(e)
    case Nothing => Done
    case Commit(_) => Done
  }

  /** The order id the request will insert, if any. */
  function NewOrder(op: Op): Option<OrderId> {
    match op
    case PlaceOrder(_, _, _, _, _, o) => Some(o)
    case AcceptBid(_, _, o) => Some(o)
    case Award(_, _, _, _, o) => Some(o)
    case _ => None
  }

  function NewBid(op: Op): Option<BidId> {
    match op
    case PostManual(_, _, b) => Some(b)
    case PostAuto(_, _, _, _, b) => Some(b)
    case _ => None
  }

  /** Lapaks named by the catalog and by the matching query have a profile. */
  predicate WellFormed(pf: Profiles, op: Op) {
    && (op.PlaceOrder? ==> op.lapak in pf.userOf)
    && (op.PostAuto? && op.match_.Some? ==> op.match_.value in pf.userOf)
  }

  /** uuids are new. */
  predicate Fresh(t: Tables, op: Op) {
    && (NewOrder(op).Some? ==> NewOrder(op).value !in t.orders && NewOrder(op).value !in t.items && NewOrder(op).value !in t.payments)
    && (NewBid(op).Some? ==> NewBid(op).value !in t.bids)
  }

  // ----- Rows -----

  function NewOrderRow(source: Source, customer: UserId, lapak: LapakId, bid: Option<BidId>): Order {
    Order(source, PendingPayment, customer, lapak, bid, None, false, None)
  }

  /** A gig tier is one piece of work; a product's quantity is at least one. */
  function Quantity(gig: Option<GigId>, quantity: int): nat {
    if gig.Some? || quantity < 1 then 1 else quantity
  }

  function FirstItem(price: nat, quantity: int, gig: Option<GigId>): Item {
    Item(price * Quantity(gig, quantity), gig, None)
  }

  function ChargeEntry(o: OrderId, amount: nat, after: int): Entry {
    Entry(OrderPayment, -(amount as int), after, ForOrder(o))
  }

  function PayoutEntry(o: OrderId, amount: nat, after: int): Entry {
    Entry(Payout, amount, after, ForOrder(o))
  }

  function FeeEntry(b: BidId, fee: nat, after: int): Entry {
    Entry(PlatformFee, -(fee as int), after, ForBid(b))
  }

  function RefundEntry(b: BidId, fee: nat, after: int): Entry {
    Entry(Refund, fee, after, ForBid(b))
  }

  function AutoBid(user: UserId, budget: nat, fee: nat): Bid {
    Bid(Auto, NoMatch, user, None, budget, fee)
  }

  // ----- Logs -----

  /** A charge: what a payment of the given rows leaves behind. */
  function PayLog(row: Order, user: UserId, o: OrderId, rows: set<nat>, amount: nat, balance: int, k: nat): seq<RowWrite> {
    [InsertPayment(o, amount), SetWallet(user, balance - amount), AppendEntry(user, ChargeEntry(o, amount, balance - amount)),
     MarkItems(o, rows, k)]
    + (if row.status == PendingPayment then [PutOrder(o, row.(status := Paid))] else [])
    + [OpenThread(o)]
  }

  function AwaitingRow(row: Order, deadline: Time): Order {
    row.(status := AwaitingConfirmation, deadline := Some(deadline))
  }

  function CompletedRow(row: Order, auto: bool, now: Time): Order {
    row.(status := Completed, autoConfirmed := auto, completedAt := Some(now))
  }

  function PayoutLog(row: Order, lapakUser: UserId, o: OrderId, amount: nat, balance: int, auto: bool, now: Time): seq<RowWrite> {
    (if amount > 0
     then [SetWallet(lapakUser, balance + amount), AppendEntry(lapakUser, PayoutEntry(o, amount, balance + amount))]
     else [])
    + [PutOrder(o, CompletedRow(row, auto, now))]
  }

  function MatchedLog(user: UserId, b: BidId, budget: nat, fee: nat, balance: int, lapak: LapakId): seq<RowWrite> {
    [PutBid(b, AutoBid(user, budget, fee)), SetWallet(user, balance - fee), AppendEntry(user, FeeEntry(b, fee, balance - fee)),
     PutBid(b, AutoBid(user, budget, fee).(status := Proposed, matched := Some(lapak)))]
  }

  function UnmatchedLog(user: UserId, b: BidId, budget: nat, fee: nat, balance: int): seq<RowWrite> {
    [PutBid(b, AutoBid(user, budget, fee)), SetWallet(user, balance - fee), AppendEntry(user, FeeEntry(b, fee, balance - fee)),
     SetWallet(user, balance), AppendEntry(user, RefundEntry(b, fee, balance)), PutBid(b, AutoBid(user, budget, 0))]
  }

  function AcceptLog(row: Bid, lapak: LapakId, b: BidId, o: OrderId): seq<RowWrite> {
    [PutOrder(o, NewOrderRow(FromAutoBid, row.customer, lapak, Some(b))), InsertItem(o, Item(row.budget, None, None)),
     OpenThread(o), PutBid(b, row.(status := Accepted))]
  }

  function AwardLog(row: Bid, user: UserId, key: OfferKey, offer: Offer, fee: nat, balance: int, o: OrderId): seq<RowWrite> {
    [SetWallet(user, balance - fee), AppendEntry(user, FeeEntry(key.bid, fee, balance - fee)),
     PutOffer(key, offer.(status := OfferAwarded)),
     PutOrder(o, NewOrderRow(FromManualBid, user, key.lapak, Some(key.bid))), InsertItem(o, Item(offer.amount, None, None)),
     OpenThread(o), PutBid(key.bid, row.(status := Awarded)), PutBid(key.bid, row.(status := Awarded, fee := fee))]
  }

  // ----- Decisions -----

  /** What a caller who does not own an order is told: that the action is not theirs
      when they are its other side, and otherwise that there is no such order. */
  function OrderDenied(pf: Profiles, t: Tables, u: UserId, o: OrderId): Error {
    if o in t.orders && (t.orders[o].customer == u || (pf.IsLapak(u) && t.orders[o].lapak == pf.lapakOf[u])) then NotYours
    else NotFound
  }

  /** Who may read a bid: its customer, the lapak it matched, any lapak while it is
      open to offers, and every lapak with an offer on it. */
  predicate SeesBid(pf: Profiles, t: Tables, u: UserId, b: BidId) {
    && b in t.bids
    && (t.bids[b].customer == u
        || (pf.IsLapak(u)
            && (t.bids[b].matched == Some(pf.lapakOf[u])
                || (t.bids[b].mode == Manual && t.bids[b].status == Open)
                || OfferKey(b, pf.lapakOf[u]) in t.offers)))
  }

  function BidDenied(pf: Profiles, t: Tables, u: UserId, b: BidId): Error {
    if SeesBid(pf, t, u, b) then NotYours else NotFound
  }

  function DecidePay(t: Tables, u: UserId, o: OrderId): Decision {
    if o !in t.orders || t.orders[o].customer != u then Refuse(NotFound)
    else
      var rows := UnpaidRows(Items(t, o));
      var amount := OutstandingIdr(Items(t, o));
      if amount <= 0 then Refuse(NothingOutstanding)
      else if Balance(t, u) < amount then Refuse(InsufficientBalance)
      else Commit(PayLog(t.orders[o], u, o, rows, amount, Balance(t, u), |Payments(t, o)|))
  }

  function DecideAddItem(pf: Profiles, t: Tables, u: UserId, o: OrderId, gig: Option<GigId>, price: nat): Decision {
    if o !in t.orders || t.orders[o].customer != u then Refuse(OrderDenied(pf, t, u, o))
    else if t.orders[o].status != Paid then Refuse(NotAcceptingItems)
    else if gig == None then Refuse(TierNotFound)
    else if OrderGig(Items(t, o)) != gig then Refuse(DifferentGig)
    else Commit([InsertItem(o, Item(price, gig, None))])
  }

  function DecideComplete(pf: Profiles, t: Tables, now: Time, u: UserId, o: OrderId, seconds: nat): Decision {
    if !pf.IsLapak(u) || o !in t.orders || t.orders[o].lapak != pf.lapakOf[u] then Refuse(OrderDenied(pf, t, u, o))
    else if t.orders[o].status != Paid then Refuse(OrderNotPaid)
    else if OutstandingIdr(Items(t, o)) > 0 then Refuse(OutstandingItems)
    else Commit([PutOrder(o, AwaitingRow(t.orders[o], now + seconds))])
  }

  /** The payout transaction, shared by the customer's confirm and the sweeper. */
  function DecidePayout(pf: Profiles, t: Tables, now: Time, o: OrderId, auto: bool): Decision {
    if o !in t.orders || t.orders[o].lapak !in pf.userOf then Refuse(NotFound)
    else if t.orders[o].status == Completed then Nothing
    else if t.orders[o].status != AwaitingConfirmation then Refuse(NotAwaitingConfirmation)
    else
      var v := pf.userOf[t.orders[o].lapak];
      Commit(PayoutLog(t.orders[o], v, o, PaidIdr(Items(t, o)), Balance(t, v), auto, now))
  }

  function DecidePostAuto(pf: Profiles, t: Tables, u: UserId, budget: nat, fee: nat, match_: Option<LapakId>, b: BidId): Decision {
    if pf.IsLapak(u) then Refuse(LapakCannotBuy)
    else if Balance(t, u) < fee then Refuse(InsufficientBalance)
    else if u !in t.wallets then Refuse(NoWalletRow)
    else if fee == 0 then Refuse(ZeroLedgerAmount)
    else match match_
      case Some(l) => Commit(MatchedLog(u, b, budget, fee, t.wallets[u], l))
      case None => Commit(UnmatchedLog(u, b, budget, fee, t.wallets[u]))
  }

  function DecideAccept(pf: Profiles, t: Tables, u: UserId, b: BidId, o: OrderId): Decision {
    if b !in t.bids then Refuse(NotFound)
    else if !pf.IsLapak(u) || t.bids[b].matched != Some(pf.lapakOf[u]) then
      if pf.IsLapak(u) || t.bids[b].customer == u then Refuse(NotMatchedLapak) else Refuse(NotFound)
    else if t.bids[b].status != CustomerConfirmed then Refuse(WrongBidStatus)
    else Commit(AcceptLog(t.bids[b], pf.lapakOf[u], b, o))
  }

  function DecideOffer(pf: Profiles, t: Tables, u: UserId, b: BidId, amount: nat): Decision {
    if !pf.IsLapak(u) then Refuse(NotLapak)
    else if b !in t.bids then Refuse(NotFound)
    else if t.bids[b].mode != Manual || t.bids[b].status != Open then Refuse(WrongBidStatus)
    else Commit([PutOffer(OfferKey(b, pf.lapakOf[u]), Offer(amount, Pending))])
  }

  function DecideAward(pf: Profiles, t: Tables, u: UserId, key: OfferKey, fee: nat, o: OrderId): Decision {
    var b := key.bid;
    if b !in t.bids then Refuse(NotFound)
    else if t.bids[b].customer != u then Refuse(BidDenied(pf, t, u, b))
    else if t.bids[b].mode != Manual || t.bids[b].status != Open then Refuse(WrongBidStatus)
    else if key !in t.offers then Refuse(OfferNotFound)
    else if Balance(t, u) < fee then Refuse(InsufficientBalance)
    else if u !in t.wallets then Refuse(NoWalletRow)
    else if fee == 0 then Refuse(ZeroLedgerAmount)
    else if t.offers[key].status != Pending then Refuse(WrongBidStatus)
    else Commit(AwardLog(t.bids[b], u, key, t.offers[key], fee, t.wallets[u], o))
  }

  function DecideConfirmBid(pf: Profiles, t: Tables, u: UserId, b: BidId): Decision {
    if b !in t.bids then Refuse(NotFound)
    else if t.bids[b].customer != u then Refuse(BidDenied(pf, t, u, b))
    else if t.bids[b].status != Proposed then Refuse(WrongBidStatus)
    else Commit([PutBid(b, t.bids[b].(status := CustomerConfirmed))])
  }

  function Decide(pf: Profiles, op: Op, now: Time, t: Tables): Decision {
    match op
    case PlaceOrder(u, l, price, quantity, gig, o) =>
      if pf.IsLapak(u) then Refuse(LapakCannotBuy)
      else Commit([PutOrder(o, NewOrderRow(if gig.Some? then FromGig else FromProduct, u, l, None)),
                   InsertItem(o, FirstItem(price, quantity, gig))])
    case Pay(u, o) => DecidePay(t, u, o)
    case AddItem(u, o, gig, price) => DecideAddItem(pf, t, u, o, gig, price)
    case Complete(u, o, seconds) => DecideComplete(pf, t, now, u, o, seconds)
    case Confirm(u, o) =>
      if o !in t.orders || t.orders[o].customer != u then Refuse(OrderDenied(pf, t, u, o))
      else DecidePayout(pf, t, now, o, false)
    case AutoConfirm(o) => DecidePayout(pf, t, now, o, true)
    case PostManual(u, budget, b) =>
      if pf.IsLapak(u) then Refuse(LapakCannotBuy)
      else Commit([PutBid(b, Bid(Manual, Open, u, None, budget, 0))])
    case PostAuto(u, budget, fee, m, b) => DecidePostAuto(pf, t, u, budget, fee, m, b)
    case ConfirmBid(u, b) => DecideConfirmBid(pf, t, u, b)
    case AcceptBid(u, b, o) => DecideAccept(pf, t, u, b, o)
    case PlaceOffer(u, b, amount) => DecideOffer(pf, t, u, b, amount)
    case Award(u, b, l, fee, o) => DecideAward(pf, t, u, OfferKey(b, l), fee, o)
  }

  /** The tables after the transaction has run alone. */
  function After(pf: Profiles, op: Op, now: Time, t: Tables): Tables {
    match Decide(pf, op, now, t)
    case Commit(log) => InstallAll(t, log)
    case _ => t
  }
}
