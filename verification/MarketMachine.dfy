/** The marketplace under concurrency: every request is a transaction that runs
    statement by statement beside all the others.

    A statement sees the committed rows with the transaction's own writes on top.
    A row lock is held until the transaction commits or rolls back; a statement
    that needs a lock another transaction holds waits. A rollback, which may strike
    at any point, discards the transaction's writes. */
module MarketMachine {
  import opened Common
  import opened MarketTables
  import opened MarketDecisions

  type Tid = nat

  datatype Lock = WalletLock(user: UserId) | OrderLock(order: OrderId) | BidLock(bid: BidId)

  datatype Phase = Running | Committed | RolledBack

  /** A transaction: its next statement, its writes so far, and the values its
      earlier statements returned. */
  datatype Tx = Tx(
    op: Op,
    start: Time,
    phase: Phase,
    pc: nat,
    log: seq<RowWrite>,
    balance: int,
    after: int,
    amount: nat,
    rows: set<nat>,
    payment: nat,
    status: OrderStatus,
    gig: Option<GigId>,
    bidRow: Bid,
    offer: Offer)
  {
    function Goto(next: nat): Tx {
      this.(pc := next)
    }

    function Wrote(x: RowWrite, next: nat): Tx {
      this.(log := log + [x], pc := next)
    }
  }

  function NewTx(op: Op, now: Time): Tx {
    Tx(op, now, Running, 0, [], 0, 0, 0, {}, 0, PendingPayment, None, Bid(Manual, Open, 0, None, 0, 0), Offer(0, Pending))
  }

  /** What the next statement does: run once it holds a lock, run at once, refuse,
      end without a change, or commit. */
  datatype Action = Acquire(lock: Lock, next: Tx) | Continue(next: Tx) | Fail(error: Error) | NoChange | Finish

  // ----- The statements of each transaction -----

  function NextPlaceOrder(pf: Profiles, tx: Tx): Action
    requires tx.op.PlaceOrder?
  {
    var op := tx.op;
    match tx.pc
    case 0 => if pf.IsLapak(op.user) then Fail(LapakCannotBuy) else Continue(tx.Goto(1))
    case 1 => Continue(tx.Wrote(PutOrder(op.order, NewOrderRow(if op.gig.Some? then FromGig else FromProduct, op.user, op.lapak, None)), 2))
    case 2 => Continue(tx.Wrote(InsertItem(op.order, FirstItem(op.price, op.quantity, op.gig)), 3))
    case _ => Finish
  }

  function NextPay(t: Tables, tx: Tx, u: UserId, o: OrderId): Action {
    var v := InstallAll(t, tx.log);
    match tx.pc
    case 0 => if o !in v.orders || v.orders[o].customer != u then Fail(NotFound) else Continue(tx.Goto(1))
    case 1 =>
      if u in v.wallets then Acquire(WalletLock(u), tx.(balance := v.wallets[u], pc := 2))
      else Continue(tx.(balance := 0, pc := 2))
    case 2 =>
      var amount := OutstandingIdr(Items(v, o));
      if amount <= 0 then Fail(NothingOutstanding)
      else if tx.balance < amount then Fail(InsufficientBalance)
      else Continue(tx.(amount := amount, rows := UnpaidRows(Items(v, o)), pc := 3))
    case 3 => Continue(tx.Wrote(InsertPayment(o, tx.amount), 4).(payment := |Payments(v, o)|))
    case 4 =>
      if u in v.wallets
      then Acquire(WalletLock(u), tx.Wrote(SetWallet(u, v.wallets[u] - tx.amount), 5).(after := v.wallets[u] - tx.amount))
      else Fail(NoWalletRow)
    case 5 => if tx.amount == 0 then Fail(ZeroLedgerAmount) else Continue(tx.Wrote(AppendEntry(u, ChargeEntry(o, tx.amount, tx.after)), 6))
    case 6 =>
      if |tx.rows * UnpaidRows(Items(v, o))| != |tx.rows| then Fail(ItemsChanged)
      else Continue(tx.Wrote(MarkItems(o, tx.rows, tx.payment), 7))
    case 7 =>
      if o in v.orders && v.orders[o].status == PendingPayment
      then Acquire(OrderLock(o), tx.Wrote(PutOrder(o, v.orders[o].(status := Paid)), 8))
      else Continue(tx.Goto(8))
    case 8 => Continue(tx.Wrote(OpenThread(o), 9))
    case _ => Finish
  }

  function NextAddItem(pf: Profiles, t: Tables, tx: Tx): Action
    requires tx.op.AddItem?
  {
    var v, o := InstallAll(t, tx.log), tx.op.order;
    match tx.pc
    case 0 =>
      if o !in v.orders || v.orders[o].customer != tx.op.user then Fail(OrderDenied(pf, v, tx.op.user, o))
      else Acquire(OrderLock(o), tx.(status := v.orders[o].status, gig := OrderGig(Items(v, o)), pc := 1))
    case 1 =>
      if tx.status != Paid then Fail(NotAcceptingItems)
      else if tx.op.tierGig == None then Fail(TierNotFound)
      else if tx.gig != tx.op.tierGig then Fail(DifferentGig)
      else Continue(tx.Wrote(InsertItem(o, Item(tx.op.price, tx.op.tierGig, None)), 2))
    case _ => Finish
  }

  function NextComplete(pf: Profiles, t: Tables, tx: Tx): Action
    requires tx.op.Complete?
  {
    var v, u, o := InstallAll(t, tx.log), tx.op.user, tx.op.order;
    match tx.pc
    case 0 => if !pf.IsLapak(u) then Fail(OrderDenied(pf, v, u, o)) else Continue(tx.Goto(1))
    case 1 =>
      if o !in v.orders || !pf.IsLapak(u) || v.orders[o].lapak != pf.lapakOf[u] then Fail(OrderDenied(pf, v, u, o))
      else Acquire(OrderLock(o), tx.(status := v.orders[o].status, pc := 2))
    case 2 =>
      if tx.status != Paid then Fail(OrderNotPaid)
      else if OutstandingIdr(Items(v, o)) > 0 then Fail(OutstandingItems)
      else Continue(tx.Goto(3))
    case 3 =>
      if o !in v.orders || v.orders[o].status != Paid then Fail(OrderNotPaid)
      else Acquire(OrderLock(o), tx.Wrote(PutOrder(o, AwaitingRow(v.orders[o], tx.start + tx.op.seconds)), 4))
    case _ => Finish
  }

  function NextPayout(pf: Profiles, t: Tables, tx: Tx, customer: Option<UserId>, o: OrderId): Action {
    var v := InstallAll(t, tx.log);
    match tx.pc
    case 0 =>
      if customer.Some? && (o !in v.orders || v.orders[o].customer != customer.value) then Fail(OrderDenied(pf, v, customer.value, o))
      else Continue(tx.Goto(1))
    case 1 =>
      if o !in v.orders || v.orders[o].lapak !in pf.userOf then Fail(NotFound)
      else Acquire(OrderLock(o), tx.(status := v.orders[o].status, pc := 2))
    case 2 =>
      if tx.status == Completed then NoChange
      else if tx.status != AwaitingConfirmation then Fail(NotAwaitingConfirmation)
      else Continue(tx.(amount := PaidIdr(Items(v, o)), pc := 3))
    case 3 =>
      if tx.amount > 0 && o in v.orders && v.orders[o].lapak in pf.userOf then
        var w := pf.userOf[v.orders[o].lapak];
        Acquire(WalletLock(w), tx.Wrote(SetWallet(w, Balance(v, w) + tx.amount), 4).(after := Balance(v, w) + tx.amount))
      else Continue(tx.Goto(5))
    case 4 =>
      if o in v.orders && v.orders[o].lapak in pf.userOf
      then Continue(tx.Wrote(AppendEntry(pf.userOf[v.orders[o].lapak], PayoutEntry(o, tx.amount, tx.after)), 5))
      else Fail(NotFound)
    case 5 =>
      if o !in v.orders || v.orders[o].status != AwaitingConfirmation then Fail(OrderChanged)
      else Acquire(OrderLock(o), tx.Wrote(PutOrder(o, CompletedRow(v.orders[o], customer.None?, tx.start)), 6))
    case _ => Finish
  }

  function NextPostManual(pf: Profiles, tx: Tx): Action
    requires tx.op.PostManual?
  {
    match tx.pc
    case 0 => if pf.IsLapak(tx.op.user) then Fail(LapakCannotBuy) else Continue(tx.Goto(1))
    case 1 => Continue(tx.Wrote(PutBid(tx.op.bid, Bid(Manual, Open, tx.op.user, None, tx.op.budget, 0)), 2))
    case _ => Finish
  }

  /** A signed wallet move: an update of the row, if there is one. */
  function MoveWallet(v: Tables, tx: Tx, u: UserId, delta: int, next: nat): Action {
    if u in v.wallets
    then Acquire(WalletLock(u), tx.Wrote(SetWallet(u, v.wallets[u] + delta), next).(after := v.wallets[u] + delta))
    else Fail(NoWalletRow)
  }

  function LockWallet(v: Tables, tx: Tx, u: UserId, next: nat): Action {
    if u in v.wallets then Acquire(WalletLock(u), tx.(balance := v.wallets[u], pc := next))
    else Continue(tx.(balance := 0, pc := next))
  }

  /** An update of the bid this transaction inserted, which no other can see yet
      and so none can have locked. */
  function UpdateOwnBid(v: Tables, tx: Tx, b: BidId, matched: Option<LapakId>, fee: nat, next: nat): Tx {
    if b !in v.bids then tx.Goto(next)
    else if matched.Some? then tx.Wrote(PutBid(b, v.bids[b].(status := Proposed, matched := matched)), next)
    else tx.Wrote(PutBid(b, v.bids[b].(fee := fee)), next)
  }

  function NextPostAuto(pf: Profiles, t: Tables, tx: Tx): Action
    requires tx.op.PostAuto?
  {
    var v, u, b, fee := InstallAll(t, tx.log), tx.op.user, tx.op.bid, tx.op.fee;
    match tx.pc
    case 0 => if pf.IsLapak(u) then Fail(LapakCannotBuy) else Continue(tx.Goto(1))
    case 1 => LockWallet(v, tx, u, 2)
    case 2 =>
      if tx.balance < fee then Fail(InsufficientBalance)
      else Continue(tx.Wrote(PutBid(b, AutoBid(u, tx.op.budget, fee)), 3))
    case 3 => MoveWallet(v, tx, u, -(fee as int), 4)
    case 4 => if fee == 0 then Fail(ZeroLedgerAmount) else Continue(tx.Wrote(AppendEntry(u, FeeEntry(b, fee, tx.after)), 5))
    case 5 =>
      if tx.op.match_.Some? then Continue(UpdateOwnBid(v, tx, b, tx.op.match_, fee, 9)) else Continue(tx.Goto(6))
    case 6 => MoveWallet(v, tx, u, fee, 7)
    case 7 => Continue(tx.Wrote(AppendEntry(u, RefundEntry(b, fee, tx.after)), 8))
    case 8 => Continue(UpdateOwnBid(v, tx, b, None, 0, 9))
    case _ => Finish
  }

  /** The bid's row lock, returning the row. */
  function LockBid(v: Tables, tx: Tx, b: BidId, next: nat): Action {
    if b in v.bids then Acquire(BidLock(b), tx.(bidRow := v.bids[b], pc := next)) else Fail(NotFound)
  }

  /** The guarded status change: no row affected means the bid moved. */
  function AdvanceBid(v: Tables, tx: Tx, b: BidId, from: BidStatus, to: BidStatus, next: nat): Action {
    if b in v.bids && v.bids[b].status == from
    then Acquire(BidLock(b), tx.Wrote(PutBid(b, v.bids[b].(status := to)), next))
    else Fail(BidChanged)
  }

  function NextConfirmBid(pf: Profiles, t: Tables, tx: Tx): Action
    requires tx.op.ConfirmBid?
  {
    var v, b := InstallAll(t, tx.log), tx.op.bid;
    match tx.pc
    case 0 => LockBid(v, tx, b, 1)
    case 1 =>
      if tx.bidRow.customer != tx.op.user then Fail(BidDenied(pf, v, tx.op.user, b))
      else if tx.bidRow.status != Proposed then Fail(WrongBidStatus)
      else AdvanceBid(v, tx, b, Proposed, CustomerConfirmed, 2)
    case _ => Finish
  }

  function NextAcceptBid(pf: Profiles, t: Tables, tx: Tx): Action
    requires tx.op.AcceptBid?
  {
    var v, u, b, o := InstallAll(t, tx.log), tx.op.user, tx.op.bid, tx.op.order;
    match tx.pc
    case 0 => LockBid(v, tx, b, 1)
    case 1 =>
      if !pf.IsLapak(u) || tx.bidRow.matched != Some(pf.lapakOf[u]) then
        if pf.IsLapak(u) || tx.bidRow.customer == u then Fail(NotMatchedLapak) else Fail(NotFound)
      else if tx.bidRow.status != CustomerConfirmed then Fail(WrongBidStatus)
      else Continue(tx.Wrote(PutOrder(o, NewOrderRow(FromAutoBid, tx.bidRow.customer, pf.lapakOf[u], Some(b))), 2))
    case 2 => Continue(tx.Wrote(InsertItem(o, Item(tx.bidRow.budget, None, None)), 3))
    case 3 => Continue(tx.Wrote(OpenThread(o), 4))
    case 4 => AdvanceBid(v, tx, b, CustomerConfirmed, Accepted, 5)
    case _ => Finish
  }

  function NextPlaceOffer(pf: Profiles, t: Tables, tx: Tx): Action
    requires tx.op.PlaceOffer?
  {
    var v, u, b := InstallAll(t, tx.log), tx.op.user, tx.op.bid;
    match tx.pc
    case 0 => if !pf.IsLapak(u) then Fail(NotLapak) else Continue(tx.Goto(1))
    case 1 => LockBid(v, tx, b, 2)
    case 2 =>
      if tx.bidRow.mode != Manual || tx.bidRow.status != Open then Fail(WrongBidStatus)
      else if !pf.IsLapak(u) then Fail(NotLapak)
      else Continue(tx.Wrote(PutOffer(OfferKey(b, pf.lapakOf[u]), Offer(tx.op.amount, Pending)), 3))
    case _ => Finish
  }

  function NextAward(pf: Profiles, t: Tables, tx: Tx): Action
    requires tx.op.Award?
  {
    var v, u, b, o, fee := InstallAll(t, tx.log), tx.op.user, tx.op.bid, tx.op.order, tx.op.fee;
    var key := OfferKey(b, tx.op.offerer);
    match tx.pc
    case 0 => LockBid(v, tx, b, 1)
    case 1 =>
      if tx.bidRow.customer != u then Fail(BidDenied(pf, v, u, b))
      else if tx.bidRow.mode != Manual || tx.bidRow.status != Open then Fail(WrongBidStatus)
      else if key !in v.offers then Fail(OfferNotFound)
      else Continue(tx.(offer := v.offers[key], pc := 2))
    case 2 => LockWallet(v, tx, u, 3)
    case 3 => if tx.balance < fee then Fail(InsufficientBalance) else MoveWallet(v, tx, u, -(fee as int), 4)
    case 4 => if fee == 0 then Fail(ZeroLedgerAmount) else Continue(tx.Wrote(AppendEntry(u, FeeEntry(b, fee, tx.after)), 5))
    case 5 =>
      if key !in v.offers || v.offers[key].status != Pending then Fail(WrongBidStatus)
      else Continue(tx.Wrote(PutOffer(key, v.offers[key].(status := OfferAwarded)), 6))
    case 6 => Continue(tx.Wrote(PutOrder(o, NewOrderRow(FromManualBid, u, tx.op.offerer, Some(b))), 7))
    case 7 => Continue(tx.Wrote(InsertItem(o, Item(tx.offer.amount, None, None)), 8))
    case 8 => Continue(tx.Wrote(OpenThread(o), 9))
    case 9 => AdvanceBid(v, tx, b, Open, Awarded, 10)
    case 10 => if b in v.bids then Acquire(BidLock(b), tx.Wrote(PutBid(b, v.bids[b].(fee := fee)), 11)) else Continue(tx.Goto(11))
    case _ => Finish
  }

  function Next(pf: Profiles, t: Tables, tx: Tx): Action {
    match tx.op
    case PlaceOrder(_, _, _, _, _, _) => NextPlaceOrder(pf, tx)
    case Pay(u, o) => NextPay(t, tx, u, o)
    case AddItem(_, _, _, _) => NextAddItem(pf, t, tx)
    case Complete(_, _, _) => NextComplete(pf, t, tx)
    case Confirm(u, o) => NextPayout(pf, t, tx, Some(u), o)
    case AutoConfirm(o) => NextPayout(pf, t, tx, None, o)
    case PostManual(_, _, _) => NextPostManual(pf, tx)
    case PostAuto(_, _, _, _, _) => NextPostAuto(pf, t, tx)
    case ConfirmBid(_, _) => NextConfirmBid(pf, t, tx)
    case AcceptBid(_, _, _) => NextAcceptBid(pf, t, tx)
    case PlaceOffer(_, _, _) => NextPlaceOffer(pf, t, tx)
    case Award(_, _, _, _, _) => NextAward(pf, t, tx)
  }

  // ----- Runs -----

  /** The committed tables, every transaction ever begun, who holds which row lock,
      the database clock and the orders the sweeper has seen overdue. */
  datatype State = State(t: Tables, txs: map<Tid, Tx>, locks: map<Lock, Tid>, clock: Time, due: set<OrderId>)

  datatype Event =
    | Begin(tid: Tid, op: Op)
    | Step(tid: Tid)
    | Crash(tid: Tid)
    | Tick(elapsed: nat)
    | Look(found: set<OrderId>)

  ghost predicate IsRunning(s: State, tid: Tid) {
    tid in s.txs && s.txs[tid].phase == Running
  }

  /** No table and no other transaction has the uuids of op. */
  ghost predicate Unused(s: State, op: Op) {
    && Fresh(s.t, op)
    && forall tid :: tid in s.txs ==>
        && (NewOrder(op).Some? ==> NewOrder(s.txs[tid].op) != NewOrder(op))
        && (NewBid(op).Some? ==> NewBid(s.txs[tid].op) != NewBid(op))
  }

  function ReleaseAll(locks: map<Lock, Tid>, tid: Tid): map<Lock, Tid> {
    map l | l in locks && locks[l] != tid :: locks[l]
  }

  function End(s: State, tid: Tid, phase: Phase): State
    requires tid in s.txs
  {
    s.(txs := s.txs[tid := s.txs[tid].(phase := phase)], locks := ReleaseAll(s.locks, tid))
  }

  predicate Blocked(s: State, tid: Tid, l: Lock) {
    l in s.locks && s.locks[l] != tid
  }

  function StepTx(pf: Profiles, s: State, tid: Tid): State
    requires tid in s.txs
  {
    match Next(pf, s.t, s.txs[tid])
    case Acquire(l, next) => if Blocked(s, tid, l) then s else s.(txs := s.txs[tid := next], locks := s.locks[l := tid])
    case Continue(next) => s.(txs := s.txs[tid := next])
    case Fail(_) => End(s, tid, RolledBack)
    case NoChange => End(s, tid, RolledBack)
    case Finish => End(s, tid, Committed).(t := InstallAll(s.t, s.txs[tid].log))
  }

  predicate Overdue(t: Tables, o: OrderId, now: Time) {
    o in t.orders && t.orders[o].status == AwaitingConfirmation && t.orders[o].deadline.Some? && t.orders[o].deadline.value <= now
  }

  /** One event; an event that cannot happen changes nothing, so every list of
      events is a run. */
  ghost function Exec(pf: Profiles, s: State, ev: Event): State {
    match ev
    case Begin(tid, op) =>
      if tid !in s.txs && WellFormed(pf, op) && Unused(s, op) && (op.AutoConfirm? ==> op.order in s.due)
      then s.(txs := s.txs[tid := NewTx(op, s.clock)])
      else s
    case Step(tid) => if IsRunning(s, tid) then StepTx(pf, s, tid) else s
    case Crash(tid) => if IsRunning(s, tid) then End(s, tid, RolledBack) else s
    case Tick(elapsed) => s.(clock := s.clock + elapsed)
    case Look(found) => s.(due := s.due + set o | o in found && Overdue(s.t, o, s.clock))
  }

  ghost function Run(pf: Profiles, s: State, events: seq<Event>): State
    decreases |events|
  {
    if events == [] then s
    else Run(pf, Exec(pf, s, events[0]), events[1..])
  }

  function Start(t: Tables, now: Time): State {
    State(t, map[], map[], now, {})
  }
}
