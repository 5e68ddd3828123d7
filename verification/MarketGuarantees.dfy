/** The promises of the order and bid services, each for every run from an empty market. */
module MarketGuarantees {
  import opened Common
  import opened MarketTables
  import opened MarketDecisions
  import opened MarketMeaning
  import opened MarketInvariants
  import opened MarketMachine
  import opened MarketTxInvariant
  import opened MarketSafety
  import opened MarketDeadlock
  import opened MarketOverlay
  import opened MarketEffects
  import opened MarketSerial
  import opened MarketOutcomes
  import opened MarketSweep
  import opened MarketBacklog
  import opened MarketBooks
  import opened MarketMarks
  import opened MarketFees

  /** The committed tables after any list of events from an empty market. */
  ghost function Reached(pf: Profiles, open: map<UserId, nat>, now: Time, events: seq<Event>): Tables {
    Run(pf, Start(EmptyMarket(open), now), events).t
  }

  /** Wallets, money held for unfinished orders and fees kept always add up to the
      opening balances. */
  lemma {:induction false} MoneyIsConserved(pf: Profiles, open: map<UserId, nat>, now: Time, events: seq<Event>)
    requires pf.Valid()
    ensures var t := Reached(pf, open, now, events);
      Total(t.wallets) + Total(Held(t)) + Total(Fees(t)) == Total(open)
  {
    EveryRunIsSafe(pf, open, now, events);
  }

  /** No balance is ever negative, and a wallet is what its ledger replays to. */
  lemma {:induction false} LedgerReplaysWallet(pf: Profiles, open: map<UserId, nat>, now: Time, events: seq<Event>, u: UserId)
    requires pf.Valid()
    ensures var t := Reached(pf, open, now, events);
      && Balance(t, u) >= 0
      && (forall i :: 0 <= i < |Entries(t, u)| ==>
            Entries(t, u)[i].after == BalanceBefore(Opening(open, u), Entries(t, u), i) + Entries(t, u)[i].amount >= 0)
      && Balance(t, u) == if Entries(t, u) == [] then Opening(open, u) else Entries(t, u)[|Entries(t, u)| - 1].after
  {
    EveryRunIsSafe(pf, open, now, events);
    var t := Reached(pf, open, now, events);
    assert UserOk(open, t, u);
  }

  function SumOf(amounts: seq<nat>): nat {
    if amounts == [] then 0 else SumOf(amounts[..|amounts| - 1]) + amounts[|amounts| - 1]
  }

  /** The rows the first n payments cover. */
  function RowsBefore(items: seq<Item>, n: nat): set<nat> {
    set i: nat | i < |items| && items[i].payment.Some? && items[i].payment.value < n
  }

  lemma {:induction false} PaymentsAddUp(items: seq<Item>, payments: seq<nat>, n: nat)
    requires n <= |payments| && forall k :: 0 <= k < |payments| ==> payments[k] == SumAt(items, RowsOf(items, k))
    ensures SumOf(payments[..n]) == SumAt(items, RowsBefore(items, n))
  {
    if n == 0 {
      assert RowsBefore(items, 0) == {};
      SumAtSame([], {}, items, {});
    } else {
      PaymentsAddUp(items, payments, n - 1);
      assert payments[..n][..n - 1] == payments[..n - 1];
      assert RowsBefore(items, n) == RowsBefore(items, n - 1) + RowsOf(items, n - 1);
      SumAtUnion(items, RowsBefore(items, n - 1), RowsOf(items, n - 1));
    }
  }

  lemma PaymentsArePaid(items: seq<Item>, payments: seq<nat>)
    requires PaymentsOk(items, payments)
    ensures SumOf(payments) == PaidIdr(items)
  {
    PaymentsAddUp(items, payments, |payments|);
    assert payments[..|payments|] == payments;
    assert RowsBefore(items, |payments|) == PaidRows(items);
  }

  /** No double charge: every payment is for exactly the lines that point at it,
      the payments of an order add up to what is paid, and the customer's ledger
      shows those charges and no others. */
  lemma {:induction false} NoDoubleCharge(pf: Profiles, open: map<UserId, nat>, now: Time, events: seq<Event>, o: OrderId)
    requires pf.Valid() && o in Reached(pf, open, now, events).orders
    ensures var t := Reached(pf, open, now, events);
      var items, payments := Items(t, o), Payments(t, o);
      && (forall i :: 0 <= i < |items| && items[i].payment.Some? ==> items[i].payment.value < |payments|)
      && (forall k :: 0 <= k < |payments| ==> 0 < payments[k] == SumAt(items, RowsOf(items, k)))
      && SumOf(payments) == PaidIdr(items)
      && (forall u: UserId :: Amounts(Entries(t, u), OrderPayment, ForOrder(o))
                     == if u == t.orders[o].customer then Negated(payments) else [])
  {
    EveryRunIsSafe(pf, open, now, events);
    var t := Reached(pf, open, now, events);
    assert OrderOk(pf, t, o);
    PaymentsArePaid(Items(t, o), Payments(t, o));
    forall u: UserId ensures Amounts(Entries(t, u), OrderPayment, ForOrder(o))
                     == if u == t.orders[o].customer then Negated(Payments(t, o)) else [] {
      assert ChargesOk(t, u, o);
    }
  }

  lemma PayoutsOfOrder(pf: Profiles, t: Tables, o: OrderId)
    requires OrdersOk(pf, t) && LedgerOk(pf, t) && o in t.orders
    ensures t.orders[o].lapak in pf.userOf
    ensures t.orders[o].status == Completed ==> PaidIdr(Items(t, o)) == TotalIdr(Items(t, o))
    ensures forall u: UserId :: Amounts(Entries(t, u), Payout, ForOrder(o))
                     == if t.orders[o].status == Completed && u == pf.userOf[t.orders[o].lapak] then [TotalIdr(Items(t, o)) as int] else []
  {
    assert OrderOk(pf, t, o);
    PaidPlusOutstanding(Items(t, o));
    forall u: UserId ensures Amounts(Entries(t, u), Payout, ForOrder(o))
                     == if t.orders[o].status == Completed && u == pf.userOf[t.orders[o].lapak] then [TotalIdr(Items(t, o)) as int] else [] {
      assert PayoutOk(pf, t, u, o);
    }
  }

  /** One payout per completed order and none before: of its total, to the user
      behind its lapak, and never to anyone else. */
  lemma {:induction false} PayoutExactlyOnce(pf: Profiles, open: map<UserId, nat>, now: Time, events: seq<Event>, o: OrderId)
    requires pf.Valid() && o in Reached(pf, open, now, events).orders
    ensures var t := Reached(pf, open, now, events);
      && t.orders[o].lapak in pf.userOf
      && (t.orders[o].status == Completed ==> PaidIdr(Items(t, o)) == TotalIdr(Items(t, o)))
      && forall u: UserId :: Amounts(Entries(t, u), Payout, ForOrder(o))
                     == if t.orders[o].status == Completed && u == pf.userOf[t.orders[o].lapak] then [TotalIdr(Items(t, o)) as int] else []
  {
    EveryRunIsSafe(pf, open, now, events);
    PayoutsOfOrder(pf, Reached(pf, open, now, events), o);
  }

  /** No countdown runs and no payout is made on a half-paid order, and an order
      is auto-confirmed only at or after its deadline. */
  lemma {:induction false} NeverHalfPaidNeverEarly(pf: Profiles, open: map<UserId, nat>, now: Time, events: seq<Event>, o: OrderId)
    requires pf.Valid() && o in Reached(pf, open, now, events).orders
    ensures var t := Reached(pf, open, now, events);
      var row := t.orders[o];
      && (row.status in {AwaitingConfirmation, Completed} ==> OutstandingIdr(Items(t, o)) == 0)
      && (row.deadline.Some? <==> row.status in {AwaitingConfirmation, Completed})
      && (row.autoConfirmed ==> row.status == Completed && row.completedAt.Some? && row.deadline.value <= row.completedAt.value)
  {
    EveryRunIsSafe(pf, open, now, events);
    assert OrderOk(pf, Reached(pf, open, now, events), o);
  }

  /** A bid has a tracked order exactly when it is accepted or awarded, then exactly
      one, of one line: at the budget, or at the one awarded offer. */
  lemma {:induction false} OneOrderPerBid(pf: Profiles, open: map<UserId, nat>, now: Time, events: seq<Event>, b: BidId)
    requires pf.Valid() && b in Reached(pf, open, now, events).bids
    ensures var t := Reached(pf, open, now, events);
      && ((exists o :: Tracks(t, o, b)) <==> t.bids[b].status in {Accepted, Awarded})
      && (forall o1, o2 :: Tracks(t, o1, b) && Tracks(t, o2, b) ==> o1 == o2)
      && (forall o :: Tracks(t, o, b) ==> PricedRight(t, o, b))
  {
    EveryRunIsSafe(pf, open, now, events);
    var t := Reached(pf, open, now, events);
    assert BidOk(pf, t, b);
    forall o | Tracks(t, o, b) ensures t.bids[b].status in {Accepted, Awarded} && PricedRight(t, o, b) {
      OrderPricedRight(pf, t, o, b);
    }
  }

  /** The tracked order's one line costs the budget of an automatic bid, and the
      amount of the one awarded offer of a manual bid. */
  ghost predicate PricedRight(t: Tables, o: OrderId, b: BidId)
    requires o in t.orders && b in t.bids
  {
    && |Items(t, o)| == 1
    && if t.bids[b].status == Accepted then Items(t, o)[0].subtotal == t.bids[b].budget
       else
         && OfferKey(b, t.orders[o].lapak) in t.offers
         && t.offers[OfferKey(b, t.orders[o].lapak)] == Offer(Items(t, o)[0].subtotal, OfferAwarded)
         && forall key :: key in t.offers && key.bid == b && t.offers[key].status == OfferAwarded ==> key.lapak == t.orders[o].lapak
  }

  lemma OrderPricedRight(pf: Profiles, t: Tables, o: OrderId, b: BidId)
    requires OrdersOk(pf, t) && BidsOk(pf, t) && Tracks(t, o, b)
    ensures b in t.bids && t.bids[b].status in {Accepted, Awarded} && PricedRight(t, o, b)
  {
    assert OrderOk(pf, t, o) && TrackedOk(t, o, b);
    forall key | key in t.offers && key.bid == b && t.offers[key].status == OfferAwarded ensures key.lapak == t.orders[o].lapak {
      assert OfferOk(pf, t, key);
    }
  }

  /** What the ledgers say about a bid is minus the fee it shows: nothing for open
      and no_match, the fee once proposed or awarded. */
  lemma {:induction false} FeesMatchLedger(pf: Profiles, open: map<UserId, nat>, now: Time, events: seq<Event>, b: BidId)
    requires pf.Valid() && b in Reached(pf, open, now, events).bids
    ensures var t := Reached(pf, open, now, events);
      && (t.bids[b].status in {NoMatch, Open} <==> t.bids[b].fee == 0)
      && forall u: UserId :: Net(Entries(t, u), ForBid(b)) == if u == t.bids[b].customer then -(t.bids[b].fee as int) else 0
  {
    EveryRunIsSafe(pf, open, now, events);
    var t := Reached(pf, open, now, events);
    assert BidOk(pf, t, b);
    forall u: UserId ensures Net(Entries(t, u), ForBid(b)) == if u == t.bids[b].customer then -(t.bids[b].fee as int) else 0 {
      assert FeeOk(t, u, b);
    }
  }

  /** Kind by kind: one fee row while the bid claims its fee, a fee and its refund when
      nobody was found, and neither while it is open or on anyone else's ledger. */
  lemma {:induction false} FeeRowsByKind(pf: Profiles, open: map<UserId, nat>, now: Time, events: seq<Event>, u: UserId, b: BidId)
    requires pf.Valid()
    ensures var t := Reached(pf, open, now, events);
      var fees, refunds := Amounts(Entries(t, u), PlatformFee, ForBid(b)), Amounts(Entries(t, u), Refund, ForBid(b));
      if b in t.bids && t.bids[b].customer == u && t.bids[b].status in {Proposed, CustomerConfirmed, Accepted, Awarded} then
        fees == [-(t.bids[b].fee as int)] && refunds == []
      else if b in t.bids && t.bids[b].customer == u && t.bids[b].status == NoMatch then
        exists fee: int :: fee > 0 && fees == [-fee] && refunds == [fee]
      else fees == [] && refunds == []
  {
    hide Good, FeeRows;
    var start := Start(EmptyMarket(open), now);
    StartIsGood(pf, open, now);
    NoFeesAtStart(open);
    RunListsFees(pf, open, start, events);
    FeeRowsSpelledOut(Run(pf, start, events).t, u, b);
  }

  lemma NoFeesAtStart(open: map<UserId, nat>)
    ensures FeesListed(EmptyMarket(open))
  {}

  lemma FeeRowsSpelledOut(t: Tables, u: UserId, b: BidId)
    requires FeeRows(t, u, b)
    ensures var fees, refunds := Amounts(Entries(t, u), PlatformFee, ForBid(b)), Amounts(Entries(t, u), Refund, ForBid(b));
      if b in t.bids && t.bids[b].customer == u && t.bids[b].status in {Proposed, CustomerConfirmed, Accepted, Awarded} then
        fees == [-(t.bids[b].fee as int)] && refunds == []
      else if b in t.bids && t.bids[b].customer == u && t.bids[b].status == NoMatch then
        exists fee: int :: fee > 0 && fees == [-fee] && refunds == [fee]
      else fees == [] && refunds == []
  {}

  // ----- What requests ask for and what they get -----

  /** In every run, what a committed request left is there for good: its own price,
      budget, fee, deadline or completion, on its own row. */
  lemma {:induction false} EveryCommitLeavesItsMark(pf: Profiles, open: map<UserId, nat>, now: Time, events: seq<Event>, tid: Tid)
    requires pf.Valid()
    ensures var s := Run(pf, Start(EmptyMarket(open), now), events);
      tid in s.txs && s.txs[tid].phase == Committed ==> Mark(pf, s.t, s.txs[tid].op, s.txs[tid].start)
  {
    hide Good, Mark;
    var start := Start(EmptyMarket(open), now);
    StartIsGood(pf, open, now);
    RunMarks(pf, open, start, events);
  }

  lemma OneLineTotal(items: seq<Item>)
    requires |items| == 1
    ensures TotalIdr(items) == items[0].subtotal
  {
    var rows := AllRows(items);
    assert items[0].subtotal >= 0 && 0 in rows;
    assert SumAt(items[..0], rows) == 0;
  }

  /** The order that comes of a matched bid costs the budget its customer posted. */
  lemma {:induction false} AcceptedOrderCostsBudget(pf: Profiles, open: map<UserId, nat>, now: Time, events: seq<Event>, tid: Tid, o: OrderId)
    requires pf.Valid()
    requires var s := Run(pf, Start(EmptyMarket(open), now), events);
      tid in s.txs && s.txs[tid].phase == Committed && s.txs[tid].op.PostAuto? && Tracks(s.t, o, s.txs[tid].op.bid)
    ensures var s := Run(pf, Start(EmptyMarket(open), now), events);
      TotalIdr(Items(s.t, o)) == s.txs[tid].op.budget
  {
    hide Inv;
    var s := Run(pf, Start(EmptyMarket(open), now), events);
    EveryCommitLeavesItsMark(pf, open, now, events, tid);
    OneOrderPerBid(pf, open, now, events, s.txs[tid].op.bid);
    AutoIsNotAwarded(pf, open, now, events, s.txs[tid].op.bid);
    OneLineTotal(Items(s.t, o));
  }

  /** The order that comes of an award costs what that lapak last offered, and the
      customer's ledger shows the fee of that award, once. */
  lemma {:induction false} AwardedOrderCostsOffer(pf: Profiles, open: map<UserId, nat>, now: Time, events: seq<Event>, tid: Tid)
    requires pf.Valid()
    requires var s := Run(pf, Start(EmptyMarket(open), now), events);
      tid in s.txs && s.txs[tid].phase == Committed && s.txs[tid].op.Award?
    ensures var start := Start(EmptyMarket(open), now);
      var s := Run(pf, start, events);
      var op, key := s.txs[tid].op, OfferKey(s.txs[tid].op.bid, s.txs[tid].op.offerer);
      var order := SerialOrder(pf, start, events, CommittedIn(s));
      && (forall i :: 0 <= i < |order| ==> order[i] in s.txs)
      && var books := EnterAll(pf, Books(map[], map[], map[], map[]), s.txs, order);
      && Tracks(s.t, op.order, op.bid) && key in books.offers
      && TotalIdr(Items(s.t, op.order)) == books.offers[key]
      && Amounts(Entries(s.t, op.user), PlatformFee, ForBid(op.bid)) == [-(op.fee as int)]
  {
    hide Inv, SerialOrder, EnterAll, Follows, TotalIdr;
    var s := Run(pf, Start(EmptyMarket(open), now), events);
    EveryCommitLeavesItsMark(pf, open, now, events, tid);
    EveryRunIsExplained(pf, open, now, events);
    FeeRowsByKind(pf, open, now, events, s.txs[tid].op.user, s.txs[tid].op.bid);
    OneLineTotal(Items(s.t, s.txs[tid].op.order));
  }

  lemma {:induction false} AutoIsNotAwarded(pf: Profiles, open: map<UserId, nat>, now: Time, events: seq<Event>, b: BidId)
    requires pf.Valid() && b in Reached(pf, open, now, events).bids
    ensures var row := Reached(pf, open, now, events).bids[b];
      row.mode == Manual <==> row.status in {Open, Awarded}
  {
    EveryRunIsSafe(pf, open, now, events);
    assert BidOk(pf, Reached(pf, open, now, events), b);
  }

  // ----- Concurrency -----

  /** Main serializability theorem: whatever the interleaving, the final tables are
      those that the committed transactions leave when each runs alone, once, to its
      commit, in the order in which they took effect. */
  lemma {:induction false} EveryRunIsSerializable(pf: Profiles, open: map<UserId, nat>, now: Time, events: seq<Event>)
    requires pf.Valid()
    ensures var start := Start(EmptyMarket(open), now);
      var end := Run(pf, start, events);
      var order := SerialOrder(pf, start, events, CommittedIn(end));
      && Replays(pf, start.t, end.txs, order, end.t)
      && (forall tid :: tid in order <==> HasCommitted(end, tid))
      && NoRepeats(order)
  {
    var start := Start(EmptyMarket(open), now);
    var w := CommittedIn(Run(pf, start, events));
    StartIsGood(pf, open, now);
    assert ChargesIn(start, w) == map[];
    AheadOfSelf(start.t);
    RunReplays(pf, open, start, events, w, start.t);
    EachTakesEffectOnce(pf, start, events, w);
  }

  /** Serializability without the machine: in that order each request does what it
      means to its caller, and the book kept of the requests alone knows every budget,
      fee and offer, and what the lines of every order add up to. */
  lemma {:induction false} EveryRunIsExplained(pf: Profiles, open: map<UserId, nat>, now: Time, events: seq<Event>)
    requires pf.Valid()
    ensures var start := Start(EmptyMarket(open), now);
      var end := Run(pf, start, events);
      var order := SerialOrder(pf, start, events, CommittedIn(end));
      && Follows(pf, start.t, end.txs, order, end.t)
      && (forall i :: 0 <= i < |order| ==> order[i] in end.txs)
      && Agree(end.t, EnterAll(pf, Books(map[], map[], map[], map[]), end.txs, order))
  {
    hide Replays, Follows, EnterAll, SerialOrder;
    var start := Start(EmptyMarket(open), now);
    var end := Run(pf, start, events);
    var order := SerialOrder(pf, start, events, CommittedIn(end));
    EveryRunIsSerializable(pf, open, now, events);
    ReplayFollows(pf, start.t, end.txs, order, end.t);
    BooksAgree(pf, start.t, Books(map[], map[], map[], map[]), end.txs, order, end.t);
  }

  /** A transaction that committed before another began comes before it in the serial
      order. */
  lemma {:induction false} OrderIsRealTime(pf: Profiles, s: State, a: seq<Event>, b: seq<Event>, x: Tid, y: Tid)
    requires s.txs == map[]
    requires HasCommitted(Run(pf, s, a), x)
    requires y !in Run(pf, s, a).txs && HasCommitted(Run(pf, s, a + b), y)
    ensures var order := SerialOrder(pf, s, a + b, CommittedIn(Run(pf, s, a + b)));
      exists i, j :: 0 <= i < j < |order| && order[i] == x && order[j] == y
  {
    var w := CommittedIn(Run(pf, s, a + b));
    var first, second := SerialOrder(pf, s, a, w), SerialOrder(pf, Run(pf, s, a), b, w);
    OrderSplits(pf, s, a, b, w);
    RunPersists(pf, Run(pf, s, a), b, x);
    EachTakesEffectOnce(pf, s, a + b, w);
    EachTakesEffectOnce(pf, Run(pf, s, a), b, w);
    ListedHaveBegun(pf, s, a, w);
    assert x in first + second && x !in second;
    assert y in first + second && y !in first;
    var i :| 0 <= i < |first| && first[i] == x;
    var j :| 0 <= j < |second| && second[j] == y;
    assert (first + second)[i] == x && (first + second)[|first| + j] == y;
  }

  /** No deadlock: after any run, whatever is running can be brought to its end by
      steps of its own alone. */
  lemma {:induction false} EveryRunCanFinish(pf: Profiles, open: map<UserId, nat>, now: Time, events: seq<Event>) returns (more: seq<Event>)
    requires pf.Valid()
    ensures forall i :: 0 <= i < |more| ==> more[i].Step?
    ensures forall tid :: !IsRunning(Run(pf, Run(pf, Start(EmptyMarket(open), now), events), more), tid)
  {
    var start := Start(EmptyMarket(open), now);
    StartIsGood(pf, open, now);
    RunKeeps(pf, open, start, events);
    more := AllCanFinish(pf, open, Run(pf, start, events));
  }

  /** In every run, a transaction that is about to refuse, to find nothing to do or
      to commit does what its request does alone on the tables committed at that
      moment. (A payment's commit is placed at its sum: see MarketSerial.) */
  lemma {:induction false} EveryEndIsDecided(pf: Profiles, open: map<UserId, nat>, now: Time, events: seq<Event>, tid: Tid)
    requires pf.Valid()
    ensures var s := Run(pf, Start(EmptyMarket(open), now), events);
      IsRunning(s, tid) ==> EndsAsDecided(pf, s.t, s.txs[tid])
  {
    var start := Start(EmptyMarket(open), now);
    StartIsGood(pf, open, now);
    RunKeepsBalances(pf, open, start, events);
    var s := Run(pf, start, events);
    if IsRunning(s, tid) {
      BalancesNonNegative(open, s.t);
      TxEnds(pf, s.t, HeldBy(s.locks, tid), s.txs[tid]);
    }
  }

  /** The same said of the rows: every refusal is given exactly when its own reason
      holds, and a commit leaves exactly the rows the request means to leave. */
  lemma {:induction false} EveryEndIsMeant(pf: Profiles, open: map<UserId, nat>, now: Time, events: seq<Event>, tid: Tid)
    requires pf.Valid()
    ensures var s := Run(pf, Start(EmptyMarket(open), now), events);
      IsRunning(s, tid) ==>
        var tx := s.txs[tid];
        match Next(pf, s.t, tx)
        case Fail(e) => Means(pf, tx.op, tx.start, s.t, Refused(e), s.t)
        case NoChange => Means(pf, tx.op, tx.start, s.t, Done, s.t)
        case Finish => tx.op.Pay? || Means(pf, tx.op, tx.start, s.t, Done, InstallAll(s.t, tx.log))
        case _ => true
  {
    hide Means, Decide, Next, InstallAll;
    var s := Run(pf, Start(EmptyMarket(open), now), events);
    EveryEndIsDecided(pf, open, now, events, tid);
    if IsRunning(s, tid) {
      DecisionMeans(pf, s.txs[tid].op, s.txs[tid].start, s.t);
    }
  }

  /** Any request begun when nothing else is running ends by its own steps, and means
      what it says to its caller. */
  lemma {:induction false} RequestAloneIsMeant(pf: Profiles, open: map<UserId, nat>, s: State, tid: Tid, op: Op)
    returns (events: seq<Event>, reply: Reply)
    requires Good(pf, open, s) && BalancesRight(s) && Alone(s, tid) && tid !in s.txs
    requires WellFormed(pf, op) && Unused(s, op) && (op.AutoConfirm? ==> op.order in s.due)
    ensures forall i :: 0 <= i < |events| ==> events[i] == Step(tid)
    ensures var end := Run(pf, s, [Begin(tid, op)] + events);
      && Means(pf, op, s.clock, s.t, reply, end.t)
      && tid in end.txs && end.txs[tid].phase != Running && (end.txs[tid].phase == Committed ==> reply == Done)
  {
    hide Means, Decide, Good, BalancesRight;
    events := RequestRunsAlone(pf, open, s, tid, op);
    DecisionMeans(pf, op, s.clock, s.t);
    reply := Answer(Decide(pf, op, s.clock, s.t));
  }

  /** A payment under way is refused for want of an order of its own, of anything to
      pay or of money to pay it, each exactly then; once it has read the balance it is
      refused exactly when one of these holds. */
  lemma {:induction false} PaymentRefusedExactly(pf: Profiles, open: map<UserId, nat>, now: Time, events: seq<Event>, tid: Tid)
    requires pf.Valid()
    requires var s := Run(pf, Start(EmptyMarket(open), now), events);
      IsRunning(s, tid) && s.txs[tid].op.Pay?
    ensures var s := Run(pf, Start(EmptyMarket(open), now), events);
      var a, u, o := Next(pf, s.t, s.txs[tid]), s.txs[tid].op.user, s.txs[tid].op.order;
      var own := o in s.t.orders && s.t.orders[o].customer == u;
      var due := OutstandingIdr(Items(s.t, o));
      var purse := if u in s.t.wallets then s.t.wallets[u] else 0;
      && (a.Fail? ==>
            && (a.error == NotFound <==> !own)
            && (a.error == NothingOutstanding <==> own && due == 0)
            && (a.error == InsufficientBalance <==> own && 0 < due && purse < due)
            && a.error in {NotFound, NothingOutstanding, InsufficientBalance})
      && (s.txs[tid].pc == 2 ==> (a.Fail? <==> due == 0 || purse < due))
  {
    hide Good, OutstandingIdr, UnpaidRows;
    var start := Start(EmptyMarket(open), now);
    var s := Run(pf, start, events);
    EveryEndIsMeant(pf, open, now, events, tid);
    StartIsGood(pf, open, now);
    RunKeepsBalances(pf, open, start, events);
    TxOkAt(pf, open, s, tid);
    SumDecides(pf, s.t, HeldBy(s.locks, tid), s.txs[tid]);
  }

  lemma SumDecides(pf: Profiles, t: Tables, held: set<Lock>, tx: Tx)
    requires tx.op.Pay? && tx.pc == 2 ==> TxOk(pf, t, held, tx) && BalanceRight(t, held, tx)
    ensures tx.op.Pay? && tx.pc == 2 ==>
      var due := OutstandingIdr(Items(t, tx.op.order));
      Next(pf, t, tx).Fail? <==> due == 0 || (if tx.op.user in t.wallets then t.wallets[tx.op.user] else 0) < due
  {
    hide OutstandingIdr, UnpaidRows;
    assert tx.log == [] ==> InstallAll(t, tx.log) == t;
  }

  /** In every run: n orders due at a cutoff that has passed, with m completions of
      work still under way that will be due too, are completed after (n + m)/100
      rounds, rounded up, whatever else happens meanwhile. */
  lemma {:induction false} EveryBacklogIsWorkedOff(pf: Profiles, open: map<UserId, nat>, now: Time, events: seq<Event>, cutoff: Time,
                                                   rounds: seq<Round>, due: set<OrderId>)
    requires pf.Valid()
    requires var s := Run(pf, Start(EmptyMarket(open), now), events);
      && cutoff < s.clock && AllSwept(pf, s, rounds)
      && (forall o :: o in due <==>
            o in s.t.orders && s.t.orders[o].status == AwaitingConfirmation && s.t.orders[o].deadline.Some? && s.t.orders[o].deadline.value <= cutoff)
      && |due| + |Late(s, cutoff)| <= 100 * |rounds|
    ensures var s := Run(pf, Start(EmptyMarket(open), now), events);
      var t2 := AfterRounds(pf, s, rounds).t;
      forall o :: o in due ==> o in t2.orders && t2.orders[o].status == Completed
  {
    hide Good, BalancesRight;
    var start := Start(EmptyMarket(open), now);
    StartIsGood(pf, open, now);
    RunKeepsBalances(pf, open, start, events);
    var s := Run(pf, start, events);
    assert due == Backlog(s.t, cutoff) == Backlog(s.t, cutoff) - {};
    forall o | o in due ensures IsDone(AfterRounds(pf, s, rounds).t, o) {
      BacklogIsWorkedOff(pf, open, s, cutoff, rounds, o);
    }
  }
}
