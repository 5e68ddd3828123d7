/** The row locks are always taken in one order: the bid, the customer's wallet, the
    order, the lapak's wallet. So the transactions never wait in a circle. */
module MarketDeadlock {
  import opened Common
  import opened MarketTables
  import opened MarketDecisions
  import opened MarketInvariants
  import opened MarketMachine
  import opened MarketTxInvariant
  import opened MarketSteps
  import opened MarketSafety

  function LockRank(pf: Profiles, l: Lock): nat {
    match l
    case BidLock(_) => 0
    case WalletLock(u) => if pf.IsLapak(u) then 3 else 1
    case OrderLock(_) => 2
  }

  /** A transaction that waits for l holds only locks of lower rank, or l itself. */
  ghost predicate InOrder(pf: Profiles, held: set<Lock>, a: Action) {
    a.Acquire? && a.lock !in held ==> forall h :: h in held ==> LockRank(pf, h) < LockRank(pf, a.lock)
  }

  lemma PayInOrder(pf: Profiles, t: Tables, held: set<Lock>, tx: Tx, u: UserId, o: OrderId)
    requires OrdersOk(pf, t) && PayTx(t, held, tx, u, o)
    ensures InOrder(pf, held, NextPay(t, tx, u, o))
  {
    if tx.pc >= 1 {
      assert OrderOk(pf, t, o);
    }
  }

  lemma PayoutInOrder(pf: Profiles, t: Tables, held: set<Lock>, tx: Tx, customer: Option<UserId>, o: OrderId)
    requires pf.Valid() && OrdersOk(pf, t) && PayoutTx(pf, t, held, tx, customer, o)
    ensures InOrder(pf, held, NextPayout(pf, t, tx, customer, o))
  {
    PayoutStep(pf, t, held, tx, customer, o);
    if tx.pc >= 3 {
      PayoutWaits(pf, t, held, tx, customer, o);
    }
  }

  lemma PayoutWaits(pf: Profiles, t: Tables, held: set<Lock>, tx: Tx, customer: Option<UserId>, o: OrderId)
    requires PayoutTx(pf, t, held, tx, customer, o) && tx.pc >= 3
    ensures var a := NextPayout(pf, t, tx, customer, o);
      a.Acquire? ==> a.lock in held || (tx.pc == 3 && a.lock == WalletLock(pf.userOf[t.orders[o].lapak]))
  {}

  lemma AwardInOrder(pf: Profiles, t: Tables, held: set<Lock>, tx: Tx)
    requires BidsOk(pf, t) && tx.op.Award? && AwardTx(t, held, tx)
    ensures InOrder(pf, held, NextAward(pf, t, tx))
  {
    if tx.pc >= 1 {
      assert BidOk(pf, t, tx.op.bid);
    }
  }

  lemma PostAutoInOrder(pf: Profiles, t: Tables, held: set<Lock>, tx: Tx)
    requires tx.op.PostAuto? && PostAutoTx(pf, t, held, tx)
    ensures InOrder(pf, held, NextPostAuto(pf, t, tx))
  {}

  lemma BidLocksInOrder(pf: Profiles, t: Tables, held: set<Lock>, tx: Tx)
    requires tx.op.ConfirmBid? || tx.op.AcceptBid? || tx.op.PlaceOffer?
    requires TxOk(pf, t, held, tx)
    ensures InOrder(pf, held, Next(pf, t, tx))
  {}

  lemma OrderLocksInOrder(pf: Profiles, t: Tables, held: set<Lock>, tx: Tx)
    requires tx.op.AddItem? || tx.op.Complete?
    requires TxOk(pf, t, held, tx)
    ensures InOrder(pf, held, Next(pf, t, tx))
  {}

  /** Every statement of every transaction asks for locks in the one order. */
  lemma LocksInOrder(pf: Profiles, t: Tables, held: set<Lock>, tx: Tx)
    requires pf.Valid() && OrdersOk(pf, t) && BidsOk(pf, t) && TxOk(pf, t, held, tx)
    ensures InOrder(pf, held, Next(pf, t, tx))
  {
    match tx.op
    case PlaceOrder(_, _, _, _, _, _) =>
    case Pay(u, o) => PayInOrder(pf, t, held, tx, u, o);
    case AddItem(_, _, _, _) => OrderLocksInOrder(pf, t, held, tx);
    case Complete(_, _, _) => OrderLocksInOrder(pf, t, held, tx);
    case Confirm(u, o) => PayoutInOrder(pf, t, held, tx, Some(u), o);
    case AutoConfirm(o) => PayoutInOrder(pf, t, held, tx, None, o);
    case PostManual(_, _, _) =>
    case PostAuto(_, _, _, _, _) => PostAutoInOrder(pf, t, held, tx);
    case ConfirmBid(_, _) => BidLocksInOrder(pf, t, held, tx);
    case AcceptBid(_, _, _) => BidLocksInOrder(pf, t, held, tx);
    case PlaceOffer(_, _, _) => BidLocksInOrder(pf, t, held, tx);
    case Award(_, _, _, _, _) => AwardInOrder(pf, t, held, tx);
  }

  // ----- Somebody can always go on -----

  /** The next statement of tid waits for a lock another transaction holds. */
  ghost predicate Waits(pf: Profiles, s: State, tid: Tid)
    requires IsRunning(s, tid)
  {
    var a := Next(pf, s.t, s.txs[tid]);
    a.Acquire? && Blocked(s, tid, a.lock)
  }

  ghost function WaitRank(pf: Profiles, s: State, tid: Tid): nat
    requires IsRunning(s, tid) && Waits(pf, s, tid)
  {
    LockRank(pf, Next(pf, s.t, s.txs[tid]).lock)
  }

  /** Whoever holds the lock tid waits for waits, if at all, for one of higher rank. */
  lemma HolderWaitsHigher(pf: Profiles, open: map<UserId, nat>, s: State, tid: Tid) returns (holder: Tid)
    requires Good(pf, open, s) && IsRunning(s, tid) && Waits(pf, s, tid)
    ensures holder != tid && IsRunning(s, holder)
    ensures Waits(pf, s, holder) ==> WaitRank(pf, s, tid) < WaitRank(pf, s, holder)
  {
    var l := Next(pf, s.t, s.txs[tid]).lock;
    holder := s.locks[l];
    assert l in HeldBy(s.locks, holder);
    LocksInOrder(pf, s.t, HeldBy(s.locks, holder), s.txs[holder]);
  }

  /** Following the waits from any transaction ends, within four hops, at one that
      can take its next step: the transactions cannot wait in a circle. */
  lemma {:induction false} SomeoneCanStep(pf: Profiles, open: map<UserId, nat>, s: State, tid: Tid) returns (runner: Tid)
    requires Good(pf, open, s) && IsRunning(s, tid)
    ensures IsRunning(s, runner) && !Waits(pf, s, runner)
    decreases if Waits(pf, s, tid) then 4 - WaitRank(pf, s, tid) else 0
  {
    hide Good;
    if Waits(pf, s, tid) {
      var holder := HolderWaitsHigher(pf, open, s, tid);
      runner := SomeoneCanStep(pf, open, s, holder);
    } else {
      runner := tid;
    }
  }

  // ----- Every transaction can be brought to its end -----

  lemma OrderPcGrows(pf: Profiles, t: Tables, tx: Tx)
    requires OrderOp(tx.op)
    ensures var a := Next(pf, t, tx);
      (a.Acquire? || a.Continue?) ==> a.next.pc > tx.pc
  {}

  lemma BidPcGrows(pf: Profiles, t: Tables, tx: Tx)
    requires !OrderOp(tx.op)
    ensures var a := Next(pf, t, tx);
      (a.Acquire? || a.Continue?) ==> a.next.pc > tx.pc
  {}

  lemma PcGrows(pf: Profiles, t: Tables, tx: Tx)
    ensures var a := Next(pf, t, tx);
      (a.Acquire? || a.Continue?) ==> a.next.pc > tx.pc
  {
    if OrderOp(tx.op) {
      OrderPcGrows(pf, t, tx);
    } else {
      BidPcGrows(pf, t, tx);
    }
  }

  lemma PcBounded(pf: Profiles, t: Tables, held: set<Lock>, tx: Tx)
    requires TxOk(pf, t, held, tx)
    ensures tx.pc <= 11
  {}

  /** The statements each transaction has left, at most. */
  ghost function Left(s: State): map<nat, int> {
    map tid | tid in s.txs :: if s.txs[tid].phase == Running then 12 - s.txs[tid].pc else 0
  }

  lemma {:induction false} TotalNonNegative(m: map<nat, int>)
    requires forall k :: k in m ==> m[k] >= 0
    ensures Total(m) >= 0
    decreases |m|
  {
    if m != map[] {
      var k :| k in m && Total(m) == m[k] + Total(m - {k});
      TotalNonNegative(m - {k});
    }
  }

  lemma LeftNonNegative(pf: Profiles, open: map<UserId, nat>, s: State)
    requires Good(pf, open, s)
    ensures Total(Left(s)) >= 0
  {
    forall tid | tid in Left(s) ensures Left(s)[tid] >= 0 {
      if IsRunning(s, tid) {
        PcBounded(pf, s.t, HeldBy(s.locks, tid), s.txs[tid]);
      }
    }
    TotalNonNegative(Left(s));
  }

  /** A statement that does not wait leaves one statement fewer, at least. */
  lemma StepLeavesLess(pf: Profiles, s: State, tid: Tid)
    requires IsRunning(s, tid) && !Waits(pf, s, tid) && s.txs[tid].pc <= 11
    ensures Total(Left(StepTx(pf, s, tid))) < Total(Left(s))
  {
    var s2 := StepTx(pf, s, tid);
    PcGrows(pf, s.t, s.txs[tid]);
    NextSame(pf, s.t, s.txs[tid]);
    var v := Left(s2)[tid];
    assert Left(s2) == Left(s)[tid := v];
    TotalUpdate(Left(s), tid, v);
  }

  /** Deadlock freedom: from every reachable state the running transactions can all
      be brought to their ends by steps of their own alone. */
  lemma {:induction false} AllCanFinish(pf: Profiles, open: map<UserId, nat>, s: State) returns (events: seq<Event>)
    requires Good(pf, open, s)
    ensures forall i :: 0 <= i < |events| ==> events[i].Step?
    ensures forall tid :: !IsRunning(Run(pf, s, events), tid)
    decreases Total(Left(s))
  {
    hide Inv, TxOk, Next;
    if tid :| IsRunning(s, tid) {
      var runner := SomeoneCanStep(pf, open, s, tid);
      PcBounded(pf, s.t, HeldBy(s.locks, runner), s.txs[runner]);
      StepLeavesLess(pf, s, runner);
      LeftNonNegative(pf, open, s);
      ExecKeeps(pf, open, s, Step(runner));
      var rest := AllCanFinish(pf, open, StepTx(pf, s, runner));
      events := [Step(runner)] + rest;
      assert events[1..] == rest;
    } else {
      events := [];
    }
  }
}
