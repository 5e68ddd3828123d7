/** What can never be undone: how the tables may move from one moment of a run to
    any later one. */
module MarketHistory {
  import opened Common
  import opened MarketTables
  import opened MarketDecisions
  import opened MarketInvariants
  import opened MarketMachine
  import opened MarketTxInvariant
  import opened MarketSteps
  import opened MarketFrames
  import opened MarketSafety

  function Rank(status: OrderStatus): nat {
    match status
    case PendingPayment => 0
    case Paid => 1
    case AwaitingConfirmation => 2
    case Completed => 3
    case Cancelled => 4
  }

  /** An order keeps its parties and its bid, never moves back, keeps its deadline
      once set, its lines with their prices, and its payments; once completed its
      row and its lines are final. */
  ghost predicate OrderOnward(t: Tables, t2: Tables, o: OrderId) {
    o in t.orders ==>
      && o in t2.orders
      && var a, b := t.orders[o], t2.orders[o];
      && b.source == a.source && b.customer == a.customer && b.lapak == a.lapak && b.bid == a.bid
      && Rank(a.status) <= Rank(b.status) && (b.status == Cancelled ==> a.status == Cancelled)
      && (a.deadline.Some? ==> b.deadline == a.deadline)
      && LinesKept(Items(t, o), Items(t2, o)) && Payments(t, o) <= Payments(t2, o)
      && (a.status in {AwaitingConfirmation, Completed} ==> Items(t2, o) == Items(t, o))
      && (a.status == Completed ==> b == a)
  }

  /** A settled bid and the offers on it are final. */
  ghost predicate BidOnward(t: Tables, t2: Tables, b: BidId) {
    b in t.bids ==>
      && b in t2.bids
      && t2.bids[b].customer == t.bids[b].customer && t2.bids[b].mode == t.bids[b].mode && t2.bids[b].budget == t.bids[b].budget
      && (Settled(t.bids[b]) ==> t2.bids[b] == t.bids[b])
  }

  ghost predicate OfferOnward(t: Tables, t2: Tables, key: OfferKey) {
    && (key in t.offers ==> key in t2.offers)
    && (key in t2.offers && key.bid in t.bids && Settled(t.bids[key.bid]) ==> key in t.offers && t2.offers[key] == t.offers[key])
  }

  ghost predicate Onward(t: Tables, t2: Tables) {
    && (forall u: UserId :: Entries(t, u) <= Entries(t2, u))
    && (forall o: OrderId :: OrderOnward(t, t2, o))
    && (forall b: BidId :: BidOnward(t, t2, b))
    && (forall key: OfferKey :: OfferOnward(t, t2, key))
  }

  lemma OnwardSelf(t: Tables)
    ensures Onward(t, t)
  {}

  lemma OnwardChain(a: Tables, b: Tables, c: Tables)
    requires Onward(a, b) && Onward(b, c)
    ensures Onward(a, c)
  {
    forall o: OrderId ensures OrderOnward(a, c, o) {
      assert OrderOnward(a, b, o) && OrderOnward(b, c, o);
    }
    forall b2: BidId ensures BidOnward(a, c, b2) {
      assert BidOnward(a, b, b2) && BidOnward(b, c, b2);
    }
    forall key: OfferKey ensures OfferOnward(a, c, key) {
      assert OfferOnward(a, b, key) && OfferOnward(b, c, key) && BidOnward(a, b, key.bid);
    }
    forall u: UserId ensures Entries(a, u) <= Entries(c, u) {
      assert Entries(a, u) <= Entries(b, u) <= Entries(c, u);
    }
  }

  /** A commit within any locks goes onward. */
  lemma FrameOnward(pf: Profiles, t: Tables, t2: Tables, held: set<Lock>)
    requires OrdersOk(pf, t) && Frame(t, t2, held)
    ensures Onward(t, t2)
  {
    forall o: OrderId ensures OrderOnward(t, t2, o) {
      assert OrderFrame(t, t2, held, o);
      assert o in t.orders ==> OrderOk(pf, t, o);
    }
    forall b: BidId ensures BidOnward(t, t2, b) {
      assert BidFrame(t, t2, held, b);
    }
    forall key: OfferKey ensures OfferOnward(t, t2, key) {
      assert OfferFrame(t, t2, held, key);
    }
    forall u: UserId ensures Entries(t, u) <= Entries(t2, u) {
      assert WalletFrame(t, t2, held, u);
    }
  }

  /** Only a commit changes the committed tables, and it stays within its locks. */
  lemma ExecFrame(pf: Profiles, open: map<UserId, nat>, s: State, ev: Event) returns (held: set<Lock>)
    requires Good(pf, open, s)
    ensures Exec(pf, s, ev).t == s.t || Frame(s.t, Exec(pf, s, ev).t, held)
  {
    hide Frame, TxOk, OnlyNew;
    held := {};
    if ev.Step? && IsRunning(s, ev.tid) && Next(pf, s.t, s.txs[ev.tid]) == Finish {
      held := HeldBy(s.locks, ev.tid);
      TxCommit(pf, open, s.t, held, s.txs[ev.tid]);
    }
  }

  /** One event moves an order at most one step along pending_payment, paid,
      awaiting_confirmation, completed, and a bid at most one step along its own
      path; everything goes onward. */
  lemma EventMovesOneStep(pf: Profiles, open: map<UserId, nat>, s: State, ev: Event)
    requires Good(pf, open, s)
    ensures Onward(s.t, Exec(pf, s, ev).t)
    ensures forall o :: o in s.t.orders ==> o in Exec(pf, s, ev).t.orders && Forward(s.t.orders[o], Exec(pf, s, ev).t.orders[o])
    ensures forall b :: b in s.t.bids ==> b in Exec(pf, s, ev).t.bids && BidForward(s.t.bids[b], Exec(pf, s, ev).t.bids[b])
  {
    var t2 := Exec(pf, s, ev).t;
    var held := ExecFrame(pf, open, s, ev);
    if t2 == s.t {
      OnwardSelf(s.t);
    } else {
      FrameOnward(pf, s.t, t2, held);
      forall o | o in s.t.orders ensures o in t2.orders && Forward(s.t.orders[o], t2.orders[o]) {
        assert OrderFrame(s.t, t2, held, o);
      }
      forall b | b in s.t.bids ensures b in t2.bids && BidForward(s.t.bids[b], t2.bids[b]) {
        assert BidFrame(s.t, t2, held, b);
      }
    }
  }

  /** From any moment of a run to any later one the tables only go onward. */
  lemma {:induction false} RunGoesOnward(pf: Profiles, open: map<UserId, nat>, s: State, events: seq<Event>)
    requires Good(pf, open, s)
    ensures Onward(s.t, Run(pf, s, events).t)
    decreases |events|
  {
    if events == [] {
      OnwardSelf(s.t);
    } else {
      var s1 := Exec(pf, s, events[0]);
      EventMovesOneStep(pf, open, s, events[0]);
      ExecKeeps(pf, open, s, events[0]);
      RunGoesOnward(pf, open, s1, events[1..]);
      OnwardChain(s.t, s1.t, Run(pf, s1, events[1..]).t);
    }
  }

  lemma TrackedKept(pf: Profiles, t: Tables, t2: Tables, o: OrderId, b: BidId)
    requires OrdersOk(pf, t) && OrdersOk(pf, t2) && BidsOk(pf, t2)
    requires OrderOnward(t, t2, o) && Tracks(t, o, b)
    ensures Tracks(t2, o, b) && (forall x :: Tracks(t2, x, b) ==> x == o)
    ensures |Items(t, o)| == |Items(t2, o)| == 1 && Items(t2, o)[0].subtotal == Items(t, o)[0].subtotal
  {
    assert OrderOk(pf, t, o) && OrderOk(pf, t2, o);
    assert TrackedOk(t, o, b) && TrackedOk(t2, o, b);
    forall x | Tracks(t2, x, b) ensures x == o {
      assert Tracks(t2, o, b);
    }
  }

  /** A tracked order stays the one order of its bid, with its one line at its one
      price, whatever else is awarded, accepted or offered. */
  lemma {:induction false} TrackedForever(pf: Profiles, open: map<UserId, nat>, s: State, events: seq<Event>, o: OrderId, b: BidId)
    requires Good(pf, open, s) && Tracks(s.t, o, b)
    ensures var t2 := Run(pf, s, events).t;
      && Tracks(t2, o, b) && (forall x :: Tracks(t2, x, b) ==> x == o)
      && |Items(s.t, o)| == |Items(t2, o)| == 1
      && Items(t2, o)[0].subtotal == Items(s.t, o)[0].subtotal
  {
    var t2 := Run(pf, s, events).t;
    RunGoesOnward(pf, open, s, events);
    RunKeeps(pf, open, s, events);
    TrackedKept(pf, s.t, t2, o, b);
  }

  // ----- Who auto-confirms -----

  /** No write marks an order auto-confirmed that was not. */
  predicate MarksNone(t: Tables, log: seq<RowWrite>) {
    forall i :: 0 <= i < |log| && log[i].PutOrder? && log[i].row.autoConfirmed ==>
      log[i].order in t.orders && t.orders[log[i].order].autoConfirmed
  }

  lemma {:induction false} MarksNoneInstalled(t: Tables, log: seq<RowWrite>, o: OrderId)
    requires MarksNone(t, log) && o in InstallAll(t, log).orders && InstallAll(t, log).orders[o].autoConfirmed
    ensures o in t.orders && t.orders[o].autoConfirmed
  {
    if log != [] {
      var last := |log| - 1;
      if log[last] != PutOrder(o, InstallAll(t, log).orders[o]) {
        MarksNoneInstalled(t, log[..last], o);
      }
    }
  }

  lemma OrderOpsMarkNone(pf: Profiles, t: Tables, tx: Tx)
    requires Commits(pf, t, tx) && !tx.op.AutoConfirm? && OrderOp(tx.op)
    ensures MarksNone(t, tx.log)
  {}

  lemma BidOpsMarkNone(pf: Profiles, t: Tables, tx: Tx)
    requires Commits(pf, t, tx) && !OrderOp(tx.op)
    ensures MarksNone(t, tx.log)
  {}

  lemma CommitAutoConfirms(pf: Profiles, t: Tables, tx: Tx, o: OrderId)
    requires Commits(pf, t, tx)
    requires o in InstallAll(t, tx.log).orders && InstallAll(t, tx.log).orders[o].autoConfirmed
    requires o in t.orders ==> !t.orders[o].autoConfirmed
    ensures tx.op.AutoConfirm?
  {
    if !tx.op.AutoConfirm? {
      if OrderOp(tx.op) {
        OrderOpsMarkNone(pf, t, tx);
      } else {
        BidOpsMarkNone(pf, t, tx);
      }
      MarksNoneInstalled(t, tx.log, o);
    }
  }

  /** Only the sweeper's transaction ever marks an order auto-confirmed. */
  lemma OnlySweepAutoConfirms(pf: Profiles, open: map<UserId, nat>, s: State, ev: Event, o: OrderId)
    requires Good(pf, open, s)
    requires o in Exec(pf, s, ev).t.orders && Exec(pf, s, ev).t.orders[o].autoConfirmed
    requires o in s.t.orders ==> !s.t.orders[o].autoConfirmed
    ensures ev.Step? && IsRunning(s, ev.tid) && s.txs[ev.tid].op.AutoConfirm?
  {
    OnlyCommitsChange(pf, s, ev);
    CommitsAt(pf, open, s, ev.tid);
    CommitAutoConfirms(pf, s.t, s.txs[ev.tid], o);
  }

  lemma OnlyCommitsChange(pf: Profiles, s: State, ev: Event)
    ensures Exec(pf, s, ev).t != s.t ==>
      && ev.Step? && IsRunning(s, ev.tid) && Next(pf, s.t, s.txs[ev.tid]) == Finish
      && Exec(pf, s, ev).t == InstallAll(s.t, s.txs[ev.tid].log)
  {}

  lemma CommitsAt(pf: Profiles, open: map<UserId, nat>, s: State, tid: Tid)
    requires Good(pf, open, s) && IsRunning(s, tid) && Next(pf, s.t, s.txs[tid]) == Finish
    ensures Commits(pf, s.t, s.txs[tid])
  {
    TxCommits(pf, s.t, HeldBy(s.locks, tid), s.txs[tid]);
  }
}
