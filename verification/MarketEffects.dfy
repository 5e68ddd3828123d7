/** Where each transaction takes effect: event by event, the committed tables with the
    charges under way made go through the committed transactions one at a time. */
module MarketEffects {
  import opened Common
  import opened MarketTables
  import opened MarketDecisions
  import opened MarketInvariants
  import opened MarketOrderKeeps
  import opened MarketMachine
  import opened MarketTxInvariant
  import opened MarketSteps
  import opened MarketFrames
  import opened MarketSafety
  import opened MarketOverlay
  import opened MarketAhead

  // ----- Taking effect -----

  ghost predicate HasCommitted(s: State, tid: Tid) {
    tid in s.txs && s.txs[tid].phase == Committed
  }

  ghost function CommittedIn(s: State): set<Tid> {
    set tid | tid in s.txs && s.txs[tid].phase == Committed
  }

  /** The event at which a transaction takes effect. */
  ghost predicate TakesEffect(pf: Profiles, s: State, ev: Event) {
    && ev.Step? && IsRunning(s, ev.tid)
    && var tx := s.txs[ev.tid];
       if tx.op.Pay? then tx.pc == 2 && Next(pf, s.t, tx).Continue? else Next(pf, s.t, tx) == Finish
  }

  // ----- The charges under way in a state -----

  predicate Charging(tx: Tx) {
    tx.phase == Running && tx.op.Pay? && tx.pc >= 3
  }

  function ChargeOf(tx: Tx): Charge
    requires tx.op.Pay?
  {
    Charge(tx.op.user, tx.op.order, tx.rows, tx.amount)
  }

  /** The charges of the transactions in w that have summed and not committed. */
  ghost function ChargesIn(s: State, w: set<Tid>): Charges {
    map tid | tid in s.txs && tid in w && Charging(s.txs[tid]) :: ChargeOf(s.txs[tid])
  }

  lemma ChargingHolds(pf: Profiles, open: map<UserId, nat>, s: State, tid: Tid)
    requires Good(pf, open, s) && tid in s.txs && Charging(s.txs[tid])
    ensures WalletLock(s.txs[tid].op.user) in HeldBy(s.locks, tid)
    ensures Underway(s.t, ChargeOf(s.txs[tid]))
  {
    assert IsRunning(s, tid);
  }

  lemma ChargesInApart(pf: Profiles, open: map<UserId, nat>, s: State, w: set<Tid>)
    requires Good(pf, open, s)
    ensures ChargesApart(s.t, ChargesIn(s, w))
  {
    var cs := ChargesIn(s, w);
    forall tid | tid in cs ensures Underway(s.t, cs[tid]) {
      ChargingHolds(pf, open, s, tid);
    }
    forall i, j | i in cs && j in cs && i != j ensures cs[i].user != cs[j].user {
      ChargingHolds(pf, open, s, i);
      ChargingHolds(pf, open, s, j);
    }
  }

  /** Whoever holds a wallet lock keeps everyone else's charge off that wallet. */
  lemma LockedApart(pf: Profiles, open: map<UserId, nat>, s: State, w: set<Tid>, tid: Tid, u: UserId)
    requires Good(pf, open, s) && WalletLock(u) in HeldBy(s.locks, tid)
    requires tid in s.txs && !Charging(s.txs[tid])
    ensures !ChargesUser(ChargesIn(s, w), u)
  {
    var cs := ChargesIn(s, w);
    forall i | i in cs ensures cs[i].user != u {
      ChargingHolds(pf, open, s, i);
    }
  }

  // ----- Statements that take no effect -----

  lemma ChargeUnchanged(t: Tables, tx: Tx, u: UserId, o: OrderId)
    requires tx.op == Pay(u, o) && tx.pc != 2
    ensures var a := NextPay(t, tx, u, o);
      (a.Acquire? || a.Continue?) ==>
        && (a.next.pc >= 3 <==> tx.pc >= 3)
        && (tx.pc >= 3 ==> a.next.rows == tx.rows && a.next.amount == tx.amount)
  {}

  lemma SumNeedsNoLock(t: Tables, tx: Tx, u: UserId, o: OrderId)
    requires tx.op == Pay(u, o) && tx.pc == 2
    ensures !NextPay(t, tx, u, o).Acquire?
  {}

  lemma StatementKeepsCharges(pf: Profiles, s: State, w: set<Tid>, tid: Tid, next: Tx, locks: map<Lock, Tid>)
    requires IsRunning(s, tid)
    requires Next(pf, s.t, s.txs[tid]).Acquire? || Next(pf, s.t, s.txs[tid]).Continue?
    requires next == Next(pf, s.t, s.txs[tid]).next
    requires !(TakesEffect(pf, s, Step(tid)) && tid in w)
    ensures ChargesIn(s.(txs := s.txs[tid := next], locks := locks), w) == ChargesIn(s, w)
  {
    var tx := s.txs[tid];
    NextSame(pf, s.t, tx);
    if tx.op.Pay? {
      if tx.pc == 2 {
        SumNeedsNoLock(s.t, tx, tx.op.user, tx.op.order);
      } else {
        ChargeUnchanged(s.t, tx, tx.op.user, tx.op.order);
      }
    }
  }

  lemma RollbackKeepsCharges(s: State, w: set<Tid>, tid: Tid)
    requires tid in s.txs && tid !in w
    ensures ChargesIn(End(s, tid, RolledBack), w) == ChargesIn(s, w)
  {}

  // ----- Pay takes effect -----

  lemma SumReads(t: Tables, held: set<Lock>, tx: Tx, next: Tx, u: UserId, o: OrderId)
    requires tx.op == next.op == Pay(u, o) && PayTx(t, held, tx, u, o) && PayTx(t, held, next, u, o)
    requires tx.pc == 2 && NextPay(t, tx, u, o) == Continue(next)
    ensures next.pc == 3 && next.rows == UnpaidRows(Items(t, o))
    ensures WalletLock(u) in held && Underway(t, ChargeOf(next))
  {}

  /** What a payment that goes on from its sum has found. */
  lemma SumFacts(pf: Profiles, open: map<UserId, nat>, s: State, tid: Tid, w: set<Tid>)
    requires Good(pf, open, s) && IsRunning(s, tid) && s.txs[tid].op.Pay? && s.txs[tid].pc == 2
    requires Next(pf, s.t, s.txs[tid]).Continue?
    ensures var next := Next(pf, s.t, s.txs[tid]).next;
      && SameTx(s.txs[tid], next) && next.pc == 3
      && Underway(s.t, ChargeOf(next)) && next.rows == UnpaidRows(Items(s.t, next.op.order))
      && !ChargesUser(ChargesIn(s, w), next.op.user)
  {
    var tx := s.txs[tid];
    TxStep(pf, s.t, HeldBy(s.locks, tid), tx);
    NextSame(pf, s.t, tx);
    SumReads(s.t, HeldBy(s.locks, tid), tx, Next(pf, s.t, tx).next, tx.op.user, tx.op.order);
    LockedApart(pf, open, s, w, tid, tx.op.user);
  }

  lemma CustomerApart(t: Tables, cs: Charges, c: Charge)
    requires ChargesApart(t, cs) && Underway(t, c) && !ChargesUser(cs, c.user)
    ensures !ChargesOrder(cs, c.order)
  {
    forall tid | tid in cs ensures cs[tid].order != c.order {
      assert Underway(t, cs[tid]);
      assert cs[tid].user != c.user;
    }
  }

  lemma SameDecision(pf: Profiles, t: Tables, a: Tables, c: Charge, now: Time)
    requires UserSame(t, a, c.user) && OrderSame(t, a, c.order)
    requires Underway(t, c) && c.rows == UnpaidRows(Items(t, c.order))
    ensures Settles(a, c.user, c.order, c.rows, c.amount, Balance(a, c.user), |Payments(a, c.order)|)
    ensures Decide(pf, Pay(c.user, c.order), now, a)
         == Commit(PayLog(a.orders[c.order], c.user, c.order, c.rows, c.amount, Balance(a, c.user), |Payments(a, c.order)|))
  {
    assert Items(a, c.order) == Items(t, c.order) && Payments(a, c.order) == Payments(t, c.order);
  }

  /** At its sum, a payment decides on the tables ahead just what it found. */
  lemma SumTakesEffect(pf: Profiles, t: Tables, a: Tables, cs: Charges, c: Charge, now: Time)
    requires OrdersOk(pf, t) && ChargesApart(t, cs) && Ahead(t, a, cs)
    requires Underway(t, c) && c.rows == UnpaidRows(Items(t, c.order)) && !ChargesUser(cs, c.user)
    ensures Decide(pf, Pay(c.user, c.order), now, a).Commit?
    ensures Makes(a, After(pf, Pay(c.user, c.order), now, a), c) && !ChargesOrder(cs, c.order)
  {
    CustomerApart(t, cs, c);
    OutstandingStatus(pf, t, c.order, c.rows);
    SameDecision(pf, t, a, c, now);
    assert OrderSame(t, a, c.order);
    PayForm(a, c.user, c.order, c.rows, c.amount, Balance(a, c.user), |Payments(a, c.order)|);
  }

  /** The tables ahead after a payment's sum. */
  lemma SumAhead(pf: Profiles, t: Tables, a: Tables, cs: Charges, tid: Tid, c: Charge, now: Time)
    requires OrdersOk(pf, t) && ChargesApart(t, cs) && Ahead(t, a, cs) && tid !in cs
    requires Underway(t, c) && c.rows == UnpaidRows(Items(t, c.order)) && !ChargesUser(cs, c.user)
    ensures Decide(pf, Pay(c.user, c.order), now, a).Commit?
    ensures Ahead(t, After(pf, Pay(c.user, c.order), now, a), cs[tid := c])
  {
    SumTakesEffect(pf, t, a, cs, c, now);
    AheadCharge(t, a, After(pf, Pay(c.user, c.order), now, a), cs, tid, c);
  }

  lemma SumAddsCharge(pf: Profiles, s: State, tid: Tid, w: set<Tid>, next: Tx)
    requires IsRunning(s, tid) && tid in w && s.txs[tid].op.Pay? && s.txs[tid].pc == 2
    requires Next(pf, s.t, s.txs[tid]) == Continue(next) && SameTx(s.txs[tid], next) && next.pc == 3
    ensures tid !in ChargesIn(s, w)
    ensures ChargesIn(StepTx(pf, s, tid), w) == ChargesIn(s, w)[tid := ChargeOf(next)]
  {}

  // ----- Commits -----

  lemma ChargeCommits(pf: Profiles, t: Tables, tx: Tx)
    requires tx.op.Pay? && OrdersOk(pf, t) && Commits(pf, t, tx)
    ensures Makes(t, InstallAll(t, tx.log), ChargeOf(tx))
  {
    OutstandingStatus(pf, t, tx.op.order, tx.rows);
    PayForm(t, tx.op.user, tx.op.order, tx.rows, tx.amount, tx.balance, tx.payment);
  }

  lemma PayCommitDropsCharge(pf: Profiles, s: State, tid: Tid, w: set<Tid>)
    requires IsRunning(s, tid) && Next(pf, s.t, s.txs[tid]) == Finish
    ensures StepTx(pf, s, tid).t == InstallAll(s.t, s.txs[tid].log)
    ensures ChargesIn(StepTx(pf, s, tid), w) == Without(ChargesIn(s, w), tid)
  {}

  lemma OtherCommitKeepsCharges(pf: Profiles, s: State, tid: Tid, w: set<Tid>)
    requires IsRunning(s, tid) && !s.txs[tid].op.Pay? && Next(pf, s.t, s.txs[tid]) == Finish
    ensures StepTx(pf, s, tid).t == InstallAll(s.t, s.txs[tid].log)
    ensures ChargesIn(StepTx(pf, s, tid), w) == ChargesIn(s, w)
  {}

  /** What a finishing transaction rests on, for its effect on the tables ahead. */
  lemma FinishFacts(pf: Profiles, open: map<UserId, nat>, s: State, tid: Tid, w: set<Tid>)
    requires Good(pf, open, s) && IsRunning(s, tid) && Next(pf, s.t, s.txs[tid]) == Finish
    ensures OrdersOk(pf, s.t) && Fresh(s.t, s.txs[tid].op) && Commits(pf, s.t, s.txs[tid])
    ensures ChargesApart(s.t, ChargesIn(s, w))
    ensures s.txs[tid].op.Pay? ==> Charging(s.txs[tid])
  {
    assert TxOk(pf, s.t, HeldBy(s.locks, tid), s.txs[tid]);
    ChargesInApart(pf, open, s, w);
    TxCommits(pf, s.t, HeldBy(s.locks, tid), s.txs[tid]);
  }

  /** The wallet a finishing transaction moves is locked by it. */
  lemma FinishLocksWallets(pf: Profiles, open: map<UserId, nat>, s: State, tid: Tid, w: set<Tid>)
    requires Good(pf, open, s) && IsRunning(s, tid) && !s.txs[tid].op.Pay?
    requires Next(pf, s.t, s.txs[tid]) == Finish
    ensures WalletsApart(pf, s.t, s.txs[tid].op, ChargesIn(s, w))
  {
    hide Good, ChargesIn;
    var op := s.txs[tid].op;
    TxOkAt(pf, open, s, tid);
    if op.PostAuto? || op.Award? {
      LockedApart(pf, open, s, w, tid, op.user);
    } else if op.Confirm? || op.AutoConfirm? {
      LockedApart(pf, open, s, w, tid, pf.userOf[s.t.orders[op.order].lapak]);
    }
  }

  lemma OtherCommitAhead(pf: Profiles, t: Tables, a: Tables, cs: Charges, op: Op, now: Time, log: seq<RowWrite>)
    requires !op.Pay? && OrdersOk(pf, t) && Fresh(t, op) && ChargesApart(t, cs) && Ahead(t, a, cs)
    requires WalletsApart(pf, t, op, cs) && Decide(pf, op, now, t) == Commit(log)
    ensures Decide(pf, op, now, a).Commit? && Ahead(InstallAll(t, log), After(pf, op, now, a), cs)
  {
    hide Ahead, ChargesApart, OrdersOk, WalletsApart, Fresh, AllClear, InstallAll;
    DecideAhead(pf, op, now, t, a, cs, log);
    RowsStillUnpaid(t, cs);
    AheadWrites(t, a, cs, log);
  }

  lemma RowsStillUnpaid(t: Tables, cs: Charges)
    requires ChargesApart(t, cs)
    ensures forall tid :: tid in cs ==> cs[tid].rows <= UnpaidRows(Items(t, cs[tid].order))
  {
    forall tid | tid in cs ensures cs[tid].rows <= UnpaidRows(Items(t, cs[tid].order)) {
      assert Underway(t, cs[tid]);
    }
  }

  // ----- One event -----

  /** The transactions whose fate is settled in s agree with w. */
  ghost predicate Foretold(s: State, w: set<Tid>) {
    forall tid :: tid in s.txs ==>
      && (s.txs[tid].phase == Committed ==> tid in w)
      && (s.txs[tid].phase == RolledBack ==> tid !in w)
  }

  /** a is s's committed tables with the charges of w that are under way. */
  ghost predicate Simulates(s: State, w: set<Tid>, a: Tables) {
    Ahead(s.t, a, ChargesIn(s, w))
  }

  lemma PayCommitSimulates(pf: Profiles, s: State, tid: Tid, w: set<Tid>, a: Tables)
    requires IsRunning(s, tid) && tid in w && Charging(s.txs[tid]) && Next(pf, s.t, s.txs[tid]) == Finish
    requires OrdersOk(pf, s.t) && Commits(pf, s.t, s.txs[tid]) && ChargesApart(s.t, ChargesIn(s, w))
    requires Simulates(s, w, a)
    ensures Simulates(StepTx(pf, s, tid), w, a)
  {
    ChargeCommits(pf, s.t, s.txs[tid]);
    PayCommitDropsCharge(pf, s, tid, w);
    AheadCommit(s.t, StepTx(pf, s, tid).t, a, ChargesIn(s, w), tid);
  }

  lemma OtherCommitSimulates(pf: Profiles, s: State, tid: Tid, w: set<Tid>, a: Tables)
    requires IsRunning(s, tid) && !s.txs[tid].op.Pay? && Next(pf, s.t, s.txs[tid]) == Finish
    requires OrdersOk(pf, s.t) && Fresh(s.t, s.txs[tid].op) && Commits(pf, s.t, s.txs[tid])
    requires ChargesApart(s.t, ChargesIn(s, w)) && WalletsApart(pf, s.t, s.txs[tid].op, ChargesIn(s, w))
    requires Simulates(s, w, a)
    ensures Decide(pf, s.txs[tid].op, s.txs[tid].start, a).Commit?
    ensures Simulates(StepTx(pf, s, tid), w, After(pf, s.txs[tid].op, s.txs[tid].start, a))
  {
    OtherCommitKeepsCharges(pf, s, tid, w);
    OtherCommitAhead(pf, s.t, a, ChargesIn(s, w), s.txs[tid].op, s.txs[tid].start, s.txs[tid].log);
  }

  lemma SumSimulates(pf: Profiles, open: map<UserId, nat>, s: State, tid: Tid, w: set<Tid>, a: Tables)
    requires Good(pf, open, s) && IsRunning(s, tid) && tid in w && s.txs[tid].op.Pay? && s.txs[tid].pc == 2
    requires Next(pf, s.t, s.txs[tid]).Continue? && Simulates(s, w, a)
    ensures Decide(pf, s.txs[tid].op, s.txs[tid].start, a).Commit?
    ensures Simulates(StepTx(pf, s, tid), w, After(pf, s.txs[tid].op, s.txs[tid].start, a))
  {
    var next := Next(pf, s.t, s.txs[tid]).next;
    SumFacts(pf, open, s, tid, w);
    ChargesInApart(pf, open, s, w);
    SumAddsCharge(pf, s, tid, w, next);
    SumAhead(pf, s.t, a, ChargesIn(s, w), tid, ChargeOf(next), s.txs[tid].start);
  }

  lemma EffectSimulates(pf: Profiles, open: map<UserId, nat>, s: State, ev: Event, w: set<Tid>, a: Tables)
    requires Good(pf, open, s) && Simulates(s, w, a)
    requires TakesEffect(pf, s, ev) && ev.tid in w
    ensures Decide(pf, s.txs[ev.tid].op, s.txs[ev.tid].start, a).Commit?
    ensures Simulates(Exec(pf, s, ev), w, After(pf, s.txs[ev.tid].op, s.txs[ev.tid].start, a))
  {
    if s.txs[ev.tid].op.Pay? {
      SumSimulates(pf, open, s, ev.tid, w, a);
    } else {
      FinishFacts(pf, open, s, ev.tid, w);
      FinishLocksWallets(pf, open, s, ev.tid, w);
      OtherCommitSimulates(pf, s, ev.tid, w, a);
    }
  }

  lemma FinishForetold(pf: Profiles, s: State, tid: Tid, w: set<Tid>)
    requires IsRunning(s, tid) && Next(pf, s.t, s.txs[tid]) == Finish && Foretold(StepTx(pf, s, tid), w)
    ensures tid in w
  {
    assert StepTx(pf, s, tid).txs[tid].phase == Committed;
  }

  /** The only commit that is not where its transaction takes effect is a payment's. */
  lemma LateCommitSimulates(pf: Profiles, open: map<UserId, nat>, s: State, tid: Tid, w: set<Tid>, a: Tables)
    requires Good(pf, open, s) && Simulates(s, w, a) && IsRunning(s, tid) && Foretold(StepTx(pf, s, tid), w)
    requires !(TakesEffect(pf, s, Step(tid)) && tid in w) && Next(pf, s.t, s.txs[tid]) == Finish
    ensures Simulates(StepTx(pf, s, tid), w, a)
  {
    FinishForetold(pf, s, tid, w);
    FinishFacts(pf, open, s, tid, w);
    PayCommitSimulates(pf, s, tid, w, a);
  }

  lemma StepSimulates(pf: Profiles, open: map<UserId, nat>, s: State, tid: Tid, w: set<Tid>, a: Tables)
    requires Good(pf, open, s) && Simulates(s, w, a) && IsRunning(s, tid) && Foretold(StepTx(pf, s, tid), w)
    requires !(TakesEffect(pf, s, Step(tid)) && tid in w)
    ensures Simulates(StepTx(pf, s, tid), w, a)
  {
    hide Good, Ahead;
    match Next(pf, s.t, s.txs[tid])
    case Acquire(l, next) => if !Blocked(s, tid, l) { StatementKeepsCharges(pf, s, w, tid, next, s.locks[l := tid]); }
    case Continue(next) => StatementKeepsCharges(pf, s, w, tid, next, s.locks);
    case Fail(_) => RollbackKeepsCharges(s, w, tid);
    case NoChange => RollbackKeepsCharges(s, w, tid);
    case Finish => LateCommitSimulates(pf, open, s, tid, w, a);
  }

  lemma OutsideKeepsCharges(pf: Profiles, s: State, ev: Event, w: set<Tid>)
    requires ev.Begin? || ev.Tick? || ev.Look?
    ensures Exec(pf, s, ev).t == s.t && ChargesIn(Exec(pf, s, ev), w) == ChargesIn(s, w)
  {}

  lemma CrashKeepsCharges(pf: Profiles, s: State, tid: Tid, w: set<Tid>)
    requires Foretold(Exec(pf, s, Crash(tid)), w)
    ensures Exec(pf, s, Crash(tid)).t == s.t && ChargesIn(Exec(pf, s, Crash(tid)), w) == ChargesIn(s, w)
  {
    if IsRunning(s, tid) {
      assert tid in Exec(pf, s, Crash(tid)).txs;
      RollbackKeepsCharges(s, w, tid);
    }
  }

  /** An event at which nothing takes effect leaves the tables ahead where they are. */
  lemma QuietSimulates(pf: Profiles, open: map<UserId, nat>, s: State, ev: Event, w: set<Tid>, a: Tables)
    requires Good(pf, open, s) && Simulates(s, w, a) && Foretold(Exec(pf, s, ev), w)
    requires !(TakesEffect(pf, s, ev) && ev.tid in w)
    ensures Simulates(Exec(pf, s, ev), w, a)
  {
    if ev.Step? {
      if IsRunning(s, ev.tid) {
        StepSimulates(pf, open, s, ev.tid, w, a);
      }
    } else if ev.Crash? {
      CrashKeepsCharges(pf, s, ev.tid, w);
    } else {
      OutsideKeepsCharges(pf, s, ev, w);
    }
  }
}
