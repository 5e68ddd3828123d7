/** How transactions end: the machine refuses when, and only when, the request run
    alone on the committed tables refuses, and with the same answer. */
module MarketOutcomes {
  import opened Common
  import opened MarketTables
  import opened MarketDecisions
  import opened MarketInvariants
  import opened MarketMachine
  import opened MarketTxInvariant
  import opened MarketSteps
  import opened MarketFrames
  import opened MarketSafety
  import opened MarketDeadlock

  // ----- The balance a transaction has read -----

  predicate HasReadBalance(tx: Tx) {
    (tx.op.Pay? && tx.pc == 2) || (tx.op.PostAuto? && tx.pc == 2) || (tx.op.Award? && tx.pc == 3)
  }

  /** The balance read is the balance still: of a locked row, or of no row. */
  predicate BalanceRight(t: Tables, held: set<Lock>, tx: Tx) {
    HasReadBalance(tx) ==>
      tx.balance == Balance(t, tx.op.user) && (tx.op.user in t.wallets ==> WalletLock(tx.op.user) in held)
  }

  ghost predicate BalancesRight(s: State) {
    forall tid :: IsRunning(s, tid) ==> BalanceRight(s.t, HeldBy(s.locks, tid), s.txs[tid])
  }

  lemma PayBalanceRead(t: Tables, held: set<Lock>, tx: Tx, u: UserId, o: OrderId)
    requires tx.op == Pay(u, o) && PayTx(t, held, tx, u, o)
    ensures var a := NextPay(t, tx, u, o);
      && (a.Acquire? ==> BalanceRight(t, held + {a.lock}, a.next))
      && (a.Continue? ==> BalanceRight(t, held, a.next))
  {
    assert tx.pc == 1 ==> InstallAll(t, tx.log) == t;
  }

  lemma OrderBalanceRead(pf: Profiles, t: Tables, held: set<Lock>, tx: Tx)
    requires OrderOp(tx.op) && TxOk(pf, t, held, tx)
    ensures var a := Next(pf, t, tx);
      && (a.Acquire? ==> BalanceRight(t, held + {a.lock}, a.next))
      && (a.Continue? ==> BalanceRight(t, held, a.next))
  {
    if tx.op.Pay? {
      PayBalanceRead(t, held, tx, tx.op.user, tx.op.order);
    } else {
      OrderNextSame(pf, t, tx);
    }
  }

  lemma PostAutoBalanceRead(pf: Profiles, t: Tables, held: set<Lock>, tx: Tx)
    requires tx.op.PostAuto? && PostAutoTx(pf, t, held, tx)
    ensures var a := NextPostAuto(pf, t, tx);
      && (a.Acquire? ==> BalanceRight(t, held + {a.lock}, a.next))
      && (a.Continue? ==> BalanceRight(t, held, a.next))
  {
    assert tx.pc <= 2 ==> InstallAll(t, tx.log) == t;
  }

  lemma AwardBalanceRead(pf: Profiles, t: Tables, held: set<Lock>, tx: Tx)
    requires tx.op.Award? && AwardTx(t, held, tx)
    ensures var a := NextAward(pf, t, tx);
      && (a.Acquire? ==> BalanceRight(t, held + {a.lock}, a.next))
      && (a.Continue? ==> BalanceRight(t, held, a.next))
  {
    assert tx.pc <= 2 ==> InstallAll(t, tx.log) == t;
  }

  lemma BidBalanceRead(pf: Profiles, t: Tables, held: set<Lock>, tx: Tx)
    requires !OrderOp(tx.op) && TxOk(pf, t, held, tx)
    ensures var a := Next(pf, t, tx);
      && (a.Acquire? ==> BalanceRight(t, held + {a.lock}, a.next))
      && (a.Continue? ==> BalanceRight(t, held, a.next))
  {
    hide PostAutoTx, AwardTx, NextPostAuto, NextAward, InstallAll;
    match tx.op
    case PostAuto(_, _, _, _, _) => PostAutoBalanceRead(pf, t, held, tx);
    case Award(_, _, _, _, _) => AwardBalanceRead(pf, t, held, tx);
    case _ => BidNextSame(pf, t, tx);
  }

  lemma BalanceRead(pf: Profiles, t: Tables, held: set<Lock>, tx: Tx)
    requires TxOk(pf, t, held, tx)
    ensures var a := Next(pf, t, tx);
      && (a.Acquire? ==> BalanceRight(t, held + {a.lock}, a.next))
      && (a.Continue? ==> BalanceRight(t, held, a.next))
  {
    if OrderOp(tx.op) {
      OrderBalanceRead(pf, t, held, tx);
    } else {
      BidBalanceRead(pf, t, held, tx);
    }
  }

  /** Only customers read their balance before a charge. */
  lemma ReaderIsCustomer(pf: Profiles, t: Tables, held: set<Lock>, tx: Tx)
    requires OrdersOk(pf, t) && BidsOk(pf, t) && TxOk(pf, t, held, tx) && HasReadBalance(tx)
    ensures !pf.IsLapak(tx.op.user)
  {
    if tx.op.Pay? {
      assert OrderOk(pf, t, tx.op.order);
    } else if tx.op.Award? {
      assert BidOk(pf, t, tx.op.bid);
    }
  }

  /** The log moves no wallet of u. */
  predicate Spares(log: seq<RowWrite>, u: UserId) {
    forall i :: 0 <= i < |log| && log[i].SetWallet? ==> log[i].user != u
  }

  lemma WriteOpensNoWallet(t: Tables, x: RowWrite, u: UserId)
    requires x.SetWallet? ==> x.user != u
    ensures u in Install(t, x).wallets <==> u in t.wallets
  {}

  lemma {:induction false} LogOpensNoWallet(t: Tables, log: seq<RowWrite>, u: UserId)
    requires Spares(log, u)
    ensures u in InstallAll(t, log).wallets <==> u in t.wallets
  {
    if log != [] {
      var last := |log| - 1;
      LogOpensNoWallet(t, log[..last], u);
      WriteOpensNoWallet(InstallAll(t, log[..last]), log[last], u);
    }
  }

  lemma OrderLogSpares(pf: Profiles, t: Tables, tx: Tx, u: UserId)
    requires pf.Valid() && OrderOp(tx.op) && Commits(pf, t, tx)
    requires u !in t.wallets && !pf.IsLapak(u)
    ensures Spares(tx.log, u)
  {}

  lemma BidLogSpares(pf: Profiles, t: Tables, tx: Tx, u: UserId)
    requires !OrderOp(tx.op) && Commits(pf, t, tx) && u !in t.wallets
    ensures Spares(tx.log, u)
  {}

  /** A commit opens wallets for lapaks only. */
  lemma CommitOpensNoWallet(pf: Profiles, t: Tables, held: set<Lock>, tx: Tx, u: UserId)
    requires pf.Valid() && TxOk(pf, t, held, tx) && Next(pf, t, tx) == Finish
    requires u !in t.wallets && !pf.IsLapak(u)
    ensures u !in InstallAll(t, tx.log).wallets
  {
    TxCommits(pf, t, held, tx);
    if OrderOp(tx.op) {
      OrderLogSpares(pf, t, tx, u);
    } else {
      BidLogSpares(pf, t, tx, u);
    }
    LogOpensNoWallet(t, tx.log, u);
  }

  /** Another's commit, under disjoint locks, leaves the balance as it was read. */
  lemma BalanceStable(pf: Profiles, t: Tables, t2: Tables, held: set<Lock>, held2: set<Lock>, tx: Tx)
    requires OrdersOk(pf, t) && BidsOk(pf, t) && TxOk(pf, t, held, tx) && BalanceRight(t, held, tx)
    requires Frame(t, t2, held2) && held !! held2
    requires forall u :: u !in t.wallets && !pf.IsLapak(u) ==> u !in t2.wallets
    ensures BalanceRight(t2, held, tx)
  {
    if HasReadBalance(tx) {
      ReaderIsCustomer(pf, t, held, tx);
      assert WalletFrame(t, t2, held2, tx.op.user);
    }
  }

  // ----- Refusals -----

  /** What Next does at the end of a transaction is what its request alone decides. */
  ghost predicate EndsAsDecided(pf: Profiles, t: Tables, tx: Tx) {
    var d := Decide(pf, tx.op, tx.start, t);
    match Next(pf, t, tx)
    case Fail(e) => d == Refuse(e)
    case NoChange => d == Nothing
    case Finish => tx.op.Pay? || d == Commit(tx.log)
    case _ => true
  }

  lemma PayRefuses(pf: Profiles, t: Tables, held: set<Lock>, tx: Tx)
    requires tx.op.Pay? && TxOk(pf, t, held, tx) && BalanceRight(t, held, tx)
    ensures EndsAsDecided(pf, t, tx)
  {
    PayStep(t, held, tx, tx.op.user, tx.op.order);
    assert tx.pc <= 3 ==> InstallAll(t, tx.log) == t;
  }

  lemma PayoutRefuses(pf: Profiles, t: Tables, held: set<Lock>, tx: Tx)
    requires tx.op.Confirm? || tx.op.AutoConfirm?
    requires OrdersOk(pf, t) && TxOk(pf, t, held, tx)
    ensures Next(pf, t, tx).Fail? ==> Decide(pf, tx.op, tx.start, t) == Refuse(Next(pf, t, tx).error)
    ensures Next(pf, t, tx).NoChange? ==> Decide(pf, tx.op, tx.start, t) == Nothing
  {
    PayoutStep(pf, t, held, tx, if tx.op.Confirm? then Some(tx.op.user) else None, tx.op.order);
    assert tx.pc <= 3 ==> InstallAll(t, tx.log) == t;
  }

  lemma OtherOrderRefuses(pf: Profiles, t: Tables, held: set<Lock>, tx: Tx)
    requires tx.op.PlaceOrder? || tx.op.AddItem? || tx.op.Complete?
    requires TxOk(pf, t, held, tx)
    ensures Next(pf, t, tx).Fail? ==> Decide(pf, tx.op, tx.start, t) == Refuse(Next(pf, t, tx).error)
    ensures !Next(pf, t, tx).NoChange?
  {
    assert tx.log == [] ==> InstallAll(t, tx.log) == t;
  }

  lemma PostAutoRefuses(pf: Profiles, t: Tables, held: set<Lock>, tx: Tx)
    requires tx.op.PostAuto? && TxOk(pf, t, held, tx) && BalanceRight(t, held, tx) && Balance(t, tx.op.user) >= 0
    ensures Next(pf, t, tx).Fail? ==> Decide(pf, tx.op, tx.start, t) == Refuse(Next(pf, t, tx).error)
    ensures !Next(pf, t, tx).NoChange?
  {
    PostAutoStep(pf, t, held, tx);
    assert tx.pc <= 2 ==> InstallAll(t, tx.log) == t;
    if tx.pc == 3 {
      ViewWallets(t, tx.log);
    }
  }

  lemma AwardRefuses(pf: Profiles, t: Tables, held: set<Lock>, tx: Tx)
    requires tx.op.Award? && TxOk(pf, t, held, tx) && BalanceRight(t, held, tx) && Balance(t, tx.op.user) >= 0
    ensures Next(pf, t, tx).Fail? ==> Decide(pf, tx.op, tx.start, t) == Refuse(Next(pf, t, tx).error)
    ensures !Next(pf, t, tx).NoChange?
  {
    AwardStep(pf, t, held, tx);
    assert tx.pc <= 3 ==> InstallAll(t, tx.log) == t;
    if tx.pc == 5 {
      var log := AwardLog(tx.bidRow, tx.op.user, OfferKey(tx.op.bid, tx.op.offerer), tx.offer, tx.op.fee, t.wallets[tx.op.user], tx.op.order);
      assert log[..2] == [log[0], log[1]];
      ViewOffers(t, tx.log);
    }
  }

  lemma OtherBidRefuses(pf: Profiles, t: Tables, held: set<Lock>, tx: Tx)
    requires tx.op.PostManual? || tx.op.ConfirmBid? || tx.op.AcceptBid? || tx.op.PlaceOffer?
    requires TxOk(pf, t, held, tx)
    ensures Next(pf, t, tx).Fail? ==> Decide(pf, tx.op, tx.start, t) == Refuse(Next(pf, t, tx).error)
    ensures !Next(pf, t, tx).NoChange?
  {
    assert tx.log == [] ==> InstallAll(t, tx.log) == t;
    match tx.op
    case AcceptBid(_, _, _) => AcceptBidStep(pf, t, held, tx);
    case ConfirmBid(_, _) => ConfirmBidStep(pf, t, held, tx);
    case _ =>
  }

  /** A transaction that refuses, or finds nothing to do, answers as its request
      does alone on the tables committed at that moment. */
  lemma TxEnds(pf: Profiles, t: Tables, held: set<Lock>, tx: Tx)
    requires OrdersOk(pf, t) && TxOk(pf, t, held, tx) && BalanceRight(t, held, tx)
    requires forall u: UserId :: Balance(t, u) >= 0
    ensures EndsAsDecided(pf, t, tx)
  {
    if !tx.op.Pay? && Next(pf, t, tx) == Finish {
      TxDecides(pf, t, held, tx);
    } else {
      match tx.op
      case Pay(_, _) => PayRefuses(pf, t, held, tx);
      case Confirm(_, _) => PayoutRefuses(pf, t, held, tx);
      case AutoConfirm(_) => PayoutRefuses(pf, t, held, tx);
      case PostAuto(_, _, _, _, _) => PostAutoRefuses(pf, t, held, tx);
      case Award(_, _, _, _, _) => AwardRefuses(pf, t, held, tx);
      case PostManual(_, _, _) => OtherBidRefuses(pf, t, held, tx);
      case ConfirmBid(_, _) => OtherBidRefuses(pf, t, held, tx);
      case AcceptBid(_, _, _) => OtherBidRefuses(pf, t, held, tx);
      case PlaceOffer(_, _, _) => OtherBidRefuses(pf, t, held, tx);
      case _ => OtherOrderRefuses(pf, t, held, tx);
    }
  }

  // ----- Every run -----

  lemma StepBalances(pf: Profiles, open: map<UserId, nat>, s: State, tid: Tid, next: Tx, locks: map<Lock, Tid>)
    requires Good(pf, open, s) && BalancesRight(s) && IsRunning(s, tid) && SameTx(s.txs[tid], next)
    requires BalanceRight(s.t, HeldBy(locks, tid), next)
    requires forall x :: x != tid ==> HeldBy(locks, x) == HeldBy(s.locks, x)
    ensures BalancesRight(s.(txs := s.txs[tid := next], locks := locks))
  {
    var s2 := s.(txs := s.txs[tid := next], locks := locks);
    forall x | IsRunning(s2, x) ensures BalanceRight(s2.t, HeldBy(s2.locks, x), s2.txs[x]) {
      if x != tid {
        assert IsRunning(s, x);
      }
    }
  }

  lemma RollbackBalances(s: State, tid: Tid)
    requires BalancesRight(s) && IsRunning(s, tid)
    ensures BalancesRight(End(s, tid, RolledBack))
  {
    var s2 := End(s, tid, RolledBack);
    forall x | IsRunning(s2, x) ensures BalanceRight(s2.t, HeldBy(s2.locks, x), s2.txs[x]) {
      assert IsRunning(s, x);
      ReleaseHeld(s.locks, tid, x);
    }
  }

  lemma CommitBalance(pf: Profiles, open: map<UserId, nat>, s: State, tid: Tid, x: Tid)
    requires Good(pf, open, s) && BalancesRight(s)
    requires IsRunning(s, tid) && IsRunning(s, x) && x != tid && Next(pf, s.t, s.txs[tid]) == Finish
    ensures BalanceRight(InstallAll(s.t, s.txs[tid].log), HeldBy(s.locks, x), s.txs[x])
  {
    var t2 := InstallAll(s.t, s.txs[tid].log);
    TxCommit(pf, open, s.t, HeldBy(s.locks, tid), s.txs[tid]);
    forall u | u !in s.t.wallets && !pf.IsLapak(u) ensures u !in t2.wallets {
      CommitOpensNoWallet(pf, s.t, HeldBy(s.locks, tid), s.txs[tid], u);
    }
    HeldApart(s.locks, x, tid);
    BalanceStable(pf, s.t, t2, HeldBy(s.locks, x), HeldBy(s.locks, tid), s.txs[x]);
  }

  lemma CommitBalances(pf: Profiles, open: map<UserId, nat>, s: State, tid: Tid)
    requires Good(pf, open, s) && BalancesRight(s) && IsRunning(s, tid) && Next(pf, s.t, s.txs[tid]) == Finish
    ensures BalancesRight(StepTx(pf, s, tid))
  {
    hide Good, BalanceRight, InstallAll;
    var s2 := StepTx(pf, s, tid);
    forall x | IsRunning(s2, x) ensures BalanceRight(s2.t, HeldBy(s2.locks, x), s2.txs[x]) {
      assert IsRunning(s, x);
      ReleaseHeld(s.locks, tid, x);
      CommitBalance(pf, open, s, tid, x);
    }
  }

  lemma StepKeepsBalances(pf: Profiles, open: map<UserId, nat>, s: State, tid: Tid)
    requires Good(pf, open, s) && BalancesRight(s) && IsRunning(s, tid)
    ensures BalancesRight(StepTx(pf, s, tid))
  {
    NextSame(pf, s.t, s.txs[tid]);
    BalanceRead(pf, s.t, HeldBy(s.locks, tid), s.txs[tid]);
    match Next(pf, s.t, s.txs[tid])
    case Acquire(l, next) =>
      if !Blocked(s, tid, l) {
        AcquireHeld(s.locks, l, tid);
        StepBalances(pf, open, s, tid, next, s.locks[l := tid]);
      }
    case Continue(next) =>
      StepBalances(pf, open, s, tid, next, s.locks);
      assert s.(txs := s.txs[tid := next], locks := s.locks) == s.(txs := s.txs[tid := next]);
    case Fail(_) => RollbackBalances(s, tid);
    case NoChange => RollbackBalances(s, tid);
    case Finish => CommitBalances(pf, open, s, tid);
  }

  lemma ExecKeepsBalances(pf: Profiles, open: map<UserId, nat>, s: State, ev: Event)
    requires Good(pf, open, s) && BalancesRight(s)
    ensures BalancesRight(Exec(pf, s, ev))
  {
    hide Good;
    match ev
    case Begin(tid, op) =>
      var s2 := Exec(pf, s, ev);
      forall x | IsRunning(s2, x) ensures BalanceRight(s2.t, HeldBy(s2.locks, x), s2.txs[x]) {
        if s2 == s || x != tid {
          assert IsRunning(s, x);
        }
      }
    case Step(tid) => if IsRunning(s, tid) { StepKeepsBalances(pf, open, s, tid); }
    case Crash(tid) => if IsRunning(s, tid) { RollbackBalances(s, tid); }
    case Tick(_) => assert forall x :: IsRunning(Exec(pf, s, ev), x) ==> IsRunning(s, x);
    case Look(_) => assert forall x :: IsRunning(Exec(pf, s, ev), x) ==> IsRunning(s, x);
  }

  lemma {:induction false} RunKeepsBalances(pf: Profiles, open: map<UserId, nat>, s: State, events: seq<Event>)
    requires Good(pf, open, s) && BalancesRight(s)
    ensures Good(pf, open, Run(pf, s, events)) && BalancesRight(Run(pf, s, events))
    decreases |events|
  {
    if events != [] {
      ExecKeeps(pf, open, s, events[0]);
      ExecKeepsBalances(pf, open, s, events[0]);
      RunKeepsBalances(pf, open, Exec(pf, s, events[0]), events[1..]);
    }
  }

  lemma StartIsGood(pf: Profiles, open: map<UserId, nat>, now: Time)
    requires pf.Valid()
    ensures Good(pf, open, Start(EmptyMarket(open), now)) && BalancesRight(Start(EmptyMarket(open), now))
  {
    hide Inv;
    EmptyMarketOk(pf, open);
  }

  lemma BalancesNonNegative(open: map<UserId, nat>, t: Tables)
    requires UsersOk(open, t)
    ensures forall u: UserId :: Balance(t, u) >= 0
  {
    forall u: UserId ensures Balance(t, u) >= 0 {
      assert UserOk(open, t, u);
    }
  }

  // ----- A request alone -----

  ghost predicate Alone(s: State, tid: Tid) {
    forall x :: IsRunning(s, x) ==> x == tid
  }

  /** A payment that nothing disturbs charges all that is unpaid. */
  predicate ChargesAll(t: Tables, tx: Tx) {
    tx.op.Pay? && tx.pc >= 3 ==> tx.rows == UnpaidRows(Items(t, tx.op.order))
  }

  lemma ChargesAllStep(pf: Profiles, t: Tables, held: set<Lock>, tx: Tx)
    requires TxOk(pf, t, held, tx) && ChargesAll(t, tx)
    ensures var a := Next(pf, t, tx);
      (a.Acquire? || a.Continue?) ==> ChargesAll(t, a.next)
  {
    NextSame(pf, t, tx);
    assert tx.op.Pay? && tx.pc == 2 ==> InstallAll(t, tx.log) == t;
  }

  lemma AloneCommits(pf: Profiles, t: Tables, held: set<Lock>, tx: Tx)
    requires TxOk(pf, t, held, tx) && ChargesAll(t, tx) && Next(pf, t, tx) == Finish
    ensures Decide(pf, tx.op, tx.start, t) == Commit(tx.log)
  {
    TxCommits(pf, t, held, tx);
  }

  lemma NobodyBlocks(pf: Profiles, open: map<UserId, nat>, s: State, tid: Tid)
    requires Good(pf, open, s) && IsRunning(s, tid) && Alone(s, tid)
    ensures !Waits(pf, s, tid)
  {}

  lemma StaysAlone(pf: Profiles, s: State, tid: Tid)
    requires IsRunning(s, tid) && Alone(s, tid)
    ensures Alone(StepTx(pf, s, tid), tid)
  {
    assert forall x :: x != tid ==> (IsRunning(StepTx(pf, s, tid), x) <==> IsRunning(s, x));
  }

  lemma BeginsAlone(pf: Profiles, s: State, tid: Tid, op: Op)
    requires Alone(s, tid) && tid !in s.txs
    requires WellFormed(pf, op) && Unused(s, op) && (op.AutoConfirm? ==> op.order in s.due)
    ensures var s1 := Exec(pf, s, Begin(tid, op));
      s1.t == s.t && IsRunning(s1, tid) && s1.txs[tid] == NewTx(op, s.clock) && Alone(s1, tid)
  {
    var s1 := Exec(pf, s, Begin(tid, op));
    assert forall x :: x != tid ==> (IsRunning(s1, x) <==> IsRunning(s, x));
  }

  lemma {:induction false} RunFirst(pf: Profiles, s: State, ev: Event, events: seq<Event>)
    ensures Run(pf, s, [ev] + events) == Run(pf, Exec(pf, s, ev), events)
  {
    assert ([ev] + events)[1..] == events;
  }

  /** How the transaction tid has ended, started on the tables t. */
  ghost predicate EndedAs(pf: Profiles, s: State, tid: Tid, op: Op, start: Time, t: Tables) {
    && tid in s.txs
    && s.txs[tid].phase == (if Decide(pf, op, start, t).Commit? then Committed else RolledBack)
    && s.t == After(pf, op, start, t)
  }

  lemma {:induction false} FinishesAlone(pf: Profiles, open: map<UserId, nat>, s: State, tid: Tid) returns (events: seq<Event>)
    requires Good(pf, open, s) && BalancesRight(s)
    requires IsRunning(s, tid) && Alone(s, tid) && ChargesAll(s.t, s.txs[tid])
    ensures forall i :: 0 <= i < |events| ==> events[i] == Step(tid)
    ensures EndedAs(pf, Run(pf, s, events), tid, s.txs[tid].op, s.txs[tid].start, s.t)
    decreases 12 - s.txs[tid].pc
  {
    hide Good, BalancesRight, TxOk, Next, End;
    var tx, held, s1 := s.txs[tid], HeldBy(s.locks, tid), StepTx(pf, s, tid);
    NobodyBlocks(pf, open, s, tid);
    TxOkAt(pf, open, s, tid);
    NextSame(pf, s.t, tx);
    if Next(pf, s.t, tx).Acquire? || Next(pf, s.t, tx).Continue? {
      PcGrows(pf, s.t, tx);
      PcBounded(pf, s.t, held, tx);
      ChargesAllStep(pf, s.t, held, tx);
      ExecKeeps(pf, open, s, Step(tid));
      ExecKeepsBalances(pf, open, s, Step(tid));
      StaysAlone(pf, s, tid);
      var rest := FinishesAlone(pf, open, s1, tid);
      events := [Step(tid)] + rest;
      RunFirst(pf, s, Step(tid), rest);
    } else {
      events := [Step(tid)];
      EndsAlone(pf, open, s, tid);
    }
  }

  lemma EndsAlone(pf: Profiles, open: map<UserId, nat>, s: State, tid: Tid)
    requires Good(pf, open, s) && BalancesRight(s) && IsRunning(s, tid) && ChargesAll(s.t, s.txs[tid])
    requires !Next(pf, s.t, s.txs[tid]).Acquire? && !Next(pf, s.t, s.txs[tid]).Continue?
    ensures EndedAs(pf, StepTx(pf, s, tid), tid, s.txs[tid].op, s.txs[tid].start, s.t)
  {
    var tx, held := s.txs[tid], HeldBy(s.locks, tid);
    BalancesNonNegative(open, s.t);
    TxEnds(pf, s.t, held, tx);
    if Next(pf, s.t, tx) == Finish {
      AloneCommits(pf, s.t, held, tx);
    }
  }

  /** The machine can do whatever a request decides: begun when nothing else is
      running, it ends by its own steps with exactly its decision. */
  lemma {:induction false} RequestRunsAlone(pf: Profiles, open: map<UserId, nat>, s: State, tid: Tid, op: Op) returns (events: seq<Event>)
    requires Good(pf, open, s) && BalancesRight(s) && Alone(s, tid) && tid !in s.txs
    requires WellFormed(pf, op) && Unused(s, op) && (op.AutoConfirm? ==> op.order in s.due)
    ensures forall i :: 0 <= i < |events| ==> events[i] == Step(tid)
    ensures EndedAs(pf, Run(pf, s, [Begin(tid, op)] + events), tid, op, s.clock, s.t)
  {
    var s1 := Exec(pf, s, Begin(tid, op));
    ExecKeeps(pf, open, s, Begin(tid, op));
    ExecKeepsBalances(pf, open, s, Begin(tid, op));
    BeginsAlone(pf, s, tid, op);
    events := FinishesAlone(pf, open, s1, tid);
    RunFirst(pf, s, Begin(tid, op), events);
  }
}
