/** Every run keeps the table invariants, however its transactions interleave,
    wait and crash. */
module MarketSafety {
  import opened Common
  import opened MarketTables
  import opened MarketDecisions
  import opened MarketInvariants
  import opened MarketMachine
  import opened MarketTxInvariant
  import opened MarketSteps
  import opened MarketFrames
  import opened MarketStability

  // ----- The invariant of a run -----

  ghost predicate LocksOk(s: State) {
    forall l :: l in s.locks ==> IsRunning(s, s.locks[l])
  }

  ghost predicate TxsOk(pf: Profiles, s: State) {
    forall tid :: IsRunning(s, tid) ==> TxOk(pf, s.t, HeldBy(s.locks, tid), s.txs[tid])
  }

  predicate IdsDiffer(a: Op, b: Op) {
    && (NewOrder(a).Some? ==> NewOrder(a) != NewOrder(b))
    && (NewBid(a).Some? ==> NewBid(a) != NewBid(b))
  }

  ghost predicate IdsOk(s: State) {
    forall i, j :: i in s.txs && j in s.txs && i != j ==> IdsDiffer(s.txs[i].op, s.txs[j].op)
  }

  /** An order the sweeper has seen overdue has a deadline that has passed. */
  ghost predicate DueOk(s: State) {
    forall o :: o in s.due ==> o in s.t.orders && s.t.orders[o].deadline.Some? && s.t.orders[o].deadline.value <= s.clock
  }

  ghost predicate Good(pf: Profiles, open: map<UserId, nat>, s: State) {
    && Inv(pf, open, s.t)
    && LocksOk(s) && TxsOk(pf, s) && IdsOk(s) && DueOk(s)
  }

  /** What a running transaction relies on, in a good state. */
  lemma TxOkAt(pf: Profiles, open: map<UserId, nat>, s: State, tid: Tid)
    requires Good(pf, open, s) && IsRunning(s, tid)
    ensures TxOk(pf, s.t, HeldBy(s.locks, tid), s.txs[tid])
  {
    hide Inv, TxOk;
  }

  // ----- Beginning -----

  lemma NewTxOk(pf: Profiles, s: State, op: Op)
    requires WellFormed(pf, op) && Fresh(s.t, op) && DueOk(s)
    requires op.AutoConfirm? ==> op.order in s.due
    ensures TxOk(pf, s.t, {}, NewTx(op, s.clock))
  {}

  lemma BeginKeeps(pf: Profiles, open: map<UserId, nat>, s: State, tid: Tid, op: Op)
    requires Good(pf, open, s)
    ensures Good(pf, open, Exec(pf, s, Begin(tid, op)))
  {
    hide Inv, TxOk, WellFormed, Fresh;
    var s2 := Exec(pf, s, Begin(tid, op));
    if s2 != s {
      NewTxOk(pf, s, op);
      assert HeldBy(s2.locks, tid) == {};
      forall x | IsRunning(s2, x) ensures TxOk(pf, s2.t, HeldBy(s2.locks, x), s2.txs[x]) {
        if x != tid {
          assert IsRunning(s, x);
        }
      }
    }
  }

  // ----- A statement that does not end its transaction -----

  lemma StepTxs(pf: Profiles, s: State, tid: Tid, next: Tx, locks: map<Lock, Tid>)
    requires TxsOk(pf, s) && IsRunning(s, tid) && SameTx(s.txs[tid], next)
    requires TxOk(pf, s.t, HeldBy(locks, tid), next)
    requires forall x :: x != tid ==> HeldBy(locks, x) == HeldBy(s.locks, x)
    ensures TxsOk(pf, s.(txs := s.txs[tid := next], locks := locks))
  {
    var s2 := s.(txs := s.txs[tid := next], locks := locks);
    forall x | IsRunning(s2, x) ensures TxOk(pf, s2.t, HeldBy(s2.locks, x), s2.txs[x]) {
      if x != tid {
        assert IsRunning(s, x);
      }
    }
  }

  lemma AcquireHeld(locks: map<Lock, Tid>, l: Lock, tid: Tid)
    requires l in locks ==> locks[l] == tid
    ensures HeldBy(locks[l := tid], tid) == HeldBy(locks, tid) + {l}
    ensures forall x :: x != tid ==> HeldBy(locks[l := tid], x) == HeldBy(locks, x)
  {}

  lemma AcquireKeeps(pf: Profiles, open: map<UserId, nat>, s: State, tid: Tid, l: Lock, next: Tx)
    requires Good(pf, open, s) && IsRunning(s, tid) && Next(pf, s.t, s.txs[tid]) == Acquire(l, next)
    requires !Blocked(s, tid, l)
    ensures Good(pf, open, s.(txs := s.txs[tid := next], locks := s.locks[l := tid]))
  {
    var locks := s.locks[l := tid];
    TxStep(pf, s.t, HeldBy(s.locks, tid), s.txs[tid]);
    NextSame(pf, s.t, s.txs[tid]);
    AcquireHeld(s.locks, l, tid);
    StepTxs(pf, s, tid, next, locks);
  }

  lemma ContinueKeeps(pf: Profiles, open: map<UserId, nat>, s: State, tid: Tid, next: Tx)
    requires Good(pf, open, s) && IsRunning(s, tid) && Next(pf, s.t, s.txs[tid]) == Continue(next)
    ensures Good(pf, open, s.(txs := s.txs[tid := next]))
  {
    TxStep(pf, s.t, HeldBy(s.locks, tid), s.txs[tid]);
    NextSame(pf, s.t, s.txs[tid]);
    StepTxs(pf, s, tid, next, s.locks);
    assert s.(txs := s.txs[tid := next], locks := s.locks) == s.(txs := s.txs[tid := next]);
  }

  // ----- An end without a commit -----

  lemma ReleaseHeld(locks: map<Lock, Tid>, tid: Tid, x: Tid)
    requires x != tid
    ensures HeldBy(ReleaseAll(locks, tid), x) == HeldBy(locks, x)
  {}

  lemma RollbackKeeps(pf: Profiles, open: map<UserId, nat>, s: State, tid: Tid)
    requires Good(pf, open, s) && IsRunning(s, tid)
    ensures Good(pf, open, End(s, tid, RolledBack))
  {
    var s2 := End(s, tid, RolledBack);
    forall x | IsRunning(s2, x) ensures TxOk(pf, s2.t, HeldBy(s2.locks, x), s2.txs[x]) {
      assert IsRunning(s, x);
      ReleaseHeld(s.locks, tid, x);
    }
  }

  // ----- A commit -----

  lemma StillFresh(t: Tables, t2: Tables, op: Op, op2: Op)
    requires Fresh(t, op) && OnlyNew(t, t2, op2) && IdsDiffer(op, op2)
    requires forall o :: o in t2.items || o in t2.payments ==> o in t2.orders
    ensures Fresh(t2, op)
  {}

  lemma HeldApart(locks: map<Lock, Tid>, a: Tid, b: Tid)
    requires a != b
    ensures HeldBy(locks, a) !! HeldBy(locks, b)
  {}

  /** Any other running transaction, across the commit of tid. */
  lemma CommitOther(pf: Profiles, open: map<UserId, nat>, s: State, tid: Tid, x: Tid)
    requires Good(pf, open, s) && IsRunning(s, tid) && IsRunning(s, x) && x != tid
    requires Next(pf, s.t, s.txs[tid]) == Finish
    requires Inv(pf, open, InstallAll(s.t, s.txs[tid].log))
    ensures TxOk(pf, InstallAll(s.t, s.txs[tid].log), HeldBy(s.locks, x), s.txs[x])
  {
    var t2 := InstallAll(s.t, s.txs[tid].log);
    TxCommit(pf, open, s.t, HeldBy(s.locks, tid), s.txs[tid]);
    StillFresh(s.t, t2, s.txs[x].op, s.txs[tid].op);
    HeldApart(s.locks, x, tid);
    TxStable(pf, s.t, t2, HeldBy(s.locks, x), HeldBy(s.locks, tid), s.txs[x]);
  }

  lemma CommitTxs(pf: Profiles, open: map<UserId, nat>, s: State, tid: Tid)
    requires Good(pf, open, s) && IsRunning(s, tid) && Next(pf, s.t, s.txs[tid]) == Finish
    requires Inv(pf, open, InstallAll(s.t, s.txs[tid].log))
    ensures TxsOk(pf, End(s, tid, Committed).(t := InstallAll(s.t, s.txs[tid].log)))
  {
    var s2 := End(s, tid, Committed).(t := InstallAll(s.t, s.txs[tid].log));
    forall x | IsRunning(s2, x) ensures TxOk(pf, s2.t, HeldBy(s2.locks, x), s2.txs[x]) {
      assert IsRunning(s, x);
      ReleaseHeld(s.locks, tid, x);
      CommitOther(pf, open, s, tid, x);
    }
  }

  lemma DueKept(pf: Profiles, s: State, t2: Tables, held: set<Lock>)
    requires DueOk(s) && OrdersOk(pf, s.t) && Frame(s.t, t2, held)
    ensures DueOk(s.(t := t2))
  {
    forall o | o in s.due ensures o in t2.orders && t2.orders[o].deadline.Some? && t2.orders[o].deadline.value <= s.clock {
      assert OrderFrame(s.t, t2, held, o) && OrderOk(pf, s.t, o);
    }
  }

  lemma CommitStateKeeps(pf: Profiles, open: map<UserId, nat>, s: State, tid: Tid)
    requires Good(pf, open, s) && IsRunning(s, tid) && Next(pf, s.t, s.txs[tid]) == Finish
    ensures Good(pf, open, End(s, tid, Committed).(t := InstallAll(s.t, s.txs[tid].log)))
  {
    hide TxOk, UsersOk, LedgerOk, OrdersOk, BidsOk, Money, InstallAll, Frame, OnlyNew, Commits;
    TxCommits(pf, s.t, HeldBy(s.locks, tid), s.txs[tid]);
    CommitKeeps(pf, open, s.t, s.txs[tid]);
    CommitTxs(pf, open, s, tid);
    TxCommit(pf, open, s.t, HeldBy(s.locks, tid), s.txs[tid]);
    DueKept(pf, s, InstallAll(s.t, s.txs[tid].log), HeldBy(s.locks, tid));
  }

  // ----- Runs -----

  lemma StepKeeps(pf: Profiles, open: map<UserId, nat>, s: State, tid: Tid)
    requires Good(pf, open, s) && IsRunning(s, tid)
    ensures Good(pf, open, StepTx(pf, s, tid))
  {
    hide Good;
    match Next(pf, s.t, s.txs[tid])
    case Acquire(l, next) =>
      if !Blocked(s, tid, l) {
        AcquireKeeps(pf, open, s, tid, l, next);
      }
    case Continue(next) => ContinueKeeps(pf, open, s, tid, next);
    case Fail(_) => RollbackKeeps(pf, open, s, tid);
    case NoChange => RollbackKeeps(pf, open, s, tid);
    case Finish => CommitStateKeeps(pf, open, s, tid);
  }

  lemma ExecKeeps(pf: Profiles, open: map<UserId, nat>, s: State, ev: Event)
    requires Good(pf, open, s)
    ensures Good(pf, open, Exec(pf, s, ev))
  {
    hide Good;
    match ev
    case Begin(tid, op) => BeginKeeps(pf, open, s, tid, op);
    case Step(tid) => if IsRunning(s, tid) { StepKeeps(pf, open, s, tid); }
    case Crash(tid) => if IsRunning(s, tid) { RollbackKeeps(pf, open, s, tid); }
    case Tick(_) => OutsideKeeps(pf, open, s, ev);
    case Look(_) => OutsideKeeps(pf, open, s, ev);
  }

  /** The clock runs on, or the sweeper looks. */
  lemma OutsideKeeps(pf: Profiles, open: map<UserId, nat>, s: State, ev: Event)
    requires Good(pf, open, s) && (ev.Tick? || ev.Look?)
    ensures Good(pf, open, Exec(pf, s, ev))
  {
    hide Inv, TxOk;
    assert forall tid :: IsRunning(Exec(pf, s, ev), tid) <==> IsRunning(s, tid);
  }

  lemma {:induction false} RunKeeps(pf: Profiles, open: map<UserId, nat>, s: State, events: seq<Event>)
    requires Good(pf, open, s)
    ensures Good(pf, open, Run(pf, s, events))
    decreases |events|
  {
    if events != [] {
      ExecKeeps(pf, open, s, events[0]);
      RunKeeps(pf, open, Exec(pf, s, events[0]), events[1..]);
    }
  }

  /** Main safety theorem: from any opening balances, every reachable state has
      every table invariant. */
  lemma {:induction false} EveryRunIsSafe(pf: Profiles, open: map<UserId, nat>, now: Time, events: seq<Event>)
    requires pf.Valid()
    ensures Inv(pf, open, Run(pf, Start(EmptyMarket(open), now), events).t)
  {
    var s := Start(EmptyMarket(open), now);
    EmptyMarketOk(pf, open);
    assert Good(pf, open, s);
    RunKeeps(pf, open, s, events);
  }
}
