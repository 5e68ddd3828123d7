/** The sweeper among all the other transactions: however they interleave, a backlog
    of overdue orders is completed after as many rounds as its size demands. */
module MarketBacklog {
  import opened Common
  import opened MarketTables
  import opened MarketDecisions
  import opened MarketInvariants
  import opened MarketMachine
  import opened MarketTxInvariant
  import opened MarketSteps
  import opened MarketFrames
  import opened MarketSafety
  import opened MarketHistory
  import opened MarketOutcomes
  import opened MarketSweep

  /** A round of the sweeper in a run: the orders the sweeper finds, and then whatever happens, its own
      payouts and any other transactions, until it looks again. */
  datatype Round = Round(found: set<OrderId>, events: seq<Event>)

  /** A payout of the order, begun since s, is over by the state end, and not by a crash. */
  ghost predicate WorkedOff(s: State, events: seq<Event>, end: State, o: OrderId) {
    exists tid :: tid !in s.txs && tid in end.txs
      && end.txs[tid].op == AutoConfirm(o) && end.txs[tid].phase != Running && Crash(tid) !in events
  }

  ghost predicate PicksBatch(s: State, found: set<OrderId>) {
    exists ids :: IsBatch(s.t, s.clock, ids) && found == IdSet(ids)
  }

  ghost function AfterRound(pf: Profiles, s: State, round: Round): State {
    Run(pf, Exec(pf, s, Look(round.found)), round.events)
  }

  /** The sweeper finds a batch and works it off, without failing rows. */
  ghost predicate SweptIn(pf: Profiles, s: State, round: Round) {
    && PicksBatch(s, round.found)
    && forall o :: o in round.found ==> WorkedOff(Exec(pf, s, Look(round.found)), round.events, AfterRound(pf, s, round), o)
  }

  ghost function AfterRounds(pf: Profiles, s: State, rounds: seq<Round>): State
    decreases |rounds|
  {
    if rounds == [] then s else AfterRounds(pf, AfterRound(pf, s, rounds[0]), rounds[1..])
  }

  ghost predicate AllSwept(pf: Profiles, s: State, rounds: seq<Round>)
    decreases |rounds|
  {
    rounds == [] || (SweptIn(pf, s, rounds[0]) && AllSwept(pf, AfterRound(pf, s, rounds[0]), rounds[1..]))
  }

  // ----- A payout that ends leaves its order completed -----

  predicate IsDone(t: Tables, o: OrderId) {
    o in t.orders && t.orders[o].status == Completed
  }

  /** The order's lapak has finished; the payout is still to come, or was made. */
  predicate AwaitsOrDone(t: Tables, o: OrderId) {
    o in t.orders && t.orders[o].status in {AwaitingConfirmation, Completed}
  }

  ghost predicate EndsDone(s: State, tid: Tid, o: OrderId) {
    tid in s.txs && s.txs[tid].op == AutoConfirm(o) && s.txs[tid].phase != Running ==> IsDone(s.t, o)
  }

  lemma EventKeepsDone(pf: Profiles, open: map<UserId, nat>, s: State, ev: Event, o: OrderId)
    requires Good(pf, open, s) && AwaitsOrDone(s.t, o)
    ensures AwaitsOrDone(Exec(pf, s, ev).t, o) && (IsDone(s.t, o) ==> IsDone(Exec(pf, s, ev).t, o))
  {
    hide Good;
    EventMovesOneStep(pf, open, s, ev);
    assert OrderOnward(s.t, Exec(pf, s, ev).t, o);
  }

  lemma PutIsDone(t: Tables, log: seq<RowWrite>, o: OrderId, row: Order)
    requires row.status == Completed
    ensures IsDone(InstallAll(t, log + [PutOrder(o, row)]), o)
  {
    hide InstallAll;
    InstallSnoc(t, log, PutOrder(o, row));
  }

  lemma PayoutCompletes(pf: Profiles, t: Tables, now: Time, o: OrderId, auto: bool, log: seq<RowWrite>)
    requires DecidePayout(pf, t, now, o, auto) == Commit(log)
    ensures IsDone(InstallAll(t, log), o)
  {
    hide InstallAll, Install, IsDone, Balance, PaidIdr, PayoutEntry;
    var v := pf.userOf[t.orders[o].lapak];
    var amount, balance, row := PaidIdr(Items(t, o)), Balance(t, v), CompletedRow(t.orders[o], auto, now);
    var after := balance + amount;
    var money := if amount > 0 then [SetWallet(v, after), AppendEntry(v, PayoutEntry(o, amount, after))] else [];
    assert log == PayoutLog(t.orders[o], v, o, amount, balance, auto, now) == money + [PutOrder(o, row)];
    PutIsDone(t, money, o, row);
  }

  lemma PayoutEnd(pf: Profiles, t: Tables, tx: Tx, o: OrderId)
    requires tx.op == AutoConfirm(o) && EndsAsDecided(pf, t, tx)
    requires AwaitsOrDone(t, o) && t.orders[o].lapak in pf.userOf
    ensures var a := Next(pf, t, tx);
      !a.Fail? && (a.NoChange? ==> IsDone(t, o)) && (a == Finish ==> IsDone(InstallAll(t, tx.log), o))
  {
    if Next(pf, t, tx) == Finish {
      PayoutCompletes(pf, t, tx.start, o, true, tx.log);
    }
  }

  lemma EndsAt(pf: Profiles, open: map<UserId, nat>, s: State, tid: Tid)
    requires Good(pf, open, s) && BalancesRight(s) && IsRunning(s, tid)
    ensures EndsAsDecided(pf, s.t, s.txs[tid])
  {
    BalancesNonNegative(open, s.t);
    TxEnds(pf, s.t, HeldBy(s.locks, tid), s.txs[tid]);
  }

  lemma PayoutEndsDone(pf: Profiles, s: State, tid: Tid, o: OrderId)
    requires OrdersOk(pf, s.t) && AwaitsOrDone(s.t, o)
    requires IsRunning(s, tid) && s.txs[tid].op == AutoConfirm(o) && EndsAsDecided(pf, s.t, s.txs[tid])
    ensures EndsDone(StepTx(pf, s, tid), tid, o)
  {
    assert OrderOk(pf, s.t, o);
    PayoutEnd(pf, s.t, s.txs[tid], o);
    NextSame(pf, s.t, s.txs[tid]);
  }

  lemma OtherOpEndsDone(pf: Profiles, s: State, tid: Tid, o: OrderId)
    requires IsRunning(s, tid) && s.txs[tid].op != AutoConfirm(o)
    ensures EndsDone(StepTx(pf, s, tid), tid, o)
  {
    NextSame(pf, s.t, s.txs[tid]);
  }

  lemma OthersKeep(pf: Profiles, s: State, ev: Event, tid: Tid)
    requires tid in s.txs && ev != Step(tid) && ev != Crash(tid)
    ensures tid in Exec(pf, s, ev).txs && Exec(pf, s, ev).txs[tid] == s.txs[tid]
  {}

  lemma StepEndsDone(pf: Profiles, open: map<UserId, nat>, s: State, tid: Tid, o: OrderId)
    requires Good(pf, open, s) && BalancesRight(s) && AwaitsOrDone(s.t, o) && IsRunning(s, tid)
    ensures EndsDone(StepTx(pf, s, tid), tid, o)
  {
    EndsAt(pf, open, s, tid);
    if s.txs[tid].op == AutoConfirm(o) {
      PayoutEndsDone(pf, s, tid, o);
    } else {
      OtherOpEndsDone(pf, s, tid, o);
    }
  }

  lemma EventEndsDone(pf: Profiles, open: map<UserId, nat>, s: State, ev: Event, tid: Tid, o: OrderId)
    requires Good(pf, open, s) && BalancesRight(s) && AwaitsOrDone(s.t, o) && EndsDone(s, tid, o)
    requires ev != Crash(tid)
    ensures EndsDone(Exec(pf, s, ev), tid, o)
  {
    hide Good, BalancesRight;
    if ev == Step(tid) && IsRunning(s, tid) {
      StepEndsDone(pf, open, s, tid, o);
    } else if tid in s.txs {
      EventKeepsDone(pf, open, s, ev, o);
      StaysEnded(pf, s, ev, tid, o);
    }
  }

  lemma StaysEnded(pf: Profiles, s: State, ev: Event, tid: Tid, o: OrderId)
    requires tid in s.txs && EndsDone(s, tid, o) && (IsDone(s.t, o) ==> IsDone(Exec(pf, s, ev).t, o))
    requires ev != Crash(tid) && !(ev == Step(tid) && IsRunning(s, tid))
    ensures EndsDone(Exec(pf, s, ev), tid, o)
  {
    if ev != Step(tid) {
      OthersKeep(pf, s, ev, tid);
    }
  }

  lemma {:induction false} RunEndsDone(pf: Profiles, open: map<UserId, nat>, s: State, events: seq<Event>, tid: Tid, o: OrderId)
    requires Good(pf, open, s) && BalancesRight(s) && AwaitsOrDone(s.t, o) && EndsDone(s, tid, o)
    requires Crash(tid) !in events
    ensures EndsDone(Run(pf, s, events), tid, o)
    decreases |events|
  {
    if events != [] {
      var s1 := Exec(pf, s, events[0]);
      ExecKeeps(pf, open, s, events[0]);
      ExecKeepsBalances(pf, open, s, events[0]);
      EventKeepsDone(pf, open, s, events[0], o);
      EventEndsDone(pf, open, s, events[0], tid, o);
      RunEndsDone(pf, open, s1, events[1..], tid, o);
    }
  }

  lemma LookKeeps(pf: Profiles, open: map<UserId, nat>, s: State, found: set<OrderId>)
    requires Good(pf, open, s) && BalancesRight(s)
    ensures var s1 := Exec(pf, s, Look(found));
      Good(pf, open, s1) && BalancesRight(s1) && s1.t == s.t && s1.txs == s.txs && s1.clock == s.clock
  {
    hide Good, BalancesRight;
    ExecKeeps(pf, open, s, Look(found));
    ExecKeepsBalances(pf, open, s, Look(found));
  }

  lemma PickedAwait(s: State, found: set<OrderId>, o: OrderId)
    requires PicksBatch(s, found) && o in found
    ensures AwaitsOrDone(s.t, o)
  {
    var ids :| IsBatch(s.t, s.clock, ids) && found == IdSet(ids);
    assert o in OverdueOrders(s.t, s.clock);
  }

  lemma {:induction false} WorkedOffIsDone(pf: Profiles, open: map<UserId, nat>, s: State, events: seq<Event>, o: OrderId)
    requires Good(pf, open, s) && BalancesRight(s) && AwaitsOrDone(s.t, o)
    requires WorkedOff(s, events, Run(pf, s, events), o)
    ensures IsDone(Run(pf, s, events).t, o)
  {
    var end := Run(pf, s, events);
    var tid :| tid !in s.txs && tid in end.txs && end.txs[tid].op == AutoConfirm(o) && end.txs[tid].phase != Running && Crash(tid) !in events;
    RunEndsDone(pf, open, s, events, tid, o);
  }

  /** Every order of a batch that was worked off is completed. */
  lemma RoundCompletes(pf: Profiles, open: map<UserId, nat>, s: State, round: Round, o: OrderId)
    requires Good(pf, open, s) && BalancesRight(s) && SweptIn(pf, s, round) && o in round.found
    ensures IsDone(AfterRound(pf, s, round).t, o)
  {
    LookKeeps(pf, open, s, round.found);
    PickedAwait(s, round.found, o);
    WorkedOffIsDone(pf, open, Exec(pf, s, Look(round.found)), round.events, o);
  }

  // ----- The backlog grows only by what was under way -----

  /** The completions of work under way that would set a deadline at or before cutoff. */
  ghost function Late(s: State, cutoff: Time): set<Tid> {
    set tid | tid in s.txs && s.txs[tid].phase == Running && s.txs[tid].op.Complete?
      && s.txs[tid].start + s.txs[tid].op.seconds <= cutoff
  }

  /** The orders overdue since cutoff, those in done apart, and those yet to join them. */
  ghost function Owed(s: State, cutoff: Time, done: set<OrderId>): nat {
    |Backlog(s.t, cutoff) - done| + |Late(s, cutoff)|
  }

  lemma FewerOf<T>(a: set<T>, b: set<T>)
    requires a <= b
    ensures |a| <= |b|
  {
    assert |b - a| == |b| - |a|;
  }

  /** No write starts a countdown, but for the order o's with the deadline given. */
  predicate StartsOnly(t: Tables, log: seq<RowWrite>, o: OrderId, deadline: Option<Time>) {
    forall i :: 0 <= i < |log| && log[i].PutOrder? && log[i].row.status == AwaitingConfirmation ==>
      log[i].order == o && log[i].row.deadline == deadline && deadline.Some?
  }

  lemma {:induction false} StartsInstalled(t: Tables, log: seq<RowWrite>, o: OrderId, deadline: Option<Time>, x: OrderId)
    requires StartsOnly(t, log, o, deadline)
    requires x in InstallAll(t, log).orders && InstallAll(t, log).orders[x].status == AwaitingConfirmation
    ensures (x in t.orders && t.orders[x] == InstallAll(t, log).orders[x])
         || (x == o && deadline.Some? && InstallAll(t, log).orders[x].deadline == deadline)
  {
    if log != [] {
      var last := |log| - 1;
      if log[last] != PutOrder(x, InstallAll(t, log).orders[x]) {
        StartsInstalled(t, log[..last], o, deadline, x);
      }
    }
  }

  lemma OrderOpsStart(pf: Profiles, t: Tables, tx: Tx)
    requires Commits(pf, t, tx) && OrderOp(tx.op) && !tx.op.Complete?
    ensures StartsOnly(t, tx.log, 0, None)
  {}

  lemma BidOpsStart(pf: Profiles, t: Tables, tx: Tx)
    requires Commits(pf, t, tx) && !OrderOp(tx.op)
    ensures StartsOnly(t, tx.log, 0, None)
  {}

  lemma CompleteStarts(pf: Profiles, t: Tables, tx: Tx, deadline: Time)
    requires Commits(pf, t, tx) && tx.op.Complete? && deadline == tx.start + tx.op.seconds
    ensures StartsOnly(t, tx.log, tx.op.order, Some(deadline))
  {}

  /** A commit adds to the backlog at most the order whose completion was late. */
  lemma CommitBacklog(pf: Profiles, t: Tables, tx: Tx, cutoff: Time)
    requires Commits(pf, t, tx)
    ensures Backlog(InstallAll(t, tx.log), cutoff)
         <= Backlog(t, cutoff) + if tx.op.Complete? && tx.start + tx.op.seconds <= cutoff then {tx.op.order} else {}
  {
    var t2 := InstallAll(t, tx.log);
    forall x | x in Backlog(t2, cutoff)
      ensures x in Backlog(t, cutoff) || (tx.op.Complete? && tx.start + tx.op.seconds <= cutoff && x == tx.op.order)
    {
      if tx.op.Complete? {
        var deadline := tx.start + tx.op.seconds;
        CompleteStarts(pf, t, tx, deadline);
        StartsInstalled(t, tx.log, tx.op.order, Some(deadline), x);
      } else {
        if OrderOp(tx.op) {
          OrderOpsStart(pf, t, tx);
        } else {
          BidOpsStart(pf, t, tx);
        }
        StartsInstalled(t, tx.log, 0, None, x);
      }
    }
  }

  lemma CommitOwesNoMore(pf: Profiles, open: map<UserId, nat>, s: State, tid: Tid, cutoff: Time, done: set<OrderId>)
    requires Good(pf, open, s) && IsRunning(s, tid) && Next(pf, s.t, s.txs[tid]) == Finish
    ensures Owed(StepTx(pf, s, tid), cutoff, done) <= Owed(s, cutoff, done)
  {
    hide Good, Next, Backlog;
    var tx, s2 := s.txs[tid], StepTx(pf, s, tid);
    CommitsAt(pf, open, s, tid);
    CommitBacklog(pf, s.t, tx, cutoff);
    assert Late(s2, cutoff) == Late(s, cutoff) - {tid};
    if tid in Late(s, cutoff) {
      FewerOf(Backlog(s2.t, cutoff) - done, (Backlog(s.t, cutoff) - done) + {tx.op.order});
    } else {
      FewerOf(Backlog(s2.t, cutoff) - done, Backlog(s.t, cutoff) - done);
    }
  }

  /** Nobody else joins the late ones once the cutoff has passed. */
  lemma LateOnlyShrinks(pf: Profiles, s: State, ev: Event, cutoff: Time)
    requires cutoff < s.clock
    ensures Late(Exec(pf, s, ev), cutoff) <= Late(s, cutoff)
  {
    if ev.Step? && IsRunning(s, ev.tid) {
      NextSame(pf, s.t, s.txs[ev.tid]);
    }
  }

  lemma EventOwesNoMore(pf: Profiles, open: map<UserId, nat>, s: State, ev: Event, cutoff: Time, done: set<OrderId>)
    requires Good(pf, open, s) && cutoff < s.clock
    ensures Owed(Exec(pf, s, ev), cutoff, done) <= Owed(s, cutoff, done) && cutoff < Exec(pf, s, ev).clock
  {
    hide Good, Next, Late, Backlog;
    OnlyCommitsChange(pf, s, ev);
    if ev.Step? && IsRunning(s, ev.tid) && Next(pf, s.t, s.txs[ev.tid]) == Finish {
      CommitOwesNoMore(pf, open, s, ev.tid, cutoff, done);
    } else {
      LateOnlyShrinks(pf, s, ev, cutoff);
      FewerOf(Late(Exec(pf, s, ev), cutoff), Late(s, cutoff));
    }
  }

  lemma {:induction false} RunOwesNoMore(pf: Profiles, open: map<UserId, nat>, s: State, events: seq<Event>, cutoff: Time, done: set<OrderId>)
    requires Good(pf, open, s) && cutoff < s.clock
    ensures Owed(Run(pf, s, events), cutoff, done) <= Owed(s, cutoff, done) && cutoff < Run(pf, s, events).clock
    decreases |events|
  {
    if events != [] {
      ExecKeeps(pf, open, s, events[0]);
      EventOwesNoMore(pf, open, s, events[0], cutoff, done);
      RunOwesNoMore(pf, open, Exec(pf, s, events[0]), events[1..], cutoff, done);
    }
  }

  // ----- A round -----

  lemma RoundKeeps(pf: Profiles, open: map<UserId, nat>, s: State, round: Round)
    requires Good(pf, open, s) && BalancesRight(s)
    ensures Good(pf, open, AfterRound(pf, s, round)) && BalancesRight(AfterRound(pf, s, round))
  {
    LookKeeps(pf, open, s, round.found);
    RunKeepsBalances(pf, open, Exec(pf, s, Look(round.found)), round.events);
  }

  /** Through a round everything goes onward, and what is owed does not grow. */
  lemma RoundGoesOnward(pf: Profiles, open: map<UserId, nat>, s: State, round: Round, cutoff: Time, done: set<OrderId>)
    requires Good(pf, open, s) && BalancesRight(s) && cutoff < s.clock
    ensures var end := AfterRound(pf, s, round);
      Onward(s.t, end.t) && cutoff < end.clock && Owed(end, cutoff, done) <= Owed(s, cutoff, done)
  {
    var s1 := Exec(pf, s, Look(round.found));
    LookKeeps(pf, open, s, round.found);
    RunGoesOnward(pf, open, s1, round.events);
    RunOwesNoMore(pf, open, s1, round.events, cutoff, done);
    assert Late(s1, cutoff) == Late(s, cutoff);
  }

  /** What a batch takes off what is owed. */
  lemma BatchOwes(s: State, found: set<OrderId>, cutoff: Time)
    requires PicksBatch(s, found) && cutoff < s.clock
    ensures Backlog(s.t, cutoff) <= found || Owed(s, cutoff, found) == Owed(s, cutoff, {}) - SWEEP_BATCH
  {
    var ids :| IsBatch(s.t, s.clock, ids) && found == IdSet(ids);
    BatchFromBacklog(s.t, s.clock, cutoff, ids);
    assert Backlog(s.t, cutoff) - {} == Backlog(s.t, cutoff);
  }

  lemma DoneIsNotOwed(s: State, cutoff: Time, done: set<OrderId>)
    requires forall o :: o in done ==> IsDone(s.t, o)
    ensures Owed(s, cutoff, done) == Owed(s, cutoff, {})
  {
    assert Backlog(s.t, cutoff) - {} == Backlog(s.t, cutoff) - done;
  }

  /** A round works off all of the backlog, or a whole batch of what is owed. */
  lemma RoundWorksOff(pf: Profiles, open: map<UserId, nat>, s: State, round: Round, cutoff: Time)
    requires Good(pf, open, s) && BalancesRight(s) && SweptIn(pf, s, round) && cutoff < s.clock
    ensures Backlog(s.t, cutoff) <= round.found || Owed(AfterRound(pf, s, round), cutoff, {}) <= Owed(s, cutoff, {}) - SWEEP_BATCH
  {
    var end := AfterRound(pf, s, round);
    BatchOwes(s, round.found, cutoff);
    RoundGoesOnward(pf, open, s, round, cutoff, round.found);
    forall o | o in round.found ensures IsDone(end.t, o) {
      RoundCompletes(pf, open, s, round, o);
    }
    DoneIsNotOwed(end, cutoff, round.found);
  }

  lemma OnwardDone(t: Tables, t2: Tables, o: OrderId)
    requires Onward(t, t2) && IsDone(t, o)
    ensures IsDone(t2, o)
  {
    assert OrderOnward(t, t2, o);
  }

  /** An order of the backlog stays there until it is completed. */
  lemma OnwardDue(t: Tables, t2: Tables, cutoff: Time, o: OrderId)
    requires Onward(t, t2) && o in Backlog(t, cutoff)
    ensures IsDone(t2, o) || o in Backlog(t2, cutoff)
  {
    assert OrderOnward(t, t2, o);
  }

  lemma {:induction false} RoundsKeepDone(pf: Profiles, open: map<UserId, nat>, s: State, rounds: seq<Round>, cutoff: Time, o: OrderId)
    requires Good(pf, open, s) && BalancesRight(s) && cutoff < s.clock && IsDone(s.t, o)
    ensures IsDone(AfterRounds(pf, s, rounds).t, o)
    decreases |rounds|
  {
    if rounds != [] {
      var end := AfterRound(pf, s, rounds[0]);
      RoundKeeps(pf, open, s, rounds[0]);
      RoundGoesOnward(pf, open, s, rounds[0], cutoff, {});
      OnwardDone(s.t, end.t, o);
      RoundsKeepDone(pf, open, end, rounds[1..], cutoff, o);
    }
  }

  /** Orders due at the cutoff are all completed once so many rounds have been worked
      off that their batches cover what was owed at the start. */
  lemma {:induction false} BacklogIsWorkedOff(pf: Profiles, open: map<UserId, nat>, s: State, cutoff: Time, rounds: seq<Round>, o: OrderId)
    requires Good(pf, open, s) && BalancesRight(s) && cutoff < s.clock && AllSwept(pf, s, rounds)
    requires Owed(s, cutoff, {}) <= SWEEP_BATCH * |rounds|
    requires IsDone(s.t, o) || o in Backlog(s.t, cutoff)
    ensures IsDone(AfterRounds(pf, s, rounds).t, o)
    decreases |rounds|
  {
    if rounds == [] {
      assert o in Backlog(s.t, cutoff) ==> o in Backlog(s.t, cutoff) - {};
    } else {
      var end := AfterRound(pf, s, rounds[0]);
      RoundKeeps(pf, open, s, rounds[0]);
      RoundGoesOnward(pf, open, s, rounds[0], cutoff, {});
      if IsDone(s.t, o) {
        OnwardDone(s.t, end.t, o);
        RoundsKeepDone(pf, open, end, rounds[1..], cutoff, o);
      } else {
        RoundWorksOff(pf, open, s, rounds[0], cutoff);
        if Backlog(s.t, cutoff) <= rounds[0].found {
          RoundCompletes(pf, open, s, rounds[0], o);
          RoundsKeepDone(pf, open, end, rounds[1..], cutoff, o);
        } else {
          OnwardDue(s.t, end.t, cutoff, o);
          BacklogIsWorkedOff(pf, open, end, cutoff, rounds[1..], o);
        }
      }
    }
  }
}
