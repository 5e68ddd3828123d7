/** The sweeper: which orders a tick picks, and how soon a backlog is gone. */
module MarketSweep {
  import opened Common
  import opened MarketTables
  import opened MarketDecisions
  import opened MarketInvariants
  import opened MarketOrderKeeps
  import opened MarketAtomic
  import opened MarketMachine

  const SWEEP_BATCH: nat := 100

  function OverdueOrders(t: Tables, now: Time): set<OrderId> {
    set o | o in t.orders && Overdue(t, o, now)
  }

  predicate Distinct(ids: seq<OrderId>) {
    forall i, j :: 0 <= i < j < |ids| ==> ids[i] != ids[j]
  }

  function IdSet(ids: seq<OrderId>): set<OrderId> {
    set o | o in ids
  }

  /** What one tick picks: only orders that await confirmation at or past their
      deadline, at most a hundred, and none of them left out while there is room or
      for one with a later deadline. */
  ghost predicate IsBatch(t: Tables, now: Time, ids: seq<OrderId>) {
    && Distinct(ids) && |ids| <= 100
    && (forall i :: 0 <= i < |ids| ==>
          && ids[i] in t.orders && t.orders[ids[i]].status == AwaitingConfirmation
          && t.orders[ids[i]].deadline.Some? && t.orders[ids[i]].deadline.value <= now)
    && (forall o :: o in t.orders && o !in ids && t.orders[o].status == AwaitingConfirmation && t.orders[o].deadline.Some? ==>
          t.orders[o].deadline.value <= now ==>
            |ids| == 100 && forall i :: 0 <= i < |ids| ==> t.orders[ids[i]].deadline.value <= t.orders[o].deadline.value)
  }

  /** The tables after one payout transaction. */
  function AfterPayout(pf: Profiles, t: Tables, now: Time, o: OrderId, auto: bool): Tables {
    match DecidePayout(pf, t, now, o, auto)
    case Commit(log) => InstallAll(t, log)
    case _ => t
  }

  /** The clock at each transaction of a tick: never before the tick, never back. */
  predicate Clocked(now: Time, times: seq<Time>, n: nat) {
    && |times| == n
    && (forall i :: 0 <= i < n ==> now <= times[i])
    && (forall i, j :: 0 <= i < j < n ==> times[i] <= times[j])
  }

  /** The tables after the batch: one payout transaction per order, each at its time. */
  function SweptAll(pf: Profiles, t: Tables, times: seq<Time>, ids: seq<OrderId>): Tables
    requires |times| == |ids|
    decreases |ids|
  {
    if ids == [] then t
    else SweptAll(pf, AfterPayout(pf, t, times[0], ids[0], true), times[1..], ids[1..])
  }

  /** How many of those transactions do not fail. */
  function SweptCount(pf: Profiles, t: Tables, times: seq<Time>, ids: seq<OrderId>): nat
    requires |times| == |ids|
    decreases |ids|
  {
    if ids == [] then 0
    else
      (if DecidePayout(pf, t, times[0], ids[0], true).Refuse? then 0 else 1)
      + SweptCount(pf, AfterPayout(pf, t, times[0], ids[0], true), times[1..], ids[1..])
  }

  /** An overdue order has something to pay out. */
  lemma OverdueDecision(pf: Profiles, t: Tables, now: Time, o: OrderId)
    requires OrdersOk(pf, t) && Overdue(t, o, now)
    ensures t.orders[o].lapak in pf.userOf && PaidIdr(Items(t, o)) > 0
    ensures var v := pf.userOf[t.orders[o].lapak];
      DecidePayout(pf, t, now, o, true) == Commit(PayoutLog(t.orders[o], v, o, PaidIdr(Items(t, o)), Balance(t, v), true, now))
  {
    assert OrderOk(pf, t, o);
    PaidIsTotal(pf, t, o);
  }

  lemma SweepOneRow(pf: Profiles, t: Tables, now: Time, o: OrderId)
    requires OrdersOk(pf, t) && Overdue(t, o, now)
    ensures DecidePayout(pf, t, now, o, true).Commit?
    ensures AfterPayout(pf, t, now, o, true).orders == t.orders[o := CompletedRow(t.orders[o], true, now)]
  {
    OverdueDecision(pf, t, now, o);
    PayoutTables(t, pf.userOf[t.orders[o].lapak], o, t.orders[o], PaidIdr(Items(t, o)), true, now);
  }

  lemma SweepOneKeeps(pf: Profiles, open: map<UserId, nat>, t: Tables, now: Time, o: OrderId, log: seq<RowWrite>)
    requires Inv(pf, open, t) && Overdue(t, o, now) && DecidePayout(pf, t, now, o, true) == Commit(log)
    ensures Inv(pf, open, InstallAll(t, log))
  {
    PayoutAlone(pf, open, o, true, now, t, log);
  }

  /** One overdue order is completed, and no other order touched. */
  lemma SweepOne(pf: Profiles, open: map<UserId, nat>, t: Tables, now: Time, o: OrderId)
    requires Inv(pf, open, t) && Overdue(t, o, now)
    ensures DecidePayout(pf, t, now, o, true).Commit?
    ensures Inv(pf, open, AfterPayout(pf, t, now, o, true))
    ensures AfterPayout(pf, t, now, o, true).orders == t.orders[o := CompletedRow(t.orders[o], true, now)]
  {
    SweepOneRow(pf, t, now, o);
    SweepOneKeeps(pf, open, t, now, o, DecidePayout(pf, t, now, o, true).log);
  }

  predicate AllOverdue(t: Tables, now: Time, ids: seq<OrderId>) {
    forall i :: 0 <= i < |ids| ==> Overdue(t, ids[i], now)
  }

  /** The row as the sweeper leaves it, at or after now. */
  predicate SweptRow(a: Order, b: Order, now: Time) {
    && b.completedAt.Some? && now <= b.completedAt.value
    && b == a.(status := Completed, autoConfirmed := true, completedAt := b.completedAt)
  }

  /** t2's orders are t's with those in ids completed by the sweeper. */
  predicate CompletedAll(t: Tables, t2: Tables, now: Time, ids: seq<OrderId>) {
    && t2.orders.Keys == t.orders.Keys
    && forall o :: o in t.orders ==> if o in ids then SweptRow(t.orders[o], t2.orders[o], now) else t2.orders[o] == t.orders[o]
  }

  lemma CompletedFirst(t: Tables, t1: Tables, t2: Tables, now: Time, at: Time, ids: seq<OrderId>)
    requires ids != [] && ids[0] in t.orders && Distinct(ids) && now <= at
    requires t1.orders == t.orders[ids[0] := CompletedRow(t.orders[ids[0]], true, at)]
    requires CompletedAll(t1, t2, now, ids[1..])
    ensures CompletedAll(t, t2, now, ids)
  {
    assert ids[0] !in ids[1..];
    forall o | o in t.orders
      ensures if o in ids then SweptRow(t.orders[o], t2.orders[o], now) else t2.orders[o] == t.orders[o]
    {
      assert o in ids <==> o == ids[0] || o in ids[1..];
    }
  }

  lemma StillOverdue(t: Tables, t1: Tables, now: Time, at: Time, ids: seq<OrderId>)
    requires ids != [] && Distinct(ids) && AllOverdue(t, now, ids)
    requires t1.orders == t.orders[ids[0] := CompletedRow(t.orders[ids[0]], true, at)]
    ensures Distinct(ids[1..]) && AllOverdue(t1, now, ids[1..])
  {}

  /** After the first order of a batch the rest is still to be swept. */
  lemma SweepFirst(pf: Profiles, open: map<UserId, nat>, t: Tables, now: Time, times: seq<Time>, ids: seq<OrderId>)
    requires Inv(pf, open, t) && ids != [] && Distinct(ids) && AllOverdue(t, now, ids) && Clocked(now, times, |ids|)
    ensures var t1 := AfterPayout(pf, t, times[0], ids[0], true);
      && Inv(pf, open, t1) && Distinct(ids[1..]) && AllOverdue(t1, now, ids[1..]) && Clocked(now, times[1..], |ids[1..]|)
      && ids[0] in t.orders && t1.orders == t.orders[ids[0] := CompletedRow(t.orders[ids[0]], true, times[0])]
      && DecidePayout(pf, t, times[0], ids[0], true).Commit?
  {
    hide Inv, AfterPayout;
    SweepOne(pf, open, t, times[0], ids[0]);
    StillOverdue(t, AfterPayout(pf, t, times[0], ids[0], true), now, times[0], ids);
  }

  /** A tick completes every order it picks, once each, and touches no other. */
  lemma {:induction false} SweepCompletes(pf: Profiles, open: map<UserId, nat>, t: Tables, now: Time, times: seq<Time>, ids: seq<OrderId>)
    requires Inv(pf, open, t) && Distinct(ids) && AllOverdue(t, now, ids) && Clocked(now, times, |ids|)
    ensures Inv(pf, open, SweptAll(pf, t, times, ids)) && CompletedAll(t, SweptAll(pf, t, times, ids), now, ids)
    decreases |ids|
  {
    if ids != [] {
      var t1 := AfterPayout(pf, t, times[0], ids[0], true);
      SweepFirst(pf, open, t, now, times, ids);
      SweepCompletes(pf, open, t1, now, times[1..], ids[1..]);
      CompletedFirst(t, t1, SweptAll(pf, t1, times[1..], ids[1..]), now, times[0], ids);
    }
  }

  /** and fails on none. */
  lemma {:induction false} SweepCountsAll(pf: Profiles, open: map<UserId, nat>, t: Tables, now: Time, times: seq<Time>, ids: seq<OrderId>)
    requires Inv(pf, open, t) && Distinct(ids) && AllOverdue(t, now, ids) && Clocked(now, times, |ids|)
    ensures SweptCount(pf, t, times, ids) == |ids|
    decreases |ids|
  {
    if ids != [] {
      SweepFirst(pf, open, t, now, times, ids);
      SweepCountsAll(pf, open, AfterPayout(pf, t, times[0], ids[0], true), now, times[1..], ids[1..]);
    }
  }

  // ----- A backlog -----

  /** The orders whose deadline had passed at cutoff and which are still awaiting. */
  function Backlog(t: Tables, cutoff: Time): set<OrderId> {
    OverdueOrders(t, cutoff)
  }

  lemma {:induction false} DistinctSize(ids: seq<OrderId>)
    requires Distinct(ids)
    ensures |IdSet(ids)| == |ids|
  {
    if ids != [] {
      var last := |ids| - 1;
      DistinctSize(ids[..last]);
      assert ids[last] !in ids[..last];
      assert IdSet(ids) == IdSet(ids[..last]) + {ids[last]};
    }
  }

  lemma CompletedLeave(t: Tables, t2: Tables, now: Time, cutoff: Time, ids: seq<OrderId>)
    requires CompletedAll(t, t2, now, ids)
    ensures Backlog(t2, cutoff) == Backlog(t, cutoff) - IdSet(ids)
  {}

  /** Earliest deadlines first: a tick at or after cutoff takes a whole batch off
      the backlog, or all of it. */
  lemma BatchFromBacklog(t: Tables, now: Time, cutoff: Time, ids: seq<OrderId>)
    requires IsBatch(t, now, ids) && cutoff <= now
    ensures var left := Backlog(t, cutoff) - IdSet(ids);
      left == {} || |left| == |Backlog(t, cutoff)| - SWEEP_BATCH
  {
    var picked := IdSet(ids);
    DistinctSize(ids);
    if picked <= Backlog(t, cutoff) {
      if o :| o in Backlog(t, cutoff) - picked {
        assert o !in ids && |ids| == SWEEP_BATCH;
      }
    } else {
      var i :| 0 <= i < |ids| && ids[i] !in Backlog(t, cutoff);
      forall o | o in Backlog(t, cutoff) ensures o in picked {
        assert o in OverdueOrders(t, now);
      }
    }
  }

  /** With at most a hundred due, a tick picks exactly these. */
  lemma FewAreAllPicked(t: Tables, now: Time, ids: seq<OrderId>, due: set<OrderId>)
    requires IsBatch(t, now, ids) && |due| <= 100
    requires forall o :: o in due <==>
      o in t.orders && t.orders[o].status == AwaitingConfirmation && t.orders[o].deadline.Some? && t.orders[o].deadline.value <= now
    ensures IdSet(ids) == due
  {
    DistinctSize(ids);
    assert |due - IdSet(ids)| == |due| - |IdSet(ids)|;
    assert due - IdSet(ids) != {} ==> |ids| == 100;
  }

  /** A tick: when it looked, what it picked and when it paid each out. */
  datatype SweepTick = SweepTick(now: Time, ids: seq<OrderId>, times: seq<Time>)

  ghost predicate Sweeps(pf: Profiles, t: Tables, ticks: seq<SweepTick>, t2: Tables)
    decreases |ticks|
  {
    if ticks == [] then t2 == t
    else
      && IsBatch(t, ticks[0].now, ticks[0].ids) && Clocked(ticks[0].now, ticks[0].times, |ticks[0].ids|)
      && Sweeps(pf, SweptAll(pf, t, ticks[0].times, ticks[0].ids), ticks[1..], t2)
  }

  predicate Swept(t: Tables, o: OrderId) {
    o in t.orders && t.orders[o].status == Completed && t.orders[o].autoConfirmed
  }

  lemma CompletedAreSwept(t: Tables, t2: Tables, now: Time, cutoff: Time, ids: seq<OrderId>)
    requires CompletedAll(t, t2, now, ids) && AllOverdue(t, now, ids)
    ensures forall o :: Swept(t, o) || (o in Backlog(t, cutoff) && o in ids) ==> Swept(t2, o)
  {
    forall o | Swept(t, o) || (o in Backlog(t, cutoff) && o in ids) ensures Swept(t2, o) {
      assert o in t.orders;
    }
  }

  /** A tick takes a batch off the backlog, or all of it, and what it takes is swept. */
  lemma TickLeaves(pf: Profiles, open: map<UserId, nat>, t: Tables, cutoff: Time, tick: SweepTick)
    requires Inv(pf, open, t) && IsBatch(t, tick.now, tick.ids) && Clocked(tick.now, tick.times, |tick.ids|) && cutoff <= tick.now
    ensures var t1 := SweptAll(pf, t, tick.times, tick.ids);
      var left := Backlog(t1, cutoff);
      && Inv(pf, open, t1) && (left == {} || |left| == |Backlog(t, cutoff)| - SWEEP_BATCH)
      && (forall o :: o in Backlog(t, cutoff) || Swept(t, o) ==> o in left || Swept(t1, o))
  {
    var t1 := SweptAll(pf, t, tick.times, tick.ids);
    SweepCompletes(pf, open, t, tick.now, tick.times, tick.ids);
    CompletedLeave(t, t1, tick.now, cutoff, tick.ids);
    CompletedAreSwept(t, t1, tick.now, cutoff, tick.ids);
    BatchFromBacklog(t, tick.now, cutoff, tick.ids);
  }

  lemma {:induction false} TicksSweep(pf: Profiles, open: map<UserId, nat>, t: Tables, cutoff: Time, ticks: seq<SweepTick>, t2: Tables)
    requires Inv(pf, open, t) && Sweeps(pf, t, ticks, t2)
    requires forall i :: 0 <= i < |ticks| ==> cutoff <= ticks[i].now
    requires |Backlog(t, cutoff)| <= SWEEP_BATCH * |ticks|
    ensures Inv(pf, open, t2) && Backlog(t2, cutoff) == {}
    ensures forall o :: o in Backlog(t, cutoff) || Swept(t, o) ==> Swept(t2, o)
    decreases |ticks|
  {
    if ticks != [] {
      TickLeaves(pf, open, t, cutoff, ticks[0]);
      TicksSweep(pf, open, SweptAll(pf, t, ticks[0].times, ticks[0].ids), cutoff, ticks[1..], t2);
    }
  }

  /** n orders due at a cutoff are all completed, by the sweeper, after n/100 ticks,
      rounded up, even when later orders fall due meanwhile; none due then is left. */
  lemma {:induction false} BacklogIsSwept(pf: Profiles, open: map<UserId, nat>, t: Tables, cutoff: Time, ticks: seq<SweepTick>, t2: Tables, due: set<OrderId>)
    requires Inv(pf, open, t) && Sweeps(pf, t, ticks, t2)
    requires forall i :: 0 <= i < |ticks| ==> cutoff <= ticks[i].now
    requires forall o :: o in due <==>
      o in t.orders && t.orders[o].status == AwaitingConfirmation && t.orders[o].deadline.Some? && t.orders[o].deadline.value <= cutoff
    requires |due| <= 100 * |ticks|
    ensures Inv(pf, open, t2)
    ensures forall o :: o in due ==> o in t2.orders && t2.orders[o].status == Completed && t2.orders[o].autoConfirmed
    ensures forall o :: o in t2.orders && t2.orders[o].status == AwaitingConfirmation && t2.orders[o].deadline.Some? ==>
      cutoff < t2.orders[o].deadline.value
  {
    hide Inv, Sweeps;
    assert due == Backlog(t, cutoff);
    TicksSweep(pf, open, t, cutoff, ticks, t2);
    forall o | o in t2.orders && t2.orders[o].status == AwaitingConfirmation && t2.orders[o].deadline.Some?
      ensures cutoff < t2.orders[o].deadline.value
    {
      assert o !in Backlog(t2, cutoff);
    }
  }

  /** An order that is due is completed by the very next tick, when no more than a
      hundred are. */
  lemma DueIsSwept(pf: Profiles, open: map<UserId, nat>, t: Tables, now: Time, times: seq<Time>, ids: seq<OrderId>, due: set<OrderId>)
    requires Inv(pf, open, t) && IsBatch(t, now, ids) && Clocked(now, times, |ids|) && |due| <= 100
    requires forall o :: o in due <==>
      o in t.orders && t.orders[o].status == AwaitingConfirmation && t.orders[o].deadline.Some? && t.orders[o].deadline.value <= now
    ensures var t2 := SweptAll(pf, t, times, ids);
      && (forall o :: o in t.orders ==> o in t2.orders && (o in due || t2.orders[o] == t.orders[o]))
      && (forall o :: o in due ==>
            && t2.orders[o].status == Completed && t2.orders[o].autoConfirmed
            && t2.orders[o].completedAt.Some? && now <= t2.orders[o].completedAt.value)
  {
    hide Inv, SweptAll;
    FewAreAllPicked(t, now, ids, due);
    SweepCompletes(pf, open, t, now, times, ids);
    assert forall o :: o in ids <==> o in IdSet(ids);
  }
}
