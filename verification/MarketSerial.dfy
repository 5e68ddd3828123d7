/** The serial order of a run: Pay takes its place where it sums the unpaid lines,
    every other transaction where it commits. Run one at a time in that order, the
    committed transactions leave the tables of the run. */
module MarketSerial {
  import opened MarketTables
  import opened MarketDecisions
  import opened MarketMachine
  import opened MarketSteps
  import opened MarketSafety
  import opened MarketOverlay
  import opened MarketEffects

  // ----- The serial order -----

  /** The transactions of w, in the order in which the events make them take effect. */
  ghost function SerialOrder(pf: Profiles, s: State, events: seq<Event>, w: set<Tid>): seq<Tid>
    decreases |events|
  {
    if events == [] then []
    else
      var rest := SerialOrder(pf, Exec(pf, s, events[0]), events[1..], w);
      if TakesEffect(pf, s, events[0]) && events[0].tid in w then [events[0].tid] + rest else rest
  }

  /** Running the given transactions one at a time, each to its commit, leads from t to t2. */
  ghost predicate Replays(pf: Profiles, t: Tables, txs: map<Tid, Tx>, order: seq<Tid>, t2: Tables)
    decreases |order|
  {
    if order == [] then t == t2
    else
      && order[0] in txs
      && Decide(pf, txs[order[0]].op, txs[order[0]].start, t).Commit?
      && Replays(pf, After(pf, txs[order[0]].op, txs[order[0]].start, t), txs, order[1..], t2)
  }

  // ----- What a run never changes about a transaction -----

  ghost predicate Persists(s: State, s2: State, tid: Tid) {
    tid in s.txs ==>
      && tid in s2.txs && s2.txs[tid].op == s.txs[tid].op && s2.txs[tid].start == s.txs[tid].start
      && (s.txs[tid].phase != Running ==> s2.txs[tid].phase == s.txs[tid].phase)
  }

  lemma ExecPersists(pf: Profiles, s: State, ev: Event, tid: Tid)
    ensures Persists(s, Exec(pf, s, ev), tid)
  {
    if ev.Step? && IsRunning(s, ev.tid) {
      NextSame(pf, s.t, s.txs[ev.tid]);
    }
  }

  lemma {:induction false} RunPersists(pf: Profiles, s: State, events: seq<Event>, tid: Tid)
    ensures Persists(s, Run(pf, s, events), tid)
    decreases |events|
  {
    if events != [] {
      ExecPersists(pf, s, events[0], tid);
      RunPersists(pf, Exec(pf, s, events[0]), events[1..], tid);
    }
  }

  // ----- Runs -----

  lemma {:induction false} FateIsForetold(pf: Profiles, s: State, events: seq<Event>)
    ensures Foretold(s, CommittedIn(Run(pf, s, events)))
  {
    forall tid | tid in s.txs
      ensures s.txs[tid].phase == Committed ==> tid in CommittedIn(Run(pf, s, events))
      ensures s.txs[tid].phase == RolledBack ==> tid !in CommittedIn(Run(pf, s, events))
    {
      RunPersists(pf, s, events, tid);
    }
  }

  lemma {:induction false} RunReplays(pf: Profiles, open: map<UserId, nat>, s: State, events: seq<Event>, w: set<Tid>, a: Tables)
    requires Good(pf, open, s) && Simulates(s, w, a) && w == CommittedIn(Run(pf, s, events))
    ensures Replays(pf, a, Run(pf, s, events).txs, SerialOrder(pf, s, events, w), Run(pf, s, events).t)
    decreases |events|
  {
    var end := Run(pf, s, events);
    if events == [] {
      assert ChargesIn(s, w) == map[];
      AheadOfNothing(s.t, a);
    } else {
      var ev, s1 := events[0], Exec(pf, s, events[0]);
      FateIsForetold(pf, s1, events[1..]);
      ExecKeeps(pf, open, s, ev);
      if TakesEffect(pf, s, ev) && ev.tid in w {
        var a1 := After(pf, s.txs[ev.tid].op, s.txs[ev.tid].start, a);
        EffectSimulates(pf, open, s, ev, w, a);
        RunPersists(pf, s, events, ev.tid);
        RunReplays(pf, open, s1, events[1..], w, a1);
      } else {
        QuietSimulates(pf, open, s, ev, w, a);
        RunReplays(pf, open, s1, events[1..], w, a);
      }
    }
  }

  // ----- Every committed transaction takes effect exactly once -----

  ghost predicate Took(s: State, tid: Tid) {
    tid in s.txs && (s.txs[tid].phase == Committed || Charging(s.txs[tid]))
  }

  lemma TookAtStep(pf: Profiles, s: State, tid: Tid, w: set<Tid>)
    requires IsRunning(s, tid) && tid in w && Foretold(StepTx(pf, s, tid), w)
    ensures Took(StepTx(pf, s, tid), tid) <==> Took(s, tid) || TakesEffect(pf, s, Step(tid))
    ensures TakesEffect(pf, s, Step(tid)) ==> !Took(s, tid)
  {
    var tx := s.txs[tid];
    NextSame(pf, s.t, tx);
    if tx.op.Pay? {
      if tx.pc == 2 {
        SumNeedsNoLock(s.t, tx, tx.op.user, tx.op.order);
      } else {
        ChargeUnchanged(s.t, tx, tx.op.user, tx.op.order);
      }
    }
  }

  lemma TookAt(pf: Profiles, s: State, ev: Event, tid: Tid, w: set<Tid>)
    requires tid in w && Foretold(Exec(pf, s, ev), w)
    ensures Took(Exec(pf, s, ev), tid) <==> Took(s, tid) || (TakesEffect(pf, s, ev) && ev.tid == tid)
    ensures TakesEffect(pf, s, ev) && ev.tid == tid ==> !Took(s, tid)
  {
    if ev.Step? && ev.tid == tid {
      if IsRunning(s, tid) {
        TookAtStep(pf, s, tid, w);
      }
    }
  }

  predicate NoRepeats(order: seq<Tid>) {
    forall i, j :: 0 <= i < j < |order| ==> order[i] != order[j]
  }

  lemma {:induction false} EachTakesEffectOnce(pf: Profiles, s: State, events: seq<Event>, w: set<Tid>)
    requires w == CommittedIn(Run(pf, s, events))
    ensures forall tid :: tid in SerialOrder(pf, s, events, w) <==> tid in w && !Took(s, tid)
    ensures NoRepeats(SerialOrder(pf, s, events, w))
    decreases |events|
  {
    if events != [] {
      var ev, s1 := events[0], Exec(pf, s, events[0]);
      FateIsForetold(pf, s1, events[1..]);
      EachTakesEffectOnce(pf, s1, events[1..], w);
      forall tid | tid in w
        ensures Took(s1, tid) <==> Took(s, tid) || (TakesEffect(pf, s, ev) && ev.tid == tid)
        ensures TakesEffect(pf, s, ev) && ev.tid == tid ==> !Took(s, tid)
      {
        TookAt(pf, s, ev, tid, w);
      }
    }
  }

  // ----- The serial order is the order of real time -----

  lemma {:induction false} OrderSplits(pf: Profiles, s: State, a: seq<Event>, b: seq<Event>, w: set<Tid>)
    ensures Run(pf, s, a + b) == Run(pf, Run(pf, s, a), b)
    ensures SerialOrder(pf, s, a + b, w) == SerialOrder(pf, s, a, w) + SerialOrder(pf, Run(pf, s, a), b, w)
    decreases |a|
  {
    if a == [] {
      assert a + b == b;
    } else {
      assert (a + b)[0] == a[0] && (a + b)[1..] == a[1..] + b;
      OrderSplits(pf, Exec(pf, s, a[0]), a[1..], b, w);
    }
  }

  /** Only what has begun is in the order. */
  lemma {:induction false} ListedHaveBegun(pf: Profiles, s: State, events: seq<Event>, w: set<Tid>)
    ensures forall tid :: tid in SerialOrder(pf, s, events, w) ==> tid in Run(pf, s, events).txs
    decreases |events|
  {
    if events != [] {
      ListedHaveBegun(pf, Exec(pf, s, events[0]), events[1..], w);
      if TakesEffect(pf, s, events[0]) {
        RunPersists(pf, s, events, events[0].tid);
      }
    }
  }
}
