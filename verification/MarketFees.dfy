/** The ledger rows about a bid, kind by kind: one fee while the bid claims it, a fee and
    its refund when nobody was found, nothing while it is open to offers. */
module MarketFees {
  import opened Common
  import opened MarketTables
  import opened MarketDecisions
  import opened MarketInvariants
  import opened MarketOrderKeeps
  import opened MarketMeaning
  import opened MarketMachine
  import opened MarketFrames
  import opened MarketSafety
  import opened MarketHistory

  function FeesOf(t: Tables, u: UserId, b: BidId): seq<int> {
    Amounts(Entries(t, u), PlatformFee, ForBid(b))
  }

  function RefundsOf(t: Tables, u: UserId, b: BidId): seq<int> {
    Amounts(Entries(t, u), Refund, ForBid(b))
  }

  ghost predicate FeeRows(t: Tables, u: UserId, b: BidId) {
    if b in t.bids && t.bids[b].customer == u && t.bids[b].status in {Proposed, CustomerConfirmed, Accepted, Awarded} then
      FeesOf(t, u, b) == [-(t.bids[b].fee as int)] && RefundsOf(t, u, b) == []
    else if b in t.bids && t.bids[b].customer == u && t.bids[b].status == NoMatch then
      exists fee: int :: fee > 0 && FeesOf(t, u, b) == [-fee] && RefundsOf(t, u, b) == [fee]
    else FeesOf(t, u, b) == [] && RefundsOf(t, u, b) == []
  }

  ghost predicate FeesListed(t: Tables) {
    forall u: UserId, b: BidId :: FeeRows(t, u, b)
  }

  /** The ledgers gain no fee and no refund, and bids keep what they claim. */
  ghost predicate NoFee(t: Tables, t2: Tables) {
    && (forall u: UserId, b: BidId :: FeesOf(t2, u, b) == FeesOf(t, u, b) && RefundsOf(t2, u, b) == RefundsOf(t, u, b))
    && (forall b :: b in t.bids ==>
          && b in t2.bids && t2.bids[b].customer == t.bids[b].customer
          && (t2.bids[b].status == t.bids[b].status || (t.bids[b].status == Proposed && t2.bids[b].status == CustomerConfirmed)
              || (t.bids[b].status == CustomerConfirmed && t2.bids[b].status == Accepted))
          && t2.bids[b].fee == t.bids[b].fee)
    && (forall b :: b in t2.bids && b !in t.bids ==> t2.bids[b].status == Open)
  }

  lemma NoFeeKeeps(t: Tables, t2: Tables)
    requires FeesListed(t) && NoFee(t, t2)
    ensures FeesListed(t2)
  {
    hide FeesOf, RefundsOf;
    forall u: UserId, b: BidId ensures FeeRows(t2, u, b) {
      assert FeeRows(t, u, b);
    }
  }

  lemma EntryAdds(t: Tables, t2: Tables, v: UserId, e: Entry, u: UserId, b: BidId)
    requires t2.ledger == t.ledger[v := Entries(t, v) + [e]]
    ensures FeesOf(t2, u, b) == FeesOf(t, u, b) + if u == v && e.kind == PlatformFee && e.subject == ForBid(b) then [e.amount] else []
    ensures RefundsOf(t2, u, b) == RefundsOf(t, u, b) + if u == v && e.kind == Refund && e.subject == ForBid(b) then [e.amount] else []
  {
    AmountsSnoc(Entries(t, v), e, PlatformFee, ForBid(b));
    AmountsSnoc(Entries(t, v), e, Refund, ForBid(b));
  }

  lemma OtherEntry(t: Tables, t2: Tables, v: UserId, e: Entry)
    requires t2.ledger == t.ledger[v := Entries(t, v) + [e]] && e.kind in {OrderPayment, Payout} && t2.bids == t.bids
    ensures NoFee(t, t2)
  {
    hide FeesOf, RefundsOf;
    forall u: UserId, b: BidId ensures FeesOf(t2, u, b) == FeesOf(t, u, b) && RefundsOf(t2, u, b) == RefundsOf(t, u, b) {
      EntryAdds(t, t2, v, e, u, b);
    }
  }

  lemma NoEntry(t: Tables, t2: Tables)
    requires t2.ledger == t.ledger
    ensures forall u: UserId, b: BidId :: FeesOf(t2, u, b) == FeesOf(t, u, b) && RefundsOf(t2, u, b) == RefundsOf(t, u, b)
  {}

  /** A fee for a bid that claimed none before. */
  lemma FeeCharged(t: Tables, t2: Tables, b: BidId, row: Bid, after: int)
    requires FeesListed(t) && (b in t.bids ==> t.bids[b].status == Open)
    requires row.status in {Proposed, Awarded} && t2.bids == t.bids[b := row]
    requires t2.ledger == t.ledger[row.customer := Entries(t, row.customer) + [Entry(PlatformFee, -(row.fee as int), after, ForBid(b))]]
    ensures FeesListed(t2)
  {
    hide FeesOf, RefundsOf;
    forall u: UserId, x: BidId ensures FeeRows(t2, u, x) {
      assert FeeRows(t, u, x);
      EntryAdds(t, t2, row.customer, Entry(PlatformFee, -(row.fee as int), after, ForBid(b)), u, x);
    }
  }

  /** A fee and its refund for a new bid. */
  lemma FeeReturned(t: Tables, t2: Tables, b: BidId, row: Bid, fee: nat, after: int, back: int)
    requires FeesListed(t) && b !in t.bids && fee > 0
    requires row.status == NoMatch && t2.bids == t.bids[b := row]
    requires t2.ledger == t.ledger[row.customer := Entries(t, row.customer)
                            + [Entry(PlatformFee, -(fee as int), after, ForBid(b)), Entry(Refund, fee, back, ForBid(b))]]
    ensures FeesListed(t2)
  {
    hide FeesOf, RefundsOf;
    var v, out, again := row.customer, Entry(PlatformFee, -(fee as int), after, ForBid(b)), Entry(Refund, fee, back, ForBid(b));
    var tm := t.(ledger := t.ledger[v := Entries(t, v) + [out]]);
    assert Entries(tm, v) + [again] == Entries(t, v) + [out, again];
    assert t2.ledger == tm.ledger[v := Entries(tm, v) + [again]];
    forall u: UserId, x: BidId ensures FeeRows(t2, u, x) {
      assert FeeRows(t, u, x);
      EntryAdds(t, tm, v, out, u, x);
      EntryAdds(tm, t2, v, again, u, x);
    }
  }

  lemma OrderOpFees(pf: Profiles, t: Tables, t2: Tables, op: Op, start: Time)
    requires op.PlaceOrder? || op.AddItem? || op.Complete? || op.Confirm? || op.AutoConfirm?
    requires Means(pf, op, start, t, Done, t2)
    ensures NoFee(t, t2)
  {
    hide FeesOf, RefundsOf, PaidIdr, OutstandingIdr, AboutGig;
    assert t2.bids == t.bids;
    if t2.ledger == t.ledger {
      NoEntry(t, t2);
    } else {
      var o := op.order;
      var v := pf.userOf[t.orders[o].lapak];
      OtherEntry(t, t2, v, t2.ledger[v][|Entries(t, v)|]);
    }
  }

  lemma QuietBidOpFees(pf: Profiles, t: Tables, t2: Tables, op: Op, start: Time)
    requires op.PostManual? || op.ConfirmBid? || op.AcceptBid? || op.PlaceOffer?
    requires Fresh(t, op) && Means(pf, op, start, t, Done, t2)
    ensures NoFee(t, t2)
  {
    hide FeesOf, RefundsOf;
    NoEntry(t, t2);
  }

  lemma PostAutoFees(pf: Profiles, t: Tables, t2: Tables, op: Op, start: Time)
    requires op.PostAuto? && FeesListed(t) && Fresh(t, op) && Means(pf, op, start, t, Done, t2)
    ensures FeesListed(t2)
  {
    hide FeesListed;
    var purse := if op.user in t.wallets then t.wallets[op.user] else 0;
    var after := purse - op.fee;
    if op.match_.Some? {
      FeeCharged(t, t2, op.bid, t2.bids[op.bid], after);
    } else {
      FeeReturned(t, t2, op.bid, t2.bids[op.bid], op.fee, after, purse);
    }
  }

  lemma MeaningKeepsFees(pf: Profiles, t: Tables, t2: Tables, op: Op, start: Time)
    requires !op.Pay? && FeesListed(t) && Fresh(t, op) && Means(pf, op, start, t, Done, t2)
    ensures FeesListed(t2)
  {
    hide FeesListed, NoFee, PostAutoMeans, OnlyReads;
    if op.PostAuto? {
      PostAutoFees(pf, t, t2, op, start);
    } else if op.Award? {
      var purse := if op.user in t.wallets then t.wallets[op.user] else 0;
      FeeCharged(t, t2, op.bid, t2.bids[op.bid], purse - op.fee);
    } else {
      if op.PostManual? || op.ConfirmBid? || op.AcceptBid? || op.PlaceOffer? {
        QuietBidOpFees(pf, t, t2, op, start);
      } else {
        OrderOpFees(pf, t, t2, op, start);
      }
      NoFeeKeeps(t, t2);
    }
  }

  lemma PayKeepsFees(pf: Profiles, t: Tables, tx: Tx)
    requires OrdersOk(pf, t) && tx.op.Pay? && Commits(pf, t, tx) && FeesListed(t)
    ensures FeesListed(InstallAll(t, tx.log))
  {
    hide InstallAll, Install, PayLog, FeesListed, NoFee, Charged;
    var t2 := InstallAll(t, tx.log);
    OutstandingStatus(pf, t, tx.op.order, tx.rows);
    PayForm(t, tx.op.user, tx.op.order, tx.rows, tx.amount, tx.balance, tx.payment);
    ChargedFees(t, t2, tx.op.user, tx.op.order, tx.rows, tx.amount, tx.balance, tx.payment);
    NoFeeKeeps(t, t2);
  }

  lemma ChargedFees(t: Tables, t2: Tables, u: UserId, o: OrderId, rows: set<nat>, amount: nat, balance: int, k: nat)
    requires o in t.orders && Charged(t, t2, u, o, rows, amount, balance, k)
    ensures NoFee(t, t2)
  {
    hide NoFee, Stamp;
    var after := balance - amount;
    OtherEntry(t, t2, u, ChargeEntry(o, amount, after));
  }

  lemma CommitKeepsFees(pf: Profiles, t: Tables, tx: Tx)
    requires OrdersOk(pf, t) && Commits(pf, t, tx) && FeesListed(t)
    ensures FeesListed(InstallAll(t, tx.log))
  {
    hide Means, InstallAll, FeesListed, OrdersOk;
    if tx.op.Pay? {
      PayKeepsFees(pf, t, tx);
    } else {
      DecisionMeans(pf, tx.op, tx.start, t);
      MeaningKeepsFees(pf, t, InstallAll(t, tx.log), tx.op, tx.start);
    }
  }

  lemma {:induction false} RunListsFees(pf: Profiles, open: map<UserId, nat>, s: State, events: seq<Event>)
    requires Good(pf, open, s) && FeesListed(s.t)
    ensures FeesListed(Run(pf, s, events).t)
    decreases |events|
  {
    hide FeesListed;
    if events != [] {
      var s1 := Exec(pf, s, events[0]);
      ExecKeeps(pf, open, s, events[0]);
      OnlyCommitsChange(pf, s, events[0]);
      if s1.t != s.t {
        CommitsAt(pf, open, s, events[0].tid);
        CommitKeepsFees(pf, s.t, s.txs[events[0].tid]);
      }
      RunListsFees(pf, open, s1, events[1..]);
    }
  }
}
