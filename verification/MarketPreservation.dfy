/** What the invariant proofs share: unrolled logs, wallet moves with their ledger
    rows, and rows that stay as they are. */
module MarketPreservation {
  import opened Common
  import opened MarketTables
  import opened MarketDecisions
  import opened MarketInvariants

  // ----- Unrolling short logs -----

  lemma Install1(t: Tables, a: RowWrite)
    ensures InstallAll(t, [a]) == Install(t, a)
  {
    InstallSnoc(t, [], a);
    assert [] + [a] == [a];
  }

  lemma Install2(t: Tables, a: RowWrite, b: RowWrite)
    ensures InstallAll(t, [a, b]) == Install(Install(t, a), b)
  {
    hide InstallAll;
    Install1(t, a);
    InstallSnoc(t, [a], b);
    assert [a] + [b] == [a, b];
  }

  lemma Install3(t: Tables, a: RowWrite, b: RowWrite, c: RowWrite)
    ensures InstallAll(t, [a, b, c]) == Install(Install(Install(t, a), b), c)
  {
    hide InstallAll;
    Install2(t, a, b);
    InstallSnoc(t, [a, b], c);
    assert [a, b] + [c] == [a, b, c];
  }

  lemma Install4(t: Tables, a: RowWrite, b: RowWrite, c: RowWrite, d: RowWrite)
    ensures InstallAll(t, [a, b, c, d]) == Install(Install(Install(Install(t, a), b), c), d)
  {
    hide InstallAll;
    Install3(t, a, b, c);
    InstallSnoc(t, [a, b, c], d);
    assert [a, b, c] + [d] == [a, b, c, d];
  }

  // ----- Wallets and ledger -----

  lemma UsersSame(open: map<UserId, nat>, t: Tables, t2: Tables)
    requires UsersOk(open, t)
    requires t2.wallets == t.wallets && t2.ledger == t.ledger
    ensures UsersOk(open, t2)
  {
    forall u: UserId ensures UserOk(open, t2, u) {
      assert UserOk(open, t, u);
      assert Entries(t2, u) == Entries(t, u) && Balance(t2, u) == Balance(t, u);
    }
  }

  lemma ChainedSnoc(start: int, es: seq<Entry>, e: Entry)
    requires Chained(start, es)
    requires e.amount != 0 && e.after == BalanceBefore(start, es, |es|) + e.amount >= 0
    ensures Chained(start, es + [e])
  {
    var fs := es + [e];
    forall i | 0 <= i < |fs|
      ensures fs[i].amount != 0 && fs[i].after == BalanceBefore(start, fs, i) + fs[i].amount && fs[i].after >= 0
    {
      if i < |es| {
        assert fs[i] == es[i] && BalanceBefore(start, fs, i) == BalanceBefore(start, es, i);
      }
    }
  }

  /** One wallet moved together with its ledger row. */
  ghost predicate Moves(t: Tables, t2: Tables, u: UserId, e: Entry) {
    && e.amount != 0 && e.after == Balance(t, u) + e.amount >= 0
    && t2.wallets == t.wallets[u := e.after]
    && t2.ledger == t.ledger[u := Entries(t, u) + [e]]
  }

  lemma UserMove(open: map<UserId, nat>, t: Tables, t2: Tables, u: UserId, e: Entry, x: UserId)
    requires UserOk(open, t, x) && Moves(t, t2, u, e)
    ensures UserOk(open, t2, x)
  {
    if x == u {
      ChainedSnoc(Opening(open, u), Entries(t, u), e);
      assert Entries(t2, u) == Entries(t, u) + [e];
    } else {
      assert Entries(t2, x) == Entries(t, x) && Balance(t2, x) == Balance(t, x);
    }
  }

  lemma UsersMove(open: map<UserId, nat>, t: Tables, t2: Tables, u: UserId, e: Entry)
    requires UsersOk(open, t) && Moves(t, t2, u, e)
    ensures UsersOk(open, t2)
  {
    forall x: UserId ensures UserOk(open, t2, x) {
      assert UserOk(open, t, x);
      UserMove(open, t, t2, u, e, x);
    }
  }

  /** What a wallet move adds to the amounts of one kind and subject. */
  lemma AmountsMove(t: Tables, t2: Tables, u: UserId, e: Entry, x: UserId, kind: EntryKind, about: Subject)
    requires Moves(t, t2, u, e)
    ensures Amounts(Entries(t2, x), kind, about)
         == if x == u && e.kind == kind && e.subject == about then Amounts(Entries(t, x), kind, about) + [e.amount]
            else Amounts(Entries(t, x), kind, about)
  {
    if x == u {
      AmountsSnoc(Entries(t, u), e, kind, about);
      assert Entries(t2, u) == Entries(t, u) + [e];
    } else {
      assert Entries(t2, x) == Entries(t, x);
    }
  }

  lemma NetMove(t: Tables, t2: Tables, u: UserId, e: Entry, x: UserId, about: Subject)
    requires Moves(t, t2, u, e)
    ensures Net(Entries(t2, x), about) == Net(Entries(t, x), about) + if x == u && e.subject == about then e.amount else 0
  {
    if x == u {
      NetSnoc(Entries(t, u), e, about);
      assert Entries(t2, u) == Entries(t, u) + [e];
    } else {
      assert Entries(t2, x) == Entries(t, x);
    }
  }

  lemma NegatedSnoc(amounts: seq<nat>, x: nat)
    ensures Negated(amounts + [x]) == Negated(amounts) + [-(x as int)]
  {
    assert (amounts + [x])[..|amounts|] == amounts;
  }

  // ----- Rows that do not change -----

  ghost predicate SameOrder(t: Tables, t2: Tables, o: OrderId)
    requires o in t.orders
  {
    && o in t2.orders && t2.orders[o] == t.orders[o]
    && Items(t2, o) == Items(t, o) && Payments(t2, o) == Payments(t, o)
    && (o in t.threads ==> o in t2.threads)
    && (t.orders[o].bid.Some? ==> SameBid(t, t2, t.orders[o].bid.value))
  }

  /** The bid, and its offers once settled, are as they were. */
  ghost predicate SameBid(t: Tables, t2: Tables, b: BidId) {
    b in t.bids && Settled(t.bids[b]) ==>
      && b in t2.bids && t2.bids[b] == t.bids[b]
      && forall l :: OfferKey(b, l) in t.offers ==> OfferKey(b, l) in t2.offers && t2.offers[OfferKey(b, l)] == t.offers[OfferKey(b, l)]
  }

  lemma OrderKept(pf: Profiles, t: Tables, t2: Tables, o: OrderId)
    requires o in t.orders && OrderOk(pf, t, o) && SameOrder(t, t2, o)
    ensures OrderOk(pf, t2, o)
  {
    if t.orders[o].bid.Some? {
      assert TrackedOk(t, o, t.orders[o].bid.value);
      assert TrackedOk(t2, o, t.orders[o].bid.value);
    }
  }

  /** Which orders track which bids is as it was. */
  ghost predicate SameTracking(t: Tables, t2: Tables) {
    forall o, b {:trigger Tracks(t2, o, b)} {:trigger Tracks(t, o, b)} ::
      (Tracks(t2, o, b) <==> Tracks(t, o, b))
      && (Tracks(t, o, b) ==> t2.orders[o].lapak == t.orders[o].lapak)
  }

  lemma BidsSame(pf: Profiles, t: Tables, t2: Tables)
    requires BidsOk(pf, t)
    requires t2.bids == t.bids && t2.offers == t.offers && SameTracking(t, t2)
    ensures BidsOk(pf, t2)
  {
    forall b | b in t2.bids ensures BidOk(pf, t2, b) {
      assert BidOk(pf, t, b);
      if Settled(t.bids[b]) {
        var o :| Tracks(t, o, b);
        assert Tracks(t2, o, b);
      }
    }
    forall key | key in t2.offers ensures OfferOk(pf, t2, key) {
      assert OfferOk(pf, t, key);
    }
    forall o1, o2, b | Tracks(t2, o1, b) && Tracks(t2, o2, b) ensures o1 == o2 {
      assert Tracks(t, o1, b) && Tracks(t, o2, b);
    }
  }

  lemma FeesSame(t: Tables, t2: Tables)
    requires t2.bids == t.bids
    ensures Fees(t2) == Fees(t)
  {}

  lemma WalletMove(t: Tables, t2: Tables, u: UserId, e: Entry)
    requires Moves(t, t2, u, e)
    ensures Total(t2.wallets) == Total(t.wallets) + e.amount
  {
    TotalUpdate(t.wallets, u, e.after);
  }

  /** Changing one order changes what is held for that order only. */
  lemma HeldUpdate(t: Tables, t2: Tables, o: OrderId, held: nat)
    requires o in t2.orders
    requires forall x :: x in t2.orders <==> x in t.orders || x == o
    requires forall x :: x in t.orders && x != o ==> t2.orders[x].status == t.orders[x].status && Items(t2, x) == Items(t, x)
    requires held == if t2.orders[o].status == Completed then 0 else PaidIdr(Items(t2, o))
    ensures Total(Held(t2)) == Total(Held(t)) - At(Held(t), o) + held
  {
    hide PaidIdr;
    assert Held(t2) == Held(t)[o := held];
    TotalUpdate(Held(t), o, held);
  }

  lemma HeldSame(t: Tables, t2: Tables)
    requires t2.orders == t.orders && t2.items == t.items
    ensures Held(t2) == Held(t)
  {}

  lemma FeesUpdate(t: Tables, t2: Tables, b: BidId, row: Bid)
    requires t2.bids == t.bids[b := row]
    ensures Total(Fees(t2)) == Total(Fees(t)) - At(Fees(t), b) + row.fee
  {
    assert Fees(t2) == Fees(t)[b := row.fee as int];
    TotalUpdate(Fees(t), b, row.fee);
  }

  /** Every order but o is as it was, and o is in order. */
  lemma OrdersBut(pf: Profiles, t: Tables, t2: Tables, o: OrderId)
    requires OrdersOk(pf, t)
    requires forall x :: x in t2.orders && x != o ==> x in t.orders && SameOrder(t, t2, x)
    requires o in t2.orders ==> OrderOk(pf, t2, o)
    ensures OrdersOk(pf, t2)
  {
    forall x | x in t2.orders ensures OrderOk(pf, t2, x) {
      if x != o {
        assert OrderOk(pf, t, x);
        OrderKept(pf, t, t2, x);
      }
    }
  }

  /** Orders as the ledger sees them: same sides and payments, same completions;
      new orders have neither payment nor completion. */
  ghost predicate QuietOrder(t: Tables, t2: Tables, o: OrderId) {
    && (o in t.orders ==>
      && o in t2.orders
      && t2.orders[o].customer == t.orders[o].customer && t2.orders[o].lapak == t.orders[o].lapak
      && (t2.orders[o].status == Completed <==> t.orders[o].status == Completed)
      && Payments(t2, o) == Payments(t, o)
      && (t.orders[o].status == Completed ==> Items(t2, o) == Items(t, o)))
    && (o !in t.orders && o in t2.orders ==> Payments(t2, o) == [] && t2.orders[o].status != Completed)
  }

  ghost predicate QuietOrders(t: Tables, t2: Tables) {
    forall o: OrderId :: QuietOrder(t, t2, o)
  }

  function BidFee(t: Tables, u: UserId, b: BidId): int {
    if b in t.bids && t.bids[b].customer == u then t.bids[b].fee else 0
  }

  /** Quiet orders leave the charge and payout claims as they were, for a user
      whose ledger gained no charge and no payout. */
  lemma QuietAt(pf: Profiles, t: Tables, t2: Tables, x: UserId, o: OrderId)
    requires ChargesOk(t, x, o) && PayoutOk(pf, t, x, o) && QuietOrder(t, t2, o)
    requires Amounts(Entries(t2, x), OrderPayment, ForOrder(o)) == Amounts(Entries(t, x), OrderPayment, ForOrder(o))
    requires Amounts(Entries(t2, x), Payout, ForOrder(o)) == Amounts(Entries(t, x), Payout, ForOrder(o))
    ensures ChargesOk(t2, x, o) && PayoutOk(pf, t2, x, o)
  {}

  /** A transaction that appends nothing to the ledger. */
  lemma LedgerQuiet(pf: Profiles, t: Tables, t2: Tables)
    requires LedgerOk(pf, t) && t2.ledger == t.ledger && QuietOrders(t, t2)
    requires forall x: UserId, b: BidId :: BidFee(t2, x, b) == BidFee(t, x, b)
    ensures LedgerOk(pf, t2)
  {
    forall x: UserId, y: nat ensures LedgerAt(pf, t2, x, y) {
      assert ChargesOk(t, x, y) && PayoutOk(pf, t, x, y) && FeeOk(t, x, y);
      assert Entries(t2, x) == Entries(t, x);
      assert QuietOrder(t, t2, y);
      QuietAt(pf, t, t2, x, y);
      assert BidFee(t2, x, y) == BidFee(t, x, y);
    }
    LedgerFromAt(pf, t2);
  }

  lemma LedgerFeeAt(pf: Profiles, t: Tables, t2: Tables, u: UserId, b: BidId, e: Entry, x: UserId, y: nat)
    requires LedgerAt(pf, t, x, y) && Moves(t, t2, u, e) && QuietOrder(t, t2, y)
    requires e.kind in {PlatformFee, Refund} && e.subject == ForBid(b)
    requires BidFee(t2, x, y) == BidFee(t, x, y) - if x == u && y == b then e.amount else 0
    ensures LedgerAt(pf, t2, x, y)
  {
    hide Moves, Amounts, Net;
    AmountsMove(t, t2, u, e, x, OrderPayment, ForOrder(y));
    AmountsMove(t, t2, u, e, x, Payout, ForOrder(y));
    NetMove(t, t2, u, e, x, ForBid(y));
    QuietAt(pf, t, t2, x, y);
  }

  /** A fee or its refund: the row's amount is what the bid's fee changed by. */
  lemma LedgerFee(pf: Profiles, t: Tables, t2: Tables, u: UserId, b: BidId, e: Entry)
    requires LedgerOk(pf, t) && Moves(t, t2, u, e) && QuietOrders(t, t2)
    requires e.kind in {PlatformFee, Refund} && e.subject == ForBid(b)
    requires forall x: UserId, y: BidId :: BidFee(t2, x, y) == BidFee(t, x, y) - if x == u && y == b then e.amount else 0
    ensures LedgerOk(pf, t2)
  {
    forall x: UserId, y: nat ensures LedgerAt(pf, t2, x, y) {
      assert ChargesOk(t, x, y) && PayoutOk(pf, t, x, y) && FeeOk(t, x, y);
      assert QuietOrder(t, t2, y);
      LedgerFeeAt(pf, t, t2, u, b, e, x, y);
    }
    LedgerFromAt(pf, t2);
  }

  // ----- The ledger claims, one user and one id at a time -----

  /** LedgerOk, one user and one order or bid id at a time. */
  ghost predicate LedgerAt(pf: Profiles, t: Tables, x: UserId, y: nat) {
    ChargesOk(t, x, y) && PayoutOk(pf, t, x, y) && FeeOk(t, x, y)
  }

  lemma LedgerFromAt(pf: Profiles, t: Tables)
    requires forall x: UserId, y: nat :: LedgerAt(pf, t, x, y)
    ensures LedgerOk(pf, t)
  {
    forall x: UserId, y: nat ensures ChargesOk(t, x, y) && PayoutOk(pf, t, x, y) && FeeOk(t, x, y) {
      assert LedgerAt(pf, t, x, y);
    }
  }

  lemma {:induction false} NoRows(items: seq<Item>)
    ensures SumAt(items, {}) == 0
  {
    if items != [] {
      NoRows(items[..|items| - 1]);
    }
  }
}
