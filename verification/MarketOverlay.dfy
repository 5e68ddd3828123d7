/** A payment takes effect where it sums the unpaid lines, before it commits. These
    lemmas relate the committed tables to the tables in which the charges under way
    are already made. */
module MarketOverlay {
  import opened MarketTables
  import opened MarketDecisions
  import opened MarketOrderKeeps
  import opened MarketMachine

  /** A charge that has summed its rows and not yet committed. */
  datatype Charge = Charge(user: UserId, order: OrderId, rows: set<nat>, amount: nat)

  type Charges = map<Tid, Charge>

  ghost predicate ChargesUser(cs: Charges, u: UserId) {
    exists tid :: tid in cs && cs[tid].user == u
  }

  ghost predicate ChargesOrder(cs: Charges, o: OrderId) {
    exists tid :: tid in cs && cs[tid].order == o
  }

  ghost predicate Underway(t: Tables, c: Charge) {
    c.user in t.wallets && Settles(t, c.user, c.order, c.rows, c.amount, t.wallets[c.user], |Payments(t, c.order)|)
  }

  /** Charges under way are of different customers, each for an order of its own. */
  ghost predicate ChargesApart(t: Tables, cs: Charges) {
    && (forall tid :: tid in cs ==> Underway(t, cs[tid]))
    && (forall i, j :: i in cs && j in cs && i != j ==> cs[i].user != cs[j].user)
  }

  /** The charge is made in the tables a, and nowhere else differs from t. */
  ghost predicate ChargeMade(t: Tables, a: Tables, c: Charge) {
    var u, o := c.user, c.order;
    && o in t.orders && o in a.orders && a.orders[o] == t.orders[o].(status := Paid)
    && u in t.wallets && u in a.wallets && a.wallets[u] == t.wallets[u] - c.amount
    && u in a.ledger && a.ledger[u] == Entries(t, u) + [ChargeEntry(o, c.amount, t.wallets[u] - c.amount)]
    && o in a.items && a.items[o] == Stamp(Items(t, o), c.rows, |Payments(t, o)|)
    && o in a.payments && a.payments[o] == Payments(t, o) + [c.amount]
    && o in a.threads
  }

  ghost predicate UserSame(t: Tables, a: Tables, u: UserId) {
    && (u in a.wallets <==> u in t.wallets) && (u in t.wallets ==> a.wallets[u] == t.wallets[u])
    && (u in a.ledger <==> u in t.ledger) && (u in t.ledger ==> a.ledger[u] == t.ledger[u])
  }

  ghost predicate OrderSame(t: Tables, a: Tables, o: OrderId) {
    && (o in a.orders <==> o in t.orders) && (o in t.orders ==> a.orders[o] == t.orders[o])
    && (o in a.items <==> o in t.items) && (o in t.items ==> a.items[o] == t.items[o])
    && (o in a.payments <==> o in t.payments) && (o in t.payments ==> a.payments[o] == t.payments[o])
    && (o in a.threads <==> o in t.threads)
  }

  /** a is t with every charge in cs made. */
  ghost predicate Ahead(t: Tables, a: Tables, cs: Charges) {
    && (forall tid :: tid in cs ==> ChargeMade(t, a, cs[tid]))
    && (forall u: UserId :: !ChargesUser(cs, u) ==> UserSame(t, a, u))
    && (forall o: OrderId :: !ChargesOrder(cs, o) ==> OrderSame(t, a, o))
    && a.bids == t.bids && a.offers == t.offers
  }

  /** With no charge under way the two are the same tables. */
  lemma AheadOfNothing(t: Tables, a: Tables)
    requires Ahead(t, a, map[])
    ensures a == t
  {
    forall u: UserId
      ensures (u in a.wallets <==> u in t.wallets) && (u in t.wallets ==> a.wallets[u] == t.wallets[u])
      ensures (u in a.ledger <==> u in t.ledger) && (u in t.ledger ==> a.ledger[u] == t.ledger[u])
    {
      assert !ChargesUser(map[], u);
    }
    forall o: OrderId
      ensures (o in a.orders <==> o in t.orders) && (o in t.orders ==> a.orders[o] == t.orders[o])
      ensures (o in a.items <==> o in t.items) && (o in t.items ==> a.items[o] == t.items[o])
      ensures (o in a.payments <==> o in t.payments) && (o in t.payments ==> a.payments[o] == t.payments[o])
      ensures o in a.threads <==> o in t.threads
    {
      assert !ChargesOrder(map[], o);
    }
    assert a.wallets == t.wallets && a.ledger == t.ledger && a.orders == t.orders;
    assert a.items == t.items && a.payments == t.payments && a.threads == t.threads;
  }

  lemma AheadOfSelf(t: Tables)
    ensures Ahead(t, t, map[])
  {}

  lemma OrdersApart(t: Tables, cs: Charges, i: Tid, j: Tid)
    requires ChargesApart(t, cs) && i in cs && j in cs && i != j
    ensures cs[i].order != cs[j].order
  {
    assert Underway(t, cs[i]) && Underway(t, cs[j]);
  }

  // ----- A charge begins to count -----

  /** a2 is a with the charge c made. */
  ghost predicate Makes(a: Tables, a2: Tables, c: Charge) {
    && c.order in a.orders
    && Charged(a, a2, c.user, c.order, c.rows, c.amount, Balance(a, c.user), |Payments(a, c.order)|)
  }

  lemma MadeNow(t: Tables, a: Tables, a2: Tables, c: Charge)
    requires Underway(t, c) && UserSame(t, a, c.user) && OrderSame(t, a, c.order) && Makes(a, a2, c)
    ensures ChargeMade(t, a2, c)
  {}

  lemma MadeBefore(t: Tables, a: Tables, a2: Tables, c: Charge, x: Charge)
    requires ChargeMade(t, a, x) && Makes(a, a2, c) && x.user != c.user && x.order != c.order
    ensures ChargeMade(t, a2, x)
  {}

  lemma UserUntouched(t: Tables, a: Tables, a2: Tables, c: Charge, u: UserId)
    requires UserSame(t, a, u) && Makes(a, a2, c) && u != c.user
    ensures UserSame(t, a2, u)
  {}

  lemma OrderUntouched(t: Tables, a: Tables, a2: Tables, c: Charge, o: OrderId)
    requires OrderSame(t, a, o) && Makes(a, a2, c) && o != c.order
    ensures OrderSame(t, a2, o)
  {}

  lemma FewerCharges(cs: Charges, tid: Tid, c: Charge)
    requires tid !in cs
    ensures forall u: UserId :: ChargesUser(cs[tid := c], u) <==> ChargesUser(cs, u) || u == c.user
    ensures forall o: OrderId :: ChargesOrder(cs[tid := c], o) <==> ChargesOrder(cs, o) || o == c.order
  {
    var cs2 := cs[tid := c];
    assert cs2[tid] == c;
    forall u: UserId ensures ChargesUser(cs2, u) <==> ChargesUser(cs, u) || u == c.user {
      if i :| i in cs && cs[i].user == u { assert cs2[i].user == u; }
    }
    forall o: OrderId ensures ChargesOrder(cs2, o) <==> ChargesOrder(cs, o) || o == c.order {
      if i :| i in cs && cs[i].order == o { assert cs2[i].order == o; }
    }
  }

  /** Making one more charge, of a customer and an order that have none under way. */
  lemma AheadCharge(t: Tables, a: Tables, a2: Tables, cs: Charges, tid: Tid, c: Charge)
    requires Ahead(t, a, cs) && tid !in cs && Underway(t, c) && Makes(a, a2, c)
    requires !ChargesUser(cs, c.user) && !ChargesOrder(cs, c.order)
    ensures Ahead(t, a2, cs[tid := c])
  {
    hide Underway, ChargeMade, UserSame, OrderSame;
    var cs2 := cs[tid := c];
    FewerCharges(cs, tid, c);
    forall i | i in cs2 ensures ChargeMade(t, a2, cs2[i]) {
      if i == tid {
        MadeNow(t, a, a2, c);
      } else {
        assert cs[i].user != c.user && cs[i].order != c.order;
        MadeBefore(t, a, a2, c, cs[i]);
      }
    }
    forall u: UserId | !ChargesUser(cs2, u) ensures UserSame(t, a2, u) {
      UserUntouched(t, a, a2, c, u);
    }
    forall o: OrderId | !ChargesOrder(cs2, o) ensures OrderSame(t, a2, o) {
      OrderUntouched(t, a, a2, c, o);
    }
  }

  // ----- A charge commits -----

  lemma CommittedNow(t: Tables, t2: Tables, a: Tables, c: Charge)
    requires Underway(t, c) && ChargeMade(t, a, c) && Makes(t, t2, c)
    ensures UserSame(t2, a, c.user) && OrderSame(t2, a, c.order)
  {}

  lemma StillMade(t: Tables, t2: Tables, a: Tables, c: Charge, x: Charge)
    requires ChargeMade(t, a, x) && Makes(t, t2, c) && x.user != c.user && x.order != c.order
    ensures ChargeMade(t2, a, x)
  {}

  lemma UserStillSame(t: Tables, t2: Tables, a: Tables, c: Charge, u: UserId)
    requires UserSame(t, a, u) && Makes(t, t2, c) && u != c.user
    ensures UserSame(t2, a, u)
  {}

  lemma OrderStillSame(t: Tables, t2: Tables, a: Tables, c: Charge, o: OrderId)
    requires OrderSame(t, a, o) && Makes(t, t2, c) && o != c.order
    ensures OrderSame(t2, a, o)
  {}

  ghost function Without(cs: Charges, tid: Tid): Charges {
    map i | i in cs && i != tid :: cs[i]
  }

  lemma WithoutCharges(cs: Charges, tid: Tid)
    requires tid in cs
    ensures forall u: UserId :: ChargesUser(cs, u) ==> ChargesUser(Without(cs, tid), u) || u == cs[tid].user
    ensures forall o: OrderId :: ChargesOrder(cs, o) ==> ChargesOrder(Without(cs, tid), o) || o == cs[tid].order
  {
    var rest := Without(cs, tid);
    forall u: UserId | ChargesUser(cs, u) && u != cs[tid].user ensures ChargesUser(rest, u) {
      var i :| i in cs && cs[i].user == u;
      assert i in rest && rest[i].user == u;
    }
    forall o: OrderId | ChargesOrder(cs, o) && o != cs[tid].order ensures ChargesOrder(rest, o) {
      var i :| i in cs && cs[i].order == o;
      assert i in rest && rest[i].order == o;
    }
  }

  /** The committed tables catch up with a charge already made ahead. */
  lemma AheadCommit(t: Tables, t2: Tables, a: Tables, cs: Charges, tid: Tid)
    requires ChargesApart(t, cs) && tid in cs && Ahead(t, a, cs) && Makes(t, t2, cs[tid])
    ensures Ahead(t2, a, Without(cs, tid))
  {
    var c, rest := cs[tid], Without(cs, tid);
    WithoutCharges(cs, tid);
    CommittedNow(t, t2, a, c);
    forall i | i in rest ensures ChargeMade(t2, a, rest[i]) {
      OrdersApart(t, cs, i, tid);
      StillMade(t, t2, a, c, cs[i]);
    }
    forall u: UserId | !ChargesUser(rest, u) ensures UserSame(t2, a, u) {
      if u != c.user {
        UserStillSame(t, t2, a, c, u);
      }
    }
    forall o: OrderId | !ChargesOrder(rest, o) ensures OrderSame(t2, a, o) {
      if o != c.order {
        OrderStillSame(t, t2, a, c, o);
      }
    }
  }

  // ----- Other writes -----

  /** A write that stays off every charge under way; a line may join an order
      that is being charged. */
  ghost predicate Clear(x: RowWrite, cs: Charges) {
    match x
    case SetWallet(u, _) => !ChargesUser(cs, u)
    case AppendEntry(u, _) => !ChargesUser(cs, u)
    case PutOrder(o, _) => !ChargesOrder(cs, o)
    case InsertItem(_, _) => true
    case InsertPayment(_, _) => false
    case MarkItems(_, _, _) => false
    case PutBid(_, _) => true
    case PutOffer(_, _) => true
    case OpenThread(_) => true
  }

  lemma StampAppend(items: seq<Item>, x: Item, rows: set<nat>, k: nat)
    requires rows <= UnpaidRows(items)
    ensures Stamp(items + [x], rows, k) == Stamp(items, rows, k) + [x]
  {}

  lemma MadeThroughWrite(t: Tables, a: Tables, x: RowWrite, c: Charge)
    requires ChargeMade(t, a, c) && c.rows <= UnpaidRows(Items(t, c.order))
    requires x.SetWallet? || x.AppendEntry? ==> x.user != c.user
    requires x.PutOrder? ==> x.order != c.order
    requires !x.InsertPayment? && !x.MarkItems?
    ensures ChargeMade(Install(t, x), Install(a, x), c)
  {
    if x.InsertItem? && x.order == c.order {
      StampAppend(Items(t, c.order), x.item, c.rows, |Payments(t, c.order)|);
    }
  }

  lemma UserThroughWrite(t: Tables, a: Tables, x: RowWrite, u: UserId)
    requires UserSame(t, a, u)
    ensures UserSame(Install(t, x), Install(a, x), u)
  {}

  lemma OrderThroughWrite(t: Tables, a: Tables, x: RowWrite, o: OrderId)
    requires OrderSame(t, a, o)
    ensures OrderSame(Install(t, x), Install(a, x), o)
  {}

  lemma AheadWrite(t: Tables, a: Tables, cs: Charges, x: RowWrite)
    requires Ahead(t, a, cs) && Clear(x, cs)
    requires forall tid :: tid in cs ==> cs[tid].rows <= UnpaidRows(Items(t, cs[tid].order))
    ensures Ahead(Install(t, x), Install(a, x), cs)
  {
    forall tid | tid in cs ensures ChargeMade(Install(t, x), Install(a, x), cs[tid]) {
      MadeThroughWrite(t, a, x, cs[tid]);
    }
    forall u: UserId | !ChargesUser(cs, u) ensures UserSame(Install(t, x), Install(a, x), u) {
      UserThroughWrite(t, a, x, u);
    }
    forall o: OrderId | !ChargesOrder(cs, o) ensures OrderSame(Install(t, x), Install(a, x), o) {
      OrderThroughWrite(t, a, x, o);
    }
  }

  lemma RowsThroughWrite(t: Tables, x: RowWrite, o: OrderId, rows: set<nat>)
    requires !x.MarkItems? && rows <= UnpaidRows(Items(t, o))
    ensures rows <= UnpaidRows(Items(Install(t, x), o))
  {}

  lemma {:induction false} AheadWrites(t: Tables, a: Tables, cs: Charges, log: seq<RowWrite>)
    requires Ahead(t, a, cs) && forall i :: 0 <= i < |log| ==> Clear(log[i], cs)
    requires forall tid :: tid in cs ==> cs[tid].rows <= UnpaidRows(Items(t, cs[tid].order))
    ensures Ahead(InstallAll(t, log), InstallAll(a, log), cs)
    ensures forall tid :: tid in cs ==> cs[tid].rows <= UnpaidRows(Items(InstallAll(t, log), cs[tid].order))
  {
    if log != [] {
      var last := |log| - 1;
      AheadWrites(t, a, cs, log[..last]);
      AheadWrite(InstallAll(t, log[..last]), InstallAll(a, log[..last]), cs, log[last]);
      forall tid | tid in cs ensures cs[tid].rows <= UnpaidRows(Items(InstallAll(t, log), cs[tid].order)) {
        RowsThroughWrite(InstallAll(t, log[..last]), log[last], cs[tid].order, cs[tid].rows);
      }
    }
  }
}
