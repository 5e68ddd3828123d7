/** Every order transaction keeps the table invariants. */
module MarketOrderKeeps {
  import opened Common
  import opened MarketTables
  import opened MarketDecisions
  import opened MarketInvariants
  import opened MarketPreservation

  // ----- Pay -----

  /** The facts a charge rests on: the rows picked are unpaid rows of the
      customer's order and the locked balance covers them. */
  ghost predicate Settles(t: Tables, u: UserId, o: OrderId, rows: set<nat>, amount: nat, balance: int, k: nat) {
    && o in t.orders && t.orders[o].customer == u
    && u in t.wallets && t.wallets[u] == balance
    && rows <= UnpaidRows(Items(t, o))
    && 0 < amount == SumAt(Items(t, o), rows)
    && amount <= balance
    && k == |Payments(t, o)|
  }

  /** The tables a charge leaves, field by field. */
  ghost predicate Charged(t: Tables, t2: Tables, u: UserId, o: OrderId, rows: set<nat>, amount: nat, balance: int, k: nat)
    requires o in t.orders
  {
    && Moves(t, t2, u, ChargeEntry(o, amount, balance - amount))
    && t2.payments == t.payments[o := Payments(t, o) + [amount]]
    && t2.items == t.items[o := Stamp(Items(t, o), rows, k)]
    && t2.orders == t.orders[o := t.orders[o].(status := Paid)]
    && t2.threads == t.threads + {o}
    && t2.bids == t.bids && t2.offers == t.offers
  }

  lemma OutstandingStatus(pf: Profiles, t: Tables, o: OrderId, rows: set<nat>)
    requires OrdersOk(pf, t) && o in t.orders
    requires rows <= UnpaidRows(Items(t, o)) && SumAt(Items(t, o), rows) > 0
    ensures OutstandingIdr(Items(t, o)) > 0
    ensures t.orders[o].status in {PendingPayment, Paid}
  {
    assert OrderOk(pf, t, o);
    SumAtMonotone(Items(t, o), rows, UnpaidRows(Items(t, o)));
  }

  /** The first four statements of a charge. */
  ghost function PayHead(u: UserId, o: OrderId, rows: set<nat>, amount: nat, balance: int, k: nat): seq<RowWrite> {
    [InsertPayment(o, amount), SetWallet(u, balance - amount), AppendEntry(u, ChargeEntry(o, amount, balance - amount)), MarkItems(o, rows, k)]
  }

  lemma PayHeadFirst(t: Tables, u: UserId, o: OrderId, amount: nat, after: int)
    ensures InstallAll(t, [InsertPayment(o, amount), SetWallet(u, after)])
         == t.(payments := t.payments[o := Payments(t, o) + [amount]], wallets := t.wallets[u := after])
  {
    hide InstallAll;
    Install2(t, InsertPayment(o, amount), SetWallet(u, after));
  }

  lemma PayHeadSecond(t: Tables, u: UserId, o: OrderId, e: Entry, rows: set<nat>, k: nat)
    ensures InstallAll(t, [AppendEntry(u, e), MarkItems(o, rows, k)])
         == t.(ledger := t.ledger[u := Entries(t, u) + [e]], items := t.items[o := Stamp(Items(t, o), rows, k)])
  {
    hide InstallAll;
    Install2(t, AppendEntry(u, e), MarkItems(o, rows, k));
  }

  lemma PayHeadForm(t: Tables, u: UserId, o: OrderId, rows: set<nat>, amount: nat, balance: int, k: nat)
    ensures InstallAll(t, PayHead(u, o, rows, amount, balance, k))
         == t.(payments := t.payments[o := Payments(t, o) + [amount]],
               wallets := t.wallets[u := balance - amount],
               ledger := t.ledger[u := Entries(t, u) + [ChargeEntry(o, amount, balance - amount)]],
               items := t.items[o := Stamp(Items(t, o), rows, k)])
  {
    hide InstallAll, Install, Stamp;
    var after := balance - amount;
    var e := ChargeEntry(o, amount, after);
    var a, b := [InsertPayment(o, amount), SetWallet(u, after)], [AppendEntry(u, e), MarkItems(o, rows, k)];
    assert PayHead(u, o, rows, amount, balance, k) == a + b;
    InstallConcat(t, a, b);
    PayHeadFirst(t, u, o, amount, after);
    var t1 := t.(payments := t.payments[o := Payments(t, o) + [amount]], wallets := t.wallets[u := after]);
    assert InstallAll(t, a) == t1;
    assert Entries(t1, u) == Entries(t, u) && Items(t1, o) == Items(t, o);
    PayHeadSecond(t1, u, o, e, rows, k);
  }

  /** The log of a charge, in its two shapes: the first payment moves the order
      to paid, a later one leaves its row alone. */
  lemma PayTailForm(t: Tables, u: UserId, o: OrderId, rows: set<nat>, amount: nat, balance: int, k: nat)
    requires o in t.orders
    ensures var t4, row := InstallAll(t, PayHead(u, o, rows, amount, balance, k)), t.orders[o];
      t4.orders == t.orders && t4.threads == t.threads ==>
      InstallAll(t, PayLog(row, u, o, rows, amount, balance, k))
      == t4.(orders := t.orders[o := if row.status == PendingPayment then row.(status := Paid) else row], threads := t.threads + {o})
  {
    hide InstallAll;
    var row, head := t.orders[o], PayHead(u, o, rows, amount, balance, k);
    var t4 := InstallAll(t, head);
    if row.status == PendingPayment {
      var put := PutOrder(o, row.(status := Paid));
      Install2(t4, put, OpenThread(o));
      InstallConcat(t, head, [put, OpenThread(o)]);
      assert PayLog(row, u, o, rows, amount, balance, k) == head + [put, OpenThread(o)];
    } else {
      assert t.orders[o := row] == t.orders;
      InstallSnoc(t, head, OpenThread(o));
      assert PayLog(row, u, o, rows, amount, balance, k) == head + [OpenThread(o)];
    }
  }

  lemma ChargeMoves(t: Tables, t2: Tables, u: UserId, o: OrderId, amount: nat, after: int)
    requires 0 < amount && after == Balance(t, u) - amount && after >= 0
    requires t2.wallets == t.wallets[u := after]
    requires t2.ledger == t.ledger[u := Entries(t, u) + [ChargeEntry(o, amount, after)]]
    ensures Moves(t, t2, u, ChargeEntry(o, amount, after))
  {}

  lemma PayForm(t: Tables, u: UserId, o: OrderId, rows: set<nat>, amount: nat, balance: int, k: nat)
    requires Settles(t, u, o, rows, amount, balance, k) && t.orders[o].status in {PendingPayment, Paid}
    ensures Charged(t, InstallAll(t, PayLog(t.orders[o], u, o, rows, amount, balance, k)), u, o, rows, amount, balance, k)
  {
    hide InstallAll, Install;
    var t2 := InstallAll(t, PayLog(t.orders[o], u, o, rows, amount, balance, k));
    var after := balance - amount;
    PayHeadForm(t, u, o, rows, amount, balance, k);
    PayTailForm(t, u, o, rows, amount, balance, k);
    ChargeMoves(t, t2, u, o, amount, after);
  }

  /** The charge's ledger row is the new payment, with the sign turned. */
  lemma ChargeListed(t: Tables, t2: Tables, u: UserId, o: OrderId, amount: nat, after: int)
    requires Moves(t, t2, u, ChargeEntry(o, amount, after))
    requires t2.payments == t.payments[o := Payments(t, o) + [amount]]
    requires Amounts(Entries(t, u), OrderPayment, ForOrder(o)) == Negated(Payments(t, o))
    ensures Amounts(Entries(t2, u), OrderPayment, ForOrder(o)) == Negated(Payments(t2, o))
  {
    var before := Payments(t, o);
    AmountsMove(t, t2, u, ChargeEntry(o, amount, after), u, OrderPayment, ForOrder(o));
    NegatedSnoc(before, amount);
    assert Payments(t2, o) == before + [amount];
  }

  lemma PayChargesAt(pf: Profiles, t: Tables, t2: Tables, u: UserId, o: OrderId, rows: set<nat>, amount: nat, balance: int, k: nat, x: UserId, y: nat)
    requires Settles(t, u, o, rows, amount, balance, k) && Charged(t, t2, u, o, rows, amount, balance, k)
    requires t.orders[o].status != Completed
    requires ChargesOk(t, x, y)
    ensures ChargesOk(t2, x, y)
  {
    if x == u && y == o {
      ChargeListed(t, t2, u, o, amount, balance - amount);
    } else {
      AmountsMove(t, t2, u, ChargeEntry(o, amount, balance - amount), x, OrderPayment, ForOrder(y));
      assert y != o ==> Payments(t2, y) == Payments(t, y);
    }
  }

  lemma PayPayoutsAt(pf: Profiles, t: Tables, t2: Tables, u: UserId, o: OrderId, rows: set<nat>, amount: nat, balance: int, k: nat, x: UserId, y: nat)
    requires Settles(t, u, o, rows, amount, balance, k) && Charged(t, t2, u, o, rows, amount, balance, k)
    requires t.orders[o].status != Completed
    requires PayoutOk(pf, t, x, y) && FeeOk(t, x, y)
    ensures PayoutOk(pf, t2, x, y) && FeeOk(t2, x, y)
  {
    AmountsMove(t, t2, u, ChargeEntry(o, amount, balance - amount), x, Payout, ForOrder(y));
    NetMove(t, t2, u, ChargeEntry(o, amount, balance - amount), x, ForBid(y));
    assert y != o ==> Items(t2, y) == Items(t, y);
  }

  lemma PayLedger(pf: Profiles, t: Tables, t2: Tables, u: UserId, o: OrderId, rows: set<nat>, amount: nat, balance: int, k: nat)
    requires LedgerOk(pf, t)
    requires Settles(t, u, o, rows, amount, balance, k) && Charged(t, t2, u, o, rows, amount, balance, k)
    requires t.orders[o].status != Completed
    ensures LedgerOk(pf, t2)
  {
    forall x: UserId, y: nat ensures LedgerAt(pf, t2, x, y) {
      assert ChargesOk(t, x, y) && PayoutOk(pf, t, x, y) && FeeOk(t, x, y);
      PayChargesAt(pf, t, t2, u, o, rows, amount, balance, k, x, y);
      PayPayoutsAt(pf, t, t2, u, o, rows, amount, balance, k, x, y);
    }
    LedgerFromAt(pf, t2);
  }

  /** A new payment keeps the partition of the paid rows. */
  lemma PaymentsKept(items: seq<Item>, payments: seq<nat>, rows: set<nat>, amount: nat)
    requires PaymentsOk(items, payments)
    requires rows <= UnpaidRows(items) && 0 < amount == SumAt(items, rows)
    ensures PaymentsOk(Stamp(items, rows, |payments|), payments + [amount])
  {
    var k := |payments|;
    var s, p := Stamp(items, rows, k), payments + [amount];
    forall j | 0 <= j < |p| ensures p[j] > 0 && p[j] == SumAt(s, RowsOf(s, j)) {
      StampRowsOf(items, rows, k, j);
    }
  }

  lemma StampKeepsLines(items: seq<Item>, rows: set<nat>, k: nat)
    ensures var s := Stamp(items, rows, k);
      |s| == |items| && forall i :: 0 <= i < |items| ==> s[i].gig == items[i].gig && s[i].subtotal == items[i].subtotal
  {}

  lemma PayTracked(t: Tables, t2: Tables, o: OrderId, rows: set<nat>, k: nat)
    requires o in t.orders && t2.orders == t.orders[o := t.orders[o].(status := Paid)]
    requires t2.items == t.items[o := Stamp(Items(t, o), rows, k)]
    requires t2.threads == t.threads + {o} && t2.bids == t.bids && t2.offers == t.offers
    requires t.orders[o].bid.Some? ==> TrackedOk(t, o, t.orders[o].bid.value)
    ensures t2.orders[o].bid.Some? ==> TrackedOk(t2, o, t2.orders[o].bid.value)
  {}

  lemma PayOrder(pf: Profiles, t: Tables, t2: Tables, u: UserId, o: OrderId, rows: set<nat>, amount: nat, balance: int, k: nat)
    requires OrdersOk(pf, t)
    requires Settles(t, u, o, rows, amount, balance, k) && Charged(t, t2, u, o, rows, amount, balance, k)
    ensures OrderOk(pf, t2, o)
  {
    assert OrderOk(pf, t, o);
    OutstandingStatus(pf, t, o, rows);
    PaymentsKept(Items(t, o), Payments(t, o), rows, amount);
    PayTracked(t, t2, o, rows, k);
    StampKeepsLines(Items(t, o), rows, k);
  }

  lemma PayOrders(pf: Profiles, t: Tables, t2: Tables, u: UserId, o: OrderId, rows: set<nat>, amount: nat, balance: int, k: nat)
    requires OrdersOk(pf, t)
    requires Settles(t, u, o, rows, amount, balance, k) && Charged(t, t2, u, o, rows, amount, balance, k)
    ensures OrdersOk(pf, t2)
  {
    forall x | x in t2.orders ensures OrderOk(pf, t2, x) {
      if x == o {
        PayOrder(pf, t, t2, u, o, rows, amount, balance, k);
      } else {
        assert SameOrder(t, t2, x);
        OrderKept(pf, t, t2, x);
      }
    }
  }

  lemma PayMoney(t: Tables, t2: Tables, u: UserId, o: OrderId, rows: set<nat>, amount: nat, balance: int, k: nat)
    requires Settles(t, u, o, rows, amount, balance, k) && Charged(t, t2, u, o, rows, amount, balance, k)
    requires t.orders[o].status != Completed
    ensures Money(t2) == Money(t)
  {
    WalletMove(t, t2, u, ChargeEntry(o, amount, balance - amount));
    StampPaid(Items(t, o), rows, k);
    HeldUpdate(t, t2, o, PaidIdr(Items(t2, o)));
    FeesSame(t, t2);
  }

  lemma PayBids(pf: Profiles, t: Tables, t2: Tables, u: UserId, o: OrderId, rows: set<nat>, amount: nat, balance: int, k: nat)
    requires BidsOk(pf, t) && o in t.orders && Charged(t, t2, u, o, rows, amount, balance, k)
    ensures BidsOk(pf, t2)
  {
    BidsSame(pf, t, t2);
  }

  /** A charge of any unpaid rows of the order keeps every invariant. */
  lemma PayKeeps(pf: Profiles, open: map<UserId, nat>, t: Tables, u: UserId, o: OrderId, rows: set<nat>, amount: nat, balance: int, k: nat)
    requires Inv(pf, open, t) && Settles(t, u, o, rows, amount, balance, k)
    ensures Inv(pf, open, InstallAll(t, PayLog(t.orders[o], u, o, rows, amount, balance, k)))
  {
    hide InstallAll, Install, PayLog, UsersOk, LedgerOk, OrdersOk, BidsOk, Money;
    var t2 := InstallAll(t, PayLog(t.orders[o], u, o, rows, amount, balance, k));
    OutstandingStatus(pf, t, o, rows);
    PayForm(t, u, o, rows, amount, balance, k);
    UsersMove(open, t, t2, u, ChargeEntry(o, amount, balance - amount));
    PayLedger(pf, t, t2, u, o, rows, amount, balance, k);
    PayOrders(pf, t, t2, u, o, rows, amount, balance, k);
    PayBids(pf, t, t2, u, o, rows, amount, balance, k);
    PayMoney(t, t2, u, o, rows, amount, balance, k);
  }

  // ----- Orders without money: PlaceOrder, AddItem, Complete -----

  /** Only order o and its lines change, and neither its bid nor its lapak. */
  ghost predicate OrderStep(t: Tables, t2: Tables, o: OrderId) {
    && t2.wallets == t.wallets && t2.ledger == t.ledger && t2.payments == t.payments
    && t2.bids == t.bids && t2.offers == t.offers && t2.threads == t.threads
    && o in t2.orders && t2.orders == t.orders[o := t2.orders[o]]
    && (t2.items == t.items || t2.items == t.items[o := Items(t2, o)])
    && QuietOrder(t, t2, o)
    && (if o in t.orders then t2.orders[o].bid == t.orders[o].bid else t2.orders[o].bid == None)
  }

  lemma OrderStepLedger(pf: Profiles, t: Tables, t2: Tables, o: OrderId)
    requires LedgerOk(pf, t) && OrderStep(t, t2, o)
    ensures LedgerOk(pf, t2)
  {
    forall x: OrderId ensures QuietOrder(t, t2, x) {
      assert x != o ==> Items(t2, x) == Items(t, x);
    }
    LedgerQuiet(pf, t, t2);
  }

  lemma OrderStepBids(pf: Profiles, t: Tables, t2: Tables, o: OrderId)
    requires BidsOk(pf, t) && OrderStep(t, t2, o)
    ensures BidsOk(pf, t2)
  {
    BidsSame(pf, t, t2);
  }

  lemma OrderStepOrders(pf: Profiles, t: Tables, t2: Tables, o: OrderId)
    requires OrdersOk(pf, t) && OrderStep(t, t2, o) && OrderOk(pf, t2, o)
    ensures OrdersOk(pf, t2)
  {
    OrdersBut(pf, t, t2, o);
  }

  lemma OrderStepMoney(t: Tables, t2: Tables, o: OrderId)
    requires OrderStep(t, t2, o)
    requires o in t.orders ==> t.orders[o].status != Completed && PaidIdr(Items(t2, o)) == PaidIdr(Items(t, o))
    requires o !in t.orders ==> PaidIdr(Items(t2, o)) == 0
    ensures Money(t2) == Money(t)
  {
    HeldUpdate(t, t2, o, PaidIdr(Items(t2, o)));
    FeesSame(t, t2);
  }

  lemma OrderStepKeeps(pf: Profiles, open: map<UserId, nat>, t: Tables, t2: Tables, o: OrderId)
    requires Inv(pf, open, t) && OrderStep(t, t2, o) && OrderOk(pf, t2, o)
    requires o in t.orders ==> t.orders[o].status != Completed && PaidIdr(Items(t2, o)) == PaidIdr(Items(t, o))
    requires o !in t.orders ==> PaidIdr(Items(t2, o)) == 0
    ensures Inv(pf, open, t2)
  {
    UsersSame(open, t, t2);
    OrderStepLedger(pf, t, t2, o);
    OrderStepOrders(pf, t, t2, o);
    OrderStepBids(pf, t, t2, o);
    OrderStepMoney(t, t2, o);
  }

  lemma PlaceOrderKeeps(pf: Profiles, open: map<UserId, nat>, t: Tables, t2: Tables, o: OrderId, row: Order, item: Item)
    requires Inv(pf, open, t)
    requires o !in t.orders && o !in t.items && o !in t.payments
    requires row.source in {FromGig, FromProduct} && !pf.IsLapak(row.customer) && row.lapak in pf.userOf
    requires row == NewOrderRow(row.source, row.customer, row.lapak, None) && item.payment == None
    requires t2 == t.(orders := t.orders[o := row], items := t.items[o := [item]])
    ensures Inv(pf, open, t2)
  {
    assert Payments(t2, o) == [] && Items(t2, o) == [item];
    assert OrderOk(pf, t2, o);
    assert PaidRows([item]) == {};
    NoRows([item]);
    OrderStepKeeps(pf, open, t, t2, o);
  }

  lemma AddItemKeeps(pf: Profiles, open: map<UserId, nat>, t: Tables, t2: Tables, o: OrderId, item: Item)
    requires Inv(pf, open, t)
    requires o in t.orders && t.orders[o].status == Paid
    requires item.payment == None && item.gig.Some? && OrderGig(Items(t, o)) == item.gig
    requires t2 == t.(items := t.items[o := Items(t, o) + [item]])
    ensures Inv(pf, open, t2)
  {
    hide OrderOk, LedgerOk, UsersOk, BidsOk, Money, OrderGig;
    AddItemOrder(pf, t, t2, o, item);
    AppendUnpaid(Items(t, o), item);
    OrderStepKeeps(pf, open, t, t2, o);
  }

  /** All lines of an order share one gig, so the first is as good as any. */
  lemma {:induction false} GigOfLines(items: seq<Item>, gig: Option<GigId>)
    requires forall i :: 0 <= i < |items| ==> items[i].gig == gig
    ensures items != [] ==> OrderGig(items) == gig
  {
    if items != [] {
      GigOfLines(items[1..], gig);
    }
  }

  lemma AddItemOrder(pf: Profiles, t: Tables, t2: Tables, o: OrderId, item: Item)
    requires OrdersOk(pf, t) && o in t.orders && t.orders[o].status == Paid
    requires item.payment == None && item.gig.Some? && OrderGig(Items(t, o)) == item.gig
    requires t2 == t.(items := t.items[o := Items(t, o) + [item]])
    ensures OrderOk(pf, t2, o)
  {
    assert OrderOk(pf, t, o);
    var items := Items(t, o);
    GigOfLines(items, items[0].gig);
    AppendUnpaid(items, item);
    var s := items + [item];
    assert Items(t2, o) == s && Payments(t2, o) == Payments(t, o);
    forall k | 0 <= k < |Payments(t, o)| ensures Payments(t, o)[k] == SumAt(s, RowsOf(s, k)) {
      assert SumAt(s, RowsOf(s, k)) == SumAt(items, RowsOf(items, k));
    }
  }

  /** The lapak's complete: the row moves and the clock starts, nothing else. */
  ghost predicate Awaits(t: Tables, t2: Tables, o: OrderId, deadline: Time) {
    && o in t.orders && t.orders[o].status == Paid && OutstandingIdr(Items(t, o)) == 0
    && t2 == t.(orders := t.orders[o := AwaitingRow(t.orders[o], deadline)])
  }

  lemma CompleteKeeps(pf: Profiles, open: map<UserId, nat>, t: Tables, t2: Tables, o: OrderId, deadline: Time)
    requires Inv(pf, open, t) && Awaits(t, t2, o, deadline)
    ensures Inv(pf, open, t2)
  {
    CompleteOrder(pf, t, t2, o, deadline);
    OrderStepKeeps(pf, open, t, t2, o);
  }

  lemma CompleteOrder(pf: Profiles, t: Tables, t2: Tables, o: OrderId, deadline: Time)
    requires OrdersOk(pf, t) && Awaits(t, t2, o, deadline)
    ensures OrderOk(pf, t2, o) && OrderStep(t, t2, o)
  {
    assert OrderOk(pf, t, o);
    if t.orders[o].bid.Some? {
      assert TrackedOk(t, o, t.orders[o].bid.value);
      assert TrackedOk(t2, o, t.orders[o].bid.value);
    }
  }

  // ----- Payout -----

  ghost predicate PaidOut(pf: Profiles, t: Tables, t2: Tables, o: OrderId, amount: nat, auto: bool, now: Time)
    requires o in t.orders && t.orders[o].lapak in pf.userOf
  {
    var v := pf.userOf[t.orders[o].lapak];
    && Moves(t, t2, v, PayoutEntry(o, amount, Balance(t, v) + amount))
    && t2.orders == t.orders[o := CompletedRow(t.orders[o], auto, now)]
    && t2.items == t.items && t2.payments == t.payments && t2.threads == t.threads
    && t2.bids == t.bids && t2.offers == t.offers
  }

  /** Nothing outstanding: what was paid is the total, and it is not nothing. */
  lemma PaidIsTotal(pf: Profiles, t: Tables, o: OrderId)
    requires o in t.orders && OrderOk(pf, t, o) && t.orders[o].status in {AwaitingConfirmation, Completed}
    ensures PaidIdr(Items(t, o)) == TotalIdr(Items(t, o)) > 0
  {
    var items, payments := Items(t, o), Payments(t, o);
    PaidPlusOutstanding(items);
    assert payments[0] == SumAt(items, RowsOf(items, 0));
    SumAtMonotone(items, RowsOf(items, 0), PaidRows(items));
  }

  /** The payout's ledger row, seen by one user and one order or bid id. */
  lemma PayoutRowAt(t: Tables, t2: Tables, v: UserId, o: OrderId, amount: nat, after: int, x: UserId, y: nat)
    requires Moves(t, t2, v, PayoutEntry(o, amount, after))
    ensures Amounts(Entries(t2, x), OrderPayment, ForOrder(y)) == Amounts(Entries(t, x), OrderPayment, ForOrder(y))
    ensures Amounts(Entries(t2, x), Payout, ForOrder(y))
         == if x == v && y == o then Amounts(Entries(t, x), Payout, ForOrder(y)) + [amount as int] else Amounts(Entries(t, x), Payout, ForOrder(y))
    ensures Net(Entries(t2, x), ForBid(y)) == Net(Entries(t, x), ForBid(y))
  {
    var e := PayoutEntry(o, amount, after);
    AmountsMove(t, t2, v, e, x, OrderPayment, ForOrder(y));
    AmountsMove(t, t2, v, e, x, Payout, ForOrder(y));
    NetMove(t, t2, v, e, x, ForBid(y));
  }

  lemma PayoutChargesAt(t: Tables, t2: Tables, o: OrderId, x: UserId, y: nat)
    requires o in t.orders && o in t2.orders && t2.orders == t.orders[o := t2.orders[o]] && t2.payments == t.payments
    requires t2.orders[o].customer == t.orders[o].customer && ChargesOk(t, x, y)
    requires Amounts(Entries(t2, x), OrderPayment, ForOrder(y)) == Amounts(Entries(t, x), OrderPayment, ForOrder(y))
    ensures ChargesOk(t2, x, y)
  {}

  /** The one payout of order o appears with its completion. */
  lemma PayoutListedAt(pf: Profiles, t: Tables, t2: Tables, o: OrderId, v: UserId, amount: nat, x: UserId, y: nat)
    requires o in t.orders && o in t2.orders && t2.orders == t.orders[o := t2.orders[o]] && t2.items == t.items
    requires t.orders[o].status == AwaitingConfirmation && t2.orders[o].status == Completed
    requires t2.orders[o].lapak == t.orders[o].lapak && t.orders[o].lapak in pf.userOf && v == pf.userOf[t.orders[o].lapak]
    requires amount == TotalIdr(Items(t, o)) && PayoutOk(pf, t, x, y)
    requires Amounts(Entries(t2, x), Payout, ForOrder(y))
          == if x == v && y == o then Amounts(Entries(t, x), Payout, ForOrder(y)) + [amount as int] else Amounts(Entries(t, x), Payout, ForOrder(y))
    ensures PayoutOk(pf, t2, x, y)
  {
    if y == o {
      assert Amounts(Entries(t, x), Payout, ForOrder(y)) == [];
      assert [] + [amount as int] == [amount as int];
    }
  }

  lemma PayoutLedgerAt(pf: Profiles, t: Tables, t2: Tables, o: OrderId, amount: nat, auto: bool, now: Time, x: UserId, y: nat)
    requires o in t.orders && t.orders[o].lapak in pf.userOf && t.orders[o].status == AwaitingConfirmation
    requires amount == TotalIdr(Items(t, o)) && PaidOut(pf, t, t2, o, amount, auto, now)
    requires ChargesOk(t, x, y) && PayoutOk(pf, t, x, y) && FeeOk(t, x, y)
    ensures LedgerAt(pf, t2, x, y)
  {
    var v := pf.userOf[t.orders[o].lapak];
    var after := Balance(t, v) + amount;
    PayoutRowAt(t, t2, v, o, amount, after, x, y);
    PayoutChargesAt(t, t2, o, x, y);
    PayoutListedAt(pf, t, t2, o, v, amount, x, y);
  }

  lemma PayoutLedger(pf: Profiles, t: Tables, t2: Tables, o: OrderId, amount: nat, auto: bool, now: Time)
    requires LedgerOk(pf, t)
    requires o in t.orders && t.orders[o].lapak in pf.userOf && t.orders[o].status == AwaitingConfirmation
    requires amount == TotalIdr(Items(t, o)) && PaidOut(pf, t, t2, o, amount, auto, now)
    ensures LedgerOk(pf, t2)
  {
    forall x: UserId, y: nat ensures LedgerAt(pf, t2, x, y) {
      assert ChargesOk(t, x, y) && PayoutOk(pf, t, x, y) && FeeOk(t, x, y);
      PayoutLedgerAt(pf, t, t2, o, amount, auto, now, x, y);
    }
    LedgerFromAt(pf, t2);
  }

  lemma PayoutOrder(pf: Profiles, t: Tables, t2: Tables, o: OrderId, amount: nat, auto: bool, now: Time)
    requires o in t.orders && OrderOk(pf, t, o) && t.orders[o].status == AwaitingConfirmation
    requires PaidOut(pf, t, t2, o, amount, auto, now)
    requires auto ==> t.orders[o].deadline.value <= now
    ensures OrderOk(pf, t2, o)
  {
    if t.orders[o].bid.Some? {
      assert TrackedOk(t, o, t.orders[o].bid.value);
      assert TrackedOk(t2, o, t.orders[o].bid.value);
    }
  }

  lemma PayoutMoney(pf: Profiles, t: Tables, t2: Tables, o: OrderId, amount: nat, auto: bool, now: Time)
    requires o in t.orders && t.orders[o].lapak in pf.userOf && t.orders[o].status == AwaitingConfirmation
    requires amount == PaidIdr(Items(t, o)) && PaidOut(pf, t, t2, o, amount, auto, now)
    ensures Money(t2) == Money(t)
  {
    var v := pf.userOf[t.orders[o].lapak];
    WalletMove(t, t2, v, PayoutEntry(o, amount, Balance(t, v) + amount));
    HeldUpdate(t, t2, o, 0);
    FeesSame(t, t2);
  }

  lemma PayoutOrders(pf: Profiles, t: Tables, t2: Tables, o: OrderId, amount: nat, auto: bool, now: Time)
    requires OrdersOk(pf, t)
    requires o in t.orders && t.orders[o].lapak in pf.userOf
    requires PaidOut(pf, t, t2, o, amount, auto, now) && OrderOk(pf, t2, o)
    ensures OrdersOk(pf, t2)
  {
    OrdersBut(pf, t, t2, o);
  }

  lemma PayoutBids(pf: Profiles, t: Tables, t2: Tables, o: OrderId, amount: nat, auto: bool, now: Time)
    requires BidsOk(pf, t)
    requires o in t.orders && t.orders[o].lapak in pf.userOf
    requires PaidOut(pf, t, t2, o, amount, auto, now)
    ensures BidsOk(pf, t2)
  {
    BidsSame(pf, t, t2);
  }

  lemma PayoutKeeps(pf: Profiles, open: map<UserId, nat>, t: Tables, t2: Tables, o: OrderId, amount: nat, auto: bool, now: Time)
    requires Inv(pf, open, t)
    requires o in t.orders && t.orders[o].lapak in pf.userOf && t.orders[o].status == AwaitingConfirmation
    requires amount == PaidIdr(Items(t, o)) && PaidOut(pf, t, t2, o, amount, auto, now)
    requires auto ==> t.orders[o].deadline.Some? && t.orders[o].deadline.value <= now
    ensures Inv(pf, open, t2)
  {
    assert OrderOk(pf, t, o);
    PaidIsTotal(pf, t, o);
    UsersMove(open, t, t2, pf.userOf[t.orders[o].lapak], PayoutEntry(o, amount, Balance(t, pf.userOf[t.orders[o].lapak]) + amount));
    PayoutLedger(pf, t, t2, o, amount, auto, now);
    PayoutOrder(pf, t, t2, o, amount, auto, now);
    PayoutOrders(pf, t, t2, o, amount, auto, now);
    PayoutBids(pf, t, t2, o, amount, auto, now);
    PayoutMoney(pf, t, t2, o, amount, auto, now);
  }
}
