/** The marketplace tables, the row writes a statement performs on them, and the
    money totals derived from an order's items. */
module MarketTables {
  import opened Common

  type UserId = nat
  type LapakId = nat
  type OrderId = nat
  type BidId = nat
  type GigId = nat
  type Time = int

  /** Which user stands behind which lapak profile; fixed for a whole run. */
  datatype Profiles = Profiles(userOf: map<LapakId, UserId>, lapakOf: map<UserId, LapakId>) {
    ghost predicate Valid() {
      && (forall l :: l in userOf ==> userOf[l] in lapakOf && lapakOf[userOf[l]] == l)
      && (forall u :: u in lapakOf ==> lapakOf[u] in userOf && userOf[lapakOf[u]] == u)
    }

    predicate IsLapak(u: UserId) {
      u in lapakOf
    }
  }

  datatype Source = FromProduct | FromGig | FromAutoBid | FromManualBid

  datatype OrderStatus = PendingPayment | Paid | AwaitingConfirmation | Completed | Cancelled

  datatype Order = Order(
    source: Source,
    status: OrderStatus,
    customer: UserId,
    lapak: LapakId,
    bid: Option<BidId>,
    deadline: Option<Time>,
    autoConfirmed: bool,
    completedAt: Option<Time>)

  /** An order line. payment is the number of the order's payment row that covers it. */
  datatype Item = Item(subtotal: nat, gig: Option<GigId>, payment: Option<nat>)

  datatype EntryKind = OrderPayment | Payout | PlatformFee | Refund

  datatype Subject = ForOrder(order: OrderId) | ForBid(bid: BidId)

  /** A ledger row: the signed amount and the wallet balance right after it. */
  datatype Entry = Entry(kind: EntryKind, amount: int, after: int, subject: Subject)

  datatype Mode = Auto | Manual

  datatype BidStatus = Proposed | CustomerConfirmed | Accepted | NoMatch | Open | Awarded | BidCancelled

  datatype Bid = Bid(mode: Mode, status: BidStatus, customer: UserId, matched: Option<LapakId>, budget: nat, fee: nat)

  datatype OfferStatus = Pending | OfferAwarded | Rejected

  /** One offer row per lapak per bid. */
  datatype OfferKey = OfferKey(bid: BidId, lapak: LapakId)

  datatype Offer = Offer(amount: nat, status: OfferStatus)

  /** Items and payments are listed per order, ledger rows per user, each in the
      order they were inserted; a row's place in its list is its id. */
  datatype Tables = Tables(
    wallets: map<UserId, int>,
    ledger: map<UserId, seq<Entry>>,
    orders: map<OrderId, Order>,
    items: map<OrderId, seq<Item>>,
    payments: map<OrderId, seq<nat>>,
    bids: map<BidId, Bid>,
    offers: map<OfferKey, Offer>,
    threads: set<OrderId>)

  function Balance(t: Tables, u: UserId): int {
    if u in t.wallets then t.wallets[u] else 0
  }

  function Entries(t: Tables, u: UserId): seq<Entry> {
    if u in t.ledger then t.ledger[u] else []
  }

  function Items(t: Tables, o: OrderId): seq<Item> {
    if o in t.items then t.items[o] else []
  }

  function Payments(t: Tables, o: OrderId): seq<nat> {
    if o in t.payments then t.payments[o] else []
  }

  // ----- Money totals of an order -----

  /** The subtotals of the rows whose ids are in rows. */
  function SumAt(items: seq<Item>, rows: set<nat>): nat {
    if items == [] then 0
    else
      var last := |items| - 1;
      SumAt(items[..last], rows) + if last in rows then items[last].subtotal else 0
  }

  function AllRows(items: seq<Item>): set<nat> {
    set i: nat {:trigger items[i]} | i < |items|
  }

  function UnpaidRows(items: seq<Item>): set<nat> {
    set i: nat | i < |items| && items[i].payment == None
  }

  function PaidRows(items: seq<Item>): set<nat> {
    set i: nat | i < |items| && items[i].payment != None
  }

  /** The rows that point at payment row k. */
  function RowsOf(items: seq<Item>, k: nat): set<nat> {
    set i: nat | i < |items| && items[i].payment == Some(k)
  }

  function TotalIdr(items: seq<Item>): nat {
    SumAt(items, AllRows(items))
  }

  function PaidIdr(items: seq<Item>): nat {
    SumAt(items, PaidRows(items))
  }

  function OutstandingIdr(items: seq<Item>): nat {
    SumAt(items, UnpaidRows(items))
  }

  /** The gig an order is about: that of a line bought from a gig tier, if any. */
  function OrderGig(items: seq<Item>): Option<GigId> {
    if items == [] then None
    else if items[0].gig.Some? then items[0].gig
    else OrderGig(items[1..])
  }

  /** Points the unpaid rows among rows at payment k. */
  function Stamp(items: seq<Item>, rows: set<nat>, k: nat): seq<Item> {
    seq(|items|, i requires 0 <= i < |items| =>
      if i in rows && items[i].payment == None then items[i].(payment := Some(k)) else items[i])
  }

  /** The sum depends only on which rows are picked and what they cost. */
  lemma {:induction false} SumAtSame(a: seq<Item>, ra: set<nat>, b: seq<Item>, rb: set<nat>)
    requires |a| <= |b|
    requires forall i: nat :: i < |a| ==> (i in ra <==> i in rb) && (i in ra ==> a[i].subtotal == b[i].subtotal)
    requires forall i: nat :: |a| <= i < |b| ==> i !in rb
    ensures SumAt(a, ra) == SumAt(b, rb)
    decreases |b|
  {
    if b != [] {
      var last := |b| - 1;
      if |a| == |b| {
        SumAtSame(a[..last], ra, b[..last], rb);
      } else {
        SumAtSame(a, ra, b[..last], rb);
      }
    }
  }

  lemma {:induction false} SumAtUnion(items: seq<Item>, ra: set<nat>, rb: set<nat>)
    requires ra !! rb
    ensures SumAt(items, ra + rb) == SumAt(items, ra) + SumAt(items, rb)
  {
    if items != [] {
      SumAtUnion(items[..|items| - 1], ra, rb);
    }
  }

  /** Every order: what is paid and what is outstanding make up the total. */
  lemma PaidPlusOutstanding(items: seq<Item>)
    ensures PaidIdr(items) + OutstandingIdr(items) == TotalIdr(items)
  {
    SumAtUnion(items, PaidRows(items), UnpaidRows(items));
    assert PaidRows(items) + UnpaidRows(items) == AllRows(items);
  }

  lemma {:induction false} SumAtMonotone(items: seq<Item>, ra: set<nat>, rb: set<nat>)
    requires ra <= rb
    ensures SumAt(items, ra) <= SumAt(items, rb)
  {
    SumAtUnion(items, ra, rb - ra);
    assert ra + (rb - ra) == rb;
  }

  lemma StampPaid(items: seq<Item>, rows: set<nat>, k: nat)
    requires rows <= UnpaidRows(items)
    ensures PaidIdr(Stamp(items, rows, k)) == PaidIdr(items) + SumAt(items, rows)
  {
    var s := Stamp(items, rows, k);
    SumAtUnion(items, PaidRows(items), rows);
    SumAtSame(s, PaidRows(s), items, PaidRows(items) + rows);
  }

  lemma StampTotal(items: seq<Item>, rows: set<nat>, k: nat)
    ensures TotalIdr(Stamp(items, rows, k)) == TotalIdr(items)
  {
    var s := Stamp(items, rows, k);
    SumAtSame(s, AllRows(s), items, AllRows(items));
  }

  lemma StampRowsOf(items: seq<Item>, rows: set<nat>, k: nat, j: nat)
    requires rows <= UnpaidRows(items)
    requires RowsOf(items, k) == {}
    ensures SumAt(Stamp(items, rows, k), RowsOf(Stamp(items, rows, k), j))
         == if j == k then SumAt(items, rows) else SumAt(items, RowsOf(items, j))
  {
    var s := Stamp(items, rows, k);
    forall i: nat | i < |items|
      ensures i in RowsOf(s, j) <==> if j == k then i in rows else i in RowsOf(items, j)
    {
      assert items[i].payment == Some(k) ==> i in RowsOf(items, k);
    }
    SumAtSame(s, RowsOf(s, j), items, if j == k then rows else RowsOf(items, j));
  }

  /** What stamping moves from outstanding to paid is exactly the stamped sum. */
  lemma StampMovesMoney(items: seq<Item>, rows: set<nat>, k: nat)
    requires rows <= UnpaidRows(items)
    ensures PaidIdr(Stamp(items, rows, k)) == PaidIdr(items) + SumAt(items, rows)
    ensures OutstandingIdr(Stamp(items, rows, k)) == OutstandingIdr(items) - SumAt(items, rows)
    ensures TotalIdr(Stamp(items, rows, k)) == TotalIdr(items)
  {
    StampPaid(items, rows, k);
    StampTotal(items, rows, k);
    PaidPlusOutstanding(items);
    PaidPlusOutstanding(Stamp(items, rows, k));
  }

  /** What appending an unpaid row does to each total. */
  lemma AppendUnpaid(items: seq<Item>, x: Item)
    requires x.payment == None
    ensures PaidIdr(items + [x]) == PaidIdr(items)
    ensures OutstandingIdr(items + [x]) == OutstandingIdr(items) + x.subtotal
    ensures forall k: nat {:trigger RowsOf(items, k)} ::
      SumAt(items + [x], RowsOf(items + [x], k)) == SumAt(items, RowsOf(items, k))
  {
    var s := items + [x];
    SumAtSame(items, PaidRows(items), s, PaidRows(s));
    assert s[..|items|] == items;
    SumAtSame(items, UnpaidRows(items), items, UnpaidRows(s));
    forall k: nat ensures SumAt(s, RowsOf(s, k)) == SumAt(items, RowsOf(items, k)) {
      SumAtSame(items, RowsOf(items, k), s, RowsOf(s, k));
    }
  }

  // ----- Row writes -----

  /** One row version or one inserted row, as a statement leaves it behind. */
  datatype RowWrite =
    | SetWallet(user: UserId, balance: int)
    | AppendEntry(user: UserId, entry: Entry)
    | PutOrder(order: OrderId, row: Order)
    | InsertItem(order: OrderId, item: Item)
    | InsertPayment(order: OrderId, amount: nat)
    | MarkItems(order: OrderId, rows: set<nat>, payment: nat)
    | PutBid(bid: BidId, bidRow: Bid)
    | PutOffer(key: OfferKey, offer: Offer)
    | OpenThread(order: OrderId)

  function Install(t: Tables, x: RowWrite): Tables {
    match x
    case SetWallet(u, b) => t.(wallets := t.wallets[u := b])
    case AppendEntry(u, e) => t.(ledger := t.ledger[u := Entries(t, u) + [e]])
    case PutOrder(o, row) => t.(orders := t.orders[o := row])
    case InsertItem(o, item) => t.(items := t.items[o := Items(t, o) + [item]])
    case InsertPayment(o, amount) => t.(payments := t.payments[o := Payments(t, o) + [amount]])
    case MarkItems(o, rows, k) => t.(items := t.items[o := Stamp(Items(t, o), rows, k)])
    case PutBid(b, row) => t.(bids := t.bids[b := row])
    case PutOffer(key, offer) => t.(offers := t.offers[key := offer])
    case OpenThread(o) => t.(threads := t.threads + {o})
  }

  /** A transaction's writes in statement order, on top of t. */
  function InstallAll(t: Tables, log: seq<RowWrite>): Tables {
    if log == [] then t
    else
      var last := |log| - 1;
      Install(InstallAll(t, log[..last]), log[last])
  }

  lemma InstallSnoc(t: Tables, log: seq<RowWrite>, x: RowWrite)
    ensures InstallAll(t, log + [x]) == Install(InstallAll(t, log), x)
  {
    assert (log + [x])[..|log|] == log;
  }

  lemma {:induction false} InstallConcat(t: Tables, a: seq<RowWrite>, b: seq<RowWrite>)
    ensures InstallAll(t, a + b) == InstallAll(InstallAll(t, a), b)
  {
    if b == [] {
      assert a + b == a;
    } else {
      var last := |b| - 1;
      InstallConcat(t, a, b[..last]);
      assert a + b == (a + b[..last]) + [b[last]];
      InstallSnoc(t, a + b[..last], b[last]);
    }
  }
}
