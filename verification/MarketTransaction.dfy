/** The repository statements a transaction issues: each changes the rows the
    transaction sees, step by step. */
module MarketTransaction {
  import opened Common
  import opened MarketTables
  import opened MarketDecisions

  /** A database transaction: the rows as its statements see them. The ghost fields
      record where it started and what it has written. */
  class Transaction {
    var rows: Tables
    ghost var start: Tables
    ghost var log: seq<RowWrite>

    ghost predicate Valid()
      reads this
    {
      rows == InstallAll(start, log)
    }

    constructor (committed: Tables)
      ensures Valid() && start == committed && log == [] && rows == committed
    {
      rows, start, log := committed, committed, [];
    }

    /** A statement wrote x. */
    ghost predicate Wrote(before: Tables, beforeLog: seq<RowWrite>, beforeStart: Tables, x: RowWrite)
      reads this
    {
      Valid() && start == beforeStart && log == beforeLog + [x] && rows == Install(before, x)
    }

    // ----- Reads -----

    method FindCustomerOrder(o: OrderId, u: UserId) returns (found: bool)
      ensures found <==> o in rows.orders && rows.orders[o].customer == u
    {
      found := o in rows.orders && rows.orders[o].customer == u;
    }

    method FindLapakOrder(o: OrderId, lapak: LapakId) returns (row: Option<Order>)
      ensures row == if o in rows.orders && rows.orders[o].lapak == lapak then Some(rows.orders[o]) else None
    {
      row := if o in rows.orders && rows.orders[o].lapak == lapak then Some(rows.orders[o]) else None;
    }

    method LockWalletForUpdate(u: UserId) returns (balance: int)
      ensures balance == Balance(rows, u)
    {
      if u in rows.wallets {
        balance := rows.wallets[u];
      } else {
        balance := 0;
      }
    }

    method SumUnpaid(o: OrderId) returns (amount: nat, ids: set<nat>)
      ensures amount == OutstandingIdr(Items(rows, o)) && ids == UnpaidRows(Items(rows, o))
    {
      ids := UnpaidRows(Items(rows, o));
      amount := SumAt(Items(rows, o), ids);
    }

    method SumPaid(o: OrderId) returns (amount: nat)
      ensures amount == PaidIdr(Items(rows, o))
    {
      amount := SumAt(Items(rows, o), PaidRows(Items(rows, o)));
    }

    method LockBid(b: BidId) returns (row: Option<Bid>)
      ensures row == if b in rows.bids then Some(rows.bids[b]) else None
    {
      row := if b in rows.bids then Some(rows.bids[b]) else None;
    }

    // ----- Wallet and ledger -----

    method MoveWallet(u: UserId, delta: int) returns (after: Option<int>)
      requires Valid()
      modifies this
      ensures u in old(rows).wallets ==>
        && after == Some(old(rows).wallets[u] + delta)
        && Wrote(old(rows), old(log), old(start), SetWallet(u, old(rows).wallets[u] + delta))
      ensures u !in old(rows).wallets ==> after == None
    {
      after := None;
      if u in rows.wallets {
        InstallSnoc(start, log, SetWallet(u, rows.wallets[u] + delta));
        log := log + [SetWallet(u, rows.wallets[u] + delta)];
        after := Some(rows.wallets[u] + delta);
        rows := rows.(wallets := rows.wallets[u := rows.wallets[u] + delta]);
      }
    }

    method CreditWallet(u: UserId, amount: nat) returns (after: int)
      requires Valid()
      modifies this
      ensures after == Balance(old(rows), u) + amount && Wrote(old(rows), old(log), old(start), SetWallet(u, after))
    {
      after := (if u in rows.wallets then rows.wallets[u] else 0) + amount;
      InstallSnoc(start, log, SetWallet(u, after));
      log := log + [SetWallet(u, after)];
      rows := rows.(wallets := rows.wallets[u := after]);
    }

    /** The check constraint on ledger amounts refuses a zero. */
    method InsertLedgerEntry(u: UserId, entry: Entry) returns (ok: bool)
      requires Valid()
      modifies this
      ensures ok <==> entry.amount != 0
      ensures ok ==> Wrote(old(rows), old(log), old(start), AppendEntry(u, entry))
    {
      ok := entry.amount != 0;
      if ok {
        InstallSnoc(start, log, AppendEntry(u, entry));
        log := log + [AppendEntry(u, entry)];
        rows := rows.(ledger := rows.ledger[u := Entries(rows, u) + [entry]]);
      }
    }

    // ----- Orders -----

    method InsertOrder(o: OrderId, row: Order)
      requires Valid()
      modifies this
      ensures Wrote(old(rows), old(log), old(start), PutOrder(o, row))
    {
      InstallSnoc(start, log, PutOrder(o, row));
      log := log + [PutOrder(o, row)];
      rows := rows.(orders := rows.orders[o := row]);
    }

    method InsertOrderItem(o: OrderId, item: Item)
      requires Valid()
      modifies this
      ensures Wrote(old(rows), old(log), old(start), InsertItem(o, item))
    {
      InstallSnoc(start, log, InsertItem(o, item));
      log := log + [InsertItem(o, item)];
      rows := rows.(items := rows.items[o := Items(rows, o) + [item]]);
    }

    method InsertPaymentRow(o: OrderId, amount: nat) returns (id: nat)
      requires Valid()
      modifies this
      ensures id == |Payments(old(rows), o)| && Wrote(old(rows), old(log), old(start), InsertPayment(o, amount))
    {
      InstallSnoc(start, log, InsertPayment(o, amount));
      log := log + [InsertPayment(o, amount)];
      id := |Payments(rows, o)|;
      rows := rows.(payments := rows.payments[o := Payments(rows, o) + [amount]]);
    }

    /** Points the still unpaid lines among ids at the payment and counts them. */
    method MarkItemsPaid(o: OrderId, ids: set<nat>, payment: nat) returns (marked: nat)
      requires Valid()
      modifies this
      ensures marked == |ids * UnpaidRows(Items(old(rows), o))|
      ensures Wrote(old(rows), old(log), old(start), MarkItems(o, ids, payment))
    {
      InstallSnoc(start, log, MarkItems(o, ids, payment));
      log := log + [MarkItems(o, ids, payment)];
      marked := |ids * UnpaidRows(Items(rows, o))|;
      rows := rows.(items := rows.items[o := Stamp(Items(rows, o), ids, payment)]);
    }

    /** The guarded update: only an order that is in the expected status moves. */
    method AdvanceOrder(o: OrderId, from: OrderStatus, to: Order) returns (affected: nat)
      requires Valid()
      modifies this
      ensures affected == if o in old(rows).orders && old(rows).orders[o].status == from then 1 else 0
      ensures affected == 1 ==> Wrote(old(rows), old(log), old(start), PutOrder(o, to))
      ensures affected == 0 ==> Valid() && rows == old(rows) && log == old(log) && start == old(start)
    {
      affected := 0;
      if o in rows.orders && rows.orders[o].status == from {
        InstallSnoc(start, log, PutOrder(o, to));
        log := log + [PutOrder(o, to)];
        rows := rows.(orders := rows.orders[o := to]);
        affected := 1;
      }
    }

    method EnsureChatThread(o: OrderId)
      requires Valid()
      modifies this
      ensures Wrote(old(rows), old(log), old(start), OpenThread(o))
    {
      InstallSnoc(start, log, OpenThread(o));
      log := log + [OpenThread(o)];
      rows := rows.(threads := rows.threads + {o});
    }

    // ----- Bids -----

    method WriteBid(b: BidId, row: Bid)
      requires Valid()
      modifies this
      ensures Wrote(old(rows), old(log), old(start), PutBid(b, row))
    {
      InstallSnoc(start, log, PutBid(b, row));
      log := log + [PutBid(b, row)];
      rows := rows.(bids := rows.bids[b := row]);
    }

    method AdvanceBid(b: BidId, from: BidStatus, to: BidStatus) returns (affected: nat)
      requires Valid()
      modifies this
      ensures affected == if b in old(rows).bids && old(rows).bids[b].status == from then 1 else 0
      ensures affected == 1 ==> Wrote(old(rows), old(log), old(start), PutBid(b, old(rows).bids[b].(status := to)))
    {
      affected := 0;
      if b in rows.bids && rows.bids[b].status == from {
        WriteBid(b, rows.bids[b].(status := to));
        affected := 1;
      }
    }

    /** One row per lapak and bid; tells whether it is a new one. */
    method UpsertOffer(key: OfferKey, amount: nat) returns (created: bool)
      requires Valid()
      modifies this
      ensures created <==> key !in old(rows).offers
      ensures Wrote(old(rows), old(log), old(start), PutOffer(key, Offer(amount, Pending)))
    {
      InstallSnoc(start, log, PutOffer(key, Offer(amount, Pending)));
      log := log + [PutOffer(key, Offer(amount, Pending))];
      created := key !in rows.offers;
      rows := rows.(offers := rows.offers[key := Offer(amount, Pending)]);
    }

    method MarkOfferAwarded(key: OfferKey) returns (affected: nat)
      requires Valid()
      modifies this
      ensures affected == if key in old(rows).offers && old(rows).offers[key].status == Pending then 1 else 0
      ensures affected == 1 ==> Wrote(old(rows), old(log), old(start), PutOffer(key, old(rows).offers[key].(status := OfferAwarded)))
    {
      affected := 0;
      if key in rows.offers && rows.offers[key].status == Pending {
        var row := rows.offers[key].(status := OfferAwarded);
        InstallSnoc(start, log, PutOffer(key, row));
        log := log + [PutOffer(key, row)];
        rows := rows.(offers := rows.offers[key := row]);
        affected := 1;
      }
    }
  }
}
