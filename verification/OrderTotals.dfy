/** The totals derived from an order's loaded lines. */
module OrderTotals {
  import opened Common
  import opened MarketTables

  function Kept(items: seq<Item>, keep: Item -> bool): set<nat> {
    set i: nat | i < |items| && keep(items[i])
  }

  /** The sum of the lines keep accepts. */
  method Sum(items: seq<Item>, keep: Item -> bool) returns (total: nat)
    ensures total == SumAt(items, Kept(items, keep))
  {
    total := 0;
    var n := 0;
    while n < |items|
      invariant 0 <= n <= |items|
      invariant total == SumAt(items[..n], Kept(items, keep))
    {
      assert items[..n + 1][..n] == items[..n];
      if keep(items[n]) {
        total := total + items[n].subtotal;
      }
      n := n + 1;
    }
    assert items[..n] == items;
  }

  method TotalOf(items: seq<Item>) returns (total: nat)
    ensures total == TotalIdr(items)
  {
    var keep := (item: Item) => true;
    total := Sum(items, keep);
    SumAtSame(items, AllRows(items), items, Kept(items, keep));
  }

  method PaidOf(items: seq<Item>) returns (total: nat)
    ensures total == PaidIdr(items)
  {
    var keep := (item: Item) => item.payment.Some?;
    total := Sum(items, keep);
    SumAtSame(items, PaidRows(items), items, Kept(items, keep));
  }

  method OutstandingOf(items: seq<Item>) returns (total: nat)
    ensures total == OutstandingIdr(items)
  {
    var keep := (item: Item) => item.payment.None?;
    total := Sum(items, keep);
    SumAtSame(items, UnpaidRows(items), items, Kept(items, keep));
  }
}
