/** The customer's order history (`/app/my-orders`): three summary cards
    over the customer's orders and one row per order. */
module Portal {
  import opened Wrappers
  import opened Seqs
  import opened OrderData
  import Stages

  function IsDone(): Order -> bool
  {
    (o: Order) => o.status == "completed"
  }

  function IsOpen(): Order -> bool
  {
    (o: Order) => o.status != "completed"
  }

  /** The "Active Orders" card: orders whose status is not `completed`. */
  function ActiveCount(orders: seq<Order>): (r: nat)
    ensures r <= |orders|
  {
    |Filter(orders, IsOpen())|
  }

  /** The "Completed" card. */
  function CompletedCount(orders: seq<Order>): (r: nat)
    ensures r <= |orders|
  {
    |Filter(orders, IsDone())|
  }

  /** The "Total Spent" card: the sum of every order's total, paid or not. */
  function TotalSpent(orders: seq<Order>): real
  {
    if orders == [] then 0.0 else TotalSpent(orders[..|orders| - 1]) + orders[|orders| - 1].totalPrice
  }

  /** Every order is counted on exactly one of the two count cards. */
  lemma CountsAddUp(orders: seq<Order>)
    ensures ActiveCount(orders) + CompletedCount(orders) == |orders|
  {
    FilterSplitCount(orders, IsOpen(), IsDone());
  }

  /** An order with an unknown status counts as active. */
  lemma UnknownStatusIsActive(o: Order)
    requires o.status !in Stages.StatusSteps
    ensures ActiveCount([o]) == 1 && CompletedCount([o]) == 0
  {
    assert Stages.StatusSteps[6] == "completed";
  }

  lemma {:induction false} TotalSpentAppend(a: seq<Order>, b: seq<Order>)
    ensures TotalSpent(a + b) == TotalSpent(a) + TotalSpent(b)
    decreases |b|
  {
    if b == [] {
      assert a + b == a;
    } else {
      assert (a + b)[..|a + b| - 1] == a + b[..|b| - 1];
      TotalSpentAppend(a, b[..|b| - 1]);
    }
  }

  /** `orders.reduce((acc, curr) => acc + curr.total_price, acc)`: the
      running sum taken from the front. */
  function SpentFrom(acc: real, orders: seq<Order>): real
    decreases |orders|
  {
    if orders == [] then acc else SpentFrom(acc + orders[0].totalPrice, orders[1..])
  }

  /** The card shows what the front-to-back `reduce` from 0 computes. */
  lemma TotalSpentIsFold(orders: seq<Order>)
    ensures TotalSpent(orders) == SpentFrom(0.0, orders)
  {
    FoldAddsSpent(0.0, orders);
  }

  lemma {:induction false} FoldAddsSpent(acc: real, orders: seq<Order>)
    decreases |orders|
    ensures SpentFrom(acc, orders) == acc + TotalSpent(orders)
  {
    if orders != [] {
      var head, tail := orders[0], orders[1..];
      FoldAddsSpent(acc + head.totalPrice, tail);
      assert orders == [head] + tail;
      TotalSpentAppend([head], tail);
      assert TotalSpent([head]) == head.totalPrice by {
        assert [head][..0] == [];
      }
    }
  }

  /** With non-negative totals, the card is at least any single order's
      total and never negative. */
  lemma {:induction false} TotalSpentCoversEachOrder(orders: seq<Order>, k: int)
    requires forall i :: 0 <= i < |orders| ==> orders[i].totalPrice >= 0.0
    requires 0 <= k < |orders|
    ensures orders[k].totalPrice <= TotalSpent(orders)
    decreases |orders|
  {
    var init := orders[..|orders| - 1];
    TotalSpentNonNegative(init);
    if k < |orders| - 1 {
      TotalSpentCoversEachOrder(init, k);
    }
  }

  lemma {:induction false} TotalSpentNonNegative(orders: seq<Order>)
    requires forall i :: 0 <= i < |orders| ==> orders[i].totalPrice >= 0.0
    ensures TotalSpent(orders) >= 0.0
    decreases |orders|
  {
    if orders != [] {
      TotalSpentNonNegative(orders[..|orders| - 1]);
    }
  }

  /** The row's icon tile is green only for a completed order. */
  function RowIconStyle(o: Order): (r: string)
    ensures r == "bg-emerald-50 text-emerald-600" <==> o.status == "completed"
  {
    if o.status == "completed" then "bg-emerald-50 text-emerald-600" else "bg-orange-50 text-orange-600"
  }

  class PortalPage {
    var orders: seq<Order>
    var loading: bool

    constructor ()
      ensures orders == [] && loading
    {
      orders := [];
      loading := true;
    }

    /** `fetchCustomerOrders`: success shows the customer's orders; failure
        is only logged and shows the empty history. */
    method Load(outcome: Outcome<seq<Order>>)
      modifies this
      ensures orders == if outcome.Success? then outcome.data else old(orders)
      ensures !loading
    {
      if outcome.Success? {
        orders := outcome.data;
      }
      loading := false;
    }
  }
}
