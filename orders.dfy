/** Orders as the cashier screens receive them from `/orders` and
    `/orders/:id`, the cash-payment guard the two cashier screens share, and
    the order search. */
module OrderData {
  import opened Wrappers
  import opened Seqs
  import Search
  import Stages
  import Text

  /** One order row: id, customer name (absent for walk-in orders), stage,
      payment method and status ('paid' or 'unpaid'), total and assigned
      driver. */
  datatype Order = Order(id: nat, customerName: Option<string>, status: string, paymentMethod: Option<string>,
                         paymentStatus: string, totalPrice: real, driverId: Option<int>)

  /** One line of an order's detail. */
  datatype DetailItem = DetailItem(serviceName: string, quantity: real, unit: string, subtotal: real)

  /** The body of `GET /orders/:id`; `order` may be missing. */
  datatype OrderDetail = OrderDetail(order: Option<Order>, items: seq<DetailItem>)

  /** What the order pages fetch together: `GET /orders/:id` (the order
      and its items) and the `logs` of `GET /tracking/:id`. */
  datatype Snapshot = Snapshot(order: Order, items: seq<DetailItem>, logs: seq<Stages.TrackingLog>)

  /** The body of a successful `POST /orders/:id/pay`. */
  datatype PaymentReceipt = PaymentReceipt(paid: real, change: real)

  /** The number field for the cash amount: blank, or a number. */
  datatype AmountInput = Blank | Entered(value: real)

  /** `!amountPaid || parseFloat(amountPaid) < total` rejects the payment:
      a blank field, or less cash than the total. Exactly the total is
      accepted. */
  function PaymentAccepted(amount: AmountInput, total: real): (ok: bool)
    ensures ok ==> amount.Entered? && amount.value >= total
    ensures amount.Entered? && amount.value >= total ==> ok
  {
    !(amount.Blank? || amount.value < total)
  }

  /** The payment panel is shown only for an unpaid order. */
  predicate ShowsPaymentPanel(o: Order)
  {
    o.paymentStatus == "unpaid"
  }

  function OrderMatches(term: string): Order -> bool
  {
    (o: Order) => Search.NameOrIdMatches(o.customerName, o.id, term)
  }

  /** The orders listed for a search term: those whose customer name or id
      matches, in the order the server sent them. */
  function FilterOrders(orders: seq<Order>, term: string): (r: seq<Order>)
    ensures forall i :: 0 <= i < |r| ==> r[i] in orders && Search.NameOrIdMatches(r[i].customerName, r[i].id, term)
    ensures forall i | 0 <= i < |orders| ::
              Search.NameOrIdMatches(orders[i].customerName, orders[i].id, term) ==> orders[i] in r
  {
    Filter(orders, OrderMatches(term))
  }

  /** With an empty search box every order is listed, in server order. */
  lemma EmptySearchListsAll(orders: seq<Order>)
    ensures FilterOrders(orders, "") == orders
  {
    forall o | o in orders ensures OrderMatches("")(o) {
      Search.EmptyTermAndOwnIdMatch(o.customerName, o.id);
    }
    FilterKeepsAll(orders, OrderMatches(""));
  }

  /** Searching for an order's id always lists that order. */
  lemma SearchByIdFindsOrder(orders: seq<Order>, k: int)
    requires 0 <= k < |orders|
    ensures orders[k] in FilterOrders(orders, Text.NatToString(orders[k].id))
  {
    Search.EmptyTermAndOwnIdMatch(orders[k].customerName, orders[k].id);
  }
}
