/** The cashier's Orders page: the order list with its search, the
    order-intake (point of sale) modal with its cart, and the order-detail
    modal with the status dropdown and the cash payment. */
module PosOrders {
  import opened Wrappers
  import opened Cart
  import opened OrderData
  import Api
  import Stages

  /** The roles that see the status dropdown of the detail modal. */
  predicate CanChangeStatus(role: Option<string>)
  {
    role.Some? && role.value in ["admin", "cashier"]
  }

  /** Every piece of the page's state at one moment. */
  datatype Terminal = Terminal(
    orders: seq<Order>, loading: bool, searchTerm: string,
    isPOSOpen: bool, cart: seq<Line>, customerId: Option<int>, submitting: bool,
    isDetailOpen: bool, selectedOrder: Option<OrderDetail>, amountPaid: AmountInput,
    paymentResult: Option<PaymentReceipt>, sent: seq<Api.Request>)

  class PosTerminal {
    var orders: seq<Order>
    var loading: bool
    var searchTerm: string
    var isPOSOpen: bool
    var cart: seq<Line>
    /** The chosen customer; the blank "-- Pilih Customer --" option is None. */
    var customerId: Option<int>
    var submitting: bool
    var isDetailOpen: bool
    var selectedOrder: Option<OrderDetail>
    var amountPaid: AmountInput
    var paymentResult: Option<PaymentReceipt>
    /** The requests this page has sent, oldest first. */
    var sent: seq<Api.Request>

    /** The whole page state, so that each handler can say which parts it
        changes and that every other part stays as it was. */
    function State(): Terminal
      reads this
    {
      Terminal(orders, loading, searchTerm, isPOSOpen, cart, customerId, submitting,
               isDetailOpen, selectedOrder, amountPaid, paymentResult, sent)
    }

    /** The cart never holds two lines for one service. */
    predicate Valid()
      reads this
    {
      DistinctIds(cart)
    }

    /** The rows the table shows. */
    function Visible(): seq<Order>
      reads this
    {
      FilterOrders(orders, searchTerm)
    }

    /** The opened order, when the detail modal has one. */
    function Opened(): Option<Order>
      reads this
    {
      if selectedOrder.Some? then selectedOrder.value.order else None
    }

    /** The option the status dropdown shows for the opened order. */
    function ShownStatusOption(): (r: string)
      reads this
      requires Opened().Some?
      ensures Opened().value.status in Stages.StatusSteps ==> r == Opened().value.status
    {
      Stages.DisplayedOption(Stages.CashierStatusOptions, Opened().value.status)
    }

    constructor ()
      ensures Valid()
      ensures State() == Terminal([], true, "", false, [], Some(1), false, false, None, Blank, None, [])
    {
      orders := [];
      loading := true;
      searchTerm := "";
      isPOSOpen := false;
      cart := [];
      customerId := Some(1);
      submitting := false;
      isDetailOpen := false;
      selectedOrder := None;
      amountPaid := Blank;
      paymentResult := None;
      sent := [];
    }

    /** `fetchOrders`: a successful load replaces the list; a failed one
        keeps it. Either way loading ends and nothing else changes. */
    method LoadOrders(outcome: Outcome<seq<Order>>)
      modifies this
      ensures State() == old(State()).(orders := if outcome.Success? then outcome.data else old(orders), loading := false)
    {
      if outcome.Success? {
        orders := outcome.data;
      }
      loading := false;
    }

    method SetSearch(term: string)
      modifies this
      ensures State() == old(State()).(searchTerm := term)
    {
      searchTerm := term;
    }

    method OpenIntake()
      modifies this
      ensures State() == old(State()).(isPOSOpen := true)
    {
      isPOSOpen := true;
    }

    /** The close button of the intake modal keeps the cart. */
    method CloseIntake()
      modifies this
      ensures State() == old(State()).(isPOSOpen := false)
    {
      isPOSOpen := false;
    }

    method SelectCustomer(c: Option<int>)
      modifies this
      ensures State() == old(State()).(customerId := c)
    {
      customerId := c;
    }

    /** A service card click, a quantity field change or a trash button. */
    method EditCart(e: CashierEdit)
      requires Valid()
      modifies this
      ensures Valid()
      ensures State() == old(State()).(cart := ApplyCashier(old(cart), e))
    {
      CashierEditKeepsIdsDistinct(cart, e);
      cart := ApplyCashier(cart, e);
    }

    /** `handleCreateOrder` up to the request: the confirm button is disabled
        while submitting or with an empty cart, and the handler itself
        refuses an empty cart. Otherwise one `POST /orders` goes out with the
        chosen customer, the cart's items and payment method 'unpaid'. */
    method StartCreateOrder() returns (started: bool)
      modifies this
      ensures started <==> !old(submitting) && old(cart) != []
      ensures started ==> State() == old(State()).(submitting := true,
                sent := old(sent) + [Api.CreateOrder(Api.Picked(customerId), ItemsPayload(cart), "unpaid")])
      ensures !started ==> State() == old(State())
    {
      if submitting || cart == [] {
        return false;
      }
      submitting := true;
      sent := sent + [Api.CreateOrder(Api.Picked(customerId), ItemsPayload(cart), "unpaid")];
      return true;
    }

    /** The answer to the order creation: success closes the modal and
        empties the cart; failure keeps both. Submitting ends either way.
        The list refresh a success starts is `LoadOrders`. */
    method FinishCreateOrder(outcome: Outcome<()>)
      requires Valid()
      requires submitting
      modifies this
      ensures Valid()
      ensures outcome.Success? ==> State() == old(State()).(isPOSOpen := false, cart := [], submitting := false)
      ensures outcome.Failure? ==> State() == old(State()).(submitting := false)
    {
      if outcome.Success? {
        isPOSOpen := false;
        cart := [];
      }
      submitting := false;
    }

    /** `viewOrderDetail`: a detail that carries an order opens the modal,
        clearing the previous payment result and the amount field; a detail
        without an order or a failed request changes nothing. */
    method OpenDetail(outcome: Outcome<OrderDetail>)
      modifies this
      ensures outcome.Success? && outcome.data.order.Some? ==>
        State() == old(State()).(selectedOrder := Some(outcome.data), isDetailOpen := true,
                                 paymentResult := None, amountPaid := Blank)
      ensures !(outcome.Success? && outcome.data.order.Some?) ==> State() == old(State())
    {
      if outcome.Success? && outcome.data.order.Some? {
        selectedOrder := Some(outcome.data);
        isDetailOpen := true;
        paymentResult := None;
        amountPaid := Blank;
      }
    }

    /** The close button hides the modal and keeps the opened order. */
    method CloseDetail()
      modifies this
      ensures State() == old(State()).(isDetailOpen := false)
    {
      isDetailOpen := false;
    }

    method EnterAmount(a: AmountInput)
      modifies this
      ensures State() == old(State()).(amountPaid := a)
    {
      amountPaid := a;
    }

    /** `handlePayment`: without an opened order, or with a blank or short
        amount, nothing is sent and nothing changes. Otherwise one
        `POST /orders/:id/pay` goes out with the amount, which is never below
        the total; `outcome` is the server's answer, and a success stores the
        receipt. */
    method Pay(outcome: Outcome<PaymentReceipt>) returns (requested: bool)
      modifies this
      ensures requested <==> old(Opened()).Some? && PaymentAccepted(amountPaid, old(Opened()).value.totalPrice)
      ensures requested ==> amountPaid.value >= old(Opened()).value.totalPrice
      ensures requested ==> State() == old(State()).(
                sent := old(sent) + [Api.PayOrder(old(Opened()).value.id, amountPaid.value)],
                paymentResult := if outcome.Success? then Some(outcome.data) else old(paymentResult))
      ensures !requested ==> State() == old(State())
    {
      var current := Opened();
      if current.None? {
        return false;
      }
      if !PaymentAccepted(amountPaid, current.value.totalPrice) {
        return false;
      }
      sent := sent + [Api.PayOrder(current.value.id, amountPaid.value)];
      if outcome.Success? {
        paymentResult := Some(outcome.data);
      }
      return true;
    }

    /** A change of the status dropdown, shown only to admins and cashiers
        on an opened order: one `PUT /orders/:id/status` with the chosen
        stage and no other change. The refresh that follows a success is
        `OpenDetail`. */
    method ChangeStatus(role: Option<string>, newStatus: string)
      requires CanChangeStatus(role)
      requires isDetailOpen && Opened().Some?
      modifies this
      ensures State() == old(State()).(sent := old(sent) + [Api.UpdateStatus(old(Opened()).value.id, newStatus)])
    {
      sent := sent + [Api.UpdateStatus(Opened().value.id, newStatus)];
    }
  }

  /** `handlePayment` followed by the `viewOrderDetail` refresh it starts:
      when the refreshed detail arrives it clears the receipt the payment
      stored, so the change amount and the receipt's cash lines are shown
      only until then. */
  method PayAndRefresh(t: PosTerminal, receipt: PaymentReceipt, detail: OrderDetail) returns (requested: bool)
    requires detail.order.Some?
    modifies t
    ensures requested ==> t.paymentResult == None && t.selectedOrder == Some(detail)
  {
    requested := t.Pay(Success(receipt));
    if requested {
      assert t.paymentResult == Some(receipt);
    }
    t.OpenDetail(Success(detail));
  }
}
