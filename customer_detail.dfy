/** The customer's order page (`/app/my-orders/:orderId`): the order and its
    log, refreshed every ten seconds, shown as a seven-stage progress bar
    with the log newest first. */
module CustomerDetail {
  import opened Wrappers
  import opened OrderData
  import Stages

  /** `order.payment_method || 'BANK'`. */
  function PaymentMethodShown(m: Option<string>): (r: string)
    ensures r != []
    ensures m.Some? && m.value != [] ==> r == m.value
  {
    MessageOr(m, "BANK")
  }

  /** The header badge is green only for a completed order. */
  function HeaderBadge(status: string): (r: string)
    ensures r == "bg-emerald-50 text-emerald-600 border-emerald-100" <==> status == "completed"
  {
    if status == "completed" then "bg-emerald-50 text-emerald-600 border-emerald-100"
    else "bg-orange-50 text-orange-600 border-orange-100"
  }

  class CustomerOrderPage {
    const orderId: nat
    var loading: bool
    var orderData: Option<Snapshot>

    constructor (id: nat)
      ensures orderId == id && loading && orderData == None
    {
      orderId := id;
      loading := true;
      orderData := None;
    }

    /** One fetch, on mount or on the ten-second timer: both requests
        succeed and replace what is shown, or nothing changes (the failure
        is only logged). Loading ends either way. */
    method Refresh(outcome: Outcome<Snapshot>)
      modifies this
      ensures orderData == if outcome.Success? then Some(outcome.data) else old(orderData)
      ensures !loading
    {
      if outcome.Success? {
        orderData := Some(outcome.data);
      }
      loading := false;
    }

    /** A failed first fetch shows "Pesanan Tidak Ditemukan"; a failed later
        fetch keeps the order already shown. */
    predicate ShowsNotFound()
      reads this
    {
      !loading && orderData.None?
    }

    /** The width of the progress bar's fill, in percent. */
    function Progress(): (r: real)
      reads this
      requires orderData.Some?
      ensures orderData.value.order.status in Stages.StatusSteps ==> 0.0 <= r <= 100.0
      ensures orderData.value.order.status == "completed" ==> r == 100.0
    {
      var status := orderData.value.order.status;
      if status in Stages.StatusSteps then
        Stages.ProgressWidthBounds(status, status);
        Stages.ProgressWidth(status)
      else
        Stages.ProgressWidth(status)
    }
  }

  /** Once an order has been shown, a failed poll does not blank the
      page. */
  method FailedPollKeepsOrder(p: CustomerOrderPage, first: Snapshot, error: Option<string>)
    modifies p
    ensures p.orderData == Some(first) && !p.ShowsNotFound()
  {
    p.Refresh(Success(first));
    p.Refresh(Failure(error));
  }
}
