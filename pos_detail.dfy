/** The cashier's order page (`/app/orders/:orderId`): the order and its
    tracking log fetched together, the status and driver dropdowns that are
    disabled while their request is in flight, and the cash payment. */
module PosDetail {
  import opened Wrappers
  import opened OrderData
  import Api
  import Stages

  /** Every piece of the page's state that changes, at one moment. */
  datatype Detail = Detail(
    loading: bool, orderData: Option<Snapshot>, updatingStatus: bool, assigningDriver: bool,
    amountPaid: AmountInput, paymentResult: Option<PaymentReceipt>, sent: seq<Api.Request>)

  class PosDetailPage {
    const orderId: nat
    var loading: bool
    var orderData: Option<Snapshot>
    var updatingStatus: bool
    var assigningDriver: bool
    var amountPaid: AmountInput
    var paymentResult: Option<PaymentReceipt>
    var sent: seq<Api.Request>

    /** The whole page state, so that each handler can say which parts it
        changes and that every other part stays as it was. */
    function State(): Detail
      reads this
    {
      Detail(loading, orderData, updatingStatus, assigningDriver, amountPaid, paymentResult, sent)
    }

    /** The stages the status dropdown offers, all seven. */
    function StatusOptions(): (r: seq<string>)
      ensures forall s :: s in Stages.StatusSteps ==> s in r
    {
      Stages.DetailStatusOptions
    }

    /** The text of the `i`-th log entry on this page. */
    function LogText(i: nat): (r: string)
      reads this
      requires orderData.Some? && i < |orderData.value.logs|
      ensures orderData.value.logs[i].description != [] ==> r == orderData.value.logs[i].description
    {
      Stages.CashierLogText(orderData.value.logs[i])
    }

    constructor (id: nat)
      ensures orderId == id
      ensures State() == Detail(true, None, false, false, Blank, None, [])
    {
      orderId := id;
      loading := true;
      orderData := None;
      updatingStatus := false;
      assigningDriver := false;
      amountPaid := Blank;
      paymentResult := None;
      sent := [];
    }

    /** `fetchData`, on mount, every ten seconds and after each successful
        action: both requests succeed and replace what is shown, or nothing
        is replaced. Loading ends either way. */
    method Refresh(outcome: Outcome<Snapshot>)
      modifies this
      ensures State() == old(State()).(orderData := if outcome.Success? then Some(outcome.data) else old(orderData),
                                       loading := false)
    {
      if outcome.Success? {
        orderData := Some(outcome.data);
      }
      loading := false;
    }

    /** `handleStatusUpdate` up to the request; the dropdown is disabled
        while an update is in flight. */
    method StartStatusUpdate(newStatus: string) returns (started: bool)
      modifies this
      ensures started <==> !old(updatingStatus)
      ensures started ==> State() == old(State()).(updatingStatus := true,
                sent := old(sent) + [Api.UpdateStatus(orderId, newStatus)])
      ensures !started ==> State() == old(State())
    {
      if updatingStatus {
        return false;
      }
      updatingStatus := true;
      sent := sent + [Api.UpdateStatus(orderId, newStatus)];
      return true;
    }

    /** The answer to the status update ends the update either way and
        changes nothing else; the refresh after a success is a separate
        `Refresh`. */
    method FinishStatusUpdate()
      requires updatingStatus
      modifies this
      ensures State() == old(State()).(updatingStatus := false)
    {
      updatingStatus := false;
    }

    /** `handleAssignDriver` up to the request: the blank option sends
        nothing, and the dropdown is disabled while an assignment is in
        flight. */
    method StartAssignDriver(driverId: string) returns (started: bool)
      modifies this
      ensures started <==> driverId != "" && !old(assigningDriver)
      ensures started ==> State() == old(State()).(assigningDriver := true,
                sent := old(sent) + [Api.AssignDriver(orderId, driverId)])
      ensures !started ==> State() == old(State())
    {
      if driverId == "" || assigningDriver {
        return false;
      }
      assigningDriver := true;
      sent := sent + [Api.AssignDriver(orderId, driverId)];
      return true;
    }

    /** The answer to the assignment ends it either way and changes nothing
        else. */
    method FinishAssignDriver()
      requires assigningDriver
      modifies this
      ensures State() == old(State()).(assigningDriver := false)
    {
      assigningDriver := false;
    }

    method EnterAmount(a: AmountInput)
      modifies this
      ensures State() == old(State()).(amountPaid := a)
    {
      amountPaid := a;
    }

    /** `handlePayment` on a loaded order: a blank or short amount sends
        nothing and changes nothing; otherwise one `POST /orders/:id/pay`
        with an amount never below the total, and a success stores the
        receipt. */
    method Pay(outcome: Outcome<PaymentReceipt>) returns (requested: bool)
      requires orderData.Some?
      modifies this
      ensures requested <==> PaymentAccepted(old(amountPaid), old(orderData).value.order.totalPrice)
      ensures requested ==> old(amountPaid).value >= old(orderData).value.order.totalPrice
      ensures requested ==> State() == old(State()).(
                sent := old(sent) + [Api.PayOrder(orderId, old(amountPaid).value)],
                paymentResult := if outcome.Success? then Some(outcome.data) else old(paymentResult))
      ensures !requested ==> State() == old(State())
    {
      if !PaymentAccepted(amountPaid, orderData.value.order.totalPrice) {
        return false;
      }
      sent := sent + [Api.PayOrder(orderId, amountPaid.value)];
      if outcome.Success? {
        paymentResult := Some(outcome.data);
      }
      return true;
    }
  }

  /** Unlike the Orders modal, a refresh of this page keeps the receipt:
      after paying, the change stays shown while the page polls. */
  method PayAndRefresh(p: PosDetailPage, receipt: PaymentReceipt, s: Snapshot) returns (requested: bool)
    requires p.orderData.Some?
    modifies p
    ensures requested ==> p.paymentResult == Some(receipt) && p.orderData == Some(s)
  {
    requested := p.Pay(Success(receipt));
    p.Refresh(Success(s));
  }
}
