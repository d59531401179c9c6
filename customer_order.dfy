/** The customer's ordering flow: the new-order page builds a cart and
    hands it to the checkout page through storage; checkout picks a payment
    method, creates the order and erases the hand-off. */
module CustomerOrder {
  import opened Wrappers
  import opened Cart
  import opened Storage
  import Api

  /** What the checkout page finds under 'pending_cart' when it mounts. */
  datatype PendingRead = NothingPending | Pending(cart: PendingCart) | Unparsable

  function ReadPending(store: Store): (r: PendingRead)
    ensures r == NothingPending <==> Missing(store, CartKey)
    ensures r.Pending? <==> CartKey in store && store[CartKey].CartJson?
    ensures r.Pending? ==> store[CartKey] == CartJson(r.cart)
  {
    if Missing(store, CartKey) then NothingPending
    else match store[CartKey]
      case CartJson(c) => Pending(c)
      case _ => Unparsable
  }

  /** What `handleCheckout` stores: the cart's lines and their total. */
  function StoreCart(store: Store, cart: seq<Line>): (r: Store)
    ensures CartKey in r && r[CartKey] == CartJson(PendingCart(cart, Total(cart)))
    ensures forall k :: k in store && k != CartKey ==> k in r && r[k] == store[k]
  {
    store[CartKey := CartJson(PendingCart(cart, Total(cart)))]
  }

  /** The hand-off is faithful: checkout reads back exactly the cart the
      order page stored, with its total, and the order it creates carries
      the same lines. */
  lemma HandOffKeepsCart(store: Store, cart: seq<Line>)
    ensures ReadPending(StoreCart(store, cart)) == Pending(PendingCart(cart, Total(cart)))
    ensures ItemsPayload(ReadPending(StoreCart(store, cart)).cart.items) == ItemsPayload(cart)
  {
  }

  /** Once the order is created the hand-off is gone, so mounting checkout
      again goes back to the dashboard instead of offering the same cart. */
  lemma CompletedCheckoutForgetsCart(store: Store)
    ensures ReadPending(store - {CartKey}) == NothingPending
  {
  }

  class NewOrderPage {
    var cart: seq<Line>
    var storage: Store
    var navigatedTo: Option<string>

    predicate Valid()
      reads this
    {
      CustomerCartValid(cart)
    }

    constructor (stored: Store)
      ensures Valid() && cart == [] && storage == stored && navigatedTo == None
    {
      cart := [];
      storage := stored;
      navigatedTo := None;
    }

    /** A service card, a minus or plus button or a trash button. */
    method EditCart(e: CustomerEdit)
      requires Valid()
      modifies this
      ensures Valid()
      ensures cart == ApplyCustomer(old(cart), e)
      ensures storage == old(storage) && navigatedTo == old(navigatedTo)
    {
      CustomerEditKeepsValid(cart, e);
      cart := ApplyCustomer(cart, e);
    }

    /** `handleCheckout`: an empty cart does nothing (the button is also
        disabled); otherwise the cart and its total are stored and the page
        moves to checkout. */
    method Checkout()
      modifies this
      ensures old(cart) == [] ==> storage == old(storage) && navigatedTo == old(navigatedTo)
      ensures old(cart) != [] ==> storage == StoreCart(old(storage), cart) && navigatedTo == Some("/app/checkout")
      ensures cart == old(cart)
    {
      if cart == [] {
        return;
      }
      storage := StoreCart(storage, cart);
      navigatedTo := Some("/app/checkout");
    }
  }

  /** Every piece of the checkout page's state at one moment. */
  datatype CheckoutState = CheckoutState(
    cartData: Option<PendingCart>, paymentMethod: string, submitting: bool, isCompleted: bool,
    orderId: Option<int>, storage: Store, navigatedTo: Option<string>, unreadable: bool,
    sent: seq<Api.Request>)

  class CheckoutPage {
    var cartData: Option<PendingCart>
    var paymentMethod: string
    var submitting: bool
    var isCompleted: bool
    var orderId: Option<int>
    var storage: Store
    var navigatedTo: Option<string>
    /** `JSON.parse` threw on the stored text; the page cannot render. */
    var unreadable: bool
    var sent: seq<Api.Request>

    /** The whole page state, so that each handler can say which parts it
        changes and that every other part stays as it was. */
    function State(): CheckoutState
      reads this
    {
      CheckoutState(cartData, paymentMethod, submitting, isCompleted, orderId, storage, navigatedTo, unreadable, sent)
    }

    /** The page renders nothing until it has a cart or has completed. */
    predicate Renders()
      reads this
    {
      cartData.Some? || isCompleted
    }

    /** The mount effect: nothing stored sends the customer to the
        dashboard; a stored cart is shown. */
    constructor Mount(stored: Store)
      ensures storage == stored && paymentMethod == "bank" && !submitting && !isCompleted
      ensures orderId == None && sent == []
      ensures ReadPending(stored) == NothingPending ==> navigatedTo == Some("/app/dashboard") && cartData == None && !unreadable
      ensures ReadPending(stored).Pending? ==> cartData == Some(ReadPending(stored).cart) && navigatedTo == None && !unreadable
      ensures ReadPending(stored) == Unparsable ==> unreadable && cartData == None && navigatedTo == None
    {
      storage := stored;
      paymentMethod := "bank";
      submitting := false;
      isCompleted := false;
      orderId := None;
      sent := [];
      var read := ReadPending(stored);
      cartData := if read.Pending? then Some(read.cart) else None;
      navigatedTo := if read == NothingPending then Some("/app/dashboard") else None;
      unreadable := read == Unparsable;
    }

    /** The two payment cards: bank transfer or cash on pickup. */
    method SelectPayment(m: string)
      requires m == "bank" || m == "cod"
      modifies this
      ensures State() == old(State()).(paymentMethod := m)
    {
      paymentMethod := m;
    }

    /** `handleConfirmOrder` up to the request, from the form (a loaded cart,
        not yet completed); the button is disabled while submitting. The
        body carries the cart's lines and the payment method and no
        customer id. */
    method StartConfirm() returns (started: bool)
      requires cartData.Some? && !isCompleted
      modifies this
      ensures started <==> !old(submitting)
      ensures started ==> State() == old(State()).(submitting := true,
                sent := old(sent) + [Api.CreateOrder(Api.Omitted, ItemsPayload(old(cartData).value.items), old(paymentMethod))])
      ensures !started ==> State() == old(State())
    {
      if submitting {
        return false;
      }
      submitting := true;
      sent := sent + [Api.CreateOrder(Api.Omitted, ItemsPayload(cartData.value.items), paymentMethod)];
      return true;
    }

    /** The answer: success records the new order id, completes the page and
        erases the hand-off, keeping the chosen payment method for the
        instructions; failure keeps the form. Submitting ends either way. */
    method FinishConfirm(outcome: Outcome<int>)
      requires submitting
      modifies this
      ensures outcome.Success? ==> State() == old(State()).(submitting := false, isCompleted := true,
                orderId := Some(outcome.data), storage := old(storage) - {CartKey})
      ensures outcome.Failure? ==> State() == old(State()).(submitting := false)
    {
      if outcome.Success? {
        orderId := Some(outcome.data);
        isCompleted := true;
        storage := storage - {CartKey};
      }
      submitting := false;
    }

    /** After completion, cash on pickup asks for exactly the stored total;
        bank transfer shows the account instead. */
    function CashDue(): (r: Option<real>)
      reads this
      requires isCompleted && cartData.Some?
      ensures r.Some? <==> paymentMethod != "bank"
      ensures r.Some? ==> r.value == cartData.value.total
    {
      if paymentMethod == "bank" then None else Some(cartData.value.total)
    }
  }

  /** The whole flow: checkout of a non-empty cart, mount, confirm and a
      successful answer send one order with the cart's lines and leave
      nothing pending. */
  method OrderFlow(page: NewOrderPage, newOrderId: int) returns (checkout: CheckoutPage)
    requires page.Valid() && page.cart != []
    modifies page
    ensures checkout.isCompleted && checkout.orderId == Some(newOrderId)
    ensures checkout.cartData == Some(PendingCart(old(page.cart), Total(old(page.cart))))
    ensures checkout.paymentMethod == "bank" && checkout.CashDue() == None
    ensures checkout.sent == [Api.CreateOrder(Api.Omitted, ItemsPayload(page.cart), "bank")]
    ensures ReadPending(checkout.storage) == NothingPending
  {
    page.Checkout();
    HandOffKeepsCart(old(page.storage), page.cart);
    checkout := new CheckoutPage.Mount(page.storage);
    var started := checkout.StartConfirm();
    checkout.FinishConfirm(Success(newOrderId));
    CompletedCheckoutForgetsCart(old(page.storage)[CartKey := CartJson(PendingCart(page.cart, Total(page.cart)))]);
  }
}
