/** The payment page (src/pages/Payment.jsx): create the order, then either finish a
    cash-on-delivery order at once or hand over to the payment gateway, whose three outcomes
    (verified, verification failed, dismissed) arrive later as separate events. The calls the
    page makes (create order, clear cart, navigate, open the gateway, report a failure) are
    recorded in order in an effect log. */
module Payment {
  import opened Wrappers
  import Checkout

  datatype PaymentMethod = Cod | Online

  datatype Effect =
    | CreateOrder(addressId: string, choice: PaymentMethod, couponCode: Option<string>)
    | ClearCart
    | Navigate(path: string)
    | OpenGateway(gatewayOrderId: string)
    | ReportFailure(gatewayOrderId: string, reason: string)

  /** The create-order reply: it threw, or it answered with `success`, the order's `_id` ("" when
      the order or its id is missing) and the gateway's order id. */
  datatype CreateReply = CreateThrew | CreateReplied(success: bool, orderId: string, gatewayOrderId: string)

  /** How far opening the gateway got: its script did not load, constructing it threw, or its
      modal opened. */
  datatype Launch = ScriptFailed | InitFailed | Opened

  datatype VerifyReply = VerifyThrew(message: string) | VerifyReplied(success: bool)

  /** An open gateway modal: the store's order id and the gateway's order id. */
  datatype GatewaySession = GatewaySession(orderId: string, gatewayOrderId: string)

  const CancelReason: string := "Payment cancelled by user"

  function OrderPath(id: string): string {
    "/orders/" + id
  }

  /** The create-order reply is usable: successful and carrying an order id. */
  predicate OrderCreated(c: CreateReply) {
    c.CreateReplied? && c.success && c.orderId != ""
  }

  predicate Navigates(effects: seq<Effect>) {
    exists i :: 0 <= i < |effects| && effects[i].Navigate?
  }

  predicate Reports(effects: seq<Effect>) {
    exists i :: 0 <= i < |effects| && effects[i].ReportFailure?
  }

  predicate OpensGateway(effects: seq<Effect>) {
    exists i :: 0 <= i < |effects| && effects[i].OpenGateway?
  }

  /** The effects of handleOnlinePayment for an order with the given ids. */
  function OnlineEffects(orderId: string, gatewayOrderId: string, launch: Launch): seq<Effect>
  {
    if orderId != "" && launch == Opened then [OpenGateway(gatewayOrderId)] else []
  }

  /** The effects of handlePayment: the create-order call, then, only for a usable reply, either
      clear-cart-then-navigate (cash on delivery) or the gateway opening (online). An error path
      never clears the cart, navigates or reports. */
  function PaymentEffects(data: Checkout.CheckoutData, choice: PaymentMethod, create: CreateReply, launch: Launch)
    : (r: seq<Effect>)
    ensures |r| >= 1 && r[0] == CreateOrder(data.addressId, choice, data.couponCode)
    ensures ClearCart in r <==> OrderCreated(create) && choice == Cod
    ensures Navigates(r) <==> OrderCreated(create) && choice == Cod
    ensures Navigates(r) ==>
      r[|r| - 1] == Navigate(OrderPath(create.orderId)) && ClearCart in r[..|r| - 1]
    ensures OpensGateway(r) <==> OrderCreated(create) && choice == Online && launch == Opened
    ensures !Reports(r)
    ensures !OrderCreated(create) ==> |r| == 1
    ensures Navigates(r) ==> r == [r[0], ClearCart, Navigate(OrderPath(create.orderId))]
    ensures OpensGateway(r) ==> r == [r[0], OpenGateway(create.gatewayOrderId)]
    ensures OrderCreated(create) && choice == Online && launch != Opened ==> |r| == 1
  {
    var head := [CreateOrder(data.addressId, choice, data.couponCode)];
    if !OrderCreated(create) then head
    else if choice == Cod then
      var r := head + [ClearCart, Navigate(OrderPath(create.orderId))];
      assert r[2].Navigate?;
      r
    else
      var r := head + OnlineEffects(create.orderId, create.gatewayOrderId, launch);
      assert launch == Opened ==> r == head + [OpenGateway(create.gatewayOrderId)] && r[1].OpenGateway?;
      assert launch != Opened ==> r == head;
      assert choice == Online;
      r
  }

  /** The gateway session handlePayment leaves open, if any. */
  function OpenedSession(choice: PaymentMethod, create: CreateReply, launch: Launch): (r: Option<GatewaySession>)
    ensures r.Some? <==> OrderCreated(create) && choice == Online && launch == Opened
    ensures r.Some? ==> r.value == GatewaySession(create.orderId, create.gatewayOrderId)
  {
    if OrderCreated(create) && choice == Online && launch == Opened
    then Some(GatewaySession(create.orderId, create.gatewayOrderId)) else None
  }

  /** The effects of the gateway's success handler: a verified payment clears the cart and then
      navigates to the order; a thrown verification reports the failure; an unsuccessful reply
      that did not throw does nothing. */
  function VerifyEffects(s: GatewaySession, verify: VerifyReply): (r: seq<Effect>)
    ensures ClearCart in r <==> verify == VerifyReplied(true)
    ensures Navigates(r) <==> verify == VerifyReplied(true)
    ensures Navigates(r) ==> r == [ClearCart, Navigate(OrderPath(s.orderId))]
    ensures Reports(r) <==> verify.VerifyThrew?
    ensures Reports(r) ==> r == [ReportFailure(s.gatewayOrderId, verify.message)]
    ensures verify == VerifyReplied(false) ==> r == []
  {
    match verify
    case VerifyReplied(success) =>
      if success then
        var r := [ClearCart, Navigate(OrderPath(s.orderId))];
        assert r[1].Navigate?;
        r
      else []
    case VerifyThrew(message) =>
      var r := [ReportFailure(s.gatewayOrderId, message)];
      assert r[0].ReportFailure?;
      r
  }

  class PaymentPage {
    var paymentMethod: PaymentMethod
    var processing: bool
    var checkoutData: Option<Checkout.CheckoutData>
    var effects: seq<Effect>

    constructor ()
      ensures paymentMethod == Online && !processing && checkoutData == None && effects == []
    {
      paymentMethod := Online;
      processing := false;
      checkoutData := None;
      effects := [];
    }

    /** The mount effect: without checkout state the page goes back to /checkout and keeps no
        data; otherwise it keeps the state it was given. */
    method Mount(state: Option<Checkout.CheckoutData>)
      modifies this
      ensures state.None? ==> checkoutData == old(checkoutData) && effects == old(effects) + [Navigate("/checkout")]
      ensures state.Some? ==> checkoutData == state && effects == old(effects)
      ensures paymentMethod == old(paymentMethod) && processing == old(processing)
    {
      if state.None? {
        effects := effects + [Navigate("/checkout")];
        return;
      }
      checkoutData := state;
    }

    /** Picking cash on delivery or online payment. */
    method ChooseMethod(m: PaymentMethod)
      modifies this
      ensures paymentMethod == m
      ensures processing == old(processing) && checkoutData == old(checkoutData) && effects == old(effects)
    {
      paymentMethod := m;
    }

    /** handlePayment: a no-op without checkout data; otherwise it creates the order, dispatches
        on the reply and the method, and always ends with `processing` false. */
    method HandlePayment(create: CreateReply, launch: Launch, clearCartSucceeds: bool)
      returns (session: Option<GatewaySession>)
      modifies this
      ensures old(checkoutData).None? ==>
        session == None && effects == old(effects) && processing == old(processing)
      ensures old(checkoutData).Some? ==>
        effects == old(effects) + PaymentEffects(old(checkoutData).value, old(paymentMethod), create, launch)
        && session == OpenedSession(old(paymentMethod), create, launch)
        && !processing
      ensures paymentMethod == old(paymentMethod) && checkoutData == old(checkoutData)
    {
      session := None;
      if checkoutData.None? {
        return;
      }
      var data := checkoutData.value;
      processing := true;
      effects := effects + [CreateOrder(data.addressId, paymentMethod, data.couponCode)];
      if OrderCreated(create) {
        if paymentMethod == Cod {
          // A failed clear is logged and does not stop the navigation.
          effects := effects + [ClearCart];
          effects := effects + [Navigate(OrderPath(create.orderId))];
        } else {
          session := HandleOnlinePayment(create.orderId, create.gatewayOrderId, launch);
        }
      }
      processing := false;
    }

    /** handleOnlinePayment: without an order id, or when constructing the gateway throws, it
        resets `processing`; a script that fails to load leaves it; otherwise the modal opens. */
    method HandleOnlinePayment(orderId: string, gatewayOrderId: string, launch: Launch)
      returns (session: Option<GatewaySession>)
      modifies this
      ensures effects == old(effects) + OnlineEffects(orderId, gatewayOrderId, launch)
      ensures session.Some? <==> orderId != "" && launch == Opened
      ensures session.Some? ==> session.value == GatewaySession(orderId, gatewayOrderId)
      ensures processing == if orderId == "" || launch == InitFailed then false else old(processing)
      ensures paymentMethod == old(paymentMethod) && checkoutData == old(checkoutData)
    {
      session := None;
      if orderId == "" {
        processing := false;
        return;
      }
      match launch
      case ScriptFailed =>
        return;
      case InitFailed =>
        processing := false;
      case Opened =>
        effects := effects + [OpenGateway(gatewayOrderId)];
        session := Some(GatewaySession(orderId, gatewayOrderId));
    }

    /** The gateway's success handler. Failures of the cart clear and of the failure report are
        swallowed, so neither changes what happens. */
    method OnPaymentVerified(s: GatewaySession, verify: VerifyReply, clearCartSucceeds: bool, reportSucceeds: bool)
      modifies this
      ensures effects == old(effects) + VerifyEffects(s, verify)
      ensures processing == old(processing) && paymentMethod == old(paymentMethod)
      ensures checkoutData == old(checkoutData)
    {
      match verify
      case VerifyReplied(success) =>
        if success {
          effects := effects + [ClearCart];
          effects := effects + [Navigate(OrderPath(s.orderId))];
        }
      case VerifyThrew(message) =>
        effects := effects + [ReportFailure(s.gatewayOrderId, message)];
    }

    /** The modal's dismiss callback: report the cancellation and release the button; no cart
        clear and no navigation. */
    method OnDismiss(s: GatewaySession, reportSucceeds: bool)
      modifies this
      ensures effects == old(effects) + [ReportFailure(s.gatewayOrderId, CancelReason)]
      ensures !processing
      ensures paymentMethod == old(paymentMethod) && checkoutData == old(checkoutData)
    {
      effects := effects + [ReportFailure(s.gatewayOrderId, CancelReason)];
      processing := false;
    }
  }
}
