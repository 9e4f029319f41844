/** The checkout page (src/pages/Checkout.jsx): shipping and total arithmetic, coupon state,
    the default-address pick and the hand-off to payment. Money is whole rupees. */
module Checkout {
  import opened Wrappers
  import Seqs
  import Text

  const ShippingCharge: int := 50
  const FreeShippingThreshold: int := 500

  datatype Address = Address(id: string, isDefault: bool)

  datatype Coupon = Coupon(code: string)

  datatype AddressReply = AddressThrew | AddressReplied(success: bool, addresses: Option<seq<Address>>)

  /** The coupon check's reply; `discount` is absent when the server sends none. */
  datatype CouponReply = CouponThrew | CouponReplied(success: bool, coupon: Option<Coupon>, discount: Option<int>)

  /** What the page asks the backend to validate. */
  datatype CouponRequest = CouponRequest(code: string, cartTotal: int)

  /** The state handed to the payment page. */
  datatype CheckoutData = CheckoutData(
    addressId: string, cartTotal: int, discount: int, shipping: int, total: int, couponCode: Option<string>)

  /** What the page shows. */
  datatype Screen = Spinner | Blank | Form

  /** calculateShipping: free from the threshold up, a flat charge below it. */
  function Shipping(cartTotal: int): (r: int)
    ensures r == 0 || r == ShippingCharge
    ensures r == 0 <==> cartTotal >= FreeShippingThreshold
  {
    if cartTotal >= FreeShippingThreshold then 0 else ShippingCharge
  }

  /** calculateTotal: cart total plus shipping minus discount, with no clamping. */
  function Total(cartTotal: int, discount: int): int
  {
    cartTotal + Shipping(cartTotal) - discount
  }

  /** The total is never below zero while the discount stays within the cart total, and it is
      negative exactly when the discount exceeds cart total plus shipping: nothing clamps it. */
  lemma TotalBounds(cartTotal: int, discount: int)
    ensures cartTotal - discount <= Total(cartTotal, discount) <= cartTotal - discount + ShippingCharge
    ensures 0 <= discount <= cartTotal ==> Total(cartTotal, discount) >= 0
    ensures Total(cartTotal, discount) < 0 <==> discount > cartTotal + Shipping(cartTotal)
  {
  }

  /** The first address marked default (Array.prototype.find). */
  function DefaultAddress(addresses: seq<Address>): (r: Option<Address>)
    ensures r.Some? ==> r.value in addresses && r.value.isDefault
    ensures r.None? <==> forall i :: 0 <= i < |addresses| ==> !addresses[i].isDefault
    ensures r.Some? ==>
      exists k :: 0 <= k < |addresses| && addresses[k] == r.value && (forall j :: 0 <= j < k ==> !addresses[j].isDefault)
  {
    var k := Seqs.IndexOf((a: Address) => a.isDefault, addresses);
    if k == -1 then None else Some(addresses[k])
  }

  /** The discount a successful coupon reply sets: `response.discount || 0`. */
  function ReplyDiscount(d: Option<int>): int
  {
    d.GetOr(0)
  }

  /** The render decision: a spinner while loading, nothing for an empty cart, else the form. */
  function View(loading: bool, cartSize: nat): (v: Screen)
    ensures v == Form <==> !loading && cartSize > 0
    ensures v == Blank <==> !loading && cartSize == 0
  {
    if loading then Spinner else if cartSize == 0 then Blank else Form
  }

  /** The empty-cart effect: once loading has finished, an empty cart sends the browser to
      /products. */
  function EmptyCartRedirect(loading: bool, cartSize: nat): (r: Option<string>)
    ensures r.Some? <==> View(loading, cartSize) == Blank
    ensures r.Some? ==> r.value == "/products"
  {
    if !loading && cartSize == 0 then Some("/products") else None
  }

  class CheckoutPage {
    var loading: bool
    var applying: bool
    var addresses: seq<Address>
    /** The selected address id; "" when none is selected. */
    var selectedAddress: string
    /** The coupon input box. */
    var couponCode: string
    var appliedCoupon: Option<Coupon>
    var discount: int

    constructor ()
      ensures loading && !applying && addresses == [] && selectedAddress == ""
      ensures couponCode == "" && appliedCoupon == None && discount == 0
    {
      loading := true;
      applying := false;
      addresses := [];
      selectedAddress := "";
      couponCode := "";
      appliedCoupon := None;
      discount := 0;
    }

    /** fetchAddresses: a successful reply replaces the list and selects the first default
        address, if there is one; `loading` ends false. */
    method FetchAddresses(reply: AddressReply)
      modifies this
      ensures reply.AddressReplied? && reply.success ==> addresses == reply.addresses.GetOr([])
      ensures !(reply.AddressReplied? && reply.success) ==> addresses == old(addresses)
      ensures selectedAddress ==
        if reply.AddressReplied? && reply.success && DefaultAddress(reply.addresses.GetOr([])).Some?
        then DefaultAddress(reply.addresses.GetOr([])).value.id
        else old(selectedAddress)
      ensures !loading
      ensures couponCode == old(couponCode) && appliedCoupon == old(appliedCoupon) && discount == old(discount)
      ensures applying == old(applying)
    {
      loading := true;
      if reply.AddressReplied? && reply.success {
        var list := reply.addresses.GetOr([]);
        addresses := list;
        var defaultAddress := DefaultAddress(list);
        if defaultAddress.Some? {
          selectedAddress := defaultAddress.value.id;
        }
      }
      loading := false;
    }

    /** Picking an address card. */
    method SelectAddress(id: string)
      modifies this
      ensures selectedAddress == id
      ensures addresses == old(addresses) && couponCode == old(couponCode)
      ensures appliedCoupon == old(appliedCoupon) && discount == old(discount) && loading == old(loading)
      ensures applying == old(applying)
    {
      selectedAddress := id;
    }

    /** Typing in the coupon box: the box holds the text upper-cased. */
    method EditCouponCode(text: string)
      modifies this
      ensures couponCode == Text.ToUpper(text)
      ensures addresses == old(addresses) && selectedAddress == old(selectedAddress)
      ensures appliedCoupon == old(appliedCoupon) && discount == old(discount) && loading == old(loading)
      ensures applying == old(applying)
    {
      couponCode := Text.ToUpper(text);
    }

    /** handleApplyCoupon: a blank code is refused without a request; otherwise the trimmed code
        is sent and a successful reply REPLACES the discount (absent reads as 0). */
    method ApplyCoupon(cartTotal: int, reply: CouponReply) returns (request: Option<CouponRequest>)
      modifies this
      ensures Text.IsBlank(old(couponCode)) <==> request.None?
      ensures request.Some? ==> request.value == CouponRequest(Text.Trim(old(couponCode)), cartTotal)
      ensures request.Some? && reply.CouponReplied? && reply.success ==>
        appliedCoupon == reply.coupon && discount == ReplyDiscount(reply.discount)
      ensures !(request.Some? && reply.CouponReplied? && reply.success) ==>
        appliedCoupon == old(appliedCoupon) && discount == old(discount)
      ensures !applying || request.None?
      ensures request.None? ==> applying == old(applying)
      ensures couponCode == old(couponCode) && selectedAddress == old(selectedAddress)
      ensures addresses == old(addresses) && loading == old(loading)
    {
      var code := Text.Trim(couponCode);
      if code == [] {
        return None;
      }
      applying := true;
      request := Some(CouponRequest(code, cartTotal));
      if reply.CouponReplied? && reply.success {
        appliedCoupon := reply.coupon;
        discount := ReplyDiscount(reply.discount);
      }
      applying := false;
    }

    /** handleRemoveCoupon: when the backend call does not throw, the coupon, the discount and
        the code box are reset; otherwise nothing changes. */
    method RemoveCoupon(replied: bool)
      modifies this
      ensures replied ==> appliedCoupon == None && discount == 0 && couponCode == ""
      ensures !replied ==>
        appliedCoupon == old(appliedCoupon) && discount == old(discount) && couponCode == old(couponCode)
      ensures selectedAddress == old(selectedAddress) && addresses == old(addresses) && loading == old(loading)
      ensures applying == old(applying)
    {
      if replied {
        appliedCoupon := None;
        discount := 0;
        couponCode := "";
      }
    }

    /** handleProceedToPayment: refused without a selected address; otherwise the hand-off carries
        the address, the discount, the applied code and the same shipping and total rules. */
    method ProceedToPayment(cartTotal: int) returns (handoff: Option<CheckoutData>)
      ensures handoff.None? <==> selectedAddress == ""
      ensures handoff.Some? ==> handoff.value == CheckoutData(
        selectedAddress, cartTotal, discount, Shipping(cartTotal), Total(cartTotal, discount),
        if appliedCoupon.Some? then Some(appliedCoupon.value.code) else None)
    {
      if selectedAddress == "" {
        return None;
      }
      handoff := Some(CheckoutData(
        selectedAddress, cartTotal, discount, Shipping(cartTotal), Total(cartTotal, discount),
        if appliedCoupon.Some? then Some(appliedCoupon.value.code) else None));
    }
  }

  /** Coupons do not stack: two successful applications leave the second reply's discount,
      whatever the first one was. */
  method ApplyTwice(page: CheckoutPage, cartTotal: int, code1: string, first: CouponReply, code2: string, d2: int)
    returns (request: Option<CouponRequest>)
    requires !Text.IsBlank(code2)
    modifies page
    ensures page.discount == d2 && request.Some?
  {
    page.EditCouponCode(code1);
    var _ := page.ApplyCoupon(cartTotal, first);
    page.EditCouponCode(code2);
    Text.ToUpperKeepsBlank(code2);
    request := page.ApplyCoupon(cartTotal, CouponReplied(true, Some(Coupon(code2)), Some(d2)));
  }
}
