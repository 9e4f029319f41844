/** The product page (src/pages/ProductDetail.jsx): the quantity stepper, the initial quantity
    taken from the cart, the add-to-cart dispatch, the image list, the price shown with its
    savings, and the hearted flag. */
module ProductDetail {
  import opened Wrappers
  import Seqs

  /** The product fields the page reads. A missing url is ""; a missing `finalPrice` is 0. */
  datatype Product = Product(
    id: string, stock: int, price: int, finalPrice: int, discount: int,
    thumbnailUrl: string, imageUrls: seq<string>, ishearted: bool)

  /** The two stepper buttons. */
  datatype Step = Increment | Decrement

  /** handleQuantityChange: one step up while below the stock, one step down while above 1. */
  function NextQuantity(quantity: int, stock: int, step: Step): (r: int)
    ensures r == quantity || r == quantity + 1 || r == quantity - 1
    ensures r == quantity + 1 <==> step == Increment && quantity < stock
    ensures r == quantity - 1 <==> step == Decrement && quantity > 1
    ensures 1 <= quantity <= stock ==> 1 <= r <= stock
  {
    match step
    case Increment => if quantity < stock then quantity + 1 else quantity
    case Decrement => if quantity > 1 then quantity - 1 else quantity
  }

  /** The quantity after pressing the buttons in turn. */
  function AfterSteps(quantity: int, stock: int, steps: seq<Step>): int
    decreases |steps|
  {
    if steps == [] then quantity else AfterSteps(NextQuantity(quantity, stock, steps[0]), stock, steps[1..])
  }

  /** No sequence of presses takes an in-range quantity out of [1, stock]. */
  lemma {:induction false} StepsStayInRange(quantity: int, stock: int, steps: seq<Step>)
    requires 1 <= quantity <= stock
    ensures 1 <= AfterSteps(quantity, stock, steps) <= stock
    decreases |steps|
  {
    if steps != [] {
      StepsStayInRange(NextQuantity(quantity, stock, steps[0]), stock, steps[1..]);
    }
  }

  /** What handleAddToCart asks of the cart. */
  datatype CartAction =
    | NoAction
    | UpdateQuantity(productId: string, quantity: int)
    | AddToCart(product: Product, quantity: int)

  /** handleAddToCart: nothing without a product or with zero stock; an update when the product
      is already in the cart; otherwise an add with the chosen quantity. */
  function CartActionFor(product: Option<Product>, inCart: bool, quantity: int): (r: CartAction)
    ensures r.NoAction? <==> product.None? || product.value.stock == 0
    ensures r.UpdateQuantity? <==> product.Some? && product.value.stock != 0 && inCart
    ensures r.UpdateQuantity? ==> r.productId == product.value.id && r.quantity == quantity
    ensures r.AddToCart? ==> r.product == product.value && r.quantity == quantity
  {
    if product.None? || product.value.stock == 0 then NoAction
    else if inCart then UpdateQuantity(product.value.id, quantity)
    else AddToCart(product.value, quantity)
  }

  /** The gallery: the thumbnail url, then each image url, with missing ones dropped. */
  function Images(product: Option<Product>): (r: seq<string>)
    ensures product.None? ==> r == []
    ensures forall u :: u in r ==> u != ""
    ensures product.Some? && product.value.thumbnailUrl != "" ==> |r| > 0 && r[0] == product.value.thumbnailUrl
  {
    match product
    case None => []
    case Some(p) =>
      var r := Seqs.Filter((u: string) => u != "", [p.thumbnailUrl] + p.imageUrls);
      assert p.thumbnailUrl != "" ==> r == [p.thumbnailUrl] + Seqs.Filter((u: string) => u != "", p.imageUrls) by {
        Seqs.FilterAppend((u: string) => u != "", [p.thumbnailUrl], p.imageUrls);
      }
      r
  }

  /** A url is in the gallery exactly when it is present and is the thumbnail or an image. */
  lemma ImagesMembers(p: Product, u: string)
    ensures u in Images(Some(p)) <==> u != "" && (u == p.thumbnailUrl || u in p.imageUrls)
  {
    if u != "" && (u == p.thumbnailUrl || u in p.imageUrls) {
      Seqs.FilterKeeps((u: string) => u != "", [p.thumbnailUrl] + p.imageUrls, u);
    }
  }

  /** When every url is present the gallery is the thumbnail followed by the images, in order. */
  lemma ImagesAllPresent(p: Product)
    requires p.thumbnailUrl != "" && forall i :: 0 <= i < |p.imageUrls| ==> p.imageUrls[i] != ""
    ensures Images(Some(p)) == [p.thumbnailUrl] + p.imageUrls
  {
    var all := [p.thumbnailUrl] + p.imageUrls;
    assert forall i :: 0 <= i < |all| ==> all[i] != "" by {
      forall i | 0 <= i < |all| ensures all[i] != "" {
        if i > 0 { assert all[i] == p.imageUrls[i - 1]; }
      }
    }
    Seqs.FilterAllPass((u: string) => u != "", all);
  }

  /** The price shown: `finalPrice || price`. */
  function ShownPrice(p: Product): (r: int)
    ensures r == p.finalPrice || r == p.price
    ensures r == p.price <== p.finalPrice == 0
    ensures p.finalPrice != 0 ==> r == p.finalPrice
  {
    if p.finalPrice != 0 then p.finalPrice else p.price
  }

  /** The struck-through price and the saving, shown only when the discount is positive. */
  function Savings(p: Product): (r: Option<int>)
    ensures r.Some? <==> p.discount > 0
    ensures r.Some? ==> ShownPrice(p) + r.value == p.price
  {
    if p.discount > 0 then Some(p.price - ShownPrice(p)) else None
  }

  /** How a product fetch ended. */
  datatype ProductReply = Fetched(product: Product) | FetchThrew

  /** The page state the handlers change. */
  class ProductPage {
    var product: Option<Product>
    var quantity: int
    var isHeartedFromAPI: bool

    constructor ()
      ensures product == None && quantity == 1 && !isHeartedFromAPI
    {
      product := None;
      quantity := 1;
      isHeartedFromAPI := false;
    }

    /** The heart is filled when the API flag is set or the product is in the wishlist. */
    predicate IsCurrentlyHearted(inWishlist: bool)
      reads this
    {
      isHeartedFromAPI || inWishlist
    }

    /** fetchProduct: the authenticated or public endpoint first; if it throws, the public
        endpoint, whose product is never hearted; if that throws too, nothing changes. */
    method FetchProduct(primary: ProductReply, fallback: ProductReply)
      modifies this
      ensures primary.Fetched? ==> product == Some(primary.product) && isHeartedFromAPI == primary.product.ishearted
      ensures primary.FetchThrew? && fallback.Fetched? ==> product == Some(fallback.product) && !isHeartedFromAPI
      ensures primary.FetchThrew? && fallback.FetchThrew? ==>
        product == old(product) && isHeartedFromAPI == old(isHeartedFromAPI)
      ensures quantity == old(quantity)
    {
      match primary {
        case Fetched(p) =>
          product := Some(p);
          isHeartedFromAPI := p.ishearted;
        case FetchThrew =>
          if fallback.Fetched? {
            product := Some(fallback.product);
            isHeartedFromAPI := false;
          }
      }
    }

    /** The quantity sync effect: the cart's quantity when the product is in the cart, else 1. */
    method SyncQuantity(inCart: bool, cartQuantity: int)
      modifies this
      ensures quantity == if product.Some? && inCart then cartQuantity else 1
      ensures product == old(product) && isHeartedFromAPI == old(isHeartedFromAPI)
    {
      if product.Some? && inCart {
        quantity := cartQuantity;
      } else {
        quantity := 1;
      }
    }

    /** handleQuantityChange: a no-op without a product. */
    method ChangeQuantity(step: Step)
      modifies this
      ensures product.None? ==> quantity == old(quantity)
      ensures product.Some? ==> quantity == NextQuantity(old(quantity), product.value.stock, step)
      ensures product == old(product) && isHeartedFromAPI == old(isHeartedFromAPI)
    {
      if product.Some? {
        quantity := NextQuantity(quantity, product.value.stock, step);
      }
    }

    /** handleAddToCart: the request made of the cart; the page itself does not change. */
    method AddToCart(inCart: bool) returns (action: CartAction)
      ensures action == CartActionFor(product, inCart, quantity)
    {
      if product.None? || product.value.stock == 0 {
        return NoAction;
      }
      if inCart {
        action := UpdateQuantity(product.value.id, quantity);
      } else {
        action := CartAction.AddToCart(product.value, quantity);
      }
    }

    /** handleWishlistToggle: the API flag flips once, in the success path and in the error
        path alike, so whether the toggle threw makes no difference to the page. */
    method WishlistToggle()
      modifies this
      ensures product.Some? ==> isHeartedFromAPI == !old(isHeartedFromAPI)
      ensures product.None? ==> isHeartedFromAPI == old(isHeartedFromAPI)
      ensures product == old(product) && quantity == old(quantity)
    {
      if product.None? {
        return;
      }
      isHeartedFromAPI := !isHeartedFromAPI;
    }
  }
}
