/** The cart page (frontend/src/pages/Cart.jsx): the order summary computed
    from the cart, the order submission, the clear-cart action and the
    per-entry quantity buttons. */
module CartPage {
  import opened Shop
  import opened CartState
  import OrderController
  import AdminDashboard

  /** `total`, frontend/src/pages/Cart.jsx:20-23: the sum of price × quantity. */
  function Subtotal(cart: seq<CartItem>): (total: int)
    ensures cart == [] ==> total == 0
    ensures (forall i :: 0 <= i < |cart| ==> cart[i].product.price >= 0 && cart[i].quantity >= 0) ==> total >= 0
  {
    if cart == [] then 0
    else
      var first := cart[0].product.price * cart[0].quantity;
      assert cart[0].product.price >= 0 && cart[0].quantity >= 0 ==> first >= 0;
      first + Subtotal(cart[1..])
  }

  lemma {:induction false} SubtotalConcat(a: seq<CartItem>, b: seq<CartItem>)
    ensures Subtotal(a + b) == Subtotal(a) + Subtotal(b)
  {
    if a == [] {
      assert a + b == b;
    } else {
      assert (a + b)[1..] == a[1..] + b;
      SubtotalConcat(a[1..], b);
    }
  }

  /** `Math.floor(total * 0.1)`: for a whole-unit total this is the floor of a tenth. */
  function Discount(total: int): (d: int)
    ensures 10 * d <= total < 10 * d + 10
    ensures total >= 0 ==> 0 <= d <= total
  {
    total / 10
  }

  /** `finalTotal`, frontend/src/pages/Cart.jsx:25: the subtotal less the
      discount, that is nine tenths of it rounded up. */
  function FinalTotal(total: int): (f: int)
    ensures 9 * total <= 10 * f < 9 * total + 10
    ensures total >= 0 ==> 0 <= f <= total
  {
    total - Discount(total)
  }

  /** A cart of two units at 100 and one at 50. */
  lemma WorkedExample()
    ensures var cart := [CartItem(Product("a", "A", 100, 5), 2), CartItem(Product("b", "B", 50, 5), 1)];
            Subtotal(cart) == 250 && Discount(Subtotal(cart)) == 25 && FinalTotal(Subtotal(cart)) == 225
  {
    var cart := [CartItem(Product("a", "A", 100, 5), 2), CartItem(Product("b", "B", 50, 5), 1)];
    assert cart[1..][1..] == [];
    assert Subtotal(cart[1..]) == 50;
  }

  /** The `products` list sent by placeOrder, frontend/src/pages/Cart.jsx:38-41. */
  function Payload(cart: seq<CartItem>): (lines: seq<Line>)
    ensures |lines| == |cart|
    ensures forall i :: 0 <= i < |cart| ==> lines[i] == Line(cart[i].product.id, Some(cart[i].quantity))
  {
    if cart == [] then [] else [Line(cart[0].product.id, Some(cart[0].quantity))] + Payload(cart[1..])
  }

  /** The whole request body sent by placeOrder. */
  function CheckoutRequest(cart: seq<CartItem>): OrderRequest {
    OrderRequest(Some(Payload(cart)), Some(FinalTotal(Subtotal(cart))))
  }

  /** The server stores a checkout of a non-empty cart as one line per entry,
      in cart order, with the discounted total; an empty cart is refused. */
  lemma CheckoutDecision(cart: seq<CartItem>)
    ensures var r := OrderController.Decide(CheckoutRequest(cart));
            && (r.Created? <==> cart != [])
            && (r.Created? ==> r.order == Order(Payload(cart), Some(FinalTotal(Subtotal(cart)))))
  {
  }

  /** The dashboard's item total of a checked-out order equals the cart's
      badge count, as long as no entry has quantity 0. */
  lemma {:induction false} PayloadItemCount(cart: seq<CartItem>)
    requires forall i :: 0 <= i < |cart| ==> cart[i].quantity != 0
    ensures AdminDashboard.OrderItemCount(Payload(cart)) == CartCount(cart)
  {
    if cart != [] {
      assert Payload(cart)[1..] == Payload(cart[1..]);
      assert forall i :: 0 <= i < |cart[1..]| ==> cart[1..][i] == cart[i + 1];
      PayloadItemCount(cart[1..]);
    }
  }

  /** The + button is disabled once the entry holds its snapshot's stock. */
  predicate PlusDisabled(item: CartItem) {
    item.quantity >= item.product.stock
  }

  /** The cart page's own state. */
  class Checkout {
    var isProcessing: bool
    var orderPlaced: bool

    constructor ()
      ensures !isProcessing && !orderPlaced
    {
      isProcessing := false;
      orderPlaced := false;
    }

    /** placeOrder, frontend/src/pages/Cart.jsx:34-54. `delivered` says whether
        the request reached the server and its answer came back; a 400 answer
        is a failure like a lost request. */
    method PlaceOrder(cart: Cart, server: OrderController.OrderStore, delivered: bool) returns (succeeded: bool)
      modifies this, cart, server
      ensures succeeded <==> delivered && old(cart.items) != []
      ensures succeeded ==>
        && orderPlaced && cart.items == []
        && server.orders == old(server.orders) + [Order(Payload(old(cart.items)), Some(FinalTotal(Subtotal(old(cart.items)))))]
      ensures !succeeded ==>
        && orderPlaced == old(orderPlaced) && cart.items == old(cart.items)
        && server.orders == old(server.orders)
      ensures !isProcessing
    {
      isProcessing := true;
      var request := CheckoutRequest(cart.items);
      CheckoutDecision(cart.items);
      succeeded := false;
      if delivered {
        var response := server.CreateOrder(request);
        succeeded := response.Created?;
      }
      if succeeded {
        orderPlaced := true;
        cart.Clear();
      }
      isProcessing := false;
    }

    /** handleClearCart, frontend/src/pages/Cart.jsx:27-32; `confirmed` is the
        answer to the confirmation dialog. */
    method ClearCart(cart: Cart, confirmed: bool)
      modifies cart
      ensures cart.items == if confirmed then [] else old(cart.items)
    {
      if confirmed {
        cart.Clear();
      }
    }

    /** The − button of entry `k`, frontend/src/pages/Cart.jsx:142-148: it
        never removes the entry. */
    method Decrement(cart: Cart, k: nat)
      requires k < |cart.items|
      modifies cart
      ensures |cart.items| == |old(cart.items)|
      ensures cart.items ==
        if old(cart.items)[k].quantity > 1
        then UpdateCartQuantity(old(cart.items), old(cart.items)[k].product.id, old(cart.items)[k].quantity - 1)
        else old(cart.items)
      ensures WellFormed(old(cart.items)) ==>
        WellFormed(cart.items) &&
        cart.items == if old(cart.items)[k].quantity > 1
                      then old(cart.items)[k := old(cart.items)[k].(quantity := old(cart.items)[k].quantity - 1)]
                      else old(cart.items)
    {
      var item := cart.items[k];
      if item.quantity > 1 {
        if WellFormed(cart.items) {
          UpdateAt(cart.items, item.quantity - 1, k);
        }
        cart.UpdateQuantity(item.product.id, item.quantity - 1);
      }
    }

    /** The + button of entry `k`, frontend/src/pages/Cart.jsx:156-167; a
        click on the disabled button does nothing. */
    method Increment(cart: Cart, k: nat)
      requires k < |cart.items|
      modifies cart
      ensures cart.items ==
        if PlusDisabled(old(cart.items)[k]) then old(cart.items)
        else UpdateCartQuantity(old(cart.items), old(cart.items)[k].product.id, old(cart.items)[k].quantity + 1)
      ensures WellFormed(old(cart.items)) ==>
        WellFormed(cart.items) &&
        cart.items == if PlusDisabled(old(cart.items)[k]) then old(cart.items)
                      else old(cart.items)[k := old(cart.items)[k].(quantity := old(cart.items)[k].quantity + 1)]
    {
      var item := cart.items[k];
      if !PlusDisabled(item) {
        if WellFormed(cart.items) {
          UpdateAt(cart.items, item.quantity + 1, k);
        }
        cart.UpdateQuantity(item.product.id, item.quantity + 1);
      }
    }
  }
}
