/** The product detail page (frontend/src/pages/Product.jsx): a quantity
    stepper and an add-to-cart button guarded by the product's stock. */
module ProductPage {
  import opened Shop
  import opened CartState

  /** The page's state once its product has been fetched. */
  class ProductView {
    const product: Product
    var quantity: int
    var adding: bool

    /** The stepper never shows less than one unit. */
    ghost predicate Valid()
      reads this
    {
      quantity >= 1
    }

    constructor (product: Product)
      ensures this.product == product && quantity == 1 && !adding
      ensures Valid()
    {
      this.product := product;
      quantity := 1;
      adding := false;
    }

    /** The − stepper, frontend/src/pages/Product.jsx:137. */
    method Decrement()
      modifies this
      ensures quantity == Max(1, old(quantity) - 1) && adding == old(adding)
      ensures Valid()
    {
      quantity := Max(1, quantity - 1);
    }

    /** The + stepper, frontend/src/pages/Product.jsx:146: unbounded; stock is
        checked only when adding. */
    method Increment()
      requires Valid()
      modifies this
      ensures quantity == old(quantity) + 1 && adding == old(adding)
      ensures Valid()
    {
      quantity := quantity + 1;
    }

    /** The add button's `disabled`, frontend/src/pages/Product.jsx:158. */
    predicate AddDisabled()
      reads this
    {
      product.stock == 0 || adding
    }

    /** handleAddToCart, frontend/src/pages/Product.jsx:33-42: `onAddToCart`
        is the root's addToCart, here the cart's Add. It is called exactly once
        with the current quantity unless that exceeds the stock. */
    method HandleAddToCart(cart: Cart) returns (called: bool)
      modifies this, cart
      ensures called <==> old(quantity) <= product.stock
      ensures called ==> adding && AddDisabled() && cart.items == AddToCart(old(cart.items), product, quantity)
      ensures !called ==> adding == old(adding) && cart.items == old(cart.items)
      ensures quantity == old(quantity)
    {
      if quantity > product.stock {
        return false;
      }
      adding := true;
      cart.Add(product, quantity);
      called := true;
    }

    /** A click on the add button, frontend/src/pages/Product.jsx:156-158:
        a disabled button ignores it, so a product is added at most once per
        `adding` period, and never when it is out of stock. */
    method ClickAdd(cart: Cart) returns (called: bool)
      requires Valid()
      modifies this, cart
      ensures called <==> !old(adding) && old(quantity) <= product.stock
      ensures called ==> adding && cart.items == AddToCart(old(cart.items), product, quantity)
      ensures !called ==> adding == old(adding) && cart.items == old(cart.items)
      ensures quantity == old(quantity)
    {
      if AddDisabled() {
        return false;
      }
      called := HandleAddToCart(cart);
    }

    /** The timer that re-enables the button after an add. */
    method AddSettled()
      modifies this
      ensures !adding && quantity == old(quantity)
    {
      adding := false;
    }
  }
}
