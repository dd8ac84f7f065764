/** Entities shared by the storefront, the admin dashboard and the order API. */
module Shop {

  datatype Option<+T> = None | Some(value: T)

  /** A catalog product as the client receives it. `id` is the server-assigned
      `_id`; the empty string stands for a product that has none. Prices are
      whole currency units. */
  datatype Product = Product(id: string, name: string, price: int, stock: int)

  /** JavaScript truthiness of `product._id`. */
  predicate HasId(p: Product) {
    p.id != ""
  }

  /** One cart entry: the product snapshot taken when it was added, and a quantity. */
  datatype CartItem = CartItem(product: Product, quantity: int)

  /** One line of an order as submitted and stored: a product reference and a
      quantity, either of which the API accepts without checking. */
  datatype Line = Line(productId: string, quantity: Option<int>)

  /** A stored order: exactly the submitted lines and total. */
  datatype Order = Order(lines: seq<Line>, totalAmount: Option<int>)

  /** The body of `POST /api/orders`; a missing field is `None`. */
  datatype OrderRequest = OrderRequest(products: Option<seq<Line>>, totalAmount: Option<int>)

  function Min(a: int, b: int): int {
    if a <= b then a else b
  }

  function Max(a: int, b: int): int {
    if a >= b then a else b
  }

  /** `a` is obtained from `b` by deleting elements, keeping the order of the rest. */
  predicate IsSubsequence<T(==)>(a: seq<T>, b: seq<T>)
    decreases |b|
  {
    if a == [] then true
    else if b == [] then false
    else (a[0] == b[0] && IsSubsequence(a[1..], b[1..])) || IsSubsequence(a, b[1..])
  }
}
