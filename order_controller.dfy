/** The order endpoints of the API (backend/src/controllers/order.controller.js):
    createOrder validates only that the submitted line list is present and
    non-empty, then stores exactly what was submitted; getOrders returns every
    stored order. */
module OrderController {
  import opened Shop

  const EmptyCartMessage: string := "Cart is empty"

  /** What createOrder answers. */
  datatype Response = Created(order: Order) | BadRequest(message: string) {
    /** The HTTP status code of the answer. */
    function Status(): int {
      if Created? then 201 else 400
    }
  }

  /** The decision of createOrder for one request body, before any storage. */
  function Decide(req: OrderRequest): (r: Response)
    ensures r.BadRequest? <==> req.products == None || req.products == Some([])
    ensures r.BadRequest? ==> r.message == EmptyCartMessage && r.Status() == 400
    ensures r.Created? ==> r.Status() == 201
    ensures r.Created? ==> r.order.lines == req.products.value && r.order.totalAmount == req.totalAmount
  {
    match req.products
    case None => BadRequest(EmptyCartMessage)
    case Some(lines) =>
      if |lines| == 0 then BadRequest(EmptyCartMessage)
      else Created(Order(lines, req.totalAmount))
  }

  /** The stored line count equals the submitted line count, and no price,
      stock or total is recomputed: any total the client sends is kept. */
  lemma StoredAsSubmitted(lines: seq<Line>, total: Option<int>)
    requires lines != []
    ensures var r := Decide(OrderRequest(Some(lines), total));
            r.Created? && |r.order.lines| == |lines| && r.order == Order(lines, total)
  {
  }

  /** The Orders collection. */
  class OrderStore {
    var orders: seq<Order>

    constructor ()
      ensures orders == []
    {
      orders := [];
    }

    /** createOrder: a missing or empty line list is refused with 400 and
        nothing is stored; otherwise exactly one order is appended and 201 is
        answered with it. */
    method CreateOrder(req: OrderRequest) returns (resp: Response)
      modifies this
      ensures resp == Decide(req)
      ensures resp.BadRequest? ==> orders == old(orders)
      ensures resp.Created? ==> orders == old(orders) + [resp.order]
    {
      resp := Decide(req);
      if resp.Created? {
        orders := orders + [resp.order];
      }
    }

    /** getOrders: every stored order, in storage order; nothing changes. */
    method GetOrders() returns (result: seq<Order>)
      ensures result == orders
    {
      result := orders;
    }
  }
}
