/** The admin dashboard (frontend/src/pages/Admin.jsx): aggregations recomputed
    from the fetched orders and products, and the few state changes the page
    makes (product deletion, order accordion, product creation). */
module AdminDashboard {
  import opened Shop

  /** Number of most recent orders shown in the two charts (`slice(-7)`). */
  const ChartWindow: nat := 7
  /** Shown for an order line whose product cannot be resolved. */
  const RemovedProductName: string := "Removed product"

  /** `o.totalAmount || 0`. */
  function AmountOrZero(o: Order): int {
    match o.totalAmount
    case Some(a) => a
    case None => 0
  }

  /** totalRevenue, frontend/src/pages/Admin.jsx:79-82. */
  function TotalRevenue(orders: seq<Order>): (r: int)
    ensures (forall i :: 0 <= i < |orders| ==> AmountOrZero(orders[i]) >= 0) ==> r >= 0
  {
    if orders == [] then 0 else AmountOrZero(orders[0]) + TotalRevenue(orders[1..])
  }

  /** Storing one more order raises the revenue by that order's amount (0 when it has none). */
  lemma {:induction false} RevenueAppend(orders: seq<Order>, o: Order)
    ensures TotalRevenue(orders + [o]) == TotalRevenue(orders) + AmountOrZero(o)
  {
    if orders != [] {
      assert (orders + [o])[1..] == orders[1..] + [o];
      RevenueAppend(orders[1..], o);
    }
  }

  /** The "Stock Units" figure, frontend/src/pages/Admin.jsx:135. */
  function StockUnits(products: seq<Product>): (r: int)
    ensures (forall i :: 0 <= i < |products| ==> products[i].stock >= 0) ==> r >= 0
  {
    if products == [] then 0 else products[0].stock + StockUnits(products[1..])
  }

  /** `slice(-7)`: the last min(7, |s|) elements, in list order. */
  function Recent<T>(s: seq<T>): (r: seq<T>)
    ensures |r| == Min(ChartWindow, |s|)
    ensures s[..|s| - |r|] + r == s
  {
    s[|s| - Min(ChartWindow, |s|)..]
  }

  /** One bar of the revenue chart: name `#position`, the order's raw total. */
  datatype RevenuePoint = RevenuePoint(position: nat, revenue: Option<int>)
  /** One point of the volume chart: name `#position`, the order's number of lines. */
  datatype VolumePoint = VolumePoint(position: nat, items: nat)

  /** revenueChartData, frontend/src/pages/Admin.jsx:92-95. */
  function RevenueChartData(orders: seq<Order>): (r: seq<RevenuePoint>)
    ensures |r| == Min(ChartWindow, |orders|)
    ensures forall i :: 0 <= i < |r| ==>
      r[i].position == i + 1 && r[i].revenue == orders[|orders| - |r| + i].totalAmount
  {
    var w := Recent(orders);
    seq(|w|, i requires 0 <= i < |w| => RevenuePoint(i + 1, w[i].totalAmount))
  }

  /** orderVolumeData, frontend/src/pages/Admin.jsx:97-100: it counts lines,
      not quantities. */
  function VolumeChartData(orders: seq<Order>): (r: seq<VolumePoint>)
    ensures |r| == Min(ChartWindow, |orders|)
    ensures forall i :: 0 <= i < |r| ==>
      r[i].position == i + 1 && r[i].items == |orders[|orders| - |r| + i].lines|
  {
    var w := Recent(orders);
    seq(|w|, i requires 0 <= i < |w| => VolumePoint(i + 1, |w[i].lines|))
  }

  /** `item.quantity || 1`. */
  function QuantityOrOne(q: Option<int>): int {
    match q
    case Some(v) => if v == 0 then 1 else v
    case None => 1
  }

  /** An order's item total, frontend/src/pages/Admin.jsx:223. */
  function OrderItemCount(lines: seq<Line>): (n: int)
    ensures (forall i :: 0 <= i < |lines| ==> QuantityOrOne(lines[i].quantity) >= 1) ==> n >= |lines|
  {
    if lines == [] then 0 else QuantityOrOne(lines[0].quantity) + OrderItemCount(lines[1..])
  }

  /** Product `k` is the first product of the list with id `id`. */
  predicate FirstProductAt(products: seq<Product>, id: string, k: int) {
    0 <= k < |products| && products[k].id == id && forall j :: 0 <= j < k ==> products[j].id != id
  }

  /** `products.find(p => p._id === id)`: the first product with that id. */
  function FindProduct(products: seq<Product>, id: string): (r: Option<Product>)
    ensures r.None? <==> forall i :: 0 <= i < |products| ==> products[i].id != id
    ensures r.Some? ==> exists k :: FirstProductAt(products, id, k) && products[k] == r.value
  {
    if products == [] then None
    else if products[0].id == id then
      assert FirstProductAt(products, id, 0);
      Some(products[0])
    else
      var r := FindProduct(products[1..], id);
      assert forall i :: 1 <= i < |products| ==> products[i] == products[1..][i - 1];
      assert r.Some? ==> exists k :: FirstProductAt(products, id, k) && products[k] == r.value by {
        if r.Some? {
          var k :| FirstProductAt(products[1..], id, k) && products[1..][k] == r.value;
          assert FirstProductAt(products, id, k + 1);
        }
      }
      r
  }

  /** One rendered line of an expanded order. */
  datatype LineView = LineView(name: string, unitPrice: int, quantity: int, lineTotal: int)

  /** The rendering of an order line, frontend/src/pages/Admin.jsx:265-282. */
  function ViewLine(line: Line, products: seq<Product>): (v: LineView)
    ensures v.quantity == QuantityOrOne(line.quantity)
    ensures v.lineTotal == v.unitPrice * v.quantity
    ensures (forall i :: 0 <= i < |products| ==> products[i].id != line.productId) ==>
              v.name == RemovedProductName && v.unitPrice == 0 && v.lineTotal == 0
    ensures FindProduct(products, line.productId).Some? ==>
              var p := FindProduct(products, line.productId).value;
              && v.unitPrice == p.price
              && v.name == (if p.name == "" then RemovedProductName else p.name)
  {
    var q := QuantityOrOne(line.quantity);
    match FindProduct(products, line.productId)
    case None => LineView(RemovedProductName, 0, q, 0)
    case Some(p) => LineView(if p.name == "" then RemovedProductName else p.name, p.price, q, p.price * q)
  }

  /** The delete filter, frontend/src/pages/Admin.jsx:63. */
  function RemoveProduct(products: seq<Product>, id: string): (r: seq<Product>)
    ensures forall p :: p in r <==> p in products && p.id != id
    ensures forall p :: multiset(r)[p] == if p.id != id then multiset(products)[p] else 0
    ensures IsSubsequence(r, products)
  {
    if products == [] then []
    else
      assert products == [products[0]] + products[1..];
      if products[0].id != id then [products[0]] + RemoveProduct(products[1..], id)
      else RemoveProduct(products[1..], id)
  }

  /** The delete filter distributes over concatenation: it keeps every copy
      of a surviving product, in list order. */
  lemma {:induction false} RemoveProductConcat(a: seq<Product>, b: seq<Product>, id: string)
    ensures RemoveProduct(a + b, id) == RemoveProduct(a, id) + RemoveProduct(b, id)
  {
    if a == [] {
      assert a + b == b;
    } else {
      assert (a + b)[0] == a[0];
      assert (a + b)[1..] == a[1..] + b;
      RemoveProductConcat(a[1..], b, id);
    }
  }

  /** Deleting a product leaves every order intact; a line that referenced it
      now renders as the removed-product placeholder with a zero total. */
  lemma DeletedProductRendersRemoved(products: seq<Product>, line: Line)
    ensures var v := ViewLine(line, RemoveProduct(products, line.productId));
            v.name == RemovedProductName && v.unitPrice == 0 && v.lineTotal == 0
  {
    var rest := RemoveProduct(products, line.productId);
    forall i | 0 <= i < |rest| ensures rest[i].id != line.productId {
      assert rest[i] in rest;
    }
    assert FindProduct(rest, line.productId) == None;
  }

  /** Deleting products never raises the stock units when stocks are non-negative. */
  lemma {:induction false} RemoveProductStockUnits(products: seq<Product>, id: string)
    requires forall i :: 0 <= i < |products| ==> products[i].stock >= 0
    ensures StockUnits(RemoveProduct(products, id)) <= StockUnits(products)
  {
    if products != [] {
      assert forall i :: 0 <= i < |products[1..]| ==> products[1..][i] == products[i + 1];
      RemoveProductStockUnits(products[1..], id);
    }
  }

  /** toggleOrder's updater, frontend/src/pages/Admin.jsx:75-77. */
  function Toggle(expanded: Option<string>, id: string): (r: Option<string>)
    ensures r == Some(id) <==> expanded != Some(id)
    ensures r == None <==> expanded == Some(id)
  {
    if expanded == Some(id) then None else Some(id)
  }

  /** Toggling twice restores the state when nothing or that same order was
      open; when another order was open, it ends closed instead. */
  lemma ToggleTwice(expanded: Option<string>, id: string)
    ensures expanded == None || expanded == Some(id) ==> Toggle(Toggle(expanded, id), id) == expanded
    ensures expanded != None && expanded != Some(id) ==> Toggle(Toggle(expanded, id), id) == None
  {
  }

  /** The add-product form; `price` is kept as typed. */
  datatype ProductForm = ProductForm(name: string, description: string, price: string, image: string, stock: int)

  /** The form's initial and post-submission contents. */
  const DefaultForm: ProductForm := ProductForm("", "", "", "", 1)

  /** The dashboard's state. */
  class Dashboard {
    var orders: seq<Order>
    var products: seq<Product>
    var expandedOrderId: Option<string>
    var deleteTarget: Option<Product>
    var isDeleting: bool
    var form: ProductForm
    var isAdding: bool
    var addedProduct: Option<Product>

    /** The page after its initial fetch of orders and products. */
    constructor (orders: seq<Order>, products: seq<Product>)
      ensures this.orders == orders && this.products == products
      ensures expandedOrderId == None && deleteTarget == None && !isDeleting
      ensures form == DefaultForm && !isAdding && addedProduct == None
    {
      this.orders := orders;
      this.products := products;
      expandedOrderId := None;
      deleteTarget := None;
      isDeleting := false;
      form := DefaultForm;
      isAdding := false;
      addedProduct := None;
    }

    /** The Delete button of a product card opens the confirmation for `p`. */
    method RequestDelete(p: Product)
      modifies this
      ensures deleteTarget == Some(p)
      ensures products == old(products) && orders == old(orders) && isDeleting == old(isDeleting)
      ensures expandedOrderId == old(expandedOrderId)
      ensures form == old(form) && isAdding == old(isAdding) && addedProduct == old(addedProduct)
    {
      deleteTarget := Some(p);
    }

    /** cancelDelete, frontend/src/pages/Admin.jsx:73. */
    method CancelDelete()
      modifies this
      ensures deleteTarget == None
      ensures products == old(products) && orders == old(orders) && isDeleting == old(isDeleting)
      ensures expandedOrderId == old(expandedOrderId)
      ensures form == old(form) && isAdding == old(isAdding) && addedProduct == old(addedProduct)
    {
      deleteTarget := None;
    }

    /** confirmDelete, frontend/src/pages/Admin.jsx:58-71; `deleted` is the
        outcome of the DELETE request. */
    method ConfirmDelete(deleted: bool)
      modifies this
      ensures old(deleteTarget) == None ==> unchanged(this)
      ensures old(deleteTarget) != None ==>
        && deleteTarget == None && !isDeleting
        && products == (if deleted then RemoveProduct(old(products), old(deleteTarget).value.id) else old(products))
      ensures orders == old(orders) && expandedOrderId == old(expandedOrderId)
      ensures form == old(form) && addedProduct == old(addedProduct) && isAdding == old(isAdding)
    {
      if deleteTarget == None {
        return;
      }
      isDeleting := true;
      var target := deleteTarget.value;
      if deleted {
        products := RemoveProduct(products, target.id);
      }
      deleteTarget := None;
      isDeleting := false;
    }

    /** toggleOrder(orderId), frontend/src/pages/Admin.jsx:75-77. */
    method ToggleOrder(id: string)
      modifies this
      ensures expandedOrderId == Toggle(old(expandedOrderId), id)
      ensures orders == old(orders) && products == old(products) && deleteTarget == old(deleteTarget)
      ensures isDeleting == old(isDeleting)
      ensures form == old(form) && isAdding == old(isAdding) && addedProduct == old(addedProduct)
    {
      expandedOrderId := Toggle(expandedOrderId, id);
    }

    /** An edit of the add-product form. */
    method EditForm(f: ProductForm)
      modifies this
      ensures form == f && products == old(products) && orders == old(orders)
      ensures expandedOrderId == old(expandedOrderId) && deleteTarget == old(deleteTarget) && isDeleting == old(isDeleting)
      ensures isAdding == old(isAdding) && addedProduct == old(addedProduct)
    {
      form := f;
    }

    /** The add-product submission, frontend/src/pages/Admin.jsx:346-360;
        `created` is the product the POST answered with, `None` on failure. */
    method SubmitProduct(created: Option<Product>)
      modifies this
      ensures !isAdding
      ensures created.Some? ==>
        && products == [created.value] + old(products)
        && StockUnits(products) == StockUnits(old(products)) + created.value.stock
        && addedProduct == created && form == DefaultForm
      ensures created.None? ==>
        products == old(products) && addedProduct == old(addedProduct) && form == old(form)
      ensures orders == old(orders) && deleteTarget == old(deleteTarget)
      ensures expandedOrderId == old(expandedOrderId) && isDeleting == old(isDeleting)
    {
      isAdding := true;
      if created.Some? {
        products := [created.value] + products;
        assert products[1..] == old(products);
        addedProduct := created;
        form := DefaultForm;
      }
      isAdding := false;
    }

    /** The OK button of the "Product added" dialog. */
    method DismissAdded()
      modifies this
      ensures addedProduct == None && products == old(products) && orders == old(orders)
      ensures expandedOrderId == old(expandedOrderId) && deleteTarget == old(deleteTarget) && isDeleting == old(isDeleting)
      ensures form == old(form) && isAdding == old(isAdding)
    {
      addedProduct := None;
    }
  }
}
