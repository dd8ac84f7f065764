/** The client-side shopping cart held at the top of the storefront
    (frontend/src/App.jsx): an ordered list of (product snapshot, quantity)
    entries changed only by addToCart, updateCartQuantity and removeFromCart. */
module CartState {
  import opened Shop

  /** Some entry of `cart` is for the product with id `id`. */
  predicate InCart(cart: seq<CartItem>, id: string) {
    exists i :: 0 <= i < |cart| && cart[i].product.id == id
  }

  /** At most one entry per product id. */
  predicate UniqueIds(cart: seq<CartItem>) {
    forall i, j :: 0 <= i < j < |cart| ==> cart[i].product.id != cart[j].product.id
  }

  /** Every entry holds at least one unit and no more than the stock recorded
      in its own product snapshot. */
  predicate WithinStock(cart: seq<CartItem>) {
    forall i :: 0 <= i < |cart| ==> 1 <= cart[i].quantity <= cart[i].product.stock
  }

  /** The cart invariant the storefront relies on. */
  predicate WellFormed(cart: seq<CartItem>) {
    UniqueIds(cart) && WithinStock(cart)
  }

  /** Every snapshot of `p` that the cart holds records the same stock as `p`. */
  predicate SnapshotAgrees(cart: seq<CartItem>, p: Product) {
    forall i :: 0 <= i < |cart| && cart[i].product.id == p.id ==> cart[i].product.stock == p.stock
  }

  /** Entry `k` is the first entry of the cart for `id`. */
  predicate FirstEntryAt(cart: seq<CartItem>, id: string, k: int) {
    0 <= k < |cart| && cart[k].product.id == id && forall j :: 0 <= j < k ==> cart[j].product.id != id
  }

  /** The `find` in addToCart: the first entry for `id`, if any. */
  function FindEntry(cart: seq<CartItem>, id: string): (r: Option<CartItem>)
    ensures r.None? <==> !InCart(cart, id)
    ensures r.Some? ==> exists k :: FirstEntryAt(cart, id, k) && cart[k] == r.value
  {
    if cart == [] then None
    else if cart[0].product.id == id then
      assert FirstEntryAt(cart, id, 0);
      Some(cart[0])
    else
      var r := FindEntry(cart[1..], id);
      assert InCart(cart[1..], id) ==> InCart(cart, id) by {
        if InCart(cart[1..], id) {
          var i :| 0 <= i < |cart[1..]| && cart[1..][i].product.id == id;
          assert cart[i + 1].product.id == id;
        }
      }
      assert r.Some? ==> exists k :: FirstEntryAt(cart, id, k) && cart[k] == r.value by {
        if r.Some? {
          var k :| FirstEntryAt(cart[1..], id, k) && cart[1..][k] == r.value;
          forall j | 0 <= j < k + 1 ensures cart[j].product.id != id {
            if j > 0 {
              assert cart[j] == cart[1..][j - 1];
            }
          }
          assert FirstEntryAt(cart, id, k + 1);
        }
      }
      r
  }

  /** The entry `item` after the `map` of addToCart for `id`. */
  function Bump(item: CartItem, id: string, quantity: int): CartItem {
    if item.product.id == id then item.(quantity := item.quantity + quantity) else item
  }

  /** The `map` of addToCart: every entry for `id` gains `quantity` units. */
  function Increase(cart: seq<CartItem>, id: string, quantity: int): (r: seq<CartItem>)
    ensures |r| == |cart|
    ensures forall i :: 0 <= i < |cart| ==> r[i] == Bump(cart[i], id, quantity)
  {
    if cart == [] then [] else [Bump(cart[0], id, quantity)] + Increase(cart[1..], id, quantity)
  }

  /** addToCart(product, quantity), frontend/src/App.jsx:18-44. An entry
      already present is checked against the INCOMING product's stock but keeps
      its old snapshot; a new entry stores the incoming product. */
  function AddToCart(cart: seq<CartItem>, product: Product, quantity: int): (r: seq<CartItem>)
    ensures quantity <= 0 || !HasId(product) ==> r == cart
    ensures |r| == |cart| || r == cart + [CartItem(product, quantity)]
  {
    if quantity <= 0 || !HasId(product) then cart
    else match FindEntry(cart, product.id)
      case Some(existing) =>
        if existing.quantity + quantity > product.stock then cart
        else Increase(cart, product.id, quantity)
      case None =>
        if quantity > product.stock then cart
        else cart + [CartItem(product, quantity)]
  }

  /** The entry `item` after the `map` of updateCartQuantity for `id`. */
  function Reset(item: CartItem, id: string, n: int): CartItem {
    if item.product.id == id then
      if n > item.product.stock then item else item.(quantity := n)
    else item
  }

  /** The `map` of updateCartQuantity. */
  function SetQuantity(cart: seq<CartItem>, id: string, n: int): (r: seq<CartItem>)
    ensures |r| == |cart|
    ensures forall i :: 0 <= i < |cart| ==> r[i] == Reset(cart[i], id, n)
  {
    if cart == [] then [] else [Reset(cart[0], id, n)] + SetQuantity(cart[1..], id, n)
  }

  /** removeFromCart(productId), frontend/src/App.jsx:66-68: the `filter`
      keeping every entry whose product id differs. */
  function RemoveFromCart(cart: seq<CartItem>, id: string): (r: seq<CartItem>)
    ensures forall e :: e in r <==> e in cart && e.product.id != id
    ensures !InCart(r, id)
    ensures IsSubsequence(r, cart)
  {
    if cart == [] then []
    else if cart[0].product.id != id then [cart[0]] + RemoveFromCart(cart[1..], id)
    else RemoveFromCart(cart[1..], id)
  }

  /** updateCartQuantity(productId, newQuantity), frontend/src/App.jsx:46-64. */
  function UpdateCartQuantity(cart: seq<CartItem>, id: string, n: int): (r: seq<CartItem>)
    ensures n <= 0 ==> r == RemoveFromCart(cart, id)
    ensures n > 0 ==> |r| == |cart| && forall i :: 0 <= i < |cart| ==> r[i].product == cart[i].product
  {
    if n <= 0 then RemoveFromCart(cart, id) else SetQuantity(cart, id, n)
  }

  /** The badge count, frontend/src/App.jsx:72: the sum of the quantities. */
  function CartCount(cart: seq<CartItem>): (n: int)
    ensures (forall i :: 0 <= i < |cart| ==> cart[i].quantity >= 1) ==> n >= |cart|
  {
    if cart == [] then 0 else cart[0].quantity + CartCount(cart[1..])
  }

  // ----- addToCart -----

  lemma UniqueFind(cart: seq<CartItem>, k: nat)
    requires UniqueIds(cart) && k < |cart|
    ensures FindEntry(cart, cart[k].product.id) == Some(cart[k])
  {
    var r := FindEntry(cart, cart[k].product.id);
    assert InCart(cart, cart[k].product.id);
    var j :| 0 <= j < |cart| && cart[j] == r.value && cart[j].product.id == cart[k].product.id;
    assert j == k;
  }

  /** Merging into the entry at `k`: when the merged quantity fits the incoming
      stock, only that entry's quantity grows and it keeps its old snapshot;
      otherwise the cart is unchanged. */
  lemma AddToExisting(cart: seq<CartItem>, product: Product, quantity: int, k: nat)
    requires UniqueIds(cart) && k < |cart| && cart[k].product.id == product.id
    requires quantity > 0 && HasId(product)
    ensures AddToCart(cart, product, quantity) ==
      if cart[k].quantity + quantity > product.stock then cart
      else cart[k := CartItem(cart[k].product, cart[k].quantity + quantity)]
  {
    UniqueFind(cart, k);
    if cart[k].quantity + quantity <= product.stock {
      var r := Increase(cart, product.id, quantity);
      var s := cart[k := CartItem(cart[k].product, cart[k].quantity + quantity)];
      assert |r| == |s|;
      forall i | 0 <= i < |s| ensures r[i] == s[i] {
        if i != k {
          assert cart[i].product.id != product.id;
        }
      }
    }
  }

  /** Adding a product the cart does not hold appends `{product, quantity}`
      at the end, or leaves the cart unchanged when stock is insufficient. */
  lemma AddNew(cart: seq<CartItem>, product: Product, quantity: int)
    requires !InCart(cart, product.id) && quantity > 0 && HasId(product)
    ensures AddToCart(cart, product, quantity) ==
      if quantity > product.stock then cart else cart + [CartItem(product, quantity)]
  {
  }

  /** addToCart keeps at most one entry per product id. */
  lemma AddPreservesUniqueIds(cart: seq<CartItem>, product: Product, quantity: int)
    requires UniqueIds(cart)
    ensures UniqueIds(AddToCart(cart, product, quantity))
  {
    var r := AddToCart(cart, product, quantity);
    if quantity > 0 && HasId(product) {
      if InCart(cart, product.id) {
        var k :| 0 <= k < |cart| && cart[k].product.id == product.id;
        AddToExisting(cart, product, quantity, k);
      } else {
        AddNew(cart, product, quantity);
        if r != cart {
          forall i, j | 0 <= i < j < |r| ensures r[i].product.id != r[j].product.id {
            if j == |cart| {
              assert r[i] == cart[i];
            }
          }
        }
      }
    }
  }

  /** The stock bound survives addToCart when the incoming product's stock
      agrees with the snapshot already stored for it. */
  lemma AddPreservesWellFormed(cart: seq<CartItem>, product: Product, quantity: int)
    requires WellFormed(cart) && SnapshotAgrees(cart, product)
    ensures WellFormed(AddToCart(cart, product, quantity))
  {
    AddPreservesUniqueIds(cart, product, quantity);
    var r := AddToCart(cart, product, quantity);
    if quantity > 0 && HasId(product) {
      if InCart(cart, product.id) {
        var k :| 0 <= k < |cart| && cart[k].product.id == product.id;
        AddToExisting(cart, product, quantity, k);
      } else {
        AddNew(cart, product, quantity);
      }
    }
  }

  /** With a stale snapshot the bound breaks: the check uses the incoming
      stock (5) while the entry keeps its stored stock (1). */
  lemma StaleSnapshotBreaksStockBound()
    ensures var stale := Product("p1", "Mug", 10, 1);
            var incoming := Product("p1", "Mug", 10, 5);
            var cart := [CartItem(stale, 1)];
            WellFormed(cart) && !WellFormed(AddToCart(cart, incoming, 2))
  {
    var stale := Product("p1", "Mug", 10, 1);
    var incoming := Product("p1", "Mug", 10, 5);
    var cart := [CartItem(stale, 1)];
    AddToExisting(cart, incoming, 2, 0);
    assert AddToCart(cart, incoming, 2)[0].quantity == 3;
  }

  // ----- removeFromCart -----

  lemma RemoveAbsent(cart: seq<CartItem>, id: string)
    requires !InCart(cart, id)
    ensures RemoveFromCart(cart, id) == cart
  {
    if cart != [] {
      assert cart[0].product.id != id;
      forall i | 0 <= i < |cart[1..]| ensures cart[1..][i].product.id != id {
        assert cart[1..][i] == cart[i + 1];
      }
      RemoveAbsent(cart[1..], id);
      assert cart == [cart[0]] + cart[1..];
    }
  }

  /** The filter distributes over concatenation: relative order is kept. */
  lemma {:induction false} RemoveDistributes(a: seq<CartItem>, b: seq<CartItem>, id: string)
    ensures RemoveFromCart(a + b, id) == RemoveFromCart(a, id) + RemoveFromCart(b, id)
  {
    if a == [] {
      assert a + b == b;
    } else {
      assert (a + b)[0] == a[0];
      assert (a + b)[1..] == a[1..] + b;
      RemoveDistributes(a[1..], b, id);
    }
  }

  /** Removing twice is removing once. */
  lemma RemoveIdempotent(cart: seq<CartItem>, id: string)
    ensures RemoveFromCart(RemoveFromCart(cart, id), id) == RemoveFromCart(cart, id)
  {
    RemoveAbsent(RemoveFromCart(cart, id), id);
  }

  /** In a cart with unique ids, no entry other than `k` carries `k`'s id. */
  lemma AbsentElsewhere(cart: seq<CartItem>, k: nat)
    requires UniqueIds(cart) && k < |cart|
    ensures !InCart(cart[..k], cart[k].product.id) && !InCart(cart[k + 1..], cart[k].product.id)
  {
    var pre, post := cart[..k], cart[k + 1..];
    forall i | 0 <= i < |pre| ensures pre[i].product.id != cart[k].product.id {
      assert pre[i] == cart[i];
    }
    forall i | 0 <= i < |post| ensures post[i].product.id != cart[k].product.id {
      assert post[i] == cart[k + 1 + i];
    }
  }

  /** Removing an id held by `x` alone drops `x` and keeps what surrounds it. */
  lemma RemoveMiddle(pre: seq<CartItem>, x: CartItem, post: seq<CartItem>)
    requires !InCart(pre, x.product.id) && !InCart(post, x.product.id)
    ensures RemoveFromCart(pre + [x] + post, x.product.id) == pre + post
  {
    var id := x.product.id;
    var head := pre + [x];
    RemoveDistributes(head, post, id);
    RemoveDistributes(pre, [x], id);
    RemoveAbsent(pre, id);
    RemoveAbsent(post, id);
    assert RemoveFromCart([x], id) == [];
    assert RemoveFromCart(head, id) == pre + [];
    assert pre + [] == pre;
  }

  /** In a cart with unique ids, removing the id of entry `k` deletes exactly
      that entry and keeps the others in order. */
  lemma RemoveAt(cart: seq<CartItem>, k: nat)
    requires UniqueIds(cart) && k < |cart|
    ensures RemoveFromCart(cart, cart[k].product.id) == cart[..k] + cart[k + 1..]
  {
    AbsentElsewhere(cart, k);
    assert cart == cart[..k] + [cart[k]] + cart[k + 1..];
    RemoveMiddle(cart[..k], cart[k], cart[k + 1..]);
  }

  lemma SubsequenceUnique(a: seq<CartItem>, b: seq<CartItem>)
    requires IsSubsequence(a, b) && UniqueIds(b)
    ensures UniqueIds(a) && forall e :: e in a ==> e in b
    decreases |b|
  {
    if a != [] && b != [] {
      assert UniqueIds(b[1..]) by {
        forall i, j | 0 <= i < j < |b[1..]| ensures b[1..][i].product.id != b[1..][j].product.id {
          assert b[1..][i] == b[i + 1] && b[1..][j] == b[j + 1];
        }
      }
      if a[0] == b[0] && IsSubsequence(a[1..], b[1..]) {
        SubsequenceUnique(a[1..], b[1..]);
        forall i, j | 0 <= i < j < |a| ensures a[i].product.id != a[j].product.id {
          if i == 0 {
            assert a[j] == a[1..][j - 1];
            assert a[j] in a[1..];
            assert a[j] in b[1..];
            var m :| 0 <= m < |b[1..]| && b[1..][m] == a[j];
            assert b[m + 1] == a[j];
          } else {
            assert a[i] == a[1..][i - 1] && a[j] == a[1..][j - 1];
          }
        }
        assert a == [a[0]] + a[1..];
      } else {
        SubsequenceUnique(a, b[1..]);
      }
    }
  }

  /** removeFromCart keeps the cart invariant. */
  lemma RemovePreservesWellFormed(cart: seq<CartItem>, id: string)
    requires WellFormed(cart)
    ensures WellFormed(RemoveFromCart(cart, id))
  {
    var r := RemoveFromCart(cart, id);
    SubsequenceUnique(r, cart);
    forall i | 0 <= i < |r| ensures 1 <= r[i].quantity <= r[i].product.stock {
      assert r[i] in cart;
    }
  }

  // ----- updateCartQuantity -----

  /** In a cart with unique ids, a positive quantity for entry `k` replaces
      that entry's quantity when it fits the STORED snapshot's stock, and
      otherwise leaves the cart unchanged. */
  lemma UpdateAt(cart: seq<CartItem>, n: int, k: nat)
    requires UniqueIds(cart) && k < |cart| && n > 0
    ensures UpdateCartQuantity(cart, cart[k].product.id, n) ==
      if n > cart[k].product.stock then cart else cart[k := cart[k].(quantity := n)]
  {
    var id := cart[k].product.id;
    var r := UpdateCartQuantity(cart, id, n);
    var s := if n > cart[k].product.stock then cart else cart[k := cart[k].(quantity := n)];
    forall i | 0 <= i < |s| ensures r[i] == s[i] {
      if i != k {
        assert cart[i].product.id != id;
      }
    }
  }

  /** Updating an id the cart does not hold to a positive quantity changes nothing. */
  lemma UpdateAbsent(cart: seq<CartItem>, id: string, n: int)
    requires !InCart(cart, id) && n > 0
    ensures UpdateCartQuantity(cart, id, n) == cart
  {
    var r := UpdateCartQuantity(cart, id, n);
    forall i | 0 <= i < |cart| ensures r[i] == cart[i] {
      assert cart[i].product.id != id;
    }
  }

  /** updateCartQuantity keeps the cart invariant whatever the new quantity. */
  lemma UpdatePreservesWellFormed(cart: seq<CartItem>, id: string, n: int)
    requires WellFormed(cart)
    ensures WellFormed(UpdateCartQuantity(cart, id, n))
  {
    if n <= 0 {
      RemovePreservesWellFormed(cart, id);
    } else {
      var r := UpdateCartQuantity(cart, id, n);
      forall i | 0 <= i < |r| ensures 1 <= r[i].quantity <= r[i].product.stock {
        assert r[i] == Reset(cart[i], id, n);
      }
    }
  }

  // ----- the badge count -----

  lemma {:induction false} CountConcat(a: seq<CartItem>, b: seq<CartItem>)
    ensures CartCount(a + b) == CartCount(a) + CartCount(b)
  {
    if a == [] {
      assert a + b == b;
    } else {
      assert (a + b)[1..] == a[1..] + b;
      CountConcat(a[1..], b);
    }
  }

  lemma CountReplace(cart: seq<CartItem>, k: nat, x: CartItem)
    requires k < |cart|
    ensures CartCount(cart[k := x]) == CartCount(cart) - cart[k].quantity + x.quantity
  {
    assert cart == cart[..k] + ([cart[k]] + cart[k + 1..]);
    assert cart[k := x] == cart[..k] + ([x] + cart[k + 1..]);
    CountConcat(cart[..k], [cart[k]] + cart[k + 1..]);
    CountConcat([cart[k]], cart[k + 1..]);
    CountConcat(cart[..k], [x] + cart[k + 1..]);
    CountConcat([x], cart[k + 1..]);
  }

  /** An accepted addToCart raises the badge count by exactly `quantity`. */
  lemma AddCount(cart: seq<CartItem>, product: Product, quantity: int)
    requires UniqueIds(cart)
    ensures var r := AddToCart(cart, product, quantity);
            r == cart || CartCount(r) == CartCount(cart) + quantity
  {
    if quantity > 0 && HasId(product) {
      if InCart(cart, product.id) {
        var k :| 0 <= k < |cart| && cart[k].product.id == product.id;
        AddToExisting(cart, product, quantity, k);
        CountReplace(cart, k, CartItem(cart[k].product, cart[k].quantity + quantity));
      } else {
        AddNew(cart, product, quantity);
        CountConcat(cart, [CartItem(product, quantity)]);
      }
    }
  }

  lemma CountSplit(cart: seq<CartItem>, k: nat)
    requires k < |cart|
    ensures CartCount(cart) == CartCount(cart[..k]) + cart[k].quantity + CartCount(cart[k + 1..])
  {
    assert cart == cart[..k] + ([cart[k]] + cart[k + 1..]);
    CountConcat(cart[..k], [cart[k]] + cart[k + 1..]);
    CountConcat([cart[k]], cart[k + 1..]);
  }

  /** Removing entry `k` lowers the badge count by that entry's quantity. */
  lemma RemoveCount(cart: seq<CartItem>, k: nat)
    requires UniqueIds(cart) && k < |cart|
    ensures CartCount(RemoveFromCart(cart, cart[k].product.id)) == CartCount(cart) - cart[k].quantity
  {
    RemoveAt(cart, k);
    CountSplit(cart, k);
    CountConcat(cart[..k], cart[k + 1..]);
  }

  /** The cart state held by the storefront root; `setCart` replaces `items`. */
  class Cart {
    var items: seq<CartItem>

    constructor ()
      ensures items == []
    {
      items := [];
    }

    method Add(product: Product, quantity: int)
      modifies this
      ensures items == AddToCart(old(items), product, quantity)
      ensures WellFormed(old(items)) && SnapshotAgrees(old(items), product) ==> WellFormed(items)
    {
      if WellFormed(items) && SnapshotAgrees(items, product) {
        AddPreservesWellFormed(items, product, quantity);
      }
      items := AddToCart(items, product, quantity);
    }

    method UpdateQuantity(id: string, n: int)
      modifies this
      ensures items == UpdateCartQuantity(old(items), id, n)
      ensures WellFormed(old(items)) ==> WellFormed(items)
    {
      if WellFormed(items) {
        UpdatePreservesWellFormed(items, id, n);
      }
      items := UpdateCartQuantity(items, id, n);
    }

    method Remove(id: string)
      modifies this
      ensures items == RemoveFromCart(old(items), id)
      ensures WellFormed(old(items)) ==> WellFormed(items)
    {
      if WellFormed(items) {
        RemovePreservesWellFormed(items, id);
      }
      items := RemoveFromCart(items, id);
    }

    /** `setCart([])`, used by the cart page. */
    method Clear()
      modifies this
      ensures items == []
    {
      items := [];
    }
  }
}
