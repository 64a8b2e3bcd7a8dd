/** Checkout and order access. Checkout turns a user's non-empty cart into an
    order snapshot whose total is priced from the catalog at checkout time,
    saves the order, then deletes the cart. Stock is not touched. */
module Orders {
  import opened Http
  import opened Products
  import opened Cart

  /** An order: its owner, the (product id, quantity) lines copied from the
      cart, the total, the status and the creation time. */
  datatype Order = Order(user: string, items: seq<Line>, totalAmount: int, status: string, orderedAt: int)

  /** The status a new order is stored with (the schema default). */
  const PlacedStatus: string := "placed"

  /** Every line's product is in the catalog, so `populate` resolves it. */
  predicate Priced(items: seq<Line>, products: map<string, Product>) {
    forall k :: 0 <= k < |items| ==> items[k].product in products
  }

  /** The sum over lines of the product's current price times the line's
      quantity. With no negative price or quantity the total is not negative. */
  function Total(items: seq<Line>, products: map<string, Product>): (t: int)
    requires Priced(items, products)
    ensures (forall k :: 0 <= k < |items| ==> items[k].quantity >= 0 && products[items[k].product].price >= 0) ==>
      t >= 0
  {
    if |items| == 0 then 0
    else
      var last := items[|items| - 1];
      Total(items[..|items| - 1], products) + products[last.product].price * last.quantity
  }

  /** The total of a concatenation is the sum of the totals. */
  lemma {:induction false} TotalAppend(a: seq<Line>, b: seq<Line>, products: map<string, Product>)
    requires Priced(a, products) && Priced(b, products)
    ensures Priced(a + b, products)
    ensures Total(a + b, products) == Total(a, products) + Total(b, products)
    decreases |b|
  {
    assert Priced(a + b, products);
    if |b| == 0 {
      assert a + b == a;
    } else {
      var b' := b[..|b| - 1];
      assert (a + b)[..|a + b| - 1] == a + b';
      assert (a + b)[|a + b| - 1] == b[|b| - 1];
      TotalAppend(a, b', products);
    }
  }

  /** Two lines priced 10 x 2 and 5 x 1 total 25. */
  lemma TotalExample(p1: string, p2: string, products: map<string, Product>)
    requires p1 in products && p2 in products
    requires products[p1].price == 10 && products[p2].price == 5
    ensures Priced([Line(p1, 2), Line(p2, 1)], products)
    ensures Total([Line(p1, 2), Line(p2, 1)], products) == 25
  {
    var items := [Line(p1, 2), Line(p2, 1)];
    assert items[..1] == [Line(p1, 2)];
    assert [Line(p1, 2)][..0] == [];
    assert Total([Line(p1, 2)], products) == 20;
  }

  /** `getOrderHistory`: exactly the orders the requester owns. */
  function OrderHistory(orders: map<string, Order>, user: string): (r: map<string, Order>)
    ensures forall id :: id in r <==> id in orders && orders[id].user == user
    ensures forall id :: id in r ==> r[id] == orders[id]
  {
    map id | id in orders && orders[id].user == user :: orders[id]
  }

  /** `getOrderDetails`: 404 for an unknown order id, checked first; 403 for
      an order someone else owns; otherwise the order. */
  function OrderDetails(orders: map<string, Order>, orderId: string, user: string): (r: Result<Order>)
    ensures orderId !in orders ==> r == Failure(NotFound, "Order not found")
    ensures orderId in orders && orders[orderId].user != user ==>
      r == Failure(Forbidden, "Unauthorized access to order details")
    ensures r.Success? <==> orderId in orders && orders[orderId].user == user
    ensures r.Success? ==> r.status == Ok && r.value == orders[orderId]
  {
    if orderId !in orders then Failure(NotFound, "Order not found")
    else if orders[orderId].user != user then Failure(Forbidden, "Unauthorized access to order details")
    else Success(Ok, "", orders[orderId])
  }

  /** Whether a user has a cart with lines, the precondition of checkout. */
  predicate HasItems(carts: map<string, seq<Line>>, user: string) {
    user in carts && |carts[user]| > 0
  }

  /** The message of checkout's 404. */
  const EmptyCartMessage: string := "Cart not found. Please add items to your cart first."

  /** The order store. */
  class OrderStore {
    var orders: map<string, Order>

    constructor ()
      ensures orders == map[]
    {
      orders := map[];
    }

    /** `placeOrder`: 404 without a cart with lines; a server error when a
        line's product is gone from the catalog (populate leaves null and
        reading its price throws); otherwise the order is saved under the
        fresh id and then the user's cart is deleted. The catalog is only read. */
    method PlaceOrder(carts: CartStore, catalog: Catalog, user: string, newId: string, now: int)
      returns (r: Result<Order>)
      requires newId !in orders
      modifies this, carts
      ensures catalog.products == old(catalog.products)
      ensures !HasItems(old(carts.carts), user) ==>
        r == Failure(NotFound, EmptyCartMessage) && orders == old(orders) && carts.carts == old(carts.carts)
      ensures HasItems(old(carts.carts), user) && !Priced(old(carts.carts)[user], catalog.products) ==>
        r == Failure(InternalError, "An error occurred while placing the order") &&
        orders == old(orders) && carts.carts == old(carts.carts)
      ensures HasItems(old(carts.carts), user) && Priced(old(carts.carts)[user], catalog.products) ==>
        var items := old(carts.carts)[user];
        var order := Order(user, items, Total(items, catalog.products), PlacedStatus, now);
        r == Success(Ok, "Order placed successfully", order) &&
        orders == old(orders)[newId := order] &&
        carts.carts == old(carts.carts) - {user}
    {
      if user !in carts.carts || |carts.carts[user]| == 0 {
        return Failure(NotFound, EmptyCartMessage);
      }
      var items := carts.carts[user];
      var products := catalog.products;
      var totalAmount := 0;
      var i := 0;
      while i < |items|
        invariant 0 <= i <= |items|
        invariant Priced(items[..i], products)
        invariant totalAmount == Total(items[..i], products)
      {
        var item := items[i];
        if item.product !in products {
          return Failure(InternalError, "An error occurred while placing the order");
        }
        assert items[..i + 1][..i] == items[..i];
        totalAmount := totalAmount + products[item.product].price * item.quantity;
        i := i + 1;
      }
      assert items[..i] == items;
      var order := Order(user, items, totalAmount, PlacedStatus, now);
      orders := orders[newId := order];
      carts.carts := carts.carts - {user};
      r := Success(Ok, "Order placed successfully", order);
    }
  }

  /** After a successful checkout the user has no cart, so checking out again
      reports 404 and saves no second order. */
  method CheckoutTwice(store: OrderStore, carts: CartStore, catalog: Catalog, user: string,
                       firstId: string, secondId: string, now: int)
    returns (first: Result<Order>, second: Result<Order>)
    requires firstId !in store.orders && secondId !in store.orders && firstId != secondId
    modifies store, carts
    ensures first.Success? ==> second == Failure(NotFound, EmptyCartMessage)
    ensures first.Success? ==> store.orders == old(store.orders)[firstId := first.value]
  {
    first := store.PlaceOrder(carts, catalog, user, firstId, now);
    second := store.PlaceOrder(carts, catalog, user, secondId, now);
  }
}
