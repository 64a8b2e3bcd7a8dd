/** The per-user shopping cart: an ordered list of (product id, quantity)
    lines, one cart per user. Adding merges into the first line for the same
    product or appends a line; decrementing takes one unit off the first
    matching line and drops a line that reaches zero; removing deletes the
    first matching line. Product ids are compared as strings. */
module Cart {
  import opened Http
  import opened Products

  /** One cart line. */
  datatype Line = Line(product: string, quantity: int)

  /** The index of the first line for `pid`, or -1 when there is none
      (`Array.prototype.findIndex`). */
  function FirstIndex(items: seq<Line>, pid: string): (i: int)
    ensures -1 <= i < |items|
    ensures i == -1 <==> forall k :: 0 <= k < |items| ==> items[k].product != pid
    ensures 0 <= i ==> items[i].product == pid && forall k :: 0 <= k < i ==> items[k].product != pid
  {
    if |items| == 0 then -1
    else if items[0].product == pid then 0
    else
      var j := FirstIndex(items[1..], pid);
      if j == -1 then -1 else j + 1
  }

  /** The scan the handlers run over a cart's lines to find the product. */
  method FindLine(items: seq<Line>, pid: string) returns (i: int)
    ensures i == FirstIndex(items, pid)
  {
    i := 0;
    while i < |items|
      invariant 0 <= i <= |items|
      invariant forall k :: 0 <= k < i ==> items[k].product != pid
    {
      if items[i].product == pid {
        return;
      }
      i := i + 1;
    }
    i := -1;
  }

  /** At most one line per product id. */
  predicate UniqueProducts(items: seq<Line>) {
    forall i, j :: 0 <= i < j < |items| ==> items[i].product != items[j].product
  }

  /** The quantity an add request asks for: a missing or zero (falsy)
      quantity counts as 1; any other value, negative ones included, is kept. */
  function RequestedQuantity(quantity: Option<int>): (q: int)
    ensures q != 0
    ensures quantity.Some? && quantity.value != 0 ==> q == quantity.value
    ensures quantity.None? || quantity.value == 0 ==> q == 1
  {
    if quantity.None? || quantity.value == 0 then 1 else quantity.value
  }

  /** The lines of an existing cart after adding `q` units of `pid`. */
  function AddLine(items: seq<Line>, pid: string, q: int): (r: seq<Line>)
    ensures FirstIndex(items, pid) == -1 ==> r == items + [Line(pid, q)]
    ensures 0 <= FirstIndex(items, pid) ==> |r| == |items|
    ensures 0 <= FirstIndex(items, pid) ==>
      var i := FirstIndex(items, pid);
      r[i] == Line(pid, items[i].quantity + q) &&
      forall k :: 0 <= k < |items| && k != i ==> r[k] == items[k]
  {
    var i := FirstIndex(items, pid);
    if i == -1 then items + [Line(pid, q)]
    else items[i := items[i].(quantity := items[i].quantity + q)]
  }

  /** The lines without line `i`; the others keep their order. */
  function RemoveAt(items: seq<Line>, i: nat): (r: seq<Line>)
    requires i < |items|
    ensures |r| == |items| - 1
    ensures forall k :: 0 <= k < i ==> r[k] == items[k]
    ensures forall k :: i <= k < |r| ==> r[k] == items[k + 1]
    ensures multiset(r) + multiset{items[i]} == multiset(items)
  {
    assert items == items[..i] + [items[i]] + items[i + 1..];
    items[..i] + items[i + 1..]
  }

  /** The lines after taking one unit from line `i`: a positive quantity drops
      by one and a line that reaches 0 is removed; a quantity of 0 or less is
      left alone. */
  function DecrementAt(items: seq<Line>, i: nat): (r: seq<Line>)
    requires i < |items|
    ensures items[i].quantity <= 0 ==> r == items
    ensures items[i].quantity == 1 ==> r == RemoveAt(items, i)
    ensures items[i].quantity > 1 ==>
      |r| == |items| && r[i] == Line(items[i].product, items[i].quantity - 1) &&
      forall k :: 0 <= k < |items| && k != i ==> r[k] == items[k]
  {
    if items[i].quantity > 0 then
      var left := items[i].quantity - 1;
      if left == 0 then RemoveAt(items, i) else items[i := items[i].(quantity := left)]
    else items
  }

  /** The quantity of `pid` a line contributes. */
  function Units(line: Line, pid: string): int {
    if line.product == pid then line.quantity else 0
  }

  /** The total quantity of `pid` over all lines: the cart seen as a bag. */
  function QuantityOf(items: seq<Line>, pid: string): int {
    if |items| == 0 then 0 else Units(items[0], pid) + QuantityOf(items[1..], pid)
  }

  lemma {:induction false} QuantityOfAppend(a: seq<Line>, b: seq<Line>, pid: string)
    ensures QuantityOf(a + b, pid) == QuantityOf(a, pid) + QuantityOf(b, pid)
  {
    if |a| > 0 {
      assert (a + b)[1..] == a[1..] + b;
      QuantityOfAppend(a[1..], b, pid);
    } else {
      assert a + b == b;
    }
  }

  lemma {:induction false} QuantityOfUpdate(items: seq<Line>, i: nat, line: Line, pid: string)
    requires i < |items|
    ensures QuantityOf(items[i := line], pid) == QuantityOf(items, pid) - Units(items[i], pid) + Units(line, pid)
  {
    if i > 0 {
      assert items[i := line][1..] == items[1..][i - 1 := line];
      QuantityOfUpdate(items[1..], i - 1, line, pid);
    } else {
      assert items[i := line][1..] == items[1..];
    }
  }

  lemma QuantityOfRemoveAt(items: seq<Line>, i: nat, pid: string)
    requires i < |items|
    ensures QuantityOf(RemoveAt(items, i), pid) == QuantityOf(items, pid) - Units(items[i], pid)
  {
    assert items == items[..i] + ([items[i]] + items[i + 1..]);
    QuantityOfAppend(items[..i], [items[i]] + items[i + 1..], pid);
    QuantityOfAppend(items[..i], items[i + 1..], pid);
    assert ([items[i]] + items[i + 1..])[1..] == items[i + 1..];
  }

  /** With one line per product, the product's quantity is that line's. */
  lemma {:induction false} QuantityOfUnique(items: seq<Line>, i: nat)
    requires UniqueProducts(items) && i < |items|
    ensures QuantityOf(items, items[i].product) == items[i].quantity
  {
    var pid := items[i].product;
    if i > 0 {
      QuantityOfUnique(items[1..], i - 1);
    } else {
      QuantityOfAbsent(items[1..], pid);
    }
  }

  lemma {:induction false} QuantityOfAbsent(items: seq<Line>, pid: string)
    requires forall k :: 0 <= k < |items| ==> items[k].product != pid
    ensures QuantityOf(items, pid) == 0
  {
    if |items| > 0 {
      QuantityOfAbsent(items[1..], pid);
    }
  }

  /** Adding `q` units of `pid` raises the cart's quantity of `pid` by `q`
      and leaves every other product's quantity alone. */
  lemma AddLineQuantity(items: seq<Line>, pid: string, q: int, other: string)
    ensures QuantityOf(AddLine(items, pid, q), other) ==
      QuantityOf(items, other) + (if other == pid then q else 0)
  {
    var i := FirstIndex(items, pid);
    if i == -1 {
      QuantityOfAppend(items, [Line(pid, q)], other);
      assert [Line(pid, q)][1..] == [];
    } else {
      QuantityOfUpdate(items, i, items[i].(quantity := items[i].quantity + q), other);
    }
  }

  /** Decrementing `pid` takes exactly one unit of it from a cart whose first
      matching line is positive, none otherwise; other products are untouched. */
  lemma DecrementQuantityOf(items: seq<Line>, pid: string, other: string)
    requires 0 <= FirstIndex(items, pid)
    ensures var i := FirstIndex(items, pid);
      QuantityOf(DecrementAt(items, i), other) ==
        QuantityOf(items, other) - (if other == pid && items[i].quantity > 0 then 1 else 0)
  {
    var i := FirstIndex(items, pid);
    if items[i].quantity == 1 {
      QuantityOfRemoveAt(items, i, other);
    } else if items[i].quantity > 1 {
      QuantityOfUpdate(items, i, items[i].(quantity := items[i].quantity - 1), other);
    }
  }

  /** In a cart with one line per product, removing `pid` leaves none of it
      and every other product's quantity as it was. */
  lemma RemoveQuantityOf(items: seq<Line>, pid: string, other: string)
    requires UniqueProducts(items) && 0 <= FirstIndex(items, pid)
    ensures QuantityOf(RemoveAt(items, FirstIndex(items, pid)), other) ==
      if other == pid then 0 else QuantityOf(items, other)
  {
    var i := FirstIndex(items, pid);
    QuantityOfRemoveAt(items, i, other);
    if other == pid {
      QuantityOfUnique(items, i);
    }
  }

  /** Add keeps "at most one line per product". */
  lemma AddKeepsUnique(items: seq<Line>, pid: string, q: int)
    requires UniqueProducts(items)
    ensures UniqueProducts(AddLine(items, pid, q))
  {
    var r := AddLine(items, pid, q);
    if FirstIndex(items, pid) >= 0 {
      forall i, j | 0 <= i < j < |r| ensures r[i].product != r[j].product {
        assert r[i].product == items[i].product && r[j].product == items[j].product;
      }
    }
  }

  /** Remove keeps "at most one line per product". */
  lemma RemoveKeepsUnique(items: seq<Line>, i: nat)
    requires UniqueProducts(items) && i < |items|
    ensures UniqueProducts(RemoveAt(items, i))
  {
    var r := RemoveAt(items, i);
    forall a, b | 0 <= a < b < |r| ensures r[a].product != r[b].product {
      var a' := if a < i then a else a + 1;
      var b' := if b < i then b else b + 1;
      assert r[a] == items[a'] && r[b] == items[b'];
    }
  }

  /** Decrement keeps "at most one line per product". */
  lemma DecrementKeepsUnique(items: seq<Line>, i: nat)
    requires UniqueProducts(items) && i < |items|
    ensures UniqueProducts(DecrementAt(items, i))
  {
    if items[i].quantity == 1 {
      RemoveKeepsUnique(items, i);
    }
  }

  /** Adding 2 then 3 of one product to a user with no cart gives a single
      line of 5. */
  lemma AddTwiceMerges(pid: string)
    ensures AddLine([Line(pid, 2)], pid, 3) == [Line(pid, 5)]
  {
    assert FirstIndex([Line(pid, 2)], pid) == 0;
  }

  /** Decrementing a line of quantity 1 removes it; the other lines stay in order. */
  lemma DecrementLastUnitRemovesLine(a: Line, pid: string, b: Line)
    requires a.product != pid
    ensures FirstIndex([a, Line(pid, 1), b], pid) == 1
    ensures DecrementAt([a, Line(pid, 1), b], 1) == [a, b]
  {
    var items := [a, Line(pid, 1), b];
    assert FirstIndex(items, pid) == 1;
    assert items[..1] + items[2..] == [a, b];
  }

  /** Removing one product from a two-line cart leaves the other line intact. */
  lemma RemoveFromTwoLines(a: Line, b: Line)
    requires a.product != b.product
    ensures FirstIndex([a, b], b.product) == 1
    ensures RemoveAt([a, b], 1) == [a]
  {
    assert [a, b][..1] == [a];
  }

  /** A product line resolved against the catalog (Mongoose `populate`): a
      product id with no product resolves to null. */
  datatype ResolvedLine = ResolvedLine(productId: string, product: Option<Product>, quantity: int)

  /** `viewCart`: 404 without a cart; otherwise every line, in order, with its
      product looked up in the catalog. */
  function ViewCart(carts: map<string, seq<Line>>, products: map<string, Product>, user: string):
    (r: Result<seq<ResolvedLine>>)
    ensures user !in carts <==> r.Failure?
    ensures user !in carts ==> r == Failure(NotFound, "Cart not found for this user")
    ensures user in carts ==> r.Success? && r.status == Ok && |r.value| == |carts[user]|
    ensures user in carts ==> forall k :: 0 <= k < |r.value| ==>
      r.value[k].productId == carts[user][k].product &&
      r.value[k].quantity == carts[user][k].quantity &&
      (r.value[k].product.Some? <==> carts[user][k].product in products) &&
      (r.value[k].product.Some? ==> r.value[k].product.value == products[carts[user][k].product])
  {
    if user !in carts then Failure(NotFound, "Cart not found for this user")
    else
      var items := carts[user];
      var resolved := seq(|items|, k requires 0 <= k < |items| =>
        ResolvedLine(items[k].product,
                     if items[k].product in products then Some(products[items[k].product]) else None,
                     items[k].quantity));
      Success(Ok, "Cart details retrieved successfully", resolved)
  }

  /** The cart store: one line list per user id, edited in place. */
  class CartStore {
    var carts: map<string, seq<Line>>

    /** Every cart holds at most one line per product. */
    ghost predicate Valid()
      reads this
    {
      forall u :: u in carts ==> UniqueProducts(carts[u])
    }

    constructor ()
      ensures carts == map[] && Valid()
    {
      carts := map[];
    }

    /** `addToCart`: a user with no cart gets a cart holding the one line;
        otherwise the first line for the product grows by the requested
        quantity, or a line is appended. */
    method AddToCart(errors: seq<string>, user: string, product: string, quantity: Option<int>)
      returns (r: Result<seq<Line>>)
      modifies this
      ensures errors != [] ==> r == Invalid(errors) && carts == old(carts)
      ensures errors == [] && user !in old(carts) ==>
        carts == old(carts)[user := [Line(product, RequestedQuantity(quantity))]]
      ensures errors == [] && user in old(carts) ==>
        carts == old(carts)[user := AddLine(old(carts)[user], product, RequestedQuantity(quantity))]
      ensures errors == [] ==> r == Success(Ok, "Product added to the cart successfully", carts[user])
      ensures old(Valid()) ==> Valid()
    {
      if errors != [] {
        return Invalid(errors);
      }
      var q := if quantity.None? || quantity.value == 0 then 1 else quantity.value;
      if user !in carts {
        carts := carts[user := [Line(product, q)]];
      } else {
        var items := carts[user];
        var i := FindLine(items, product);
        if i >= 0 {
          items := items[i := items[i].(quantity := items[i].quantity + q)];
        } else {
          items := items + [Line(product, q)];
        }
        if old(Valid()) {
          AddKeepsUnique(carts[user], product, q);
        }
        carts := carts[user := items];
      }
      r := Success(Ok, "Product added to the cart successfully", carts[user]);
    }

    /** `decrementQuantity`: 404 without a cart or without a line for the
        product, changing nothing; otherwise the first matching line loses
        one unit, and is dropped when it reaches zero. */
    method DecrementQuantity(errors: seq<string>, user: string, product: string)
      returns (r: Result<seq<Line>>)
      modifies this
      ensures errors != [] ==> r == Invalid(errors) && carts == old(carts)
      ensures errors == [] && user !in old(carts) ==>
        r == Failure(NotFound, "Cart not found") && carts == old(carts)
      ensures errors == [] && user in old(carts) && FirstIndex(old(carts)[user], product) == -1 ==>
        r == Failure(NotFound, "Product not found in the cart") && carts == old(carts)
      ensures errors == [] && user in old(carts) && 0 <= FirstIndex(old(carts)[user], product) ==>
        carts == old(carts)[user := DecrementAt(old(carts)[user], FirstIndex(old(carts)[user], product))] &&
        r == Success(Ok, "Quantity decremented successfully", carts[user])
      ensures old(Valid()) ==> Valid()
      ensures errors == [] && user in old(carts) && 0 <= FirstIndex(old(carts)[user], product) ==>
        var i := FirstIndex(old(carts)[user], product);
        forall p :: QuantityOf(carts[user], p) ==
          QuantityOf(old(carts)[user], p) - (if p == product && old(carts)[user][i].quantity > 0 then 1 else 0)
    {
      if errors != [] {
        return Invalid(errors);
      }
      if user !in carts {
        return Failure(NotFound, "Cart not found");
      }
      var items := carts[user];
      var i := FindLine(items, product);
      if i == -1 {
        return Failure(NotFound, "Product not found in the cart");
      }
      if items[i].quantity > 0 {
        items := items[i := items[i].(quantity := items[i].quantity - 1)];
        if items[i].quantity == 0 {
          items := items[..i] + items[i + 1..];
        }
      }
      if old(Valid()) {
        DecrementKeepsUnique(carts[user], i);
      }
      forall p ensures QuantityOf(DecrementAt(carts[user], i), p) ==
        QuantityOf(carts[user], p) - (if p == product && carts[user][i].quantity > 0 then 1 else 0)
      {
        DecrementQuantityOf(carts[user], product, p);
      }
      carts := carts[user := items];
      r := Success(Ok, "Quantity decremented successfully", carts[user]);
    }

    /** `removeProductFromCart`: 404 without a cart or without a line for the
        product, changing nothing; otherwise the first matching line is
        deleted whatever its quantity. */
    method RemoveProductFromCart(errors: seq<string>, user: string, product: string)
      returns (r: Result<seq<Line>>)
      modifies this
      ensures errors != [] ==> r == Invalid(errors) && carts == old(carts)
      ensures errors == [] && user !in old(carts) ==>
        r == Failure(NotFound, "Cart not found") && carts == old(carts)
      ensures errors == [] && user in old(carts) && FirstIndex(old(carts)[user], product) == -1 ==>
        r == Failure(NotFound, "Product not found in the cart") && carts == old(carts)
      ensures errors == [] && user in old(carts) && 0 <= FirstIndex(old(carts)[user], product) ==>
        carts == old(carts)[user := RemoveAt(old(carts)[user], FirstIndex(old(carts)[user], product))] &&
        r == Success(Ok, "Product removed from the cart successfully", carts[user])
      ensures old(Valid()) ==> Valid()
      ensures old(Valid()) && errors == [] && user in old(carts) && 0 <= FirstIndex(old(carts)[user], product) ==>
        forall p :: QuantityOf(carts[user], p) == if p == product then 0 else QuantityOf(old(carts)[user], p)
    {
      if errors != [] {
        return Invalid(errors);
      }
      if user !in carts {
        return Failure(NotFound, "Cart not found");
      }
      var items := carts[user];
      var i := FindLine(items, product);
      if i == -1 {
        return Failure(NotFound, "Product not found in the cart");
      }
      if old(Valid()) {
        RemoveKeepsUnique(items, i);
        forall p ensures QuantityOf(RemoveAt(items, i), p) == if p == product then 0 else QuantityOf(items, p) {
          RemoveQuantityOf(items, product, p);
        }
      }
      carts := carts[user := items[..i] + items[i + 1..]];
      r := Success(Ok, "Product removed from the cart successfully", carts[user]);
    }
  }
}
