/** The product catalog: the required-field check of product creation, the
    category and id queries, and the stock-decrement helper. The catalog is a
    map from product id to product record. */
module Products {
  import opened Http
  import opened Js

  /** A stored product. Prices are whole amounts of the smallest currency unit. */
  datatype Product = Product(
    name: string,
    category: string,
    price: int,
    description: string,
    image: string,
    availability: bool,
    quantity: int,
    owner: string)

  /** A request body: absent keys read as `undefined`. */
  type Body = map<string, Value>

  function Field(body: Body, key: string): Value {
    if key in body then body[key] else Undefined
  }

  /** The fields product creation insists on, in the order they are reported. */
  const RequiredFields: seq<string> := ["name", "category", "price", "description", "image", "quantity"]

  /** The entries of `fields` whose value in `body` is falsy, in their original order. */
  function MissingAmong(fields: seq<string>, body: Body): (missing: seq<string>)
    ensures |missing| <= |fields|
    ensures forall f :: f in missing <==> f in fields && !Truthy(Field(body, f))
  {
    if |fields| == 0 then []
    else
      var rest := MissingAmong(fields[1..], body);
      assert forall f :: f in fields <==> f == fields[0] || f in fields[1..];
      if Truthy(Field(body, fields[0])) then rest else [fields[0]] + rest
  }

  /** The required fields that the body leaves falsy. */
  function MissingFields(body: Body): (missing: seq<string>)
    ensures forall f :: f in missing <==> f in RequiredFields && !Truthy(Field(body, f))
  {
    MissingAmong(RequiredFields, body)
  }

  /** `MissingAmong` keeps the relative order of the names it reports: it is
      the list of falsy names with every truthy name dropped. */
  lemma {:induction false} MissingAmongKeepsOrder(fields: seq<string>, body: Body, i: nat, j: nat)
    requires i < j < |MissingAmong(fields, body)|
    ensures exists a, b :: (0 <= a < b < |fields| &&
      fields[a] == MissingAmong(fields, body)[i] && fields[b] == MissingAmong(fields, body)[j])
  {
    var rest := MissingAmong(fields[1..], body);
    if Truthy(Field(body, fields[0])) {
      MissingAmongKeepsOrder(fields[1..], body, i, j);
      var a, b :| 0 <= a < b < |fields[1..]| && fields[1..][a] == rest[i] && fields[1..][b] == rest[j];
      assert fields[a + 1] == rest[i] && fields[b + 1] == rest[j];
    } else if i == 0 {
      var m := MissingAmong(fields, body);
      assert m[j] == rest[j - 1];
      assert rest[j - 1] in rest;
      var b :| 0 <= b < |fields[1..]| && fields[1..][b] == rest[j - 1];
      assert fields[0] == m[0] && fields[b + 1] == m[j];
    } else {
      MissingAmongKeepsOrder(fields[1..], body, i - 1, j - 1);
      var a, b :| 0 <= a < b < |fields[1..]| && fields[1..][a] == rest[i - 1] && fields[1..][b] == rest[j - 1];
      assert fields[a + 1] == rest[i - 1] && fields[b + 1] == rest[j - 1];
    }
  }

  /** A price of 0 (falsy) is reported as a missing field. */
  lemma ZeroPriceIsMissing(body: Body)
    requires Field(body, "price") == Num(0)
    ensures "price" in MissingFields(body)
  {
    assert "price" in RequiredFields;
  }

  /** A quantity of 0 (falsy) is reported as a missing field. */
  lemma ZeroQuantityIsMissing(body: Body)
    requires Field(body, "quantity") == Num(0)
    ensures "quantity" in MissingFields(body)
  {
    assert "quantity" in RequiredFields;
  }

  /** When every listed field is falsy, all of them are reported, in order. */
  lemma {:induction false} AllFalsyAllMissing(fields: seq<string>, body: Body)
    requires forall k :: 0 <= k < |fields| ==> !Truthy(Field(body, fields[k]))
    ensures MissingAmong(fields, body) == fields
  {
    if |fields| > 0 {
      AllFalsyAllMissing(fields[1..], body);
      assert fields == [fields[0]] + fields[1..];
    }
  }

  /** An empty body misses every required field, reported in the fixed order. */
  lemma EmptyBodyMissesAll()
    ensures MissingFields(map[]) == RequiredFields
  {
    AllFalsyAllMissing(RequiredFields, map[]);
  }

  const MissingPrefix: string := "Missing required fields: "

  /** The 400 message: the missing names joined with ", ". */
  function MissingMessage(missing: seq<string>): (m: string)
    ensures |m| >= |MissingPrefix| && m[..|MissingPrefix|] == MissingPrefix
    ensures missing == [] ==> m == MissingPrefix
    ensures |missing| == 1 ==> m == MissingPrefix + missing[0]
  {
    MissingPrefix + JoinWith(missing, ", ")
  }

  /** Reads a string-typed field; any other JSON type is a cast failure. */
  function AsText(v: Value): Option<string> {
    if v.Str? then Some(v.s) else None
  }

  /** Reads a number-typed field; any other JSON type is a cast failure. */
  function AsNumber(v: Value): Option<int> {
    if v.Num? then Some(v.n) else None
  }

  /** The availability flag as stored: the supplied boolean, or the schema
      default `true` when the body has none. */
  function AsAvailability(v: Value): (r: Option<bool>)
    ensures v == Undefined ==> r == Some(true)
    ensures v.Bool? ==> r == Some(v.b)
  {
    match v
    case Undefined => Some(true)
    case Bool(b) => Some(b)
    case _ => None
  }

  /** The product record built from a body that passed the required-field
      check, or None when a field has the wrong JSON type. */
  function Decode(body: Body, owner: string): (r: Option<Product>)
    ensures r.Some? ==> r.value.owner == owner
    ensures r.Some? ==> Str(r.value.name) == Field(body, "name") && Num(r.value.price) == Field(body, "price")
    ensures r.Some? ==> Num(r.value.quantity) == Field(body, "quantity")
    ensures r.Some? ==> AsAvailability(Field(body, "availability")) == Some(r.value.availability)
    ensures r.Some? ==> Str(r.value.category) == Field(body, "category")
    ensures r.Some? ==> Str(r.value.description) == Field(body, "description")
    ensures r.Some? ==> Str(r.value.image) == Field(body, "image")
    ensures r.Some? <==>
      Field(body, "name").Str? && Field(body, "category").Str? && Field(body, "price").Num? &&
      Field(body, "description").Str? && Field(body, "image").Str? && Field(body, "quantity").Num? &&
      AsAvailability(Field(body, "availability")).Some?
  {
    match (AsText(Field(body, "name")), AsText(Field(body, "category")), AsNumber(Field(body, "price")),
           AsText(Field(body, "description")), AsText(Field(body, "image")),
           AsAvailability(Field(body, "availability")), AsNumber(Field(body, "quantity")))
    case (Some(name), Some(category), Some(price), Some(description), Some(image), Some(available), Some(quantity)) =>
      Some(Product(name, category, price, description, image, available, quantity, owner))
    case _ => None
  }

  /** Availability is taken as supplied and not derived from quantity: a body
      with a positive quantity and `availability: false` is stored unavailable. */
  lemma AvailabilityNotDerived(body: Body, owner: string)
    requires Field(body, "availability") == Bool(false)
    requires Decode(body, owner).Some?
    ensures Decode(body, owner).value.availability == false
  {
  }

  /** The distinct categories of the catalog. */
  function Categories(products: map<string, Product>): (r: set<string>)
    ensures forall c :: c in r <==> exists id :: id in products && products[id].category == c
  {
    set id | id in products :: products[id].category
  }

  /** There are no categories exactly when there are no products. */
  lemma CategoriesEmptyIff(products: map<string, Product>)
    ensures |Categories(products)| == 0 <==> |products| == 0
  {
    if |products| != 0 {
      var id :| id in products;
      assert products[id].category in Categories(products);
    }
  }

  /** `getCategories`: each distinct category once; 404 only for an empty catalog. */
  function GetCategories(products: map<string, Product>): (r: Result<set<string>>)
    ensures r.Failure? <==> |products| == 0
    ensures r.Failure? ==> r == Failure(NotFound, "No Categories Found")
    ensures r.Success? ==> r.status == Ok && r.value == Categories(products)
  {
    var categories := Categories(products);
    CategoriesEmptyIff(products);
    if |categories| == 0 then
      Failure(NotFound, "No Categories Found")
    else
      Success(Ok, "", categories)
  }

  /** `getProductsByCategory`: the products whose category the search pattern
      matches (the pattern semantics are a parameter); 404 when none match. */
  function GetProductsByCategory(products: map<string, Product>, categoryName: string,
                                 matches: (string, string) -> bool): (r: Result<map<string, Product>>)
    ensures r.Success? ==> r.status == Ok && |r.value| > 0
    ensures r.Success? ==> forall id :: id in r.value <==> id in products && matches(categoryName, products[id].category)
    ensures r.Success? ==> forall id :: id in r.value ==> r.value[id] == products[id]
    ensures r.Failure? ==> r == Failure(NotFound, "No products found in category " + categoryName + ".")
    ensures r.Failure? <==> forall id :: id in products ==> !matches(categoryName, products[id].category)
  {
    var found := map id | id in products && matches(categoryName, products[id].category) :: products[id];
    if |found| == 0 then
      assert forall id :: id in products && matches(categoryName, products[id].category) ==> id in found;
      Failure(NotFound, "No products found in category " + categoryName + ".")
    else
      Success(Ok, "", found)
  }

  /** `getProductById`: `find` yields a list, never null, so the reply is
      always 200, with an empty list for an unknown id. */
  function GetProductById(products: map<string, Product>, id: string): (r: Result<seq<Product>>)
    ensures r.Success? && r.status == Ok
    ensures r.value == [] <==> id !in products
    ensures id in products ==> r.value == [products[id]]
  {
    Success(Ok, "", if id in products then [products[id]] else [])
  }

  /** The product after `quantityToDecrement` units are taken from stock:
      the quantity drops by exactly that much, availability turns false when
      the new quantity is 0 and is otherwise left alone; nothing else changes. */
  function TakeStock(p: Product, amount: int): (q: Product)
    requires amount <= p.quantity
    ensures q.quantity == p.quantity - amount && q.quantity >= 0
    ensures q.quantity == 0 ==> !q.availability
    ensures q.quantity != 0 ==> q.availability == p.availability
    ensures q.availability ==> p.availability
    ensures q.(quantity := p.quantity, availability := p.availability) == p
  {
    var left := p.quantity - amount;
    p.(quantity := left, availability := if left == 0 then false else p.availability)
  }

  /** The catalog store, updated in place by product creation and by the
      stock-decrement helper. */
  class Catalog {
    var products: map<string, Product>

    constructor ()
      ensures products == map[]
    {
      products := map[];
    }

    /** `insertProduct`: reject with the list of falsy required fields, or a
        cast failure as a server error, or store the new product under the
        fresh id. */
    method InsertProduct(body: Body, owner: string, newId: string) returns (r: Result<Product>)
      requires newId !in products
      modifies this
      ensures MissingFields(body) != [] ==>
        r == Failure(BadRequest, MissingMessage(MissingFields(body))) && products == old(products)
      ensures MissingFields(body) == [] && Decode(body, owner).None? ==>
        r == Failure(InternalError, "Error Inserting Product") && products == old(products)
      ensures MissingFields(body) == [] && Decode(body, owner).Some? ==>
        r == Success(Created, "Product Added", Decode(body, owner).value) &&
        products == old(products)[newId := Decode(body, owner).value]
    {
      var missing := MissingFields(body);
      if |missing| > 0 {
        return Failure(BadRequest, MissingMessage(missing));
      }
      var decoded := Decode(body, owner);
      if decoded.None? {
        return Failure(InternalError, "Error Inserting Product");
      }
      products := products[newId := decoded.value];
      r := Success(Created, "Product Added", decoded.value);
    }

    /** `decrementProductQuantity`: fails, changing nothing, for an unknown
        product or when stock is below the amount; otherwise takes the stock. */
    method DecrementProductQuantity(id: string, amount: int) returns (r: Result<()>)
      modifies this
      ensures id !in old(products) ==>
        r == Failure(InternalError, "Product with ID " + id + " not found") && products == old(products)
      ensures id in old(products) && old(products)[id].quantity < amount ==>
        r == Failure(InternalError, "Not enough quantity available for product " + id) && products == old(products)
      ensures id in old(products) && amount <= old(products)[id].quantity ==>
        r.Success? && products == old(products)[id := TakeStock(old(products)[id], amount)]
    {
      if id !in products {
        return Failure(InternalError, "Product with ID " + id + " not found");
      }
      var product := products[id];
      if product.quantity < amount {
        return Failure(InternalError, "Not enough quantity available for product " + id);
      }
      var left := product.quantity - amount;
      product := product.(quantity := left);
      if left == 0 {
        product := product.(availability := false);
      }
      products := products[id := product];
      r := Success(Ok, "", ());
    }
  }
}
