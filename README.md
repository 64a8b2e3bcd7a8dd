# Cart, checkout and access rules of a small e-commerce backend, in Dafny

This project models the decision logic of an Express/Mongoose shop backend. The database collections become in-memory maps keyed by id.

- **Cart** (`cart.dfy`): one ordered list of `(product id, quantity)` lines per user.
  - Add merges into the first line for the same product, or appends a line. A user without a cart gets a new one-line cart.
  - Decrement takes one unit off the first matching line and drops the line when it reaches 0. A line at 0 or below is left alone.
  - Remove deletes the first matching line.
  - Product ids are compared as strings, in the lower-case hexadecimal form the store writes them in (see Left out for other spellings).
  - `CartStore` keeps the map and updates it in place. Its invariant, at most one line per product, is preserved by every operation. Removing a product from a cart that keeps it leaves none of that product and every other product's quantity unchanged.
  - Each edit is tied to a function on line lists. Lemmas prove what each edit does to the cart seen as a bag (`QuantityOf`).
- **Checkout and order access** (`orders.dfy`):
  - A non-empty cart becomes an order. Its total is priced from the catalog's current prices.
  - The order is saved and then the cart is deleted. Stock is not touched.
  - Order history is the requester's own orders.
  - Order details apply not-found first, then ownership (403).
- **Catalog** (`products.dfy`):
  - The required-field check of product creation, which tests falsiness. Its message lists the missing fields in a fixed order.
  - Availability is stored as supplied.
  - The category list, lookup by id, and search by category.
  - The stock-decrement helper.
- **Registration and login** (`users.dfy`):
  - A user store keyed by email.
  - `bcrypt` and `jwt.sign` are function parameters.
- **Request gates**:
  - `auth_middleware.dfy` extracts the bearer token from the `Authorization` header (split on single spaces) and makes the accept/reject decision around an abstract `verify`.
  - `authorize_middleware.dfy` is the role gate. It runs `includes`, which on a string is substring containment.
- Shared modules: `http.dfy` (status codes, reply shape) and `js.dfy` (JSON values, truthiness, `split`/`join`, `includes`).

Prices and all JSON numbers are integers; read prices as amounts in cents.

Clocks, id generation and library calls are parameters:
- the order's `orderedAt` is `now`;
- a new document's id is `newId`, required to be fresh: not a key of the store, and for a user not the id of any stored user;
- the request validator's outcome is `errors`;
- `hash`, `compare`, `sign` and `verify` are functions passed in.

Behaviour of the code that a reader might not expect:
- **Stock.** Checkout does not decrement stock. `PlaceOrder` only reads the catalog.
- **Line quantities.** Cart lines are not kept at quantity ≥ 1. An add with a negative quantity is truthy and is applied as given. So lines at 0 or below can exist, and decrement leaves them untouched.
- **Product by id.** `getProductById` never answers 404. An unknown id gives 200 with an empty list.
- **Role gate.** It is not a set-membership test for the product route (see Findings).

## Model

| member | source | states |
|---|---|---|
| Cart.FirstIndex | controllers/cartController.js:103-107 | the index of the first line whose product id equals the requested id, or -1 exactly when no line matches |
| Cart.FindLine | controllers/cartController.js:32-34 | the scan over the lines returns the first matching index (or -1), proved by a loop invariant |
| Cart.RequestedQuantity | controllers/cartController.js:16 | a missing or zero quantity becomes 1; any other value, negative included, is kept |
| Cart.AddLine | controllers/cartController.js:31-45 | an existing product's first line grows by the quantity with the line count and all other lines unchanged; a new product is appended as exactly one line at the end |
| Cart.AddLineQuantity | controllers/cartController.js:32-44 | adding q of a product raises that product's total quantity by exactly q and leaves every other product's quantity unchanged |
| Cart.AddKeepsUnique | controllers/cartController.js:31-45 | add preserves "at most one line per product id" |
| Cart.AddTwiceMerges | controllers/cartController.js:20-38 | adding 2 to a new cart and then 3 of the same product gives one line of 5 |
| Cart.RemoveAt | controllers/cartController.js:160 | splice drops exactly one line: length minus one, earlier lines in place, later lines shifted by one, multiset minus that line |
| Cart.DecrementAt | controllers/cartController.js:111-118 | a positive line loses one unit; a line reaching 0 is removed with the rest in order; a line at 0 or below is untouched |
| Cart.DecrementQuantityOf | controllers/cartController.js:103-118 | decrement takes exactly one unit of the product when its first line is positive, none otherwise, and no other product changes |
| Cart.DecrementKeepsUnique | controllers/cartController.js:111-118 | decrement preserves "at most one line per product id" |
| Cart.DecrementLastUnitRemovesLine | controllers/cartController.js:112-117 | decrementing a line of quantity 1 removes it and keeps the neighbours in order |
| Cart.RemoveQuantityOf | controllers/cartController.js:151-160 | with one line per product, removing a product leaves none of it and every other product's quantity unchanged |
| Cart.RemoveKeepsUnique | controllers/cartController.js:160 | remove preserves "at most one line per product id" |
| Cart.RemoveFromTwoLines | controllers/cartController.js:151-160 | removing one product from a two-line cart leaves exactly the other line |
| Cart.ViewCart | controllers/cartController.js:66-74 | 404 exactly when the user has no cart; otherwise every line in order with its product resolved from the catalog, or null when the product is gone |
| Cart.CartStore.AddToCart | controllers/cartController.js:7-50 | validation errors give 400 with no change; no cart gives a cart with the single line; otherwise the cart becomes the merge/append result; the invariant is kept |
| Cart.CartStore.DecrementQuantity | controllers/cartController.js:85-122 | 400 on validation errors; 404 with no change for a missing cart or product; otherwise the first matching line is decremented, so the product's quantity drops by one when that line is positive and no other product's quantity changes; the invariant is kept |
| Cart.CartStore.RemoveProductFromCart | controllers/cartController.js:133-164 | 400 on validation errors; 404 with no change for a missing cart or product; otherwise the first matching line is deleted whatever its quantity; the invariant is kept, and in a cart that keeps it the product's quantity becomes 0 and every other product's quantity is unchanged |
| Orders.TotalAppend | controllers/orderController.js:20-23 | the total (price times quantity summed over lines) of a concatenation is the sum of the totals |
| Orders.Total | controllers/orderController.js:20-23 | the order total summed line by line as price times quantity; with no negative price or quantity it is not negative |
| Orders.TotalExample | controllers/orderController.js:20-23 | lines priced 10 x 2 and 5 x 1 total 25 |
| Orders.OrderStore.PlaceOrder | controllers/orderController.js:4-41 | no cart or an empty cart gives 404 with nothing changed; a line whose product is gone gives 500 with nothing changed; otherwise the order (requester, the cart's lines in order, total from current prices, status "placed", now) is saved and the cart deleted; the catalog is unchanged |
| Orders.CheckoutTwice | controllers/orderController.js:13-39 | after a successful checkout a second one reports 404 and stores no second order |
| Orders.OrderHistory | controllers/orderController.js:57-61 | exactly the orders whose owner is the requester |
| Orders.OrderDetails | controllers/orderController.js:78-91 | unknown id gives 404 before any ownership check; another owner gives 403; otherwise the order |
| Products.MissingAmong | controllers/productController.js:15 | a name is reported exactly when it is listed and its body value is falsy |
| Products.MissingFields | controllers/productController.js:7-15 | a required field is reported exactly when its value is falsy |
| Products.MissingAmongKeepsOrder | controllers/productController.js:15-19 | reported names keep the order of the required-field list |
| Products.AllFalsyAllMissing | controllers/productController.js:15 | when every listed field is falsy, all are reported, in order |
| Products.EmptyBodyMissesAll | controllers/productController.js:7-19 | an empty body reports name, category, price, description, image, quantity in that order |
| Products.ZeroPriceIsMissing | controllers/productController.js:15 | a price of 0 is reported missing |
| Products.ZeroQuantityIsMissing | controllers/productController.js:15 | a quantity of 0 is reported missing |
| Products.AsAvailability | models/Product.js:24-27 | an absent availability defaults to true; a supplied boolean is kept |
| Products.Decode | controllers/productController.js:24-33 | decoding succeeds exactly when every field has its schema's JSON type (availability may be absent); the stored product then carries the body's name, category, price, description, image and quantity, the requester as owner, and availability as supplied or defaulted |
| Products.AvailabilityNotDerived | controllers/productController.js:30 | a supplied `false` availability is stored false whatever the quantity |
| Products.Catalog.InsertProduct | controllers/productController.js:4-38 | missing fields give 400 with the joined list and nothing stored; otherwise the decoded product is stored under the new id with 201 |
| Products.Categories | controllers/productController.js:52-55 | a category is listed exactly when some product has it, each once |
| Products.CategoriesEmptyIff | controllers/productController.js:52-59 | there are no categories exactly when there are no products |
| Products.GetCategories | controllers/productController.js:50-61 | 404 exactly when the catalog is empty; otherwise the distinct categories |
| Products.GetProductsByCategory | controllers/productController.js:72-94 | exactly the products whose category the pattern matches; 404 exactly when none does |
| Products.GetProductById | controllers/productController.js:108-120 | always 200; empty list exactly for an unknown id, else the one product |
| Products.TakeStock | controllers/productController.js:139-142 | quantity drops by exactly the amount and stays at least 0; availability becomes false exactly at 0, is otherwise kept, never set to true; nothing else changes |
| Products.Catalog.DecrementProductQuantity | controllers/productController.js:130-144 | unknown product or quantity below the amount fails with no change; otherwise the product's stock is taken |
| Users.RoleOrDefault | controllers/userController.js:27 | the supplied role when truthy, otherwise "user" |
| Users.NewUser | controllers/userController.js:22-28 | the stored record holds hash(password), never the supplied text, and the defaulted role |
| Users.Login | controllers/userController.js:42-72 | 400 on validation errors; 404 for an unknown email; 401 on a password mismatch; success exactly when the password matches, with a token signing the user's id and role for 3600 seconds |
| Users.LoginValidationFirst | controllers/userController.js:46-52 | a validation failure is decided without consulting the store |
| Users.LoginUnknownBeforeCompare | controllers/userController.js:52-58 | an unknown email is decided without any password comparison |
| Users.RegisterThenLogin | controllers/userController.js:58-70 | registering and then logging in with the same password yields the token for the new id and stored role |
| Users.UserStore.RegisterUser | controllers/userController.js:7-32 | 400 on validation errors before any lookup; a known email gives "User Already Registered" with no user added; otherwise the new user is stored under a fresh id with the hashed password and defaulted role |
| Js.Truthy | controllers/productController.js:15 | a JSON value is falsy exactly when it is undefined, null, false, 0 or the empty string |
| Products.MissingMessage | controllers/productController.js:19 | the 400 message starts with "Missing required fields: ", is that prefix alone for no names and prefix plus the name for one |
| Js.Split | middlewares/authMiddleware.js:4 | `split(" ")` always yields at least one piece and no piece contains the separator |
| Js.Includes | middlewares/authorizeMiddleware.js:4 | string `includes` accepts the empty string and the whole string, and never a longer one |
| Js.JoinSplit | middlewares/authMiddleware.js:4 | joining the pieces of `split(" ")` with the separator gives the header back |
| Js.SplitJoin | middlewares/authMiddleware.js:4 | splitting a join of space-free pieces gives the pieces back |
| AuthMiddleware.SecondPiece | middlewares/authMiddleware.js:4 | the token is absent for a missing header and never contains a space |
| AuthMiddleware.Decide | middlewares/authMiddleware.js:4-19 | no usable token gives 401 "No token provided"; failed verification gives 401 "Invalid token"; otherwise proceed with the verified claims |
| AuthMiddleware.NoSpaceNoToken | middlewares/authMiddleware.js:4-10 | a header with no space is rejected as having no token |
| AuthMiddleware.EmptySecondPieceNoToken | middlewares/authMiddleware.js:4-10 | "Bearer " and "Bearer  x" are rejected as having no token |
| AuthMiddleware.BearerRoundTrip | middlewares/authMiddleware.js:4-16 | any scheme word, one space and a space-free token hands exactly that token to verification; the scheme is not checked |
| AuthMiddleware.Run | middlewares/authMiddleware.js:3-19 | on success user_id and role are copied onto the request and next is called exactly once; on rejection the request is untouched and next is not called |
| AuthorizeMiddleware.Authorize | middlewares/authorizeMiddleware.js:2-9 | next exactly when `includes` accepts the role; otherwise 401 |
| Js.IncludesIffOccurs | middlewares/authorizeMiddleware.js:4 | string `includes` holds exactly when the text occurs at some position |
| AuthorizeMiddleware.TextGateIsSubstring | middlewares/authorizeMiddleware.js:4 | a gate built from a string admits exactly the roles occurring inside it |
| AuthorizeMiddleware.SellerPassesUserRejected | routes/productRoutes.js:12 | "seller" passes the product gate and "user" gets 401 |
| AuthorizeMiddleware.FragmentRolePasses | routes/productRoutes.js:12 | the empty role, "sell" and "ell" pass the product gate; a missing role ("undefined") is rejected |
| AuthorizeMiddleware.ListGateIsExact | middlewares/authorizeMiddleware.js:4 | a gate built from the list ["seller"] admits that role and no other |

## Left out

- Floating point: `price * quantity` is computed in JavaScript doubles. Here prices and quantities are integers, and `NaN` is not modelled.
- Mongoose type casting: a body field of the wrong JSON type is treated as the save failure that surfaces as 500. Mongoose's conversions (numeric strings to numbers, "true" to booleans, `null` availability) are not modelled. Add quantities and roles are typed `Option<int>` and `Option<string>`; other JSON values in those positions are not modelled.
- Id formats: ObjectId validity checks (`isMongoId`) and the CastError an ill-formed id raises are not modelled. Ids are plain strings. The database's fresh-id guarantee is the `newId !in ...` precondition.
- Request validation (`express-validator` rules, `isEmail`, password length) is an abstract list of errors.
- Library calls: bcrypt hash/compare and JWT sign/verify are function parameters. Token expiry is whatever `verify` rejects.
- Users.NewUser: states that the stored password is `hash(password)`. That this differs from the plaintext is a property of bcrypt and is not claimed.
- `populate` in order history and order details only affects the JSON shape. It is not modelled; those replies carry product ids. The field projection of the category search is also not modelled.
- Products.GetProductsByCategory: the case-insensitive regular-expression match is a `matches` parameter, not regex semantics.
- Server errors from the store (connection loss, failed saves) and the `catch` blocks that turn them into 500 are not modelled. The exception is the failures the code itself produces: the null product in checkout, the cast failure in product creation, and the two `throw`s of the stock-decrement helper.
- Products.Catalog.DecrementProductQuantity: the helper sends no reply; it throws an `Error` with the message "Product with ID … not found" or "Not enough quantity available for product …". The model returns these as `Failure(InternalError, message)` values, so the status on them stands for "thrown", not for a reply the helper writes.
- Product id spelling: the cart compares the requested id with the stored id's string form, which is lower-case hexadecimal, while the route validator also accepts upper-case hexadecimal ids. The model assumes every requested id is already in that canonical form. For another spelling of a product already in the cart, the code misses the existing line on add and appends a second line, which the store saves under the same id, and decrement and remove answer 404 for a product that is in the cart. Cart.AddKeepsUnique and the `CartStore` invariant therefore hold only for canonical ids.
- Concurrency: async/await, races between requests, and the missing transaction around saving the order and deleting the cart. The model runs each handler as one sequential step.
- Route wiring, Swagger documentation, the rate limiter (50 requests per 15 minutes), database connection and startup (`app.js`, `config/database.js`), `console.error` logging, and JSON formatting beyond the reply datatype.

## Findings

| source | as written | input that shows it | evidently intended | confidence | as-written member | corrected member |
|---|---|---|---|---|---|---|
| routes/productRoutes.js:12 | the role gate is built with the string "seller", so `permittedRoles.includes(role)` tests substring containment | a token with role "sell", "ell" or "" passes the seller-only gate | a list of permitted roles, so that only "seller" passes | high; not executed | AuthorizeMiddleware.FragmentRolePasses | AuthorizeMiddleware.ListGateIsExact |
