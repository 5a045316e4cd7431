# Grocery ordering services: cart, order, catalog and user cores in Dafny

This project models the service layer of four cooperating grocery services:

- **Cart service** (`carts.dfy`, module `Carts`). Each user has one cart. A cart is a list of lines keyed by product id. Each line is a snapshot of the product's name, unit and price, plus a quantity. The service keeps a per-user cart repository. It validates additions and updates against the product catalog: the product must exist, be active and have enough stock.
- **Order service** (`orders.dfy`, module `Orders`). The service turns the snapshot of the caller's cart into one stored order with status `PENDING`. It looks up orders with an ownership check. It overwrites an order's status with no transition check, and filters orders by user and by status.
- **Order line response** (`order_items.dfy`, module `OrderItems`). This is a bean whose setters keep `totalPrice = price × quantity`, unless `totalPrice` is overridden directly.
- **Catalog service** (`catalog.dfy`, module `Catalog`). It offers an active-only lookup, creation of active products, a partial update that writes only non-null fields, a soft delete and an unchecked stock decrement.
- **User service** (`users.dfy`, module `Users`). Registration keeps uid and email unique. Role names are parsed after upper-casing, with `CONSUMER` as the fallback. A profile update writes only non-null fields and never changes uid or email.

`common.dfy` (module `Common`) holds `Option`, the `Result` type and one `Error` constructor for each exception message the services throw.

Each service is a class. Its repository is a `map` field, which the mutating methods reassign. Each mutating method states its entire new state, often through a specification function on values such as `AddLine`, `SetLine`, `RemoveLine`, `ApplyUpdate` or `UpdateProfile`. Every failing path leaves the state unchanged. Lemmas beside these functions state what the change means:

- the cart read as a map from product id to line (`LineOf`);
- the cart total (`TotalAmount`);
- one line per product (`DistinctIds`);
- how placement copies cart lines into order lines, and what it does to the total;
- how status listings move when a status changes;
- partial-update algebra.

Money is an integer number of cents.

Some collaborators are parameters:

- **Product lookup.** The cart service's product lookup is a `Catalog` map from product id to product data. A missing key stands for a lookup that returned null.
- **Cart snapshot.** The cart returned to the order service for the caller's forwarded credential is a `CartSnapshot` parameter of `PlaceOrder`.
- **Role names.** The names of the user-role enum are a constant `roles` of the user service. The constructor requires that it contains `CONSUMER`.

Client methods without contracts exercise the services:

- `Carts.GetCartTwice` shows that get-or-create is idempotent.
- `Orders.TwoLineOrder` shows a cart of 2 × 3.50 and 1 × 10.00 becoming an order of 17.00 with line totals 7.00 and 10.00.
- `Orders.DeliveredBackToPending` shows a status going from DELIVERED back to PENDING.
- `OrderItems.OverrideDrifts` shows `totalPrice` drifting after an override and being derived again.
- `Catalog.DeleteHidesProduct` shows a soft-deleted product still stored, no longer fetched or listed, with a repeated delete changing nothing.
- `Catalog.StockCanGoNegative` shows the stock decrement reaching a negative value.

Points of behaviour the model follows:

- `placeOrder` fails when the cart's item list is null or empty (OrderService.java:36).
- `placeOrder` also fails at the save (OrderService.java:51) when a line's quantity is not positive, because the order line entity declares its quantity `@NotNull @Positive` (OrderItem.java:30-33).
- The user's order list is `findByUserId` with no ordering of its own (OrderService.java:56), so the model returns a set and promises no order.
- `removeItemFromCart` fails with "Cart not found" when the user has no cart.
- A new order's status is taken to be `PENDING`; the `Order` entity that sets it is outside the model.

## Model

| member | source | states |
|---|---|---|
| Carts.IndexOf | cart-service/src/main/java/com/grocery/cartservice/service/CartService.java:52-54 | the result is the position of the first line for the product, and no earlier line has that product; it is None exactly when no line has the product |
| Carts.CartService.GetCart | cart-service/src/main/java/com/grocery/cartservice/service/CartService.java:29-34 | returns the user's existing cart and changes nothing, or creates and stores an empty cart for that user; the cart is stored under the user afterwards |
| Carts.CartService.CreateNewCart | cart-service/src/main/java/com/grocery/cartservice/service/CartService.java:134-137 | stores a new empty cart for the user and changes no other cart |
| Carts.CartService.AddItemToCart | cart-service/src/main/java/com/grocery/cartservice/service/CartService.java:36-74 | succeeds exactly when the product exists, is active and has at least the quantity in stock; fails with ProductUnavailable for a missing or inactive product, then with InsufficientStock when stock < quantity, in both cases before any cart is loaded or created and with the repository unchanged; otherwise the user's (possibly new) cart becomes AddLine of its lines, and one line per product is kept |
| Carts.AddLineEffect | cart-service/src/main/java/com/grocery/cartservice/service/CartService.java:51-70 | after adding, the product's line is its old line with quantity raised by the amount (name, unit and snapshot price kept), or a new line with the catalog's name, unit and price and the amount; every other product's line is unchanged |
| Carts.AddLineLength | cart-service/src/main/java/com/grocery/cartservice/service/CartService.java:56-70 | adding a product already in the cart keeps the number of lines; adding a new product appends exactly one |
| Carts.AddLinePreservesDistinct | cart-service/src/main/java/com/grocery/cartservice/service/CartService.java:51-70 | adding never creates a second line for a product |
| Carts.AddLineTotal | cart-service/src/main/java/com/grocery/cartservice/service/CartService.java:56-70 | the cart total grows by the added amount times the existing line's snapshot price, or times the catalog price for a new line |
| Carts.AddTwiceOneLine | cart-service/src/main/java/com/grocery/cartservice/service/CartService.java:51-70 | adding the same new product twice leaves one more line than before, with both amounts summed on it, and no duplicate product lines |
| Carts.MergeMayExceedStock | cart-service/src/main/java/com/grocery/cartservice/service/CartService.java:44-59 | for every cart holding a line for the product, an amount that passes the stock check but whose sum with the line exceeds the stock leaves a merged line above the stock |
| Carts.CartService.UpdateCartItem | cart-service/src/main/java/com/grocery/cartservice/service/CartService.java:76-106 | succeeds exactly when the cart exists, the product is active, the stock covers the new quantity and the cart has a line for the product; fails with CartNotFound, then ProductUnavailable, then InsufficientStock (stock < new absolute quantity), then ItemNotFound, leaving the repository unchanged; otherwise the cart's lines become SetLine with the requested quantity and the catalog's current price |
| Carts.SetLineEffect | cart-service/src/main/java/com/grocery/cartservice/service/CartService.java:91-102 | the product's line gets the new quantity and price and keeps its name and unit; no other line changes; the number of lines is unchanged |
| Carts.SetLineTotal | cart-service/src/main/java/com/grocery/cartservice/service/CartService.java:96-99 | the cart total changes by the new line total minus the old one |
| Carts.CartService.RemoveItemFromCart | cart-service/src/main/java/com/grocery/cartservice/service/CartService.java:108-123 | fails only when the user has no cart; otherwise removes the product's line, and when the product is absent returns the cart unchanged and changes nothing |
| Carts.RemoveLineEffect | cart-service/src/main/java/com/grocery/cartservice/service/CartService.java:112-120 | after removal the product has no line, every other product's line is as before, the count drops by one exactly when the product was present, and lines stay one per product |
| Carts.RemoveLineTotal | cart-service/src/main/java/com/grocery/cartservice/service/CartService.java:117-118 | the cart total drops by the removed line's total |
| Carts.CartService.ClearCart | cart-service/src/main/java/com/grocery/cartservice/service/CartService.java:125-132 | fails with CartNotFound when the user has no cart; otherwise the cart has no lines and the same user |
| Orders.ToOrderItems | order-service/src/main/java/com/grocery/orderservice/service/OrderService.java:45-47 | one order line per cart line, in the same order, each reading back as exactly its cart line |
| Orders.CopyKeepsTotal | order-service/src/main/java/com/grocery/orderservice/service/OrderService.java:45-49 | the copied order lines add up (price × quantity) to the cart's total amount |
| Orders.PlacedTotalMatchesLines | order-service/src/main/java/com/grocery/orderservice/service/OrderService.java:41-49 | when the snapshot's total is the sum of its lines, the placed order's total is the sum of its own lines |
| Orders.OrderService.PlaceOrder | order-service/src/main/java/com/grocery/orderservice/service/OrderService.java:32-53 | fails with CartEmpty when the snapshot's item list is null or empty, and with InvalidOrderLine when a line's quantity is not positive (the entity validation at the save), in both cases saving nothing; succeeds exactly when neither holds, and then saves exactly one new order under a fresh id carrying the caller's user id, the snapshot's total, the shipping address, status PENDING and the copied lines; nothing else changes |
| Orders.OrderService.GetUserOrders | order-service/src/main/java/com/grocery/orderservice/service/OrderService.java:55-58 | returns exactly the stored orders whose user id is the caller's |
| Orders.UserOrdersDisjoint | order-service/src/main/java/com/grocery/orderservice/service/OrderService.java:55-58 | two users' order lists share no order |
| Orders.OrderService.GetOrderById | order-service/src/main/java/com/grocery/orderservice/service/OrderService.java:60-69 | succeeds exactly when the id exists and the order is the caller's, returning that order; a missing id and a foreign order both give OrderNotFound |
| Orders.OrderService.UpdateOrderStatus | order-service/src/main/java/com/grocery/orderservice/service/OrderService.java:71-78 | fails with OrderNotFound only for a missing id; otherwise sets that order's status to the given value whatever it was, and changes no other order or field |
| Orders.OrderService.GetOrdersByStatus | order-service/src/main/java/com/grocery/orderservice/service/OrderService.java:80-85 | returns exactly the stored orders with that status, across all users |
| Orders.StatusPartition | order-service/src/main/java/com/grocery/orderservice/service/OrderService.java:80-85 | each stored order is listed under its own status and under no other |
| Orders.WithStatusMoves | order-service/src/main/java/com/grocery/orderservice/service/OrderService.java:71-85 | after a status change the order is listed under the new status only, and every other order's listing is unchanged |
| Orders.ToItemResponse | order-service/src/main/java/com/grocery/orderservice/service/OrderService.java:114-123 | the response line copies the order line's product id, name, unit, quantity and price, and its total price is price × quantity |
| OrderItems.OrderItemResponse.Empty | order-service/src/main/java/com/grocery/orderservice/dto/OrderItemResponse.java:16 | the no-argument constructor leaves every field null |
| OrderItems.OrderItemResponse.constructor | order-service/src/main/java/com/grocery/orderservice/dto/OrderItemResponse.java:18-27 | stores the given fields, and totalPrice is price × quantity |
| OrderItems.OrderItemResponse.SetQuantity | order-service/src/main/java/com/grocery/orderservice/dto/OrderItemResponse.java:66-71 | sets the quantity; totalPrice becomes price × quantity when a price is set and is otherwise untouched; the derivation holds afterwards |
| OrderItems.OrderItemResponse.SetPrice | order-service/src/main/java/com/grocery/orderservice/dto/OrderItemResponse.java:77-82 | sets the price; totalPrice becomes price × quantity when a quantity is set and is otherwise untouched; the derivation holds afterwards |
| OrderItems.OrderItemResponse.SetTotalPrice | order-service/src/main/java/com/grocery/orderservice/dto/OrderItemResponse.java:88-90 | overwrites totalPrice; the derivation then holds exactly when the new value agrees with price × quantity |
| OrderItems.OrderItemResponse.SetId | order-service/src/main/java/com/grocery/orderservice/dto/OrderItemResponse.java:34-36 | sets the id and leaves quantity, price and totalPrice unchanged |
| OrderItems.OrderItemResponse.SetProductId | order-service/src/main/java/com/grocery/orderservice/dto/OrderItemResponse.java:42-44 | sets the product id and leaves quantity, price and totalPrice unchanged |
| OrderItems.OrderItemResponse.SetProductName | order-service/src/main/java/com/grocery/orderservice/dto/OrderItemResponse.java:50-52 | sets the name and leaves quantity, price and totalPrice unchanged |
| OrderItems.OrderItemResponse.SetProductUnit | order-service/src/main/java/com/grocery/orderservice/dto/OrderItemResponse.java:58-60 | sets the unit and leaves quantity, price and totalPrice unchanged |
| Catalog.ProductService.GetAllProducts | product-catalog-service/src/main/java/com/grocery/productcatalogservice/service/ProductService.java:23-26 | returns exactly the stored products that are active |
| Catalog.ProductService.GetProductsByCategory | product-catalog-service/src/main/java/com/grocery/productcatalogservice/service/ProductService.java:44-49 | returns exactly the stored active products of that category |
| Catalog.ProductService.GetProductById | product-catalog-service/src/main/java/com/grocery/productcatalogservice/service/ProductService.java:28-37 | an unknown id fails with ProductNotFound, a known inactive product with ProductInactive; it succeeds exactly for an active product, which it returns |
| Catalog.ProductService.CreateProduct | product-catalog-service/src/main/java/com/grocery/productcatalogservice/service/ProductService.java:51-65 | stores one new product under a fresh id, with the request's fields and active, and changes no other product |
| Catalog.ProductService.UpdateProduct | product-catalog-service/src/main/java/com/grocery/productcatalogservice/service/ProductService.java:67-98 | fails with ProductNotFound for an unknown id, changing nothing; otherwise the product becomes ApplyUpdate of it, keeping its id and active flag |
| Catalog.UpdateNothing | product-catalog-service/src/main/java/com/grocery/productcatalogservice/service/ProductService.java:71-94 | an update whose fields are all null leaves the product as it was |
| Catalog.UpdateIdempotent | product-catalog-service/src/main/java/com/grocery/productcatalogservice/service/ProductService.java:71-94 | applying the same update twice equals applying it once |
| Catalog.UpdateCompose | product-catalog-service/src/main/java/com/grocery/productcatalogservice/service/ProductService.java:71-94 | two updates in a row equal one update holding the later request's non-null fields over the earlier's |
| Catalog.FullUpdateIsCreate | product-catalog-service/src/main/java/com/grocery/productcatalogservice/service/ProductService.java:51-94 | an update with every field non-null gives the product a create would give, except that the id and active flag are kept |
| Catalog.ProductService.DeleteProduct | product-catalog-service/src/main/java/com/grocery/productcatalogservice/service/ProductService.java:100-106 | fails with ProductNotFound for an unknown id, changing nothing; otherwise only clears the active flag and the product stays stored |
| Catalog.ProductService.UpdateStockQuantity | product-catalog-service/src/main/java/com/grocery/productcatalogservice/service/ProductService.java:108-114 | fails with ProductNotFound for an unknown id, changing nothing; otherwise sets the stock to old stock minus quantity with no lower bound |
| Users.ToUpper | user-service/src/main/java/com/grocery/userservice/service/UserService.java:42 | the result has the input's length and upper-cases each letter in place |
| Users.ToUpperIdempotent | user-service/src/main/java/com/grocery/userservice/service/UserService.java:42 | upper-casing twice is upper-casing once |
| Users.ParseRoleIgnoresCase | user-service/src/main/java/com/grocery/userservice/service/UserService.java:40-45 | a role name parses the same whatever its case |
| Users.ParseRoleKnown | user-service/src/main/java/com/grocery/userservice/service/UserService.java:42 | the name of a role constant parses to that role |
| Users.ParseRoleSound | user-service/src/main/java/com/grocery/userservice/service/UserService.java:42 | a parsed role is always one of the role constants |
| Users.RegistrationRoleExamples | user-service/src/main/java/com/grocery/userservice/service/UserService.java:39-48 | "consumer" gives CONSUMER, "Admin" gives ADMIN, an unknown name and a null role give CONSUMER |
| Users.UserService.RegisterUser | user-service/src/main/java/com/grocery/userservice/service/UserService.java:21-52 | succeeds exactly when neither the uid nor the email is taken; a taken uid fails with UidAlreadyRegistered before the email is looked at, then a taken email fails with EmailAlreadyRegistered, both leaving the store unchanged; otherwise stores uid, names, email and phone as given with the parsed role; uids and emails stay unique and every role stays a known one |
| Users.UserService.GetUserProfile | user-service/src/main/java/com/grocery/userservice/service/UserService.java:54-58 | fails with UserNotFound exactly for an unknown uid; otherwise returns the user stored under that uid |
| Users.UserService.UpdateUserProfile | user-service/src/main/java/com/grocery/userservice/service/UserService.java:60-84 | fails with UserNotFound for an unknown uid; otherwise overwrites only the non-null first name, last name and phone, replaces the role only when it names a known role, and never changes uid or email |

## Left out

- HTTP controllers are not modelled. That covers the `firebaseUid` request attribute check, the mapping of exceptions to 400/401/404 statuses, and the `@Valid` request validation. The two request constraints the model relies on are kept: `CreateProduct` requires `ValidRequest`, and uid and email of a user request are non-null strings.
- The network clients become parameters: product lookup by id is a `Catalog` map, and the cart fetched for the caller is a `CartSnapshot`. Forwarding the caller's credential is not modelled, nor are collaborator failures, timeouts and retries.
- The `Cart` and `CartItem` entities are not part of this model. The cart's total is the ghost function `TotalAmount` over the lines, and the model does not claim the service recomputes it. The snapshot's total is whatever the cart service returned.
- The `Order`, `Product` and `User` entities, `ProductResponse`, and the `UserRole` enum are not part of this model. The role constants are the `roles` parameter, and a new order's status is taken to be PENDING. Of the `OrderItem` entity only the positive-quantity constraint is modelled; its not-null constraints cannot fail on the model's values.
- Generated database ids are a counter in each store, and the ids of cart lines and order lines are not modelled. Timestamps are left out.
- The product search (`searchProducts`, a JPQL `LIKE` query) is left out. Paging of product and order listings is also left out: listings are sets.
- The `convertToResponse` projections are left out, since they only copy fields. The same goes for `getUserByFirebaseUid`, which passes through to the repository.
- Concurrency, transactions and lost updates between concurrent requests are not modelled. Each operation is one atomic step.
- Money is integer cents. `BigDecimal` scale and rounding are not modelled.
- Users.ToUpper: models only ASCII letters, whereas Java's `toUpperCase` uses locale-dependent Unicode rules.
- Catalog.ValidRequest: requires name and unit to be present, but does not model the non-blank part of `@NotBlank`.
- OrderItems.OrderItemResponse.SetQuantity: takes a non-null quantity. Passing null while a price is set throws a NullPointerException in the bean, which is not modelled.
- OrderItems.OrderItemResponse.SetPrice: takes a non-null price. Passing null while a quantity is set throws a NullPointerException in the bean, which is not modelled.
- OrderItems.OrderItemResponse.constructor: takes a non-null quantity and price. The bean throws when either is null, which is not modelled.
- Catalog.ProductService.UpdateStockQuantity: the stock is an unbounded `int`. Java's `Integer` subtraction (ProductService.java:112) wraps around at -2^31, which the model does not; "no lower bound" holds only within the 32-bit range.
- Carts.AddLine: the merged quantity is an unbounded `int`. Java's `Integer` addition (CartService.java:59) wraps around at 2^31 - 1, which the model does not.
