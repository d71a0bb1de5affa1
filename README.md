# E-commerce backend services, modelled in Dafny

A model of the service layer of a small Spring Boot e-commerce backend. It covers:

- the shopping cart service: find-or-create the user's cart, add a product (merging into an existing line), remove a line, and the cart response;
- the order service: checkout, which freezes prices, totals the lines, saves the order and empties the cart; it also lists a user's orders and fetches one order for its owner;
- the product catalogue service: create, update, delete, find by id, find all, and category find-or-create by name;
- the user service: upsert a user from an identity token's uid, email, name and "role" claim;
- the three controller advices, which map a thrown exception to an HTTP status and an `ApiResponse` body.

The relational store is the class `Store.Database`. It holds one field per repository: users as a map keyed by uid, and categories, products, carts and orders as sequences in insertion order. It also holds one counter, `nextId`, that hands out fresh ids. The service operations that save rows are methods with `modifies db`. Each is proved against a value-level specification function, and each preserves `Valid()`. `Valid()` states:

- users are keyed by uid;
- category names are unique;
- product ids are unique;
- every product's category is stored;
- every cart's owner is a stored user, and each user has at most one cart;
- no product appears on two lines of one cart;
- every cart line and order line names a stored product (the foreign keys);
- every order's total equals the sum of its lines;
- cart ids, order ids and the line ids within one cart are distinct (the primary keys the lookups by id rely on);
- every id handed out is below the counter.

Read-only service operations are functions over the tables. A failing service call returns `Failure(e)` of an `Errors.ServiceError`. Its `Message(e)` is the text of the `RuntimeException` the Java code throws.

Modelling choices:

- `BigDecimal` prices are `real`, which is exact, like `BigDecimal` addition and multiplication.
- `Integer` quantities are the `JavaInt.int32` type. Merging a quantity into an existing cart line uses Java `int` addition, which wraps around on overflow.
- The `@Transactional` rollback of `addItemToCart` is modelled by its outcome: when the product is missing, the cart created a moment earlier is not kept, and the call stores nothing.
- Checkout without any cart throws "Cart is empty", which the order advice answers with 400, because the message contains "empty"; it is not a not-found status. `OrderControllerAdvice.CheckoutValidationIsBadRequest` states this.
- The message of the `IllegalArgumentException` that `Role.valueOf` throws follows the Java platform's convention: "No enum constant", then the qualified class name and the name.
- Deleting a product that a cart line or an order line still references fails with `IntegrityViolation`. The Java code only calls `existsById` and `deleteById`. The refusal comes from the database's foreign keys: neither `CartItem` nor `OrderItem` is cascaded from `Product`.

## Model

Source paths are below `src/main/java/com/ecommerce/ecommerce/`, written out in full.

| member | source | states |
|---|---|---|
| JavaInt.Add | src/main/java/com/ecommerce/ecommerce/service/CartService.java:65 | Java `int` addition: equals the mathematical sum when it fits in 32 bits; is always congruent to it modulo 2^32; on overflow its sign is the opposite of the operands' common sign |
| Tables.FirstIndex | src/main/java/com/ecommerce/ecommerce/service/CartService.java:58-60 | `stream().filter(p).findFirst()`: the index found satisfies `p` and every earlier element does not; none is found exactly when no element satisfies `p` |
| Tables.FindProduct | src/main/java/com/ecommerce/ecommerce/service/CartService.java:54-55 | `productRepository.findById` finds a row exactly when the id is among the stored product ids, and the row it finds has that id |
| Tables.FindUserCart | src/main/java/com/ecommerce/ecommerce/service/CartService.java:46 | `cartRepository.findByUser` returns a cart owned by the user, and returns nothing exactly when no cart is owned by the user |
| Tables.FindCategory | src/main/java/com/ecommerce/ecommerce/service/ProductServiceImpl.java:35 | `categoryRepository.findByName` returns a category with that name, and returns nothing exactly when no category has it |
| Tables.FindOrder | src/main/java/com/ecommerce/ecommerce/service/OrderService.java:105-106 | `orderRepository.findById` returns an order with that id, and returns nothing exactly when no order has it |
| OrderService.FindOrderIsTheRow | src/main/java/com/ecommerce/ecommerce/service/OrderService.java:105-106 | with order ids distinct, `findById` finds the one order stored with that id, wherever it sits |
| CartService.LineFor | src/main/java/com/ecommerce/ecommerce/service/CartService.java:57-60 | the existing line for the product: it names the product; there is none exactly when no line names it |
| CartService.LineWithId | src/main/java/com/ecommerce/ecommerce/service/CartService.java:91-95 | the first line with the given line id; there is none exactly when no line has that id |
| CartService.LineWithIdIsTheLine | src/main/java/com/ecommerce/ecommerce/service/CartService.java:92-95 | with line ids distinct, the line found for an id is the one line with that id |
| CartService.AddLine | src/main/java/com/ecommerce/ecommerce/service/CartService.java:57-73 | adding to a cart with a line for the product keeps the number of lines; otherwise exactly one line (fresh id, product, quantity) is appended; lines for other products are untouched |
| CartService.RemoveAt | src/main/java/com/ecommerce/ecommerce/service/CartService.java:97 | `List.remove`: one line fewer; the lines before keep their places and the lines after move up by one |
| CartService.AddLineMerges | src/main/java/com/ecommerce/ecommerce/service/CartService.java:62-65 | when the product has a line, that line's quantity becomes the Java `int` sum and every other line is unchanged |
| CartService.AddLineAppends | src/main/java/com/ecommerce/ecommerce/service/CartService.java:66-73 | when no line names the product, the result is the old lines followed by one new line |
| CartService.AddLineKeepsUnique | src/main/java/com/ecommerce/ecommerce/service/CartService.java:57-73 | after an add, no product appears on two lines of the cart |
| CartService.AddLineKeepsIdsUnique | src/main/java/com/ecommerce/ecommerce/service/CartService.java:66-73 | a new line takes an id above every existing one, so the cart's line ids stay distinct |
| CartService.AddLineQuantity | src/main/java/com/ecommerce/ecommerce/service/CartService.java:57-73 | an add raises the product's unit count (summed over all lines) by exactly the quantity added, when the result fits in an `int`; every other product's count is unchanged |
| CartService.AddTwiceAccumulates | src/main/java/com/ecommerce/ecommerce/service/CartService.java:57-73 | adding a product twice creates no second line, and its count grows by both quantities |
| CartService.RemoveAtKeepsUnique | src/main/java/com/ecommerce/ecommerce/service/CartService.java:92-97 | removing a line keeps the cart's products pairwise distinct |
| CartService.RemoveAtKeepsIdsUnique | src/main/java/com/ecommerce/ecommerce/service/CartService.java:97 | removing a line keeps the remaining line ids distinct |
| CartService.RemoveAtQuantity | src/main/java/com/ecommerce/ecommerce/service/CartService.java:92-97 | removing the product's line removes all its units from the cart; every other product's count is unchanged |
| CartService.FindOrCreateCart | src/main/java/com/ecommerce/ecommerce/service/CartService.java:46-51 | the slot returned holds a cart owned by the user; an existing cart leaves the table and counter alone; otherwise one empty cart with the next id is appended |
| CartService.FindOrCreateKeepsOnePerUser | src/main/java/com/ecommerce/ecommerce/service/CartService.java:46-51 | find-or-create never gives a user a second cart |
| CartService.FindOrCreateKeepsIds | src/main/java/com/ecommerce/ecommerce/service/CartService.java:46-51 | a created cart takes the counter as its id and has no lines, so cart ids stay distinct and every id stays below the advanced counter |
| CartService.FindOrCreateKeepsConsistent | src/main/java/com/ecommerce/ecommerce/service/CartService.java:46-51 | finding or creating a stored user's cart keeps the whole store consistent |
| CartService.FindOrCreateIdempotent | src/main/java/com/ecommerce/ecommerce/service/CartService.java:108-113 | a second find-or-create finds the cart the first one returned and changes nothing |
| CartService.MapToCartResponse | src/main/java/com/ecommerce/ecommerce/service/CartService.java:118-134 | the response has the cart's id and one item per line, in order, with the line's id, its quantity and the product it names |
| CartService.ReplaceItemsKeepsCarts | src/main/java/com/ecommerce/ecommerce/service/CartService.java:76 | saving a cart whose lines changed keeps one cart per user, every owner stored and the cart ids distinct |
| CartService.ReplaceLinesKeeps | src/main/java/com/ecommerce/ecommerce/service/CartService.java:76 | saving a cart with lines that have distinct products and ids, all resolving and all below the counter, keeps every invariant of the carts table |
| CartService.SaveCarts | src/main/java/com/ecommerce/ecommerce/service/CartService.java:76 | `cartRepository.save`: the carts table and counter become the new ones, the rest of the store is untouched, and the store stays valid |
| CartService.GetCart | src/main/java/com/ecommerce/ecommerce/service/CartService.java:104-116 | an unknown user fails with "User not found" and nothing changes; otherwise the carts become the find-or-create result (saved only when a cart is created), the response is that cart's, and the store stays valid |
| CartService.AddedCarts | src/main/java/com/ecommerce/ecommerce/service/CartService.java:46-76 | the carts and counter after a successful add: at most one cart is added, the counter moves by at most two, and every other user's cart is unchanged |
| CartService.AddKeepsConsistent | src/main/java/com/ecommerce/ecommerce/service/CartService.java:40-80 | a successful add keeps the store consistent: one cart per user, distinct cart ids, unique products and line ids per cart, every line resolving, every id still below the counter |
| CartService.AddToCart | src/main/java/com/ecommerce/ecommerce/service/CartService.java:57-79 | with the user's cart found or created: the carts and counter become the merged add (an existing line's quantity grows, otherwise one new line with the next id), the store stays valid, nothing else changes, and the response is that cart |
| CartService.AddItemToCart | src/main/java/com/ecommerce/ecommerce/service/CartService.java:40-80 | an unknown user or product fails and leaves the carts and counter as before (the cart created meanwhile is rolled back); otherwise the store becomes the merged add and stays valid, and the response is the user's cart |
| CartService.RemoveKeepsConsistent | src/main/java/com/ecommerce/ecommerce/service/CartService.java:82-102 | taking one line out of one cart keeps the store consistent, including distinct line ids |
| CartService.RemoveItemFromCart | src/main/java/com/ecommerce/ecommerce/service/CartService.java:82-102 | a missing user, cart or line fails (in that order) with its own error and nothing changes; otherwise exactly that line leaves the user's cart, the store stays valid, and the response is the updated cart |
| OrderService.FreezeLine | src/main/java/com/ecommerce/ecommerce/service/OrderService.java:65-77 | an order line keeps the cart line's product and quantity, takes the product's current price as its unit price, and has amount price × quantity |
| OrderService.Frozen | src/main/java/com/ecommerce/ecommerce/service/OrderService.java:64-79 | checkout makes exactly one order line per cart line |
| OrderService.FrozenLines | src/main/java/com/ecommerce/ecommerce/service/OrderService.java:64-79 | the i-th order line is the i-th cart line frozen at today's price, with the i-th fresh id |
| OrderService.FrozenResolves | src/main/java/com/ecommerce/ecommerce/service/OrderService.java:70-73 | every order line names a stored product, because every cart line does |
| OrderService.FrozenTotal | src/main/java/com/ecommerce/ecommerce/service/OrderService.java:62-81 | the order's own total (the sum of its lines' amounts) equals the cart's value at current prices |
| OrderService.PriceLines | src/main/java/com/ecommerce/ecommerce/service/OrderService.java:62-81 | the checkout loop builds exactly the frozen lines, and its running total equals both the cart's value and the order's own total |
| OrderService.MapToOrderResponse | src/main/java/com/ecommerce/ecommerce/service/OrderService.java:114-132 | the response has the order's id and total, and one item per line, in order, with the line's id, quantity, frozen price and product |
| OrderService.CheckedOutOrder | src/main/java/com/ecommerce/ecommerce/service/OrderService.java:57-84 | the saved order belongs to the user; it has one line per cart line, every line naming a stored product, with consecutive fresh ids; its total is the sum of its lines and equals the cart's value |
| OrderService.AppendOrderKeeps | src/main/java/com/ecommerce/ecommerce/service/OrderService.java:83-84 | saving a sound order whose id is at least the counter keeps every order's lines resolving, every total matching its lines, the order ids distinct, and every id below the counter |
| OrderService.EmptyCartKeeps | src/main/java/com/ecommerce/ecommerce/service/OrderService.java:86-88 | clearing the cart's lines keeps one cart per user, owners stored, cart ids distinct, and lines unique (by product and by id) and resolving |
| OrderService.CheckoutKeepsConsistent | src/main/java/com/ecommerce/ecommerce/service/OrderService.java:41-92 | a successful checkout keeps the store consistent |
| OrderService.SaveCheckout | src/main/java/com/ecommerce/ecommerce/service/OrderService.java:83-88 | `orderRepository.save` then `cartRepository.save`: orders, carts and counter become the new ones, users, categories and products are untouched, and the store stays valid |
| OrderService.PlaceOrder | src/main/java/com/ecommerce/ecommerce/service/OrderService.java:57-92 | for a user's non-empty cart: appends exactly the checked-out order, empties that cart, moves the counter past the new ids, leaves users, categories and products alone, keeps the store valid and returns the saved order's response |
| OrderService.Checkout | src/main/java/com/ecommerce/ecommerce/service/OrderService.java:41-92 | an unknown user, a missing cart and an empty cart fail with their own errors and change nothing; otherwise exactly one order is appended, the user's cart is emptied, the counter passes the new ids, the store stays valid, and the response is the saved order |
| OrderService.OwnedBy | src/main/java/com/ecommerce/ecommerce/service/OrderService.java:98 | `findByUser`: an order is listed exactly when it is stored and owned by the user |
| OrderService.OwnedByCounts | src/main/java/com/ecommerce/ecommerce/service/OrderService.java:98 | each owned order is listed exactly as often as it is stored, and no other order is listed |
| OrderService.OwnedByAppend | src/main/java/com/ecommerce/ecommerce/service/OrderService.java:98 | in the model's insertion order (the query itself promises none), the owned orders of a concatenation are those of the first part followed by those of the second |
| OrderService.OwnedBySingle | src/main/java/com/ecommerce/ecommerce/service/OrderService.java:98 | a single order is listed exactly when the user owns it |
| OrderService.GetUserOrders | src/main/java/com/ecommerce/ecommerce/service/OrderService.java:94-102 | fails exactly when the user is unknown, with "User not found"; otherwise returns one response per owned order, in order |
| OrderService.GetOrderById | src/main/java/com/ecommerce/ecommerce/service/OrderService.java:104-112 | succeeds exactly when the order exists and belongs to the user, returning that order's response; an absent order, an ownerless order and someone else's order all fail with "Order not found" |
| ProductService.FindOrCreateCategory | src/main/java/com/ecommerce/ecommerce/service/ProductServiceImpl.java:35-40 | the category returned carries the name and is stored; an existing name changes nothing; otherwise one category with the next id is appended |
| ProductService.FindOrCreateCategoryKeepsUnique | src/main/java/com/ecommerce/ecommerce/service/ProductServiceImpl.java:35-40 | find-or-create keeps category names unique |
| ProductService.FindOrCreateCategoryLeavesOne | src/main/java/com/ecommerce/ecommerce/service/ProductServiceImpl.java:82-87 | afterwards exactly one category row carries the name |
| ProductService.FindOrCreateCategoryIdempotent | src/main/java/com/ecommerce/ecommerce/service/ProductServiceImpl.java:35-40 | naming the same category again finds the row created the first time and changes nothing |
| ProductService.NewProduct | src/main/java/com/ecommerce/ecommerce/service/ProductServiceImpl.java:42-46 | the new product has the given id, the request's name, brand, inventory, price and description, the resolved category and no images |
| ProductService.Overwritten | src/main/java/com/ecommerce/ecommerce/service/ProductServiceImpl.java:89-95 | update sets name, brand, inventory, price, description and category from the request, and keeps the product's id and images |
| ProductService.CreateKeepsConsistent | src/main/java/com/ecommerce/ecommerce/service/ProductServiceImpl.java:31-53 | saving a new product with a fresh id, under a found or created category, keeps the store consistent |
| ProductService.Create | src/main/java/com/ecommerce/ecommerce/service/ProductServiceImpl.java:31-53 | resolves the category, appends one product with a fresh id built from the request, keeps users, carts and orders, keeps the store valid, and returns that product's response |
| ProductService.UpdateKeepsConsistent | src/main/java/com/ecommerce/ecommerce/service/ProductServiceImpl.java:74-102 | overwriting a product's fields keeps its id, so every cart and order line still resolves and the store stays consistent |
| ProductService.Update | src/main/java/com/ecommerce/ecommerce/service/ProductServiceImpl.java:74-102 | an unknown id fails with "Product not found" before any category is created, and nothing changes; otherwise only that product is overwritten, orders keep their frozen prices, and the store stays valid |
| ProductService.DeleteKeepsConsistent | src/main/java/com/ecommerce/ecommerce/service/ProductServiceImpl.java:105-110 | removing an unreferenced product keeps the store consistent and removes its id |
| ProductService.Delete | src/main/java/com/ecommerce/ecommerce/service/ProductServiceImpl.java:105-110 | an absent id returns false and changes nothing; a still-referenced product is refused and nothing changes; otherwise returns true and removes exactly that product's id from the table |
| ProductService.FindById | src/main/java/com/ecommerce/ecommerce/service/ProductServiceImpl.java:65-71 | fails exactly when the id is not stored, with "Product not found"; otherwise returns the response of the product with that id |
| ProductService.FindAll | src/main/java/com/ecommerce/ecommerce/service/ProductServiceImpl.java:56-62 | one response per stored product; the model lists them in insertion order, where the query promises none |
| UserService.RoleValueOf | src/main/java/com/ecommerce/ecommerce/service/UserService.java:36 | `Role.valueOf` returns the constant whose name is exactly the string, and fails exactly when no constant has that name |
| UserService.RoleRoundTrip | src/main/java/com/ecommerce/ecommerce/service/UserService.java:36 | `valueOf(role.name())` is the role itself, for every role |
| UserService.RoleName | src/main/java/com/ecommerce/ecommerce/service/UserService.java:25-27 | the role name is the claim when present and "CUSTOMER" otherwise |
| UserService.MissingClaimIsCustomer | src/main/java/com/ecommerce/ecommerce/service/UserService.java:25-27 | a token without a role claim always yields CUSTOMER |
| UserService.Upsert | src/main/java/com/ecommerce/ecommerce/service/UserService.java:20-46 | fails exactly when the role name is no constant. Otherwise it stores the token's uid and nothing else; the user gets the token's email, name and role, an existing user keeps uid, phone and address, a new user has no phone or address, and other users are untouched |
| UserService.UpsertIdempotent | src/main/java/com/ecommerce/ecommerce/service/UserService.java:20-46 | signing in twice with the same token stores the same table as signing in once |
| UserService.UpsertKeepsKeyed | src/main/java/com/ecommerce/ecommerce/service/UserService.java:29-45 | every user stays stored under its own uid |
| UserService.CreateOrUpdateUser | src/main/java/com/ecommerce/ecommerce/service/UserService.java:20-46 | an unknown role fails and changes nothing; otherwise the users table becomes the upsert, the store stays valid and the saved user is returned |
| Dtos.ToProductResponse | src/main/java/com/ecommerce/ecommerce/service/ProductServiceImpl.java:52 | `modelMapper.map(product, ProductResponse.class)` copies every field of the stored row: id, name, description, price, inventory, brand, category and images (also at ProductServiceImpl.java:60, 70 and 101, CartService.java:127 and OrderService.java:125) |
| ErrorResponses.Show | src/main/java/com/ecommerce/ecommerce/exceptions/AdminControllerAdvice.java:17 | string concatenation with the exception's message: a present message is itself, a null message prints as "null" (every "Error: " and "Internal Server Error: " body of the three advices) |
| ErrorResponses.Contains | src/main/java/com/ecommerce/ecommerce/exceptions/CartControllerAdvice.java:16 | `String.contains`: `sub` is a prefix of the string or of one of its suffixes |
| ErrorResponses.ContainsAt | src/main/java/com/ecommerce/ecommerce/exceptions/CartControllerAdvice.java:16 | an occurrence of `sub` at any index makes `contains` true |
| ErrorResponses.ContainsWitness | src/main/java/com/ecommerce/ecommerce/exceptions/CartControllerAdvice.java:16 | conversely, `contains` is true only when `sub` occurs at some index |
| ErrorResponses.ContainsChar | src/main/java/com/ecommerce/ecommerce/exceptions/CartControllerAdvice.java:16 | a string containing `sub` contains each of `sub`'s characters |
| Errors.Message | src/main/java/com/ecommerce/ecommerce/service/CartService.java:44 | the exact text of each `RuntimeException` the services throw ("User not found", "Product not found", "Cart not found", "Cart item not found", "Cart is empty", "Cannot checkout with an empty cart", "Order not found"; also at CartService.java:55, 86, 89, 95, 106, OrderService.java:45, 49, 53, 96, 106, 109 and ProductServiceImpl.java:68, 79): never empty, and every missing-row failure ends in "not found" |
| Errors.MessageInjective | src/main/java/com/ecommerce/ecommerce/service/OrderService.java:45-53 | distinct failures carry distinct texts, so the advices, which see only the text, can tell every failure apart |
| ErrorResponses.Raised | src/main/java/com/ecommerce/ecommerce/service/CartService.java:43-44 | a service failure surfaces as a runtime exception carrying exactly its message |
| ErrorResponses.SaysNotFound | src/main/java/com/ecommerce/ecommerce/exceptions/CartControllerAdvice.java:16 | the not-found test `getMessage() != null && getMessage().contains("not found")`, shared by the three advices (OrderControllerAdvice.java:16, AdminControllerAdvice.java:30): it holds only for a present message at least as long as "not found" |
| ErrorResponses.NotFoundMessageSaysSo | src/main/java/com/ecommerce/ecommerce/exceptions/CartControllerAdvice.java:16 | the five "... not found" messages contain "not found" |
| ErrorResponses.CheckoutMessageNotNotFound | src/main/java/com/ecommerce/ecommerce/exceptions/OrderControllerAdvice.java:16 | neither checkout validation message contains "not found" |
| CartControllerAdvice.HandleRuntimeException | src/main/java/com/ecommerce/ecommerce/exceptions/CartControllerAdvice.java:13-23 | a non-null message containing "not found" is 404 with the message; anything else is 500 with "Error: " and the message |
| CartControllerAdvice.HandleGenericException | src/main/java/com/ecommerce/ecommerce/exceptions/CartControllerAdvice.java:25-29 | 500 with "Internal Server Error: " and the message |
| CartControllerAdvice.Handle | src/main/java/com/ecommerce/ecommerce/exceptions/CartControllerAdvice.java:13-29 | 404 exactly for a runtime exception whose message contains "not found", with the message as the body; every other exception is 500, "Error: " for runtime and "Internal Server Error: " otherwise; the data is always null |
| CartControllerAdvice.CartServiceErrorsAreNotFound | src/main/java/com/ecommerce/ecommerce/exceptions/CartControllerAdvice.java:13-23 | every cart service failure is answered 404 with its own message |
| OrderControllerAdvice.HandleRuntimeException | src/main/java/com/ecommerce/ecommerce/exceptions/OrderControllerAdvice.java:13-29 | "not found" is 404 with the message, then "empty" or "Cannot checkout" is 400 with the message, then 500 with "Error: " and the message |
| OrderControllerAdvice.HandleGenericException | src/main/java/com/ecommerce/ecommerce/exceptions/OrderControllerAdvice.java:31-35 | 500 with "Internal Server Error: " and the message |
| OrderControllerAdvice.SaysInvalid | src/main/java/com/ecommerce/ecommerce/exceptions/OrderControllerAdvice.java:21-22 | the validation rule: a non-null message containing "empty" or "Cannot checkout" |
| OrderControllerAdvice.Handle | src/main/java/com/ecommerce/ecommerce/exceptions/OrderControllerAdvice.java:13-35 | 404 exactly for a runtime "not found" message; 400 exactly for a runtime validation message that does not say "not found"; both carry the message; all else is 500 with the runtime or generic prefix |
| OrderControllerAdvice.NotFoundBeforeEmpty | src/main/java/com/ecommerce/ecommerce/exceptions/OrderControllerAdvice.java:16-25 | a message saying both "not found" and "empty" is a 404: the not-found rule is tried first |
| OrderControllerAdvice.InvalidIsBadRequest | src/main/java/com/ecommerce/ecommerce/exceptions/OrderControllerAdvice.java:21-25 | a runtime message that does not say "not found" but contains "empty" or "Cannot checkout" is answered 400 with the message itself |
| OrderControllerAdvice.CartIsEmptySaysInvalid | src/main/java/com/ecommerce/ecommerce/exceptions/OrderControllerAdvice.java:21-22 | "Cart is empty" passes the validation rule, through "empty" |
| OrderControllerAdvice.EmptyCartCheckoutSaysInvalid | src/main/java/com/ecommerce/ecommerce/exceptions/OrderControllerAdvice.java:21-22 | "Cannot checkout with an empty cart" passes the validation rule, through "Cannot checkout" |
| OrderControllerAdvice.CheckoutValidationIsBadRequest | src/main/java/com/ecommerce/ecommerce/exceptions/OrderControllerAdvice.java:20-25 | checkout with no cart ("Cart is empty") and with an empty cart are both 400 with their own message |
| OrderControllerAdvice.OrderServiceNotFoundIsNotFound | src/main/java/com/ecommerce/ecommerce/exceptions/OrderControllerAdvice.java:15-19 | an unknown user or order is a 404 with its own message |
| AdminControllerAdvice.HandleFirebaseAuthException | src/main/java/com/ecommerce/ecommerce/exceptions/AdminControllerAdvice.java:15-19 | 401 with "Firebase Authentication Error: " and the message |
| AdminControllerAdvice.HandleIllegalArgumentException | src/main/java/com/ecommerce/ecommerce/exceptions/AdminControllerAdvice.java:21-25 | 400 with "Invalid Argument: " and the message |
| AdminControllerAdvice.HandleRuntimeException | src/main/java/com/ecommerce/ecommerce/exceptions/AdminControllerAdvice.java:27-37 | a non-null message containing "not found" is 404 with the message; anything else is 500 with "Error: " and the message |
| AdminControllerAdvice.HandleGenericException | src/main/java/com/ecommerce/ecommerce/exceptions/AdminControllerAdvice.java:39-43 | 500 with "Internal Server Error: " and the message |
| AdminControllerAdvice.Handle | src/main/java/com/ecommerce/ecommerce/exceptions/AdminControllerAdvice.java:15-43 | the most specific handler is chosen: 401 exactly for an identity-provider failure, 400 exactly for an illegal argument (each with its prefix), 404 exactly for another runtime "not found" message, and 500 for the remaining runtime and checked exceptions |
| AdminControllerAdvice.ProductNotFoundIsNotFound | src/main/java/com/ecommerce/ecommerce/exceptions/AdminControllerAdvice.java:27-33 | "Product not found" from the admin product endpoints (`AdminController` and `AdminProductController`, the controllers this advice covers) is a 404 |
| AdminControllerAdvice.NoEmptyRule | src/main/java/com/ecommerce/ecommerce/exceptions/AdminControllerAdvice.java:27-37 | this advice has no validation rule: "Cart is empty" is a 500 here but a 400 from the order advice |

## Left out

- The HTTP controllers, routing, request validation of `CartItemRequest`, the security filter chain and the identity provider (Firebase) are not modelled. A decoded token is a parameter of `CreateOrUpdateUser`.
- The public product controller is covered by none of the three advices, so a "Product not found" it lets through is answered by the framework's default error handling, which is not modelled.
- Concurrency is not modelled: two interleaved calls for the same user, and the lost updates or duplicate lines they can cause, are out of scope. Every call runs alone.
- `ModelMapper` is modelled as a field-by-field projection (`Dtos.ToProductResponse`, `ProductService.NewProduct`). Its matching strategy, and how it handles nested category names, are not modelled.
- Product images, category details beyond id and name, and user fields other than those the services read or write are not modelled. Images are kept as a list that update preserves.
- Null fields are not modelled: a null quantity, price or product reference, or a `null` items list, and the `NullPointerException`s they cause. Checkout's `getItems() == null` test coincides with the empty test here.
- `BigDecimal` scale and rounding are not modelled, because `real` is exact. `BigDecimal` addition and multiplication are exact too.
- Ids: the database's per-table identity columns are modelled by one shared counter. Only freshness is modelled, not the actual values.
- Order-line ids come from the same counter, right after the order's own id.
- The persistence provider's message for a refused delete is a fixed placeholder string in `Errors.Message`. The provider's real text is not modelled.
- `CartService.GetCart`: the Java method is not transactional. Its single save either happens or not, so this is not observable in the model.
- `CartService.MapToCartResponse` and `OrderService.MapToOrderResponse`: state the product's id in each item. The other product fields are the projection `Dtos.ToProductResponse` of the stored row, which is not restated.
- Row order of the derived queries `findAll` and `orderRepository.findByUser`: they have no ORDER BY, so the database promises no order. The model fixes insertion order, and `ProductService.FindAll` and `OrderService.OwnedBy` state that order as one possible outcome, not as a promise of the Java code.
- The store invariant does not require order-line ids, or line ids in different carts, to be distinct. No lookup in the modelled services is by those ids.
