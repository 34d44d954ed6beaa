# Marketplace backend rules and browser checks, in Dafny

This project models the rule-bearing core of a small marketplace web
application. Sellers list products. Buyers place orders for them. Both sides
sign up and log in. Records live in a remote table service. The model
covers what the backend does between an HTTP request and a table call, and
the checks the browser makes before it sends a request:

- **The Orders table.** `backend/src/models/Order.js` is modelled in
  `order_model.dfy`. `backend/src/controllers/orders.controller.js` is
  modelled in `orders_controller.dfy`. This covers:
  - the `productId` gate on order creation;
  - the product snapshot copied into an order (name, seller and
    `price * quantity`), with the status forced to "Pending";
  - the case-sensitive status gate on update;
  - the status, buyer and seller listings;
  - the mapping of a missing record to 404.
- **The Products table.** `backend/src/models/Product.js` is modelled in
  `product_model.dfy`. The public product endpoints are in
  `products_controller.dfy`. A seller's own products are in
  `my_products_controller.dfy`, which holds the ownership gate on get,
  update and delete.
- **Sign-up and log-in.** `auth_controller.dfy` models these over the Users
  table, including the duplicate-email refusal and the single 401 answer for
  both ways a log-in can fail.
- **Error classification.** `error_handler.dfy` models the APIError
  "fail"/"error" split, the mapping from table errors to HTTP codes, and the
  choice between production and development responses.
- **The MyProducts to Products name-join migration.** `migration.dfy` models
  it as a loop that updates one MyProducts record at a time.
- **Browser code.** The order service checks and status normalisation are in
  `order_service.dfy`. The add-product form (price filter, validation and
  payload) is in `add_product_page.dfy`. The product search filter is in
  `search_results_page.dfy`.

Shared vocabulary:

- `js.dfy` holds JavaScript values, truthiness, `||`, `*`, `String(...)`,
  object picking and `Array.prototype.filter`.
- `text.dfy` holds decimal text, ASCII case mapping, `includes`, `trim` and
  `join`.
- `http.dfy` holds the response shapes.
- `store.dfy` holds the table service, as a class `Store.Table`:
  - the records in table order;
  - a counter that hands out fresh record ids;
  - an `outage` field. While it is set, every call to that table fails with
    that error.

Updates merge fields into a record. A lookup of an unknown id fails with
NOT_FOUND. A filter formula `{column} = 'text'` is equality on one column.

The code's own messages and lists show what it means to do: the "Order
not found" and "Product not found" 404 branches, the lists of valid
statuses, and the catch blocks that map a missing order to "Order not
found". Where the code does otherwise, the model follows the code:

- **Unknown products.** `Product.getById` throws (through
  `handleAirtableError`) on an unknown id. So:
  - createOrder answers 500, not 404, for an unknown product;
  - the "Product not found" 404 branches of products.controller.js are
    never taken;
  - getMyProductById, updateMyProduct and deleteMyProduct answer an unknown
    id with 500 and the message "Resource not found".
- **Handlers and middleware that are not installed.**
  - The running server (backend/server.js:17-21) serves `/api/products`
    from products.route.js, so products.controller.js is never mounted.
  - The `errorHandler` and `notFound` middleware of errorHandler.js are
    exported but never installed. A forwarded error reaches the server's
    own last handler (server.js:41-44), which answers 500
    `{ error: "Something went wrong!" }` (`Http.Delivered`).
  - `ProductsController.UnknownProductIs404` therefore says what
    errorHandler.js would answer were it mounted.
    `ProductsController.UnknownProductUnderServerHandler` says what the
    installed handler answers: 500.
- **updateOrder** answers 400, not 500, when the table fails, and both
  updateOrder and deleteOrder repeat the "Failed to … order: " prefix
  (`OrdersController.UpdateOrder`, `OrdersController.DeleteOrder`).
- **Order.getAll** reports `customerId`, and neither `buyerId` nor
  `sellerId`.
- **The two order status spellings.** createOrder stores "Pending", but the
  backend's status listing accepts only lower-case statuses and compares
  exactly. A new order is therefore never listed by
  `GET /orders/status?status=pending`
  (`OrdersController.ByStatusNeverListsNewOrders`).
- **The browser's status listing never succeeds.** orderService's
  `getOrdersByStatus` filters the result of `GET /orders`. That reply is
  the `{ data: [...] }` envelope, not an array. So `orders.filter` throws,
  and every accepted status query fails
  (`OrderService.StatusListingAlwaysFails`).
- **"Order not found" is never reported by the order service.** The `api`
  instance rethrows every failed request as a new Error carrying only a
  message (frontend/src/services/api.js:27-33). The catch blocks' test
  `error.status === 404` is therefore never true
  (`OrderService.NotFoundNeverRecognised`).
- **Sign-up and log-in answer 500 in cases the handlers do not name.**
  - bcryptjs rejects a password that is not text, so a sign-up without a
    text password answers 500 "Failed to create user: Illegal arguments:
    …" with no insert.
  - A log-in whose given or stored password is not text answers 500.
  - With no JWT secret set, jwt.sign throws: sign-up answers 500 after
    the user is stored, and log-in answers 500 too.

## Model

| member | source | states |
|---|---|---|
| `Text.Capitalize` | frontend/src/services/orderService.js:69 | the result has the input's length, its first character upper-cased and every later character lower-cased |
| `Text.CapitalizeMatchesLower` | frontend/src/services/orderService.js:68-73 | for a capitalised word w, capitalising s yields w exactly when s lower-cases to w's lower-case form (both directions) |
| `Text.DecimalTextStartsWithFour` | backend/src/utils/errorHandler.js:6 | the decimal text of an integer starts with "4" exactly when it is non-negative with leading digit 4 |
| `Text.JoinContainsPart` | backend/src/utils/errorHandler.js:27 | every part occurs whole inside the joined text |
| `Text.Before` | backend/src/models/Order.js:49 | `split('T')[0]` is the longest prefix without 'T', followed in the input by 'T' when shorter than it |
| `Js.Or` | backend/src/models/Order.js:17 | `a \|\| b` is a when a is truthy and b otherwise |
| `Js.TypeOf` | backend/src/controllers/auth.controller.js:46 | `typeof`: "string" exactly for text, "undefined" exactly for a missing value, "number" exactly for numbers and NaN |
| `Js.Mul` | backend/src/controllers/orders.controller.js:50 | the product of the two numeric coercions, NaN when either is not a number |
| `Js.Filter` | backend/src/controllers/orders.controller.js:143 | no longer than the input; an element is kept iff it is in the input and passes the test; nothing kept when nothing passes |
| `Js.FilterIsSubsequence` | frontend/src/pages/SearchResultsPage.jsx:17-20 | a filter keeps its elements in their original order (a subsequence) |
| `Js.FilterIdempotent` | frontend/src/pages/AddProductPage.jsx:21 | filtering twice with the same test is filtering once |
| `ErrorHandler.APIError` | backend/src/utils/errorHandler.js:2-11 | keeps message and code; status "fail" when the code's decimal text starts with 4, else "error"; always operational |
| `ErrorHandler.APIErrorFailIffLeadingFour` | backend/src/utils/errorHandler.js:6 | "fail" iff the code is non-negative with leading decimal digit 4, so 4, 40 and 4000 are "fail" too |
| `ErrorHandler.APIErrorFailIffClientError` | backend/src/utils/errorHandler.js:6 | among three-digit codes exactly 400..499 are "fail" |
| `ErrorHandler.HandleAirtableError` | backend/src/utils/errorHandler.js:14-22 | total: NOT_FOUND gives 404 "Resource not found", INVALID_PERMISSIONS 403 "Permission denied", anything else 500 "Database error" |
| `ErrorHandler.HandleAirtableErrorCodes` | backend/src/utils/errorHandler.js:14-22 | each of 404, 403, 500 arises iff its table error tag does; the status is "fail" iff the code is not 500 |
| `ErrorHandler.HandleValidationError` | backend/src/utils/errorHandler.js:25-29 | code 400, operational, message = "Invalid input data. " followed by the messages joined by ". " |
| `ErrorHandler.ValidationErrorMentionsEveryField` | backend/src/utils/errorHandler.js:25-29 | every field's message occurs in the error message, whose status is "fail" |
| `ErrorHandler.Normalise` | backend/src/utils/errorHandler.js:33-34 | a missing or zero code becomes 500, a missing or empty status "error", present ones are kept, nothing else changes |
| `ErrorHandler.NormaliseIdempotent` | backend/src/utils/errorHandler.js:33-34 | normalising twice equals normalising once |
| `ErrorHandler.HandleError` | backend/src/utils/errorHandler.js:32-61 | development: the error's own code with status, error and message; production: operational errors keep code, status and message, others become 500 "Something went wrong" |
| `ErrorHandler.DevelopmentKeepsCode` | backend/src/utils/errorHandler.js:36-43 | in development the response code is the error's code, 500 when it had none |
| `ErrorHandler.ProductionHidesDetails` | backend/src/utils/errorHandler.js:44-60 | in production the body is status and message only, the message is the error's own or "Something went wrong", and non-operational errors get 500 |
| `ErrorHandler.ProductionKeepsAPIErrors` | backend/src/utils/errorHandler.js:46-51 | in production an APIError is answered with its own code, status and message |
| `ErrorHandler.NotFound` | backend/src/utils/errorHandler.js:71-74 | forwards a 404 APIError with status "fail" naming the URL |
| `ProductModel.MaxRecords` | backend/src/models/Product.js:10 | a positive limit is kept, a missing (0) one becomes 100 |
| `ProductModel.Listed` | backend/src/models/Product.js:12-19 | a listed product has its id and exactly the five product columns the record holds |
| `ProductModel.GetAll` | backend/src/models/Product.js:6-24 | the first min(rows, limit or 100) records in table order, each listed; a table error is rethrown through handleAirtableError |
| `ProductModel.GetById` | backend/src/models/Product.js:26-34 | the flattened record with that id; an unknown id is a 404 APIError "Resource not found", never null |
| `ProductModel.ProductFields` | backend/src/models/Product.js:39-45 | exactly the name, description, price, image and sellerId given, nothing else |
| `ProductModel.Create` | backend/src/models/Product.js:36-52 | appends one record of the five product columns and returns it with its fresh id; on a table error nothing changes |
| `ProductModel.UpdateFields` | backend/src/models/Product.js:56 | every given field except `createdAt`, with its value |
| `ProductModel.Update` | backend/src/models/Product.js:54-66 | merges the fields (without createdAt) into that record only; unknown id gives a 404 APIError and no change |
| `ProductModel.Delete` | backend/src/models/Product.js:68-76 | removes that record only and returns it; unknown id gives a 404 APIError and no change |
| `ProductModel.FindByName` | backend/src/models/Product.js:78-95 | at most one record, the first with exactly that name, present iff some record has that name |
| `ProductModel.GetProductsBySellerId` | backend/src/models/Product.js:97-112 | the records whose sellerId is the argument, in table order, flattened |
| `ProductModel.SellerListingIsExact` | backend/src/models/Product.js:97-108 | every listed product is a record of that seller, and every record of that seller is listed |
| `OrderModel.DatePart` | backend/src/models/Order.js:49 | a prefix of the timestamp containing no 'T' |
| `OrderModel.NewOrderFields` | backend/src/models/Order.js:42-51 | the six copied fields that are defined, the date of `now`, status "Pending" whatever the caller gave, and no other field |
| `OrderModel.Create` | backend/src/models/Order.js:40-61 | appends exactly that record and returns it with its fresh id; a table error becomes "Failed to create order: ..." with no change |
| `OrderModel.Summary` | backend/src/models/Order.js:9-18 | id, the six listed fields as stored, status or "pending" when missing, and no other field |
| `OrderModel.Summaries` | backend/src/models/Order.js:9-18 | one summary per record, in table order |
| `OrderModel.GetAll` | backend/src/models/Order.js:4-26 | the summaries of all records; a table error becomes "Failed to fetch orders: ..." |
| `OrderModel.SummaryOfNewOrder` | backend/src/models/Order.js:9-51 | a created order is listed by getAll as "Pending" with its date and copied fields, and without buyerId or sellerId |
| `OrderModel.SummaryLeavesOutParties` | backend/src/models/Order.js:9-18 | getAll reports neither buyerId nor sellerId |
| `OrderModel.GetById` | backend/src/models/Order.js:28-38 | null exactly on NOT_FOUND (unknown id), the flattened record when present, other errors rethrown unchanged |
| `OrderModel.Update` | backend/src/models/Order.js:63-78 | merges the given fields into that order only; null on NOT_FOUND with no change; other errors wrapped |
| `OrderModel.Delete` | backend/src/models/Order.js:80-90 | removes that order only and returns it; null on NOT_FOUND; the id is gone afterwards |
| `OrderModel.Listing` | backend/src/models/Order.js:148-158 | id, the six order fields as stored, status defaulting to "pending", orderDate defaulting to now |
| `OrderModel.Listings` | backend/src/models/Order.js:148-158 | one listing per record, in order |
| `OrderModel.GetByBuyerId` | backend/src/models/Order.js:137-163 | the listings of the records whose buyerId is the argument, in table order; errors rethrown as they are |
| `OrderModel.GetBySellerId` | backend/src/models/Order.js:165-191 | the same for sellerId |
| `OrderModel.ListingIsExact` | backend/src/models/Order.js:137-191 | every listed order carries the requested buyer or seller id, and every stored order carrying it is listed |
| `OrdersController.Quantity` | backend/src/controllers/orders.controller.js:33 | the body's quantity, 1 when absent |
| `OrdersController.OrderData` | backend/src/controllers/orders.controller.js:50-61 | productId from the body, productName and sellerId from the product, the caller as buyer, total = price × quantity, status "Pending" |
| `OrdersController.StoredOrder` | backend/src/controllers/orders.controller.js:50-64 | the stored order holds only the copied fields, date and status, with the snapshot values above and the date part of now |
| `OrdersController.CreateOrder` | backend/src/controllers/orders.controller.js:31-74 | falsy productId: 400 and no insert; lookup failure: 500 with details and no insert; otherwise exactly one order appended and 201; never 404 |
| `OrdersController.UpdateOrder` | backend/src/controllers/orders.controller.js:76-100 | an invalid truthy status gives 400 and no change; 404 iff the status passes and the order is missing; 200 iff it is present, with only that order merged; any other table error gives 400 "Failed to update order: Failed to update order: <message>" and no change |
| `OrdersController.DeleteOrder` | backend/src/controllers/orders.controller.js:102-120 | 404 iff the order is missing; 200 iff present, removing only it and echoing it; any other table error gives 500 "Failed to delete order: Failed to delete order: <message>" and no change |
| `OrdersController.DeleteTwice` | backend/src/controllers/orders.controller.js:102-120 | deleting an order just deleted answers 404 "Order not found" |
| `OrdersController.GetAllOrders` | backend/src/controllers/orders.controller.js:5-14 | 200 with `{ data }` of all summaries, or 500 "Failed to fetch orders" |
| `OrdersController.GetOrderById` | backend/src/controllers/orders.controller.js:16-29 | 404 iff Order.getById yields null; 200 with the record when present; 500 on other errors |
| `OrdersController.WithStatus` | backend/src/controllers/orders.controller.js:143 | exactly the orders whose status equals the query, as a subsequence |
| `OrdersController.GetOrdersByStatus` | backend/src/controllers/orders.controller.js:134-151 | missing or invalid status gives 400; otherwise exactly the matching orders in table order; errors give 500 with the doubled prefix |
| `OrdersController.ByStatusNeverListsNewOrders` | backend/src/controllers/orders.controller.js:138-143 | an order stored as "Pending" is never in a successful status listing |
| `OrdersController.GetOrdersByBuyerId` | backend/src/controllers/orders.controller.js:153-171 | 200 with the buyer's listings; `[]` and never an error when nothing matches |
| `OrdersController.GetOrdersBySellerId` | backend/src/controllers/orders.controller.js:173-191 | the same for the seller |
| `Http.Delivered` | backend/server.js:41-44 | a handler's own reply is sent as it is; a forwarded error becomes 500 "Something went wrong!", whatever the error |
| `ProductsController.GetAllProducts` | backend/src/controllers/products.controller.js:4-7 | 200 with the first min(rows, 100) listed products, or the table error forwarded to the middleware |
| `ProductsController.GetProductById` | backend/src/controllers/products.controller.js:9-18 | 200 with the record; an unknown id forwards a 404 APIError |
| `ProductsController.UnknownProductIs404` | backend/src/controllers/products.controller.js:9-18 | were errorHandler.js's middleware mounted, an unknown id would be answered 404, in production with status "fail" and "Resource not found" |
| `ProductsController.UnknownProductUnderServerHandler` | backend/server.js:41-44 | under the installed last error handler an unknown product id is answered 500 "Something went wrong!" |
| `ProductsController.CreateProduct` | backend/src/controllers/products.controller.js:20-34 | 400 iff name or price is falsy (price 0 included) and nothing is created; 201 with exactly one new record; 500 on table error |
| `ProductsController.UpdateProduct` | backend/src/controllers/products.controller.js:36-51 | 200 iff the product exists, merging only it; otherwise 500 and no change; never 404 |
| `ProductsController.DeleteProduct` | backend/src/controllers/products.controller.js:53-66 | 200 iff the product exists, removing only it; otherwise 500 and no change; never 404 |
| `MyProductsController.GetAllMyProducts` | backend/src/controllers/myProducts.controller.js:4-17 | exactly the caller's products, every one owned by the caller; 500 with the error message on failure |
| `MyProductsController.WithSeller` | backend/src/controllers/myProducts.controller.js:21-24 | the body with sellerId overridden by the caller, every other field unchanged |
| `MyProductsController.CreateMyProduct` | backend/src/controllers/myProducts.controller.js:19-32 | one record appended, owned by the caller whatever the body says, 201; 400 with the message on failure |
| `MyProductsController.GetMyProductById` | backend/src/controllers/myProducts.controller.js:34-49 | 200 iff found and owned; 404 iff found and not owned; 500 with the message otherwise |
| `MyProductsController.UpdateMyProduct` | backend/src/controllers/myProducts.controller.js:51-67 | non-owners get 404 and nothing is written; the table changes only for the owner, by merging the body |
| `MyProductsController.DeleteMyProduct` | backend/src/controllers/myProducts.controller.js:69-85 | non-owners get 404 and nothing is removed; the owner's product alone is removed |
| `MyProductsController.CreateThenRead` | backend/src/controllers/myProducts.controller.js:19-49 | a product just created is read back by its creator with 200 and the same record |
| `AuthController.FindByEmail` | backend/src/models/User.js:7-20 | the first user whose email equals String(email), none iff no user has it; failures become "Failed to find user: ..." |
| `AuthController.UserFields` | backend/src/models/User.js:22-39 | the stored user holds the new userId, the email as given and the hash of the text password, and nothing else |
| `AuthController.Signup` | backend/src/controllers/auth.controller.js:5-33 | a registered email gives 400 and a table failure 500, both with no insert; for an unregistered email, a non-text password gives 500 "Failed to create user: Illegal arguments: …" with no insert, otherwise exactly one user is appended; 201 with a token over its userId and email iff unregistered, text password and a secret; with no secret 500 after the insert |
| `AuthController.Login` | backend/src/controllers/auth.controller.js:35-65 | 401 "Invalid email or password" iff the email is unknown or both passwords are text and do not match; 500 "Illegal arguments" when either password is not text; 200 with the stored userId, email and their token iff they match and a secret is set, 500 without one |
| `AuthController.LoginFailuresIndistinguishable` | backend/src/controllers/auth.controller.js:40-49 | an unknown email and a wrong text password get the identical response |
| `AuthController.SignupThenLogin` | backend/src/controllers/auth.controller.js:5-61 | sign-up answers 201, 400 (iff the email is registered) or 500; 201 iff a text password and a secret, and then logging in with the same body returns the new userId; with no secret both answer 500 and the user is stored anyway |
| `Migration.SyncFields` | backend/src/utils/migration.js:19-25 | the record's name, description, price and image as they are, plus productId |
| `Migration.Synced` | backend/src/utils/migration.js:11-26 | with a same-named product, productId becomes its id and no other column changes; without one the record is unchanged; the id is kept |
| `Migration.SyncAll` | backend/src/utils/migration.js:9-28 | every record synced, same length and order |
| `Migration.FirstMatch` | backend/src/utils/migration.js:11-14 | the product matched is one with that name, and no earlier product has it |
| `Migration.SyncRecord` | backend/src/utils/migration.js:11-26 | one loop step rewrites only record i, to its synced form; a Products failure changes nothing |
| `Migration.SyncProducts` | backend/src/utils/migration.js:5-35 | succeeds iff neither table fails (an empty MyProducts never reads Products); then every record is synced and Products is untouched; a failure leaves MyProducts unchanged |
| `OrderService.Rethrow404` | frontend/src/services/orderService.js:49-54 | an error with status 404 becomes "Order not found", every other message gets the operation's prefix |
| `OrderService.Received` | frontend/src/services/api.js:27-33 | the body of a 2xx reply is handed over; any other reply becomes an error with no status whose message is the body's `error` text or axios's own; a forwarded error arrives as "Something went wrong!" |
| `OrderService.NotFoundNeverRecognised` | frontend/src/services/orderService.js:49-54 | for every error that comes through `api`, the catch block only prefixes the message and never reports "Order not found" |
| `OrderService.CreateOrderProblem` | frontend/src/services/orderService.js:26-32 | missing productId or customerId, then missing or < 1 quantity, each with its message; nothing otherwise |
| `OrderService.CreateOrder` | frontend/src/services/orderService.js:23-38 | a request is sent iff no problem, and it is `POST /orders` with the data unchanged; errors are prefixed |
| `OrderService.NonNumericQuantityIsSent` | frontend/src/services/orderService.js:30-32 | a quantity of "abc" passes the check and is sent |
| `OrderService.UpdateOrderStatus` | frontend/src/services/orderService.js:40-55 | sent iff the status is one of the four lower-case statuses, as exactly `{ status }`, which passes the backend gate |
| `OrderService.StatusMatches` | frontend/src/services/orderService.js:76 | exactly the orders whose status equals the query ignoring case, as a subsequence |
| `OrderService.GetOrdersByStatus` | frontend/src/services/orderService.js:65-80 | sent iff the capitalised query is one of the four statuses; a body that is not an array fails on `filter`; for an array, exactly the case-insensitive matches in order, and a non-text status fails |
| `OrderService.StatusAcceptedInAnyCase` | frontend/src/services/orderService.js:68-73 | a query is accepted iff it lower-cases to one of the four statuses |
| `OrderService.StatusListingAlwaysFails` | frontend/src/services/orderService.js:74-76 | for every accepted query, fed the reply of `GET /orders`, the listing fails: "orders.filter is not a function" on the `{ data }` envelope, or the backend's "Failed to fetch orders" |
| `OrderService.MatchingOrderIsListed` | frontend/src/services/orderService.js:75-76 | were the body an array of orders with text statuses, an order matching an accepted query ignoring case would be listed |
| `OrderService.CancelOrder` | frontend/src/services/orderService.js:82-91 | sends `{ status: "cancelled" }`, which passes the backend gate |
| `OrderService.AcceptOrder` | frontend/src/services/orderService.js:93-102 | sends `{ status: "processing" }`, which passes the backend gate |
| `AddProductPage.FilterPrice` | frontend/src/pages/AddProductPage.jsx:21 | only digits and dots, a subsequence of the input, every digit and dot of the input kept |
| `AddProductPage.FilterPriceKeepsPrices` | frontend/src/pages/AddProductPage.jsx:21 | price text passes unchanged, so filtering twice is filtering once |
| `AddProductPage.ParseFloat` | frontend/src/pages/AddProductPage.jsx:55 | NaN iff there is no digit before the first dot nor right after it |
| `AddProductPage.ParseFloatOfDigits` | frontend/src/pages/AddProductPage.jsx:55 | the decimal text of n parses back to n |
| `AddProductPage.DotPassesPriceCheck` | frontend/src/pages/AddProductPage.jsx:34 | "." is not refused and parses to NaN |
| `AddProductPage.WholePriceCheck` | frontend/src/pages/AddProductPage.jsx:34-36 | a whole-number price is refused iff it is 0 |
| `AddProductPage.Problems` | frontend/src/pages/AddProductPage.jsx:29-45 | an error for a field iff it is blank after trimming (price: empty or not positive), with that field's message, and no other key |
| `AddProductPage.PayloadOf` | frontend/src/pages/AddProductPage.jsx:53-56 | the form text except price, and the parsed price |
| `AddProductPage.DotPriceIsSubmitted` | frontend/src/pages/AddProductPage.jsx:34-56 | a form with price "." and other fields filled validates and submits a NaN price |
| `AddProductPage.AddProductForm.constructor` | frontend/src/pages/AddProductPage.jsx:9-15 | four empty fields and no errors |
| `AddProductPage.AddProductForm.HandleChange` | frontend/src/pages/AddProductPage.jsx:17-27 | only the edited field changes (price filtered), and only its error is cleared |
| `AddProductPage.AddProductForm.ValidateForm` | frontend/src/pages/AddProductPage.jsx:29-45 | the errors become exactly the problems of the form, and the answer is true iff there are none |
| `AddProductPage.AddProductForm.Submit` | frontend/src/pages/AddProductPage.jsx:47-64 | a payload is sent iff the form has no problems, and it is the form's payload; a failed request leaves only the submit error |
| `SearchResultsPage.Test` | frontend/src/pages/SearchResultsPage.jsx:17-20 | keeps iff the name, or else the description, contains the query ignoring case; None where `toLowerCase` would throw |
| `SearchResultsPage.Search` | frontend/src/pages/SearchResultsPage.jsx:12-32 | no search for an absent or empty query; a failed fetch reports its message; a fetched list fails with the `toLowerCase` TypeError iff some product's test throws, and otherwise is a subsequence of it holding exactly the kept products |
| `SearchResultsPage.SearchKeepsExactlyTheMatches` | frontend/src/pages/SearchResultsPage.jsx:17-20 | with text names and descriptions, a product is found iff its name or description contains the query ignoring case |
| `SearchResultsPage.SearchIgnoresQueryCase` | frontend/src/pages/SearchResultsPage.jsx:18-19 | searching for a query and for its lower-case form give the same outcome |

## Left out

- The table service client is not part of this model; `Store.Table` stands
  in for it. A formula filter is exact equality on one column. Its quoting,
  and what a quote in the value does to it, are not modelled. `view` order
  is table order.
- A failing table fails every call for as long as the model runs, so a
  failure that begins halfway through a sequence of calls cannot happen.
- Migration.SyncProducts: because of that, "the first failure aborts the
  rest" is only seen as a failure on the first record. Updates already made
  before a mid-loop failure are not modelled.
- `backend/src/routes/products.route.js`, which the running server mounts
  for `/api/products`, is not part of this model. products.controller.js is
  modelled as written.
- `backend/src/models/MyProduct.js` is not part of this model.
  `MyProduct.getAll` is taken to list every MyProducts record in table
  order, flattened, and to fail with the table's own error.
- bcrypt, jsonwebtoken and uuid are foreign libraries. Hashing and
  comparing text, and signing under the environment's secret, are the
  functions of an `AuthController.Crypto` value, and the new userId is a
  parameter. Their refusals of a non-text password and of a missing
  secret are modelled. The salt, bcrypt's 72-byte limit and the token's
  24-hour expiry are not modelled.
- Floating point. Numbers are integers: prices are in whole units of the
  smallest denomination.
  - `ParseFloat` yields a mantissa and a decimal scale.
  - Js.ToNumber: text is read as a number only when it is all digits.
    "1.5", "-2" and " 3" read as NaN here, unlike in JavaScript.
- OrdersController.StoredOrder: JSON encoding at the table client and in
  `res.json` is not modelled. A non-numeric price or quantity gives a NaN
  `totalAmount`, which the model stores and echoes as NaN; over the wire
  JSON sends it as null, and what the table service then keeps is not
  modelled.
- AddProductPage.PayloadOf: the payload is the object handed to the create
  request. Its JSON encoding, which turns a NaN price into null, is not
  modelled.
- The clock. `now` is a parameter.
- Express wiring: server, app, routes, authentication middleware, and
  `catchAsync` (a forwarded error is the `Next` reply). Logging and the
  monitoring helper are left out too.
- Error stack traces (`captureStackTrace`, the `stack` field of the
  development response).
- Concurrency, and the non-atomic read-the-product-then-write-the-order
  sequence.
- Pass-throughs with no rule of their own:
  - `getCustomerOrders` (orders.controller.js:122-132);
  - `Order.getByCustomerId`;
  - the unused `Order.getOrdersByBuyerId` / `getOrdersBySellerId`
    duplicates (Order.js:105-135);
  - orderService's `getAllOrders`, `getOrderById` and `getCustomerOrders`.
- The add-product page's loading flag, navigation and rendering, and the
  search page's loading flag and rendering.
- Text.Lower, Text.Upper, Text.Capitalize: ASCII letters only. Other
  letters are left as they are, where JavaScript would map them.
- Text.IsBlank: `trim` is modelled with the common whitespace characters
  (space, tab, line breaks, no-break space, line and paragraph separators,
  byte order mark). Other Unicode space separators are not included.
- The messages of JavaScript TypeErrors are the constants
  `OrderService.STATUS_TYPE_ERROR` and `SearchResultsPage.FIELD_TYPE_ERROR`,
  not the engine's exact wording.
