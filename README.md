# life-service-platform: a verified model of the backend handlers and client reducers

This project models the core of a local-services marketplace written in
JavaScript. On the backend, an Express server over a MongoDB store lets
customers order services from providers:

- handlers for orders, services, categories and accounts;
- the Order, Service and Category schemas;
- the Bearer-token and role middleware;
- the error middleware;
- the JSON response helpers.

On the frontend, two Redux slices hold the client's lists of orders and
services.

How the model is built:

- **The store.** MongoDB is the class `Store.Db`, with four maps from ids to
  records: users, services, categories and orders. Its `Valid()` is the
  consistency the handlers keep:
  - every record passes its schema;
  - category names and user emails are unique;
  - every order's id is on its buyer's, its provider's and its service's
    `orders` lists;
  - every service's id is on its category's and its provider's `services`
    lists.
- **Handlers** are methods that `modify` the store. Each states:
  - its reply for every branch of the source, with the exact status codes
    and messages;
  - its whole new state;
  - that it keeps `Valid()`, or exactly when it does not.
- **Document-store semantics.**
  - `save()` runs the schema's validators. A failure reaches the handler's
    `catch` and gives a 500, and that save stores nothing.
  - `findByIdAndUpdate` on a missing document does nothing.
  - `$push` appends an id, and `$pull` removes every copy of it.
- **Pure parts** are functions with lemmas:
  - the enum checks;
  - the rating mean;
  - the `Authorization` header split;
  - the error-to-status mapping;
  - pagination;
  - the service listing's filter, sort and window;
  - the list operations the reducers use.
- **Client reducers** are methods of the classes `OrdersSlice.OrdersState`
  and `ServicesSlice.ServicesState`. They update the fields in place.
- **Foreign calls are parameters:**
  - JWT verification (`verify`) and signing (`sign`);
  - bcrypt hashing (`hash`) and comparison (`matches`);
  - the e-mail syntax check of the route validator (`isEmail`);
  - the clock (`now`);
  - freshly generated ObjectIds (`newId`, required to be unused).
- **Route validation.** A handler that returns 400 with `errors` when the
  route's `express-validator` checks fail has those checks as its
  `requires`. A handler that never consults the validators gets no such
  precondition, and its inputs are checked only by the schema. This is the
  case for `addReview`, `updateProfile`, `changePassword`, `updateOrderStatus`
  and `processPayment`.

Source paths below are relative to the repository root.

## Model

| member | source | states |
|---|---|---|
| Common.OrElse | life-service-platform/backend/controllers/ServiceController.js:163-164 | `x \|\| old` on a string field: a supplied non-empty value replaces the old one; an absent or empty one keeps it |
| Common.OrElseOpt | life-service-platform/backend/controllers/AuthController.js:121 | `x \|\| old` on an optional string field: a supplied non-empty value replaces the old one; an absent or empty one keeps the old value, absent or not |
| Common.OrElseNum | life-service-platform/backend/controllers/ServiceController.js:166-167 | `x \|\| old` on a number: 0 is falsy and never replaces the old value |
| Common.Pull | life-service-platform/backend/controllers/ServiceController.js:195-202 | `$pull` removes every occurrence of the id, keeps membership of every other id, and the list shrinks by exactly the number of occurrences |
| Common.PullAbsent | life-service-platform/backend/controllers/ServiceController.js:152-154 | pulling an id the list does not hold leaves it unchanged |
| OrderModel.ParseStatus | life-service-platform/backend/models/Order.js:30-34 | the status enum accepts exactly the five stored names, each giving the status of that name |
| OrderModel.StatusRoundTrip | life-service-platform/backend/models/Order.js:30-34 | parsing a status's stored name gives that status back |
| OrderModel.ParsePaymentStatus | life-service-platform/backend/models/Order.js:35-39 | the payment-status enum accepts exactly "unpaid", "paid", "refunded" |
| OrderModel.ParsePaymentMethod | life-service-platform/backend/models/Order.js:40-44 | the payment-method enum accepts exactly "wechat", "alipay", "card" |
| OrderModel.ValidOrder | life-service-platform/backend/models/Order.js:19-59 | the Order schema's validators on the fields that can fail: total price ≥ 0, quantity ≥ 1, non-empty address and phone (the enums are datatypes and cannot fail) |
| OrderModel.NewOrder | life-service-platform/backend/models/Order.js:19-59 | a new order defaults to pending and unpaid, with no completion date; it passes the schema iff total ≥ 0, quantity ≥ 1 and address and phone are non-empty |
| OrderModel.SchemaAsWritten | life-service-platform/backend/models/Order.js:3-70 | under the schema as written a save drops `paymentDate` and `transactionId` and keeps every other field |
| OrderModel.PaymentDateDroppedAsWritten | life-service-platform/backend/controllers/OrderController.js:213-222 | with the schema as written, the order stored after payment never has the payment date the handler assigned |
| ServiceModel.ParseServiceStatus | life-service-platform/backend/models/Service.js:39-43 | the service-status enum accepts exactly "available", "unavailable" |
| ServiceModel.ValidReview | life-service-platform/backend/models/Service.js:56-65 | a review's rating lies in 1..5 and its comment is non-empty |
| ServiceModel.ValidService | life-service-platform/backend/models/Service.js:3-71 | the Service schema's validators: non-empty title and description, price and duration ≥ 0, no empty image, rating in [0, 5], every review valid |
| ServiceModel.NewService | life-service-platform/backend/models/Service.js:3-49 | a new service is available, rated 0, with no reviews and no orders; it passes the schema iff title and description are non-empty, price and duration ≥ 0 and no image is empty |
| ServiceModel.ReviewedBy | life-service-platform/backend/controllers/ServiceController.js:226-228 | `reviews.find` by the caller's id finds a review: some review has that user |
| ServiceModel.RatingSum | life-service-platform/backend/controllers/ServiceController.js:244 | the left fold of `reduce` adding each review's rating to the accumulator from 0 |
| ServiceModel.MeanRating | life-service-platform/backend/controllers/ServiceController.js:244 | the sum of the ratings divided by the number of reviews, for a non-empty list |
| ServiceModel.RatingSumBounds | life-service-platform/backend/models/Service.js:56-61 | the sum of n ratings each in 1..5 lies in [n, 5n] |
| ServiceModel.MeanRatingInRange | life-service-platform/backend/controllers/ServiceController.js:244 | the recomputed rating, the mean of valid review ratings, lies in [1, 5], so it always meets the schema's [0, 5] bound |
| ServiceModel.RatingSumAppend | life-service-platform/backend/controllers/ServiceController.js:241-244 | pushing a review adds exactly its rating to the `reduce` sum |
| CategoryModel.ValidCategory | life-service-platform/backend/models/Category.js:4-9 | the Category schema's one validator: the name is required |
| CategoryModel.AddKeepsNamesUnique | life-service-platform/backend/models/Category.js:4-9 | adding a category under a name no category holds keeps the unique index on names satisfied |
| CategoryModel.RenameKeepsNamesUnique | life-service-platform/backend/controllers/CategoryController.js:79-92 | renaming to the category's own name or to a free name keeps names unique |
| UserModel.ToPublic | life-service-platform/backend/controllers/AuthController.js:44-50 | the user in a register or login reply carries id, name, email, phone and role, and no password |
| Store.PushOrder | life-service-platform/backend/controllers/OrderController.js:47-54 | `$push` onto one user's `orders`: that user's list gains the id at its end, a missing user is left alone, every other user is unchanged |
| Store.PushService | life-service-platform/backend/controllers/ServiceController.js:36-38 | `$push` onto one user's `services`, with the same frame |
| Store.PullService | life-service-platform/backend/controllers/ServiceController.js:195-197 | `$pull` from one user's `services`, with the same frame |
| Store.PushMember | life-service-platform/backend/controllers/ServiceController.js:41-43 | `$push` onto one category's `services`, with the same frame |
| Store.PullMember | life-service-platform/backend/controllers/ServiceController.js:200-202 | `$pull` from one category's `services`, with the same frame |
| Store.PushOrderKeeps | life-service-platform/backend/controllers/OrderController.js:47-49 | a push onto `orders` keeps every email, every `services` list and every id already listed |
| Store.PushOrderTwice | life-service-platform/backend/controllers/OrderController.js:47-54 | the two pushes for buyer and provider add the id once to each list, or twice to one list when the buyer is the provider |
| Store.AddOrderKeepsConsistent | life-service-platform/backend/controllers/OrderController.js:44-59 | storing a valid new order and pushing its id onto its buyer's, provider's and service's lists keeps the store consistent |
| Store.OrdersIndexedAfterOrder | life-service-platform/backend/controllers/OrderController.js:47-59 | after those three pushes every order, the new one included, is on its parties' and its service's lists |
| Store.PushServiceKeeps | life-service-platform/backend/controllers/ServiceController.js:36-38 | a push onto `services` keeps emails, `orders` lists and every id already listed |
| Store.PullServiceKeeps | life-service-platform/backend/controllers/ServiceController.js:195-197 | a pull from `services` keeps emails, `orders` lists and every other id |
| Store.PushMemberKeeps | life-service-platform/backend/controllers/ServiceController.js:41-43 | a push onto a category's list keeps every name and every id already listed |
| Store.PullMemberKeeps | life-service-platform/backend/controllers/ServiceController.js:200-202 | a pull from a category's list keeps every name and every other id |
| AuthMiddleware.Authorize | life-service-platform/backend/middleware/authMiddleware.js:33-40 | passes iff the caller's role is listed, otherwise 403 with the permission message |
| AuthMiddleware.VerifyProvider | life-service-platform/backend/middleware/authMiddleware.js:43-48 | passes iff the role is provider or admin, otherwise 403 |
| AuthMiddleware.VerifyAdmin | life-service-platform/backend/middleware/authMiddleware.js:51-56 | passes iff the role is admin, otherwise 403 |
| AuthMiddleware.GatesNest | life-service-platform/backend/middleware/authMiddleware.js:33-56 | whoever passes the admin gate passes the provider gate, and the provider gate is `authorize('provider', 'admin')` |
| AuthMiddleware.StartsWith | life-service-platform/backend/middleware/authMiddleware.js:9 | `startsWith`: the prefix is no longer than the header and equals its first characters |
| AuthMiddleware.Split | life-service-platform/backend/middleware/authMiddleware.js:12 | `split(' ')` gives at least one piece and no piece holds a space |
| AuthMiddleware.SplitNoSeparator | life-service-platform/backend/middleware/authMiddleware.js:12 | a string without spaces splits into itself |
| AuthMiddleware.SplitAtFirst | life-service-platform/backend/middleware/authMiddleware.js:12 | splitting at the first space gives the part before it followed by the pieces of the rest |
| AuthMiddleware.BearerToken | life-service-platform/backend/middleware/authMiddleware.js:12 | the token taken from the header has no space in it |
| AuthMiddleware.BearerTokenOfHeader | life-service-platform/backend/middleware/authMiddleware.js:9-12 | the header `Bearer <token>` passes the prefix check and yields exactly its token |
| AuthMiddleware.BearerTokenStopsAtSpace | life-service-platform/backend/middleware/authMiddleware.js:12 | with extra words after the token, only the word after "Bearer" is taken |
| AuthMiddleware.Protect | life-service-platform/backend/middleware/authMiddleware.js:5-30 | a missing or non-Bearer header is 401 "not logged in"; a missing, empty or unverifiable token is 401 "invalid token"; a verified token continues with the user its id names |
| OrderController.PassesOrderValidators | life-service-platform/backend/routes/OrderRoutes.js:10-15 | the create route's checks: quantity an integer ≥ 1, non-empty address, phone and payment method |
| OrderController.IsParty | life-service-platform/backend/controllers/OrderController.js:111 | the buyer, the provider or an admin, the parties who may read an order (and cancel it, line 172) |
| OrderController.MayUpdateStatus | life-service-platform/backend/controllers/OrderController.js:134 | the provider or an admin |
| OrderController.MayPay | life-service-platform/backend/controllers/OrderController.js:204 | the buyer only |
| OrderController.PermissionsNest | life-service-platform/backend/controllers/OrderController.js:203-206 | paying is open only to the buyer and updating only to the provider or an admin; both are subsets of the parties who may read or cancel |
| OrderController.PlaceOrder | life-service-platform/backend/controllers/OrderController.js:17-44 | unknown service 404, unavailable service 400; success iff the service is available, the payment method is in its enum and the price is non-negative, with a price snapshot of price × quantity and the defaults; anything else 500 |
| OrderController.CreateOrder | life-service-platform/backend/controllers/OrderController.js:7-66 | replies as `PlaceOrder` does; on success stores the order and pushes its id onto the buyer's, the provider's and the service's lists, twice onto one list when the buyer is the provider; nothing is written otherwise; keeps the store consistent |
| OrderController.GetUserOrders | life-service-platform/backend/controllers/OrderController.js:69-81 | exactly the orders whose buyer is the caller |
| OrderController.GetProviderOrders | life-service-platform/backend/controllers/OrderController.js:84-96 | exactly the orders whose provider is the caller |
| OrderController.ListingsAreIndexed | life-service-platform/backend/controllers/OrderController.js:47-54 | in a consistent store both listings are contained in the caller's own `orders` list |
| OrderController.GetOrderById | life-service-platform/backend/controllers/OrderController.js:99-120 | unknown order 404; 401 unless the caller is buyer, provider or admin; otherwise the order, and success happens exactly in that case; permission is judged on the stored ids, the corrected half of the `getOrderById` finding |
| OrderController.IdText | life-service-platform/backend/controllers/OrderController.js:111 | the string form of an id (`req.user.id`) is a non-empty string of hexadecimal digits |
| OrderController.PopulatedText | life-service-platform/backend/controllers/OrderController.js:102-111 | after `populate` a reference's `toString()` exists iff the referenced user exists, and is the inspected text beginning with `{` |
| OrderController.PopulatedTextIsNoId | life-service-platform/backend/controllers/OrderController.js:111 | the inspected text of a populated document never equals any id's string form |
| OrderController.GetOrderByIdAsWritten | life-service-platform/backend/controllers/OrderController.js:99-120 | as written: 404 for an unknown order, 500 when a referenced user is missing, 401 for every non-admin, and success exactly for an admin |
| OrderController.PartyDeniedAsWritten | life-service-platform/backend/controllers/OrderController.js:111 | as written, the order's buyer or provider, not an admin, is a party to the order and still gets 401 |
| OrderController.UpdateOrderStatus | life-service-platform/backend/controllers/OrderController.js:123-160 | 404, then 401 unless provider or admin; a supplied status or payment status replaces the old one with no transition check; "completed" stamps the completion date; an off-enum value, or a loaded order that fails the schema on save, is 500 with nothing stored; success exactly when none of these fails; no other field changes |
| OrderController.CancelOrder | life-service-platform/backend/controllers/OrderController.js:163-190 | 404, then 401 for non-parties, then 400 for in-progress or completed orders, then 500 with nothing stored if the loaded order fails the schema on save; otherwise only the status becomes cancelled, and success happens exactly in that case |
| OrderController.ProcessPayment | life-service-platform/backend/controllers/OrderController.js:193-229 | 404, then 401 unless the buyer, then 400 if already paid, then 500 with nothing stored for an off-enum method or a loaded order that fails the schema; otherwise marks paid and confirmed, keeps or replaces the method, records the payment date and transaction id, and replies with the message and the stored order |
| ServiceController.PassesServiceValidators | life-service-platform/backend/routes/ServiceRoutes.js:16-21 | the create route's checks: non-empty title and description, price ≥ 0, duration an integer ≥ 1, at least one image |
| ServiceController.PassesUpdateValidators | life-service-platform/backend/routes/ServiceRoutes.js:26-29 | the update route's checks, each only on a field present: non-empty title and description, price ≥ 0, duration ≥ 1 |
| ServiceController.Merge | life-service-platform/backend/controllers/ServiceController.js:162-169 | each field of an update replaces the old one only when truthy; images replace even when empty; provider, rating, reviews and orders stay |
| ServiceController.EmptyUpdateKeeps | life-service-platform/backend/controllers/ServiceController.js:162-169 | an update of only falsy values (empty strings, 0) leaves the service unchanged |
| ServiceController.AddServiceKeepsConsistent | life-service-platform/backend/controllers/ServiceController.js:33-43 | storing a valid new service and pushing its id onto its provider's and category's lists keeps the store consistent |
| ServiceController.CreateService | life-service-platform/backend/controllers/ServiceController.js:7-50 | unknown category 404; success iff the category exists and no image is empty, giving the caller's new service with the schema defaults and pushing its id onto the caller's and the category's lists; nothing is written otherwise; keeps the store consistent |
| ServiceController.GetServiceById | life-service-platform/backend/controllers/ServiceController.js:111-126 | the stored service, or 404 |
| ServiceController.MoveBetween | life-service-platform/backend/controllers/ServiceController.js:150-160 | after the move the id is on the new category's list and off the old one's; every other category is unchanged |
| ServiceController.MoveKeepsNames | life-service-platform/backend/controllers/ServiceController.js:150-160 | moving an id between category lists keeps every category valid and the names unique |
| ServiceController.UpdateServiceKeepsConsistent | life-service-platform/backend/controllers/ServiceController.js:149-171 | moving the id, when the category changes, and saving a valid merged record keeps the store consistent |
| ServiceController.FailedMoveBreaksIndex | life-service-platform/backend/controllers/ServiceController.js:149-171 | if the save fails after the move, the service is still recorded under a category whose list no longer holds it, so the service index is broken |
| ServiceController.UpdateService | life-service-platform/backend/controllers/ServiceController.js:129-178 | 404, then 401 for anyone but the service's provider; the category lists move before the save; success iff the status is in the enum and the merged record passes the schema; the reply and the stored record are the merge; consistency is kept on success and whenever no move happened |
| ServiceController.DeleteServiceKeepsConsistent | life-service-platform/backend/controllers/ServiceController.js:194-205 | pulling the id from its provider's and category's lists and removing the service keeps the store consistent |
| ServiceController.DeleteService | life-service-platform/backend/controllers/ServiceController.js:181-212 | 404, then 401 unless provider or admin; otherwise the id leaves both lists and the service is removed, the orders that named it stay; success happens exactly in that case; keeps the store consistent |
| ServiceController.WithReview | life-service-platform/backend/controllers/ServiceController.js:241-244 | one review is appended and the rating becomes the sum of all ratings divided by their number |
| ServiceController.WithReviewValid | life-service-platform/backend/controllers/ServiceController.js:241-246 | a valid review added to a valid service leaves it valid, with a rating in [1, 5] |
| ServiceController.ReviewOf | life-service-platform/backend/controllers/ServiceController.js:235-239 | the review carries the caller, the rating and the time; its comment is non-empty iff a truthy comment was sent |
| ServiceController.AddReview | life-service-platform/backend/controllers/ServiceController.js:215-253 | 404; a second review by the same user is 400 with nothing changed; success only for a rating in 1..5 and a given comment, and in a consistent store always then; on success exactly one review is appended and the rating becomes the mean |
| CategoryController.CreateCategory | life-service-platform/backend/controllers/CategoryController.js:5-34 | a taken name is 400 with nothing changed; otherwise one category with the given fields and no services is added; keeps the store consistent |
| CategoryController.GetCategoryById | life-service-platform/backend/controllers/CategoryController.js:48-61 | the stored category, or 404 |
| CategoryController.MergeCategory | life-service-platform/backend/controllers/CategoryController.js:88-90 | name, description and icon are each replaced only by a truthy value; the service list stays |
| CategoryController.UpdateCategory | life-service-platform/backend/controllers/CategoryController.js:64-99 | 404; a new name held by another category is 400 with nothing changed, keeping one's own name is allowed; in a consistent store success happens exactly otherwise, storing the merge |
| CategoryController.EmptyCategoryUnreferenced | life-service-platform/backend/controllers/CategoryController.js:110-115 | in a consistent store a category with an empty `services` list is named by no service |
| CategoryController.DeleteCategory | life-service-platform/backend/controllers/CategoryController.js:102-122 | 404; a non-empty `services` list is 400; success happens exactly otherwise, removing that category, which no service then names |
| AuthController.Register | life-service-platform/backend/controllers/AuthController.js:13-56 | a registered email is 400 with nothing changed; otherwise the user is stored with the hashed password and the default role, the email becomes taken, and the reply has a token for the new id and the user without password |
| AuthController.Login | life-service-platform/backend/controllers/AuthController.js:59-98 | an unknown email and a wrong password give the same 401; success carries a token and the public user for a user with that email whose password matches; with unique emails success happens iff the password matches |
| AuthController.GetMe | life-service-platform/backend/controllers/AuthController.js:101-109 | 200 with every field of the caller's record but the password, or `null` |
| AuthController.UpdateProfile | life-service-platform/backend/controllers/AuthController.js:112-140 | 404 for a missing user; otherwise name, phone and address change only to truthy values while email, role and password stay |
| AuthController.ChangePassword | life-service-platform/backend/controllers/AuthController.js:143-167 | 404, then 401 for a wrong current password with nothing changed; success iff the current password matches, and then only the stored password changes |
| ErrorMiddleware.Join | life-service-platform/backend/middleware/errorMiddleware.js:13 | joining no messages gives "", and one message gives itself |
| ErrorMiddleware.JoinAppend | life-service-platform/backend/middleware/errorMiddleware.js:13 | one more message adds the separator and that message at the end |
| ErrorMiddleware.DuplicateMessage | life-service-platform/backend/middleware/errorMiddleware.js:17-20 | the first key of `keyValue` followed by " 已存在", with "undefined" for an empty `keyValue` |
| ErrorMiddleware.ErrorHandler | life-service-platform/backend/middleware/errorMiddleware.js:2-52 | the chain of overwriting checks gives the last matching answer, in the order 404 response, expired token, bad token, cast error, duplicate key, validation error, then 500; a duplicate key without `keyValue` throws |
| ErrorMiddleware.StatusByKind | life-service-platform/backend/middleware/errorMiddleware.js:11-50 | status per kind of error: 404 for a 404 response with the path message, 401 for token errors, 404 for cast errors, 400 with the joined messages for validation errors, 500 otherwise; stack only in development |
| ErrorMiddleware.NotFound | life-service-platform/backend/middleware/errorMiddleware.js:55-59 | marks the response 404 and passes on an error naming the path |
| ErrorMiddleware.NotFoundThenHandled | life-service-platform/backend/middleware/errorMiddleware.js:42-45 | an unmatched path, after `notFound` and `errorHandler`, reaches the client as 404 with the path message |
| ResponseFormatter.CeilDiv | life-service-platform/backend/utils/responseFormatter.js:37 | the ceiling of an exact quotient, for divisors of either sign |
| ResponseFormatter.PageCountOf | life-service-platform/backend/utils/responseFormatter.js:37 | `Math.ceil(total / limit)` is `null` iff the limit is 0; for a positive limit it is the page count n with (n-1)·limit < total ≤ n·limit, and for a negative limit the ceiling of the negative quotient, n·limit ≤ total < (n-1)·limit |
| ResponseFormatter.PagesOfPositiveLimit | life-service-platform/backend/utils/responseFormatter.js:37 | with a positive limit there are no pages iff the total is 0, and the last page is neither empty nor overfull |
| ResponseFormatter.PagesAreLeast | life-service-platform/backend/utils/responseFormatter.js:37 | the page count is the least number of pages that holds every item |
| ResponseFormatter.SuccessResponse | life-service-platform/backend/utils/responseFormatter.js:2-8 | success envelope carrying the data, with defaults "操作成功" and 200 |
| ResponseFormatter.ErrorResponse | life-service-platform/backend/utils/responseFormatter.js:11-16 | failure envelope without data, with defaults "操作失败" and 400 |
| ResponseFormatter.ValidationErrorResponse | life-service-platform/backend/utils/responseFormatter.js:19-25 | always 400, "验证失败", carrying the errors |
| ResponseFormatter.PaginatedResponse | life-service-platform/backend/utils/responseFormatter.js:28-39 | 200 success envelope with the data and total, page, limit and `PageCountOf(total, limit)`: `null` iff the limit is 0, and the ceiling bounds for a positive and for a negative limit |
| ServiceListing.SortKeyOf | life-service-platform/backend/controllers/ServiceController.js:67-83 | the three named `sortBy` values pick their keys; "newest", anything else and nothing pick newest first |
| ServiceListing.BeforeByKey | life-service-platform/backend/controllers/ServiceController.js:68-82 | each key orders by price ascending, price descending, rating descending or creation time descending |
| ServiceListing.BeforeTotal | life-service-platform/backend/controllers/ServiceController.js:90 | any two services are comparable under every key |
| ServiceListing.SortEntries | life-service-platform/backend/controllers/ServiceController.js:90 | `sort` gives a sorted permutation of the selected services |
| ServiceListing.Matching | life-service-platform/backend/controllers/ServiceController.js:58-61 | the query selects exactly the stored services in the requested category, or all of them |
| ServiceListing.MatchingAll | life-service-platform/backend/controllers/ServiceController.js:59-61 | with no category every stored service is selected, in order |
| ServiceListing.Window | life-service-platform/backend/controllers/ServiceController.js:91-92 | `skip(skip).limit(limit)` holds consecutive documents from position `skip`: all the rest for limit 0, else at most the absolute value of the limit |
| ServiceListing.GetServices | life-service-platform/backend/controllers/ServiceController.js:53-108 | a negative skip is 500; otherwise the page is the skip/limit window at `(page-1)·limit` of a sorted permutation of the matching stored services, hence sorted, matching and of the window's size, with the matching total, the page and `Math.ceil(total / limit)` |
| ServiceListing.Shown | life-service-platform/backend/controllers/ServiceController.js:87-92 | the page the query yields is the window at the skip of some sorted permutation of the selection |
| ServiceListing.PageOfSorted | life-service-platform/backend/controllers/ServiceController.js:87-92 | any such window is sorted by the key, holds only stored services of the requested category, and has the window's size |
| ServiceListing.ShownAt | life-service-platform/backend/controllers/ServiceController.js:90-92 | the page shown is the window at the skip of a sorted permutation of the selection |
| ServiceListing.WindowSorted | life-service-platform/backend/controllers/ServiceController.js:90-92 | a window of a sorted list is sorted |
| ServiceListing.WindowWithin | life-service-platform/backend/controllers/ServiceController.js:87-92 | a window of a permutation holds only elements of the original |
| ServiceListing.AdjacentWindows | life-service-platform/backend/controllers/ServiceController.js:91-92 | a window of a positive limit followed by the window starting where it ends is the window of twice the limit |
| ServiceListing.ConsecutivePages | life-service-platform/backend/controllers/ServiceController.js:86-92 | pages p and p+1 together are the window of twice the size starting at page p: pages neither overlap nor leave gaps |
| ClientList.FirstIndexOf | life-service-platform/frontend/src/store/slices/ordersSlice.js:141 | `findIndex` gives the first position with the id, or -1 iff none has it |
| ClientList.ReplaceFirst | life-service-platform/frontend/src/store/slices/ordersSlice.js:141-144 | the first document with the payload's id is replaced, every other position kept; with no such id the list is unchanged |
| ClientList.ReplaceKeepsIds | life-service-platform/frontend/src/store/slices/ordersSlice.js:141-144 | replacing keeps the id at every position |
| ClientList.ReplaceOnlyFirst | life-service-platform/frontend/src/store/slices/ordersSlice.js:141-144 | with the id present the payload is in the list and later duplicates stay |
| ClientList.WithoutId | life-service-platform/frontend/src/store/slices/ordersSlice.js:160 | `filter` leaves no document with the id |
| ClientList.WithoutIdLength | life-service-platform/frontend/src/store/slices/ordersSlice.js:160 | filtering removes exactly as many documents as hold the id |
| ClientList.WithoutIdKeeps | life-service-platform/frontend/src/store/slices/ordersSlice.js:160 | filtering keeps exactly the documents with other ids |
| ClientList.WithoutIdAppend | life-service-platform/frontend/src/store/slices/ordersSlice.js:160 | filtering distributes over concatenation, so relative order is kept |
| ClientList.WithoutAbsentId | life-service-platform/frontend/src/store/slices/ordersSlice.js:160 | filtering out an absent id changes nothing |
| ClientList.AppendThenRemove | life-service-platform/frontend/src/store/slices/ordersSlice.js:125-162 | a create followed by a delete of the same id leaves the list as filtered before the create |
| OrdersSlice.FetchOrdersPayload | life-service-platform/frontend/src/store/slices/ordersSlice.js:10 | the thunk's payload is the response list with its length as total |
| OrdersSlice.OrdersState.constructor | life-service-platform/frontend/src/store/slices/ordersSlice.js:71-79 | the initial state: empty, not loading, no error, page 1 of 10, counted |
| OrdersSlice.OrdersState.ClearError | life-service-platform/frontend/src/store/slices/ordersSlice.js:81-83 | only the error is cleared |
| OrdersSlice.OrdersState.SetPage | life-service-platform/frontend/src/store/slices/ordersSlice.js:84-86 | only the page changes |
| OrdersSlice.OrdersState.SetLimit | life-service-platform/frontend/src/store/slices/ordersSlice.js:87-89 | only the limit changes |
| OrdersSlice.OrdersState.Pending | life-service-platform/frontend/src/store/slices/ordersSlice.js:94-97 | loading, no error, data untouched |
| OrdersSlice.OrdersState.Rejected | life-service-platform/frontend/src/store/slices/ordersSlice.js:103-106 | not loading, the payload becomes the error, data untouched |
| OrdersSlice.OrdersState.FetchOrdersFulfilled | life-service-platform/frontend/src/store/slices/ordersSlice.js:98-102 | the list and total come from the payload; the thunk's own payload leaves the state counted |
| OrdersSlice.OrdersState.FetchOrderByIdFulfilled | life-service-platform/frontend/src/store/slices/ordersSlice.js:112-115 | the payload becomes the current order, nothing else changes |
| OrdersSlice.OrdersState.CreateNewOrderFulfilled | life-service-platform/frontend/src/store/slices/ordersSlice.js:125-129 | the payload is appended and the total rises by one; a counted state stays counted |
| OrdersSlice.OrdersState.UpdateExistingOrderFulfilled | life-service-platform/frontend/src/store/slices/ordersSlice.js:139-148 | the first order with the payload's id is replaced, the length and the count kept; the current order is replaced iff it has that id |
| OrdersSlice.OrdersState.DeleteExistingOrderFulfilled | life-service-platform/frontend/src/store/slices/ordersSlice.js:158-162 | every order with the id is filtered out and the total drops by one regardless; a counted state stays counted iff exactly one order had the id |
| ServicesSlice.ServicesState.constructor | life-service-platform/frontend/src/store/slices/servicesSlice.js:71-79 | the initial state: empty, not loading, no error, page 1 of 10, counted |
| ServicesSlice.ServicesState.ClearError | life-service-platform/frontend/src/store/slices/servicesSlice.js:81-83 | only the error is cleared |
| ServicesSlice.ServicesState.SetPage | life-service-platform/frontend/src/store/slices/servicesSlice.js:84-86 | only the page changes |
| ServicesSlice.ServicesState.SetLimit | life-service-platform/frontend/src/store/slices/servicesSlice.js:87-89 | only the limit changes |
| ServicesSlice.ServicesState.Pending | life-service-platform/frontend/src/store/slices/servicesSlice.js:94-97 | loading, no error, data untouched |
| ServicesSlice.ServicesState.Rejected | life-service-platform/frontend/src/store/slices/servicesSlice.js:103-106 | not loading, the payload becomes the error, data untouched |
| ServicesSlice.ServicesState.FetchServicesFulfilled | life-service-platform/frontend/src/store/slices/servicesSlice.js:98-102 | the list and total come from the payload; a payload whose total is its length leaves the state counted |
| ServicesSlice.ServicesState.FetchServiceByIdFulfilled | life-service-platform/frontend/src/store/slices/servicesSlice.js:112-115 | the payload becomes the current service, nothing else changes |
| ServicesSlice.ServicesState.CreateNewServiceFulfilled | life-service-platform/frontend/src/store/slices/servicesSlice.js:125-129 | the payload is appended and the total rises by one; a counted state stays counted |
| ServicesSlice.ServicesState.UpdateExistingServiceFulfilled | life-service-platform/frontend/src/store/slices/servicesSlice.js:139-148 | the first service with the payload's id is replaced, the length and the count kept; the current service is replaced iff it has that id |
| ServicesSlice.ServicesState.DeleteExistingServiceFulfilled | life-service-platform/frontend/src/store/slices/servicesSlice.js:158-162 | every service with the id is filtered out and the total drops by one regardless; a counted state stays counted iff exactly one service had the id |

## Left out

- The User schema file is not part of this model. Every save of a user is taken to succeed: in `register` for the validated input, and in `updateProfile` and `changePassword` for input nobody validates (an empty `newPassword`, say), so whatever the User schema would refuse there is not modelled. Its password hook is modelled as the `hash` parameter: the stored password is `hash(password)`, and `matchPassword` is the `matches` parameter.
- JWT signing and verification, bcrypt, the `isEmail` check, the clock and ObjectId generation are foreign calls. They enter as parameters.
- `trim` on the title, name, notes, description and icon is not modelled. Strings are stored as sent.
- The `search` title regex of `getServices` is not modelled; the category filter is. `getCategories` is not modelled: it is a plain `find` of all categories.
- `populate` and `select` are not modelled. Replies carry the stored ids, and `protect` attaches the stored record as `req.user`.
- GetOrderById: the permission check is stated on the stored buyer and provider ids, as evidently intended. The handler as written compares populated documents, so its buyer and its provider are refused (see "## Findings" and `GetOrderByIdAsWritten`).
- GetUserOrders: the result is a set of ids. The newest-first order the database sorts by is not modelled.
- GetServices: the contract states that the page is the window at `(page-1)·limit` of some sorted order of the selection. It does not say which sorted order, so among equally ranked services it does not fix which appear on a page, because the database fixes no order among ties.
- GetServices: `page` and `limit` arrive as query strings. Their parsing (`parseInt`) and `NaN` are not modelled: both are taken as integers.
- Prices are whole cents, and review ratings are integers (the handler applies `parseInt`). The route's `isFloat` check and floating-point arithmetic are not modelled. The aggregate rating is an exact real number.
- AddReview: success for a valid new review is promised only in a consistent store, because a stored service that already fails its schema makes the save fail too.
- UpdateCategory: success is characterised only in a consistent store, for the same reason.
- Concurrency is not modelled. Each handler is one atomic step. The writes of one handler are not atomic in the source: `createOrder` and `createService` write several documents in turn, and `updateService` moves the category lists before the save that may fail. The model keeps that order for `updateService` (see `FailedMoveBreaksIndex`).
- `service.remove()` and `category.remove()` are taken to delete the document. The document library's version is not part of this model.
- The error middleware reads `err.errors`, `err.code`, `err.keyValue` and `err.name` as given. A validation error without `errors` is not modelled.
- The client thunks, the network layer and the API interceptor are not modelled; the reducers take their payloads as given. The interceptor already unwraps `response.data`, so the services thunk's second `.data`, and a listing body whose total sits under `pagination`, do not match what `fetchServices.fulfilled` reads. FetchServicesFulfilled is therefore stated for any payload.
- The order's `review` reference and the `timestamps` field `updatedAt` are never used by the handlers and are not modelled.

## Findings

| source | as written | input that shows it | evidently intended | confidence | as-written member | corrected member |
|---|---|---|---|---|---|---|
| life-service-platform/backend/models/Order.js:3-70 | the Order schema declares no `paymentDate` and no `transactionId`, so under the document store's default strict mode the values `processPayment` assigns (OrderController.js:216-217) are dropped on save | a buyer pays an unpaid order with `transactionId` "tx1" at time t: the stored and returned order has no payment date and no transaction id | the paid order records when it was paid and the transaction id | medium, not executed | OrderModel.PaymentDateDroppedAsWritten | OrderController.ProcessPayment |
| life-service-platform/backend/controllers/OrderController.js:111 | `getOrderById` populates `user` and `provider` before comparing `order.user.toString()` and `order.provider.toString()` with `req.user.id`; a populated document's `toString()` is its inspected text, not its id, so neither comparison ever matches | the buyer of an order, not an admin, requests `GET /orders/:id` for it: 401 "您没有权限查看此订单", although the order page (frontend/src/pages/OrderDetail.jsx:26) fetches the order for its buyer | the buyer, the provider and an admin may read the order | medium, not executed | OrderController.PartyDeniedAsWritten | OrderController.GetOrderById |
