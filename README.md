# BlackDoctrine storefront: a verified model of its services and page logic

BlackDoctrine is a demo e-commerce system. A React storefront talks to five GraphQL services, each backed by SQLite. This project models in Dafny:

- the **order service**: the checkout workflow of `createOrder`, the `orders` and `order_items` tables, the payment callback `updatePaymentStatus`, the queries `getOrders`, `getOrderByVA` and `getShippingOptions`, and the receipt fallback of `createShipment`;
- the **review**, **product**, **user** and **notification** services: each table with its AUTOINCREMENT counter, the validation rules, and the row mappings to the GraphQL types;
- three **storefront pages**: the category chips and product filter of the home page; the quantity stepper, buy guards and address escaping of the product page; the password and profile forms of the profile page.

Each module stands for one source file.

| module | file |
|---|---|
| `OrderService` | `order_service.dfy` |
| `ReviewService` | `review_service.dfy` |
| `ProductService` | `product_service.dfy` |
| `UserService` | `user_service.dfy` |
| `NotificationService` | `notification_service.dfy` |
| `HomePage` | `home_page.dfy` |
| `ProductDetailPage` | `product_detail_page.dfy` |
| `ProfilePage` | `profile_page.dfy` |

`Common` holds the shared types and helpers:

- the `Option`, `Outcome` and `Result` wrappers;
- JavaScript's `trim` over the ECMAScript white-space set;
- `String(n)` for natural numbers;
- `Reverse`.

`Scenarios` works one checkout end to end across the product and order services.

How the system is represented:

- **Tables.** Each table is a class with a `seq` of rows and a next-id counter. Its methods state the new contents outright, and a `Valid()` invariant holds the ids in increasing order, plus each table's constraints: unique e-mails, unique SKUs, ratings in 1..5.
- **Remote collaborators.** The product service, GoShip logistics and Dompet Sawit payment are not executed. The `Gateways` value gives each one as a function from its request to `Ok(answer)` or `Err`.
- **Checkout trace.** The checkout also returns the requests it issued, in order. This lets step order and data flow be stated: the quote asks for `berat × quantity` grams, and payment is requested for the grand total.
- **Money and ordering.** Money is whole rupiah (`int`). `ORDER BY created_at DESC` is read as descending insertion order.

Where the code and the repository's written design disagree, the model follows the code:

- **Stock decrement.** The stock is decremented before the shipping quote, and a failed decrement aborts the checkout. The decrement is not undone when a later step fails.
- **Payment failure.** A payment-gateway failure aborts the checkout. No fallback payment reference is generated.
- **Payment callback.**
  - The callback marks every order with the VA `PROCESSED`/`PAID`, whatever `status` it is given.
  - It requests no shipment and sets no receipt.
  - It returns `true` on every repeat.

## Model

| member | source | states |
|---|---|---|
| `Common.BlankIffAllWhitespace` | product-service/index.js:149 | `s.trim() === ''` holds exactly when every character of `s` is ECMAScript white space or a line terminator |
| `Common.NatToStringInjective` | product-service/index.js:39-57 | different numbers print differently, so clock-derived SKUs and ids never collide |
| `OrderService.FindOption` | order-service/index.js:289-294 | `options.find` on the method name: None exactly when no option has that method; otherwise the first option whose method equals it exactly |
| `OrderService.VaOrPending` | order-service/index.js:311 | the stored VA is the gateway's vaNumber, or "VA-PENDING" when that is absent or empty; never empty |
| `OrderService.Checkout` | order-service/index.js:271-358 | the createOrder workflow as a function of the gateway answers: requests issued and the outcome; its properties are the Checkout lemmas below |
| `OrderService.CheckoutStockCheck` | order-service/index.js:276-282 | `stok < quantity` ends the checkout with StokTidakCukup right after the product fetch, with no decrement, payment or write; otherwise (`quantity == stok` included) the stock decrement is the next request |
| `OrderService.CheckoutStepOrder` | order-service/index.js:276-334 | the requests issued are always a prefix of fetch product, decrease stock, quote shipping, request payment; whenever all four were issued (whether or not the insert then succeeds) the decrement is for the requested quantity, the quote for `berat × quantity`, and the payment for `harga × quantity` plus the cost of the first quoted option with the requested method |
| `OrderService.CheckoutUnknownMethod` | order-service/index.js:282-294 | when no quoted option has the requested method the checkout fails with MetodeTidakTersedia, and the stock decrement was already requested and is not undone |
| `OrderService.CheckoutAmounts` | order-service/index.js:276-311 | a checkout that reaches the insert had every gateway succeed, charged for the first exactly matching option, and computed `harga × quantity + hargaOngkir` as total; the VA is the gateway's or "VA-PENDING" |
| `OrderService.CheckoutPaymentFailureAborts` | order-service/index.js:309-311 | a failed payment request aborts the checkout with GagalMembuatTransaksi: no fallback reference |
| `OrderService.CheckoutOptionIsQuoted` | order-service/index.js:260-266 | the option a checkout charges for is one getShippingOptions lists for the same product, city and quantity |
| `OrderService.ShippingOptions` | order-service/index.js:260-266 | getShippingOptions answers exactly GoShip's options for the product's `berat × quantity`; a failed product call gives ProductServiceError, an unknown product ProductNotFound, a failed quote GagalMengambilOngkir |
| `OrderService.ShipmentOrPlaceholder` | order-service/index.js:179-204 | createShipment never fails: a failed call yields receipt "PENDING-RESI-ERROR" with status "MANUAL_CHECK"; a successful answer is passed through |
| `OrderService.ItemsOf` | order-service/index.js:214 | the item rows of an order are exactly the rows with that order id |
| `OrderService.ToOrder` | order-service/index.js:214-228 | the resolvers' row mapping: id as a string, every order column under its GraphQL name, productId and quantity from the first item row, or '' and 0 when the order has none |
| `OrderService.FirstWithVa` | order-service/index.js:236 | `dbGet` by VA: None exactly when no row has the VA; otherwise the first such row |
| `OrderService.OrderByVa` | order-service/index.js:234-257 | getOrderByVA is null exactly when no order has the VA; otherwise the first row with that VA, mapped with its item rows |
| `OrderService.PayRows` | order-service/index.js:369-372 | the UPDATE keeps the number of rows |
| `OrderService.PayRowsAt` | order-service/index.js:369-372 | exactly the rows with that VA become PROCESSED and PAID; every other row and every other field is unchanged |
| `OrderService.PayRowsIdempotent` | order-service/index.js:362-378 | a second callback for the same VA leaves the table as the first left it |
| `OrderService.PayRowsUnknownVa` | order-service/index.js:365-366 | a callback for a VA no order has changes nothing |
| `OrderService.AsWrittenCheckoutNeverPersists` | order-service/index.js:315-329 | as written every checkout fails; it fails at the insert exactly when all four requests were made and payment succeeded, and then the stock decrement and the payment of the full quoted grand total had been requested for an order that is never stored |
| `OrderService.IntendedCheckoutPersists` | order-service/index.js:307-334 | with the intended receipt "-" of the commented-out declaration, a checkout whose collaborators all succeed reaches the insert, storing "-" as receipt, after the four requests for the quoted amounts |
| `OrderService.LookupAfterCreate` | order-service/index.js:336-353 | after a checkout inserts an order with a fresh VA, getOrderByVA returns exactly the order createOrder returned |
| `OrderService.OrderStore.constructor` | order-service/index.js:26-53 | both tables start empty with their counters at 1 |
| `OrderService.OrderStore.CreateOrder` | order-service/index.js:271-358 | issues the checkout's requests; on failure returns its error and leaves both tables unchanged; on success appends one order row (user 1, PENDING, UNPAID, the grand total, the chosen method and its cost, the VA) and one item row snapshotting product id, name, quantity, price and weight, and returns it mapped |
| `OrderService.OrderStore.UpdatePaymentStatus` | order-service/index.js:362-378 | answers true exactly when some order has the VA; the new table is PayRows of the old, and nothing changes on false; `status` is ignored |
| `OrderService.OrderStore.GetOrderByVA` | order-service/index.js:234-257 | null exactly when no order has the VA; otherwise the first row with that VA, mapped with its item rows |
| `OrderService.OrderStore.GetOrders` | order-service/index.js:210-231 | one Order per row, newest first, each mapped with its first item (productId '' and quantity 0 when it has none) |
| `ReviewService.ToReview` | review-service/index.js:113-122 | the id as a string, productId, userId, rating and createdAt passed through unchanged; an empty or null comment reads as null, any other comment is kept |
| `ReviewService.FindReview` | review-service/index.js:131-133 | None exactly when no row has the id; otherwise a row with that id |
| `ReviewService.Apply` | review-service/index.js:199-202 | the SET clause touches only rating and comment: id, product, user and creation time stay |
| `ReviewService.UpdateWhere` | review-service/index.js:199-202 | the row with that id gets the assignments; every other row is unchanged |
| `ReviewService.DeleteWhere` | review-service/index.js:215 | the rows left are exactly the rows whose id differs |
| `ReviewService.OfProduct` | review-service/index.js:128 | the rows selected are exactly the rows of that product |
| `ReviewService.OfProductIncreasing` | review-service/index.js:128 | the selected rows keep the table's increasing id order, so reading them backwards is newest first |
| `ReviewService.SeedReviews` | review-service/index.js:33-58 | the four seeded reviews all have ratings in 1..5 and a comment |
| `ReviewService.UpdateAssignments` | review-service/index.js:179-191 | the SET list is empty exactly when neither field is given; it sets the rating exactly when one is given, and the comment exactly when one is given, null included |
| `ReviewService.UpdateChangesOnlyGivenFields` | review-service/index.js:183-202 | after the update, a given rating and a given (or null) comment are stored, and every other field is unchanged |
| `ReviewService.UpdateKeepsRatingsValid` | review-service/index.js:175-177 | with the range check passed, every stored rating is still in 1..5 after the update |
| `ReviewService.UpdateKeepsIds` | review-service/index.js:199-202 | the update moves no id, so the increasing id order is kept |
| `ReviewService.UpdateKeepsTableValid` | review-service/index.js:21 | the update keeps the CHECK on ratings and the id order |
| `ReviewService.UpdatedRowFound` | review-service/index.js:204-206 | re-reading the id after the update yields the updated row |
| `ReviewService.DeleteKeepsOrder` | review-service/index.js:215 | the delete keeps the increasing id order |
| `ReviewService.DeleteRemovesOne` | review-service/index.js:215-216 | deleting an existing id removes exactly one row |
| `ReviewService.DeleteAbsent` | review-service/index.js:215 | deleting an id no row has changes nothing |
| `ReviewService.ReviewStore.constructor` | review-service/index.js:16-25 | the table starts empty with its counter at 1 |
| `ReviewService.ReviewStore.SeedIfEmpty` | review-service/index.js:28-74 | the four reviews are inserted in order, and only into an empty table |
| `ReviewService.ReviewStore.CreateReview` | review-service/index.js:138-166 | a rating outside 1..5 fails with "Rating harus antara 1 sampai 5" and changes nothing; otherwise one row is appended under a fresh id, an empty comment stored as null, and returned mapped |
| `ReviewService.ReviewStore.UpdateReview` | review-service/index.js:167-207 | an unknown id fails with "Ulasan tidak ditemukan"; then a given out-of-range (or null) rating fails; then no fields fails; each failure changes nothing; in every other case the update succeeds, changing that one row and returning it |
| `ReviewService.ReviewStore.DeleteReview` | review-service/index.js:208-217 | an unknown id fails with "Ulasan tidak ditemukan" and changes nothing; otherwise the row is removed and the answer is true |
| `ReviewService.ReviewStore.GetReviews` | review-service/index.js:127-130 | the product's rows read backwards (newest first), mapped: only that product's reviews, and all of them |
| `ReviewService.ReviewStore.GetReview` | review-service/index.js:131-135 | null exactly when no row has the id; otherwise that row mapped |
| `ProductService.OrNull` | product-service/index.js:127-128 | `x \|\| null`: an absent or empty string becomes null, anything else is kept |
| `ProductService.ToProduct` | product-service/index.js:120-130 | mapDbToGraphQL: id as a string, name, price, stock and weight under the Indonesian field names, an empty description or category read as null |
| `ProductService.GeneratedSku` | product-service/index.js:150 | the generated SKU is never blank |
| `ProductService.EffectiveSku` | product-service/index.js:148-151 | a missing, empty or whitespace-only SKU is replaced by the generated one; any other is kept untrimmed; the result is never blank |
| `ProductService.AddedProductEchoesInput` | product-service/index.js:153-166 | the product addProduct returns carries the input's name, price, stock and weight under the renamed fields, and its description and category with empty read as null |
| `ProductService.FindProduct` | product-service/index.js:140 | None exactly when no row has the id; otherwise a row with that id |
| `ProductService.SeedInputs` | product-service/index.js:36-65 | three seeded products whose SKUs are `SKU-<t>`, `SKU-<t+1>`, `SKU-<t+2>` |
| `ProductService.SeedSkusDistinct` | product-service/index.js:39-57 | the seeded SKUs are pairwise different, so the seed never breaks the UNIQUE column |
| `ProductService.InsertKeepsTableValid` | product-service/index.js:16-28 | inserting under the counter with an untaken SKU keeps ids increasing and below the counter, and SKUs unique |
| `ProductService.ProductStore.constructor` | product-service/index.js:16-28 | the table starts empty with its counter at 1 |
| `ProductService.ProductStore.AddProduct` | product-service/index.js:146-184 | a taken SKU fails with "SKU sudah terdaftar" and inserts nothing; otherwise one row under the effective SKU, returned mapped; SKUs stay unique |
| `ProductService.ProductStore.SeedIfEmpty` | product-service/index.js:31-84 | the three products are inserted one by one, in seed order under consecutive ids, only into an empty table, keeping SKUs unique |
| `ProductService.ProductStore.GetProduct` | product-service/index.js:139-143 | null exactly when no row has the id; otherwise that row mapped |
| `ProductService.ProductStore.GetProducts` | product-service/index.js:135-138 | every row mapped, newest first |
| `UserService.NamaOf` | user-service/index.js:168 | the profile's full_name, or 'User' when the profile or the name is missing or empty; never empty |
| `UserService.AuthUser` | user-service/index.js:139-146 | the user object login builds: the auth row's id as a string, its e-mail and role, and the profile's name ('User' when missing or empty) |
| `UserService.TokenInjective` | user-service/index.js:137 | a token `user-token-<id>-<clock>` determines its user and clock reading: two users never share a token |
| `UserService.FindByEmail` | user-service/index.js:184-187 | None exactly when no row has the e-mail |
| `UserService.FindByCredentials` | user-service/index.js:121-124 | None exactly when no row matches both e-mail and password; otherwise such a row |
| `UserService.FindById` | user-service/index.js:151-154 | None exactly when no row has the id |
| `UserService.FindProfile` | user-service/index.js:161-164 | None exactly when no profile row has the user id |
| `UserService.LoginOn` | user-service/index.js:119-148 | login fails with "Email atau password salah" exactly when no row matches both e-mail and password; otherwise a token `user-token-<id>-<clock>` and that row's user with the profile's name |
| `UserService.ProfileOn` | user-service/index.js:149-179 | fails with "User tidak ditemukan" exactly when the parsed id is NaN or unknown; otherwise the user's id, name, e-mail and role, and a profile that is null exactly when there is no profile row and otherwise carries that row's user_id as a string and its full_name, phone_number, address_line and city_id unchanged |
| `UserService.ToUserProfile` | user-service/index.js:171-177 | the profile part of getUserProfile: the user id as a string and the four stored columns unchanged |
| `UserService.LoginAfterRegister` | user-service/index.js:182-226 | right after a registration, login with the same e-mail and password succeeds as that BUYER, named as registered ('User' if the name was empty) |
| `UserService.RegisterKeepsTablesValid` | user-service/index.js:16-36 | inserting a user with an unused e-mail keeps e-mails unique, ids increasing and profile keys distinct |
| `UserService.UserStore.constructor` | user-service/index.js:16-36 | both tables start empty with the counter at 1 |
| `UserService.UserStore.SeedAdmin` | user-service/index.js:39-63 | the admin (admin@gmail.com, role ADMIN) and its profile named 'Admin' are inserted only when there is no user |
| `UserService.UserStore.Register` | user-service/index.js:182-230 | a taken e-mail fails with "Email sudah terdaftar" and changes nothing; otherwise one BUYER row and one profile row with full_name = nama, answering with that nama |
| `UserService.UserStore.Login` | user-service/index.js:119-148 | succeeds exactly when some row matches both e-mail and password, for that e-mail |
| `UserService.UserStore.GetUserProfile` | user-service/index.js:149-179 | fails with "User tidak ditemukan" exactly when the parsed id is NaN or no user has it; otherwise the user's id, name, e-mail and role, and the profile row's user_id as a string and its four columns, or null when there is no profile row |
| `NotificationService.ToNotification` | notification-service/index.js:54-61 | columns renamed unchanged; isRead true exactly when is_read is not 0 |
| `NotificationService.SetRead` | notification-service/index.js:94 | the row with that id gets is_read = 1; every other row is unchanged |
| `NotificationService.ForUser` | notification-service/index.js:51 | the rows selected are exactly the rows of that user |
| `NotificationService.ForUserIncreasing` | notification-service/index.js:51 | the user's rows keep the table's increasing id order |
| `NotificationService.NotificationsOf` | notification-service/index.js:49-62 | the user's rows read backwards, mapped |
| `NotificationService.NotificationsOfComplete` | notification-service/index.js:49-62 | every listed notification maps a row of that user, and every row of that user is listed |
| `NotificationService.NotificationsOfNewestFirst` | notification-service/index.js:51 | on a table whose ids increase with insertion, the listing is newest first: ids strictly decrease along it |
| `NotificationService.MarkAsReadIdempotent` | notification-service/index.js:93-96 | marking twice is marking once |
| `NotificationService.MarkAsReadEffect` | notification-service/index.js:94 | the marked row reads as read; every other row is untouched |
| `NotificationService.MarkAsReadUnknown` | notification-service/index.js:93-96 | marking an id no row has changes nothing |
| `NotificationService.SentNotificationComesFirst` | notification-service/index.js:65-90 | a notification just sent heads its recipient's list, unread |
| `NotificationService.NotificationStore.constructor` | notification-service/index.js:11-23 | the table starts empty with its counter at 1 |
| `NotificationService.NotificationStore.SendNotification` | notification-service/index.js:65-91 | one unread row appended under a fresh id; the answer has the given user, message and type, isRead false and the service clock |
| `NotificationService.NotificationStore.MarkAsRead` | notification-service/index.js:93-96 | the table becomes SetRead of the old one, and the answer is always true |
| `NotificationService.NotificationStore.GetUserNotifications` | notification-service/index.js:49-62 | every listed notification maps a row of that user, every row of that user is listed, and ids strictly decrease along the list (newest first) |
| `HomePage.StrLtIrreflexive` | ecommerce-frontend/src/pages/Home.jsx:22 | no string sorts before itself |
| `HomePage.StrLtTransitive` | ecommerce-frontend/src/pages/Home.jsx:22 | the string order used for sorting is transitive |
| `HomePage.StrLtTotal` | ecommerce-frontend/src/pages/Home.jsx:22 | any two different strings are ordered one way or the other |
| `HomePage.Insert` | ecommerce-frontend/src/pages/Home.jsx:16-22 | inserting into a strictly ascending list keeps it strictly ascending and adds exactly that element |
| `HomePage.SortedDistinct` | ecommerce-frontend/src/pages/Home.jsx:16-22 | `[...new Set(xs)].sort()`: strictly ascending, holding exactly the elements of xs |
| `HomePage.NamedCategories` | ecommerce-frontend/src/pages/Home.jsx:18-20 | exactly the categories of products that are present and not blank |
| `HomePage.Categories` | ecommerce-frontend/src/pages/Home.jsx:12-26 | 'Semua' first; after it every non-blank product category once, strictly ascending, and nothing else |
| `HomePage.CategoriesDistinct` | ecommerce-frontend/src/pages/Home.jsx:16-22 | no chip after 'Semua' repeats another |
| `HomePage.FilteredProducts` | ecommerce-frontend/src/pages/Home.jsx:29-39 | 'Semua' shows the whole list; any other chip shows the category filter |
| `HomePage.CategoryFilter` | ecommerce-frontend/src/pages/Home.jsx:36-38 | exactly the products whose category equals the chip |
| `HomePage.CategoryFilterAppend` | ecommerce-frontend/src/pages/Home.jsx:36-38 | the filter keeps the original order: it distributes over concatenation |
| `HomePage.EveryChipSelectsSomething` | ecommerce-frontend/src/pages/Home.jsx:12-39 | every chip after 'Semua' shows at least one product |
| `ProductDetailPage.Stepped` | ecommerce-frontend/src/pages/ProductDetail.jsx:95-100 | the step is taken exactly when the new quantity is in `[1, stok \|\| 999]`; otherwise the quantity stays |
| `ProductDetailPage.ParsedOrOne` | ecommerce-frontend/src/pages/ProductDetail.jsx:315 | `parseInt(v) \|\| 1`: NaN and 0 become 1 |
| `ProductDetailPage.Typed` | ecommerce-frontend/src/pages/ProductDetail.jsx:314-320 | the typed value is taken exactly when it is in range; otherwise the quantity stays |
| `ProductDetailPage.QuantityStaysInRange` | ecommerce-frontend/src/pages/ProductDetail.jsx:95-100 | from 1, neither the stepper nor the input ever leaves `[1, stok \|\| 999]` (or 1) |
| `ProductDetailPage.UnparsableSelectsOne` | ecommerce-frontend/src/pages/ProductDetail.jsx:315-319 | unparsable input selects 1 |
| `ProductDetailPage.EscapeQuotes` | ecommerce-frontend/src/pages/ProductDetail.jsx:158 | every double quote of the result has a backslash right before it, and the result is exactly one character longer per quote of the address |
| `ProductDetailPage.EscapeQuotesRoundTrip` | ecommerce-frontend/src/pages/ProductDetail.jsx:158 | reading every backslash-quote pair back as a quote recovers the address exactly |
| `ProductDetailPage.BuyDecision` | ecommerce-frontend/src/pages/ProductDetail.jsx:137-158 | no user: redirect to login; blank address: ask for it; a request is sent exactly when a user is logged in and the address is not blank, with the product id, quantity and escaped address |
| `ProductDetailPage.IsFormValid` | ecommerce-frontend/src/pages/ProductDetail.jsx:202 | the address counts as filled in exactly when some character of it is not ECMAScript white space |
| `ProductDetailPage.FormValidIffRequestSent` | ecommerce-frontend/src/pages/ProductDetail.jsx:145-148 | for a logged-in user a request is sent exactly when the form is valid |
| `ProductDetailPage.EnabledBuySendsCoveredQuantity` | ecommerce-frontend/src/pages/ProductDetail.jsx:95-100 | an enabled buy button (address filled, not loading, stock at least 1) pressed by a logged-in user sends the order, and the stepper has kept the quantity within the stock, so the checkout stock check passes for the stock shown |
| `ProductDetailPage.NoStockDisablesBuy` | ecommerce-frontend/src/pages/ProductDetail.jsx:383 | with stock 0 the stepper bound is 999 but the buy button is disabled |
| `ProductDetailPage.ProductPage.constructor` | ecommerce-frontend/src/pages/ProductDetail.jsx:39-41 | quantity 1, empty address, not loading |
| `ProductDetailPage.ProductPage.SetAlamat` | ecommerce-frontend/src/pages/ProductDetail.jsx:123-127 | the address field takes the looked-up address |
| `ProductDetailPage.ProductPage.HandleQuantityChange` | ecommerce-frontend/src/pages/ProductDetail.jsx:95-100 | the quantity becomes Stepped of the old one and stays in range |
| `ProductDetailPage.ProductPage.OnQuantityInput` | ecommerce-frontend/src/pages/ProductDetail.jsx:314-320 | the quantity becomes Typed of the old one and stays in range |
| `ProductDetailPage.ProductPage.HandleBuy` | ecommerce-frontend/src/pages/ProductDetail.jsx:137-150 | answers BuyDecision of the page state, and raises isLoading only when the request is sent |
| `ProductDetailPage.ProductPage.FinishBuy` | ecommerce-frontend/src/pages/ProductDetail.jsx:197-199 | isLoading drops whatever the response |
| `ProfilePage.ValidatePassword` | ecommerce-frontend/src/pages/Profile.jsx:46-59 | rejects, in this order, an empty field, a mismatch, a new password shorter than 6; valid exactly when none applies |
| `ProfilePage.ProfileFormValid` | ecommerce-frontend/src/pages/Profile.jsx:23-26 | true exactly when neither nama nor e-mail is all white space |
| `ProfilePage.Initialized` | ecommerce-frontend/src/pages/Profile.jsx:98-103 | while the name field is empty and user data is present, the form takes the user's name and e-mail ('' when missing); otherwise it is unchanged |
| `ProfilePage.InitializedOnce` | ecommerce-frontend/src/pages/Profile.jsx:98-103 | once the name field holds something, later renders never overwrite the form |
| `ProfilePage.ProfileForms.constructor` | ecommerce-frontend/src/pages/Profile.jsx:10-11 | every field starts empty |
| `ProfilePage.ProfileForms.InitFromUser` | ecommerce-frontend/src/pages/Profile.jsx:98-103 | the form becomes Initialized of the old one |
| `ProfilePage.ProfileForms.HandlePasswordSubmit` | ecommerce-frontend/src/pages/Profile.jsx:43-73 | changePassword is asked for exactly when every check passes, with the old and new password; the three fields are cleared only when it succeeds |
| `ProfilePage.ProfileForms.HandleProfileSubmit` | ecommerce-frontend/src/pages/Profile.jsx:20-40 | updateProfile is asked for, with the untrimmed fields, exactly when both are non-blank |
| `Scenarios.SeededIphone` | product-service/index.js:38-46 | the seeded iPhone 15 as the order service reads it: price 15000000, weight 171, stock 50 |
| `Scenarios.IphoneCheckoutTotal` | order-service/index.js:284-299 | buying one seeded iPhone with an option costing 10855 quotes 171 grams and charges and stores 15010855 under the gateway's VA |
| `Scenarios.IphoneCheckoutAsWritten` | order-service/index.js:310-329 | as written the same checkout requests the stock decrement and the 15010855 payment, then fails at the insert |

## Left out

- Remote calls are not modelled. The HTTP requests, the GraphQL query text and the error messages of the gateway helpers (order-service/index.js:107-204) become `Outcome` answers of the `Gateways` functions.
- A gateway answering `null` (a null options list, null payment data) is not modelled. In the code that raises a TypeError, which aborts the checkout like an `Err`. A product answered as null is modelled as `ProductNotFound`.
- The product service defines no `decreaseStock` mutation (product-service/index.js:113-116). The model treats the stock decrement as an opaque gateway answer.
- createShipment is never called by any resolver. Only its fallback is modelled, as `ShipmentOrPlaceholder`.
- The database layer is not modelled: SQLite DDL, `promisify`, `lastID` callbacks, server start-up and shutdown. The UNIQUE constraints on SKU and e-mail are modelled as the pre-check their error path amounts to in a sequential run.
- Database errors in the `catch` of updatePaymentStatus (which answer false) are not modelled. Neither are database failures anywhere else.
- Clocks are parameters: `Date.now()` for SKUs and tokens, `CURRENT_TIMESTAMP`, `new Date().toISOString()`. `ORDER BY created_at DESC` is modelled as descending insertion order. Rows inserted within the same second, which SQLite may return in either order, are not modelled.
- Ids sent as strings (`ID!`) and compared with INTEGER columns are modelled as integers. SQLite's type affinity for non-numeric strings is not modelled.
- `OrderService.ToOrder` stores and returns the item's `productId` as the string createOrder received. The source column is INTEGER (order-service/index.js:46), and the resolvers read it back as `String(product_id || '')` (order-service/index.js:218, 246). So "01" comes back as "1", and a product id 0 comes back as ''. The model returns "01" and "0"; this normalisation is not modelled.
- The helper `mapDbToUser` (user-service/index.js:107-114) is not modelled: no resolver calls it. It reads `full_name` from an `auth_users` row, which has no such column (user-service/index.js:17-23), so if it were called it would always name the user 'User'. `UserService.AuthUser` models the user object login builds inline instead.
- Money is modelled as whole rupiah. Neither the REAL columns and GraphQL `Float` nor the double precision of JavaScript numbers is modelled: all arithmetic is exact and unbounded.
- JavaScript's `sort()` compares UTF-16 code units; `HomePage.StrLt` compares Unicode scalar values. These differ only for characters outside the Basic Multilingual Plane.
- `newPass.length` counts UTF-16 code units; `ProfilePage.ValidatePassword` counts Unicode scalar values.
- `parseInt` is not modelled as text parsing. The quantity input and `getUserProfile` take its result as a parameter (None for NaN).
- Concurrency is not modelled. Two concurrent checkouts may both pass the stock check, and a sequential model cannot show that.
- The storefront's presentation and side effects are not modelled: rendering, toasts, navigation, `fetch`, `Intl.NumberFormat`, the Leaflet map and reverse geocoding. `ProductPage.SetAlamat` stands for the map lookup filling the read-only address field.
- The response handling of handleBuy is not modelled, only the guards and the request. The request it builds carries no `kotaTujuanId` or `metodePengiriman`, which the order service declares non-null (order-service/index.js:85-86), so the order service's GraphQL validation would refuse it. The model stops at the request.
- `EscapeQuotes` escapes only double quotes, as the source does. A backslash in the address is not escaped, so GraphQL's own string decoding would read it as the start of an escape. The round trip is stated against undoing the quote escape.
- The profile page's mutations (`updateProfile`, `changePassword`) are not executed: their outcome is a parameter. `refetch` and the account deletion are not modelled.

## Findings

| source | as written | input that shows it | evidently intended | confidence | as-written member | corrected member |
|---|---|---|---|---|---|---|
| order-service/index.js:325 | The order INSERT binds `nomorResi`, which is declared only in the commented-out line 307. Evaluating the parameter list throws a ReferenceError, and createOrder rethrows it. | Any checkout whose collaborators all succeed. Example: one seeded iPhone 15, option "REG" at 10855. The stock decrement and a payment of 15010855 are requested, then the insert throws, and no order row exists. | Store the order with the placeholder receipt "-" of the commented-out declaration on line 307. | high; not executed | `OrderService.AsWrittenCheckoutNeverPersists` | `OrderService.IntendedCheckoutPersists` |
