# Kirana store — a Dafny model of its business rules

This project models the business rules of a small grocery ("kirana") store: an
Express/MongoDB/Redis backend and a React client. It covers:

- **Orders and stock.** Placing an order checks each line against stock. A
  cash sale takes the stock at once; any other order takes it when it is
  delivered.
- **The credit ("udhaar") ledger.** Entries are changed by role. The
  per-customer balance is credits minus payments.
- **The chat log.** Each user has one append-only log with a keyword bot.
- **The cached product listing.** It is stored under `products:all`. Product
  writes and cash orders drop every `products:*` key; marking an order
  delivered deletes only the key `products` (see "## Findings").
- **The client's logic.** This covers:
  - the cart and its folds;
  - catalogue search, filter and sort, and the quantity picker;
  - checkout dispatch, the order it posts and the phone filter;
  - the admin order board;
  - the udhaar page;
  - stock labels;
  - navbar suggestions.

The backend shares one `Database.Db` object. Its fields are the collections
(products, orders, ledger, users, chat logs) and the cache. Controller
operations are methods that change only the fields they name, and they are
proved against specification functions. For example, `OrderController.TakeStock`
is the check-and-take loop over an order's lines. The client's updaters are
pure functions from the old value to the new one. The model's structure:

- **Types.** Schemas are datatypes: `OrderModel`, `CreditModel`, `ChatModel`
  and `ProductModel`. Status codes are `Response` values.
- **Inputs.** The caller's identity and role, the clock (`now`) and fresh ids
  are parameters.
- **Money.** Amounts are whole paise (`int`).
- **Sorting.** The JavaScript `Array.prototype.sort` and the database's
  `sort` are stable sorts. `Sorting.Sort`, a stable insertion sort, models
  both.
- **Name order.** `localeCompare` is modelled as code-point lexicographic
  order (`Text.LexLe`).

## Model

| member | source | states |
|---|---|---|
| `OrderModel.ParseStatus` | backend/models/Order.js:12 | only the five status names pass the enum check, each naming its own status |
| `OrderModel.StatusRoundTrip` | backend/models/Order.js:12 | every status is read back as itself from its name |
| `OrderModel.ParsePaymentMethod` | backend/models/Order.js:11 | only `online`, `credit` and `cash` pass, each naming its method |
| `OrderModel.TotalNotTiedToItems` | backend/models/Order.js:5-10 | the schema accepts an order whose total differs from the sum over its items |
| `CreditModel.ParseEntryType` | backend/models/CreditLedger.js:6 | only `credit` and `payment` pass the enum check |
| `CreditModel.Signed` | backend/controllers/creditController.js:58 | a credit contributes its amount to the balance, a payment its negation |
| `CreditModel.PaymentStoredNegativeRaisesBalance` | backend/models/CreditLedger.js:5 | a payment stored negative, as the schema comment describes, would raise the balance the summary computes |
| `ChatModel.NewChatLog` | backend/models/ChatLog.js:3-13 | a new log belongs to its user, has no messages, context `IDLE` and empty metadata |
| `ProductController.InvalidateListings` | backend/controllers/productController.js:31-35 | exactly the keys starting `products:` are gone; every other key keeps its value |
| `ProductController.InvalidatedReadIsFresh` | backend/controllers/productController.js:7-15 | after invalidation a listing read serves the collection itself |
| `ProductController.GetProducts` | backend/controllers/productController.js:4-24 | a hit serves the cached listing and changes nothing; a miss serves the collection and caches it under `products:all` |
| `ProductController.ApplyPatch` | backend/controllers/productController.js:45-49 | each field the update carries replaces the stored one and each absent field keeps its value; the id is kept, so an empty update changes nothing |
| `ProductController.ApplyPatchIdempotent` | backend/controllers/productController.js:45-49 | sending the same update twice gives the product the first one gave |
| `ProductController.CreateProduct` | backend/controllers/productController.js:26-41 | the product is stored under its id, the listings are dropped, 201 |
| `ProductController.UpdateProduct` | backend/controllers/productController.js:43-65 | an unknown id gives 404 with nothing changed; otherwise the product with the update's fields applied (`ApplyPatch`) is stored and returned with 200, and the listings are dropped |
| `ProductController.DeleteProduct` | backend/controllers/productController.js:67-85 | an unknown id gives 404 with nothing changed; otherwise the product is removed and the listings are dropped |
| `ProductController.UploadImage` | backend/controllers/productController.js:87-98 | no file gives 400; a file gives its stored path |
| `OrderController.TakeStockKeepsProducts` | backend/controllers/orderController.js:10-28 | the stock loop adds and removes no product and changes nothing but stock |
| `OrderController.TakeStock` | backend/controllers/orderController.js:10-28 | the check-and-take loop (also orderController.js:86-101) keeps the set of products |
| `OrderController.NewerFirstIsTotalPreorder` | backend/controllers/orderController.js:62 | newest-first by `createdAt` is a total preorder, so the sorted listing is well defined |
| `OrderController.CheckOnlyChangesNothing` | backend/controllers/orderController.js:24-27 | an order that is not cash leaves every product as it was |
| `OrderController.TakeStockNeverNegative` | backend/controllers/orderController.js:17-27 | stock never goes negative through the loop, because each take follows a check of current stock |
| `OrderController.TakeStockAmount` | backend/controllers/orderController.js:23-27 | when every line passes, each product loses exactly the quantity its lines ask for |
| `OrderController.TakeStockFailureKeepsPrefix` | backend/controllers/orderController.js:10-21 | a failed loop keeps the takes of the lines before the first failing line, and that line fails on the stock as it then is |
| `OrderController.InitialStatus` | backend/controllers/orderController.js:31-37 | a new order is completed exactly when the method is `cash`, else pending |
| `OrderController.OmittedMethodIsPendingCash` | backend/models/Order.js:11-12 | an order sent without a method is stored as cash but stays pending |
| `OrderController.CreateOrder` | backend/controllers/orderController.js:5-52 | stops at the first missing (404) or short (400) product and creates no order, keeping earlier cash takes. A body without a total, or with an unknown payment method, is refused at save (400) after the cash takes, with no order stored and the listings kept. Otherwise it stores the caller's order with its status and invalidates the listings for cash. The stock always equals `TakeStock` of the old stock |
| `OrderController.OwnOrdersExact` | backend/controllers/orderController.js:64-67 | a customer's list holds each of their orders as often as it is stored, and nobody else's |
| `OrderController.GetOrders` | backend/controllers/orderController.js:55-73 | admins get every order, others their own, as a permutation sorted newest `createdAt` first |
| `OrderController.UpdateOrderStatus` | backend/controllers/orderController.js:75-113 | non-admins get 403 and unknown ids 404, with nothing changed. A first move to delivered runs the take loop. A failing line gives 404/400, keeps earlier takes and keeps the status. A status outside the enum gives 400. Otherwise the status is written. A delivery that goes through deletes only the cache key `products` (`DeliveryCacheEffect`), as the code is written |
| `OrderController.DeleteOrder` | backend/controllers/orderController.js:115-127 | non-admins get 403, unknown ids 404 with nothing changed; otherwise exactly that order is removed |
| `OrderController.DeliveryKeepsCachedListing` | backend/controllers/orderController.js:102-103 | with only `products` deleted, the next listing read serves the listing cached before the delivery |
| `OrderController.DeliveryCacheEffect` | backend/controllers/orderController.js:103 | a delivery removes only the key `products`; every other key, the cached listing included, keeps its value |
| `OrderController.StaleListingAfterDelivery` | backend/controllers/orderController.js:84-104 | a concrete delivery takes milk from 50 to 48 while the listing, as the code is written, still shows 50 |
| `OrderController.FreshListingAfterDelivery` | backend/controllers/orderController.js:84-104 | with the listing keys dropped, the same delivery is listed at 48 |
| `CreditController.AddCreditEntry` | backend/controllers/creditController.js:4-34 | an admin's entry is recorded for the body's user, anyone else's for themselves. A missing user or amount, or a bad type, gives 400 with nothing stored. Otherwise exactly one entry is appended, 201 |
| `CreditController.GetUserCredits` | backend/controllers/creditController.js:36-47 | 403 exactly unless admin or the customer themselves; such a caller always gets 200 with all of that customer's entries, newest date first |
| `CreditController.GetAllCreditEntries` | backend/controllers/creditController.js:89-101 | 403 exactly for non-admins; an admin always gets 200 with a permutation of the whole ledger, newest date first |
| `CreditController.GroupByUserCorrect` | backend/controllers/creditController.js:54-61 | one group exactly per customer with entries. Its total is credits minus payments and its date is the latest entry date, attained by some entry |
| `CreditController.Summarize` | backend/controllers/creditController.js:62-81 | a summary row exists exactly for a grouped customer that has a user record; its fields are given by `CreditController.SummaryRows` |
| `CreditController.SummaryRows` | backend/controllers/creditController.js:54-82 | a row exists iff the customer has entries and a user record. It carries the customer's id, name and email, credits minus payments as the total, and the latest of their entry dates |
| `CreditController.GetAllCredits` | backend/controllers/creditController.js:49-87 | 403 exactly for non-admins; an admin always gets 200 with the summary |
| `CreditController.UpdateCreditEntry` | backend/controllers/creditController.js:104-123 | 403 for non-admins and 404 for an unknown id, with nothing changed. Otherwise only amount, type and description change; id, customer and date stay |
| `CreditController.DeleteCreditEntry` | backend/controllers/creditController.js:126-140 | 403 for non-admins and 404 for an unknown id, with nothing changed; otherwise exactly that entry is removed |
| `CreditController.PaymentLowersBalance` | backend/controllers/creditController.js:58 | appending a payment lowers the customer's credits-minus-payments by its amount |
| `ChatController.PriceWinsOverHello` | backend/controllers/chatController.js:18-23 | a message with both keywords gets the price reply |
| `ChatController.BotReply` | backend/controllers/chatController.js:18-23 | the reply is one of the three texts, and it is the price reply exactly when the lower-cased message includes `price` |
| `ChatController.GreetingIffHelloWithoutPrice` | backend/controllers/chatController.js:18-23 | the greeting is the reply exactly when the message says hello without price |
| `ChatController.ReplyIgnoresCase` | backend/controllers/chatController.js:19-21 | messages equal once lower-cased get the same reply |
| `ChatController.ReplyToLoweredMessage` | backend/controllers/chatController.js:19-21 | lower-casing a message first does not change the reply |
| `ChatController.ReplyIsValidText` | backend/controllers/chatController.js:18-25 | the reply is one of the three texts and never empty, so the schema accepts it |
| `ChatController.MixedCaseExample` | backend/controllers/chatController.js:19-20 | "Hello, what is the PRICE of milk?" gets the price reply |
| `ChatController.ChatWithAI` | backend/controllers/chatController.js:3-32 | a missing or empty message gives 500 with nothing stored, and any other message succeeds. Then the caller's log, created if absent, gains the user message then the reply, and other logs are untouched. The response is the last message of the returned history, which is the stored log. Logs stay valid |
| `ChatController.GetChatHistory` | backend/controllers/chatController.js:34-41 | the caller's stored messages, or none when there is no log, creating nothing |
| `CartContext.AddToCart` | frontend/src/context/CartContext.jsx:21-43 | a request that would pass the stock of the product passed in leaves the cart unchanged |
| `CartContext.FoldsAppend` | frontend/src/context/CartContext.jsx:71-72 | the count and the total split over concatenation |
| `CartContext.CartTotal` | frontend/src/context/CartContext.jsx:72 | the total of lines with non-negative price and quantity is never negative |
| `CartContext.CountCoversLines` | frontend/src/context/CartContext.jsx:71 | `cartCount` (`CartContext.CartCount`) is at least the number of lines when every line holds one or more |
| `CartContext.AddKeepsIdsUnique` | frontend/src/context/CartContext.jsx:23-40 | adding never creates a second line for a product |
| `CartContext.AddCount` | frontend/src/context/CartContext.jsx:21-43 | an accepted add raises the count by exactly the request, a refused one by nothing |
| `CartContext.AddResult` | frontend/src/context/CartContext.jsx:23-40 | after an accepted add the product has one line, holding its old quantity plus the request within stock. A new product is appended at the end; other lines are untouched |
| `CartContext.RemoveFromCartMembers` | frontend/src/context/CartContext.jsx:45-47 | a line survives exactly when it is not of that product (also the cart page's `removeItem`, Cart.jsx:25-26) |
| `CartContext.RemoveFromCart` | frontend/src/context/CartContext.jsx:45-47 | no line of the removed product remains, and the cart never grows |
| `CartContext.RemoveAppend` | frontend/src/context/CartContext.jsx:46 | removal is piecewise, so kept lines keep their order |
| `CartContext.RemoveCount` | frontend/src/context/CartContext.jsx:45-47 | removal takes exactly the product's quantity out of the count and leaves none of it |
| `CartContext.UpdatedLineBounds` | frontend/src/context/CartContext.jsx:52-61 | an updated line keeps its product and never drops below one. The new quantity is max(1, q+delta), unless an increase would pass a truthy stock, in which case the line is kept. A line within stock stays within it |
| `CartContext.UpdateQuantity` | frontend/src/context/CartContext.jsx:49-65 | the update keeps the number of lines, replaces each line of the product by its updated line (`CartContext.UpdatedLineBounds` gives its quantity) and keeps every other line |
| `CartContext.UpdateKeepsWithinStock` | frontend/src/context/CartContext.jsx:49-65 | lines within stock stay so, and other products' lines are untouched |
| `CartContext.ClearCart` | frontend/src/context/CartContext.jsx:67-69 | the cleared cart has count and total zero |
| `CartPage.PageUpdateQuantity` | frontend/src/pages/Cart.jsx:15-20 | the page's update keeps the number of lines; `CartPage.PageUpdateLines` gives each line |
| `CartPage.PageUpdateLines` | frontend/src/pages/Cart.jsx:14-20 | lines keep their product, other products' lines are untouched, and a touched line's quantity becomes exactly max(1, q+delta), whatever the stock |
| `CartPage.PageAgreesOnDecrease` | frontend/src/pages/Cart.jsx:17 | for a decrease the page and the cart itself agree |
| `CartPage.PageIncreaseIgnoresStock` | frontend/src/pages/Cart.jsx:14-20 | the page raises a line past a stock of one that the cart itself would refuse |
| `HomePage.FilterBySearch` | frontend/src/pages/Home.jsx:52-57 | keeps exactly the products whose lower-cased name or description includes the lower-cased term |
| `HomePage.FilterByCategory` | frontend/src/pages/Home.jsx:60-62 | keeps exactly the products the category filter accepts |
| `HomePage.SelectedMembers` | frontend/src/pages/Home.jsx:48-62 | a product is selected iff it is in the catalogue, passes the search (or the term is empty) and the category |
| `HomePage.EmptyTermMatchesAll` | frontend/src/pages/Home.jsx:52 | every product passes an empty search |
| `HomePage.SortOrderIsTotalPreorder` | frontend/src/pages/Home.jsx:65-75 | each sort mode's comparison is total and transitive |
| `HomePage.FilterAndSortProducts` | frontend/src/pages/Home.jsx:48-78 | the result is a permutation of the selected products, sorted by the mode: price up, price down, otherwise name |
| `HomePage.GetQuantity` | frontend/src/pages/Home.jsx:80-82 | the stored pick when it is non-zero, else 1 |
| `HomePage.Clamp` | frontend/src/pages/Home.jsx:89 | the clamped pick is the request itself when in range, the stock when a positive stock is exceeded, and 1 when the request or the stock is below one |
| `HomePage.UpdateQuantity` | frontend/src/pages/Home.jsx:84-91 | an unknown id changes nothing. Otherwise only that product's pick changes: to n when in range, to the stock when a positive stock is exceeded, and to 1 when n or the stock is below one |
| `HomePage.PickerStaysInRange` | frontend/src/pages/Home.jsx:84-101 | for a product in stock the pick read back is within [1, stock] |
| `HomePage.HandleAddToCart` | frontend/src/pages/Home.jsx:106-130 | login is required, an empty product is refused, a pick above stock is refused. The pick is sent to the cart exactly when logged in, in stock and within stock, and the picker then resets to 1 |
| `HomePage.AddedEvenWhenCartRefuses` | frontend/src/pages/Home.jsx:118-129 | the page reports an add and resets the picker even when the cart refuses the request |
| `HomePage.Distinct` | frontend/src/pages/Home.jsx:132 | the distinct values, each once, all of them, in the order of their first occurrence |
| `HomePage.PresentCategoriesOrder` | frontend/src/pages/Home.jsx:132 | the truthy categories keep catalogue order: an earlier first occurrence means some product of that category precedes every product of the other |
| `HomePage.CategoriesInOrder` | frontend/src/pages/Home.jsx:132 | the distinct categories are in the order the catalogue first shows them |
| `HomePage.PresentCategories` | frontend/src/pages/Home.jsx:132 | exactly the non-empty categories present |
| `HomePage.Categories` | frontend/src/pages/Home.jsx:132 | `all` first, then each non-empty category of the catalogue exactly once, ordered by the first product that shows it |
| `CheckoutPage.OrderItems` | frontend/src/pages/Checkout.jsx:127 | one item per cart line, in order, with its product id, quantity and price |
| `CheckoutPage.OrderItemsMatchTotal` | frontend/src/pages/Checkout.jsx:126-129 | the posted items add up to the posted total |
| `CheckoutPage.CreditDescription` | frontend/src/pages/Checkout.jsx:136 | the ledger description starts with `Order - ` and ends with a space; a one-line cart names its product, and `CheckoutPage.CreditDescriptionAppend` gives the longer carts |
| `CheckoutPage.CreditDescriptionAppend` | frontend/src/pages/Checkout.jsx:136 | each further line adds `, ` and its name before the final space, so the names are joined with `, ` in cart order |
| `CheckoutPage.FlowRequests` | frontend/src/pages/Checkout.jsx:58-176 | credit sends two requests and the other flows one. Online starts with the payment order. Every request carries the cart total, and an order carries the cart's items |
| `CheckoutPage.PlaceOrder` | frontend/src/pages/Checkout.jsx:20-28 | no phone opens the prompt and sends nothing. A non-admin is refused cash before anything is sent. Otherwise the flow's requests go out in order up to the first refused one, and the cart is cleared only when all were accepted |
| `CheckoutPage.CreditFlow` | frontend/src/pages/Checkout.jsx:122-149 | a credit order first posts the order on credit, then a credit entry for the same total |
| `CheckoutPage.CreditOrderWithoutLedgerEntry` | frontend/src/pages/Checkout.jsx:124-146 | a refused ledger entry leaves the credit order placed and the cart kept |
| `CheckoutPage.CashIsTheFallback` | frontend/src/pages/Checkout.jsx:151-176 | any method but online and credit is cash: admins post a cash order, others are refused |
| `CheckoutPage.PhoneInput` | frontend/src/pages/Checkout.jsx:294-297 | the field takes the digits of an edit when there are at most ten, else keeps its value |
| `CheckoutPage.PhoneInputStaysValid` | frontend/src/pages/Checkout.jsx:295-296 | a field of at most ten digits stays so |
| `CheckoutPage.PhoneInputStable` | frontend/src/pages/Checkout.jsx:295-296 | re-entering the field's value changes nothing |
| `OrderManagement.FilterOrders` | frontend/src/pages/OrderManagement.jsx:43-49 | `all` keeps the list; a status keeps exactly the orders of that status |
| `OrderManagement.FilterOrdersAppend` | frontend/src/pages/OrderManagement.jsx:43-49 | filtering works piecewise, so the board keeps the orders' order |
| `OrderManagement.FilterMatchesCount` | frontend/src/pages/OrderManagement.jsx:128-135 | a status filter shows as many orders as that status's count |
| `OrderManagement.StatusCountsPartition` | frontend/src/pages/OrderManagement.jsx:128-135 | the five status counts sum to all orders |
| `OrderManagement.GetOrderStats` | frontend/src/pages/OrderManagement.jsx:128-135 | `all` is the number of orders; pending, processing and delivered are the counts of those statuses, which together never exceed it |
| `OrderManagement.PaymentBadge` | frontend/src/pages/OrderManagement.jsx:101-112 | online shows paid and cash shows cash; a credit order shows paid exactly when the customer's figure is not positive; unknown methods are shown as they are |
| `OrderManagement.CreditBadgeIgnoresOrder` | frontend/src/pages/OrderManagement.jsx:105-106 | a credit badge depends only on the sign of the customer's whole balance |
| `OrderManagement.StatusBadge` | frontend/src/pages/OrderManagement.jsx:114-122 | the badge is the status icon, one space, then the capitalised status |
| `OrderManagement.StatusBadgeExamples` | frontend/src/pages/OrderManagement.jsx:114-122 | `completed` has no icon; `pending` shows the yellow circle |
| `OrderManagement.CreditRows` | frontend/src/pages/OrderManagement.jsx:29-32 | one row per summary row, carrying its customer and figure |
| `OrderManagement.BuildCreditMap` | frontend/src/pages/OrderManagement.jsx:30-33 | one key per customer with a row, holding the figure of that customer's last row |
| `OrderManagement.GetCustomerCredit` | frontend/src/pages/OrderManagement.jsx:137-139 | the customer's figure, or 0 without a customer or a row |
| `OrderManagement.OfferedTransitions` | frontend/src/pages/OrderManagement.jsx:257-302 | no action for delivered or cancelled. Cancel is otherwise always offered, processing only from pending and delivered only from processing |
| `OrderManagement.OfferedTransitionsMoveForward` | frontend/src/pages/OrderManagement.jsx:257-302 | every offered action moves an order strictly forward and never back |
| `UdhaarPage.ClassifyBalance` | frontend/src/pages/Udhaar.jsx:176-194 | positive is owed, negative overpaid by its absolute value, zero settled |
| `UdhaarPage.PaymentOfferedIffOwed` | frontend/src/pages/Udhaar.jsx:201 | a payment can be recorded exactly for a customer who owes |
| `UdhaarPage.CustomerEntriesMembers` | frontend/src/pages/Udhaar.jsx:117-119 | exactly the entries whose populated customer is this one |
| `UdhaarPage.CustomerEntries` | frontend/src/pages/Udhaar.jsx:117-119 | every listed entry has its customer populated and equal to this one, and the list never grows |
| `UdhaarPage.CustomerEntriesAppend` | frontend/src/pages/Udhaar.jsx:118 | listing is piecewise, so entries keep their order |
| `UdhaarPage.ToggleExpand` | frontend/src/pages/Udhaar.jsx:121-123 | the expanded customer collapses, any other becomes the one expanded |
| `UdhaarPage.ToggleTwice` | frontend/src/pages/Udhaar.jsx:121-123 | toggling one customer twice restores the view |
| `UdhaarPage.RecordPayment` | frontend/src/pages/Udhaar.jsx:89-94 | the payment goes to the customer with the amount, type `payment` and the typed amount in its description |
| `UdhaarPage.RecordedPaymentReducesBalance` | frontend/src/pages/Udhaar.jsx:443-445 | a stored payment in the field's range lowers the balance by its amount and leaves it in [0, old balance) |
| `InventoryPage.EffectiveMinLevel` | frontend/src/pages/Inventory.jsx:146 | a missing or zero threshold reads as 10 |
| `InventoryPage.GetStockStatus` | frontend/src/pages/Inventory.jsx:117-121 | empty is out of stock, non-empty at or under the threshold is low, else in stock; the label is `Out of Stock`, `Low Stock` or `In Stock` to match, and the icon shows exactly when not in stock |
| `InventoryPage.EmptyIsOutBeforeLow` | frontend/src/pages/Inventory.jsx:118 | an empty shelf is out of stock whatever the threshold |
| `InventoryPage.WarningMonotoneInThreshold` | frontend/src/pages/Inventory.jsx:118-120 | raising the threshold never removes a warning |
| `InventoryPage.FormDefaultMatchesFallback` | frontend/src/pages/Inventory.jsx:10 | the new-product form's default threshold is the fallback 10 |
| `Navbar.Matches` | frontend/src/components/Navbar.jsx:59-63 | exactly the products whose lower-cased name or category includes the lower-cased query |
| `Navbar.MatchesAppend` | frontend/src/components/Navbar.jsx:59-63 | matching works piecewise, so the matches keep catalogue order |
| `Navbar.MatchesQuery` | frontend/src/components/Navbar.jsx:60-63 | an empty query matches everything, and a match needs a name or category at least as long as the query |
| `Navbar.MilkMissesSpacedQuery` | frontend/src/components/Navbar.jsx:61 | "Milk" has no match for the longer query "milk " |
| `Navbar.TrimMilkSpace` | frontend/src/components/Navbar.jsx:56 | trimming "milk " gives "milk" |
| `Navbar.Suggestions` | frontend/src/components/Navbar.jsx:54-73 | a blank query shows nothing. Otherwise the list is shown, is a prefix of the matches, and holds all of them when there are five or fewer, else exactly five |
| `Navbar.TrailingSpaceHidesMatch` | frontend/src/components/Navbar.jsx:56-63 | "milk " suggests nothing for Milk though its trimmed form is "milk" |
| `Navbar.HandleSearch` | frontend/src/components/Navbar.jsx:92-102 | searches for the trimmed query, or goes home exactly when it is blank; suggestions close |
| `Navbar.HandleSuggestionClick` | frontend/src/components/Navbar.jsx:104-108 | the query becomes the product's name and is searched for |
| `Navbar.ClearSearch` | frontend/src/components/Navbar.jsx:110-114 | empty query, suggestions hidden, back home |
| `Navbar.ClearedSearchGoesHome` | frontend/src/components/Navbar.jsx:92-114 | searching after clearing goes home |
| `Navbar.GetStockBadge` | frontend/src/components/Navbar.jsx:205-214 | "N left" exactly for a stock of one to five, "Out of stock" exactly at zero |
| `Text.TrimEmptyIffBlank` | frontend/src/components/Navbar.jsx:56 | a string trims to empty exactly when it is all whitespace |
| `Text.ContainsLength` | frontend/src/components/Navbar.jsx:61 | a string that includes another is at least as long |
| `Text.ToLowerIdempotent` | backend/controllers/chatController.js:19 | lower-casing twice is lower-casing once |
| `Text.DigitsOnlyIdempotent` | frontend/src/pages/Checkout.jsx:295 | filtering digits twice is filtering once |
| `Text.DigitsOnlyOfDigits` | frontend/src/pages/Checkout.jsx:295 | a digit string passes the filter unchanged |
| `Text.LexLeTotal` | frontend/src/pages/Home.jsx:73 | any two names are comparable |
| `Text.LexLeTransitive` | frontend/src/pages/Home.jsx:73 | the name order is transitive |
| `Sorting.SortPermutes` | backend/controllers/orderController.js:62 | sorting reorders and nothing more |
| `Sorting.SortSorted` | frontend/src/pages/Home.jsx:65 | for a total preorder the sorted result is in order |

## Left out

- I/O and wiring are not modelled: HTTP and Express routes, middleware, MongoDB and Redis connections, `localStorage`, alerts, navigation and React rendering. Status codes are `Response` values, and the caller's id and role are inputs.
- Authentication is not modelled (bcrypt, JWT, login pages, role routing).
- `CheckoutPage.PlaceOrder` models the online flow up to its first request (creating the payment order). The page's own success callback (frontend/src/pages/Checkout.jsx:73-91) posts the verification, then the order with `paymentMethod: 'online'`, then clears the cart. It runs only after the external Razorpay widget reports a payment, so it is not modelled.
- Concurrency is not modelled. That covers async interleavings between requests, the 300 ms search debounce, and the cache's one-hour expiry.
- Money is in whole paise (`int`), not JavaScript floating point. The price display and `parseFloat` of the payment field are not modelled, so the amount is an input beside its typed text.
- `Text.ToLower` lower-cases ASCII letters only, where JavaScript's `toLowerCase` covers all of Unicode.
- `Text.LexLe` is code-point order, where `localeCompare` follows the locale.
- Ties between equal sort keys keep their input order. JavaScript's sort is stable; the database's order for equal dates is not specified.
- backend/models/Product.js is not part of this model. The product fields are those the controllers and pages read.
- `ProductController.CreateProduct` does not model the schema's validation of a new product (400); it requires a fresh id.
- `ProductController.UpdateProduct` takes a typed patch, so the untyped body and its cast errors (400) are not modelled.
- `CreditController.UpdateCreditEntry` takes a typed entry type. The update runs without the schema's validators, so a stored type outside the enum is not modelled. Its amount and type are always given, and an absent description (`None`) overwrites the stored one. In the source, a field missing from the body is left out of the update, so the stored value stays; that case is not modelled. The ledger page always sends all three fields (frontend/src/pages/Udhaar.jsx:59-63).
- `CreditController.AddCreditEntry` does not model the cast of a malformed user id or amount, beyond a missing one.
- `OrderController.UpdateOrderStatus` takes the requested status as a string, so a body without `status` is not modelled. The source then stores the order with its status unset and answers 200, because the enum validator lets `undefined` pass.
- `ProductController.GetProducts` serves the collection as a map by id, so the order in which the database returns the products is not modelled. The navbar's first five suggestions and the catalogue's category order depend on that order; `Navbar.Suggestions` and `HomePage.Categories` take the catalogue as a sequence in whatever order it arrives.
- `OrderController.CreateOrder` does not store the walk-in `customerName`/`customerPhone` fields, which no shown controller writes.
- `OrderController.CreateOrder` requires a fresh order id and does not model a malformed item list.
- `OrderManagement.PaymentBadge` and `OrderManagement.StatusIcon` use the intended emoji (✅, ⏳, 💵 and the coloured circles). The file's literals at frontend/src/pages/OrderManagement.jsx:104-108 and 116-119 are mis-encoded (UTF-8 read as another code page), and the model does not reproduce those mis-encoded characters. `OrderManagement.StatusBadgeExamples` states the intended badges.
- `ChatController.ChatWithAI` stamps both messages with one `now`. A message that is not a string is modelled as missing.
- `ChatModel`: no state machine is modelled. The `context` and `metadata` fields are declared but never read or written by the chat controller, so they keep their defaults.
- `CheckoutPage.PlaceOrder`: the phone prompt's submit (saving the phone, then the same dispatch) is not modelled. It is I/O around the same dispatch.
- `Navbar.HandleSearch` keeps the term raw; `encodeURIComponent` is not modelled.
- The pages' other handlers post a form as typed (Udhaar add/edit/delete entry, Inventory save/delete, OrderManagement's WhatsApp link). They hold no logic beyond the backend operations modelled here.

## Findings

| source | as written | input that shows it | evidently intended | confidence | as-written member | corrected member |
|---|---|---|---|---|---|---|
| backend/controllers/orderController.js:103 | marking an order delivered deletes the cache key `products`, which no read uses; the listing lives under `products:all` | `products:all` cached with milk at stock 50; an order for 2 is delivered; the listing still shows 50 for up to an hour | drop every `products:*` key, as the cash path of `createOrder` and every product write do | high (not executed) | `OrderController.StaleListingAfterDelivery` | `OrderController.FreshListingAfterDelivery` |
