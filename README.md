# Watercolour storefront: a Dafny model of the app's stores, request shaping and screen rules

The app is a React Native shop for watercolour products and gallery pieces. It has
Polish-language screens, a handful of in-memory stores with listener sets, MobX and hook
state holders fed by a REST backend, and an HTTP client. This project models the app's
logic in Dafny and proves what each part promises:

- **Local stores.** These are the cart, purchases, the activity feed, ratings, comments and
  the local gallery. Each store is a class whose `seq`/`set`/`map` field its methods
  reassign, with a generic listener bus (`Listeners.Bus`). The bus records, as ghost
  state, every notification and the state the listeners saw.
- **Async state holders.** These are the MobX gallery store, the `useProducts` hook and the
  auth provider. Their methods take the network outcome (`Ok(data)` or `Err(message)`) as
  a parameter, so the loading and error flags become plain state transitions.
- **Request shaping and error mapping.** This covers the `CartApi` request descriptors,
  `buildUrl`, `tryParseJson`, header assembly and the non-2xx to `ApiError` mapping of
  `httpRequest`, and the `ApiError` record.
- **Screen rules.** These cover:
  - registration validation and payload normalisation;
  - relative-date and time-ago bucketing;
  - activity labels and the admin-type filter;
  - gallery sorting;
  - the star split and per-star fills;
  - bar-chart normalisation;
  - the cart screen's checked map, selected total and order rule;
  - the guards and ordering of the detail screens' add-to-cart, comment and rating
    handlers.

The shipped code keeps the cart the app renders in a local module store keyed by product
id, and the model follows that code. The detail screens first post to the backend cart
(`CartApi.addItem`), and only when that succeeds add the line to the local store. The cart
screen reads only the local snapshot. Nothing in the code refreshes a backend cart,
rejects stale responses or keys lines by (target, source).

Clocks (`Date.now`) are `now` parameters. `Math.random` is an oracle parameter limited to
the values it can produce. `JSON.parse` is a parsed-or-not parameter. Prices and averages
are `real`, and quantities and ids are `int`/`string`.

## Model

| member | source | states |
|---|---|---|
| Listeners.Bus.Subscribe | src/features/cart/store/cartStore.ts:12-14 | subscribing adds the listener to the set, and a second subscribe of the same listener keeps one entry |
| Listeners.Bus.Unsubscribe | src/features/cart/store/cartStore.ts:14 | the function `subscribe` returns removes exactly that listener and notifies nobody |
| Listeners.Bus.Emit | src/features/cart/store/cartStore.ts:17-19 | one notification reaches every listener currently subscribed, and it is logged with the state they read |
| CartStore.Find | src/features/cart/store/cartStore.ts:22 | `find` by id gives the first line with that id, and None exactly when no line has it |
| CartStore.AddExisting | src/features/cart/store/cartStore.ts:22-31 | adding an id already present raises that line's quantity by 1 in place; every other line and the line count are unchanged |
| CartStore.AddNew | src/features/cart/store/cartStore.ts:34 | adding an absent id appends `{...product, quantity: 1}` at the end |
| CartStore.AddPreserves | src/features/cart/store/cartStore.ts:21-36 | add keeps ids distinct and quantities at least 1, leaves a line for the product, and raises the count by exactly 1 |
| CartStore.CountAppend | src/features/cart/store/cartStore.ts:42-47 | the quantity sum of a concatenation is the sum of the parts' sums |
| CartStore.CountAtLeastLines | src/features/cart/store/cartStore.ts:42-47 | for a well-formed cart the count is at least the number of lines, and it is 0 exactly when the cart is empty |
| CartStore.DecreaseAbsent | src/features/cart/store/cartStore.ts:50-51 | decreasing an absent id leaves the cart unchanged |
| CartStore.DecreasePresent | src/features/cart/store/cartStore.ts:53-64 | a present line at quantity 1 or less is dropped, otherwise it loses one unit; the other lines keep their values and order |
| CartStore.DecreasePreserves | src/features/cart/store/cartStore.ts:49-65 | decrease keeps the cart invariant and lowers the count by exactly 1 on a present id, and by 0 on an absent one |
| CartStore.RemovePreserves | src/features/cart/store/cartStore.ts:67-70 | remove drops the line with that id and keeps the rest in order; an absent id changes nothing; the invariant holds |
| CartStore.Cart.ItemsCount | src/features/cart/store/cartStore.ts:42-47 | the badge count is the sum of quantities, at least the line count, and 0 only for an empty cart |
| CartStore.Cart.Snapshot | src/features/cart/store/cartStore.ts:38-40 | the snapshot is the current lines themselves, so it carries the cart invariant: one line per product id, each of quantity at least 1 |
| CartStore.Cart.AddItem | src/features/cart/store/cartStore.ts:21-36 | the cart becomes add-or-increment of the product, the `source` argument is ignored, the count grows by 1, and listeners are notified once after the assignment |
| CartStore.Cart.DecreaseItem | src/features/cart/store/cartStore.ts:49-65 | decrement-or-remove; an absent or undefined id returns without notifying; a present id lowers the count by 1 and notifies once |
| CartStore.Cart.RemoveItem | src/features/cart/store/cartStore.ts:67-70 | the id is gone afterwards, the rest keep their order, and listeners are notified even when nothing matched |
| CartStore.Cart.Clear | src/features/cart/store/cartStore.ts:72-75 | the cart is empty and listeners are notified once |
| CartScreen.KeyDistinct | src/screens/CartScreen.tsx:32 | lines with different ids get different checkbox keys |
| CartScreen.KeysOfWellFormed | src/screens/CartScreen.tsx:32 | a well-formed snapshot has exactly one key per line |
| CartScreen.Reconcile | src/screens/CartScreen.tsx:51-58 | the new checked map has exactly the snapshot's keys; known keys keep their flag and new keys default to checked |
| CartScreen.ToggleAll | src/screens/CartScreen.tsx:63-73 | every line's flag becomes the negation of `allChecked`, so on a non-empty cart `allChecked` flips |
| CartScreen.ToggleOne | src/screens/CartScreen.tsx:91 | exactly the given key flips (a missing key counts as unchecked) and every other flag is unchanged |
| CartScreen.ToggleOneTwice | src/screens/CartScreen.tsx:91 | toggling a key twice restores its flag |
| CartScreen.TotalIsSelectedValue | src/screens/CartScreen.tsx:105-109 | the running total equals the sum of price × quantity over the checked lines only |
| CartScreen.UndefinedIdChangesNothing | src/screens/CartScreen.tsx:98 | remove and decrease called with `cartItemId`, which is undefined on local lines, leave the cart unchanged, so the line is still present |
| CartScreen.CartScreenState.Refresh | src/screens/CartScreen.tsx:47-59 | the shown items become the store snapshot and the checked map is reconciled against it |
| CartScreen.CartScreenState.PressCheck | src/screens/CartScreen.tsx:75-92 | tapping a checkbox toggles exactly that line's key |
| CartScreen.CartScreenState.PressSelectAll | src/screens/CartScreen.tsx:67-73 | select-all gives every line's key the mark `!allChecked` of the state before the press, and the map holds exactly those keys; on a non-empty cart `allChecked` flips |
| CartScreen.CartScreenState.Order | src/screens/CartScreen.tsx:111-136 | with nothing checked, nothing changes; otherwise exactly the checked lines are appended to purchases, the alert total is their value, and the whole cart, unchecked lines included, is cleared along with the checked map. This is `order()` itself; the button's gate is `PressOrder` |
| CartScreen.CartScreenState.PressOrder | src/screens/CartScreen.tsx:271-278 | the ZAMÓW button is disabled while the selected total is 0, and then nothing changes; otherwise exactly the checked lines are purchased, the alert total is the selected total, and the cart and the checked map are emptied |
| CartScreen.EnabledOrderHasSelection | src/screens/CartScreen.tsx:111-122 | while the ZAMÓW button is enabled some line is checked, so the "Brak produktów" branch is not reached from the screen |
| CartScreen.CartScreenState.PressPlus | src/screens/CartScreen.tsx:197-202 | plus adds one unit of that line and raises the count by 1. After the `refresh()` the marks cover exactly the lines' keys; a key keeps its old mark and a new key is checked. |
| CartScreen.CartScreenState.PressTrashAsWritten | src/screens/CartScreen.tsx:209-213 | the trash button as written leaves the cart unchanged. After the `refresh()` the marks cover exactly the lines' keys; a key keeps its old mark and a new key is checked. |
| CartScreen.CartScreenState.PressTrash | src/screens/CartScreen.tsx:209-213 | with the line's id passed, trash removes that line and keeps the rest in order. After the `refresh()` the marks cover exactly the lines' keys; a key keeps its old mark and a new key is checked. |
| CartScreen.CartScreenState.PressMinusAsWritten | src/screens/CartScreen.tsx:184-190 | minus as written never changes the cart and notifies nobody. At quantity 1 the button is disabled, so the screen's lines and marks stay as they were. Above quantity 1 the screen refreshes: the lines become the cart's, and the marks cover exactly the lines' keys, where a key keeps its old mark and a new key is checked |
| CartScreen.CartScreenState.PressMinus | src/screens/CartScreen.tsx:184-190 | with the id passed, minus decrements the line and lowers the count by 1; at quantity 1 the button is disabled, so the cart, the screen's lines, its marks and the listeners are untouched. Above quantity 1 the screen refreshes: the lines become the cart's, and the marks cover exactly the lines' keys, where a key keeps its old mark and a new key is checked |
| CartScreen.CartScreenState.RemoveSelectedAsWritten | src/screens/CartScreen.tsx:94-103 | remove-selected as written leaves the cart unchanged. The marks are reset to `{}` before `refresh()`, so afterwards they cover exactly the lines' keys and every line is checked |
| CartScreen.CartScreenState.RemoveSelected | src/screens/CartScreen.tsx:94-103 | with ids passed, every checked line's id is gone, every unchecked line survives. The marks then cover exactly the remaining lines' keys, and every remaining line is checked |
| CartScreen.IdsSnoc | src/screens/CartScreen.tsx:97-99 | the ids removed so far grow by one id per loop step |
| CartScreen.RemoveAll | src/screens/CartScreen.tsx:97-99 | removing the listed lines one by one leaves none of their ids in the cart and keeps every other line, with the cart still well formed |
| CartScreen.RemoveStep | src/screens/CartScreen.tsx:97-99 | one removal keeps every earlier removal and every unselected line |
| PurchasesStore.Purchases.AddPurchase | src/features/purchases/store/purchasesStore.ts:13-16 | the items are appended in order at the end of the log, the count grows by their total quantity, and listeners are notified |
| PurchasesStore.Purchases.PurchasedCount | src/features/purchases/store/purchasesStore.ts:18-23 | the purchased count is the sum of the logged quantities |
| PurchasesStore.Purchases.Reset | src/features/purchases/store/purchasesStore.ts:25-28 | the log is empty, the count is 0, and listeners are notified |
| ActivityStore.PrependedShape | src/features/activity/store/activityStore.ts:31-38 | the new entry is at index 0, the feed holds at most 8 entries, the oldest entry is dropped only when the feed was full, and surviving entries keep their order shifted by one |
| ActivityStore.Feed.AddActivity | src/features/activity/store/activityStore.ts:31-38 | the feed becomes the first 8 of the new entry, with its type and time, followed by the old feed; listeners are notified |
| ActivityStore.Feed.Activities | src/features/activity/store/activityStore.ts:40-42 | the feed read is the current feed, never more than 8 entries |
| ActivityStore.Feed.Reset | src/features/activity/store/activityStore.ts:44-47 | the feed is empty and listeners are notified |
| RatingsStore.Ratings.AddRating | src/features/ratings/store/ratingsStore.ts:17-23 | a new id is added, one RATING activity is recorded and listeners are notified; a repeated id changes nothing and notifies nobody |
| RatingsStore.Ratings.RatedCount | src/features/ratings/store/ratingsStore.ts:29-31 | the count is the number of distinct ids rated since the last reset |
| RatingsStore.Ratings.AverageRating | src/features/ratings/store/ratingsStore.ts:34-37 | the average is 0 with no ratings, and otherwise the constant 4.5 |
| RatingsStore.Ratings.RatedCountTotal | src/features/ratings/store/ratingsStore.ts:47-59 | the total is always the user count plus the 18 stock ratings |
| RatingsStore.Ratings.Reset | src/features/ratings/store/ratingsStore.ts:82-85 | the set is empty, the total is 18, and listeners are notified |
| RatingsStore.HistoryIdsSnoc | src/features/ratings/store/ratingsStore.ts:18-19 | rating one more id adds exactly that id to the set of ids rated |
| RatingsStore.HistoryIdsBound | src/features/ratings/store/ratingsStore.ts:29-31 | there are never more distinct ids than ratings made |
| CommentsStore.StockListShape | src/features/comments/commentsStore.ts:36-61 | a stock list has 1 or 2 entries, ids `stock-<productId>-<index>`, createdAt 0, stock texts and stock authors |
| CommentsStore.Comments.StockComments | src/features/comments/commentsStore.ts:36-61 | a cached product gets its cached list back unchanged; otherwise a fresh well-shaped list is drawn and cached |
| CommentsStore.Comments.AddComment | src/features/comments/commentsStore.ts:78-94 | exactly one comment with the product id, the text and author 'Ty' is appended, the count rises by 1, and listeners are notified |
| CommentsStore.Comments.CommentsSnapshot | src/features/comments/commentsStore.ts:96-106 | the snapshot is the product's stock list, drawn once and then cached, followed by that product's user comments in insertion order |
| CommentsStore.Comments.Reset | src/features/comments/commentsStore.ts:113-119 | user comments and the stock cache are emptied, the count is 0, and listeners are notified |
| CommentsStore.Comments.CommentsCount | src/features/comments/commentsStore.ts:108-111 | the count is the number of user comments; stock comments are not counted |
| CommentsStore.AddedCommentShows | src/features/comments/commentsStore.ts:78-106 | a new comment appears at the end of its own product's user comments, and every other product's list is unchanged |
| LocalGallery.Gallery.constructor | src/features/gallery/store/galleryStore.ts:9-26 | the gallery starts as the two mock items, in order |
| LocalGallery.Gallery.Items | src/features/gallery/store/galleryStore.ts:36-38 | `getGallery` returns the current list |
| LocalGallery.Gallery.Add | src/features/gallery/store/galleryStore.ts:40-43 | the item goes to the front, the rest keep their order, and listeners are notified |
| LocalGallery.Gallery.Update | src/features/gallery/store/galleryStore.ts:45-50 | every item with a matching id is replaced, the length is unchanged, and listeners are notified |
| LocalGallery.Gallery.Remove | src/features/gallery/store/galleryStore.ts:52-55 | every item with that id is dropped, the rest keep their order, and listeners are notified |
| LocalGallery.ReplacedShape | src/features/gallery/store/galleryStore.ts:45-50 | matching items become the new item, other items are unchanged, and with no match the gallery is unchanged |
| LocalGallery.RemovedShape | src/features/gallery/store/galleryStore.ts:52-55 | no item with the id remains and every other item survives |
| GalleryStore.FindIndex | src/api/gallery/store/galleryStore.ts:55-57 | `findIndex` gives the first match, and None exactly when no item has the id |
| GalleryStore.FindIndexAt | src/api/gallery/store/galleryStore.ts:55-57 | `findIndex` returns the position of the first item with the id |
| GalleryStore.UpdateOverwrites | src/api/gallery/store/galleryStore.ts:48-62 | when the server keeps the id, updating the same id twice leaves what one update with the second reply leaves; a later duplicate id is never reached |
| GalleryStore.GalleryStore.BeginLoad | src/api/gallery/store/galleryStore.ts:21-22 | loading is set and the error is cleared before fetching |
| GalleryStore.GalleryStore.SettleLoad | src/api/gallery/store/galleryStore.ts:26-37 | once `GalleryApi.getAll` settles, loading is off; success replaces the items, keeping the error cleared at the start; failure keeps the items and sets the fixed message |
| GalleryStore.GalleryStore.LoadGallery | src/api/gallery/store/galleryStore.ts:20-38 | success replaces the items wholesale; failure keeps them and sets the fixed message; loading is false either way |
| GalleryStore.GalleryStore.AddGallery | src/api/gallery/store/galleryStore.ts:40-46 | the created item is prepended only after the API call succeeds; a failure propagates and leaves the items unchanged |
| GalleryStore.GalleryStore.UpdateGallery | src/api/gallery/store/galleryStore.ts:48-62 | only the first matching item is replaced by the server result; with no match, or on failure, the items are unchanged |
| GalleryStore.GalleryStore.RemoveGallery | src/api/gallery/store/galleryStore.ts:64-72 | the id is filtered out only after the delete succeeds |
| ProductsHook.ErrorText | src/features/products/useProducts.ts:26 | the error is the exception's message, else the default text |
| ProductsHook.Products.constructor | src/features/products/useProducts.ts:15-17 | products start empty, loading true and error null |
| ProductsHook.Products.BeginReload | src/features/products/useProducts.ts:21-22 | loading is set and the error is cleared before fetching |
| ProductsHook.Products.SettleReload | src/features/products/useProducts.ts:23-29 | once `fetchProducts` settles, loading is off; success replaces the products; failure keeps them and sets the error text from the exception |
| ProductsHook.Products.Reload | src/features/products/useProducts.ts:19-30 | success replaces the products; failure keeps them and sets the error; loading ends false |
| ProductsHook.Products.Add | src/features/products/useProducts.ts:36-42 | the backend is called first and reload runs only on success; a failure propagates with the state untouched |
| ProductsHook.Products.Update | src/features/products/useProducts.ts:44-50 | same sequencing as add, for an update |
| ProductsHook.Products.Remove | src/features/products/useProducts.ts:52-58 | same sequencing as add, for a delete |
| Auth.Value | src/auth/AuthContext.tsx:119-126 | `isLoggedIn` holds exactly when there is a user, `isAdmin` exactly when the role is ADMIN, and an admin is logged in |
| Auth.UseAuth | src/auth/AuthContext.tsx:133-140 | without a provider `useAuth` fails with its fixed message; otherwise it returns the context unchanged |
| Auth.AuthProvider.Restore | src/auth/AuthContext.tsx:48-61 | initialized becomes true whether or not a stored user exists or the read fails; a stored user is restored |
| Auth.AuthProvider.Rendered | src/auth/AuthContext.tsx:113-126 | nothing is rendered before initialization, and afterwards the derived context value is |
| Auth.AuthProvider.Login | src/auth/AuthContext.tsx:66-80 | the login request is sent; success sets and persists the returned user; failure leaves the user unchanged and rethrows |
| Auth.AuthProvider.LoginAsGuest | src/auth/AuthContext.tsx:85-93 | same as login, for the guest request |
| Auth.AuthProvider.Logout | src/auth/AuthContext.tsx:98-110 | the backend is called only for a GUEST user; the user and the stored session are always cleared, even if that call fails |
| Auth.SessionSurvivesRestart | src/auth/AuthContext.tsx:48-110 | a logged-in session survives a restart, and after logout a restart restores no one |
| ApiErrors.NewApiError | src/api/client/ApiError.ts:1-18 | name is always 'ApiError'; message, status and url are copied; omitted data becomes null |
| HttpClient.Plain | src/api/client/HttpClient.ts:5-12 | options carrying only a method and a url leave body, headers, auth and timeout unset |
| HttpClient.BuildUrl | src/api/client/HttpClient.ts:23-26 | an `http…` url is returned unchanged; otherwise BASE_URL is prefixed with exactly one '/' |
| HttpClient.BuildUrlIdempotent | src/api/client/HttpClient.ts:23-26 | a built url starts with "http", so building it again changes nothing |
| HttpClient.BuildUrlSlashInsensitive | src/api/client/HttpClient.ts:25 | a relative path with or without a leading slash gives the same url |
| HttpClient.TryParseJson | src/api/client/HttpClient.ts:28-35 | empty or unparsable text gives null, and otherwise the parsed value |
| HttpClient.MessageField | src/api/client/HttpClient.ts:76 | `json?.message` is present exactly for an object whose `message` is a string |
| HttpClient.ErrorMessageAsWritten | src/api/client/HttpClient.ts:75-78 | as written, with no message field the error message is the raw text, even when that text is empty |
| HttpClient.EmptyBodyGivesEmptyMessage | src/api/client/HttpClient.ts:75-78 | a non-2xx reply with an empty body produces message "" rather than "HTTP 500" |
| HttpClient.ErrorMessage | src/api/client/HttpClient.ts:75-78 | the message is the parsed message, else a non-empty text, else "HTTP <status>"; it is never empty without a message field |
| HttpClient.AsWrittenDiffersOnlyOnEmptyBody | src/api/client/HttpClient.ts:75-78 | the message as written and the intended one agree exactly when the reply has a message field or a non-empty body |
| HttpClient.StatusFallbackDistinguishes | src/api/client/HttpClient.ts:78 | the status fallback message determines the status |
| HttpClient.ErrorData | src/api/client/HttpClient.ts:81 | the error data is the parsed JSON, else the raw text |
| HttpClient.HeadersForUnique | src/api/client/HttpClient.ts:47-58 | the header rules fix the header map uniquely |
| HttpClient.Client.SetAuthToken | src/api/client/HttpClient.ts:19-21 | the stored token becomes the argument |
| HttpClient.Client.BuildHeaders | src/api/client/HttpClient.ts:47-58 | `Accept: application/json` is the default and callers may override it; `Content-Type` is set exactly when a body is supplied; `Authorization: Bearer <token>` is set exactly when auth is not false and the token is non-empty |
| HttpClient.Client.Request | src/api/client/HttpClient.ts:37-89 | fetch gets the built url, the method, the timeout default 15000, the headers, and the body only when truthy; a network failure propagates; a 2xx returns the parsed JSON or null; otherwise an ApiError with the status, the url, the data and the message as written (the server's `message`, else the body text, even when empty) |
| HttpClient.FalsyBodyAnnouncedNotSent | src/api/client/HttpClient.ts:52-66 | a falsy body is announced with Content-Type but not sent |
| CartApi.GetCart | src/api/cart/CartApi.ts:29-38 | a GET of `/cart?userId=<id>` for a truthy user id, and of `/cart` for 0 or an absent id |
| CartApi.AddItem | src/api/cart/CartApi.ts:44-56 | a POST of `/cart/add` with body {productId, quantity}, quantity defaulting to 1 |
| CartApi.ChangeQuantity | src/api/cart/CartApi.ts:61-66 | a PATCH of `/cart/<id>/quantity?delta=<delta>` with no body |
| CartApi.RemoveItem | src/api/cart/CartApi.ts:71-76 | a DELETE of `/cart/<id>` with no body |
| CartApi.Clear | src/api/cart/CartApi.ts:81-90 | a DELETE of `/cart/clear`, with the same truthy-user rule as getCart |
| CartApi.UserRoundTrip | src/api/cart/CartApi.ts:29-85 | the user id can be read back from the getCart and clear urls, and neither url carries a query without a user |
| CartApi.FirstQuestionMark | src/api/cart/CartApi.ts:64 | finds the query separator of a url, if any |
| CartApi.FirstQuestionMarkAfter | src/api/cart/CartApi.ts:64 | a path without '?' followed by a query has its separator right after the path |
| CartApi.SplitAtQuestionMark | src/api/cart/CartApi.ts:64 | urls split at their first '?' are equal only if their heads and tails are |
| CartApi.QuantityHead | src/api/cart/CartApi.ts:64 | the path part of a change-quantity url has no '?' when the id has none |
| CartApi.ChangeQuantityInjective | src/api/cart/CartApi.ts:61-66 | for ids without '?', different (id, delta) pairs give different urls |
| Register.ValidatePassword | src/screens/RegisterScreen.tsx:44-52 | null exactly when the password has at least 8 characters, an ASCII letter and a digit; otherwise the first failing rule's message, in the order length, letter, digit |
| Register.Validate | src/screens/RegisterScreen.tsx:54-78 | fails in the order blank name, email without '@', password rule, confirmation mismatch, each step setting its own message (the password step the message of the rule broken); passes exactly when all four checks pass |
| Register.Payload | src/screens/RegisterScreen.tsx:87-91 | the name is trimmed, the email is trimmed and lower-cased, and the password is verbatim |
| Register.TrimmedIsFixed | src/screens/RegisterScreen.tsx:88-89 | a string that is already trimmed is unchanged by trim |
| Register.LowerOfTrimmed | src/screens/RegisterScreen.tsx:89 | lower-casing keeps a trimmed email trimmed and is idempotent |
| Register.PayloadNormalised | src/screens/RegisterScreen.tsx:87-91 | feeding a payload back through the form gives the same payload |
| Register.RegisterScreen.HandleSubmit | src/screens/RegisterScreen.tsx:84-126 | a failed validation shows its message and does nothing more; an accepted form ends with loading false and the failure alert, because `register` is absent from the auth context |
| Durations.FlooredSteps | src/screens/ProductDetailsScreen.tsx:40-43 | successive floored divisions equal one division by the minute, hour or day length |
| ProductDetails.FormatRelativeDate | src/screens/ProductDetailsScreen.tsx:35-52 | under 60 s, or in the future, gives 'przed chwilą'; then `<min> min temu`, `<h> godz. temu`, 'wczoraj' for exactly one day, `<d> dni temu` below 7 days, and the locale date from 7 days on |
| ProductDetails.CountedPhrasesInRange | src/screens/ProductDetailsScreen.tsx:45-49 | each counted phrase carries a count within its bucket: 1–59 minutes, 1–23 hours, 2–6 days |
| ProductDetails.CartProduct | src/screens/ProductDetailsScreen.tsx:99-107 | the product handed to the local cart copies the id, name, price and description |
| ProductDetails.ProductDetailsScreen.LoadComments | src/screens/ProductDetailsScreen.tsx:70-84 | success replaces the comments, failure keeps them, and loading ends false |
| ProductDetails.ProductDetailsScreen.SetCommentText | src/screens/ProductDetailsScreen.tsx:212-213 | typing sets the composer text and touches neither the comments nor the loading flag |
| ProductDetails.ProductDetailsScreen.HandleAddComment | src/screens/ProductDetailsScreen.tsx:134-153 | nothing happens with a blank text or no user; otherwise the trimmed text is posted, and on success the new comment goes on top and the input is cleared |
| ProductDetails.ProductDetailsScreen.HandleAddToCart | src/screens/ProductDetailsScreen.tsx:90-128 | the backend add of quantity 1 comes first, and the local cart grows by exactly that product only when it succeeds |
| GalleryScreen.LexLeTotal | src/screens/GalleryScreen.tsx:86-105 | any two strings are comparable |
| GalleryScreen.LexLeTransitive | src/screens/GalleryScreen.tsx:86-105 | string order is transitive |
| GalleryScreen.BeforeTotal | src/screens/GalleryScreen.tsx:79-106 | every sort option orders any two items |
| GalleryScreen.BeforeTransitive | src/screens/GalleryScreen.tsx:79-106 | every sort option's order is transitive |
| GalleryScreen.Insert | src/screens/GalleryScreen.tsx:77-106 | inserting into a sorted list keeps it sorted and adds exactly that item |
| GalleryScreen.InsertStable | src/screens/GalleryScreen.tsx:77-106 | an inserted item goes behind every item it ties with, and tied items keep their order |
| GalleryScreen.SortedItemsStable | src/screens/GalleryScreen.tsx:77-106 | the sort is stable: items the comparator ties appear in their input order |
| GalleryScreen.EqualPricesKeepOrder | src/screens/GalleryScreen.tsx:80-84 | two items of equal price stay in input order under either price option |
| GalleryScreen.SortedItems | src/screens/GalleryScreen.tsx:76-107 | the sorted list is a permutation of the store items, sorted by the option; the store list itself is not reordered |
| GalleryScreen.PriceOrders | src/screens/GalleryScreen.tsx:80-84 | PRICE_ASC gives non-decreasing prices and PRICE_DESC non-increasing ones |
| GalleryScreen.GalleryScreenState.constructor | src/screens/GalleryScreen.tsx:48-50 | the option starts at TITLE_ASC with the menu closed |
| GalleryScreen.GalleryScreenState.OnRouteParams | src/screens/GalleryScreen.tsx:66-70 | an `openSortMenu` param opens the menu, and nothing closes it here |
| GalleryScreen.GalleryScreenState.SelectSort | src/screens/GalleryScreen.tsx:126-129 | the option is set and the menu closed |
| GalleryScreen.GalleryScreenState.CloseMenu | src/screens/GalleryScreen.tsx:139-142 | a tap on the overlay closes the menu and keeps the sort option |
| GalleryScreen.GalleryScreenState.Shown | src/screens/GalleryScreen.tsx:76-107 | the list shown is the items sorted by the current option |
| GalleryDetails.FindItem | src/screens/GalleryDetailsScreen.tsx:68-96 | the item with the route's id, or None (the not-found view) exactly when no item has it |
| GalleryDetails.SplitAverage | src/screens/GalleryDetailsScreen.tsx:178-180 | full is the floor, the half star shows exactly when the fraction is at least 0.5, and empty fills the rest |
| GalleryDetails.SplitIsFiveStars | src/screens/GalleryDetailsScreen.tsx:178-180 | for an average from 0 to 5 the three counts are non-negative and sum to 5, in agreement with the animated fills |
| GalleryDetails.MyStars | src/screens/GalleryDetailsScreen.tsx:182 | the personal count is the preview, else my rating, else 0 |
| GalleryDetails.HighlightedPrefix | src/screens/GalleryDetailsScreen.tsx:212 | the highlighted stars are exactly the first `myStars` of the five |
| GalleryDetails.CommitNeedsEnabledButtons | src/screens/GalleryDetailsScreen.tsx:116-207 | a rating can be committed only when the buttons are enabled |
| GalleryDetails.AnimatedStars | src/screens/GalleryDetailsScreen.tsx:127-129 | the loop animates stars 0 to value−1, in order |
| GalleryDetails.CartProduct | src/screens/GalleryDetailsScreen.tsx:155-162 | the gallery item is mapped to a cart product named after its title, described as "Arcydzieło: <title>" |
| GalleryDetails.GalleryDetailsScreen.LoadRatings | src/screens/GalleryDetailsScreen.tsx:75-84 | success sets the average, the votes and my rating; failure keeps them |
| GalleryDetails.GalleryDetailsScreen.PressIn | src/screens/GalleryDetailsScreen.tsx:204 | pressing star i previews i+1 stars |
| GalleryDetails.GalleryDetailsScreen.PressOut | src/screens/GalleryDetailsScreen.tsx:205 | releasing clears the preview |
| GalleryDetails.GalleryDetailsScreen.CommitRating | src/screens/GalleryDetailsScreen.tsx:75-136 | there is no request when logged out, already rated or userless; otherwise the rating is posted; on success the reloaded average, votes and rating are taken and stars 0 to value-1 animate; when the post or that reload fails, nothing animates and the retry's average, votes and rating are taken, or, if the retry fails too, average and votes stay as they were |
| GalleryDetails.GalleryDetailsScreen.HandleAddToCart | src/screens/GalleryDetailsScreen.tsx:142-172 | logged out, nothing happens; otherwise the backend add comes first and the local cart grows only after it succeeds |
| AverageStars.TargetFill | src/components/AnimatedAverageStars.tsx:29-34 | star i's fill is 1 when i < floor(value), 0.5 when i = floor(value) and the fraction is at least 0.5, and 0 otherwise |
| AverageStars.TargetFills | src/components/AnimatedAverageStars.tsx:13-34 | the loop produces exactly five fills, each the star's target fill |
| AverageStars.FillsShape | src/components/AnimatedAverageStars.tsx:28-34 | fills never increase along the row, and at most one star is half filled |
| AverageStars.SumOfFive | src/components/AnimatedAverageStars.tsx:23-34 | helper for `FillsSum`: the sum of the five fills is their explicit sum |
| AverageStars.FillsSum | src/components/AnimatedAverageStars.tsx:23-34 | for a value from 0 to 5 the fills sum to floor(value), plus 0.5 when the half applies |
| Profile.AdminTypesExactly | src/screens/ProfileScreen.tsx:63-71 | the admin types are exactly the six ADD/EDIT/REMOVE × PRODUCT/GALLERY types |
| Profile.LabelKnown | src/screens/ProfileScreen.tsx:73-86 | the nine activity types get their labels and anything else gets '—' |
| Profile.LabelStart | src/screens/ProfileScreen.tsx:73-86 | each activity type's label opens with that type's own emoji pair |
| Profile.LabelsDistinct | src/screens/ProfileScreen.tsx:73-86 | different activity types get different labels, none of them '—' |
| Profile.TimeAgo | src/screens/ProfileScreen.tsx:88-95 | 'przed chwilą' under one whole minute, `<min> min temu` under 60, else `<floor(min/60)> h temu` |
| Profile.MetaFor | src/screens/ProfileScreen.tsx:37-57 | no role gives the fallback meta, and a role gives its own entry |
| Profile.Visible | src/screens/ProfileScreen.tsx:136-138 | admins see exactly the admin-type activities and others exactly the rest |
| Profile.VisibleKeepsOrder | src/screens/ProfileScreen.tsx:136-138 | the view of a concatenated feed is the concatenation of the views, and a one-entry feed shows that entry exactly when its type belongs to the view, so the view keeps feed order |
| Profile.VisiblePartition | src/screens/ProfileScreen.tsx:136-138 | the two views partition the feed |
| Profile.WithoutRoleShowsUserView | src/screens/ProfileScreen.tsx:102-138 | with the role absent from the context, the badge helper gives the fallback meta and the list helper the non-admin entries |
| Profile.Avatar | src/screens/ProfileScreen.tsx:146 | the first character of a non-empty name, else the fallback the screen gives ('👤' here) |
| Profile.Title | src/screens/ProfileScreen.tsx:151 | the name, else 'Administrator' for admins and 'Gość' for others |
| AdminProfile.AdminLabel | src/screens/AdminProfileScreen.tsx:25-33 | admin types get the profile's labels and every other type gets '—' |
| AdminProfile.UserTypesUnlabelled | src/screens/AdminProfileScreen.tsx:25-33 | COMMENT, RATING and PURCHASE show '—' |
| AdminProfile.Shown | src/screens/AdminProfileScreen.tsx:51-86 | the list shown is the first 5 admin-type activities, in feed order |
| AdminProfile.ShownIsPrefixOfAdminView | src/screens/AdminProfileScreen.tsx:51-86 | the admin screen shows a prefix of the profile screen's admin view |
| AdminProfile.Avatar | src/screens/AdminProfileScreen.tsx:62 | the admin screen's avatar is the profile screen's rule with the fallback 'A' |
| AdminProfile.Title | src/screens/AdminProfileScreen.tsx:67 | the name, else 'Administrator' |
| BarChart.Normalised | src/components/BarChart.tsx:24-40 | a series becomes exactly 7 entries: entry i is series[i] when present, else 0, and entries after the 7th are ignored |
| BarChart.MaxOf | src/components/BarChart.tsx:42-46 | the maximum is at least the floor and every entry, and is one of them |
| BarChart.MaxValue | src/components/BarChart.tsx:42-46 | the scale is at least 1 |
| BarChart.MaxValueIsMax | src/components/BarChart.tsx:42-46 | the scale bounds every normalised entry of both series |
| BarChart.BarHeightBounds | src/components/BarChart.tsx:86-97 | every bar is at least 16 tall, and a value from 0 to the scale gives at most 160 |
| BarChart.Heights | src/components/BarChart.tsx:86-97 | one height per day, each the bar height of that day's normalised value |
| BarChart.SeriesBounds | src/components/BarChart.tsx:86-97 | against a scale no smaller than any of its non-negative entries, every bar of a series is between 16 and 160 |
| BarChart.ChartBounds | src/components/BarChart.tsx:86-97 | for non-negative series every bar of both series is between 16 and 160 |

## Left out

- Rendering, styles, animations (`Animated`, `scaleAnim`, `scales`), gestures, toasts, alerts and navigation. These are UI composition. The handlers model the state they change and the requests they make.
- `fetch`, `AbortController` and the timeout firing, `AsyncStorage`, the axios instance, and `JSON.parse`/`JSON.stringify`. These are I/O; their results are parameters.
- Interleaving of concurrent async handlers, such as the several removes of one `removeSelected`, React's batching of state updates, and listener re-entrancy during a notification. Every handler runs to completion in the model.
- `getAverageRatingTotal`: a floating-point weighted average rounded with `Math.round`.
- `toFixed`, `toLocaleDateString`, and LineChart geometry. These are floating-point formatting and layout.
- The admin form and list screens, the splash and login screens, and the thin API wrappers (GalleryApi, ProductsApi, productsBackend, AuthApi, CheckoutApi, StatsApi, both comments APIs, both ratings APIs, the `commands/` and `queries/` files). They are pass-through calls with no logic of their own.
- Names the screens use that the code does not define: `galleryStore` (the local gallery file the two gallery screens import from exports no such name), `getTotalSpent` and `getCommentsCountTotal`, and `role` and `register` from `useAuth`. As shipped, three screens throw instead of rendering:
  - the gallery screen at `[...galleryStore.items]` (GalleryScreen.tsx:77) and `galleryStore.load()` (GalleryScreen.tsx:58);
  - the gallery item screen at `galleryStore.items.find` (GalleryDetailsScreen.tsx:69);
  - the profile screen, whose `useSyncExternalStore` receives the undefined `getTotalSpent` as its snapshot getter (ProfileScreen.tsx:111-114).
  `GalleryScreen.SortedItems`, `GalleryScreen.GalleryScreenState.Shown`, `GalleryDetails.FindItem`, `Profile.Visible` and `Profile.MetaFor` model those screens' helpers over the values they are given; they do not claim that the screens render. Registration ends in the failure alert, because `register` is undefined and the call throws inside the handler's `try`.
- Profile.WithoutRoleShowsUserView: states what the badge and list helpers give when the role is missing, as it always is. The profile screen as shipped throws at ProfileScreen.tsx:111-114 before it computes `visibleActivities`, so it shows neither.
- The stale `useMemo` of the gallery screen, which recomputes only when the option changes. `Shown` sorts the items it is given.
- Reference identity: a snapshot `getCartSnapshot()` returns is the same array object until the next mutation. The model compares values.
- GalleryScreen.SortedItems: `localeCompare` is modelled as code-point order, not locale collation. Items with equal keys keep their input order, as with the engine's stable sort (`SortedItemsStable`).
- Text.ToLower: only ASCII letters are lower-cased, while JavaScript's `toLowerCase` also folds non-ASCII letters, so `Register.Payload` is exact only for ASCII emails.
- Text.Trim: JavaScript's whitespace set is modelled, but strings are sequences of code points, not UTF-16 units. So `Register.ValidatePassword` counts 8 code points where JavaScript counts 8 UTF-16 units. Likewise `Profile.Avatar` and `AdminProfile.Avatar` show the whole first code point of a name, where `name?.[0]` in JavaScript gives a lone surrogate for a name that starts outside the Basic Multilingual Plane.
- HttpClient.MessageField: only a string `message` is taken. A number or object under `message` would be stringified by JavaScript and is treated here as absent.
- ProductDetails.FormatRelativeDate: takes the creation time as milliseconds. An unparsable `createdAt` makes `new Date(...)` invalid: every comparison at ProductDetailsScreen.tsx:45-49 is then false and the source shows "Invalid Date". That path is not modelled.
- CommentsStore.Comments.AddComment: `Date.now()` is read twice, once for the id and once for `createdAt` (commentsStore.ts:85, 88). The model takes one `now` for both, so it does not capture the two readings differing by a tick.
- CommentsStore.Comments.StockComments: the stock cache is an object literal, so a product id that names an inherited property (`"constructor"`, `"toString"`) reads a prototype member instead of missing the cache. The model's cache is a map, and such an id misses.
- Profile.LabelKnown: lookups of prototype keys on the object literal (`"toString"` and the like) are not modelled. Such a key yields '—' here.
- CartApi.GetCart: user ids and deltas are integers. JavaScript would print a fractional number with its decimals.
- Auth.AuthProvider.Login: a failing `AsyncStorage.setItem` after `setUser` is not modelled. In the source the user is then set and the call rethrows; the model always stores the user.
- Auth.AuthProvider.LoginAsGuest: the same `AsyncStorage.setItem` failure after `setUser` is not modelled.
- Auth.AuthProvider.Logout: a failing `AsyncStorage.removeItem` is not modelled. In the source the user is already cleared and the call rejects with the stored user left in place; the model always clears the storage.
- The module-level compatibility wrappers at the end of the MobX gallery store file (`getGallery`, `addGallery`, `updateGallery`) only delegate to the modelled methods.
- The comments API's request type names `clientId` and `authorName`, while the product screen posts `{ userId, text }`. The model records what the screen sends (`ProductDetails.CommentRequest`); how the backend reads it is outside the model.

## Findings

| source | as written | input that shows it | evidently intended | confidence | as-written member | corrected member |
|---|---|---|---|---|---|---|
| src/screens/CartScreen.tsx:98-211 | the trash, swipe, minus and remove-selected handlers pass `item.cartItemId`, which lines of the local cart do not have, so the store receives `undefined` and nothing is removed or decreased | a cart with one line of id "1": pressing trash leaves the line in place | pass the line's `id`, the key the local store uses | not executed | CartScreen.CartScreenState.PressTrashAsWritten, CartScreen.CartScreenState.PressMinusAsWritten, CartScreen.CartScreenState.RemoveSelectedAsWritten, CartScreen.UndefinedIdChangesNothing | CartScreen.CartScreenState.PressTrash, CartScreen.CartScreenState.PressMinus, CartScreen.CartScreenState.RemoveSelected |
| src/api/client/HttpClient.ts:76-78 | `json?.message ?? text ?? 'HTTP n'`: `response.text()` is never null or undefined, so the status fallback can never be reached | a 500 reply with an empty body gives an ApiError whose message is "" | fall back to `HTTP <status>` when the body is empty | not executed | HttpClient.ErrorMessageAsWritten, HttpClient.EmptyBodyGivesEmptyMessage, HttpClient.Client.Request | HttpClient.ErrorMessage, HttpClient.StatusFallbackDistinguishes, HttpClient.AsWrittenDiffersOnlyOnEmptyBody |
