# BoroBoro marketplace — a Dafny model of its domain layer

BoroBoro is a second-hand marketplace for students. Users sign up with a Binusian e-mail address, list products, buy them through a cart, and negotiate prices through bargain requests. The app keeps everything in the browser's local storage: users, the catalogue, a cart, orders and notifications for each user, bargains, view histories and the theme.

This project models the part of the app that decides things: the event handlers and derived views of the pages, over one in-memory store.

- `Data` holds:
  - the records;
  - the seed catalogue;
  - the two sign-up validators;
  - the `dataStore` object, as class `DataStore`. Each storage key is one field. Each per-user key is a map from user id to list.
- `Auth`: sign-up, log-in and log-out.
- `Cart`: the cart/catalogue join, quantity change with a floor of one, removal, the total, and checkout.
- `Bargains`: the received and sent lists, and the seller's accept/reject.
- `Recommendations`: scoring and ranking, and the view history.
- `Explore`: the filter pipeline and the search-mode handlers.
- `Sell`: listing creation.
- `Orders`: the order history join and the newest-first sort.
- `Dashboard`: the seller statistics.
- `Navbar`: the badges, the theme toggle and the paths where the bar is hidden.
- `Seqs` and `Text` stand in for the JavaScript array and string methods the pages use: `filter`, `find`, a stable `sort`, `slice`, `endsWith`, `includes`, `toLowerCase`, a string's `length`, `parseInt` and `encodeURIComponent`.

A page's React state becomes a class whose methods are the page's handlers and load effects. The signed-in user from the authentication context is the page's `user` field. Clock-derived ids and timestamps are parameters.

## Model

| member | source | states |
|---|---|---|
| Data.InitialProductsShape | lib/data.ts:85-164 | the seed catalogue has six products with distinct ids "1".."6"; none is sold out, each has a positive price and one of the six categories |
| Data.Catalogue | lib/data.ts:173-181 | `getProducts` yields the stored list when it is non-empty, else the seed; it is never empty |
| Data.GetProductsStable | lib/data.ts:173-181 | reading the catalogue again after `getProducts` gives the same list, and the seed is written at most once |
| Data.DataStore.GetProducts | lib/data.ts:173-181 | returns the catalogue; an empty stored list is replaced by the seed in storage, an absent key is left absent |
| Data.DataStore.SetProducts | lib/data.ts:182 | the products key holds exactly the given list |
| Data.DataStore.SetUsers | lib/data.ts:170 | the users key holds exactly the given list |
| Data.DataStore.SetCart | lib/data.ts:186 | only the given user's cart key changes |
| Data.DataStore.SetOrders | lib/data.ts:190 | only the given user's orders key changes |
| Data.DataStore.SetNotifications | lib/data.ts:194-195 | only the given user's notifications key changes |
| Data.DataStore.SetCurrentUser | lib/data.ts:199 | the current-user key holds the given user or null |
| Data.DataStore.SetBargainRequests | lib/data.ts:203 | the bargains key holds exactly the given list |
| Data.DataStore.SetViewHistory | components/products/recommendations.tsx:86 | only the given user's view-history key changes |
| Data.DataStore.SetSavedTheme | components/layout/navbar.tsx:50 | the theme key holds the given theme |
| Data.DataStore.constructor | lib/data.ts:65-72 | empty storage: every key reads as its default, so lists are empty, there is no current user, and the products key is absent |
| Data.ProductIndex | app/bargains/page.tsx:56 | the first product with the id, or none |
| Data.FindProduct | app/orders/page.tsx:37 | `find` yields a catalogue product with the id, and nothing exactly when no product has it |
| Data.ValidateBinusianEmailIff | lib/data.ts:207-209 | an address passes exactly when it is some string followed by "@binus.ac.id" or "@binus.edu" |
| Data.ValidatePasswordIff | lib/data.ts:211-213 | `length` counts UTF-16 code units: a password passes exactly when its characters, with each astral character counted twice, number at least five. Five characters always pass, two never do, and lengthening a valid password keeps it valid |
| Data.ValidatePasswordExamples | lib/data.ts:211-213 | three emoji (six code units) pass; four ASCII letters do not |
| Text.Utf16Length | lib/data.ts:212 | a string's `length` lies between its character count and twice that |
| Text.Utf16LengthCountsAstralTwice | lib/data.ts:212 | `length` is the character count plus one for each character outside the Basic Multilingual Plane |
| Text.Utf16LengthAppend | lib/auth-context.tsx:55 | the `length` of a concatenation is the sum of the lengths |
| Auth.CredentialIndex | lib/auth-context.tsx:30 | finds the first user with both the e-mail and the password, or reports that none has them |
| Auth.LoginFindsIff | lib/auth-context.tsx:30-35 | log-in finds a user if and only if some stored user has exactly that e-mail and password |
| Auth.SignupError | lib/auth-context.tsx:44-57 | the checks run in order (duplicate e-mail, then domain, then password length in UTF-16 code units); each error holds exactly when its check is the first to fail, stated through `validateBinusianEmail`/`validatePassword`, so the inline checks agree with them |
| Auth.SignupKeepsEmailsDistinct | lib/auth-context.tsx:45-69 | a successful sign-up keeps stored e-mail addresses pairwise distinct |
| Auth.AuthProvider.constructor | lib/auth-context.tsx:21-26 | mounting loads the stored current user |
| Auth.AuthProvider.Login | lib/auth-context.tsx:28-39 | success sets the first matching user as the current user, in state and in storage; failure returns "Invalid email or password" and changes nothing |
| Auth.AuthProvider.Signup | lib/auth-context.tsx:41-75 | the checks are those of `SignupError`, with the password length in UTF-16 code units. A failed check returns its message and changes nothing; success appends exactly one user with role "both", leaves the existing users as they were and signs the new user in |
| Auth.AuthProvider.Logout | lib/auth-context.tsx:77-80 | the current user becomes null in state and in storage |
| Cart.JoinCart | app/cart/page.tsx:39-45 | the joined lines are the stored items whose product exists, in order, each carrying the first product with its id |
| Cart.ItemIndex | app/cart/page.tsx:54 | the first cart entry for the product, or none |
| Cart.WithQuantityChanged | app/cart/page.tsx:53-58 | the first entry for the product gets max(1, quantity + change); every other entry is unchanged; an unknown product leaves the cart unchanged |
| Cart.UpdateQuantityKeepsPositive | app/cart/page.tsx:57 | a cart whose quantities are all at least one stays so after any change |
| Cart.Without | app/cart/page.tsx:68 | removal drops every entry of the product and keeps the others in their original order |
| Cart.RemoveItemCount | app/cart/page.tsx:68 | the kept entries and the entries of the removed product add up to the whole cart |
| Cart.Total | app/cart/page.tsx:138-140 | the `reduce` total is 0 for no lines and never negative when no price or quantity is |
| Cart.TotalAppend | app/cart/page.tsx:138-140 | the total of a concatenation is the sum of the totals (the `reduce` starts at 0) |
| Cart.OrderLinesTotal | app/cart/page.tsx:87-93 | the frozen order lines add up to the cart total |
| Cart.CheckoutOrder | app/cart/page.tsx:84-96 | the order mirrors the cart one line per line, with prices frozen from the product; it is completed, and its total equals both `calculateTotal` and the sum of its lines |
| Cart.OrderNotification | app/cart/page.tsx:117-124 | an unread order notification for the user whose message opens with "Order completed! " followed by a number that reads back as the item count |
| Cart.SoldOutMarked | app/cart/page.tsx:104-110 | after checkout, products that were not purchased are unchanged, and purchased ones change only in their sold-out flag |
| Cart.PurchasedProductsSoldOut | app/cart/page.tsx:104-110 | every purchased product still in the catalogue is sold out afterwards |
| Cart.SoldOutMarkedDistinct | app/cart/page.tsx:104-110 | with distinct ids, a product is sold out afterwards exactly when it was purchased or already sold out |
| Cart.MarkSoldOut | app/cart/page.tsx:104-110 | the `forEach`/`find` loop computes exactly `SoldOutMarked` |
| Cart.CartPage.LoadCart | app/cart/page.tsx:32-48 | no user: nothing changes; otherwise the lines are the join of the user's cart with the catalogue |
| Cart.CartPage.UpdateQuantity | app/cart/page.tsx:50-63 | no user or no entry: nothing changes; otherwise the stored cart changes only at the first entry, and every displayed line of the product shows the new quantity |
| Cart.CartPage.RemoveItem | app/cart/page.tsx:65-76 | no user: nothing changes; otherwise the product's entries are gone from the stored cart and from the displayed lines |
| Cart.CartPage.CalculateTotal | app/cart/page.tsx:138-140 | 0 for an empty cart, and the sum of the frozen order lines built from the cart |
| Cart.CartPage.constructor | app/cart/page.tsx:23 | the page starts with no lines |
| Cart.CartPage.Checkout | app/cart/page.tsx:78-136 | no user or an empty cart: nothing changes; otherwise exactly one order is appended, its total equal to `calculateTotal`, purchased products are sold out, the cart is emptied and one "Order completed! n item(s) purchased." notification is appended |
| Bargains.BargainIndex | app/bargains/page.tsx:47 | the first request with the id, or none |
| Bargains.WithResponse | app/bargains/page.tsx:46-51 | an unknown id changes nothing; otherwise that request's status becomes accepted or rejected, its other fields are kept and all other requests are untouched |
| Bargains.ResponseIsTransition | app/bargains/page.tsx:180 | answering a pending request only ever moves a request from pending to accepted or rejected |
| Bargains.Repriced | app/bargains/page.tsx:55-59 | the first product with the id takes the offered price and keeps its other fields; all other products are untouched; an unknown id changes nothing |
| Bargains.AcceptWithoutProduct | app/bargains/page.tsx:56-57 | accepting an offer whose product is gone leaves the catalogue unchanged |
| Bargains.NewestFirst | app/bargains/page.tsx:36-40 | the newest-first sort is a permutation ordered by non-increasing creation time |
| Bargains.Received | app/bargains/page.tsx:35-36 | the received tab is a permutation of the requests addressed to the user as seller (each one as often as stored), newest first |
| Bargains.Sent | app/bargains/page.tsx:39-40 | the sent tab is a permutation of the requests the user made as buyer (each one as often as stored), newest first |
| Bargains.PendingCount | app/bargains/page.tsx:115 | the tab count is at most the number of requests, and zero exactly when none of them is pending |
| Bargains.BargainsPage.constructor | app/bargains/page.tsx:20-21 | both tabs start empty |
| Bargains.BargainsPage.Load | app/bargains/page.tsx:29-41 | no user: nothing changes; otherwise both tabs are loaded from storage |
| Bargains.BargainsPage.HandleResponse | app/bargains/page.tsx:43-76 | no user or an unknown id: nothing changes; otherwise the status is stored; on accept the product is repriced when it exists; on reject the catalogue is untouched; the received tab shows the new status |
| Recommendations.Available | components/products/recommendations.tsx:17 | the candidates are exactly the catalogue's products that are neither sold out nor the product being viewed |
| Recommendations.AvailableMultiplicity | components/products/recommendations.tsx:17 | each available product is a candidate exactly as often as the catalogue lists it, and no other product is |
| Recommendations.HistoryFor | components/products/recommendations.tsx:20 | without a (non-empty) user id the history is empty |
| Recommendations.ViewedCategories | components/products/recommendations.tsx:27 | a category is listed exactly when it is non-empty and belongs to a viewed product still in the catalogue |
| Recommendations.Score | components/products/recommendations.tsx:24-36 | the score is the base score (popularity plus the random draw), plus 3 when the category was viewed |
| Recommendations.Popularity | components/products/recommendations.tsx:33 | at most 10 for a numeric id, non-negative for ids up to 100, and 0 for an id with no leading digit |
| Recommendations.ScoredCandidates | components/products/recommendations.tsx:23-39 | one scored entry per candidate, in order, the i-th taking the i-th random draw |
| Recommendations.GetRecommendations | components/products/recommendations.tsx:15-46 | at most four products |
| Recommendations.PanelRecommendations | components/products/recommendations.tsx:13-48 | the panel shows at most four available catalogue products, ranked over the user's stored view history, or over no history without a (non-empty) user id |
| Recommendations.RankedIsPermutation | components/products/recommendations.tsx:42-43 | ranking reorders the scored candidates by non-increasing score, neither losing nor inventing any |
| Recommendations.RecommendationsAvailable | components/products/recommendations.tsx:15-46 | every recommendation comes from the catalogue, is not sold out and is not the product being viewed |
| Recommendations.RecommendationCount | components/products/recommendations.tsx:17-44 | exactly min(4, number of candidates) products are shown |
| Recommendations.RecommendationsBestFirst | components/products/recommendations.tsx:42-45 | the shown products are in non-increasing score order, and no candidate left out scores above any shown one |
| Recommendations.CategoryAffinityBonus | components/products/recommendations.tsx:27-30 | a product sharing a category with a viewed product scores exactly 3 above its base score; any other product scores its base score |
| Recommendations.LowerIdMorePopular | components/products/recommendations.tsx:33 | among numeric ids, the lower id has the larger popularity term |
| Recommendations.AddToHistory | components/products/recommendations.tsx:84-85 | the product is at the front and occurs nowhere else. The rest is the longest prefix of the other ids, in their old order, that fits in 20 entries, so the most recent ones survive |
| Recommendations.AddToHistoryAtCap | components/products/recommendations.tsx:84-85 | viewing a new product with at least 19 entries keeps the 19 most recent and drops the rest |
| Recommendations.AddToHistoryKeepsOrder | components/products/recommendations.tsx:85 | the other ids keep their relative order |
| Recommendations.AddToHistoryUnderCap | components/products/recommendations.tsx:85 | below the cap, no id is lost |
| Recommendations.ReAddDoesNotGrow | components/products/recommendations.tsx:85 | re-adding an id already present never lengthens the history |
| Recommendations.AddToHistoryIdempotent | components/products/recommendations.tsx:85 | viewing the same product twice in a row is the same as viewing it once |
| Recommendations.AddToHistoryDistinct | components/products/recommendations.tsx:85 | a history without duplicates stays without duplicates |
| Recommendations.AddToViewHistory | components/products/recommendations.tsx:80-90 | only the user's history key changes, and it holds the updated history |
| Explore.FilterProductsMultiplicity | app/explore/page.tsx:39-71 | each shown product appears exactly as often as the catalogue lists it, and no other product appears |
| Explore.FilterProducts | app/explore/page.tsx:39-71 | the result is a subsequence of the catalogue. A product is kept exactly when it is in the selected category ("all" selects all) and, in keyword mode, some keyword occurs in its name, description or category ignoring case, or otherwise the query (if non-empty) occurs there |
| Explore.KeywordModeIgnoresQuery | app/explore/page.tsx:49-68 | with image keywords present the text query has no effect |
| Explore.NoFilterShowsAll | app/explore/page.tsx:41-68 | with category "all", no keywords and an empty query, the whole catalogue is shown |
| Explore.SearchIgnoresCase | app/explore/page.tsx:53-66 | matching ignores the case of the search term |
| Explore.MentionsIffOccurs | app/explore/page.tsx:53-66 | `includes` holds exactly when the lower-cased term occurs at some position of a lower-cased name, description or category |
| Text.ToLower | app/explore/page.tsx:53-66 | lower-casing keeps the length, leaves no upper-case ASCII letter, and changes only upper-case letters, each into its lower-case form |
| Text.EncodeUriComponent | app/sell/page.tsx:76 | the encoding is at least as long as the name, uses only unreserved characters and `%`, and leaves a name of unreserved characters unchanged |
| Explore.ExplorePage.constructor | app/explore/page.tsx:19-24 | the page starts with an empty query, category "all", and image search off with no keywords |
| Explore.ExplorePage.ApplyFilters | app/explore/page.tsx:39-71 | the chain of `filter` reassignments leaves on screen exactly `FilterProducts` of the current state |
| Explore.ExplorePage.LoadProducts | app/explore/page.tsx:32-37 | the catalogue is loaded and the shown list is its filtered view |
| Explore.ExplorePage.HandleImageSearch | app/explore/page.tsx:73-78 | stores the keywords, turns image search on, clears the query and resets the category to "all" |
| Explore.ExplorePage.HandleTextSearch | app/explore/page.tsx:80-86 | a non-empty value turns image search off and clears the keywords; an empty value leaves the image state as it was |
| Explore.ExplorePage.HandleCategoryChange | app/explore/page.tsx:88-92 | sets the category and turns image search off with the keywords cleared |
| Sell.ListingId | app/sell/page.tsx:70 | a listing id is "product_" followed by text that parses back to the timestamp |
| Sell.ListingIdInjective | app/sell/page.tsx:70 | listings created at different times get different ids |
| Sell.ListingIdNotNumeric | app/sell/page.tsx:70 | a listing id has no leading digit, so `parseInt` gives NaN for it |
| Sell.PlaceholderImageUrl | app/sell/page.tsx:76 | the placeholder is the fixed prefix followed by the URI-encoded name, whose characters are all unreserved or `%` |
| Sell.PlaceholderOfPlainName | app/sell/page.tsx:76 | a name made only of unreserved characters appears in the URL unchanged |
| Sell.NewListing | app/sell/page.tsx:69-81 | the listing is not sold out, takes the seller from the current user and its fields from the form, and uses the placeholder image derived from the name when no image URL is given |
| Sell.HandleSubmit | app/sell/page.tsx:51-95 | no user: nothing happens; an empty required field stores nothing; otherwise exactly one listing is appended after the unchanged existing products |
| Sell.ListingAppends | app/sell/page.tsx:84-86 | after a listing the catalogue is the old one plus one unsold product at the end |
| Orders.Details | app/orders/page.tsx:36-40 | one detail per order line, with the line's quantity and price and the product of that id if it still exists |
| Orders.WithDetails | app/orders/page.tsx:34-41 | every order keeps its fields and gains its details |
| Orders.ProductLabel | app/orders/page.tsx:108 | the product's name, or "Unknown Product" when the product is gone or has no name |
| Orders.SubtotalsMatchLines | app/orders/page.tsx:111 | the displayed subtotals use the frozen prices and sum to the order's line total, whatever the catalogue now holds |
| Orders.CheckoutOrderSubtotals | app/orders/page.tsx:101-111 | for an order placed by checkout, the displayed subtotals sum to the displayed total |
| Orders.SortNewestFirst | app/orders/page.tsx:44 | the in-place sort leaves a permutation of the array, ordered by non-increasing creation time |
| Orders.InsertNext | app/orders/page.tsx:44 | one insertion step extends the newest-first prefix by one entry and keeps the array's contents |
| Orders.Swap | app/orders/page.tsx:44 | exchanging two neighbours keeps the array's contents |
| Orders.OrdersPage.constructor | app/orders/page.tsx:19 | the page starts with no orders |
| Orders.OrdersPage.Load | app/orders/page.tsx:27-47 | no user: nothing changes; otherwise the page holds exactly the user's own orders with their details, newest first |
| Dashboard.MyListings | app/dashboard/page.tsx:37 | the listings are exactly the user's products, in catalogue order, each as often as the catalogue lists it |
| Dashboard.StatsAddUp | app/dashboard/page.tsx:41-45 | sold plus active listings equals total listings |
| Dashboard.DashboardFor | app/dashboard/page.tsx:35-49 | total listings counts the user's listings. Sold counts those that are sold out, active those that are not, and together they make up the total. Purchases counts the user's orders |
| Dashboard.DashboardCounts | app/dashboard/page.tsx:43-44 | the sold counter is the number of catalogue products the user sells that are sold out; the active counter is the number that are not |
| Dashboard.DashboardCountZeroIff | app/dashboard/page.tsx:43-44 | the sold counter is zero exactly when none of the user's listings is sold out, and the active counter exactly when all are |
| Dashboard.LoadDashboard | app/dashboard/page.tsx:32-50 | no user: nothing is shown; otherwise the dashboard for the user |
| Navbar.CartCountAppend | components/layout/navbar.tsx:32 | the cart badge of a concatenation is the sum of the badges |
| Navbar.CartCount | components/layout/navbar.tsx:32 | the badge is 0 for an empty cart and at least the number of entries when every quantity is at least one |
| Navbar.CartCountUpdate | components/layout/navbar.tsx:32 | replacing one entry moves the badge by the difference of the two quantities |
| Navbar.UpdateQuantityBadge | components/layout/navbar.tsx:32 | after a quantity change on the cart page the badge moves by exactly the change in that entry's quantity |
| Navbar.PendingBargainCount | components/layout/navbar.tsx:34-36 | the badge is zero exactly when no request addressed to the user is pending |
| Navbar.ReceivedTabMatchesBadge | components/layout/navbar.tsx:35-36 | the bargain badge equals the pending count on the bargains page's received tab |
| Navbar.RespondingDecrementsBadge | components/layout/navbar.tsx:35-36 | answering a pending request addressed to the user lowers the badge by exactly one |
| Navbar.Toggled | components/layout/navbar.tsx:48 | toggling always changes the theme |
| Navbar.ToggleTwice | components/layout/navbar.tsx:48 | toggling twice restores the theme |
| Navbar.HiddenOnlyOnEntryPages | components/layout/navbar.tsx:60 | the bar is hidden exactly on "/signin", "/signup" and "/" |
| Navbar.NavigationBar.constructor | components/layout/navbar.tsx:24-26 | both badges start at 0 and the theme at light |
| Navbar.NavigationBar.Refresh | components/layout/navbar.tsx:28-45 | with a user both badges are recomputed from storage, and without one they keep their values; a saved theme is adopted |
| Navbar.NavigationBar.ToggleTheme | components/layout/navbar.tsx:47-52 | the theme becomes the other one and is saved |

## Left out

- Local storage is a set of fields rather than JSON strings. `JSON.parse`/`JSON.stringify`, the server-side guard and the try/catch fallbacks are not modelled. A key that was never written reads as its default.
- `getProducts` returns the shared `initialProducts` array itself when the key is absent. Later in-place edits would then alias the module constant. The model works on values, so this aliasing is not captured.
- Clock values are parameters: the `Date.now()` ids (the order, notification and user ids) and every `createdAt`. Timestamps are integers, not ISO strings, and the newest-first sorts compare those integers.
- Recommendations.Score: `Math.random() * 2` is an injected sequence of draws (`jitter`), and scores are exact reals rather than doubles. An id with no leading digit (every listing made on the sell page) gets popularity 0, where the source computes NaN.
- Recommendations.RecommendationsBestFirst: the order it states is the order by the model's score. For a product whose id has no leading digit, the source's score is NaN, its comparator returns NaN, and the order it produces is implementation-defined. The lemma says nothing about that order.
- Recommendations.CategoryAffinityBonus: the 3-point bonus is stated on the model's score. For an id with no leading digit, the source's score is NaN with or without the bonus.
- `Number.parseInt` is modelled as its leading-digit prefix. Leading whitespace, a sign and hexadecimal prefixes are not.
- Sell.HandleSubmit: the numeric price is passed in. `Number(formData.price)`, and what it gives for malformed text, is not modelled.
- `toLowerCase` is ASCII lower-casing. Unicode case mapping is not modelled.
- Orders.SortNewestFirst and Bargains.NewestFirst: both sorts happen to be stable, but no contract states stability.
- React plumbing is not modelled:
  - the loading flags, the `isSubmitting`/`isCheckingOut` flags, router redirects and toasts;
  - the price, date and discount formatting;
  - the DOM class toggle for the dark theme.
- Explore.ExplorePage.HandleImageSearch: the image data is unused by the handler and is not a parameter. The keyword source is a `setTimeout` stub with fixed keywords, outside this model.
- Bargain creation, including any offer floor or category rule, happens outside the modelled files and is not part of this model.
- Concurrent tabs writing the same storage are not modelled. The model is single-threaded.
