# ShopAura storefront: a Dafny model of its client-side logic

ShopAura's buyer storefront is a React client. This project models the parts of it that decide
state, as opposed to drawing it:

- the notification store (newest-first list plus an unread counter);
- the session store: sign-in check, login, register, logout, update, and the buyer-only rule;
- checkout arithmetic, coupon state, the default-address pick and the hand-off to payment;
- the payment page's dispatch across order creation, cash on delivery and the online gateway;
- the product listing:
  - the page window;
  - the query sent to the backend;
  - the two-level category tree;
  - the breadcrumb search;
  - the filter state;
- the home page's featured-category selection;
- the product page's quantity stepper, add-to-cart dispatch, gallery, price display and heart flag;
- order tracking: step index, step states, label and per-step timestamp;
- the order list's status filter;
- the profile page's avatar fallback, upload checks and save/upload/remove handlers;
- the navigation bar's active link, count badges, search box and menus.

Each source file is one module:

| module | file |
|---|---|
| `Notifications` | `notifications.dfy` |
| `Auth` | `auth.dfy` |
| `Checkout` | `checkout.dfy` |
| `Payment` | `payment.dfy` |
| `Products` | `products.dfy` |
| `Home` | `home.dfy` |
| `ProductDetail` | `product_detail.dfy` |
| `OrderTracking` | `order_tracking.dfy` |
| `Orders` | `orders.dfy` |
| `Profile` | `profile.dfy` |
| `Navbar` | `navbar.dfy` |

Shared support modules:

- `Wrappers`: `Option`, which stands for JavaScript's `null`/`undefined`.
- `Seqs`: `filter`, `findIndex` and `find` over sequences, with their lemmas.
- `Text`: `trim`, `startsWith`, `toUpperCase` and `replace(/_/g, ' ')`.
- `Catalog`: the category record shared by the listing and the home page.

Modelling conventions:

- **State is a class.**
  - A component's state cells, and a context's state, become the fields of a class.
  - Each handler becomes a method that runs its post-response update as one atomic step.
- **Outside answers are parameters.**
  - Backend replies are datatype parameters such as `Threw | Replied(success, ...)`, so every branch of a handler is reachable.
  - The payment gateway's outcome and the user's confirm dialog are parameters too.
- **Absent strings are "".** An absent string field is `""`, which matches JavaScript's truthiness tests on strings.
- **Money is whole numbers.** Amounts are unbounded integers.
- **Side effects are logged.** On the payment page, clearing the cart, navigating, opening the gateway and reporting a failure are appended to an effect log. Pure functions specify that log.

## Model

| member | source | states |
|---|---|---|
| Notifications.Normalize | src/context/NotificationContext.jsx:52-55 | a pushed payload keeps every field; its `_id` is its own `_id` when present, else its `id`; the result has an id iff one of the two was present |
| Notifications.NormalizeIdempotent | src/context/NotificationContext.jsx:52-55 | normalising an already normalised notification changes nothing |
| Notifications.MarkReadAt | src/context/NotificationContext.jsx:128-132 | mark-read keeps the length and order; entry i becomes read iff its `_id` is the id, and is otherwise unchanged |
| Notifications.MarkAllReadAt | src/context/NotificationContext.jsx:146 | mark-all-read keeps the length and marks every entry read with no other change |
| Notifications.RemoveSpec | src/context/NotificationContext.jsx:162 | delete drops exactly the entries with that `_id`; every other entry keeps its multiplicity; filtering distributes over concatenation, so relative order is kept |
| Notifications.MarkReadUnread | src/context/NotificationContext.jsx:128-133 | marking an id read lowers the number of unread entries by exactly the unread entries carrying that id |
| Notifications.MarkAllReadUnread | src/context/NotificationContext.jsx:146-147 | after mark-all-read no entry is unread |
| Notifications.DecrementCounter | src/context/NotificationContext.jsx:133 | `Math.max(0, c - 1)`: never negative; one less from 1 up; 0 otherwise |
| Notifications.NotificationCenter.constructor | src/context/NotificationContext.jsx:20-22 | empty list, counter 0, not loading; counter in step with the list |
| Notifications.NotificationCenter.OnPush | src/context/NotificationContext.jsx:52-58 | the normalised payload is prepended to the unchanged list; the counter rises by exactly 1; there is no duplicate check |
| Notifications.NotificationCenter.FetchNotifications | src/context/NotificationContext.jsx:95-108 | a successful reply replaces the whole list; otherwise the list is kept; `loading` ends false either way |
| Notifications.NotificationCenter.FetchUnreadCount | src/context/NotificationContext.jsx:111-120 | a successful reply sets the counter to the server's value; otherwise nothing changes |
| Notifications.NotificationCenter.MarkAsRead | src/context/NotificationContext.jsx:123-138 | on success the list is `MarkRead` of the old list and the counter is `DecrementCounter` of the old one; otherwise both are unchanged |
| Notifications.NotificationCenter.MarkAllAsRead | src/context/NotificationContext.jsx:141-154 | on success every entry is read and the counter is 0; otherwise both are unchanged |
| Notifications.NotificationCenter.DeleteNotification | src/context/NotificationContext.jsx:157-169 | on success the entries with that `_id` are removed; the counter is never touched |
| Notifications.NotificationCenter.ClearAll | src/context/NotificationContext.jsx:172-185 | on success the list is empty and the counter 0; otherwise both are unchanged |
| Notifications.PushKeepsSync | src/context/NotificationContext.jsx:57-58 | pushing an unread payload keeps the counter equal to the number of unread entries |
| Notifications.MarkReadKeepsSync | src/context/NotificationContext.jsx:128-133 | mark-read keeps the counter in step when exactly one unread entry carries the id |
| Notifications.MarkAllAndClearSync | src/context/NotificationContext.jsx:146-147 | mark-all-read and clear-all always leave the counter (0) in step with the list |
| Notifications.MarkReadOfReadEntryDesyncs | src/context/NotificationContext.jsx:128-133 | marking an already-read id still decrements, so the counter falls below the unread count |
| Notifications.DeleteUnreadDesyncs | src/context/NotificationContext.jsx:162 | deleting an unread entry leaves the counter above the unread count |
| Auth.AdmittedUser | src/context/AuthContext.jsx:30-46 | the session check admits a user iff the reply is successful, authenticated and of role `buyer`, and then admits exactly that user |
| Auth.LoginErrorMessage | src/context/AuthContext.jsx:79-82 | a failed login's message is the server's message, else the error's message, else "Invalid email or password"; never empty |
| Auth.LoginBody | src/context/AuthContext.jsx:65-69 | the login request carries the email and password and always `isBuyerFrontend: true` |
| Auth.RegisterBody | src/context/AuthContext.jsx:91-96 | the register request carries the form's name, email and password and always the role `buyer` |
| Auth.Session.constructor | src/context/AuthContext.jsx:17-19 | nobody signed in and `loading` true at mount |
| Auth.Session.CheckAuthStatus | src/context/AuthContext.jsx:26-60 | user and stored user both become exactly the admitted buyer, or nothing; signed in iff a buyer was admitted; a non-buyer goes through logout and triggers the admin redirect; `loading` ends false on every path |
| Auth.Session.Login | src/context/AuthContext.jsx:63-86 | sends `LoginBody`; success signs in without writing storage; an unsuccessful reply gives "Login failed"; a throw gives `LoginErrorMessage`; failures change no state |
| Auth.Session.Register | src/context/AuthContext.jsx:89-112 | sends `RegisterBody`; success signs in and stores the user; an unsuccessful reply returns nothing (`undefined`); a throw returns the server's message or "Registration failed"; `loading` untouched |
| Auth.Session.Logout | src/context/AuthContext.jsx:114-125 | whatever the backend does, user, authentication and stored user are cleared |
| Auth.Session.UpdateUser | src/context/AuthContext.jsx:129-134 | an absent user is a no-op; otherwise it signs in and stores the user; `loading` is never touched |
| Checkout.Shipping | src/pages/Checkout.jsx:102-103 | shipping is 0 or 50, and 0 iff the cart total is at least 500 |
| Checkout.TotalBounds | src/pages/Checkout.jsx:105-108 | the total lies between cart minus discount and that plus 50; it is non-negative when the discount is within the cart total; it is negative exactly when the discount exceeds cart plus shipping (no clamping) |
| Checkout.DefaultAddress | src/pages/Checkout.jsx:47-49 | the first address flagged default, or none iff no address is flagged |
| Checkout.View | src/pages/Checkout.jsx:128-134 | the form shows iff loading is over and the cart is non-empty; an empty cart renders nothing |
| Checkout.EmptyCartRedirect | src/pages/Checkout.jsx:32-37 | after loading, an empty cart (and only that) redirects to `/products` |
| Checkout.CheckoutPage.constructor | src/pages/Checkout.jsx:16-23 | initial state: loading, no address, empty code, no coupon, discount 0 |
| Checkout.CheckoutPage.FetchAddresses | src/pages/Checkout.jsx:39-60 | a successful reply replaces the list and selects the first default address if any, else keeps the selection; `loading` ends false; `applying` untouched |
| Checkout.CheckoutPage.SelectAddress | src/pages/Checkout.jsx:184 | picking a card sets the selected id and nothing else; `applying` untouched |
| Checkout.CheckoutPage.EditCouponCode | src/pages/Checkout.jsx:239 | the coupon box holds the typed text upper-cased; `applying` untouched |
| Checkout.CheckoutPage.ApplyCoupon | src/pages/Checkout.jsx:62-88 | a blank code sends nothing and changes nothing; otherwise the trimmed code is sent; a successful reply replaces the discount (absent means 0) and the coupon |
| Checkout.CheckoutPage.RemoveCoupon | src/pages/Checkout.jsx:90-100 | when the call does not throw, coupon, discount and code box reset; otherwise nothing changes; `applying` untouched |
| Checkout.CheckoutPage.ProceedToPayment | src/pages/Checkout.jsx:110-126 | refused iff no address is selected; otherwise hands off the address, cart total, discount, `Shipping`, `Total` and the applied code |
| Checkout.ApplyTwice | src/pages/Checkout.jsx:75-77 | two successful applications leave the second discount: coupons do not stack |
| Payment.PaymentEffects | src/pages/Payment.jsx:32-74 | the create-order call always comes first; the cart is cleared iff the order was created with cash on delivery; navigation to `/orders/<id>` happens in exactly that case, last, after the clear; the gateway opens iff created, online and launched, with the gateway's order id; no failure is reported; the whole log is the create call alone, or create-clear-navigate, or create-open |
| Payment.OpenedSession | src/pages/Payment.jsx:76-167 | a gateway session is left open iff the order was created, online and the modal opened, carrying the two order ids |
| Payment.VerifyEffects | src/pages/Payment.jsx:96-135 | a verified payment clears the cart then navigates to the order; a thrown verification only reports the failure; an unsuccessful reply does nothing |
| Payment.PaymentPage.constructor | src/pages/Payment.jsx:19-21 | online method, not processing, no checkout data |
| Payment.PaymentPage.Mount | src/pages/Payment.jsx:23-30 | missing state navigates to `/checkout` and keeps no data; otherwise the state is kept |
| Payment.PaymentPage.ChooseMethod | src/pages/Payment.jsx:215 | the radio buttons set the payment method |
| Payment.PaymentPage.HandlePayment | src/pages/Payment.jsx:32-74 | without checkout data nothing happens; otherwise the effect log grows by `PaymentEffects` and `processing` ends false |
| Payment.PaymentPage.HandleOnlinePayment | src/pages/Payment.jsx:76-173 | opens the gateway only with an order id and a successful launch; a construction error resets `processing` |
| Payment.PaymentPage.OnPaymentVerified | src/pages/Payment.jsx:96-135 | the log grows by `VerifyEffects`; swallowed clear-cart and report failures change nothing |
| Payment.PaymentPage.OnDismiss | src/pages/Payment.jsx:146-162 | reports the cancellation and resets `processing`, with no clear and no navigation |
| Products.PageNumbers | src/pages/Products.jsx:262-285 | up to five pages: exactly 1..totalPages; more: five consecutive pages within [1, totalPages] that contain an in-range current page |
| Products.PreviousPage | src/pages/Products.jsx:905 | `Math.max(1, page - 1)` |
| Products.NextPage | src/pages/Products.jsx:929-931 | `Math.min(totalPages, page + 1)` |
| Products.PageStepsStayInRange | src/pages/Products.jsx:905-931 | Previous and Next keep an in-range page within [1, totalPages] |
| Products.SortParam | src/pages/Products.jsx:122-137 | no sort for an empty option; price-low maps to `price`, price-high to `-price`, rating to `-averageRating`, anything else to `-createdAt` |
| Products.ProductQueryKey | src/pages/Products.jsx:118-143 | what the query holds under any key: each filter under its own key, and nothing under any other |
| Products.ProductQueryLookup | src/pages/Products.jsx:118-143 | category only when non-empty; the mapped sort; search only when non-empty; minRating only when positive; page and `limit=12` always, as the last two parameters |
| Products.ActiveCategories | src/pages/Products.jsx:81-83 | only active categories survive (absent `isActive` counts as active) |
| Products.ActiveCategoriesComplete | src/pages/Products.jsx:81-83 | every active category survives |
| Products.ShownTreeIsActive | src/pages/Products.jsx:81-85 | every root and every child in the shown tree is an active category of the input, and children are leaves |
| Products.InsertByOrderSorted | src/pages/Products.jsx:112 | inserting into a list sorted by `order` keeps it sorted |
| Products.InsertByOrderCount | src/pages/Products.jsx:112 | inserting adds exactly the one tree |
| Products.SortByOrderSpec | src/pages/Products.jsx:112 | the sort by `order \|\| 0` yields a sorted permutation of its input |
| Products.SortByOrderStable | src/pages/Products.jsx:112 | trees of equal order keep their input order |
| Products.BuildCategoryTreeOrder | src/pages/Products.jsx:93-113 | one root per parentless category, sorted by order, equal orders in input order |
| Products.BuildCategoryTreeRoots | src/pages/Products.jsx:94-111 | a node is a root iff its category is a parentless input category carrying exactly its own children |
| Products.ChildrenOfSpec | src/pages/Products.jsx:95-105 | a category is listed under a root iff it has a parent that names the root by `_id` or `slug`, directly or through `parent._id` / `parent.slug` |
| Products.FindInTreeIsFirst | src/pages/Products.jsx:222-231 | searching one tree returns the first slug match of its depth-first pre-order walk |
| Products.FindCategoryIsFirst | src/pages/Products.jsx:222-231 | `findCategory` returns the first slug match of a depth-first pre-order walk of the forest |
| Products.Breadcrumb | src/pages/Products.jsx:219-235 | none iff no category is selected; the found category's name when it has one; the raw slug when no category matches or the match has no name; never empty |
| Products.BreadcrumbNamesFirstMatch | src/pages/Products.jsx:219-235 | the breadcrumb names the first category with the selected slug in a depth-first pre-order walk of the tree |
| Products.ProductFilters.constructor | src/pages/Products.jsx:39-51 | category, sort (default `newest`), search and page (0 or NaN reads as 1) come from the URL; rating starts at 0 |
| Products.ProductFilters.CategoryChange | src/pages/Products.jsx:179-189 | sets the category and returns to page 1; other filters kept |
| Products.ProductFilters.SortChange | src/pages/Products.jsx:191-198 | sets the sort and returns to page 1; other filters kept |
| Products.ProductFilters.SetMinRating | src/pages/Products.jsx:541 | sets the rating and nothing else |
| Products.ProductFilters.ClearFilters | src/pages/Products.jsx:206-213 | every filter back to its default and page 1 |
| Products.ProductFilters.GoPrevious | src/pages/Products.jsx:905 | the page becomes `PreviousPage` of the old page |
| Products.ProductFilters.GoNext | src/pages/Products.jsx:929-931 | the page becomes `NextPage` of the old page |
| Products.ProductFilters.GoToPage | src/pages/Products.jsx:916 | a page button sets that page |
| Home.ParentCategories | src/pages/Home.jsx:57-59 | candidates are parentless active categories of the input |
| Home.ParentCategoriesComplete | src/pages/Home.jsx:57-59 | every parentless active category is a candidate |
| Home.FeaturedCategories | src/pages/Home.jsx:60-74 | every shown category is a candidate |
| Home.NoneFeatured | src/pages/Home.jsx:72-73 | with no featured candidate, the non-featured candidates are all candidates |
| Home.SelectFeaturedPrefixes | src/pages/Home.jsx:62-74 | all three branches are one rule: the first k featured (k = featured count capped at 8), then the first 8 - k non-featured, each in input order |
| Home.FeaturedCategoriesLength | src/pages/Home.jsx:62-74 | exactly min(8, number of candidates) categories are shown |
| Home.FeaturedComeFirst | src/pages/Home.jsx:65-71 | every featured entry precedes every non-featured one |
| Home.ManyFeatured | src/pages/Home.jsx:63-64 | with 8 or more featured, exactly the first 8 featured are shown, all featured |
| ProductDetail.NextQuantity | src/pages/ProductDetail.jsx:105-112 | one step at most; up iff incrementing below stock; down iff decrementing above 1; 1 ≤ q ≤ stock is preserved |
| ProductDetail.StepsStayInRange | src/pages/ProductDetail.jsx:105-112 | any sequence of presses keeps an in-range quantity in [1, stock] |
| ProductDetail.CartActionFor | src/pages/ProductDetail.jsx:114-121 | nothing iff no product or zero stock; an update iff in stock and in the cart; otherwise an add; both carry the chosen quantity |
| ProductDetail.Images | src/pages/ProductDetail.jsx:49-55 | empty without a product; no missing url; the thumbnail first when present |
| ProductDetail.ImagesMembers | src/pages/ProductDetail.jsx:49-55 | a url is in the gallery iff it is present and is the thumbnail or an image url |
| ProductDetail.ImagesAllPresent | src/pages/ProductDetail.jsx:49-55 | with every url present the gallery is the thumbnail followed by the images, in order |
| ProductDetail.ShownPrice | src/pages/ProductDetail.jsx:228 | `finalPrice` when non-zero, else `price` |
| ProductDetail.Savings | src/pages/ProductDetail.jsx:368-375 | a saving is shown iff the discount is positive, and it is price minus the shown price |
| ProductDetail.ProductPage.constructor | src/pages/ProductDetail.jsx:34-36 | no product, quantity 1, not hearted |
| ProductDetail.ProductPage.FetchProduct | src/pages/ProductDetail.jsx:72-96 | primary product with its heart flag; else the public fallback, never hearted; else unchanged |
| ProductDetail.ProductPage.SyncQuantity | src/pages/ProductDetail.jsx:63-70 | the cart's quantity when the product is in the cart, else 1 |
| ProductDetail.ProductPage.ChangeQuantity | src/pages/ProductDetail.jsx:105-112 | `NextQuantity` of the old quantity; a no-op without a product |
| ProductDetail.ProductPage.AddToCart | src/pages/ProductDetail.jsx:114-121 | asks the cart for `CartActionFor` the current product and quantity; the page is unchanged |
| ProductDetail.ProductPage.WishlistToggle | src/pages/ProductDetail.jsx:123-132 | with a product the API flag flips exactly once (the success and error paths flip it alike); without a product nothing changes |
| OrderTracking.Status | src/pages/OrderTracking.jsx:72 | `order.status` takes precedence over `currentStatus` |
| OrderTracking.CurrentStepIndex | src/pages/OrderTracking.jsx:68-79 | always within [0, 5]; a known status gives its first position; no tracking or an unknown status gives 0 |
| OrderTracking.DisplayStatus | src/pages/OrderTracking.jsx:108-109 | never empty; the status, defaulting to `pending` |
| OrderTracking.StatusLabel | src/pages/OrderTracking.jsx:141 | same length as the status; no underscore left; every other character kept |
| OrderTracking.StepsDrawnConsistently | src/pages/OrderTracking.jsx:172-173 | some step is current and no two steps are; the current step is completed; the completed steps form a prefix starting at step 0 |
| OrderTracking.EntryTime | src/pages/OrderTracking.jsx:182-183 | `changedAt`, else `timestamp`, else none |
| OrderTracking.StepTimestamp | src/pages/OrderTracking.jsx:175-184 | the timeline entry when present; never an empty time |
| OrderTracking.StepTimestampFromHistory | src/pages/OrderTracking.jsx:177-183 | without a timeline entry, the time of the first history entry with the status |
| OrderTracking.StepTimestampNone | src/pages/OrderTracking.jsx:175-184 | with neither a timeline entry nor a history entry for the status, no timestamp |
| Orders.FilterOrders | src/pages/Orders.jsx:36-39 | `all` returns the list unchanged; otherwise only orders of that status, from the input, never longer |
| Orders.FilterOrdersComplete | src/pages/Orders.jsx:38 | every order of the chosen status is listed |
| Orders.FilterOrdersAppend | src/pages/Orders.jsx:38 | the filter keeps the list's order |
| Orders.EmptyState | src/pages/Orders.jsx:91-100 | shown iff the filtered list is empty; the message depends on whether the filter is `all` |
| Orders.EmptyStateUnderAll | src/pages/Orders.jsx:97-98 | under `all` the empty state appears iff there are no orders |
| Orders.EmptyStateUnderStatus | src/pages/Orders.jsx:91-100 | under a status filter it appears iff no order has that status |
| Profile.FirstNonEmpty | src/pages/Profile.jsx:33-38 | the `a \|\| b \|\| ...` chain over strings: none iff every candidate is empty; otherwise the candidate at the first non-empty position |
| Profile.AvatarUrl | src/pages/Profile.jsx:33-38 | none without a user; otherwise exactly `FirstNonEmpty` of picture url, `avatar`, `profileImage`, `photoUrl`, `profilePic` in that order, so each field is used only when all earlier ones are empty |
| Profile.CheckUpload | src/pages/Profile.jsx:81-93 | no file, then non-image type, then size over 5 MiB are refused in that order; all else is accepted |
| Profile.CheckUploadBoundaries | src/pages/Profile.jsx:84-93 | exactly 5 MiB is accepted, one byte more is not, and an oversized non-image is refused as a non-image |
| Profile.ProfilePage.constructor | src/pages/Profile.jsx:22-24 | not saving, not uploading, not editing |
| Profile.ProfilePage.StartEditing | src/pages/Profile.jsx:243 | enters editing mode |
| Profile.ProfilePage.CancelEditing | src/pages/Profile.jsx:252-253 | leaves editing mode |
| Profile.ProfilePage.ChooseFile | src/pages/Profile.jsx:195-197 | the input holds the chosen file |
| Profile.ProfilePage.HandleSubmit | src/pages/Profile.jsx:60-78 | nothing is sent without a user; success hands the server's user to `updateUser` and leaves editing; failure stays in editing and leaves the session; `saving` ends false |
| Profile.ProfilePage.HandleImageUpload | src/pages/Profile.jsx:80-109 | the verdict is `CheckUpload`; a refused file clears the input without upload; an accepted one is uploaded, success updates the session, and the input is cleared |
| Profile.ProfilePage.HandleDeletePicture | src/pages/Profile.jsx:111-126 | nothing without confirmation; success hands the server's user to the session; `uploading` ends false |
| Navbar.AtMostOneLinkActive | src/components/Navbar.jsx:128-131 | `/` is active only on `/`; the other links are active on paths they prefix, and at most one link is active |
| Navbar.LinkActiveBeneath | src/components/Navbar.jsx:131 | a non-home link is active on its own path and every path beneath it |
| Navbar.BadgeFor | src/components/Navbar.jsx:181-184 | hidden iff the count is not positive; `9+` iff above 9; otherwise the exact count 1..9 |
| Navbar.SearchTarget | src/components/Navbar.jsx:67-73 | none iff the query is blank; otherwise exactly `Trim` of the query: non-empty, no surrounding space, a slice of the input |
| Navbar.NavbarState.constructor | src/components/Navbar.jsx:30-33 | menus closed, empty search box |
| Navbar.NavbarState.TypeQuery | src/components/Navbar.jsx:156 | the box holds the typed text |
| Navbar.NavbarState.HandleSearch | src/components/Navbar.jsx:67-73 | searches for `SearchTarget` of the box; a blank query changes nothing, otherwise the box is emptied |
| Navbar.NavbarState.RouteChanged | src/components/Navbar.jsx:45-48 | any route change closes both menus |
| Navbar.NavbarState.ToggleUserMenu | src/components/Navbar.jsx:205 | flips the user menu |
| Navbar.NavbarState.ToggleMobileMenu | src/components/Navbar.jsx:291 | flips the mobile menu |
| Navbar.NavbarState.CloseUserMenu | src/components/Navbar.jsx:50-54 | a click outside the user menu closes it |
| Text.Trim | src/components/Navbar.jsx:69-70 | `trim`: keeps one slice of the input; everything dropped before and after it is white space, it neither starts nor ends with white space, and it is empty iff the input is all white space |
| Text.ToUpper | src/pages/Checkout.jsx:239 | `toUpperCase` character by character, same length |
| Text.ToUpperKeepsBlank | src/pages/Checkout.jsx:239 | upper-casing neither creates nor removes a blank coupon code |
| Text.UnderscoresToSpaces | src/pages/OrderTracking.jsx:141 | `replace(/_/g, ' ')`: same length, underscores become spaces, all else kept |

## Left out

- The Socket.IO connection lifecycle (connect, join, reconnect, teardown) is left out: it is networking and concurrency. Only the body of the `notification` handler is modelled.
- The HTTP client (src/utils/api.js) and its 401 redirect are not part of this model. Every backend call is a reply parameter.
- Toasts, console logging and the delayed admin-panel redirect (`setTimeout` / `window.location`) are left out. The redirect appears only as the `redirectToAdmin` result.
- Navigation from the Navbar and Profile pages is not modelled as an effect. The Payment page's navigations are logged.
- Razorpay script loading and SDK construction are left out. They appear only as the `Launch` outcome and as the three gateway events.
- The Razorpay checkout options (amount, currency, prefill, theme) are not modelled. The `OpenGateway` effect carries only the gateway order id.
- The Payment page's create-order reply is reduced to a success flag, the order `_id` and the gateway order id. Its error message is not modelled, because it only feeds a toast.
- Response-shape probing over untyped JSON (the several places a list may sit in a reply) is left out. Each reply carries the list directly.
- Writing the URL search params in the Products handlers (`setSearchParams`) is left out, as is `encodeURIComponent` in the Navbar search. Only the filter state is modelled, plus the search term handed to navigation.
- The Products page's own search form, the product fetch and its pagination totals are left out. `totalPages` is a parameter.
- Products.ChildOf: assumes every category has a present `_id` and `slug`. It does not model JavaScript comparing two absent values as equal.
- Float and formatting work is left out: progress-bar percentages, `toFixed` / `toLocaleString`, date formatting, and the ISO date split in the profile form. Money is integral.
- The profile form's fields and their reset on cancel are left out. Only the editing, saving and uploading flags and the file input are modelled.
- The product page's reviews and the order list's fetch are left out. They only feed rendering, and no modelled state depends on them.
- ProductDetail.ProductPage.WishlistToggle: promises only the flip of the API flag. The drawn heart (`isHeartedFromAPI || isInWishlist`, line 46) also depends on wishlist membership, which the toggle changes inside the wishlist context, and that context is not part of this model.
- The cart and wishlist contexts are not part of this model. Their invariants (stock caps, totals, toggle idempotence) cannot be stated from the visible code. The product page only computes which cart call to make.
- Interleaving of concurrent responses is not modelled. Each handler's post-response update is one atomic step.
- Text.ToUpper: upper-cases the ASCII letters only. JavaScript's full Unicode case mapping is not modelled.
- Text.Trim: strips JavaScript's WhiteSpace and LineTerminator code points as listed in `Text.IsSpace`. Other Unicode space separators are not modelled.
- The notification counter is not kept equal to the number of unread entries. Delete never decrements it, and mark-read decrements even for an already-read id. The model keeps this behaviour as written, and `MarkReadOfReadEntryDesyncs` and `DeleteUnreadDesyncs` exhibit it.
