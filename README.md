# Game Vault storefront — a Dafny model of its client-side rules

Game Vault is a single-page storefront. Customers browse products and
subscription packages, sign in with a connected identity, check out with a
coupon and one of six manual payment methods, and follow their orders and
downloads on a dashboard. An admin panel sits behind a PIN. This project
models the deterministic logic inside those page components:

- **Checkout** (`Checkout`): the coupon discount in integer pence; the
  apply and remove coupon state machine with its ordered fast-fail checks;
  the ordered place-order checks; the arguments forwarded for an order.
- **Dashboard** (`Dashboard`, `OrderSort`): newest-first ordering of the
  loaded orders, done in place on an array by a stable insertion sort; the
  pending and completed counts; status and payment-method labels; the
  download gate; the product-file lookup with its name-keyed preference and
  its trimmed, lower-cased name fallback; the MIME choice; the e-mail
  update; the membership purchase checks.
- **Admin panel** (`Admin`): the PIN gate and the admin check behind it,
  which fails open; the flattened, customer-tagged, sorted order list with
  accept and decline; product and package save validation; the package
  feature list.
- **Catalogue** (`Store`, `ProductDetail`): case-insensitive search,
  category sections and labels, empty-state messages, and the buy-now and
  subscribe guards that build the checkout item.
- **Sign-in** (`Auth`): the ordered registration checks, the anchored
  e-mail pattern as a predicate, and the login outcomes.
- **Application shell** (`App`): which view is rendered, navigation,
  logout, and the handlers that wrap the backend actor.

Shared pieces:

- `Domain` holds the backend records and the page and checkout types.
  Every `bigint` is an unbounded `int`.
- `JsString` models the JavaScript string operations the pages use: `trim`,
  `toLowerCase`, `toUpperCase`, `includes` and `BigInt.toString`.
- `Wrappers` holds `Option` and `Outcome`.

Every backend call is a parameter: a function from its arguments to an
`Outcome` (resolved with a value, or rejected). Each handler is one
sequential step. Handlers that update component state are methods of a
class with the component's fields. Each method's `ensures` ties the new
state to a pure step function, and the properties are proved about that
function.

Two details of `CheckoutPage.tsx` shape the model:

- The order request carries the undiscounted `item.price`, not the shown
  discounted price. The coupon reaches the backend only as its code.
- The percentage discount uses truncating `BigInt` division, which rounds
  toward zero. It differs from floor only for negative values;
  `Checkout.WorkedExamples` shows one.

## Model

| member | source | states |
|---|---|---|
| Checkout.TruncDiv100 | src/frontend/src/components/CheckoutPage.tsx:148-151 | `BigInt` division by 100 rounds toward zero for both signs |
| Checkout.DiscountedPrice | src/frontend/src/components/CheckoutPage.tsx:146-155 | without a coupon the price is `item.price`; with one the result is never negative |
| Checkout.PercentagePriceIsProportionalRoundedUp | src/frontend/src/components/CheckoutPage.tsx:148-151 | a "percentage" coupon of 0..100 leaves `price*(100-value)/100` rounded up, within 0..price |
| Checkout.NonPercentageSubtractsValue | src/frontend/src/components/CheckoutPage.tsx:153-154 | any other discount type subtracts the value and clamps at 0 |
| Checkout.DiscountMonotone | src/frontend/src/components/CheckoutPage.tsx:146-155 | a larger discount value never yields a higher price |
| Checkout.WorkedExamples | src/frontend/src/components/CheckoutPage.tsx:146-155 | concrete prices: 10% of 1000 gives 900, a fixed 100 off 50 gives 0, 33% of 999 gives 670, a -1% coupon on 150 gives 151 |
| Checkout.PaymentDetails | src/frontend/src/components/CheckoutPage.tsx:58-111 | the configured setting when non-empty, otherwise the method's fallback text; never empty |
| Checkout.ShownPaymentDetails | src/frontend/src/components/CheckoutPage.tsx:265-269 | details are shown exactly when a method is selected and settings are loaded |
| Checkout.NormalizedCode | src/frontend/src/components/CheckoutPage.tsx:158 | the trimmed, upper-cased code is empty exactly when the input is blank, and is already upper case |
| Checkout.CouponPrecheck | src/frontend/src/components/CheckoutPage.tsx:159-170 | the three fast-fail checks in order with their messages; none fails iff there is a code, a profile and an actor |
| Checkout.ApplyCouponStep | src/frontend/src/components/CheckoutPage.tsx:157-198 | a failed check changes no coupon and makes no call; otherwise exactly one validation call; success applies the returned coupon, rejection clears it with "Invalid or expired coupon" |
| Checkout.BlankCodeNeverValidated | src/frontend/src/components/CheckoutPage.tsx:159-162 | a blank input never reaches the backend |
| Checkout.SignedOutApplyRefused | src/frontend/src/components/CheckoutPage.tsx:163-166 | signed out, a non-blank code is refused with "Please log in to use coupons" and no validation call |
| Checkout.PlaceOrderPrecheck | src/frontend/src/components/CheckoutPage.tsx:206-223 | the four checks in their order; none fails iff a method, a reference, a delivery e-mail and a profile are present |
| Checkout.OrderRequestFor | src/frontend/src/components/CheckoutPage.tsx:227-235 | the request carries the item's name and undiscounted price, the chosen method's id, the trimmed reference and the trimmed delivery e-mail, and the applied coupon's code exactly when one is applied |
| Checkout.ForwardedPriceIsUndiscounted | src/frontend/src/components/CheckoutPage.tsx:227-235 | with a real percentage coupon the forwarded price is strictly above the shown one |
| Checkout.PlaceOrderStep | src/frontend/src/components/CheckoutPage.tsx:206-254 | no order call when a check fails (a missing profile also goes to "auth"); a profile save only after success, only when the trimmed e-mail changed and an actor exists |
| Checkout.SignedOutPlaceGoesToAuth | src/frontend/src/components/CheckoutPage.tsx:219-223 | signed out, a completed form sends no order, reports "not logged in" and goes to "auth" |
| Checkout.SignedOutPresses | src/frontend/src/components/CheckoutPage.tsx:157-223 | signed out, Apply then "Place Order" on a filled form: no validation call, the log-in coupon message, the applied coupon and order id unchanged, no order and a move to "auth" |
| Checkout.CheckoutPage.constructor | src/frontend/src/components/CheckoutPage.tsx:121-143 | the initial fields; the delivery e-mail starts as the profile's at mount |
| Checkout.CheckoutPage.Price | src/frontend/src/components/CheckoutPage.tsx:146-147 | the shown price is `item.price` without a coupon and never negative with one |
| Checkout.CheckoutPage.CouponInputShown | src/frontend/src/components/CheckoutPage.tsx:458 | while the coupon input is shown the price is the item's own and no success message is on screen |
| Checkout.CheckoutPage.EditCouponInput | src/frontend/src/components/CheckoutPage.tsx:496-499 | typing upper-cases the input and clears the message |
| Checkout.CheckoutPage.SelectMethod | src/frontend/src/components/CheckoutPage.tsx:557 | selects the method |
| Checkout.CheckoutPage.EditPaymentRef | src/frontend/src/components/CheckoutPage.tsx:734 | sets the reference |
| Checkout.CheckoutPage.EditDeliveryEmail | src/frontend/src/components/CheckoutPage.tsx:438 | sets the delivery e-mail |
| Checkout.CheckoutPage.ApplyCoupon | src/frontend/src/components/CheckoutPage.tsx:157-198 | with the profile App passes at the time of the press, the new coupon, input and message are those of `ApplyCouponStep`; validation is not in progress afterwards |
| Checkout.CheckoutPage.RemoveCoupon | src/frontend/src/components/CheckoutPage.tsx:200-204 | clears the coupon, the input and the message; the price returns to `item.price` |
| Checkout.CheckoutPage.PlaceOrder | src/frontend/src/components/CheckoutPage.tsx:206-254 | with the profile App passes at the time of the press, the outcome is `PlaceOrderStep`'s; the order id is kept only on success |
| Checkout.EnabledApplyPassesEmptyCheck | src/frontend/src/components/CheckoutPage.tsx:515 | an enabled Apply button never meets the empty-code check |
| Checkout.EnabledPlacePassesFirstChecks | src/frontend/src/components/CheckoutPage.tsx:752 | an enabled Place Order button never meets the method or reference checks |
| OrderSort.InsertNewestFirst | src/frontend/src/components/DashboardPage.tsx:321 | inserting one order grows the sequence by one |
| OrderSort.SortNewestFirst | src/frontend/src/components/DashboardPage.tsx:321 | the stable descending-timestamp sort keeps the length |
| OrderSort.SortIsPermutation | src/frontend/src/components/DashboardPage.tsx:321 | sorting neither loses nor invents orders (multiset equality) |
| OrderSort.SortIsNewestFirst | src/frontend/src/components/DashboardPage.tsx:321 | the sorted orders have non-increasing timestamps |
| OrderSort.SortOfNewestFirstIsIdentity | src/frontend/src/components/DashboardPage.tsx:321 | an already newest-first list is left exactly as it is |
| OrderSort.SortIdempotent | src/frontend/src/components/DashboardPage.tsx:321 | sorting twice is sorting once |
| OrderSort.SortIsStable | src/frontend/src/components/DashboardPage.tsx:321 | the sort is stable: the orders sharing any one timestamp come out in their input order |
| OrderSort.InsertAt | src/frontend/src/components/DashboardPage.tsx:321 | one in-place insertion step on the array equals `InsertNewestFirst` on its prefix and leaves the rest alone |
| OrderSort.SortOrdersInPlace | src/frontend/src/components/DashboardPage.tsx:321 | `loaded.sort(...)` in place: the array ends as `SortNewestFirst` of its old contents |
| Dashboard.CountWithStatus | src/frontend/src/components/DashboardPage.tsx:360-362 | the count of orders whose lower-cased status matches is at most the number of orders |
| Dashboard.SortKeepsCount | src/frontend/src/components/DashboardPage.tsx:321 | sorting does not change any status count |
| Dashboard.CountsWithinTotal | src/frontend/src/components/DashboardPage.tsx:360-362 | pending plus completed ("accepted") never exceed the number of orders |
| Dashboard.DownloadableOrderIsCompleted | src/frontend/src/components/DashboardPage.tsx:635-642 | an order whose card shows the download section is counted as completed, so not every order is pending |
| Dashboard.StatusLabel | src/frontend/src/components/DashboardPage.tsx:73-98 | "pending", "accepted" and "declined" in any case get their labels; a status that lower-cases to "constructor" or "__proto__" finds an inherited member and shows no label; any other status shows its raw text |
| Dashboard.PaymentMethodLabel | src/frontend/src/components/DashboardPage.tsx:114-124 | the six keys, looked up lower-cased, give their labels; a method that lower-cases to "constructor" or "__proto__" yields the inherited member, not the method; anything else shows the original string |
| Dashboard.PaymentMethodLabelOfEveryMethod | src/frontend/src/components/DashboardPage.tsx:114-124 | every checkout payment method id, stored in any case, gets its table label |
| Dashboard.FindProductByName | src/frontend/src/components/DashboardPage.tsx:175-178 | the first product whose trimmed, lower-cased name equals the item's; none iff no product matches |
| Dashboard.FileLookupFor | src/frontend/src/components/DashboardPage.tsx:166-190 | the name-keyed lookup with the unmodified item name when it exists; otherwise the id of the first matching product; no call without a match or a handler |
| Dashboard.MimeType | src/frontend/src/components/DashboardPage.tsx:201-204 | the Android package type iff the lower-cased file type is "apk", plain text otherwise |
| Dashboard.OrderDownloadSection.constructor | src/frontend/src/components/DashboardPage.tsx:162-164 | no files, loading, no download in progress |
| Dashboard.OrderDownloadSection.LoadFiles | src/frontend/src/components/DashboardPage.tsx:166-195 | the listing call is `FileLookupFor`'s; files only from a resolved listing, an error or no match leaves the list empty; loading ends |
| Dashboard.OrderDownloadSection.HandleDownload | src/frontend/src/components/DashboardPage.tsx:197-223 | a saved file carries the file's name, the chosen MIME type and the downloaded bytes; the in-progress mark is cleared |
| Dashboard.EmailToSave | src/frontend/src/components/DashboardPage.tsx:343-351 | nothing is saved iff the input is blank; otherwise the trimmed, non-empty input |
| Dashboard.DashboardPage.constructor | src/frontend/src/components/DashboardPage.tsx:308-313 | no orders, loading, the e-mail input starts as the profile's at mount |
| Dashboard.DashboardPage.LoadOrders | src/frontend/src/components/DashboardPage.tsx:315-335 | for the current username, a resolved load keeps the orders newest-first (via the in-place sort); a rejected one keeps the old list; loading ends |
| Dashboard.DashboardPage.EditEmail | src/frontend/src/components/DashboardPage.tsx:448 | sets the e-mail input |
| Dashboard.DashboardPage.SaveEmailEnabled | src/frontend/src/components/DashboardPage.tsx:462-465 | against the current profile, an enabled save button never resubmits the current address |
| Dashboard.DashboardPage.Pending | src/frontend/src/components/DashboardPage.tsx:360-362 | the pending tile plus the completed count never exceed the loaded orders |
| Dashboard.DashboardPage.SaveEmail | src/frontend/src/components/DashboardPage.tsx:343-358 | the call is `EmailToSave`'s; saved iff a call was made and resolved |
| Dashboard.PurchaseStep | src/frontend/src/components/DashboardPage.tsx:825-850 | the checks in order (method, trimmed reference, handler); one call with the trimmed reference; purchased only on success |
| Dashboard.MembershipCheckout.constructor | src/frontend/src/components/DashboardPage.tsx:810-815 | no method, empty reference, not purchased |
| Dashboard.MembershipCheckout.SelectMethod | src/frontend/src/components/DashboardPage.tsx:927 | selects the method |
| Dashboard.MembershipCheckout.EditPaymentRef | src/frontend/src/components/DashboardPage.tsx:990 | sets the reference |
| Dashboard.MembershipCheckout.HandlePurchase | src/frontend/src/components/DashboardPage.tsx:825-850 | the result is `PurchaseStep`'s; `purchased` becomes true only on success and never reverts |
| Store.Filter | src/frontend/src/components/StorePage.tsx:56-58 | `Array.filter` keeps a subsequence no longer than its input |
| Store.FilterMembership | src/frontend/src/components/StorePage.tsx:56-58 | an element is kept iff it was in the input and passes the test |
| Store.FilterAppend | src/frontend/src/components/StorePage.tsx:56-58 | filtering distributes over concatenation, so order is preserved |
| Store.FilteredProducts | src/frontend/src/components/StorePage.tsx:56-58 | the filtered products are no more than the products |
| Store.FilteredProductsMembership | src/frontend/src/components/StorePage.tsx:56-58 | a product is listed iff its lower-cased name contains the lower-cased query |
| Store.EmptyQueryKeepsAll | src/frontend/src/components/StorePage.tsx:56-58 | an empty query keeps every product in order |
| Store.CategorySection | src/frontend/src/components/StorePage.tsx:258-262 | a section lists filtered products of exactly its category |
| Store.CategorySectionMembership | src/frontend/src/components/StorePage.tsx:319-323 | a product is in a section iff it matches the query and has exactly that category |
| Store.CategoryLabel | src/frontend/src/components/StorePage.tsx:32-38 | the four known categories map to their labels; any other is returned unchanged |
| Store.EmptyStatesMeanWhatTheySay | src/frontend/src/components/StorePage.tsx:150-193 | the two empty states never show together; "yet" means no products at all; "found" means no product matches a non-empty query |
| Store.ViewDetail | src/frontend/src/components/StorePage.tsx:206-209 | selects the product and opens its detail page |
| Store.BuyNow | src/frontend/src/components/StorePage.tsx:210-217 | without a profile only "auth"; with one the `{id, name, price}` item and "checkout" |
| Store.Subscribe | src/frontend/src/components/StorePage.tsx:387-393 | as buy-now, with `isPackage: true` |
| Store.CheckoutOnlyWithItem | src/frontend/src/components/StorePage.tsx:210-217 | "checkout" is reached iff an item is set, and that item carries the catalogue price |
| ProductDetail.CategoryLabel | src/frontend/src/components/ProductDetailPage.tsx:19-23 | "download_file" and "game_account" get labels; anything else is raw |
| ProductDetail.LabelsAgreeWithStore | src/frontend/src/components/ProductDetailPage.tsx:19-23 | the two pages agree on every category except "download_file" ("Download File" against "Download") and the two CPM categories, which only the store names |
| ProductDetail.HandleBuyNow | src/frontend/src/components/ProductDetailPage.tsx:31-42 | without a profile only "auth"; with one the `{id, name, price}` item with no package flag, then "checkout" |
| Auth.IndexOf | src/frontend/src/components/AuthPage.tsx:51 | the first position of a character, or none when it does not occur |
| Auth.ValidEmailIff | src/frontend/src/components/AuthPage.tsx:51 | the executable check agrees with the anchored pattern: no whitespace, one "@" after a non-empty local part, and a "." inside the domain |
| Auth.ValidEmailIsUnpadded | src/frontend/src/components/AuthPage.tsx:51-58 | an accepted e-mail has no padding, so trimming it before submission changes nothing |
| Auth.RegisterPrecheck | src/frontend/src/components/AuthPage.tsx:38-55 | the four checks in order with their messages; none fails iff identity, username, e-mail and pattern all pass |
| Auth.AuthForm.RegisterEnabled | src/frontend/src/components/AuthPage.tsx:248 | an enabled "Create Account" press never meets the identity refusal |
| Auth.RegisterStep | src/frontend/src/components/AuthPage.tsx:38-67 | no call on a failed check; one call with the trimmed name and e-mail; the profile is set only on success |
| Auth.LoginStep | src/frontend/src/components/AuthPage.tsx:70-92 | no identity: no lookup; a profile logs in; null is "no account"; a rejection fails |
| Auth.AuthForm.constructor | src/frontend/src/components/AuthPage.tsx:22-25 | empty fields, nothing in progress |
| Auth.AuthForm.EditUsername | src/frontend/src/components/AuthPage.tsx:212 | sets the username |
| Auth.AuthForm.EditEmail | src/frontend/src/components/AuthPage.tsx:231 | sets the e-mail |
| Auth.AuthForm.HandleRegister | src/frontend/src/components/AuthPage.tsx:38-68 | the outcome is `RegisterStep`'s; "store" and the profile only on success |
| Auth.AuthForm.HandleLogin | src/frontend/src/components/AuthPage.tsx:70-92 | the outcome is `LoginStep`'s; "store" and the profile only for a found profile |
| Admin.PinGate.constructor | src/frontend/src/components/AdminPage.tsx:73-74 | empty PIN, idle |
| Admin.PinGate.EditPin | src/frontend/src/components/AdminPage.tsx:118 | typing sets the PIN and returns to idle |
| Admin.PinGate.Submit | src/frontend/src/components/AdminPage.tsx:41-82 | success iff the PIN is exactly "2006" (verified, PIN kept); otherwise denied and the PIN cleared |
| Admin.AdminAccess | src/frontend/src/components/AdminPage.tsx:869-885 | the backend's answer when it resolves; access when it rejects |
| Admin.AdminCheckFailsOpen | src/frontend/src/components/AdminPage.tsx:869-885 | access is refused iff the backend explicitly answers false |
| Admin.AdminGate.constructor | src/frontend/src/components/AdminPage.tsx:866-867 | not authed, not checking |
| Admin.AdminGate.HandlePinSuccess | src/frontend/src/components/AdminPage.tsx:869-885 | authed is `AdminAccess` of the answer; checking ends |
| Admin.TagAll | src/frontend/src/components/AdminPage.tsx:184-186 | every order gets the group's username, overriding its own field |
| Admin.FlattenMembership | src/frontend/src/components/AdminPage.tsx:184-186 | an order is in the flattened list iff it is some group's order tagged with that group's username |
| Admin.AllOrdersFlatIsTaggedAndSorted | src/frontend/src/components/AdminPage.tsx:184-186 | the list's length is the sum of the group sizes; it is newest-first, a permutation of the tagged orders, and holds exactly them |
| Admin.OrdersTab.Rows | src/frontend/src/components/AdminPage.tsx:184-186 | the tab's rows number the orders of all customers and are newest first |
| Admin.StatusActions | src/frontend/src/components/AdminPage.tsx:211-253 | accept and decline are offered iff the lower-cased status is "pending" |
| Admin.LastIndexOf | src/frontend/src/components/AdminPage.tsx:170 | the position found holds the character and no later one does; none exactly when the character is absent |
| Admin.OrderKeyInjective | src/frontend/src/components/AdminPage.tsx:170 | for non-negative ids, `username-id` names one order |
| Admin.NegativeIdsCanShareKey | src/frontend/src/components/AdminPage.tsx:170 | with a negative id two different orders can share a key |
| Admin.OrdersTab.constructor | src/frontend/src/components/AdminPage.tsx:150-152 | no groups, loading, nothing updating |
| Admin.OrdersTab.LoadOrders | src/frontend/src/components/AdminPage.tsx:154-166 | a resolved listing replaces the groups, a rejected one keeps them; loading ends |
| Admin.OrdersTab.HandleStatus | src/frontend/src/components/AdminPage.tsx:169-182 | marks `username-id`, makes one update call, reloads only after success, and clears the mark |
| Admin.AcceptedPriceIgnoresSuffix | src/frontend/src/components/AdminPage.tsx:319 | whatever follows an accepted price leaves it accepted |
| Admin.DigitPricesAccepted | src/frontend/src/components/AdminPage.tsx:319 | a price that starts with decimal digits is accepted, whatever follows |
| Admin.BlankPriceRefused | src/frontend/src/components/AdminPage.tsx:319 | an empty or all-whitespace price is refused |
| Admin.SaveRefusal | src/frontend/src/components/AdminPage.tsx:318-319 | a blank name first, then an unparsable price; none iff both pass |
| Admin.ProductSaveStep | src/frontend/src/components/AdminPage.tsx:317-339 | no call on a refusal or a throwing conversion; update for the edited product, otherwise create, with trimmed texts and the untrimmed category; saved iff that call resolves |
| Admin.ProductsTab.constructor | src/frontend/src/components/AdminPage.tsx:272-281 | the default form, nothing edited, form hidden |
| Admin.ProductsTab.ResetForm | src/frontend/src/components/AdminPage.tsx:298-302 | the defaults: category "game_account", available; nothing edited; form hidden |
| Admin.ProductsTab.OpenEdit | src/frontend/src/components/AdminPage.tsx:304-315 | copies the product's fields into the form and shows it |
| Admin.ProductsTab.HandleSave | src/frontend/src/components/AdminPage.tsx:317-339 | the outcome is `ProductSaveStep`'s; the form resets and the list reloads only on success |
| Admin.AddFeature | src/frontend/src/components/AdminPage.tsx:544-549 | a non-blank entry is appended trimmed and the input cleared; a blank one changes nothing |
| Admin.RemoveFeatureFrom | src/frontend/src/components/AdminPage.tsx:551-553 | filtering never lengthens the list |
| Admin.RemoveFeatureSpec | src/frontend/src/components/AdminPage.tsx:551-553 | removes exactly the entry at an in-range index, keeping the rest in order; an out-of-range index changes nothing |
| Admin.RemoveUndoesAdd | src/frontend/src/components/AdminPage.tsx:544-553 | removing the entry just added restores the list |
| Admin.PackageSaveStep | src/frontend/src/components/AdminPage.tsx:555-577 | as for products; the feature list is passed unchanged, and `isActive` only on update |
| Admin.SubscriptionsTab.constructor | src/frontend/src/components/AdminPage.tsx:499-508 | the default form, nothing edited, form hidden, feature input empty |
| Admin.SubscriptionsTab.ResetForm | src/frontend/src/components/AdminPage.tsx:525-530 | no features, active, nothing edited, hidden, feature input cleared |
| Admin.SubscriptionsTab.OpenEdit | src/frontend/src/components/AdminPage.tsx:532-542 | copies the package's fields and features into the form |
| Admin.SubscriptionsTab.EditNewFeature | src/frontend/src/components/AdminPage.tsx:632 | sets the feature input |
| Admin.SubscriptionsTab.AddFeatureToForm | src/frontend/src/components/AdminPage.tsx:544-549 | the form's features and input become `AddFeature`'s; the other fields stay |
| Admin.SubscriptionsTab.RemoveFeatureFromForm | src/frontend/src/components/AdminPage.tsx:551-553 | the form's features become `RemoveFeature`'s; the other fields stay |
| Admin.SubscriptionsTab.HandleSave | src/frontend/src/components/AdminPage.tsx:555-577 | the outcome is `PackageSaveStep`'s; the form resets and the list reloads only on success |
| App.Reply.AsOutcome | src/frontend/src/App.tsx:70-96 | a handler's reply resolves exactly when it returned a value |
| App.FromBackend | src/frontend/src/App.tsx:71-77 | a backend rejection propagates as the handler's failure |
| App.HandleRegister | src/frontend/src/App.tsx:69-73 | throws without an actor; succeeds iff registration and then the profile save succeed |
| App.HandleLoginLookup | src/frontend/src/App.tsx:75-78 | throws without an actor; otherwise the stored profile |
| App.HandlePlaceOrder | src/frontend/src/App.tsx:85-96 | "Not connected", then "Not logged in"; otherwise the order is placed under the profile's username with the request unchanged |
| App.HandleLoadOrders | src/frontend/src/App.tsx:105-108 | an empty list without an actor; otherwise the customer's orders |
| App.OrFallback | src/frontend/src/App.tsx:112-151 | with an actor the call itself; without one a resolved fallback value |
| App.NoActorNoAdmin | src/frontend/src/App.tsx:112 | with no actor the admin check answers false, so the panel stays locked |
| App.NoActorSavesLookSuccessful | src/frontend/src/App.tsx:114-117 | with no actor a valid product save reports success though nothing is stored |
| App.DashboardUsesIdLookup | src/frontend/src/App.tsx:251-261 | the dashboard, wired without the name-keyed handler, looks files up by the first matching product id, and an order's download section shows exactly when its lower-cased status is "accepted" |
| App.AppState.constructor | src/frontend/src/App.tsx:21-27 | loading, on "store", signed out, nothing selected, menu closed |
| App.AppState.CurrentView | src/frontend/src/App.tsx:154-294 | loading first; the admin panel iff the page is "admin" or the modal flag is set; a rendered detail, checkout or dashboard always has its data |
| App.AppState.NavbarShown | src/frontend/src/App.tsx:154-202 | the navigation bar shows exactly when loading is over, the modal flag is down and the page is not "admin" |
| App.AppState.FinishLoading | src/frontend/src/App.tsx:157 | the loading screen's completion hides it |
| App.AppState.Navigate | src/frontend/src/App.tsx:58-62 | sets the page and closes the menu |
| App.AppState.AdminNavigate | src/frontend/src/App.tsx:174-177 | leaving the admin panel clears the modal flag, then navigates |
| App.AppState.ToggleMenu | src/frontend/src/App.tsx:201 | flips the menu |
| App.AppState.Logout | src/frontend/src/App.tsx:80-83 | clears the profile |
| App.AppState.SetUserProfile | src/frontend/src/App.tsx:246 | sets the profile |
| App.AppState.ApplySelection | src/frontend/src/App.tsx:212-224 | records the selected product or item and navigates where the page says |
| App.AppState.HandleUpdateEmail | src/frontend/src/App.tsx:98-103 | returns at once without an actor or a profile; otherwise saves the profile with only the e-mail replaced, and adopts it only after success |
| App.AdminViewOnlyOnAdminPage | src/frontend/src/App.tsx:164 | since the flag is never raised, the admin panel shows exactly on the admin page |
| App.PagesHaveTheirData | src/frontend/src/App.tsx:230-281 | checkout and dashboard render with their data, or show their prompt |
| App.BuyNowReachesCheckout | src/frontend/src/App.tsx:213-238 | a signed-in buy-now renders the checkout for that product at its catalogue price |
| App.SignedOutBuyNowAsksToSignIn | src/frontend/src/App.tsx:212-248 | a signed-out buy-now renders the sign-in page and leaves the checkout item alone |
| App.MenuLogoutOnDashboard | src/frontend/src/App.tsx:80-83 | App's `handleLogout` alone, as the menu's Sign Out calls it, leaves the login prompt on the dashboard page |
| App.DashboardLogOutGoesToStore | src/frontend/src/components/DashboardPage.tsx:337-341 | the dashboard's own Log Out signs out and ends on the store |
| App.LogoutKeepsCheckout | src/frontend/src/App.tsx:230-237 | a logout while the checkout shows keeps it rendered for the same item, now without a profile |
| App.LogoutDuringCheckout | src/frontend/src/components/CheckoutPage.tsx:157-223 | after that logout, Apply refuses with "Please log in to use coupons" and Place Order sends nothing and ends on the sign-in page |
| App.SavedEmailDisablesSave | src/frontend/src/components/DashboardPage.tsx:343-358 | once the backend accepts a new address, App adopts it and the still-shown dashboard disables its save button; without an actor the page reports success and nothing is adopted |
| JsString.TrimEmptyIff | src/frontend/src/components/AuthPage.tsx:43-47 | `!x.trim()` holds exactly for all-whitespace strings |
| JsString.TrimIdempotent | src/frontend/src/components/CheckoutPage.tsx:158 | trimming twice is trimming once |
| JsString.ToLowerIdempotent | src/frontend/src/components/StorePage.tsx:57 | lower-casing twice is lower-casing once |
| JsString.ToUpperIdempotent | src/frontend/src/components/CheckoutPage.tsx:158 | upper-casing twice is upper-casing once |
| JsString.ToUpperKeepsWhitespace | src/frontend/src/components/CheckoutPage.tsx:497 | upper-casing keeps a string blank or non-blank |
| JsString.IncludesIff | src/frontend/src/components/StorePage.tsx:57 | `includes` holds exactly when the text occurs as a contiguous slice |
| JsString.NatToString | src/frontend/src/components/AdminPage.tsx:170 | the decimal digits of a non-negative `bigint`: never empty, no leading zero except for 0 |
| JsString.NatToStringRoundTrip | src/frontend/src/components/AdminPage.tsx:170 | reading the decimal digits back gives the number |
| JsString.IntToString | src/frontend/src/components/AdminPage.tsx:170 | `toString` of a `bigint`: digits for non-negative values, a minus sign then digits otherwise, both read back to the value and canonical (no leading zero, "0" only for zero) |

## Left out

- Floating-point money and dates: `formatPrice`, the two-decimal price text
  that `openEdit` puts in the form (a parameter here), `formatDate` and the
  membership expiry display.
- `parsePriceToPence` is a parameter returning an `Outcome`. A rejection
  stands for `BigInt` throwing on a non-finite value; `Math.round` of a float
  is not modelled.
- `Admin.ParsesAsNumber`: `parseFloat`'s accepted prefix is modelled by its
  first characters only. A sign, then "Infinity", a digit, or "." and a
  digit. Exponents and what follows the prefix do not change the verdict.
- Case mapping covers ASCII letters only. The pages compare against ASCII
  keywords, but a non-ASCII name is lower-cased differently in a browser.
- The admin payment-settings tab (`PaymentSettingsTab`) and product and
  package deletion (`handleDelete`) are not part of this model. They are
  backend pass-throughs with no client-side rule.
- The backend is not modelled: coupon usage limits, the order lifecycle and
  file storage. Each call is an abstract result.
- Async interleaving is not modelled: no stale-response guard, the mounted
  flag, or the `setTimeout` copied-field resets. Each handler is one
  sequential step.
- Browser I/O is not modelled: Blob, object URLs, the anchor download, the
  clipboard, scrolling, and clearing the identity provider on logout.
  `HandleDownload` returns the file it would save.
- Toast texts are modelled only where a result names them (coupon and
  registration messages). Other toasts are results without text.
- Input `maxLength` attributes, markup, styling and animation are not
  modelled.
- The navigation bar and the aurora menu are not modelled beyond what they
  call: the menu's Sign Out entry, handed down through the navigation
  bar, is App's `handleLogout` (`App.MenuLogoutOnDashboard`). The loading screen's timeline and audio
  are not modelled; only its completion is kept.
- The page props are the values App holds when a handler runs: the
  checkout and dashboard handlers take the current profile as a parameter
  (`App.LogoutDuringCheckout`, `App.SavedEmailDisablesSave`). Props that
  only seed a field at mount (the delivery e-mail, the e-mail input) are
  constructor arguments.
- `PinState` value `Entered` is declared in `AdminPage.tsx` but never set.
  It is kept in the datatype and unused.
- `App.AppState.ApplySelection`: a store button's two callbacks are applied
  as one step. React batches them, so nothing observable is lost.
- `Dashboard.StatusLabel`, `Dashboard.PaymentMethodLabel`: for a value that
  lower-cases to "constructor" or "__proto__", the lookup finds a member of
  `Object.prototype`. The model says so (`InheritedMember`, or an empty
  label), but not what React then renders. The `Object` function renders
  nothing; `Object.prototype` is an object, which React refuses to render.
