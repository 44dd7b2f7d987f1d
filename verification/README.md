# Point-of-sale web application — a Dafny model of its core rules

The application is a small shop front-end with a few API routes. A cashier
searches products, fills a cart, and pays by cash, card or digital wallet.
The server records an order, its item rows and the new stock levels. Around
that sit:

- inventory, customer, user and order pages, each with a search filter and badges;
- three edit dialogs with form schemas;
- a login page with password login and one-time-code signup;
- an authentication provider that redirects between the login page and the app.

This project restates those rules as pure Dafny functions over immutable
records and proves what they promise.

What each module covers:

- **Cart store** (`PosStore`): the cart store's operations. A left fold over
  operations shows that every reachable cart keeps distinct ids and positive
  quantities.
- **Order placement** (`OrdersRoute`): a state transformer over a store. The
  store is a product map plus the order and item tables. A `DbBehaviour`
  parameter says which database writes fail, so every partial outcome is a
  provable fact.
- **Checkout** (`Checkout`): ties the point-of-sale page, the payment dialog
  and the order route together. It proves the tax inconsistency the code
  has: the page shows a tax of 10% of the subtotal, but hands
  `subtotal × 1.1` to checkout, and the server stores 10% of that. The
  stored tax is therefore 11% of the subtotal, and the order detail dialog
  later shows a subtotal of 99% of the real one.
- **Small rules and displays**: schemas, payload normalisation,
  redirects, the signup step machine, search filters, badges and initials.
  Each gets its own module, named after the file it comes from.

Shared modules:

- `Wrappers` holds `Option` and `Field`. `Field` keeps a missing JSON key
  (`Absent`) apart from an explicit `null`.
- `Text` holds ASCII case mapping, substring search and slicing.
- `Listing` holds filter and sort-by-name.
- `Records` and `Http` hold the table rows and the route responses.
- `Ui` holds badge variants and stock labels.

Money is `real`, stock and quantities are `int`, and strings are
sequences of characters.

Things that come from outside the application are parameters:

- the database's answers, the authentication service's answers and the
  fetched profile;
- whether an order request resolves;
- e-mail and URL well-formedness, as predicates.

## Model

| member | source | states |
|---|---|---|
| PosStore.Find | lib/store/pos-store.ts:33 | finds a line iff some line carries the id |
| PosStore.AddToCart | lib/store/pos-store.ts:31-44 | the product's id is in the result; ids are the old ones plus the product's; length grows only for a new id |
| PosStore.AddAbsentAppends | lib/store/pos-store.ts:39-42 | a new product appends exactly one line of quantity 1 at the end; the total rises by its price |
| PosStore.AddPresentIncrements | lib/store/pos-store.ts:33-38 | a present product raises only its own line's quantity by one; order and length are unchanged |
| PosStore.AddPresentTotal | lib/store/pos-store.ts:33-38 | adding a present product raises the total by its price |
| PosStore.AddTwiceToEmpty | lib/store/pos-store.ts:31-44 | adding one product twice to the empty cart gives one line of quantity 2 |
| PosStore.AddPreservesValid | lib/store/pos-store.ts:31-44 | adding keeps ids distinct and quantities positive |
| PosStore.RemoveFromCart | lib/store/pos-store.ts:46-50 | the id is gone and every other line is kept |
| PosStore.RemovePresent | lib/store/pos-store.ts:46-50 | removing a present id drops exactly its line and keeps the others in order |
| PosStore.RemovePresentTotal | lib/store/pos-store.ts:46-50 | removing a line lowers the total by that line's amount |
| PosStore.RemoveAbsent | lib/store/pos-store.ts:46-50 | removing an absent id changes nothing |
| PosStore.RemovePreservesValid | lib/store/pos-store.ts:46-50 | removing keeps the cart valid |
| PosStore.UpdateQuantity | lib/store/pos-store.ts:52-61 | a quantity of 0 or less is exactly removal; otherwise the products are kept and matching lines get the new quantity |
| PosStore.UpdatePresent | lib/store/pos-store.ts:58-60 | a positive quantity sets only the matching line |
| PosStore.UpdateAbsent | lib/store/pos-store.ts:52-61 | updating an absent id changes nothing |
| PosStore.UpdatePreservesValid | lib/store/pos-store.ts:52-61 | updating keeps the cart valid |
| PosStore.ClearCart | lib/store/pos-store.ts:63-65 | the cleared cart is valid, holds no id, and totals 0 |
| PosStore.TotalAppend | lib/store/pos-store.ts:67-69 | the total of a concatenation is the sum of the totals |
| PosStore.TotalReplace | lib/store/pos-store.ts:67-69 | replacing one line changes the total by the difference of the two amounts |
| PosStore.TotalExample | lib/store/pos-store.ts:67-69 | lines {5, 2} and {3, 1} total 13 |
| PosStore.RunPreservesValid | lib/store/pos-store.ts:31-65 | any sequence of operations keeps a valid cart valid |
| PosStore.ReachableCartsAreValid | lib/store/pos-store.ts:29-65 | every cart reachable from the empty cart is valid |
| OrdersRoute.NewOrder | app/api/orders/route.ts:11-17 | the order row's tax is a tenth of its total, status "completed", and customer and method are copied |
| OrdersRoute.ItemsFor | app/api/orders/route.ts:24-30 | one item row per cart line, in order, with the order id, product id, price and quantity; total price is unit price × quantity |
| OrdersRoute.WriteStock | app/api/orders/route.ts:37-40 | a stock write keeps the set of products |
| OrdersRoute.PlaceOrder | app/api/orders/route.ts:4-47 | success iff neither insert fails, with the new id as body; otherwise 500 "Failed to create order"; existing rows are kept |
| OrdersRoute.OrderRowWritten | app/api/orders/route.ts:9-17 | the persisted order carries the request's total, customer and method, a tenth of the total as tax, and status "completed" |
| OrdersRoute.ItemsWritten | app/api/orders/route.ts:24-33 | on success exactly one item row per line is appended, in cart order, tied to the new order |
| OrdersRoute.ItemsSumToCartTotal | app/api/orders/route.ts:24-30 | the item rows add up to the cart's subtotal |
| OrdersRoute.StockLoopFrame | app/api/orders/route.ts:36-41 | the stock loop changes only stock, and only of referenced products |
| OrdersRoute.StockLoopWrites | app/api/orders/route.ts:36-41 | each successful write sets the client-sent stock minus the quantity |
| OrdersRoute.StockAfterOrder | app/api/orders/route.ts:36-43 | after success each cart product's stock is the client-sent stock minus the quantity; other products and columns are unchanged |
| OrdersRoute.OrderInsertFailure | app/api/orders/route.ts:21 | a failed order insert writes nothing and answers 500 |
| OrdersRoute.ItemsInsertFailure | app/api/orders/route.ts:32-33 | a failed items insert leaves the order row, writes no items or stock, and answers 500 |
| OrdersRoute.StockFailuresIgnored | app/api/orders/route.ts:36-43 | stock write failures never change the response |
| OrdersRoute.NegativeStockWritten | app/api/orders/route.ts:39 | stock 1 with 2 ordered becomes -1 |
| OrdersRoute.StaleStockOverwrites | app/api/orders/route.ts:39 | two checkouts from the same listing (stock 10) selling 2 and 3 leave 7, not 5 |
| PaymentDialog.Submit | components/pos/payment-dialog.tsx:48-71 | submits, calls `onSuccess` iff the request resolves, and always ends with processing off |
| PaymentDialog.HandleCash | components/pos/payment-dialog.tsx:37-72 | refuses exactly an amount below the total, without submitting; otherwise submits as "cash"; on success the change is received − total ≥ 0 and the input is cleared |
| PaymentDialog.HandleCard | components/pos/payment-dialog.tsx:74-98 | submits cart and total as "card"; success only on resolution; processing ends off |
| PaymentDialog.HandleDigital | components/pos/payment-dialog.tsx:100-124 | submits cart and total as "digital"; success only on resolution; processing ends off |
| PaymentDialog.CashButtonDisabled | components/pos/payment-dialog.tsx:191 | enabled iff the input is filled in, covers the total, and nothing is processing |
| PaymentDialog.ChangePreview | components/pos/payment-dialog.tsx:181-187 | shown iff the input is filled in and covers the total; the change plus the total is the amount |
| PaymentDialog.EnabledCashButtonSubmits | components/pos/payment-dialog.tsx:39-58 | an enabled cash button always submits, and reports the change the preview showed |
| PaymentDialog.BlankCashPassesGuard | components/pos/payment-dialog.tsx:39 | a blank input disables the button, yet the handler's own guard lets it through with no change figure |
| PosPage.SearchProducts | app/pos/page.tsx:36-38 | a product is kept iff it is in the input and its name matches ignoring case or its barcode contains the term as typed; a barcode match alone keeps it; an empty term keeps all |
| PosPage.BarcodeMatchIsCaseSensitive | app/pos/page.tsx:37 | the barcode is matched as typed, so "AB1" misses barcode "ab1" |
| PosPage.CardBadge | app/pos/page.tsx:107 | `default` iff the stock label is "In Stock"; never `secondary` |
| PosPage.AddDisabled | app/pos/page.tsx:114 | disabled exactly when the stock is 0: a disabled button implies "Out of Stock", and an "Out of Stock" product with stock >= 0 is disabled |
| PosPage.NegativeStockStillAddable | app/pos/page.tsx:108-114 | negative stock reads "Out of Stock" yet can be added |
| PosPage.MinusOnLine | app/pos/page.tsx:157 | minus on quantity 1 removes the line; otherwise it decrements |
| PosPage.PlusIgnoresStock | app/pos/page.tsx:166 | plus raises the quantity past the stock |
| PosPage.CartSummary | app/pos/page.tsx:184-196 | the subtotal is the cart total, the tax a tenth of it, and subtotal + tax = total |
| PosPage.CheckoutTotal | app/pos/page.tsx:225 | the total handed to checkout is the displayed total |
| PosPage.PayButtonShown | app/pos/page.tsx:180 | the summary and Pay button show iff the cart is non-empty |
| PosPage.PayClicked | app/pos/page.tsx:40-42 | Pay opens the dialog and keeps the cart |
| PosPage.PaymentSucceeded | app/pos/page.tsx:227-230 | success clears the cart and closes the dialog |
| Checkout.Pay | app/pos/page.tsx:222-230 | the submission carries the cart and its checkout total; the cart clears iff the submission is stored; otherwise nothing on the page changes |
| Checkout.CardOrDigitalClearsCartIffStored | components/pos/payment-dialog.tsx:74-124 | a card or digital payment clears the cart iff both inserts succeed |
| Checkout.InsufficientCashChangesNothing | components/pos/payment-dialog.tsx:39-46 | a short cash amount touches neither tables nor page |
| Checkout.StoredFiguresAfterCheckout | app/api/orders/route.ts:14 | after checkout the stored total is 1.1 × subtotal, the stored tax 0.11 × subtotal against 0.1 × shown; the detail subtotal is 0.99 × subtotal; items sum to the subtotal |
| Checkout.ShownAndStoredTaxDiffer | app/pos/page.tsx:190 | for a non-zero subtotal the shown and stored taxes differ, and so do the two subtotals |
| Checkout.RetryAfterItemsFailureDuplicatesOrder | app/api/orders/route.ts:32-33 | after an items failure the cart is kept; paying again stores a second order for the same sale |
| OrderDetailDialog.PaymentIcon | components/orders/order-detail-dialog.tsx:19-30 | cash, card and digital icons iff the lower-cased method is that word; a fallback otherwise |
| OrderDetailDialog.Subtotal | components/orders/order-detail-dialog.tsx:32 | subtotal + tax = total |
| OrderDetailDialog.StatusBadge | components/orders/order-detail-dialog.tsx:98 | `default` iff the status is exactly "completed", else `secondary` |
| OrderDetailDialog.ProductLabel | components/orders/order-detail-dialog.tsx:129 | the product name, or "Unknown Product" when missing or empty |
| OrderDetailDialog.CreatorLabel | components/orders/order-detail-dialog.tsx:74 | the creator's name, or "System Admin" |
| OrderDetailDialog.CustomerLabel | components/orders/order-detail-dialog.tsx:84-91 | the customer's name, or "Walk-in Customer" |
| OrderDetailDialog.ItemLabels | components/orders/order-detail-dialog.tsx:125-142 | one label per item in order; no item list gives the "No items found" row |
| OrderDetailDialog.Render | components/orders/order-detail-dialog.tsx:17-165 | renders iff there is an order; shown subtotal + tax = total, with the stored total and tax |
| OrdersPage.PaymentColor | app/orders/page.tsx:19-30 | green, primary or purple iff the lower-cased method is cash, card or digital |
| OrdersPage.StatusColor | app/orders/page.tsx:32-43 | ignoring case: completed gives `default`, cancelled `destructive`, anything else `secondary` |
| OrdersPage.ClassifiersIgnoreCase | app/orders/page.tsx:20-33 | lower-casing the input never changes a colour |
| OrdersPage.ColorAgreesWithIcon | app/orders/page.tsx:19-30 | the list colour and the detail icon classify every method alike |
| OrdersPage.StatusBadgesDisagree | app/orders/page.tsx:32-43 | "Completed" and "cancelled" get different badges in the list and in the detail dialog |
| OrdersPage.SearchOrders | app/orders/page.tsx:63-69 | kept iff the term occurs, ignoring case, in id, method, customer or creator name; an empty term keeps all |
| OrdersPage.RevenueAppend | app/orders/page.tsx:96 | revenue adds up over any split of the orders |
| OrdersPage.RevenueSingleton | app/orders/page.tsx:96 | one order's revenue is its `total_amount` |
| OrdersPage.SummaryCards | app/orders/page.tsx:96-115 | the count is the number of all orders; revenue is the sum of `total_amount` over all orders (the fold, pinned down by `RevenueSingleton` and `RevenueAppend`) and is non-negative when every total is |
| OrdersPage.RevenueNonNegative | app/orders/page.tsx:96 | non-negative totals give non-negative revenue |
| OrdersPage.ItemCount | app/orders/page.tsx:229 | the number of items, or 0 without an item list |
| OrdersPage.ItemWord | app/orders/page.tsx:229-230 | "item" iff the count is 1, otherwise "items" |
| OrdersPage.ShortId | app/orders/page.tsx:205 | the last eight characters (or all), upper-cased |
| InventoryPage.SearchInventory | app/inventory/page.tsx:28-32 | kept iff name or category contains the term, ignoring case; an empty term keeps all |
| InventoryPage.NameMatchesAgree | app/inventory/page.tsx:28-32 | a name match is found by both this search and the point-of-sale one |
| InventoryPage.BarcodeCell | app/inventory/page.tsx:115 | the barcode, or "N/A" when missing or empty |
| InventoryPage.TableBadge | app/inventory/page.tsx:123-128 | `default`, `secondary`, `destructive` iff in stock, low, out |
| InventoryPage.TableAndCardBadges | app/inventory/page.tsx:124 | table and card badges agree except for low stock |
| CustomersPage.SearchCustomers | app/customers/page.tsx:32-37 | kept iff name or e-mail contains the term ignoring case, or the phone contains it as typed; an empty term keeps all |
| CustomersPage.NameAndEmailIgnoreCase | app/customers/page.tsx:34-35 | a name or e-mail match is found whatever the term's case |
| CustomersPage.StatusBadge | app/customers/page.tsx:129 | `default` iff the status is exactly "active" |
| CustomersPage.AvatarLetter | app/customers/page.tsx:112 | the upper-cased first character, empty for an empty name |
| CustomersPage.ShortId | app/customers/page.tsx:116 | a prefix of the id, at most eight long |
| UsersPage.SearchProfiles | app/users/page.tsx:32-36 | kept iff a present name or role contains the term, ignoring case; nothing without either |
| UsersPage.EmptyTermKeepsNamedOrRoled | app/users/page.tsx:34-35 | an empty term keeps exactly the profiles with a name or role |
| UsersPage.RoleBadge | app/users/page.tsx:121 | `default` iff the role is exactly "admin" |
| UsersPage.AvatarLetter | app/users/page.tsx:111 | the upper-cased first character of a non-empty name, else "U" |
| Navigation.Split | components/layout/navigation.tsx:35-36 | at least one piece, none containing a space |
| Navigation.JoinSplit | components/layout/navigation.tsx:35-36 | joining the pieces with spaces gives the name back |
| Navigation.WordStarts | components/layout/navigation.tsx:34-39 | the word-starting characters: no spaces, never longer than the name |
| Navigation.HeadsOfSplit | components/layout/navigation.tsx:35-38 | split, first characters and join give exactly the word-starting characters |
| Navigation.Initials | components/layout/navigation.tsx:34-40 | a truthy name gives its upper-cased word initials; else the e-mail's first letter; else "U" |
| Navigation.BlankNameHasNoInitials | components/layout/navigation.tsx:34-39 | a name of spaces gives no initials |
| Navigation.InitialsExample | components/layout/navigation.tsx:34-39 | "ab  c" gives "AC" |
| Navigation.Render | components/layout/navigation.tsx:32-98 | renders iff there is a user; the initials come from the profile's full name and the user's e-mail; a link is highlighted iff the path equals its href |
| Navigation.AtMostOneActive | components/layout/navigation.tsx:20-26 | the five hrefs are distinct, so at most one link is active |
| AuthProvider.OnSession | components/auth/auth-provider.tsx:64-83 | the user becomes the session's, and loading ends |
| AuthProvider.ReportsSettleSession | components/auth/auth-provider.tsx:36-83 | loading lasts exactly until the first report; the user is the latest report's |
| AuthProvider.RedirectFor | components/auth/auth-provider.tsx:93-107 | no redirect while loading; to login iff no user off login and auth pages; home iff a user on exactly "/login" |
| AuthProvider.RedirectsExclusive | components/auth/auth-provider.tsx:95-103 | no state fires both redirects |
| AuthProvider.RedirectSettles | components/auth/auth-provider.tsx:93-107 | following a redirect lands where none fires |
| AuthProvider.ProfileQueryEnabled | components/auth/auth-provider.tsx:55 | enabled iff there is a user |
| AuthProvider.ProfileOf | components/auth/auth-provider.tsx:46-59 | no profile without a user or with an empty id; otherwise the lookup's answer |
| AuthProvider.ContextValue | components/auth/auth-provider.tsx:109-112 | loading is session loading or profile loading |
| AuthProvider.RedirectIgnoresProfileLoading | components/auth/auth-provider.tsx:101-109 | a user on the login page is sent home while the exposed flag still says loading |
| LoginPage.LoginErrors | app/login/page.tsx:18-21 | valid iff the e-mail is well formed and the password has at least 6 characters |
| LoginPage.SignupErrors | app/login/page.tsx:29-32 | valid iff the e-mail is well formed and the full name has at least 2 characters |
| LoginPage.OtpLoginErrors | app/login/page.tsx:24-26 | valid iff the e-mail is well formed |
| LoginPage.OtpErrors | app/login/page.tsx:35-37 | valid iff exactly 6 characters |
| LoginPage.OtpChecksLengthOnly | app/login/page.tsx:35-37 | "abcdef" passes; a 5-character code fails |
| LoginPage.Describe | app/login/page.tsx:92-96 | the error's message, or the fallback when it is empty |
| LoginPage.Finish | app/login/page.tsx:76-99 | loading is on during the call and off afterwards |
| LoginPage.HandleLogin | app/login/page.tsx:75-100 | goes home iff no error; state otherwise unchanged; loading ends off |
| LoginPage.HandleSendOtpLogin | app/login/page.tsx:103-130 | the code form shows and the e-mail is remembered only after a successful send |
| LoginPage.HandleVerifyOtpLogin | app/login/page.tsx:133-159 | verifies against the remembered e-mail; goes home iff no error |
| LoginPage.HandleSignup | app/login/page.tsx:162-213 | no error moves to the code step with the e-mail; the three phrases give the registered toast, others the generic one; the step stays on error |
| LoginPage.HandleVerifySignupOtp | app/login/page.tsx:216-242 | verifies against the remembered signup e-mail; goes home iff no error |
| LoginPage.ResetOtpLogin | app/login/page.tsx:244-249 | clears the sent flag and e-mail, nothing else |
| LoginPage.ResetSignup | app/login/page.tsx:251-256 | returns to the input step and clears the e-mail, nothing else |
| LoginPage.OnlySuccessfulSignupAdvances | app/login/page.tsx:195-198 | from the input step, only an error-free signup reaches the code step |
| LoginPage.RunStaysSettled | app/login/page.tsx:46-256 | between handler runs nothing loads, and a remembered e-mail exists only with its code form |
| LoginPage.ReachableStatesSettled | app/login/page.tsx:46-256 | every state reachable from the initial one is settled |
| LoginPage.SignupThenResetRestores | app/login/page.tsx:195-256 | signup then reset returns to the initial state |
| ProductDialog.Errors | components/inventory/product-dialog.tsx:20-27 | one error per failed check: name, price ≥ 0.01, category, stock ≥ 0 |
| ProductDialog.OptionalFieldsIgnored | components/inventory/product-dialog.tsx:25-26 | barcode and image never affect validity |
| ProductDialog.EmptyFormRejected | components/inventory/product-dialog.tsx:20-27 | a reset form fails all four required checks |
| ProductDialog.Prefill | components/inventory/product-dialog.tsx:57-72 | copies the product with barcode defaulting to "" and image to null; resets without one |
| ProductDialog.PrefillOfSoundProductIsValid | components/inventory/product-dialog.tsx:57-66 | a sound stored product prefills a valid form |
| ProductDialog.ClearImage | components/inventory/product-dialog.tsx:91-94 | image value and preview become null; nothing else changes |
| ProductDialog.ImageChosen | components/inventory/product-dialog.tsx:74-89 | a file's data URL becomes value and preview; no file is the same as clearing |
| ProductDialog.Payload | components/inventory/product-dialog.tsx:151-152 | the form data with a falsy image key deleted; validity unchanged |
| ProductDialog.PayloadNormalised | components/inventory/product-dialog.tsx:151-152 | normalising is idempotent; a cleared image never reaches the payload |
| ProductDialog.Submit | components/inventory/product-dialog.tsx:148-159 | nothing for an invalid form; an update of the product's id iff one is edited, else a create |
| ProductDialog.MutationSucceeded | components/inventory/product-dialog.tsx:110-113 | success closes the dialog and clears form and preview |
| ProductDialog.CategoriesWiderThanOffered | components/inventory/product-dialog.tsx:224-227 | the four offered categories pass, and so does any other non-empty one |
| UserDialog.Errors | components/users/user-dialog.tsx:20-24 | name and role required; the avatar may be missing, null, "" or a URL |
| UserDialog.Prefill | components/users/user-dialog.tsx:54-66 | copies the profile with name defaulting to "", role to "admin", avatar to null; resets without one |
| UserDialog.PrefillRoleAlwaysSet | components/users/user-dialog.tsx:56-58 | a prefilled role always passes; a nameless profile prefills an invalid name |
| UserDialog.AvatarChosen | components/users/user-dialog.tsx:68-83 | a file's data URL becomes avatar value and preview; no file is the same as clearing |
| UserDialog.ClearAvatar | components/users/user-dialog.tsx:85-88 | avatar value and preview become null |
| UserDialog.Payload | components/users/user-dialog.tsx:119-123 | a falsy avatar becomes an explicit null; the key is kept |
| UserDialog.PayloadKeepsValid | components/users/user-dialog.tsx:119-123 | normalising keeps a valid form valid |
| UserDialog.FalsyImageHandledDifferently | components/users/user-dialog.tsx:121-122 | a null avatar is sent as null, a null product image is deleted |
| UserDialog.Submit | components/users/user-dialog.tsx:117-129 | an update of the profile's id iff there is a profile and the form is valid; never a create |
| UserDialog.UpdateSucceeded | components/users/user-dialog.tsx:104-106 | success closes the dialog and keeps the form |
| CustomerDialog.Errors | components/customers/customer-dialog.tsx:15-19 | name and phone required, e-mail well formed |
| CustomerDialog.Prefill | components/customers/customer-dialog.tsx:83-91 | copies name, e-mail and phone, or resets |
| CustomerDialog.PrefillValidity | components/customers/customer-dialog.tsx:83-91 | a sound customer prefills a valid form; a reset form fails every check |
| CustomerDialog.Submit | components/customers/customer-dialog.tsx:93-99 | nothing for an invalid form; an update of the customer's id iff one is edited, else a create, with the data unchanged |
| CustomerDialog.MutationSucceeded | components/customers/customer-dialog.tsx:51-52 | success closes the dialog and resets the form |
| CustomerDialog.UnchangedEditResubmits | components/customers/customer-dialog.tsx:83-99 | an unchanged edit submits an update of exactly the stored fields |
| ListRoute.ListByName | app/api/products/route.ts:19-33 | rows in name order, same multiset; `[]` for no data; 500 without details iff the store fails |
| ListRoute.ListedInNameOrder | app/api/customers/route.ts:6 | an earlier row's name never comes after a later row's |
| ProductsRoute.InsertData | app/api/products/route.ts:47-54 | name, price, category and stock copied; a falsy barcode becomes null; the image key is present iff truthy |
| ProductsRoute.OtherFieldsDropped | app/api/products/route.ts:47-54 | other body fields never reach the insert; no id or timestamp key |
| ProductsRoute.Post | app/api/products/route.ts:35-75 | sends the insert payload; the created row, or 500 "Failed to create product" with the message |
| ProductsRoute.Get | app/api/products/route.ts:19-33 | all rows in name order, `[]` for no data, 500 "Failed to fetch products" without details |
| ProductsRoute.OnlyPostReportsDetails | app/api/products/route.ts:31-72 | a failing POST reports details, a failing GET does not |
| CustomersRoute.InsertData | app/api/customers/route.ts:25-34 | name, e-mail and phone copied; 0 orders, 0 spent, status "active" |
| CustomersRoute.DefaultsOverrideBody | app/api/customers/route.ts:28-33 | bodies agreeing on name, e-mail and phone give the same insert |
| CustomersRoute.Post | app/api/customers/route.ts:20-55 | sends the insert; the created row, or 500 "Failed to create customer" with the message |
| CustomersRoute.Get | app/api/customers/route.ts:4-18 | all rows in name order, `[]` for no data, 500 "Failed to fetch customers" without details |
| Text.Lower | app/orders/page.tsx:20 | same length, each character lower-cased |
| Text.Contains | app/pos/page.tsx:37 | true iff the needle occurs at some position |
| Listing.Filter | app/pos/page.tsx:36-38 | keeps exactly the elements that pass, never more than the input |
| Listing.SortBy | app/api/products/route.ts:21 | the result is sorted by key and is a permutation of the input |
| Ui.StockLabelOf | app/pos/page.tsx:108 | "In Stock" above 10, "Low Stock" for 1 to 10, "Out of Stock" otherwise |

## Left out

- Network, database and authentication calls. Their answers are
  parameters: the new order id, which inserts and writes fail, the session
  user, the fetched profile, and the sign-in and one-time-code results.
  `lib/api` and the Supabase clients are not part of this model.
- Real-time subscriptions, query caching and invalidation, the periodic
  refetch, the realtime hooks, and the payment gateway route.
- The users route and the orders `GET` route: neither is part of this model.
- Concurrency between requests. Two checkouts are modelled one after
  another; `OrdersRoute.StaleStockOverwrites` shows the lost update this
  allows.
- The cart's persistence to browser storage under "pos-cart-storage"
  (`persist` in lib/store/pos-store.ts). The cart is modelled in memory only.
- The selected-file state of the product and user dialogs, and the file
  reading itself: the data URL is a parameter.
- Timestamps and the `created_by` column. The database fills them in.
- Floating point, `toFixed` rounding and `Number()` on strings. Money is
  an exact real.
- PaymentDialog.HandleCash: `parseFloat` of non-numeric text is not
  modelled. The input is either blank (NaN) or a number, and
  `parseFloat`'s prefix parsing ("12abc" reads as 12) is left out.
- ProductsRoute.InsertData: the body's price and stock are taken as
  numbers already, so `Number()` of a string is not modelled.
- The e-mail and URL regular expressions of the schemas. They are
  parameter predicates.
- Case mapping covers ASCII letters only. The database's collation for
  `order("name")` is modelled as code-point order.
- React rendering details: markup, toasts' wording beyond the fields
  modelled, icons, the sign-out button, the mobile sheet, and the
  password-visibility toggle.
- The one-time-code login tab is commented out in the rendered page. Its
  handlers and state are modelled anyway.
- Navigation's `IsActive` and the payment dialog's card and digital
  buttons (disabled only while processing) carry no separate contract;
  `Navigation.Render` states the active-link rule.
