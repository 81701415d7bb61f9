# POS dashboard client: a verified model of its logic

This project models the client-side logic of a point-of-sale dashboard built with Next.js and React. It does not model the screens. It covers:

- **The offline sale queue** (`SyncService`). Sales that could not be posted are kept in one stored array. Each saved sale is stamped with a local `offline_<timestamp>` id. A later sync replays the queue head first against `POST /sales`, without the local id, and stops at the first failure.
- **The shopping cart** (`Cart`). It holds one line per product. Adding a product that is already in the cart increments its line. A quantity of zero or less removes the line. The total is the sum of price times quantity.
- **The stock-receiving page** (`ReceiveStock`). It keeps a list of products being received, builds the payload for `POST /products/receive-stock`, and validates the lines before posting.
- **Checkout** (`SalesCheckout`, `Checkout`, `CashTendered`, `SaleData`). This covers the customer search and the Pay button (Cash opens the tendered dialog, the other methods post at once). It also covers the sale payload, its JSON form, and the cash dialog's change and enable rule.
- **Forms and pages** (`ProductForm`, `UserForm`, `UsersPage`, `StoresPage`). This covers field-by-field validation, how submissions are shaped, guards on deletion (your own account, user 1, store 1), and the admin gates.
- **The session and the layout** (`Auth`, `Header`, `Sidebar`, `SalesColumns`). This covers the token and user store, avatar initials, the low-stock popover, the navigation links for each role, and the sale status badge and refund action.

## How each part is modelled

- Objects whose fields the source updates in place are classes. Their methods have `modifies` clauses, and their `ensures` clauses tie the new state to a specification function of the old state. These classes are `OfflineSaleQueue`, `CartStore`, `AuthStore`, `ReceiveStockPage`, `CashTenderedDialog`, `SalesTerminal`, `CheckoutPanel`, `ProductFormState`, `UserFormState`, `UsersPageState`, `StoresPageState` and `Notifications`. Pure logic is written as functions, with lemmas about them.
- Money and quantities are integers, taken to be minor units (cents). A `parseFloat` result is an `Option<int>`. `None` stands for NaN, and `|| 0` turns it into 0.
- The network, storage writes and thrown errors are inputs to the methods. For each request a method takes a success flag, the HTTP status, or the server's `message`. The sync loop takes one oracle for the post and one for the write after it. Both are indexed by the record's position in the queue.
- Alerts and toasts are returned as text, not shown.
- `Text` models the JavaScript string operations that are used: ASCII `toUpperCase` and `toLowerCase`, `includes`, `split(' ')` (which keeps empty pieces), `join`, `parseInt(…, 10)` and number-to-string conversion.
- `Keyed` holds the keyed-list operations that the cart and the receiving list share. These are filtering by id, mapping over one id, and keeping ids unique.
- The shapes posted to the API are datatypes: `SalePayload`, `StockPayload`, `ProductSubmission` and `UserSubmission`. The offline queue stores JSON objects (`Json.Record`), because `saveSaleForSync` accepts any value. `SaleData.ToRecord` encodes a sale payload as JSON, and `SaleData.FromRecord` decodes it.

## Model

| member | source | states |
|---|---|---|
| SyncService.Stamp | src/lib/syncService.ts:21-24 | the queued record has every field of the sale, plus an `id` of `offline_` followed by the timestamp; any `id` already there is overwritten |
| SyncService.StripId | src/lib/syncService.ts:61 | what is posted is the record without its `id`, with every other field unchanged |
| SyncService.StripStamp | src/lib/syncService.ts:21-61 | the local id added by saving is exactly what a sync removes, so a payload without an `id` reaches the server unchanged |
| SyncService.CompletedFrom | src/lib/syncService.ts:56-81 | the count of head records that complete is the position of the first failing step: every step before it succeeded |
| SyncService.CompletedFromIs | src/lib/syncService.ts:56-81 | that count is uniquely determined by where the first failure is |
| SyncService.SyncEmptyQueue | src/lib/syncService.ts:37-42 | an empty or missing queue gives true and posts nothing, even without a token |
| SyncService.SyncWithoutToken | src/lib/syncService.ts:45-49 | a non-empty queue with no token (or an empty one) gives false, posts nothing and keeps the stored queue |
| SyncService.SyncRemovesPrefix | src/lib/syncService.ts:56-84 | after a sync the stored queue is the original minus a prefix; that prefix, and at most one record after it, were posted head first without their ids; the result is true iff the queue is now empty |
| SyncService.SyncAllAccepted | src/lib/syncService.ts:56-84 | when every post and write succeeds, every record is posted in enqueue order, the queue ends empty and the result is true |
| SyncService.SyncStopsAtFirstFailure | src/lib/syncService.ts:71-81 | on the first failure at position n, the result is false and the stored queue is the original from n on; the failed record was posted and is still queued, so it will be posted again |
| SyncService.SyncResumes | src/lib/syncService.ts:36-85 | the records confirmed by one sync, followed by those a fully successful second sync posts, are the whole original queue in order, each once |
| SyncService.SavedSaleIsPostedUnchanged | src/lib/syncService.ts:18-85 | a checkout payload that is saved and then synced reaches the server as exactly its own JSON object |
| SyncService.OfflineSaleQueue.constructor | src/lib/syncService.ts:20 | nothing is stored yet, which reads as an empty queue |
| SyncService.OfflineSaleQueue.SaveSaleForSync | src/lib/syncService.ts:18-30 | a successful write stores the old queue with the stamped record appended at the end; a failed write is swallowed and leaves storage unchanged |
| SyncService.OfflineSaleQueue.SyncPendingSales | src/lib/syncService.ts:36-85 | the loop over index 0, with shift, re-persist, and break on failure, produces exactly the stored queue, posted records and result that SyncSpec gives |
| SyncService.OfflineSaleQueue.GetPendingSalesCount | src/lib/syncService.ts:90-93 | the length of the stored queue, and 0 when nothing is stored |
| Cart.TotalPriceAppend | src/store/cart.ts:66 | the total of two carts put together is the sum of their totals |
| Cart.TotalPriceIsLineSum | src/store/cart.ts:66 | the reduce equals the sum of `sellingPrice * quantity` over the lines taken from the front |
| Cart.TotalPriceUpdateAt | src/store/cart.ts:66 | replacing one line changes the total by exactly the difference of the two line totals |
| Cart.TotalPriceWithout | src/store/cart.ts:66 | dropping one line lowers the total by that line's total |
| Cart.AddNewProduct | src/store/cart.ts:31-34 | adding an absent product appends it with quantity 1; the cart stays valid and the total rises by its price |
| Cart.AddExistingProduct | src/store/cart.ts:23-30 | adding a product that is present increments only its line; the length and the other lines stay the same, ids stay unique, and the total rises by its price |
| Cart.IncrementedLineTotal | src/store/cart.ts:28 | incrementing a line adds one unit price to its line total |
| Cart.SetLineKeepsQuantities | src/store/cart.ts:52-54 | writing one line with a positive quantity keeps every quantity at least 1 |
| Cart.RemovePresentItem | src/store/cart.ts:39-42 | removing a present product deletes exactly its line and keeps the others in order; the cart stays valid and the total drops by that line |
| Cart.RemoveAbsentItem | src/store/cart.ts:41 | removing an absent id changes nothing |
| Cart.RemoveKeepsValid | src/store/cart.ts:41 | removal keeps ids unique and quantities at least 1 |
| Cart.SetNonPositiveQuantityRemoves | src/store/cart.ts:47-50 | setting a quantity of 0 or less is exactly `removeItem` |
| Cart.SetPositiveQuantity | src/store/cart.ts:51-55 | a positive quantity changes only the matching line's quantity; the cart stays valid and the total moves by price times the change |
| Cart.SetLineTotal | src/store/cart.ts:53 | a line's total changes by its price times the change in quantity |
| Cart.SetQuantityOfAbsentItem | src/store/cart.ts:51-55 | updating an absent id leaves the cart unchanged |
| Cart.ApplyKeepsValid | src/store/cart.ts:21-62 | each of add, remove, update-quantity and clear keeps ids unique and every quantity at least 1 |
| Cart.ActionsKeepValid | src/store/cart.ts:21-62 | any sequence of cart operations starting from a valid cart ends valid |
| Cart.CartStore.constructor | src/store/cart.ts:18 | the cart starts empty |
| Cart.CartStore.AddItem | src/store/cart.ts:21-36 | the new items are the add-or-increment of the old items |
| Cart.CartStore.RemoveItem | src/store/cart.ts:39-43 | the new items are the old ones without that id |
| Cart.CartStore.UpdateQuantity | src/store/cart.ts:46-57 | 0 or less delegates to removal, otherwise only the matching line's quantity is set |
| Cart.CartStore.ClearCart | src/store/cart.ts:60-62 | the cart becomes empty |
| Cart.CartStore.GetTotalPrice | src/store/cart.ts:65-67 | 0 for an empty cart, and in general the sum of the line totals |
| Auth.ProfileKeepsClaims | src/store/auth.ts:59-65 | the stored user's id is the `sub` claim, and the other claims are copied unchanged, so nothing is lost |
| Auth.AuthStore.constructor | src/store/auth.ts:48-49 | no token and no user at first |
| Auth.AuthStore.SetAuth | src/store/auth.ts:55-67 | the token is stored verbatim and the user is the profile built from the claims; nothing of the previous session remains |
| Auth.AuthStore.Logout | src/store/auth.ts:72-76 | the token and the user both become null |
| ReceiveStock.SelectKeepsIdsUnique | src/app/dashboard/inventory/receive-stock/page.tsx:71-82 | selecting a product that is already listed leaves the list unchanged; a new product is appended with quantity 1 and its cost price; ids stay unique |
| ReceiveStock.ItemUpdateAt | src/app/dashboard/inventory/receive-stock/page.tsx:87-94 | only the named field of the matching item changes, to the parsed value or 0; the length, the order and the other items stay the same |
| ReceiveStock.ItemUpdateAbsent | src/app/dashboard/inventory/receive-stock/page.tsx:89-93 | updating an id that is not listed changes nothing |
| ReceiveStock.ItemRemoveAt | src/app/dashboard/inventory/receive-stock/page.tsx:99-101 | removal deletes exactly the matching item, keeps the others in order, and keeps ids unique |
| ReceiveStock.BuildPayload | src/app/dashboard/inventory/receive-stock/page.tsx:120-127 | the items map one to one, in order, to product id, quantity received and batch cost |
| ReceiveStock.VendorSelectionRoundTrip | src/app/dashboard/inventory/receive-stock/page.tsx:121 | `"none"` gives a null vendor, and selecting a vendor (whose option value is its id as a string) gives that id |
| ReceiveStock.FirstProblemNoneIff | src/app/dashboard/inventory/receive-stock/page.tsx:130-141 | no validation problem iff every line has a quantity and a cost above 0 |
| ReceiveStock.ValidateLines | src/app/dashboard/inventory/receive-stock/page.tsx:130-141 | the `for` loop finds the first line with a quantity or cost of 0 or less, with its message, or none iff all lines are acceptable |
| ReceiveStock.ReceiveStockPage.constructor | src/app/dashboard/inventory/receive-stock/page.tsx:34-41 | no vendor (`"none"`), an empty list, no alert, not submitting |
| ReceiveStock.ReceiveStockPage.HandleProductSelect | src/app/dashboard/inventory/receive-stock/page.tsx:71-82 | closes the search popup and adds the product if it is absent |
| ReceiveStock.ReceiveStockPage.HandleItemUpdate | src/app/dashboard/inventory/receive-stock/page.tsx:87-94 | the list becomes the single-field update of the matching item |
| ReceiveStock.ReceiveStockPage.HandleItemRemove | src/app/dashboard/inventory/receive-stock/page.tsx:99-101 | the list becomes the old one without that id |
| ReceiveStock.ReceiveStockPage.HandleSubmit | src/app/dashboard/inventory/receive-stock/page.tsx:106-159 | an empty list or no user sets an error and posts nothing; a bad line posts nothing and resets `submitting`; success empties the list and resets the vendor to `"none"`; a failure shows the server's message; `submitting` is false afterwards |
| CashTendered.TenderedAmount | src/app/dashboard/sales/components/CashTenderedDialog.tsx:40 | the parsed amount, or 0 when the input is not a number |
| CashTendered.Summary | src/app/dashboard/sales/components/CashTenderedDialog.tsx:39-47 | change due plus total equals the amount tendered; confirm is disabled iff the change is negative, so paying exactly the total is allowed |
| CashTendered.DisplayedChange | src/app/dashboard/sales/components/CashTenderedDialog.tsx:107 | the change shown is never negative: it is the change when that is at least 0, and 0 otherwise |
| CashTendered.ExactTenderAccepted | src/app/dashboard/sales/components/CashTenderedDialog.tsx:45 | tendering exactly the total is accepted with 0 change; tendering less is refused |
| CashTendered.ShownChangeWhenEnabled | src/app/dashboard/sales/components/CashTenderedDialog.tsx:41-45 | whenever confirm is enabled, the change shown plus the total is the amount tendered |
| CashTendered.CashTenderedDialog.constructor | src/app/dashboard/sales/components/CashTenderedDialog.tsx:31-32 | an empty input and not submitting |
| CashTendered.CashTenderedDialog.ConfirmButtonDisabled | src/app/dashboard/sales/components/CashTenderedDialog.tsx:116 | disabled iff too little is tendered or a confirmation is in progress |
| CashTendered.CashTenderedDialog.SetAmountTendered | src/app/dashboard/sales/components/CashTenderedDialog.tsx:95 | typing replaces the input and nothing else |
| CashTendered.CashTenderedDialog.OnOpenChanged | src/app/dashboard/sales/components/CashTenderedDialog.tsx:50-55 | opening clears the input and the submitting flag; closing changes nothing |
| CashTendered.CashTenderedDialog.HandleConfirm | src/app/dashboard/sales/components/CashTenderedDialog.tsx:58-70 | when disabled it does nothing; otherwise it calls the confirmation once, and `isSubmitting` ends true unless the confirmation threw |
| SaleData.BuildSalePayload | src/app/dashboard/sales/components/temp.tsx:62-69 | one line per cart entry, in order, with only product id and quantity; the chosen method; `customerId` is null iff there is no customer or its id is the falsy 0 |
| SaleData.PayloadOfValidCart | src/app/dashboard/sales/components/temp.tsx:62-69 | the payload of a valid cart names each product once and sells at least one unit of each |
| SaleData.LinesRoundTrip | src/app/dashboard/sales/components/temp.tsx:65-68 | the JSON array of sale lines decodes back to the same lines |
| SaleData.RecordRoundTrip | src/app/dashboard/sales/components/temp.tsx:62-69 | the JSON object of a sale payload decodes back to the payload and has no `id` field |
| SalesCheckout.FilterMembers | src/app/dashboard/sales/components/temp.tsx:48-51 | a customer is listed iff it is one of the customers and its lower-cased name contains the lower-cased query or its phone contains the raw query |
| SalesCheckout.FilterAppend | src/app/dashboard/sales/components/temp.tsx:48-51 | filtering a concatenation is the concatenation of the filtered parts, so the kept customers stay in order with their repeats |
| SalesCheckout.FilterSingle | src/app/dashboard/sales/components/temp.tsx:48-51 | a one-customer list keeps that customer iff it matches; with FilterAppend this fixes the result for every list |
| SalesCheckout.EmptyQueryKeepsAll | src/app/dashboard/sales/components/temp.tsx:48-51 | an empty query keeps every customer |
| SalesCheckout.FilterIdempotent | src/app/dashboard/sales/components/temp.tsx:48-51 | filtering the filtered list again with the same query changes nothing |
| SalesCheckout.FailureAlert | src/app/dashboard/sales/components/temp.tsx:80-89 | `Sale Failed: ` followed by the server's text when it is non-empty, or the default text when there is none |
| SalesCheckout.SalesTerminal.constructor | src/app/dashboard/sales/components/temp.tsx:28-37 | no customer, Cash, an empty query, the dialog closed, not loading |
| SalesCheckout.SalesTerminal.FilteredCustomers | src/app/dashboard/sales/components/temp.tsx:48-51 | the customers shown are exactly those matching the current query |
| SalesCheckout.SalesTerminal.HandleFinalizeSale | src/app/dashboard/sales/components/temp.tsx:54-93 | an empty cart posts nothing; otherwise the payload is built from the cart; success clears the cart, the customer and the query and closes the dialog; failure keeps them; `loading` ends false |
| SalesCheckout.SalesTerminal.HandlePayButtonPress | src/app/dashboard/sales/components/temp.tsx:103-117 | an empty cart changes nothing; Cash opens the dialog without posting and keeps the cart, customer and query; any other method finalizes at once: it posts the cart's payload and ends not loading; success gives the success alert and clears the cart, the customer and the query and closes the dialog; failure gives the failure alert and keeps all of them |
| Checkout.FailureAlert | src/app/dashboard/sales/components/Checkout.tsx:72 | `Sale failed: ` followed by the message, which defaults to `Check console.` when it is missing or empty; a list prints joined by "," |
| Checkout.CheckoutPanel.constructor | src/app/dashboard/sales/components/Checkout.tsx:27-30 | no customer, Cash, not loading |
| Checkout.CheckoutPanel.HandleFinalizeSale | src/app/dashboard/sales/components/Checkout.tsx:48-76 | an empty cart posts nothing; the payload has the selected customer id and the cart lines in order; the cart and the customer are cleared only on success; `loading` ends false |
| Types.MessageText | src/app/dashboard/sales/components/temp.tsx:83-88 | the API error text: a list joined with the given separator (`", "` for `join`, `","` inside a template string), an empty list as "", a non-empty text as is, and a missing or empty text gives the default |
| Types.ItemPathNamesItem | src/app/dashboard/users/components/UserForm.tsx:82 | the record path is the collection, a slash and the id, and the id can be read back from it |
| Types.ItemPathInjective | src/app/dashboard/users/page.tsx:98 | different users, and likewise different stores, get different request paths, so a DELETE names exactly the pending record |
| ProductForm.WithChange | src/app/dashboard/inventory/components/ProductForm.tsx:44-50 | a number input gets the parsed value or 0, a text input its raw text, and no other field changes |
| ProductForm.ErrorsOf | src/app/dashboard/inventory/components/ProductForm.tsx:58-67 | a field has an error iff it fails its rule, and that error is the field's own message |
| ProductForm.KeyCount | src/app/dashboard/inventory/components/ProductForm.tsx:69 | the number of recorded errors is 0 iff no field has a message |
| ProductForm.NoErrorsIff | src/app/dashboard/inventory/components/ProductForm.tsx:69 | the error object is empty iff every field is without a message |
| ProductForm.AcceptedIff | src/app/dashboard/inventory/components/ProductForm.tsx:60-69 | valid iff name, SKU, category and vendor are non-empty and stock, price and cost are not negative (0 is accepted) |
| ProductForm.InitialFormErrors | src/app/dashboard/inventory/components/ProductForm.tsx:29-66 | the untouched form fails on exactly name, SKU, category and vendor |
| ProductForm.SubmissionOf | src/app/dashboard/inventory/components/ProductForm.tsx:79-82 | every field is sent unchanged except `supplierId`, which goes through base-10 `parseInt` |
| ProductForm.SelectedVendorSubmitted | src/app/dashboard/inventory/components/ProductForm.tsx:81 | choosing a vendor, whose option value is `String(vendor.id)`, submits that vendor's id |
| ProductForm.ProductFormState.constructor | src/app/dashboard/inventory/components/ProductForm.tsx:29-41 | the empty form, no errors, not loading |
| ProductForm.ProductFormState.HandleChange | src/app/dashboard/inventory/components/ProductForm.tsx:44-50 | the form becomes the single-field change |
| ProductForm.ProductFormState.HandleSelectChange | src/app/dashboard/inventory/components/ProductForm.tsx:53-55 | only `supplierId` changes |
| ProductForm.ProductFormState.ValidateForm | src/app/dashboard/inventory/components/ProductForm.tsx:58-70 | the step-by-step checks store exactly the errors `ErrorsOf` describes, and the result is true iff there are none |
| ProductForm.ProductFormState.HandleSubmit | src/app/dashboard/inventory/components/ProductForm.tsx:72-92 | an invalid form posts nothing; a valid one posts its submission; `onSuccess` runs only after a successful post; `loading` ends false |
| UserForm.ResetValues | src/app/dashboard/users/components/UserForm.tsx:44-64 | editing a user fills the form with a null email as "", a null store as `"none"` and an empty password; without a user the defaults apply, with role CASHIER |
| UserForm.StoreIdOf | src/app/dashboard/users/components/UserForm.tsx:78 | a missing, empty or `"none"` store is sent as null, and anything else as its base-10 parse |
| UserForm.SubmissionOf | src/app/dashboard/users/components/UserForm.tsx:72-78 | the password is dropped iff this is an edit and it is empty; all other values are copied; `storeId` is converted |
| UserForm.RequestFor | src/app/dashboard/users/components/UserForm.tsx:81-86 | an edit is a PATCH to `/users/` followed by the edited user's id, a creation a POST to `/users`, and both carry the submission |
| UserForm.UntouchedEditRoundTrip | src/app/dashboard/users/components/UserForm.tsx:44-78 | submitting an edit form untouched sends the user's own fields back, with no password and the same store |
| UserForm.UserFormState.constructor | src/app/dashboard/users/components/UserForm.tsx:32-42 | the default values and no field errors |
| UserForm.UserFormState.Reset | src/app/dashboard/users/components/UserForm.tsx:44-64 | the form holds the reset values and the field errors are cleared |
| UserForm.UserFormState.OnSubmit | src/app/dashboard/users/components/UserForm.tsx:66-97 | creating with an empty password sets only the password error; otherwise the shaped request is sent; success calls `onSuccess`; a 409 sets the username error; other failures alert |
| UsersPage.DeleteRefusal | src/app/dashboard/users/page.tsx:81-90 | a deletion is refused iff it targets one's own account or user 1; one's own account is checked first |
| UsersPage.ViewOf | src/app/dashboard/users/page.tsx:115-120 | the table is shown iff loading has finished and the logged-in role is ADMIN |
| UsersPage.UsersPageState.constructor | src/app/dashboard/users/page.tsx:32-36 | no form, no edited user, no pending deletion |
| UsersPage.UsersPageState.HandleSuccess | src/app/dashboard/users/page.tsx:65-69 | closes the form, clears the edited user and fetches again |
| UsersPage.UsersPageState.HandleAddNewClick | src/app/dashboard/users/page.tsx:71-74 | clears the edited user and opens the form |
| UsersPage.UsersPageState.HandleEditClick | src/app/dashboard/users/page.tsx:76-79 | sets the edited user and opens the form |
| UsersPage.UsersPageState.HandleDeleteClick | src/app/dashboard/users/page.tsx:81-93 | a refused user is not marked; otherwise the user becomes the pending deletion and the dialog opens; user 1 is never pending |
| UsersPage.UsersPageState.ConfirmDelete | src/app/dashboard/users/page.tsx:95-108 | with no pending user nothing happens; otherwise DELETE is sent for that user (never user 1); success fetches again; either way the dialog closes and the pending user is cleared |
| StoresPage.DeleteFailureToast | src/app/dashboard/stores/page.tsx:100-108 | on 409 or 400, the server's message or the "linked records" default; any other failure gets the generic text |
| StoresPage.ViewOf | src/app/dashboard/stores/page.tsx:120-130 | a fetch error is shown iff there is one; otherwise the loading text iff loading with no stores yet; otherwise access denied iff not loading and the role is not ADMIN; the table in every remaining case |
| StoresPage.NonAdminSeesDenial | src/app/dashboard/stores/page.tsx:120-130 | a non-admin sees the access-denied text, never the table |
| StoresPage.StoresPageState.constructor | src/app/dashboard/stores/page.tsx:18-24 | no stores, loading, no error, no form, no pending deletion |
| StoresPage.StoresPageState.FetchStores | src/app/dashboard/stores/page.tsx:29-44 | success replaces the list and clears the error; failure empties the list and records the load error; loading ends false |
| StoresPage.StoresPageState.OnRoleChanged | src/app/dashboard/stores/page.tsx:46-53 | only ADMIN fetches; any other role gets the access-denied error and no request |
| StoresPage.StoresPageState.HandleSuccess | src/app/dashboard/stores/page.tsx:56-61 | closes the form, clears the edited store and reloads |
| StoresPage.StoresPageState.HandleAddNewClick | src/app/dashboard/stores/page.tsx:64-68 | clears the edited store and opens the form |
| StoresPage.StoresPageState.HandleEditClick | src/app/dashboard/stores/page.tsx:73-77 | sets the edited store and opens the form |
| StoresPage.StoresPageState.HandleDeleteClick | src/app/dashboard/stores/page.tsx:82-90 | store 1 is refused and not marked; any other store becomes the pending deletion and the dialog opens |
| StoresPage.StoresPageState.ConfirmDelete | src/app/dashboard/stores/page.tsx:93-113 | with no pending store nothing happens; otherwise DELETE is sent (never for store 1); success reloads; failure shows its toast; either way the dialog closes and the pending store is cleared |
| Header.FirstChars | src/components/shared/Header.tsx:72 | at most one character per word |
| Header.GetInitials | src/components/shared/Header.tsx:70-73 | a null or empty name gives "??" |
| Header.WordStarts | src/components/shared/Header.tsx:72 | the reference reading: the non-space characters at the start of each word |
| Header.FirstCharsAreWordStarts | src/components/shared/Header.tsx:72 | splitting on spaces and taking first characters picks exactly the word starts; empty words contribute nothing |
| Header.InitialsAreWordStarts | src/components/shared/Header.tsx:70-73 | the initials of a non-empty name are its upper-cased word starts, at most one per character |
| Header.SpaceStartsWord | src/components/shared/Header.tsx:72 | the character after a space always starts a word |
| Header.DoubledSpaceIgnored | src/components/shared/Header.tsx:72 | doubling any space of a string leaves its word starts unchanged |
| Header.RepeatedSpacesIgnored | src/components/shared/Header.tsx:72 | for every name, a run of two spaces gives the same initials as one space |
| Header.LeadingSpaceIgnored | src/components/shared/Header.tsx:72 | a leading space adds no initial |
| Header.FirstItems | src/components/shared/Header.tsx:47 | at most ten items, the first ones, in order |
| Header.MoreCount | src/components/shared/Header.tsx:114-115 | the "more" line appears iff the count exceeds the items shown, and counts the difference |
| Header.MoreCountsHidden | src/components/shared/Header.tsx:114-115 | with the full list behind the count, "more" appears exactly past ten items and counts the hidden ones |
| Header.Notifications.constructor | src/components/shared/Header.tsx:33-35 | count 0, no items, loading |
| Header.Notifications.OnBellChanged | src/components/shared/Header.tsx:39-62 | only ADMIN and MANAGER fetch; a missing count becomes 0; the first ten items are kept; a failure leaves 0 and no items; never more than ten items are held |
| Sidebar.RoleOfName | src/components/shared/Sidebar.tsx:46 | a role string names one of the four link tables only when it is that role's name |
| Sidebar.RoleOfNameOfRole | src/components/shared/Sidebar.tsx:46 | each of the four role names finds its own table |
| Sidebar.RoleKey | src/components/shared/Sidebar.tsx:44 | no user, or an empty role, falls back to CASHIER |
| Sidebar.LinksFor | src/components/shared/Sidebar.tsx:44-46 | the links are the table of the user's role, and there is none for a role outside the four |
| Sidebar.DefaultIsCashier | src/components/shared/Sidebar.tsx:31-44 | without a user the links are POS Terminal and Customers, at `/dashboard/sales` and `/dashboard/customers` |
| Sidebar.StockSeesInventoryOnly | src/components/shared/Sidebar.tsx:35-37 | STOCK sees only Inventory |
| Sidebar.AdminAndManagerLinks | src/components/shared/Sidebar.tsx:10-30 | ADMIN has 10 links including Users and Audit Logs; MANAGER has 7 with neither of those and no Stock Report; every MANAGER link is also an ADMIN link |
| Sidebar.HrefsDistinct | src/components/shared/Sidebar.tsx:9-56 | within each role the hrefs are distinct, so at most one link is highlighted for any path |
| SalesColumns.StatusBadge | src/app/dashboard/sales-history/components/columns.tsx:38-42 | Completed gives default, Refunded gives destructive, and anything else gives outline |
| SalesColumns.CustomerCell | src/app/dashboard/sales-history/components/columns.tsx:61 | the customer's name, or "N/A" when there is no customer (or the name is empty) |
| SalesColumns.Actions | src/app/dashboard/sales-history/components/columns.tsx:88-101 | View Details always comes first and passes the sale id; Process Refund is offered iff the status is Completed |
| SalesColumns.RefundOnlyForDefaultBadge | src/app/dashboard/sales-history/components/columns.tsx:93-100 | a refund is offered exactly when the badge is default, and never for a refunded sale |
| Text.ParseIntToString | src/app/dashboard/users/components/UserForm.tsx:52-78 | base-10 `parseInt` of a number's decimal string gives the number back |
| Text.JoinSplit | src/components/shared/Header.tsx:72 | joining the pieces of `split` with the separator gives back the original string |

## Left out

- Storage and network I/O are inputs, not performed. This covers localforage, the axios instance and every GET/POST/PATCH/DELETE. A storage read that fails inside `saveSaleForSync` and `syncPendingSales` is not modelled. Only writes can fail in the model.
- Concurrency. `syncPendingSales` has no in-flight guard. The model runs one call at a time and claims nothing about overlapping syncs. The un-awaited `handleFinalizeSale` in `handlePayButtonPress` is likewise taken to run to completion.
- SyncService.Stamp: the timestamp is an arbitrary parameter. The model does not claim the `offline_` ids are unique, because they depend on the clock.
- Floating point and locale. Amounts are integers in minor units. `parseFloat` is represented by its result (`None` for NaN), so fractional inputs and rounding are not modelled. `Intl.NumberFormat` and `toLocaleString` are not modelled.
- Text.ToUpper and Text.ToLower map only ASCII letters. The JavaScript functions also map other Unicode letters.
- Text.IsSpace, Text.TrimStart and Text.ParseInt skip only space, tab, line feed and carriage return. JavaScript's `parseInt` also skips the other white-space characters (vertical tab, form feed, no-break space, byte-order mark, line and paragraph separators). The select values parsed in this model never start with those.
- Text.IntToString always prints plain decimal digits. JavaScript's `String(n)` uses exponent notation from an absolute value of 10^21 upwards. So Text.ParseIntToString, and the id round trips built on it, hold in JavaScript only below that bound.
- ReceiveStock.VendorIdOf parses the vendor id in base 10. `parseInt` without a radix would also accept a `0x` prefix, which the select's `String(vendor.id)` values never contain.
- Schema validation (zod), react-hook-form beyond `reset` and `setError`, and the zustand `persist` middleware are not modelled. `UserForm.OnSubmit` takes values that have already passed the schema.
- Rendering, icons, toasts beyond their text, routing after logout, and the success toast of the receive-stock page are not modelled.
- The fetch effects that only load lists (customers, vendors, products, users, the stores dropdown) are not modelled. `UsersPage` counts its refetches instead of performing them.
- The 2-second debounce in `AiRecommendationBox.tsx` is timer-driven and is not modelled.
- The thin CRUD forms and pages, the rendering-only files, and the single-condition role gates of the audit-log and stock-log pages are not modelled.
- Sidebar.LinksFor returns no links for a role outside the four keys. In the source this makes `links.map` throw, and the model does not represent that crash.
