# Garage console list screens and service composer, in Dafny

This project models the client-side logic of a garage management console's
three list screens (customers, stock items, service records) and of the
service composer that builds a service record out of stock line items.

- **List-view controller** (`ListViews.ListView<T>`). Each screen repeats the
  same controller: the fetched list, a case-insensitive search over two or
  three fields, pages of 10 entries, a row of at most 5 page buttons,
  previous/next/go-to navigation, a create/edit modal with a working copy,
  and a delete guarded by a truthy id and a confirmation. The three copies
  differ only in the match predicate, the id accessor and the blank entity,
  which become the class's constants. `Customers`, `Stocks` and `Servicing`
  instantiate the class and add what differs per screen: the match predicate
  and each screen's own save behaviour.
- **Service composer** (`Servicing.ServicingPage`, specified by `LineItems`).
  It maintains the ordered line items of the service being edited.
  Selecting a stock merges it into its existing line or appends a new line.
  A quantity change drops a line that reaches 0. A line can be removed. The
  grand total and the record's total cost are recomputed after every change
  as the sum of price × quantity.
- **Supporting pure parts.** `Text` covers lower-casing, trimming and substring
  search. `Filtering` is the order-preserving filter. `Paging` covers the page
  count, the page slice and the page-button window. `Entities` holds the
  records.

Gateway responses and confirmation answers are parameters of the methods: a
response is `Some(list)` on success and `None` on failure; `confirmed`,
`saved` and `deleted` are booleans. A method call stands for the request and
its callback together.

Behaviour kept exactly as the code has it:
- The page count is `ceil(n / 10)`. It is 0 for an empty filtered list, although the field starts at 1.
- Nothing clamps `currentPage`. `goToPage` assigns any number. A page below 1 gets `Array.prototype.slice`'s negative-index handling: page 0 is empty, and page −1 shows entries counted back from the end.
- Ids are tested for truthiness, so an id of 0 counts as no id, the same as an absent one.
- `updateQty` and `removeStock` do no bounds check, so the index is a precondition. Out of range, `updateQty` would fail on the missing line. `removeStock`'s `splice(index, 1)` would do nothing for an index past the end and would count a negative index back from the end. Those calls are not modelled.
- The customers screen closes its modal whatever the save outcome; the stocks screen closes it only on success.
- `prevPage` and `nextPage` compare against the stored page count, which is only as fresh as the last recompute. With a stale count they can leave the page range. On the servicing screen, the load at servicing.ts:88 leaves the count stale. Take 30 records on page 2, then a reload of 5 records: `nextPage` then lands on page 3 of 1.

## Model

| member | source | states |
|---|---|---|
| `Text.Lower` | src/app/pages/customers/customers.ts:87 | lower-casing keeps the length, turns each ASCII capital into its small letter (code + 32), leaves no upper-case letter and changes nothing else |
| `Text.LowerIdempotent` | src/app/pages/customers/customers.ts:91 | lower-casing an already lower-cased field changes nothing |
| `Text.TrimSlice` | src/app/pages/customers/customers.ts:87 | `trim` returns the piece of the input between two runs of white space, with no white space at its ends |
| `Text.TrimEmptyIff` | src/app/pages/customers/customers.ts:88 | the trimmed term is empty (falsy) exactly when the input is white space only |
| `Text.ContainsIff` | src/app/pages/customers/customers.ts:91-93 | `includes` holds exactly when the term occurs at some position of the field |
| `Text.ContainsEmpty` | src/app/pages/servicing/servicing.ts:130-133 | every field contains the empty term, which is why a blank term is tested first |
| `Filtering.Select` | src/app/pages/stocks/stocks.ts:92-96 | the filter keeps at most the input's entries, and only matching ones |
| `Filtering.SelectExactly` | src/app/pages/stocks/stocks.ts:92-96 | the filter keeps exactly the matching entries, with their multiplicities, as an order-preserving subsequence |
| `Filtering.SearchSpec` | src/app/pages/stocks/stocks.ts:89-97 | a blank normalized term keeps the list unchanged; any other term keeps, in order, exactly the matching entries, each as often as it occurs in the list |
| `Paging.TotalPages` | src/app/pages/stocks/stocks.ts:110 | the page count is the least t with n ≤ 10t, and it is 0 exactly for an empty list |
| `Paging.PageSlice` | src/app/pages/stocks/stocks.ts:111-113 | a page holds at most 10 entries; page p ≥ 1 is the run from (p−1)·10 to min(10p, n), and it is empty exactly when (p−1)·10 ≥ n |
| `Paging.PageNonEmptyIff` | src/app/pages/stocks/stocks.ts:110-113 | for p ≥ 0, page p is non-empty exactly when 1 ≤ p ≤ the page count |
| `Paging.ItemOnItsPage` | src/app/pages/stocks/stocks.ts:110-113 | entry i is shown at position i mod 10 of page i div 10 + 1, and that page is within the page count |
| `Paging.WindowStart` | src/app/pages/stocks/stocks.ts:120 | the window starts at 1 plus a multiple of 5, at most 4 below the current page |
| `Paging.VisiblePages` | src/app/pages/stocks/stocks.ts:118-123 | the buttons are consecutive numbers from the window start, at most 5, none above the page count, empty exactly when the start exceeds it, and include the current page exactly when it does not exceed the page count |
| `Paging.TwentyThreeEntries` | src/app/pages/customers/customers.ts:108-111 | 23 entries give 3 pages; page 3 holds the last 3, and the buttons are 1, 2, 3 |
| `ListViews.ListView.constructor` | src/app/pages/customers/customers.ts:24-36 | a screen starts with an empty list, page 1 of 1, no modal, and the blank working copy |
| `ListViews.ListView.Filtered` | src/app/pages/customers/customers.ts:86-95 | the filtered list never holds more entries than the list |
| `ListViews.ListView.VisiblePageNumbers` | src/app/pages/customers/customers.ts:115-120 | at most 5 buttons, none above the page count, none below 1 from a page ≥ 1; the current page is among them exactly when it does not exceed the page count |
| `ListViews.ListView.UpdatePaginated` | src/app/pages/customers/customers.ts:97-113 | the page count and the shown page agree with the list, the search term and the unclamped current page |
| `ListViews.ListView.GoToPage` | src/app/pages/customers/customers.ts:122-125 | the current page becomes the argument, unchecked, and the page is recomputed |
| `ListViews.ListView.PrevPage` | src/app/pages/customers/customers.ts:127-132 | one page back only from above page 1, a no-op otherwise; from a synced view (page count and page recomputed for the current list and term), a page within [1, totalPages] stays within it |
| `ListViews.ListView.NextPage` | src/app/pages/customers/customers.ts:134-139 | one page on only from below the page count, a no-op otherwise; from a synced view (page count and page recomputed for the current list and term), a page within [1, totalPages] stays within it |
| `ListViews.ListView.Load` | src/app/pages/customers/customers.ts:65-83 | success replaces the list and recomputes the page; failure leaves the list and the page as they were; loading ends either way |
| `ListViews.ListView.OpenModal` | src/app/pages/customers/customers.ts:142-153 | the modal shows; edit mode holds exactly when an entity is given; the working copy equals it or is the blank entity |
| `ListViews.ListView.CloseModal` | src/app/pages/customers/customers.ts:155-160 | the modal is hidden |
| `ListViews.ListView.Delete` | src/app/pages/customers/customers.ts:193-206 | confirmation is asked only for a truthy id; a request goes out only for a truthy id that was confirmed; only a successful delete reloads the list |
| `Customers.NewCustomersView` | src/app/pages/customers/customers.ts:24-36 | the customers screen searches customers, reads their id and starts with an empty list and page, a blank search term, page 1 of 1, nothing loading, the modal hidden, not in edit mode, and the blank customer with four empty strings |
| `Customers.SearchCustomers` | src/app/pages/customers/customers.ts:86-95 | a blank term keeps the list; otherwise exactly the customers whose name, email or vehicle number contains the term, ignoring case, in order, each as often as in the list |
| `Customers.SaveCustomer` | src/app/pages/customers/customers.ts:163-185 | update of the working copy's id in edit mode, create otherwise; the modal closes whatever the outcome; only success reloads |
| `Stocks.NewStocksView` | src/app/pages/stocks/stocks.ts:27-39 | the stocks screen searches stock items and starts with an empty list and page, a blank search term, page 1 of 1, nothing loading, the modal hidden, not in edit mode, and the blank item with empty name and category and quantity and price 0 |
| `Stocks.SearchStocks` | src/app/pages/stocks/stocks.ts:89-97 | a blank term keeps the list; otherwise exactly the items whose name or category contains the term, ignoring case, in order, each as often as in the list |
| `Stocks.SaveStock` | src/app/pages/stocks/stocks.ts:160-180 | update or create as for customers; only success closes the modal and reloads, so after a failure the modal stays open |
| `Servicing.SearchServices` | src/app/pages/servicing/servicing.ts:157-166 | a blank term keeps the list; otherwise exactly the records whose customer name, vehicle number or remarks contain the term, ignoring case, in order, each as often as in the list |
| `Servicing.ServicingPage.constructor` | src/app/pages/servicing/servicing.ts:23-51 | the screen starts with empty lists, catalogues, suggestions and search boxes, on page 1 of 1, nothing loading, the modal hidden, not in edit mode, with the blank service and a grand total of 0 |
| `Servicing.ServicingPage.LoadServicesAsWritten` | src/app/pages/servicing/servicing.ts:81-97 | a successful load stores the list but leaves the page count and the shown page as they were |
| `Servicing.ServicingPage.LoadServices` | src/app/pages/servicing/servicing.ts:81-97 | corrected load: a successful load stores the list and recomputes the page count and page; a failed one keeps them; loading ends either way; the search term and current page are untouched |
| `Servicing.StalePageAfterLoad` | src/app/pages/servicing/servicing.ts:88 | after a first successful load of one record, the page as written shows nothing although the record matches |
| `Servicing.PageShownAfterLoad` | src/app/pages/servicing/servicing.ts:86-88 | with the corrected load the same record is shown on page 1 |
| `Servicing.ServicingPage.LoadCatalogues` | src/app/pages/servicing/servicing.ts:99-112 | each picker catalogue is replaced when its fetch succeeds and kept otherwise |
| `Servicing.ServicingPage.SaveService` | src/app/pages/servicing/servicing.ts:234-252 | update or create; the modal closes and the list reloads whatever the outcome |
| `Servicing.ServicingPage.DownloadBill` | src/app/pages/servicing/servicing.ts:327-343 | a bill is requested exactly when the working copy has a truthy id, and for that id |
| `Servicing.ServicingPage.SelectCustomer` | src/app/pages/servicing/servicing.ts:114-125 | the record's customer becomes a copy of the chosen one; the vehicle box shows its vehicle number; suggestions close |
| `Servicing.ServicingPage.FilterStock` | src/app/pages/servicing/servicing.ts:127-140 | no suggestions for a blank term; otherwise exactly the catalogue items whose name contains it, ignoring case, in order, each as often as in the list |
| `Servicing.ServicingPage.FilterVehicle` | src/app/pages/servicing/servicing.ts:142-155 | no suggestions for a blank term; otherwise exactly the customers whose vehicle number contains it, ignoring case, in order, each as often as in the list |
| `Servicing.ServicingPage.CalculateTotal` | src/app/pages/servicing/servicing.ts:319-324 | grand total and total cost both become Σ price × quantity over the current lines |
| `Servicing.ServicingPage.SelectStock` | src/app/pages/servicing/servicing.ts:280-300 | the lines become `AddStock` of the old lines; the total is fresh; picker cleared; distinct stock ids and positive quantities kept |
| `Servicing.ServicingPage.UpdateQty` | src/app/pages/servicing/servicing.ts:302-312 | the lines become `AdjustQty` of the old lines; the total is fresh; both invariants kept |
| `Servicing.ServicingPage.RemoveStock` | src/app/pages/servicing/servicing.ts:314-317 | the lines become `RemoveAt` of the old lines, the total drops by the removed line's cost, and distinct stock ids and positive quantities are kept |
| `LineItems.FirstIndexOf` | src/app/pages/servicing/servicing.ts:282-284 | `find` gives the first line with the stock id, or none exactly when no line has it |
| `LineItems.AddStock` | src/app/pages/servicing/servicing.ts:280-295 | after a selection the list has a line for the stock and grew by at most one |
| `LineItems.AddStockExisting` | src/app/pages/servicing/servicing.ts:282-287 | a stock already present: the first line for it grows by exactly 1 (as `find` picks the first); the length and every other line are unchanged; with distinct ids no other line has that stock |
| `LineItems.AddStockNew` | src/app/pages/servicing/servicing.ts:288-295 | a new stock: exactly one line {stock id, name, quantity 1, price} is appended |
| `LineItems.AddStockKeeps` | src/app/pages/servicing/servicing.ts:280-299 | selection keeps stock ids distinct and quantities positive, and adds the touched line's unit price to the total |
| `LineItems.SelectTwice` | src/app/pages/servicing/servicing.ts:280-300 | the same stock selected twice gives one line with quantity 2 and a total of twice its price |
| `LineItems.TotalConcat` | src/app/pages/servicing/servicing.ts:320-321 | the total of two runs of lines is the sum of their totals |
| `LineItems.TotalUpdate` | src/app/pages/servicing/servicing.ts:320-321 | replacing one line moves the total by the difference of the two costs |
| `LineItems.RemoveAt` | src/app/pages/servicing/servicing.ts:315 | splice removes exactly line i; the others keep their order and the length drops by 1 |
| `LineItems.RemoveAtTotal` | src/app/pages/servicing/servicing.ts:314-317 | removing a line takes exactly its cost off the total |
| `LineItems.RemoveAtMultiset` | src/app/pages/servicing/servicing.ts:315 | the removed line plus the remaining lines are the old lines, as a multiset |
| `LineItems.RemoveAtKeeps` | src/app/pages/servicing/servicing.ts:315 | removal keeps stock ids distinct and quantities positive |
| `LineItems.AdjustQty` | src/app/pages/servicing/servicing.ts:302-309 | a quantity change keeps the length or drops exactly one line |
| `LineItems.AdjustQtyRemoves` | src/app/pages/servicing/servicing.ts:305-311 | a new quantity ≤ 0 removes exactly that line, the others keeping their order, and takes its cost off the total |
| `LineItems.AdjustQtyUpdates` | src/app/pages/servicing/servicing.ts:305-311 | a new quantity > 0 keeps the length and changes only that line's quantity; the total moves by price × change |
| `LineItems.AdjustQtyKeeps` | src/app/pages/servicing/servicing.ts:302-309 | a quantity change keeps stock ids distinct and quantities positive |

## Findings

| source | as written | input that shows it | evidently intended | confidence | as-written member | corrected member |
|---|---|---|---|---|---|---|
| src/app/pages/servicing/servicing.ts:88 | `this.updatePaginatedServicing` is read as a property and never called, so a successful load leaves `totalPages` and `paginatedServices` stale | first load of one record, empty search, page 1: the shown page stays empty while the filtered list holds the record (`Servicing.StalePageAfterLoad`) | recompute the page after storing the list, as customers.ts:73 and stocks.ts:76 do (`Servicing.PageShownAfterLoad`) | high; not executed | `Servicing.ServicingPage.LoadServicesAsWritten` | `Servicing.ServicingPage.LoadServices` |

`SaveService` uses the corrected load. So does the generic `Delete`, which covers `deleteService`.

## Left out

- HTTP gateways (`CustomerService`, `Service`, `ServicePageApi`, `DashboardService`): only their record interfaces are modelled. The bearer header, the `res?.data || []` unwrap and the URLs are not. Each request's outcome is a method parameter.
- Asynchronous ordering of `subscribe` callbacks: each method applies its request and callback together. `saveService` fires two identical reloads, one unconditional and one on success; they are modelled as one reload outcome. A success callback runs after the synchronous `closeModal`, and the model keeps that order.
- The dashboard (`Promise.all` fan-in, Chart.js, timers, number formatting), login, registration, password reset, the toast service and component, routing and `app.ts`: they are framework and library glue with no logic of the list screens.
- Browser and UI calls: `localStorage`, `getFormattedUsername`, `logout`, `alert`, toastr messages, `console`, `detectChanges` and `zone.run`. Also left out: the blob download and its `service-bill-<id>.pdf` file name. `confirm()` is a boolean parameter.
- The page templates (and with them how `searchTerm` is bound and when a recompute follows a search) are not part of this model: `searchTerm` is a field any caller may assign.
- `editCustomer` and `editStock` only call `openModal(entity)`: they are `ListView.OpenModal(Some(entity))`.
- `servicing.spec.ts` is a smoke test only.
- Numbers are unbounded integers: no floating point, no `NaN`, no fractional page numbers, prices or quantities.
- `JSON.parse(JSON.stringify(record))` and `{ ...entity }` copies are value copies here; dropping of `undefined` fields by the JSON round trip is not modelled.
- Text.Lower: models `toLowerCase` for ASCII letters only; other letters keep their case, so non-ASCII case-insensitive matches are not captured.
- Servicing.ServicingPage.SaveService: reloads through the corrected `LoadServices`, so it promises a recomputed page (`view.Synced()`). As written, `saveService` reloads through `loadServices` (servicing.ts:243 and 251). That never recomputes the page (the finding above), so on this screen `totalPages` and `paginatedServices` stay as they were after a save.
- ListViews.ListView.Delete: where it stands for `deleteService` (servicing.ts:255-268), the reload after a successful delete is the corrected one. As written, that reload leaves the page stale, as for `SaveService`.
- Paging.Slice and Paging.SliceIndex are the definition of `Array.prototype.slice` that `PageSlice` is built on; their meaning is stated through `PageSlice`, `PageNonEmptyIff` and `ItemOnItsPage`, not on their own.
