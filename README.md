# Clothing-rental shop: a Dafny model of its rules

The shop's single-page application lets staff do five things:

- rent clothing items to customers;
- process returns with a late fee;
- keep the inventory and the customer list;
- browse the data on a dashboard and a calendar;
- sign in through a hosted authentication service.

Under the screens is a small set of sequential rules, and this project models them and proves their properties:

- **Services and record store** (`Store.RecordStore`): one table each of rentals, items and customers, keyed by `Id`.
  - Rental service: the defaults of a new rental, partial updates, and return processing with a late fee of 15 per started day past the due moment.
  - Inventory service: the fallbacks of a new item, partial updates, and the status, category and search queries.
  - Customer service: a zero count for a new customer, a full-overwrite update, the rental counter and search.
  - A write takes the remote reply as a parameter. It commits only when no per-record result failed, and otherwise reports the first failed record's message.
- **Workflows**: creating a rental (three writes in order, no rollback) and processing a return (two writes in order).
- **Projections the screens compute**:
  - the overdue/regular split of active rentals;
  - per-customer and per-item statistics;
  - the dashboard counts and monthly revenue;
  - the calendar's day cells and summary;
  - the badges and buttons of the rental and item cards;
  - the inventory search-and-filter chain and the search bar's filter map.
- **Form validators**: the add-item and add-customer forms, and their "editing a field clears its own error" rule.
- **The sign-in callback's redirect choice** and the shell's start-up fallbacks.

Time is an integer number of milliseconds (UTC), a day is 86,400,000 ms, and money is an integer. The screens receive what the services returned as parameters.

The modules follow the program's structure:

| Module | Models |
|---|---|
| `Records` | the record shapes |
| `Billing` | late fees |
| `Remote` | write replies |
| `Lookup` | the Id lookup maps |
| `Seqs`, `Text` | list and string helpers |
| `RentalService`, `InventoryService`, `CustomerService`, `Store` | the services and the record store |
| `CreateRentalModal`, `ReturnProcessModal`, `CustomersList`, `ActiveRentalsList`, `DashboardStats`, `ItemDetailModal`, `CalendarView`, `InventoryGrid`, `AddInventoryModal` | one screen or dialog each |
| `RentalCard`, `ItemCard`, `SearchBar` | the molecules of the same name |
| `App` | the application shell |

## Model

| member | source | states |
|---|---|---|
| Billing.LateFeeIsCeiling | src/services/api/rentalService.js:306-310 | The fee is 0 when returned at or before the due moment. Otherwise it is k × 15 for the unique k ≥ 1 with (k−1) days < delay ≤ k days, so any started day counts in full. |
| Billing.LateFeeMonotone | src/services/api/rentalService.js:306-310 | For a fixed due date, a later return never costs less. |
| Billing.PreviewVersusCharged | src/components/organisms/ReturnProcessModal.jsx:18-19 | The previewed fee (whole days late × 15) never exceeds the charged fee. The shortfall is exactly 15 when the delay is not a whole number of days, and 0 otherwise. |
| Remote.WriteError | src/services/api/rentalService.js:106-119 | A refused request fails with the response's message. A reply with results succeeds iff the list is non-empty and no record failed. A failed record gives the first failed record's message, or the service's fallback text when that message is empty. An empty list fails with the `TypeError` of reading `.data` from its missing first record. |
| RentalService.NewRental | src/services/api/rentalService.js:89-101 | A created rental is named `RentalName` of its customer. It is active, has late fee 0 and no return date, and keeps the draft's customer, item, dates and price. Its notes are the given notes when they are non-empty, and empty exactly when none were given. |
| RentalService.RentalNameNamesCustomer | src/services/api/rentalService.js:91 | The stored name is "Rental for " followed by the customer id's numeral, which parses back to that id. |
| RentalService.ApplyRentalPatch | src/services/api/rentalService.js:136-149 | An update keeps the rental's Id; each of the ten fields takes the supplied value when one is given and otherwise keeps the stored one. |
| RentalService.RentalPatchNoOp | src/services/api/rentalService.js:136-149 | An update leaves the rental unchanged iff every supplied field already holds the supplied value. |
| RentalService.RentalPatchIdempotent | src/services/api/rentalService.js:136-149 | Applying the same update twice equals applying it once. |
| RentalService.RentalPatchCompose | src/services/api/rentalService.js:136-149 | Two updates in a row equal one update with their field-wise merge, the later value winning. |
| RentalService.ReturnTwice | src/services/api/rentalService.js:299-317 | No status check is made: returning an already returned rental overwrites the return date and the late fee with the second return's values. |
| InventoryService.PriceOr | src/services/api/inventoryService.js:101-102 | `a or b or 0` in JavaScript's sense: a non-zero first value wins; otherwise the second value, when given; a non-zero result is one of the inputs. |
| InventoryService.UrlOr | src/services/api/inventoryService.js:105 | `a or b or ''` on strings: a non-empty first value wins, and a non-empty result is one of the inputs. |
| InventoryService.StatusOr | src/services/api/inventoryService.js:103 | A missing or empty status becomes available; a non-empty status is kept. |
| InventoryService.NewItem | src/services/api/inventoryService.js:93-107 | A created item copies the draft's name, sku, category, size, color and brand. It keeps a given non-empty status (`StatusOr`) and a given condition, and otherwise defaults to available and excellent. Its prices and photo follow the camelCase-then-snake_case fallbacks, and its date added is the creation time. |
| InventoryService.DraftWithoutPriceStoresZero | src/services/api/inventoryService.js:102 | A draft naming no rental price under either key is stored with rental price 0. |
| InventoryService.ApplyItemPatch | src/services/api/inventoryService.js:142-156 | An update keeps the item's Id and date added; each of the eleven other fields takes the supplied value when one is given and otherwise keeps the stored one. |
| InventoryService.ItemPatchNoOp | src/services/api/inventoryService.js:142-156 | An update leaves the item unchanged iff every supplied field already holds the supplied value. |
| InventoryService.StatusAndConditionOnly | src/services/api/inventoryService.js:142-156 | An update supplying only status and condition changes exactly those two fields. |
| InventoryService.ItemPatchIdempotent | src/services/api/inventoryService.js:142-156 | Applying the same item update twice equals applying it once. |
| InventoryService.EveryItemMatchesEmptyQuery | src/services/api/inventoryService.js:310-346 | Every item matches the empty search query. |
| InventoryService.QueryPartMatches | src/services/api/inventoryService.js:310-346 | An item matching a query also matches every substring of that query. |
| CustomerService.NewCustomer | src/services/api/customerService.js:81-90 | A created customer has total rentals 0, its join date is the creation time, and it keeps the four given fields. |
| CustomerService.Overwrite | src/services/api/customerService.js:124-133 | An update keeps the customer's Id and join date and writes all five fields (name, email, phone, address, rental count) from the input, given or not. |
| CustomerService.OverwriteClearsOmitted | src/services/api/customerService.js:124-133 | Unlike item and rental updates, each of the five fields left undefined in the update is written as undefined, and the result does not depend on the stored values of the five fields. |
| CustomerService.IncrementChangesOnlyCount | src/services/api/customerService.js:249-259 | Incrementing writes name, email, phone and address back unchanged and raises the count by exactly one, a missing count counting as 0. |
| Lookup.LastIndexWith | src/components/organisms/ActiveRentalsList.jsx:37-45 | The result is −1 or a position holding the key, and no later position holds the key. |
| Lookup.IndexBy | src/components/organisms/ActiveRentalsList.jsx:37-45 | The `forEach` map holds exactly the keys present in the list, each mapped to the LAST record with that key. |
| Lookup.ValuesOf | src/components/organisms/CalendarView.jsx:253 | `Object.values` lists one stored value per key, and every stored value is listed. |
| Store.MergeRental | src/services/api/rentalService.js:136-149 | Copying the supplied fields one at a time gives the partial update. |
| Store.MergeItem | src/services/api/inventoryService.js:142-156 | Copying the supplied item fields one at a time gives the partial update. |
| Store.RecordStore.constructor | src/services/api/rentalService.js:4-40 | The store starts empty and well formed. |
| Store.RecordStore.CreateRental | src/services/api/rentalService.js:80-125 | When the reply fails, the error is returned and nothing changes. Otherwise the new rental is stored under a fresh Id with its defaults. Items and customers never change. |
| Store.RecordStore.UpdateRental | src/services/api/rentalService.js:127-176 | A failed reply or an unknown Id changes nothing. Otherwise the stored rental becomes its partial update, and no other rental changes. |
| Store.RecordStore.ProcessReturn | src/services/api/rentalService.js:299-322 | An unknown Id gives a not-found error. Otherwise the rental becomes returned, stamped with the return time and charged `LateFee`; the notes are the given ones or the old ones; the total price is untouched. |
| Store.RecordStore.AllRentals | src/services/api/rentalService.js:4-40 | Returns every stored rental, one per Id. |
| Store.RecordStore.ActiveRentals | src/services/api/rentalService.js:203-241 | Returns exactly the stored rentals whose status is active. |
| Store.RecordStore.OverdueRentals | src/services/api/rentalService.js:243-297 | Returns exactly the stored active rentals due strictly before now. |
| Store.RecordStore.CreateItem | src/services/api/inventoryService.js:84-131 | Stores `NewItem` under a fresh Id unless the reply fails, in which case nothing changes. |
| Store.RecordStore.UpdateItem | src/services/api/inventoryService.js:133-183 | A failed reply or an unknown Id changes nothing. Otherwise the stored item becomes its partial update, and no other item changes. |
| Store.RecordStore.AllItems | src/services/api/inventoryService.js:4-42 | Returns every stored item. |
| Store.RecordStore.ItemsWithStatus | src/services/api/inventoryService.js:250-274 | Returns exactly the stored items whose stored status text equals the argument's. |
| Store.RecordStore.ItemsInCategory | src/services/api/inventoryService.js:210-234 | Returns exactly the stored items whose category equals the argument. |
| Store.RecordStore.SearchItems | src/services/api/inventoryService.js:290-346 | Returns exactly the stored items whose name, sku, brand or category contains the query. |
| Store.RecordStore.CreateCustomer | src/services/api/customerService.js:72-113 | Stores `NewCustomer` under a fresh Id unless the reply fails, in which case nothing changes. |
| Store.RecordStore.UpdateCustomer | src/services/api/customerService.js:115-156 | A failed reply or an unknown Id changes nothing. Otherwise all five fields are overwritten. |
| Store.RecordStore.IncrementRentalCount | src/services/api/customerService.js:246-264 | An unknown Id gives a not-found error. Otherwise, unless the write fails, the customer's count rises by one and nothing else changes. |
| Store.RecordStore.AllCustomers | src/services/api/customerService.js:4-36 | Returns every stored customer. |
| Store.RecordStore.SearchCustomers | src/services/api/customerService.js:183-244 | Returns exactly the stored customers whose name, email or phone contains the query. |
| CreateRentalModal.DueDayIsDaysAfterStart | src/components/organisms/CreateRentalModal.jsx:88-89 | A rental of n days is due exactly n days after its start, which falls on the calendar day n days later. |
| CreateRentalModal.HandleCreateRental | src/components/organisms/CreateRentalModal.jsx:74-114 | Nothing is written without a customer or with fewer than one day. Otherwise the writes run in order: create the rental, mark the item rented, increment the customer's count. A failure stops the sequence and keeps the earlier writes (no rollback). The stored price is the dialog's `rental_price × days`, and the due date is the dialog's. |
| CreateRentalModal.RecordRental | src/components/organisms/CreateRentalModal.jsx:100-108 | The rental is stored under the next `Id` only if its write succeeds; the item and customer writes follow only after it; a refused create leaves all three tables as they were. |
| CreateRentalModal.MarkRented | src/components/organisms/CreateRentalModal.jsx:102-108 | The item is marked rented only if it exists and its write succeeds, and the count is raised only after that; the rentals table is untouched. |
| CreateRentalModal.CountRental | src/components/organisms/CreateRentalModal.jsx:105-106 | The customer's count (absent read as 0) rises by exactly one when the customer exists and the write succeeds; otherwise no table changes. |
| CreateRentalModal.HandleCreateCustomer | src/components/organisms/CreateRentalModal.jsx:57-72 | Without name, email and phone nothing is written. Otherwise the customer is created and selected unless the write fails. |
| CreateRentalModal.RentalDaysInput | src/components/organisms/CreateRentalModal.jsx:283 | The parsed number, or 1 when that is 0 or not a number, is never 0. |
| CreateRentalModal.RentalDaysInputKeepsNumbers | src/components/organisms/CreateRentalModal.jsx:283 | Any non-zero number typed as its numeral, negatives included, reaches the guard unchanged. |
| CreateRentalModal.RentalDaysInputDefaults | src/components/organisms/CreateRentalModal.jsx:283 | Every input with no number after its leading white space and sign becomes 1, and so does every run of zeros not continued by a digit or `x`. |
| CreateRentalModal.FilteredCustomers | src/components/organisms/CreateRentalModal.jsx:116-120 | The picker lists exactly the loaded customers whose lower-cased name or email, or whose phone, contains the term. |
| CreateRentalModal.EmptyTermListsAll | src/components/organisms/CreateRentalModal.jsx:116-120 | With no term, the picker lists every loaded customer in order. |
| CreateRentalModal.PickerIgnoresCaseOfName | src/components/organisms/CreateRentalModal.jsx:116-120 | Two terms that lower-case alike find the same names and emails; two customers whose names and emails lower-case alike, with the same phone, are found by the same terms. |
| CreateRentalModal.PhoneMatchKeepsCase | src/components/organisms/CreateRentalModal.jsx:119 | A phone holding `A` is found by `A` and not by `a`, although the two lower-case alike. |
| ReturnProcessModal.Preview | src/components/organisms/ReturnProcessModal.jsx:15-20 | Overdue iff returned strictly after the due moment. Days late is the floor of the delay in days, else 0; the fee is days × 15; the total is the price plus the fee. The preview lies within 15 below the fee charged. |
| ReturnProcessModal.PreviewUnderquotes | src/components/organisms/ReturnProcessModal.jsx:18-19 | An hour's delay previews a fee of 0 while the return charges 15. |
| ReturnProcessModal.IntendedPreview | src/services/api/rentalService.js:306-310 | The corrected preview counts every started day: (days−1) days < delay ≤ days days. |
| ReturnProcessModal.IntendedPreviewIsCharged | src/components/organisms/ReturnProcessModal.jsx:15-20 | The corrected preview's fee and total are what processing the return at that moment records. It equals the written preview when the delay is a whole number of days. |
| ReturnProcessModal.NextItemStatus | src/components/organisms/ReturnProcessModal.jsx:40 | Maintenance iff the condition is poor, available otherwise. |
| ReturnProcessModal.NotesSent | src/components/organisms/ReturnProcessModal.jsx:36 | Notes sent are the typed notes, or "Item returned" when empty, so they are never empty. |
| ReturnProcessModal.HandleProcessReturn | src/components/organisms/ReturnProcessModal.jsx:34-48 | The rental is marked returned with the notes sent, then the item gets the new status and the observed condition. A failed item write leaves the rental returned. Customers never change. |
| CustomersList.GroupByCustomer | src/components/organisms/CustomersList.jsx:40-46 | The loop's map has a bucket exactly for each customer with a rental, and each bucket holds that customer's rentals in original order. |
| CustomersList.BucketSizesSum | src/components/organisms/CustomersList.jsx:40-46 | Over distinct customers covering every rental, the bucket sizes sum to the number of rentals. |
| CustomersList.StatsOf | src/components/organisms/CustomersList.jsx:79-89 | Active counts the bucket's active rentals and total its rentals, so 0 ≤ active ≤ total. The total spent is the sum of price plus late fee over the bucket, 0 for an empty one. |
| CustomersList.SpendingSumsToCharged | src/components/organisms/CustomersList.jsx:79-89 | Over distinct customers covering every rental, the customers' totals spent add up to the amount charged over all rentals. |
| CustomersList.ActiveCountIsJoint | src/components/organisms/CustomersList.jsx:80-81 | A customer's active count is the number of loaded rentals that are both theirs and active. |
| CustomersList.BadgeShowsActiveRental | src/components/organisms/CustomersList.jsx:225-233 | The badge reads "Active Rental" iff some loaded rental of the customer is active. |
| CustomersList.EmailShapedIff | src/components/organisms/CustomersList.jsx:376-381 | The hand-coded e-mail check accepts exactly the strings `^[^\s@]+@[^\s@]+\.[^\s@]+$` matches. |
| CustomersList.ValidateCustomerForm | src/components/organisms/CustomersList.jsx:369-392 | One message per failing field (name, email, phone, address). The form is valid iff there are no errors, iff every field is non-blank and the e-mail matches the pattern. |
| CustomersList.AddCustomerForm.constructor | src/components/organisms/CustomersList.jsx:359-367 | The form starts with empty fields and no errors. |
| CustomersList.AddCustomerForm.HandleInputChange | src/components/organisms/CustomersList.jsx:413-418 | Stores the value and blanks that field's message if it had one; other messages are untouched. |
| CustomersList.AddCustomerForm.HandleSubmit | src/components/organisms/CustomersList.jsx:394-411 | The messages shown are exactly the failing fields' messages, as validation reports them. A customer is created from the four fields, with join date now and count 0, exactly when the form is valid and the write succeeds; otherwise the customers stay as they were. |
| CustomersList.CustomersListView.constructor | src/components/organisms/CustomersList.jsx:17-24 | The screen starts with no customers and no buckets. |
| CustomersList.CustomersListView.Load | src/components/organisms/CustomersList.jsx:29-57 | Shows every loaded customer and groups the loaded rentals by customer. |
| CustomersList.CustomersListView.HandleCustomerCreated | src/components/organisms/CustomersList.jsx:59-62 | A new customer is appended to both the full and the shown lists. |
| CustomersList.CustomersListView.HandleSearch | src/components/organisms/CustomersList.jsx:65-77 | An empty term restores the full list. Any other term shows exactly the stored customers the search matches. |
| ActiveRentalsList.SectionsPartition | src/components/organisms/ActiveRentalsList.jsx:94-99 | Every rental lands in exactly one section: overdue iff due strictly before now. Both sections keep input order and their sizes sum to the total. |
| ActiveRentalsList.OverdueSectionOfActive | src/components/organisms/ActiveRentalsList.jsx:94-96 | Over the active rentals, the overdue section is what the service's overdue query selects. |
| ActiveRentalsList.ScreenFor | src/components/organisms/ActiveRentalsList.jsx:82-99 | The empty state shows iff there are no rentals; otherwise the two sections together hold them all. |
| ActiveRentalsList.ItemsLookup | src/components/organisms/ActiveRentalsList.jsx:37-40 | Indexing the listed items by Id rebuilds the item table exactly. |
| ActiveRentalsList.ActiveRentalsView.constructor | src/components/organisms/ActiveRentalsList.jsx:12-23 | The screen starts empty with no return dialog open. |
| ActiveRentalsList.ActiveRentalsView.Load | src/components/organisms/ActiveRentalsList.jsx:25-56 | Keeps the active rentals, and maps each item and customer Id to the last record with it. |
| ActiveRentalsList.ActiveRentalsView.HandleReturnItem | src/components/organisms/ActiveRentalsList.jsx:58-61 | Opens the return dialog for the chosen rental and changes no data. |
| ActiveRentalsList.ActiveRentalsView.HandleReturnProcessed | src/components/organisms/ActiveRentalsList.jsx:63-68 | Closes the dialog and clears the selection. It reloads the active rentals and maps each item and customer Id to the last record with it, as Load does. |
| RentalCard.StatusBadge | src/components/molecules/RentalCard.jsx:8-20 | "Overdue" iff active and now strictly after the due date; "Active" iff active and not yet overdue; "Returned" iff returned. The variants are overdue, rented and success in the same order. |
| RentalCard.ReturnedNeverOverdue | src/components/molecules/RentalCard.jsx:8-20 | After a return, the card shows "Returned" with variant success at every moment. |
| RentalCard.OverdueStaysOverdue | src/components/molecules/RentalCard.jsx:8 | An overdue card stays overdue as time passes. |
| RentalCard.CardMatchesSection | src/components/molecules/RentalCard.jsx:8 | Over active rentals, a card reads "Overdue" iff the list puts it in the overdue section. |
| RentalCard.ReturnButton | src/components/molecules/RentalCard.jsx:71-80 | The Return button shows iff the rental is active and a handler is given. It is styled danger iff the card is overdue. |
| RentalCard.DisplayedTotal | src/components/molecules/RentalCard.jsx:65 | The displayed total of a new rental is its price, and after a return it is the price plus the fee charged. |
| RentalCard.ItemLabel | src/components/molecules/RentalCard.jsx:44 | Shows the item's name, or "Unknown Item" when the item or its name is missing. |
| RentalCard.CustomerLabel | src/components/molecules/RentalCard.jsx:47 | Shows the customer's name when it is non-empty. It shows "Unknown Customer" iff the customer or the name is missing or empty, or the name is itself "Unknown Customer". |
| ItemCard.StatusVariant | src/components/molecules/ItemCard.jsx:7-14 | Identity on available, rented and maintenance; "default" for anything else. The same switch is ItemDetailModal.jsx:47-54. |
| ItemCard.StatusIcon | src/components/molecules/ItemCard.jsx:16-23 | CheckCircle, Clock and Wrench for available, rented and maintenance, each iff; Circle iff the status is none of them. |
| ItemCard.IconFollowsVariant | src/components/molecules/ItemCard.jsx:7-23 | Two statuses share an icon iff they share a variant. |
| ItemCard.EditWideIffNoRent | src/components/molecules/ItemCard.jsx:72-93 | The Edit button takes full width exactly when no Rent button is shown. |
| ItemCard.RentEligibility | src/components/molecules/ItemCard.jsx:72 | A newly created item with no status given can be rented; a rented or maintenance item cannot. |
| DashboardStats.LoadStats | src/components/organisms/DashboardStats.jsx:37-60 | The totals are the list lengths. Available counts the items whose status is `available`, active the active rentals, and overdue the active rentals due before now, so overdue ≤ active ≤ rentals. The revenue is that of the rentals started in the current month. |
| DashboardStats.RevenueSplitsByMonth | src/components/organisms/DashboardStats.jsx:43-52 | This month's revenue plus that of the other months is the total charged over all rentals, whatever their status. |
| DashboardStats.ReturnMovesRevenueByFee | src/components/organisms/DashboardStats.jsx:46-52 | Returning a rental started this month changes the month's revenue by exactly the change in its late fee; returning any other rental leaves it unchanged. |
| DashboardStats.DangerIffSomeOverdue | src/components/organisms/DashboardStats.jsx:116 | The overdue card is "danger" iff some active rental is due before now. |
| ItemDetailModal.History | src/components/organisms/ItemDetailModal.jsx:30 | The history is exactly the loaded rentals of the item. |
| ItemDetailModal.EarningsShare | src/components/organisms/ItemDetailModal.jsx:56-58 | An item's earnings plus those of the other items make up the total charged. With non-negative amounts, an item's earnings never exceed that total. |
| ItemDetailModal.CurrentRental | src/components/organisms/ItemDetailModal.jsx:61 | The current rental is the first active rental of the history, and none iff none is active. |
| ItemDetailModal.SortNewestFirst | src/components/organisms/ItemDetailModal.jsx:184-185 | The in-place sort leaves the history in descending start-date order, as a permutation of itself. |
| ItemDetailModal.InsertLast | src/components/organisms/ItemDetailModal.jsx:185 | Sinks the next element into the sorted prefix, which stays sorted, as a permutation. |
| ItemDetailModal.SwapAdjacent | src/components/organisms/ItemDetailModal.jsx:185 | Swaps two neighbours and nothing else. |
| ItemDetailModal.ReorderKeepsFigures | src/components/organisms/ItemDetailModal.jsx:56-60 | Reordering the history keeps the rental count, the earnings and the item of every rental. |
| ItemDetailModal.ItemDetailView.constructor | src/components/organisms/ItemDetailModal.jsx:11-18 | The dialog starts loading with an empty history. |
| ItemDetailModal.ItemDetailView.Load | src/components/organisms/ItemDetailModal.jsx:20-45 | The history is the item's rentals in loaded order; customers are mapped by Id to the last record; loading ends. |
| ItemDetailModal.ItemDetailView.ShowHistory | src/components/organisms/ItemDetailModal.jsx:184-185 | Sorts the history newest first in place, as a permutation. |
| CalendarView.RentalsForDay | src/components/organisms/CalendarView.jsx:54-61 | A rental is listed for a cell iff start ≤ the cell's moment ≤ due, whatever its status. |
| CalendarView.StartDayMissing | src/components/organisms/CalendarView.jsx:54-61 | A rental starting at 10:00 is missing from the cell of its own start day. |
| CalendarView.RentalsSpanningDay | src/components/organisms/CalendarView.jsx:54-61 | Corrected: a rental is listed iff the cell's calendar day lies between its start day and its due day. |
| CalendarView.SpanningDayCoversMoments | src/components/organisms/CalendarView.jsx:54-61 | Counted by day, a rental is listed on its start day and on its due day, and on every day the written test lists it. |
| CalendarView.ReturnsDueOnDay | src/components/organisms/CalendarView.jsx:63-67 | A return is listed iff the rental is active and due on that calendar day. |
| CalendarView.DueOnOneDay | src/components/organisms/CalendarView.jsx:63-67 | No rental's return is listed on two different days. |
| CalendarView.MoreOvercounts | src/components/organisms/CalendarView.jsx:181-206 | Two rentals and two returns are all listed, yet the cell adds "+2 more". |
| CalendarView.CellFor | src/components/organisms/CalendarView.jsx:181-206 | Corrected: a cell lists the first two of each list, and "+N more" shows iff entries are left out. N is exactly the number left out. |
| CalendarView.MoreAgreesWhenFew | src/components/organisms/CalendarView.jsx:204-206 | The written and corrected counts agree exactly when one of the two lists is empty or there are at most two entries in all. |
| CalendarView.CellAsWritten | src/components/organisms/CalendarView.jsx:181-206 | As drawn: the first two of each list, and "+N more" iff there are more than two entries in all, with N the total minus two. |
| CalendarView.AddMonths | src/components/organisms/CalendarView.jsx:69-75 | Adding k months keeps the month in 1..12 and moves year × 12 + month by k. |
| CalendarView.NavigateMonth | src/components/organisms/CalendarView.jsx:69-75 | `prev` moves back exactly one month and any other direction forward exactly one month, across year ends, always to a month in 1..12. |
| CalendarView.NavigateRoundTrip | src/components/organisms/CalendarView.jsx:69-75 | 'prev' then any other direction, or the reverse, returns to the same month. |
| CalendarView.SummaryOf | src/components/organisms/CalendarView.jsx:225-253 | Active counts the active rentals, overdue the active rentals due before now, and available the looked-up items whose status is `available`; 0 ≤ overdue ≤ active ≤ rentals and available ≤ items. |
| CalendarView.SummaryMatchesDashboard | src/components/organisms/CalendarView.jsx:225-239 | On the same rentals, the calendar's active and overdue figures equal the dashboard's. |
| CalendarView.CalendarState.constructor | src/components/organisms/CalendarView.jsx:13-22 | The calendar starts on the current month with nothing loaded. |
| CalendarView.CalendarState.Load | src/components/organisms/CalendarView.jsx:24-48 | Keeps the rentals and maps each item Id to the last item with it. |
| CalendarView.CalendarState.Navigate | src/components/organisms/CalendarView.jsx:69-75 | Moves the shown month and changes nothing else. |
| CalendarView.CalendarState.DayCell | src/components/organisms/CalendarView.jsx:162-206 | The cell of a day as drawn: the first two of the loaded rentals whose start and due moments enclose the day's first moment, and the first two active rentals due back that day. A "+N more" line appears iff the two lists hold more than two entries in all, with N their total minus 2. |
| InventoryGrid.Wanted | src/components/organisms/InventoryGrid.jsx:61-69 | A filter applies iff its key is present with a non-empty value. |
| InventoryGrid.FiltersSelect | src/components/organisms/InventoryGrid.jsx:54-69 | The result is an order-preserving subsequence of the starting list, holding exactly its items that match every set filter. |
| InventoryGrid.FilteredSearch | src/components/organisms/InventoryGrid.jsx:54-69 | After a search, every shown item is a stored item matching both the term and the set filters, and every stored item matching both is shown. |
| InventoryGrid.EmptyFilterIgnored | src/components/organisms/InventoryGrid.jsx:61-69 | A filter set to the empty value gives the same result as no filter under that key. |
| InventoryGrid.InventoryView.constructor | src/components/organisms/InventoryGrid.jsx:16-25 | The screen starts with nothing loaded and no dialog open. |
| InventoryGrid.InventoryView.Load | src/components/organisms/InventoryGrid.jsx:31-45 | Shows every loaded item. |
| InventoryGrid.InventoryView.HandleSearch | src/components/organisms/InventoryGrid.jsx:47-75 | No term and no filter keys: everything loaded. No term: the loaded items narrowed by the set filters. A term: exactly the stored items the search matches that pass every set filter. |
| InventoryGrid.InventoryView.HandleRentItem | src/components/organisms/InventoryGrid.jsx:82-85 | Opens the rental dialog for the item. |
| InventoryGrid.InventoryView.HandleRentalCreated | src/components/organisms/InventoryGrid.jsx:87-92 | Closes the dialog, clears the selection and reloads the items. |
| SearchBar.SearchBarState.constructor | src/components/molecules/SearchBar.jsx:13-14 | The bar starts with an empty term and no filters. |
| SearchBar.SearchBarState.SetSearchTerm | src/components/molecules/SearchBar.jsx:48 | Typing changes the term only. |
| SearchBar.SearchBarState.HandleSearch | src/components/molecules/SearchBar.jsx:16-19 | Submitting passes the current term and filter map unchanged. |
| SearchBar.SearchBarState.HandleFilterChange | src/components/molecules/SearchBar.jsx:21-27 | Sets only the named key and keeps every other key and value. The listener, when present, receives the whole new map, and the Clear button then shows. |
| SearchBar.SearchBarState.ClearFilters | src/components/molecules/SearchBar.jsx:29-33 | Empties the filters and the term, reports ('', {}) and hides the Clear button. |
| SearchBar.ClearShownForAllChoice | src/components/molecules/SearchBar.jsx:78 | A filter set to the empty "All" value still shows the Clear button. |
| AddInventoryModal.OfferedChoices | src/components/organisms/AddInventoryModal.jsx:19-39 | Poor is not offered, and the defaults (excellent, available) are among the offered choices. |
| AddInventoryModal.UrlCaseInsensitive | src/components/organisms/AddInventoryModal.jsx:69 | The URL test ignores letter case. |
| AddInventoryModal.CheckRequired | src/components/organisms/AddInventoryModal.jsx:44-66 | Name, sku, brand and color must be non-blank after trim, and category and size non-empty, each with its own message. |
| AddInventoryModal.CheckImageUrl | src/components/organisms/AddInventoryModal.jsx:68-73 | An image URL is flagged iff it is non-blank and its trimmed text does not start with http:// or https:// followed by a character, with the invalid-URL message. |
| AddInventoryModal.CheckRates | src/components/organisms/AddInventoryModal.jsx:75-85 | Each rate is flagged iff it is missing or not above 0, with its own message. |
| AddInventoryModal.ValidateItemForm | src/components/organisms/AddInventoryModal.jsx:41-89 | Each field is flagged iff its own rule fails, with its message. The form is valid iff there are no errors, iff it is acceptable. |
| AddInventoryModal.ImageList | src/components/organisms/AddInventoryModal.jsx:122-125 | The image list is never empty. It is [trimmed URL] when the URL field is not blank; otherwise the images the form already holds, if any; otherwise the stock placeholder photo. |
| AddInventoryModal.FirstImageIsUrl | src/components/organisms/AddInventoryModal.jsx:122-125 | On a valid form, the first image is URL-shaped, the placeholder included. |
| AddInventoryModal.SubmittedRateLost | src/components/organisms/AddInventoryModal.jsx:117-121 | The record submitted as written is stored with rental price 0 and an empty photo. |
| AddInventoryModal.IntendedDraftKeepsRate | src/components/organisms/AddInventoryModal.jsx:117-125 | Corrected: the stored rental price is the daily rate and the photo is the first image. |
| AddInventoryModal.EditChangesOnlyThatField | src/components/organisms/AddInventoryModal.jsx:91-95 | Any edit of a value of the field's kind writes that value into its field, and every other field and the image list keep their values. A value of the wrong kind changes nothing. |
| AddInventoryModal.FieldsDetermineForm | src/components/organisms/AddInventoryModal.jsx:91-95 | A form is determined by its thirteen field values and its image list, so the frame above pins the whole edited form. |
| AddInventoryModal.AddItemDialog.constructor | src/components/organisms/AddInventoryModal.jsx:17-28 | The dialog starts with the initial form and no errors. |
| AddInventoryModal.AddItemDialog.HandleInputChange | src/components/organisms/AddInventoryModal.jsx:91-104 | Stores the value and blanks that field's message if it had one; other messages are untouched. |
| AddInventoryModal.AddItemDialog.HandleSubmit | src/components/organisms/AddInventoryModal.jsx:106-135 | The messages shown are exactly the failing fields' own, and there are none iff the form is acceptable. The item is created iff the form is acceptable and the write succeeds; otherwise the items table is unchanged. The created item is built from the record the dialog sends: name, category and the other text fields from the form, rental price 0 and no photo, since the service reads neither `dailyRate` nor `images`. |
| App.AuthPageMentionsWord | src/App.jsx:79-81 | Every authentication page's location mentions its route name without the slash, so the signed-out arm at line 112 is never taken. |
| App.TargetOutcomes | src/App.jsx:77-122 | Signed in: the redirect when given; else the current location off the authentication pages (line 91 unreachable), and '/' on them. Signed out: '/login' off the authentication pages (lines 103 and 105 unreachable); else the current location, redirect or not (lines 112 and 119 unreachable). |
| App.Shell.constructor | src/App.jsx:19-26 | The shell starts uninitialized with no user. |
| App.Shell.Initialize | src/App.jsx:30-59 | Without the SDK, a project id or a public key, the shell is marked initialized and goes to /login; otherwise it waits for the SDK. |
| App.Shell.OnSuccess | src/App.jsx:73-123 | Navigates to the chosen target. The user is stored iff present and cleared otherwise. |
| App.Shell.OnError | src/App.jsx:124-128 | Marks the shell initialized and goes to /login. |

## Left out

- The hosted SDK's client construction, field lists, response envelopes and logout are left out. A write's reply is a parameter; a refused read is not modelled, so reads always see the store.
- The not-found case: the real SDK's `getById` answers for an unknown Id in a way the code does not show. The model reports a fixed `RecordNotFound` error text.
- Asynchrony and interleaving are left out: each workflow is one sequential method. The race between the Rent button's availability test and the write is not modelled, and neither are checks the code lacks (already returned, item unavailable).
- Calendar arithmetic uses UTC milliseconds: a day is 86,400,000 ms, and same day and same month are day-index and civil-month functions. Local time zones and DST are not modelled.
- Money and rates are integers. Rates enter the item form already parsed as optional integers, so `parseFloat`, `isNaN` and fractional prices are not modelled.
- The e-mail and URL regular expressions are hand-coded predicates. `CustomersList.EmailShapedIff` proves the e-mail one equal to the pattern's literal reading.
- Substring search (`Contains`) is case-sensitive as `includes` is. The services' server-side `Contains` operator is modelled the same way; its case handling on the server is not known.
- The camelCase/snake_case mismatch between screens and services is left out: one record shape is used. Every rental carries a due date, so `RentalCard`'s `rental.dueDate &&` test is always true here.
- Screens receive the lists the services returned as parameters; loading spinners, toasts, animations and markup are left out. Load failures (`setError`) are not modelled.
- A service reply whose results list is missing makes the JavaScript return undefined. The model treats it as success with the stored record.
- CustomerService.Overwrite: a field absent from the input is written as `None` (undefined). The server's treatment of undefined is not modelled.
- AddInventoryModal.WithField: a value of the wrong kind for a field leaves the form unchanged. The form's free-form spread of any key is not modelled.
- CreateRentalModal.FilteredCustomers: `toLowerCase` is modelled by an ASCII-only `Lower`, so a non-ASCII letter such as the "É" of "Émile" is not folded as the program folds it.
- CreateRentalModal.PickerIgnoresCaseOfName: holds for the ASCII-only `Lower` above, not for the full Unicode case folding of `toLowerCase`.
- CalendarView.NavigateMonth: only (year, month) is modelled; date-fns' day-of-month clamping does not matter to the month shown.
- ItemDetailModal.SortNewestFirst: the order among rentals with equal start dates (sort stability) is not stated.
- ItemDetailModal.ItemDetailView.ShowHistory: JavaScript's `sort` runs on every render and mutates the state array; the model sorts once in place.
- The pages, Layout, routes, Badge, Input, StatsCard, SkeletonLoader and ErrorState only render and are not part of this model.
- Sign-in plumbing and redirect-parameter parsing are left out: `ApperUI.setup`, `URLSearchParams` and the JSON copy of the user (identity on the data). The redirect value and the location are parameters.

## Findings

| source | as written | input that shows it | evidently intended | confidence | as-written member | corrected member |
|---|---|---|---|---|---|---|
| src/components/organisms/CalendarView.jsx:204-206 | "+N more" with N = rentals + returns − 2 whenever the total exceeds 2, although up to two of each list are shown | two rentals and two returns on a day: all four are shown, plus "+2 more" | N counts the entries not shown | high, not executed | CalendarView.MoreOvercounts | CalendarView.CellFor |
| src/components/organisms/CalendarView.jsx:54-61 | a cell lists a rental iff start ≤ the cell's midnight ≤ due | a rental starting at 10:00 on a day is missing from that day's cell | a rental shows on every calendar day from its start day to its due day | medium, not executed | CalendarView.StartDayMissing | CalendarView.SpanningDayCoversMoments |
| src/components/organisms/AddInventoryModal.jsx:117-121 | the record carries `dailyRate` and `images`, but `create` reads `rentalPrice`/`rental_price` and `photoUrl`/`photo_url` | any valid form: the item is stored with rental price 0 and no photo | the daily rate becomes the rental price and the first image the photo | high, not executed | AddInventoryModal.SubmittedRateLost | AddInventoryModal.IntendedDraftKeepsRate |
| src/components/organisms/ReturnProcessModal.jsx:18-19 | the preview counts whole days late (floor) while `processReturn` charges every started day (ceiling) | a return one hour after the due moment: preview 0, charged 15 | the preview shows the fee that will be charged | medium, not executed | ReturnProcessModal.PreviewUnderquotes | ReturnProcessModal.IntendedPreviewIsCharged |

The screens' members model the code as written, and each corrected member stands beside them:

- `CalendarView.CalendarState.DayCell` draws its cells from `RentalsForDay` and `CellAsWritten`. The corrected cell is `CellFor` over `RentalsSpanningDay`.
- `AddInventoryModal.AddItemDialog.HandleSubmit` submits `SubmittedDraft`. `IntendedDraft` is the draft that keeps the daily rate and the photo.
- The return dialog's preview is `ReturnProcessModal.Preview`. `IntendedPreview` is the preview that agrees with the fee charged.
