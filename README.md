# Rental booking / ledger engine — a Dafny model

The application rents equipment to customers. Every booking mutation has to keep four
record sets in step: the equipment's status (Available / Rented / …), the bookings with
their lines, the ledger of transactions (invoices, payments, refunds), and each customer's
running balance. That logic exists twice in the repository, and both copies are modelled as
written:

- **The in-memory engine of `App.tsx`** (the copy the UI runs). Module `AppEngine` states
  each handler as a function from one value of the React state arrays (`AppData`) to the
  next. Class `AppState.App` holds those arrays as `seq` fields and has one method per
  handler; each method replaces the fields its setters replace, and its `ensures` ties the
  new state to the `AppEngine` function of the old state. `AppProperties` proves what each
  handler does. `AppLedger` proves the invariants the handlers keep:
  - the *Position* (a customer's balance plus the sum of their ledger amounts);
  - *Linked* (every booking has exactly one ledger entry, an Invoice of −total charged to
    its customer).
- **The pure helpers of `services/dataService.ts`** (module `DataService`): the day count,
  revenue and equipment statistics, and the `split('T')[0]` date cut.
- **The storage-backed services** (`CustomerService`, `EquipmentService`,
  `TransactionService`, `BookingService`).
  - Each storage table is a `seq` field of `Store.Db`. Each service function is a method
    that changes `db`.
  - Whether each storage call succeeds is a `bool` argument, including calls whose
    outcome the source ignores.
  - Each method's new state is stated as a function of the old tables (`Recorded`,
    `Erased`, `Created`, `ItemsReplaced`, …). Lemmas about those functions state the
    orchestration rules:
    - create with rollback;
    - the edit diff;
    - the equipment release driven by booking status;
    - the signed invoice and refund amounts;
    - the balance adjustment on transaction create and delete;
    - the soft delete of customers and the hard delete of equipment.

Dates are integer day numbers: a date-only string parses to UTC midnight, so `calculateDays`
works on whole days. Money is an integer. Fresh ids, the clock (`new Date()`), the signed-in
user's role and the answers to `window.confirm` are arguments.

Where the two copies disagree, each is modelled as written:

- **Invoice sign.**
  - `App.tsx` writes an Invoice of −total and *raises* the customer's balance by +total
    (App.tsx:373, 378). So its Position (balance + ledger) is preserved.
  - The transaction service adds the signed amount to the balance
    (services/transactionService.ts:107). So `createInvoice`, whose amount is −|amount|,
    *lowers* the balance.
  - What that service preserves is the *Drift*: balance − ledger sum
    (`TransactionService.RecordedKeepsDrift`).
- **Edit diff.**
  - `App.tsx` marks every item of the new list Rented (App.tsx:320-322).
  - `updateBookingItems` marks only the items that are new Rented; an item in both lists
    keeps whatever status it had (services/bookingService.ts:311-321).
- **Customer change on edit.** `App.tsx` re-credits the *form's* customer by new − old
  total, but re-prices the invoice that is still charged to the *old* customer. An edit
  that changes the customer therefore moves two Positions and unlinks the booking from its
  invoice (`AppLedger.EditMovesPositions`, `AppLedger.EditLinks`).
- **Partial failures in the services.** When a balance read or write fails after a
  transaction insert, the entry stays and the balance does not move, so the Drift changes
  by the amount (`TransactionService.RecordedWithoutBalanceDrifts`). When
  `updateBookingItems` deletes the old lines and then fails to insert the new ones, the
  booking is left with no lines (`BookingService.EditInsertFailureLosesLines`).

- **Inventory rule.** After a create, every item a save lists is Rented, and an Active
  booking lists it. App.tsx keeps "equipment is Rented exactly when some Active booking
  lists it" through create (`AppConsistency.CreateKeepsInventory`). Return and delete keep
  it only when no other Active booking lists the released items
  (`AppConsistency.ReturnKeepsInventory`, `AppConsistency.DeleteKeepsInventory`). Nothing
  stops two bookings from listing the same item: returning or deleting one of them makes
  the item Available while the other is still Active (`AppConsistency.ReturnBreaksSharedItem`,
  `AppConsistency.DeleteBreaksSharedItem`). The edit branch keeps the rule for an Active
  booking under the same condition (`AppConsistency.EditKeepsInventory`). Dropping a shared
  item breaks it the same way (`AppConsistency.EditBreaksSharedItem`). Editing a Pending
  booking, which handleEditBooking allows, marks its items Rented while no Active booking
  lists them (`AppConsistency.EditRentsForPending`). The storage services release
  equipment the same way, whatever other bookings list it: on completion, cancellation
  and delete (services/bookingService.ts:199-204, 235-236, 264-265).
- **Re-saving unchanged.** Opening a booking for edit and saving it at once keeps
  customers, equipment, ledger and the booking's total only while days × the equipment's
  current daily rates still equals the stored total (`AppConsistency.ResaveKeepsState`).
  After a rate change the re-save re-prices the booking, its invoice and the balance
  (`AppConsistency.ResaveRepricesChangedRate`).

## Model

| member | source | states |
|---|---|---|
| DataService.CalculateRevenue | services/dataService.ts:3-5 | revenue of no bookings is 0; with non-negative totals it is non-negative |
| DataService.RevenueAppend | services/dataService.ts:3-5 | revenue is additive over concatenation |
| DataService.GetEquipmentStats | services/dataService.ts:7-14 | total is the list length; available + rented + maintenance ≤ total, with equality exactly when nothing is Retired |
| DataService.StatusPartition | services/dataService.ts:7-14 | the four status counts add up to the list length |
| DataService.CalculateDays | services/dataService.ts:16-22 | at least 1 day; for different dates the absolute difference; never less than either signed difference |
| DataService.DaysSymmetric | services/dataService.ts:16-22 | swapping start and end gives the same count |
| DataService.DaysSameDate | services/dataService.ts:16-22 | the same date counts as one day |
| DataService.SameMonthDays | services/dataService.ts:16-22 | for two dates of one month the day numbers differ by the day difference, and the count is that difference (1 for the same day) |
| DataService.DaysExamples | services/dataService.ts:16-22 | 2024-01-01 → 2024-01-03 is 2 days; 2023-10-25 → 2023-10-30 is 5; day 0 is 1970-01-01 |
| DataService.DatePart | services/bookingService.ts:376 | `split('T')[0]`: a prefix of the input, with no 'T', ending where the input has its first 'T' |
| DataService.DatePartIdempotent | services/bookingService.ts:376 | cutting a cut date changes nothing |
| DataService.DatePartOfPlain | App.tsx:361 | a string without 'T' is its own date part |
| DataService.DatePartPrefix | App.tsx:361 | an ISO timestamp `date + "T…"` cuts to `date` |
| AppEngine.Lines | App.tsx:280-286 | one line per cart entry, same id, name and rate, every line with the same day count and total = rate × days |
| AppEngine.ModalDays | App.tsx:1158 | 0 exactly when a date input is empty, otherwise calculateDays of the two dates |
| AppProperties.LinesKeepCartIds | App.tsx:280-286 | the saved lines name the cart's equipment in cart order |
| AppProperties.LinesTotalIsDaysTimesRates | App.tsx:280-287 | totalAmount = days × sum of the cart's daily rates |
| AppProperties.CartTotalIsLinesTotal | App.tsx:1159 | the modal's running total equals the sum of the line totals |
| AppProperties.RatesGiveNonNegativeTotal | App.tsx:280-287 | non-negative rates give a non-negative total |
| AppProperties.ModalTotalIsSavedTotal | App.tsx:1158-1159 | once both dates are filled in, the modal shows the total a save records |
| AppProperties.SaveRefusedIffNotReady | App.tsx:272-275 | a save leaves the state unchanged exactly when the customer id or a date is empty, the cart is empty, or the customer id is unknown |
| AppProperties.CreateShape | App.tsx:349-386 | a ready save with no booking being edited is the create branch followed by the form reset |
| AppProperties.EditShape | App.tsx:290-346 | a ready save of a found booking is the edit branch followed by the form reset |
| AppProperties.CreateEffects | App.tsx:350-377 | create: one Active booking at the front (cart's lines, total = days × rates, paid 0, createdAt the date part) and one Invoice of −total at the front of the ledger |
| AppProperties.CreateStateEffects | App.tsx:365-386 | create: exactly the cart's equipment Rented, only the customer's balance raised, by total, and the form closed |
| AppProperties.EditBookingsEffects | App.tsx:297-310 | edit: the booking keeps its id and status and takes the form's customer, the cart's lines and the new total; other bookings unchanged |
| AppProperties.EditEquipmentEffects | App.tsx:313-324 | edit: cart items become Rented, items only in the old booking become Available, other equipment unchanged |
| AppProperties.EditEntriesEffects | App.tsx:328-333 | edit: the booking's Invoice entries become −new total; other entries unchanged |
| AppProperties.EditedBalances | App.tsx:336-345 | edit: only the selected customer's balance moves, by new total − old total |
| AppProperties.EditOfMissingBookingOnlyClosesForm | App.tsx:290-292 | editing a booking that no longer exists only resets the form |
| AppProperties.OpenEditEffects | App.tsx:389-410 | a Completed booking cannot be opened for edit; otherwise the form takes its id, customer and dates and the cart holds exactly the equipment it names |
| AppProperties.DeleteRefusedIffNotAllowed | App.tsx:412-421 | a delete changes the state exactly when an Admin confirms it for an existing booking |
| AppProperties.DeleteShape | App.tsx:420-436 | an allowed delete is the removal of the found booking with its invoice lookup |
| AppProperties.DeleteEffects | App.tsx:424-436 | delete: the booking is gone and its equipment is Available; with an invoice, all of the booking's entries are removed and the customer's balance falls by \|invoice amount\|; without one, ledger and balances are unchanged |
| AppProperties.ReturnEffects | App.tsx:468-474 | return: the booking becomes Completed and its equipment Available; ledger and balances untouched; an unknown id changes nothing |
| AppProperties.PaymentEffects | App.tsx:450-464 | payment: a Payment of +amount with no booking at the front of the ledger; only the selected customer's balance lowered by amount |
| AppProperties.AddToCartKeepsIdsDistinct | App.tsx:440-444 | the cart never holds an id twice; the item is in the cart afterwards and is appended only when new |
| AppProperties.RemoveFromCartEffects | App.tsx:446-448 | removing drops every entry with the id and keeps the rest |
| AppProperties.AddCategoryKeepsDistinct | App.tsx:84-88 | adding never creates a duplicate, keeps existing categories, and adds a non-empty new name |
| AppProperties.DeleteCategoryEffects | App.tsx:90-96 | deleting removes the category, keeps the others, and resets both category filters that showed it |
| AppProperties.WithoutUserDropsAtMostOne | App.tsx:154-158 | with distinct ids a delete removes at most one user |
| AppProperties.DeleteUserKeepsAUser | App.tsx:154-162 | the user list never becomes empty; a confirmed delete from two or more users removes exactly that id |
| AppProperties.ModalEquipmentChoice | App.tsx:1160-1162 | the modal offers exactly equipment that is Available (or already in the cart while editing) and in the chosen category |
| AppLedger.HoldersOfUnique | App.tsx:336-345 | with unique ids, a present customer id is held once and an absent one never |
| AppLedger.AdjustBalanceMoves | App.tsx:378 | a balance adjustment moves that id's balance sum by delta per holder and no other id's |
| AppLedger.AdjustOneBalance | App.tsx:378 | with unique ids, an adjustment moves exactly that customer's balance by delta |
| AppLedger.EntryWithAdjustKeepsSum | App.tsx:373-378 | an entry of −delta written with a +delta balance change keeps every Position |
| AppLedger.OwedSplit | App.tsx:435 | the ledger sum splits into one booking's entries and the rest |
| AppLedger.RepriceOtherEntries | App.tsx:328-333 | re-pricing one booking's invoice leaves other bookings' entries alone |
| AppLedger.RepriceKeepsRest | App.tsx:328-333 | re-pricing leaves every entry outside the booking alone |
| AppLedger.RepriceOwnEntries | App.tsx:328-333 | the booking's entries after re-pricing are its old entries re-priced |
| AppLedger.WithoutEntriesKeepsOthers | App.tsx:435 | dropping one booking's entries keeps the other bookings' entries |
| AppLedger.InvoiceIsTheEntry | App.tsx:431 | for a linked booking, the invoice the delete finds is its single entry |
| AppLedger.LinkNewBooking | App.tsx:364-377 | a new booking with fresh id and its invoice of −total joins the linked set |
| AppLedger.PrependKeepsLinked | App.tsx:463 | an entry tied to no listed booking keeps every link |
| AppLedger.CompleteKeepsLinked | App.tsx:471 | completing a booking keeps every link |
| AppLedger.DropKeepsLinked | App.tsx:428-435 | dropping a booking with its entries keeps every other link |
| AppLedger.DropKeepsSum | App.tsx:433-435 | dropping a linked booking's entries while lowering its customer by the total keeps every Position |
| AppLedger.RepriceSingle | App.tsx:328-333 | a linked booking's single entry, re-priced, stays its single entry at −total |
| AppLedger.OwedAfterReprice | App.tsx:328-333 | re-pricing moves the invoiced customer's ledger sum by old − new total and no one else's |
| AppLedger.RepriceMovesSums | App.tsx:328-345 | re-pricing plus re-crediting customer c shifts c's Position by new − old and the invoiced customer's by old − new |
| AppLedger.ReviseKeepsLinked | App.tsx:297-333 | an edit for the same customer keeps every link |
| AppLedger.ReviseForOtherCustomerUnlinks | App.tsx:297-333 | an edit for another customer unlinks the booking |
| AppLedger.CreateKeepsPositions | App.tsx:349-379 | create keeps every customer's Position |
| AppLedger.CreateKeepsLinked | App.tsx:349-379 | create with fresh ids and non-negative rates keeps every booking linked, the new one included |
| AppLedger.PaymentKeepsPositions | App.tsx:450-464 | a payment keeps every Position (balance + ledger sum) |
| AppLedger.PaymentKeepsLinked | App.tsx:450-464 | a payment keeps every link |
| AppLedger.ReturnKeepsLedger | App.tsx:468-474 | a return keeps every Position and every link |
| AppLedger.RemovedKeepsLedger | App.tsx:424-436 | removing a linked booking with its invoice keeps every Position and every other link |
| AppLedger.DeleteKeepsLedger | App.tsx:412-438 | an allowed delete keeps every Position and every remaining link |
| AppLedger.EditedSums | App.tsx:328-345 | the Position after an edit in terms of the re-priced ledger and re-credited balances |
| AppLedger.EditedMovesPositions | App.tsx:328-345 | the found-booking edit moves Positions as re-pricing and re-crediting do |
| AppLedger.EditMovesPositions | App.tsx:290-346 | an edit moves the form customer's Position by new − old total and the invoiced customer's by old − new |
| AppLedger.EditKeepsPositions | App.tsx:290-346 | an edit that keeps the customer keeps every Position |
| AppLedger.EditLinks | App.tsx:290-346 | an edit keeps every link exactly when it keeps the booking's customer |
| AppLedger.AdjustBalanceUndo | App.tsx:378 | adjusting by delta then −delta restores the customers |
| AppLedger.ReleaseUndoesRent | App.tsx:366 | marking Available equipment Rented and then Available again restores it |
| AppLedger.CreatedThenRemoved | App.tsx:349-436 | removing the booking and invoice a create just added restores customers, equipment, bookings and ledger |
| AppLedger.CreateThenDeleteRestores | App.tsx:349-436 | an Admin's confirmed delete right after a create restores customers, equipment, bookings and ledger |
| AppConsistency.CreateKeepsInventory | App.tsx:349-379 | the create branch keeps the inventory rule (equipment is Rented exactly when an Active booking lists it) |
| AppConsistency.SaveNewKeepsInventory | App.tsx:271-387 | a save with no booking being edited keeps the inventory rule |
| AppConsistency.ReleaseKeepsInventory | App.tsx:424-436 | releasing a booking's items keeps the rule when no other Active booking lists them and the Active bookings left are the others |
| AppConsistency.ReturnKeepsInventory | App.tsx:468-474 | a return keeps the rule when the booking's id is its own and no other Active booking lists its items |
| AppConsistency.DeleteKeepsInventory | App.tsx:412-438 | a delete keeps the rule under the same condition |
| AppConsistency.RevisedHolds | App.tsx:297-310 | after an edit the Active edited booking holds every item it lists |
| AppConsistency.RevisedReleases | App.tsx:297-324 | an item the edit drops is held by no Active booking when no other Active booking listed it |
| AppConsistency.RevisedHolderWasHolder | App.tsx:297-310 | an Active holder after the edit of an item the new lines do not name was a holder before |
| AppConsistency.HolderStaysHolder | App.tsx:297-310 | an Active holder before the edit of an item the old lines did not name stays a holder |
| AppConsistency.EditKeepsInventory | App.tsx:290-346 | the edit branch on an Active booking with its own id keeps the rule when no other Active booking lists its old items |
| AppConsistency.SharedItemConsistent | App.tsx:468-474 | two bookings that list the same Rented item, one of them Active, satisfy the rule |
| AppConsistency.ReturnBreaksSharedItem | App.tsx:468-474 | returning one of two bookings that list the same item makes it Available while the other Active booking still lists it |
| AppConsistency.DeleteBreaksSharedItem | App.tsx:412-438 | deleting one of two bookings that list the same item does the same |
| AppConsistency.EditBreaksSharedItem | App.tsx:313-324 | editing B-1 to drop E-1 makes E-1 Available while the Active B-2 still lists it |
| AppConsistency.EditRentsForPending | App.tsx:313-324 | editing a Pending booking (only Completed ones are refused) keeps it Pending but marks its item Rented, with no Active booking listing it |
| AppConsistency.NoCreditChangesNothing | App.tsx:336-345 | re-crediting by new − old = 0 changes no customer |
| AppConsistency.RerentChangesNothing | App.tsx:313-324 | the edit diff over a cart rebuilt from a booking's own Rented equipment changes no equipment |
| AppConsistency.SamePriceChangesNothing | App.tsx:328-333 | re-pricing invoices at the amount they already carry changes no entry |
| AppConsistency.EditedAtSameTotal | App.tsx:290-346 | the edit branch at the booking's own customer, dates and total changes no customer, equipment or entry and keeps every booking's id, customer, dates, total and status |
| AppConsistency.ResaveShape | App.tsx:271-346 | a ready save of a form loaded with a booking whose cart prices at its stored total is the edit branch at that total |
| AppConsistency.ResaveKeepsState | App.tsx:389-410 | opening a booking for edit and saving at once changes no customer, equipment or entry, and no booking's customer, dates, total or status, when its items are Rented, its invoices carry −total and days × current rates is still the total |
| AppConsistency.ResaveRepricesChangedRate | App.tsx:280-287 | when a rate has changed since booking, the same re-save moves total, invoice and balance to the new rate |
| AppState.App.constructor | App.tsx:33-58 | the component's state starts as the given value |
| AppState.App.SaveBooking | App.tsx:271-387 | the new state is AppEngine.SaveBooking of the old |
| AppState.App.ApplyCreate | App.tsx:349-379 | the create branch's setters give AppEngine.CreateBooking of the old state |
| AppState.App.ApplyEdit | App.tsx:290-346 | the edit branch's setters give AppEngine.Edited of the old state |
| AppState.App.CloseForm | App.tsx:381-386 | resets cart, customer, category filter, search and editing id; keeps the dates |
| AppState.App.EditBooking | App.tsx:389-410 | the new state is AppEngine.OpenEdit; a Completed booking changes nothing |
| AppState.App.ApplyRemove | App.tsx:424-436 | the delete's setters give AppEngine.Removed of the old state |
| AppState.App.DeleteBooking | App.tsx:412-438 | the new state is AppEngine.DeleteBooking, and a linked ledger stays linked |
| AppState.App.ReturnEquipment | App.tsx:468-474 | the new state is AppEngine.ReturnEquipment, and a linked ledger stays linked |
| AppState.App.AddPayment | App.tsx:450-466 | the new state is AppEngine.AddPayment, and a linked ledger stays linked |
| AppState.App.AddToCart | App.tsx:440-444 | the new state is AppEngine.AddToCart; a cart of distinct ids stays distinct |
| AppState.App.RemoveFromCart | App.tsx:446-448 | the new state is AppEngine.RemoveFromCart |
| AppState.App.AddCategory | App.tsx:84-88 | the new state is AppEngine.AddCategory |
| AppState.App.DeleteCategory | App.tsx:90-96 | the new state is AppEngine.DeleteCategory |
| AppState.App.DeleteUser | App.tsx:154-162 | the new state is AppEngine.DeleteUser; at least one user remains |
| Store.TextOrAbsent | services/bookingService.ts:95-96 | `x \|\| null`: the empty string becomes absent, any other value is kept |
| Store.NumberOrAbsent | services/customerService.ts:225 | `x ? Number(x) : undefined`: zero becomes absent, any other value is kept |
| CustomerService.Convert | services/customerService.ts:212-226 | the converted record is normalised (no empty optional text, no zero credit limit); a normalised record converts to itself; only the optional fields change |
| CustomerService.Listed | services/customerService.ts:13-37 | every row that is not soft-deleted and matches the kind filter is listed, converted; nothing else is listed |
| CustomerService.CustomerById | services/customerService.ts:42-60 | found exactly when a row has the id, including a soft-deleted row; the result carries that id |
| CustomerService.NewRow | services/customerService.ts:65-95 | a created customer has the new id, balance 0, no deletion mark, and the draft's fields otherwise |
| CustomerService.NewBalance | services/customerService.ts:161-172 | the balance written is the stored balance + amount |
| CustomerService.PatchChangesOnlyPresentKeys | services/customerService.ts:100-121 | updateCustomer writes exactly the keys present in the patch |
| CustomerService.PatchLaws | services/customerService.ts:100-121 | an empty patch changes nothing; applying a patch twice is applying it once |
| CustomerService.SoftDeleteHides | services/customerService.ts:138-143 | after a soft delete the listing is the old listing without that id |
| CustomerService.SoftDeleteKeepsLookup | services/customerService.ts:138-143 | a soft-deleted customer is still found by id, unchanged |
| CustomerService.CreatedReadsBack | services/customerService.ts:65-95 | a created customer is found by its id with balance 0, and ids stay unique |
| CustomerService.BalanceWritten | services/customerService.ts:169-172 | writing a balance sets exactly that customer's balance |
| CustomerService.BalanceAdded | services/customerService.ts:164-172 | updateCustomerBalance leaves the customer at old balance + amount |
| CustomerService.BalanceWrittenElsewhere | services/customerService.ts:169-172 | every other customer reads back unchanged |
| CustomerService.BalanceRoundTrip | services/customerService.ts:161-179 | adding an amount and then its negation restores the table |
| CustomerService.ConvertIgnoresBalance | services/customerService.ts:212-226 | conversion carries the balance through unchanged |
| CustomerService.GetCustomers | services/customerService.ts:13-37 | the listing on a successful read, none on a failed one |
| CustomerService.GetCustomerById | services/customerService.ts:42-60 | the lookup on a successful read, null on a failed one |
| CustomerService.CreateCustomer | services/customerService.ts:65-95 | on a successful insert with a fresh id the row is appended and returned; otherwise nothing changes and null is returned |
| CustomerService.UpdateCustomer | services/customerService.ts:100-133 | on success the patched row is stored and returned converted; an unknown id or write error changes nothing and returns null |
| CustomerService.DeleteCustomer | services/customerService.ts:138-156 | on success deleted_at is set on the row (soft delete), otherwise nothing changes |
| CustomerService.UpdateCustomerBalance | services/customerService.ts:161-184 | true exactly when the read and write succeed and the id exists, and then the balance becomes old + amount; otherwise no change |
| EquipmentService.Convert | services/equipmentService.ts:252-270 | only the six optional fields may change; the result is normalised (no zero rate, no empty text); each optional field is kept unless it is zero or empty, when it becomes absent; a normalised record converts to itself |
| EquipmentService.Listing | services/equipmentService.ts:14-41 | every row matching the category and status filters is listed, converted; every listed item is the conversion of a matching row |
| EquipmentService.UnfilteredListing | services/equipmentService.ts:21-27 | category 'all' or empty filters nothing; with no filters every row is listed |
| EquipmentService.EquipmentPatchOnlyPresentKeys | services/equipmentService.ts:115-136 | updateEquipment writes exactly the keys present in the patch |
| EquipmentService.StatusWrittenExactly | services/equipmentService.ts:185-193 | listed ids get the status, unlisted rows are unchanged, and only the status field ever changes |
| EquipmentService.NoIdsNoChange | services/equipmentService.ts:185-193 | a status write for no ids changes nothing |
| EquipmentService.DeletedIsGone | services/equipmentService.ts:210-212 | after a hard delete no row has the id; all other rows remain |
| EquipmentService.AvailableListing | services/equipmentService.ts:69-71 | the status-Available listing holds exactly the conversions of the Available rows |
| EquipmentService.GetEquipment | services/equipmentService.ts:14-41 | the filtered listing on a successful read, none on a failed one |
| EquipmentService.GetAvailableEquipment | services/equipmentService.ts:69-71 | on a successful read the Listing with status Available, on a failed one nothing; only Available items |
| EquipmentService.UpdateEquipment | services/equipmentService.ts:115-155 | on success the patched row is stored and returned; otherwise no change and null |
| EquipmentService.UpdateEquipmentStatus | services/equipmentService.ts:160-180 | on success only that id's status changes |
| EquipmentService.BulkUpdateEquipmentStatus | services/equipmentService.ts:185-205 | on success exactly the listed ids take the status |
| EquipmentService.DeleteEquipment | services/equipmentService.ts:210-224 | on success the row is removed (hard delete) |
| TransactionService.Convert | services/transactionService.ts:270-281 | only the booking id may change: a non-empty one is kept, an empty one becomes absent |
| TransactionService.NewEntry | services/transactionService.ts:85-97 | the stored entry has the new id and the draft's customer, amount, type and date, and reads back as itself |
| TransactionService.Reversal | services/transactionService.ts:198-199 | the amount deleteTransaction adds cancels the entry's amount |
| TransactionService.PaymentDraft | services/transactionService.ts:119-135 | a Payment of the given amount and method |
| TransactionService.InvoiceDraft | services/transactionService.ts:140-154 | an Invoice of −\|amount\|, always ≤ 0, tied to the booking |
| TransactionService.RefundDraft | services/transactionService.ts:159-173 | a Refund of \|amount\|, always ≥ 0 |
| TransactionService.BookedAppend | services/transactionService.ts:85-97 | an appended entry adds its amount to its customer's ledger sum |
| TransactionService.BookedWithout | services/transactionService.ts:190-191 | removing an entry takes its amount off its customer's ledger sum |
| TransactionService.RecordedKeepsDrift | services/transactionService.ts:81-114 | a successful create moves the balance by the signed amount and keeps every customer's balance − ledger sum |
| TransactionService.RecordedWithoutBalanceDrifts | services/transactionService.ts:99-107 | when the balance step fails after the insert, balance − ledger sum falls by the amount |
| TransactionService.ErasedKeepsDrift | services/transactionService.ts:179-206 | a successful delete keeps every customer's balance − ledger sum |
| TransactionService.ErasedBalance | services/transactionService.ts:198-199 | a successful delete lowers the entry's customer's balance by the entry's amount |
| TransactionService.ErasedBalanceElsewhere | services/transactionService.ts:198-199 | a successful delete leaves every other customer's balance |
| TransactionService.ErasedLedger | services/transactionService.ts:190-191 | a successful delete takes the entry's amount off its own customer's ledger sum only |
| TransactionService.FailedInsertChangesNothing | services/transactionService.ts:99-102 | a failed insert changes no table |
| TransactionService.CreateThenDeleteRestores | services/transactionService.ts:81-206 | creating an entry and deleting it again restores every table |
| TransactionService.HeadIsEarliest | services/transactionService.ts:230 | the first entry of a date-sorted list is no later than any entry in it |
| TransactionService.ConsSorted | services/transactionService.ts:230 | an entry no later than every entry of a sorted list can go in front and the list stays sorted |
| TransactionService.InsertByDate | services/transactionService.ts:230 | inserting into a date-sorted list keeps it sorted and adds exactly the entry |
| TransactionService.ByDate | services/transactionService.ts:230 | the result is sorted by date and is a permutation of the input |
| TransactionService.Statement | services/transactionService.ts:211-242 | sorted by date; holds exactly the conversions of the customer's entries within the given bounds, each as often as the selected entries convert to it |
| TransactionService.ConvertedMembers | services/transactionService.ts:237 | the converted list holds exactly the conversions of the entries |
| TransactionService.ConvertedPermutes | services/transactionService.ts:230-237 | converting two orderings of the same entries gives two orderings of the same results |
| TransactionService.CreateTransaction | services/transactionService.ts:81-114 | returns the entry exactly when the insert succeeds with a fresh id; the tables become Recorded(old) |
| TransactionService.CreatePayment | services/transactionService.ts:119-135 | records a Payment of the given amount |
| TransactionService.CreateInvoice | services/transactionService.ts:140-154 | records an Invoice of amount ≤ 0 |
| TransactionService.CreateRefund | services/transactionService.ts:159-173 | records a Refund of amount ≥ 0 |
| TransactionService.DeleteTransaction | services/transactionService.ts:179-206 | true exactly when the entry exists and the read and delete succeed; the tables become Erased(old) |
| TransactionService.GetCustomerStatement | services/transactionService.ts:211-242 | on a successful read the Statement of the stored entries, on a failed one nothing; date-sorted, the customer's entries within the bounds, converted |
| BookingService.BookingRowById | services/bookingService.ts:52-56 | the row found has the id; none exactly when no row has it |
| BookingService.ItemRowsOf | services/bookingService.ts:63-66 | exactly the lines whose booking id matches |
| BookingService.ConvertBooking | services/bookingService.ts:358-379 | id, customer id and name, dates, status and amounts carried over; empty notes become absent, others are kept; createdAt is the part before the first 'T'; every line's equipment id and name, rate, days and total carried over |
| BookingService.Fetch | services/bookingService.ts:50-74 | a booking is returned only after a successful read of an existing id, and carries that id |
| BookingService.BookingPatchOnlyPresentKeys | services/bookingService.ts:149-166 | updateBooking writes exactly the keys present in the patch |
| BookingService.LinesRoundTrip | services/bookingService.ts:107-115 | the stored lines read back as the lines written |
| BookingService.CreatedAtIsDate | services/bookingService.ts:376 | a timestamp `date + "T…"` reads back as `date` |
| BookingService.FreshLinesAreFound | services/bookingService.ts:107-121 | lines written for a booking no line referred to are exactly its lines afterwards |
| BookingService.CreateSucceeds | services/bookingService.ts:78-139 | on full success the booking reads back as the draft under its new id, and exactly its equipment becomes Rented |
| BookingService.CreateInsertFails | services/bookingService.ts:101-104 | a failed booking insert changes nothing |
| BookingService.CreateItemsFail | services/bookingService.ts:117-126 | a failed line insert never touches equipment; with the rollback every table is restored, without it the booking row stays |
| BookingService.StatusRelease | services/bookingService.ts:183-212 | a failed write changes nothing; a non-Completed status leaves equipment alone; Completed sets exactly the booking's equipment Available |
| BookingService.UnknownBookingUntouched | services/bookingService.ts:224-265 | cancel and delete of an unknown booking change nothing |
| BookingService.DeleteRemoves | services/bookingService.ts:249-272 | on success no row or line of the booking remains, and exactly its equipment becomes Available |
| BookingService.CancelReleases | services/bookingService.ts:224-244 | on success the booking is Cancelled and exactly its equipment becomes Available |
| BookingService.EditDiff | services/bookingService.ts:277-330 | on success the booking's lines are exactly the new ones; other bookings' lines are kept; old\new become Available, new\old become Rented, everything else (including ids in both) is untouched |
| BookingService.OtherLinesKept | services/bookingService.ts:289-301 | replacing one booking's lines keeps every other booking's lines |
| BookingService.EditInsertFailureLosesLines | services/bookingService.ts:289-306 | when the insert fails after the delete, the booking has no lines and equipment is untouched |
| BookingService.GetBookingById | services/bookingService.ts:50-74 | the Fetch of the tables; a returned booking has the id |
| BookingService.CreateBooking | services/bookingService.ts:78-139 | the tables become Created(old); the stored booking is returned only when both inserts succeed |
| BookingService.UpdateBooking | services/bookingService.ts:144-178 | the tables become Updated(old); null on a write error or unknown id, otherwise the re-read booking |
| BookingService.UpdateBookingStatus | services/bookingService.ts:183-212 | answers whether the write succeeded; the tables become StatusChanged(old) |
| BookingService.CompleteBooking | services/bookingService.ts:217-219 | updateBookingStatus with Completed |
| BookingService.CancelBooking | services/bookingService.ts:224-244 | true exactly when the booking is found and the status write succeeds; the tables become CancelledTables(old) |
| BookingService.DeleteBooking | services/bookingService.ts:249-272 | true exactly when the booking is found and the delete succeeds; the tables become DeletedTables(old) |
| BookingService.UpdateBookingItems | services/bookingService.ts:277-330 | answers whether the insert succeeded; the tables become ItemsReplaced(old) |

## Left out

- JSX rendering, navigation, charts and modals other than the booking modal's totals and
  equipment filter are presentation only. `window.confirm` answers are boolean arguments
  and `alert` is dropped.
- The booking modal's name search (App.tsx:1163) is case folding on display names. Strings
  are modelled without case folding, so `AppEngine.ModalEquipment` leaves that filter out.
- The customer, equipment and user save handlers and the customer and equipment delete
  handlers of App.tsx are form plumbing outside the booking/ledger engine.
- `getBookings`, `getTransactions`, `getTransactionsByCustomer`, `getTransactionsByBooking`,
  `getEquipmentById`, `createEquipment`, the `subscribeTo*` channels, the auth, user and
  settings services and the Supabase client are not part of this model.
- Async plumbing, `console.error` and the `try`/`catch` blocks are left out. An exception is
  modelled as the failure of the storage call that raises it.
- Concurrency between interleaved storage calls is not modelled: each method runs alone.
- JavaScript `Date` parsing and floating point: dates are integer day numbers and money is
  an integer. `Number(...)` on stored amounts is the identity.
- Ids from `Math.random()` and the clock are arguments. A fresh id that clashes with a
  stored one is treated as a failed insert (the primary key refuses it).
- The storage tables are kept in insertion order. The `ORDER BY created_at` of the list
  queries is not modelled.
- Duplicate ids that would make `.single()` fail are excluded by the primary key and are
  not modelled.
- `TransactionService.Statement`: the order of entries that share a date is not fixed by
  `order('date')`. The model sorts stably by date and states only that the result is sorted
  and a permutation of the selected entries.
- `CustomerService.Listed` and `EquipmentService.Listing` state membership, not the order
  of the rows returned.
- `DataService.CalculateDays`: states the day count on integer day numbers, not on date
  strings. `DataService.SameMonthDays` relates it to calendar dates within one month.
- `AppEngine.ModalEquipment`: the name-search filter is not modelled (see above).
- The App.tsx handlers read the state from before the call (their setters' closures
  capture it), as the model does. React's batching of several setter calls into one
  render is not modelled.
