/** The App component's state as an object: one field per useState array or input of the
    booking / ledger core, and one method per handler. Each handler replaces the fields its
    setters replace, in the order App.tsx calls them, and its contract ties the new state to
    the AppEngine function of the old state; the invariants proved about those functions
    (AppProperties, AppLedger) are then stated about the object where they hold. */
module AppState {
  import opened Types
  import opened AppEngine
  import opened AppLedger
  import AppProperties
  import DataService

  class App {
    var customers: seq<Customer>
    var equipment: seq<Equipment>
    var bookings: seq<Booking>
    var transactions: seq<Transaction>
    var categories: seq<string>
    var users: seq<User>
    var equipmentCategoryFilter: string
    // the booking modal's inputs
    var bookingCart: seq<Equipment>
    var bookingCustomerId: string
    var bookingStart: Option<int>
    var bookingEnd: Option<int>
    var editingId: string
    var bookingCategoryFilter: string
    var bookingSearchTerm: string

    /** The state as a value. */
    function Snapshot(): AppData
      reads this
    {
      AppData(customers, equipment, bookings, transactions, categories, users, equipmentCategoryFilter,
              BookingForm(bookingCart, bookingCustomerId, bookingStart, bookingEnd, editingId,
                          bookingCategoryFilter, bookingSearchTerm))
    }

    /** The component mounted with the given state (App.tsx seeds it from constants.ts). */
    constructor(s: AppData)
      ensures Snapshot() == s
    {
      customers := s.customers;
      equipment := s.equipment;
      bookings := s.bookings;
      transactions := s.transactions;
      categories := s.categories;
      users := s.users;
      equipmentCategoryFilter := s.equipmentCategoryFilter;
      bookingCart := s.form.cart;
      bookingCustomerId := s.form.customerId;
      bookingStart := s.form.start;
      bookingEnd := s.form.end;
      editingId := s.form.editingId;
      bookingCategoryFilter := s.form.categoryFilter;
      bookingSearchTerm := s.form.searchTerm;
    }

    // ---------------------------------------------------------------- the useState setters

    method SetCustomers(v: seq<Customer>)
      modifies this
      ensures Snapshot() == old(Snapshot()).(customers := v)
    {
      customers := v;
    }

    method SetEquipment(v: seq<Equipment>)
      modifies this
      ensures Snapshot() == old(Snapshot()).(equipment := v)
    {
      equipment := v;
    }

    method SetBookings(v: seq<Booking>)
      modifies this
      ensures Snapshot() == old(Snapshot()).(bookings := v)
    {
      bookings := v;
    }

    method SetTransactions(v: seq<Transaction>)
      modifies this
      ensures Snapshot() == old(Snapshot()).(transactions := v)
    {
      transactions := v;
    }

    method SetCategories(v: seq<string>)
      modifies this
      ensures Snapshot() == old(Snapshot()).(categories := v)
    {
      categories := v;
    }

    method SetUsers(v: seq<User>)
      modifies this
      ensures Snapshot() == old(Snapshot()).(users := v)
    {
      users := v;
    }

    method SetEquipmentCategoryFilter(v: string)
      modifies this
      ensures Snapshot() == old(Snapshot()).(equipmentCategoryFilter := v)
    {
      equipmentCategoryFilter := v;
    }

    method SetBookingCart(v: seq<Equipment>)
      modifies this
      ensures Snapshot() == old(Snapshot()).(form := old(Snapshot()).form.(cart := v))
    {
      bookingCart := v;
    }

    method SetBookingCustomerId(v: string)
      modifies this
      ensures Snapshot() == old(Snapshot()).(form := old(Snapshot()).form.(customerId := v))
    {
      bookingCustomerId := v;
    }

    method SetBookingDates(start: Option<int>, end: Option<int>)
      modifies this
      ensures Snapshot() == old(Snapshot()).(form := old(Snapshot()).form.(start := start, end := end))
    {
      bookingStart := start;
      bookingEnd := end;
    }

    method SetEditingId(v: string)
      modifies this
      ensures Snapshot() == old(Snapshot()).(form := old(Snapshot()).form.(editingId := v))
    {
      editingId := v;
    }

    method SetBookingCategoryFilter(v: string)
      modifies this
      ensures Snapshot() == old(Snapshot()).(form := old(Snapshot()).form.(categoryFilter := v))
    {
      bookingCategoryFilter := v;
    }

    method SetBookingSearchTerm(v: string)
      modifies this
      ensures Snapshot() == old(Snapshot()).(form := old(Snapshot()).form.(searchTerm := v))
    {
      bookingSearchTerm := v;
    }

    // ---------------------------------------------------------------- the handlers

    /** The modal reset at the end of a save (App.tsx:381-386). */
    method CloseForm()
      modifies this
      ensures Snapshot() == old(Snapshot()).(form := ClosedForm(old(Snapshot()).form))
    {
      SetBookingCart([]);
      SetBookingCustomerId("");
      SetBookingCategoryFilter(AllFilter);
      SetBookingSearchTerm("");
      SetEditingId("");
    }

    /** The edit branch of handleSaveBooking (App.tsx:290-346) once `prior` is found. */
    method ApplyEdit(prior: Booking, cust: Customer, items: seq<BookingItem>, start: int, end: int, total: int)
      modifies this
      ensures Snapshot() == Edited(old(Snapshot()), prior, cust, items, start, end, total)
    {
      SetBookings(Revise(bookings, prior.id, cust, items, start, end, total));
      SetEquipment(Restatus(equipment, ItemIds(prior.items), ItemIds(items)));
      SetTransactions(Reprice(transactions, prior.id, total));
      SetCustomers(AdjustBalance(customers, cust.id, total - prior.totalAmount));
    }

    /** The create branch of handleSaveBooking (App.tsx:349-379). */
    method ApplyCreate(cust: Customer, items: seq<BookingItem>, total: int,
                       newBookingId: string, newTransactionId: string,
                       nowIso: string, today: int, description: string)
      requires ReadyToSave(Snapshot())
      modifies this
      ensures Snapshot() == CreateBooking(old(Snapshot()), cust, items, total, newBookingId, newTransactionId,
                                          nowIso, today, description)
    {
      var b := Booking(newBookingId, cust.id, cust.name, items, bookingStart.value, bookingEnd.value,
                       total, 0, 0, BookingStatus.Active, None, DataService.DatePart(nowIso));
      SetBookings([b] + bookings);
      SetEquipment(WithStatus(equipment, ItemIds(items), Rented));
      var t := Transaction(newTransactionId, cust.id, Some(b.id), today, -total, Invoice, description, None);
      SetTransactions([t] + transactions);
      SetCustomers(AdjustBalance(customers, cust.id, total));
    }

    /** handleSaveBooking (App.tsx:271-387). */
    method SaveBooking(newBookingId: string, newTransactionId: string,
                       nowIso: string, today: int, description: string)
      modifies this
      ensures Snapshot() == AppEngine.SaveBooking(old(Snapshot()), newBookingId, newTransactionId,
                                                  nowIso, today, description)
    {
      ghost var s := Snapshot();
      if !ReadyToSave(Snapshot()) {
        return;
      }
      var cust := CustomerWithId(customers, bookingCustomerId).value;
      var days := DataService.CalculateDays(bookingStart.value, bookingEnd.value);
      var items := Lines(bookingCart, days);
      var total := LinesTotal(items);
      if editingId != "" {
        var found := BookingWithId(bookings, editingId);
        if found.Some? {
          ApplyEdit(found.value, cust, items, bookingStart.value, bookingEnd.value, total);
          AppProperties.EditShape(s, newBookingId, newTransactionId, nowIso, today, description, found.value);
        } else {
          AppProperties.EditOfMissingBookingOnlyClosesForm(s, newBookingId, newTransactionId, nowIso, today, description);
        }
      } else {
        ApplyCreate(cust, items, total, newBookingId, newTransactionId, nowIso, today, description);
        AppProperties.CreateShape(s, newBookingId, newTransactionId, nowIso, today, description);
      }
      CloseForm();
    }

    /** handleEditBooking (App.tsx:389-410). */
    method EditBooking(b: Booking)
      modifies this
      ensures Snapshot() == OpenEdit(old(Snapshot()), b)
      ensures b.status == BookingStatus.Completed ==> unchanged(this)
    {
      if b.status == BookingStatus.Completed {
        return;
      }
      SetEditingId(b.id);
      SetBookingCustomerId(b.customerId);
      SetBookingDates(Some(b.startDate), Some(b.endDate));
      SetBookingCart(EquipmentIn(equipment, ItemIds(b.items)));
    }

    /** The updates of an allowed delete of `b` (App.tsx:425-436), given the invoice lookup. */
    method ApplyRemove(b: Booking, invoice: Option<Transaction>)
      modifies this
      ensures Snapshot() == Removed(old(Snapshot()), b, invoice)
    {
      SetEquipment(WithStatus(equipment, ItemIds(b.items), Available));
      SetBookings(WithoutBooking(bookings, b.id));
      if invoice.Some? {
        SetCustomers(AdjustBalance(customers, b.customerId, -Magnitude(invoice.value.amount)));
        SetTransactions(WithoutEntriesOf(transactions, b.id));
      }
    }

    /** handleDeleteBooking (App.tsx:412-438); a booking ledger that was consistent stays so. */
    method DeleteBooking(id: string, role: Option<UserRole>, confirmed: bool)
      modifies this
      ensures Snapshot() == AppEngine.DeleteBooking(old(Snapshot()), id, role, confirmed)
      ensures old(Linked(Snapshot()) && CustomersKnown(Snapshot()) && UniqueCustomerIds(customers))
              ==> Linked(Snapshot())
    {
      ghost var s := Snapshot();
      if role != Some(Admin) || !confirmed {
        return;
      }
      var found := BookingWithId(bookings, id);
      if found.None? {
        return;
      }
      var b := found.value;
      ApplyRemove(b, InvoiceOf(transactions, id));
      AppProperties.DeleteShape(s, id, b);
      if Linked(s) && CustomersKnown(s) && UniqueCustomerIds(s.customers) {
        DeleteKeepsLedger(s, id, "");
      }
    }

    /** handleReturnEquipment (App.tsx:468-474). */
    method ReturnEquipment(id: string)
      modifies this
      ensures Snapshot() == AppEngine.ReturnEquipment(old(Snapshot()), id)
      ensures old(Linked(Snapshot())) ==> Linked(Snapshot())
    {
      ghost var s := Snapshot();
      var found := BookingWithId(bookings, id);
      if found.None? {
        return;
      }
      SetBookings(Complete(bookings, id));
      SetEquipment(WithStatus(equipment, ItemIds(found.value.items), Available));
      ReturnKeepsLedger(s, id, "");
    }

    /** handleAddPayment (App.tsx:450-466). */
    method AddPayment(selected: Option<Customer>, amount: int, payMethod: PaymentMethod,
                      newTransactionId: string, today: int, description: string)
      modifies this
      ensures Snapshot() == AppEngine.AddPayment(old(Snapshot()), selected, amount, payMethod,
                                                 newTransactionId, today, description)
      ensures old(Linked(Snapshot())) ==> Linked(Snapshot())
    {
      ghost var s := Snapshot();
      if selected.None? {
        return;
      }
      var c := selected.value;
      var t := Transaction(newTransactionId, c.id, None, today, amount, Payment, description, Some(payMethod));
      SetTransactions([t] + transactions);
      SetCustomers(AdjustBalance(customers, c.id, -amount));
      if Linked(s) {
        PaymentKeepsLinked(s, selected, amount, payMethod, newTransactionId, today, description);
      }
    }

    /** addToCart (App.tsx:440-444). */
    method AddToCart(item: Equipment)
      modifies this
      ensures Snapshot() == AppEngine.AddToCart(old(Snapshot()), item)
      ensures old(AppProperties.DistinctCartIds(bookingCart)) ==> AppProperties.DistinctCartIds(bookingCart)
    {
      ghost var s := Snapshot();
      if Seqs.Find(bookingCart, (e: Equipment) => e.id == item.id).None? {
        SetBookingCart(bookingCart + [item]);
      }
      if AppProperties.DistinctCartIds(s.form.cart) {
        AppProperties.AddToCartKeepsIdsDistinct(s, item);
      }
    }

    /** removeFromCart (App.tsx:446-448). */
    method RemoveFromCart(itemId: string)
      modifies this
      ensures Snapshot() == AppEngine.RemoveFromCart(old(Snapshot()), itemId)
    {
      SetBookingCart(WithoutCartItem(bookingCart, itemId));
    }

    /** handleAddCategory (App.tsx:84-88). */
    method AddCategory(category: string)
      modifies this
      ensures Snapshot() == AppEngine.AddCategory(old(Snapshot()), category)
    {
      if category != "" && category !in categories {
        SetCategories(categories + [category]);
      }
    }

    /** handleDeleteCategory (App.tsx:90-96). */
    method DeleteCategory(category: string, confirmed: bool)
      modifies this
      ensures Snapshot() == AppEngine.DeleteCategory(old(Snapshot()), category, confirmed)
    {
      if !confirmed {
        return;
      }
      SetCategories(WithoutCategory(categories, category));
      if equipmentCategoryFilter == category {
        SetEquipmentCategoryFilter(AllFilter);
      }
      if bookingCategoryFilter == category {
        SetBookingCategoryFilter(AllFilter);
      }
    }

    /** handleDeleteUser (App.tsx:154-162): the last user stays. */
    method DeleteUser(id: string, confirmed: bool)
      modifies this
      ensures Snapshot() == AppEngine.DeleteUser(old(Snapshot()), id, confirmed)
      ensures old(|users| >= 1 && AppProperties.DistinctUserIds(users)) ==> |users| >= 1
    {
      ghost var s := Snapshot();
      if |users| <= 1 || !confirmed {
        return;
      }
      SetUsers(WithoutUser(users, id));
      if AppProperties.DistinctUserIds(s.users) {
        AppProperties.DeleteUserKeepsAUser(s, id, confirmed);
      }
    }
  }
}
