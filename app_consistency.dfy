/** Two promises of App.tsx's booking flow beyond the ledger. The inventory rule: a piece of
    equipment is Rented exactly when some Active booking lists it. The create handler keeps
    it whatever the cart holds; a return, a delete or an edit of an Active booking keeps it only
    when no other Active booking lists the released items, because each sets every item it
    releases Available; an edit of a Pending booking rents its items all the same. And an
    edit that is opened and saved again unchanged leaves the state alone only while the
    current equipment still prices the booking as it was stored. */
module AppConsistency {
  import opened Types
  import opened Seqs
  import opened AppEngine
  import AppProperties
  import DataService

  // ---------------------------------------------------------------- the inventory rule

  /** Some Active booking lists the equipment id. */
  predicate HeldByActive(bookings: seq<Booking>, id: string)
  {
    exists b :: b in bookings && b.status == BookingStatus.Active && id in ItemIds(b.items)
  }

  /** Every piece of equipment is Rented exactly when an Active booking lists it. */
  predicate InventoryConsistent(s: AppData)
  {
    forall e :: e in s.equipment ==> (e.status == Rented <==> HeldByActive(s.bookings, e.id))
  }

  /** The create branch keeps the rule for any lines: the new booking is Active and lists
      exactly the ids its equipment update marks Rented, and nothing else changes status. */
  lemma CreateKeepsInventory(s: AppData, cust: Customer, items: seq<BookingItem>, total: int,
                             newBookingId: string, newTransactionId: string,
                             nowIso: string, today: int, description: string)
    requires ReadyToSave(s) && InventoryConsistent(s)
    ensures InventoryConsistent(CreateBooking(s, cust, items, total, newBookingId, newTransactionId,
                                              nowIso, today, description))
  {
    var s' := CreateBooking(s, cust, items, total, newBookingId, newTransactionId, nowIso, today, description);
    var b := s'.bookings[0];
    assert s'.bookings == [b] + s.bookings;
    forall e | e in s'.equipment
      ensures e.status == Rented <==> HeldByActive(s'.bookings, e.id)
    {
      var i :| 0 <= i < |s'.equipment| && s'.equipment[i] == e;
      var before := s.equipment[i];
      assert before in s.equipment;
      if before.id in ItemIds(items) {
        assert b in s'.bookings;
      } else {
        if HeldByActive(s'.bookings, e.id) {
          var h :| h in s'.bookings && h.status == BookingStatus.Active && e.id in ItemIds(h.items);
          assert h in s.bookings;
        }
        if HeldByActive(s.bookings, e.id) {
          var h :| h in s.bookings && h.status == BookingStatus.Active && e.id in ItemIds(h.items);
          assert h in s'.bookings;
        }
      }
    }
  }

  /** handleSaveBooking without a booking being edited keeps the rule. */
  lemma SaveNewKeepsInventory(s: AppData, newBookingId: string, newTransactionId: string,
                              nowIso: string, today: int, description: string)
    requires InventoryConsistent(s) && s.form.editingId == ""
    ensures InventoryConsistent(SaveBooking(s, newBookingId, newTransactionId, nowIso, today, description))
  {
    if ReadyToSave(s) {
      AppProperties.CreateShape(s, newBookingId, newTransactionId, nowIso, today, description);
      var cust := CustomerWithId(s.customers, s.form.customerId).value;
      var items := FormLines(s);
      CreateKeepsInventory(s, cust, items, LinesTotal(items), newBookingId, newTransactionId,
                           nowIso, today, description);
    }
  }

  /** No Active booking other than the ones with id `id` lists an item of `b`. */
  predicate Exclusive(bookings: seq<Booking>, id: string, b: Booking)
  {
    forall x, k :: x in bookings && x.status == BookingStatus.Active && x.id != id && k in ItemIds(b.items)
      ==> k !in ItemIds(x.items)
  }

  /** Releasing the items of `b` keeps the rule when the Active bookings afterwards are the
      Active bookings before with an id other than b's, and no other Active booking lists
      an item of `b`. */
  lemma ReleaseKeepsInventory(s: AppData, b: Booking, bookings': seq<Booking>)
    requires InventoryConsistent(s) && b in s.bookings
    requires forall x :: x in s.bookings && x.id == b.id ==> x == b
    requires Exclusive(s.bookings, b.id, b)
    requires forall x :: x in bookings' && x.status == BookingStatus.Active ==> x in s.bookings && x.id != b.id
    requires forall x :: x in s.bookings && x.status == BookingStatus.Active && x.id != b.id ==> x in bookings'
    ensures InventoryConsistent(s.(bookings := bookings', equipment := WithStatus(s.equipment, ItemIds(b.items), Available)))
  {
    var equipment' := WithStatus(s.equipment, ItemIds(b.items), Available);
    forall e | e in equipment'
      ensures e.status == Rented <==> HeldByActive(bookings', e.id)
    {
      var i :| 0 <= i < |equipment'| && equipment'[i] == e;
      var before := s.equipment[i];
      assert before in s.equipment;
      if before.id in ItemIds(b.items) {
        forall h | h in bookings' && h.status == BookingStatus.Active
          ensures e.id !in ItemIds(h.items)
        {
          assert h in s.bookings && h.id != b.id;
        }
      } else {
        if HeldByActive(bookings', e.id) {
          var h :| h in bookings' && h.status == BookingStatus.Active && e.id in ItemIds(h.items);
          assert h in s.bookings;
        }
        if HeldByActive(s.bookings, e.id) {
          var h :| h in s.bookings && h.status == BookingStatus.Active && e.id in ItemIds(h.items);
          assert h.id != b.id;
          assert h in bookings';
        }
      }
    }
  }

  /** handleReturnEquipment keeps the rule for a booking whose id is its own and whose items
      no other Active booking lists. */
  lemma ReturnKeepsInventory(s: AppData, id: string, b: Booking)
    requires InventoryConsistent(s) && BookingWithId(s.bookings, id) == Some(b)
    requires forall x :: x in s.bookings && x.id == id ==> x == b
    requires Exclusive(s.bookings, id, b)
    ensures InventoryConsistent(ReturnEquipment(s, id))
  {
    var bookings' := Complete(s.bookings, id);
    forall x | x in bookings' && x.status == BookingStatus.Active
      ensures x in s.bookings && x.id != b.id
    {
      var j :| 0 <= j < |bookings'| && bookings'[j] == x;
      assert s.bookings[j] in s.bookings;
    }
    forall x | x in s.bookings && x.status == BookingStatus.Active && x.id != b.id
      ensures x in bookings'
    {
      var j :| 0 <= j < |s.bookings| && s.bookings[j] == x;
      assert bookings'[j] == x;
    }
    ReleaseKeepsInventory(s, b, bookings');
  }

  /** handleDeleteBooking keeps the rule under the same condition. */
  lemma DeleteKeepsInventory(s: AppData, id: string, b: Booking, role: Option<UserRole>, confirmed: bool)
    requires InventoryConsistent(s) && BookingWithId(s.bookings, id) == Some(b)
    requires forall x :: x in s.bookings && x.id == id ==> x == b
    requires Exclusive(s.bookings, id, b)
    ensures InventoryConsistent(DeleteBooking(s, id, role, confirmed))
  {
    if role == Some(Admin) && confirmed {
      ReleaseKeepsInventory(s, b, WithoutBooking(s.bookings, id));
    }
  }

  /** After the edit of an Active booking, that booking holds every item it now lists. */
  lemma RevisedHolds(bookings: seq<Booking>, b: Booking, cust: Customer, items: seq<BookingItem>,
                     start: int, end: int, total: int, id: string)
    requires b in bookings && b.status == BookingStatus.Active && id in ItemIds(items)
    ensures HeldByActive(Revise(bookings, b.id, cust, items, start, end, total), id)
  {
    var j :| 0 <= j < |bookings| && bookings[j] == b;
    assert Revise(bookings, b.id, cust, items, start, end, total)[j] == Revised(b, cust, items, start, end, total);
  }

  /** An item the edit drops is held by no Active booking when no other Active booking
      listed an item of the edited one. */
  lemma RevisedReleases(bookings: seq<Booking>, b: Booking, cust: Customer, items: seq<BookingItem>,
                        start: int, end: int, total: int, id: string)
    requires Exclusive(bookings, b.id, b) && id in ItemIds(b.items) && id !in ItemIds(items)
    ensures !HeldByActive(Revise(bookings, b.id, cust, items, start, end, total), id)
  {
    var bookings' := Revise(bookings, b.id, cust, items, start, end, total);
    forall h | h in bookings' && h.status == BookingStatus.Active
      ensures id !in ItemIds(h.items)
    {
      var k :| 0 <= k < |bookings'| && bookings'[k] == h;
      assert bookings[k] in bookings;
    }
  }

  /** A holder after the edit of an item the edited booking does not list was a holder before. */
  lemma RevisedHolderWasHolder(bookings: seq<Booking>, b: Booking, cust: Customer, items: seq<BookingItem>,
                               start: int, end: int, total: int, id: string)
    requires id !in ItemIds(items)
    requires HeldByActive(Revise(bookings, b.id, cust, items, start, end, total), id)
    ensures HeldByActive(bookings, id)
  {
    var bookings' := Revise(bookings, b.id, cust, items, start, end, total);
    var h :| h in bookings' && h.status == BookingStatus.Active && id in ItemIds(h.items);
    var k :| 0 <= k < |bookings'| && bookings'[k] == h;
    assert bookings[k].id != b.id;
    assert bookings[k] in bookings;
  }

  /** A holder before the edit of an item the edited booking did not list stays a holder. */
  lemma HolderStaysHolder(bookings: seq<Booking>, b: Booking, cust: Customer, items: seq<BookingItem>,
                          start: int, end: int, total: int, id: string)
    requires forall x :: x in bookings && x.id == b.id ==> x == b
    requires id !in ItemIds(b.items) && HeldByActive(bookings, id)
    ensures HeldByActive(Revise(bookings, b.id, cust, items, start, end, total), id)
  {
    var bookings' := Revise(bookings, b.id, cust, items, start, end, total);
    var h :| h in bookings && h.status == BookingStatus.Active && id in ItemIds(h.items);
    assert h.id != b.id;
    var k :| 0 <= k < |bookings| && bookings[k] == h;
    assert bookings'[k] == h;
  }

  /** The edit branch keeps the rule for an Active booking whose id is its own when no other
      Active booking lists an item of the booking: the items it drops become Available, the
      items it lists become Rented and are held by it, since it stays Active. */
  lemma EditKeepsInventory(s: AppData, b: Booking, cust: Customer, items: seq<BookingItem>,
                           start: int, end: int, total: int)
    requires InventoryConsistent(s) && BookingWithId(s.bookings, b.id) == Some(b)
    requires b.status == BookingStatus.Active
    requires forall x :: x in s.bookings && x.id == b.id ==> x == b
    requires Exclusive(s.bookings, b.id, b)
    ensures InventoryConsistent(Edited(s, b, cust, items, start, end, total))
  {
    var bookings' := Revise(s.bookings, b.id, cust, items, start, end, total);
    var equipment' := Restatus(s.equipment, ItemIds(b.items), ItemIds(items));
    forall e | e in equipment'
      ensures e.status == Rented <==> HeldByActive(bookings', e.id)
    {
      var i :| 0 <= i < |equipment'| && equipment'[i] == e;
      var before := s.equipment[i];
      assert before in s.equipment;
      if before.id in ItemIds(items) {
        RevisedHolds(s.bookings, b, cust, items, start, end, total, e.id);
      } else if before.id in ItemIds(b.items) {
        RevisedReleases(s.bookings, b, cust, items, start, end, total, e.id);
      } else {
        if HeldByActive(bookings', e.id) {
          RevisedHolderWasHolder(s.bookings, b, cust, items, start, end, total, e.id);
        }
        if HeldByActive(s.bookings, e.id) {
          HolderStaysHolder(s.bookings, b, cust, items, start, end, total, e.id);
        }
      }
    }
  }

  // ---------------------------------------------------------------- a shared item

  /** Equipment E-1, Rented. */
  function Drill(): Equipment
  {
    Equipment("E-1", "Drill", "SN-1", "Tools", "Bosch", "GBH", New, Owned, Rented, 100,
              None, None, None, None, None, None)
  }

  /** A one-day booking of E-1 with the given id and status. */
  function Hire(id: string, status: BookingStatus): Booking
  {
    Booking(id, "C-1", "Client", [BookingItem("E-1", "Drill", 100, 1, 100)], 10, 10, 100, 0, 0,
            status, None, "2024-01-10")
  }

  /** B-1 (in the given status) and the Active B-2 both list E-1. */
  function SharedItem(first: BookingStatus): AppData
  {
    AppData([], [Drill()], [Hire("B-1", first), Hire("B-2", BookingStatus.Active)], [], [], [], AllFilter,
            BookingForm([], "", None, None, "", AllFilter, ""))
  }

  /** The shared state satisfies the rule whatever B-1's status: E-1 is Rented and B-2 lists it. */
  lemma SharedItemConsistent(first: BookingStatus)
    ensures InventoryConsistent(SharedItem(first))
  {
    assert Hire("B-2", BookingStatus.Active) in SharedItem(first).bookings;
    assert ItemIds(Hire("B-2", BookingStatus.Active).items)[0] == "E-1";
  }

  /** Returning B-1 releases E-1 although the Active B-2 still lists it, whether B-1 was
      Active or already Completed. */
  lemma ReturnBreaksSharedItem(first: BookingStatus)
    ensures InventoryConsistent(SharedItem(first))
    ensures !InventoryConsistent(ReturnEquipment(SharedItem(first), "B-1"))
  {
    SharedItemConsistent(first);
    var s' := ReturnEquipment(SharedItem(first), "B-1");
    assert s'.bookings[1] == Hire("B-2", BookingStatus.Active);
    assert ItemIds(s'.bookings[1].items)[0] == "E-1";
    assert s'.equipment[0].status == Available;
  }

  /** Deleting B-1 releases E-1 in the same way, whatever B-1's status. */
  lemma DeleteBreaksSharedItem(first: BookingStatus)
    ensures InventoryConsistent(SharedItem(first))
    ensures !InventoryConsistent(DeleteBooking(SharedItem(first), "B-1", Some(Admin), true))
  {
    SharedItemConsistent(first);
    var s := SharedItem(first);
    var s' := DeleteBooking(s, "B-1", Some(Admin), true);
    assert s'.bookings == WithoutBooking(s.bookings, "B-1");
    assert Hire("B-2", BookingStatus.Active) in s'.bookings;
    assert ItemIds(Hire("B-2", BookingStatus.Active).items)[0] == "E-1";
    assert s'.equipment[0].status == Available;
  }

  /** Customer C-1, the one the witness bookings are made for, with a balance of 100. */
  function Renter(): Customer
  {
    Customer("C-1", "Client", Client, "ID-1", "0500", None, None, None, None, 100, CustomerStatus.Active, None)
  }

  /** Editing B-1 to hire E-2 instead releases E-1 although the Active B-2 still lists it. */
  lemma EditBreaksSharedItem()
    ensures InventoryConsistent(SharedItem(BookingStatus.Active))
    ensures !InventoryConsistent(Edited(SharedItem(BookingStatus.Active), Hire("B-1", BookingStatus.Active), Renter(),
                                        [BookingItem("E-2", "Saw", 100, 1, 100)], 10, 10, 100))
  {
    SharedItemConsistent(BookingStatus.Active);
    var s' := Edited(SharedItem(BookingStatus.Active), Hire("B-1", BookingStatus.Active), Renter(),
                     [BookingItem("E-2", "Saw", 100, 1, 100)], 10, 10, 100);
    assert ItemIds(Hire("B-1", BookingStatus.Active).items)[0] == "E-1";
    assert s'.bookings[1] == Hire("B-2", BookingStatus.Active);
    assert ItemIds(s'.bookings[1].items)[0] == "E-1";
    assert s'.equipment[0].status == Available;
  }

  /** A Pending B-1 listing an Available E-1, with no Active booking. */
  function PendingHire(): AppData
  {
    AppData([Renter()], [Drill().(status := Available)], [Hire("B-1", BookingStatus.Pending)], [], [], [],
            AllFilter, BookingForm([], "", None, None, "", AllFilter, ""))
  }

  /** Editing a booking that is not Active (only Completed ones are refused) keeps its
      status but marks its items Rented, so E-1 becomes Rented with no Active booking
      listing it. */
  lemma EditRentsForPending()
    ensures InventoryConsistent(PendingHire())
    ensures var b := Hire("B-1", BookingStatus.Pending);
            !InventoryConsistent(Edited(PendingHire(), b, Renter(), b.items, 10, 10, 100))
  {
    var b := Hire("B-1", BookingStatus.Pending);
    var s' := Edited(PendingHire(), b, Renter(), b.items, 10, 10, 100);
    assert ItemIds(b.items)[0] == "E-1";
    assert s'.equipment[0].status == Rented;
    assert s'.bookings[0].status == BookingStatus.Pending;
  }

  // ---------------------------------------------------------------- saving an edit again

  /** Crediting a balance with nothing changes no customer. */
  lemma NoCreditChangesNothing(customers: seq<Customer>, id: string)
    ensures AdjustBalance(customers, id, 0) == customers
  {
    var r := AdjustBalance(customers, id, 0);
    assert forall i :: 0 <= i < |r| ==> r[i] == customers[i];
  }

  /** The edit diff over a cart rebuilt from the booking's own Rented equipment changes no
      equipment: every item it marks Rented already is, and it releases none. */
  lemma RerentChangesNothing(equipment: seq<Equipment>, oldIds: seq<string>)
    requires forall e :: e in equipment && e.id in oldIds ==> e.status == Rented
    ensures Restatus(equipment, oldIds, CartIds(EquipmentIn(equipment, oldIds))) == equipment
  {
    var cart := EquipmentIn(equipment, oldIds);
    var newIds := CartIds(cart);
    var r := Restatus(equipment, oldIds, newIds);
    forall k | 0 <= k < |newIds|
      ensures newIds[k] in oldIds
    {
      assert cart[k] in cart;
    }
    forall i | 0 <= i < |equipment|
      ensures r[i] == equipment[i]
    {
      var e := equipment[i];
      if e.id in oldIds {
        assert e in cart;
        var k :| 0 <= k < |cart| && cart[k] == e;
        assert newIds[k] == e.id;
      }
    }
  }

  /** Re-pricing a booking's invoices at the total they already carry changes no entry. */
  lemma SamePriceChangesNothing(transactions: seq<Transaction>, bookingId: string, total: int)
    requires forall t :: t in transactions && t.bookingId == Some(bookingId) && t.kind == Invoice ==> t.amount == -total
    ensures Reprice(transactions, bookingId, total) == transactions
  {
    var r := Reprice(transactions, bookingId, total);
    forall i | 0 <= i < |r|
      ensures r[i] == transactions[i]
    {
      assert transactions[i] in transactions;
    }
  }

  /** `s2` has the customers, equipment and ledger of `s1` and the same bookings, except that
      the bookings with b's id carry b's customer, dates and total with their own status (and
      may carry other lines). */
  predicate SameButLines(s1: AppData, s2: AppData, b: Booking)
  {
    && s2.customers == s1.customers && s2.equipment == s1.equipment && s2.transactions == s1.transactions
    && |s2.bookings| == |s1.bookings|
    && (forall i :: 0 <= i < |s1.bookings| && s1.bookings[i].id != b.id ==> s2.bookings[i] == s1.bookings[i])
    && (forall i :: 0 <= i < |s1.bookings| && s1.bookings[i].id == b.id ==>
          s2.bookings[i].totalAmount == b.totalAmount && s2.bookings[i].customerId == b.customerId
          && s2.bookings[i].startDate == b.startDate && s2.bookings[i].endDate == b.endDate
          && s2.bookings[i].status == s1.bookings[i].status)
  }

  /** The edit branch run at the booking's own customer, dates and total changes no customer,
      equipment or ledger entry, and keeps every booking but the lines of the edited one. */
  lemma EditedAtSameTotal(s: AppData, b: Booking, cust: Customer, items: seq<BookingItem>)
    requires BookingWithId(s.bookings, b.id) == Some(b) && cust.id == b.customerId
    requires forall e :: e in s.equipment && e.id in ItemIds(b.items) ==> e.status == Rented
    requires forall t :: t in s.transactions && t.bookingId == Some(b.id) && t.kind == Invoice ==> t.amount == -b.totalAmount
    requires ItemIds(items) == CartIds(EquipmentIn(s.equipment, ItemIds(b.items)))
    ensures SameButLines(s, Edited(s, b, cust, items, b.startDate, b.endDate, b.totalAmount), b)
  {
    NoCreditChangesNothing(s.customers, cust.id);
    RerentChangesNothing(s.equipment, ItemIds(b.items));
    SamePriceChangesNothing(s.transactions, b.id, b.totalAmount);
  }

  /** Only the arrays matter to SameButLines: neither the form of the first state nor that
      of the second changes the verdict. */
  lemma SameButLinesIgnoresForms(s: AppData, o: AppData, x: AppData, f: BookingForm, b: Booking)
    requires o.customers == s.customers && o.equipment == s.equipment
    requires o.transactions == s.transactions && o.bookings == s.bookings
    requires SameButLines(o, x, b)
    ensures SameButLines(s, x.(form := f), b)
  {
  }

  /** When a form loaded with booking `b` passes the save guard and its cart still prices
      at b's stored total, the save runs the edit branch on `b` itself, at b's customer,
      dates and total. */
  lemma ResaveShape(o: AppData, b: Booking, newBookingId: string, newTransactionId: string,
                    nowIso: string, today: int, description: string)
    requires ReadyToSave(o) && o.form.editingId == b.id && b.id != ""
    requires o.form.customerId == b.customerId
    requires o.form.start == Some(b.startDate) && o.form.end == Some(b.endDate)
    requires BookingWithId(o.bookings, b.id) == Some(b)
    requires FormDays(o) * RateSum(o.form.cart) == b.totalAmount
    ensures SaveBooking(o, newBookingId, newTransactionId, nowIso, today, description)
            == Edited(o, b, CustomerWithId(o.customers, b.customerId).value, FormLines(o),
                      b.startDate, b.endDate, b.totalAmount).(form := ClosedForm(o.form))
  {
    AppProperties.EditShape(o, newBookingId, newTransactionId, nowIso, today, description, b);
    AppProperties.LinesTotalIsDaysTimesRates(o.form.cart, FormDays(o));
  }

  /** Opening a booking for editing and saving it at once (handleEditBooking, then
      handleSaveBooking) leaves customers, equipment and ledger alone and keeps every
      booking's id, customer, dates, total and status (SameButLines), provided the booking is
      not Completed, no other booking carries its id, the equipment its lines name is still
      Rented, its invoices carry -total, and the day count times the current daily rates of
      that equipment (the cart the edit rebuilds) is still the stored total. */
  lemma ResaveKeepsState(s: AppData, b: Booking, newBookingId: string, newTransactionId: string,
                         nowIso: string, today: int, description: string)
    requires BookingWithId(s.bookings, b.id) == Some(b) && b.id != "" && b.status != BookingStatus.Completed
    requires forall x :: x in s.bookings && x.id == b.id ==> x == b
    requires forall e :: e in s.equipment && e.id in ItemIds(b.items) ==> e.status == Rented
    requires forall t :: t in s.transactions && t.bookingId == Some(b.id) && t.kind == Invoice ==> t.amount == -b.totalAmount
    requires DataService.CalculateDays(b.startDate, b.endDate) * RateSum(EquipmentIn(s.equipment, ItemIds(b.items)))
             == b.totalAmount
    ensures SameButLines(s, SaveBooking(OpenEdit(s, b), newBookingId, newTransactionId, nowIso, today, description), b)
  {
    var o := OpenEdit(s, b);
    if ReadyToSave(o) {
      ResaveShape(o, b, newBookingId, newTransactionId, nowIso, today, description);
      AppProperties.LinesKeepCartIds(o.form.cart, FormDays(o));
      var cust := CustomerWithId(o.customers, b.customerId).value;
      var x := Edited(o, b, cust, FormLines(o), b.startDate, b.endDate, b.totalAmount);
      EditedAtSameTotal(o, b, cust, FormLines(o));
      SameButLinesIgnoresForms(s, o, x, ClosedForm(o.form), b);
    } else {
      forall i | 0 <= i < |s.bookings| && s.bookings[i].id == b.id
        ensures s.bookings[i] == b
      {
        assert s.bookings[i] in s.bookings;
      }
    }
  }

  /** A booking of E-1 made at 100 a day for one day, for customer C-1 whose balance holds
      the 100 invoiced by T-1, with E-1's daily rate since raised to `rate`. */
  function RaisedRateState(rate: int): AppData
  {
    AppData([Renter()],
            [Drill().(dailyRate := rate)],
            [Hire("B-1", BookingStatus.Active)],
            [Transaction("T-1", "C-1", Some("B-1"), 10, -100, Invoice, "B-1", None)],
            [], [], AllFilter, BookingForm([], "", None, None, "", AllFilter, ""))
  }

  /** Re-saving that booking unchanged re-prices it at the current rate: the total, the
      invoice and the customer's balance all move to the new rate. */
  lemma ResaveRepricesChangedRate(rate: int)
    ensures var s' := SaveBooking(OpenEdit(RaisedRateState(rate), Hire("B-1", BookingStatus.Active)),
                                  "B-2", "T-2", "2024-01-10T09:00:00Z", 10, "edit");
            s'.bookings[0].totalAmount == rate && s'.transactions[0].amount == -rate
            && s'.customers[0].balance == rate
  {
    var s := RaisedRateState(rate);
    var b := Hire("B-1", BookingStatus.Active);
    var o := OpenEdit(s, b);
    assert ItemIds(b.items)[0] == "E-1";
    assert o.form.cart == [Drill().(dailyRate := rate)];
    DataService.DaysSameDate(10);
    AppProperties.EditShape(o, "B-2", "T-2", "2024-01-10T09:00:00Z", 10, "edit", b);
  }
}
