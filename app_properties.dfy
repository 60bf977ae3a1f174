/** What each App.tsx handler does to the state, field by field, and what the booking
    modal's arithmetic promises. */
module AppProperties {
  import opened Types
  import opened Seqs
  import opened AppEngine
  import DataService

  // ---------------------------------------------------------------- prices

  /** The lines a save records name the cart's equipment, in cart order. */
  lemma LinesKeepCartIds(cart: seq<Equipment>, days: int)
    ensures ItemIds(Lines(cart, days)) == CartIds(cart)
  {
    assert forall i :: 0 <= i < |cart| ==> ItemIds(Lines(cart, days))[i] == CartIds(cart)[i];
  }

  /** Every line costs rate × days, so a booking costs its day count times the sum of the
      cart's daily rates. */
  lemma {:induction false} LinesTotalIsDaysTimesRates(cart: seq<Equipment>, days: int)
    ensures LinesTotal(Lines(cart, days)) == days * RateSum(cart)
  {
    if cart != [] {
      var items := Lines(cart, days);
      assert items[1..] == Lines(cart[1..], days);
      LinesTotalIsDaysTimesRates(cart[1..], days);
      assert days * RateSum(cart) == days * cart[0].dailyRate + days * RateSum(cart[1..]);
    }
  }

  /** The modal's running total agrees with the total of the lines built from the same cart. */
  lemma {:induction false} CartTotalIsLinesTotal(cart: seq<Equipment>, days: int)
    ensures CartTotal(cart, days) == LinesTotal(Lines(cart, days))
  {
    if cart != [] {
      assert Lines(cart, days)[1..] == Lines(cart[1..], days);
      CartTotalIsLinesTotal(cart[1..], days);
    }
  }

  /** With non-negative rates every booking total is non-negative. */
  lemma RatesGiveNonNegativeTotal(cart: seq<Equipment>, days: int)
    requires days >= 0
    requires forall e :: e in cart ==> e.dailyRate >= 0
    ensures LinesTotal(Lines(cart, days)) >= 0
  {
    LinesTotalIsDaysTimesRates(cart, days);
    RateSumNonNegative(cart);
  }

  lemma {:induction false} RateSumNonNegative(cart: seq<Equipment>)
    requires forall e :: e in cart ==> e.dailyRate >= 0
    ensures RateSum(cart) >= 0
  {
    if cart != [] {
      assert cart[0] in cart;
      RateSumNonNegative(cart[1..]);
    }
  }

  /** Once both dates are filled in, the total the modal shows is the total a save records. */
  lemma ModalTotalIsSavedTotal(s: AppData)
    requires ReadyToSave(s)
    ensures ModalDays(s.form) == FormDays(s)
    ensures ModalTotal(s.form) == LinesTotal(FormLines(s))
    ensures ModalTotal(s.form) == FormDays(s) * RateSum(s.form.cart)
  {
    CartTotalIsLinesTotal(s.form.cart, FormDays(s));
    LinesTotalIsDaysTimesRates(s.form.cart, FormDays(s));
  }

  // ---------------------------------------------------------------- saving a booking

  /** A save changes the state exactly when the form passes the guard. */
  lemma SaveRefusedIffNotReady(s: AppData, newBookingId: string, newTransactionId: string,
                               nowIso: string, today: int, description: string)
    ensures SaveBooking(s, newBookingId, newTransactionId, nowIso, today, description) == s
            <==> !ReadyToSave(s)
  {
    if ReadyToSave(s) {
      assert SaveBooking(s, newBookingId, newTransactionId, nowIso, today, description).form.cart == [];
    }
  }

  /** A ready save with no booking being edited runs the create branch, with the lines and
      total computed from the form. */
  lemma CreateShape(s: AppData, newBookingId: string, newTransactionId: string,
                    nowIso: string, today: int, description: string)
    requires ReadyToSave(s) && s.form.editingId == ""
    ensures var cust := CustomerWithId(s.customers, s.form.customerId).value;
            var items := FormLines(s);
            SaveBooking(s, newBookingId, newTransactionId, nowIso, today, description)
            == CreateBooking(s, cust, items, LinesTotal(items), newBookingId, newTransactionId,
                             nowIso, today, description).(form := ClosedForm(s.form))
  {
  }

  /** A ready save with a booking being edited runs the edit branch. */
  lemma EditShape(s: AppData, newBookingId: string, newTransactionId: string,
                  nowIso: string, today: int, description: string, prior: Booking)
    requires ReadyToSave(s) && s.form.editingId != ""
    requires BookingWithId(s.bookings, s.form.editingId) == Some(prior)
    ensures var cust := CustomerWithId(s.customers, s.form.customerId).value;
            var items := FormLines(s);
            SaveBooking(s, newBookingId, newTransactionId, nowIso, today, description)
            == Edited(s, prior, cust, items, s.form.start.value, s.form.end.value, LinesTotal(items)).(form := ClosedForm(s.form))
  {
  }

  /** The create branch on bookings and ledger: a new Active booking at the front carrying
      the cart's lines at days × rates, and an Invoice of -total at the front of the ledger. */
  lemma CreateEffects(s: AppData, newBookingId: string, newTransactionId: string,
                      nowIso: string, today: int, description: string)
    requires ReadyToSave(s) && s.form.editingId == ""
    ensures var s' := SaveBooking(s, newBookingId, newTransactionId, nowIso, today, description);
            var total := FormDays(s) * RateSum(s.form.cart);
            var cid := s.form.customerId;
            && |s'.bookings| == |s.bookings| + 1 && s'.bookings[1..] == s.bookings
            && s'.bookings[0].id == newBookingId && s'.bookings[0].customerId == cid
            && s'.bookings[0].status == BookingStatus.Active
            && ItemIds(s'.bookings[0].items) == CartIds(s.form.cart)
            && s'.bookings[0].totalAmount == total
            && s'.bookings[0].paidAmount == 0 && s'.bookings[0].deposit == 0
            && s'.bookings[0].startDate == s.form.start.value && s'.bookings[0].endDate == s.form.end.value
            && s'.bookings[0].createdAt == DataService.DatePart(nowIso)
            && s'.transactions
               == [Transaction(newTransactionId, cid, Some(newBookingId), today, -total, Invoice, description, None)]
                  + s.transactions
  {
    LinesKeepCartIds(s.form.cart, FormDays(s));
    LinesTotalIsDaysTimesRates(s.form.cart, FormDays(s));
  }

  /** The create branch on the other arrays: exactly the cart's equipment marked Rented,
      only the selected customer's balance raised by the total, and the form closed. */
  lemma CreateStateEffects(s: AppData, newBookingId: string, newTransactionId: string,
                           nowIso: string, today: int, description: string)
    requires ReadyToSave(s) && s.form.editingId == ""
    ensures var s' := SaveBooking(s, newBookingId, newTransactionId, nowIso, today, description);
            var total := FormDays(s) * RateSum(s.form.cart);
            var cid := s.form.customerId;
            && |s'.equipment| == |s.equipment|
            && (forall i :: 0 <= i < |s.equipment| ==>
                  s'.equipment[i] == if s.equipment[i].id in CartIds(s.form.cart)
                                     then Marked(s.equipment[i], Rented) else s.equipment[i])
            && |s'.customers| == |s.customers|
            && (forall i :: 0 <= i < |s.customers| ==>
                  s'.customers[i] == if s.customers[i].id == cid
                                     then Credited(s.customers[i], total)
                                     else s.customers[i])
            && s'.form == ClosedForm(s.form)
            && s'.categories == s.categories && s'.users == s.users
  {
    LinesTotalIsDaysTimesRates(s.form.cart, FormDays(s));
  }

  /** The edit branch on the bookings: the edited booking keeps its id and status and takes
      the form's customer, the cart's lines and the new total; every other booking is kept. */
  lemma EditBookingsEffects(s: AppData, newBookingId: string, newTransactionId: string,
                            nowIso: string, today: int, description: string, prior: Booking)
    requires ReadyToSave(s) && s.form.editingId != ""
    requires BookingWithId(s.bookings, s.form.editingId) == Some(prior)
    ensures var s' := SaveBooking(s, newBookingId, newTransactionId, nowIso, today, description);
            var id := s.form.editingId;
            && |s'.bookings| == |s.bookings|
            && (forall i :: 0 <= i < |s.bookings| ==>
                  s'.bookings[i].id == s.bookings[i].id && s'.bookings[i].status == s.bookings[i].status
                  && (s.bookings[i].id != id ==> s'.bookings[i] == s.bookings[i])
                  && (s.bookings[i].id == id ==>
                        s'.bookings[i].customerId == s.form.customerId
                        && s'.bookings[i].totalAmount == FormDays(s) * RateSum(s.form.cart)
                        && ItemIds(s'.bookings[i].items) == CartIds(s.form.cart)))
            && s'.form == ClosedForm(s.form)
  {
    EditShape(s, newBookingId, newTransactionId, nowIso, today, description, prior);
    LinesKeepCartIds(s.form.cart, FormDays(s));
    LinesTotalIsDaysTimesRates(s.form.cart, FormDays(s));
  }

  /** The edit branch on the equipment: every item of the cart is marked Rented, an item
      only the old booking named is marked Available, all other equipment is kept. */
  lemma EditEquipmentEffects(s: AppData, newBookingId: string, newTransactionId: string,
                             nowIso: string, today: int, description: string, prior: Booking)
    requires ReadyToSave(s) && s.form.editingId != ""
    requires BookingWithId(s.bookings, s.form.editingId) == Some(prior)
    ensures var s' := SaveBooking(s, newBookingId, newTransactionId, nowIso, today, description);
            && |s'.equipment| == |s.equipment|
            && (forall i :: 0 <= i < |s.equipment| ==>
                  var e := s.equipment[i];
                  s'.equipment[i] == if e.id in CartIds(s.form.cart) then Marked(e, Rented)
                                     else if e.id in ItemIds(prior.items) then Marked(e, Available)
                                     else e)
  {
    EditShape(s, newBookingId, newTransactionId, nowIso, today, description, prior);
    LinesKeepCartIds(s.form.cart, FormDays(s));
  }

  /** The edit branch on the ledger: the booking's Invoice entries are re-priced to -new
      total and every other entry is kept. */
  lemma EditEntriesEffects(s: AppData, newBookingId: string, newTransactionId: string,
                           nowIso: string, today: int, description: string, prior: Booking)
    requires ReadyToSave(s) && s.form.editingId != ""
    requires BookingWithId(s.bookings, s.form.editingId) == Some(prior)
    ensures var s' := SaveBooking(s, newBookingId, newTransactionId, nowIso, today, description);
            && |s'.transactions| == |s.transactions|
            && (forall i :: 0 <= i < |s.transactions| ==>
                  var t := s.transactions[i];
                  s'.transactions[i] == if t.bookingId == Some(s.form.editingId) && t.kind == Invoice
                                        then Repriced(t, FormDays(s) * RateSum(s.form.cart)) else t)
  {
    EditShape(s, newBookingId, newTransactionId, nowIso, today, description, prior);
    LinesTotalIsDaysTimesRates(s.form.cart, FormDays(s));
  }

  /** The found-booking edit branch re-credits only the selected customer, by total - old
      total (`c.balance - oldAmount + totalAmount`); every other balance is kept. With
      EditShape this is the save handler's effect on the balances. */
  lemma EditedBalances(s: AppData, prior: Booking, cust: Customer, items: seq<BookingItem>,
                       start: int, end: int, total: int)
    ensures var r := Edited(s, prior, cust, items, start, end, total).customers;
            && |r| == |s.customers|
            && forall i :: 0 <= i < |s.customers| ==>
                 r[i] == if s.customers[i].id == cust.id then Credited(s.customers[i], total - prior.totalAmount)
                         else s.customers[i]
  {
  }

  /** Saving an edit whose booking has disappeared only closes the form. */
  lemma EditOfMissingBookingOnlyClosesForm(s: AppData, newBookingId: string, newTransactionId: string,
                                           nowIso: string, today: int, description: string)
    requires ReadyToSave(s) && s.form.editingId != ""
    requires BookingWithId(s.bookings, s.form.editingId).None?
    ensures SaveBooking(s, newBookingId, newTransactionId, nowIso, today, description)
            == s.(form := ClosedForm(s.form))
  {
  }

  // ---------------------------------------------------------------- opening an edit

  /** A Completed booking cannot be opened for editing; any other booking loads its
      customer, dates and id into the form and the equipment it names into the cart,
      leaving the data arrays alone. */
  lemma OpenEditEffects(s: AppData, b: Booking)
    ensures b.status == BookingStatus.Completed ==> OpenEdit(s, b) == s
    ensures b.status != BookingStatus.Completed ==>
      var f := OpenEdit(s, b).form;
      && f.editingId == b.id && f.customerId == b.customerId
      && f.start == Some(b.startDate) && f.end == Some(b.endDate)
      && (forall e :: e in f.cart <==> e in s.equipment && e.id in ItemIds(b.items))
      && OpenEdit(s, b).(form := s.form) == s
  {
  }

  // ---------------------------------------------------------------- deleting and returning

  /** A delete changes the state exactly when an Admin confirms it for a booking that exists. */
  lemma DeleteRefusedIffNotAllowed(s: AppData, id: string, role: Option<UserRole>, confirmed: bool)
    ensures DeleteBooking(s, id, role, confirmed) == s
            <==> role != Some(Admin) || !confirmed || BookingWithId(s.bookings, id).None?
  {
    if role == Some(Admin) && confirmed && BookingWithId(s.bookings, id).Some? {
      var b := BookingWithId(s.bookings, id).value;
      FilterDrops(s.bookings, (x: Booking) => x.id != id, b);
      assert |DeleteBooking(s, id, role, confirmed).bookings| < |s.bookings|;
    }
  }

  /** An allowed delete of a booking that exists runs the removal with that booking and
      its invoice lookup. */
  lemma DeleteShape(s: AppData, id: string, b: Booking)
    requires BookingWithId(s.bookings, id) == Some(b)
    ensures DeleteBooking(s, id, Some(Admin), true) == Removed(s, b, InvoiceOf(s.transactions, id))
  {
  }

  /** An allowed delete removes every booking with the id, makes its equipment Available
      and, when the booking has an invoice, drops all of the booking's ledger entries and
      lowers the booking customer's balance by the invoice's magnitude. */
  lemma DeleteEffects(s: AppData, id: string, b: Booking)
    requires BookingWithId(s.bookings, id) == Some(b)
    ensures var s' := DeleteBooking(s, id, Some(Admin), true);
            && (forall x :: x in s'.bookings <==> x in s.bookings && x.id != id)
            && |s'.equipment| == |s.equipment|
            && (forall i :: 0 <= i < |s.equipment| ==>
                  s'.equipment[i] == if s.equipment[i].id in ItemIds(b.items)
                                     then Marked(s.equipment[i], Available) else s.equipment[i])
            && (InvoiceOf(s.transactions, id).None? ==>
                  s'.transactions == s.transactions && s'.customers == s.customers)
            && (InvoiceOf(s.transactions, id).Some? ==>
                  var a := Magnitude(InvoiceOf(s.transactions, id).value.amount);
                  && (forall t :: t in s'.transactions <==> t in s.transactions && t.bookingId != Some(id))
                  && |s'.customers| == |s.customers|
                  && (forall i :: 0 <= i < |s.customers| ==>
                        s'.customers[i] == if s.customers[i].id == b.customerId
                                           then Credited(s.customers[i], -a)
                                           else s.customers[i]))
            && s'.form == s.form
  {
  }

  /** A return marks the booking Completed and its equipment Available and touches neither
      the ledger nor the balances; an unknown id changes nothing. */
  lemma ReturnEffects(s: AppData, id: string)
    ensures var s' := ReturnEquipment(s, id);
            && s'.transactions == s.transactions && s'.customers == s.customers
            && (BookingWithId(s.bookings, id).None? ==> s' == s)
            && |s'.bookings| == |s.bookings|
            && (forall i :: 0 <= i < |s.bookings| ==>
                  s'.bookings[i] == if s.bookings[i].id == id
                                    then AsCompleted(s.bookings[i]) else s.bookings[i])
            && (BookingWithId(s.bookings, id).Some? ==>
                  var b := BookingWithId(s.bookings, id).value;
                  forall i :: 0 <= i < |s.equipment| ==>
                    s'.equipment[i] == if s.equipment[i].id in ItemIds(b.items)
                                       then Marked(s.equipment[i], Available) else s.equipment[i])
  {
    if BookingWithId(s.bookings, id).None? {
      assert forall i :: 0 <= i < |s.bookings| ==> s.bookings[i] in s.bookings;
    }
  }

  // ---------------------------------------------------------------- payments

  /** A payment puts a Payment entry of +amount, linked to no booking, at the front of the
      ledger and lowers the selected customer's balance by the amount. */
  lemma PaymentEffects(s: AppData, c: Customer, amount: int, payMethod: PaymentMethod,
                       newTransactionId: string, today: int, description: string)
    ensures var s' := AddPayment(s, Some(c), amount, payMethod, newTransactionId, today, description);
            && s'.transactions
               == [Transaction(newTransactionId, c.id, None, today, amount, Payment, description, Some(payMethod))]
                  + s.transactions
            && |s'.customers| == |s.customers|
            && (forall i :: 0 <= i < |s.customers| ==>
                  s'.customers[i] == if s.customers[i].id == c.id
                                     then Credited(s.customers[i], -amount)
                                     else s.customers[i])
            && s'.bookings == s.bookings && s'.equipment == s.equipment
  {
  }

  // ---------------------------------------------------------------- cart, categories, users

  predicate DistinctCartIds(cart: seq<Equipment>)
  {
    forall i, j :: 0 <= i < j < |cart| ==> cart[i].id != cart[j].id
  }

  /** The cart never holds two entries for the same equipment: adding appends the item only
      when its id is not in the cart yet. */
  lemma AddToCartKeepsIdsDistinct(s: AppData, item: Equipment)
    requires DistinctCartIds(s.form.cart)
    ensures var cart := AddToCart(s, item).form.cart;
            && DistinctCartIds(cart)
            && item.id in CartIds(cart)
            && |cart| == |s.form.cart| + (if item.id in CartIds(s.form.cart) then 0 else 1)
            && s.form.cart <= cart
  {
    var cart := s.form.cart;
    if item.id in CartIds(cart) {
      var k :| 0 <= k < |cart| && CartIds(cart)[k] == item.id;
      assert cart[k] in cart;
    } else {
      assert forall e :: e in cart ==> e.id != item.id by {
        forall e | e in cart ensures e.id != item.id {
          var k :| 0 <= k < |cart| && cart[k] == e;
          assert CartIds(cart)[k] == e.id;
        }
      }
      assert CartIds(cart + [item])[|cart|] == item.id;
    }
  }

  /** Removing from the cart drops every entry with the id and keeps all others. */
  lemma RemoveFromCartEffects(s: AppData, itemId: string)
    ensures var cart := RemoveFromCart(s, itemId).form.cart;
            && itemId !in CartIds(cart)
            && (forall e :: e in cart <==> e in s.form.cart && e.id != itemId)
  {
    var cart := RemoveFromCart(s, itemId).form.cart;
    var ids := CartIds(cart);
    forall k | 0 <= k < |ids|
      ensures ids[k] != itemId
    {
      assert cart[k] in cart;
    }
  }

  predicate DistinctStrings(xs: seq<string>)
  {
    forall i, j :: 0 <= i < j < |xs| ==> xs[i] != xs[j]
  }

  /** Adding a category never creates a duplicate and keeps every existing category. */
  lemma AddCategoryKeepsDistinct(s: AppData, category: string)
    requires DistinctStrings(s.categories)
    ensures var cs := AddCategory(s, category).categories;
            && DistinctStrings(cs)
            && s.categories <= cs
            && (category != "" ==> category in cs)
  {
  }

  /** Deleting a category removes it, keeps the others, and leaves neither category filter
      pointing at it. */
  lemma DeleteCategoryEffects(s: AppData, category: string)
    requires category != AllFilter
    ensures var s' := DeleteCategory(s, category, true);
            && category !in s'.categories
            && (forall c :: c in s.categories && c != category ==> c in s'.categories)
            && s'.equipmentCategoryFilter != category
            && s'.form.categoryFilter != category
  {
  }

  predicate DistinctUserIds(users: seq<User>)
  {
    forall i, j :: 0 <= i < j < |users| ==> users[i].id != users[j].id
  }

  /** With distinct ids, removing one id drops at most one user. */
  lemma {:induction false} WithoutUserDropsAtMostOne(users: seq<User>, id: string)
    requires DistinctUserIds(users)
    ensures |WithoutUser(users, id)| >= |users| - 1
  {
    if users != [] {
      assert DistinctUserIds(users[1..]) by {
        forall i, j | 0 <= i < j < |users[1..]| ensures users[1..][i].id != users[1..][j].id {
          assert users[1..][i] == users[i + 1] && users[1..][j] == users[j + 1];
        }
      }
      if users[0].id == id {
        assert forall u :: u in users[1..] ==> u.id != id by {
          forall u | u in users[1..] ensures u.id != id {
            var k :| 0 <= k < |users[1..]| && users[1..][k] == u;
            assert users[k + 1] == u;
          }
        }
        FilterAll(users[1..], (u: User) => u.id != id);
        assert WithoutUser(users, id) == WithoutUser(users[1..], id);
      } else {
        WithoutUserDropsAtMostOne(users[1..], id);
        assert WithoutUser(users, id) == [users[0]] + WithoutUser(users[1..], id);
      }
    }
  }

  /** The user list never becomes empty: with at least one user and distinct ids, a delete
      leaves at least one user, and a confirmed delete from a list of two or more removes
      exactly the users with that id. */
  lemma DeleteUserKeepsAUser(s: AppData, id: string, confirmed: bool)
    requires |s.users| >= 1 && DistinctUserIds(s.users)
    ensures |DeleteUser(s, id, confirmed).users| >= 1
    ensures confirmed && |s.users| > 1 ==>
      forall u :: u in DeleteUser(s, id, confirmed).users <==> u in s.users && u.id != id
  {
    if confirmed && |s.users| > 1 {
      WithoutUserDropsAtMostOne(s.users, id);
    }
  }

  // ---------------------------------------------------------------- the modal's equipment

  /** The modal offers exactly the equipment that is Available (or, while editing, already
      in the cart) and in the chosen category. */
  lemma ModalEquipmentChoice(s: AppData, e: Equipment)
    ensures e in ModalEquipment(s) <==>
      e in s.equipment
      && (e.status == Available || (s.form.editingId != "" && e.id in CartIds(s.form.cart)))
      && (s.form.categoryFilter == AllFilter || e.category == s.form.categoryFilter)
  {
    var inCart := Find(s.form.cart, (c: Equipment) => c.id == e.id).Some?;
    if e.id in CartIds(s.form.cart) {
      var k :| 0 <= k < |s.form.cart| && CartIds(s.form.cart)[k] == e.id;
      assert s.form.cart[k] in s.form.cart;
    }
    if inCart {
      var c := Find(s.form.cart, (c: Equipment) => c.id == e.id).value;
      var k :| 0 <= k < |s.form.cart| && s.form.cart[k] == c;
      assert CartIds(s.form.cart)[k] == e.id;
    }
  }
}
