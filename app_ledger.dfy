/** The bookkeeping App.tsx keeps in memory. An invoice is written as -total while the
    customer's balance rises by +total, and a payment is written as +amount while the
    balance falls by amount, so for every customer the balance plus the sum of that
    customer's ledger amounts (the Position) is what the booking handlers keep. Every
    booking is also tied to exactly one ledger entry: its invoice. */
module AppLedger {
  import opened Types
  import opened Seqs
  import opened AppEngine
  import opened AppProperties
  import DataService

  // ---------------------------------------------------------------- sums

  /** The sum of the ledger amounts recorded for a customer id. */
  function Owed(ts: seq<Transaction>, cid: string): int
  {
    if ts == [] then 0 else (if ts[0].customerId == cid then ts[0].amount else 0) + Owed(ts[1..], cid)
  }

  /** The sum of the balances recorded under a customer id (the balance, when ids are unique). */
  function BalanceOf(cs: seq<Customer>, cid: string): int
  {
    if cs == [] then 0 else (if cs[0].id == cid then cs[0].balance else 0) + BalanceOf(cs[1..], cid)
  }

  /** How many customers carry an id. */
  function Holders(cs: seq<Customer>, cid: string): nat
  {
    if cs == [] then 0 else (if cs[0].id == cid then 1 else 0) + Holders(cs[1..], cid)
  }

  function Position(s: AppData, cid: string): int
  {
    BalanceOf(s.customers, cid) + Owed(s.transactions, cid)
  }

  predicate UniqueCustomerIds(cs: seq<Customer>)
  {
    forall i, j :: 0 <= i < j < |cs| ==> cs[i].id != cs[j].id
  }

  /** `transactions.filter(t => t.bookingId === id)`: the ledger entries of one booking. */
  function EntriesOf(ts: seq<Transaction>, bookingId: string): seq<Transaction>
  {
    Filter(ts, (t: Transaction) => t.bookingId == Some(bookingId))
  }

  /** Every booking has a non-negative total and exactly one ledger entry: an Invoice of
      -total charged to the booking's customer. */
  predicate BookingLinked(ts: seq<Transaction>, b: Booking)
  {
    var es := EntriesOf(ts, b.id);
    b.totalAmount >= 0 && |es| == 1 && es[0].kind == Invoice
    && es[0].customerId == b.customerId && es[0].amount == -b.totalAmount
  }

  predicate AllLinked(bookings: seq<Booking>, ts: seq<Transaction>)
  {
    forall b :: b in bookings ==> BookingLinked(ts, b)
  }

  predicate Linked(s: AppData)
  {
    AllLinked(s.bookings, s.transactions)
  }

  /** Every booking's customer is on the customer list. */
  predicate CustomersKnown(s: AppData)
  {
    forall b :: b in s.bookings ==> exists c :: c in s.customers && c.id == b.customerId
  }

  // ---------------------------------------------------------------- how the updates move the sums

  /** With unique ids a present id is held once and an absent one never. */
  lemma {:induction false} HoldersOfUnique(cs: seq<Customer>, cid: string)
    requires UniqueCustomerIds(cs)
    ensures Holders(cs, cid) == if exists c :: c in cs && c.id == cid then 1 else 0
  {
    if cs != [] {
      assert UniqueCustomerIds(cs[1..]) by {
        forall i, j | 0 <= i < j < |cs[1..]| ensures cs[1..][i].id != cs[1..][j].id {
          assert cs[1..][i] == cs[i + 1] && cs[1..][j] == cs[j + 1];
        }
      }
      HoldersOfUnique(cs[1..], cid);
      if cs[0].id == cid {
        assert !exists c :: c in cs[1..] && c.id == cid by {
          forall c | c in cs[1..] ensures c.id != cid {
            var k :| 0 <= k < |cs[1..]| && cs[1..][k] == c;
            assert cs[k + 1] == c;
          }
        }
      } else {
        assert (exists c :: c in cs && c.id == cid) <==> (exists c :: c in cs[1..] && c.id == cid) by {
          assert cs == [cs[0]] + cs[1..];
        }
      }
    }
  }

  /** Adjusting a balance moves the balance sum of that id by delta per holder. */
  lemma {:induction false} AdjustBalanceMoves(cs: seq<Customer>, id: string, delta: int, cid: string)
    ensures BalanceOf(AdjustBalance(cs, id, delta), cid)
            == BalanceOf(cs, cid) + (if cid == id then delta * Holders(cs, id) else 0)
  {
    if cs != [] {
      var rest := AdjustBalance(cs[1..], id, delta);
      var head := if cs[0].id == id then Credited(cs[0], delta) else cs[0];
      assert ([head] + rest)[1..] == rest;
      AdjustBalanceMoves(cs[1..], id, delta, cid);
      var h := Holders(cs[1..], id);
      if cs[0].id == id {
        assert Holders(cs, id) == h + 1;
        assert delta * (h + 1) == delta * h + delta;
      } else {
        assert Holders(cs, id) == h;
      }
    }
  }

  /** For a customer on a list with unique ids, an adjustment moves exactly that balance. */
  lemma AdjustOneBalance(cs: seq<Customer>, id: string, delta: int, cid: string)
    requires UniqueCustomerIds(cs) && exists c :: c in cs && c.id == id
    ensures BalanceOf(AdjustBalance(cs, id, delta), cid) == BalanceOf(cs, cid) + (if cid == id then delta else 0)
  {
    AdjustBalanceMoves(cs, id, delta, cid);
    HoldersOfUnique(cs, id);
  }

  lemma OwedPrepend(t: Transaction, ts: seq<Transaction>, cid: string)
    ensures Owed([t] + ts, cid) == (if t.customerId == cid then t.amount else 0) + Owed(ts, cid)
  {
    assert ([t] + ts)[1..] == ts;
  }

  /** Writing an entry of -delta for a customer on the list while raising the balance by
      delta keeps the customer's balance-plus-ledger sum. */
  lemma EntryWithAdjustKeepsSum(cs: seq<Customer>, ts: seq<Transaction>, t: Transaction, c: Customer,
                                delta: int, cid: string)
    requires UniqueCustomerIds(cs) && c in cs
    requires t.customerId == c.id && t.amount == -delta
    ensures BalanceOf(AdjustBalance(cs, c.id, delta), cid) + Owed([t] + ts, cid)
            == BalanceOf(cs, cid) + Owed(ts, cid)
  {
    AdjustOneBalance(cs, c.id, delta, cid);
    OwedPrepend(t, ts, cid);
  }

  /** The ledger sum splits into a booking's entries and the rest. */
  lemma {:induction false} OwedSplit(ts: seq<Transaction>, bookingId: string, cid: string)
    ensures Owed(ts, cid) == Owed(EntriesOf(ts, bookingId), cid) + Owed(WithoutEntriesOf(ts, bookingId), cid)
  {
    if ts != [] {
      OwedSplit(ts[1..], bookingId, cid);
      if ts[0].bookingId == Some(bookingId) {
        assert EntriesOf(ts, bookingId) == [ts[0]] + EntriesOf(ts[1..], bookingId);
        assert WithoutEntriesOf(ts, bookingId) == WithoutEntriesOf(ts[1..], bookingId);
        OwedPrepend(ts[0], EntriesOf(ts[1..], bookingId), cid);
      } else {
        assert EntriesOf(ts, bookingId) == EntriesOf(ts[1..], bookingId);
        assert WithoutEntriesOf(ts, bookingId) == [ts[0]] + WithoutEntriesOf(ts[1..], bookingId);
        OwedPrepend(ts[0], WithoutEntriesOf(ts[1..], bookingId), cid);
      }
    }
  }

  lemma EntriesOfPrepend(t: Transaction, ts: seq<Transaction>, bookingId: string)
    ensures EntriesOf([t] + ts, bookingId)
            == (if t.bookingId == Some(bookingId) then [t] else []) + EntriesOf(ts, bookingId)
  {
    assert ([t] + ts)[0] == t && ([t] + ts)[1..] == ts;
  }

  /** A booking with no entries has an empty entry list. */
  lemma {:induction false} NoEntries(ts: seq<Transaction>, bookingId: string)
    requires forall t :: t in ts ==> t.bookingId != Some(bookingId)
    ensures EntriesOf(ts, bookingId) == []
  {
    if ts != [] {
      assert ts[0] in ts;
      NoEntries(ts[1..], bookingId);
    }
  }

  /** Re-pricing one booking's invoices leaves every other booking's entries alone. */
  lemma {:induction false} RepriceOtherEntries(ts: seq<Transaction>, x: string, total: int, y: string)
    requires x != y
    ensures EntriesOf(Reprice(ts, x, total), y) == EntriesOf(ts, y)
  {
    if ts != [] {
      var r := Reprice(ts, x, total);
      assert r[1..] == Reprice(ts[1..], x, total);
      assert r == [r[0]] + r[1..];
      assert ts == [ts[0]] + ts[1..];
      EntriesOfPrepend(r[0], r[1..], y);
      EntriesOfPrepend(ts[0], ts[1..], y);
      RepriceOtherEntries(ts[1..], x, total, y);
    }
  }

  /** Re-pricing one booking's invoices leaves the entries of no booking or other bookings alone. */
  lemma {:induction false} RepriceKeepsRest(ts: seq<Transaction>, x: string, total: int)
    ensures WithoutEntriesOf(Reprice(ts, x, total), x) == WithoutEntriesOf(ts, x)
  {
    if ts != [] {
      var r := Reprice(ts, x, total);
      assert r[1..] == Reprice(ts[1..], x, total);
      RepriceKeepsRest(ts[1..], x, total);
    }
  }

  /** The entries of the re-priced booking are its old entries re-priced. */
  lemma {:induction false} RepriceOwnEntries(ts: seq<Transaction>, x: string, total: int)
    ensures EntriesOf(Reprice(ts, x, total), x) == Reprice(EntriesOf(ts, x), x, total)
  {
    if ts != [] {
      var t := ts[0];
      var t' := if t.bookingId == Some(x) && t.kind == Invoice then Repriced(t, total) else t;
      var rest := Reprice(ts[1..], x, total);
      assert ([t'] + rest)[0] == t' && ([t'] + rest)[1..] == rest;
      RepriceOwnEntries(ts[1..], x, total);
      if t.bookingId == Some(x) {
        var es := EntriesOf(ts[1..], x);
        assert ([t] + es)[0] == t && ([t] + es)[1..] == es;
      }
    }
  }

  /** Dropping one booking's entries leaves every other booking's entries alone. */
  lemma {:induction false} WithoutEntriesKeepsOthers(ts: seq<Transaction>, x: string, y: string)
    requires x != y
    ensures EntriesOf(WithoutEntriesOf(ts, x), y) == EntriesOf(ts, y)
  {
    if ts != [] {
      WithoutEntriesKeepsOthers(ts[1..], x, y);
      var w := WithoutEntriesOf(ts, x);
      if ts[0].bookingId != Some(x) {
        assert w == [ts[0]] + WithoutEntriesOf(ts[1..], x);
        assert w[0] == ts[0] && w[1..] == WithoutEntriesOf(ts[1..], x);
      } else {
        assert w == WithoutEntriesOf(ts[1..], x);
      }
    }
  }

  /** Under Linked, the invoice the delete handler finds is the booking's single entry. */
  lemma InvoiceIsTheEntry(ts: seq<Transaction>, b: Booking)
    requires BookingLinked(ts, b)
    ensures InvoiceOf(ts, b.id) == Some(EntriesOf(ts, b.id)[0])
  {
    var es := EntriesOf(ts, b.id);
    assert es[0] in es;
    var inv := InvoiceOf(ts, b.id).value;
    assert inv in es;
  }

  /** The ledger sum of a single entry. */
  lemma OwedSingle(es: seq<Transaction>, cid: string)
    requires |es| == 1
    ensures Owed(es, cid) == if es[0].customerId == cid then es[0].amount else 0
  {
    assert |es[1..]| == 0;
  }

  // ---------------------------------------------------------------- the list-level steps

  /** A new booking whose only entry is the invoice written with it joins the linked set. */
  lemma LinkNewBooking(bs: seq<Booking>, ts: seq<Transaction>, b: Booking, t: Transaction)
    requires AllLinked(bs, ts)
    requires forall x :: x in bs ==> x.id != b.id
    requires forall x :: x in ts ==> x.bookingId != Some(b.id)
    requires t.bookingId == Some(b.id) && t.kind == Invoice && t.customerId == b.customerId
    requires t.amount == -b.totalAmount && b.totalAmount >= 0
    ensures AllLinked([b] + bs, [t] + ts)
  {
    forall x | x in [b] + bs ensures BookingLinked([t] + ts, x) {
      EntriesOfPrepend(t, ts, x.id);
      if x == b {
        NoEntries(ts, b.id);
      } else {
        assert x in bs;
      }
    }
  }

  /** An entry tied to no booking of the list leaves every link as it was. */
  lemma PrependKeepsLinked(bs: seq<Booking>, ts: seq<Transaction>, t: Transaction)
    requires AllLinked(bs, ts)
    requires forall x :: x in bs ==> t.bookingId != Some(x.id)
    ensures AllLinked(bs, [t] + ts)
  {
    forall x | x in bs ensures BookingLinked([t] + ts, x) {
      EntriesOfPrepend(t, ts, x.id);
    }
  }

  /** Completing a booking keeps its id, customer and total, so every link stays. */
  lemma CompleteKeepsLinked(bs: seq<Booking>, ts: seq<Transaction>, id: string)
    requires AllLinked(bs, ts)
    ensures AllLinked(Complete(bs, id), ts)
  {
    var r := Complete(bs, id);
    forall x | x in r ensures BookingLinked(ts, x) {
      var k :| 0 <= k < |r| && r[k] == x;
      assert bs[k] in bs;
    }
  }

  /** Dropping a booking together with its entries keeps every other link. */
  lemma DropKeepsLinked(bs: seq<Booking>, ts: seq<Transaction>, id: string)
    requires AllLinked(bs, ts)
    ensures AllLinked(WithoutBooking(bs, id), WithoutEntriesOf(ts, id))
  {
    forall x | x in WithoutBooking(bs, id) ensures BookingLinked(WithoutEntriesOf(ts, id), x) {
      WithoutEntriesKeepsOthers(ts, id, x.id);
    }
  }

  /** Dropping a linked booking's entries while lowering its customer's balance by the
      booking total keeps every customer's balance-plus-ledger sum. */
  lemma DropKeepsSum(cs: seq<Customer>, ts: seq<Transaction>, b: Booking, cid: string)
    requires BookingLinked(ts, b) && UniqueCustomerIds(cs)
    requires exists c :: c in cs && c.id == b.customerId
    ensures BalanceOf(AdjustBalance(cs, b.customerId, -b.totalAmount), cid) + Owed(WithoutEntriesOf(ts, b.id), cid)
            == BalanceOf(cs, cid) + Owed(ts, cid)
  {
    AdjustOneBalance(cs, b.customerId, -b.totalAmount, cid);
    OwedSplit(ts, b.id, cid);
    OwedSingle(EntriesOf(ts, b.id), cid);
  }

  /** A linked booking's single entry, re-priced, stays its single entry. */
  lemma RepriceSingle(ts: seq<Transaction>, b: Booking, total: int)
    requires BookingLinked(ts, b)
    ensures var es' := EntriesOf(Reprice(ts, b.id, total), b.id);
            |es'| == 1 && es'[0].customerId == b.customerId && es'[0].amount == -total
  {
    RepriceOwnEntries(ts, b.id, total);
    var es := EntriesOf(ts, b.id);
    assert es[0] in es;
  }

  /** Re-pricing a linked booking's invoice to -total moves its customer's ledger sum by
      old total - total and no other customer's. */
  lemma OwedAfterReprice(ts: seq<Transaction>, b: Booking, total: int, cid: string)
    requires BookingLinked(ts, b)
    ensures Owed(Reprice(ts, b.id, total), cid)
            == Owed(ts, cid) + (if cid == b.customerId then b.totalAmount - total else 0)
  {
    var ts' := Reprice(ts, b.id, total);
    OwedSplit(ts, b.id, cid);
    OwedSplit(ts', b.id, cid);
    RepriceKeepsRest(ts, b.id, total);
    RepriceSingle(ts, b, total);
    OwedSingle(EntriesOf(ts, b.id), cid);
    OwedSingle(EntriesOf(ts', b.id), cid);
  }

  /** Re-pricing a linked booking to `total` while moving customer `c`'s balance by
      total - old total shifts c's sum by total - old and the invoiced customer's by old - total. */
  lemma RepriceMovesSums(cs: seq<Customer>, ts: seq<Transaction>, b: Booking, c: Customer, total: int, cid: string)
    requires BookingLinked(ts, b) && UniqueCustomerIds(cs) && c in cs
    ensures BalanceOf(AdjustBalance(cs, c.id, total - b.totalAmount), cid) + Owed(Reprice(ts, b.id, total), cid)
            == BalanceOf(cs, cid) + Owed(ts, cid)
               + (if cid == c.id then total - b.totalAmount else 0)
               + (if cid == b.customerId then b.totalAmount - total else 0)
  {
    AdjustOneBalance(cs, c.id, total - b.totalAmount, cid);
    OwedAfterReprice(ts, b, total, cid);
  }

  /** One booking after an edit of `prior` for the same customer, against the re-priced ledger. */
  lemma ReviseOneLinked(ts: seq<Transaction>, b: Booking, prior: Booking, cust: Customer,
                        items: seq<BookingItem>, start: int, end: int, total: int)
    requires BookingLinked(ts, b) && BookingLinked(ts, prior) && prior.customerId == cust.id && total >= 0
    ensures BookingLinked(Reprice(ts, prior.id, total),
                          if b.id == prior.id then Revised(b, cust, items, start, end, total) else b)
  {
    if b.id == prior.id {
      RepriceOwnEntries(ts, prior.id, total);
    } else {
      RepriceOtherEntries(ts, prior.id, total, b.id);
    }
  }

  /** Revising a linked booking for the same customer and re-pricing its invoice keeps
      every link. */
  lemma ReviseKeepsLinked(bs: seq<Booking>, ts: seq<Transaction>, prior: Booking, cust: Customer,
                          items: seq<BookingItem>, start: int, end: int, total: int)
    requires AllLinked(bs, ts) && prior in bs && prior.customerId == cust.id && total >= 0
    ensures AllLinked(Revise(bs, prior.id, cust, items, start, end, total), Reprice(ts, prior.id, total))
  {
    var r := Revise(bs, prior.id, cust, items, start, end, total);
    forall x | x in r ensures BookingLinked(Reprice(ts, prior.id, total), x) {
      var k :| 0 <= k < |r| && r[k] == x;
      assert bs[k] in bs;
      ReviseOneLinked(ts, bs[k], prior, cust, items, start, end, total);
    }
  }

  /** Revising a linked booking for a different customer unlinks it. */
  lemma ReviseForOtherCustomerUnlinks(bs: seq<Booking>, ts: seq<Transaction>, prior: Booking, cust: Customer,
                                      items: seq<BookingItem>, start: int, end: int, total: int)
    requires AllLinked(bs, ts) && prior in bs && prior.customerId != cust.id
    ensures !AllLinked(Revise(bs, prior.id, cust, items, start, end, total), Reprice(ts, prior.id, total))
  {
    var r := Revise(bs, prior.id, cust, items, start, end, total);
    var k :| 0 <= k < |bs| && bs[k] == prior;
    assert r[k] in r;
    RepriceOwnEntries(ts, prior.id, total);
    assert EntriesOf(Reprice(ts, prior.id, total), prior.id)[0].customerId == prior.customerId;
  }

  /** A booking added with fresh id drops out again when that id is removed. */
  lemma WithoutFreshBooking(bs: seq<Booking>, b: Booking)
    requires forall x :: x in bs ==> x.id != b.id
    ensures WithoutBooking([b] + bs, b.id) == bs
  {
    FilterAll(bs, (x: Booking) => x.id != b.id);
    assert ([b] + bs)[1..] == bs;
  }

  /** An entry added for a fresh booking id drops out again when that booking's entries are removed. */
  lemma WithoutFreshEntry(ts: seq<Transaction>, t: Transaction, id: string)
    requires t.bookingId == Some(id)
    requires forall x :: x in ts ==> x.bookingId != Some(id)
    ensures WithoutEntriesOf([t] + ts, id) == ts
  {
    FilterAll(ts, (x: Transaction) => x.bookingId != Some(id));
    assert ([t] + ts)[1..] == ts;
  }

  // ---------------------------------------------------------------- the handlers keep the sums

  /** Creating a booking keeps every customer's Position. */
  lemma CreateKeepsPositions(s: AppData, newBookingId: string, newTransactionId: string,
                             nowIso: string, today: int, description: string, cid: string)
    requires ReadyToSave(s) && s.form.editingId == "" && UniqueCustomerIds(s.customers)
    ensures Position(SaveBooking(s, newBookingId, newTransactionId, nowIso, today, description), cid)
            == Position(s, cid)
  {
    var cust := CustomerWithId(s.customers, s.form.customerId).value;
    var total := LinesTotal(FormLines(s));
    CreateShape(s, newBookingId, newTransactionId, nowIso, today, description);
    var t := Transaction(newTransactionId, cust.id, Some(newBookingId), today, -total, Invoice, description, None);
    EntryWithAdjustKeepsSum(s.customers, s.transactions, t, cust, total, cid);
  }

  /** Creating a booking with fresh ids from a cart of non-negative rates keeps every
      booking linked to its invoice, the new one included. */
  lemma CreateKeepsLinked(s: AppData, newBookingId: string, newTransactionId: string,
                          nowIso: string, today: int, description: string)
    requires ReadyToSave(s) && s.form.editingId == "" && Linked(s)
    requires forall b :: b in s.bookings ==> b.id != newBookingId
    requires forall t :: t in s.transactions ==> t.bookingId != Some(newBookingId)
    requires forall e :: e in s.form.cart ==> e.dailyRate >= 0
    ensures Linked(SaveBooking(s, newBookingId, newTransactionId, nowIso, today, description))
  {
    var cust := CustomerWithId(s.customers, s.form.customerId).value;
    var items := FormLines(s);
    var total := LinesTotal(items);
    CreateShape(s, newBookingId, newTransactionId, nowIso, today, description);
    RatesGiveNonNegativeTotal(s.form.cart, FormDays(s));
    var b := Booking(newBookingId, cust.id, cust.name, items, s.form.start.value, s.form.end.value,
                     total, 0, 0, BookingStatus.Active, None, DataService.DatePart(nowIso));
    var t := Transaction(newTransactionId, cust.id, Some(newBookingId), today, -total, Invoice, description, None);
    LinkNewBooking(s.bookings, s.transactions, b, t);
  }

  /** A payment for a customer on the list keeps every Position. */
  lemma PaymentKeepsPositions(s: AppData, c: Customer, amount: int, payMethod: PaymentMethod,
                              newTransactionId: string, today: int, description: string, cid: string)
    requires UniqueCustomerIds(s.customers) && c in s.customers
    ensures Position(AddPayment(s, Some(c), amount, payMethod, newTransactionId, today, description), cid)
            == Position(s, cid)
  {
    var t := Transaction(newTransactionId, c.id, None, today, amount, Payment, description, Some(payMethod));
    EntryWithAdjustKeepsSum(s.customers, s.transactions, t, c, -amount, cid);
  }

  /** A payment is tied to no booking, so every link stays. */
  lemma PaymentKeepsLinked(s: AppData, selected: Option<Customer>, amount: int, payMethod: PaymentMethod,
                           newTransactionId: string, today: int, description: string)
    requires Linked(s)
    ensures Linked(AddPayment(s, selected, amount, payMethod, newTransactionId, today, description))
  {
    if selected.Some? {
      var t := Transaction(newTransactionId, selected.value.id, None, today, amount, Payment, description, Some(payMethod));
      PrependKeepsLinked(s.bookings, s.transactions, t);
    }
  }

  /** A return keeps every Position and every link. */
  lemma ReturnKeepsLedger(s: AppData, id: string, cid: string)
    ensures Position(ReturnEquipment(s, id), cid) == Position(s, cid)
    ensures Linked(s) ==> Linked(ReturnEquipment(s, id))
  {
    if Linked(s) {
      CompleteKeepsLinked(s.bookings, s.transactions, id);
    }
  }

  /** Removing a linked booking whose customer is on the list, with its single entry as the
      invoice found, keeps every Position and every other link. */
  lemma RemovedKeepsLedger(s: AppData, b: Booking, cid: string)
    requires Linked(s) && b in s.bookings && UniqueCustomerIds(s.customers)
    requires exists c :: c in s.customers && c.id == b.customerId
    ensures var s' := Removed(s, b, Some(EntriesOf(s.transactions, b.id)[0]));
            Position(s', cid) == Position(s, cid) && Linked(s')
  {
    assert BookingLinked(s.transactions, b);
    assert Magnitude(EntriesOf(s.transactions, b.id)[0].amount) == b.totalAmount;
    DropKeepsSum(s.customers, s.transactions, b, cid);
    DropKeepsLinked(s.bookings, s.transactions, b.id);
  }

  /** Deleting a linked booking whose customer is on the list keeps every Position (the
      balance falls by the invoice's magnitude just as the removed invoice leaves the sum)
      and keeps every remaining booking linked. */
  lemma DeleteKeepsLedger(s: AppData, id: string, cid: string)
    requires Linked(s) && CustomersKnown(s) && UniqueCustomerIds(s.customers)
    ensures Position(DeleteBooking(s, id, Some(Admin), true), cid) == Position(s, cid)
    ensures Linked(DeleteBooking(s, id, Some(Admin), true))
  {
    if BookingWithId(s.bookings, id).Some? {
      var b := BookingWithId(s.bookings, id).value;
      assert b in s.bookings && b.id == id;
      InvoiceIsTheEntry(s.transactions, b);
      DeleteShape(s, id, b);
      RemovedKeepsLedger(s, b, cid);
    }
  }

  /** The Position after the found-booking edit branch, in terms of the two lists it rewrites. */
  lemma EditedSums(s: AppData, prior: Booking, cust: Customer, items: seq<BookingItem>,
                   start: int, end: int, total: int, cid: string)
    ensures Position(Edited(s, prior, cust, items, start, end, total), cid)
            == BalanceOf(AdjustBalance(s.customers, cust.id, total - prior.totalAmount), cid)
               + Owed(Reprice(s.transactions, prior.id, total), cid)
  {
  }

  /** The found-booking edit branch moves Positions as re-pricing and re-crediting do. */
  lemma EditedMovesPositions(s: AppData, prior: Booking, cust: Customer, items: seq<BookingItem>,
                             start: int, end: int, total: int, cid: string)
    requires prior.id == s.form.editingId && BookingLinked(s.transactions, prior)
    requires UniqueCustomerIds(s.customers) && cust in s.customers
    ensures Position(Edited(s, prior, cust, items, start, end, total), cid)
            == Position(s, cid)
               + (if cid == cust.id then total - prior.totalAmount else 0)
               + (if cid == prior.customerId then prior.totalAmount - total else 0)
  {
    EditedSums(s, prior, cust, items, start, end, total, cid);
    RepriceMovesSums(s.customers, s.transactions, prior, cust, total, cid);
  }

  /** An edit moves the Position of the form's customer by new - old total and the Position
      of the customer the invoice is charged to by old - new total. */
  lemma EditMovesPositions(s: AppData, newBookingId: string, newTransactionId: string,
                           nowIso: string, today: int, description: string, prior: Booking, cid: string)
    requires ReadyToSave(s) && s.form.editingId != "" && Linked(s) && UniqueCustomerIds(s.customers)
    requires BookingWithId(s.bookings, s.form.editingId) == Some(prior)
    ensures var total := LinesTotal(FormLines(s));
            Position(SaveBooking(s, newBookingId, newTransactionId, nowIso, today, description), cid)
            == Position(s, cid)
               + (if cid == s.form.customerId then total - prior.totalAmount else 0)
               + (if cid == prior.customerId then prior.totalAmount - total else 0)
  {
    var cust := CustomerWithId(s.customers, s.form.customerId).value;
    var items := FormLines(s);
    assert cust in s.customers && cust.id == s.form.customerId;
    assert prior in s.bookings && prior.id == s.form.editingId;
    EditShape(s, newBookingId, newTransactionId, nowIso, today, description, prior);
    EditedMovesPositions(s, prior, cust, items, s.form.start.value, s.form.end.value, LinesTotal(items), cid);
  }

  /** An edit that keeps the booking's customer keeps every Position. */
  lemma EditKeepsPositions(s: AppData, newBookingId: string, newTransactionId: string,
                           nowIso: string, today: int, description: string, prior: Booking, cid: string)
    requires ReadyToSave(s) && s.form.editingId != "" && Linked(s) && UniqueCustomerIds(s.customers)
    requires BookingWithId(s.bookings, s.form.editingId) == Some(prior)
    requires prior.customerId == s.form.customerId
    ensures Position(SaveBooking(s, newBookingId, newTransactionId, nowIso, today, description), cid)
            == Position(s, cid)
  {
    EditMovesPositions(s, newBookingId, newTransactionId, nowIso, today, description, prior, cid);
  }

  /** An edit from a cart of non-negative rates keeps every link exactly when it keeps the
      booking's customer: changing the customer unlinks the booking from its invoice. */
  lemma EditLinks(s: AppData, newBookingId: string, newTransactionId: string,
                  nowIso: string, today: int, description: string, prior: Booking)
    requires ReadyToSave(s) && s.form.editingId != "" && Linked(s)
    requires BookingWithId(s.bookings, s.form.editingId) == Some(prior)
    requires forall e :: e in s.form.cart ==> e.dailyRate >= 0
    ensures Linked(SaveBooking(s, newBookingId, newTransactionId, nowIso, today, description))
            <==> prior.customerId == s.form.customerId
  {
    var cust := CustomerWithId(s.customers, s.form.customerId).value;
    var items := FormLines(s);
    var total := LinesTotal(items);
    EditShape(s, newBookingId, newTransactionId, nowIso, today, description, prior);
    RatesGiveNonNegativeTotal(s.form.cart, FormDays(s));
    if prior.customerId == cust.id {
      ReviseKeepsLinked(s.bookings, s.transactions, prior, cust, items, s.form.start.value, s.form.end.value, total);
    } else {
      ReviseForOtherCustomerUnlinks(s.bookings, s.transactions, prior, cust, items, s.form.start.value, s.form.end.value, total);
    }
  }

  // ---------------------------------------------------------------- create, then delete

  lemma {:induction false} AdjustBalanceUndo(cs: seq<Customer>, id: string, delta: int)
    ensures AdjustBalance(AdjustBalance(cs, id, delta), id, -delta) == cs
  {
    if cs != [] {
      AdjustBalanceUndo(cs[1..], id, delta);
      assert AdjustBalance(cs, id, delta)[1..] == AdjustBalance(cs[1..], id, delta);
    }
  }

  lemma {:induction false} ReleaseUndoesRent(equipment: seq<Equipment>, ids: seq<string>)
    requires forall e :: e in equipment && e.id in ids ==> e.status == Available
    ensures WithStatus(WithStatus(equipment, ids, Rented), ids, Available) == equipment
  {
    if equipment != [] {
      assert equipment[0] in equipment;
      ReleaseUndoesRent(equipment[1..], ids);
      assert WithStatus(equipment, ids, Rented)[1..] == WithStatus(equipment[1..], ids, Rented);
    }
  }

  /** Removing the booking and invoice a create branch just put at the front gives back the
      customers, equipment, bookings and ledger it started from. */
  lemma CreatedThenRemoved(s: AppData, f: BookingForm, cust: Customer, items: seq<BookingItem>, total: int,
                           newBookingId: string, newTransactionId: string,
                           nowIso: string, today: int, description: string)
    requires ReadyToSave(s) && total >= 0
    requires forall b :: b in s.bookings ==> b.id != newBookingId
    requires forall t :: t in s.transactions ==> t.bookingId != Some(newBookingId)
    requires forall e :: e in s.equipment && e.id in ItemIds(items) ==> e.status == Available
    ensures var s1 := CreateBooking(s, cust, items, total, newBookingId, newTransactionId,
                                    nowIso, today, description).(form := f);
            var s2 := Removed(s1, s1.bookings[0], Some(s1.transactions[0]));
            s2.customers == s.customers && s2.equipment == s.equipment
            && s2.bookings == s.bookings && s2.transactions == s.transactions
  {
    var s1 := CreateBooking(s, cust, items, total, newBookingId, newTransactionId,
                            nowIso, today, description).(form := f);
    assert Magnitude(s1.transactions[0].amount) == total;
    AdjustBalanceUndo(s.customers, cust.id, total);
    ReleaseUndoesRent(s.equipment, ItemIds(items));
    WithoutFreshBooking(s.bookings, s1.bookings[0]);
    WithoutFreshEntry(s.transactions, s1.transactions[0], newBookingId);
  }

  /** An Admin's confirmed delete right after a create, with fresh ids, Available cart
      equipment and non-negative rates, gives back the customers, equipment, bookings and
      ledger the create started from. */
  lemma CreateThenDeleteRestores(s: AppData, newBookingId: string, newTransactionId: string,
                                 nowIso: string, today: int, description: string)
    requires ReadyToSave(s) && s.form.editingId == ""
    requires forall b :: b in s.bookings ==> b.id != newBookingId
    requires forall t :: t in s.transactions ==> t.bookingId != Some(newBookingId)
    requires forall e :: e in s.form.cart ==> e.dailyRate >= 0
    requires forall e :: e in s.equipment && e.id in CartIds(s.form.cart) ==> e.status == Available
    ensures var s' := DeleteBooking(SaveBooking(s, newBookingId, newTransactionId, nowIso, today, description),
                                    newBookingId, Some(Admin), true);
            s'.customers == s.customers && s'.equipment == s.equipment
            && s'.bookings == s.bookings && s'.transactions == s.transactions
  {
    var cust := CustomerWithId(s.customers, s.form.customerId).value;
    var items := FormLines(s);
    var total := LinesTotal(items);
    CreateShape(s, newBookingId, newTransactionId, nowIso, today, description);
    var s1 := SaveBooking(s, newBookingId, newTransactionId, nowIso, today, description);
    RatesGiveNonNegativeTotal(s.form.cart, FormDays(s));
    LinesKeepCartIds(s.form.cart, FormDays(s));
    assert BookingWithId(s1.bookings, newBookingId) == Some(s1.bookings[0]);
    assert InvoiceOf(s1.transactions, newBookingId) == Some(s1.transactions[0]);
    DeleteShape(s1, newBookingId, s1.bookings[0]);
    CreatedThenRemoved(s, ClosedForm(s.form), cust, items, total, newBookingId, newTransactionId,
                       nowIso, today, description);
  }
}
