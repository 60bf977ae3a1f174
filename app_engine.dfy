/** The booking / ledger engine that App.tsx runs in memory, as functions from one state of
    its React state arrays to the next. Each handler is modelled as written: the state it reads
    is the state before the call (the setters' closures capture it), and every
    `prev.map(...)` / `prev.filter(...)` becomes one of the helpers below. */
module AppEngine {
  import opened Types
  import opened Seqs
  import DataService

  /** The booking modal's working state: the cart, the selected customer id ('' = none), the
      two date inputs (None = empty input), the id of the booking being edited ('' = none),
      and the modal's category filter and search text. */
  datatype BookingForm = BookingForm(
    cart: seq<Equipment>,
    customerId: string,
    start: Option<int>,
    end: Option<int>,
    editingId: string,
    categoryFilter: string,
    searchTerm: string)

  /** The state arrays App.tsx keeps with useState. */
  datatype AppData = AppData(
    customers: seq<Customer>,
    equipment: seq<Equipment>,
    bookings: seq<Booking>,
    transactions: seq<Transaction>,
    categories: seq<string>,
    users: seq<User>,
    equipmentCategoryFilter: string,
    form: BookingForm)

  const AllFilter := "all"

  // ---------------------------------------------------------------- lookups (Array.find)

  function CustomerWithId(customers: seq<Customer>, id: string): (r: Option<Customer>)
    ensures r.Some? ==> r.value in customers && r.value.id == id
    ensures r.None? <==> forall c :: c in customers ==> c.id != id
  {
    Find(customers, (c: Customer) => c.id == id)
  }

  function BookingWithId(bookings: seq<Booking>, id: string): (r: Option<Booking>)
    ensures r.Some? ==> r.value in bookings && r.value.id == id
    ensures r.None? <==> forall b :: b in bookings ==> b.id != id
  {
    Find(bookings, (b: Booking) => b.id == id)
  }

  /** `transactions.find(t => t.bookingId === id && t.type === 'Invoice')` */
  function InvoiceOf(transactions: seq<Transaction>, bookingId: string): (r: Option<Transaction>)
    ensures r.Some? ==> r.value in transactions && r.value.bookingId == Some(bookingId) && r.value.kind == Invoice
    ensures r.None? <==> forall t :: t in transactions ==> !(t.bookingId == Some(bookingId) && t.kind == Invoice)
  {
    Find(transactions, (t: Transaction) => t.bookingId == Some(bookingId) && t.kind == Invoice)
  }

  // ---------------------------------------------------------------- line items and totals

  /** The booking lines built from the cart (App.tsx:280-286): one line per cart entry, the
      rate taken from the cart's snapshot, every line with the same day count. */
  function Lines(cart: seq<Equipment>, days: int): (items: seq<BookingItem>)
    ensures |items| == |cart|
    ensures forall i :: 0 <= i < |cart| ==>
      items[i].equipmentId == cart[i].id && items[i].equipmentName == cart[i].name &&
      items[i].dailyRate == cart[i].dailyRate && items[i].days == days &&
      items[i].total == cart[i].dailyRate * days
  {
    if cart == [] then []
    else [BookingItem(cart[0].id, cart[0].name, cart[0].dailyRate, days, cart[0].dailyRate * days)]
         + Lines(cart[1..], days)
  }

  /** The ids of the cart's equipment, in cart order. */
  function CartIds(cart: seq<Equipment>): (r: seq<string>)
    ensures |r| == |cart|
    ensures forall i :: 0 <= i < |cart| ==> r[i] == cart[i].id
  {
    seq(|cart|, i requires 0 <= i < |cart| => cart[i].id)
  }

  /** `items.reduce((sum, item) => sum + item.total, 0)` */
  function LinesTotal(items: seq<BookingItem>): int
  {
    if items == [] then 0 else items[0].total + LinesTotal(items[1..])
  }

  /** The sum of the cart's daily rates. */
  function RateSum(cart: seq<Equipment>): int
  {
    if cart == [] then 0 else cart[0].dailyRate + RateSum(cart[1..])
  }

  /** The modal's running total (App.tsx:1159): `cart.reduce((acc, eq) => acc + eq.dailyRate * days, 0)`. */
  function CartTotal(cart: seq<Equipment>, days: int): int
  {
    if cart == [] then 0 else cart[0].dailyRate * days + CartTotal(cart[1..], days)
  }

  /** The modal's day count (App.tsx:1158): 0 until both dates are filled in. */
  function ModalDays(form: BookingForm): (d: int)
    ensures d == 0 <==> form.start.None? || form.end.None?
    ensures d >= 0
  {
    if form.start.Some? && form.end.Some? then DataService.CalculateDays(form.start.value, form.end.value) else 0
  }

  function ModalTotal(form: BookingForm): int
  {
    CartTotal(form.cart, ModalDays(form))
  }

  // ---------------------------------------------------------------- the `prev.map` updates

  /** `{...e, status: st}` */
  function Marked(e: Equipment, st: EquipmentStatus): Equipment
  {
    e.(status := st)
  }

  /** `equipment.map(e => ids.includes(e.id) ? {...e, status: st} : e)` */
  function WithStatus(equipment: seq<Equipment>, ids: seq<string>, st: EquipmentStatus): (r: seq<Equipment>)
    ensures |r| == |equipment|
    ensures forall i :: 0 <= i < |r| ==>
      r[i] == if equipment[i].id in ids then Marked(equipment[i], st) else equipment[i]
  {
    if equipment == [] then []
    else [if equipment[0].id in ids then Marked(equipment[0], st) else equipment[0]]
         + WithStatus(equipment[1..], ids, st)
  }

  /** The edit diff of App.tsx:314-324: ids only in the old list become Available, every id
      in the new list becomes Rented, all other equipment is kept. */
  function Restatus(equipment: seq<Equipment>, oldIds: seq<string>, newIds: seq<string>): (r: seq<Equipment>)
    ensures |r| == |equipment|
    ensures forall i :: 0 <= i < |r| ==>
      r[i] == if equipment[i].id in oldIds && equipment[i].id !in newIds then Marked(equipment[i], Available)
              else if equipment[i].id in newIds then Marked(equipment[i], Rented)
              else equipment[i]
  {
    if equipment == [] then []
    else
      var e := equipment[0];
      [if e.id in oldIds && e.id !in newIds then Marked(e, Available)
       else if e.id in newIds then Marked(e, Rented)
       else e]
      + Restatus(equipment[1..], oldIds, newIds)
  }

  /** `{...c, balance: c.balance + delta}` */
  function Credited(c: Customer, delta: int): Customer
  {
    c.(balance := c.balance + delta)
  }

  /** `customers.map(c => c.id === id ? {...c, balance: c.balance + delta} : c)` */
  function AdjustBalance(customers: seq<Customer>, id: string, delta: int): (r: seq<Customer>)
    ensures |r| == |customers|
    ensures forall i :: 0 <= i < |r| ==>
      r[i] == if customers[i].id == id then Credited(customers[i], delta) else customers[i]
  {
    if customers == [] then []
    else [if customers[0].id == id then Credited(customers[0], delta) else customers[0]]
         + AdjustBalance(customers[1..], id, delta)
  }

  /** The booking rewrite of an edit (App.tsx:299-307): customer, lines, dates and total. */
  function Revised(b: Booking, cust: Customer, items: seq<BookingItem>, start: int, end: int, total: int): Booking
  {
    b.(customerId := cust.id, customerName := cust.name, items := items,
       startDate := start, endDate := end, totalAmount := total)
  }

  /** `bookings.map(b => b.id === id ? {...b, ...} : b)` for an edit (App.tsx:297-310). */
  function Revise(bookings: seq<Booking>, id: string, cust: Customer, items: seq<BookingItem>,
                  start: int, end: int, total: int): (r: seq<Booking>)
    ensures |r| == |bookings|
    ensures forall i :: 0 <= i < |r| ==>
      r[i] == if bookings[i].id == id then Revised(bookings[i], cust, items, start, end, total) else bookings[i]
  {
    if bookings == [] then []
    else
      [if bookings[0].id == id then Revised(bookings[0], cust, items, start, end, total) else bookings[0]]
      + Revise(bookings[1..], id, cust, items, start, end, total)
  }

  /** `{...t, amount: -total}` */
  function Repriced(t: Transaction, total: int): Transaction
  {
    t.(amount := -total)
  }

  /** The invoice rewrite of an edit (App.tsx:328-333). */
  function Reprice(transactions: seq<Transaction>, bookingId: string, total: int): (r: seq<Transaction>)
    ensures |r| == |transactions|
    ensures forall i :: 0 <= i < |r| ==>
      r[i] == if transactions[i].bookingId == Some(bookingId) && transactions[i].kind == Invoice
              then Repriced(transactions[i], total)
              else transactions[i]
  {
    if transactions == [] then []
    else
      var t := transactions[0];
      [if t.bookingId == Some(bookingId) && t.kind == Invoice then Repriced(t, total) else t]
      + Reprice(transactions[1..], bookingId, total)
  }

  /** `{...b, status: BookingStatus.Completed}` */
  function AsCompleted(b: Booking): Booking
  {
    b.(status := BookingStatus.Completed)
  }

  /** The status rewrite of a return (App.tsx:471). */
  function Complete(bookings: seq<Booking>, id: string): (r: seq<Booking>)
    ensures |r| == |bookings|
    ensures forall i :: 0 <= i < |r| ==>
      r[i] == if bookings[i].id == id then AsCompleted(bookings[i]) else bookings[i]
  {
    if bookings == [] then []
    else [if bookings[0].id == id then AsCompleted(bookings[0]) else bookings[0]]
         + Complete(bookings[1..], id)
  }

  // ---------------------------------------------------------------- the `prev.filter` updates

  function WithoutBooking(bookings: seq<Booking>, id: string): seq<Booking>
  {
    Filter(bookings, (b: Booking) => b.id != id)
  }

  /** `transactions.filter(t => t.bookingId !== id)`: every entry of the booking, of any kind. */
  function WithoutEntriesOf(transactions: seq<Transaction>, bookingId: string): seq<Transaction>
  {
    Filter(transactions, (t: Transaction) => t.bookingId != Some(bookingId))
  }

  /** `equipment.filter(e => ids.includes(e.id))` */
  function EquipmentIn(equipment: seq<Equipment>, ids: seq<string>): seq<Equipment>
  {
    Filter(equipment, (e: Equipment) => e.id in ids)
  }

  function WithoutCartItem(cart: seq<Equipment>, itemId: string): seq<Equipment>
  {
    Filter(cart, (e: Equipment) => e.id != itemId)
  }

  function WithoutCategory(categories: seq<string>, category: string): seq<string>
  {
    Filter(categories, (c: string) => c != category)
  }

  function WithoutUser(users: seq<User>, id: string): seq<User>
  {
    Filter(users, (u: User) => u.id != id)
  }

  // ---------------------------------------------------------------- handlers

  /** The guard of handleSaveBooking (App.tsx:272-275): a customer, a non-empty cart, both
      dates, and a customer id that resolves. */
  predicate ReadyToSave(s: AppData)
  {
    s.form.customerId != "" && |s.form.cart| != 0 && s.form.start.Some? && s.form.end.Some?
    && CustomerWithId(s.customers, s.form.customerId).Some?
  }

  /** The form after a save (App.tsx:382-386); the dates are not cleared. */
  function ClosedForm(f: BookingForm): BookingForm
  {
    f.(cart := [], customerId := "", categoryFilter := AllFilter, searchTerm := "", editingId := "")
  }

  /** The day count and lines a ready form saves. */
  function FormDays(s: AppData): int
    requires ReadyToSave(s)
  {
    DataService.CalculateDays(s.form.start.value, s.form.end.value)
  }

  function FormLines(s: AppData): seq<BookingItem>
    requires ReadyToSave(s)
  {
    Lines(s.form.cart, FormDays(s))
  }

  /** The create branch of handleSaveBooking (App.tsx:349-379): the new booking goes to the
      front, the lines' equipment becomes Rented, an Invoice of -total goes to the front of
      the transactions and the customer's balance rises by +total. */
  function CreateBooking(s: AppData, cust: Customer, items: seq<BookingItem>, total: int,
                         newBookingId: string, newTransactionId: string,
                         nowIso: string, today: int, description: string): AppData
    requires ReadyToSave(s)
  {
    var b := Booking(newBookingId, cust.id, cust.name, items, s.form.start.value, s.form.end.value,
                     total, 0, 0, BookingStatus.Active, None, DataService.DatePart(nowIso));
    var t := Transaction(newTransactionId, cust.id, Some(newBookingId), today, -total, Invoice,
                         description, None);
    s.(bookings := [b] + s.bookings,
       equipment := WithStatus(s.equipment, ItemIds(items), Rented),
       transactions := [t] + s.transactions,
       customers := AdjustBalance(s.customers, cust.id, total))
  }

  /** The edit branch of handleSaveBooking (App.tsx:290-346). Nothing changes when the
      edited id no longer resolves. */
  function EditBooking(s: AppData, cust: Customer, items: seq<BookingItem>, total: int): AppData
    requires ReadyToSave(s)
  {
    var id := s.form.editingId;
    match BookingWithId(s.bookings, id)
    case None => s
    case Some(prior) => Edited(s, prior, cust, items, s.form.start.value, s.form.end.value, total)
  }

  /** The edit branch once the booking being edited (`prior`, whose id is the editing id)
      is found, with the form's dates `start` and `end`. */
  function Edited(s: AppData, prior: Booking, cust: Customer, items: seq<BookingItem>,
                  start: int, end: int, total: int): AppData
  {
    s.(bookings := Revise(s.bookings, prior.id, cust, items, start, end, total),
       equipment := Restatus(s.equipment, ItemIds(prior.items), ItemIds(items)),
       transactions := Reprice(s.transactions, prior.id, total),
       customers := AdjustBalance(s.customers, cust.id, total - prior.totalAmount))
  }

  /** handleSaveBooking (App.tsx:271-387). The fresh booking and transaction ids, the clock
      (`nowIso` for createdAt, `today` as a day number for the invoice date) and the invoice
      description are inputs. */
  function SaveBooking(s: AppData, newBookingId: string, newTransactionId: string,
                       nowIso: string, today: int, description: string): AppData
  {
    if !ReadyToSave(s) then s
    else
      var cust := CustomerWithId(s.customers, s.form.customerId).value;
      var items := FormLines(s);
      var total := LinesTotal(items);
      var s' := if s.form.editingId != "" then EditBooking(s, cust, items, total)
                else CreateBooking(s, cust, items, total, newBookingId, newTransactionId, nowIso, today, description);
      s'.(form := ClosedForm(s.form))
  }

  /** handleEditBooking (App.tsx:389-410): refused for a Completed booking; otherwise the
      form is loaded with the booking and the cart with the current equipment it names. */
  function OpenEdit(s: AppData, b: Booking): AppData
  {
    if b.status == BookingStatus.Completed then s
    else s.(form := s.form.(editingId := b.id, customerId := b.customerId,
                            start := Some(b.startDate), end := Some(b.endDate),
                            cart := EquipmentIn(s.equipment, ItemIds(b.items))))
  }

  /** handleDeleteBooking (App.tsx:412-438). `role` is the signed-in user's role (None when
      nobody is signed in); `confirmed` is the answer to window.confirm. */
  function DeleteBooking(s: AppData, id: string, role: Option<UserRole>, confirmed: bool): AppData
  {
    if role != Some(Admin) || !confirmed then s
    else match BookingWithId(s.bookings, id)
      case None => s
      case Some(b) => Removed(s, b, InvoiceOf(s.transactions, id))
  }

  /** The updates of an allowed delete of booking `b`, whose invoice lookup gave `invoice`. */
  function Removed(s: AppData, b: Booking, invoice: Option<Transaction>): AppData
  {
    var s1 := s.(equipment := WithStatus(s.equipment, ItemIds(b.items), Available),
                 bookings := WithoutBooking(s.bookings, b.id));
    match invoice
    case None => s1
    case Some(inv) =>
      s1.(customers := AdjustBalance(s.customers, b.customerId, -Magnitude(inv.amount)),
          transactions := WithoutEntriesOf(s.transactions, b.id))
  }

  /** handleReturnEquipment (App.tsx:468-474). */
  function ReturnEquipment(s: AppData, id: string): AppData
  {
    match BookingWithId(s.bookings, id)
    case None => s
    case Some(b) =>
      s.(bookings := Complete(s.bookings, id),
         equipment := WithStatus(s.equipment, ItemIds(b.items), Available))
  }

  /** handleAddPayment (App.tsx:450-466): `selected` is the customer whose statement is open. */
  function AddPayment(s: AppData, selected: Option<Customer>, amount: int, payMethod: PaymentMethod,
                      newTransactionId: string, today: int, description: string): AppData
  {
    match selected
    case None => s
    case Some(c) =>
      var t := Transaction(newTransactionId, c.id, None, today, amount, Payment, description, Some(payMethod));
      s.(transactions := [t] + s.transactions,
         customers := AdjustBalance(s.customers, c.id, -amount))
  }

  /** addToCart (App.tsx:440-444). */
  function AddToCart(s: AppData, item: Equipment): AppData
  {
    if Find(s.form.cart, (e: Equipment) => e.id == item.id).None?
    then s.(form := s.form.(cart := s.form.cart + [item]))
    else s
  }

  /** removeFromCart (App.tsx:446-448). */
  function RemoveFromCart(s: AppData, itemId: string): AppData
  {
    s.(form := s.form.(cart := WithoutCartItem(s.form.cart, itemId)))
  }

  /** handleAddCategory (App.tsx:84-88). */
  function AddCategory(s: AppData, category: string): AppData
  {
    if category != "" && category !in s.categories then s.(categories := s.categories + [category]) else s
  }

  /** handleDeleteCategory (App.tsx:90-96): the two category filters fall back to 'all'
      when they showed the deleted category. */
  function DeleteCategory(s: AppData, category: string, confirmed: bool): AppData
  {
    if !confirmed then s
    else s.(categories := WithoutCategory(s.categories, category),
            equipmentCategoryFilter := if s.equipmentCategoryFilter == category then AllFilter else s.equipmentCategoryFilter,
            form := s.form.(categoryFilter := if s.form.categoryFilter == category then AllFilter else s.form.categoryFilter))
  }

  /** handleDeleteUser (App.tsx:154-162): the last remaining user cannot be deleted. */
  function DeleteUser(s: AppData, id: string, confirmed: bool): AppData
  {
    if |s.users| <= 1 || !confirmed then s else s.(users := WithoutUser(s.users, id))
  }

  /** The equipment the booking modal offers (App.tsx:1160-1162), without the name search:
      Available items, or (while editing) items already in the cart, in the chosen category. */
  function ModalEquipment(s: AppData): seq<Equipment>
  {
    Filter(s.equipment, (e: Equipment) =>
      (e.status == Available || (s.form.editingId != "" && Find(s.form.cart, (c: Equipment) => c.id == e.id).Some?))
      && (s.form.categoryFilter == AllFilter || e.category == s.form.categoryFilter))
  }
}
