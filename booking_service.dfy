/** services/bookingService.ts over the in-memory `bookings`, `booking_items` and `equipment`
    tables: create with rollback, the field patch, the status write with its equipment release,
    cancel, delete (the lines go with the booking, as the foreign key cascades), the edit diff
    of the lines, and the row-to-record converter. Each step's outcome is an argument; a step
    whose answer the source ignores (the rollback delete, the bulk status writes, the delete of
    the old lines) still either happens or not. */
module BookingService {
  import opened Types
  import opened Seqs
  import opened Store
  import DataService
  import EquipmentService

  // ---------------------------------------------------------------- rows and records

  /** The row `.eq('id', id)` selects in `bookings`. */
  function BookingRowById(rows: seq<BookingRow>, id: string): (r: Option<BookingRow>)
    ensures r.Some? ==> r.value in rows && r.value.id == id
    ensures r.None? <==> forall b :: b in rows ==> b.id != id
  {
    Find(rows, (b: BookingRow) => b.id == id)
  }

  /** The `booking_items` rows `.eq('booking_id', id)` selects, in table order. */
  function ItemRowsOf(items: seq<ItemRow>, bookingId: string): (r: seq<ItemRow>)
    ensures forall x :: x in r <==> x in items && x.bookingId == bookingId
  {
    Filter(items, (x: ItemRow) => x.bookingId == bookingId)
  }

  /** `booking_items` without the rows of one booking. */
  function WithoutItemsOf(items: seq<ItemRow>, bookingId: string): (r: seq<ItemRow>)
    ensures forall x :: x in r <==> x in items && x.bookingId != bookingId
  {
    Filter(items, (x: ItemRow) => x.bookingId != bookingId)
  }

  /** `bookings` without the rows of one id. */
  function WithoutBookingRow(rows: seq<BookingRow>, id: string): (r: seq<BookingRow>)
    ensures forall b :: b in r <==> b in rows && b.id != id
  {
    Filter(rows, (b: BookingRow) => b.id != id)
  }

  /** The `booking_items` row written for one line. */
  function ItemRowOf(bookingId: string, item: BookingItem): ItemRow
  {
    ItemRow(bookingId, item.equipmentId, item.equipmentName, item.dailyRate, item.days, item.total)
  }

  /** `items.map(item => ({ booking_id, ... }))` */
  function ItemRows(bookingId: string, items: seq<BookingItem>): (r: seq<ItemRow>)
    ensures |r| == |items|
    ensures forall i :: 0 <= i < |items| ==> r[i] == ItemRowOf(bookingId, items[i])
  {
    seq(|items|, i requires 0 <= i < |items| => ItemRowOf(bookingId, items[i]))
  }

  /** The line the converter reads back from one `booking_items` row. */
  function LineOf(x: ItemRow): BookingItem
  {
    BookingItem(x.equipmentId, x.equipmentName, x.dailyRate, x.days, x.total)
  }

  /** `dbItems.map(...)` in the converter. */
  function Lines(rows: seq<ItemRow>): (r: seq<BookingItem>)
    ensures |r| == |rows|
    ensures forall i :: 0 <= i < |rows| ==> r[i] == LineOf(rows[i])
  {
    seq(|rows|, i requires 0 <= i < |rows| => LineOf(rows[i]))
  }

  /** The equipment ids of some `booking_items` rows, in order. */
  function RowEquipmentIds(rows: seq<ItemRow>): (r: seq<string>)
    ensures |r| == |rows|
    ensures forall i :: 0 <= i < |rows| ==> r[i] == rows[i].equipmentId
  {
    seq(|rows|, i requires 0 <= i < |rows| => rows[i].equipmentId)
  }

  /** convertDBBookingToAppBooking: the row and its lines as a record; `notes` falsy reads as
      absent, `created_at` is cut at its 'T' to a date-only string. */
  function ConvertBooking(row: BookingRow, itemRows: seq<ItemRow>): (b: Booking)
    ensures b.id == row.id && b.customerId == row.customerId && b.status == row.status
    ensures b.totalAmount == row.totalAmount && b.paidAmount == row.paidAmount && b.deposit == row.deposit
    ensures b.customerName == row.customerName && b.startDate == row.startDate && b.endDate == row.endDate
    ensures b.notes != Some("") && (row.notes != Some("") ==> b.notes == row.notes)
    ensures b.createdAt <= row.createdAt && 'T' !in b.createdAt
    ensures |b.createdAt| < |row.createdAt| ==> row.createdAt[|b.createdAt|] == 'T'
    ensures |b.items| == |itemRows|
    ensures forall i :: 0 <= i < |itemRows| ==>
              b.items[i].equipmentId == itemRows[i].equipmentId && b.items[i].equipmentName == itemRows[i].equipmentName &&
              b.items[i].dailyRate == itemRows[i].dailyRate &&
              b.items[i].days == itemRows[i].days && b.items[i].total == itemRows[i].total
  {
    Booking(row.id, row.customerId, row.customerName, Lines(itemRows), row.startDate, row.endDate,
            row.totalAmount, row.paidAmount, row.deposit, row.status, TextOrAbsent(row.notes),
            DataService.DatePart(row.createdAt))
  }

  /** The row createBooking inserts: the generated id, falsy `notes` / `created_by` written as
      null, the insert timestamp. */
  function NewBookingRow(newId: string, draft: Booking, createdBy: Option<string>, now: string): BookingRow
  {
    BookingRow(newId, draft.customerId, draft.customerName, draft.startDate, draft.endDate,
               draft.totalAmount, draft.paidAmount, draft.deposit, draft.status,
               TextOrAbsent(draft.notes), TextOrAbsent(createdBy), now)
  }

  /** getBookingById: the booking row with its lines; null when the booking read fails or no
      row has the id; a failed lines read gives no lines (`itemsData || []`). */
  function Fetch(t: Tables, id: string, readOk: bool, itemsReadOk: bool): (r: Option<Booking>)
    ensures r.Some? ==> readOk && BookingRowById(t.bookings, id).Some? && r.value.id == id
  {
    if !readOk then None
    else match BookingRowById(t.bookings, id)
      case None => None
      case Some(row) => Some(ConvertBooking(row, if itemsReadOk then ItemRowsOf(t.items, id) else []))
  }

  /** Every line belongs to a stored booking (the `booking_id` foreign key). */
  predicate ItemsLinked(t: Tables)
  {
    forall x :: x in t.items ==> BookingRowById(t.bookings, x.bookingId).Some?
  }

  /** The ids of `xs` missing from `ys`: `xs.filter(id => !ys.includes(id))`. */
  function Missing(xs: seq<string>, ys: seq<string>): (r: seq<string>)
    ensures forall x :: x in r <==> x in xs && x !in ys
  {
    Filter(xs, (x: string) => x !in ys)
  }

  // ---------------------------------------------------------------- the patch

  /** `Partial<Booking>` as updateBooking reads it: None is a key left `undefined`. */
  datatype BookingPatch = BookingPatch(
    customerId: Option<string>,
    customerName: Option<string>,
    startDate: Option<int>,
    endDate: Option<int>,
    totalAmount: Option<int>,
    paidAmount: Option<int>,
    deposit: Option<int>,
    status: Option<BookingStatus>,
    notes: Option<string>)

  /** The update updateBookingStatus writes: the status column alone. */
  function StatusPatch(st: BookingStatus): (p: BookingPatch)
    ensures p.status == Some(st)
  {
    BookingPatch(None, None, None, None, None, None, None, Some(st), None)
  }

  /** updateBooking's update object applied to one row (BookingPatchOnlyPresentKeys). */
  function PatchedRow(b: BookingRow, p: BookingPatch): BookingRow
  {
    BookingRow(
      b.id,
      if p.customerId.Some? then p.customerId.value else b.customerId,
      if p.customerName.Some? then p.customerName.value else b.customerName,
      if p.startDate.Some? then p.startDate.value else b.startDate,
      if p.endDate.Some? then p.endDate.value else b.endDate,
      if p.totalAmount.Some? then p.totalAmount.value else b.totalAmount,
      if p.paidAmount.Some? then p.paidAmount.value else b.paidAmount,
      if p.deposit.Some? then p.deposit.value else b.deposit,
      if p.status.Some? then p.status.value else b.status,
      if p.notes.Some? then p.notes else b.notes,
      b.createdBy,
      b.createdAt)
  }

  /** `.update(patch).eq('id', id)` on `bookings`. */
  function PatchBookingRows(rows: seq<BookingRow>, id: string, p: BookingPatch): (r: seq<BookingRow>)
    ensures |r| == |rows|
    ensures forall i :: 0 <= i < |rows| ==> r[i] == if rows[i].id == id then PatchedRow(rows[i], p) else rows[i]
  {
    seq(|rows|, i requires 0 <= i < |rows| => if rows[i].id == id then PatchedRow(rows[i], p) else rows[i])
  }

  // ---------------------------------------------------------------- the operations as functions of the tables

  /** Whether createBooking gets past its inserts: the booking insert succeeds (a clash with an
      existing id is an insert error) and, when there are lines, so does their insert. */
  predicate CreateStored(t: Tables, draft: Booking, newId: string, insertOk: bool, itemsOk: bool)
  {
    insertOk && BookingRowById(t.bookings, newId).None? && (|draft.items| == 0 || itemsOk)
  }

  /** The delete of one booking; the foreign key cascades it to the booking's lines. */
  function WithoutBookingCascade(t: Tables, id: string): Tables
  {
    t.(bookings := WithoutBookingRow(t.bookings, id), items := WithoutItemsOf(t.items, id))
  }

  /** The tables after createBooking. */
  function Created(t: Tables, draft: Booking, newId: string, createdBy: Option<string>, now: string,
                   insertOk: bool, itemsOk: bool, rollbackOk: bool, bulkOk: bool): Tables
  {
    if !insertOk || BookingRowById(t.bookings, newId).Some? then t
    else
      var t1 := t.(bookings := t.bookings + [NewBookingRow(newId, draft, createdBy, now)]);
      if |draft.items| > 0 && !itemsOk then
        if rollbackOk then WithoutBookingCascade(t1, newId) else t1
      else
        var t2 := if |draft.items| > 0 then t1.(items := t1.items + ItemRows(newId, draft.items)) else t1;
        if bulkOk then t2.(equipment := EquipmentService.StatusWritten(t2.equipment, ItemIds(draft.items), Rented))
        else t2
  }

  /** The tables after updateBooking: the patch on the row with that id, unless the write
      fails or no row has the id. */
  function Updated(t: Tables, id: string, p: BookingPatch, writeOk: bool): Tables
  {
    if !writeOk || BookingRowById(t.bookings, id).None? then t
    else t.(bookings := PatchBookingRows(t.bookings, id, p))
  }

  /** The tables after updateBookingStatus: the status write, then for Completed the re-read
      booking's equipment set Available. */
  function StatusChanged(t: Tables, id: string, st: BookingStatus, writeOk: bool, readOk: bool,
                         itemsReadOk: bool, bulkOk: bool): Tables
  {
    if !writeOk then t
    else
      var t1 := t.(bookings := PatchBookingRows(t.bookings, id, StatusPatch(st)));
      if st == Completed && bulkOk && Fetch(t1, id, readOk, itemsReadOk).Some? then
        t1.(equipment := EquipmentService.StatusWritten(t1.equipment, ItemIds(Fetch(t1, id, readOk, itemsReadOk).value.items), Available))
      else t1
  }

  /** The tables after cancelBooking: nothing for an unknown booking or a failed status write;
      otherwise status Cancelled and the booking's equipment set Available. */
  function CancelledTables(t: Tables, id: string, readOk: bool, itemsReadOk: bool, writeOk: bool, bulkOk: bool): Tables
  {
    var b := Fetch(t, id, readOk, itemsReadOk);
    if b.None? || !writeOk then t
    else
      var t1 := StatusChanged(t, id, Cancelled, true, false, false, false);
      if bulkOk then t1.(equipment := EquipmentService.StatusWritten(t1.equipment, ItemIds(b.value.items), Available))
      else t1
  }

  /** The tables after deleteBooking: nothing for an unknown booking or a failed delete;
      otherwise the booking and its lines gone and its equipment set Available. */
  function DeletedTables(t: Tables, id: string, readOk: bool, itemsReadOk: bool, deleteOk: bool, bulkOk: bool): Tables
  {
    var b := Fetch(t, id, readOk, itemsReadOk);
    if b.None? || !deleteOk then t
    else
      var t1 := WithoutBookingCascade(t, id);
      if bulkOk then t1.(equipment := EquipmentService.StatusWritten(t1.equipment, ItemIds(b.value.items), Available))
      else t1
  }

  /** The equipment ids updateBookingItems read as the current lines (none when that read
      fails). */
  function CurrentIds(t: Tables, bookingId: string, readOk: bool): seq<string>
  {
    if readOk then RowEquipmentIds(ItemRowsOf(t.items, bookingId)) else []
  }

  /** The tables after updateBookingItems: the old lines deleted (when that delete succeeds),
      the new lines inserted, then old\new set Available and new\old set Rented, each only
      when non-empty. An insert error stops before the status writes. */
  function ItemsReplaced(t: Tables, bookingId: string, newItems: seq<BookingItem>, readOk: bool, deleteOk: bool,
                         insertOk: bool, releaseOk: bool, rentOk: bool): Tables
  {
    var oldIds := CurrentIds(t, bookingId, readOk);
    var t1 := if deleteOk then t.(items := WithoutItemsOf(t.items, bookingId)) else t;
    if !insertOk then t1
    else
      var t2 := t1.(items := t1.items + ItemRows(bookingId, newItems));
      var toAvailable := Missing(oldIds, ItemIds(newItems));
      var toRented := Missing(ItemIds(newItems), oldIds);
      var t3 := if |toAvailable| > 0 && releaseOk
                then t2.(equipment := EquipmentService.StatusWritten(t2.equipment, toAvailable, Available)) else t2;
      if |toRented| > 0 && rentOk
      then t3.(equipment := EquipmentService.StatusWritten(t3.equipment, toRented, Rented)) else t3
  }

  // ---------------------------------------------------------------- properties

  /** updateBooking changes exactly the keys present in the patch. */
  lemma BookingPatchOnlyPresentKeys(b: BookingRow, p: BookingPatch)
    ensures var r := PatchedRow(b, p);
      r.id == b.id && r.createdAt == b.createdAt && r.createdBy == b.createdBy &&
      (p.customerId.Some? ==> r.customerId == p.customerId.value) && (p.customerId.None? ==> r.customerId == b.customerId) &&
      (p.customerName.Some? ==> r.customerName == p.customerName.value) &&
      (p.customerName.None? ==> r.customerName == b.customerName) &&
      (p.startDate.Some? ==> r.startDate == p.startDate.value) && (p.startDate.None? ==> r.startDate == b.startDate) &&
      (p.endDate.Some? ==> r.endDate == p.endDate.value) && (p.endDate.None? ==> r.endDate == b.endDate) &&
      (p.totalAmount.Some? ==> r.totalAmount == p.totalAmount.value) &&
      (p.totalAmount.None? ==> r.totalAmount == b.totalAmount) &&
      (p.paidAmount.Some? ==> r.paidAmount == p.paidAmount.value) &&
      (p.paidAmount.None? ==> r.paidAmount == b.paidAmount) &&
      (p.deposit.Some? ==> r.deposit == p.deposit.value) && (p.deposit.None? ==> r.deposit == b.deposit) &&
      (p.status.Some? ==> r.status == p.status.value) && (p.status.None? ==> r.status == b.status) &&
      (p.notes.Some? ==> r.notes == p.notes) && (p.notes.None? ==> r.notes == b.notes)
  {
  }

  /** The lines written for a booking read back as the same lines. */
  lemma LinesRoundTrip(bookingId: string, items: seq<BookingItem>)
    ensures Lines(ItemRows(bookingId, items)) == items
    ensures RowEquipmentIds(ItemRows(bookingId, items)) == ItemIds(items)
  {
  }

  /** The created-at column read back is the date the timestamp starts with. */
  lemma CreatedAtIsDate(date: string, rest: string)
    requires 'T' !in date && rest != [] && rest[0] == 'T'
    ensures DataService.DatePart(date + rest) == date
  {
    DataService.DatePartPrefix(date, rest);
  }

  /** The rows of a booking written just now are exactly the ones a read of its id finds,
      when no line referred to that id before. */
  lemma FreshLinesAreFound(items: seq<ItemRow>, bookingId: string, lines: seq<BookingItem>)
    requires forall x :: x in items ==> x.bookingId != bookingId
    ensures ItemRowsOf(items + ItemRows(bookingId, lines), bookingId) == ItemRows(bookingId, lines)
  {
    var p := (x: ItemRow) => x.bookingId == bookingId;
    FilterAppend(items, ItemRows(bookingId, lines), p);
    NoneMatch(items, p);
    FilterAll(ItemRows(bookingId, lines), p);
  }

  lemma {:induction false} NoneMatch<T(!new)>(s: seq<T>, p: T -> bool)
    requires forall x :: x in s ==> !p(x)
    ensures Filter(s, p) == []
  {
    if s != [] {
      assert s[0] in s;
      NoneMatch(s[1..], p);
    }
  }

  /** The booking row appended with a fresh id is the one a lookup of that id finds. */
  lemma {:induction false} FreshRowIsFound(rows: seq<BookingRow>, row: BookingRow)
    requires BookingRowById(rows, row.id).None?
    ensures BookingRowById(rows + [row], row.id) == Some(row)
  {
    if rows == [] {
      assert rows + [row] == [row];
    } else {
      assert (rows + [row])[1..] == rows[1..] + [row];
      FreshRowIsFound(rows[1..], row);
    }
  }

  /** createBooking with every step succeeding: the booking reads back as the draft under its
      new id (notes normalised, created-at cut to its date), and exactly its equipment is set
      Rented. */
  lemma CreateSucceeds(t: Tables, draft: Booking, newId: string, createdBy: Option<string>, now: string)
    requires ItemsLinked(t) && BookingRowById(t.bookings, newId).None?
    ensures var after := Created(t, draft, newId, createdBy, now, true, true, true, true);
      Fetch(after, newId, true, true) ==
        Some(draft.(id := newId, notes := TextOrAbsent(draft.notes), createdAt := DataService.DatePart(now))) &&
      after.equipment == EquipmentService.StatusWritten(t.equipment, ItemIds(draft.items), Rented) &&
      after.transactions == t.transactions && after.customers == t.customers
  {
    var row := NewBookingRow(newId, draft, createdBy, now);
    var after := Created(t, draft, newId, createdBy, now, true, true, true, true);
    FreshRowIsFound(t.bookings, row);
    assert forall x :: x in t.items ==> x.bookingId != newId;
    FreshLinesAreFound(t.items, newId, draft.items);
    LinesRoundTrip(newId, draft.items);
    if |draft.items| == 0 {
      assert ItemRowsOf(t.items, newId) == [] by {
        NoneMatch(t.items, (x: ItemRow) => x.bookingId == newId);
      }
      assert draft.items == [];
    }
  }

  /** createBooking whose booking insert fails changes nothing. */
  lemma CreateInsertFails(t: Tables, draft: Booking, newId: string, createdBy: Option<string>, now: string,
                          itemsOk: bool, rollbackOk: bool, bulkOk: bool)
    ensures Created(t, draft, newId, createdBy, now, false, itemsOk, rollbackOk, bulkOk) == t
  {
  }

  /** createBooking whose line insert fails never touches equipment; with the rollback delete
      succeeding every table is as before, without it the booking row stays behind. */
  lemma CreateItemsFail(t: Tables, draft: Booking, newId: string, createdBy: Option<string>, now: string,
                        rollbackOk: bool, bulkOk: bool)
    requires ItemsLinked(t) && BookingRowById(t.bookings, newId).None? && |draft.items| > 0
    ensures var after := Created(t, draft, newId, createdBy, now, true, false, rollbackOk, bulkOk);
      after.equipment == t.equipment &&
      (rollbackOk ==> after == t) &&
      (!rollbackOk ==> after.bookings == t.bookings + [NewBookingRow(newId, draft, createdBy, now)])
  {
    if rollbackOk {
      var row := NewBookingRow(newId, draft, createdBy, now);
      var p := (b: BookingRow) => b.id != newId;
      FilterAppend(t.bookings, [row], p);
      FilterAll(t.bookings, p);
      assert Filter([row], p) == [];
      forall x | x in t.items ensures x.bookingId != newId {
      }
      FilterAll(t.items, (x: ItemRow) => x.bookingId != newId);
    }
  }

  /** updateBookingStatus: a failed write changes nothing, a status other than Completed never
      touches equipment, and Completed (every step succeeding) sets exactly the booking's
      equipment Available. */
  lemma StatusRelease(t: Tables, id: string, st: BookingStatus, readOk: bool, itemsReadOk: bool, bulkOk: bool)
    ensures StatusChanged(t, id, st, false, readOk, itemsReadOk, bulkOk) == t
    ensures st != Completed ==> StatusChanged(t, id, st, true, readOk, itemsReadOk, bulkOk).equipment == t.equipment
    ensures st == Completed && BookingRowById(t.bookings, id).Some? ==>
              StatusChanged(t, id, st, true, true, true, true).equipment ==
              EquipmentService.StatusWritten(t.equipment, RowEquipmentIds(ItemRowsOf(t.items, id)), Available)
  {
    if st == Completed && BookingRowById(t.bookings, id).Some? {
      var t1 := t.(bookings := PatchBookingRows(t.bookings, id, StatusPatch(st)));
      var i :| 0 <= i < |t.bookings| && t.bookings[i] == BookingRowById(t.bookings, id).value;
      assert t1.bookings[i].id == id;
      assert BookingRowById(t1.bookings, id).Some?;
      var b := Fetch(t1, id, true, true).value;
      assert b.items == Lines(ItemRowsOf(t.items, id));
      assert ItemIds(b.items) == RowEquipmentIds(ItemRowsOf(t.items, id));
    }
  }

  /** cancelBooking and deleteBooking answer false for an unknown booking and change nothing. */
  lemma UnknownBookingUntouched(t: Tables, id: string, readOk: bool, itemsReadOk: bool, writeOk: bool, bulkOk: bool)
    requires BookingRowById(t.bookings, id).None?
    ensures CancelledTables(t, id, readOk, itemsReadOk, writeOk, bulkOk) == t
    ensures DeletedTables(t, id, readOk, itemsReadOk, writeOk, bulkOk) == t
  {
  }

  /** deleteBooking with every step succeeding: no row and no line of the booking is left,
      and exactly its equipment is set Available. */
  lemma DeleteRemoves(t: Tables, id: string)
    requires BookingRowById(t.bookings, id).Some?
    ensures var after := DeletedTables(t, id, true, true, true, true);
      BookingRowById(after.bookings, id).None? && ItemRowsOf(after.items, id) == [] &&
      after.equipment == EquipmentService.StatusWritten(t.equipment, RowEquipmentIds(ItemRowsOf(t.items, id)), Available)
  {
    var after := DeletedTables(t, id, true, true, true, true);
    NoneMatch(after.items, (x: ItemRow) => x.bookingId == id);
    LinesIds(ItemRowsOf(t.items, id));
  }

  /** cancelBooking with every step succeeding: the booking is Cancelled and exactly its
      equipment is set Available. */
  lemma CancelReleases(t: Tables, id: string)
    requires BookingRowById(t.bookings, id).Some?
    ensures var after := CancelledTables(t, id, true, true, true, true);
      after.bookings == PatchBookingRows(t.bookings, id, StatusPatch(Cancelled)) &&
      after.equipment == EquipmentService.StatusWritten(t.equipment, RowEquipmentIds(ItemRowsOf(t.items, id)), Available)
  {
    LinesIds(ItemRowsOf(t.items, id));
  }

  /** The equipment ids of the lines read back are those of the rows. */
  lemma LinesIds(rows: seq<ItemRow>)
    ensures ItemIds(Lines(rows)) == RowEquipmentIds(rows)
  {
  }

  /** updateBookingItems with every step succeeding: the booking's stored lines are exactly
      the new ones, other bookings' lines are kept, and each piece of equipment listed before
      but not now becomes Available, each listed now but not before becomes Rented, and every
      other piece (including those listed both times) is untouched. */
  lemma EditDiff(t: Tables, bookingId: string, newItems: seq<BookingItem>, other: string)
    requires other != bookingId
    ensures var after := ItemsReplaced(t, bookingId, newItems, true, true, true, true, true);
      var oldIds := RowEquipmentIds(ItemRowsOf(t.items, bookingId));
      var newIds := ItemIds(newItems);
      ItemRowsOf(after.items, bookingId) == ItemRows(bookingId, newItems) &&
      ItemRowsOf(after.items, other) == ItemRowsOf(t.items, other) &&
      |after.equipment| == |t.equipment| &&
      forall i :: 0 <= i < |t.equipment| ==>
        after.equipment[i] ==
          if t.equipment[i].id in oldIds && t.equipment[i].id !in newIds then t.equipment[i].(status := Available)
          else if t.equipment[i].id in newIds && t.equipment[i].id !in oldIds then t.equipment[i].(status := Rented)
          else t.equipment[i]
  {
    var kept := WithoutItemsOf(t.items, bookingId);
    NoneMatch(kept, (x: ItemRow) => x.bookingId == bookingId);
    FreshLinesAreFound(kept, bookingId, newItems);
    OtherLinesKept(t.items, bookingId, newItems, other);
    var oldIds := RowEquipmentIds(ItemRowsOf(t.items, bookingId));
    var newIds := ItemIds(newItems);
    var toAvailable := Missing(oldIds, newIds);
    var toRented := Missing(newIds, oldIds);
    EquipmentService.NoIdsNoChange(t.equipment, Available);
    var e1 := EquipmentService.StatusWritten(t.equipment, toAvailable, Available);
    EquipmentService.NoIdsNoChange(e1, Rented);
  }

  /** Replacing one booking's lines keeps the lines of every other booking. */
  lemma OtherLinesKept(items: seq<ItemRow>, bookingId: string, newItems: seq<BookingItem>, other: string)
    requires other != bookingId
    ensures ItemRowsOf(WithoutItemsOf(items, bookingId) + ItemRows(bookingId, newItems), other) == ItemRowsOf(items, other)
  {
    var p := (x: ItemRow) => x.bookingId == other;
    FilterAppend(WithoutItemsOf(items, bookingId), ItemRows(bookingId, newItems), p);
    NoneMatch(ItemRows(bookingId, newItems), p);
    FilterOfWithout(items, bookingId, other);
  }

  lemma {:induction false} FilterOfWithout(items: seq<ItemRow>, bookingId: string, other: string)
    requires other != bookingId
    ensures ItemRowsOf(WithoutItemsOf(items, bookingId), other) == ItemRowsOf(items, other)
  {
    if items != [] {
      var head := if items[0].bookingId != bookingId then [items[0]] else [];
      assert WithoutItemsOf(items, bookingId) == head + WithoutItemsOf(items[1..], bookingId);
      FilterAppend(head, WithoutItemsOf(items[1..], bookingId), (x: ItemRow) => x.bookingId == other);
      FilterOfWithout(items[1..], bookingId, other);
    }
  }

  /** updateBookingItems whose insert fails after the old lines were deleted leaves the
      booking with no lines and touches no equipment. */
  lemma EditInsertFailureLosesLines(t: Tables, bookingId: string, newItems: seq<BookingItem>, readOk: bool,
                                    releaseOk: bool, rentOk: bool)
    ensures var after := ItemsReplaced(t, bookingId, newItems, readOk, true, false, releaseOk, rentOk);
      ItemRowsOf(after.items, bookingId) == [] && after.equipment == t.equipment
  {
    var after := ItemsReplaced(t, bookingId, newItems, readOk, true, false, releaseOk, rentOk);
    NoneMatch(after.items, (x: ItemRow) => x.bookingId == bookingId);
  }

  // ---------------------------------------------------------------- the service calls

  /** getBookingById */
  method GetBookingById(db: Db, id: string, readOk: bool, itemsReadOk: bool) returns (r: Option<Booking>)
    ensures r == Fetch(db.Snapshot(), id, readOk, itemsReadOk)
    ensures r.Some? ==> r.value.id == id
  {
    if !readOk {
      return None;
    }
    var row := BookingRowById(db.bookings, id);
    if row.None? {
      return None;
    }
    var lines := if itemsReadOk then ItemRowsOf(db.items, id) else [];
    r := Some(ConvertBooking(row.value, lines));
  }

  /** createBooking: insert the booking; insert its lines (deleting the booking again if that
      fails); set its equipment Rented; read it back. */
  method CreateBooking(db: Db, draft: Booking, newId: string, createdBy: Option<string>, now: string,
                       insertOk: bool, itemsOk: bool, rollbackOk: bool, bulkOk: bool,
                       readOk: bool, itemsReadOk: bool) returns (r: Option<Booking>)
    modifies db
    ensures db.Snapshot() == Created(old(db.Snapshot()), draft, newId, createdBy, now, insertOk, itemsOk, rollbackOk, bulkOk)
    ensures r == if CreateStored(old(db.Snapshot()), draft, newId, insertOk, itemsOk)
                 then Fetch(db.Snapshot(), newId, readOk, itemsReadOk) else None
  {
    if !insertOk || BookingRowById(db.bookings, newId).Some? {
      return None;
    }
    db.SetBookings(db.bookings + [NewBookingRow(newId, draft, createdBy, now)]);
    if |draft.items| > 0 {
      if !itemsOk {
        if rollbackOk {
          db.SetBookings(WithoutBookingRow(db.bookings, newId));
          db.SetItems(WithoutItemsOf(db.items, newId));
        }
        return None;
      }
      db.SetItems(db.items + ItemRows(newId, draft.items));
    }
    var _ := EquipmentService.BulkUpdateEquipmentStatus(db, ItemIds(draft.items), Rented, bulkOk);
    r := GetBookingById(db, newId, readOk, itemsReadOk);
  }

  /** updateBooking: write the present keys, then read the booking back; null with no write
      when the update fails or no row has the id. */
  method UpdateBooking(db: Db, id: string, p: BookingPatch, writeOk: bool, readOk: bool, itemsReadOk: bool)
    returns (r: Option<Booking>)
    modifies db
    ensures db.Snapshot() == Updated(old(db.Snapshot()), id, p, writeOk)
    ensures r == if writeOk && BookingRowById(old(db.bookings), id).Some?
                 then Fetch(db.Snapshot(), id, readOk, itemsReadOk) else None
  {
    if !writeOk || BookingRowById(db.bookings, id).None? {
      return None;
    }
    db.SetBookings(PatchBookingRows(db.bookings, id, p));
    r := GetBookingById(db, id, readOk, itemsReadOk);
  }

  /** updateBookingStatus: write the status; for Completed, re-read the booking and set its
      equipment Available. The answer is whether the status write succeeded. */
  method UpdateBookingStatus(db: Db, id: string, st: BookingStatus, writeOk: bool, readOk: bool,
                             itemsReadOk: bool, bulkOk: bool) returns (r: bool)
    modifies db
    ensures r == writeOk
    ensures db.Snapshot() == StatusChanged(old(db.Snapshot()), id, st, writeOk, readOk, itemsReadOk, bulkOk)
  {
    if !writeOk {
      return false;
    }
    db.SetBookings(PatchBookingRows(db.bookings, id, StatusPatch(st)));
    if st == Completed {
      var b := GetBookingById(db, id, readOk, itemsReadOk);
      if b.Some? {
        var _ := EquipmentService.BulkUpdateEquipmentStatus(db, ItemIds(b.value.items), Available, bulkOk);
      }
    }
    r := true;
  }

  /** completeBooking */
  method CompleteBooking(db: Db, id: string, writeOk: bool, readOk: bool, itemsReadOk: bool, bulkOk: bool)
    returns (r: bool)
    modifies db
    ensures r == writeOk
    ensures db.Snapshot() == StatusChanged(old(db.Snapshot()), id, Completed, writeOk, readOk, itemsReadOk, bulkOk)
  {
    r := UpdateBookingStatus(db, id, Completed, writeOk, readOk, itemsReadOk, bulkOk);
  }

  /** cancelBooking: read the booking (false if there is none), write status Cancelled, and on
      success set its equipment Available. */
  method CancelBooking(db: Db, id: string, readOk: bool, itemsReadOk: bool, writeOk: bool, bulkOk: bool)
    returns (r: bool)
    modifies db
    ensures r <==> Fetch(old(db.Snapshot()), id, readOk, itemsReadOk).Some? && writeOk
    ensures db.Snapshot() == CancelledTables(old(db.Snapshot()), id, readOk, itemsReadOk, writeOk, bulkOk)
  {
    var b := GetBookingById(db, id, readOk, itemsReadOk);
    if b.None? {
      return false;
    }
    var ok := UpdateBookingStatus(db, id, Cancelled, writeOk, false, false, false);
    if ok {
      var _ := EquipmentService.BulkUpdateEquipmentStatus(db, ItemIds(b.value.items), Available, bulkOk);
    }
    r := ok;
  }

  /** deleteBooking: read the booking (false if there is none), delete it with its lines, then
      set its equipment Available. */
  method DeleteBooking(db: Db, id: string, readOk: bool, itemsReadOk: bool, deleteOk: bool, bulkOk: bool)
    returns (r: bool)
    modifies db
    ensures r <==> Fetch(old(db.Snapshot()), id, readOk, itemsReadOk).Some? && deleteOk
    ensures db.Snapshot() == DeletedTables(old(db.Snapshot()), id, readOk, itemsReadOk, deleteOk, bulkOk)
  {
    var b := GetBookingById(db, id, readOk, itemsReadOk);
    if b.None? || !deleteOk {
      return false;
    }
    db.SetBookings(WithoutBookingRow(db.bookings, id));
    db.SetItems(WithoutItemsOf(db.items, id));
    var _ := EquipmentService.BulkUpdateEquipmentStatus(db, ItemIds(b.value.items), Available, bulkOk);
    r := true;
  }

  /** updateBookingItems: read the current lines, delete them, insert the new ones, then set
      old\new Available and new\old Rented. False only when the insert fails. */
  method UpdateBookingItems(db: Db, bookingId: string, newItems: seq<BookingItem>, readOk: bool, deleteOk: bool,
                            insertOk: bool, releaseOk: bool, rentOk: bool) returns (r: bool)
    modifies db
    ensures r == insertOk
    ensures db.Snapshot() == ItemsReplaced(old(db.Snapshot()), bookingId, newItems, readOk, deleteOk, insertOk, releaseOk, rentOk)
  {
    var oldIds := CurrentIds(db.Snapshot(), bookingId, readOk);
    if deleteOk {
      db.SetItems(WithoutItemsOf(db.items, bookingId));
    }
    if !insertOk {
      return false;
    }
    db.SetItems(db.items + ItemRows(bookingId, newItems));
    var toAvailable := Missing(oldIds, ItemIds(newItems));
    var toRented := Missing(ItemIds(newItems), oldIds);
    if |toAvailable| > 0 {
      var _ := EquipmentService.BulkUpdateEquipmentStatus(db, toAvailable, Available, releaseOk);
    }
    if |toRented| > 0 {
      var _ := EquipmentService.BulkUpdateEquipmentStatus(db, toRented, Rented, rentOk);
    }
    r := true;
  }
}
