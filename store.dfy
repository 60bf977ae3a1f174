/** The Supabase tables the services read and write, held in memory. Each table is a sequence
    of rows in storage order (the `created_at` ordering the services request is not modelled);
    a storage call that can fail receives its outcome as a boolean argument. */
module Store {
  import opened Types

  /** A `customers` row: the stored record plus the soft-delete timestamp `deleted_at`. */
  datatype CustomerRow = CustomerRow(customer: Customer, deletedAt: Option<string>)

  /** A `bookings` row. Its lines live in `booking_items`; `created_at` is a full timestamp. */
  datatype BookingRow = BookingRow(
    id: string,
    customerId: string,
    customerName: string,
    startDate: int,
    endDate: int,
    totalAmount: int,
    paidAmount: int,
    deposit: int,
    status: BookingStatus,
    notes: Option<string>,
    createdBy: Option<string>,
    createdAt: string)

  /** A `booking_items` row: one booking line, keyed by the booking it belongs to. */
  datatype ItemRow = ItemRow(
    bookingId: string,
    equipmentId: string,
    equipmentName: string,
    dailyRate: int,
    days: int,
    total: int)

  /** `x || null` on write and `x || undefined` on read of an optional text column: the empty
      string is falsy, so it is stored and read back as absent. */
  function TextOrAbsent(s: Option<string>): (r: Option<string>)
    ensures r != Some("")
    ensures r == s || r == None
    ensures s != Some("") ==> r == s
  {
    if s == Some("") then None else s
  }

  /** `n || null` on write and `n ? Number(n) : undefined` on read of an optional number
      column: zero is falsy, so it is stored and read back as absent. */
  function NumberOrAbsent(n: Option<int>): (r: Option<int>)
    ensures r != Some(0)
    ensures r == n || r == None
    ensures n != Some(0) ==> r == n
  {
    if n == Some(0) then None else n
  }

  /** All tables at one moment. */
  datatype Tables = Tables(
    customers: seq<CustomerRow>,
    equipment: seq<Equipment>,
    bookings: seq<BookingRow>,
    items: seq<ItemRow>,
    transactions: seq<Transaction>)

  /** The database. Services change it only through these setters, one table at a time. */
  class Db {
    var customers: seq<CustomerRow>
    var equipment: seq<Equipment>
    var bookings: seq<BookingRow>
    var items: seq<ItemRow>
    var transactions: seq<Transaction>

    function Snapshot(): Tables
      reads this
    {
      Tables(customers, equipment, bookings, items, transactions)
    }

    constructor(t: Tables)
      ensures Snapshot() == t
    {
      customers := t.customers;
      equipment := t.equipment;
      bookings := t.bookings;
      items := t.items;
      transactions := t.transactions;
    }

    method SetCustomers(v: seq<CustomerRow>)
      modifies this
      ensures Snapshot() == old(Snapshot()).(customers := v)
    {
      customers := v;
    }

    method SetEquipment(v: seq<Equipment>)
      modifies this
      ensures Snapshot() == old(Snapshot()).(equipment := v)
    {
      equipment := v;
    }

    method SetBookings(v: seq<BookingRow>)
      modifies this
      ensures Snapshot() == old(Snapshot()).(bookings := v)
    {
      bookings := v;
    }

    method SetItems(v: seq<ItemRow>)
      modifies this
      ensures Snapshot() == old(Snapshot()).(items := v)
    {
      items := v;
    }

    method SetTransactions(v: seq<Transaction>)
      modifies this
      ensures Snapshot() == old(Snapshot()).(transactions := v)
    {
      transactions := v;
    }
  }
}
