/** services/customerService.ts over the in-memory `customers` table: listing with the
    soft-delete and party-kind filters, lookup by id, insert, field patch, soft delete and the
    read-then-write balance adjustment. */
module CustomerService {
  import opened Types
  import opened Seqs
  import opened Store

  /** The `type` argument of getCustomers: 'all', or one party kind. */
  datatype KindFilter = AllKinds | OnlyKind(kind: PartyKind)

  /** `Partial<Customer>` as updateCustomer reads it: None is a key left `undefined`. */
  datatype CustomerPatch = CustomerPatch(
    name: Option<string>,
    kind: Option<PartyKind>,
    idNumber: Option<string>,
    phone: Option<string>,
    email: Option<string>,
    address: Option<string>,
    contactPerson: Option<string>,
    notes: Option<string>,
    status: Option<CustomerStatus>,
    creditLimit: Option<int>,
    balance: Option<int>)

  const NoChange := CustomerPatch(None, None, None, None, None, None, None, None, None, None, None)

  /** The patch updateCustomerBalance writes: the balance column alone. */
  function BalancePatch(b: int): (p: CustomerPatch)
    ensures p.balance == Some(b)
    ensures p.(balance := None) == NoChange
  {
    NoChange.(balance := Some(b))
  }

  /** A record whose optional columns hold no falsy value. */
  predicate Normalised(c: Customer)
  {
    c.email != Some("") && c.address != Some("") && c.contactPerson != Some("") &&
    c.notes != Some("") && c.creditLimit != Some(0)
  }

  /** convertDBCustomerToAppCustomer: the stored columns, with falsy optional columns read as
      absent. */
  function Convert(c: Customer): (r: Customer)
    ensures Normalised(r)
    ensures Normalised(c) ==> r == c
    ensures r == c.(email := r.email, address := r.address, contactPerson := r.contactPerson,
                    notes := r.notes, creditLimit := r.creditLimit)
  {
    c.(email := TextOrAbsent(c.email), address := TextOrAbsent(c.address),
       contactPerson := TextOrAbsent(c.contactPerson), notes := TextOrAbsent(c.notes),
       creditLimit := NumberOrAbsent(c.creditLimit))
  }

  // ---------------------------------------------------------------- queries

  /** The row filter of getCustomers: `deleted_at is null`, then `type = kind` unless 'all'. */
  predicate Shown(row: CustomerRow, filter: KindFilter)
  {
    row.deletedAt.None? && (filter.AllKinds? || row.customer.kind == filter.kind)
  }

  /** getCustomers on a successful read: the shown rows, converted, in table order. */
  function Listed(rows: seq<CustomerRow>, filter: KindFilter): (r: seq<Customer>)
    ensures |r| <= |rows|
    ensures forall row :: row in rows && Shown(row, filter) ==> Convert(row.customer) in r
    ensures forall c :: c in r ==>
              exists row :: row in rows && Shown(row, filter) && c == Convert(row.customer)
    ensures forall c :: c in r ==> filter.AllKinds? || c.kind == filter.kind
  {
    if rows == [] then []
    else
      assert rows == [rows[0]] + rows[1..];
      (if Shown(rows[0], filter) then [Convert(rows[0].customer)] else []) + Listed(rows[1..], filter)
  }

  /** The row `.eq('id', id).single()` selects; soft-deleted rows are not excluded. */
  function RowById(rows: seq<CustomerRow>, id: string): (r: Option<CustomerRow>)
    ensures r.Some? ==> r.value in rows && r.value.customer.id == id
    ensures r.None? <==> forall row :: row in rows ==> row.customer.id != id
  {
    Find(rows, (row: CustomerRow) => row.customer.id == id)
  }

  /** getCustomerById on a successful read. */
  function CustomerById(rows: seq<CustomerRow>, id: string): (r: Option<Customer>)
    ensures r.Some? <==> RowById(rows, id).Some?
    ensures r.Some? ==> r.value.id == id && Normalised(r.value)
  {
    match RowById(rows, id)
    case None => None
    case Some(row) => Some(Convert(row.customer))
  }

  /** The primary key: no two rows share an id. */
  predicate UniqueIds(rows: seq<CustomerRow>)
  {
    forall i, j :: 0 <= i < j < |rows| ==> rows[i].customer.id != rows[j].customer.id
  }

  // ---------------------------------------------------------------- writes

  /** The row createCustomer inserts: the generated id, balance 0, falsy optional columns
      written as null, not deleted. */
  function NewRow(newId: string, draft: Customer): (row: CustomerRow)
    ensures row.customer.id == newId && row.customer.balance == 0 && row.deletedAt.None?
    ensures Normalised(row.customer)
    ensures row.customer.(id := draft.id, balance := draft.balance) ==
            Convert(draft).(creditLimit := row.customer.creditLimit)
  {
    CustomerRow(
      draft.(id := newId, balance := 0,
             email := TextOrAbsent(draft.email), address := TextOrAbsent(draft.address),
             contactPerson := TextOrAbsent(draft.contactPerson), notes := TextOrAbsent(draft.notes),
             creditLimit := NumberOrAbsent(draft.creditLimit)),
      None)
  }

  /** updateCustomer's update object applied to one record (PatchChangesOnlyPresentKeys). */
  function Patched(c: Customer, p: CustomerPatch): (r: Customer)
  {
    Customer(
      c.id,
      if p.name.Some? then p.name.value else c.name,
      if p.kind.Some? then p.kind.value else c.kind,
      if p.idNumber.Some? then p.idNumber.value else c.idNumber,
      if p.phone.Some? then p.phone.value else c.phone,
      if p.email.Some? then p.email else c.email,
      if p.address.Some? then p.address else c.address,
      if p.contactPerson.Some? then p.contactPerson else c.contactPerson,
      if p.notes.Some? then p.notes else c.notes,
      if p.balance.Some? then p.balance.value else c.balance,
      if p.status.Some? then p.status.value else c.status,
      if p.creditLimit.Some? then p.creditLimit else c.creditLimit)
  }

  /** `.update(patch).eq('id', id)`: every row with that id is patched, the rest are kept. */
  function PatchRows(rows: seq<CustomerRow>, id: string, p: CustomerPatch): (r: seq<CustomerRow>)
    ensures |r| == |rows|
    ensures forall i :: 0 <= i < |rows| ==>
              r[i] == if rows[i].customer.id == id then rows[i].(customer := Patched(rows[i].customer, p))
                      else rows[i]
  {
    if rows == [] then []
    else
      [if rows[0].customer.id == id then rows[0].(customer := Patched(rows[0].customer, p)) else rows[0]]
      + PatchRows(rows[1..], id, p)
  }

  /** deleteCustomer's `.update({ deleted_at: now }).eq('id', id)`. */
  function SoftDeleted(rows: seq<CustomerRow>, id: string, now: string): (r: seq<CustomerRow>)
    ensures |r| == |rows|
    ensures forall i :: 0 <= i < |rows| ==>
              r[i] == if rows[i].customer.id == id then rows[i].(deletedAt := Some(now)) else rows[i]
  {
    if rows == [] then []
    else
      [if rows[0].customer.id == id then rows[0].(deletedAt := Some(now)) else rows[0]]
      + SoftDeleted(rows[1..], id, now)
  }

  /** The balance updateCustomerBalance writes: the one it read plus `amount` (when no record
      has the id, nothing is written and the value is unused). */
  function NewBalance(rows: seq<CustomerRow>, id: string, amount: int): (b: int)
    ensures CustomerById(rows, id).Some? ==> b == CustomerById(rows, id).value.balance + amount
  {
    match CustomerById(rows, id)
    case None => amount
    case Some(c) => c.balance + amount
  }

  /** The balance write of updateCustomerBalance: the stored balance plus `amount` on the rows
      with that id. */
  function BalanceUpdated(rows: seq<CustomerRow>, id: string, amount: int): (r: seq<CustomerRow>)
    ensures |r| == |rows|
  {
    PatchRows(rows, id, BalancePatch(NewBalance(rows, id, amount)))
  }

  // ---------------------------------------------------------------- properties

  /** updateCustomer changes exactly the keys present in the patch: each present key takes
      the patch's value, each absent key keeps the stored one. */
  lemma PatchChangesOnlyPresentKeys(c: Customer, p: CustomerPatch)
    ensures var r := Patched(c, p);
      (p.name.Some? ==> r.name == p.name.value) && (p.name.None? ==> r.name == c.name) &&
      (p.kind.Some? ==> r.kind == p.kind.value) && (p.kind.None? ==> r.kind == c.kind) &&
      (p.idNumber.Some? ==> r.idNumber == p.idNumber.value) && (p.idNumber.None? ==> r.idNumber == c.idNumber) &&
      (p.phone.Some? ==> r.phone == p.phone.value) && (p.phone.None? ==> r.phone == c.phone) &&
      (p.email.Some? ==> r.email == p.email) && (p.email.None? ==> r.email == c.email) &&
      (p.address.Some? ==> r.address == p.address) && (p.address.None? ==> r.address == c.address) &&
      (p.contactPerson.Some? ==> r.contactPerson == p.contactPerson) &&
      (p.contactPerson.None? ==> r.contactPerson == c.contactPerson) &&
      (p.notes.Some? ==> r.notes == p.notes) && (p.notes.None? ==> r.notes == c.notes) &&
      (p.status.Some? ==> r.status == p.status.value) && (p.status.None? ==> r.status == c.status) &&
      (p.creditLimit.Some? ==> r.creditLimit == p.creditLimit) &&
      (p.creditLimit.None? ==> r.creditLimit == c.creditLimit) &&
      (p.balance.Some? ==> r.balance == p.balance.value) && (p.balance.None? ==> r.balance == c.balance)
  {
  }

  /** An empty patch writes nothing, and applying a patch twice is applying it once. */
  lemma PatchLaws(c: Customer, p: CustomerPatch)
    ensures Patched(c, NoChange) == c
    ensures Patched(Patched(c, p), p) == Patched(c, p)
  {
  }

  /** Under the primary key, the row a lookup finds is the one row with that id. */
  lemma RowByIdIsTheRow(rows: seq<CustomerRow>, i: int)
    requires UniqueIds(rows) && 0 <= i < |rows|
    ensures RowById(rows, rows[i].customer.id) == Some(rows[i])
  {
    var r := RowById(rows, rows[i].customer.id);
    assert rows[i] in rows;
    var j :| 0 <= j < |rows| && rows[j] == r.value;
    if j < i {
      assert rows[j].customer.id != rows[i].customer.id;
    } else if i < j {
      assert rows[i].customer.id != rows[j].customer.id;
    }
  }

  /** A soft delete hides the record from getCustomers and from nothing else: the listing is
      the previous listing without that id. */
  lemma {:induction false} SoftDeleteHides(rows: seq<CustomerRow>, id: string, now: string, filter: KindFilter)
    ensures Listed(SoftDeleted(rows, id, now), filter) ==
            Filter(Listed(rows, filter), (c: Customer) => c.id != id)
  {
    if rows != [] {
      var t := SoftDeleted(rows, id, now);
      assert t[1..] == SoftDeleted(rows[1..], id, now);
      SoftDeleteHides(rows[1..], id, now, filter);
      var head := if Shown(rows[0], filter) then [Convert(rows[0].customer)] else [];
      FilterAppend(head, Listed(rows[1..], filter), (c: Customer) => c.id != id);
    }
  }

  /** A soft-deleted record stays retrievable by id: getCustomerById answers exactly as before,
      for every id. */
  lemma {:induction false} SoftDeleteKeepsLookup(rows: seq<CustomerRow>, id: string, now: string, key: string)
    ensures CustomerById(SoftDeleted(rows, id, now), key) == CustomerById(rows, key)
  {
    if rows != [] {
      var t := SoftDeleted(rows, id, now);
      assert t[1..] == SoftDeleted(rows[1..], id, now);
      SoftDeleteKeepsLookup(rows[1..], id, now, key);
    }
  }

  /** A lookup of an id the prefix does not hold is a lookup in the suffix. */
  lemma {:induction false} LookupPastPrefix(rows: seq<CustomerRow>, more: seq<CustomerRow>, id: string)
    requires forall row :: row in rows ==> row.customer.id != id
    ensures RowById(rows + more, id) == RowById(more, id)
  {
    if rows != [] {
      assert (rows + more)[1..] == rows[1..] + more;
      LookupPastPrefix(rows[1..], more, id);
    } else {
      assert rows + more == more;
    }
  }

  /** A created customer reads back by its id exactly as stored, with balance 0, and the
      primary key still holds. */
  lemma CreatedReadsBack(rows: seq<CustomerRow>, newId: string, draft: Customer)
    requires UniqueIds(rows) && RowById(rows, newId).None?
    ensures CustomerById(rows + [NewRow(newId, draft)], newId) == Some(NewRow(newId, draft).customer)
    ensures CustomerById(rows + [NewRow(newId, draft)], newId).value.balance == 0
    ensures UniqueIds(rows + [NewRow(newId, draft)])
  {
    LookupPastPrefix(rows, [NewRow(newId, draft)], newId);
    var all := rows + [NewRow(newId, draft)];
    forall i, j | 0 <= i < j < |all| ensures all[i].customer.id != all[j].customer.id {
      if j == |rows| {
        assert all[i] in rows;
      }
    }
  }

  /** A balance patch writes the balance column and nothing else. */
  lemma BalancePatchSetsBalance(c: Customer, b: int)
    ensures Patched(c, BalancePatch(b)) == c.(balance := b)
  {
  }

  /** A patch never changes ids, so the primary key survives it. */
  lemma PatchKeepsKey(rows: seq<CustomerRow>, id: string, p: CustomerPatch)
    requires UniqueIds(rows)
    ensures UniqueIds(PatchRows(rows, id, p))
  {
    var after := PatchRows(rows, id, p);
    forall i, j | 0 <= i < j < |after| ensures after[i].customer.id != after[j].customer.id {
      assert after[i].customer.id == rows[i].customer.id;
      assert after[j].customer.id == rows[j].customer.id;
    }
  }

  /** A balance write on an existing id: getCustomerById then reports the written balance and
      no other change. */
  lemma BalanceWritten(rows: seq<CustomerRow>, id: string, b: int)
    requires UniqueIds(rows) && CustomerById(rows, id).Some?
    ensures CustomerById(PatchRows(rows, id, BalancePatch(b)), id) == Some(CustomerById(rows, id).value.(balance := b))
  {
    var after := PatchRows(rows, id, BalancePatch(b));
    var i :| 0 <= i < |rows| && rows[i] == RowById(rows, id).value;
    RowByIdIsTheRow(rows, i);
    PatchKeepsKey(rows, id, BalancePatch(b));
    RowByIdIsTheRow(after, i);
    BalancePatchSetsBalance(rows[i].customer, b);
    ConvertIgnoresBalance(rows[i].customer, b);
  }

  /** updateCustomerBalance on an existing id: getCustomerById then reports the previous
      balance plus `amount` and no other change. */
  lemma BalanceAdded(rows: seq<CustomerRow>, id: string, amount: int)
    requires UniqueIds(rows) && CustomerById(rows, id).Some?
    ensures CustomerById(BalanceUpdated(rows, id, amount), id) ==
            Some(CustomerById(rows, id).value.(balance := CustomerById(rows, id).value.balance + amount))
  {
    BalanceWritten(rows, id, NewBalance(rows, id, amount));
  }


  /** The converter passes the balance column through. */
  lemma ConvertIgnoresBalance(c: Customer, b: int)
    ensures Convert(c.(balance := b)) == Convert(c).(balance := b)
  {
  }

  /** updateCustomerBalance leaves the records of all other ids as they were. */
  lemma BalanceWrittenElsewhere(rows: seq<CustomerRow>, id: string, amount: int, key: string)
    requires key != id
    ensures CustomerById(BalanceUpdated(rows, id, amount), key) == CustomerById(rows, key)
  {
    PatchElsewhere(rows, id, BalancePatch(NewBalance(rows, id, amount)), key);
  }

  /** Patching one id leaves the lookup of every other id unchanged. */
  lemma {:induction false} PatchElsewhere(rows: seq<CustomerRow>, id: string, p: CustomerPatch, key: string)
    requires key != id
    ensures RowById(PatchRows(rows, id, p), key) == RowById(rows, key)
  {
    if rows != [] {
      var t := PatchRows(rows, id, p);
      assert t[1..] == PatchRows(rows[1..], id, p);
      PatchElsewhere(rows[1..], id, p, key);
    }
  }

  /** Adjusting a balance by `amount` and then by its opposite `back` restores the table: the
      balance revert deleteTransaction relies on. */
  lemma BalanceRoundTrip(rows: seq<CustomerRow>, id: string, amount: int, back: int)
    requires UniqueIds(rows) && amount + back == 0
    ensures BalanceUpdated(BalanceUpdated(rows, id, amount), id, back) == rows
  {
    var mid := BalanceUpdated(rows, id, amount);
    var last := BalanceUpdated(mid, id, back);
    if CustomerById(rows, id).Some? {
      var b := CustomerById(rows, id).value.balance;
      BalanceAdded(rows, id, amount);
      assert CustomerById(mid, id).value.balance == b + amount;
      forall i | 0 <= i < |rows| ensures last[i] == rows[i] {
        if rows[i].customer.id == id {
          RowByIdIsTheRow(rows, i);
          BalancePatchSetsBalance(rows[i].customer, b + amount);
          BalancePatchSetsBalance(mid[i].customer, b);
        }
      }
    }
  }

  // ---------------------------------------------------------------- the service calls

  /** getCustomers: the shown rows, or [] when the read fails. */
  method GetCustomers(db: Db, filter: KindFilter, readOk: bool) returns (r: seq<Customer>)
    ensures readOk ==> r == Listed(db.customers, filter)
    ensures !readOk ==> r == []
  {
    if !readOk {
      return [];
    }
    r := Listed(db.customers, filter);
  }

  /** getCustomerById: the record with that id, deleted or not; null when the read fails or no
      row has the id. */
  method GetCustomerById(db: Db, id: string, readOk: bool) returns (r: Option<Customer>)
    ensures readOk ==> r == CustomerById(db.customers, id)
    ensures !readOk ==> r.None?
  {
    if !readOk {
      return None;
    }
    r := CustomerById(db.customers, id);
  }

  /** createCustomer: inserts the new row and returns it as stored; an insert error (including a
      clash with an existing id) returns null and writes nothing. */
  method CreateCustomer(db: Db, newId: string, draft: Customer, insertOk: bool) returns (r: Option<Customer>)
    modifies db
    ensures insertOk && RowById(old(db.customers), newId).None? ==>
              db.Snapshot() == old(db.Snapshot()).(customers := old(db.customers) + [NewRow(newId, draft)]) &&
              r == Some(NewRow(newId, draft).customer)
    ensures !(insertOk && RowById(old(db.customers), newId).None?) ==>
              db.Snapshot() == old(db.Snapshot()) && r.None?
  {
    if !insertOk || RowById(db.customers, newId).Some? {
      return None;
    }
    var row := NewRow(newId, draft);
    db.SetCustomers(db.customers + [row]);
    r := Some(Convert(row.customer));
  }

  /** updateCustomer: writes the present keys to the row with that id and returns it; null with
      no write when the update fails or no row has the id. */
  method UpdateCustomer(db: Db, id: string, p: CustomerPatch, writeOk: bool) returns (r: Option<Customer>)
    modifies db
    ensures writeOk && RowById(old(db.customers), id).Some? ==>
              db.Snapshot() == old(db.Snapshot()).(customers := PatchRows(old(db.customers), id, p)) &&
              r == Some(Convert(Patched(RowById(old(db.customers), id).value.customer, p)))
    ensures !(writeOk && RowById(old(db.customers), id).Some?) ==>
              db.Snapshot() == old(db.Snapshot()) && r.None?
  {
    var row := RowById(db.customers, id);
    if !writeOk || row.None? {
      return None;
    }
    db.SetCustomers(PatchRows(db.customers, id, p));
    r := Some(Convert(Patched(row.value.customer, p)));
  }

  /** deleteCustomer: stamps `deleted_at` on the rows with that id and reports only whether the
      write succeeded, so an unknown id still answers true. */
  method DeleteCustomer(db: Db, id: string, now: string, writeOk: bool) returns (r: bool)
    modifies db
    ensures r == writeOk
    ensures writeOk ==> db.Snapshot() == old(db.Snapshot()).(customers := SoftDeleted(old(db.customers), id, now))
    ensures !writeOk ==> db.Snapshot() == old(db.Snapshot())
  {
    if !writeOk {
      return false;
    }
    db.SetCustomers(SoftDeleted(db.customers, id, now));
    r := true;
  }

  /** updateCustomerBalance: reads the record, then writes balance + amount. False with no write
      when the read fails, the id is unknown or the write fails. */
  method UpdateCustomerBalance(db: Db, id: string, amount: int, readOk: bool, writeOk: bool) returns (r: bool)
    modifies db
    ensures r <==> readOk && writeOk && CustomerById(old(db.customers), id).Some?
    ensures r ==> db.Snapshot() == old(db.Snapshot()).(customers := BalanceUpdated(old(db.customers), id, amount))
    ensures !r ==> db.Snapshot() == old(db.Snapshot())
  {
    var c := GetCustomerById(db, id, readOk);
    if c.None? || !writeOk {
      return false;
    }
    db.SetCustomers(BalanceUpdated(db.customers, id, amount));
    r := true;
  }
}
