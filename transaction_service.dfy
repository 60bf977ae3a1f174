/** services/transactionService.ts over the in-memory `transactions` and `customers` tables:
    recording an entry then moving the customer's balance by its signed amount, the signed
    payment / invoice / refund wrappers, deleting an entry with the balance revert, and the
    date-ordered customer statement. Here the balance moves by the amount AS SIGNED, so an
    invoice (stored negative) lowers the balance: the opposite of what App.tsx does. */
module TransactionService {
  import opened Types
  import opened Seqs
  import opened Store
  import CustomerService

  /** convertDBTransactionToAppTransaction: a falsy booking id reads as absent. */
  function Convert(t: Transaction): (r: Transaction)
    ensures r.(bookingId := t.bookingId) == t
    ensures r.bookingId != Some("")
    ensures t.bookingId != Some("") ==> r.bookingId == t.bookingId
    ensures t.bookingId == Some("") ==> r.bookingId == None
  {
    t.(bookingId := TextOrAbsent(t.bookingId))
  }

  /** The row createTransaction inserts: the generated id, a falsy booking id written as null. */
  function NewEntry(newId: string, draft: Transaction): (e: Transaction)
    ensures e.id == newId && e.customerId == draft.customerId && e.amount == draft.amount
    ensures e.kind == draft.kind && e.date == draft.date
    ensures Convert(e) == e
  {
    draft.(id := newId, bookingId := TextOrAbsent(draft.bookingId))
  }

  /** The row `.eq('id', id).single()` selects. */
  function EntryById(entries: seq<Transaction>, id: string): (r: Option<Transaction>)
    ensures r.Some? ==> r.value in entries && r.value.id == id
    ensures r.None? <==> forall e :: e in entries ==> e.id != id
  {
    Find(entries, (e: Transaction) => e.id == id)
  }

  /** `.delete().eq('id', id)` */
  function WithoutEntry(entries: seq<Transaction>, id: string): (r: seq<Transaction>)
    ensures forall e :: e in r <==> e in entries && e.id != id
  {
    Filter(entries, (e: Transaction) => e.id != id)
  }

  /** Whether the balance step of a call writes: its read and write succeed and the customer
      exists (updateCustomerBalance answers false with no write otherwise). */
  predicate BalanceWrites(t: Tables, customerId: string, readOk: bool, writeOk: bool)
  {
    readOk && writeOk && CustomerService.CustomerById(t.customers, customerId).Some?
  }

  /** The tables after createTransaction: nothing on an insert error (or an id clash);
      otherwise the new entry, and the customer's balance moved by the signed amount when the
      balance step writes. */
  function Recorded(t: Tables, newId: string, draft: Transaction, insertOk: bool, readOk: bool, writeOk: bool): Tables
  {
    if !insertOk || EntryById(t.transactions, newId).Some? then t
    else if BalanceWrites(t, draft.customerId, readOk, writeOk) then
      t.(transactions := t.transactions + [NewEntry(newId, draft)],
         customers := CustomerService.BalanceUpdated(t.customers, draft.customerId, draft.amount))
    else t.(transactions := t.transactions + [NewEntry(newId, draft)])
  }

  /** The tables after deleteTransaction: nothing when the read finds no entry or the delete
      fails; otherwise the entry is gone and, when the balance step writes, the customer's
      balance moves by the opposite of its amount. */
  function Erased(t: Tables, id: string, readOk: bool, deleteOk: bool, balanceReadOk: bool, balanceWriteOk: bool): Tables
  {
    if !readOk || !deleteOk || EntryById(t.transactions, id).None? then t
    else
      var e := EntryById(t.transactions, id).value;
      if BalanceWrites(t, e.customerId, balanceReadOk, balanceWriteOk) then
        t.(transactions := WithoutEntry(t.transactions, id),
           customers := CustomerService.BalanceUpdated(t.customers, e.customerId, Reversal(e)))
      else t.(transactions := WithoutEntry(t.transactions, id))
  }

  /** The amount deleteTransaction adds to the balance: the opposite of the entry's. */
  function Reversal(e: Transaction): (a: int)
    ensures a + e.amount == 0
  {
    -e.amount
  }

  // ---------------------------------------------------------------- the signed wrappers

  /** createPayment's entry: the amount as given, type Payment, with the payment method. */
  function PaymentDraft(customerId: string, amount: int, payMethod: PaymentMethod, description: string,
                        bookingId: Option<string>, today: int): (d: Transaction)
    ensures d.amount == amount && d.kind == Payment && d.payMethod == Some(payMethod)
    ensures d.customerId == customerId && d.date == today
  {
    Transaction("", customerId, bookingId, today, amount, Payment, description, Some(payMethod))
  }

  /** createInvoice's entry: amount `-Math.abs(amount)`, never positive, type Invoice. */
  function InvoiceDraft(customerId: string, bookingId: string, amount: int, description: string, today: int): (d: Transaction)
    ensures d.amount <= 0 && (d.amount == amount || d.amount == -amount)
    ensures d.kind == Invoice && d.bookingId == Some(bookingId) && d.payMethod.None?
    ensures d.customerId == customerId && d.date == today
  {
    Transaction("", customerId, Some(bookingId), today, -Magnitude(amount), Invoice, description, None)
  }

  /** createRefund's entry: amount `Math.abs(amount)`, never negative, type Refund. */
  function RefundDraft(customerId: string, amount: int, description: string, bookingId: Option<string>, today: int): (d: Transaction)
    ensures d.amount >= 0 && (d.amount == amount || d.amount == -amount)
    ensures d.kind == Refund && d.payMethod.None?
    ensures d.customerId == customerId && d.date == today
  {
    Transaction("", customerId, bookingId, today, Magnitude(amount), Refund, description, None)
  }

  // ---------------------------------------------------------------- the ledger sum

  /** The sum of a customer's entry amounts. */
  function Booked(entries: seq<Transaction>, customerId: string): int
  {
    if entries == [] then 0
    else (if entries[0].customerId == customerId then entries[0].amount else 0) + Booked(entries[1..], customerId)
  }

  lemma {:induction false} BookedAppend(entries: seq<Transaction>, e: Transaction, customerId: string)
    ensures Booked(entries + [e], customerId) ==
            Booked(entries, customerId) + (if e.customerId == customerId then e.amount else 0)
  {
    if entries == [] {
      assert entries + [e] == [e];
    } else {
      assert (entries + [e])[1..] == entries[1..] + [e];
      BookedAppend(entries[1..], e, customerId);
    }
  }

  /** The primary key: no two entries share an id. */
  predicate UniqueEntryIds(entries: seq<Transaction>)
  {
    forall i, j :: 0 <= i < j < |entries| ==> entries[i].id != entries[j].id
  }

  /** Deleting an id no entry has changes nothing. */
  lemma {:induction false} WithoutAbsent(entries: seq<Transaction>, id: string)
    requires forall x :: x in entries ==> x.id != id
    ensures WithoutEntry(entries, id) == entries
  {
    if entries != [] {
      assert entries[0] in entries;
      WithoutAbsent(entries[1..], id);
    }
  }

  /** Deleting the one entry with an id removes exactly its amount from its customer's sum. */
  lemma {:induction false} BookedWithout(entries: seq<Transaction>, e: Transaction, customerId: string)
    requires UniqueEntryIds(entries) && e in entries
    ensures Booked(WithoutEntry(entries, e.id), customerId) ==
            Booked(entries, customerId) - (if e.customerId == customerId then e.amount else 0)
  {
    var rest := entries[1..];
    assert entries == [entries[0]] + rest;
    assert WithoutEntry(entries, e.id) ==
           (if entries[0].id != e.id then [entries[0]] else []) + WithoutEntry(rest, e.id);
    if entries[0] == e {
      forall x | x in rest ensures x.id != e.id {
        var k :| 0 <= k < |rest| && rest[k] == x;
        assert entries[k + 1] == x;
      }
      WithoutAbsent(rest, e.id);
      assert WithoutEntry(entries, e.id) == rest;
      assert Booked(entries, customerId) ==
             (if e.customerId == customerId then e.amount else 0) + Booked(rest, customerId);
    } else {
      assert e in rest;
      forall i, j | 0 <= i < j < |rest| ensures rest[i].id != rest[j].id {
        assert entries[i + 1].id != entries[j + 1].id;
      }
      BookedWithout(rest, e, customerId);
    }
  }

  /** The stored balance of a customer (0 when unknown). */
  function BalanceOf(t: Tables, customerId: string): int
  {
    match CustomerService.CustomerById(t.customers, customerId)
    case None => 0
    case Some(c) => c.balance
  }

  /** What the balance holds beyond the customer's entries; the service keeps it when every
      step succeeds. */
  function Drift(t: Tables, customerId: string): int
  {
    BalanceOf(t, customerId) - Booked(t.transactions, customerId)
  }

  // ---------------------------------------------------------------- properties

  /** createTransaction that stores the entry and writes the balance moves the customer's
      balance by the signed amount, and every known customer's balance and entry sum move
      together, so Drift is kept. */
  lemma RecordedKeepsDrift(t: Tables, newId: string, draft: Transaction, readOk: bool, writeOk: bool, customerId: string)
    requires CustomerService.UniqueIds(t.customers) && EntryById(t.transactions, newId).None?
    requires BalanceWrites(t, draft.customerId, readOk, writeOk)
    ensures var after := Recorded(t, newId, draft, true, readOk, writeOk);
      BalanceOf(after, draft.customerId) == BalanceOf(t, draft.customerId) + draft.amount &&
      Drift(after, customerId) == Drift(t, customerId)
  {
    var after := Recorded(t, newId, draft, true, readOk, writeOk);
    BookedAppend(t.transactions, NewEntry(newId, draft), customerId);
    CustomerService.BalanceAdded(t.customers, draft.customerId, draft.amount);
    if customerId != draft.customerId {
      CustomerService.BalanceWrittenElsewhere(t.customers, draft.customerId, draft.amount, customerId);
    }
  }

  /** When the entry is stored but the balance step does not write (a failed read or write),
      nothing reverts the insert: the customer's Drift falls by the entry's amount. */
  lemma RecordedWithoutBalanceDrifts(t: Tables, newId: string, draft: Transaction, readOk: bool, writeOk: bool)
    requires EntryById(t.transactions, newId).None?
    requires !BalanceWrites(t, draft.customerId, readOk, writeOk)
    ensures Drift(Recorded(t, newId, draft, true, readOk, writeOk), draft.customerId) ==
            Drift(t, draft.customerId) - draft.amount
  {
    BookedAppend(t.transactions, NewEntry(newId, draft), draft.customerId);
  }

  /** deleteTransaction that finds the entry, deletes it and writes the balance moves the
      customer's balance by the opposite of the entry's amount, and Drift is kept for every
      customer. */
  lemma ErasedKeepsDrift(t: Tables, id: string, readOk: bool, writeOk: bool, customerId: string)
    requires CustomerService.UniqueIds(t.customers) && UniqueEntryIds(t.transactions)
    requires EntryById(t.transactions, id).Some?
    requires BalanceWrites(t, EntryById(t.transactions, id).value.customerId, readOk, writeOk)
    ensures Drift(Erased(t, id, true, true, readOk, writeOk), customerId) == Drift(t, customerId)
  {
    var e := EntryById(t.transactions, id).value;
    if customerId != e.customerId {
      ErasedBalanceElsewhere(t, id, readOk, writeOk, customerId);
    } else {
      ErasedBalance(t, id, readOk, writeOk);
    }
    ErasedLedger(t, id, readOk, writeOk, customerId);
  }

  /** The balance step of a successful delete: the entry's customer moves by the reversal. */
  lemma ErasedBalance(t: Tables, id: string, readOk: bool, writeOk: bool)
    requires CustomerService.UniqueIds(t.customers)
    requires EntryById(t.transactions, id).Some?
    requires BalanceWrites(t, EntryById(t.transactions, id).value.customerId, readOk, writeOk)
    ensures var e := EntryById(t.transactions, id).value;
      BalanceOf(Erased(t, id, true, true, readOk, writeOk), e.customerId) == BalanceOf(t, e.customerId) - e.amount
  {
    var e := EntryById(t.transactions, id).value;
    CustomerService.BalanceAdded(t.customers, e.customerId, Reversal(e));
  }

  /** The balance step of a successful delete leaves every other customer's balance. */
  lemma ErasedBalanceElsewhere(t: Tables, id: string, readOk: bool, writeOk: bool, customerId: string)
    requires EntryById(t.transactions, id).Some?
    requires customerId != EntryById(t.transactions, id).value.customerId
    ensures BalanceOf(Erased(t, id, true, true, readOk, writeOk), customerId) == BalanceOf(t, customerId)
  {
    var e := EntryById(t.transactions, id).value;
    CustomerService.BalanceWrittenElsewhere(t.customers, e.customerId, Reversal(e), customerId);
  }

  /** The ledger step of a successful delete: the entry's amount leaves its customer's sum. */
  lemma ErasedLedger(t: Tables, id: string, readOk: bool, writeOk: bool, customerId: string)
    requires UniqueEntryIds(t.transactions)
    requires EntryById(t.transactions, id).Some?
    ensures var e := EntryById(t.transactions, id).value;
      Booked(Erased(t, id, true, true, readOk, writeOk).transactions, customerId) ==
      Booked(t.transactions, customerId) - (if customerId == e.customerId then e.amount else 0)
  {
    var e := EntryById(t.transactions, id).value;
    BookedWithout(t.transactions, e, customerId);
  }

  /** An insert error changes nothing: no entry, no balance change. */
  lemma FailedInsertChangesNothing(t: Tables, newId: string, draft: Transaction, readOk: bool, writeOk: bool)
    ensures Recorded(t, newId, draft, false, readOk, writeOk) == t
  {
  }

  /** Deleting an entry right after creating it restores every table: either both calls
      write the balance (and the two writes cancel) or neither does. */
  lemma CreateThenDeleteRestores(t: Tables, newId: string, draft: Transaction, readOk: bool, writeOk: bool)
    requires CustomerService.UniqueIds(t.customers) && EntryById(t.transactions, newId).None?
    ensures Erased(Recorded(t, newId, draft, true, readOk, writeOk), newId, true, true, readOk, writeOk) ==
            t
  {
    var e := NewEntry(newId, draft);
    var mid := Recorded(t, newId, draft, true, readOk, writeOk);
    EntryIsFound(t.transactions, e);
    assert EntryById(mid.transactions, newId) == Some(e);
    WithoutFreshEntry(t.transactions, e);
    if BalanceWrites(t, draft.customerId, readOk, writeOk) {
      CustomerService.BalanceAdded(t.customers, draft.customerId, draft.amount);
      assert BalanceWrites(mid, draft.customerId, readOk, writeOk);
      CustomerService.BalanceRoundTrip(t.customers, draft.customerId, draft.amount, Reversal(e));
    }
  }

  /** The entry just appended is the one a lookup of its id finds. */
  lemma {:induction false} EntryIsFound(entries: seq<Transaction>, e: Transaction)
    requires EntryById(entries, e.id).None?
    ensures EntryById(entries + [e], e.id) == Some(e)
  {
    if entries == [] {
      assert entries + [e] == [e];
    } else {
      assert (entries + [e])[1..] == entries[1..] + [e];
      EntryIsFound(entries[1..], e);
    }
  }

  /** Deleting the id of an entry just appended leaves the earlier entries. */
  lemma WithoutFreshEntry(entries: seq<Transaction>, e: Transaction)
    requires EntryById(entries, e.id).None?
    ensures WithoutEntry(entries + [e], e.id) == entries
  {
    var p := (x: Transaction) => x.id != e.id;
    FilterAppend(entries, [e], p);
    FilterAll(entries, p);
    assert Filter([e], p) == [];
  }

  // ---------------------------------------------------------------- the statement

  /** The statement query's row filter: the customer, and the bounds that are given. */
  predicate InStatement(e: Transaction, customerId: string, from: Option<int>, to: Option<int>)
  {
    e.customerId == customerId && (from.None? || from.value <= e.date) && (to.None? || e.date <= to.value)
  }

  predicate SortedByDate(entries: seq<Transaction>)
  {
    forall i, j :: 0 <= i < j < |entries| ==> entries[i].date <= entries[j].date
  }

  /** A date-sorted list starts with its earliest entry. */
  lemma HeadIsEarliest(sorted: seq<Transaction>)
    requires SortedByDate(sorted) && sorted != []
    ensures forall x :: x in sorted ==> sorted[0].date <= x.date
  {
    forall x | x in sorted
      ensures sorted[0].date <= x.date
    {
      var k :| 0 <= k < |sorted| && sorted[k] == x;
      if k > 0 {
        assert sorted[0].date <= sorted[k].date;
      }
    }
  }

  /** An entry no later than any entry of a date-sorted list can go in front of it. */
  lemma ConsSorted(h: Transaction, sorted: seq<Transaction>)
    requires SortedByDate(sorted)
    requires forall x :: x in sorted ==> h.date <= x.date
    ensures SortedByDate([h] + sorted)
  {
    var r := [h] + sorted;
    forall i, j | 0 <= i < j < |r|
      ensures r[i].date <= r[j].date
    {
      assert r[j] == sorted[j - 1];
      if i == 0 {
        assert sorted[j - 1] in sorted;
      } else {
        assert r[i] == sorted[i - 1];
      }
    }
  }

  /** `e` placed before the first later-dated entry of a date-sorted list. */
  function InsertByDate(e: Transaction, sorted: seq<Transaction>): (r: seq<Transaction>)
    requires SortedByDate(sorted)
    ensures |r| == |sorted| + 1
    ensures forall x :: x in r <==> x in sorted || x == e
    ensures SortedByDate(r)
    ensures multiset(r) == multiset(sorted) + multiset{e}
    decreases |sorted|
  {
    if sorted == [] then
      [e]
    else if e.date <= sorted[0].date then
      HeadIsEarliest(sorted);
      ConsSorted(e, sorted);
      [e] + sorted
    else
      assert sorted == [sorted[0]] + sorted[1..];
      var tail := InsertByDate(e, sorted[1..]);
      HeadIsEarliest(sorted);
      ConsSorted(sorted[0], tail);
      [sorted[0]] + tail
  }

  /** `.order('date', { ascending: true })`: the same entries in ascending date order. */
  function ByDate(entries: seq<Transaction>): (r: seq<Transaction>)
    ensures SortedByDate(r)
    ensures forall x :: x in r <==> x in entries
    ensures multiset(r) == multiset(entries)
  {
    if entries == [] then []
    else
      assert entries == [entries[0]] + entries[1..];
      InsertByDate(entries[0], ByDate(entries[1..]))
  }

  /** `(data || []).map(convertDBTransactionToAppTransaction)` */
  function Converted(entries: seq<Transaction>): (r: seq<Transaction>)
    ensures |r| == |entries|
    ensures forall i :: 0 <= i < |entries| ==> r[i] == Convert(entries[i])
  {
    seq(|entries|, i requires 0 <= i < |entries| => Convert(entries[i]))
  }

  /** The converted list holds exactly the conversions of the entries. */
  lemma ConvertedMembers(entries: seq<Transaction>)
    ensures forall x :: x in Converted(entries) <==> exists e :: e in entries && x == Convert(e)
  {
    var r := Converted(entries);
    forall x | x in r
      ensures exists e :: e in entries && x == Convert(e)
    {
      var k :| 0 <= k < |r| && r[k] == x;
      assert entries[k] in entries;
    }
    forall e | e in entries
      ensures Convert(e) in r
    {
      var k :| 0 <= k < |entries| && entries[k] == e;
      assert r[k] == Convert(e);
    }
  }

  lemma ConvertedAppend(a: seq<Transaction>, b: seq<Transaction>)
    ensures Converted(a + b) == Converted(a) + Converted(b)
  {
  }

  /** Converting a list is converting the part before an index, the entry there and the rest. */
  lemma ConvertedSplit(b: seq<Transaction>, k: nat)
    requires k < |b|
    ensures Converted(b) == Converted(b[..k]) + (Converted([b[k]]) + Converted(b[k + 1..]))
  {
    assert b == b[..k] + ([b[k]] + b[k + 1..]);
    ConvertedAppend(b[..k], [b[k]] + b[k + 1..]);
    ConvertedAppend([b[k]], b[k + 1..]);
  }

  /** Taking the same entry out of two orderings of the same entries leaves two orderings. */
  lemma TakeOut(a: seq<Transaction>, b: seq<Transaction>, k: nat)
    requires multiset(a) == multiset(b) && a != [] && k < |b| && b[k] == a[0]
    ensures multiset(a[1..]) == multiset(b[..k] + b[k + 1..])
  {
    var x := a[0];
    assert a == [x] + a[1..];
    assert b == b[..k] + [x] + b[k + 1..];
    calc {
      multiset(a[1..]);
      multiset(a) - multiset{x};
      multiset(b[..k]) + multiset{x} + multiset(b[k + 1..]) - multiset{x};
      multiset(b[..k] + b[k + 1..]);
    }
  }

  /** Converting two orderings of the same entries gives two orderings of the same results. */
  lemma {:induction false} ConvertedPermutes(a: seq<Transaction>, b: seq<Transaction>)
    requires multiset(a) == multiset(b)
    ensures multiset(Converted(a)) == multiset(Converted(b))
    decreases |a|
  {
    if a == [] {
      assert |b| == |multiset(b)| == 0;
    } else {
      var x := a[0];
      assert x in multiset(b);
      var k :| 0 <= k < |b| && b[k] == x;
      var front, back := b[..k], b[k + 1..];
      TakeOut(a, b, k);
      ConvertedPermutes(a[1..], front + back);
      ConvertedSplit(a, 0);
      ConvertedSplit(b, k);
      ConvertedAppend(front, back);
      MoveToMiddle(Converted([x]), Converted(a[1..]), Converted(front), Converted(back));
    }
  }

  /** An entry taken from the front and put back between two parts of the same entries. */
  lemma MoveToMiddle(x: seq<Transaction>, rest: seq<Transaction>, front: seq<Transaction>, back: seq<Transaction>)
    requires multiset(rest) == multiset(front + back)
    ensures multiset(x + rest) == multiset(front + (x + back))
  {
    calc {
      multiset(x + rest);
      multiset(x) + multiset(front + back);
      multiset(x) + (multiset(front) + multiset(back));
      multiset(front) + (multiset(x) + multiset(back));
      multiset(front) + multiset(x + back);
      multiset(front + (x + back));
    }
  }

  /** getCustomerStatement on a successful read: the customer's entries within the bounds,
      each converted, in ascending date order. */
  function Statement(entries: seq<Transaction>, customerId: string, from: Option<int>, to: Option<int>): (r: seq<Transaction>)
    ensures SortedByDate(r)
    ensures forall x :: x in r <==> exists e :: e in entries && InStatement(e, customerId, from, to) && x == Convert(e)
    ensures forall x :: x in r ==> InStatement(x, customerId, from, to)
    ensures multiset(r) == multiset(Converted(Filter(entries, (e: Transaction) => InStatement(e, customerId, from, to))))
  {
    var picked := Filter(entries, (e: Transaction) => InStatement(e, customerId, from, to));
    var sorted := ByDate(picked);
    ConvertedPermutes(sorted, picked);
    ConvertedMembers(sorted);
    Converted(sorted)
  }

  // ---------------------------------------------------------------- the service calls

  /** createTransaction: inserts the entry, then asks updateCustomerBalance to add its signed
      amount (the answer of that step is ignored); null with no write on an insert error. */
  method CreateTransaction(db: Db, newId: string, draft: Transaction, insertOk: bool, balanceReadOk: bool,
                           balanceWriteOk: bool) returns (r: Option<Transaction>)
    modifies db
    ensures r.Some? <==> insertOk && EntryById(old(db.transactions), newId).None?
    ensures r.Some? ==> r.value == NewEntry(newId, draft)
    ensures db.Snapshot() == Recorded(old(db.Snapshot()), newId, draft, insertOk, balanceReadOk, balanceWriteOk)
  {
    if !insertOk || EntryById(db.transactions, newId).Some? {
      return None;
    }
    var e := NewEntry(newId, draft);
    db.SetTransactions(db.transactions + [e]);
    var _ := CustomerService.UpdateCustomerBalance(db, draft.customerId, draft.amount, balanceReadOk, balanceWriteOk);
    r := Some(Convert(e));
  }

  /** createPayment: a Payment entry of the given amount, dated today. */
  method CreatePayment(db: Db, customerId: string, amount: int, payMethod: PaymentMethod, description: string,
                       bookingId: Option<string>, today: int, newId: string,
                       insertOk: bool, balanceReadOk: bool, balanceWriteOk: bool) returns (r: Option<Transaction>)
    modifies db
    ensures r.Some? ==> r.value.amount == amount && r.value.kind == Payment
    ensures db.Snapshot() == Recorded(old(db.Snapshot()), newId, PaymentDraft(customerId, amount, payMethod, description, bookingId, today),
                                      insertOk, balanceReadOk, balanceWriteOk)
  {
    r := CreateTransaction(db, newId, PaymentDraft(customerId, amount, payMethod, description, bookingId, today),
                           insertOk, balanceReadOk, balanceWriteOk);
  }

  /** createInvoice: an Invoice entry of -|amount| for the booking, dated today. */
  method CreateInvoice(db: Db, customerId: string, bookingId: string, amount: int, description: string,
                       today: int, newId: string,
                       insertOk: bool, balanceReadOk: bool, balanceWriteOk: bool) returns (r: Option<Transaction>)
    modifies db
    ensures r.Some? ==> r.value.amount <= 0 && r.value.kind == Invoice
    ensures db.Snapshot() == Recorded(old(db.Snapshot()), newId, InvoiceDraft(customerId, bookingId, amount, description, today),
                                      insertOk, balanceReadOk, balanceWriteOk)
  {
    r := CreateTransaction(db, newId, InvoiceDraft(customerId, bookingId, amount, description, today),
                           insertOk, balanceReadOk, balanceWriteOk);
  }

  /** createRefund: a Refund entry of |amount|, dated today. */
  method CreateRefund(db: Db, customerId: string, amount: int, description: string, bookingId: Option<string>,
                      today: int, newId: string,
                      insertOk: bool, balanceReadOk: bool, balanceWriteOk: bool) returns (r: Option<Transaction>)
    modifies db
    ensures r.Some? ==> r.value.amount >= 0 && r.value.kind == Refund
    ensures db.Snapshot() == Recorded(old(db.Snapshot()), newId, RefundDraft(customerId, amount, description, bookingId, today),
                                      insertOk, balanceReadOk, balanceWriteOk)
  {
    r := CreateTransaction(db, newId, RefundDraft(customerId, amount, description, bookingId, today),
                           insertOk, balanceReadOk, balanceWriteOk);
  }

  /** deleteTransaction: reads the entry, deletes it, then asks updateCustomerBalance to add
      the opposite of its amount. False for an unknown id or a failed read or delete. */
  method DeleteTransaction(db: Db, id: string, readOk: bool, deleteOk: bool, balanceReadOk: bool,
                           balanceWriteOk: bool) returns (r: bool)
    modifies db
    ensures r <==> readOk && deleteOk && EntryById(old(db.transactions), id).Some?
    ensures db.Snapshot() == Erased(old(db.Snapshot()), id, readOk, deleteOk, balanceReadOk, balanceWriteOk)
  {
    if !readOk || EntryById(db.transactions, id).None? || !deleteOk {
      return false;
    }
    var e := EntryById(db.transactions, id).value;
    db.SetTransactions(WithoutEntry(db.transactions, id));
    var _ := CustomerService.UpdateCustomerBalance(db, e.customerId, Reversal(e), balanceReadOk, balanceWriteOk);
    r := true;
  }

  /** getCustomerStatement: the customer's entries within the given bounds in ascending date
      order, or [] when the read fails. */
  method GetCustomerStatement(db: Db, customerId: string, from: Option<int>, to: Option<int>, readOk: bool)
    returns (r: seq<Transaction>)
    ensures readOk ==> r == Statement(db.transactions, customerId, from, to)
    ensures !readOk ==> r == []
    ensures SortedByDate(r)
    ensures forall e :: e in r ==> InStatement(e, customerId, from, to)
    ensures readOk ==> forall e :: e in db.transactions && InStatement(e, customerId, from, to) ==> Convert(e) in r
  {
    if !readOk {
      return [];
    }
    r := Statement(db.transactions, customerId, from, to);
  }
}
