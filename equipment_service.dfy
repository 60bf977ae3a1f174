/** services/equipmentService.ts over the in-memory `equipment` table: the filtered listing,
    the field patch, the single and bulk status writes, and the hard delete. */
module EquipmentService {
  import opened Types
  import opened Seqs
  import opened Store

  /** `Partial<Equipment>` as updateEquipment reads it: None is a key left `undefined`. */
  datatype EquipmentPatch = EquipmentPatch(
    name: Option<string>,
    serialNumber: Option<string>,
    category: Option<string>,
    brand: Option<string>,
    model: Option<string>,
    condition: Option<Condition>,
    kind: Option<EquipmentType>,
    status: Option<EquipmentStatus>,
    dailyRate: Option<int>,
    weeklyRate: Option<int>,
    monthlyRate: Option<int>,
    image: Option<string>,
    supplierName: Option<string>,
    supplierCost: Option<int>,
    supplierAgreement: Option<string>)

  /** No optional column holds a falsy value (an empty text, a zero rate or cost). */
  predicate Normalised(e: Equipment)
  {
    e.weeklyRate != Some(0) && e.monthlyRate != Some(0) && e.supplierCost != Some(0) &&
    e.image != Some("") && e.supplierName != Some("") && e.supplierAgreement != Some("")
  }

  /** convertDBEquipmentToAppEquipment: the stored columns, with falsy optional columns (an
      empty text, a zero rate or cost) read as absent. Every other column, the name and the
      daily rate included, is carried over, and so is every optional value that is not falsy. */
  function Convert(e: Equipment): (r: Equipment)
    ensures r == e.(weeklyRate := r.weeklyRate, monthlyRate := r.monthlyRate, supplierCost := r.supplierCost,
                    image := r.image, supplierName := r.supplierName, supplierAgreement := r.supplierAgreement)
    ensures Normalised(r)
    ensures Normalised(e) ==> r == e
    ensures r.weeklyRate in {e.weeklyRate, None} && r.monthlyRate in {e.monthlyRate, None}
    ensures r.supplierCost in {e.supplierCost, None} && r.image in {e.image, None}
    ensures r.supplierName in {e.supplierName, None} && r.supplierAgreement in {e.supplierAgreement, None}
    ensures e.weeklyRate != Some(0) ==> r.weeklyRate == e.weeklyRate
    ensures e.monthlyRate != Some(0) ==> r.monthlyRate == e.monthlyRate
    ensures e.supplierCost != Some(0) ==> r.supplierCost == e.supplierCost
    ensures e.image != Some("") ==> r.image == e.image
    ensures e.supplierName != Some("") ==> r.supplierName == e.supplierName
    ensures e.supplierAgreement != Some("") ==> r.supplierAgreement == e.supplierAgreement
  {
    e.(weeklyRate := NumberOrAbsent(e.weeklyRate), monthlyRate := NumberOrAbsent(e.monthlyRate),
       image := TextOrAbsent(e.image), supplierName := TextOrAbsent(e.supplierName),
       supplierCost := NumberOrAbsent(e.supplierCost),
       supplierAgreement := TextOrAbsent(e.supplierAgreement))
  }

  // ---------------------------------------------------------------- the listing

  /** The category filter is applied only when it is given, non-empty and not 'all'. */
  predicate FiltersCategory(category: Option<string>)
  {
    category.Some? && category.value != "" && category.value != "all"
  }

  /** The query getEquipment builds: `category = c` when FiltersCategory, `status = s` when a
      status is given. */
  predicate Selected(e: Equipment, category: Option<string>, status: Option<EquipmentStatus>)
  {
    (!FiltersCategory(category) || e.category == category.value) &&
    (status.None? || e.status == status.value)
  }

  /** getEquipment on a successful read: the selected rows, converted, in table order. */
  function Listing(rows: seq<Equipment>, category: Option<string>, status: Option<EquipmentStatus>): (r: seq<Equipment>)
    ensures |r| <= |rows|
    ensures forall e :: e in rows && Selected(e, category, status) ==> Convert(e) in r
    ensures forall x :: x in r ==> exists e :: e in rows && Selected(e, category, status) && x == Convert(e)
    ensures forall e :: e in r ==> Selected(e, category, status)
  {
    if rows == [] then []
    else
      assert rows == [rows[0]] + rows[1..];
      (if Selected(rows[0], category, status) then [Convert(rows[0])] else []) +
      Listing(rows[1..], category, status)
  }

  /** Without a category (undefined, '' or 'all') the listing is the same, and without either
      filter it is the whole table. */
  lemma {:induction false} UnfilteredListing(rows: seq<Equipment>, status: Option<EquipmentStatus>)
    ensures Listing(rows, Some("all"), status) == Listing(rows, None, status)
    ensures Listing(rows, Some(""), status) == Listing(rows, None, status)
    ensures |Listing(rows, None, None)| == |rows|
  {
    if rows != [] {
      UnfilteredListing(rows[1..], status);
    }
  }

  /** The row `.eq('id', id)` selects. */
  function RowById(rows: seq<Equipment>, id: string): (r: Option<Equipment>)
    ensures r.Some? ==> r.value in rows && r.value.id == id
    ensures r.None? <==> forall e :: e in rows ==> e.id != id
  {
    Find(rows, (e: Equipment) => e.id == id)
  }

  // ---------------------------------------------------------------- writes

  /** updateEquipment's update object applied to one record (EquipmentPatchOnlyPresentKeys). */
  function Patched(e: Equipment, p: EquipmentPatch): (r: Equipment)
  {
    Equipment(
      e.id,
      if p.name.Some? then p.name.value else e.name,
      if p.serialNumber.Some? then p.serialNumber.value else e.serialNumber,
      if p.category.Some? then p.category.value else e.category,
      if p.brand.Some? then p.brand.value else e.brand,
      if p.model.Some? then p.model.value else e.model,
      if p.condition.Some? then p.condition.value else e.condition,
      if p.kind.Some? then p.kind.value else e.kind,
      if p.status.Some? then p.status.value else e.status,
      if p.dailyRate.Some? then p.dailyRate.value else e.dailyRate,
      if p.weeklyRate.Some? then p.weeklyRate else e.weeklyRate,
      if p.monthlyRate.Some? then p.monthlyRate else e.monthlyRate,
      if p.image.Some? then p.image else e.image,
      if p.supplierName.Some? then p.supplierName else e.supplierName,
      if p.supplierCost.Some? then p.supplierCost else e.supplierCost,
      if p.supplierAgreement.Some? then p.supplierAgreement else e.supplierAgreement)
  }

  /** `.update(patch).eq('id', id)`: every row with that id is patched, the rest are kept. */
  function PatchRows(rows: seq<Equipment>, id: string, p: EquipmentPatch): (r: seq<Equipment>)
    ensures |r| == |rows|
    ensures forall i :: 0 <= i < |rows| ==> r[i] == if rows[i].id == id then Patched(rows[i], p) else rows[i]
  {
    if rows == [] then []
    else [if rows[0].id == id then Patched(rows[0], p) else rows[0]] + PatchRows(rows[1..], id, p)
  }

  /** `.update({ status }).in('id', ids)`: the status column of the rows whose id is listed. */
  function StatusWritten(rows: seq<Equipment>, ids: seq<string>, st: EquipmentStatus): (r: seq<Equipment>)
    ensures |r| == |rows|
  {
    seq(|rows|, i requires 0 <= i < |rows| => if rows[i].id in ids then rows[i].(status := st) else rows[i])
  }

  /** `.delete().eq('id', id)`: the rows with that id are gone. */
  function Deleted(rows: seq<Equipment>, id: string): (r: seq<Equipment>)
    ensures |r| <= |rows|
  {
    Filter(rows, (e: Equipment) => e.id != id)
  }

  // ---------------------------------------------------------------- properties

  /** updateEquipment changes exactly the keys present in the patch. */
  lemma EquipmentPatchOnlyPresentKeys(e: Equipment, p: EquipmentPatch)
    ensures var r := Patched(e, p);
      r.id == e.id &&
      (p.name.Some? ==> r.name == p.name.value) && (p.name.None? ==> r.name == e.name) &&
      (p.serialNumber.Some? ==> r.serialNumber == p.serialNumber.value) &&
      (p.serialNumber.None? ==> r.serialNumber == e.serialNumber) &&
      (p.category.Some? ==> r.category == p.category.value) && (p.category.None? ==> r.category == e.category) &&
      (p.brand.Some? ==> r.brand == p.brand.value) && (p.brand.None? ==> r.brand == e.brand) &&
      (p.model.Some? ==> r.model == p.model.value) && (p.model.None? ==> r.model == e.model) &&
      (p.condition.Some? ==> r.condition == p.condition.value) && (p.condition.None? ==> r.condition == e.condition) &&
      (p.kind.Some? ==> r.kind == p.kind.value) && (p.kind.None? ==> r.kind == e.kind) &&
      (p.status.Some? ==> r.status == p.status.value) && (p.status.None? ==> r.status == e.status) &&
      (p.dailyRate.Some? ==> r.dailyRate == p.dailyRate.value) && (p.dailyRate.None? ==> r.dailyRate == e.dailyRate) &&
      (p.weeklyRate.Some? ==> r.weeklyRate == p.weeklyRate) && (p.weeklyRate.None? ==> r.weeklyRate == e.weeklyRate) &&
      (p.monthlyRate.Some? ==> r.monthlyRate == p.monthlyRate) &&
      (p.monthlyRate.None? ==> r.monthlyRate == e.monthlyRate) &&
      (p.image.Some? ==> r.image == p.image) && (p.image.None? ==> r.image == e.image) &&
      (p.supplierName.Some? ==> r.supplierName == p.supplierName) &&
      (p.supplierName.None? ==> r.supplierName == e.supplierName) &&
      (p.supplierCost.Some? ==> r.supplierCost == p.supplierCost) &&
      (p.supplierCost.None? ==> r.supplierCost == e.supplierCost) &&
      (p.supplierAgreement.Some? ==> r.supplierAgreement == p.supplierAgreement) &&
      (p.supplierAgreement.None? ==> r.supplierAgreement == e.supplierAgreement)
  {
  }

  /** A status write touches exactly the listed ids, and on them only the status column:
      listed rows end with the new status, every other row is kept as it was. */
  lemma StatusWrittenExactly(rows: seq<Equipment>, ids: seq<string>, st: EquipmentStatus)
    ensures forall i :: 0 <= i < |rows| ==>
              StatusWritten(rows, ids, st)[i] == rows[i].(status := StatusWritten(rows, ids, st)[i].status)
    ensures forall i :: 0 <= i < |rows| && rows[i].id in ids ==> StatusWritten(rows, ids, st)[i].status == st
    ensures forall i :: 0 <= i < |rows| && rows[i].id !in ids ==> StatusWritten(rows, ids, st)[i] == rows[i]
  {
  }

  /** Writing a status over an empty id list changes nothing (bookingService calls the bulk
      write with the ids of a booking that may have no lines). */
  lemma NoIdsNoChange(rows: seq<Equipment>, st: EquipmentStatus)
    ensures StatusWritten(rows, [], st) == rows
  {
  }

  /** After a hard delete no row has the id, and every other row is still there. */
  lemma DeletedIsGone(rows: seq<Equipment>, id: string)
    ensures RowById(Deleted(rows, id), id).None?
    ensures forall e :: e in rows && e.id != id ==> e in Deleted(rows, id)
  {
  }

  /** getAvailableEquipment lists exactly the Available rows, converted. */
  lemma AvailableListing(rows: seq<Equipment>)
    ensures forall e :: e in Listing(rows, None, Some(Available)) ==> e.status == Available
    ensures forall x :: x in Listing(rows, None, Some(Available)) ==>
              exists e :: e in rows && e.status == Available && x == Convert(e)
    ensures forall e :: e in rows && e.status == Available ==> Convert(e) in Listing(rows, None, Some(Available))
  {
  }

  // ---------------------------------------------------------------- the service calls

  /** getEquipment: the selected rows, or [] when the read fails. */
  method GetEquipment(db: Db, category: Option<string>, status: Option<EquipmentStatus>, readOk: bool)
    returns (r: seq<Equipment>)
    ensures readOk ==> r == Listing(db.equipment, category, status)
    ensures !readOk ==> r == []
  {
    if !readOk {
      return [];
    }
    r := Listing(db.equipment, category, status);
  }

  /** getAvailableEquipment: getEquipment with only the Available status filter. */
  method GetAvailableEquipment(db: Db, readOk: bool) returns (r: seq<Equipment>)
    ensures readOk ==> r == Listing(db.equipment, None, Some(Available))
    ensures !readOk ==> r == []
    ensures forall e :: e in r ==> e.status == Available
    ensures readOk ==> forall e :: e in db.equipment && e.status == Available ==> Convert(e) in r
  {
    r := GetEquipment(db, None, Some(Available), readOk);
    AvailableListing(db.equipment);
  }

  /** updateEquipment: writes the present keys to the row with that id and returns it; null
      with no write when the update fails or no row has the id. */
  method UpdateEquipment(db: Db, id: string, p: EquipmentPatch, writeOk: bool) returns (r: Option<Equipment>)
    modifies db
    ensures writeOk && RowById(old(db.equipment), id).Some? ==>
              db.Snapshot() == old(db.Snapshot()).(equipment := PatchRows(old(db.equipment), id, p)) &&
              r == Some(Convert(Patched(RowById(old(db.equipment), id).value, p)))
    ensures !(writeOk && RowById(old(db.equipment), id).Some?) ==>
              db.Snapshot() == old(db.Snapshot()) && r.None?
  {
    var row := RowById(db.equipment, id);
    if !writeOk || row.None? {
      return None;
    }
    db.SetEquipment(PatchRows(db.equipment, id, p));
    r := Some(Convert(Patched(row.value, p)));
  }

  /** updateEquipmentStatus: the status of the rows with that id; the answer is whether the
      write succeeded. */
  method UpdateEquipmentStatus(db: Db, id: string, st: EquipmentStatus, writeOk: bool) returns (r: bool)
    modifies db
    ensures r == writeOk
    ensures writeOk ==> db.Snapshot() == old(db.Snapshot()).(equipment := StatusWritten(old(db.equipment), [id], st))
    ensures !writeOk ==> db.Snapshot() == old(db.Snapshot())
  {
    if !writeOk {
      return false;
    }
    db.SetEquipment(StatusWritten(db.equipment, [id], st));
    r := true;
  }

  /** bulkUpdateEquipmentStatus: the status of every row whose id is listed. */
  method BulkUpdateEquipmentStatus(db: Db, ids: seq<string>, st: EquipmentStatus, writeOk: bool) returns (r: bool)
    modifies db
    ensures r == writeOk
    ensures writeOk ==> db.Snapshot() == old(db.Snapshot()).(equipment := StatusWritten(old(db.equipment), ids, st))
    ensures !writeOk ==> db.Snapshot() == old(db.Snapshot())
  {
    if !writeOk {
      return false;
    }
    db.SetEquipment(StatusWritten(db.equipment, ids, st));
    r := true;
  }

  /** deleteEquipment: removes the rows with that id; an unknown id still answers true. */
  method DeleteEquipment(db: Db, id: string, writeOk: bool) returns (r: bool)
    modifies db
    ensures r == writeOk
    ensures writeOk ==> db.Snapshot() == old(db.Snapshot()).(equipment := Deleted(old(db.equipment), id))
    ensures !writeOk ==> db.Snapshot() == old(db.Snapshot())
  {
    if !writeOk {
      return false;
    }
    db.SetEquipment(Deleted(db.equipment, id));
    r := true;
  }
}
