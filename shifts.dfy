/** The shift handlers behind `/shifts`: a shift is opened with a snapshot
    of every product's quantity and closed with each snapshot row's final
    quantity; at most one shift is open at a time. */
module Shifts {
  import opened Common
  import opened Products

  datatype ShiftStatus = Open | Closed

  /** A row of `shifts`. */
  datatype Shift = Shift(openedBy: int, status: ShiftStatus, closedBy: Option<int>, notes: Option<string>)

  /** A row of `shift_inventory`; the final quantity is null until the shift closes. */
  datatype Snapshot = Snapshot(productName: string, initialQuantity: int, unitsPerBox: int, finalQuantity: Option<int>)

  /** A shift with its snapshot rows, as `/current` and `/:id` return it. */
  datatype ShiftView = ShiftView(id: int, shift: Shift, inventory: map<int, Snapshot>)

  /** The rows the opening loop inserts: one per product, with its current
      quantity and a box size of 1 when none is set. */
  function SnapshotOf(products: map<int, Product>): (rows: map<int, Snapshot>)
    ensures rows.Keys == products.Keys
    ensures forall p :: p in products ==>
      rows[p] == Snapshot(products[p].name, products[p].quantity, OrOne(products[p].unitsPerBox), None)
  {
    map p | p in products :: Snapshot(products[p].name, products[p].quantity, OrOne(products[p].unitsPerBox), None)
  }

  /** The rows after the closing loop: a row whose product still exists gets
      its current quantity as final one; no row is added. */
  function Finalized(rows: map<int, Snapshot>, products: map<int, Product>): (r: map<int, Snapshot>)
    ensures r.Keys == rows.Keys
    ensures forall p :: p in rows && p in products ==> r[p] == rows[p].(finalQuantity := Some(products[p].quantity))
    ensures forall p :: p in rows && p !in products ==> r[p] == rows[p]
  {
    map p | p in rows :: if p in products then rows[p].(finalQuantity := Some(products[p].quantity)) else rows[p]
  }

  predicate IsOpen(shifts: map<int, Shift>, id: int) {
    id in shifts && shifts[id].status == Open
  }

  /** `notes || null`. */
  function NotesOrNull(notes: Option<string>): Option<string> {
    if notes.Some? && notes.value != "" then notes else None
  }

  /** The opening loop over every product, inserting its snapshot row. */
  method TakeSnapshot(products: map<int, Product>) returns (rows: map<int, Snapshot>)
    ensures rows == SnapshotOf(products)
  {
    rows := map[];
    var todo := products.Keys;
    while todo != {}
      invariant todo <= products.Keys
      invariant rows.Keys == products.Keys - todo
      invariant forall p :: p in rows ==>
        rows[p] == Snapshot(products[p].name, products[p].quantity, OrOne(products[p].unitsPerBox), None)
      decreases todo
    {
      NonEmpty(todo);
      var p :| p in todo;
      rows := rows[p := Snapshot(products[p].name, products[p].quantity, OrOne(products[p].unitsPerBox), None)];
      todo := todo - {p};
    }
    assert rows.Keys == SnapshotOf(products).Keys;
    assert forall p :: p in rows ==> rows[p] == SnapshotOf(products)[p];
  }

  /** The closing loop over every product, writing its current quantity as
      the final one of the row it has, if any. */
  method FinalQuantities(rows: map<int, Snapshot>, products: map<int, Product>) returns (updated: map<int, Snapshot>)
    ensures updated == Finalized(rows, products)
  {
    var todo := products.Keys;
    updated := rows;
    while todo != {}
      invariant todo <= products.Keys
      invariant updated.Keys == rows.Keys
      invariant forall p :: p in rows && p in products && p !in todo ==>
        updated[p] == rows[p].(finalQuantity := Some(products[p].quantity))
      invariant forall p :: p in rows && (p !in products || p in todo) ==> updated[p] == rows[p]
      decreases todo
    {
      NonEmpty(todo);
      var p :| p in todo;
      if p in updated {
        updated := updated[p := updated[p].(finalQuantity := Some(products[p].quantity))];
      }
      todo := todo - {p};
    }
    assert updated.Keys == Finalized(rows, products).Keys;
    assert forall p :: p in updated ==> updated[p] == Finalized(rows, products)[p];
  }

  class ShiftStore {
    var products: map<int, Product>
    var shifts: map<int, Shift>
    /** `shift_inventory`, by shift and then by product. */
    var snapshots: map<int, map<int, Snapshot>>
    var nextShiftId: int

    /** At most one shift is open, every shift was numbered by the counter,
        and its snapshot rows are kept with it. */
    ghost predicate Valid()
      reads this
    {
      && (forall a, b :: IsOpen(shifts, a) && IsOpen(shifts, b) ==> a == b)
      && (forall id :: id in shifts ==> id < nextShiftId)
      && snapshots.Keys == shifts.Keys
    }

    constructor (stock: map<int, Product>)
      ensures Valid()
      ensures products == stock && shifts == map[] && snapshots == map[]
    {
      products := stock;
      shifts := map[];
      snapshots := map[];
      nextShiftId := 1;
    }

    /** POST /shifts/open. Refused while a shift is open; otherwise a new open
        shift is created with a snapshot of every product. Products are only
        read. */
    method OpenShift(caller: Caller) returns (status: Status, shiftId: Option<int>)
      requires Valid()
      modifies this
      ensures Valid()
      ensures products == old(products)
      ensures (exists id :: IsOpen(old(shifts), id)) ==>
        status == BadRequest && shiftId == None && shifts == old(shifts) && snapshots == old(snapshots)
      ensures (forall id :: !IsOpen(old(shifts), id)) ==>
        var t := old(nextShiftId);
        && status == Created && shiftId == Some(t) && t !in old(shifts)
        && shifts == old(shifts)[t := Shift(caller.id, Open, None, None)]
        && snapshots == old(snapshots)[t := SnapshotOf(products)]
    {
      if id :| id in shifts && shifts[id].status == Open {
        assert IsOpen(shifts, id);
        return BadRequest, None;
      }
      var t := nextShiftId;
      shifts := shifts[t := Shift(caller.id, Open, None, None)];
      nextShiftId := t + 1;
      var rows := TakeSnapshot(products);
      snapshots := snapshots[t := rows];
      return Created, Some(t);
    }

    /** POST /shifts/close. Refused when no shift is open; otherwise the open
        shift's rows get their final quantities and the shift is closed by
        the caller, with its notes or null. */
    method CloseShift(caller: Caller, notes: Option<string>) returns (status: Status, closed: Option<int>)
      requires Valid()
      modifies this
      ensures Valid()
      ensures products == old(products) && nextShiftId == old(nextShiftId)
      ensures (forall id :: !IsOpen(old(shifts), id)) ==>
        status == BadRequest && closed == None && shifts == old(shifts) && snapshots == old(snapshots)
      ensures (exists id :: IsOpen(old(shifts), id)) ==>
        && status == Ok && closed.Some? && IsOpen(old(shifts), closed.value)
        && shifts == old(shifts)[closed.value := old(shifts)[closed.value].(status := Closed,
                                   closedBy := Some(caller.id), notes := NotesOrNull(notes))]
        && snapshots == old(snapshots)[closed.value := Finalized(old(snapshots)[closed.value], products)]
      ensures forall id :: !IsOpen(shifts, id)
    {
      if id :| id in shifts && shifts[id].status == Open {
        assert IsOpen(shifts, id);
        var updated := FinalQuantities(snapshots[id], products);
        ghost var before := shifts;
        snapshots := snapshots[id := updated];
        shifts := shifts[id := shifts[id].(status := Closed, closedBy := Some(caller.id), notes := NotesOrNull(notes))];
        assert forall a :: IsOpen(shifts, a) ==> a != id && IsOpen(before, a);
        return Ok, Some(id);
      }
      return BadRequest, None;
    }

    /** GET /shifts/current: the open shift with its rows, or null. */
    method Current() returns (view: Option<ShiftView>)
      requires Valid()
      ensures view.None? <==> forall id :: !IsOpen(shifts, id)
      ensures view.Some? ==> IsOpen(shifts, view.value.id) && view.value.shift == shifts[view.value.id]
      ensures view.Some? ==> view.value.inventory == snapshots[view.value.id]
    {
      if id :| id in shifts && shifts[id].status == Open {
        assert IsOpen(shifts, id);
        return Some(ShiftView(id, shifts[id], snapshots[id]));
      }
      return None;
    }

    /** GET /shifts/:id: the shift with its rows, or 404 for an unknown id. */
    method Details(id: int) returns (status: Status, view: Option<ShiftView>)
      requires Valid()
      ensures id !in shifts <==> status == NotFound
      ensures id !in shifts ==> view == None
      ensures id in shifts ==> status == Ok && view == Some(ShiftView(id, shifts[id], snapshots[id]))
    {
      if id !in shifts {
        return NotFound, None;
      }
      return Ok, Some(ShiftView(id, shifts[id], snapshots[id]));
    }
  }

  /** Closing the open shift makes the next open succeed: the two handlers
      alternate, and the new shift is the only open one. */
  method CloseThenOpen(store: ShiftStore, closer: Caller, opener: Caller, notes: Option<string>)
    returns (closeStatus: Status, openStatus: Status)
    requires store.Valid()
    modifies store
    ensures store.Valid()
    ensures openStatus == Created
    ensures exists id :: IsOpen(store.shifts, id)
    ensures store.products == old(store.products)
  {
    var closed: Option<int>;
    closeStatus, closed := store.CloseShift(closer, notes);
    var newShift: Option<int>;
    openStatus, newShift := store.OpenShift(opener);
    assert IsOpen(store.shifts, newShift.value);
  }
}
