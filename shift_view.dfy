/** The shift page's rendering of snapshot rows: quantities worded as boxes
    and units, and the units sold during a shift. */
module ShiftPage {
  import opened Common
  import opened Products
  import opened Shifts

  /** The wording `formatQuantity` chooses; `plural` is the trailing `s` of
      `caja`. */
  datatype Wording =
    | Number(n: int)
    | UnitsOnly(units: int)
    | BoxesOnly(boxes: int, plural: bool)
    | BoxesAndUnits(boxes: int, plural: bool, units: int)

  /** `formatQuantity` of the shift page. */
  function FormatQuantity(qty: int, unitsPerBox: Option<int>): Wording {
    var upb := OrOne(unitsPerBox);
    if upb <= 1 then Number(qty)
    else
      var boxes := FloorDiv(qty, upb);
      var units := TruncRem(qty, upb);
      if boxes == 0 then UnitsOnly(units)
      else if units == 0 then BoxesOnly(boxes, boxes > 1)
      else BoxesAndUnits(boxes, boxes > 1, units)
  }

  /** The quantity a wording stands for, in units of boxes of `upb`. */
  function Amount(w: Wording, upb: int): int {
    match w
    case Number(n) => n
    case UnitsOnly(u) => u
    case BoxesOnly(b, _) => b * upb
    case BoxesAndUnits(b, _, u) => b * upb + u
  }

  /** For a non-negative quantity the wording states the whole quantity and
      no zero part: units only below one box, boxes only for whole boxes,
      fewer units than a box, and the plural exactly for more than one box. */
  lemma WordingIsExact(qty: int, unitsPerBox: Option<int>)
    requires qty >= 0
    ensures Amount(FormatQuantity(qty, unitsPerBox), OrOne(unitsPerBox)) == qty
    ensures OrOne(unitsPerBox) > 1 ==> match FormatQuantity(qty, unitsPerBox)
      case Number(_) => false
      case UnitsOnly(u) => 0 <= u < OrOne(unitsPerBox) && qty < OrOne(unitsPerBox)
      case BoxesOnly(b, plural) => b > 0 && plural == (b > 1) && qty % OrOne(unitsPerBox) == 0
      case BoxesAndUnits(b, plural, u) => b > 0 && plural == (b > 1) && 0 < u < OrOne(unitsPerBox)
    ensures OrOne(unitsPerBox) <= 1 ==> FormatQuantity(qty, unitsPerBox) == Number(qty)
  {
  }

  /** The units sold during a shift: initial minus final once the final
      quantity is known, and null while the shift is open. */
  function Sold(row: Snapshot): Option<int> {
    if row.finalQuantity.Some? then Some(row.initialQuantity - row.finalQuantity.value) else None
  }

  /** A freshly opened shift shows nothing sold; after closing, a row whose
      product still exists shows the drop of that product's quantity between
      the open and the close. */
  lemma SoldAcrossShift(atOpen: map<int, Product>, atClose: map<int, Product>, p: int)
    requires p in atOpen
    ensures Sold(SnapshotOf(atOpen)[p]) == None
    ensures p in atClose ==>
      Sold(Finalized(SnapshotOf(atOpen), atClose)[p]) == Some(atOpen[p].quantity - atClose[p].quantity)
    ensures p !in atClose ==> Sold(Finalized(SnapshotOf(atOpen), atClose)[p]) == None
  {
  }
}
