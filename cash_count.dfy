/** The physical-count form of the cash-close page: quantities shown and
    entered as boxes plus units, the difference of each product with the
    system quantity, the value of the missing stock, and the items a save
    sends. */
module CashCount {
  import opened Common
  import opened CashClose

  /** A product as `/cash-close/products` returns it. */
  datatype CountProduct = CountProduct(id: int, name: string, quantity: int,
                                       unitsPerBox: Option<int>, unitPrice: Option<int>)

  /** A count entered for a product; a field never set is absent. */
  datatype Count = Count(boxes: Option<int>, units: Option<int>)

  /** The field of a count that an input edits. */
  datatype Field = Boxes | Units

  /** How `formatQuantity` renders a quantity. */
  datatype Shown = Plain(units: int) | BoxesUnits(boxes: int, units: int)

  /** The `x || 50` default of the exchange rate. */
  function RateOr50(rate: Option<int>): int {
    if rate.Some? && rate.value != 0 then rate.value else 50
  }

  /** `formatQuantity`: plain units when the box size is at most 1, otherwise
      `Math.floor(qty / upb)` boxes and `qty % upb` units. */
  function FormatQuantity(qty: int, unitsPerBox: Option<int>): Shown {
    var upb := OrOne(unitsPerBox);
    if upb <= 1 then Plain(qty) else BoxesUnits(FloorDiv(qty, upb), TruncRem(qty, upb))
  }

  /** `parseToQuantity`: boxes times the box size plus units, with absent
      counts read as 0 and an absent or zero box size as 1. */
  function ParseToQuantity(boxes: Option<int>, units: Option<int>, unitsPerBox: Option<int>): int {
    OrZero(boxes) * OrOne(unitsPerBox) + OrZero(units)
  }

  /** For a positive box size and a non-negative quantity the shown split is
      exact: whole boxes and fewer units than a box, recombining to the
      quantity. */
  lemma FormatSplits(qty: int, unitsPerBox: Option<int>)
    requires qty >= 0 && OrOne(unitsPerBox) > 1
    ensures FormatQuantity(qty, unitsPerBox).BoxesUnits?
    ensures var s := FormatQuantity(qty, unitsPerBox);
      s.boxes * OrOne(unitsPerBox) + s.units == qty && 0 <= s.units < OrOne(unitsPerBox) && s.boxes >= 0
    ensures var s := FormatQuantity(qty, unitsPerBox);
      ParseToQuantity(Some(s.boxes), Some(s.units), unitsPerBox) == qty
  {
  }

  /** With no box size, or one of at most 1, the quantity is shown as is. */
  lemma FormatPlain(qty: int, unitsPerBox: Option<int>)
    requires OrOne(unitsPerBox) <= 1
    ensures FormatQuantity(qty, unitsPerBox) == Plain(qty)
    ensures unitsPerBox.None? ==> ParseToQuantity(None, Some(qty), unitsPerBox) == qty
  {
  }

  /** The initial count of a product as the page builds it: `Math.floor(qty /
      upb)` boxes and `qty % upb` units, with JavaScript's truncating `%`. */
  function InitialCountAsWritten(qty: int, unitsPerBox: Option<int>): Count {
    var upb := OrOne(unitsPerBox);
    Count(Some(FloorDiv(qty, upb)), Some(TruncRem(qty, upb)))
  }

  /** The initial count with the units taken as what the floored boxes leave,
      so that it always recombines to the quantity. */
  function InitialCount(qty: int, unitsPerBox: Option<int>): (c: Count)
    ensures ParseToQuantity(c.boxes, c.units, unitsPerBox) == qty
  {
    var upb := OrOne(unitsPerBox);
    var boxes := FloorDiv(qty, upb);
    Count(Some(boxes), Some(qty - boxes * upb))
  }

  /** Where the written split is right, for a stock of no less than zero and a
      positive box size, the two agree. */
  lemma InitialCountsAgree(qty: int, unitsPerBox: Option<int>)
    requires qty >= 0 && OrOne(unitsPerBox) > 0
    ensures InitialCountAsWritten(qty, unitsPerBox) == InitialCount(qty, unitsPerBox)
  {
    var upb := OrOne(unitsPerBox);
    var boxes := qty / upb;
    assert FloorDiv(qty, upb) == boxes;
    assert TruncRem(qty, upb) == qty % upb;
    assert qty == boxes * upb + qty % upb;
  }

  /** A product with stock -1 in boxes of 12 starts as -1 box and -1 unit,
      which parses back as -13: the untouched form reports a difference of 12. */
  lemma TruncatedSplitMiscounts()
    ensures InitialCountAsWritten(-1, Some(12)) == Count(Some(-1), Some(-1))
    ensures ParseToQuantity(Some(-1), Some(-1), Some(12)) == -13
    ensures -1 - ParseToQuantity(Some(-1), Some(-1), Some(12)) == 12
    ensures InitialCount(-1, Some(12)) == Count(Some(-1), Some(11))
  {
  }

  // ---------------------------------------------------------------------
  // Differences and totals over the loaded products

  /** The count used for `p`: the entered one, or zero boxes and units. */
  function CountFor(counts: map<int, Count>, id: int): Count {
    if id in counts then counts[id] else Count(Some(0), Some(0))
  }

  function Physical(p: CountProduct, counts: map<int, Count>): int {
    var c := CountFor(counts, p.id);
    ParseToQuantity(c.boxes, c.units, p.unitsPerBox)
  }

  /** `calculateDifference`: system minus counted. */
  function Difference(p: CountProduct, counts: map<int, Count>): int {
    p.quantity - Physical(p, counts)
  }

  /** `getTotalDifference`. */
  function TotalDifference(products: seq<CountProduct>, counts: map<int, Count>): int {
    if products == [] then 0
    else TotalDifference(products[..|products| - 1], counts) + Abs(Difference(products[|products| - 1], counts))
  }

  /** `getTotalSalesUSD`: the value of the missing units; a surplus adds nothing. */
  function TotalSalesUsd(products: seq<CountProduct>, counts: map<int, Count>): int {
    if products == [] then 0
    else
      var p := products[|products| - 1];
      var diff := Difference(p, counts);
      TotalSalesUsd(products[..|products| - 1], counts) + (if diff > 0 then diff * OrZero(p.unitPrice) else 0)
  }

  function TotalSalesBs(products: seq<CountProduct>, counts: map<int, Count>, rate: int): int {
    TotalSalesUsd(products, counts) * rate
  }

  /** The total difference is never negative, and it is 0 exactly when every
      product's count matches its system quantity. */
  lemma {:induction false} TotalDifferenceZero(products: seq<CountProduct>, counts: map<int, Count>)
    ensures TotalDifference(products, counts) >= 0
    ensures TotalDifference(products, counts) == 0 <==>
      forall i :: 0 <= i < |products| ==> Difference(products[i], counts) == 0
  {
    if products != [] {
      TotalDifferenceZero(products[..|products| - 1], counts);
    }
  }

  /** How far the count falls short of the system quantity, or 0. */
  function Shortage(p: CountProduct, counts: map<int, Count>): int {
    var d := Difference(p, counts);
    if d > 0 then d else 0
  }

  /** Σ shortage · price. */
  function ShortageValue(products: seq<CountProduct>, counts: map<int, Count>): int {
    if products == [] then 0
    else
      var p := products[|products| - 1];
      ShortageValue(products[..|products| - 1], counts) + Shortage(p, counts) * OrZero(p.unitPrice)
  }

  /** Only shortages are valued: the sales total is the value of the
      shortages, so with no shortage it is 0, and with no negative price it
      is never negative. */
  lemma {:induction false} SalesCountShortagesOnly(products: seq<CountProduct>, counts: map<int, Count>)
    ensures (forall i :: 0 <= i < |products| ==> Difference(products[i], counts) <= 0) ==>
      TotalSalesUsd(products, counts) == 0
    ensures (forall i :: 0 <= i < |products| ==> OrZero(products[i].unitPrice) >= 0) ==>
      TotalSalesUsd(products, counts) >= 0
    ensures TotalSalesUsd(products, counts) == ShortageValue(products, counts)
  {
    if products != [] {
      SalesCountShortagesOnly(products[..|products| - 1], counts);
    }
  }

  /** The items `handleSave` sends: one per loaded product, in order. */
  function SaveItems(products: seq<CountProduct>, counts: map<int, Count>): (items: seq<CloseItem>)
    ensures |items| == |products|
    ensures forall i :: 0 <= i < |products| ==>
      && items[i].productId == products[i].id && items[i].productName == products[i].name
      && items[i].systemQuantity == products[i].quantity
      && items[i].physicalQuantity == Physical(products[i], counts)
      && items[i].unitsPerBox == Some(OrOne(products[i].unitsPerBox))
  {
    if products == [] then []
    else
      var p := products[|products| - 1];
      SaveItems(products[..|products| - 1], counts) +
        [CloseItem(p.id, p.name, p.quantity, Physical(p, counts), Some(OrOne(p.unitsPerBox)))]
  }

  /** The form and the server agree: the differences the server records for
      the saved items are the form's differences, and the batch adds to the
      close history exactly the form's total difference. */
  lemma {:induction false} SavedDifferencesMatch(products: seq<CountProduct>, counts: map<int, Count>, date: string, author: int)
    ensures var rs := RecordsOf(date, SaveItems(products, counts), author);
      forall i :: 0 <= i < |products| ==> rs[i].difference == Difference(products[i], counts)
    ensures BatchDifference(SaveItems(products, counts)) == TotalDifference(products, counts)
  {
    if products != [] {
      var items := SaveItems(products, counts);
      assert items[..|items| - 1] == SaveItems(products[..|products| - 1], counts);
      SavedDifferencesMatch(products[..|products| - 1], counts, date, author);
    }
  }

  predicate UniqueIds(products: seq<CountProduct>) {
    forall i, j :: 0 <= i < j < |products| ==> products[i].id != products[j].id
  }

  /** Every product has a stock of at least zero and a positive box size:
      where the page's split of the stock is exact. */
  predicate NonNegativeStock(products: seq<CountProduct>) {
    forall i :: 0 <= i < |products| ==> products[i].quantity >= 0 && OrOne(products[i].unitsPerBox) > 0
  }

  /** Counts started at the corrected split open the form with no
      difference, for any stock and any box size. */
  lemma CorrectedLoadOpensAtZero(products: seq<CountProduct>, counts: map<int, Count>)
    requires forall i :: 0 <= i < |products| ==>
      products[i].id in counts && counts[products[i].id] == InitialCount(products[i].quantity, products[i].unitsPerBox)
    ensures forall i :: 0 <= i < |products| ==> Difference(products[i], counts) == 0
    ensures TotalDifference(products, counts) == 0
  {
    TotalDifferenceZero(products, counts);
  }

  // ---------------------------------------------------------------------

  class CountForm {
    var products: seq<CountProduct>
    var counts: map<int, Count>
    var exchangeRate: int

    constructor ()
      ensures products == [] && counts == map[] && exchangeRate == 50
    {
      products := [];
      counts := map[];
      exchangeRate := 50;
    }

    /** The successful part of `loadData`: stores the products and the rate,
        and starts every product's count at the page's split of its system
        quantity, `Math.floor(qty / upb)` boxes and the truncating `qty % upb`
        units. The form opens with no difference only where that split is
        exact: for stock of at least zero and a positive box size. */
    method Load(data: seq<CountProduct>, rate: Option<int>)
      modifies this
      ensures products == data && exchangeRate == RateOr50(rate)
      ensures counts.Keys == set p | p in data :: p.id
      ensures UniqueIds(data) ==> forall i :: 0 <= i < |data| ==>
        counts[data[i].id] == InitialCountAsWritten(data[i].quantity, data[i].unitsPerBox)
      ensures UniqueIds(data) && NonNegativeStock(data) ==>
        (forall i :: 0 <= i < |data| ==> Difference(data[i], counts) == 0) && TotalDifference(data, counts) == 0
    {
      products := data;
      exchangeRate := RateOr50(rate);
      var initial: map<int, Count> := map[];
      var i := 0;
      while i < |data|
        invariant 0 <= i <= |data|
        invariant initial.Keys == set p | p in data[..i] :: p.id
        invariant UniqueIds(data) ==> forall j :: 0 <= j < i ==>
          initial[data[j].id] == InitialCountAsWritten(data[j].quantity, data[j].unitsPerBox)
      {
        assert data[..i + 1] == data[..i] + [data[i]];
        initial := initial[data[i].id := InitialCountAsWritten(data[i].quantity, data[i].unitsPerBox)];
        i := i + 1;
      }
      assert data[..i] == data;
      counts := initial;
      if UniqueIds(data) && NonNegativeStock(data) {
        forall j | 0 <= j < |data|
          ensures counts[data[j].id] == InitialCount(data[j].quantity, data[j].unitsPerBox)
        {
          InitialCountsAgree(data[j].quantity, data[j].unitsPerBox);
        }
        CorrectedLoadOpensAtZero(data, counts);
      }
    }

    /** `handleCountChange`: sets one field of one product's count to the
        entered number, or to 0 when the entry is not a number; the other
        field and every other product's count stay as they were. */
    method ChangeCount(productId: int, field: Field, value: Option<int>)
      modifies this
      ensures counts.Keys == old(counts).Keys + {productId}
      ensures forall id :: id in old(counts) && id != productId ==> counts[id] == old(counts)[id]
      ensures var prev := if productId in old(counts) then old(counts)[productId] else Count(None, None);
        counts[productId] == match field
          case Boxes => prev.(boxes := Some(OrZero(value)))
          case Units => prev.(units := Some(OrZero(value)))
      ensures products == old(products) && exchangeRate == old(exchangeRate)
    {
      var prev := if productId in counts then counts[productId] else Count(None, None);
      var next := match field
        case Boxes => prev.(boxes := Some(OrZero(value)))
        case Units => prev.(units := Some(OrZero(value)));
      counts := counts[productId := next];
    }
  }

  /** As the page is written, a product with stock -1 in boxes of 12 opens
      the form with a difference of 12 and a total difference of 12, although
      nothing was counted yet. */
  method NegativeStockOpensMiscounted() returns (difference: int, total: int)
    ensures difference == 12 && total == 12
  {
    var form := new CountForm();
    var p := CountProduct(1, "Harina", -1, Some(12), None);
    form.Load([p], None);
    assert form.counts[1] == Count(Some(-1), Some(-1)) by {
      TruncatedSplitMiscounts();
    }
    difference := Difference(p, form.counts);
    assert difference == -1 - (-1 * 12 + -1);
    assert [p][..0] == [];
    total := TotalDifference([p], form.counts);
    assert total == TotalDifference([], form.counts) + Abs(difference);
  }
}
