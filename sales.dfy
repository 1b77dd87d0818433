/** The sales handlers behind `/sales`: recording a sale, which numbers it
    and takes its quantities out of stock; cancelling one, which puts them
    back; and the daily report. Amounts are cents. */
module Sales {
  import opened Common
  import opened Products
  import SaleNumber

  /** The `sales.payment_method` enumeration. */
  datatype PaymentMethod = PagoMovil | Pos | BsCash | UsdCash | Zelle | Binance

  /** A line of a sale request, with the prices and subtotals the client computed. */
  datatype SaleItem = SaleItem(productId: int, productName: string, quantity: int,
                               unitPriceUsd: int, unitPriceBs: int, subtotalUsd: int, subtotalBs: int)

  /** The body of a sale request; any field may be missing. */
  datatype SaleRequest = SaleRequest(customerName: Option<string>, paymentMethod: Option<PaymentMethod>,
                                     items: Option<seq<SaleItem>>, exchangeRate: Option<int>)

  /** A row of `sales`. */
  datatype SaleRow = SaleRow(id: int, number: string, date: string, customerName: string,
                             paymentMethod: PaymentMethod, totalUsd: int, totalBs: int,
                             exchangeRate: int, inventoryId: int, createdBy: int)

  /** A row of `sale_items`. */
  datatype ItemRow = ItemRow(saleId: int, item: SaleItem)

  /** What a request needs before any statement runs. */
  predicate ValidRequest(req: SaleRequest) {
    req.paymentMethod.Some? && req.items.Some? && |req.items.value| > 0
  }

  function TotalUsd(items: seq<SaleItem>): int {
    if items == [] then 0 else TotalUsd(items[..|items| - 1]) + items[|items| - 1].subtotalUsd
  }

  function TotalBs(items: seq<SaleItem>): int {
    if items == [] then 0 else TotalBs(items[..|items| - 1]) + items[|items| - 1].subtotalBs
  }

  /** The quantity of product `id` that the lines `items` carry. */
  function QtyOf(items: seq<SaleItem>, id: int): int {
    if items == [] then 0
    else QtyOf(items[..|items| - 1], id) + (if items[|items| - 1].productId == id then items[|items| - 1].quantity else 0)
  }

  /** The stock after the recording loop has taken out the lines `items`. */
  function Decremented(products: map<int, Product>, items: seq<SaleItem>): map<int, Product> {
    if items == [] then products
    else
      var last := items[|items| - 1];
      AddQuantity(Decremented(products, items[..|items| - 1]), last.productId, -last.quantity)
  }

  /** The stock after the cancelling loop has put back the rows `rows`. */
  function Restored(products: map<int, Product>, rows: seq<ItemRow>): map<int, Product> {
    if rows == [] then products
    else
      var last := rows[|rows| - 1].item;
      AddQuantity(Restored(products, rows[..|rows| - 1]), last.productId, last.quantity)
  }

  /** The index of the first line naming a product the stock table lacks, or
      `|items|`: where the foreign key on `sale_items.product_id` refuses an
      insert. */
  function FirstUnknown(products: map<int, Product>, items: seq<SaleItem>): (k: nat)
    ensures k <= |items|
    ensures forall i :: 0 <= i < k ==> items[i].productId in products
    ensures k < |items| ==> items[k].productId !in products
  {
    FirstOutside(items, products.Keys, ItemProduct)
  }

  function ItemProduct(it: SaleItem): int {
    it.productId
  }

  /** Up to the first unknown product, line `i` is the first unknown one
      exactly when its product does not exist. */
  lemma FirstUnknownAt(products: map<int, Product>, items: seq<SaleItem>, i: nat)
    requires i <= FirstUnknown(products, items) && i < |items|
    ensures items[i].productId in products <==> i < FirstUnknown(products, items)
  {
  }

  /** Taking out one more line is taking it out after the others. */
  lemma DecrementedStep(products: map<int, Product>, items: seq<SaleItem>, i: nat)
    requires i < |items|
    ensures Decremented(products, items[..i + 1]) ==
      AddQuantity(Decremented(products, items[..i]), items[i].productId, -items[i].quantity)
  {
    assert items[..i + 1][..i] == items[..i];
  }

  lemma RowsOfStep(saleId: int, items: seq<SaleItem>, i: nat)
    requires i < |items|
    ensures RowsOf(saleId, items[..i + 1]) == RowsOf(saleId, items[..i]) + [ItemRow(saleId, items[i])]
  {
    assert items[..i + 1][..i] == items[..i];
  }

  function ItemsOf(rows: seq<ItemRow>): (items: seq<SaleItem>)
    ensures |items| == |rows|
    ensures forall i :: 0 <= i < |rows| ==> items[i] == rows[i].item
  {
    if rows == [] then [] else ItemsOf(rows[..|rows| - 1]) + [rows[|rows| - 1].item]
  }

  function RowsOf(saleId: int, items: seq<SaleItem>): (rows: seq<ItemRow>)
    ensures |rows| == |items|
  {
    if items == [] then [] else RowsOf(saleId, items[..|items| - 1]) + [ItemRow(saleId, items[|items| - 1])]
  }

  /** One item row per submitted line of the sale, in order. */
  lemma {:induction false} RowsOfAt(saleId: int, items: seq<SaleItem>)
    ensures forall i :: 0 <= i < |items| ==> RowsOf(saleId, items)[i] == ItemRow(saleId, items[i])
  {
    if items != [] {
      RowsOfAt(saleId, items[..|items| - 1]);
    }
  }

  /** `SELECT * FROM sale_items WHERE sale_id = saleId`. */
  function RowsFor(rows: seq<ItemRow>, saleId: int): seq<ItemRow> {
    if rows == [] then []
    else (if rows[0].saleId == saleId then [rows[0]] else []) + RowsFor(rows[1..], saleId)
  }

  /** The rows that survive the cascade of deleting sale `saleId`. */
  function RowsWithout(rows: seq<ItemRow>, saleId: int): seq<ItemRow> {
    if rows == [] then []
    else (if rows[0].saleId == saleId then [] else [rows[0]]) + RowsWithout(rows[1..], saleId)
  }

  function SalesWithout(sales: seq<SaleRow>, id: int): seq<SaleRow> {
    if sales == [] then []
    else (if sales[0].id == id then [] else [sales[0]]) + SalesWithout(sales[1..], id)
  }

  /** `SELECT sale_number FROM sales WHERE inventory_id = inv ORDER BY id DESC LIMIT 1`:
      the inventory's sale with the greatest id. */
  function Latest(sales: seq<SaleRow>, inv: int): (r: Option<SaleRow>)
    ensures r.None? <==> forall i :: 0 <= i < |sales| ==> sales[i].inventoryId != inv
    ensures r.Some? ==> r.value in sales && r.value.inventoryId == inv
    ensures r.Some? ==> forall i :: 0 <= i < |sales| && sales[i].inventoryId == inv ==> sales[i].id <= r.value.id
  {
    if sales == [] then None
    else
      var rest := Latest(sales[1..], inv);
      assert forall i :: 1 <= i < |sales| ==> sales[i] == sales[1..][i - 1];
      if sales[0].inventoryId != inv then rest
      else if rest.None? || sales[0].id > rest.value.id then Some(sales[0])
      else rest
  }

  function LatestNumber(sales: seq<SaleRow>, inv: int): Option<string> {
    match Latest(sales, inv)
    case None => None
    case Some(s) => Some(s.number)
  }

  // ---------------------------------------------------------------------
  // Laws of recording and cancelling

  /** Recording changes only quantities, and each product loses exactly the
      quantity its lines carry, with no stock check: quantities may go
      negative. A product no line names is untouched. */
  lemma {:induction false} DecrementedAt(products: map<int, Product>, items: seq<SaleItem>, id: int)
    ensures Decremented(products, items).Keys == products.Keys
    ensures id in products ==>
      Decremented(products, items)[id] == products[id].(quantity := products[id].quantity - QtyOf(items, id))
  {
    if items != [] {
      DecrementedAt(products, items[..|items| - 1], id);
    }
  }

  lemma {:induction false} RestoredAt(products: map<int, Product>, rows: seq<ItemRow>, id: int)
    ensures Restored(products, rows).Keys == products.Keys
    ensures id in products ==>
      Restored(products, rows)[id] == products[id].(quantity := products[id].quantity + QtyOf(ItemsOf(rows), id))
  {
    if rows != [] {
      RestoredAt(products, rows[..|rows| - 1], id);
      assert ItemsOf(rows)[..|rows| - 1] == ItemsOf(rows[..|rows| - 1]);
    }
  }

  lemma ItemsOfRows(saleId: int, items: seq<SaleItem>)
    ensures ItemsOf(RowsOf(saleId, items)) == items
  {
    RowsOfAt(saleId, items);
  }

  /** Round trip: putting back the rows of a recorded sale restores every
      product's quantity. */
  lemma RecordThenCancelRestores(products: map<int, Product>, saleId: int, items: seq<SaleItem>)
    ensures Restored(Decremented(products, items), RowsOf(saleId, items)) == products
  {
    var d := Decremented(products, items);
    var r := Restored(d, RowsOf(saleId, items));
    ItemsOfRows(saleId, items);
    forall id | id in products
      ensures id in r && r[id] == products[id]
    {
      DecrementedAt(products, items, id);
      RestoredAt(d, RowsOf(saleId, items), id);
    }
    DecrementedAt(products, items, 0);
    RestoredAt(d, RowsOf(saleId, items), 0);
  }

  /** The totals of a sale are the sums of the submitted subtotals: a sale's
      totals split over any division of its lines. */
  lemma {:induction false} TotalsSplit(a: seq<SaleItem>, b: seq<SaleItem>)
    ensures TotalUsd(a + b) == TotalUsd(a) + TotalUsd(b)
    ensures TotalBs(a + b) == TotalBs(a) + TotalBs(b)
  {
    if b != [] {
      assert (a + b)[..|a + b| - 1] == a + b[..|b| - 1];
      TotalsSplit(a, b[..|b| - 1]);
    } else {
      assert a + b == a;
    }
  }

  lemma {:induction false} RowsForAppend(a: seq<ItemRow>, b: seq<ItemRow>, saleId: int)
    ensures RowsFor(a + b, saleId) == RowsFor(a, saleId) + RowsFor(b, saleId)
    ensures RowsWithout(a + b, saleId) == RowsWithout(a, saleId) + RowsWithout(b, saleId)
  {
    if a == [] {
      assert a + b == b;
    } else {
      assert (a + b)[0] == a[0];
      assert (a + b)[1..] == a[1..] + b;
      RowsForAppend(a[1..], b, saleId);
      var h := if a[0].saleId == saleId then [a[0]] else [];
      var g := if a[0].saleId == saleId then [] else [a[0]];
      assert h + (RowsFor(a[1..], saleId) + RowsFor(b, saleId)) == (h + RowsFor(a[1..], saleId)) + RowsFor(b, saleId);
      assert g + (RowsWithout(a[1..], saleId) + RowsWithout(b, saleId)) == (g + RowsWithout(a[1..], saleId)) + RowsWithout(b, saleId);
    }
  }

  lemma {:induction false} OtherSalesRows(rows: seq<ItemRow>, saleId: int)
    requires forall r :: r in rows ==> r.saleId != saleId
    ensures RowsFor(rows, saleId) == [] && RowsWithout(rows, saleId) == rows
  {
    if rows != [] {
      assert rows[0] in rows;
      assert forall r :: r in rows[1..] ==> r in rows;
      OtherSalesRows(rows[1..], saleId);
    }
  }

  lemma {:induction false} OwnSaleRows(saleId: int, items: seq<SaleItem>)
    ensures RowsFor(RowsOf(saleId, items), saleId) == RowsOf(saleId, items)
    ensures RowsWithout(RowsOf(saleId, items), saleId) == []
  {
    if items != [] {
      var rows := RowsOf(saleId, items);
      var init := items[..|items| - 1];
      assert rows == RowsOf(saleId, init) + [ItemRow(saleId, items[|items| - 1])];
      OwnSaleRows(saleId, init);
      RowsForAppend(RowsOf(saleId, init), [ItemRow(saleId, items[|items| - 1])], saleId);
      assert [ItemRow(saleId, items[|items| - 1])][1..] == [];
    }
  }

  lemma {:induction false} SalesWithoutAbsent(sales: seq<SaleRow>, id: int)
    requires forall s :: s in sales ==> s.id != id
    ensures SalesWithout(sales, id) == sales
  {
    if sales != [] {
      assert sales[0] in sales;
      assert forall s :: s in sales[1..] ==> s in sales;
      SalesWithoutAbsent(sales[1..], id);
    }
  }

  lemma {:induction false} SalesWithoutShrinks(sales: seq<SaleRow>, id: int)
    ensures forall s :: s in SalesWithout(sales, id) ==> s in sales
  {
    if sales != [] {
      SalesWithoutShrinks(sales[1..], id);
    }
  }

  lemma {:induction false} RowsWithoutShrinks(rows: seq<ItemRow>, saleId: int)
    ensures forall r :: r in RowsWithout(rows, saleId) ==> r in rows
  {
    if rows != [] {
      RowsWithoutShrinks(rows[1..], saleId);
    }
  }

  // ---------------------------------------------------------------------
  // The daily report's aggregates

  datatype Stat = Stat(sold: int, revenueUsd: int, revenueBs: int)
  datatype ProductLine = ProductLine(sold: int, revenueUsd: int, revenueBs: int, finalStock: int, initialStock: int)
  datatype Bucket = Bucket(usd: int, bs: int, count: nat)
  datatype Totals = Totals(totalUsd: int, totalBs: int, totalSales: nat)
  datatype Report = Report(date: string, products: map<string, ProductLine>,
                           paymentMethods: map<PaymentMethod, Bucket>, totals: Totals)

  /** `SELECT * FROM sales WHERE date = date`. */
  function SalesOn(sales: seq<SaleRow>, date: string): seq<SaleRow> {
    if sales == [] then []
    else (if sales[0].date == date then [sales[0]] else []) + SalesOn(sales[1..], date)
  }

  function IdsOf(sales: seq<SaleRow>): set<int> {
    set s | s in sales :: s.id
  }

  /** `SELECT * FROM sale_items WHERE sale_id IN (ids)`. */
  function RowsIn(rows: seq<ItemRow>, ids: set<int>): seq<ItemRow> {
    if rows == [] then []
    else (if rows[0].saleId in ids then [rows[0]] else []) + RowsIn(rows[1..], ids)
  }

  /** The names `Object.prototype` carries. `productStats` is a plain object,
      so a line with one of these names finds the inherited member, which is
      truthy: no entry of its own is made, and its sums are written onto the
      inherited member instead. */
  const PrototypeNames: set<string> := {
    "constructor", "__proto__", "__defineGetter__", "__defineSetter__", "__lookupGetter__",
    "__lookupSetter__", "hasOwnProperty", "isPrototypeOf", "propertyIsEnumerable",
    "toString", "toLocaleString", "valueOf"}

  function NamesOf(rows: seq<ItemRow>): set<string> {
    if rows == [] then {} else NamesOf(rows[..|rows| - 1]) + {rows[|rows| - 1].item.productName}
  }

  function SoldOf(rows: seq<ItemRow>, name: string): int {
    if rows == [] then 0
    else SoldOf(rows[..|rows| - 1], name) + (if rows[|rows| - 1].item.productName == name then rows[|rows| - 1].item.quantity else 0)
  }

  function RevenueUsdOf(rows: seq<ItemRow>, name: string): int {
    if rows == [] then 0
    else RevenueUsdOf(rows[..|rows| - 1], name) + (if rows[|rows| - 1].item.productName == name then rows[|rows| - 1].item.subtotalUsd else 0)
  }

  function RevenueBsOf(rows: seq<ItemRow>, name: string): int {
    if rows == [] then 0
    else RevenueBsOf(rows[..|rows| - 1], name) + (if rows[|rows| - 1].item.productName == name then rows[|rows| - 1].item.subtotalBs else 0)
  }

  function MethodsOf(sales: seq<SaleRow>): set<PaymentMethod> {
    if sales == [] then {} else MethodsOf(sales[..|sales| - 1]) + {sales[|sales| - 1].paymentMethod}
  }

  function CountOf(sales: seq<SaleRow>, m: PaymentMethod): nat {
    if sales == [] then 0
    else CountOf(sales[..|sales| - 1], m) + (if sales[|sales| - 1].paymentMethod == m then 1 else 0)
  }

  function UsdOf(sales: seq<SaleRow>, m: PaymentMethod): int {
    if sales == [] then 0
    else UsdOf(sales[..|sales| - 1], m) + (if sales[|sales| - 1].paymentMethod == m then sales[|sales| - 1].totalUsd else 0)
  }

  function BsOf(sales: seq<SaleRow>, m: PaymentMethod): int {
    if sales == [] then 0
    else BsOf(sales[..|sales| - 1], m) + (if sales[|sales| - 1].paymentMethod == m then sales[|sales| - 1].totalBs else 0)
  }

  function SumUsd(sales: seq<SaleRow>): int {
    if sales == [] then 0 else SumUsd(sales[..|sales| - 1]) + sales[|sales| - 1].totalUsd
  }

  function SumBs(sales: seq<SaleRow>): int {
    if sales == [] then 0 else SumBs(sales[..|sales| - 1]) + sales[|sales| - 1].totalBs
  }

  /** The per-method counts and amounts add up to the report's totals: every
      sale falls in exactly one of the six buckets. */
  lemma {:induction false} BucketsAddUp(sales: seq<SaleRow>)
    ensures CountOf(sales, PagoMovil) + CountOf(sales, Pos) + CountOf(sales, BsCash)
          + CountOf(sales, UsdCash) + CountOf(sales, Zelle) + CountOf(sales, Binance) == |sales|
    ensures UsdOf(sales, PagoMovil) + UsdOf(sales, Pos) + UsdOf(sales, BsCash)
          + UsdOf(sales, UsdCash) + UsdOf(sales, Zelle) + UsdOf(sales, Binance) == SumUsd(sales)
    ensures BsOf(sales, PagoMovil) + BsOf(sales, Pos) + BsOf(sales, BsCash)
          + BsOf(sales, UsdCash) + BsOf(sales, Zelle) + BsOf(sales, Binance) == SumBs(sales)
  {
    if sales != [] {
      BucketsAddUp(sales[..|sales| - 1]);
    }
  }

  /** A method with no bucket in the report had no sale that day. */
  lemma {:induction false} AbsentMethodCountsNothing(sales: seq<SaleRow>, m: PaymentMethod)
    requires m !in MethodsOf(sales)
    ensures CountOf(sales, m) == 0 && UsdOf(sales, m) == 0 && BsOf(sales, m) == 0
  {
    if sales != [] {
      AbsentMethodCountsNothing(sales[..|sales| - 1], m);
    }
  }

  /** A name with no line in the report sold nothing that day. */
  lemma {:induction false} AbsentNameSellsNothing(rows: seq<ItemRow>, name: string)
    requires name !in NamesOf(rows)
    ensures SoldOf(rows, name) == 0 && RevenueUsdOf(rows, name) == 0 && RevenueBsOf(rows, name) == 0
  {
    if rows != [] {
      AbsentNameSellsNothing(rows[..|rows| - 1], name);
    }
  }

  lemma {:induction false} RowsInNone(rows: seq<ItemRow>)
    ensures RowsIn(rows, {}) == []
  {
    if rows != [] {
      RowsInNone(rows[1..]);
    }
  }

  /** The report line of product `name`. */
  ghost predicate LineFits(line: ProductLine, rows: seq<ItemRow>, name: string, products: map<int, Product>) {
    && line.sold == SoldOf(rows, name)
    && line.revenueUsd == RevenueUsdOf(rows, name)
    && line.revenueBs == RevenueBsOf(rows, name)
    && line.initialStock == line.finalStock + line.sold
    && ((exists p :: p in products && products[p].name == name && line.finalStock == products[p].quantity)
        || ((forall p :: p in products ==> products[p].name != name) && line.finalStock == 0))
  }

  // ---------------------------------------------------------------------
  // The tables and the request handlers

  class SalesStore {
    var products: map<int, Product>
    var sales: seq<SaleRow>
    var itemRows: seq<ItemRow>
    /** The next value of the `sales.id` auto-increment counter. */
    var nextSaleId: int

    ghost predicate Valid()
      reads this
    {
      && (forall s :: s in sales ==> s.id < nextSaleId)
      && (forall r :: r in itemRows ==> r.saleId < nextSaleId)
    }

    constructor (stock: map<int, Product>)
      ensures Valid()
      ensures products == stock && sales == [] && itemRows == [] && nextSaleId == 1
    {
      products := stock;
      sales := [];
      itemRows := [];
      nextSaleId := 1;
    }

    /** POST /sales. Refuses a request without payment method or lines, or
        without an inventory header. Otherwise numbers the sale after the
        inventory's latest one, totals the submitted subtotals, stores the
        sale and its lines, and takes each line's quantity out of stock. A
        line naming a product the stock table lacks is refused by the
        foreign key on `sale_items.product_id`: the answer is 500, with the
        sale row and the earlier lines kept (no rollback). */
    method Record(req: SaleRequest, inventoryHeader: Option<int>, caller: Caller, today: string)
      returns (status: Status, number: Option<string>, saleId: Option<int>)
      requires Valid()
      modifies this
      ensures Valid()
      ensures !ValidRequest(req) || inventoryHeader.None? ==>
        status == BadRequest && number == None && saleId == None &&
        products == old(products) && sales == old(sales) && itemRows == old(itemRows) &&
        nextSaleId == old(nextSaleId)
      ensures ValidRequest(req) && inventoryHeader.Some? && req.exchangeRate.None? ==>
        status == ServerError && number == None && saleId == None &&
        products == old(products) && sales == old(sales) && itemRows == old(itemRows) &&
        nextSaleId == old(nextSaleId)
      ensures ValidRequest(req) && inventoryHeader.Some? && req.exchangeRate.Some? ==>
        var items := req.items.value;
        var t := old(nextSaleId);
        var n := SaleNumber.Next(LatestNumber(old(sales), inventoryHeader.value));
        var k := FirstUnknown(old(products), items);
        && (k == |items| ==> status == Created && number == Some(n) && saleId == Some(t))
        && (k < |items| ==> status == ServerError && number == None && saleId == None)
        && nextSaleId == t + 1
        && sales == old(sales) + [SaleRow(t, n, today, if req.customerName.Some? then req.customerName.value else "",
                                         req.paymentMethod.value, TotalUsd(items), TotalBs(items),
                                         req.exchangeRate.value, inventoryHeader.value, caller.id)]
        && itemRows == old(itemRows) + RowsOf(t, items[..k])
        && products == Decremented(old(products), items[..k])
    {
      if !ValidRequest(req) {
        return BadRequest, None, None;
      }
      if inventoryHeader.None? {
        return BadRequest, None, None;
      }
      var inv := inventoryHeader.value;
      var n := SaleNumber.Next(LatestNumber(sales, inv));
      var items := req.items.value;
      var totalUsd, totalBs := SaleTotals(items);
      if req.exchangeRate.None? {
        // `exchange_rate` is bound as `undefined`, which the driver refuses
        return ServerError, None, None;
      }
      var t := nextSaleId;
      var customer := if req.customerName.Some? then req.customerName.value else "";
      var row := SaleRow(t, n, today, customer, req.paymentMethod.value, totalUsd, totalBs,
                         req.exchangeRate.value, inv, caller.id);
      sales := sales + [row];
      nextSaleId := t + 1;
      var ok := InsertItems(t, items);
      if !ok {
        return ServerError, None, None;
      }
      return Created, Some(n), Some(t);
    }

    /** GET /sales/daily-report. The report date is the requested one, or
        today when none (or an empty one) is given. Lines are grouped by
        product name over every inventory's sales of that date; a line's
        final stock is the quantity of some product with that name, or 0 when
        none has it. A name that `Object.prototype` carries gets no line.
        Sales are grouped by payment method. */
    method DailyReport(date: Option<string>, today: string) returns (r: Report)
      ensures var d := if date.Some? && date.value != "" then date.value else today;
        var day := SalesOn(sales, d);
        var rows := RowsIn(itemRows, IdsOf(day));
        && r.date == d
        && r.products.Keys == NamesOf(rows) - PrototypeNames
        && (forall n :: n in r.products ==> LineFits(r.products[n], rows, n, products))
        && r.paymentMethods.Keys == MethodsOf(day)
        && (forall m :: m in r.paymentMethods ==>
              r.paymentMethods[m] == Bucket(UsdOf(day, m), BsOf(day, m), CountOf(day, m)))
        && r.totals == Totals(SumUsd(day), SumBs(day), |day|)
    {
      var d := if date.Some? && date.value != "" then date.value else today;
      var day := SalesOn(sales, d);
      var rows: seq<ItemRow> := [];
      if |day| > 0 {
        rows := RowsIn(itemRows, IdsOf(day));
      } else {
        assert IdsOf(day) == {};
        RowsInNone(itemRows);
      }
      var stats := ProductStats(rows);
      var lines := ProductLines(stats, rows);
      var buckets := PaymentBuckets(day);
      r := Report(d, lines, buckets, Totals(SumUsd(day), SumBs(day), |day|));
    }

    /** The `productStats` loop: one entry per product name, accumulating
        quantity and subtotals, except for the names `Object.prototype`
        carries, whose lookup finds the inherited member. */
    static method ProductStats(rows: seq<ItemRow>) returns (stats: map<string, Stat>)
      ensures stats.Keys == NamesOf(rows) - PrototypeNames
      ensures forall n :: n in stats ==>
        stats[n] == Stat(SoldOf(rows, n), RevenueUsdOf(rows, n), RevenueBsOf(rows, n))
    {
      stats := map[];
      var i := 0;
      while i < |rows|
        invariant 0 <= i <= |rows|
        invariant stats.Keys == NamesOf(rows[..i]) - PrototypeNames
        invariant forall n :: n in stats ==>
          stats[n] == Stat(SoldOf(rows[..i], n), RevenueUsdOf(rows[..i], n), RevenueBsOf(rows[..i], n))
      {
        var item := rows[i].item;
        assert rows[..i + 1][..i] == rows[..i];
        if item.productName in PrototypeNames {
          // `productStats[name]` is the inherited member: the sums go there
          i := i + 1;
          continue;
        }
        if item.productName !in stats {
          AbsentNameSellsNothing(rows[..i], item.productName);
          stats := stats[item.productName := Stat(0, 0, 0)];
        }
        var st := stats[item.productName];
        stats := stats[item.productName := Stat(st.sold + item.quantity, st.revenueUsd + item.subtotalUsd,
                                                st.revenueBs + item.subtotalBs)];
        i := i + 1;
      }
      assert rows[..i] == rows;
    }

    /** The loop over the grouped products that looks up each one's current
        stock by name. */
    method ProductLines(stats: map<string, Stat>, ghost rows: seq<ItemRow>) returns (lines: map<string, ProductLine>)
      requires forall n :: n in stats ==>
        stats[n] == Stat(SoldOf(rows, n), RevenueUsdOf(rows, n), RevenueBsOf(rows, n))
      ensures lines.Keys == stats.Keys
      ensures forall n :: n in lines ==> LineFits(lines[n], rows, n, products)
    {
      lines := map[];
      var todo := stats.Keys;
      while todo != {}
        invariant todo <= stats.Keys && lines.Keys == stats.Keys - todo
        invariant forall n :: n in lines ==> LineFits(lines[n], rows, n, products)
        decreases todo
      {
        var n :| n in todo;
        var final := 0;
        if p :| p in products && products[p].name == n {
          final := products[p].quantity;
        }
        var st := stats[n];
        lines := lines[n := ProductLine(st.sold, st.revenueUsd, st.revenueBs, final, final + st.sold)];
        todo := todo - {n};
      }
    }

    /** The `paymentMethods` loop: one bucket per method used that day. */
    static method PaymentBuckets(day: seq<SaleRow>) returns (buckets: map<PaymentMethod, Bucket>)
      ensures buckets.Keys == MethodsOf(day)
      ensures forall m :: m in buckets ==> buckets[m] == Bucket(UsdOf(day, m), BsOf(day, m), CountOf(day, m))
    {
      buckets := map[];
      var i := 0;
      while i < |day|
        invariant 0 <= i <= |day|
        invariant buckets.Keys == MethodsOf(day[..i])
        invariant forall m :: m in buckets ==>
          buckets[m] == Bucket(UsdOf(day[..i], m), BsOf(day[..i], m), CountOf(day[..i], m))
      {
        var sale := day[i];
        assert day[..i + 1][..i] == day[..i];
        if sale.paymentMethod !in buckets {
          AbsentMethodCountsNothing(day[..i], sale.paymentMethod);
          buckets := buckets[sale.paymentMethod := Bucket(0, 0, 0)];
        }
        var b := buckets[sale.paymentMethod];
        buckets := buckets[sale.paymentMethod := Bucket(b.usd + sale.totalUsd, b.bs + sale.totalBs, b.count + 1)];
        i := i + 1;
      }
      assert day[..i] == day;
    }

    /** The loop that stores each line of sale `t` and takes its quantity
        out of stock, up to the first line whose product does not exist,
        whose insert is refused; `false` when there is such a line. */
    method InsertItems(t: int, items: seq<SaleItem>) returns (ok: bool)
      requires Valid() && t < nextSaleId
      modifies this
      ensures Valid()
      ensures var k := FirstUnknown(old(products), items);
        && (ok <==> k == |items|)
        && itemRows == old(itemRows) + RowsOf(t, items[..k])
        && products == Decremented(old(products), items[..k])
      ensures sales == old(sales) && nextSaleId == old(nextSaleId)
    {
      ghost var k := FirstUnknown(products, items);
      ghost var p0, r0 := products, itemRows;
      var i := 0;
      while i < |items|
        invariant 0 <= i <= k
        invariant itemRows == r0 + RowsOf(t, items[..i])
        invariant products == Decremented(p0, items[..i])
        invariant sales == old(sales) && nextSaleId == old(nextSaleId)
        invariant Valid()
      {
        ok := InsertNext(t, items, i, p0, r0);
        if !ok {
          return;
        }
        i := i + 1;
      }
      assert items[..i] == items;
      return true;
    }

    /** The turn of the loop for line `i`, stated on the rows and stock the
        loop has reached: `false`, with nothing written, exactly at the first
        unknown product. */
    method InsertNext(t: int, items: seq<SaleItem>, i: nat, ghost p0: map<int, Product>, ghost r0: seq<ItemRow>)
        returns (ok: bool)
      requires Valid() && t < nextSaleId
      requires i < |items| && i <= FirstUnknown(p0, items)
      requires itemRows == r0 + RowsOf(t, items[..i]) && products == Decremented(p0, items[..i])
      modifies this
      ensures Valid()
      ensures ok <==> i < FirstUnknown(p0, items)
      ensures ok ==> itemRows == r0 + RowsOf(t, items[..i + 1]) && products == Decremented(p0, items[..i + 1])
      ensures !ok ==> itemRows == old(itemRows) && products == old(products)
      ensures sales == old(sales) && nextSaleId == old(nextSaleId)
    {
      DecrementedAt(p0, items[..i], items[i].productId);
      DecrementedStep(p0, items, i);
      RowsOfStep(t, items, i);
      FirstUnknownAt(p0, items, i);
      ok := InsertItem(t, items[i]);
    }

    /** One turn of the loop: the line's row is stored and its quantity taken
        out of stock; `false`, with nothing written, when its product does
        not exist. */
    method InsertItem(t: int, it: SaleItem) returns (ok: bool)
      requires Valid() && t < nextSaleId
      modifies this
      ensures Valid()
      ensures ok <==> it.productId in old(products)
      ensures ok ==> itemRows == old(itemRows) + [ItemRow(t, it)]
      ensures !ok ==> itemRows == old(itemRows)
      ensures products == AddQuantity(old(products), it.productId, -it.quantity)
      ensures sales == old(sales) && nextSaleId == old(nextSaleId)
    {
      if it.productId !in products {
        // the insert breaks `FOREIGN KEY (product_id) REFERENCES products(id)`
        return false;
      }
      itemRows := itemRows + [ItemRow(t, it)];
      products := AddQuantity(products, it.productId, -it.quantity);
      return true;
    }

    /** DELETE /sales/:id. Puts back each line's quantity, then deletes the
        sale and, by cascade, its lines. An unknown id changes nothing. */
    method Cancel(saleId: int) returns (status: Status)
      requires Valid()
      modifies this
      ensures Valid()
      ensures status == Ok
      ensures products == Restored(old(products), RowsFor(old(itemRows), saleId))
      ensures sales == SalesWithout(old(sales), saleId)
      ensures itemRows == RowsWithout(old(itemRows), saleId)
      ensures nextSaleId == old(nextSaleId)
    {
      var rows := RowsFor(itemRows, saleId);
      var i := 0;
      while i < |rows|
        invariant 0 <= i <= |rows|
        invariant products == Restored(old(products), rows[..i])
        invariant sales == old(sales) && itemRows == old(itemRows) && nextSaleId == old(nextSaleId)
      {
        assert rows[..i + 1][..i] == rows[..i];
        products := AddQuantity(products, rows[i].item.productId, rows[i].item.quantity);
        i := i + 1;
      }
      assert rows[..i] == rows;
      SalesWithoutShrinks(sales, saleId);
      RowsWithoutShrinks(itemRows, saleId);
      sales := SalesWithout(sales, saleId);
      itemRows := RowsWithout(itemRows, saleId);
      status := Ok;
    }
  }

  /** The `reduce` over a sale's lines that totals their subtotals. */
  method SaleTotals(items: seq<SaleItem>) returns (usd: int, bs: int)
    ensures usd == TotalUsd(items) && bs == TotalBs(items)
  {
    usd, bs := 0, 0;
    var i := 0;
    while i < |items|
      invariant 0 <= i <= |items|
      invariant usd == TotalUsd(items[..i]) && bs == TotalBs(items[..i])
    {
      assert items[..i + 1][..i] == items[..i];
      usd := usd + items[i].subtotalUsd;
      bs := bs + items[i].subtotalBs;
      i := i + 1;
    }
    assert items[..i] == items;
  }

  /** Recording a valid sale and then cancelling it restores every product's
      quantity and leaves the sales and their lines as they were. */
  method RecordThenCancel(store: SalesStore, req: SaleRequest, inventory: int, caller: Caller, today: string)
    requires store.Valid() && ValidRequest(req) && req.exchangeRate.Some?
    modifies store
    ensures store.Valid()
    ensures store.products == old(store.products)
    ensures store.sales == old(store.sales)
    ensures store.itemRows == old(store.itemRows)
  {
    ghost var p0, s0, r0 := store.products, store.sales, store.itemRows;
    var t := store.nextSaleId;
    var status, number, saleId := store.Record(req, Some(inventory), caller, today);
    var items := req.items.value[..FirstUnknown(p0, req.items.value)];
    assert store.itemRows == r0 + RowsOf(t, items);
    assert store.products == Decremented(p0, items);
    assert forall r :: r in r0 ==> r.saleId != t;
    OtherSalesRows(r0, t);
    OwnSaleRows(t, items);
    RowsForAppend(r0, RowsOf(t, items), t);
    assert RowsFor(store.itemRows, t) == RowsOf(t, items) by {
      assert [] + RowsOf(t, items) == RowsOf(t, items);
    }
    assert RowsWithout(store.itemRows, t) == r0 by {
      assert r0 + [] == r0;
    }
    ghost var newSale := SaleRow(t, SaleNumber.Next(LatestNumber(s0, inventory)), today,
                                 if req.customerName.Some? then req.customerName.value else "",
                                 req.paymentMethod.value, TotalUsd(req.items.value), TotalBs(req.items.value),
                                 req.exchangeRate.value, inventory, caller.id);
    assert store.sales == s0 + [newSale];
    assert SalesWithout(store.sales, t) == s0 by {
      assert forall s :: s in s0 ==> s.id != t;
      SalesWithoutAbsent(s0, t);
      SalesAppendWithout(s0, newSale, t);
    }
    status := store.Cancel(t);
    assert store.products == Restored(Decremented(p0, items), RowsOf(t, items));
    RecordThenCancelRestores(p0, t, items);
  }

  /** Cancelling a sale that does not exist changes no quantity, no sale and
      no line. */
  lemma CancelUnknownChangesNothing(products: map<int, Product>, sales: seq<SaleRow>, rows: seq<ItemRow>, id: int)
    requires forall s :: s in sales ==> s.id != id
    requires forall r :: r in rows ==> r.saleId != id
    ensures Restored(products, RowsFor(rows, id)) == products
    ensures SalesWithout(sales, id) == sales
    ensures RowsWithout(rows, id) == rows
  {
    OtherSalesRows(rows, id);
    SalesWithoutAbsent(sales, id);
  }

  lemma {:induction false} SalesAppendWithout(sales: seq<SaleRow>, s: SaleRow, id: int)
    requires s.id == id
    ensures SalesWithout(sales + [s], id) == SalesWithout(sales, id)
  {
    if sales == [] {
      assert [s][1..] == [];
    } else {
      assert (sales + [s])[1..] == sales[1..] + [s];
      SalesAppendWithout(sales[1..], s, id);
    }
  }
}
