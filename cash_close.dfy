/** The cash-close handlers behind `/cash-close`: saving a physical count,
    which records each product's difference and overwrites its quantity
    with the count, and the history of saved closes. */
module CashClose {
  import opened Common
  import opened Products

  /** An item of a save request, as the count form builds it. */
  datatype CloseItem = CloseItem(productId: int, productName: string, systemQuantity: int,
                                 physicalQuantity: int, unitsPerBox: Option<int>)

  /** A row of `cash_closes`. */
  datatype CloseRecord = CloseRecord(date: string, productId: int, productName: string, systemQuantity: int,
                                     physicalQuantity: int, difference: int, unitsPerBox: int, createdBy: int)

  /** The rows the saving loop inserts for `items`. */
  function RecordsOf(date: string, items: seq<CloseItem>, author: int): (rs: seq<CloseRecord>)
    ensures |rs| == |items|
  {
    if items == [] then []
    else RecordsOf(date, items[..|items| - 1], author) + [RecordOf(date, items[|items| - 1], author)]
  }

  /** The row the saving loop inserts for item `it`: the difference is
      system − physical, and an absent box size is stored as 1. */
  function RecordOf(date: string, it: CloseItem, author: int): CloseRecord {
    CloseRecord(date, it.productId, it.productName, it.systemQuantity, it.physicalQuantity,
                it.systemQuantity - it.physicalQuantity, OrOne(it.unitsPerBox), author)
  }

  /** Record `i` is the row of item `i`. */
  lemma {:induction false} RecordsOfAt(date: string, items: seq<CloseItem>, author: int)
    ensures forall i :: 0 <= i < |items| ==> RecordsOf(date, items, author)[i] == RecordOf(date, items[i], author)
  {
    if items != [] {
      RecordsOfAt(date, items[..|items| - 1], author);
    }
  }

  /** Saving one more item appends its row and overwrites its product. */
  lemma SaveStep(products: map<int, Product>, date: string, items: seq<CloseItem>, author: int, i: nat)
    requires i < |items|
    ensures RecordsOf(date, items[..i + 1], author) == RecordsOf(date, items[..i], author) + [RecordOf(date, items[i], author)]
    ensures Overwritten(products, items[..i + 1]) ==
      SetQuantity(Overwritten(products, items[..i]), items[i].productId, items[i].physicalQuantity)
  {
    assert items[..i + 1][..i] == items[..i];
  }

  /** The stock after the saving loop has overwritten the quantities of `items`. */
  function Overwritten(products: map<int, Product>, items: seq<CloseItem>): map<int, Product> {
    if items == [] then products
    else
      var it := items[|items| - 1];
      SetQuantity(Overwritten(products, items[..|items| - 1]), it.productId, it.physicalQuantity)
  }

  /** The physical count a batch finally gives product `id`: that of its
      last item for `id`, if any. */
  function LastCount(items: seq<CloseItem>, id: int): (r: Option<int>)
    ensures r.None? <==> forall i :: 0 <= i < |items| ==> items[i].productId != id
    ensures r.Some? ==> exists i :: 0 <= i < |items| && items[i].productId == id && items[i].physicalQuantity == r.value
  {
    if items == [] then None
    else if items[|items| - 1].productId == id then Some(items[|items| - 1].physicalQuantity)
    else LastCount(items[..|items| - 1], id)
  }

  /** After a save, a listed product's quantity is its (last) submitted
      count, whatever it was before; an unlisted product is unchanged, and
      only quantities change. */
  lemma {:induction false} OverwrittenAt(products: map<int, Product>, items: seq<CloseItem>, id: int)
    ensures SameButQuantities(products, Overwritten(products, items))
    ensures id in products && LastCount(items, id).Some? ==>
      Overwritten(products, items)[id] == products[id].(quantity := LastCount(items, id).value)
    ensures id in products && LastCount(items, id).None? ==>
      Overwritten(products, items)[id] == products[id]
  {
    if items != [] {
      var init := items[..|items| - 1];
      OverwrittenAt(products, init, id);
    }
  }

  /** Saving the same batch twice leaves the quantities as saving it once. */
  lemma SaveIsIdempotent(products: map<int, Product>, items: seq<CloseItem>)
    ensures Overwritten(Overwritten(products, items), items) == Overwritten(products, items)
  {
    var once := Overwritten(products, items);
    var twice := Overwritten(once, items);
    OverwrittenAt(products, items, 0);
    OverwrittenAt(once, items, 0);
    forall id | id in products
      ensures twice[id] == once[id]
    {
      OverwrittenAt(products, items, id);
      OverwrittenAt(once, items, id);
    }
  }

  // ---------------------------------------------------------------------
  // History: GROUP BY close_date, created_by

  datatype GroupKey = GroupKey(date: string, createdBy: int)
  datatype Group = Group(totalDifference: int, productsCount: nat)

  function KeyOf(r: CloseRecord): GroupKey {
    GroupKey(r.date, r.createdBy)
  }

  /** `SUM(ABS(difference))` over the group `k`. */
  function AbsSum(records: seq<CloseRecord>, k: GroupKey): int {
    if records == [] then 0
    else
      var last := records[|records| - 1];
      AbsSum(records[..|records| - 1], k) + (if KeyOf(last) == k then Abs(last.difference) else 0)
  }

  /** The product ids of group `k`, whose number is `COUNT(DISTINCT product_id)`. */
  function ProductsIn(records: seq<CloseRecord>, k: GroupKey): set<int> {
    set r | r in records && KeyOf(r) == k :: r.productId
  }

  /** The history, ignoring its `ORDER BY close_date DESC LIMIT 30`. */
  function History(records: seq<CloseRecord>): map<GroupKey, Group> {
    map r | r in records :: KeyOf(r) := Group(AbsSum(records, KeyOf(r)), |ProductsIn(records, KeyOf(r))|)
  }

  lemma {:induction false} AbsSumZero(records: seq<CloseRecord>, k: GroupKey)
    ensures AbsSum(records, k) >= 0
    ensures AbsSum(records, k) == 0 <==> forall i :: 0 <= i < |records| && KeyOf(records[i]) == k ==> records[i].difference == 0
  {
    if records != [] {
      AbsSumZero(records[..|records| - 1], k);
    }
  }

  /** Every history group covers at least one product, its total difference
      is never negative, and it is 0 exactly when every count of the group
      matched the system quantity. */
  lemma HistoryGroups(records: seq<CloseRecord>, k: GroupKey)
    requires k in History(records)
    ensures History(records)[k].productsCount >= 1
    ensures History(records)[k].totalDifference >= 0
    ensures History(records)[k].totalDifference == 0 <==>
      forall i :: 0 <= i < |records| && KeyOf(records[i]) == k ==> records[i].difference == 0
  {
    var r :| r in records && KeyOf(r) == k;
    assert r.productId in ProductsIn(records, k);
    AbsSumZero(records, k);
  }

  lemma {:induction false} AbsSumSplit(a: seq<CloseRecord>, b: seq<CloseRecord>, k: GroupKey)
    ensures AbsSum(a + b, k) == AbsSum(a, k) + AbsSum(b, k)
  {
    if b == [] {
      assert a + b == a;
    } else {
      assert (a + b)[..|a + b| - 1] == a + b[..|b| - 1];
      AbsSumSplit(a, b[..|b| - 1], k);
    }
  }

  /** Σ|system − physical| over a batch. */
  function BatchDifference(items: seq<CloseItem>): int {
    if items == [] then 0
    else BatchDifference(items[..|items| - 1]) + Abs(items[|items| - 1].systemQuantity - items[|items| - 1].physicalQuantity)
  }

  /** A save adds the batch's total absolute difference to the history group
      of its date and author, and leaves every other group's total alone. */
  lemma {:induction false} SaveAddsToGroup(records: seq<CloseRecord>, date: string, items: seq<CloseItem>, author: int, k: GroupKey)
    ensures AbsSum(records + RecordsOf(date, items, author), k) ==
      AbsSum(records, k) + (if k == GroupKey(date, author) then BatchDifference(items) else 0)
  {
    AbsSumSplit(records, RecordsOf(date, items, author), k);
    BatchInGroup(date, items, author, k);
  }

  lemma {:induction false} BatchInGroup(date: string, items: seq<CloseItem>, author: int, k: GroupKey)
    ensures AbsSum(RecordsOf(date, items, author), k) == (if k == GroupKey(date, author) then BatchDifference(items) else 0)
  {
    if items != [] {
      var rs := RecordsOf(date, items, author);
      assert rs[..|rs| - 1] == RecordsOf(date, items[..|items| - 1], author);
      BatchInGroup(date, items[..|items| - 1], author, k);
    }
  }

  // ---------------------------------------------------------------------

  class CashCloseStore {
    var products: map<int, Product>
    var records: seq<CloseRecord>

    constructor (stock: map<int, Product>)
      ensures products == stock && records == []
    {
      products := stock;
      records := [];
    }

    /** POST /cash-close. A missing or empty item list is refused before any
        write. Otherwise each item gets a record dated `close_date` (today
        when absent or empty) and its product's quantity is set to the count.
        Nothing else of the request is read. */
    method Save(items: Option<seq<CloseItem>>, closeDate: Option<string>, today: string, caller: Caller)
      returns (status: Status)
      modifies this
      ensures items.None? || |items.value| == 0 ==>
        status == BadRequest && products == old(products) && records == old(records)
      ensures items.Some? && |items.value| > 0 ==>
        var date := if closeDate.Some? && closeDate.value != "" then closeDate.value else today;
        && status == Created
        && records == old(records) + RecordsOf(date, items.value, caller.id)
        && products == Overwritten(old(products), items.value)
    {
      if items.None? || |items.value| == 0 {
        return BadRequest;
      }
      var date := if closeDate.Some? && closeDate.value != "" then closeDate.value else today;
      var batch := items.value;
      var i := 0;
      while i < |batch|
        invariant 0 <= i <= |batch|
        invariant records == old(records) + RecordsOf(date, batch[..i], caller.id)
        invariant products == Overwritten(old(products), batch[..i])
      {
        var it := batch[i];
        SaveStep(old(products), date, batch, caller.id, i);
        var difference := it.systemQuantity - it.physicalQuantity;
        records := records + [CloseRecord(date, it.productId, it.productName, it.systemQuantity,
                                          it.physicalQuantity, difference, OrOne(it.unitsPerBox), caller.id)];
        products := SetQuantity(products, it.productId, it.physicalQuantity);
        i := i + 1;
      }
      assert batch[..i] == batch;
      return Created;
    }
  }
}
