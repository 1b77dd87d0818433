/** The cart of the new-sale form: lines are added against the stock the
    client loaded, so that no product is put in the cart beyond its stock. */
module SalesCart {
  import opened Common
  import opened Sales

  /** A product as the inventory listing returns it; the price may be
      missing, which `parseFloat(...) || 0` reads as 0. */
  datatype CatalogProduct = CatalogProduct(id: int, name: string, quantity: int, unitPrice: Option<int>)

  function ProductId(p: CatalogProduct): int {
    p.id
  }

  /** `products.find(p => p.id === id)`: the first product with that id. */
  function Find(products: seq<CatalogProduct>, id: int): Option<CatalogProduct> {
    FindById(products, ProductId, id)
  }

  /** The line `addItem` appends for `qty` units of `p` at exchange rate `rate`. */
  function Line(p: CatalogProduct, qty: int, rate: int): (item: SaleItem)
    ensures item.productId == p.id && item.productName == p.name && item.quantity == qty
    ensures item.unitPriceUsd == OrZero(p.unitPrice)
    ensures item.subtotalUsd == item.unitPriceUsd * qty
    ensures item.unitPriceBs == item.unitPriceUsd * rate
    ensures item.subtotalBs == item.unitPriceBs * qty
  {
    var usd := OrZero(p.unitPrice);
    var bs := usd * rate;
    SaleItem(p.id, p.name, qty, usd, bs, usd * qty, bs * qty)
  }

  lemma {:induction false} QtyOfSplit(a: seq<SaleItem>, b: seq<SaleItem>, id: int)
    ensures QtyOf(a + b, id) == QtyOf(a, id) + QtyOf(b, id)
  {
    if b == [] {
      assert a + b == a;
    } else {
      assert (a + b)[..|a + b| - 1] == a + b[..|b| - 1];
      QtyOfSplit(a, b[..|b| - 1], id);
    }
  }

  lemma {:induction false} QtyOfPositive(items: seq<SaleItem>, id: int)
    requires forall i :: 0 <= i < |items| ==> items[i].quantity > 0
    ensures QtyOf(items, id) >= 0
    ensures QtyOf(items, id) == 0 <==> forall i :: 0 <= i < |items| ==> items[i].productId != id
  {
    if items != [] {
      QtyOfPositive(items[..|items| - 1], id);
    }
  }

  /** Removing a line never raises the quantity of any product in the cart. */
  lemma RemoveAtLowers(items: seq<SaleItem>, i: int, id: int)
    requires forall j :: 0 <= j < |items| ==> items[j].quantity > 0
    ensures QtyOf(RemoveAt(items, i), id) <= QtyOf(items, id)
  {
    if 0 <= i < |items| {
      assert items == items[..i] + [items[i]] + items[i + 1..];
      QtyOfSplit(items[..i] + [items[i]], items[i + 1..], id);
      QtyOfSplit(items[..i], [items[i]], id);
      QtyOfSplit(items[..i], items[i + 1..], id);
      assert QtyOf([items[i]], id) >= 0 by {
        assert [items[i]][..0] == [];
      }
    }
  }

  class Cart {
    /** The inventory the page loaded. */
    var products: seq<CatalogProduct>
    /** Bs per USD. */
    var exchangeRate: int
    var customerName: string
    var paymentMethod: PaymentMethod
    /** `formData.items`. */
    var items: seq<SaleItem>
    /** The product chosen in the selector, if any. */
    var selected: Option<int>
    var quantity: int

    /** Every line has a positive quantity, and the cart holds no more of a
        product than the stock of the product `find` returns for its id. */
    ghost predicate Valid()
      reads this
    {
      && (forall i :: 0 <= i < |items| ==> items[i].quantity > 0)
      && (forall id :: QtyOf(items, id) > 0 ==> Find(products, id).Some? && QtyOf(items, id) <= Find(products, id).value.quantity)
    }

    constructor (catalog: seq<CatalogProduct>, rate: int)
      ensures Valid()
      ensures products == catalog && exchangeRate == rate && items == [] && selected == None && quantity == 1
      ensures customerName == "" && paymentMethod == PagoMovil
    {
      products := catalog;
      exchangeRate := rate;
      customerName := "";
      paymentMethod := PagoMovil;
      items := [];
      selected := None;
      quantity := 1;
    }

    /** `getMaxStock`: what remains of the selected product's stock once the
        cart's lines of it are counted, and 999 when nothing known is chosen. */
    function MaxStock(): (m: int)
      reads this
      ensures m >= 0
      ensures selected.None? || Find(products, selected.value).None? ==> m == 999
      ensures selected.Some? && Find(products, selected.value).Some? ==>
        var p := Find(products, selected.value).value;
        (m == 0 <==> p.quantity <= QtyOf(items, p.id)) &&
        (m > 0 ==> QtyOf(items, p.id) + m == p.quantity)
    {
      if selected.None? then 999
      else match Find(products, selected.value)
        case None => 999
        case Some(p) =>
          var left := p.quantity - QtyOf(items, p.id);
          if left > 0 then left else 0
    }

    /** `addItem` appends a line exactly when a known product is chosen and
        the quantity is positive and within the remaining stock. */
    predicate CanAdd()
      reads this
    {
      selected.Some? && Find(products, selected.value).Some? && 0 < quantity <= MaxStock()
    }

    /** The product selector's `onChange`: only the choice changes; the
        quantity typed before is kept, even beyond the new product's stock. */
    method SelectProduct(choice: Option<int>)
      requires Valid()
      modifies this
      ensures Valid()
      ensures selected == choice && quantity == old(quantity)
      ensures items == old(items) && products == old(products) && exchangeRate == old(exchangeRate)
      ensures customerName == old(customerName) && paymentMethod == old(paymentMethod)
    {
      selected := choice;
    }

    /** The quantity input's `onChange`: the typed number, 1 when it is not a
        number or is 0, capped at `getMaxStock`. Once a known product is
        chosen, the line can then be added exactly when the typed number and
        the remaining stock are both positive. */
    method ChangeQuantity(typed: Option<int>)
      requires Valid()
      modifies this
      ensures Valid()
      ensures quantity <= MaxStock()
      ensures quantity == OrOne(typed) || quantity == MaxStock()
      ensures OrOne(typed) <= MaxStock() ==> quantity == OrOne(typed)
      ensures selected.Some? && Find(products, selected.value).Some? ==>
        (CanAdd() <==> OrOne(typed) > 0 && MaxStock() > 0)
      ensures selected == old(selected) && items == old(items) && products == old(products)
      ensures exchangeRate == old(exchangeRate)
      ensures customerName == old(customerName) && paymentMethod == old(paymentMethod)
      ensures MaxStock() == old(MaxStock())
    {
      var val := OrOne(typed);
      var max := MaxStock();
      quantity := if val < max then val else max;
    }

    /** `addItem`. */
    method AddItem() returns (added: bool)
      requires Valid()
      modifies this
      ensures Valid()
      ensures products == old(products) && exchangeRate == old(exchangeRate)
      ensures added <==> old(CanAdd())
      ensures !added ==> items == old(items) && selected == old(selected) && quantity == old(quantity)
      ensures added ==>
        items == old(items) + [Line(Find(products, old(selected).value).value, old(quantity), exchangeRate)] &&
        selected == None && quantity == 1
      ensures customerName == old(customerName) && paymentMethod == old(paymentMethod)
    {
      if selected.None? || quantity <= 0 {
        return false;
      }
      var found := Find(products, selected.value);
      if found.None? {
        return false;
      }
      var product := found.value;
      var alreadyAdded := QtyOf(items, product.id);
      var available := product.quantity - alreadyAdded;
      if available <= 0 {
        return false;
      }
      if quantity > available {
        return false;
      }
      var line := Line(product, quantity, exchangeRate);
      forall id | true
        ensures QtyOf(items + [line], id) == QtyOf(items, id) + (if id == product.id then quantity else 0)
      {
        assert (items + [line])[..|items|] == items;
      }
      items := items + [line];
      selected := None;
      quantity := 1;
      added := true;
    }

    /** `removeItem`: drops the line at `index`, keeping the others in order. */
    method RemoveItem(index: int)
      requires Valid()
      modifies this
      ensures Valid()
      ensures items == RemoveAt(old(items), index)
      ensures products == old(products) && exchangeRate == old(exchangeRate)
      ensures selected == old(selected) && quantity == old(quantity)
      ensures customerName == old(customerName) && paymentMethod == old(paymentMethod)
    {
      forall id | true
        ensures QtyOf(RemoveAt(items, index), id) <= QtyOf(items, id)
      {
        RemoveAtLowers(items, index, id);
      }
      items := RemoveAt(items, index);
    }

    /** `handleSubmit`: an empty cart is refused before anything is sent;
        otherwise the form is posted, and it is reset when the server accepts. */
    method HandleSubmit(accepted: bool) returns (sent: Option<SaleRequest>)
      requires Valid()
      modifies this
      ensures Valid()
      ensures old(items) == [] <==> sent.None?
      ensures sent.Some? ==> ValidRequest(sent.value)
      ensures sent.Some? ==>
        sent.value == SaleRequest(Some(old(customerName)), Some(old(paymentMethod)), Some(old(items)), Some(exchangeRate))
      ensures sent.Some? && accepted ==> items == [] && customerName == "" && paymentMethod == PagoMovil
      ensures sent.None? || !accepted ==>
        items == old(items) && customerName == old(customerName) && paymentMethod == old(paymentMethod)
      ensures products == old(products) && exchangeRate == old(exchangeRate)
      ensures selected == old(selected) && quantity == old(quantity)
    {
      if |items| == 0 {
        return None;
      }
      sent := Some(SaleRequest(Some(customerName), Some(paymentMethod), Some(items), Some(exchangeRate)));
      if accepted {
        customerName := "";
        paymentMethod := PagoMovil;
        items := [];
      }
    }
  }

  /** `getTotals` sums the same subtotals the server adds up when it records
      the cart: adding a line raises each total by that line's subtotal. */
  lemma TotalsGrow(items: seq<SaleItem>, line: SaleItem)
    ensures TotalUsd(items + [line]) == TotalUsd(items) + line.subtotalUsd
    ensures TotalBs(items + [line]) == TotalBs(items) + line.subtotalBs
  {
    TotalsSplit(items, [line]);
  }

  /** Removing the line at `index` lowers each total by exactly that line's
      subtotal; an index outside the cart changes neither. */
  lemma TotalsShrink(items: seq<SaleItem>, index: int)
    ensures 0 <= index < |items| ==>
      TotalUsd(RemoveAt(items, index)) == TotalUsd(items) - items[index].subtotalUsd &&
      TotalBs(RemoveAt(items, index)) == TotalBs(items) - items[index].subtotalBs
    ensures !(0 <= index < |items|) ==>
      TotalUsd(RemoveAt(items, index)) == TotalUsd(items) && TotalBs(RemoveAt(items, index)) == TotalBs(items)
  {
    if 0 <= index < |items| {
      TotalsAround(items, index);
    }
  }

  /** The in-range case of `TotalsShrink`, by induction on the lines after
      the removed one. */
  lemma {:induction false} TotalsAround(items: seq<SaleItem>, index: nat)
    requires index < |items|
    ensures TotalUsd(items) == TotalUsd(RemoveAt(items, index)) + items[index].subtotalUsd
    ensures TotalBs(items) == TotalBs(RemoveAt(items, index)) + items[index].subtotalBs
  {
    var init := items[..|items| - 1];
    if index < |items| - 1 {
      var rest := RemoveAt(init, index);
      assert RemoveAt(items, index) == rest + [items[|items| - 1]];
      assert (rest + [items[|items| - 1]])[..|rest|] == rest;
      TotalsAround(init, index);
    } else {
      assert RemoveAt(items, index) == init;
    }
  }
}
