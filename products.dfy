/** The `products` table that sales, cash closes and shifts read and write. */
module Products {
  import opened Common

  /** A row of `products`, reduced to what the core reads: on-hand quantity
      in units, the packaging factor (absent or 0 when not set) and the unit
      price in cents. */
  datatype Product = Product(name: string, quantity: int, unitsPerBox: Option<int>, unitPrice: int)

  /** `UPDATE products SET quantity = quantity + delta WHERE id = id`. */
  function AddQuantity(products: map<int, Product>, id: int, delta: int): (r: map<int, Product>)
    ensures r.Keys == products.Keys
    ensures forall p :: p in products && p != id ==> r[p] == products[p]
    ensures id in products ==> r[id] == products[id].(quantity := products[id].quantity + delta)
  {
    if id in products then products[id := products[id].(quantity := products[id].quantity + delta)]
    else products
  }

  /** `UPDATE products SET quantity = q WHERE id = id`. */
  function SetQuantity(products: map<int, Product>, id: int, q: int): (r: map<int, Product>)
    ensures r.Keys == products.Keys
    ensures forall p :: p in products && p != id ==> r[p] == products[p]
    ensures id in products ==> r[id] == products[id].(quantity := q)
  {
    if id in products then products[id := products[id].(quantity := q)]
    else products
  }

  /** The table with only the quantities changed. */
  predicate SameButQuantities(a: map<int, Product>, b: map<int, Product>) {
    && a.Keys == b.Keys
    && forall p :: p in a ==> b[p] == a[p].(quantity := b[p].quantity)
  }
}
