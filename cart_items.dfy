/**
 * The cart_items table: one row per (cart, product) pair with its quantity.
 *
 * The table is a sequence. A new row goes at the end and an updated row keeps its
 * place. This order is a modelling choice: the database returns a cart's rows
 * in no promised order, and no property proved here depends on it. The
 * functions here are the table operations the cart code relies on:
 * `find_by`/`find_or_initialize_by` (FindItem), saving a row (Upsert),
 * destroying one row (RemoveAt), the cascade of a cart's destruction (Drop), and
 * the sum of quantity times price over a cart's rows (Total).
 */
module CartItems {
  import opened Wrappers
  import opened Catalog

  type CartId = nat

  /** A row of the cart_items table. */
  datatype CartItem = CartItem(cartId: CartId, productId: ProductId, quantity: int)

  /** Two rows that belong to the same cart and reference the same product. */
  predicate SameKey(a: CartItem, b: CartItem) {
    a.cartId == b.cartId && a.productId == b.productId
  }

  /** At most one row per (cart, product) pair. */
  predicate Unique(items: seq<CartItem>) {
    forall i, j :: 0 <= i < j < |items| ==> !SameKey(items[i], items[j])
  }

  /** Every row references a product of the catalog. */
  predicate Priced(items: seq<CartItem>, catalog: Products) {
    forall i :: 0 <= i < |items| ==> items[i].productId in catalog
  }

  /**
   * What the database holds at rest: unique rows, each referencing an existing
   * cart and an existing product, each with a positive quantity (rows that fail
   * the `quantity > 0` validation are never saved).
   */
  predicate Persisted(items: seq<CartItem>, carts: set<CartId>, catalog: Products) {
    && Unique(items)
    && Priced(items, catalog)
    && forall i :: 0 <= i < |items| ==> items[i].quantity > 0 && items[i].cartId in carts
  }

  // ---------------------------------------------------------------------------
  // Lookup

  /** `cart.cart_items.find_by(product: p)`: the position of the row of cart `c` for product `p`. */
  function FindItem(items: seq<CartItem>, c: CartId, p: ProductId): (r: Option<nat>)
    ensures r.Some? ==> r.value < |items| && items[r.value].cartId == c && items[r.value].productId == p
    ensures r.None? ==> forall i :: 0 <= i < |items| ==> !(items[i].cartId == c && items[i].productId == p)
    decreases |items|
  {
    if items == [] then None
    else
      var n := |items| - 1;
      if items[n].cartId == c && items[n].productId == p then Some(n)
      else FindItem(items[..n], c, p)
  }

  /** The quantity table of cart `c`: product id to quantity, over the rows of `c`. */
  function Quantities(items: seq<CartItem>, c: CartId): map<ProductId, int>
    decreases |items|
  {
    if items == [] then map[]
    else
      var n := |items| - 1;
      var rest := Quantities(items[..n], c);
      if items[n].cartId == c then rest[items[n].productId := items[n].quantity] else rest
  }

  /** The quantity table and the lookup agree: a product has a quantity exactly when it has a row. */
  lemma {:induction false} QuantitiesFind(items: seq<CartItem>, c: CartId, p: ProductId)
    ensures p in Quantities(items, c) <==> FindItem(items, c, p).Some?
    ensures p in Quantities(items, c) ==> Quantities(items, c)[p] == items[FindItem(items, c, p).value].quantity
    decreases |items|
  {
    if items != [] {
      var n := |items| - 1;
      QuantitiesFind(items[..n], c, p);
    }
  }

  /** A cart that owns no row has an empty quantity table and a zero total. */
  lemma {:induction false} AbsentCart(items: seq<CartItem>, catalog: Products, c: CartId)
    requires Priced(items, catalog)
    requires forall i :: 0 <= i < |items| ==> items[i].cartId != c
    ensures Quantities(items, c) == map[]
    ensures Total(items, catalog, c) == 0
    decreases |items|
  {
    if items != [] {
      AbsentCart(items[..|items| - 1], catalog, c);
    }
  }

  // ---------------------------------------------------------------------------
  // Totals (cart.rb `update_total_price!` and the payload total)

  /** `item.quantity * item.product.price` */
  function LineTotal(item: CartItem, catalog: Products): int
    requires item.productId in catalog
  {
    item.quantity * catalog[item.productId].price
  }

  /** What a row adds to the total of cart `c`. */
  function Contribution(item: CartItem, catalog: Products, c: CartId): int
    requires item.productId in catalog
  {
    if item.cartId == c then LineTotal(item, catalog) else 0
  }

  /** The sum of quantity times price over the rows of cart `c`. */
  function Total(items: seq<CartItem>, catalog: Products, c: CartId): int
    requires Priced(items, catalog)
    decreases |items|
  {
    if items == [] then 0
    else
      var n := |items| - 1;
      Total(items[..n], catalog, c) + Contribution(items[n], catalog, c)
  }

  /** With positive quantities and non-negative prices the total is never negative. */
  lemma {:induction false} TotalNonNegative(items: seq<CartItem>, catalog: Products, c: CartId)
    requires Priced(items, catalog)
    requires forall i :: 0 <= i < |items| ==> items[i].quantity > 0
    ensures Total(items, catalog, c) >= 0
    decreases |items|
  {
    if items != [] {
      var n := |items| - 1;
      TotalNonNegative(items[..n], catalog, c);
      var x := items[n];
      assert x.quantity * catalog[x.productId].price >= 0;
    }
  }

  /** Replacing one row changes the total by the difference of the two rows' contributions. */
  lemma {:induction false} TotalUpdate(items: seq<CartItem>, catalog: Products, k: nat, y: CartItem, c: CartId)
    requires Priced(items, catalog) && k < |items| && y.productId in catalog
    ensures Priced(items[k := y], catalog)
    ensures Total(items[k := y], catalog, c)
         == Total(items, catalog, c) - Contribution(items[k], catalog, c) + Contribution(y, catalog, c)
    decreases |items|
  {
    var n := |items| - 1;
    var r := items[k := y];
    assert Priced(r, catalog);
    if k == n {
      assert r[..n] == items[..n];
    } else {
      assert r[..n] == items[..n][k := y];
      TotalUpdate(items[..n], catalog, k, y, c);
    }
  }

  // ---------------------------------------------------------------------------
  // Saving a row (find_or_initialize_by + save!)

  /**
   * Saving the row of cart `c` for product `p` with quantity `q`: the existing row
   * is updated in place, or a new row is appended when there is none.
   */
  function Upsert(items: seq<CartItem>, c: CartId, p: ProductId, q: int): (r: seq<CartItem>)
    requires Unique(items)
    ensures Unique(r)
    ensures Quantities(r, c) == Quantities(items, c)[p := q]
    ensures forall d :: d != c ==> Quantities(r, d) == Quantities(items, d)
  {
    var y := CartItem(c, p, q);
    match FindItem(items, c, p)
    case None =>
      var r := items + [y];
      assert r[..|items|] == items;
      r
    case Some(k) =>
      UpdateQuantities(items, k, y);
      items[k := y]
  }

  /** Updating a row in place keeps the rows unique and overwrites one entry of one quantity table. */
  lemma UpdateQuantities(items: seq<CartItem>, k: nat, y: CartItem)
    requires Unique(items) && k < |items| && SameKey(items[k], y)
    ensures Unique(items[k := y])
    ensures forall d :: Quantities(items[k := y], d)
                     == if d == y.cartId then Quantities(items, d)[y.productId := y.quantity] else Quantities(items, d)
  {
    forall d ensures Quantities(items[k := y], d)
                  == if d == y.cartId then Quantities(items, d)[y.productId := y.quantity] else Quantities(items, d)
    {
      UpdateQuantitiesAt(items, k, y, d);
    }
  }

  lemma {:induction false} UpdateQuantitiesAt(items: seq<CartItem>, k: nat, y: CartItem, d: CartId)
    requires Unique(items) && k < |items| && SameKey(items[k], y)
    ensures Quantities(items[k := y], d)
         == if d == y.cartId then Quantities(items, d)[y.productId := y.quantity] else Quantities(items, d)
    decreases |items|
  {
    var n := |items| - 1;
    var r := items[k := y];
    if k == n {
      assert r[..n] == items[..n];
    } else {
      assert r[..n] == items[..n][k := y];
      UpdateQuantitiesAt(items[..n], k, y, d);
      assert !SameKey(items[k], items[n]);
    }
  }

  /** The total of a cart after saving its row for `p` with quantity `q`, in terms of the quantity `p` had. */
  lemma UpsertTotal(items: seq<CartItem>, catalog: Products, c: CartId, p: ProductId, q: int, d: CartId)
    requires Unique(items) && Priced(items, catalog) && p in catalog
    ensures Priced(Upsert(items, c, p, q), catalog)
    ensures var before := Quantities(items, c);
            var had := if p in before then before[p] else 0;
            Total(Upsert(items, c, p, q), catalog, d)
              == Total(items, catalog, d) + (if d == c then (q - had) * catalog[p].price else 0)
  {
    var y := CartItem(c, p, q);
    QuantitiesFind(items, c, p);
    match FindItem(items, c, p)
    case None =>
      var r := items + [y];
      assert r[..|items|] == items;
    case Some(k) =>
      TotalUpdate(items, catalog, k, y, d);
      var before := Quantities(items, c);
      assert before[p] * catalog[p].price + (q - before[p]) * catalog[p].price == q * catalog[p].price;
  }

  // ---------------------------------------------------------------------------
  // Destroying one row

  /** The table without its `k`-th row. */
  function RemoveAt(items: seq<CartItem>, k: nat): (r: seq<CartItem>)
    requires k < |items|
    ensures |r| == |items| - 1
    ensures forall i :: 0 <= i < |r| ==> r[i] == items[if i < k then i else i + 1]
  {
    items[..k] + items[k + 1..]
  }

  /** Destroying a row keeps the rest unique and drops exactly one entry of one quantity table. */
  lemma {:induction false} RemoveQuantities(items: seq<CartItem>, k: nat, d: CartId)
    requires Unique(items) && k < |items|
    ensures Unique(RemoveAt(items, k))
    ensures Quantities(RemoveAt(items, k), d)
         == if d == items[k].cartId then Quantities(items, d) - {items[k].productId} else Quantities(items, d)
    decreases |items|
  {
    var n := |items| - 1;
    var r := RemoveAt(items, k);
    var x := items[k];
    if k == n {
      assert r == items[..n];
      if d == x.cartId {
        QuantitiesFind(items[..n], d, x.productId);
        assert x.productId !in Quantities(items[..n], d);
      }
    } else {
      assert r[..n - 1] == RemoveAt(items[..n], k);
      RemoveQuantities(items[..n], k, d);
      assert !SameKey(items[k], items[n]);
    }
  }

  /** Destroying a row lowers its cart's total by that row's line total. */
  lemma {:induction false} RemoveTotal(items: seq<CartItem>, catalog: Products, k: nat, d: CartId)
    requires Priced(items, catalog) && k < |items|
    ensures Priced(RemoveAt(items, k), catalog)
    ensures Total(RemoveAt(items, k), catalog, d) == Total(items, catalog, d) - Contribution(items[k], catalog, d)
    decreases |items|
  {
    var n := |items| - 1;
    var r := RemoveAt(items, k);
    if k == n {
      assert r == items[..n];
    } else {
      assert r[..n - 1] == RemoveAt(items[..n], k);
      RemoveTotal(items[..n], catalog, k, d);
    }
  }

  // ---------------------------------------------------------------------------
  // Cascade (`has_many :cart_items, dependent: :destroy`)

  /** The table without the rows of the carts in `dead`, in the same order. */
  function Drop(items: seq<CartItem>, dead: set<CartId>): (r: seq<CartItem>)
    ensures |r| <= |items|
    ensures forall i :: 0 <= i < |r| ==> r[i].cartId !in dead && r[i] in items
    ensures forall i :: 0 <= i < |items| && items[i].cartId !in dead ==> items[i] in r
    decreases |items|
  {
    if items == [] then []
    else
      var n := |items| - 1;
      var rest := Drop(items[..n], dead);
      if items[n].cartId in dead then rest else rest + [items[n]]
  }

  /** Dropping the dead carts' rows empties their quantity tables and leaves every other one as it was. */
  lemma {:induction false} DropQuantities(items: seq<CartItem>, dead: set<CartId>, d: CartId)
    ensures Quantities(Drop(items, dead), d) == if d in dead then map[] else Quantities(items, d)
    decreases |items|
  {
    if items != [] {
      var n := |items| - 1;
      var rest := Drop(items[..n], dead);
      DropQuantities(items[..n], dead, d);
      if items[n].cartId !in dead {
        assert (rest + [items[n]])[..|rest|] == rest;
      }
    }
  }

  /** Dropping the dead carts' rows zeroes their totals and leaves every other total as it was. */
  lemma {:induction false} DropTotal(items: seq<CartItem>, catalog: Products, dead: set<CartId>, d: CartId)
    requires Priced(items, catalog)
    ensures Priced(Drop(items, dead), catalog)
    ensures Total(Drop(items, dead), catalog, d) == if d in dead then 0 else Total(items, catalog, d)
    decreases |items|
  {
    if items != [] {
      var n := |items| - 1;
      var rest := Drop(items[..n], dead);
      DropTotal(items[..n], catalog, dead, d);
      if items[n].cartId !in dead {
        assert (rest + [items[n]])[..|rest|] == rest;
      }
    }
  }

  /** Dropping carts that own no row leaves the table as it was. */
  lemma {:induction false} DropNothing(items: seq<CartItem>, dead: set<CartId>)
    requires forall i :: 0 <= i < |items| ==> items[i].cartId !in dead
    ensures Drop(items, dead) == items
    decreases |items|
  {
    if items != [] {
      var n := |items| - 1;
      DropNothing(items[..n], dead);
      assert items[..n] + [items[n]] == items;
    }
  }

  /** Dropping two sets of carts one after the other is dropping their union. */
  lemma {:induction false} DropDrop(items: seq<CartItem>, a: set<CartId>, b: set<CartId>)
    ensures Drop(Drop(items, a), b) == Drop(items, a + b)
    decreases |items|
  {
    if items != [] {
      var n := |items| - 1;
      var rest := Drop(items[..n], a);
      DropDrop(items[..n], a, b);
      if items[n].cartId !in a {
        assert (rest + [items[n]])[..|rest|] == rest;
      }
    }
  }

  /** The cascade keeps the table at rest: what remains references only surviving carts. */
  lemma {:induction false} DropPersisted(items: seq<CartItem>, carts: set<CartId>, catalog: Products, dead: set<CartId>)
    requires Persisted(items, carts, catalog)
    ensures Persisted(Drop(items, dead), carts - dead, catalog)
    decreases |items|
  {
    if items != [] {
      var n := |items| - 1;
      var init := items[..n];
      assert Persisted(init, carts, catalog);
      DropPersisted(init, carts, catalog, dead);
      var rest := Drop(init, dead);
      if items[n].cartId !in dead {
        var r := rest + [items[n]];
        forall i | 0 <= i < |rest| ensures !SameKey(rest[i], items[n]) {
          var j :| 0 <= j < |init| && init[j] == rest[i];
          assert !SameKey(items[j], items[n]);
        }
      }
    }
  }
}
