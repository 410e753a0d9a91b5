/**
 * The cart endpoints (app/controllers/carts_controller.rb).
 *
 * Each action first resolves the session's cart (`set_cart`), which may create
 * it, and then reads or changes that cart's items. The session's cart id comes
 * in as `session` and the id of the cart used goes back out as `cartId`, for the
 * caller to keep in the session. Rendering is left to the caller: an action
 * returns the payload it would render, or the error it would answer with.
 */
module CartsController {
  import opened Wrappers
  import opened Catalog
  import opened CartItems
  import opened Carts

  /** Why an action answers without a payload. */
  datatype Error =
    | ProductNotFound            // `Product.find` raised RecordNotFound
    | RecordInvalid              // `save!` failed the `quantity > 0` validation
    | ItemNotFound(message: string)

  /** The message `remove_item` answers with when the product has no item in the cart. */
  const NotInCart: string := "Produto n\U{e3}o est\U{e1} no carrinho"

  /** One entry of the payload's `products`. */
  datatype Line = Line(id: ProductId, name: string, quantity: int, unitPrice: nat, totalPrice: int)

  /** The rendered cart: its id, one line per item, and the total over the items. */
  datatype Payload = Payload(id: CartId, products: seq<Line>, totalPrice: int)

  // ---------------------------------------------------------------------------
  // cart_payload

  /** The payload line of one item. */
  function LineOf(item: CartItem, catalog: Products): Line
    requires item.productId in catalog
  {
    var product := catalog[item.productId];
    Line(product.id, product.name, item.quantity, product.price, item.quantity * product.price)
  }

  /** The lines of cart `c`, one per item, in the order the model keeps the items in. */
  function Lines(items: seq<CartItem>, catalog: Products, c: CartId): (ls: seq<Line>)
    requires Priced(items, catalog)
    ensures |ls| <= |items|
    ensures forall i :: 0 <= i < |ls| ==> ls[i].totalPrice == ls[i].quantity * ls[i].unitPrice
    decreases |items|
  {
    if items == [] then []
    else
      var n := |items| - 1;
      var rest := Lines(items[..n], catalog, c);
      if items[n].cartId == c then rest + [LineOf(items[n], catalog)] else rest
  }

  /** The sum of the lines' totals. */
  function SumLines(ls: seq<Line>): int
    decreases |ls|
  {
    if ls == [] then 0 else SumLines(ls[..|ls| - 1]) + ls[|ls| - 1].totalPrice
  }

  /** `cart_payload`: the cart total is the sum of quantity times price over the items. */
  function CartPayload(c: CartId, items: seq<CartItem>, catalog: Products): (p: Payload)
    requires Priced(items, catalog)
    ensures p.id == c
    ensures p.totalPrice == SumLines(p.products)
    ensures p.totalPrice == Total(items, catalog, c)
    ensures forall i :: 0 <= i < |p.products| ==>
              p.products[i].totalPrice == p.products[i].quantity * p.products[i].unitPrice
  {
    LinesSum(items, catalog, c);
    Payload(c, Lines(items, catalog, c), Total(items, catalog, c))
  }

  /** The lines' totals add up to the cart total. */
  lemma {:induction false} LinesSum(items: seq<CartItem>, catalog: Products, c: CartId)
    requires Priced(items, catalog)
    ensures SumLines(Lines(items, catalog, c)) == Total(items, catalog, c)
    decreases |items|
  {
    if items != [] {
      var n := |items| - 1;
      var rest := Lines(items[..n], catalog, c);
      LinesSum(items[..n], catalog, c);
      if items[n].cartId == c {
        assert (rest + [LineOf(items[n], catalog)])[..|rest|] == rest;
      }
    }
  }

  /**
   * Every payload line shows an item of the cart: a product of its quantity table,
   * with that quantity and with the product's name and price.
   */
  lemma {:induction false} LinesMatchItems(items: seq<CartItem>, catalog: Products, c: CartId)
    requires Unique(items) && Priced(items, catalog) && WellFormed(catalog)
    ensures forall i :: 0 <= i < |Lines(items, catalog, c)| ==>
              var line := Lines(items, catalog, c)[i];
              && line.id in catalog && line.id in Quantities(items, c)
              && line.quantity == Quantities(items, c)[line.id]
              && line.name == catalog[line.id].name && line.unitPrice == catalog[line.id].price
    decreases |items|
  {
    if items != [] {
      var n := |items| - 1;
      var init := items[..n];
      LinesMatchItems(init, catalog, c);
      var x := items[n];
      var rest := Lines(init, catalog, c);
      if x.cartId == c {
        QuantitiesFind(init, c, x.productId);
        assert x.productId !in Quantities(init, c);
        var ls := rest + [LineOf(x, catalog)];
        var qs := Quantities(init, c)[x.productId := x.quantity];
        assert Lines(items, catalog, c) == ls;
        assert Quantities(items, c) == qs;
        forall i | 0 <= i < |ls|
          ensures ls[i].id in catalog && ls[i].id in qs && ls[i].quantity == qs[ls[i].id]
          ensures ls[i].name == catalog[ls[i].id].name && ls[i].unitPrice == catalog[ls[i].id].price
        {
          if i < |rest| {
            assert ls[i] == rest[i];
            assert rest[i].id in Quantities(init, c);
          } else {
            assert ls[i] == LineOf(x, catalog);
          }
        }
      } else {
        assert Lines(items, catalog, c) == rest;
        assert Quantities(items, c) == Quantities(init, c);
      }
    }
  }

  /** No product has two lines in the payload. */
  lemma {:induction false} LinesDistinct(items: seq<CartItem>, catalog: Products, c: CartId)
    requires Unique(items) && Priced(items, catalog) && WellFormed(catalog)
    ensures forall i, j :: 0 <= i < j < |Lines(items, catalog, c)| ==>
              Lines(items, catalog, c)[i].id != Lines(items, catalog, c)[j].id
    decreases |items|
  {
    if items != [] {
      var n := |items| - 1;
      var init := items[..n];
      LinesDistinct(init, catalog, c);
      LinesMatchItems(init, catalog, c);
      var x := items[n];
      var rest := Lines(init, catalog, c);
      if x.cartId == c {
        QuantitiesFind(init, c, x.productId);
        assert x.productId !in Quantities(init, c);
        assert LineOf(x, catalog).id == x.productId;
        var ls := rest + [LineOf(x, catalog)];
        assert Lines(items, catalog, c) == ls;
        forall i, j | 0 <= i < j < |ls| ensures ls[i].id != ls[j].id {
          if j == |rest| {
            assert ls[i] == rest[i];
            assert rest[i].id in Quantities(init, c);
          } else {
            assert ls[i] == rest[i] && ls[j] == rest[j];
          }
        }
      } else {
        assert Lines(items, catalog, c) == rest;
      }
    }
  }

  /** Every product of the cart's quantity table has a line in the payload. */
  lemma {:induction false} LinesCoverItems(items: seq<CartItem>, catalog: Products, c: CartId, p: ProductId)
    requires Priced(items, catalog) && WellFormed(catalog)
    requires p in Quantities(items, c)
    ensures exists i :: 0 <= i < |Lines(items, catalog, c)| && Lines(items, catalog, c)[i].id == p
    decreases |items|
  {
    var n := |items| - 1;
    var init := items[..n];
    var x := items[n];
    var rest := Lines(init, catalog, c);
    if x.cartId == c {
      var ls := rest + [LineOf(x, catalog)];
      assert Lines(items, catalog, c) == ls;
      assert Quantities(items, c) == Quantities(init, c)[x.productId := x.quantity];
      if p == x.productId {
        assert ls[|rest|].id == p;
      } else {
        LinesCoverItems(init, catalog, c, p);
        var i :| 0 <= i < |rest| && rest[i].id == p;
        assert ls[i].id == p;
      }
    } else {
      assert Lines(items, catalog, c) == rest;
      assert Quantities(items, c) == Quantities(init, c);
      LinesCoverItems(init, catalog, c, p);
    }
  }

  /** A cart without items renders no lines and a zero total. */
  lemma {:induction false} EmptyPayload(items: seq<CartItem>, catalog: Products, c: CartId)
    requires Priced(items, catalog)
    requires forall i :: 0 <= i < |items| ==> items[i].cartId != c
    ensures CartPayload(c, items, catalog).products == []
    ensures CartPayload(c, items, catalog).totalPrice == 0
    decreases |items|
  {
    if items != [] {
      EmptyPayload(items[..|items| - 1], catalog, c);
    }
  }

  /** Two of product A at 10.00 and one of product B at 20.00 render lines of 20.00 each and a total of 40.00. */
  lemma PayloadExample()
    ensures var catalog := map[1 := Product(1, "Product 1", 1000), 2 := Product(2, "Product 2", 2000)];
            var p := CartPayload(7, [CartItem(7, 1, 2), CartItem(7, 2, 1)], catalog);
            && |p.products| == 2
            && p.products[0].totalPrice == 2000 && p.products[1].totalPrice == 2000
            && p.totalPrice == 4000
  {
    var catalog := map[1 := Product(1, "Product 1", 1000), 2 := Product(2, "Product 2", 2000)];
    var items := [CartItem(7, 1, 2), CartItem(7, 2, 1)];
    assert Priced(items, catalog);
    assert items[..1] == [CartItem(7, 1, 2)];
    assert items[..1][..0] == [];
    assert Lines(items[..1], catalog, 7) == [LineOf(items[0], catalog)];
    assert Lines(items, catalog, 7) == [LineOf(items[0], catalog), LineOf(items[1], catalog)];
    assert Total(items[..1], catalog, 7) == 2000;
  }

  // ---------------------------------------------------------------------------
  // set_cart

  /** The carts table after `set_cart` resolved cart `c`: unchanged when it existed, otherwise with a new cart `c`. */
  function AfterSetCart(carts: map<CartId, CartRow>, c: CartId, now: Time): map<CartId, CartRow> {
    if c in carts then carts else carts[c := NewCart(now)]
  }

  /** The carts table after a successful change to cart `c`'s items and `update_total_price!`. */
  function AfterUpdate(carts: map<CartId, CartRow>, c: CartId, total: int, now: Time): map<CartId, CartRow> {
    var resolved := AfterSetCart(carts, c, now);
    resolved[c := Recomputed(resolved[c], total, now)]
  }

  /** The quantity a product has in a quantity table; a product without an item starts from 0. */
  function CurrentQuantity(qs: map<ProductId, int>, p: ProductId): int {
    if p in qs then qs[p] else 0
  }

  /**
   * The two ways of saving a product, on examples: `create` with 1 and then with 2
   * leaves quantity 3; `create` with 1 and then `add_item` with 5 leaves 5.
   */
  lemma QuantityExamples(c: CartId, p: ProductId)
    ensures var once := Upsert([], c, p, CurrentQuantity(Quantities([], c), p) + 1);
            && Quantities(once, c) == map[p := 1]
            && Quantities(Upsert(once, c, p, CurrentQuantity(Quantities(once, c), p) + 2), c)[p] == 3
            && Quantities(Upsert(once, c, p, 5), c) == map[p := 5]
  {
  }

  /**
   * `set_cart`: `Cart.find_or_create_by(id: session[:cart_id])`. The session's cart
   * when it exists; otherwise a new cart, under the session's id when the session
   * has one and under a fresh id when it has none.
   */
  method SetCart(store: CartStore, session: Option<CartId>, now: Time) returns (cartId: CartId)
    requires store.Valid()
    modifies store`carts, store`nextId
    ensures store.Valid()
    ensures session.Some? ==> cartId == session.value
    ensures session.None? ==> cartId !in old(store.carts)
    ensures cartId in store.carts
    ensures store.carts == AfterSetCart(old(store.carts), cartId, now)
    ensures store.items == old(store.items)
    ensures cartId !in old(store.carts) ==> Quantities(store.items, cartId) == map[]
    ensures old(store.Consistent()) ==> store.Consistent()
  {
    if session.Some? && session.value in store.carts {
      cartId := session.value;
    } else {
      cartId := store.CreateCart(session, now);
    }
  }

  // ---------------------------------------------------------------------------
  // Actions

  /**
   * The common tail of `create` and `add_item`: save the cart's item for the
   * product with quantity `q`, recompute the cart's total, render the cart.
   */
  method SaveAndRender(store: CartStore, cartId: CartId, productId: ProductId, q: int, now: Time)
    returns (r: Result<Payload, Error>)
    requires store.Valid() && cartId in store.carts && productId in store.catalog
    modifies store`carts, store`items
    ensures store.Valid()
    ensures r.Ok? <==> q > 0
    ensures r.Err? ==> r == Err(RecordInvalid) && store.items == old(store.items) && store.carts == old(store.carts)
    ensures cartId in store.carts
    ensures r.Ok? ==> Quantities(store.items, cartId) == old(Quantities(store.items, cartId))[productId := q]
    ensures r.Ok? ==> forall d :: d != cartId ==> Quantities(store.items, d) == old(Quantities(store.items, d))
    ensures r.Ok? ==> store.carts[cartId].totalPrice == Total(store.items, store.catalog, cartId)
    ensures r.Ok? ==>
              store.carts[cartId].totalPrice
              == old(Total(store.items, store.catalog, cartId))
                 + (q - CurrentQuantity(old(Quantities(store.items, cartId)), productId)) * store.catalog[productId].price
    ensures r.Ok? ==> store.carts == old(store.carts)[cartId := Recomputed(old(store.carts)[cartId], Total(store.items, store.catalog, cartId), now)]
    ensures r.Ok? ==> r.value == CartPayload(cartId, store.items, store.catalog)
    ensures old(store.Consistent()) ==> store.Consistent()
  {
    ghost var before := store.items;
    forall d | true
      ensures Priced(Upsert(before, cartId, productId, q), store.catalog)
      ensures Total(Upsert(before, cartId, productId, q), store.catalog, d)
           == Total(before, store.catalog, d)
              + (if d == cartId then (q - CurrentQuantity(Quantities(before, cartId), productId)) * store.catalog[productId].price else 0)
    {
      UpsertTotal(before, store.catalog, cartId, productId, q, d);
    }
    var saved := store.SaveItem(cartId, productId, q);
    if !saved {
      r := Err(RecordInvalid);
      return;
    }
    store.UpdateTotalPrice(cartId, now);
    r := Ok(CartPayload(cartId, store.items, store.catalog));
  }

  /**
   * `create` (POST /cart): adds `quantity` to the product's item. A product the
   * cart does not hold yet starts from 0. An unknown product is not found; a
   * resulting quantity that is not positive fails the item's validation.
   */
  method Create(store: CartStore, session: Option<CartId>, productId: ProductId, quantity: int, now: Time)
    returns (cartId: CartId, r: Result<Payload, Error>)
    requires store.Valid()
    modifies store`carts, store`nextId, store`items
    ensures store.Valid()
    ensures session.Some? ==> cartId == session.value
    ensures session.None? ==> cartId !in old(store.carts)
    ensures cartId !in old(store.carts) ==> old(Quantities(store.items, cartId)) == map[]
    ensures cartId in store.carts
    ensures productId !in store.catalog ==> r == Err(ProductNotFound)
    ensures productId in store.catalog ==>
              (r.Ok? <==> CurrentQuantity(old(Quantities(store.items, cartId)), productId) + quantity > 0)
    ensures r.Err? && productId in store.catalog ==> r == Err(RecordInvalid)
    ensures r.Err? ==> store.items == old(store.items) && store.carts == AfterSetCart(old(store.carts), cartId, now)
    ensures r.Ok? ==> productId in store.catalog
    ensures r.Ok? ==>
              Quantities(store.items, cartId)
              == old(Quantities(store.items, cartId))[productId := CurrentQuantity(old(Quantities(store.items, cartId)), productId) + quantity]
    ensures r.Ok? ==> forall d :: d != cartId ==> Quantities(store.items, d) == old(Quantities(store.items, d))
    ensures r.Ok? ==>
              store.carts[cartId].totalPrice
              == old(Total(store.items, store.catalog, cartId)) + quantity * store.catalog[productId].price
    ensures r.Ok? ==> store.carts == AfterUpdate(old(store.carts), cartId, Total(store.items, store.catalog, cartId), now)
    ensures r.Ok? ==> r.value == CartPayload(cartId, store.items, store.catalog)
    ensures old(store.Consistent()) ==> store.Consistent()
  {
    cartId := SetCart(store, session, now);
    if productId !in store.catalog {  // `Product.find` raises RecordNotFound
      r := Err(ProductNotFound);
      return;
    }
    var existing := FindItem(store.items, cartId, productId);
    QuantitiesFind(store.items, cartId, productId);
    var current := if existing.Some? then store.items[existing.value].quantity else 0;
    r := SaveAndRender(store, cartId, productId, current + quantity, now);
  }

  /**
   * `add_item` (POST /cart/add_item): sets the product's item to `quantity`,
   * overwriting what it held. Errors as for `create`.
   */
  method AddItem(store: CartStore, session: Option<CartId>, productId: ProductId, quantity: int, now: Time)
    returns (cartId: CartId, r: Result<Payload, Error>)
    requires store.Valid()
    modifies store`carts, store`nextId, store`items
    ensures store.Valid()
    ensures session.Some? ==> cartId == session.value
    ensures session.None? ==> cartId !in old(store.carts)
    ensures cartId !in old(store.carts) ==> old(Quantities(store.items, cartId)) == map[]
    ensures cartId in store.carts
    ensures productId !in store.catalog ==> r == Err(ProductNotFound)
    ensures productId in store.catalog ==> (r.Ok? <==> quantity > 0)
    ensures r.Err? && productId in store.catalog ==> r == Err(RecordInvalid)
    ensures r.Err? ==> store.items == old(store.items) && store.carts == AfterSetCart(old(store.carts), cartId, now)
    ensures r.Ok? ==> productId in store.catalog
    ensures r.Ok? ==> Quantities(store.items, cartId) == old(Quantities(store.items, cartId))[productId := quantity]
    ensures r.Ok? ==> forall d :: d != cartId ==> Quantities(store.items, d) == old(Quantities(store.items, d))
    ensures r.Ok? ==>
              store.carts[cartId].totalPrice
              == old(Total(store.items, store.catalog, cartId))
                 + (quantity - CurrentQuantity(old(Quantities(store.items, cartId)), productId)) * store.catalog[productId].price
    ensures r.Ok? ==> store.carts == AfterUpdate(old(store.carts), cartId, Total(store.items, store.catalog, cartId), now)
    ensures r.Ok? ==> r.value == CartPayload(cartId, store.items, store.catalog)
    ensures old(store.Consistent()) ==> store.Consistent()
  {
    cartId := SetCart(store, session, now);
    if productId !in store.catalog {  // `Product.find` raises RecordNotFound
      r := Err(ProductNotFound);
      return;
    }
    r := SaveAndRender(store, cartId, productId, quantity, now);
  }

  /**
   * `remove_item` (DELETE /cart/:product_id): destroys the cart's item for the
   * product and recomputes the total; a product without an item in the cart is
   * not found, and nothing changes.
   */
  method RemoveItem(store: CartStore, session: Option<CartId>, productId: ProductId, now: Time)
    returns (cartId: CartId, r: Result<Payload, Error>)
    requires store.Valid()
    modifies store`carts, store`nextId, store`items
    ensures store.Valid()
    ensures session.Some? ==> cartId == session.value
    ensures session.None? ==> cartId !in old(store.carts)
    ensures cartId !in old(store.carts) ==> old(Quantities(store.items, cartId)) == map[]
    ensures cartId in store.carts
    ensures r.Ok? <==> productId in old(Quantities(store.items, cartId))
    ensures r.Err? ==> r == Err(ItemNotFound(NotInCart))
    ensures r.Err? ==> store.items == old(store.items) && store.carts == AfterSetCart(old(store.carts), cartId, now)
    ensures r.Ok? ==> productId in store.catalog
    ensures r.Ok? ==> Quantities(store.items, cartId) == old(Quantities(store.items, cartId)) - {productId}
    ensures r.Ok? ==> forall d :: d != cartId ==> Quantities(store.items, d) == old(Quantities(store.items, d))
    ensures r.Ok? ==>
              store.carts[cartId].totalPrice
              == old(Total(store.items, store.catalog, cartId))
                 - old(Quantities(store.items, cartId))[productId] * store.catalog[productId].price
    ensures r.Ok? ==> store.carts == AfterUpdate(old(store.carts), cartId, Total(store.items, store.catalog, cartId), now)
    ensures r.Ok? ==> r.value == CartPayload(cartId, store.items, store.catalog)
    ensures old(store.Consistent()) ==> store.Consistent()
  {
    cartId := SetCart(store, session, now);
    var existing := FindItem(store.items, cartId, productId);
    QuantitiesFind(store.items, cartId, productId);
    if existing.None? {
      r := Err(ItemNotFound(NotInCart));
      return;
    }
    var k := existing.value;
    ghost var before := store.items;
    forall d | true
      ensures Quantities(RemoveAt(before, k), d)
           == if d == cartId then Quantities(before, d) - {productId} else Quantities(before, d)
      ensures Priced(RemoveAt(before, k), store.catalog)
      ensures Total(RemoveAt(before, k), store.catalog, d)
           == Total(before, store.catalog, d) - Contribution(before[k], store.catalog, d)
    {
      RemoveQuantities(before, k, d);
      RemoveTotal(before, store.catalog, k, d);
    }
    store.DestroyItem(k);
    store.UpdateTotalPrice(cartId, now);
    r := Ok(CartPayload(cartId, store.items, store.catalog));
  }

  /** `show` (GET /cart): renders the session's cart, which a first visit creates empty. */
  method Show(store: CartStore, session: Option<CartId>, now: Time) returns (cartId: CartId, p: Payload)
    requires store.Valid()
    modifies store`carts, store`nextId
    ensures store.Valid()
    ensures session.Some? ==> cartId == session.value
    ensures session.None? ==> cartId !in old(store.carts)
    ensures cartId in store.carts
    ensures store.carts == AfterSetCart(old(store.carts), cartId, now) && store.items == old(store.items)
    ensures p == CartPayload(cartId, store.items, store.catalog)
    ensures cartId !in old(store.carts) ==> p.products == [] && p.totalPrice == 0
    ensures old(store.Consistent()) ==> p.totalPrice == store.carts[cartId].totalPrice
    ensures old(store.Consistent()) ==> store.Consistent()
  {
    cartId := SetCart(store, session, now);
    if cartId !in old(store.carts) {
      EmptyPayload(store.items, store.catalog, cartId);
    }
    p := CartPayload(cartId, store.items, store.catalog);
  }
}
