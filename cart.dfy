/**
 * The Cart model (app/models/cart.rb) and the store that holds carts and their items.
 *
 * The store is the database seen by the cart code: the carts table, keyed by id,
 * and the cart_items table. The Cart model's instance methods become store
 * methods that take the cart's id. Times are integer seconds and are passed in
 * by the caller as `now`.
 */
module Carts {
  import opened Wrappers
  import opened Catalog
  import opened CartItems

  type Time = int

  const Hour: int := 3600
  const Day: int := 24 * Hour
  /** `3.hours` in the idle scope and in the first phase of the sweep. */
  const IdleLimit: int := 3 * Hour
  /** `7.days` in the second phase of the sweep. */
  const ExpiryLimit: int := 7 * Day

  /** A row of the carts table. */
  datatype CartRow = CartRow(totalPrice: int, abandoned: bool, updatedAt: Time)

  /** A cart as `create` makes it: total 0, not abandoned, stamped with the creation time. */
  function NewCart(now: Time): CartRow {
    CartRow(0, false, now)
  }

  /** `validates_numericality_of :total_price, greater_than_or_equal_to: 0` */
  predicate ValidTotal(row: CartRow) {
    row.totalPrice >= 0
  }

  /** The `abandonados` scope: updated more than three hours before `now`. */
  predicate IsIdle(row: CartRow, now: Time) {
    row.updatedAt < now - IdleLimit
  }

  /** The carts the `abandonados` scope selects. */
  function Abandonados(carts: map<CartId, CartRow>, now: Time): set<CartId> {
    set id | id in carts && IsIdle(carts[id], now)
  }

  /**
   * `update!(total_price: total)`. Active Record writes a record only when an
   * attribute changes, and only then refreshes `updated_at`.
   */
  function Recomputed(row: CartRow, total: int, now: Time): CartRow {
    if total == row.totalPrice then row else row.(totalPrice := total, updatedAt := now)
  }

  /**
   * `mark_as_abandoned!`, whose body is not part of this model: it sets the flag,
   * whatever the cart's age. When `touch` holds, the write refreshes `updated_at`
   * as a timestamped save does when the flag actually changes.
   */
  function Marked(row: CartRow, touch: bool, now: Time): CartRow {
    if row.abandoned then row
    else row.(abandoned := true, updatedAt := if touch then now else row.updatedAt)
  }

  /** The guard of `remove_if_abandoned!`: abandoned and last updated at least seven days ago. */
  predicate Removable(row: CartRow, now: Time) {
    row.abandoned && row.updatedAt <= now - ExpiryLimit
  }

  // ---------------------------------------------------------------------------
  // Properties of the Cart model

  /** The validation rejects a negative total and accepts zero. */
  lemma NegativeTotalInvalid(row: CartRow)
    ensures ValidTotal(row) <==> row.totalPrice >= 0
    ensures !ValidTotal(CartRow(-1, false, 0)) && ValidTotal(NewCart(0))
  {
  }

  /**
   * Recomputing the total sets it to the sum and touches nothing else but the
   * timestamp; recomputing again with the same items changes nothing at all,
   * even at a later time.
   */
  lemma RecomputedSpec(row: CartRow, total: int, now: Time, later: Time)
    ensures Recomputed(row, total, now).totalPrice == total
    ensures Recomputed(row, total, now).abandoned == row.abandoned
    ensures Recomputed(row, total, now).updatedAt == if total == row.totalPrice then row.updatedAt else now
    ensures Recomputed(Recomputed(row, total, now), total, later) == Recomputed(row, total, now)
  {
  }

  /** An empty cart's total is recomputed to 0, whatever it held (100.00 in cents here). */
  lemma EmptyCartTotalIsZero(catalog: Products, c: CartId, now: Time)
    ensures Recomputed(CartRow(10000, false, 0), Total([], catalog, c), now).totalPrice == 0
  {
  }

  /**
   * Totals as items come and go (prices in cents): 10.00 and 20.00 sum to 30.00;
   * adding an item at 15.00 makes 45.00; removing the 10.00 item leaves 35.00.
   */
  lemma TotalsExample(c: CartId)
    ensures var catalog := map[1 := Product(1, "A", 1000), 2 := Product(2, "B", 2000), 3 := Product(3, "C", 1500)];
            var two := [CartItem(c, 1, 1), CartItem(c, 2, 1)];
            var three := Upsert(two, c, 3, 1);
            && Total(two, catalog, c) == 3000
            && Total(three, catalog, c) == 4500
            && Total(RemoveAt(three, 0), catalog, c) == 3500
  {
    var catalog := map[1 := Product(1, "A", 1000), 2 := Product(2, "B", 2000), 3 := Product(3, "C", 1500)];
    var two := [CartItem(c, 1, 1), CartItem(c, 2, 1)];
    var one := [CartItem(c, 1, 1)];
    assert one[..0] == [];
    assert Total(one, catalog, c) == 1000;
    assert two[..1] == one;
    assert Total(two, catalog, c) == 3000;
    assert FindItem(two, c, 3).None?;
    var three := two + [CartItem(c, 3, 1)];
    assert Upsert(two, c, 3, 1) == three;
    assert three[..2] == two;
    assert Total(three, catalog, c) == 4500;
    var left := [CartItem(c, 2, 1), CartItem(c, 3, 1)];
    assert RemoveAt(three, 0) == left;
    var only := [CartItem(c, 2, 1)];
    assert only[..0] == [];
    assert Total(only, catalog, c) == 2000;
    assert left[..1] == only;
  }

  /** The idle scope selects exactly the carts last updated more than three hours before `now`. */
  lemma AbandonadosSpec(carts: map<CartId, CartRow>, now: Time, id: CartId)
    ensures id in Abandonados(carts, now) <==> id in carts && carts[id].updatedAt < now - 3 * 3600
  {
  }

  /** A cart updated four hours ago is selected by the idle scope; one updated an hour ago is not. */
  lemma AbandonadosExample(now: Time)
    ensures var carts := map[1 := CartRow(0, false, now - Hour), 2 := CartRow(0, false, now - 4 * Hour)];
            Abandonados(carts, now) == {2}
  {
  }

  /** A cart that is idle now is still idle later, as long as nobody updates it. */
  lemma IdleIsStable(carts: map<CartId, CartRow>, now: Time, later: Time)
    requires now <= later
    ensures Abandonados(carts, now) <= Abandonados(carts, later)
  {
  }

  // ---------------------------------------------------------------------------
  // The store

  class CartStore {
    /** The products table; the cart code only reads it. */
    const catalog: Products
    /** The carts table. */
    var carts: map<CartId, CartRow>
    /** The cart_items table; its order is a modelling choice (see CartItems). */
    var items: seq<CartItem>
    /** The next id the carts table's sequence hands out. */
    var nextId: CartId

    /** The database at rest: ids below the sequence, items persisted against existing carts and products. */
    ghost predicate Valid()
      reads this
    {
      && WellFormed(catalog)
      && (forall id :: id in carts ==> id < nextId)
      && Persisted(items, carts.Keys, catalog)
    }

    /** The cached total of cart `id` equals the sum over its items. */
    ghost predicate ConsistentOn(id: CartId)
      reads this
      requires Valid()
    {
      id in carts ==> carts[id].totalPrice == Total(items, catalog, id)
    }

    /** Every cart's cached total equals the sum over its items. */
    ghost predicate Consistent()
      reads this
      requires Valid()
    {
      forall id :: id in carts ==> carts[id].totalPrice == Total(items, catalog, id)
    }

    constructor (catalog: Products)
      requires WellFormed(catalog)
      ensures Valid() && Consistent()
      ensures this.catalog == catalog && carts == map[] && items == []
    {
      this.catalog := catalog;
      carts := map[];
      items := [];
      nextId := 0;
    }

    /**
     * `Cart.create`, with the id given or the next id of the sequence. The new cart
     * owns no item yet.
     */
    method CreateCart(id: Option<CartId>, now: Time) returns (c: CartId)
      requires Valid()
      requires id.Some? ==> id.value !in carts
      modifies this`carts, this`nextId
      ensures Valid()
      ensures id.Some? ==> c == id.value
      ensures c !in old(carts)
      ensures carts == old(carts)[c := NewCart(now)]
      ensures Quantities(items, c) == map[] && Total(items, catalog, c) == 0
      ensures old(Consistent()) ==> Consistent()
    {
      c := if id.Some? then id.value else nextId;
      AbsentCart(items, catalog, c);
      carts := carts[c := NewCart(now)];
      nextId := if c < nextId then nextId else c + 1;
      assert forall d :: d in old(carts) ==> carts[d] == old(carts)[d];
    }

    /**
     * `save!` on the row of cart `c` for product `p` holding quantity `q`: the
     * `quantity > 0` validation rejects the save, and the table keeps its rows.
     */
    method SaveItem(c: CartId, p: ProductId, q: int) returns (saved: bool)
      requires Valid() && c in carts && p in catalog
      modifies this`items
      ensures Valid()
      ensures saved <==> q > 0
      ensures items == if saved then Upsert(old(items), c, p, q) else old(items)
    {
      saved := q > 0;
      if saved {
        items := Upsert(items, c, p, q);
      }
    }

    /** `cart_item.destroy` on the row at position `k`. */
    method DestroyItem(k: nat)
      requires Valid() && k < |items|
      modifies this`items
      ensures Valid()
      ensures items == RemoveAt(old(items), k)
    {
      // Only the lemma's first ensures, `Unique(RemoveAt(items, k))`, is needed here.
      RemoveQuantities(items, k, items[k].cartId);
      items := RemoveAt(items, k);
    }

    /**
     * `update_total_price!`: the total becomes the sum of quantity times price over
     * the cart's items. The validation of `update!` always passes, because the sum
     * is never negative.
     */
    method UpdateTotalPrice(c: CartId, now: Time)
      requires Valid() && c in carts
      modifies this`carts
      ensures Valid()
      ensures carts == old(carts)[c := Recomputed(old(carts)[c], Total(items, catalog, c), now)]
      ensures carts[c].totalPrice == Total(items, catalog, c) && ValidTotal(carts[c])
      ensures ConsistentOn(c)
      ensures forall d :: d != c ==> (old(ConsistentOn(d)) <==> ConsistentOn(d))
    {
      var total := Total(items, catalog, c);
      TotalNonNegative(items, catalog, c);
      carts := carts[c := Recomputed(carts[c], total, now)];
    }

    /** `cart.destroy`: the cart goes, and with it every item it owns and no other. */
    method Destroy(c: CartId)
      requires Valid() && c in carts
      modifies this`carts, this`items
      ensures Valid()
      ensures carts == old(carts) - {c}
      ensures items == Drop(old(items), {c})
      ensures old(Consistent()) ==> Consistent()
    {
      DropPersisted(items, carts.Keys, catalog, {c});
      ghost var before := items;
      items := Drop(items, {c});
      carts := carts - {c};
      assert carts.Keys == old(carts).Keys - {c};
      forall d | d in carts ensures Total(items, catalog, d) == Total(before, catalog, d) {
        DropTotal(before, catalog, {c}, d);
      }
    }

    /** `mark_as_abandoned!` on cart `c`. */
    method MarkAsAbandoned(c: CartId, touch: bool, now: Time)
      requires Valid() && c in carts
      modifies this`carts
      ensures Valid()
      ensures carts == old(carts)[c := Marked(old(carts)[c], touch, now)]
      ensures old(Consistent()) ==> Consistent()
    {
      carts := carts[c := Marked(carts[c], touch, now)];
    }

    /** `remove_if_abandoned!` on cart `c`: destroys it when it is abandoned and seven days old. */
    method RemoveIfAbandoned(c: CartId, now: Time) returns (removed: bool)
      requires Valid() && c in carts
      modifies this`carts, this`items
      ensures Valid()
      ensures removed == Removable(old(carts)[c], now)
      ensures carts == if removed then old(carts) - {c} else old(carts)
      ensures items == if removed then Drop(old(items), {c}) else old(items)
      ensures old(Consistent()) ==> Consistent()
    {
      removed := Removable(carts[c], now);
      if removed {
        Destroy(c);
      }
    }
  }

  /** Destroying a cart removes all of its items and no other cart's. */
  lemma DestroyCascade(items: seq<CartItem>, catalog: Products, c: CartId, d: CartId)
    requires Priced(items, catalog)
    ensures forall i :: 0 <= i < |Drop(items, {c})| ==> Drop(items, {c})[i].cartId != c
    ensures d != c ==> Quantities(Drop(items, {c}), d) == Quantities(items, d)
    ensures d != c ==> Priced(Drop(items, {c}), catalog) && Total(Drop(items, {c}), catalog, d) == Total(items, catalog, d)
    ensures Quantities(Drop(items, {c}), c) == map[]
  {
    DropQuantities(items, {c}, d);
    DropQuantities(items, {c}, c);
    DropTotal(items, catalog, {c}, d);
  }
}
