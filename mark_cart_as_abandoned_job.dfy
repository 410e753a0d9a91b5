/**
 * The abandonment sweep (app/sidekiq/mark_cart_as_abandoned_job.rb).
 *
 * One run has two phases over the carts table. The first marks as abandoned
 * every cart that is not abandoned yet and was last updated more than three
 * hours ago. The second, which sees the first phase's writes, destroys every
 * abandoned cart last updated more than seven days ago, together with its items.
 * Each cart goes `active -> abandoned -> deleted`.
 *
 * Whether marking a cart refreshes its `updated_at` depends on the body of
 * `mark_as_abandoned!`, which is not part of this model; the parameter `touch`
 * chooses, and the properties below are stated for both choices.
 */
module AbandonJob {
  import opened Catalog
  import opened CartItems
  import opened Carts

  /** The first query: not abandoned and updated more than three hours ago. */
  predicate Stale(row: CartRow, now: Time) {
    !row.abandoned && row.updatedAt < now - IdleLimit
  }

  /** The second query: abandoned and updated more than seven days ago. */
  predicate Expired(row: CartRow, now: Time) {
    row.abandoned && row.updatedAt < now - ExpiryLimit
  }

  /** The carts table after the first phase. */
  function MarkPhase(carts: map<CartId, CartRow>, now: Time, touch: bool): map<CartId, CartRow> {
    map id | id in carts :: if Stale(carts[id], now) then Marked(carts[id], touch, now) else carts[id]
  }

  /** The carts the second phase destroys, out of the table the first phase left. */
  function ExpiredIds(carts: map<CartId, CartRow>, now: Time): set<CartId> {
    set id | id in carts && Expired(carts[id], now)
  }

  /** The carts table after the second phase. */
  function SurvivorPhase(carts: map<CartId, CartRow>, now: Time): map<CartId, CartRow> {
    map id | id in carts && !Expired(carts[id], now) :: carts[id]
  }

  /** The carts table after a whole run. */
  function Sweep(carts: map<CartId, CartRow>, now: Time, touch: bool): map<CartId, CartRow> {
    SurvivorPhase(MarkPhase(carts, now, touch), now)
  }

  /** The carts a whole run destroys. */
  function SweptIds(carts: map<CartId, CartRow>, now: Time, touch: bool): set<CartId> {
    ExpiredIds(MarkPhase(carts, now, touch), now)
  }

  /**
   * `perform`: the two phases in order, the second seeing the first one's writes.
   */
  method Perform(store: CartStore, now: Time, touch: bool)
    requires store.Valid()
    modifies store`carts, store`items
    ensures store.Valid()
    ensures store.carts == Sweep(old(store.carts), now, touch)
    ensures store.items == Drop(old(store.items), SweptIds(old(store.carts), now, touch))
    ensures old(store.Consistent()) ==> store.Consistent()
  {
    MarkStale(store, now, touch);
    RemoveExpired(store, now);
  }

  /**
   * The first phase: `mark_as_abandoned!` on each cart of
   * `Cart.where("updated_at < ? AND abandoned = ?", 3.hours.ago, false)`.
   * `find_each` visits them in batches; each step changes one cart only, so the
   * loop may pick them in any order.
   */
  method MarkStale(store: CartStore, now: Time, touch: bool)
    requires store.Valid()
    modifies store`carts
    ensures store.Valid()
    ensures store.carts == MarkPhase(old(store.carts), now, touch)
    ensures old(store.Consistent()) ==> store.Consistent()
  {
    var stale := set id | id in store.carts && Stale(store.carts[id], now);
    var todo := stale;
    while todo != {}
      invariant store.Valid()
      invariant todo <= stale
      invariant store.carts.Keys == old(store.carts).Keys
      invariant forall id :: id in store.carts ==>
                  store.carts[id] == if id in stale - todo then Marked(old(store.carts)[id], touch, now) else old(store.carts)[id]
      invariant old(store.Consistent()) ==> store.Consistent()
      decreases todo
    {
      var id :| id in todo;
      store.MarkAsAbandoned(id, touch, now);
      todo := todo - {id};
    }
  }

  /**
   * The second phase: `remove_if_abandoned!` on each cart of
   * `Cart.where("abandoned = ? AND updated_at < ?", true, 7.days.ago)`. Every cart
   * the query selects passes the method's own guard, so each one is destroyed
   * with its items.
   */
  method RemoveExpired(store: CartStore, now: Time)
    requires store.Valid()
    modifies store`carts, store`items
    ensures store.Valid()
    ensures store.carts == SurvivorPhase(old(store.carts), now)
    ensures store.items == Drop(old(store.items), ExpiredIds(old(store.carts), now))
    ensures old(store.Consistent()) ==> store.Consistent()
  {
    var expired := set id | id in store.carts && Expired(store.carts[id], now);
    var todo := expired;
    DropNothing(store.items, {});
    assert expired - todo == {};
    while todo != {}
      invariant store.Valid()
      invariant todo <= expired
      invariant store.carts.Keys == old(store.carts).Keys - (expired - todo)
      invariant forall id :: id in store.carts ==> store.carts[id] == old(store.carts)[id]
      invariant store.items == Drop(old(store.items), expired - todo)
      invariant old(store.Consistent()) ==> store.Consistent()
      decreases todo
    {
      var id :| id in todo;
      var removed := store.RemoveIfAbandoned(id, now);
      assert removed;
      DropDrop(old(store.items), expired - todo, {id});
      assert (expired - todo) + {id} == expired - (todo - {id});
      todo := todo - {id};
    }
    assert store.carts.Keys == SurvivorPhase(old(store.carts), now).Keys;
    assert expired - todo == ExpiredIds(old(store.carts), now);
  }

  // ---------------------------------------------------------------------------
  // Properties of a run

  /** The first phase marks exactly the stale carts and leaves every other cart as it was. */
  lemma MarkPhaseSpec(carts: map<CartId, CartRow>, now: Time, touch: bool, id: CartId)
    requires id in carts
    ensures MarkPhase(carts, now, touch).Keys == carts.Keys
    ensures MarkPhase(carts, now, touch)[id].abandoned == (carts[id].abandoned || IsIdle(carts[id], now))
    ensures !Stale(carts[id], now) ==> MarkPhase(carts, now, touch)[id] == carts[id]
    ensures MarkPhase(carts, now, touch)[id].totalPrice == carts[id].totalPrice
  {
  }

  /** On its own, the second phase destroys exactly the expired carts and never one that is not abandoned. */
  lemma SurvivorPhaseSpec(carts: map<CartId, CartRow>, now: Time, id: CartId)
    requires id in carts
    ensures id !in SurvivorPhase(carts, now) <==> carts[id].abandoned && carts[id].updatedAt < now - 7 * 24 * 3600
    ensures !carts[id].abandoned ==> id in SurvivorPhase(carts, now) && SurvivorPhase(carts, now)[id] == carts[id]
    ensures id in SurvivorPhase(carts, now) ==> SurvivorPhase(carts, now)[id] == carts[id]
  {
  }

  /**
   * Abandonment is one-way: a run never clears the flag, and no cart is
   * created. Every cart that survives a run is abandoned afterwards exactly when
   * it was abandoned before or had been idle for more than three hours.
   */
  lemma SweepMonotone(carts: map<CartId, CartRow>, now: Time, touch: bool, id: CartId)
    requires id in Sweep(carts, now, touch)
    ensures id in carts
    ensures carts[id].abandoned ==> Sweep(carts, now, touch)[id].abandoned
    ensures Sweep(carts, now, touch)[id].abandoned == (carts[id].abandoned || IsIdle(carts[id], now))
  {
  }

  /** A cart that matches neither query comes out of a run exactly as it went in. */
  lemma SweepLeavesOthers(carts: map<CartId, CartRow>, now: Time, touch: bool, id: CartId)
    requires id in carts && !Stale(carts[id], now) && !Expired(carts[id], now)
    ensures id in Sweep(carts, now, touch) && Sweep(carts, now, touch)[id] == carts[id]
    ensures id !in SweptIds(carts, now, touch)
  {
  }

  /**
   * When marking leaves `updated_at` alone, the first phase marks every cart
   * older than seven days, so a run destroys exactly the carts last updated more
   * than seven days ago, abandoned or not.
   */
  lemma SweepWithoutTouch(carts: map<CartId, CartRow>, now: Time, id: CartId)
    requires id in carts
    ensures id in SweptIds(carts, now, false) <==> carts[id].updatedAt < now - ExpiryLimit
    ensures id !in Sweep(carts, now, false) <==> id in SweptIds(carts, now, false)
  {
  }

  /**
   * When marking refreshes `updated_at`, a cart marked in a run is never destroyed
   * by that run: a run destroys exactly the carts that were already abandoned and
   * last updated more than seven days ago.
   */
  lemma SweepWithTouch(carts: map<CartId, CartRow>, now: Time, id: CartId)
    requires id in carts
    ensures id in SweptIds(carts, now, true) <==> Expired(carts[id], now)
    ensures id !in Sweep(carts, now, true) <==> id in SweptIds(carts, now, true)
  {
  }

  /** Running the sweep twice at the same moment changes nothing the first run did not. */
  lemma SweepIdempotent(carts: map<CartId, CartRow>, now: Time, touch: bool)
    ensures Sweep(Sweep(carts, now, touch), now, touch) == Sweep(carts, now, touch)
    ensures SweptIds(Sweep(carts, now, touch), now, touch) == {}
  {
  }

  /** The items of the destroyed carts are gone; every other cart keeps its items and its total. */
  lemma SweepItems(items: seq<CartItem>, catalog: Products, carts: map<CartId, CartRow>, now: Time, touch: bool, d: CartId)
    requires Priced(items, catalog)
    ensures var dead := SweptIds(carts, now, touch);
            && Priced(Drop(items, dead), catalog)
            && Quantities(Drop(items, dead), d) == (if d in dead then map[] else Quantities(items, d))
            && Total(Drop(items, dead), catalog, d) == (if d in dead then 0 else Total(items, catalog, d))
  {
    DropQuantities(items, SweptIds(carts, now, touch), d);
    DropTotal(items, catalog, SweptIds(carts, now, touch), d);
  }

  /**
   * The lifecycle on examples: an abandoned cart five days old survives; a cart
   * updated an hour ago is untouched; one updated four hours ago is marked; an
   * abandoned cart eight days old is destroyed.
   */
  lemma SweepExamples(now: Time, touch: bool)
    ensures var carts := map[
              1 := CartRow(0, true, now - 5 * Day),
              2 := CartRow(0, false, now - Hour),
              3 := CartRow(0, false, now - 4 * Hour),
              4 := CartRow(0, true, now - 8 * Day)];
            var after := Sweep(carts, now, touch);
            && after.Keys == {1, 2, 3}
            && after[1] == carts[1]
            && after[2] == carts[2]
            && after[3].abandoned
  {
  }
}
