# Shopping cart with abandonment sweep — a Dafny model

This project models the core of a Ruby on Rails shopping-cart backend. It has three parts:

- **The cart endpoints** (`CartsController`). `create` adds a quantity to a product's item in the session's cart. `add_item` sets the quantity outright. `remove_item` destroys the item. `show` renders the cart. Every action first resolves the session's cart with `set_cart`, which creates the cart when it is missing. Every action that changes items then recomputes the cart's cached total and renders the payload. The payload holds one line per item (quantity × unit price) and the cart total.
- **The Cart model** (`Carts`). It covers:
  - the cached `total_price` and its `>= 0` validation;
  - `update_total_price!`;
  - the `dependent: :destroy` cascade to the cart's items;
  - the `abandonados` scope of carts idle for more than three hours.
- **The abandonment sweep** (`AbandonJob`). One run marks every non-abandoned cart idle for more than three hours as abandoned. It then destroys every abandoned cart last updated more than seven days ago, together with its items.

The database is the class `Carts.CartStore`. It holds:

- the carts table, `carts: map<CartId, CartRow>`;
- the cart_items table, `items: seq<CartItem>`. A new row goes at the end and an updated row keeps its place. This order is a modelling choice: `cart.cart_items` (`carts_controller.rb:57`) promises no order, and no proved property depends on it;
- the id sequence, `nextId`;
- the products table, a read-only `catalog`.

The cart operations are methods on the store, and the sweep's phases are loops calling them. Each method is proved against pure functions of the tables; the table functions are in `CartItems`, the sweep functions in `AbandonJob`. Two invariants hold throughout:

- `Valid()`: at most one item per (cart, product), every item positive and referencing an existing cart and product.
- `Consistent()`: every cached total equals the sum over the cart's items. Every action and every sweep method preserves it, and so do `CreateCart`, `UpdateTotalPrice`, `Destroy`, `MarkAsAbandoned` and `RemoveIfAbandoned`. `SaveItem` and `DestroyItem` change the items without the total, so they break it until `UpdateTotalPrice` restores it, as `save!` and `destroy` do before `update_total_price!` in the source.

Modelling choices:

- Prices are integer cents; times are integer seconds; `now` is a parameter. The session's cart id comes in as an `Option<CartId>`, and the id of the cart used goes back out.
- `cart_payload` recomputes the payload total from the items (`carts_controller.rb:66`) instead of reading the cached `total_price`; `Show` proves the two agree when the totals were consistent.
- `update!` writes, and refreshes `updated_at`, only when the total actually changes (`Recomputed`).
- An item that does not exist yet starts from quantity 0. `save!` rejects a quantity that is not positive (the item's `quantity > 0` validation, seen in `cart_item_spec.rb:42-45`). A rejected save leaves the items unchanged, and the action answers `RecordInvalid`.
- `Product.find` runs after `set_cart`. An unknown product therefore answers `ProductNotFound` after the session's cart may already have been created.
- `find_or_create_by(id: session[:cart_id])` re-creates a missing session cart under the session's own id.
- `mark_as_abandoned!` and `remove_if_abandoned!` are called by the sweep, but their bodies are not part of this model. Their effects are taken from `cart_spec.rb`:
  - Marking sets the flag whatever the cart's age (`cart_spec.rb:148-150`).
  - `remove_if_abandoned!` destroys the cart when it is abandoned and its `updated_at` is at least seven days old, the boundary included (`cart_spec.rb:122-136`).
  - Whether marking refreshes `updated_at` is the parameter `touch`. It applies only when the flag actually flips.
  - Both choices are proved about. Without the refresh, a run destroys every cart last updated more than seven days ago, abandoned or not (`SweepWithoutTouch`). With it, a run destroys only carts that were abandoned already (`SweepWithTouch`).

## Model

| member | source | states |
|---|---|---|
| CartItems.Quantities | tech-interview-backend-entry-level-main/app/controllers/carts_controller.rb:37 | defines a cart's quantity table: each product that has a row of that cart, mapped to the row's quantity |
| CartItems.LineTotal | tech-interview-backend-entry-level-main/app/controllers/carts_controller.rb:63 | defines a row's line total: its quantity times its product's price |
| CartItems.Total | tech-interview-backend-entry-level-main/app/models/cart.rb:8 | defines a cart's total: the sum of the line totals of the cart's rows, the rows of other carts contributing 0 |
| CartItems.FindItem | tech-interview-backend-entry-level-main/app/controllers/carts_controller.rb:37 | a found position holds the row of that cart and product; none found means no row of the table matches |
| CartItems.QuantitiesFind | tech-interview-backend-entry-level-main/app/controllers/carts_controller.rb:9 | a product has a quantity in the cart exactly when `find_by` finds its row, and the quantity is that row's |
| CartItems.Upsert | tech-interview-backend-entry-level-main/app/controllers/carts_controller.rb:9-11 | saving via `find_or_initialize_by` keeps one row per (cart, product), sets the product's quantity in that cart and leaves every other cart's quantities alone |
| CartItems.UpdateQuantities | tech-interview-backend-entry-level-main/app/controllers/carts_controller.rb:27-29 | overwriting an existing row keeps the rows unique and changes one entry of one cart's quantity table |
| CartItems.UpdateQuantitiesAt | tech-interview-backend-entry-level-main/app/controllers/carts_controller.rb:27-29 | the same, for one cart |
| CartItems.UpsertTotal | tech-interview-backend-entry-level-main/app/models/cart.rb:8 | after a save the cart's sum grows by (new quantity − old quantity, 0 for a new row) × price; other carts' sums are unchanged |
| CartItems.TotalUpdate | tech-interview-backend-entry-level-main/app/models/cart.rb:8 | overwriting one row changes the sum by the difference of the two rows' line totals |
| CartItems.TotalNonNegative | tech-interview-backend-entry-level-main/app/models/cart.rb:2-8 | the recomputed sum is never negative, so `update!` never fails the `>= 0` validation |
| CartItems.AbsentCart | tech-interview-backend-entry-level-main/app/models/cart.rb:8 | a cart with no rows has an empty quantity table and a zero sum |
| CartItems.RemoveAt | tech-interview-backend-entry-level-main/app/controllers/carts_controller.rb:39 | destroying one row keeps every other row, in order |
| CartItems.RemoveQuantities | tech-interview-backend-entry-level-main/app/controllers/carts_controller.rb:39 | destroying a row removes exactly that product from its cart's quantity table and touches no other cart |
| CartItems.RemoveTotal | tech-interview-backend-entry-level-main/app/controllers/carts_controller.rb:39-40 | destroying a row lowers its cart's sum by that row's line total |
| CartItems.Drop | tech-interview-backend-entry-level-main/app/models/cart.rb:3 | the cascade keeps exactly the rows of the surviving carts |
| CartItems.DropQuantities | tech-interview-backend-entry-level-main/app/models/cart.rb:3 | after the cascade a destroyed cart has no quantities; every other cart keeps its own |
| CartItems.DropTotal | tech-interview-backend-entry-level-main/app/models/cart.rb:3 | after the cascade a destroyed cart sums to 0; every other cart keeps its sum |
| CartItems.DropNothing | tech-interview-backend-entry-level-main/app/models/cart.rb:3 | destroying carts that own no rows leaves the items table as it was |
| CartItems.DropDrop | tech-interview-backend-entry-level-main/app/models/cart.rb:3 | destroying carts one after another cascades like destroying them all at once |
| CartItems.DropPersisted | tech-interview-backend-entry-level-main/app/models/cart.rb:3 | after the cascade no remaining row references a destroyed cart, and rows stay unique and positive |
| Carts.NewCart | tech-interview-backend-entry-level-main/app/controllers/carts_controller.rb:50 | defines the row `create` inserts: total 0, not abandoned, stamped `now` |
| Carts.ValidTotal | tech-interview-backend-entry-level-main/app/models/cart.rb:2 | defines the validation: the total is at least 0 |
| Carts.IsIdle | tech-interview-backend-entry-level-main/app/models/cart.rb:5 | defines the scope's condition: `updated_at` strictly before `now` minus three hours |
| Carts.Abandonados | tech-interview-backend-entry-level-main/app/models/cart.rb:5 | defines the scope: the ids of the carts that satisfy `IsIdle` |
| Carts.Recomputed | tech-interview-backend-entry-level-main/app/models/cart.rb:8 | defines `update!(total_price:)`: an equal total leaves the row unchanged; a different one is written and sets `updated_at` to `now` |
| Carts.Marked | tech-interview-backend-entry-level-main/app/sidekiq/mark_cart_as_abandoned_job.rb:7 | defines `mark_as_abandoned!` as observed in cart_spec.rb:15-18 and 148-150: the flag becomes true whatever the cart's age; `updated_at` becomes `now` only when `touch` holds and the flag flips |
| Carts.Removable | tech-interview-backend-entry-level-main/spec/models/cart_spec.rb:122-136 | defines the guard of `remove_if_abandoned!` as the tests pin it: abandoned, and `updated_at` at or before `now` minus seven days |
| Carts.NegativeTotalInvalid | tech-interview-backend-entry-level-main/spec/models/cart_spec.rb:5-9 | the example of the validation: a total of −1 is rejected and a new cart's total 0 is accepted |
| Carts.RecomputedSpec | tech-interview-backend-entry-level-main/app/models/cart.rb:7-9 | `update!` sets the total, keeps the flag, refreshes `updated_at` only on a change, and a second recomputation changes nothing |
| Carts.EmptyCartTotalIsZero | tech-interview-backend-entry-level-main/app/models/cart.rb:8 | an empty cart's total is recomputed from 100.00 to 0 |
| Carts.TotalsExample | tech-interview-backend-entry-level-main/app/models/cart.rb:7-9 | 10.00 + 20.00 = 30.00; adding 15.00 gives 45.00; removing the 10.00 item gives 35.00 |
| Carts.AbandonadosSpec | tech-interview-backend-entry-level-main/app/models/cart.rb:5 | the scope selects exactly the carts updated more than three hours before `now` |
| Carts.AbandonadosExample | tech-interview-backend-entry-level-main/app/models/cart.rb:5 | a cart updated four hours ago is selected, one updated an hour ago is not |
| Carts.IdleIsStable | tech-interview-backend-entry-level-main/app/models/cart.rb:5 | a cart the scope selects now is still selected later |
| Carts.DestroyCascade | tech-interview-backend-entry-level-main/app/models/cart.rb:3 | destroying a cart removes all of its items and leaves every other cart's items and sum |
| Carts.CartStore.CreateCart | tech-interview-backend-entry-level-main/app/controllers/carts_controller.rb:50 | a new cart with total 0, not abandoned, stamped `now`, under the given id or a fresh one, owning no item |
| Carts.CartStore.SaveItem | tech-interview-backend-entry-level-main/app/controllers/carts_controller.rb:11 | `save!` persists the row exactly when the quantity is positive, and otherwise changes nothing |
| Carts.CartStore.DestroyItem | tech-interview-backend-entry-level-main/app/controllers/carts_controller.rb:39 | `cart_item.destroy` removes one row and keeps the tables at rest |
| Carts.CartStore.UpdateTotalPrice | tech-interview-backend-entry-level-main/app/models/cart.rb:7-9 | the cart's total becomes the sum over its items and is valid; only that cart's row changes |
| Carts.CartStore.Destroy | tech-interview-backend-entry-level-main/app/models/cart.rb:3 | the cart and exactly its items are gone; every other cached total stays consistent |
| Carts.CartStore.MarkAsAbandoned | tech-interview-backend-entry-level-main/app/sidekiq/mark_cart_as_abandoned_job.rb:7 | the cart is abandoned afterwards; its `updated_at` becomes `now` when `touch` holds and the flag flips; no other cart and no item changes |
| Carts.CartStore.RemoveIfAbandoned | tech-interview-backend-entry-level-main/spec/models/cart_spec.rb:122-136 | destroys the cart, with its items, exactly when it is abandoned and at least seven days old |
| CartsController.LineOf | tech-interview-backend-entry-level-main/app/controllers/carts_controller.rb:58-64 | defines a payload line: the product's id, name and price, the item's quantity, and quantity × price |
| CartsController.SumLines | tech-interview-backend-entry-level-main/app/controllers/carts_controller.rb:66 | defines the sum of the lines' totals |
| CartsController.CurrentQuantity | tech-interview-backend-entry-level-main/app/controllers/carts_controller.rb:9-10 | defines the quantity `create` adds to: the item's quantity, or 0 for an item `find_or_initialize_by` builds |
| CartsController.AfterSetCart | tech-interview-backend-entry-level-main/app/controllers/carts_controller.rb:50 | defines the carts table after `find_or_create_by`: unchanged when the cart exists, otherwise with a `NewCart` under that id |
| CartsController.AfterUpdate | tech-interview-backend-entry-level-main/app/controllers/carts_controller.rb:13 | defines the carts table after `set_cart` and `update_total_price!`: the resolved cart's row is `Recomputed` with the new total |
| CartsController.Lines | tech-interview-backend-entry-level-main/app/controllers/carts_controller.rb:57-65 | no more lines than items, and each line's total is quantity × unit price |
| CartsController.CartPayload | tech-interview-backend-entry-level-main/app/controllers/carts_controller.rb:54-68 | the payload carries the cart's id; its total is the sum of its line totals and the sum over the cart's items |
| CartsController.LinesSum | tech-interview-backend-entry-level-main/app/controllers/carts_controller.rb:57-66 | the line totals add up to the cart's sum over its items |
| CartsController.LinesMatchItems | tech-interview-backend-entry-level-main/app/controllers/carts_controller.rb:57-65 | every line shows a product of the cart with its quantity, name and price |
| CartsController.LinesDistinct | tech-interview-backend-entry-level-main/app/controllers/carts_controller.rb:57-65 | no product has two lines |
| CartsController.LinesCoverItems | tech-interview-backend-entry-level-main/app/controllers/carts_controller.rb:57-65 | every product in the cart has a line |
| CartsController.EmptyPayload | tech-interview-backend-entry-level-main/app/controllers/carts_controller.rb:54-68 | a cart without items renders no lines and a zero total |
| CartsController.PayloadExample | tech-interview-backend-entry-level-main/app/controllers/carts_controller.rb:54-68 | 2 × 10.00 and 1 × 20.00 render two lines of 20.00 and a total of 40.00 |
| CartsController.QuantityExamples | tech-interview-backend-entry-level-main/app/controllers/carts_controller.rb:9-10 | incrementing 1 then 2 gives 3; incrementing 1 then setting 5 gives 5 |
| CartsController.SetCart | tech-interview-backend-entry-level-main/app/controllers/carts_controller.rb:49-52 | the session's cart when it exists, otherwise a new empty cart under the session's id or a fresh one; items unchanged |
| CartsController.SaveAndRender | tech-interview-backend-entry-level-main/app/controllers/carts_controller.rb:9-14 | saves quantity q exactly when q > 0, with the total correctly updated, the other carts untouched and the payload rendered; otherwise `RecordInvalid` and nothing changes |
| CartsController.Create | tech-interview-backend-entry-level-main/app/controllers/carts_controller.rb:5-15 | a visit without a session id works on a new, empty cart; unknown product: `ProductNotFound` and no item changes; otherwise the quantity becomes old (0 if none) + q when that is positive, the total grows by q × price, and the payload is rendered, else `RecordInvalid` |
| CartsController.AddItem | tech-interview-backend-entry-level-main/app/controllers/carts_controller.rb:23-33 | as `create` (a new empty cart without a session id), but the quantity becomes q (overwrite), and the total changes by (q − old) × price |
| CartsController.RemoveItem | tech-interview-backend-entry-level-main/app/controllers/carts_controller.rb:36-45 | a visit without a session id gets a new, empty cart; a product in the cart loses exactly its item, the total drops by its line total, and the payload is rendered; otherwise `ItemNotFound("Produto não está no carrinho")` and nothing changes |
| CartsController.Show | tech-interview-backend-entry-level-main/app/controllers/carts_controller.rb:18-20 | renders the session's cart; without a session id a new cart, empty with total 0; the rendered total equals the cached one |
| AbandonJob.Stale | tech-interview-backend-entry-level-main/app/sidekiq/mark_cart_as_abandoned_job.rb:6 | defines the first query: not abandoned and `updated_at` strictly before `now` minus three hours |
| AbandonJob.Expired | tech-interview-backend-entry-level-main/app/sidekiq/mark_cart_as_abandoned_job.rb:11 | defines the second query: abandoned and `updated_at` strictly before `now` minus seven days |
| AbandonJob.MarkPhase | tech-interview-backend-entry-level-main/app/sidekiq/mark_cart_as_abandoned_job.rb:6-8 | defines the carts table after the first loop: every `Stale` cart `Marked`, every other cart as it was |
| AbandonJob.ExpiredIds | tech-interview-backend-entry-level-main/app/sidekiq/mark_cart_as_abandoned_job.rb:11 | defines the carts the second query selects |
| AbandonJob.SurvivorPhase | tech-interview-backend-entry-level-main/app/sidekiq/mark_cart_as_abandoned_job.rb:11-13 | defines the carts table after the second loop: the carts that are not `Expired`, each unchanged |
| AbandonJob.Sweep | tech-interview-backend-entry-level-main/app/sidekiq/mark_cart_as_abandoned_job.rb:4-14 | defines the carts table after a run: `SurvivorPhase` applied to `MarkPhase` |
| AbandonJob.SweptIds | tech-interview-backend-entry-level-main/app/sidekiq/mark_cart_as_abandoned_job.rb:4-14 | defines the carts a run destroys: the `Expired` carts of the table `MarkPhase` leaves |
| AbandonJob.MarkPhaseSpec | tech-interview-backend-entry-level-main/app/sidekiq/mark_cart_as_abandoned_job.rb:6-8 | the first phase keeps every cart, abandons exactly those idle over three hours, and leaves the others unchanged |
| AbandonJob.SurvivorPhaseSpec | tech-interview-backend-entry-level-main/app/sidekiq/mark_cart_as_abandoned_job.rb:11-13 | the second phase destroys exactly the abandoned carts updated more than seven days ago, never a non-abandoned one |
| AbandonJob.MarkStale | tech-interview-backend-entry-level-main/app/sidekiq/mark_cart_as_abandoned_job.rb:6-8 | the loop leaves the carts table as the first phase defines it, items untouched |
| AbandonJob.RemoveExpired | tech-interview-backend-entry-level-main/app/sidekiq/mark_cart_as_abandoned_job.rb:11-13 | the loop leaves the tables as the second phase defines them, the destroyed carts' items gone |
| AbandonJob.Perform | tech-interview-backend-entry-level-main/app/sidekiq/mark_cart_as_abandoned_job.rb:4-14 | a run leaves exactly the swept carts table and the items of the survivors, with the totals consistent |
| AbandonJob.SweepMonotone | tech-interview-backend-entry-level-main/app/sidekiq/mark_cart_as_abandoned_job.rb:4-14 | no cart is created and none is un-abandoned; a survivor is abandoned exactly when it was already or was idle |
| AbandonJob.SweepLeavesOthers | tech-interview-backend-entry-level-main/app/sidekiq/mark_cart_as_abandoned_job.rb:6-11 | a cart matching neither query comes out unchanged |
| AbandonJob.SweepWithoutTouch | tech-interview-backend-entry-level-main/app/sidekiq/mark_cart_as_abandoned_job.rb:4-14 | without a timestamp refresh on marking, a run destroys exactly the carts updated more than seven days ago |
| AbandonJob.SweepWithTouch | tech-interview-backend-entry-level-main/app/sidekiq/mark_cart_as_abandoned_job.rb:4-14 | with the refresh, a run destroys exactly the carts already abandoned and updated more than seven days ago |
| AbandonJob.SweepIdempotent | tech-interview-backend-entry-level-main/app/sidekiq/mark_cart_as_abandoned_job.rb:4-14 | a second run at the same moment changes nothing and destroys nothing |
| AbandonJob.SweepItems | tech-interview-backend-entry-level-main/app/sidekiq/mark_cart_as_abandoned_job.rb:11-13 | the destroyed carts' items are gone; every other cart keeps its items and its sum |
| AbandonJob.SweepExamples | tech-interview-backend-entry-level-main/app/sidekiq/mark_cart_as_abandoned_job.rb:4-14 | an abandoned cart 5 days old survives, one updated 1 hour ago is untouched, one 4 hours old is marked, an abandoned one 8 days old is destroyed |

## Left out

- HTTP and JSON: routes, status codes and serialisation are not modelled. An action returns its payload or an `Error` value instead of rendering.
- Session storage (`session[:cart_id] ||= @cart.id`): the session's id comes in as a parameter and the cart's id goes out.
- `String#to_i`: quantities arrive already parsed as integers.
- Decimal prices: prices are non-negative integer cents.
- Active Record: transactions, `includes` and `find_each` batching are not modelled. The sweep visits the selected carts one at a time, in an arbitrary order.
- Sidekiq: scheduling of the sweep, and races between the sweep and requests, are not modelled. A run is one sequential pass.
- The clock during a run: the job reads the time for `3.hours.ago`, again for `7.days.ago` after the first loop, and again in `remove_if_abandoned!`. The model uses one `now` for all three, so the "exactly" of `SweepWithoutTouch` and `SweepWithTouch` holds for a run at a single instant.
- The exact id sequence behaviour of the database after a cart is inserted under an explicit id: the model just moves its counter past that id.
- Product CRUD and the rest of the application are not part of this model. `app/models/product.rb` and `app/models/cart_item.rb` are not part of this model either. A non-negative price is assumed: `product.rb` is outside this model, and none of the tests cited here constrains the price. The positive quantity is the validation tested in `cart_item_spec.rb:42-45`. Saving an item is assumed not to touch the cart's `updated_at`.
- The carts table's column defaults: `find_or_create_by(id: ...)` (`carts_controller.rb:50`) sets neither `total_price` nor `abandoned`, and the database schema that gives them defaults is not part of this model. `NewCart` assumes total 0 and not abandoned, the values the cart factory sets (`cart_factory.rb:3-5`) and that `cart_spec.rb:110-113` and `carts_spec.rb:10-16` are consistent with.
- The bodies of `mark_as_abandoned!` and `remove_if_abandoned!` are not part of this model. Their effects are taken from `cart_spec.rb`. Whether marking refreshes `updated_at` is left open as the parameter `touch`.
