# sky-take-out service core in Dafny

This project models the business rules of the sky-take-out food-ordering backend. That backend is a Spring service with four service classes at its core:

- **Orders.** A customer places an order from their shopping cart, can cancel it or order it again, and the shop's admin accepts, rejects, cancels, dispatches and completes it.
- **Shopping cart.** The cart merges repeated items into one row with a unit count.
- **Setmeals.** A setmeal (a set meal made of several dishes) can only be deleted while it is off sale. It can only be put on sale when none of its dishes is stopped.
- **Dishes.** A dish can only be deleted when it is off sale and belongs to no setmeal.

The relational database becomes one in-memory store, `Store.Db`:

- one field per table: orders, order details, address books, cart rows, dishes, dish flavours, setmeals and setmeal–dish links;
- the auto-increment counters of the tables with generated keys;
- a ghost log of the refunds the service issues.

Each mapper call becomes a pure function over those tables. The services are classes over the store, and their methods perform the source's steps one by one. Each method's contract ties the new store to a specification function of the old one. Lemmas prove what the business rules promise about those functions, for example:

- adding an item and removing it again gives back the cart;
- adding a new item twice merges into one row;
- replacing a setmeal's links leaves every other setmeal's links alone;
- a batch delete keeps every link and every flavour pointing at an existing row;
- the admin's dish summary of an order can be parsed back into its items.

Modules:

- `Domain` (domain.dfy) holds the entities, the status constants and the business errors.
- `Seqs` (seqs.dfy) holds order-preserving selection, the shape of every `where` query.
- `Store` (store.dfy) holds the tables and the mapper queries.
- `Cart` (cart.dfy) models the shopping cart.
- `DishSummary` (summary.dfy) models the admin's order summary text.
- `Orders` (orders.dfy) models the order lifecycle.
- `Setmeals` (setmeals.dfy) and `Dishes` (dishes.dfy) model catalogue administration.

Status values follow the order entity:

- order status: 1 pending payment, 2 waiting for acceptance, 3 accepted, 4 out for delivery, 5 completed, 6 cancelled;
- pay status: 0 unpaid, 1 paid, 2 refunded;
- catalogue status: 1 on sale, 0 stopped.

An exception the source throws becomes an `Outcome.Fail` or `Result.Err` carrying the business error. A `NullPointerException` becomes `Fail(NullReference)`.

Several guards are absent in the source, and the model keeps them absent:

- `confirm`, `complete` and `cancelByAdmin` change an order whatever its status. `Orders.UnguardedMovesReopenRefunded` shows that confirming or completing can leave a refunded order that is no longer cancelled. `Orders.AdminCancelSkipsLifecycle` shows that the admin cancel can cancel an order that is out for delivery or completed.
- `save` and `update` of a setmeal or a dish write the request's status with the rest of the row. A setmeal can so be created on sale, or put on sale, with stopped or missing dishes and without the check `startOrStop` makes, and a dish of an on-sale setmeal can be stopped. `Setmeals.SetmealService.Save`, `Setmeals.SetmealService.Update` and `Dishes.DishService.Update` reproduce this.
- Stopping a dish is never refused. `Dishes.StopBreaksOnSaleComplete` shows that this can leave an on-sale setmeal holding a stopped dish.

## Model

| member | source | states |
|---|---|---|
| Store.SetmealIdsByDishIds | sky-server/src/main/java/com/sky/mapper/SetmealDishMapper.java:18 | the setmeal-id list is empty exactly when no link names any of the given dishes |
| Store.DishIdsBySetmealId | sky-server/src/main/java/com/sky/mapper/SetmealDishMapper.java:45-46 | a dish id is returned exactly when some link joins that setmeal to that dish |
| Store.DeleteByIds | sky-server/src/main/java/com/sky/service/impl/DishServiceImpl.java:103-104 | `deleteByIds` (and `setmealMapper.deleteBatch`): a row survives exactly when it existed and its key is not among those deleted, and survivors are unchanged |
| Store.Matches | sky-server/src/main/java/com/sky/service/impl/ShoppingCartServiceImpl.java:38-43 | a cart row matches only rows of the query's user; a query with no item fields matches every row of the user; a query naming a dish matches only rows of that dish |
| Store.Patched | sky-server/src/main/java/com/sky/mapper/OrderMapper.java:27 | an update with no column set leaves the order as it was; each column the patch sets takes the patch's value, and every other column is kept |
| Store.UpdateOrder | sky-server/src/main/java/com/sky/mapper/OrderMapper.java:27 | the set of order ids is unchanged, every other order is kept, and the order named is rewritten by Patched; a missing id changes nothing |
| Store.CountStatus | sky-server/src/main/java/com/sky/mapper/OrderMapper.java:29-30 | a status count never exceeds the number of orders |
| Store.OnSaleSetmealIds | sky-server/src/main/java/com/sky/mapper/SetmealMapper.java:26 | every id returned was asked for and names an on-sale setmeal; none is returned iff no id asked for names an on-sale setmeal |
| Cart.Source | sky-server/src/main/java/com/sky/service/impl/ShoppingCartServiceImpl.java:53-68 | a price source exists iff the named dish exists, or, with no dish named, the named setmeal exists; it is that dish's (otherwise that setmeal's) name, image and price |
| Cart.AddToCart | sky-server/src/main/java/com/sky/service/impl/ShoppingCartServiceImpl.java:43-73 | fails with a null dereference iff no row matches and there is no source. With a match: same rows, the first match is kept with one more unit, all others unchanged. Otherwise: the old cart plus one row under the next id for the user and item, holding one unit, priced from the source and created now |
| Cart.SubFromCart | sky-server/src/main/java/com/sky/service/impl/ShoppingCartServiceImpl.java:109-124 | no match leaves the cart unchanged; a first match at one unit is removed and every other row kept in order; otherwise the first match is kept with one unit fewer and the other rows are unchanged; no row appears that was not there |
| Cart.FirstMatch | sky-server/src/main/java/com/sky/service/impl/ShoppingCartServiceImpl.java:43-47 | the row `list.get(0)` reads matches the item, and no earlier row does; none means no row matches |
| Cart.FirstMatchIsListHead | sky-server/src/main/java/com/sky/service/impl/ShoppingCartServiceImpl.java:109-112 | the matching list is empty iff nothing matches, and its head is the first matching row of the table |
| Cart.UpdateNumberByIdAt | sky-server/src/main/java/com/sky/service/impl/ShoppingCartServiceImpl.java:48-49 | with distinct ids, updating the number by a row's id rewrites that row and no other |
| Cart.DeleteByIdAt | sky-server/src/main/java/com/sky/service/impl/ShoppingCartServiceImpl.java:115-117 | with distinct ids, deleting by a row's id removes that row and no other |
| Cart.AddCountsOneUnit | sky-server/src/main/java/com/sky/service/impl/ShoppingCartServiceImpl.java:36-75 | a successful add puts exactly one more unit into the user's cart; other users' rows are unchanged |
| Cart.AddMergesIntoListHead | sky-server/src/main/java/com/sky/service/impl/ShoppingCartServiceImpl.java:43-49 | with distinct ids and a non-empty list, the add equals `updateNumberById` on the list's head with one more unit |
| Cart.AddInsertsNewEntry | sky-server/src/main/java/com/sky/service/impl/ShoppingCartServiceImpl.java:50-72 | with an empty list and a source, the add appends the one-unit row built from the request, the source and the current time |
| Cart.AddFailsOnlyOnMissingSource | sky-server/src/main/java/com/sky/service/impl/ShoppingCartServiceImpl.java:50-68 | an add fails iff no row matches and the named dish (or, without a dish, the setmeal) is missing; the failure is a null dereference |
| Cart.AddKeepsCartValid | sky-server/src/main/java/com/sky/service/impl/ShoppingCartServiceImpl.java:43-73 | after an add, ids stay distinct and below the counter and every row holds a unit; an insert consumes one id |
| Cart.AddTwiceMerges | sky-server/src/main/java/com/sky/service/impl/ShoppingCartServiceImpl.java:43-72 | adding an absent item twice gives one new row with two units, not two rows |
| Cart.SubUndoesAdd | sky-server/src/main/java/com/sky/service/impl/ShoppingCartServiceImpl.java:103-126 | a remove right after a successful add gives back the cart as it was |
| Cart.SubCountsOneUnit | sky-server/src/main/java/com/sky/service/impl/ShoppingCartServiceImpl.java:109-124 | a remove with no match changes nothing, otherwise takes exactly one unit from the user; other users' rows are unchanged |
| Cart.SubKeepsCartValid | sky-server/src/main/java/com/sky/service/impl/ShoppingCartServiceImpl.java:115-121 | after a remove, every row still holds at least one unit and ids stay distinct |
| Cart.ClearEmptiesOnlyUser | sky-server/src/main/java/com/sky/service/impl/ShoppingCartServiceImpl.java:93-97 | clearing leaves the user no rows and every other user all of theirs |
| Cart.FilterKeepsCartValid | sky-server/src/main/java/com/sky/service/impl/ShoppingCartServiceImpl.java:93-97 | deleting any selection of rows keeps ids distinct and below the counter and every row holding a unit |
| Cart.ShoppingCartService.AddShoppingCart | sky-server/src/main/java/com/sky/service/impl/ShoppingCartServiceImpl.java:36-75 | the new table is the merge-or-insert of AddToCart, or unchanged with its error; the id counter moves only on insert |
| Cart.ShoppingCartService.ShowShoppingCart | sky-server/src/main/java/com/sky/service/impl/ShoppingCartServiceImpl.java:81-88 | a row is listed iff it is in the cart and belongs to the user |
| Cart.ShoppingCartService.CleanShoppingCart | sky-server/src/main/java/com/sky/service/impl/ShoppingCartServiceImpl.java:93-97 | the user's rows are gone; every other user's rows are kept |
| Cart.ShoppingCartService.SubShoppingCart | sky-server/src/main/java/com/sky/service/impl/ShoppingCartServiceImpl.java:103-126 | the new table is SubFromCart of the old: the first match is deleted at one unit and decremented otherwise; no match is a no-op |
| DishSummary.DishLine | sky-server/src/main/java/com/sky/service/impl/OrderServiceImpl.java:375-380 | one rendered item starts with the dish name followed by `*`, ends with `;`, and for a name without separators has no other `;` |
| DishSummary.OrderDishes | sky-server/src/main/java/com/sky/service/impl/OrderServiceImpl.java:375-380 | the summary is empty iff there are no line items, and otherwise ends with `;` |
| DishSummary.Items | sky-server/src/main/java/com/sky/service/impl/OrderServiceImpl.java:375-380 | the name and quantity of each line item, one per item, in order |
| DishSummary.ItemsRoundTrip | sky-server/src/main/java/com/sky/service/impl/OrderServiceImpl.java:375-380 | with no `*` or `;` in any name, parsing the summary gives back Items |
| DishSummary.IntToString | sky-server/src/main/java/com/sky/service/impl/OrderServiceImpl.java:376 | a rendered quantity contains neither separator `*` nor `;` |
| DishSummary.IntRoundTrip | sky-server/src/main/java/com/sky/service/impl/OrderServiceImpl.java:376 | a rendered quantity parses back to itself |
| DishSummary.OrderDishesAppend | sky-server/src/main/java/com/sky/service/impl/OrderServiceImpl.java:375-380 | the summary of two runs of line items is the concatenation of their summaries |
| DishSummary.ParseFirstLine | sky-server/src/main/java/com/sky/service/impl/OrderServiceImpl.java:375-380 | parsing a summary that starts with one rendered item reads back that item's name and quantity, then the rest |
| DishSummary.OrderDishesRoundTrip | sky-server/src/main/java/com/sky/service/impl/OrderServiceImpl.java:375-380 | with no `*` or `;` in any name, parsing the summary gives back every item's name and quantity, in order |
| Orders.PlacedOrder | sky-server/src/main/java/com/sky/service/impl/OrderServiceImpl.java:79-89 | the new order belongs to the user, carries the given number and time, is pending payment and unpaid with no cancel or rejection data, takes consignee, phone and address from the address book and amount, address-book id and remark from the request |
| Orders.OrderLines | sky-server/src/main/java/com/sky/service/impl/OrderServiceImpl.java:92-97 | one line item per cart row, in order, each under the order id with the row's name, dish, setmeal, flavour, units and amount |
| Orders.Reordered | sky-server/src/main/java/com/sky/service/impl/OrderServiceImpl.java:205-222 | one cart row per line item, in order, each of the current user, created now, with strictly increasing ids in the range handed out, and the line item's name, dish, setmeal, flavour, units and amount |
| Orders.AdminCancelSkipsLifecycle | sky-server/src/main/java/com/sky/service/impl/OrderServiceImpl.java:319-339 | the admin cancel's patch cancels an order out for delivery or completed, a move the lifecycle does not allow |
| Orders.CountAfterUpdate | sky-server/src/main/java/com/sky/mapper/OrderMapper.java:29-30 | rewriting one order moves it from its old status count to its new one; other counts are unchanged |
| Orders.StatisticsWithinOrders | sky-server/src/main/java/com/sky/service/impl/OrderServiceImpl.java:258-270 | the three status counts add up to at most the number of orders |
| Orders.NewOrderLines | sky-server/src/main/java/com/sky/service/impl/OrderServiceImpl.java:92-98 | reading back a new order's line items gives exactly those inserted, one per cart row in cart order |
| Orders.NewLinesValid | sky-server/src/main/java/com/sky/service/impl/OrderServiceImpl.java:92-98 | line items copied from well-formed cart rows under the new order id keep every line item attached to an issued order id and holding a unit |
| Orders.CopyLines | sky-server/src/main/java/com/sky/service/impl/OrderServiceImpl.java:92-97 | the loop yields one line item per cart row, in cart order, each a copy of the row under the new order id |
| Orders.ReorderRestoresCart | sky-server/src/main/java/com/sky/service/impl/OrderServiceImpl.java:205-223 | reordering a just-submitted order recreates the cart rows it came from, with only id and creation time new |
| Orders.UnguardedMovesReopenRefunded | sky-server/src/main/java/com/sky/service/impl/OrderServiceImpl.java:275-281 | a refunded cancelled order that is confirmed or completed is refunded but not cancelled, a move the lifecycle does not allow |
| Orders.OrderService.SubmitOrder | sky-server/src/main/java/com/sky/service/impl/OrderServiceImpl.java:54-112 | a missing address book, then an empty cart, fail with nothing written. Otherwise: one fresh pending, unpaid order for the user with the address's consignee and phone; one line item per cart row, in order; the user's cart emptied and other carts kept; the returned id, number, amount and time are the order's |
| Orders.OrderService.Cancel | sky-server/src/main/java/com/sky/service/impl/OrderServiceImpl.java:167-198 | missing: not found. Accepted or later: status error, nothing changed. Otherwise: cancelled with the user reason and time, refunded iff it was waiting for acceptance, other columns and orders kept |
| Orders.OrderService.Repetition | sky-server/src/main/java/com/sky/service/impl/OrderServiceImpl.java:205-223 | the order's line items are appended to the cart as new rows of the current user with consecutive fresh ids |
| Orders.OrderService.Statistics | sky-server/src/main/java/com/sky/service/impl/OrderServiceImpl.java:258-270 | the counts of orders waiting, accepted and out for delivery; their sum is at most the number of orders |
| Orders.OrderService.Confirm | sky-server/src/main/java/com/sky/service/impl/OrderServiceImpl.java:275-281 | the order's status becomes accepted whatever it was; nothing else changes |
| Orders.OrderService.Rejection | sky-server/src/main/java/com/sky/service/impl/OrderServiceImpl.java:288-312 | not waiting for acceptance: status error, nothing changed. Otherwise: cancelled with the reason and time, refunded iff paid, other columns kept |
| Orders.OrderService.CancelByAdmin | sky-server/src/main/java/com/sky/service/impl/OrderServiceImpl.java:319-339 | missing: not found. Otherwise: cancelled whatever its status, with the reason and time, refunded iff paid |
| Orders.OrderService.Delivery | sky-server/src/main/java/com/sky/service/impl/OrderServiceImpl.java:345-355 | an accepted order goes out for delivery and moves one unit from the accepted count to the delivery count; any other status is a no-op; a missing id is a null dereference |
| Orders.OrderService.Complete | sky-server/src/main/java/com/sky/service/impl/OrderServiceImpl.java:361-368 | the order's status becomes completed whatever it was; nothing else changes |
| Orders.OrderService.GetOrderDishesById | sky-server/src/main/java/com/sky/service/impl/OrderServiceImpl.java:370-381 | the summary parses back to the names and quantities of the order's line items, in order |
| Setmeals.SetStatus | sky-server/src/main/java/com/sky/service/impl/SetmealServiceImpl.java:132-136 | the same setmeals exist; the one named takes the new status and keeps every other field; all others are unchanged |
| Setmeals.WithSetmealId | sky-server/src/main/java/com/sky/service/impl/SetmealServiceImpl.java:105-107 | every link points at the setmeal and is otherwise the link given |
| Setmeals.EnableCheck | sky-server/src/main/java/com/sky/service/impl/SetmealServiceImpl.java:120-129 | the guard passes iff every linked dish exists and is not stopped; otherwise it fails with a null dereference or the enable failure |
| Setmeals.ReplaceLinks | sky-server/src/main/java/com/sky/service/impl/SetmealServiceImpl.java:97-109 | after delete-then-insert, the setmeal's links are exactly the new ones, and every other setmeal's links are unchanged |
| Setmeals.DeletedSetmealsUnlinked | sky-server/src/main/java/com/sky/service/impl/SetmealServiceImpl.java:75-79 | after a batch delete, the deleted setmeals have no links and every other setmeal keeps its own |
| Setmeals.FreshSetmealLinks | sky-server/src/main/java/com/sky/service/impl/SetmealServiceImpl.java:52-61 | new links follow the setmeal's existing ones; under link integrity a new setmeal's links are exactly those given |
| Setmeals.DeleteBatchKeepsIntegrity | sky-server/src/main/java/com/sky/service/impl/SetmealServiceImpl.java:69-83 | deleting setmeals with their links keeps every link pointing at an existing setmeal and dish, and on-sale setmeals complete |
| Setmeals.SetmealService.Save | sky-server/src/main/java/com/sky/service/impl/SetmealServiceImpl.java:46-62 | the setmeal is stored under a fresh id, and the links given (none for a null list) are appended re-keyed to it |
| Setmeals.SetmealService.Rekey | sky-server/src/main/java/com/sky/service/impl/SetmealServiceImpl.java:57-59 | the loop points every given link at the setmeal |
| Setmeals.SetmealService.CheckEnable | sky-server/src/main/java/com/sky/service/impl/SetmealServiceImpl.java:120-129 | the loop over the linked dishes returns exactly the outcome EnableCheck specifies: the first missing or stopped dish decides the error |
| Setmeals.SetmealService.DeleteBatch | sky-server/src/main/java/com/sky/service/impl/SetmealServiceImpl.java:69-83 | refused, with nothing deleted, iff some id is on sale. Otherwise exactly those setmeals and their links go; the deleted setmeals have no links left and every other setmeal keeps its own |
| Setmeals.SetmealService.Update | sky-server/src/main/java/com/sky/service/impl/SetmealServiceImpl.java:90-110 | the row is rewritten and the setmeal's links become exactly the given ones, re-keyed; other links are kept. A null list fails after the row is written and the old links are deleted |
| Setmeals.SetmealService.StartOrStop | sky-server/src/main/java/com/sky/service/impl/SetmealServiceImpl.java:118-137 | putting on sale runs EnableCheck and changes nothing on failure; otherwise only the status changes. Stopping is never refused. On-sale setmeals stay complete |
| Dishes.SetDishStatus | sky-server/src/main/java/com/sky/service/impl/DishServiceImpl.java:167-173 | the same dishes exist; the one named takes the new status and keeps every other field; all others are unchanged |
| Dishes.WithDishId | sky-server/src/main/java/com/sky/service/impl/DishServiceImpl.java:49-51 | every flavour points at the dish and is otherwise the flavour given |
| Dishes.DeleteGuard | sky-server/src/main/java/com/sky/service/impl/DishServiceImpl.java:81-87 | the guard passes iff every id names a dish that is not on sale; otherwise it fails with a null dereference or the on-sale error |
| Dishes.ReplaceFlavors | sky-server/src/main/java/com/sky/service/impl/DishServiceImpl.java:122-131 | after delete-then-insert, the dish's flavours are exactly the new ones, and every other dish's flavours are unchanged |
| Dishes.DeletedDishesFlavorless | sky-server/src/main/java/com/sky/service/impl/DishServiceImpl.java:103-107 | after a batch delete, the deleted dishes have no flavours and every other dish keeps its own |
| Dishes.DeleteBatchKeepsIntegrity | sky-server/src/main/java/com/sky/service/impl/DishServiceImpl.java:89-107 | when no link names a deleted dish, links and flavours keep pointing at existing dishes, and on-sale setmeals stay complete |
| Dishes.StartKeepsOnSaleComplete | sky-server/src/main/java/com/sky/service/impl/DishServiceImpl.java:167-173 | a status change to anything but stopped keeps on-sale setmeals complete |
| Dishes.StopBreaksOnSaleComplete | sky-server/src/main/java/com/sky/service/impl/DishServiceImpl.java:167-173 | stopping a dish of an on-sale setmeal leaves that setmeal on sale with a stopped dish |
| Dishes.NewDishFlavors | sky-server/src/main/java/com/sky/service/impl/DishServiceImpl.java:41-54 | under flavour integrity, a new dish's flavours are exactly those inserted, and integrity is kept |
| Dishes.DishService.Save | sky-server/src/main/java/com/sky/service/impl/DishServiceImpl.java:35-56 | the dish is stored under a fresh id, and the flavours given (none for a null list) are appended re-keyed to it; under flavour integrity they are exactly its flavours |
| Dishes.DishService.Rekey | sky-server/src/main/java/com/sky/service/impl/DishServiceImpl.java:123-125 | the loop points every given flavour at the dish |
| Dishes.DishService.CheckDeletable | sky-server/src/main/java/com/sky/service/impl/DishServiceImpl.java:81-87 | the loop over the ids returns exactly the outcome DeleteGuard specifies: the first missing or on-sale dish decides the error |
| Dishes.DishService.DeleteBatch | sky-server/src/main/java/com/sky/service/impl/DishServiceImpl.java:79-109 | first error of the per-id guard, then the setmeal-link refusal, each with nothing deleted. Otherwise exactly those dishes and their flavours go; the deleted dishes have no flavours left and every other dish keeps its own |
| Dishes.DishService.Update | sky-server/src/main/java/com/sky/service/impl/DishServiceImpl.java:116-132 | a null flavour list fails with nothing changed (the transaction rolls back). Otherwise the row is rewritten and the dish's flavours become exactly the given ones; others are kept |
| Dishes.DishService.StartOrStrop | sky-server/src/main/java/com/sky/service/impl/DishServiceImpl.java:167-173 | only the dish's status changes, unconditionally; a missing id changes nothing |

## Left out

- The HTTP controllers, the Redis cache eviction, the object-storage upload and the request logging. They are routing and external I/O.
- Pagination and the plain queries: `pageQuery`, `pageQuery4Admin`, `getById`, `list`, `getDishItemById` and `getByCategoryId`. They are library plumbing and single-row reads, and hold no business rule.
- Mapper SQL. It is not part of this model; each query's assumed meaning is stated beside its function in `Store`:
  - A cart query matches on the user plus each non-null item field. Its rows come back in table order.
  - An order update writes exactly the non-null columns of the object handed to it.
  - `getStatusByIds` returns the on-sale ones among the ids given.
  - An update of a missing id changes no row.
- A batch mapper call on an empty list (`insertBatch`, `getStatusByIds`, `getSetmealIdsByDishIds`, `deleteByIds`, `deleteBatch`) is taken as a no-op or an empty result. `repetition` does not guard its `insertBatch`, so for an unknown order id, or an order without line items, the model leaves the cart unchanged. Whether the generated SQL would fail on an empty list is not modelled.
- The current user, the clock and the random order number are parameters. The WeChat refund call is only recorded in the ghost `refunds` log.
- `BeanUtils.copyProperties` becomes explicit field-by-field construction. The order's `address` column (the address book's `toString`) becomes the entry's `text` field.
- The `@AutoFill` audit columns (create and update time and user) are not modelled.
- Money (`BigDecimal`) is an unbounded `int`. It is only copied, never computed with.
- Long ids and Integer quantities are unbounded. Java overflow and `Integer` object identity are not modelled.
- `dish.getStatus() == StatusConstant.ENABLE` compares `Integer` objects by reference. It is modelled as value equality, which is what the boxed-integer cache gives for these small values.
- Transactions and concurrency: each method runs atomically and alone. The one exception is the rollback of `DishServiceImpl.update` on a null flavour list, which is modelled. `SetmealServiceImpl.update` has no transaction and keeps its partial writes.
- Setmeals.SetmealService.Update: the DTO's row fields are taken as all non-null, so the row update writes the whole setmeal row.
- Dishes.DishService.Update: the DTO's row fields are taken as all non-null, so the row update writes the whole dish row.
- Setmeals.SetmealService.Save: the contract does not say that the new links name existing dishes. The source does not check this.
- Orders.OrderService.SubmitOrder: the address book is looked up by id only; the source does not check that it belongs to the current user either. The order takes its amount and remark from the DTO; the other DTO fields are not modelled.
