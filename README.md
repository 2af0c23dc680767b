# Orders service, modelled in Dafny

This project models `OrdersService` of the orders microservice
(`src/orders/orders.service.ts`). The service keeps orders and their line items
in a relational store. It asks a separate product service for product names
and prices. It offers four operations:

- `create` looks up the requested products and prices each line item with
  the first product whose id matches, or 0 when none matches. It totals
  amount and quantity, writes the order with its items in one step, and
  returns the order with product names joined onto the items.
- `findAll` filters by an optional status, counts the matches and returns one
  page (`skip = (page-1)*limit`, `take = limit`) with `total`, `page` and
  `lastPage = ceil(total/limit)`.
- `findOne` fails with a 404 error for an unknown id. Otherwise it looks the
  order's products up again and joins their names onto the items.
- `changeStatus` reuses `findOne`. It writes nothing when the status is
  already the requested one, and otherwise updates that order's status only.

Files:

- `wrappers.dfy` holds `Option` and `Result`.
- `order_types.dfy` holds the records and the error type.
- `pricing.dfy` holds the price lookup, the totals, the stored items and the name join, with their lemmas.
- `paging.dfy` holds the filter, the skip/take slice and the ceiling division, with their lemmas.
- `orders_service.dfy` holds the class `OrdersService`. Its store is a map from id to order plus the sequence of ids in the store's default order.

Modelling choices:

- Prices are integers (for example cents). Quantities, page and limit are natural numbers.
- The product service is a function `ProductLookup` passed to each call that uses it. Each call applies it to exactly the ids the source sends: the requested items' ids in `create`, the stored items' ids in `findOne`. A failure is passed on as `Error.Remote` without change. The source types the payload `string | object`; the model types it `string`.
- The store picks a new order's id as any id not yet in use. The model proves that such an id always exists. The new order goes at the end of the default order.
- New orders get the status `Pending` (`OrderTypes.InitialStatus`). The database schema and the status enumeration are not part of this model, so both this default and the three status values are assumptions.
- `findAll` returns rows without items (`OrderRow`), and so does the update in `changeStatus`. `create` and `findOne` return the order with its named items (`OrderView`). This matches which store calls include the items in the source.
- An absent status in `changeStatus` is treated as an update that changes no field. The result is an `Updated` reply and the stored order stays as it was.
- The class invariant `Valid` includes the data-model invariant that each stored order's `totalAmount` and `totalItems` are the sums over its stored items. `Create` establishes it and `ChangeStatus` preserves it.
- `FindAll` and `FindOne` have no `modifies` clause, so they cannot change the store.

## Model

| member | source | states |
|---|---|---|
| Pricing.FindProduct | src/orders/orders.service.ts:33-35 | the result is absent exactly when no product has the id; otherwise it is the product at the first index whose id matches |
| Pricing.FindProductFirstWins | src/orders/orders.service.ts:34 | on a concatenated product list, a match in the front part wins over any later product with the same id |
| Pricing.UnitPriceOfFirstMatch | src/orders/orders.service.ts:33-35 | the unit price and the joined name both come from the first product with a matching id |
| Pricing.UnmatchedProductIsFree | src/orders/orders.service.ts:35 | an id that matches no returned product is priced 0 and gets no name |
| Pricing.RequestedIds | src/orders/orders.service.ts:19 | the ids sent by `create` are the requested items' product ids, one per item, in order |
| Pricing.StoredIds | src/orders/orders.service.ts:121 | the ids sent by `findOne` are the stored items' product ids, one per item, in order |
| Pricing.UnitPrice | src/orders/orders.service.ts:33-35 | definition (no contract): the first matching product's price, or 0; its meaning is stated by `UnitPriceOfFirstMatch` and `UnmatchedProductIsFree` (the same expression is repeated at lines 53-55) |
| Pricing.ProductName | src/orders/orders.service.ts:73-74 | definition (no contract): the first matching product's name, or none; the same expression is at lines 137-138; stated by `UnitPriceOfFirstMatch` and `UnmatchedProductIsFree` |
| Pricing.TotalAmount | src/orders/orders.service.ts:31-40 | definition (no contract): the left fold from 0 adding unit price times quantity per requested item; stated by `TotalAmountAppend`, `TotalsMatchStoredItems`, `TotalAmountNonNegative` and `ExampleOrder` |
| Pricing.TotalItems | src/orders/orders.service.ts:42-44 | definition (no contract): the left fold from 0 adding each requested quantity; stated by `TotalItemsAppend`, `TotalsMatchStoredItems`, `TotalItemsAtLeastLines` and `ExampleOrder` |
| Pricing.BuildItem | src/orders/orders.service.ts:53-57 | definition (no contract): one stored item with the request's product id and quantity and its unit price; stated through `BuildItems` |
| Pricing.NewOrder | src/orders/orders.service.ts:46-61 | definition (no contract): the order written by `create`, with both totals, the initial status and the built items; stated by `NewOrderConsistent` |
| Pricing.View | src/orders/orders.service.ts:69-76 | definition (no contract): the order's columns with its items named; the same join is at lines 133-140; stated through `Annotate` and `StripAnnotate` |
| Pricing.BuildItems | src/orders/orders.service.ts:52-58 | one stored item per request, in order, with the request's product id and quantity and the resolved unit price |
| Pricing.BuildItemsSnoc | src/orders/orders.service.ts:52-58 | the items for a request list are the items for all but the last request followed by the last request's item |
| Pricing.TotalAmountAppend | src/orders/orders.service.ts:31-40 | the amount of two request lists back to back is the sum of their amounts |
| Pricing.TotalItemsAppend | src/orders/orders.service.ts:42-44 | the item count of two request lists back to back is the sum of their counts |
| Pricing.ItemsAmountSnoc | src/orders/orders.service.ts:31-40 | appending a stored item adds its price times quantity to the items' amount |
| Pricing.ItemsQuantitySnoc | src/orders/orders.service.ts:42-44 | appending a stored item adds its quantity to the items' count |
| Pricing.TotalsMatchStoredItems | src/orders/orders.service.ts:31-58 | `totalAmount` equals the sum of price times quantity over the stored items, and `totalItems` the sum of their quantities |
| Pricing.NewOrderConsistent | src/orders/orders.service.ts:46-61 | the order `create` writes satisfies the store invariant (totals equal the sums over its items) and has the initial status |
| Pricing.TotalAmountNonNegative | src/orders/orders.service.ts:31-40 | with non-negative product prices the total amount is non-negative |
| Pricing.TotalItemsAtLeastLines | src/orders/orders.service.ts:42-44 | with positive quantities, `totalItems` is at least the number of line items |
| Pricing.Annotate | src/orders/orders.service.ts:69-76 | the response has one item per stored item, with product id, quantity and price unchanged and the name of the first matching product (or none) |
| Pricing.Strip | src/orders/orders.service.ts:71-75 | dropping the names keeps the number of items |
| Pricing.StripAnnotate | src/orders/orders.service.ts:133-140 | dropping the joined names gives back exactly the stored items |
| Pricing.StoredIdsOfNewOrder | src/orders/orders.service.ts:121 | for an order `create` wrote, `findOne` sends the same product ids `create` sent |
| Pricing.ExampleOrder | src/orders/orders.service.ts:31-76 | products P1 (A, 10) and P2 (B, 5) with quantities 2 and 1 give amount 25, count 3 and names A and B |
| Paging.Matches | src/orders/orders.service.ts:82 | definition (no contract): every row matches when no status is given, otherwise rows with that status; stated through `Filter` |
| Paging.Filter | src/orders/orders.service.ts:81-83 | exactly the rows with the given status are kept; with no status every row is kept unchanged |
| Paging.FilterAppend | src/orders/orders.service.ts:81-91 | filtering keeps store order: the filter of two lists back to back is the two filters back to back |
| Paging.FilterIdempotent | src/orders/orders.service.ts:81-83 | filtering twice by the same status is the same as filtering once |
| Paging.Slice | src/orders/orders.service.ts:88-92 | the page holds the rows from position `skip` on, at most `take` of them, and none when `skip` is past the end |
| Paging.CeilDiv | src/orders/orders.service.ts:96 | `lastPage` is the least number of pages of size `limit` that hold `total` rows |
| Paging.Paginate | src/orders/orders.service.ts:79-98 | `total` counts the matches, `page` is echoed, `lastPage` is `ceil(total/limit)`, and `data` is the matches from `(page-1)*limit` on, at most `limit` of them |
| Paging.PageNonEmptyIffInRange | src/orders/orders.service.ts:88-96 | a page has rows exactly when its number is at most `lastPage` |
| Paging.EarlierPagesAreFull | src/orders/orders.service.ts:88-96 | every page before the last one holds exactly `limit` rows |
| Paging.PositionOnPage | src/orders/orders.service.ts:88-92 | position m of page q+1 holds match number q*limit+m |
| Paging.EveryMatchOnItsPage | src/orders/orders.service.ts:88-92 | match number i is on page `i/limit + 1` at position `i%limit` |
| Paging.EmptyStorePage | src/orders/orders.service.ts:79-98 | on an empty store, every page is empty with total 0 and `lastPage` 0 |
| Paging.TwentyFiveOrders | src/orders/orders.service.ts:79-98 | with 25 matches and limit 10, page 3 holds the last 5 matches and `lastPage` is 3 |
| OrderTypes.NotFoundMessage | src/orders/orders.service.ts:118 | definition (no contract): the message `Order with id <id> not found`; stated by `NotFoundMessageNamesId` |
| OrderTypes.NotFoundMessageNamesId | src/orders/orders.service.ts:115-119 | the not-found message contains the requested id |
| Orders.RowsOf | src/orders/orders.service.ts:88-92 | the store's rows are the listed orders' columns, in default order |
| Orders.WithStatus | src/orders/orders.service.ts:150-153 | definition (no contract): the order with its status replaced, or unchanged when no status is given; stated through `ChangeStatus` and `ChangeStatusTwice` |
| Orders.FreshIdExists | src/orders/orders.service.ts:46 | the store can always choose an id that no stored order has |
| Orders.OrdersService.constructor | src/orders/orders.service.ts:13-16 | a new service starts with an empty, valid store (the source constructor only injects its two clients and attaches to whatever the database holds; every other member requires only `Valid()`, so an empty store is one admissible starting state) |
| Orders.OrdersService.Create | src/orders/orders.service.ts:18-77 | a failed lookup returns its payload with the store unchanged; otherwise exactly one order is added under a fresh id, with the computed totals, the initial status and the built items, and the response is that order with names joined on |
| Orders.OrdersService.FindAll | src/orders/orders.service.ts:79-98 | the result is the page `Paginate` describes, taken over the store's rows in default order |
| Orders.OrdersService.FindOne | src/orders/orders.service.ts:101-141 | an unknown id gives status 404 with `Order with id <id> not found`; a failed lookup returns its payload; otherwise the stored order with names joined on |
| Orders.OrdersService.ChangeStatus | src/orders/orders.service.ts:143-154 | an unknown id or a failed lookup writes nothing and returns the error; the current status writes nothing and returns the named order; otherwise only that order's status changes, to the one requested, and its row is returned |
| Orders.CreateThenFindOne | src/orders/orders.service.ts:18-141 | with the same product answers, `findOne` right after `create` returns what `create` returned |
| Orders.ChangeStatusTwice | src/orders/orders.service.ts:143-154 | with the product service answering the same both times, a repeated status change is a no-op: the second call returns the order unchanged, and the store (orders and default order) differs from the start only in that one order's status |

## Left out

- Transport to the product service (`ClientProxy.send`, `firstValueFrom`, `catchError`, `RpcException` wrapping): the lookup is a function argument, and its failure payload is passed through as-is.
- The persistence engine (`src/prisma/prisma.service.ts`) and its adapter wiring: the store is a map plus a default order. Atomicity of the order-and-items write holds because the model writes both in one step.
- Generated UUIDs and the `createdAt`/`updatedAt` timestamps: a new id is any unused id, and timestamps are not modelled. A `changeStatus` with an absent status therefore leaves the modelled store unchanged.
- The `paid` column: the service code never reads or writes it.
- Where the store puts a new order in its default order is unspecified. The model appends it.
- Each operation is modelled as one atomic step on the store. In the source, `findAll` counts and then fetches the page in two separate store calls, and `changeStatus` reads through `findOne` and writes later. Under concurrent requests `meta.total` can therefore disagree with `data`, and two identical status changes can both write (last write wins). The model does not capture these interleavings.
- The store's default order is modelled as insertion order, and status updates leave it unchanged (`ChangeStatus` keeps `ids`). `findMany` has no `orderBy`, so the source promises neither. Likewise the items included with an order in `create` and `findOne` come back in the store's order, since that `include` has no `orderBy` either; the model returns them in request order (`Create`, `CreateThenFindOne`).
- Environment and configuration loading (`src/config/envs.ts`): it happens at module load and is outside the service.
- Request validation (the DTO classes with their class-validator decorators): the model takes already-validated inputs. `FindAll` requires `page >= 1` and `limit >= 1`, as the pagination payload promises. The concrete status values come from generated code that is not part of this model, so `OrderStatus` lists three assumed values.
- JavaScript number semantics (floating-point prices, `Number(...)` coercions, `Math.ceil` over floats): prices are integers and page, limit and counts are natural numbers.
- `create` prices an item whose product the lookup did not return at 0 instead of failing. The model keeps this behaviour as the code has it (`Pricing.UnmatchedProductIsFree`).
