/** Order aggregation: product lookup, totals, stored items and the name join
    performed by `OrdersService.create` and `OrdersService.findOne`. */
module Pricing {
  import opened Wrappers
  import opened OrderTypes

  /** The first product in `products` whose id is `id`, if any
      (JavaScript's `Array.prototype.find`). */
  function FindProduct(products: seq<Product>, id: string): (r: Option<Product>)
    ensures r.None? <==> (forall k :: 0 <= k < |products| ==> products[k].id != id)
    ensures r.Some? ==> exists k :: 0 <= k < |products| && products[k] == r.value && r.value.id == id
                                 && (forall j :: 0 <= j < k ==> products[j].id != id)
  {
    if products == [] then None
    else if products[0].id == id then Some(products[0])
    else
      var r := FindProduct(products[1..], id);
      assert r.Some? ==> exists k :: 1 <= k < |products| && products[k] == r.value && r.value.id == id
                                   && (forall j :: 0 <= j < k ==> products[j].id != id) by {
        if r.Some? {
          var k :| 0 <= k < |products[1..]| && products[1..][k] == r.value && r.value.id == id
                   && (forall j :: 0 <= j < k ==> products[1..][j].id != id);
          assert products[k + 1] == r.value;
          assert forall j :: 1 <= j < k + 1 ==> products[j].id == products[1..][j - 1].id;
        }
      }
      r
  }

  /** The unit price of product `id`: that of the first matching product, 0 when none matches. */
  function UnitPrice(products: seq<Product>, id: string): int {
    match FindProduct(products, id)
    case Some(p) => p.price
    case None => 0
  }

  /** The name of product `id`: that of the first matching product, absent when none matches. */
  function ProductName(products: seq<Product>, id: string): Option<string> {
    match FindProduct(products, id)
    case Some(p) => Some(p.name)
    case None => None
  }

  /** The product ids sent to the product service by `create`, one per requested item. */
  function RequestedIds(requests: seq<ItemRequest>): (ids: seq<string>)
    ensures |ids| == |requests| && forall i :: 0 <= i < |requests| ==> ids[i] == requests[i].productId
  {
    if requests == [] then [] else [requests[0].productId] + RequestedIds(requests[1..])
  }

  /** The product ids sent to the product service by `findOne`, one per stored item. */
  function StoredIds(items: seq<OrderItem>): (ids: seq<string>)
    ensures |ids| == |items| && forall i :: 0 <= i < |items| ==> ids[i] == items[i].productId
  {
    if items == [] then [] else [items[0].productId] + StoredIds(items[1..])
  }

  /** `totalAmount`: the left fold over the requested items of unit price times quantity. */
  function TotalAmount(products: seq<Product>, requests: seq<ItemRequest>): int
    decreases |requests|
  {
    if requests == [] then 0
    else
      var last := requests[|requests| - 1];
      TotalAmount(products, requests[..|requests| - 1]) + UnitPrice(products, last.productId) * last.quantity
  }

  /** `totalItems`: the left fold over the requested items of their quantities. */
  function TotalItems(requests: seq<ItemRequest>): nat
    decreases |requests|
  {
    if requests == [] then 0
    else TotalItems(requests[..|requests| - 1]) + requests[|requests| - 1].quantity
  }

  /** The stored line item for one request, priced like the total. */
  function BuildItem(products: seq<Product>, request: ItemRequest): OrderItem {
    OrderItem(request.productId, request.quantity, UnitPrice(products, request.productId))
  }

  /** The line items `create` stores: one per request, in request order. */
  function BuildItems(products: seq<Product>, requests: seq<ItemRequest>): (items: seq<OrderItem>)
    ensures |items| == |requests|
    ensures forall i :: 0 <= i < |requests| ==>
              && items[i].productId == requests[i].productId
              && items[i].quantity == requests[i].quantity
              && items[i].price == UnitPrice(products, requests[i].productId)
  {
    if requests == [] then [] else [BuildItem(products, requests[0])] + BuildItems(products, requests[1..])
  }

  /** Reference definition of an order's amount over its stored items (a right fold). */
  function ItemsAmount(items: seq<OrderItem>): int {
    if items == [] then 0 else items[0].price * items[0].quantity + ItemsAmount(items[1..])
  }

  /** Reference definition of an order's item count over its stored items (a right fold). */
  function ItemsQuantity(items: seq<OrderItem>): nat {
    if items == [] then 0 else items[0].quantity + ItemsQuantity(items[1..])
  }

  /** The invariant every stored order keeps: its totals are the sums over its items. */
  ghost predicate Consistent(o: Order) {
    o.totalAmount == ItemsAmount(o.items) && o.totalItems == ItemsQuantity(o.items)
  }

  /** The order `create` writes for `requests`, under the id the store chose. */
  function NewOrder(id: string, products: seq<Product>, requests: seq<ItemRequest>): Order {
    Order(id, TotalAmount(products, requests), TotalItems(requests), InitialStatus, BuildItems(products, requests))
  }

  /** The name join: each stored item with the name of its first matching product. */
  function Annotate(products: seq<Product>, items: seq<OrderItem>): (named: seq<NamedItem>)
    ensures |named| == |items|
    ensures forall i :: 0 <= i < |items| ==>
              && named[i].productId == items[i].productId
              && named[i].quantity == items[i].quantity
              && named[i].price == items[i].price
              && named[i].name == ProductName(products, items[i].productId)
  {
    if items == [] then []
    else
      var it := items[0];
      [NamedItem(it.productId, it.quantity, it.price, ProductName(products, it.productId))] + Annotate(products, items[1..])
  }

  /** Drops the joined names again. */
  function Strip(named: seq<NamedItem>): (items: seq<OrderItem>)
    ensures |items| == |named|
  {
    if named == [] then [] else [OrderItem(named[0].productId, named[0].quantity, named[0].price)] + Strip(named[1..])
  }

  /** An order as returned to the caller: its columns with its items named. */
  function View(o: Order, products: seq<Product>): OrderView {
    OrderView(o.id, o.totalAmount, o.totalItems, o.status, Annotate(products, o.items))
  }

  // ---------------------------------------------------------------- lemmas

  /** The price (and the name) of an item comes from the FIRST product with its id,
      whatever products follow. */
  lemma {:induction false} FindProductFirstWins(front: seq<Product>, back: seq<Product>, id: string)
    ensures FindProduct(front + back, id) ==
            if FindProduct(front, id).Some? then FindProduct(front, id) else FindProduct(back, id)
  {
    if front != [] {
      assert (front + back)[1..] == front[1..] + back;
      FindProductFirstWins(front[1..], back, id);
    } else {
      assert front + back == back;
    }
  }

  /** The unit price is that of the first product whose id matches. */
  lemma UnitPriceOfFirstMatch(products: seq<Product>, id: string, k: nat)
    requires k < |products| && products[k].id == id
    requires forall j :: 0 <= j < k ==> products[j].id != id
    ensures UnitPrice(products, id) == products[k].price
    ensures ProductName(products, id) == Some(products[k].name)
  {
    var r := FindProduct(products, id);
    var k' :| 0 <= k' < |products| && products[k'] == r.value && r.value.id == id
              && (forall j :: 0 <= j < k' ==> products[j].id != id);
    assert k' == k;
  }

  /** A requested product the product service did not return is priced 0 and has no name. */
  lemma UnmatchedProductIsFree(products: seq<Product>, id: string)
    requires forall p :: p in products ==> p.id != id
    ensures UnitPrice(products, id) == 0
    ensures ProductName(products, id) == None
  {
    assert forall k :: 0 <= k < |products| ==> products[k] in products;
  }

  lemma {:induction false} TotalAmountAppend(products: seq<Product>, a: seq<ItemRequest>, b: seq<ItemRequest>)
    ensures TotalAmount(products, a + b) == TotalAmount(products, a) + TotalAmount(products, b)
    decreases |b|
  {
    if b == [] {
      assert a + b == a;
    } else {
      var b' := b[..|b| - 1];
      assert (a + b)[..|a + b| - 1] == a + b';
      assert (a + b)[|a + b| - 1] == b[|b| - 1];
      TotalAmountAppend(products, a, b');
    }
  }

  lemma {:induction false} TotalItemsAppend(a: seq<ItemRequest>, b: seq<ItemRequest>)
    ensures TotalItems(a + b) == TotalItems(a) + TotalItems(b)
    decreases |b|
  {
    if b == [] {
      assert a + b == a;
    } else {
      var b' := b[..|b| - 1];
      assert (a + b)[..|a + b| - 1] == a + b';
      assert (a + b)[|a + b| - 1] == b[|b| - 1];
      TotalItemsAppend(a, b');
    }
  }

  lemma {:induction false} ItemsAmountSnoc(items: seq<OrderItem>, it: OrderItem)
    ensures ItemsAmount(items + [it]) == ItemsAmount(items) + it.price * it.quantity
  {
    if items != [] {
      assert (items + [it])[1..] == items[1..] + [it];
      ItemsAmountSnoc(items[1..], it);
    }
  }

  lemma {:induction false} ItemsQuantitySnoc(items: seq<OrderItem>, it: OrderItem)
    ensures ItemsQuantity(items + [it]) == ItemsQuantity(items) + it.quantity
  {
    if items != [] {
      assert (items + [it])[1..] == items[1..] + [it];
      ItemsQuantitySnoc(items[1..], it);
    }
  }

  lemma BuildItemsSnoc(products: seq<Product>, requests: seq<ItemRequest>)
    requires requests != []
    ensures BuildItems(products, requests)
         == BuildItems(products, requests[..|requests| - 1]) + [BuildItem(products, requests[|requests| - 1])]
  {
    var whole := BuildItems(products, requests);
    var split := BuildItems(products, requests[..|requests| - 1]) + [BuildItem(products, requests[|requests| - 1])];
    assert |whole| == |split|;
    forall i | 0 <= i < |whole| ensures whole[i] == split[i] {
    }
  }

  /** `totalAmount` equals the sum of price times quantity over the items `create` stores,
      and `totalItems` the sum of their quantities. */
  lemma {:induction false} TotalsMatchStoredItems(products: seq<Product>, requests: seq<ItemRequest>)
    ensures TotalAmount(products, requests) == ItemsAmount(BuildItems(products, requests))
    ensures TotalItems(requests) == ItemsQuantity(BuildItems(products, requests))
    decreases |requests|
  {
    if requests != [] {
      var init := requests[..|requests| - 1];
      var last := requests[|requests| - 1];
      BuildItemsSnoc(products, requests);
      TotalsMatchStoredItems(products, init);
      ItemsAmountSnoc(BuildItems(products, init), BuildItem(products, last));
      ItemsQuantitySnoc(BuildItems(products, init), BuildItem(products, last));
    }
  }

  /** Every order `create` writes satisfies the store invariant. */
  lemma NewOrderConsistent(id: string, products: seq<Product>, requests: seq<ItemRequest>)
    ensures Consistent(NewOrder(id, products, requests))
    ensures NewOrder(id, products, requests).status == InitialStatus
  {
    TotalsMatchStoredItems(products, requests);
  }

  /** With non-negative prices the amount is non-negative. */
  lemma {:induction false} TotalAmountNonNegative(products: seq<Product>, requests: seq<ItemRequest>)
    requires forall p :: p in products ==> p.price >= 0
    ensures TotalAmount(products, requests) >= 0
    decreases |requests|
  {
    if requests != [] {
      var last := requests[|requests| - 1];
      TotalAmountNonNegative(products, requests[..|requests| - 1]);
      match FindProduct(products, last.productId)
      case Some(p) =>
      case None =>
    }
  }

  /** An order with positive quantities counts at least one unit per line item. */
  lemma {:induction false} TotalItemsAtLeastLines(requests: seq<ItemRequest>)
    requires forall i :: 0 <= i < |requests| ==> requests[i].quantity >= 1
    ensures TotalItems(requests) >= |requests|
    decreases |requests|
  {
    if requests != [] {
      TotalItemsAtLeastLines(requests[..|requests| - 1]);
    }
  }

  /** The name join changes nothing but the name: removing the names gives back the stored items. */
  lemma {:induction false} StripAnnotate(products: seq<Product>, items: seq<OrderItem>)
    ensures Strip(Annotate(products, items)) == items
  {
    if items != [] {
      StripAnnotate(products, items[1..]);
    }
  }

  /** The product ids `findOne` sends for an order `create` wrote are those `create` sent. */
  lemma StoredIdsOfNewOrder(products: seq<Product>, requests: seq<ItemRequest>)
    ensures StoredIds(BuildItems(products, requests)) == RequestedIds(requests)
  {
  }

  /** The worked example: two products, prices 10 and 5, quantities 2 and 1. */
  lemma ExampleOrder()
    ensures var products := [Product("P1", "A", 10), Product("P2", "B", 5)];
            var requests := [ItemRequest("P1", 2), ItemRequest("P2", 1)];
            var named := Annotate(products, BuildItems(products, requests));
            && TotalAmount(products, requests) == 25
            && TotalItems(requests) == 3
            && |named| == 2 && named[0].name == Some("A") && named[1].name == Some("B")
  {
    var products := [Product("P1", "A", 10), Product("P2", "B", 5)];
    var requests := [ItemRequest("P1", 2), ItemRequest("P2", 1)];
    UnitPriceOfFirstMatch(products, "P1", 0);
    UnitPriceOfFirstMatch(products, "P2", 1);
    assert requests[..1] == [ItemRequest("P1", 2)];
    assert requests[..1][..0] == [];
  }
}
