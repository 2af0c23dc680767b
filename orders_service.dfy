/** `OrdersService`: the order store and the four operations on it. The store is a
    map from order id to order, plus the sequence of ids in the store's default order;
    the product service is a lookup function passed to each call that uses it. */
module Orders {
  import opened Wrappers
  import opened OrderTypes
  import opened Pricing
  import opened Paging

  /** The product service's `validate_products` operation: given product ids, the
      products it knows (id, name, price), or its failure payload. */
  type ProductLookup = seq<string> -> Result<seq<Product>, string>

  /** What `changeStatus` returns: the named order when there was nothing to change,
      otherwise the updated row as the store returns it. */
  datatype StatusReply = Unchanged(view: OrderView) | Updated(row: OrderRow)

  /** The rows of the orders named by `ids`, in that order. */
  function RowsOf(orders: map<string, Order>, ids: seq<string>): (rows: seq<OrderRow>)
    requires forall i :: 0 <= i < |ids| ==> ids[i] in orders
    ensures |rows| == |ids| && forall i :: 0 <= i < |ids| ==> rows[i] == Row(orders[ids[i]])
  {
    if ids == [] then [] else [Row(orders[ids[0]])] + RowsOf(orders, ids[1..])
  }

  /** An order after a status update; an absent status leaves the order as it is. */
  function WithStatus(o: Order, status: Option<OrderStatus>): Order {
    match status
    case Some(s) => o.(status := s)
    case None => o
  }

  /** Some natural number exceeds the length of every id in use. */
  lemma {:induction false} LongerThanAll(used: set<string>) returns (n: nat)
    ensures forall s :: s in used ==> |s| < n
  {
    if used == {} {
      n := 0;
    } else {
      var x :| x in used;
      var m := LongerThanAll(used - {x});
      n := if |x| < m then m else |x| + 1;
    }
  }

  /** The store can always produce an id that no order has. */
  lemma FreshIdExists(used: set<string>)
    ensures exists id :: id !in used
  {
    var n := LongerThanAll(used);
    var id := seq(n, _ => '0');
    assert id !in used;
  }

  class OrdersService {
    /** The stored orders by id. */
    var orders: map<string, Order>
    /** The ids of the stored orders, in the store's default order. */
    var ids: seq<string>

    /** Store invariant: `ids` lists every stored order exactly once, each order is
        stored under its own id, and its totals are the sums over its items. */
    ghost predicate Valid()
      reads this
    {
      && (forall i :: 0 <= i < |ids| ==> ids[i] in orders)
      && (forall id :: id in orders ==> id in ids)
      && (forall i, j :: 0 <= i < j < |ids| ==> ids[i] != ids[j])
      && (forall id :: id in orders ==> orders[id].id == id && Consistent(orders[id]))
    }

    /** The store's orders as rows, in default order. */
    function Rows(): seq<OrderRow>
      reads this
      requires Valid()
    {
      RowsOf(orders, ids)
    }

    constructor ()
      ensures Valid()
      ensures orders == map[] && ids == []
    {
      orders := map[];
      ids := [];
    }

    /** `create`: look the requested products up, then write one order with its items.
        A failed lookup is returned before anything is written. */
    method Create(requests: seq<ItemRequest>, lookup: ProductLookup) returns (r: Result<OrderView, Error>)
      requires Valid()
      modifies this
      ensures Valid()
      ensures lookup(RequestedIds(requests)).Failure? ==>
                && r == Failure(Remote(lookup(RequestedIds(requests)).error))
                && orders == old(orders) && ids == old(ids)
      ensures lookup(RequestedIds(requests)).Success? ==>
                var products := lookup(RequestedIds(requests)).value;
                && r.Success?
                && r.value.id !in old(orders)
                && orders == old(orders)[r.value.id := NewOrder(r.value.id, products, requests)]
                && ids == old(ids) + [r.value.id]
                && r.value == View(orders[r.value.id], products)
    {
      var reply := lookup(RequestedIds(requests));
      if reply.Failure? {
        return Failure(Remote(reply.error));
      }
      var products := reply.value;
      FreshIdExists(orders.Keys);
      var id :| id !in orders;
      var order := NewOrder(id, products, requests);
      NewOrderConsistent(id, products, requests);
      assert id !in ids;
      orders := orders[id := order];
      ids := ids + [id];
      r := Success(View(order, products));
    }

    /** `findAll`: the page of orders matching the optional status, with its meta. */
    method FindAll(page: nat, limit: nat, status: Option<OrderStatus>) returns (r: PageResult)
      requires Valid()
      requires page >= 1 && limit >= 1
      ensures r == Paginate(Rows(), page, limit, status)
    {
      r := Paginate(RowsOf(orders, ids), page, limit, status);
    }

    /** `findOne`: a missing id is a not-found error naming the id; otherwise the
        order's products are looked up again and their names joined on. */
    method FindOne(id: string, lookup: ProductLookup) returns (r: Result<OrderView, Error>)
      ensures id !in orders ==> r == Failure(Rpc(NOT_FOUND, NotFoundMessage(id)))
      ensures id in orders && lookup(StoredIds(orders[id].items)).Failure? ==>
                r == Failure(Remote(lookup(StoredIds(orders[id].items)).error))
      ensures id in orders && lookup(StoredIds(orders[id].items)).Success? ==>
                r == Success(View(orders[id], lookup(StoredIds(orders[id].items)).value))
    {
      if id !in orders {
        return Failure(Rpc(NOT_FOUND, NotFoundMessage(id)));
      }
      var order := orders[id];
      var reply := lookup(StoredIds(order.items));
      if reply.Failure? {
        return Failure(Remote(reply.error));
      }
      r := Success(View(order, reply.value));
    }

    /** `changeStatus`: reuses `findOne`; a status equal to the current one is a no-op,
        otherwise only that order's status is written. */
    method ChangeStatus(id: string, status: Option<OrderStatus>, lookup: ProductLookup) returns (r: Result<StatusReply, Error>)
      requires Valid()
      modifies this
      ensures Valid()
      ensures ids == old(ids) && orders.Keys == old(orders).Keys
      ensures id !in old(orders) ==>
                r == Failure(Rpc(NOT_FOUND, NotFoundMessage(id))) && orders == old(orders)
      ensures id in old(orders) && lookup(StoredIds(old(orders)[id].items)).Failure? ==>
                r == Failure(Remote(lookup(StoredIds(old(orders)[id].items)).error)) && orders == old(orders)
      ensures id in old(orders) && lookup(StoredIds(old(orders)[id].items)).Success? ==>
                var products := lookup(StoredIds(old(orders)[id].items)).value;
                if status == Some(old(orders)[id].status) then
                  r == Success(Unchanged(View(old(orders)[id], products))) && orders == old(orders)
                else
                  && orders == old(orders)[id := WithStatus(old(orders)[id], status)]
                  && r == Success(Updated(Row(orders[id])))
    {
      var found := FindOne(id, lookup);
      if found.Failure? {
        return Failure(found.error);
      }
      var order := found.value;
      if Some(order.status) == status {
        return Success(Unchanged(order));
      }
      var updated := WithStatus(orders[id], status);
      orders := orders[id := updated];
      r := Success(Updated(Row(updated)));
    }
  }

  /** Looking up an order right after creating it, with the product service answering
      the same, returns what `create` returned. */
  method CreateThenFindOne(svc: OrdersService, requests: seq<ItemRequest>, lookup: ProductLookup)
    returns (created: Result<OrderView, Error>, found: Result<OrderView, Error>)
    requires svc.Valid()
    modifies svc
    ensures svc.Valid()
    ensures created.Success? ==> found == created
  {
    created := svc.Create(requests, lookup);
    if created.Success? {
      StoredIdsOfNewOrder(lookup(RequestedIds(requests)).value, requests);
    }
    found := svc.FindOne(if created.Success? then created.value.id else "", lookup);
  }

  /** Repeating a status change, with the product service answering the same both
      times, is a no-op: the second call writes nothing and returns the order unchanged. */
  method ChangeStatusTwice(svc: OrdersService, id: string, s: OrderStatus, lookup: ProductLookup)
    returns (first: Result<StatusReply, Error>, second: Result<StatusReply, Error>)
    requires svc.Valid()
    modifies svc
    ensures svc.Valid()
    ensures first.Success? ==> id in svc.orders && svc.orders[id].status == s
    ensures first.Success? ==> second.Success? && second.value.Unchanged?
    ensures first.Success? ==> id in old(svc.orders) && svc.orders == old(svc.orders)[id := old(svc.orders)[id].(status := s)]
                               && svc.ids == old(svc.ids)
  {
    first := svc.ChangeStatus(id, Some(s), lookup);
    second := svc.ChangeStatus(id, Some(s), lookup);
  }
}
