/** Pagination of `OrdersService.findAll`: status filter, skip/take slice and page count. */
module Paging {
  import opened Wrappers
  import opened OrderTypes

  /** The `meta` part of a page: number of matching orders, requested page, number of pages. */
  datatype Meta = Meta(total: nat, page: nat, lastPage: nat)

  /** One page of orders with its `meta`. */
  datatype PageResult = PageResult(data: seq<OrderRow>, meta: Meta)

  function Min(a: nat, b: nat): nat {
    if a <= b then a else b
  }

  /** The `where` clause: a status filter applies only when a status is given. */
  predicate Matches(row: OrderRow, status: Option<OrderStatus>) {
    status.None? || row.status == status.value
  }

  /** The orders that match `status`, in store order. */
  function Filter(rows: seq<OrderRow>, status: Option<OrderStatus>): (r: seq<OrderRow>)
    ensures |r| <= |rows|
    ensures forall x :: x in r <==> x in rows && Matches(x, status)
    ensures status.None? ==> r == rows
  {
    if rows == [] then []
    else (if Matches(rows[0], status) then [rows[0]] else []) + Filter(rows[1..], status)
  }

  /** `skip`/`take`: at most `take` rows starting at position `skip`. */
  function Slice(rows: seq<OrderRow>, skip: nat, take: nat): (page: seq<OrderRow>)
    ensures |page| == if skip >= |rows| then 0 else Min(take, |rows| - skip)
    ensures forall i :: 0 <= i < |page| ==> page[i] == rows[skip + i]
  {
    if skip >= |rows| then [] else rows[skip..skip + Min(take, |rows| - skip)]
  }

  /** `Math.ceil(n / d)` on naturals: the least q with q * d >= n. */
  function CeilDiv(n: nat, d: nat): (q: nat)
    requires d >= 1
    ensures q * d >= n
    ensures q == 0 || (q - 1) * d < n
  {
    var q := (n + d - 1) / d;
    var rem := (n + d - 1) % d;
    assert n + d - 1 == q * d + rem && 0 <= rem < d;
    assert q * d == n + d - 1 - rem;
    assert q >= 1 ==> (q - 1) * d == q * d - d;
    q
  }

  /** The result of `findAll` over the store's rows (in store order). */
  function Paginate(rows: seq<OrderRow>, page: nat, limit: nat, status: Option<OrderStatus>): (r: PageResult)
    requires page >= 1 && limit >= 1
    ensures r.meta.total == |Filter(rows, status)| && r.meta.page == page
    ensures r.meta.lastPage * limit >= r.meta.total
    ensures r.meta.lastPage == 0 || (r.meta.lastPage - 1) * limit < r.meta.total
    ensures |r.data| <= limit
    ensures |r.data| == if (page - 1) * limit >= r.meta.total then 0 else Min(limit, r.meta.total - (page - 1) * limit)
    ensures forall i :: 0 <= i < |r.data| ==> r.data[i] == Filter(rows, status)[(page - 1) * limit + i]
  {
    var matching := Filter(rows, status);
    var total := |matching|;
    PageResult(Slice(matching, (page - 1) * limit, limit), Meta(total, page, CeilDiv(total, limit)))
  }

  // ---------------------------------------------------------------- lemmas

  /** Filtering keeps the store order: it distributes over concatenation. */
  lemma {:induction false} FilterAppend(a: seq<OrderRow>, b: seq<OrderRow>, status: Option<OrderStatus>)
    ensures Filter(a + b, status) == Filter(a, status) + Filter(b, status)
  {
    if a != [] {
      assert (a + b)[1..] == a[1..] + b;
      FilterAppend(a[1..], b, status);
    } else {
      assert a + b == b;
    }
  }

  /** Filtering twice by the same status is filtering once. */
  lemma {:induction false} FilterIdempotent(rows: seq<OrderRow>, status: Option<OrderStatus>)
    ensures Filter(Filter(rows, status), status) == Filter(rows, status)
  {
    if rows != [] {
      var head := if Matches(rows[0], status) then [rows[0]] else [];
      FilterAppend(head, Filter(rows[1..], status), status);
      FilterIdempotent(rows[1..], status);
      assert Filter(head, status) == head by {
        if head != [] { assert head[1..] == []; }
      }
    }
  }

  lemma MulMono(a: nat, b: nat, c: nat)
    requires a <= b
    ensures a * c <= b * c
  {
  }

  /** A page has rows exactly when its number is between 1 and `lastPage`. */
  lemma PageNonEmptyIffInRange(rows: seq<OrderRow>, page: nat, limit: nat, status: Option<OrderStatus>)
    requires page >= 1 && limit >= 1
    ensures var r := Paginate(rows, page, limit, status);
            |r.data| > 0 <==> page <= r.meta.lastPage
  {
    var r := Paginate(rows, page, limit, status);
    var last := r.meta.lastPage;
    if page <= last {
      MulMono(page - 1, last - 1, limit);
    } else {
      MulMono(last, page - 1, limit);
    }
  }

  /** Every page before the last one is full. */
  lemma EarlierPagesAreFull(rows: seq<OrderRow>, page: nat, limit: nat, status: Option<OrderStatus>)
    requires page >= 1 && limit >= 1
    requires page < Paginate(rows, page, limit, status).meta.lastPage
    ensures |Paginate(rows, page, limit, status).data| == limit
  {
    var r := Paginate(rows, page, limit, status);
    MulMono(page, r.meta.lastPage - 1, limit);
  }

  lemma DivMod(i: nat, d: nat)
    requires d >= 1
    ensures i == (i / d) * d + i % d && i % d < d
  {
  }

  lemma PositionOnPage(rows: seq<OrderRow>, q: nat, m: nat, limit: nat, status: Option<OrderStatus>)
    requires m < limit && q * limit + m < |Filter(rows, status)|
    ensures var r := Paginate(rows, q + 1, limit, status);
            m < |r.data| && r.data[m] == Filter(rows, status)[q * limit + m]
  {
    var r := Paginate(rows, q + 1, limit, status);
    assert (q + 1 - 1) * limit == q * limit;
  }

  /** Every matching order appears on the page and at the position its index gives:
      match number i is at position `i % limit` of page `i / limit + 1`. */
  lemma EveryMatchOnItsPage(rows: seq<OrderRow>, limit: nat, status: Option<OrderStatus>, i: nat)
    returns (page: nat, position: nat)
    requires limit >= 1 && i < |Filter(rows, status)|
    ensures page == i / limit + 1 && position == i % limit
    ensures var r := Paginate(rows, page, limit, status);
            position < |r.data| && r.data[position] == Filter(rows, status)[i]
  {
    page, position := i / limit + 1, i % limit;
    assert (page - 1) * limit + position == i && position < limit by {
      DivMod(i, limit);
    }
    PositionOnPage(rows, page - 1, position, limit, status);
  }

  /** An empty store gives no rows, a total of 0 and no pages. */
  lemma EmptyStorePage(page: nat, limit: nat, status: Option<OrderStatus>)
    requires page >= 1 && limit >= 1
    ensures Paginate([], page, limit, status) == PageResult([], Meta(0, page, 0))
  {
  }

  /** 25 matching orders in pages of 10: page 3 holds the last 5 and is the last page. */
  lemma TwentyFiveOrders(rows: seq<OrderRow>, status: Option<OrderStatus>)
    requires |Filter(rows, status)| == 25
    ensures var r := Paginate(rows, 3, 10, status);
            |r.data| == 5 && r.meta.lastPage == 3 && r.meta.total == 25
            && r.data == Filter(rows, status)[20..25]
  {
  }
}
