/** The shop-orders page: the shop option list and the per-product quantity aggregation,
    which reads an order's `products` lines. */
module MagazineOrders {
  import opened Common
  import opened Lists
  import opened Dicts
  import opened OrderModel
  import AdminRoute

  /** A line of the `products` array the page expects: `productName`, the name of a populated
      `productId`, and `quantity`. */
  datatype LegacyLine = LegacyLine(productName: Option<string>, productIdName: Option<string>, quantity: int)

  /** An order as JSON, with the `products` field the page reads; `None` when the order has none. */
  datatype OrderJson = OrderJson(order: Order, products: Option<seq<LegacyLine>>)

  /** The JSON of an order saved by this backend: its lines are under `items`, there is no `products`. */
  function ToJson(o: Order): (r: OrderJson)
    ensures r.order == o && r.products.None?
  {
    OrderJson(o, None)
  }

  function AllToJson(orders: seq<Order>): (r: seq<OrderJson>)
    ensures |r| == |orders| && forall i | 0 <= i < |orders| :: r[i] == ToJson(orders[i])
  {
    seq(|orders|, i requires 0 <= i < |orders| => ToJson(orders[i]))
  }

  /** `item.productName || item.productId?.name`, used as an object key: a missing name is the key "undefined". */
  function LineKey(l: LegacyLine): string {
    if !FalsyStr(l.productName) then l.productName.value
    else match l.productIdName
      case Some(n) => n
      case None => "undefined"
  }

  function LineQuantity(l: LegacyLine): int {
    l.quantity
  }

  predicate HasProducts(o: OrderJson) {
    o.products.Some?
  }

  /** The `products` lines of all orders, order after order. */
  function AllLines(data: seq<OrderJson>): seq<LegacyLine> {
    if data == [] then [] else AllLines(data[..|data| - 1]) + data[|data| - 1].products.GetOr([])
  }

  lemma AllLinesSnoc(data: seq<OrderJson>, i: int)
    requires 0 <= i < |data| && HasProducts(data[i])
    ensures AllLines(data[..i + 1]) == AllLines(data[..i]) + data[i].products.value
  {
    assert data[..i + 1][..i] == data[..i];
  }

  /** The outcome of the aggregation: the quantities per key, or `None` when an order has no
      `products` and `order.products.forEach` throws. */
  function Aggregation(data: seq<OrderJson>): (r: Option<Dict>)
    ensures r.None? <==> exists i | 0 <= i < |data| :: !HasProducts(data[i])
    ensures r.Some? ==> r.value == TallyBy(AllLines(data), LineKey, LineQuantity)
  {
    if forall i | 0 <= i < |data| :: HasProducts(data[i]) then Some(TallyBy(AllLines(data), LineKey, LineQuantity))
    else None
  }

  /** The nested `forEach` of `fetchOrders`, stopping at the first order without `products`. */
  method Aggregate(data: seq<OrderJson>) returns (r: Option<Dict>)
    ensures r == Aggregation(data)
  {
    var stats: Dict := [];
    var i := 0;
    while i < |data|
      invariant 0 <= i <= |data|
      invariant forall k | 0 <= k < i :: HasProducts(data[k])
      invariant stats == TallyBy(AllLines(data[..i]), LineKey, LineQuantity)
    {
      if data[i].products.None? {
        assert !HasProducts(data[i]);
        return None;
      }
      stats := TallyInto(stats, AllLines(data[..i]), data[i].products.value, LineKey, LineQuantity);
      AllLinesSnoc(data, i);
      i := i + 1;
    }
    assert data[..i] == data;
    r := Some(stats);
  }

  /** Every order this backend stores lacks `products`, so any non-empty answer fails to aggregate,
      and an empty answer gives the empty table. */
  lemma StoredOrdersNeverAggregate(orders: seq<Order>)
    ensures |orders| > 0 ==> Aggregation(AllToJson(orders)).None?
    ensures orders == [] ==> Aggregation(AllToJson(orders)) == Some([])
  {
    if |orders| > 0 {
      assert !HasProducts(AllToJson(orders)[0]);
    }
  }

  /** The aggregated quantities: each key once, with the quantities of its lines, adding up to
      all quantities. */
  lemma AggregationMeaning(data: seq<OrderJson>)
    requires Aggregation(data).Some?
    ensures DistinctKeys(Aggregation(data).value)
    ensures forall k :: Count(Aggregation(data).value, k) == AmountFor(AllLines(data), LineKey, LineQuantity, k)
    ensures Total(Aggregation(data).value) == SumOf(AllLines(data), LineQuantity)
  {
    TallyMeaning(AllLines(data), LineKey, LineQuantity);
  }

  function Names(data: seq<OrderJson>): (r: seq<string>)
    ensures |r| == |data| && forall i | 0 <= i < |data| :: r[i] == data[i].order.magazinName
  {
    seq(|data|, i requires 0 <= i < |data| => data[i].order.magazinName)
  }

  /** The shop list holds each order's shop name exactly once. */
  lemma ShopOptions(data: seq<OrderJson>)
    ensures NoDuplicates(Distinct(Names(data)))
    ensures forall n :: n in Distinct(Names(data)) <==> exists i | 0 <= i < |data| :: data[i].order.magazinName == n
  {
    var d := Distinct(Names(data));
    forall n | n in d ensures exists i | 0 <= i < |data| :: data[i].order.magazinName == n {
      var i :| 0 <= i < |Names(data)| && Names(data)[i] == n;
    }
    forall n | exists i | 0 <= i < |data| :: data[i].order.magazinName == n ensures n in d {
      var i :| 0 <= i < |data| && data[i].order.magazinName == n;
      assert Names(data)[i] == n;
    }
  }

  /** A chosen shop always makes a valid request: the route answers with orders, not 400. */
  lemma RequestNeverRejected(orders: seq<Order>, shop: string, startDate: Option<int>, endDate: Option<int>)
    requires shop != ""
    ensures AdminRoute.MagazineOrders(orders, Some(shop), startDate, endDate).Some?
  {
  }

  /** The page's state. A date input is `None` while empty; the shop select is "" while no option is chosen. */
  class Page {
    var magazines: seq<string>
    var selectedMagazine: string
    var startDate: Option<int>
    var endDate: Option<int>
    var orders: seq<OrderJson>
    var productStats: Dict

    constructor ()
      ensures magazines == [] && selectedMagazine == "" && startDate.None? && endDate.None?
      ensures orders == [] && productStats == []
    {
      magazines, selectedMagazine, startDate, endDate := [], "", None, None;
      orders, productStats := [], [];
    }

    /** `fetchMagazines`: the distinct shop names of the answer; after a failed request, nothing. */
    method FetchMagazines(res: Option<seq<OrderJson>>)
      modifies this
      ensures res.Some? ==> magazines == Distinct(Names(res.value))
      ensures res.None? ==> magazines == old(magazines)
      ensures selectedMagazine == old(selectedMagazine) && startDate == old(startDate) && endDate == old(endDate)
      ensures orders == old(orders) && productStats == old(productStats)
    {
      if res.Some? {
        magazines := Distinct(Names(res.value));
      }
    }

    /** `fetchOrders`. Without a chosen shop, nothing is requested and nothing changes; after a
        failed request nothing changes; otherwise the orders are shown, and the table is
        replaced only when the aggregation completes. */
    method FetchOrders(res: Option<seq<OrderJson>>)
      modifies this
      ensures selectedMagazine == "" || res.None? ==> orders == old(orders) && productStats == old(productStats)
      ensures selectedMagazine != "" && res.Some? ==>
                orders == res.value
                && productStats == Aggregation(res.value).GetOr(old(productStats))
      ensures magazines == old(magazines) && selectedMagazine == old(selectedMagazine)
      ensures startDate == old(startDate) && endDate == old(endDate)
    {
      if selectedMagazine == "" || res.None? {
        return;
      }
      orders := res.value;
      var stats := Aggregate(res.value);
      if stats.Some? {
        productStats := stats.value;
      }
    }
  }

  /** The answer the backend gives for a shop that has orders leaves the table as it was. */
  lemma BackendAnswerKeepsTable(stored: seq<Order>, shop: string, startDate: Option<int>, endDate: Option<int>, old_stats: Dict)
    requires shop != ""
    requires |AdminRoute.MagazineOrders(stored, Some(shop), startDate, endDate).value| > 0
    ensures Aggregation(AllToJson(AdminRoute.MagazineOrders(stored, Some(shop), startDate, endDate).value)).GetOr(old_stats) == old_stats
  {
    StoredOrdersNeverAggregate(AdminRoute.MagazineOrders(stored, Some(shop), startDate, endDate).value);
  }
}
