/** GET /stats of the admin statistics routes: order count, revenue, units and boxes
    over all orders or over a date range. */
module AdminStatsRoute {
  import opened Common
  import opened Lists
  import opened OrderModel
  import OrdersRoute

  /** The response body `{ totalOrders, totalRevenue, totalUnits, totalBoxes }`. */
  datatype Stats = Stats(totalOrders: int, totalRevenue: int, totalUnits: int, totalBoxes: int)

  /** With both dates, `createdAt` from the start date up to the end date's "T23:59:59". */
  predicate InStatsRange(o: Order, startDate: int, endDate: int) {
    startDate <= o.createdAt <= LastSecondOfDay(endDate)
  }

  function RangeOf(startDate: int, endDate: int): Order -> bool {
    (o: Order) => InStatsRange(o, startDate, endDate)
  }

  /** The orders the query finds: a range only when both dates are given. */
  function StatsSelection(orders: seq<Order>, startDate: Option<int>, endDate: Option<int>): (r: seq<Order>)
    ensures |r| <= |orders|
    ensures startDate.None? || endDate.None? ==> r == orders
    ensures startDate.Some? && endDate.Some? ==>
              forall o :: o in r <==> o in orders && InStatsRange(o, startDate.value, endDate.value)
  {
    if startDate.Some? && endDate.Some? then
      var r := Filter(orders, RangeOf(startDate.value, endDate.value));
      assert forall o :: o in orders && InStatsRange(o, startDate.value, endDate.value) ==> o in r by {
        forall o | o in orders && InStatsRange(o, startDate.value, endDate.value) ensures o in r {
          var i :| 0 <= i < |orders| && orders[i] == o;
        }
      }
      r
    else orders
  }

  /** The query keeps each order in the range as often as it occurs and drops every other one;
      without both dates it keeps them all. */
  lemma StatsSelectionCounts(orders: seq<Order>, startDate: Option<int>, endDate: Option<int>)
    ensures forall o :: multiset(StatsSelection(orders, startDate, endDate))[o]
                        == if startDate.Some? && endDate.Some? && !InStatsRange(o, startDate.value, endDate.value)
                           then 0 else multiset(orders)[o]
  {
    if startDate.Some? && endDate.Some? {
      forall o ensures multiset(StatsSelection(orders, startDate, endDate))[o]
                       == if InStatsRange(o, startDate.value, endDate.value) then multiset(orders)[o] else 0
      {
        FilterMultiset(orders, RangeOf(startDate.value, endDate.value), o);
      }
    }
  }

  /** The query distributes over concatenation, so the found orders keep their stored order. */
  lemma StatsSelectionAppend(a: seq<Order>, b: seq<Order>, startDate: Option<int>, endDate: Option<int>)
    ensures StatsSelection(a + b, startDate, endDate)
            == StatsSelection(a, startDate, endDate) + StatsSelection(b, startDate, endDate)
  {
    if startDate.Some? && endDate.Some? {
      FilterAppend(a, b, RangeOf(startDate.value, endDate.value));
    }
  }

  /** `Number(item.quantity) + Number(item.boxes || 0) * Number(item.unitsPerBox || 0)`. */
  function StatsUnits(item: LineItem): int {
    LineUnits(item, 0)
  }

  /** `units * Number(item.price)`; the stored price, never a custom one. */
  function StatsRevenue(item: LineItem): int {
    LineUnits(item, 0) * Coalesce(item.price, 0)
  }

  /** The source's arithmetic is defined (not NaN) only on items that carry a quantity and a price. */
  predicate HasNumbers(item: LineItem) {
    item.quantity.Some? && item.price.Some?
  }

  predicate ItemsHaveNumbers(o: Order) {
    forall j | 0 <= j < |o.items| :: HasNumbers(o.items[j])
  }

  /** The inner `forEach`: the units, boxes and revenue of one order's items. */
  method ItemTotals(items: seq<LineItem>) returns (revenue: int, units: int, boxes: int)
    requires forall j | 0 <= j < |items| :: HasNumbers(items[j])
    ensures units == SumOf(items, StatsUnits)
    ensures boxes == SumOf(items, BoxCount)
    ensures revenue == SumOf(items, StatsRevenue)
  {
    revenue, units, boxes := 0, 0, 0;
    var j := 0;
    while j < |items|
      invariant 0 <= j <= |items|
      invariant units == SumOf(items[..j], StatsUnits)
      invariant boxes == SumOf(items[..j], BoxCount)
      invariant revenue == SumOf(items[..j], StatsRevenue)
    {
      var item := items[j];
      var b := OrNum(item.boxes, 0);
      var u := item.quantity.value + b * OrNum(item.unitsPerBox, 0);
      SumOfStep(items, j, StatsUnits);
      SumOfStep(items, j, BoxCount);
      SumOfStep(items, j, StatsRevenue);
      units := units + u;
      boxes := boxes + b;
      revenue := revenue + u * item.price.value;
      j := j + 1;
    }
    assert items[..j] == items;
  }

  /** The selected orders are stored orders, so their items carry quantities and prices too. */
  lemma SelectionHasNumbers(orders: seq<Order>, startDate: Option<int>, endDate: Option<int>)
    requires forall i | 0 <= i < |orders| :: ItemsHaveNumbers(orders[i])
    ensures forall i | 0 <= i < |StatsSelection(orders, startDate, endDate)| ::
              ItemsHaveNumbers(StatsSelection(orders, startDate, endDate)[i])
  {
    var r := StatsSelection(orders, startDate, endDate);
    forall i | 0 <= i < |r| ensures ItemsHaveNumbers(r[i]) {
      assert r[i] in orders;
      var k :| 0 <= k < |orders| && orders[k] == r[i];
    }
  }

  /** The handler: the selection, then one pass over every item of every selected order. */
  method ComputeStats(orders: seq<Order>, startDate: Option<int>, endDate: Option<int>) returns (s: Stats)
    requires forall i | 0 <= i < |orders| :: ItemsHaveNumbers(orders[i])
    ensures s.totalOrders == |StatsSelection(orders, startDate, endDate)|
    ensures s.totalUnits == SumOf(AllItems(StatsSelection(orders, startDate, endDate)), StatsUnits)
    ensures s.totalBoxes == SumOf(AllItems(StatsSelection(orders, startDate, endDate)), BoxCount)
    ensures s.totalRevenue == SumOf(AllItems(StatsSelection(orders, startDate, endDate)), StatsRevenue)
  {
    var selected := StatsSelection(orders, startDate, endDate);
    SelectionHasNumbers(orders, startDate, endDate);
    var revenue, units, boxes := 0, 0, 0;
    var i := 0;
    while i < |selected|
      invariant 0 <= i <= |selected|
      invariant units == SumOf(AllItems(selected[..i]), StatsUnits)
      invariant boxes == SumOf(AllItems(selected[..i]), BoxCount)
      invariant revenue == SumOf(AllItems(selected[..i]), StatsRevenue)
    {
      var r, u, b := ItemTotals(selected[i].items);
      AllItemsStep(selected, i, StatsUnits);
      AllItemsStep(selected, i, BoxCount);
      AllItemsStep(selected, i, StatsRevenue);
      units, boxes, revenue := units + u, boxes + b, revenue + r;
      i := i + 1;
    }
    assert selected[..i] == selected;
    s := Stats(|selected|, revenue, units, boxes);
  }

  /** An order saved by POST /create from items without a custom price, with quantities and
      prices present and a truthy `unitsPerBox`: its stored total is its revenue in the statistics. */
  lemma {:induction false} RevenueMatchesTotal(items: seq<LineItem>)
    requires forall i | 0 <= i < |items| ::
               items[i].customPrice.None? && !FalsyNum(items[i].unitsPerBox) && HasNumbers(items[i])
    ensures SumOf(CastItems(items), StatsRevenue) == OrdersRoute.OrderTotal(items)
  {
    if items != [] {
      var init := items[..|items| - 1];
      var last := items[|items| - 1];
      RevenueMatchesTotal(init);
      RevenueMatchesLine(last);
      assert CastItems(items) == CastItems(init) + [CastItem(last)];
      SumOfSnoc(CastItems(init), CastItem(last), StatsRevenue);
    }
  }

  /** One line without a custom price, with its quantity and price present and a truthy
      `unitsPerBox`, adds the same amount to both. */
  lemma RevenueMatchesLine(item: LineItem)
    requires item.customPrice.None? && !FalsyNum(item.unitsPerBox) && HasNumbers(item)
    ensures StatsRevenue(CastItem(item)) == OrdersRoute.LineTotal(item)
  {
    assert LineUnits(CastItem(item), 0) == LineUnits(item, 1);
  }

  /** A custom price agreed in the cart enters the order total but not the statistics' revenue. */
  lemma RevenueIgnoresCustomPrice()
    ensures var item := LineItem(Some("p"), Some("Apa"), Some(2), Some(3), Some(1), Some(6), Some(0), None);
            SumOf(CastItems([item]), StatsRevenue) == 12 && OrdersRoute.OrderTotal([item]) == 18
  {
    var item := LineItem(Some("p"), Some("Apa"), Some(2), Some(3), Some(1), Some(6), Some(0), None);
    assert CastItems([item]) == [CastItem(item)];
    assert SumOf([CastItem(item)], StatsRevenue) == SumOf([], StatsRevenue) + StatsRevenue(CastItem(item));
    assert OrdersRoute.OrderTotal([item]) == SumOf([], OrdersRoute.LineTotal) + OrdersRoute.LineTotal(item);
  }
}
