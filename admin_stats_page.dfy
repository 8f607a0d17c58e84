/** The statistics page: boxes per product, the five best and worst sellers, and the
    page's own totals of boxes and revenue. */
module AdminStatsPage {
  import opened Common
  import opened Lists
  import opened Dicts
  import opened OrderModel

  /** The answer to GET /admin/orders: an array, an object whose `orders` may be missing
      (or not an array), or a failed request. */
  datatype OrdersResponse =
    | ArrayBody(entries: seq<Order>)
    | ObjectBody(orders: Option<seq<Order>>)
    | FetchError

  /** `data`: the array, else `res.data.orders` when it is an array, else []. */
  function OrdersData(res: OrdersResponse): (r: seq<Order>)
    ensures res.ArrayBody? ==> r == res.entries
    ensures res.ObjectBody? ==> r == res.orders.GetOr([])
    ensures res.FetchError? ==> r == []
  {
    match res
    case ArrayBody(entries) => entries
    case ObjectBody(orders) => orders.GetOr([])
    case FetchError => []
  }

  /** `productCount`: the nested `forEach` adding each line's boxes under its product name. */
  method CountBoxes(data: seq<Order>) returns (productCount: Dict)
    ensures productCount == TallyBy(AllItems(data), ItemName, BoxCount)
  {
    productCount := [];
    var i := 0;
    while i < |data|
      invariant 0 <= i <= |data|
      invariant productCount == TallyBy(AllItems(data[..i]), ItemName, BoxCount)
    {
      productCount := TallyInto(productCount, AllItems(data[..i]), data[i].items, ItemName, BoxCount);
      AllItemsPrefix(data, i);
      i := i + 1;
    }
    assert data[..i] == data;
  }

  /** Each product name appears once, with the boxes of all its lines. */
  lemma ProductCountMeaning(data: seq<Order>)
    ensures DistinctKeys(TallyBy(AllItems(data), ItemName, BoxCount))
    ensures forall k :: Count(TallyBy(AllItems(data), ItemName, BoxCount), k) == AmountFor(AllItems(data), ItemName, BoxCount, k)
    ensures forall k :: k in Keys(TallyBy(AllItems(data), ItemName, BoxCount))
                        <==> exists i :: 0 <= i < |AllItems(data)| && ItemName(AllItems(data)[i]) == k
  {
    TallyMeaning(AllItems(data), ItemName, BoxCount);
  }

  /** An order without items changes none of the counts. */
  lemma EmptyOrderCountsNothing(data: seq<Order>, o: Order)
    requires o.items == []
    ensures TallyBy(AllItems(data + [o]), ItemName, BoxCount) == TallyBy(AllItems(data), ItemName, BoxCount)
  {
    AllItemsSnoc(data, o);
    assert AllItems(data) + o.items == AllItems(data);
  }

  function EntryCount(e: Entry): int {
    e.1
  }

  /** `Object.entries(productCount).sort((a, b) => b[1] - a[1])`. */
  function SortedProducts(productCount: Dict): (r: Dict)
    ensures multiset(r) == multiset(productCount)
    ensures SortedDesc(r, EntryCount)
  {
    SortDesc(productCount, EntryCount)
  }

  /** `Array.prototype.sort` is stable: entries with the same box count stay in the order
      `Object.entries` lists them, which decides who is kept at the fifth place. */
  lemma SortedProductsStable(productCount: Dict, n: int)
    ensures Filter(SortedProducts(productCount), KeyIs(EntryCount, n)) == Filter(productCount, KeyIs(EntryCount, n))
  {
    SortDescStable(productCount, EntryCount, n);
  }

  /** `sortedProducts.slice(0, 5)`. */
  function MostSold(sorted: Dict): Dict {
    sorted[..Min(5, |sorted|)]
  }

  /** `sortedProducts.slice(-5).reverse()`. */
  function LeastSold(sorted: Dict): Dict {
    Reverse(sorted[|sorted| - Min(5, |sorted|)..])
  }

  /** The best sellers are the first min(5, n) entries, highest first, and none of the
      other entries sold more boxes than any of them. */
  lemma MostSoldMeaning(productCount: Dict)
    ensures var sorted := SortedProducts(productCount);
            |MostSold(sorted)| == Min(5, |productCount|) && SortedDesc(MostSold(sorted), EntryCount)
    ensures var sorted := SortedProducts(productCount);
            forall i, j | 0 <= i < |MostSold(sorted)| <= j < |sorted| ::
              EntryCount(MostSold(sorted)[i]) >= EntryCount(sorted[j])
  {
    var sorted := SortedProducts(productCount);
    assert forall i | 0 <= i < |MostSold(sorted)| :: MostSold(sorted)[i] == sorted[i];
  }

  /** The worst sellers are the last min(5, n) entries, lowest first, and none of the other
      entries sold fewer boxes than any of them; with five products or fewer they are the best
      sellers in the opposite order. */
  lemma LeastSoldMeaning(productCount: Dict)
    ensures var sorted := SortedProducts(productCount);
            |LeastSold(sorted)| == Min(5, |productCount|) && SortedAsc(LeastSold(sorted), EntryCount)
    ensures var sorted := SortedProducts(productCount);
            forall i, j | 0 <= i < |LeastSold(sorted)| && 0 <= j < |sorted| - Min(5, |sorted|) ::
              EntryCount(LeastSold(sorted)[i]) <= EntryCount(sorted[j])
    ensures |productCount| <= 5 ==>
              var sorted := SortedProducts(productCount);
              LeastSold(sorted) == Reverse(MostSold(sorted)) && multiset(LeastSold(sorted)) == multiset(MostSold(sorted))
  {
    var sorted := SortedProducts(productCount);
    assert |sorted| == |multiset(sorted)| == |productCount|;
    LeastSoldAscending(sorted);
    if |sorted| <= 5 {
      SmallCatalogue(sorted);
    }
  }

  /** The last entries of a descending list, reversed, are ascending. */
  lemma LeastSoldAscending(sorted: Dict)
    requires SortedDesc(sorted, EntryCount)
    ensures |LeastSold(sorted)| == Min(5, |sorted|) && SortedAsc(LeastSold(sorted), EntryCount)
    ensures forall i, j | 0 <= i < |LeastSold(sorted)| && 0 <= j < |sorted| - Min(5, |sorted|) ::
              EntryCount(LeastSold(sorted)[i]) <= EntryCount(sorted[j])
  {
    var start := |sorted| - Min(5, |sorted|);
    var tail := sorted[start..];
    assert forall i | 0 <= i < |tail| :: tail[i] == sorted[start + i];
    ReverseOfDesc(tail, EntryCount);
    assert forall i | 0 <= i < |tail| :: LeastSold(sorted)[i] == sorted[|sorted| - 1 - i];
  }

  /** With five entries or fewer both lists hold every entry. */
  lemma SmallCatalogue(sorted: Dict)
    requires |sorted| <= 5
    ensures LeastSold(sorted) == Reverse(MostSold(sorted))
    ensures multiset(LeastSold(sorted)) == multiset(MostSold(sorted))
  {
    assert sorted[0..] == sorted;
    assert sorted[..|sorted|] == sorted;
    ReverseMultiset(sorted);
  }

  function OrderBoxes(o: Order): int {
    SumOf(o.items, BoxCount)
  }

  /** `totalBoxesSold`: the per-order box sums added over the orders. */
  function TotalBoxesSold(orders: seq<Order>): int {
    SumOf(orders, OrderBoxes)
  }

  /** `Number(item.boxes || 0) * Number(item.price || 0)`: quantity and units per box play no part. */
  function BoxRevenue(item: LineItem): int {
    BoxCount(item) * OrNum(item.price, 0)
  }

  function OrderBoxRevenue(o: Order): int {
    SumOf(o.items, BoxRevenue)
  }

  /** `totalRevenue` of the page. */
  function PageRevenue(orders: seq<Order>): int {
    SumOf(orders, OrderBoxRevenue)
  }

  /** The boxes sold are the sum of the product counts, and the page's revenue is the boxes
      times the price over all lines; neither changes with a line's loose quantity. */
  lemma TotalsMeaning(orders: seq<Order>)
    ensures TotalBoxesSold(orders) == Total(TallyBy(AllItems(orders), ItemName, BoxCount))
    ensures TotalBoxesSold(orders) == SumOf(AllItems(orders), BoxCount)
    ensures PageRevenue(orders) == SumOf(AllItems(orders), BoxRevenue)
  {
    SumOverOrders(orders, BoxCount, OrderBoxes);
    SumOverOrders(orders, BoxRevenue, OrderBoxRevenue);
    TallyMeaning(AllItems(orders), ItemName, BoxCount);
  }

  /** A line of one box of six units plus three loose units at 2 the page counts as revenue 2,
      while the admin statistics count the nine units, 18. */
  lemma RevenueCountsBoxes()
    ensures var item := LineItem(None, Some("Apa"), Some(2), None, Some(1), Some(6), Some(3), None);
            BoxRevenue(item) == 2 && LineUnits(item, 0) * OrNum(item.price, 0) == 18
  {
  }

  /** The page's state after loading. */
  class StatsPage {
    var orders: seq<Order>
    var mostSold: Dict
    var leastSold: Dict

    constructor ()
      ensures orders == [] && mostSold == [] && leastSold == []
    {
      orders, mostSold, leastSold := [], [], [];
    }

    /** The effect: a failed request leaves everything as it was; otherwise the data and the
        two rankings computed from it. */
    method Load(res: OrdersResponse)
      modifies this
      ensures res.FetchError? ==> orders == old(orders) && mostSold == old(mostSold) && leastSold == old(leastSold)
      ensures !res.FetchError? ==>
                var sorted := SortedProducts(TallyBy(AllItems(OrdersData(res)), ItemName, BoxCount));
                orders == OrdersData(res) && mostSold == MostSold(sorted) && leastSold == LeastSold(sorted)
    {
      if res.FetchError? {
        return;
      }
      var data := OrdersData(res);
      var productCount := CountBoxes(data);
      var sorted := SortedProducts(productCount);
      orders, mostSold, leastSold := data, MostSold(sorted), LeastSold(sorted);
    }

    function TotalOrders(): int
      reads this
    {
      |orders|
    }
  }
}
