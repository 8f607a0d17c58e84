/** The admin dashboard: the option lists of shop and agent names, the shop and agent
    statistics computed on the client, and the total of an order row. */
module AdminDashboard {
  import opened Common
  import opened Lists
  import opened Dicts
  import opened OrderModel

  /** `Number(item.quantity || 0) + Number(item.boxes || 0) * Number(item.unitsPerBox || 0)`. */
  function DashUnits(item: LineItem): int {
    LineUnits(item, 0)
  }

  /** The units of a line times `Number(item.price || 0)`. */
  function DashRevenue(item: LineItem): int {
    DashUnits(item) * OrNum(item.price, 0)
  }

  function MagazinNames(orders: seq<Order>): (r: seq<string>)
    ensures |r| == |orders| && forall i | 0 <= i < |orders| :: r[i] == orders[i].magazinName
  {
    seq(|orders|, i requires 0 <= i < |orders| => orders[i].magazinName)
  }

  function AgentNames(orders: seq<Order>): (r: seq<string>)
    ensures |r| == |orders| && forall i | 0 <= i < |orders| :: r[i] == orders[i].agentName
  {
    seq(|orders|, i requires 0 <= i < |orders| => orders[i].agentName)
  }

  /** `[...new Set(orders.map(o => o.magazinName))]`: every shop name of the orders, each once. */
  lemma MagazineOptions(orders: seq<Order>)
    ensures NoDuplicates(Distinct(MagazinNames(orders)))
    ensures forall n :: n in Distinct(MagazinNames(orders)) <==> exists i | 0 <= i < |orders| :: orders[i].magazinName == n
  {
    var names := MagazinNames(orders);
    var d := Distinct(names);
    forall n | n in d ensures exists i | 0 <= i < |orders| :: orders[i].magazinName == n {
      var k :| 0 <= k < |d| && d[k] == n;
      var i :| 0 <= i < |names| && names[i] == n;
    }
    forall n | exists i | 0 <= i < |orders| :: orders[i].magazinName == n ensures n in d {
      var i :| 0 <= i < |orders| && orders[i].magazinName == n;
      assert names[i] == n;
    }
  }

  /** The same for the agent names. */
  lemma AgentOptions(orders: seq<Order>)
    ensures NoDuplicates(Distinct(AgentNames(orders)))
    ensures forall n :: n in Distinct(AgentNames(orders)) <==> exists i | 0 <= i < |orders| :: orders[i].agentName == n
  {
    var names := AgentNames(orders);
    var d := Distinct(names);
    forall n | n in d ensures exists i | 0 <= i < |orders| :: orders[i].agentName == n {
      var i :| 0 <= i < |names| && names[i] == n;
    }
    forall n | exists i | 0 <= i < |orders| :: orders[i].agentName == n ensures n in d {
      var i :| 0 <= i < |orders| && orders[i].agentName == n;
      assert names[i] == n;
    }
  }

  /** An order date within the optional bounds, each inclusive and each applied only when set. */
  predicate InWindow(o: Order, start: Option<int>, end: Option<int>) {
    (start.None? || o.createdAt >= start.value) && (end.None? || o.createdAt <= end.value)
  }

  /** Whose orders a section selects. */
  datatype Party = Shop | Agent

  function NameOf(o: Order, party: Party): string {
    match party
    case Shop => o.magazinName
    case Agent => o.agentName
  }

  function SelectedBy(party: Party, name: string, start: Option<int>, end: Option<int>): Order -> bool {
    (o: Order) => NameOf(o, party) == name && InWindow(o, start, end)
  }

  /** `orders.filter(...)` of either section: the orders of that name within the window, in
      their original order. */
  function Selection(orders: seq<Order>, party: Party, name: string, start: Option<int>, end: Option<int>): (r: seq<Order>)
    ensures |r| <= |orders|
    ensures forall o :: o in r <==> o in orders && NameOf(o, party) == name && InWindow(o, start, end)
  {
    var r := Filter(orders, SelectedBy(party, name, start, end));
    forall o | o in orders && NameOf(o, party) == name && InWindow(o, start, end) ensures o in r {
      var i :| 0 <= i < |orders| && orders[i] == o;
    }
    r
  }

  /** The selection keeps each chosen order as often as it occurs and drops every other one. */
  lemma SelectionCounts(orders: seq<Order>, party: Party, name: string, start: Option<int>, end: Option<int>)
    ensures forall o :: multiset(Selection(orders, party, name, start, end))[o]
                        == if NameOf(o, party) == name && InWindow(o, start, end) then multiset(orders)[o] else 0
  {
    forall o ensures multiset(Selection(orders, party, name, start, end))[o]
                     == if NameOf(o, party) == name && InWindow(o, start, end) then multiset(orders)[o] else 0
    {
      FilterMultiset(orders, SelectedBy(party, name, start, end), o);
    }
  }

  /** Selecting distributes over concatenation, so the chosen orders keep their original order. */
  lemma SelectionAppend(a: seq<Order>, b: seq<Order>, party: Party, name: string, start: Option<int>, end: Option<int>)
    ensures Selection(a + b, party, name, start, end)
            == Selection(a, party, name, start, end) + Selection(b, party, name, start, end)
  {
    FilterAppend(a, b, SelectedBy(party, name, start, end));
  }

  /** The statistics of the agent section. */
  datatype AgentStats = AgentStats(totalRevenue: int, totalOrders: int, products: Dict)

  /** The units per product name of a shop's selected orders: every name once, each with the
      units of its lines, all adding up to the units of all the selected lines. */
  lemma ShopStatsMeaning(selected: seq<Order>)
    ensures DistinctKeys(TallyBy(AllItems(selected), ItemName, DashUnits))
    ensures forall k :: Count(TallyBy(AllItems(selected), ItemName, DashUnits), k) == AmountFor(AllItems(selected), ItemName, DashUnits, k)
    ensures Total(TallyBy(AllItems(selected), ItemName, DashUnits)) == SumOf(AllItems(selected), DashUnits)
  {
    TallyMeaning(AllItems(selected), ItemName, DashUnits);
  }

  /** One row of an order's details table. */
  datatype DetailRow = DetailRow(name: string, quantity: int, boxes: int, unitsPerBox: int, totalUnits: int, amount: int)

  function Detail(item: LineItem): DetailRow {
    DetailRow(item.name.GetOr(""), OrNum(item.quantity, 0), OrNum(item.boxes, 0), OrNum(item.unitsPerBox, 0),
              DashUnits(item), DashRevenue(item))
  }

  function DetailRows(items: seq<LineItem>): (r: seq<DetailRow>)
    ensures |r| == |items| && forall i | 0 <= i < |items| :: r[i] == Detail(items[i])
  {
    seq(|items|, i requires 0 <= i < |items| => Detail(items[i]))
  }

  function RowAmount(d: DetailRow): int {
    d.amount
  }

  /** The total in an order's row: the `reduce` over its items. */
  function RowTotal(o: Order): int {
    SumOf(o.items, DashRevenue)
  }

  /** The row total is the sum of the amounts its details table shows, and each shown amount
      is the line's total units times its price. */
  lemma RowTotalIsSumOfDetails(o: Order)
    ensures RowTotal(o) == SumOf(DetailRows(o.items), RowAmount)
    ensures forall i | 0 <= i < |o.items| ::
              DetailRows(o.items)[i].amount == DetailRows(o.items)[i].totalUnits * OrNum(o.items[i].price, 0)
    ensures forall i | 0 <= i < |o.items| ::
              DetailRows(o.items)[i].totalUnits
              == DetailRows(o.items)[i].quantity + DetailRows(o.items)[i].boxes * DetailRows(o.items)[i].unitsPerBox
  {
    DetailSums(o.items);
  }

  lemma {:induction false} DetailSums(items: seq<LineItem>)
    ensures SumOf(items, DashRevenue) == SumOf(DetailRows(items), RowAmount)
  {
    if items != [] {
      var n := |items| - 1;
      DetailSums(items[..n]);
      assert DetailRows(items)[..n] == DetailRows(items[..n]);
    }
  }

  /** The dashboard's state. Date inputs are `None` while empty; a name select is "" while no
      option is chosen. */
  class Dashboard {
    var orders: seq<Order>
    var magazines: seq<string>
    var agents: seq<string>
    var selectedMagazine: string
    var startDate: Option<int>
    var endDate: Option<int>
    var magazineOrders: seq<Order>
    var magazineProductStats: Dict
    var selectedAgent: string
    var agentStartDate: Option<int>
    var agentEndDate: Option<int>
    var agentStats: AgentStats

    constructor ()
      ensures orders == [] && magazines == [] && agents == []
      ensures selectedMagazine == "" && startDate.None? && endDate.None?
      ensures magazineOrders == [] && magazineProductStats == []
      ensures selectedAgent == "" && agentStartDate.None? && agentEndDate.None?
      ensures agentStats == AgentStats(0, 0, [])
    {
      orders, magazines, agents := [], [], [];
      selectedMagazine, startDate, endDate := "", None, None;
      magazineOrders, magazineProductStats := [], [];
      selectedAgent, agentStartDate, agentEndDate := "", None, None;
      agentStats := AgentStats(0, 0, []);
    }

    /** `fetchOrders` after a successful GET /admin/orders: the orders and both option lists. */
    method FetchOrders(data: seq<Order>)
      modifies this
      ensures orders == data
      ensures magazines == Distinct(MagazinNames(data)) && agents == Distinct(AgentNames(data))
      ensures selectedMagazine == old(selectedMagazine) && startDate == old(startDate) && endDate == old(endDate)
      ensures magazineOrders == old(magazineOrders) && magazineProductStats == old(magazineProductStats)
      ensures selectedAgent == old(selectedAgent) && agentStartDate == old(agentStartDate)
      ensures agentEndDate == old(agentEndDate) && agentStats == old(agentStats)
    {
      orders := data;
      magazines := Distinct(MagazinNames(data));
      agents := Distinct(AgentNames(data));
    }

    /** `fetchMagazineOrders`: without a chosen shop nothing changes; otherwise the selected
        orders and their units per product name. */
    method FetchMagazineOrders()
      modifies this
      ensures selectedMagazine == "" ==> magazineOrders == old(magazineOrders) && magazineProductStats == old(magazineProductStats)
      ensures selectedMagazine != "" ==>
                magazineOrders == Selection(orders, Shop, selectedMagazine, startDate, endDate)
                && magazineProductStats == TallyBy(AllItems(magazineOrders), ItemName, DashUnits)
      ensures orders == old(orders) && magazines == old(magazines) && agents == old(agents)
      ensures selectedMagazine == old(selectedMagazine) && startDate == old(startDate) && endDate == old(endDate)
      ensures selectedAgent == old(selectedAgent) && agentStartDate == old(agentStartDate)
      ensures agentEndDate == old(agentEndDate) && agentStats == old(agentStats)
    {
      if selectedMagazine == "" {
        return;
      }
      var filtered := Selection(orders, Shop, selectedMagazine, startDate, endDate);
      magazineOrders := filtered;
      var stats := UnitsPerName(filtered);
      magazineProductStats := stats;
    }

    /** `fetchAgentOrders`: without a chosen agent nothing changes; otherwise the revenue, the
        count and the units per product name of the agent's selected orders. */
    method FetchAgentOrders()
      modifies this
      ensures selectedAgent == "" ==> agentStats == old(agentStats)
      ensures selectedAgent != "" ==>
                var selected := Selection(orders, Agent, selectedAgent, agentStartDate, agentEndDate);
                agentStats == AgentStats(SumOf(AllItems(selected), DashRevenue), |selected|,
                                         TallyBy(AllItems(selected), ItemName, DashUnits))
      ensures orders == old(orders) && magazines == old(magazines) && agents == old(agents)
      ensures selectedMagazine == old(selectedMagazine) && startDate == old(startDate) && endDate == old(endDate)
      ensures magazineOrders == old(magazineOrders) && magazineProductStats == old(magazineProductStats)
      ensures selectedAgent == old(selectedAgent) && agentStartDate == old(agentStartDate)
      ensures agentEndDate == old(agentEndDate)
    {
      if selectedAgent == "" {
        return;
      }
      var filtered := Selection(orders, Agent, selectedAgent, agentStartDate, agentEndDate);
      var totalRevenue, products := RevenueAndUnits(filtered);
      agentStats := AgentStats(totalRevenue, |filtered|, products);
    }
  }

  /** The loops of the shop section: the units per product name over the selected orders. */
  method UnitsPerName(filtered: seq<Order>) returns (stats: Dict)
    ensures stats == TallyBy(AllItems(filtered), ItemName, DashUnits)
  {
    stats := [];
    var i := 0;
    while i < |filtered|
      invariant 0 <= i <= |filtered|
      invariant stats == TallyBy(AllItems(filtered[..i]), ItemName, DashUnits)
    {
      stats := TallyInto(stats, AllItems(filtered[..i]), filtered[i].items, ItemName, DashUnits);
      AllItemsPrefix(filtered, i);
      i := i + 1;
    }
    assert filtered[..i] == filtered;
  }

  /** The loops of the agent section: each order's `orderTotal` added to `totalRevenue`,
      and the units per product name. */
  method RevenueAndUnits(filtered: seq<Order>) returns (totalRevenue: int, products: Dict)
    ensures totalRevenue == SumOf(AllItems(filtered), DashRevenue)
    ensures products == TallyBy(AllItems(filtered), ItemName, DashUnits)
  {
    totalRevenue := 0;
    products := [];
    var i := 0;
    while i < |filtered|
      invariant 0 <= i <= |filtered|
      invariant totalRevenue == SumOf(AllItems(filtered[..i]), DashRevenue)
      invariant products == TallyBy(AllItems(filtered[..i]), ItemName, DashUnits)
    {
      var orderTotal := OrderRevenue(filtered[i].items);
      products := TallyInto(products, AllItems(filtered[..i]), filtered[i].items, ItemName, DashUnits);
      AllItemsPrefix(filtered, i);
      AllItemsStep(filtered, i, DashRevenue);
      totalRevenue := totalRevenue + orderTotal;
      i := i + 1;
    }
    assert filtered[..i] == filtered;
  }

  /** `orderTotal`: the revenue of one order's items. */
  method OrderRevenue(items: seq<LineItem>) returns (orderTotal: int)
    ensures orderTotal == SumOf(items, DashRevenue)
  {
    orderTotal := 0;
    var j := 0;
    while j < |items|
      invariant 0 <= j <= |items|
      invariant orderTotal == SumOf(items[..j], DashRevenue)
    {
      var item := items[j];
      var totalUnits := OrNum(item.quantity, 0) + OrNum(item.boxes, 0) * OrNum(item.unitsPerBox, 0);
      SumOfStep(items, j, DashRevenue);
      orderTotal := orderTotal + totalUnits * OrNum(item.price, 0);
      j := j + 1;
    }
    assert items[..j] == items;
  }
}
