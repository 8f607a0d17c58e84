/** The Order schema: a saved order with its line items, and a line item's unit count. */
module OrderModel {
  import opened Common

  /** A line of an order as it travels between client and server: the cart's
      fields (`_id`, `name`, `boxes`, `quantity`, `price`, `customPrice`,
      `unitsPerBox`, `image`), each possibly missing except the name, which the schema
      does not require either. */
  datatype LineItem = LineItem(
    id: Option<string>,
    name: Option<string>,
    price: Option<int>,
    customPrice: Option<int>,
    boxes: Option<int>,
    unitsPerBox: Option<int>,
    quantity: Option<int>,
    image: Option<string>)

  /** `(quantity || 0) + (boxes || 0) * (unitsPerBox || upbDefault)`: the units of one
      line, with the fallback for a missing or zero `unitsPerBox` chosen by the caller. */
  function LineUnits(item: LineItem, upbDefault: int): int {
    OrNum(item.quantity, 0) + OrNum(item.boxes, 0) * OrNum(item.unitsPerBox, upbDefault)
  }

  /** `item.boxes || 0`. */
  function BoxCount(item: LineItem): int {
    OrNum(item.boxes, 0)
  }

  /** `item.name` used as an object key: a missing name is the key "undefined". */
  function ItemName(item: LineItem): string {
    item.name.GetOr("undefined")
  }

  /** The two fallbacks for `unitsPerBox` disagree exactly on the boxes of a line whose `unitsPerBox` is falsy. */
  lemma UnitsFallbackGap(item: LineItem)
    ensures LineUnits(item, 1) == LineUnits(item, 0) + (if FalsyNum(item.unitsPerBox) then OrNum(item.boxes, 0) else 0)
  {
  }

  /** The line items in the schema: `name`, `price`, `boxes`, `unitsPerBox`,
      `quantity` and the sub-document `_id`. Undeclared fields (`customPrice`,
      `image`) are not stored. */
  function CastItem(item: LineItem): (r: LineItem)
    ensures r.id == item.id && r.name == item.name && r.price == item.price
    ensures r.boxes == item.boxes && r.unitsPerBox == item.unitsPerBox && r.quantity == item.quantity
    ensures r.customPrice.None? && r.image.None?
  {
    item.(customPrice := None, image := None)
  }

  function CastItems(items: seq<LineItem>): (r: seq<LineItem>)
    ensures |r| == |items|
    ensures forall i | 0 <= i < |items| :: r[i] == CastItem(items[i])
  {
    seq(|items|, i requires 0 <= i < |items| => CastItem(items[i]))
  }

  /** A saved order. */
  datatype Order = Order(
    id: string,
    orderNumber: int,
    agentName: string,
    magazinName: string,
    items: seq<LineItem>,
    total: int,
    cui: string,
    address: string,
    responsiblePerson: string,
    signature: string,
    createdAt: int)

  /** The items of all `orders`, order after order (two nested `forEach` loops). */
  function AllItems(orders: seq<Order>): seq<LineItem> {
    if orders == [] then [] else AllItems(orders[..|orders| - 1]) + orders[|orders| - 1].items
  }

  lemma AllItemsSnoc(orders: seq<Order>, o: Order)
    ensures AllItems(orders + [o]) == AllItems(orders) + o.items
  {
    assert (orders + [o])[..|orders|] == orders;
  }

  /** Summing per order and then over the orders is summing over all their items. */
  /** The items of a prefix one order longer. */
  lemma AllItemsPrefix(orders: seq<Order>, i: int)
    requires 0 <= i < |orders|
    ensures AllItems(orders[..i + 1]) == AllItems(orders[..i]) + orders[i].items
  {
    assert orders[..i + 1] == orders[..i] + [orders[i]];
    AllItemsSnoc(orders[..i], orders[i]);
  }

  /** One more order of a running sum over the items of a prefix of orders. */
  lemma AllItemsStep(orders: seq<Order>, i: int, f: LineItem -> int)
    requires 0 <= i < |orders|
    ensures SumOf(AllItems(orders[..i + 1]), f) == SumOf(AllItems(orders[..i]), f) + SumOf(orders[i].items, f)
  {
    AllItemsPrefix(orders, i);
    SumOfAppend(AllItems(orders[..i]), orders[i].items, f);
  }

  lemma {:induction false} SumOverOrders(orders: seq<Order>, f: LineItem -> int, g: Order -> int)
    requires forall i | 0 <= i < |orders| :: g(orders[i]) == SumOf(orders[i].items, f)
    ensures SumOf(orders, g) == SumOf(AllItems(orders), f)
  {
    if orders != [] {
      var n := |orders| - 1;
      SumOverOrders(orders[..n], f, g);
      SumOfAppend(AllItems(orders[..n]), orders[n].items, f);
    }
  }

  /** The required validators: every required text field is a non-empty string. */
  predicate WellFormed(o: Order) {
    o.agentName != "" && o.magazinName != "" && o.cui != "" && o.address != ""
    && o.responsiblePerson != "" && o.signature != ""
  }

  /** The unique index on `orderNumber`. */
  predicate UniqueOrderNumbers(orders: seq<Order>) {
    forall i, j | 0 <= i < j < |orders| :: orders[i].orderNumber != orders[j].orderNumber
  }

  predicate UniqueOrderIds(orders: seq<Order>) {
    forall i, j | 0 <= i < j < |orders| :: orders[i].id != orders[j].id
  }

  /** Building and validating an order document as `save` does; `createdAt` defaults to `now`. */
  function NewOrder(id: string, orderNumber: int, agentName: string, magazinName: string,
                    items: seq<LineItem>, total: int, cui: string, address: string,
                    responsiblePerson: string, signature: string,
                    createdAt: Option<int>, now: int): (r: Result<Order, SchemaError>)
    ensures r.Ok? <==> agentName != "" && magazinName != "" && cui != "" && address != ""
                       && responsiblePerson != "" && signature != ""
    ensures r.Ok? ==> WellFormed(r.value)
    ensures r.Ok? ==> r.value == Order(id, orderNumber, agentName, magazinName, CastItems(items), total,
                                       cui, address, responsiblePerson, signature, createdAt.GetOr(now))
  {
    if agentName == "" then Err(Required("agentName"))
    else if magazinName == "" then Err(Required("magazinName"))
    else if cui == "" then Err(Required("cui"))
    else if address == "" then Err(Required("address"))
    else if responsiblePerson == "" then Err(Required("responsiblePerson"))
    else if signature == "" then Err(Required("signature"))
    else Ok(Order(id, orderNumber, agentName, magazinName, CastItems(items), total,
                  cui, address, responsiblePerson, signature, createdAt.GetOr(now)))
  }
}
