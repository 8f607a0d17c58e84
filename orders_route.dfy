/** The order routes: POST /create (validation, total, next order number,
    saved record) and GET / (search, day filter, newest first). */
module OrdersRoute {
  import opened Common
  import opened Text
  import opened Lists
  import opened ProductModel
  import opened OrderModel
  import opened Store

  /** The request body of POST /create. `items` is None when missing or not an array. */
  datatype CreateRequest = CreateRequest(
    items: Option<seq<LineItem>>,
    agentName: Option<string>,
    magazinName: Option<string>,
    cui: Option<string>,
    address: Option<string>,
    responsiblePerson: Option<string>,
    signature: Option<string>)

  /** The reasons for a 400 response, in the order they are checked. */
  datatype CreateError =
    | MissingFields
    | MissingItemId
    | ProductNotFound(productId: string)
    | OutOfStock(productName: string)

  /** 201 with the saved order, or 400 with its reason. */
  datatype CreateResponse = Created(order: Order) | BadRequest(error: CreateError)

  /** The request passes the required-field check: a non-empty item array and six truthy texts. */
  predicate FieldsPresent(req: CreateRequest) {
    req.items.Some? && |req.items.value| > 0
    && !FalsyStr(req.agentName) && !FalsyStr(req.magazinName) && !FalsyStr(req.cui)
    && !FalsyStr(req.address) && !FalsyStr(req.responsiblePerson) && !FalsyStr(req.signature)
  }

  /** The checks on one item: it has an `_id`, its product exists and is not out of stock. */
  function CheckItem(products: seq<Product>, item: LineItem): Option<CreateError> {
    if FalsyStr(item.id) then Some(MissingItemId)
    else
      match FindProduct(products, item.id.value)
      case None => Some(ProductNotFound(item.id.value))
      case Some(p) => if p.stoc == OutOfStoc then Some(OutOfStock(p.name)) else None
  }

  /** The error of the first item that fails its checks, scanning in item order. */
  function FirstItemError(products: seq<Product>, items: seq<LineItem>): (r: Option<CreateError>)
    ensures r.None? <==> forall i | 0 <= i < |items| :: CheckItem(products, items[i]).None?
    ensures r.Some? ==> exists i | 0 <= i < |items| ::
                          r == CheckItem(products, items[i])
                          && forall j | 0 <= j < i :: CheckItem(products, items[j]).None?
  {
    if items == [] then None
    else if CheckItem(products, items[0]).Some? then CheckItem(products, items[0])
    else
      var rest := FirstItemError(products, items[1..]);
      assert forall i | 1 <= i < |items| :: items[1..][i - 1] == items[i];
      if rest.Some? then
        var k :| 0 <= k < |items[1..]| && rest == CheckItem(products, items[1..][k])
                 && forall j | 0 <= j < k :: CheckItem(products, items[1..][j]).None?;
        assert rest == CheckItem(products, items[k + 1]);
        assert forall j | 0 <= j < k + 1 :: CheckItem(products, items[j]).None?;
        rest
      else rest
  }

  /** The whole validation of POST /create: the field check, then the item checks. */
  function Validate(products: seq<Product>, req: CreateRequest): Option<CreateError> {
    if !FieldsPresent(req) then Some(MissingFields) else FirstItemError(products, req.items.value)
  }

  /** `customPrice ?? price ?? 0`: a custom price of 0 is kept. */
  function UnitPrice(item: LineItem): (r: int)
    ensures item.customPrice.Some? ==> r == item.customPrice.value
    ensures item.customPrice.None? ==> r == Coalesce(item.price, 0)
  {
    if item.customPrice.Some? then item.customPrice.value else Coalesce(item.price, 0)
  }

  /** One line's contribution to the order total; a falsy `unitsPerBox` counts as 1. */
  function LineTotal(item: LineItem): int {
    LineUnits(item, 1) * UnitPrice(item)
  }

  /** The order total: Σ (quantity + boxes × unitsPerBox) × price. */
  function OrderTotal(items: seq<LineItem>): int {
    SumOf(items, LineTotal)
  }

  /** The total of an order is the total of its first part plus the total of its second. */
  lemma OrderTotalAppend(a: seq<LineItem>, b: seq<LineItem>)
    ensures OrderTotal(a + b) == OrderTotal(a) + OrderTotal(b)
  {
    SumOfAppend(a, b, LineTotal);
  }

  lemma {:induction false} OrderTotalNonNegative(items: seq<LineItem>)
    requires forall i | 0 <= i < |items| :: LineUnits(items[i], 1) >= 0 && UnitPrice(items[i]) >= 0
    ensures OrderTotal(items) >= 0
  {
    if items != [] {
      OrderTotalNonNegative(items[..|items| - 1]);
      var last := items[|items| - 1];
      assert LineTotal(last) >= 0 by {
        assert LineUnits(last, 1) >= 0 && UnitPrice(last) >= 0;
      }
    }
  }

  /** The largest order number in a non-empty store (`findOne().sort({ orderNumber: -1 })`). */
  function MaxOrderNumber(orders: seq<Order>): (m: int)
    requires orders != []
    ensures exists i | 0 <= i < |orders| :: orders[i].orderNumber == m
    ensures forall i | 0 <= i < |orders| :: orders[i].orderNumber <= m
  {
    if |orders| == 1 then orders[0].orderNumber
    else
      var m := MaxOrderNumber(orders[1..]);
      assert forall i | 1 <= i < |orders| :: orders[1..][i - 1] == orders[i];
      if orders[0].orderNumber >= m then orders[0].orderNumber else m
  }

  /** `lastOrder?.orderNumber ? lastOrder.orderNumber + 1 : 1`. The result exceeds every
      existing number, and it is 1 or one more than an existing number. */
  function NextOrderNumber(orders: seq<Order>): (r: int)
    ensures forall i | 0 <= i < |orders| :: orders[i].orderNumber < r
    ensures orders == [] ==> r == 1
    ensures r == 1 || exists i | 0 <= i < |orders| :: orders[i].orderNumber == r - 1
  {
    if orders == [] then 1
    else
      var m := MaxOrderNumber(orders);
      if m == 0 then 1 else m + 1
  }

  /** Appending an order under the next number keeps the order numbers unique. */
  lemma NextNumberKeepsUnique(orders: seq<Order>, o: Order)
    requires UniqueOrderNumbers(orders)
    requires o.orderNumber == NextOrderNumber(orders)
    ensures UniqueOrderNumbers(orders + [o])
  {
  }

  /** The document that `save` stores for a validated request: the items and the six
      texts unchanged (as the schema keeps them), the computed total, the time of creation. */
  function SavedOrder(req: CreateRequest, id: string, orderNumber: int, now: int): (o: Order)
    requires FieldsPresent(req)
    ensures WellFormed(o)
    ensures o.id == id && o.orderNumber == orderNumber && o.createdAt == now
    ensures o.items == CastItems(req.items.value) && o.total == OrderTotal(req.items.value)
    ensures o.agentName == req.agentName.value && o.magazinName == req.magazinName.value
    ensures o.cui == req.cui.value && o.address == req.address.value
    ensures o.responsiblePerson == req.responsiblePerson.value && o.signature == req.signature.value
  {
    NewOrder(id, orderNumber, req.agentName.value, req.magazinName.value, req.items.value,
             OrderTotal(req.items.value), req.cui.value, req.address.value,
             req.responsiblePerson.value, req.signature.value, Some(now), now).value
  }

  /** POST /create. Every rejection returns before the order is saved. */
  method CreateOrder(store: Store, req: CreateRequest, newId: string, now: int) returns (res: CreateResponse)
    requires store.Valid()
    requires forall i | 0 <= i < |store.orders| :: store.orders[i].id != newId
    modifies store
    ensures store.Valid()
    ensures store.products == old(store.products)
    ensures res.BadRequest? <==> Validate(old(store.products), req).Some?
    ensures res.BadRequest? ==> res.error == Validate(old(store.products), req).value
                                && store.orders == old(store.orders)
    ensures res.Created? ==> res.order == SavedOrder(req, newId, NextOrderNumber(old(store.orders)), now)
                             && store.orders == old(store.orders) + [res.order]
  {
    if !FieldsPresent(req) {
      return BadRequest(MissingFields);
    }
    var items := req.items.value;
    var i := 0;
    while i < |items|
      invariant 0 <= i <= |items|
      invariant forall j | 0 <= j < i :: CheckItem(store.products, items[j]).None?
    {
      var item := items[i];
      if FalsyStr(item.id) {
        res := BadRequest(MissingItemId);
        assert res.error == CheckItem(store.products, items[i]).value;
        return;
      }
      var product := FindProduct(store.products, item.id.value);
      if product.None? {
        res := BadRequest(ProductNotFound(item.id.value));
        assert res.error == CheckItem(store.products, items[i]).value;
        return;
      }
      if product.value.stoc == OutOfStoc {
        res := BadRequest(OutOfStock(product.value.name));
        assert res.error == CheckItem(store.products, items[i]).value;
        return;
      }
      i := i + 1;
    }
    var number := NextOrderNumber(store.orders);
    var order := SavedOrder(req, newId, number, now);
    store.orders := store.orders + [order];
    res := Created(order);
  }

  /** Case-insensitive literal match of the search text against the agent or the shop name. */
  predicate MatchesSearch(o: Order, search: string) {
    Contains(ToLower(o.agentName), ToLower(search)) || Contains(ToLower(o.magazinName), ToLower(search))
  }

  /** The order was created on the day that starts at `day`, bounds included. */
  predicate OnDay(o: Order, day: int) {
    day <= o.createdAt <= EndOfDay(day)
  }

  /** The query of GET /: a truthy `search` and a `date` each add a condition. */
  predicate Selected(o: Order, search: Option<string>, date: Option<int>) {
    (FalsyStr(search) || MatchesSearch(o, search.value)) && (date.None? || OnDay(o, date.value))
  }

  function CreatedAt(o: Order): int {
    o.createdAt
  }

  /** GET /: the selected orders, newest first. */
  function ListOrders(orders: seq<Order>, search: Option<string>, date: Option<int>): (r: seq<Order>)
    ensures forall o :: o in r <==> o in orders && Selected(o, search, date)
    ensures multiset(r) == multiset(Filter(orders, o => Selected(o, search, date)))
    ensures SortedDesc(r, CreatedAt)
  {
    var kept := Filter(orders, o => Selected(o, search, date));
    assert forall o :: o in kept <==> o in orders && Selected(o, search, date) by {
      forall o | o in orders && Selected(o, search, date) ensures o in kept {
        var i :| 0 <= i < |orders| && orders[i] == o;
      }
    }
    var r := SortDesc(kept, CreatedAt);
    assert forall o :: o in r <==> o in multiset(r);
    r
  }
}
