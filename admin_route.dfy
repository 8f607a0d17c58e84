/** The admin routes: GET /orders (search and day), GET /magazine-orders
    (required shop name, optional range) and DELETE /orders/:id. */
module AdminRoute {
  import opened Common
  import opened Lists
  import opened OrderModel
  import opened Store
  import OrdersRoute

  /** GET /orders runs the same query as the order listing of the order routes
      (`search` defaults to "", `date` selects one day); only the time zone of the
      day's start differs, and the model leaves time zones out. */
  function ListOrders(orders: seq<Order>, search: Option<string>, date: Option<int>): seq<Order> {
    OrdersRoute.ListOrders(orders, search, date)
  }

  /** The condition of GET /magazine-orders: the exact shop name, and when both dates are
      given, `createdAt` between them inclusive (the end date is not extended to the end of its day). */
  predicate MagazineSelected(o: Order, name: string, startDate: Option<int>, endDate: Option<int>) {
    o.magazinName == name
    && (startDate.None? || endDate.None? || startDate.value <= o.createdAt <= endDate.value)
  }

  /** GET /magazine-orders: 400 without a shop name, otherwise the selected orders newest first. */
  function MagazineOrders(orders: seq<Order>, magazinName: Option<string>,
                          startDate: Option<int>, endDate: Option<int>): (r: Option<seq<Order>>)
    ensures r.None? <==> FalsyStr(magazinName)
    ensures r.Some? ==> forall o :: o in r.value <==> o in orders && MagazineSelected(o, magazinName.value, startDate, endDate)
    ensures r.Some? ==> multiset(r.value) == multiset(Filter(orders, o => MagazineSelected(o, magazinName.value, startDate, endDate)))
    ensures r.Some? ==> SortedDesc(r.value, OrdersRoute.CreatedAt)
  {
    if FalsyStr(magazinName) then None
    else
      var name := magazinName.value;
      var kept := Filter(orders, o => MagazineSelected(o, name, startDate, endDate));
      assert forall o :: o in kept <==> o in orders && MagazineSelected(o, name, startDate, endDate) by {
        forall o | o in orders && MagazineSelected(o, name, startDate, endDate) ensures o in kept {
          var i :| 0 <= i < |orders| && orders[i] == o;
        }
      }
      var r := SortDesc(kept, OrdersRoute.CreatedAt);
      assert forall o :: o in r <==> o in multiset(r);
      Some(r)
  }

  function OrderId(o: Order): string {
    o.id
  }

  function OrderNumber(o: Order): int {
    o.orderNumber
  }

  /** The orders that a deletion by `id` keeps. */
  function KeptBy(id: string): Order -> bool {
    (o: Order) => o.id != id
  }

  /** `findByIdAndDelete`: the store without the order whose id is `id`. */
  function RemoveOrder(orders: seq<Order>, id: string): seq<Order> {
    Filter(orders, KeptBy(id))
  }

  /** Removing an order deletes every order with that id, keeps every other order, and keeps
      ids and order numbers unique. */
  lemma RemoveOrderMeaning(orders: seq<Order>, id: string)
    requires UniqueOrderIds(orders) && UniqueOrderNumbers(orders)
    ensures forall o :: o in RemoveOrder(orders, id) <==> o in orders && o.id != id
    ensures UniqueOrderIds(RemoveOrder(orders, id)) && UniqueOrderNumbers(RemoveOrder(orders, id))
  {
    var r := RemoveOrder(orders, id);
    forall o | o in orders && o.id != id ensures o in r {
      var i :| 0 <= i < |orders| && orders[i] == o;
    }
    assert UniqueBy(orders, OrderId);
    assert UniqueBy(orders, OrderNumber);
    FilterUniqueBy(orders, KeptBy(id), OrderId);
    FilterUniqueBy(orders, KeptBy(id), OrderNumber);
    assert UniqueBy(r, OrderId);
    assert UniqueBy(r, OrderNumber);
  }

  /** DELETE /orders/:id: removes that order only, and reports success whether or not it existed. */
  method DeleteOrder(store: Store, id: string) returns (deleted: bool)
    requires store.Valid()
    modifies store
    ensures store.Valid()
    ensures deleted
    ensures store.products == old(store.products)
    ensures store.orders == RemoveOrder(old(store.orders), id)
    ensures forall o :: o in store.orders <==> o in old(store.orders) && o.id != id
  {
    var rest := RemoveOrder(store.orders, id);
    RemoveOrderMeaning(store.orders, id);
    forall i | 0 <= i < |rest| ensures WellFormed(rest[i]) {
      var j :| 0 <= j < |store.orders| && store.orders[j] == rest[i];
    }
    store.orders := rest;
    deleted := true;
  }
}
