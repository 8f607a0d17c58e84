/** The two document collections the routes read and write, held in memory. */
module Store {
  import opened Common
  import opened ProductModel
  import opened OrderModel

  class Store {
    var products: seq<Product>
    var orders: seq<Order>

    /** The database's guarantees: unique ids, the unique index on `orderNumber`,
        and every saved order passed the schema's required validators. */
    ghost predicate Valid()
      reads this
    {
      UniqueProductIds(products) && UniqueOrderIds(orders) && UniqueOrderNumbers(orders)
      && forall i | 0 <= i < |orders| :: WellFormed(orders[i])
    }

    constructor (catalogue: seq<Product>)
      requires UniqueProductIds(catalogue)
      ensures Valid() && products == catalogue && orders == []
    {
      products := catalogue;
      orders := [];
    }
  }

  /** `Product.findById(id)`. */
  function FindProduct(products: seq<Product>, id: string): (r: Option<Product>)
    ensures r.Some? ==> r.value in products && r.value.id == id
    ensures r.None? <==> forall i | 0 <= i < |products| :: products[i].id != id
  {
    if products == [] then None
    else if products[0].id == id then Some(products[0])
    else FindProduct(products[1..], id)
  }

  /** The position of the product with `id`, if any. */
  function ProductIndex(products: seq<Product>, id: string): (r: Option<nat>)
    ensures r.Some? ==> r.value < |products| && products[r.value].id == id
    ensures r.None? <==> forall i | 0 <= i < |products| :: products[i].id != id
  {
    if products == [] then None
    else if products[0].id == id then Some(0)
    else
      match ProductIndex(products[1..], id)
      case None => None
      case Some(k) => Some(k + 1)
  }
}
