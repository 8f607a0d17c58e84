/** The cart context of the client: the catalogue and its stock map, and the cart lines
    that `addToCart`, the three field updates, `removeFromCart` and `clearCart` replace. */
module CartContext {
  import opened Common
  import opened Lists
  import opened ProductModel
  import opened OrderModel

  /** `productId -> p.stoc || "in stoc"`, built in catalogue order, so a later product with
      the same id overwrites an earlier one. */
  function StockMap(products: seq<ProductView>): map<string, string> {
    if products == [] then map[]
    else
      var last := products[|products| - 1];
      StockMap(products[..|products| - 1])[last.id := OrStr(last.stoc, "in stoc")]
  }

  /** No later product of the catalogue has the id of the one at `i`. */
  predicate LastWithId(products: seq<ProductView>, i: int) {
    0 <= i < |products| && forall j | i < j < |products| :: products[j].id != products[i].id
  }

  /** The stock map has an entry for exactly the catalogue's ids. */
  lemma {:induction false} StockMapKeys(products: seq<ProductView>)
    ensures forall k :: k in StockMap(products) <==> exists i | 0 <= i < |products| :: products[i].id == k
  {
    if products != [] {
      var n := |products| - 1;
      var init := products[..n];
      StockMapKeys(init);
      assert StockMap(products) == StockMap(init)[products[n].id := OrStr(products[n].stoc, "in stoc")];
      forall k | k in StockMap(products) ensures exists i | 0 <= i < |products| :: products[i].id == k {
        if k != products[n].id {
          assert k in StockMap(init);
          var i :| 0 <= i < |init| && init[i].id == k;
          assert products[i].id == k;
        }
      }
      forall k | exists i | 0 <= i < |products| :: products[i].id == k ensures k in StockMap(products) {
        var i :| 0 <= i < |products| && products[i].id == k;
        if i < n {
          assert init[i].id == k;
        }
      }
    }
  }

  /** The entry of an id is the status of the last product with that id, or "in stoc". */
  lemma {:induction false} StockMapValues(products: seq<ProductView>)
    ensures forall i | LastWithId(products, i) ::
              products[i].id in StockMap(products) && StockMap(products)[products[i].id] == OrStr(products[i].stoc, "in stoc")
  {
    if products != [] {
      var n := |products| - 1;
      var init := products[..n];
      StockMapValues(init);
      forall i | LastWithId(products, i)
        ensures products[i].id in StockMap(products) && StockMap(products)[products[i].id] == OrStr(products[i].stoc, "in stoc")
      {
        if i < n {
          assert init[i] == products[i];
          assert LastWithId(init, i) by {
            assert forall j | i < j < |init| :: init[j] == products[j];
          }
          assert products[i].id != products[n].id;
        }
      }
    }
  }

  /** No entry of the stock map is empty. */
  lemma {:induction false} StockMapNonEmpty(products: seq<ProductView>)
    ensures forall k | k in StockMap(products) :: StockMap(products)[k] != ""
  {
    if products != [] {
      StockMapNonEmpty(products[..|products| - 1]);
    }
  }

  /** The stock map has an entry for exactly the catalogue's ids; each entry is the status of the
      last product with that id, "in stoc" when that product has none, and never empty. */
  lemma StockMapMeaning(products: seq<ProductView>)
    ensures forall k :: k in StockMap(products) <==> exists i | 0 <= i < |products| :: products[i].id == k
    ensures forall i | LastWithId(products, i) ::
              products[i].id in StockMap(products) && StockMap(products)[products[i].id] == OrStr(products[i].stoc, "in stoc")
    ensures forall k | k in StockMap(products) :: StockMap(products)[k] != ""
  {
    StockMapKeys(products);
    StockMapValues(products);
    StockMapNonEmpty(products);
  }

  /** `productsStock[id] || "in stoc"`: a product missing from the map counts as in stock. */
  function StockOf(stock: map<string, string>, id: string): (r: string)
    ensures id !in stock ==> r == "in stoc"
    ensures id in stock && stock[id] != "" ==> r == stock[id]
  {
    if id in stock then OrStr(Some(stock[id]), "in stoc") else "in stoc"
  }

  /** The cart lines have pairwise different `_id`s. */
  predicate DistinctIds(cart: seq<LineItem>) {
    forall i, j | 0 <= i < j < |cart| :: cart[i].id != cart[j].id
  }

  predicate InCart(cart: seq<LineItem>, id: string) {
    exists i | 0 <= i < |cart| :: cart[i].id == Some(id)
  }

  /** The line `addToCart` appends for a product not yet in the cart. */
  function NewLine(p: ProductView): (r: LineItem)
    ensures r.id == Some(p.id) && r.name == Some(p.name)
    ensures r.boxes == Some(1) && r.quantity == Some(0)
    ensures r.price == Some(OrNum(p.price, 0)) && r.customPrice == r.price
    ensures r.unitsPerBox == Some(OrNum(p.unitsPerBox, 1)) && r.image == Some(OrStr(p.image, ""))
  {
    LineItem(Some(p.id), Some(p.name), Some(OrNum(p.price, 0)), Some(OrNum(p.price, 0)),
             Some(1), Some(OrNum(p.unitsPerBox, 1)), Some(0), Some(OrStr(p.image, "")))
  }

  function Bumped(item: LineItem): LineItem {
    item.(boxes := Some(OrNum(item.boxes, 0) + 1))
  }

  /** `cart.map(item => item._id === id ? { ...item, boxes: (item.boxes || 0) + 1 } : item)`. */
  function BumpBoxes(cart: seq<LineItem>, id: string): (r: seq<LineItem>)
    ensures |r| == |cart|
    ensures forall i | 0 <= i < |cart| :: r[i] == if cart[i].id == Some(id) then Bumped(cart[i]) else cart[i]
  {
    seq(|cart|, i requires 0 <= i < |cart| => if cart[i].id == Some(id) then Bumped(cart[i]) else cart[i])
  }

  /** The cart after `addToCart(p)`. */
  function AddToCart(cart: seq<LineItem>, stock: map<string, string>, p: ProductView): (r: seq<LineItem>)
    ensures StockOf(stock, p.id) == "out of stoc" ==> r == cart
    ensures StockOf(stock, p.id) != "out of stoc" && InCart(cart, p.id) ==>
              |r| == |cart|
              && (forall i | 0 <= i < |cart| && cart[i].id == Some(p.id) ::
                    r[i].boxes == Some(OrNum(cart[i].boxes, 0) + 1) && r[i] == cart[i].(boxes := r[i].boxes))
              && (forall i | 0 <= i < |cart| && cart[i].id != Some(p.id) :: r[i] == cart[i])
    ensures StockOf(stock, p.id) != "out of stoc" && !InCart(cart, p.id) ==> r == cart + [NewLine(p)]
  {
    if StockOf(stock, p.id) == "out of stoc" then cart
    else if InCart(cart, p.id) then BumpBoxes(cart, p.id)
    else cart + [NewLine(p)]
  }

  /** Adding to a cart with distinct ids keeps them distinct. */
  lemma AddKeepsDistinct(cart: seq<LineItem>, stock: map<string, string>, p: ProductView)
    requires DistinctIds(cart)
    ensures DistinctIds(AddToCart(cart, stock, p))
  {
    var r := AddToCart(cart, stock, p);
    if StockOf(stock, p.id) != "out of stoc" && InCart(cart, p.id) {
      assert forall i | 0 <= i < |cart| :: r[i].id == cart[i].id;
    }
  }

  /** `totalBoxes`: the sum of the lines' boxes, a missing count as 0. */
  function CartBoxes(cart: seq<LineItem>): int {
    SumOf(cart, BoxCount)
  }

  /** In a cart with distinct ids, adding a product that is in stock adds exactly one box. */
  lemma AddAddsOneBox(cart: seq<LineItem>, stock: map<string, string>, p: ProductView)
    requires DistinctIds(cart)
    requires StockOf(stock, p.id) != "out of stoc"
    ensures CartBoxes(AddToCart(cart, stock, p)) == CartBoxes(cart) + 1
  {
    if InCart(cart, p.id) {
      var k :| 0 <= k < |cart| && cart[k].id == Some(p.id);
      assert BumpBoxes(cart, p.id) == cart[k := Bumped(cart[k])];
      SumOfUpdate(cart, k, Bumped(cart[k]), BoxCount);
    } else {
      SumOfSnoc(cart, NewLine(p), BoxCount);
    }
  }

  /** An input field's text: "" or a number. */
  datatype Input = Blank | Num(n: int)

  /** `value === "" ? 0 : Number(value)`. */
  function InputValue(v: Input): int {
    match v
    case Blank => 0
    case Num(n) => n
  }

  /** The field changed by `updateBoxes`, `updateQuantity` or `updatePrice`. */
  datatype Field = Boxes | Quantity | CustomPrice

  function SetOne(item: LineItem, f: Field, v: int): LineItem {
    match f
    case Boxes => item.(boxes := Some(v))
    case Quantity => item.(quantity := Some(v))
    case CustomPrice => item.(customPrice := Some(v))
  }

  /** The cart after one of the three field updates: on every line with that id, only the named
      field changes, to the input's value; the other lines, the length and the order stay. */
  function SetField(cart: seq<LineItem>, id: string, f: Field, v: Input): (r: seq<LineItem>)
    ensures |r| == |cart|
    ensures forall i | 0 <= i < |cart| && cart[i].id != Some(id) :: r[i] == cart[i]
    ensures forall i | 0 <= i < |cart| && cart[i].id == Some(id) ::
              (f == Boxes ==> r[i] == cart[i].(boxes := Some(InputValue(v))))
              && (f == Quantity ==> r[i] == cart[i].(quantity := Some(InputValue(v))))
              && (f == CustomPrice ==> r[i] == cart[i].(customPrice := Some(InputValue(v))))
  {
    seq(|cart|, i requires 0 <= i < |cart| => if cart[i].id == Some(id) then SetOne(cart[i], f, InputValue(v)) else cart[i])
  }

  /** A field update keeps the ids, so distinct ids stay distinct; updating a field other
      than the boxes keeps the box total. */
  lemma SetFieldKeeps(cart: seq<LineItem>, id: string, f: Field, v: Input)
    ensures forall i | 0 <= i < |cart| :: SetField(cart, id, f, v)[i].id == cart[i].id
    ensures DistinctIds(cart) ==> DistinctIds(SetField(cart, id, f, v))
    ensures f != Boxes ==> CartBoxes(SetField(cart, id, f, v)) == CartBoxes(cart)
  {
    var r := SetField(cart, id, f, v);
    assert forall i | 0 <= i < |cart| :: r[i].id == cart[i].id;
    if f != Boxes {
      SumOfPointwise(cart, r, BoxCount);
    }
  }

  function KeptBy(id: string): LineItem -> bool {
    (item: LineItem) => item.id != Some(id)
  }

  /** `cart.filter(item => item._id !== id)`. */
  function RemoveFromCart(cart: seq<LineItem>, id: string): seq<LineItem> {
    Filter(cart, KeptBy(id))
  }

  function LineId(item: LineItem): Option<string> {
    item.id
  }

  /** Removing deletes every line with that id and keeps every other line; the rest keeps its
      order, ids stay distinct, and a cart without the id is returned as it was. */
  lemma RemoveMeaning(cart: seq<LineItem>, id: string)
    ensures forall x :: x in RemoveFromCart(cart, id) <==> x in cart && x.id != Some(id)
    ensures forall a, b :: RemoveFromCart(a + b, id) == RemoveFromCart(a, id) + RemoveFromCart(b, id)
    ensures DistinctIds(cart) ==> DistinctIds(RemoveFromCart(cart, id))
    ensures !InCart(cart, id) ==> RemoveFromCart(cart, id) == cart
  {
    var r := RemoveFromCart(cart, id);
    forall x | x in cart && x.id != Some(id) ensures x in r {
      var i :| 0 <= i < |cart| && cart[i] == x;
    }
    forall a, b ensures RemoveFromCart(a + b, id) == RemoveFromCart(a, id) + RemoveFromCart(b, id) {
      FilterAppend(a, b, KeptBy(id));
    }
    if DistinctIds(cart) {
      RemoveKeepsDistinct(cart, id);
    }
    if !InCart(cart, id) {
      FilterAll(cart, KeptBy(id));
    }
  }

  /** Removing lines never lists a product twice. */
  lemma RemoveKeepsDistinct(cart: seq<LineItem>, id: string)
    requires DistinctIds(cart)
    ensures DistinctIds(RemoveFromCart(cart, id))
  {
    assert UniqueBy(cart, LineId);
    FilterUniqueBy(cart, KeptBy(id), LineId);
    assert UniqueBy(RemoveFromCart(cart, id), LineId);
  }

  /** The cart state of the context. */
  class Cart {
    var products: seq<ProductView>
    var productsStock: map<string, string>
    var cart: seq<LineItem>

    ghost predicate Valid()
      reads this
    {
      DistinctIds(cart)
    }

    /** `useState([])`, `useState({})`, `useState([])`. */
    constructor ()
      ensures Valid()
      ensures products == [] && productsStock == map[] && cart == []
    {
      products := [];
      productsStock := map[];
      cart := [];
    }

    /** The effect of a successful GET /products: the catalogue and its stock map. */
    method LoadProducts(data: seq<ProductView>)
      requires Valid()
      modifies this
      ensures Valid()
      ensures products == data && productsStock == StockMap(data) && cart == old(cart)
    {
      products := data;
      var stockMap: map<string, string> := map[];
      var i := 0;
      while i < |data|
        invariant 0 <= i <= |data|
        invariant stockMap == StockMap(data[..i])
      {
        assert data[..i + 1][..i] == data[..i];
        stockMap := stockMap[data[i].id := OrStr(data[i].stoc, "in stoc")];
        i := i + 1;
      }
      assert data[..i] == data;
      productsStock := stockMap;
    }

    method AddProduct(p: ProductView)
      requires Valid()
      modifies this
      ensures Valid()
      ensures cart == AddToCart(old(cart), productsStock, p)
      ensures products == old(products) && productsStock == old(productsStock)
    {
      AddKeepsDistinct(cart, productsStock, p);
      cart := AddToCart(cart, productsStock, p);
    }

    method UpdateField(id: string, f: Field, v: Input)
      requires Valid()
      modifies this
      ensures Valid()
      ensures cart == SetField(old(cart), id, f, v)
      ensures products == old(products) && productsStock == old(productsStock)
    {
      SetFieldKeeps(cart, id, f, v);
      cart := SetField(cart, id, f, v);
    }

    method Remove(id: string)
      requires Valid()
      modifies this
      ensures Valid()
      ensures cart == RemoveFromCart(old(cart), id)
      ensures products == old(products) && productsStock == old(productsStock)
    {
      RemoveKeepsDistinct(cart, id);
      cart := RemoveFromCart(cart, id);
    }

    method Clear()
      modifies this
      ensures Valid()
      ensures cart == [] && products == old(products) && productsStock == old(productsStock)
    {
      cart := [];
    }

    function TotalBoxes(): int
      reads this
    {
      CartBoxes(cart)
    }
  }
}
