/** The cart page: the per-line units and totals and the cart's summary figures. */
module CartPage {
  import opened Common
  import opened OrderModel
  import opened CartContext
  import OrdersRoute

  /** `Number(item.boxes || 0) * (item.unitsPerBox || 1)`: boxes only, the loose quantity is not counted. */
  function ItemUnits(item: LineItem): int {
    OrNum(item.boxes, 0) * OrNum(item.unitsPerBox, 1)
  }

  /** The units of a line times its custom price (which the cart always sets). */
  function ItemTotal(item: LineItem): int {
    ItemUnits(item) * item.customPrice.GetOr(0)
  }

  function TotalUnits(cart: seq<LineItem>): int {
    SumOf(cart, ItemUnits)
  }

  function TotalOrder(cart: seq<LineItem>): int {
    SumOf(cart, ItemTotal)
  }

  /** The page's units of a line are the order route's units with the loose quantity left out. */
  lemma ItemUnitsIgnoreQuantity(item: LineItem)
    ensures ItemUnits(item) == LineUnits(item, 1) - OrNum(item.quantity, 0)
    ensures ItemUnits(item) == ItemUnits(item.(quantity := None))
  {
  }

  /** Changing a line's loose quantity changes neither the units nor the price shown on the page. */
  lemma QuantityNotShown(cart: seq<LineItem>, id: string, v: Input)
    ensures TotalUnits(SetField(cart, id, Quantity, v)) == TotalUnits(cart)
    ensures TotalOrder(SetField(cart, id, Quantity, v)) == TotalOrder(cart)
  {
    var r := SetField(cart, id, Quantity, v);
    SumOfPointwise(cart, r, ItemUnits);
    SumOfPointwise(cart, r, ItemTotal);
  }

  /** The units and the total of a cart are those of its first part plus those of its second. */
  lemma TotalsAppend(a: seq<LineItem>, b: seq<LineItem>)
    ensures TotalUnits(a + b) == TotalUnits(a) + TotalUnits(b)
    ensures TotalOrder(a + b) == TotalOrder(a) + TotalOrder(b)
  {
    SumOfAppend(a, b, ItemUnits);
    SumOfAppend(a, b, ItemTotal);
  }

  /** When no line has a loose quantity and every line has a custom price, the price the cart
      shows is the total the order route computes and stores for the same items. */
  lemma {:induction false} PageTotalIsOrderTotal(cart: seq<LineItem>)
    requires forall i | 0 <= i < |cart| :: FalsyNum(cart[i].quantity) && cart[i].customPrice.Some?
    ensures TotalOrder(cart) == OrdersRoute.OrderTotal(cart)
  {
    if cart != [] {
      var n := |cart| - 1;
      PageTotalIsOrderTotal(cart[..n]);
      assert ItemTotal(cart[n]) == OrdersRoute.LineTotal(cart[n]);
    }
  }

  /** A loose quantity makes the two totals differ: one box of six units and two loose units at 3. */
  lemma QuantityMakesTotalsDiffer()
    ensures var item := LineItem(Some("p"), Some("Apa"), Some(3), Some(3), Some(1), Some(6), Some(2), Some(""));
            TotalOrder([item]) == 18 && OrdersRoute.OrderTotal([item]) == 24
  {
    var item := LineItem(Some("p"), Some("Apa"), Some(3), Some(3), Some(1), Some(6), Some(2), Some(""));
    assert TotalOrder([item]) == SumOf([], ItemTotal) + ItemTotal(item);
    assert OrdersRoute.OrderTotal([item]) == SumOf([], OrdersRoute.LineTotal) + OrdersRoute.LineTotal(item);
  }

  /** Adding an in-stock product not yet in the cart adds one box's worth of units to the page's total. */
  lemma AddNewLineUnits(cart: seq<LineItem>, stock: map<string, string>, p: ProductModel.ProductView)
    requires StockOf(stock, p.id) != "out of stoc" && !InCart(cart, p.id)
    ensures TotalUnits(AddToCart(cart, stock, p)) == TotalUnits(cart) + OrNum(p.unitsPerBox, 1)
  {
    SumOfSnoc(cart, NewLine(p), ItemUnits);
  }
}
