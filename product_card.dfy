/** The product card component: its field defaults and the out-of-stock display rule. */
module ProductCard {
  import opened Common
  import opened Text
  import opened ProductModel

  /** What a product card shows: name, price, units per box, image, the stock label, and
      whether the add button is enabled. */
  datatype CardView = CardView(name: string, price: int, unitsPerBox: int, image: string,
                               outOfStock: bool, canAdd: bool)

  /** `(product.stoc || "in stoc").toLowerCase().trim() === "out of stoc"`. */
  predicate IsOutOfStock(stoc: Option<string>) {
    Trim(ToLower(OrStr(stoc, "in stoc"))) == "out of stoc"
  }

  /** The card of `product`; a null product renders nothing. */
  function Render(product: Option<ProductView>): (r: Option<CardView>)
    ensures r.None? <==> product.None?
    ensures r.Some? ==> (r.value.canAdd <==> !IsOutOfStock(product.value.stoc))
    ensures r.Some? ==> r.value.price == Coalesce(product.value.price, 0)
    ensures r.Some? ==> r.value.unitsPerBox == OrNum(product.value.unitsPerBox, 1)
    ensures r.Some? ==> r.value.name == if product.value.name == "" then "Produs fără nume" else product.value.name
    ensures r.Some? ==> r.value.image == OrStr(product.value.image, "/placeholder.png")
    ensures r.Some? ==> (r.value.outOfStock <==> IsOutOfStock(product.value.stoc))
  {
    match product
    case None => None
    case Some(p) =>
      var out := IsOutOfStock(p.stoc);
      Some(CardView(OrStr(Some(p.name), "Produs fără nume"), Coalesce(p.price, 0),
                    OrNum(p.unitsPerBox, 1), OrStr(p.image, "/placeholder.png"), out, !out))
  }

  /** A price of 0 is shown as 0, and a `unitsPerBox` of 0 is shown as 1. */
  lemma ZeroDefaults(p: ProductView)
    requires p.price == Some(0) && p.unitsPerBox == Some(0)
    ensures Render(Some(p)).value.price == 0 && Render(Some(p)).value.unitsPerBox == 1
  {
  }

  /** A stored product is shown as out of stock exactly when its status is "out of stoc". */
  lemma StoredProductStock(p: Product)
    ensures IsOutOfStock(ViewOf(p).stoc) <==> p.stoc == OutOfStoc
  {
    match p.stoc
    case InStoc =>
      assert ToLower("in stoc") == "in stoc";
      assert Trim("in stoc") == "in stoc";
    case OutOfStoc =>
      assert ToLower("out of stoc") == "out of stoc";
      assert Trim("out of stoc") == "out of stoc";
  }
}
