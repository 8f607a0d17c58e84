/** The products page: the response fallback, the out-of-stock rule and the shown defaults. */
module ProductsPage {
  import opened Common
  import opened Text
  import opened ProductModel
  import ProductCard
  import CartContext

  /** The answer to GET /products as the page receives it: an array, an object whose
      `products` may be missing, or a failed request. Entries may be null. */
  datatype ProductsResponse =
    | ArrayBody(entries: seq<Option<ProductView>>)
    | ObjectBody(products: Option<seq<Option<ProductView>>>)
    | FetchError

  /** `Array.isArray(res.data) ? res.data : res.data.products || []`, and [] after an error. */
  function ProductsData(res: ProductsResponse): (r: seq<Option<ProductView>>)
    ensures res.ArrayBody? ==> r == res.entries
    ensures res.ObjectBody? ==> r == res.products.GetOr([])
    ensures res.FetchError? ==> r == []
  {
    match res
    case ArrayBody(entries) => entries
    case ObjectBody(products) => products.GetOr([])
    case FetchError => []
  }

  /** `(product.stoc || "in stoc").trim().toLowerCase() === "out of stoc"`. */
  predicate IsOutOfStock(stoc: Option<string>) {
    ToLower(Trim(OrStr(stoc, "in stoc"))) == "out of stoc"
  }

  /** The page trims then lower-cases, the card lower-cases then trims: they always agree. */
  lemma PageAndCardAgree(stoc: Option<string>)
    ensures IsOutOfStock(stoc) <==> ProductCard.IsOutOfStock(stoc)
  {
    TrimLowerCommute(OrStr(stoc, "in stoc"));
  }

  /** The card the page draws for one entry, with the page's own placeholders. */
  function Render(product: Option<ProductView>): (r: Option<ProductCard.CardView>)
    ensures r.None? <==> product.None?
    ensures r.Some? ==> (r.value.canAdd <==> !IsOutOfStock(product.value.stoc))
    ensures r.Some? ==> r.value.price == Coalesce(product.value.price, 0)
    ensures r.Some? ==> r.value.unitsPerBox == OrNum(product.value.unitsPerBox, 1)
    ensures r.Some? ==> r.value.name == if product.value.name == "" then "Unnamed product" else product.value.name
    ensures r.Some? ==> r.value.image == OrStr(product.value.image, "placeholder.png")
    ensures r.Some? ==> (r.value.outOfStock <==> IsOutOfStock(product.value.stoc))
  {
    match product
    case None => None
    case Some(p) =>
      var out := IsOutOfStock(p.stoc);
      Some(ProductCard.CardView(OrStr(Some(p.name), "Unnamed product"), Coalesce(p.price, 0),
                                OrNum(p.unitsPerBox, 1), OrStr(p.image, "placeholder.png"), out, !out))
  }

  /** The page and the card agree on everything but the placeholders. */
  lemma PageMatchesCard(product: Option<ProductView>)
    ensures Render(product).None? <==> ProductCard.Render(product).None?
    ensures Render(product).Some? ==>
              Render(product).value.(name := "", image := "") == ProductCard.Render(product).value.(name := "", image := "")
  {
    if product.Some? {
      PageAndCardAgree(product.value.stoc);
    }
  }

  /** In any fetched catalogue, a product whose status the cart reads as "out of stoc" — the case
      the cart refuses — is shown as out of stock with its button disabled. The cart keeps the
      status of the last entry with an id, so that is the entry the lemma is about. */
  lemma CartRefusalIsShown(ps: seq<ProductView>, i: int)
    requires CartContext.LastWithId(ps, i)
    requires CartContext.StockOf(CartContext.StockMap(ps), ps[i].id) == "out of stoc"
    ensures IsOutOfStock(ps[i].stoc) && !Render(Some(ps[i])).value.canAdd
  {
    CartContext.StockMapValues(ps);
    assert ToLower("out of stoc") == "out of stoc";
    assert Trim("out of stoc") == "out of stoc";
  }
}
