/** The Product schema: a catalogue record whose `stoc` field is a two-value enum. */
module ProductModel {
  import opened Common

  /** The two values the schema allows for `stoc`. */
  datatype Stock = InStoc | OutOfStoc

  function StockName(s: Stock): string {
    match s
    case InStoc => "in stoc"
    case OutOfStoc => "out of stoc"
  }

  /** The schema's enum validator for `stoc`, with its default "in stoc". */
  function CastStock(v: Option<string>): (r: Result<Stock, SchemaError>)
    ensures v.None? ==> r == Ok(InStoc)
    ensures v.Some? ==> (r.Ok? <==> v.value == "in stoc" || v.value == "out of stoc")
    ensures v.Some? && r.Ok? ==> StockName(r.value) == v.value
  {
    match v
    case None => Ok(InStoc)
    case Some(t) =>
      if t == "in stoc" then Ok(InStoc)
      else if t == "out of stoc" then Ok(OutOfStoc)
      else Err(NotInEnum("stoc"))
  }

  /** Every enum value survives the enum validator unchanged. */
  lemma CastStockName(s: Stock)
    ensures CastStock(Some(StockName(s))) == Ok(s)
  {
  }

  /** A stored product. The schema declares no barcode, so none is stored. */
  datatype Product = Product(
    id: string,
    name: string,
    description: string,
    price: int,
    category: string,
    unitsPerBox: int,
    image: string,
    stoc: Stock)

  /** What the required validators demand of a saved product: a non-empty name and category. */
  predicate RequiredPresent(p: Product) {
    p.name != "" && p.category != ""
  }

  /** Building and validating a document as `save` does: required fields,
      the defaults "" for description and image, the default and enum of `stoc`. */
  function NewProduct(id: string, name: Option<string>, description: Option<string>, price: Option<int>,
                      category: Option<string>, unitsPerBox: Option<int>, image: Option<string>,
                      stoc: Option<string>): (r: Result<Product, SchemaError>)
    ensures r.Ok? <==> !FalsyStr(name) && price.Some? && !FalsyStr(category) && unitsPerBox.Some?
                       && CastStock(stoc).Ok?
    ensures r.Ok? ==> RequiredPresent(r.value) && r.value.id == id
                      && r.value.name == name.value && r.value.category == category.value
                      && r.value.price == price.value && r.value.unitsPerBox == unitsPerBox.value
                      && r.value.description == description.GetOr("")
                      && r.value.image == image.GetOr("")
                      && CastStock(stoc) == Ok(r.value.stoc)
  {
    if FalsyStr(name) then Err(Required("name"))
    else if price.None? then Err(Required("price"))
    else if FalsyStr(category) then Err(Required("category"))
    else if unitsPerBox.None? then Err(Required("unitsPerBox"))
    else
      match CastStock(stoc)
      case Err(e) => Err(e)
      case Ok(st) =>
        Ok(Product(id, name.value, description.GetOr(""), price.value, category.value,
                   unitsPerBox.value, image.GetOr(""), st))
  }

  /** A product as the client receives it in JSON; the client treats each optional field with its own fallback. */
  datatype ProductView = ProductView(
    id: string,
    name: string,
    price: Option<int>,
    unitsPerBox: Option<int>,
    image: Option<string>,
    stoc: Option<string>)

  function ViewOf(p: Product): ProductView {
    ProductView(p.id, p.name, Some(p.price), Some(p.unitsPerBox), Some(p.image), Some(StockName(p.stoc)))
  }

  predicate UniqueProductIds(ps: seq<Product>) {
    forall i, j | 0 <= i < j < |ps| :: ps[i].id != ps[j].id
  }
}
