/** The catalogue routes: POST / (required fields, stock normalisation,
    trimmed texts) and PUT /:id (partial update, stock normalisation, 404). */
module ProductsRoute {
  import opened Common
  import opened Text
  import opened ProductModel
  import opened Store

  /** The JSON value of `stoc` in a request body: a string, or some other kind of value. */
  datatype StocInput = StocText(text: string) | StocOther

  /** The request body of POST / and PUT /:id; a missing field is None. */
  datatype ProductBody = ProductBody(
    name: Option<string>,
    description: Option<string>,
    price: Option<int>,
    category: Option<string>,
    unitsPerBox: Option<int>,
    image: Option<string>,
    stoc: Option<StocInput>,
    barcode: Option<string>)

  /** 400 for missing fields, 404 for an unknown id, 500 for anything thrown (a failed
      validation on save, `trim` called on a value that is not a string). */
  datatype ProductFailure = MissingFields | NotFound | ServerError

  /** The stock test shared by both routes: after trimming and lower-casing, text
      containing "in" means in stock, otherwise text containing "out" means out of
      stock, anything else means in stock. "in" is tested first. */
  function NormaliseStockText(s: string): Stock {
    var t := ToLower(Trim(s));
    if Contains(t, "in") then InStoc
    else if Contains(t, "out") then OutOfStoc
    else InStoc
  }

  /** A text already in normal form is classified by its own contents. */
  lemma NormaliseCleanText(t: string)
    requires ToLower(Trim(t)) == t
    ensures NormaliseStockText(t) == if Contains(t, "in") then InStoc else if Contains(t, "out") then OutOfStoc else InStoc
  {
  }

  /** Each enum name is normalised to itself. */
  lemma NormaliseStockName(st: Stock)
    ensures NormaliseStockText(StockName(st)) == st
  {
    var t := StockName(st);
    CleanTextNormal(t);
    NormaliseCleanText(t);
    if st == InStoc {
      assert IsPrefix("in", t);
    } else {
      assert 'i' !in t;
      MissingFirstCharNotContained(t, "in");
      assert IsPrefix("out", t);
    }
  }

  /** Normalising is unaffected by surrounding whitespace and letter case, and a
      normalised value normalises to itself. */
  lemma NormaliseStockStable(s: string)
    ensures NormaliseStockText(ToLower(Trim(s))) == NormaliseStockText(s)
    ensures NormaliseStockText(StockName(NormaliseStockText(s))) == NormaliseStockText(s)
  {
    NormaliseIdempotent(s);
    NormaliseStockName(NormaliseStockText(s));
  }

  /** The empty text normalises to "in stoc". */
  lemma NormaliseEmpty()
    ensures NormaliseStockText("") == InStoc
  {
    assert ToLower(Trim("")) == "";
  }

  /** The POST rule: a non-string or empty `stoc` keeps the initial "in stoc". */
  function PostStockStatus(stoc: Option<StocInput>): (r: Stock)
    ensures stoc.None? || stoc == Some(StocOther) || stoc == Some(StocText("")) ==> r == InStoc
  {
    match stoc
    case Some(StocText(t)) => if t != "" then NormaliseStockText(t) else InStoc
    case _ => InStoc
  }

  /** POST and PUT give the same stock status for every string. */
  lemma PostPutAgree(t: string)
    ensures PostStockStatus(Some(StocText(t))) == NormaliseStockText(t)
  {
    if t == "" {
      NormaliseEmpty();
    }
  }

  /** `barcode ? barcode.trim() : null`. */
  function Barcode(b: Option<string>): (r: Option<string>)
    ensures FalsyStr(b) <==> r.None?
    ensures r.Some? ==> r.value == Trim(b.value)
  {
    if FalsyStr(b) then None else Some(Trim(b.value))
  }

  /** `description ? description.trim() : ""` (also used for `image`). */
  function TrimmedOrEmpty(s: Option<string>): (r: string)
    ensures FalsyStr(s) ==> r == ""
    ensures !FalsyStr(s) ==> r == Trim(s.value)
  {
    if FalsyStr(s) then "" else Trim(s.value)
  }

  /** The POST check: name and category truthy, price and unitsPerBox present (0 passes). */
  predicate PostFieldsPresent(body: ProductBody) {
    !FalsyStr(body.name) && body.price.Some? && !FalsyStr(body.category) && body.unitsPerBox.Some?
  }

  /** The document POST / builds, barcode included, before the schema sees it. */
  datatype ProductDoc = ProductDoc(
    name: string, description: string, price: int, category: string, unitsPerBox: int,
    image: string, stoc: Stock, barcode: Option<string>)

  function PostDoc(body: ProductBody): ProductDoc
    requires PostFieldsPresent(body)
  {
    ProductDoc(Trim(body.name.value), TrimmedOrEmpty(body.description), body.price.value,
               Trim(body.category.value), body.unitsPerBox.value, TrimmedOrEmpty(body.image),
               PostStockStatus(body.stoc), Barcode(body.barcode))
  }

  /** `new Product(doc).save()`: the schema validates the document and drops `barcode`, which it does not declare. */
  function SaveDoc(doc: ProductDoc, id: string): Result<Product, SchemaError> {
    NewProduct(id, Some(doc.name), Some(doc.description), Some(doc.price), Some(doc.category),
               Some(doc.unitsPerBox), Some(doc.image), Some(StockName(doc.stoc)))
  }

  /** The outcome of POST / for a new document id. */
  function CreateOutcome(body: ProductBody, id: string): (r: Result<Product, ProductFailure>)
    ensures r == Err(MissingFields) <==> !PostFieldsPresent(body)
    ensures r.Ok? <==> PostFieldsPresent(body) && Trim(body.name.value) != "" && Trim(body.category.value) != ""
    ensures r.Err? && PostFieldsPresent(body) ==> r.error == ServerError
    ensures r.Ok? ==> r.value.id == id && RequiredPresent(r.value)
                      && r.value.name == Trim(body.name.value) && r.value.category == Trim(body.category.value)
                      && r.value.description == TrimmedOrEmpty(body.description)
                      && r.value.image == TrimmedOrEmpty(body.image)
                      && r.value.price == body.price.value && r.value.unitsPerBox == body.unitsPerBox.value
                      && r.value.stoc == PostStockStatus(body.stoc)
  {
    if !PostFieldsPresent(body) then Err(MissingFields)
    else
      var doc := PostDoc(body);
      CastStockName(doc.stoc);
      match SaveDoc(doc, id)
      case Ok(p) => Ok(p)
      case Err(_) => Err(ServerError)
  }

  /** The stored product does not depend on the barcode sent. */
  lemma CreateIgnoresBarcode(body: ProductBody, id: string, b: Option<string>)
    ensures CreateOutcome(body.(barcode := b), id) == CreateOutcome(body, id)
  {
  }

  /** A name made only of spaces passes the route's check but fails the schema on save. */
  lemma BlankNameFailsOnSave(body: ProductBody, id: string)
    requires body.name == Some("  ") && body.price.Some? && !FalsyStr(body.category) && body.unitsPerBox.Some?
    ensures CreateOutcome(body, id) == Err(ServerError)
  {
    assert Trim("  ") == "";
  }

  /** `trim` also strips the no-break space, so a name made of it fails the schema on save too. */
  lemma NoBreakNameFailsOnSave(body: ProductBody, id: string)
    requires body.name == Some("\U{A0}\U{A0}") && body.price.Some? && !FalsyStr(body.category) && body.unitsPerBox.Some?
    ensures CreateOutcome(body, id) == Err(ServerError)
  {
    assert Trim("\U{A0}\U{A0}") == "";
  }

  /** POST /. */
  method CreateProduct(store: Store, body: ProductBody, newId: string) returns (res: Result<Product, ProductFailure>)
    requires store.Valid()
    requires forall i | 0 <= i < |store.products| :: store.products[i].id != newId
    modifies store
    ensures store.Valid()
    ensures res == CreateOutcome(body, newId)
    ensures store.orders == old(store.orders)
    ensures store.products == if res.Ok? then old(store.products) + [res.value] else old(store.products)
  {
    res := CreateOutcome(body, newId);
    if res.Ok? {
      store.products := store.products + [res.value];
    }
  }

  /** The `updateData` object of PUT /:id: a field is present exactly when the body has it. */
  datatype UpdateData = UpdateData(
    name: Option<string>, description: Option<string>, price: Option<int>, category: Option<string>,
    unitsPerBox: Option<int>, image: Option<string>, barcode: Option<Option<string>>, stoc: Option<Stock>)

  function TrimOpt(s: Option<string>): (r: Option<string>)
    ensures r.Some? <==> s.Some?
    ensures r.Some? ==> r.value == Trim(s.value)
  {
    match s
    case None => None
    case Some(t) => Some(Trim(t))
  }

  /** Building `updateData`; a `stoc` that is not a string makes `trim` throw. */
  function BuildUpdate(body: ProductBody): (r: Result<UpdateData, ProductFailure>)
    ensures r.Err? <==> body.stoc == Some(StocOther)
    ensures r.Err? ==> r.error == ServerError
    ensures r.Ok? ==> r.value.name == TrimOpt(body.name) && r.value.description == TrimOpt(body.description)
                      && r.value.category == TrimOpt(body.category) && r.value.image == TrimOpt(body.image)
                      && r.value.price == body.price && r.value.unitsPerBox == body.unitsPerBox
    ensures r.Ok? ==> r.value.barcode == if body.barcode.Some? then Some(Barcode(body.barcode)) else None
    ensures r.Ok? ==> (r.value.stoc.Some? <==> body.stoc.Some?)
    ensures r.Ok? && body.stoc.Some? ==> r.value.stoc.value == NormaliseStockText(body.stoc.value.text)
  {
    match body.stoc
    case Some(StocOther) => Err(ServerError)
    case _ =>
      Ok(UpdateData(
        TrimOpt(body.name), TrimOpt(body.description), body.price, TrimOpt(body.category),
        body.unitsPerBox, TrimOpt(body.image),
        if body.barcode.Some? then Some(Barcode(body.barcode)) else None,
        match body.stoc
        case Some(StocText(t)) => Some(NormaliseStockText(t))
        case _ => None))
  }

  /** `findByIdAndUpdate`: the present fields replace the stored ones; the schema has no
      `barcode`, so it is not stored; validators do not run on this update. */
  function ApplyUpdate(p: Product, u: UpdateData): Product {
    Product(p.id, u.name.GetOr(p.name), u.description.GetOr(p.description), u.price.GetOr(p.price),
            u.category.GetOr(p.category), u.unitsPerBox.GetOr(p.unitsPerBox), u.image.GetOr(p.image),
            u.stoc.GetOr(p.stoc))
  }

  /** PUT /:id changes exactly the fields present in the body, each normalised as the route does;
      every other stored field and the id keep their values. */
  lemma UpdateChangesPresentFields(p: Product, body: ProductBody)
    requires BuildUpdate(body).Ok?
    ensures var q := ApplyUpdate(p, BuildUpdate(body).value);
      && q.id == p.id
      && q.name == (if body.name.Some? then Trim(body.name.value) else p.name)
      && q.description == (if body.description.Some? then Trim(body.description.value) else p.description)
      && q.price == body.price.GetOr(p.price)
      && q.category == (if body.category.Some? then Trim(body.category.value) else p.category)
      && q.unitsPerBox == body.unitsPerBox.GetOr(p.unitsPerBox)
      && q.image == (if body.image.Some? then Trim(body.image.value) else p.image)
      && q.stoc == (if body.stoc.Some? then NormaliseStockText(body.stoc.value.text) else p.stoc)
  {
  }

  /** An update with no fields leaves the product as it was. */
  lemma EmptyUpdateIsIdentity(p: Product)
    ensures ApplyUpdate(p, BuildUpdate(ProductBody(None, None, None, None, None, None, None, None)).value) == p
  {
  }

  /** Sending the same update twice has the effect of sending it once. */
  lemma UpdateIdempotent(p: Product, u: UpdateData)
    ensures ApplyUpdate(ApplyUpdate(p, u), u) == ApplyUpdate(p, u)
  {
  }

  /** The stored product does not depend on the barcode sent. */
  lemma UpdateIgnoresBarcode(p: Product, body: ProductBody, b: Option<string>)
    requires BuildUpdate(body).Ok?
    ensures BuildUpdate(body.(barcode := b)).Ok?
    ensures ApplyUpdate(p, BuildUpdate(body.(barcode := b)).value) == ApplyUpdate(p, BuildUpdate(body).value)
  {
  }

  /** Without validators an update can empty a required field: a name of spaces is stored as "". */
  lemma UpdateCanBlankName(p: Product)
    ensures ApplyUpdate(p, BuildUpdate(ProductBody(Some(" "), None, None, None, None, None, None, None)).value).name == ""
  {
    assert Trim(" ") == "";
  }

  lemma ReplaceKeepsIds(ps: seq<Product>, k: nat, q: Product)
    requires k < |ps| && q.id == ps[k].id && UniqueProductIds(ps)
    ensures UniqueProductIds(ps[k := q])
  {
  }

  /** PUT /:id. A body that makes `trim` throw fails before the lookup; an unknown id gives 404. */
  method UpdateProduct(store: Store, id: string, body: ProductBody) returns (res: Result<Product, ProductFailure>)
    requires store.Valid()
    modifies store
    ensures store.Valid()
    ensures store.orders == old(store.orders)
    ensures BuildUpdate(body).Err? ==> res == Err(ServerError) && store.products == old(store.products)
    ensures BuildUpdate(body).Ok? && ProductIndex(old(store.products), id).None? ==>
              res == Err(NotFound) && store.products == old(store.products)
    ensures BuildUpdate(body).Ok? && ProductIndex(old(store.products), id).Some? ==>
              var k := ProductIndex(old(store.products), id).value;
              var q := ApplyUpdate(old(store.products)[k], BuildUpdate(body).value);
              res == Ok(q) && store.products == old(store.products)[k := q]
  {
    var u := BuildUpdate(body);
    if u.Err? {
      return Err(ServerError);
    }
    var k := ProductIndex(store.products, id);
    if k.None? {
      return Err(NotFound);
    }
    var q := ApplyUpdate(store.products[k.value], u.value);
    ReplaceKeepsIds(store.products, k.value, q);
    store.products := store.products[k.value := q];
    res := Ok(q);
  }
}
