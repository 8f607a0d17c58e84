/** The product form of the admin client: its initial state, `handleChange` and the
    payload `handleSubmit` posts. */
module AddProduct {
  import opened Common
  import opened Text
  import ProductModel
  import ProductsRoute

  /** The form state; every input holds text, `price` and `unitsPerBox` included. */
  datatype ProductForm = ProductForm(
    name: string,
    description: string,
    price: string,
    category: string,
    unitsPerBox: string,
    image: string,
    stoc: string,
    barcode: string)

  /** The `name` attribute of the input that changed. */
  datatype FormField = Name | Description | Price | Category | UnitsPerBox | Image | Stoc | BarcodeField

  function Get(f: ProductForm, field: FormField): string {
    match field
    case Name => f.name
    case Description => f.description
    case Price => f.price
    case Category => f.category
    case UnitsPerBox => f.unitsPerBox
    case Image => f.image
    case Stoc => f.stoc
    case BarcodeField => f.barcode
  }

  /** `useState({...})`: every text empty except `stoc`, which starts as "in stoc". */
  function InitialForm(): (f: ProductForm)
    ensures forall field | field != Stoc :: Get(f, field) == ""
    ensures f.stoc == "in stoc"
  {
    ProductForm("", "", "", "", "", "", "in stoc", "")
  }

  /** `handleChange`: the named field takes the typed value, `stoc` trimmed and lower-cased;
      every other field keeps its value. */
  function HandleChange(f: ProductForm, field: FormField, value: string): (r: ProductForm)
    ensures Get(r, field) == if field == Stoc then ToLower(Trim(value)) else value
    ensures forall other | other != field :: Get(r, other) == Get(f, other)
  {
    match field
    case Name => f.(name := value)
    case Description => f.(description := value)
    case Price => f.(price := value)
    case Category => f.(category := value)
    case UnitsPerBox => f.(unitsPerBox := value)
    case Image => f.(image := value)
    case Stoc => f.(stoc := ToLower(Trim(value)))
    case BarcodeField => f.(barcode := value)
  }

  /** Two forms that agree on every field are the same form. */
  lemma FormsEqual(a: ProductForm, b: ProductForm)
    requires forall field :: Get(a, field) == Get(b, field)
    ensures a == b
  {
    assert Get(a, Name) == Get(b, Name) && Get(a, Description) == Get(b, Description);
    assert Get(a, Price) == Get(b, Price) && Get(a, Category) == Get(b, Category);
    assert Get(a, UnitsPerBox) == Get(b, UnitsPerBox) && Get(a, Image) == Get(b, Image);
    assert Get(a, Stoc) == Get(b, Stoc) && Get(a, BarcodeField) == Get(b, BarcodeField);
  }

  /** Typing into the same field twice keeps only the second value; changes to two different
      fields can be made in either order. */
  lemma ChangesCompose(f: ProductForm, x: FormField, y: FormField, a: string, b: string)
    ensures HandleChange(HandleChange(f, x, a), x, b) == HandleChange(f, x, b)
    ensures x != y ==> HandleChange(HandleChange(f, x, a), y, b) == HandleChange(HandleChange(f, y, b), x, a)
  {
    FormsEqual(HandleChange(HandleChange(f, x, a), x, b), HandleChange(f, x, b));
    if x != y {
      FormsEqual(HandleChange(HandleChange(f, x, a), y, b), HandleChange(HandleChange(f, y, b), x, a));
    }
  }

  /** The stored `stoc` is already normalised: entering it again changes nothing, and the
      server's stock rule reads it as it would read the raw text. */
  lemma StocStable(f: ProductForm, value: string)
    ensures var g := HandleChange(f, Stoc, value); HandleChange(g, Stoc, g.stoc) == g
    ensures ProductsRoute.NormaliseStockText(HandleChange(f, Stoc, value).stoc) == ProductsRoute.NormaliseStockText(value)
  {
    NormaliseIdempotent(value);
    ProductsRoute.NormaliseStockStable(value);
  }

  /** The body `handleSubmit` posts: the form, with `barcode` null when empty. */
  datatype ProductPayload = ProductPayload(form: ProductForm, barcode: Option<string>)

  function SubmitPayload(f: ProductForm): (r: ProductPayload)
    ensures r.form == f
    ensures r.barcode.None? <==> f.barcode == ""
    ensures r.barcode.Some? ==> r.barcode.value == f.barcode
  {
    ProductPayload(f, if f.barcode != "" then Some(f.barcode) else None)
  }

  /** The server turns the posted barcode into the trimmed text, or null when the form's is empty;
      the initial form posts "in stoc", which the server keeps. */
  lemma SubmittedValuesOnServer(f: ProductForm)
    ensures ProductsRoute.Barcode(SubmitPayload(f).barcode) == if f.barcode == "" then None else Some(Trim(f.barcode))
    ensures ProductsRoute.PostStockStatus(Some(ProductsRoute.StocText(SubmitPayload(InitialForm()).form.stoc))) == ProductModel.InStoc
  {
    ProductsRoute.NormaliseStockName(ProductModel.InStoc);
  }
}
