/** The product dialog: its schema, the prefill from an existing product, the
    image field, the submit payload and the create-or-update choice. Reading
    an image file is left to the caller, which passes the resulting data URL. */
module ProductDialog {
  import opened Wrappers
  import opened Records

  /** The form's values. A field never set since `reset()` is missing; a number
      input left empty or not a number reads as missing too. */
  datatype ProductForm = ProductForm(
    name: Option<string>,
    price: Option<real>,
    category: Option<string>,
    stock: Option<real>,
    barcode: Option<string>,
    imageUrl: Field<string>)

  /** The values after `reset()` with no default values. */
  const EmptyForm: ProductForm := ProductForm(None, None, None, None, None, Absent)

  /** `productSchema`: which checks fail. */
  datatype FormError = NameRequired | PriceTooLow | CategoryRequired | NegativeStock

  function Errors(f: ProductForm): (errs: set<FormError>)
    ensures NameRequired in errs <==> !(f.name.Some? && |f.name.value| >= 1)
    ensures PriceTooLow in errs <==> !(f.price.Some? && f.price.value >= 0.01)
    ensures CategoryRequired in errs <==> !(f.category.Some? && |f.category.value| >= 1)
    ensures NegativeStock in errs <==> !(f.stock.Some? && f.stock.value >= 0.0)
  {
    (if f.name.Some? && |f.name.value| >= 1 then {} else {NameRequired})
    + (if f.price.Some? && f.price.value >= 0.01 then {} else {PriceTooLow})
    + (if f.category.Some? && |f.category.value| >= 1 then {} else {CategoryRequired})
    + (if f.stock.Some? && f.stock.value >= 0.0 then {} else {NegativeStock})
  }

  predicate Valid(f: ProductForm) {
    Errors(f) == {}
  }

  /** The barcode and the image are optional: a form is valid whatever they hold. */
  lemma OptionalFieldsIgnored(f: ProductForm, barcode: Option<string>, image: Field<string>)
    ensures Valid(f) <==> Valid(f.(barcode := barcode, imageUrl := image))
  {
  }

  /** The empty form is rejected on all four required fields. */
  lemma EmptyFormRejected()
    ensures Errors(EmptyForm) == {NameRequired, PriceTooLow, CategoryRequired, NegativeStock}
  {
  }

  /** The dialog's state: the form, the image preview, and whether it is open. */
  datatype DialogState = DialogState(form: ProductForm, preview: Option<string>, open: bool)

  /** The prefill effect: copy an existing product, with the barcode defaulting to ""
      and the image to null; without a product, reset the form. */
  function Prefill(st: DialogState, product: Option<Product>): (r: DialogState)
    ensures r.open == st.open
    ensures product.None? ==> r.form == EmptyForm && r.preview == None
    ensures product.Some? ==>
      var p := product.value;
      && r.form.name == Some(p.name) && r.form.price == Some(p.price)
      && r.form.category == Some(p.category) && r.form.stock == Some(p.stock as real)
      && r.form.barcode == Some(if TruthyOpt(p.barcode) then p.barcode.value else "")
      && (TruthyOpt(p.imageUrl) ==> r.form.imageUrl == Present(p.imageUrl.value) && r.preview == p.imageUrl)
      && (!TruthyOpt(p.imageUrl) ==> r.form.imageUrl == Null && r.preview == None)
  {
    match product
    case None => st.(form := EmptyForm, preview := None)
    case Some(p) =>
      var image := if TruthyOpt(p.imageUrl) then Some(p.imageUrl.value) else None;
      var form := ProductForm(
        Some(p.name), Some(p.price), Some(p.category), Some(p.stock as real),
        Some(if TruthyOpt(p.barcode) then p.barcode.value else ""),
        if image.Some? then Present(image.value) else Null);
      st.(form := form, preview := image)
  }

  /** A stored product with a non-empty name and category, a price of at least 0.01
      and no negative stock prefills a valid form. */
  lemma PrefillOfSoundProductIsValid(st: DialogState, p: Product)
    requires p.name != "" && p.category != "" && p.price >= 0.01 && p.stock >= 0
    ensures Valid(Prefill(st, Some(p)).form)
  {
  }

  /** `handleClearImage`: the image value and the preview both become null. */
  function ClearImage(st: DialogState): (r: DialogState)
    ensures r.form.imageUrl == Null && r.preview == None
    ensures r.form == st.form.(imageUrl := Null) && r.open == st.open
  {
    st.(form := st.form.(imageUrl := Null), preview := None)
  }

  /** `handleImageChange` once the file is read: a chosen file's data URL becomes both the
      value and the preview; no file clears them as `handleClearImage` does. */
  function ImageChosen(st: DialogState, dataUrl: Option<string>): (r: DialogState)
    ensures dataUrl.None? ==> r == ClearImage(st)
    ensures dataUrl.Some? ==> r.form.imageUrl == Present(dataUrl.value) && r.preview == dataUrl
    ensures r.form.name == st.form.name && r.form.price == st.form.price && r.open == st.open
  {
    match dataUrl
    case None => ClearImage(st)
    case Some(u) => st.(form := st.form.(imageUrl := Present(u)), preview := Some(u))
  }

  /** `onSubmit`'s payload: the form data with the `image_url` key deleted when it is falsy. */
  function Payload(f: ProductForm): (r: ProductForm)
    ensures r.imageUrl == (if TruthyText(f.imageUrl) then f.imageUrl else Absent)
    ensures r.(imageUrl := f.imageUrl) == f
    ensures Valid(r) <==> Valid(f)
  {
    OptionalFieldsIgnored(f, f.barcode, if TruthyText(f.imageUrl) then f.imageUrl else Absent);
    if TruthyText(f.imageUrl) then f else f.(imageUrl := Absent)
  }

  /** Normalising twice is normalising once, and a cleared image never reaches the payload. */
  lemma PayloadNormalised(st: DialogState)
    ensures Payload(Payload(st.form)) == Payload(st.form)
    ensures Payload(ClearImage(st).form).imageUrl == Absent
  {
  }

  /** The mutation `onSubmit` starts. */
  datatype Mutation = Create(payload: ProductForm) | Update(id: string, payload: ProductForm)

  /** `handleSubmit(onSubmit)`: nothing for an invalid form; otherwise an update of the
      product being edited, or a create when there is none. */
  function Submit(product: Option<Product>, f: ProductForm): (r: Option<Mutation>)
    ensures r.Some? <==> Valid(f)
    ensures r.Some? ==> r.value.payload == Payload(f)
    ensures r.Some? ==> (r.value.Update? <==> product.Some?)
    ensures r.Some? && r.value.Update? ==> r.value.id == product.value.id
  {
    if !Valid(f) then None
    else if product.Some? then Some(Update(product.value.id, Payload(f)))
    else Some(Create(Payload(f)))
  }

  /** A successful create or update closes the dialog and clears the form and preview. */
  function MutationSucceeded(st: DialogState): (r: DialogState)
    ensures !r.open && r.form == EmptyForm && r.preview == None
  {
    DialogState(EmptyForm, None, false)
  }

  /** The categories the select offers. */
  const Categories: seq<string> := ["Beverages", "Food", "Bakery", "Snacks"]

  /** Every offered category satisfies the schema, but so does any other non-empty
      category: the schema does not restrict the value to the offered four. */
  lemma CategoriesWiderThanOffered(f: ProductForm)
    requires f.category.Some? && f.category.value in Categories
    ensures CategoryRequired !in Errors(f)
    ensures CategoryRequired !in Errors(f.(category := Some("Toys")))
    ensures "Toys" !in Categories
  {
  }
}
