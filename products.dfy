/** The product catalog page: the form that creates or edits a product, with
    the live unit-cost preview. Names and suppliers are stored upper-cased and
    the unit cost is derived from the package price and size. */
module Products {
  import opened Wrappers
  import opened Seqs
  import opened Text
  import opened Types
  import opened DataManager

  /** The product form with its numeric fields already parsed (`None` is an
      empty or unparsable field). */
  datatype ProductForm = ProductForm(
    name: string,
    category: string,
    supplier: string,
    measureUnit: MeasureUnit,
    packagePrice: Option<real>,
    unitsPerPackage: Option<int>)

  /** The form as it is opened for a new product and after each submit. */
  const InitialForm: ProductForm := ProductForm("", "Doces", "", Cx, None, None)

  /** The unit cost previewed on the form: 0 unless both fields are filled in
      and the package size is positive. */
  function CalculateUnitCost(price: Option<real>, qty: Option<int>): (r: real)
    ensures price.Some? && qty.Some? && qty.value > 0 ==> r * qty.value as real == price.value
    ensures !(price.Some? && qty.Some? && qty.value > 0) ==> r == 0.0
  {
    if price.Some? && qty.Some? && qty.value > 0 then price.value / qty.value as real else 0.0
  }

  /** The product a submit saves, if any: refused when the price or the
      package size is missing or the size is not positive. The name and the
      supplier are upper-cased, the unit cost is the price over the size, and
      the id is the edited product's or the fresh one. */
  function BuildProduct(form: ProductForm, editingId: Option<Id>, freshId: Id): (r: Option<Product>)
    ensures r.None? <==> form.packagePrice.None? || form.unitsPerPackage.None? || form.unitsPerPackage.value <= 0
    ensures r.Some? ==>
              var p := r.value;
              p.id == (if Editing(editingId) then editingId.value else freshId) &&
              p.name == Upper(form.name) && p.supplier == Upper(form.supplier) &&
              p.category == form.category && p.measureUnit == form.measureUnit &&
              Some(p.packagePrice) == form.packagePrice && Some(p.unitsPerPackage) == form.unitsPerPackage &&
              p.unitsPerPackage > 0 && p.unitCost * p.unitsPerPackage as real == p.packagePrice
  {
    if form.packagePrice.None? || form.unitsPerPackage.None? || form.unitsPerPackage.value <= 0 then None
    else
      var price := form.packagePrice.value;
      var units := form.unitsPerPackage.value;
      Some(Product(if Editing(editingId) then editingId.value else freshId,
                   Upper(form.name), form.measureUnit, price, units, Upper(form.supplier),
                   price / units as real, form.category))
  }

  /** The cost previewed while typing is the cost that is saved. */
  lemma PreviewIsSavedCost(form: ProductForm, editingId: Option<Id>, freshId: Id)
    requires BuildProduct(form, editingId, freshId).Some?
    ensures BuildProduct(form, editingId, freshId).value.unitCost ==
            CalculateUnitCost(form.packagePrice, form.unitsPerPackage)
  {
    var p := BuildProduct(form, editingId, freshId).value;
    var c := CalculateUnitCost(form.packagePrice, form.unitsPerPackage);
    assert c * p.unitsPerPackage as real == p.unitCost * p.unitsPerPackage as real;
  }

  /** The form filled in from a product by the edit button. */
  function EditForm(p: Product): ProductForm {
    ProductForm(p.name, p.category, p.supplier, p.measureUnit, Some(p.packagePrice), Some(p.unitsPerPackage))
  }

  /** Saving is stable: editing a saved product and submitting the form
      unchanged saves the very same product under the same id. */
  lemma ResubmitIsStable(form: ProductForm, editingId: Option<Id>, freshId: Id, anotherId: Id)
    requires BuildProduct(form, editingId, freshId).Some?
    requires BuildProduct(form, editingId, freshId).value.id != ""
    ensures var p := BuildProduct(form, editingId, freshId).value;
            BuildProduct(EditForm(p), Some(p.id), anotherId) == Some(p)
  {
    UpperIdempotent(form.name);
    UpperIdempotent(form.supplier);
  }

  /** `handleSubmit`: an edit replaces the product with the edited id, a new
      product is appended; either way the form is reset and editing ends. A
      refused form changes nothing. */
  method SubmitProduct(store: DataProvider, form: ProductForm, editingId: Option<Id>, freshId: Id)
    returns (nextForm: ProductForm, nextEditing: Option<Id>)
    modifies store`products
    ensures match BuildProduct(form, editingId, freshId)
            case None =>
              store.products == old(store.products) && nextForm == form && nextEditing == editingId
            case Some(p) =>
              store.products == (if Editing(editingId) then ReplaceByKey(old(store.products), ProductId, p)
                                 else old(store.products) + [p]) &&
              nextForm == InitialForm && nextEditing == None
  {
    var built := BuildProduct(form, editingId, freshId);
    if built.None? {
      return form, editingId;
    }
    if Editing(editingId) {
      store.UpdateProduct(built.value);
    } else {
      store.AddProduct(built.value);
    }
    nextForm, nextEditing := InitialForm, None;
  }
}
