/** The suppliers page: the form that creates or edits a supplier. Names are
    stored upper-cased; renaming a supplier renames it in the catalog too,
    while deleting one leaves the catalog's supplier names as they are. */
module Suppliers {
  import opened Wrappers
  import opened Seqs
  import opened Text
  import opened Types
  import opened DataManager

  datatype SupplierForm = SupplierForm(name: string, contact: string, notes: string)

  /** The form as it is opened for a new supplier and after each submit. */
  const InitialForm: SupplierForm := SupplierForm("", "", "")

  /** The supplier a submit saves, if any: refused when the name is empty;
      otherwise the name upper-cased, the contact and notes as typed, and the
      edited supplier's id or the fresh one. */
  function BuildSupplier(form: SupplierForm, editingId: Option<Id>, freshId: Id): (r: Option<Supplier>)
    ensures r.None? <==> form.name == ""
    ensures r.Some? ==>
              var s := r.value;
              s.id == (if Editing(editingId) then editingId.value else freshId) &&
              s.name == Upper(form.name) && s.name != "" && IsUpper(s.name) &&
              s.contact == Some(form.contact) && s.notes == Some(form.notes)
  {
    if form.name == "" then None
    else
      UpperIsUpper(form.name);
      Some(Supplier(if Editing(editingId) then editingId.value else freshId,
                    Upper(form.name), Some(form.contact), Some(form.notes)))
  }

  /** The form filled in from a supplier by the edit button; absent contact
      and notes show as empty. */
  function EditForm(s: Supplier): SupplierForm {
    SupplierForm(s.name, s.contact.GetOr(""), s.notes.GetOr(""))
  }

  /** Editing a supplier and saving the form unchanged keeps its name, so the
      catalog is left untouched. */
  lemma UnchangedEditKeepsCatalog(products: seq<Product>, suppliers: seq<Supplier>, s: Supplier, freshId: Id)
    requires FindByKey(suppliers, SupplierId, s.id) == Some(s)
    requires s.id != "" && s.name != "" && IsUpper(s.name)
    ensures var t := BuildSupplier(EditForm(s), Some(s.id), freshId);
            t.Some? && t.value.id == s.id && t.value.name == s.name &&
            ProductsAfterSupplierUpdate(products, suppliers, t.value) == products
  {
    UpperOfUpper(s.name);
  }

  /** Saving an edit that changes a supplier's name moves every product of the
      former name to the new, upper-cased name, keeps the other products, and
      leaves no product on the former name. */
  lemma RenameThroughForm(products: seq<Product>, suppliers: seq<Supplier>, former: Supplier,
                          form: SupplierForm, freshId: Id)
    requires FindByKey(suppliers, SupplierId, former.id) == Some(former)
    requires former.id != ""
    requires BuildSupplier(form, Some(former.id), freshId).Some?
    requires Upper(form.name) != former.name
    ensures var t := BuildSupplier(form, Some(former.id), freshId).value;
            var r := ProductsAfterSupplierUpdate(products, suppliers, t);
            |r| == |products| &&
            (forall i :: 0 <= i < |r| ==> r[i].supplier != former.name) &&
            (forall i :: 0 <= i < |r| && products[i].supplier == former.name ==>
               r[i] == products[i].(supplier := Upper(form.name))) &&
            (forall i :: 0 <= i < |r| && products[i].supplier != former.name ==> r[i] == products[i])
  {
    SupplierUpdateEffect(products, suppliers, BuildSupplier(form, Some(former.id), freshId).value);
  }

  /** `handleSubmit`: an edit goes through `updateSupplier`, which also renames
      the catalog's products; a new supplier is appended. Either way the form
      is reset and editing ends. A refused form changes nothing. */
  method SubmitSupplier(store: DataProvider, form: SupplierForm, editingId: Option<Id>, freshId: Id)
    returns (nextForm: SupplierForm, nextEditing: Option<Id>)
    modifies store`suppliers, store`products
    ensures match BuildSupplier(form, editingId, freshId)
            case None =>
              store.suppliers == old(store.suppliers) && store.products == old(store.products) &&
              nextForm == form && nextEditing == editingId
            case Some(s) =>
              (if Editing(editingId)
               then store.suppliers == ReplaceByKey(old(store.suppliers), SupplierId, s) &&
                    store.products == ProductsAfterSupplierUpdate(old(store.products), old(store.suppliers), s)
               else store.suppliers == old(store.suppliers) + [s] && store.products == old(store.products)) &&
              nextForm == InitialForm && nextEditing == None
  {
    var built := BuildSupplier(form, editingId, freshId);
    if built.None? {
      return form, editingId;
    }
    if Editing(editingId) {
      store.UpdateSupplier(built.value);
    } else {
      store.AddSupplier(built.value);
    }
    nextForm, nextEditing := InitialForm, None;
  }
}
