/** The catalogue screen (components/ItemsTab.tsx): the add/edit form, its
    validation, and saving or deleting an item. */
module ItemsTab {
  import opened Wrappers
  import opened Text
  import opened Numbers
  import opened Store

  /** The units the form offers. */
  const Units: seq<string> := ["kg", "pcs", "litre", "packet", "dozen", "box", "gm", "ml"]

  /** The form's text inputs. */
  datatype FormState = FormState(nameEn: string, nameKn: string, price: string, unit: string)

  const EmptyForm := FormState("", "", "", "kg")

  const NameRequired := "Name is required"
  const InvalidPrice := "Enter valid price"

  /** The messages shown under the fields; `None` where the field is fine. */
  datatype FormErrors = FormErrors(nameEn: Option<string>, price: Option<string>)
  {
    predicate IsEmpty() { nameEn.None? && price.None? }
  }

  /** The errors `validate` records: the English name must not be blank and
      the price must parse to a number above zero; the form passes exactly
      when neither fails. */
  function ErrorsOf(form: FormState): (r: FormErrors)
    ensures r.nameEn.Some? <==> IsBlank(form.nameEn)
    ensures r.nameEn.Some? ==> r.nameEn.value == NameRequired
    ensures r.price.Some? <==> PositiveNumber(form.price).None?
    ensures r.price.Some? ==> r.price.value == InvalidPrice
    ensures r.IsEmpty() <==> !IsBlank(form.nameEn) && PositiveNumber(form.price).Some?
  {
    FormErrors(if Trim(form.nameEn) == "" then Some(NameRequired) else None,
               if PositiveNumber(form.price).None? then Some(InvalidPrice) else None)
  }

  /** The record `handleSave` hands to the store once the form is valid. */
  function FormData(form: FormState): (r: ItemData)
    requires ErrorsOf(form).IsEmpty()
    ensures r.nameEn != [] && r.price > 0.0
    ensures r.nameEn == Trim(form.nameEn) && r.nameKn == Trim(form.nameKn)
    ensures Some(r.price) == ParseFloat(form.price) && r.unit == form.unit
  {
    ItemData(Trim(form.nameEn), Trim(form.nameKn), ParseFloat(form.price).value, form.unit)
  }

  /** Every field of the record as a patch, as `updateItem` receives it. */
  function FullPatch(d: ItemData): ItemPatch
  {
    ItemPatch(Some(d.nameEn), Some(d.nameKn), Some(d.price), Some(d.unit))
  }

  /** The form `openEdit` fills from an item; `priceText` is `String(item.price)`. */
  function FormOf(it: Item, priceText: string): FormState
  {
    FormState(it.nameEn, it.nameKn, priceText, it.unit)
  }

  /** A trimmed item, opened for editing and saved without changes, is left
      exactly as it was. */
  lemma EditWithoutChangesKeepsItem(it: Item, priceText: string)
    requires it.nameEn != [] && Trim(it.nameEn) == it.nameEn && Trim(it.nameKn) == it.nameKn
    requires ParseFloat(priceText) == Some(it.price) && it.price > 0.0
    ensures ErrorsOf(FormOf(it, priceText)).IsEmpty()
    ensures ApplyItemPatch(it, FullPatch(FormData(FormOf(it, priceText)))) == it
  {
  }

  /** A saved name carries no white space at either end, however it was typed. */
  lemma SavedNamesAreTrimmed(form: FormState)
    requires ErrorsOf(form).IsEmpty()
    ensures Trim(FormData(form).nameEn) == FormData(form).nameEn
    ensures Trim(FormData(form).nameKn) == FormData(form).nameKn
  {
    TrimIdempotent(form.nameEn);
    TrimIdempotent(form.nameKn);
  }

  /** The screen's state: the dialog, the item being edited (if any), the
      form, the pending delete and the field errors. */
  class ItemsScreen {
    var dialogOpen: bool
    var editing: Option<Item>
    var form: FormState
    var deleteId: Option<string>
    var errors: FormErrors

    constructor ()
      ensures !dialogOpen && editing == None && form == EmptyForm && deleteId == None && errors.IsEmpty()
    {
      dialogOpen, editing, form, deleteId := false, None, EmptyForm, None;
      errors := FormErrors(None, None);
    }

    /** `openAdd`: an empty form for a new item. */
    method OpenAdd()
      modifies this
      ensures dialogOpen && editing == None && form == EmptyForm && errors.IsEmpty()
      ensures deleteId == old(deleteId)
    {
      editing, form, errors, dialogOpen := None, EmptyForm, FormErrors(None, None), true;
    }

    /** `openEdit`: the form filled from `it`, with `priceText` as the price. */
    method OpenEdit(it: Item, priceText: string)
      modifies this
      ensures dialogOpen && editing == Some(it) && form == FormOf(it, priceText) && errors.IsEmpty()
      ensures deleteId == old(deleteId)
    {
      editing, form, errors, dialogOpen := Some(it), FormOf(it, priceText), FormErrors(None, None), true;
    }

    /** Picking a unit from the list. */
    method SelectUnit(u: string)
      requires u in Units
      modifies this
      ensures form == old(form).(unit := u)
      ensures dialogOpen == old(dialogOpen) && editing == old(editing) && deleteId == old(deleteId) && errors == old(errors)
    {
      form := form.(unit := u);
    }

    /** `validate`: records each failed check in `errors` and reports
        whether there was none. */
    method Validate() returns (ok: bool)
      modifies this`errors
      ensures errors == ErrorsOf(form)
      ensures ok <==> errors.IsEmpty()
    {
      var next := FormErrors(None, None);
      if Trim(form.nameEn) == "" {
        next := next.(nameEn := Some(NameRequired));
      }
      var price := ParseFloat(form.price);
      if price.None? || price.value <= 0.0 {
        next := next.(price := Some(InvalidPrice));
      }
      errors := next;
      ok := next.IsEmpty();
    }

    /** `handleSave`: an invalid form only shows its errors; a valid one
        updates the edited item with every field, or adds a new item, and
        closes the dialog. */
    method HandleSave(store: EntityStore, id: string, ghost writeOk: bool) returns (saved: bool)
      requires editing.None? ==> FreshId(store.items, ItemId, id)
      modifies this, store
      ensures errors == ErrorsOf(old(form))
      ensures saved <==> ErrorsOf(old(form)).IsEmpty()
      ensures !saved ==> store.items == old(store.items) && store.storage == old(store.storage) && dialogOpen == old(dialogOpen)
      ensures saved && old(editing).Some? ==>
        && store.items == UpdateItemsById(old(store.items), old(editing).value.id, FullPatch(FormData(old(form))))
        && store.storage == SaveToStorage(old(store.storage), ItemsKey, ItemsBlob(store.items), writeOk)
      ensures saved && old(editing).None? ==>
        && var d := FormData(old(form));
        && store.items == old(store.items) + [Item(id, d.nameEn, d.nameKn, d.price, d.unit)]
        && store.storage == SaveToStorage(old(store.storage), ItemsKey, ItemsBlob(store.items), writeOk)
      ensures saved ==> !dialogOpen
      ensures form == old(form) && editing == old(editing) && deleteId == old(deleteId)
      ensures store.sales == old(store.sales) && store.udhaar == old(store.udhaar)
      ensures store.expenses == old(store.expenses) && store.settings == old(store.settings)
    {
      var ok := Validate();
      if !ok {
        return false;
      }
      var data := FormData(form);
      if editing.Some? {
        store.UpdateItem(editing.value.id, FullPatch(data), writeOk);
      } else {
        var _ := store.AddItem(data, id, writeOk);
      }
      dialogOpen := false;
      saved := true;
    }

    /** `handleDelete`: removes the item and closes the confirmation. */
    method HandleDelete(store: EntityStore, id: string, ghost writeOk: bool)
      modifies this, store
      ensures store.items == WithoutId(old(store.items), ItemId, id)
      ensures store.storage == SaveToStorage(old(store.storage), ItemsKey, ItemsBlob(store.items), writeOk)
      ensures store.sales == old(store.sales) && store.udhaar == old(store.udhaar)
      ensures store.expenses == old(store.expenses) && store.settings == old(store.settings)
      ensures deleteId == None
      ensures dialogOpen == old(dialogOpen) && editing == old(editing) && form == old(form) && errors == old(errors)
    {
      store.DeleteItem(id, writeOk);
      deleteId := None;
    }
  }
}
