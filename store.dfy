/** The local entity store: the five collections of the point-of-sale app,
    the durable key-value slots they are saved to, and the operations that
    change them (hooks/useStore.ts). */
module Store {
  import opened Wrappers
  import Seqs

  // ─── Data model ───────────────────────────────────────────────────────────

  /** Which language the printed receipt uses. */
  datatype PrintLang = En | Kn | Both

  datatype Item = Item(id: string, nameEn: string, nameKn: string, price: real, unit: string)

  /** One bill line: a snapshot of the item, a quantity and a percentage discount. */
  datatype CartItem = CartItem(item: Item, quantity: real, discount: real)

  datatype Sale = Sale(id: string, date: string, items: seq<CartItem>, total: real, storeName: string)

  /** A credit ("udhaar") given to a customer, tracked until it is paid. */
  datatype UdhaarEntry = UdhaarEntry(id: string, customerName: string, amount: real, date: string, note: string, paid: bool)

  datatype Expense = Expense(id: string, date: string, description: string, amount: real)

  datatype Settings = Settings(storeNameEn: string, storeNameKn: string, phone: string, pin: string, printLang: PrintLang)

  /** The fields of a new item (`Omit<Item, "id">`). */
  datatype ItemData = ItemData(nameEn: string, nameKn: string, price: real, unit: string)

  /** Some of an item's fields (`Partial<Omit<Item, "id">>`); `None` leaves a field alone. */
  datatype ItemPatch = ItemPatch(nameEn: Option<string>, nameKn: Option<string>, price: Option<real>, unit: Option<string>)

  /** Some of the settings' fields (`Partial<Settings>`). */
  datatype SettingsPatch = SettingsPatch(
    storeNameEn: Option<string>, storeNameKn: Option<string>, phone: Option<string>,
    pin: Option<string>, printLang: Option<PrintLang>)

  const DefaultSettings := Settings("My Kirana Store", "ನನ್ನ ಕಿರಾಣಾ ಅಂಗಡಿ", "", "1234", Both)

  const DefaultItems: seq<Item> := [
    Item("1", "Rice", "ಅಕ್ಕಿ", 60.0, "kg"),
    Item("2", "Sugar", "ಸಕ್ಕರೆ", 45.0, "kg"),
    Item("3", "Salt", "ಉಪ್ಪು", 20.0, "kg"),
    Item("4", "Oil", "ಎಣ್ಣೆ", 180.0, "litre"),
    Item("5", "Dal", "ಬೇಳೆ", 120.0, "kg"),
    Item("6", "Atta / Flour", "ಹಿಟ್ಟು", 50.0, "kg"),
    Item("7", "Tea Powder", "ಚಹಾ", 300.0, "kg"),
    Item("8", "Soap", "ಸಾಬೂನು", 40.0, "pcs")
  ]

  function ItemId(it: Item): string { it.id }
  function SaleId(s: Sale): string { s.id }
  function UdhaarId(e: UdhaarEntry): string { e.id }
  function ExpenseId(e: Expense): string { e.id }

  /** `id` is not used by any record of `s`. */
  predicate FreshId<T>(s: seq<T>, idOf: T -> string, id: string)
  {
    forall i :: 0 <= i < |s| ==> idOf(s[i]) != id
  }

  // ─── Durable storage ──────────────────────────────────────────────────────

  const ItemsKey := "kirana_items"
  const SalesKey := "kirana_sales"
  const UdhaarKey := "kirana_udhaar"
  const ExpensesKey := "kirana_expenses"
  const SettingsKey := "kirana_settings"

  /** What a slot holds: one serialised collection, or text that does not parse. */
  datatype Blob =
    | ItemsBlob(items: seq<Item>)
    | SalesBlob(sales: seq<Sale>)
    | UdhaarBlob(udhaar: seq<UdhaarEntry>)
    | ExpensesBlob(expenses: seq<Expense>)
    | SettingsBlob(settings: Settings)
    | Unparseable

  type Storage = map<string, Blob>

  /** `loadFromStorage`: the decoded slot, or `fallback` when the slot is
      missing or its content does not decode. */
  function LoadFromStorage<T>(storage: Storage, key: string, fallback: T, decode: Blob -> Option<T>): (r: T)
    ensures key in storage && decode(storage[key]).Some? ==> r == decode(storage[key]).value
  {
    if key !in storage then fallback else decode(storage[key]).GetOr(fallback)
  }

  /** `saveToStorage`: the slot now holds `blob`, unless the write failed
      (`writeOk` false), which is silently ignored. */
  function SaveToStorage(storage: Storage, key: string, blob: Blob, writeOk: bool): (r: Storage)
    ensures forall k :: k != key ==> (k in r <==> k in storage)
    ensures forall k :: k != key && k in r ==> r[k] == storage[k]
    ensures writeOk ==> key in r && r[key] == blob
    ensures !writeOk ==> r == storage
  {
    if writeOk then storage[key := blob] else storage
  }

  function DecodeItems(b: Blob): Option<Option<seq<Item>>> { if b.ItemsBlob? then Some(Some(b.items)) else None }
  function DecodeSales(b: Blob): Option<seq<Sale>> { if b.SalesBlob? then Some(b.sales) else None }
  function DecodeUdhaar(b: Blob): Option<seq<UdhaarEntry>> { if b.UdhaarBlob? then Some(b.udhaar) else None }
  function DecodeExpenses(b: Blob): Option<seq<Expense>> { if b.ExpensesBlob? then Some(b.expenses) else None }
  function DecodeSettings(b: Blob): Option<Settings> { if b.SettingsBlob? then Some(b.settings) else None }

  /** The stored catalogue, or `None` (the `null` fallback) when there is none. */
  function StoredItems(storage: Storage): Option<seq<Item>>
  {
    LoadFromStorage(storage, ItemsKey, None, DecodeItems)
  }

  /** A successful save is read back unchanged. */
  lemma {:induction false} SaveThenLoad<T>(storage: Storage, key: string, blob: Blob, v: T, fallback: T, decode: Blob -> Option<T>)
    requires decode(blob) == Some(v)
    ensures LoadFromStorage(SaveToStorage(storage, key, blob, true), key, fallback, decode) == v
  {
    var st := SaveToStorage(storage, key, blob, true);
    assert key in st && st[key] == blob;
  }

  /** A missing slot or one whose content does not decode gives the fallback. */
  lemma LoadFallback<T>(storage: Storage, key: string, fallback: T, decode: Blob -> Option<T>)
    requires key !in storage || decode(storage[key]).None?
    ensures LoadFromStorage(storage, key, fallback, decode) == fallback
  {
  }

  // ─── Collection updates ───────────────────────────────────────────────────

  /** `{ ...item, ...data }`: the patched fields replace the item's, the id stays. */
  function ApplyItemPatch(it: Item, p: ItemPatch): Item
  {
    Item(it.id, p.nameEn.GetOr(it.nameEn), p.nameKn.GetOr(it.nameKn), p.price.GetOr(it.price), p.unit.GetOr(it.unit))
  }

  /** The items after `updateItem(id, patch)`. */
  function UpdateItemsById(items: seq<Item>, id: string, patch: ItemPatch): (r: seq<Item>)
    ensures |r| == |items|
    ensures forall i :: 0 <= i < |items| ==> r[i].id == items[i].id
    ensures forall i :: 0 <= i < |items| && items[i].id != id ==> r[i] == items[i]
    ensures forall i :: 0 <= i < |items| && items[i].id == id ==>
      && r[i].nameEn == patch.nameEn.GetOr(items[i].nameEn)
      && r[i].nameKn == patch.nameKn.GetOr(items[i].nameKn)
      && r[i].price == patch.price.GetOr(items[i].price)
      && r[i].unit == patch.unit.GetOr(items[i].unit)
    ensures FreshId(items, ItemId, id) ==> r == items
  {
    Seqs.Map(items, (it: Item) => if it.id == id then ApplyItemPatch(it, patch) else it)
  }

  /** The records left by a `deleteX(id)`: those whose id differs, in order. */
  function WithoutId<T(==)>(s: seq<T>, idOf: T -> string, id: string): (r: seq<T>)
    ensures forall x :: x in r ==> idOf(x) != id
    ensures forall x :: x in s && idOf(x) != id ==> x in r
    ensures Seqs.IsSubsequence(r, s)
    ensures FreshId(s, idOf, id) ==> r == s
    ensures Seqs.DistinctBy(s, idOf) ==> Seqs.DistinctBy(r, idOf)
  {
    var keep := x => idOf(x) != id;
    Seqs.FilterIsSubsequence(s, keep);
    assert Seqs.DistinctBy(s, idOf) ==> Seqs.DistinctBy(Seqs.Filter(s, keep), idOf) by {
      if Seqs.DistinctBy(s, idOf) { Seqs.FilterDistinct(s, keep, idOf); }
    }
    assert FreshId(s, idOf, id) ==> Seqs.Filter(s, keep) == s by {
      if FreshId(s, idOf, id) {
        assert forall x :: x in s ==> keep(x);
        Seqs.FilterAll(s, keep);
      }
    }
    Seqs.Filter(s, keep)
  }

  /** The entries after `markUdhaarPaid(id)`. */
  function MarkPaidById(udhaar: seq<UdhaarEntry>, id: string): (r: seq<UdhaarEntry>)
    ensures |r| == |udhaar|
    ensures forall i :: 0 <= i < |udhaar| ==>
      && r[i].paid == (udhaar[i].paid || udhaar[i].id == id)
      && r[i].(paid := udhaar[i].paid) == udhaar[i]
    ensures FreshId(udhaar, UdhaarId, id) ==> r == udhaar
  {
    Seqs.Map(udhaar, (e: UdhaarEntry) => if e.id == id then e.(paid := true) else e)
  }

  /** `{ ...prev, ...data }` on the settings: each supplied field replaces the
      old one, every other field keeps its value. */
  function MergeSettings(s: Settings, p: SettingsPatch): (r: Settings)
    ensures r.storeNameEn == if p.storeNameEn.Some? then p.storeNameEn.value else s.storeNameEn
    ensures r.storeNameKn == if p.storeNameKn.Some? then p.storeNameKn.value else s.storeNameKn
    ensures r.phone == if p.phone.Some? then p.phone.value else s.phone
    ensures r.pin == if p.pin.Some? then p.pin.value else s.pin
    ensures r.printLang == if p.printLang.Some? then p.printLang.value else s.printLang
  {
    Settings(p.storeNameEn.GetOr(s.storeNameEn), p.storeNameKn.GetOr(s.storeNameKn), p.phone.GetOr(s.phone),
             p.pin.GetOr(s.pin), p.printLang.GetOr(s.printLang))
  }

  /** Updating an item never changes which ids the catalogue holds. */
  lemma UpdateKeepsIdsDistinct(items: seq<Item>, id: string, patch: ItemPatch)
    requires Seqs.DistinctBy(items, ItemId)
    ensures Seqs.DistinctBy(UpdateItemsById(items, id, patch), ItemId)
  {
    var r := UpdateItemsById(items, id, patch);
    forall i, j | 0 <= i < j < |r| ensures ItemId(r[i]) != ItemId(r[j]) {
      assert ItemId(r[i]) == ItemId(items[i]) && ItemId(r[j]) == ItemId(items[j]);
    }
  }

  /** Appending a record with a fresh id keeps ids distinct. */
  lemma AppendFreshKeepsIdsDistinct<T>(s: seq<T>, x: T, idOf: T -> string)
    requires Seqs.DistinctBy(s, idOf) && FreshId(s, idOf, idOf(x))
    ensures Seqs.DistinctBy(s + [x], idOf)
  {
    var r := s + [x];
    forall i, j | 0 <= i < j < |r| ensures idOf(r[i]) != idOf(r[j]) {
      if j < |s| { assert r[i] == s[i] && r[j] == s[j]; } else { assert r[i] == s[i]; }
    }
  }

  /** Marking paid twice is marking paid once. */
  lemma MarkPaidIdempotent(udhaar: seq<UdhaarEntry>, id: string)
    ensures MarkPaidById(MarkPaidById(udhaar, id), id) == MarkPaidById(udhaar, id)
  {
    var once := MarkPaidById(udhaar, id);
    var twice := MarkPaidById(once, id);
    forall i | 0 <= i < |udhaar| ensures twice[i] == once[i] {
      assert once[i].(paid := udhaar[i].paid) == udhaar[i];
      assert twice[i].(paid := once[i].paid) == once[i];
    }
  }

  // ─── The store ────────────────────────────────────────────────────────────

  /** The store: five in-memory collections, each written to its own durable
      slot whenever it changes. */
  class EntityStore {
    var items: seq<Item>
    var sales: seq<Sale>
    var udhaar: seq<UdhaarEntry>
    var expenses: seq<Expense>
    var settings: Settings
    /** The durable slots, as last written. */
    ghost var storage: Storage

    /** Loads each collection from its slot; a missing catalogue is replaced
        by the default one, which is also saved. */
    constructor (stored: Storage, ghost writeOk: bool)
      ensures items == StoredItems(stored).GetOr(DefaultItems)
      ensures sales == LoadFromStorage(stored, SalesKey, [], DecodeSales)
      ensures udhaar == LoadFromStorage(stored, UdhaarKey, [], DecodeUdhaar)
      ensures expenses == LoadFromStorage(stored, ExpensesKey, [], DecodeExpenses)
      ensures settings == LoadFromStorage(stored, SettingsKey, DefaultSettings, DecodeSettings)
      ensures storage == if StoredItems(stored).None?
                         then SaveToStorage(stored, ItemsKey, ItemsBlob(DefaultItems), writeOk)
                         else stored
    {
      var loaded := StoredItems(stored);
      if loaded.None? {
        storage := SaveToStorage(stored, ItemsKey, ItemsBlob(DefaultItems), writeOk);
        items := DefaultItems;
      } else {
        storage := stored;
        items := loaded.value;
      }
      sales := LoadFromStorage(stored, SalesKey, [], DecodeSales);
      udhaar := LoadFromStorage(stored, UdhaarKey, [], DecodeUdhaar);
      expenses := LoadFromStorage(stored, ExpensesKey, [], DecodeExpenses);
      settings := LoadFromStorage(stored, SettingsKey, DefaultSettings, DecodeSettings);
    }

    method SetItems(next: seq<Item>, ghost writeOk: bool)
      modifies this
      ensures items == next
      ensures storage == SaveToStorage(old(storage), ItemsKey, ItemsBlob(next), writeOk)
      ensures sales == old(sales) && udhaar == old(udhaar) && expenses == old(expenses) && settings == old(settings)
    {
      storage := SaveToStorage(storage, ItemsKey, ItemsBlob(next), writeOk);
      items := next;
    }

    method SetSales(next: seq<Sale>, ghost writeOk: bool)
      modifies this
      ensures sales == next
      ensures storage == SaveToStorage(old(storage), SalesKey, SalesBlob(next), writeOk)
      ensures items == old(items) && udhaar == old(udhaar) && expenses == old(expenses) && settings == old(settings)
    {
      storage := SaveToStorage(storage, SalesKey, SalesBlob(next), writeOk);
      sales := next;
    }

    method SetUdhaar(next: seq<UdhaarEntry>, ghost writeOk: bool)
      modifies this
      ensures udhaar == next
      ensures storage == SaveToStorage(old(storage), UdhaarKey, UdhaarBlob(next), writeOk)
      ensures items == old(items) && sales == old(sales) && expenses == old(expenses) && settings == old(settings)
    {
      storage := SaveToStorage(storage, UdhaarKey, UdhaarBlob(next), writeOk);
      udhaar := next;
    }

    method SetExpenses(next: seq<Expense>, ghost writeOk: bool)
      modifies this
      ensures expenses == next
      ensures storage == SaveToStorage(old(storage), ExpensesKey, ExpensesBlob(next), writeOk)
      ensures items == old(items) && sales == old(sales) && udhaar == old(udhaar) && settings == old(settings)
    {
      storage := SaveToStorage(storage, ExpensesKey, ExpensesBlob(next), writeOk);
      expenses := next;
    }

    method SetSettings(next: Settings, ghost writeOk: bool)
      modifies this
      ensures settings == next
      ensures storage == SaveToStorage(old(storage), SettingsKey, SettingsBlob(next), writeOk)
      ensures items == old(items) && sales == old(sales) && udhaar == old(udhaar) && expenses == old(expenses)
    {
      storage := SaveToStorage(storage, SettingsKey, SettingsBlob(next), writeOk);
      settings := next;
    }

    method AddItem(data: ItemData, id: string, ghost writeOk: bool) returns (newItem: Item)
      requires FreshId(items, ItemId, id)
      modifies this
      ensures newItem == Item(id, data.nameEn, data.nameKn, data.price, data.unit)
      ensures items == old(items) + [newItem]
      ensures storage == SaveToStorage(old(storage), ItemsKey, ItemsBlob(items), writeOk)
      ensures sales == old(sales) && udhaar == old(udhaar) && expenses == old(expenses) && settings == old(settings)
    {
      newItem := Item(id, data.nameEn, data.nameKn, data.price, data.unit);
      SetItems(items + [newItem], writeOk);
    }

    method UpdateItem(id: string, patch: ItemPatch, ghost writeOk: bool)
      modifies this
      ensures items == UpdateItemsById(old(items), id, patch)
      ensures storage == SaveToStorage(old(storage), ItemsKey, ItemsBlob(items), writeOk)
      ensures sales == old(sales) && udhaar == old(udhaar) && expenses == old(expenses) && settings == old(settings)
    {
      SetItems(UpdateItemsById(items, id, patch), writeOk);
    }

    method DeleteItem(id: string, ghost writeOk: bool)
      modifies this
      ensures items == WithoutId(old(items), ItemId, id)
      ensures storage == SaveToStorage(old(storage), ItemsKey, ItemsBlob(items), writeOk)
      ensures sales == old(sales) && udhaar == old(udhaar) && expenses == old(expenses) && settings == old(settings)
    {
      SetItems(WithoutId(items, ItemId, id), writeOk);
    }

    /** Records a sale of `cartItems` for `total`, exactly as passed. */
    method AddSale(cartItems: seq<CartItem>, total: real, id: string, now: string, ghost writeOk: bool) returns (newSale: Sale)
      requires FreshId(sales, SaleId, id)
      modifies this
      ensures newSale == Sale(id, now, cartItems, total, old(settings.storeNameEn))
      ensures sales == old(sales) + [newSale]
      ensures storage == SaveToStorage(old(storage), SalesKey, SalesBlob(sales), writeOk)
      ensures items == old(items) && udhaar == old(udhaar) && expenses == old(expenses) && settings == old(settings)
    {
      newSale := Sale(id, now, cartItems, total, settings.storeNameEn);
      SetSales(sales + [newSale], writeOk);
    }

    method AddUdhaarEntry(customerName: string, amount: real, note: string, id: string, now: string, ghost writeOk: bool)
      returns (entry: UdhaarEntry)
      requires FreshId(udhaar, UdhaarId, id)
      modifies this
      ensures entry == UdhaarEntry(id, customerName, amount, now, note, false)
      ensures udhaar == old(udhaar) + [entry]
      ensures storage == SaveToStorage(old(storage), UdhaarKey, UdhaarBlob(udhaar), writeOk)
      ensures items == old(items) && sales == old(sales) && expenses == old(expenses) && settings == old(settings)
    {
      entry := UdhaarEntry(id, customerName, amount, now, note, false);
      SetUdhaar(udhaar + [entry], writeOk);
    }

    method MarkUdhaarPaid(id: string, ghost writeOk: bool)
      modifies this
      ensures udhaar == MarkPaidById(old(udhaar), id)
      ensures storage == SaveToStorage(old(storage), UdhaarKey, UdhaarBlob(udhaar), writeOk)
      ensures items == old(items) && sales == old(sales) && expenses == old(expenses) && settings == old(settings)
    {
      SetUdhaar(MarkPaidById(udhaar, id), writeOk);
    }

    method DeleteUdhaarEntry(id: string, ghost writeOk: bool)
      modifies this
      ensures udhaar == WithoutId(old(udhaar), UdhaarId, id)
      ensures storage == SaveToStorage(old(storage), UdhaarKey, UdhaarBlob(udhaar), writeOk)
      ensures items == old(items) && sales == old(sales) && expenses == old(expenses) && settings == old(settings)
    {
      SetUdhaar(WithoutId(udhaar, UdhaarId, id), writeOk);
    }

    method AddExpense(description: string, amount: real, id: string, now: string, ghost writeOk: bool)
      returns (expense: Expense)
      requires FreshId(expenses, ExpenseId, id)
      modifies this
      ensures expense == Expense(id, now, description, amount)
      ensures expenses == old(expenses) + [expense]
      ensures storage == SaveToStorage(old(storage), ExpensesKey, ExpensesBlob(expenses), writeOk)
      ensures items == old(items) && sales == old(sales) && udhaar == old(udhaar) && settings == old(settings)
    {
      expense := Expense(id, now, description, amount);
      SetExpenses(expenses + [expense], writeOk);
    }

    method DeleteExpense(id: string, ghost writeOk: bool)
      modifies this
      ensures expenses == WithoutId(old(expenses), ExpenseId, id)
      ensures storage == SaveToStorage(old(storage), ExpensesKey, ExpensesBlob(expenses), writeOk)
      ensures items == old(items) && sales == old(sales) && udhaar == old(udhaar) && settings == old(settings)
    {
      SetExpenses(WithoutId(expenses, ExpenseId, id), writeOk);
    }

    method UpdateSettings(patch: SettingsPatch, ghost writeOk: bool)
      modifies this
      ensures settings == MergeSettings(old(settings), patch)
      ensures storage == SaveToStorage(old(storage), SettingsKey, SettingsBlob(settings), writeOk)
      ensures items == old(items) && sales == old(sales) && udhaar == old(udhaar) && expenses == old(expenses)
    {
      SetSettings(MergeSettings(settings, patch), writeOk);
    }
  }
}
