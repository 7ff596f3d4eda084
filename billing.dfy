/** The billing screen (components/BillingTab.tsx): line amounts, the bill
    total, the item search, the cart and printing a bill. */
module Billing {
  import opened Wrappers
  import Seqs
  import opened Text
  import opened Numbers
  import opened Store
  import Receipt

  // ─── Amounts ──────────────────────────────────────────────────────────────

  /** The exact amount of a line: price × quantity less the discount percentage. */
  function DiscountedAmount(ci: CartItem): real
  {
    ci.item.price * ci.quantity * (1.0 - ci.discount / 100.0)
  }

  /** `calcSubtotal`: the line amount in whole cents, within half a cent of
      the exact amount, halves rounded up. */
  function CalcSubtotal(ci: CartItem): (r: real)
    ensures IsCents(r)
    ensures DiscountedAmount(ci) - 0.005 < r <= DiscountedAmount(ci) + 0.005
  {
    Round2(ci.item.price * ci.quantity * (1.0 - ci.discount / 100.0))
  }

  /** The receipt's `itemSubtotal` computes the same amount as `calcSubtotal`. */
  lemma ReceiptSubtotalAgrees(ci: CartItem)
    ensures Receipt.ItemSubtotal(ci) == CalcSubtotal(ci)
  {
    var base := ci.item.price * ci.quantity;
    assert base - base * (ci.discount / 100.0) == base * (1.0 - ci.discount / 100.0);
  }

  /** Two lines worked by hand: 2 × 100 at 10% off, and 1 × 10 at 33% off. */
  lemma SubtotalExamples()
    ensures CalcSubtotal(CartItem(Item("1", "Rice", "", 100.0, "kg"), 2.0, 10.0)) == 180.0
    ensures CalcSubtotal(CartItem(Item("8", "Soap", "", 10.0, "pcs"), 1.0, 33.0)) == 6.7
  {
    Round2Unique(180.0, 180.0);
    assert (6.7 * 100.0).Floor == 670;
    Round2Unique(6.7, 6.7);
  }

  /** The quantity dialog does not clamp its discount, so a discount above
      100% gives a line of negative amount (the cart's own discount field
      clamps to 0–100). */
  lemma DialogDiscountCanGoNegative()
    ensures var item := Item("1", "Rice", "", 100.0, "kg");
      && AddLine([], item, 1.0, 150.0) == [CartItem(item, 1.0, 150.0)]
      && CalcSubtotal(CartItem(item, 1.0, 150.0)) == -50.0
      && CartTotal(AddLine([], item, 1.0, 150.0)) < 0.0
  {
    var item := Item("1", "Rice", "", 100.0, "kg");
    assert (-50.0 * 100.0).Floor == -5000;
    Round2Unique(-50.0, -50.0);
    CartTotalAppend([], CartItem(item, 1.0, 150.0));
    assert Seqs.Sum([], CalcSubtotal) == 0.0;
  }

  /** The bill total: the plain sum of the line amounts. */
  function CartTotal(cart: seq<CartItem>): real
  {
    Seqs.Sum(cart, CalcSubtotal)
  }

  /** Each line is whole cents, so the total is too: no further rounding is needed. */
  lemma {:induction false} CartTotalIsCents(cart: seq<CartItem>)
    ensures IsCents(CartTotal(cart))
    decreases |cart|
  {
    if cart != [] {
      CartTotalIsCents(cart[1..]);
      var a, b := CalcSubtotal(cart[0]), CartTotal(cart[1..]);
      var m, n := (a * 100.0).Floor, (b * 100.0).Floor;
      assert (a + b) * 100.0 == (m + n) as real;
    }
  }

  lemma CartTotalAppend(cart: seq<CartItem>, ci: CartItem)
    ensures CartTotal(cart + [ci]) == CartTotal(cart) + CalcSubtotal(ci)
  {
    Seqs.SumAppend(cart, [ci], CalcSubtotal);
    assert [ci][1..] == [];
  }

  // ─── Search ───────────────────────────────────────────────────────────────

  /** The search text as the screen uses it: trimmed and lower-cased. */
  function Query(search: string): string
  {
    ToLower(Trim(search))
  }

  /** The catalogue position a query selects: its leading integer, when that
      is between 1 and the number of items. */
  function Position(q: string, count: nat): Option<nat>
  {
    match ParseInt(q)
    case Some(n) => if 1 <= n <= count then Some(n) else None
    case None => None
  }

  /** The name test, with its `startsWith` disjunct. */
  predicate SearchHit(it: Item, q: string)
  {
    Contains(ToLower(it.nameEn), q) || Contains(it.nameKn, q) || StartsWith(ToLower(it.nameEn), q)
  }

  /** The same test without `startsWith`, which adds nothing. */
  predicate NameMatches(it: Item, q: string)
  {
    Contains(ToLower(it.nameEn), q) || Contains(it.nameKn, q)
  }

  /** The items that pass the name test for `q`, in catalogue order. */
  function NameSearch(items: seq<Item>, q: string): seq<Item>
  {
    Seqs.Filter(items, it => SearchHit(it, q))
  }

  /** `filteredItems`: the whole catalogue for a blank query, the item at a
      1-based position for a query that starts with an in-range number, and
      otherwise the items that pass the name test, in catalogue order. */
  function FilteredItems(items: seq<Item>, search: string): (r: seq<Item>)
    ensures IsBlank(search) ==> r == items
    ensures !IsBlank(search) && Position(Query(search), |items|).Some? ==>
      r == [items[Position(Query(search), |items|).value - 1]]
  {
    var q := Query(search);
    assert q == [] <==> IsBlank(search);
    var pos := Position(q, |items|);
    if q == [] then items
    else if pos.Some? then [items[pos.value - 1]]
    else NameSearch(items, q)
  }

  /** Without an in-range position, the search keeps exactly the items whose
      lower-cased English name or raw Kannada name contains the query; the
      `startsWith` test never adds an item. */
  lemma SearchByName(items: seq<Item>, search: string)
    requires !IsBlank(search) && Position(Query(search), |items|).None?
    ensures FilteredItems(items, search) == Seqs.Filter(items, it => NameMatches(it, Query(search)))
  {
    var q := Query(search);
    forall it: Item | StartsWith(ToLower(it.nameEn), q) ensures Contains(ToLower(it.nameEn), q) {
      StartsWithContains(ToLower(it.nameEn), q);
    }
    Seqs.FilterSameCondition(items, it => SearchHit(it, q), it => NameMatches(it, q));
  }

  /** Every search result is a catalogue item, and results keep catalogue order. */
  lemma SearchKeepsOrder(items: seq<Item>, search: string)
    ensures Seqs.IsSubsequence(FilteredItems(items, search), items)
  {
    var q := Query(search);
    var pos := Position(q, |items|);
    if q == [] {
      Seqs.SubsequenceOfSelf(items);
    } else if pos.Some? {
      Seqs.SubsequenceSingleton(items, pos.value - 1);
    } else {
      Seqs.FilterIsSubsequence(items, it => SearchHit(it, q));
    }
  }

  // ─── Cart lines ───────────────────────────────────────────────────────────

  function LineId(ci: CartItem): string { ci.item.id }

  /** The cart holds at most one line per item. */
  predicate OneLinePerItem(cart: seq<CartItem>)
  {
    Seqs.DistinctBy(cart, LineId)
  }

  /** `findIndex` of the line for item `id`, or -1. */
  function FindLine(cart: seq<CartItem>, id: string): (r: int)
    ensures -1 <= r < |cart|
    ensures r >= 0 ==> cart[r].item.id == id && forall j :: 0 <= j < r ==> cart[j].item.id != id
    ensures r < 0 ==> forall j :: 0 <= j < |cart| ==> cart[j].item.id != id
    decreases |cart|
  {
    if cart == [] then -1
    else if cart[0].item.id == id then 0
    else
      var k := FindLine(cart[1..], id);
      if k < 0 then -1 else k + 1
  }

  /** `Number.parseFloat(qtyValue) || 1`: an unparseable or zero quantity counts as 1. */
  function QtyOrOne(parsed: Option<real>): (r: real)
    ensures r != 0.0
    ensures parsed.Some? && parsed.value != 0.0 ==> r == parsed.value
    ensures parsed.None? || parsed.value == 0.0 ==> r == 1.0
  {
    if parsed.Some? && parsed.value != 0.0 then parsed.value else 1.0
  }

  /** `Number.parseFloat(value) || 0`. */
  function ValueOrZero(parsed: Option<real>): real
  {
    if parsed.Some? then parsed.value else 0.0
  }

  /** `Math.min(100, Math.max(0, d))`. */
  function ClampPercent(d: real): (r: real)
    ensures 0.0 <= r <= 100.0
    ensures 0.0 <= d <= 100.0 ==> r == d
    ensures d < 0.0 ==> r == 0.0
    ensures d > 100.0 ==> r == 100.0
  {
    if d < 0.0 then 0.0 else if d > 100.0 then 100.0 else d
  }

  /** The cart after adding `qty` of `item` with discount `disc`: the item's
      line grows by `qty` and takes the new discount, or a new line is appended. */
  function AddLine(cart: seq<CartItem>, item: Item, qty: real, disc: real): (r: seq<CartItem>)
    ensures FindLine(cart, item.id) < 0 ==> r == cart + [CartItem(item, qty, disc)]
    ensures FindLine(cart, item.id) >= 0 ==>
      var k := FindLine(cart, item.id);
      && |r| == |cart|
      && r[k] == cart[k].(quantity := cart[k].quantity + qty, discount := disc)
      && forall j :: 0 <= j < |cart| && j != k ==> r[j] == cart[j]
    ensures OneLinePerItem(cart) ==> OneLinePerItem(r)
  {
    var k := FindLine(cart, item.id);
    if k >= 0 then
      var r := cart[k := cart[k].(quantity := cart[k].quantity + qty, discount := disc)];
      assert forall j :: 0 <= j < |cart| ==> LineId(r[j]) == LineId(cart[j]);
      r
    else
      var r := cart + [CartItem(item, qty, disc)];
      assert OneLinePerItem(cart) ==> OneLinePerItem(r) by {
        if OneLinePerItem(cart) {
          assert FreshId(cart, LineId, item.id);
          AppendFreshKeepsIdsDistinct(cart, CartItem(item, qty, disc), LineId);
        }
      }
      r
  }

  /** The cart update of `addToCart`: the dialog's text fields are parsed, an
      unreadable or zero quantity counting as 1 and an unreadable discount as 0,
      and the result merged into the cart. */
  function AddFromDialog(cart: seq<CartItem>, item: Item, qtyText: string, discText: string): (r: seq<CartItem>)
    ensures OneLinePerItem(cart) ==> OneLinePerItem(r)
    ensures FindLine(cart, item.id) < 0 ==>
      r == cart + [CartItem(item, QtyOrOne(ParseFloat(qtyText)), ValueOrZero(ParseFloat(discText)))]
    ensures FindLine(cart, item.id) >= 0 ==>
      var k := FindLine(cart, item.id);
      && |r| == |cart|
      && r[k].item == cart[k].item
      && r[k].quantity == cart[k].quantity + QtyOrOne(ParseFloat(qtyText))
      && r[k].discount == ValueOrZero(ParseFloat(discText))
      && forall j :: 0 <= j < |cart| && j != k ==> r[j] == cart[j]
  {
    AddLine(cart, item, QtyOrOne(ParseFloat(qtyText)), ValueOrZero(ParseFloat(discText)))
  }

  /** `removeFromCart(id)`. */
  function RemoveLine(cart: seq<CartItem>, id: string): (r: seq<CartItem>)
    ensures forall ci :: ci in r ==> ci.item.id != id
    ensures forall ci :: ci in cart && ci.item.id != id ==> ci in r
    ensures Seqs.IsSubsequence(r, cart)
    ensures OneLinePerItem(cart) ==> OneLinePerItem(r)
  {
    WithoutId(cart, LineId, id)
  }

  function StepQty(ci: CartItem, id: string, delta: real): CartItem
  {
    if ci.item.id == id then ci.(quantity := if ci.quantity + delta > 0.5 then ci.quantity + delta else 0.5) else ci
  }

  /** `updateCartQty(id, delta)`: the item's quantity moves by `delta` but not
      below 0.5, then every line whose quantity is not positive is dropped. */
  function ChangeQty(cart: seq<CartItem>, id: string, delta: real): (r: seq<CartItem>)
    ensures forall ci :: ci in r ==> ci.quantity > 0.0
    ensures forall ci :: ci in r && ci.item.id == id ==> ci.quantity >= 0.5
    ensures forall ci :: ci in cart && ci.item.id != id && ci.quantity > 0.0 ==> ci in r
    ensures forall i :: 0 <= i < |cart| && cart[i].item.id == id ==>
      StepQty(cart[i], id, delta) in r && StepQty(cart[i], id, delta).quantity == if cart[i].quantity + delta > 0.5 then cart[i].quantity + delta else 0.5
    ensures Seqs.IsSubsequence(r, Seqs.Map(cart, ci => StepQty(ci, id, delta)))
    ensures OneLinePerItem(cart) ==> OneLinePerItem(r)
  {
    var stepped := Seqs.Map(cart, ci => StepQty(ci, id, delta));
    var r := Seqs.Filter(stepped, (ci: CartItem) => ci.quantity > 0.0);
    Seqs.FilterIsSubsequence(stepped, (ci: CartItem) => ci.quantity > 0.0);
    assert forall i :: 0 <= i < |cart| ==> stepped[i] in stepped;
    assert OneLinePerItem(cart) ==> OneLinePerItem(r) by {
      if OneLinePerItem(cart) {
        assert forall i :: 0 <= i < |cart| ==> LineId(stepped[i]) == LineId(cart[i]);
        Seqs.FilterDistinct(stepped, (ci: CartItem) => ci.quantity > 0.0, LineId);
      }
    }
    r
  }

  /** `updateCartDiscount(id, value)` after clamping: only the item's line changes. */
  function SetLineDiscount(cart: seq<CartItem>, id: string, disc: real): (r: seq<CartItem>)
    ensures |r| == |cart|
    ensures forall i :: 0 <= i < |cart| ==> r[i].item == cart[i].item && r[i].quantity == cart[i].quantity
    ensures forall i :: 0 <= i < |cart| ==> r[i].discount == if cart[i].item.id == id then disc else cart[i].discount
    ensures OneLinePerItem(cart) ==> OneLinePerItem(r)
  {
    var r := Seqs.Map(cart, (ci: CartItem) => if ci.item.id == id then ci.(discount := disc) else ci);
    assert forall i :: 0 <= i < |cart| ==> LineId(r[i]) == LineId(cart[i]);
    r
  }

  // ─── The printed bill ─────────────────────────────────────────────────────

  function RowAmount(row: Receipt.Row): real { row.amount }

  /** Rows carrying the receipt's line amounts of a cart add up to its total. */
  lemma {:induction false} RowSumIsCartTotal(rows: seq<Receipt.Row>, cart: seq<CartItem>)
    requires |rows| == |cart|
    requires forall i :: 0 <= i < |cart| ==> rows[i].amount == Receipt.ItemSubtotal(cart[i])
    ensures Seqs.Sum(rows, RowAmount) == CartTotal(cart)
    decreases |cart|
  {
    if cart != [] {
      ReceiptSubtotalAgrees(cart[0]);
      RowSumIsCartTotal(rows[1..], cart[1..]);
    }
  }

  /** For a bill recorded by `printBill`, the total the receipt prints (the
      stored `sale.total`) is the sum of the amounts on its rows. */
  lemma PrintedTotalIsRowSum(cart: seq<CartItem>, saleId: string, now: string, settings: Settings)
    ensures var doc := Receipt.GenerateReceipt(Sale(saleId, now, cart, CartTotal(cart), settings.storeNameEn), settings);
      doc.total == Seqs.Sum(doc.rows, RowAmount)
  {
    var doc := Receipt.GenerateReceipt(Sale(saleId, now, cart, CartTotal(cart), settings.storeNameEn), settings);
    RowSumIsCartTotal(doc.rows, cart);
  }

  // ─── The screen ───────────────────────────────────────────────────────────

  /** The billing screen's state: the search box, the cart, and the quantity
      dialog (the item it is open for and its two text fields). */
  class BillingScreen {
    var search: string
    var cart: seq<CartItem>
    var selectedItem: Option<Item>
    var qtyValue: string
    var discValue: string

    ghost predicate Valid()
      reads this
    {
      OneLinePerItem(cart)
    }

    constructor ()
      ensures Valid()
      ensures search == "" && cart == [] && selectedItem == None && qtyValue == "1" && discValue == "0"
    {
      search, cart, selectedItem, qtyValue, discValue := "", [], None, "1", "0";
    }

    method OpenQtyDialog(item: Item)
      requires Valid()
      modifies this
      ensures Valid()
      ensures selectedItem == Some(item) && qtyValue == "1" && discValue == "0"
      ensures search == old(search) && cart == old(cart)
    {
      selectedItem, qtyValue, discValue := Some(item), "1", "0";
    }

    /** `addToCart`: does nothing without a selected item; otherwise merges the
        dialog's quantity and discount into the cart and closes the dialog. */
    method AddToCart()
      requires Valid()
      modifies this`cart, this`selectedItem, this`search
      ensures Valid()
      ensures old(selectedItem).None? ==> cart == old(cart) && search == old(search) && selectedItem == None
      ensures old(selectedItem).Some? ==>
        && cart == AddFromDialog(old(cart), old(selectedItem).value, old(qtyValue), old(discValue))
        && selectedItem == None && search == ""
      ensures qtyValue == old(qtyValue) && discValue == old(discValue)
    {
      if selectedItem.Some? {
        var qty := QtyOrOne(ParseFloat(qtyValue));
        var disc := ValueOrZero(ParseFloat(discValue));
        MergeSelected(qty, disc);
      }
    }

    /** The second half of `addToCart`, once the dialog's fields are read:
        the selected item's line is merged into the cart and the dialog and
        search are cleared. */
    method MergeSelected(qty: real, disc: real)
      requires Valid() && selectedItem.Some?
      modifies this`cart, this`selectedItem, this`search
      ensures Valid()
      ensures cart == AddLine(old(cart), old(selectedItem).value, qty, disc)
      ensures selectedItem == None && search == ""
    {
      cart := AddLine(cart, selectedItem.value, qty, disc);
      selectedItem, search := None, "";
    }

    method RemoveFromCart(id: string)
      requires Valid()
      modifies this`cart
      ensures Valid()
      ensures cart == RemoveLine(old(cart), id)
    {
      cart := RemoveLine(cart, id);
    }

    method UpdateCartQty(id: string, delta: real)
      requires Valid()
      modifies this`cart
      ensures Valid()
      ensures cart == ChangeQty(old(cart), id, delta)
    {
      cart := ChangeQty(cart, id, delta);
    }

    method UpdateCartDiscount(id: string, value: string)
      requires Valid()
      modifies this`cart
      ensures Valid()
      ensures cart == SetLineDiscount(old(cart), id, ClampPercent(ValueOrZero(ParseFloat(value))))
    {
      var disc := ClampPercent(ValueOrZero(ParseFloat(value)));
      cart := SetLineDiscount(cart, id, disc);
    }

    method ClearCart()
      modifies this`cart, this`search
      ensures Valid()
      ensures cart == [] && search == ""
    {
      cart, search := [], "";
    }

    /** `printBill`: an empty cart is refused and nothing is recorded; otherwise
        exactly one sale of the cart at its total is recorded, its receipt is
        produced, and the cart and search are cleared. */
    method PrintBill(store: EntityStore, saleId: string, now: string, ghost writeOk: bool)
      returns (outcome: Outcome, receipt: Option<Receipt.Document>)
      requires Valid()
      requires FreshId(store.sales, SaleId, saleId)
      modifies this, store
      ensures Valid()
      ensures old(cart) == [] ==>
        && outcome == Fail("Cart is empty!") && receipt == None
        && cart == old(cart) && search == old(search)
        && store.sales == old(store.sales) && store.storage == old(store.storage)
      ensures old(cart) != [] ==>
        var sale := Sale(saleId, now, old(cart), CartTotal(old(cart)), old(store.settings.storeNameEn));
        && outcome == Pass
        && store.sales == old(store.sales) + [sale]
        && store.storage == SaveToStorage(old(store.storage), SalesKey, SalesBlob(store.sales), writeOk)
        && receipt == Some(Receipt.GenerateReceipt(sale, old(store.settings)))
        && cart == [] && search == ""
      ensures store.items == old(store.items) && store.udhaar == old(store.udhaar)
      ensures store.expenses == old(store.expenses) && store.settings == old(store.settings)
      ensures selectedItem == old(selectedItem) && qtyValue == old(qtyValue) && discValue == old(discValue)
    {
      if cart == [] {
        return Fail("Cart is empty!"), None;
      }
      var sale := store.AddSale(cart, CartTotal(cart), saleId, now, writeOk);
      receipt := Some(Receipt.GenerateReceipt(sale, store.settings));
      outcome := Pass;
      ClearCart();
    }
  }
}
