/** The printed receipt (utils/print.ts): what `generateReceipt` puts on the
    page for a recorded sale, as a structured document instead of HTML. */
module Receipt {
  import opened Wrappers
  import opened Store
  import Numbers

  const ThankYouEn := "Thank you! Visit again"
  const ThankYouKn := "ಧನ್ಯವಾದಗಳು! ಮತ್ತೆ ಬನ್ನಿ"

  /** One item row: name, quantity × rate, the discount note when there is
      one, and the line amount. */
  datatype Row = Row(name: string, quantity: real, price: real, discountNote: Option<real>, amount: real)

  datatype Document = Document(
    lang: string,            // the page's `lang` attribute
    title: string,
    header: string,          // the store name at the top
    phone: Option<string>,   // the phone line, when there is one
    date: string,            // the sale's timestamp (its local-time formatting is not modelled)
    rows: seq<Row>,
    total: real,
    footer: seq<string>)     // the thank-you line(s), one per printed line

  /** `itemSubtotal`: the line amount with the discount subtracted, rounded half up to cents. */
  function ItemSubtotal(ci: CartItem): (r: real)
    ensures Numbers.IsCents(r)
  {
    var base := ci.item.price * ci.quantity;
    var disc := base * (ci.discount / 100.0);
    Numbers.Round2(base - disc)
  }

  /** `getItemName`: the English name, unless the print language calls for a
      non-empty Kannada name that adds something. */
  function ItemName(ci: CartItem, lang: PrintLang): (r: string)
    ensures r == ci.item.nameEn <==> (lang == En || ci.item.nameKn == "" || ci.item.nameKn == ci.item.nameEn)
    ensures r != ci.item.nameEn ==>
      || (lang == Kn && r == ci.item.nameKn)
      || (lang == Both && r == ci.item.nameEn + " / " + ci.item.nameKn)
  {
    var en := ci.item.nameEn;
    var kn := ci.item.nameKn;
    match lang
    case En => en
    case Kn => if kn != "" then kn else en
    case Both =>
      if kn != "" && kn != en then
        assert |en + " / " + kn| > |en|;
        en + " / " + kn
      else en
  }

  /** The store name at the top of the receipt. */
  function HeaderStoreName(s: Settings): (r: string)
    ensures s.printLang == En ==> r == s.storeNameEn
    ensures s.printLang == Kn ==> r == if s.storeNameKn != "" then s.storeNameKn else s.storeNameEn
    ensures s.printLang == Both ==> r == if s.storeNameKn != "" then s.storeNameEn + " / " + s.storeNameKn else s.storeNameEn
  {
    if s.printLang == Kn then (if s.storeNameKn != "" then s.storeNameKn else s.storeNameEn)
    else if s.printLang == En then s.storeNameEn
    else s.storeNameEn + (if s.storeNameKn != "" then " / " + s.storeNameKn else "")
  }

  /** The thank-you lines: English unless the receipt is Kannada-only,
      Kannada unless it is English-only, English first. */
  function Footer(lang: PrintLang): (r: seq<string>)
    ensures ThankYouEn in r <==> lang != Kn
    ensures ThankYouKn in r <==> lang != En
    ensures |r| == if lang == Both then 2 else 1
    ensures lang == Both ==> r[0] == ThankYouEn
  {
    match lang
    case En => [ThankYouEn]
    case Kn => [ThankYouKn]
    case Both => [ThankYouEn, ThankYouKn]
  }

  function MakeRow(ci: CartItem, lang: PrintLang): Row
  {
    Row(ItemName(ci, lang), ci.quantity, ci.item.price,
        if ci.discount > 0.0 then Some(ci.discount) else None, ItemSubtotal(ci))
  }

  /** `generateReceipt(sale, settings)` up to the point where the page is printed. */
  function GenerateReceipt(sale: Sale, settings: Settings): (doc: Document)
    ensures doc.title == "Bill - " + settings.storeNameEn
    ensures doc.header == HeaderStoreName(settings)
    ensures doc.footer == Footer(settings.printLang)
    ensures doc.date == sale.date
    ensures doc.total == sale.total
    ensures doc.lang == "kn" <==> settings.printLang != En
    ensures doc.phone == if settings.phone != "" then Some(settings.phone) else None
    ensures |doc.rows| == |sale.items|
    ensures forall i :: 0 <= i < |sale.items| ==>
      && doc.rows[i].name == ItemName(sale.items[i], settings.printLang)
      && doc.rows[i].quantity == sale.items[i].quantity
      && doc.rows[i].price == sale.items[i].item.price
      && doc.rows[i].amount == ItemSubtotal(sale.items[i])
      && (doc.rows[i].discountNote.Some? <==> sale.items[i].discount > 0.0)
      && (doc.rows[i].discountNote.Some? ==> doc.rows[i].discountNote.value == sale.items[i].discount)
  {
    var lang := settings.printLang;
    var showKn := lang == Kn || lang == Both;
    Document(
      if showKn then "kn" else "en",
      "Bill - " + settings.storeNameEn,
      HeaderStoreName(settings),
      if settings.phone != "" then Some(settings.phone) else None,
      sale.date,
      seq(|sale.items|, i requires 0 <= i < |sale.items| => MakeRow(sale.items[i], lang)),
      sale.total,
      Footer(lang))
  }
}
