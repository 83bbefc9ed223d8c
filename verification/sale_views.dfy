/** A recorded sale as the two transaction screens (the history and the
    filterable log) read it, together with what both of them show the same
    way: the search box on receipt number or amount, and the item lines of
    the receipt panel. */
module SaleViews {
  import opened Wrappers
  import opened Text

  /** One item of a sale; `productName` is the joined product's name, absent
      while it has not been joined in. */
  datatype ItemView = ItemView(productName: Option<string>, quantity: int, priceAtSale: real, lineTotal: real)

  /** A sale record. The texts stand for what the runtime renders from the
      record: `amountText` for the amount's `toString()`, `isoCreatedAt` for the
      creation instant as a UTC ISO-8601 timestamp, `localeCreatedAt` for it in
      the viewer's locale. `items` is absent when the record carries no item
      list. */
  datatype SaleView = SaleView(
    id: nat,
    totalAmount: real,
    amountText: string,
    isoCreatedAt: string,
    localeCreatedAt: string,
    createdBy: string,
    items: Option<seq<ItemView>>)

  // ----- search by receipt number or amount -----

  /** The receipt number or the amount, written out, contains the search term. */
  predicate MatchesSearch(s: SaleView, term: string)
  {
    Contains(DecimalString(s.id), term) || Contains(s.amountText, term)
  }

  function MatchesSearchOf(term: string): SaleView -> bool
  {
    s => MatchesSearch(s, term)
  }

  /** Typing any run of consecutive digits of a receipt number finds that receipt. */
  lemma SearchByPartOfId(s: SaleView, i: nat, j: nat)
    requires i <= j <= |DecimalString(s.id)|
    ensures MatchesSearch(s, DecimalString(s.id)[i..j])
  {
    ContainsSlice(DecimalString(s.id), i, j);
  }

  /** Typing any run of consecutive characters of an amount finds that receipt. */
  lemma SearchByPartOfAmount(s: SaleView, i: nat, j: nat)
    requires i <= j <= |s.amountText|
    ensures MatchesSearch(s, s.amountText[i..j])
  {
    ContainsSlice(s.amountText, i, j);
  }

  /** An empty search box hides nothing. */
  lemma EmptySearchMatches(s: SaleView)
    ensures MatchesSearch(s, "")
  {
    assert DecimalString(s.id)[..0] == "";
  }

  // ----- the receipt panel -----

  const PendingName := "Loading item..."

  /** One line of the receipt panel: name, units, unit price and line amount. */
  datatype ReceiptLine = ReceiptLine(name: string, quantity: int, unitPrice: real, amount: real)

  /** The shown name: the product's name, or the placeholder when the name is
      missing or empty. */
  function ItemName(item: ItemView): (name: string)
    ensures name != ""
    ensures item.productName.Some? && item.productName.value != "" ==> name == item.productName.value
    ensures !(item.productName.Some? && item.productName.value != "") ==> name == PendingName
  {
    if item.productName.Some? && item.productName.value != "" then item.productName.value else PendingName
  }

  /** The item lines of a receipt, in stored order, showing the stored quantity,
      price at sale and line total; a record without an item list shows none. */
  function ReceiptLines(s: SaleView): (r: seq<ReceiptLine>)
    ensures s.items.None? ==> r == []
    ensures s.items.Some? ==> |r| == |s.items.value|
    ensures s.items.Some? ==> forall i :: 0 <= i < |r| ==>
              r[i].name == ItemName(s.items.value[i]) &&
              r[i].quantity == s.items.value[i].quantity &&
              r[i].unitPrice == s.items.value[i].priceAtSale &&
              r[i].amount == s.items.value[i].lineTotal
  {
    match s.items
    case None => []
    case Some(items) =>
      seq(|items|, i requires 0 <= i < |items| =>
        ReceiptLine(ItemName(items[i]), items[i].quantity, items[i].priceAtSale, items[i].lineTotal))
  }

  /** `sale_items?.length || 0`: how many items the record lists. */
  function ItemsCount(s: SaleView): (n: nat)
    ensures n == |ReceiptLines(s)|
  {
    if s.items.Some? then |s.items.value| else 0
  }
}
