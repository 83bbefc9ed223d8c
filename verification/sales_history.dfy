/** The transaction history: a searchable list of every sale with its
    zero-padded receipt number, and a receipt panel for the selected sale
    showing who recorded it, its item lines and a subtotal/tax/total split. */
module SalesHistory {
  import opened Seqs
  import opened Text
  import opened SaleViews
  import Pos

  /** The sales whose receipt number or amount contains the search term, in stored order. */
  function SearchSales(sales: seq<SaleView>, term: string): (r: seq<SaleView>)
    ensures |r| <= |sales|
    ensures forall i :: 0 <= i < |r| ==> r[i] in sales && MatchesSearch(r[i], term)
    ensures forall i :: 0 <= i < |sales| && MatchesSearch(sales[i], term) ==> sales[i] in r
    ensures Selects(r, sales, MatchesSearchOf(term))
  {
    FilterSelects(sales, MatchesSearchOf(term));
    Filter(sales, MatchesSearchOf(term))
  }

  /** An empty search box lists every sale. */
  lemma EmptySearchShowsAll(sales: seq<SaleView>)
    ensures SearchSales(sales, "") == sales
  {
    forall i | 0 <= i < |sales| ensures MatchesSearchOf("")(sales[i]) {
      EmptySearchMatches(sales[i]);
    }
    FilterKeepsAll(sales, MatchesSearchOf(""));
  }

  /** Zero-padding keeps the value the digits read as. */
  lemma PaddedReadsBack(id: nat)
    ensures AllDigits(PadStart(DecimalString(id), 6, '0'))
    ensures ParseDecimal(PadStart(DecimalString(id), 6, '0')) == id
  {
    var digits := DecimalString(id);
    var padded := PadStart(digits, 6, '0');
    var zeros := padded[..|padded| - |digits|];
    assert padded == zeros + digits;
    ParseDecimalLeadingZeros(zeros, digits);
    ParseDecimalString(id);
  }

  /** `#` and the receipt id padded with zeros to six digits. The digits read
      back as the id, and ids of more than six digits are shown whole. */
  function ReceiptNumber(id: nat): (r: string)
    ensures |r| == 1 + if |DecimalString(id)| < 6 then 6 else |DecimalString(id)|
    ensures r[0] == '#'
    ensures r[|r| - |DecimalString(id)|..] == DecimalString(id)
    ensures AllDigits(r[1..]) && ParseDecimal(r[1..]) == id
  {
    var padded := PadStart(DecimalString(id), 6, '0');
    PaddedReadsBack(id);
    assert ("#" + padded)[1..] == padded;
    "#" + padded
  }

  /** Different sales show different receipt numbers. */
  lemma ReceiptNumberInjective(a: nat, b: nat)
    requires ReceiptNumber(a) == ReceiptNumber(b)
    ensures a == b
  {
    assert ParseDecimal(ReceiptNumber(a)[1..]) == a;
  }

  /** The recorder's id cut to its first eight characters, then `...`. */
  function AuthLabel(createdBy: string): (r: string)
    ensures |r| == (if |createdBy| < 8 then |createdBy| else 8) + 3
    ensures StartsWith(createdBy, r[..|r| - 3]) && r[|r| - 3..] == "..."
  {
    var shown := Take(createdBy, 8);
    assert (shown + "...")[..|shown|] == shown;
    shown + "..."
  }

  /** The three figures at the foot of the receipt panel. */
  datatype Breakdown = Breakdown(subtotal: real, tax: real, total: real)

  /** The stored amount split as 92% subtotal and 8% tax: the two parts add up
      to the amount, and the tax is the register's rate applied to it. */
  function ReceiptBreakdown(amount: real): (b: Breakdown)
    ensures b.total == amount
    ensures b.subtotal + b.tax == b.total
    ensures b.tax == amount * Pos.TaxRate
  {
    Breakdown(amount * 0.92, amount * 0.08, amount)
  }

  /** For a sale rung up at the register, whose stored amount is the cart's
      pre-tax subtotal, the receipt's tax equals the tax the register showed,
      but its subtotal is that tax short of the register's subtotal and its
      total is that tax short of what the register charged. */
  lemma ReceiptOfCheckout(cart: seq<Pos.CartLine>)
    ensures ReceiptBreakdown(Pos.Subtotal(cart)).tax == Pos.Tax(cart)
    ensures ReceiptBreakdown(Pos.Subtotal(cart)).subtotal == Pos.Subtotal(cart) - Pos.Tax(cart)
    ensures ReceiptBreakdown(Pos.Subtotal(cart)).total == Pos.Total(cart) - Pos.Tax(cart)
  {
  }
}
