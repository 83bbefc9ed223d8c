/** The filterable sales log: a search box, an optional date range and an
    optional amount range narrow the list of sales, a reset clears them, and
    the visible sales can be exported as comma-separated text. */
module SalesLog {
  import opened Wrappers
  import opened Seqs
  import opened Text
  import opened Dates
  import opened SaleViews

  /** The filter form. An empty date field, or an amount field left empty
      (`None`), does not constrain; a filled amount field holds the number it
      reads as. */
  datatype Filters = Filters(
    search: string,
    startDate: string,
    endDate: string,
    minAmount: Option<real>,
    maxAmount: Option<real>)

  function NoFilters(): Filters
  {
    Filters("", "", "", None, None)
  }

  /** The day lies in the range, compared as `YYYY-MM-DD` strings, inclusive at both ends. */
  predicate MatchesDate(day: string, f: Filters)
  {
    (f.startDate == "" || LexLe(f.startDate, day)) &&
    (f.endDate == "" || LexLe(day, f.endDate))
  }

  /** The amount lies in the range, inclusive at both ends. */
  predicate MatchesAmount(amount: real, f: Filters)
  {
    (f.minAmount.None? || amount >= f.minAmount.value) &&
    (f.maxAmount.None? || amount <= f.maxAmount.value)
  }

  /** A sale passes the search, the date range on its UTC day and the amount range. */
  predicate Matches(s: SaleView, f: Filters)
  {
    MatchesSearch(s, f.search) &&
    MatchesDate(DateOf(s.isoCreatedAt), f) &&
    MatchesAmount(s.totalAmount, f)
  }

  function MatchesOf(f: Filters): SaleView -> bool
  {
    s => Matches(s, f)
  }

  /** The visible sales: exactly those that pass every filter, in stored order. */
  function FilteredSales(sales: seq<SaleView>, f: Filters): (r: seq<SaleView>)
    ensures |r| <= |sales|
    ensures forall i :: 0 <= i < |r| ==> r[i] in sales && Matches(r[i], f)
    ensures forall i :: 0 <= i < |sales| && Matches(sales[i], f) ==> sales[i] in r
    ensures Selects(r, sales, MatchesOf(f))
  {
    FilterSelects(sales, MatchesOf(f));
    Filter(sales, MatchesOf(f))
  }

  /** With every filter cleared, the whole list is visible. */
  lemma NoFiltersShowAll(sales: seq<SaleView>)
    ensures FilteredSales(sales, NoFilters()) == sales
  {
    forall i | 0 <= i < |sales| ensures MatchesOf(NoFilters())(sales[i]) {
      EmptySearchMatches(sales[i]);
    }
    FilterKeepsAll(sales, MatchesOf(NoFilters()));
  }

  /** A range whose two ends are the same day selects exactly that day. */
  lemma SingleDayRange(day: string, f: Filters)
    requires f.startDate != "" && f.startDate == f.endDate
    ensures MatchesDate(day, f) <==> day == f.startDate
  {
    if MatchesDate(day, f) {
      LexLeAntisymmetric(day, f.startDate);
    }
    if day == f.startDate {
      LexLeReflexive(day);
    }
  }

  /** Narrowing the amount range never adds a sale: a sale visible under the
      tighter bounds is visible under the looser ones. */
  lemma TighterAmountRange(s: SaleView, f: Filters, lo: real, hi: real)
    requires f.minAmount.Some? ==> f.minAmount.value <= lo
    requires f.maxAmount.Some? ==> hi <= f.maxAmount.value
    ensures Matches(s, f.(minAmount := Some(lo), maxAmount := Some(hi))) ==> Matches(s, f)
  {
  }

  // ----- export -----

  const CsvHeader := "Receipt ID,Date,Total Amount,Items Count"

  /** The four values a line is made of: receipt number, local date and time,
      amount and item count. */
  function CsvFields(s: SaleView): seq<string>
  {
    [DecimalString(s.id), s.localeCreatedAt, s.amountText, DecimalString(ItemsCount(s))]
  }

  /** One line per sale: its values joined by commas, without quoting. */
  function CsvRow(s: SaleView): string
  {
    Join(CsvFields(s), ',')
  }

  function CsvRows(sales: seq<SaleView>): (r: seq<string>)
    ensures |r| == |sales|
  {
    seq(|sales|, i requires 0 <= i < |sales| => CsvRow(sales[i]))
  }

  /** The exported text: the header line, then one line per sale. */
  function CsvText(sales: seq<SaleView>): string
  {
    Join([CsvHeader] + CsvRows(sales), '\n')
  }

  /** When no rendered text holds a line break, the export has one header line
      followed by exactly one line per sale, in order. */
  lemma CsvLines(sales: seq<SaleView>)
    requires forall i :: 0 <= i < |sales| ==>
               FreeOf(sales[i].localeCreatedAt, '\n') && FreeOf(sales[i].amountText, '\n')
    ensures Split(CsvText(sales), '\n') == [CsvHeader] + CsvRows(sales)
    ensures |Split(CsvText(sales), '\n')| == |sales| + 1
  {
    var lines := [CsvHeader] + CsvRows(sales);
    forall k | 0 <= k < |lines| ensures FreeOf(lines[k], '\n') {
      if k > 0 {
        var s := sales[k - 1];
        DigitsFree(DecimalString(s.id), '\n');
        DigitsFree(DecimalString(ItemsCount(s)), '\n');
        JoinFree(CsvFields(s), ',', '\n');
      }
    }
    SplitJoin(lines, '\n');
  }

  /** The line structure of the export carries over to any selection of the
      sales: when no loaded sale's texts hold a line break, the export of a
      selection is its header then one line per selected sale. */
  lemma CsvLinesOfPart(part: seq<SaleView>, sales: seq<SaleView>)
    requires forall i :: 0 <= i < |part| ==> part[i] in sales
    ensures (forall i :: 0 <= i < |sales| ==>
               FreeOf(sales[i].localeCreatedAt, '\n') && FreeOf(sales[i].amountText, '\n')) ==>
            Split(CsvText(part), '\n') == [CsvHeader] + CsvRows(part)
  {
    if forall i :: 0 <= i < |sales| ==>
         FreeOf(sales[i].localeCreatedAt, '\n') && FreeOf(sales[i].amountText, '\n') {
      CsvLines(part);
    }
  }

  /** When neither rendered text holds a comma, a line splits back into its
      four fields. */
  lemma CsvRowFields(s: SaleView)
    requires FreeOf(s.localeCreatedAt, ',') && FreeOf(s.amountText, ',')
    ensures Split(CsvRow(s), ',') == CsvFields(s)
  {
    DigitsFree(DecimalString(s.id), ',');
    DigitsFree(DecimalString(ItemsCount(s)), ',');
    SplitJoin(CsvFields(s), ',');
  }

  /** The local date and time is written unquoted, so a rendering that holds a
      comma (as `1/15/2025, 10:30:00 AM` does) spreads over two columns: the
      line has five fields, and the Total Amount column receives the time. */
  lemma CsvCommaInDate(s: SaleView, date: string, time: string)
    requires s.localeCreatedAt == date + "," + time
    requires FreeOf(date, ',') && FreeOf(time, ',') && FreeOf(s.amountText, ',')
    ensures Split(CsvRow(s), ',') ==
            [DecimalString(s.id), date, time, s.amountText, DecimalString(ItemsCount(s))]
    ensures |Split(CsvRow(s), ',')| == 5
  {
    var fields := [DecimalString(s.id), date, time, s.amountText, DecimalString(ItemsCount(s))];
    DigitsFree(DecimalString(s.id), ',');
    DigitsFree(DecimalString(ItemsCount(s)), ',');
    SplitJoin(fields, ',');
    var tail := [s.amountText, DecimalString(ItemsCount(s))];
    var rest := Join(tail, ',');
    assert Join(fields[2..], ',') == time + [','] + rest by { assert fields[2..][1..] == tail; }
    assert Join(fields[1..], ',') == date + [','] + Join(fields[2..], ',') by { assert fields[1..][1..] == fields[2..]; }
    var cf := CsvFields(s);
    assert Join(cf[1..], ',') == s.localeCreatedAt + [','] + rest by { assert cf[1..][1..] == tail; }
    assert s.localeCreatedAt + [','] + rest == date + [','] + (time + [','] + rest);
  }

  // ----- the screen -----

  /** The log screen's state: the loaded sales and the filter form. */
  class SalesLogScreen {
    var sales: seq<SaleView>
    var filters: Filters

    constructor()
      ensures sales == [] && filters == NoFilters()
    {
      sales := [];
      filters := NoFilters();
    }

    /** The sales the list shows. */
    function Visible(): (r: seq<SaleView>)
      reads this
      ensures forall i :: 0 <= i < |r| ==> r[i] in sales && Matches(r[i], filters)
      ensures forall i :: 0 <= i < |sales| && Matches(sales[i], filters) ==> sales[i] in r
      ensures Selects(r, sales, MatchesOf(filters))
    {
      FilteredSales(sales, filters)
    }

    /** The text the export button downloads. */
    function ExportText(): (t: string)
      reads this
      ensures (forall i :: 0 <= i < |sales| ==>
                 FreeOf(sales[i].localeCreatedAt, '\n') && FreeOf(sales[i].amountText, '\n')) ==>
              Split(t, '\n') == [CsvHeader] + CsvRows(Visible())
    {
      CsvLinesOfPart(Visible(), sales);
      CsvText(Visible())
    }

    /** The loaded list replaces the previous one; the filters stay. */
    method Load(data: seq<SaleView>)
      modifies this
      ensures sales == data && filters == old(filters)
    {
      sales := data;
    }

    /** A change in the filter form. */
    method SetFilters(f: Filters)
      modifies this
      ensures filters == f && sales == old(sales)
    {
      filters := f;
    }

    /** Clears every filter, which makes every loaded sale visible again. */
    method ResetFilters()
      modifies this
      ensures filters == NoFilters() && sales == old(sales)
      ensures Visible() == sales
    {
      filters := NoFilters();
      NoFiltersShowAll(sales);
    }
  }
}
