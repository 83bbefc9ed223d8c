/** The Log Book screen: a multi-row manual entry form. Each row picks a
    product by searching, takes a quantity, and shows the product's price;
    saving records the complete rows as one sale and resets the form. */
module ManualLog {
  import opened Wrappers
  import opened Seqs
  import opened Text
  import opened Types
  import Db

  /** One form row; `productId` None is the empty selection. */
  datatype LogRow = LogRow(id: nat, productId: Option<int>, searchQuery: string, quantity: int, price: real)

  /** A blank row: no product, empty search, quantity 1, price 0. */
  function EmptyRow(id: nat): LogRow { LogRow(id, None, "", 1, 0.0) }

  function RowId(r: LogRow): nat { r.id }

  predicate UniqueRowIds(rows: seq<LogRow>) { UniqueKeys(rows, RowId) }

  /** `selectProduct`: the row takes the product's id, name and price. */
  function SelectInRows(rows: seq<LogRow>, rowId: nat, p: Product): (r: seq<LogRow>)
    ensures |r| == |rows|
    ensures forall i :: 0 <= i < |rows| ==> r[i].id == rows[i].id && r[i].quantity == rows[i].quantity
    ensures forall i :: 0 <= i < |rows| && rows[i].id == rowId ==>
      r[i].productId == Some(p.id) && r[i].searchQuery == p.name && r[i].price == p.price
    ensures forall i :: 0 <= i < |rows| && rows[i].id != rowId ==> r[i] == rows[i]
  {
    seq(|rows|, i requires 0 <= i < |rows| =>
      if rows[i].id == rowId
      then rows[i].(productId := Some(p.id), searchQuery := p.name, price := p.price)
      else rows[i])
  }

  /** `updateQuantity`: negative quantities are clamped to 0; 0 is kept. */
  function SetRowQuantity(rows: seq<LogRow>, rowId: nat, qty: int): (r: seq<LogRow>)
    ensures |r| == |rows|
    ensures forall i :: 0 <= i < |rows| ==> r[i].id == rows[i].id
    ensures forall i :: 0 <= i < |rows| && rows[i].id == rowId ==>
      r[i] == rows[i].(quantity := r[i].quantity) && r[i].quantity >= 0
      && (qty >= 0 ==> r[i].quantity == qty) && (qty < 0 ==> r[i].quantity == 0)
    ensures forall i :: 0 <= i < |rows| && rows[i].id != rowId ==> r[i] == rows[i]
  {
    seq(|rows|, i requires 0 <= i < |rows| =>
      if rows[i].id == rowId then rows[i].(quantity := if qty < 0 then 0 else qty) else rows[i])
  }

  /** `updateSearchQuery`: typing stores the text and drops the selected
      product unless the text is unchanged. The price is left as it was. */
  function SetRowQuery(rows: seq<LogRow>, rowId: nat, query: string): (r: seq<LogRow>)
    ensures |r| == |rows|
    ensures forall i :: 0 <= i < |rows| ==> r[i].id == rows[i].id
    ensures forall i :: 0 <= i < |rows| && rows[i].id == rowId ==>
      && r[i].searchQuery == query
      && r[i].quantity == rows[i].quantity && r[i].price == rows[i].price
      && (r[i].productId.Some? <==> rows[i].productId.Some? && rows[i].searchQuery == query)
      && (r[i].productId.Some? ==> r[i].productId == rows[i].productId)
    ensures forall i :: 0 <= i < |rows| && rows[i].id != rowId ==> r[i] == rows[i]
  {
    seq(|rows|, i requires 0 <= i < |rows| =>
      if rows[i].id == rowId
      then rows[i].(searchQuery := query,
                    productId := if rows[i].searchQuery == query then rows[i].productId else None)
      else rows[i])
  }

  /** `removeRow`: a row is removed only while more than one exists. */
  function RemoveRowFrom(rows: seq<LogRow>, rowId: nat): (r: seq<LogRow>)
    ensures |rows| <= 1 ==> r == rows
    ensures forall i :: 0 <= i < |r| ==> r[i] in rows && (|rows| > 1 ==> r[i].id != rowId)
  {
    if |rows| > 1 then Filter(rows, (r: LogRow) => r.id != rowId) else rows
  }

  /** A row is saved when it has a product and a positive quantity. */
  predicate IsValidRow(r: LogRow) { r.productId.Some? && r.quantity > 0 }

  function ValidRows(rows: seq<LogRow>): (r: seq<LogRow>)
    ensures forall i :: 0 <= i < |r| ==> r[i] in rows && IsValidRow(r[i])
    ensures forall i :: 0 <= i < |rows| && IsValidRow(rows[i]) ==> rows[i] in r
  {
    Filter(rows, IsValidRow)
  }

  /** The requests the save submits, one per valid row, in row order. */
  function SaveRequests(valid: seq<LogRow>): (r: seq<Db.LineRequest>)
    requires forall i :: 0 <= i < |valid| ==> IsValidRow(valid[i])
    ensures |r| == |valid|
    ensures forall i :: 0 <= i < |valid| ==>
      valid[i].productId == Some(r[i].productId) && r[i].quantity == valid[i].quantity && r[i].quantity > 0
      && r[i].price == valid[i].price
  {
    seq(|valid|, i requires 0 <= i < |valid| && IsValidRow(valid[i]) =>
      Db.LineRequest(valid[i].productId.value, valid[i].quantity, valid[i].price))
  }

  function RowAmount(r: LogRow): real { r.price * r.quantity as real }

  /** The form's grand total: price times quantity over every row. */
  function GrandTotal(rows: seq<LogRow>): real { SumOf(rows, RowAmount) }

  /** The dropdown under a row: shown only while the row has search text and
      no product; it lists the products whose name or category contains the
      text, ignoring ASCII case. */
  function DropdownOptions(ps: seq<Product>, row: LogRow): (r: seq<Product>)
    ensures row.searchQuery == "" || row.productId.Some? ==> r == []
    ensures forall i :: 0 <= i < |r| ==> r[i] in ps && MatchesNameOrCategory(r[i], row.searchQuery)
    ensures row.searchQuery != "" && row.productId.None? ==>
      forall i :: 0 <= i < |ps| && MatchesNameOrCategory(ps[i], row.searchQuery) ==> ps[i] in r
    ensures row.searchQuery != "" && row.productId.None? ==> Selects(r, ps, MatchesTermOf(row.searchQuery))
  {
    if row.searchQuery != "" && row.productId.None?
    then FilterSelects(ps, MatchesTermOf(row.searchQuery)); Filter(ps, MatchesTermOf(row.searchQuery))
    else []
  }

  datatype LogError = NoValidItems | SaveFailed(cause: Db.SaleError)

  datatype SaveOutcome = Rejected | Saved(sale: Sale) | Failed(cause: Db.SaleError)

  /** The form's state. Row ids are drawn from a counter, standing for the
      random identifiers the source generates: each new row's id is fresh. */
  class LogBook {
    var rows: seq<LogRow>
    var error: Option<LogError>
    var nextRowId: nat

    /** At least one row, with distinct ids, all already issued. */
    ghost predicate Valid()
      reads this
    {
      && |rows| >= 1
      && UniqueRowIds(rows)
      && forall i :: 0 <= i < |rows| ==> rows[i].id < nextRowId
    }

    constructor ()
      ensures Valid() && rows == [EmptyRow(0)] && error == None
    {
      rows := [EmptyRow(0)];
      error := None;
      nextRowId := 1;
    }

    method AddRow()
      requires Valid()
      modifies this
      ensures Valid() && error == old(error)
      ensures rows == old(rows) + [EmptyRow(old(nextRowId))]
    {
      rows := rows + [EmptyRow(nextRowId)];
      nextRowId := nextRowId + 1;
    }

    method RemoveRow(rowId: nat)
      requires Valid()
      modifies this
      ensures Valid() && error == old(error) && nextRowId == old(nextRowId)
      ensures rows == RemoveRowFrom(old(rows), rowId)
    {
      RemoveRowKeepsOne(rows, rowId);
      rows := RemoveRowFrom(rows, rowId);
    }

    method SelectProduct(rowId: nat, p: Product)
      requires Valid()
      modifies this
      ensures Valid() && error == old(error) && nextRowId == old(nextRowId)
      ensures rows == SelectInRows(old(rows), rowId, p)
    {
      rows := SelectInRows(rows, rowId, p);
    }

    method UpdateQuantity(rowId: nat, qty: int)
      requires Valid()
      modifies this
      ensures Valid() && error == old(error) && nextRowId == old(nextRowId)
      ensures rows == SetRowQuantity(old(rows), rowId, qty)
    {
      rows := SetRowQuantity(rows, rowId, qty);
    }

    method UpdateSearchQuery(rowId: nat, query: string)
      requires Valid()
      modifies this
      ensures Valid() && error == old(error) && nextRowId == old(nextRowId)
      ensures rows == SetRowQuery(old(rows), rowId, query)
    {
      rows := SetRowQuery(rows, rowId, query);
    }

    /** `handleSave`: with no valid row an error is shown and nothing is
        submitted; otherwise the valid rows are submitted and, on success, the
        form resets to one blank row; on failure the rows are kept. */
    method HandleSave(store: Db.Store, now: string) returns (outcome: SaveOutcome)
      requires Valid() && store.Valid()
      modifies this, store
      ensures Valid() && store.Valid()
      ensures store.products == old(store.products)
      ensures ValidRows(old(rows)) == [] ==>
        outcome == Rejected && error == Some(NoValidItems) && rows == old(rows)
        && store.sales == old(store.sales)
      ensures ValidRows(old(rows)) != [] ==>
        var reqs := SaveRequests(ValidRows(old(rows)));
        && (outcome.Saved? <==> Db.AllFound(old(store.products), reqs))
        && (outcome.Saved? ==>
              && outcome.sale == Db.NewSale(old(store.products), old(store.sales), reqs, now)
              && store.sales == [outcome.sale] + old(store.sales)
              && rows == [EmptyRow(old(nextRowId))] && error == None)
        && (!outcome.Saved? ==>
              && outcome.Failed? && error == Some(SaveFailed(outcome.cause))
              && rows == old(rows) && store.sales == old(store.sales))
    {
      var valid := ValidRows(rows);
      if valid == [] {
        error := Some(NoValidItems);
        return Rejected;
      }
      error := None;
      var r := store.CreateSale(SaveRequests(valid), now);
      if r.Ok? {
        rows := [EmptyRow(nextRowId)];
        nextRowId := nextRowId + 1;
        outcome := Saved(r.value);
      } else {
        error := Some(SaveFailed(r.error));
        outcome := Failed(r.error);
      }
    }
  }

  // ----- properties -----

  /** The valid rows keep the form's order, so the submitted requests follow
      the rows from top to bottom. */
  lemma ValidRowsInOrder(rows: seq<LogRow>)
    ensures Selects(ValidRows(rows), rows, IsValidRow)
  {
    FilterSelects(rows, IsValidRow);
  }

  /** Removing a row never empties the form: it removes exactly the row with
      that id (keeping the others in order) when more than one row exists. */
  lemma RemoveRowKeepsOne(rows: seq<LogRow>, rowId: nat)
    requires |rows| >= 1 && UniqueRowIds(rows)
    ensures var r := RemoveRowFrom(rows, rowId);
      |r| >= 1 && UniqueRowIds(r) && |r| >= |rows| - 1
    ensures forall k :: 0 <= k < |rows| && rows[k].id == rowId && |rows| > 1 ==>
      RemoveRowFrom(rows, rowId) == rows[..k] + rows[k + 1..]
  {
    var f := (r: LogRow) => r.id != rowId;
    if |rows| > 1 {
      FilterUniqueKeys(rows, f, RowId);
      if k :| 0 <= k < |rows| && rows[k].id == rowId {
        FilterOutKey(rows, RowId, k, f);
        forall k' | 0 <= k' < |rows| && rows[k'].id == rowId
          ensures RemoveRowFrom(rows, rowId) == rows[..k'] + rows[k' + 1..]
        {
          assert k' == k;
        }
      } else {
        FilterOutAbsentKey(rows, RowId, rowId, f);
      }
    }
  }

  /** A quantity set to 0 or below stays in the form as 0, and such a row is
      not submitted. */
  lemma ZeroQuantityRowNotSaved(rows: seq<LogRow>, rowId: nat, qty: int, k: nat)
    requires k < |rows| && rows[k].id == rowId && qty <= 0
    ensures SetRowQuantity(rows, rowId, qty)[k].quantity == 0
    ensures SetRowQuantity(rows, rowId, qty)[k] !in ValidRows(SetRowQuantity(rows, rowId, qty))
  {
  }

  /** The blank form the save resets to totals 0 and has nothing to save. */
  lemma ResetFormIsEmpty(id: nat)
    ensures GrandTotal([EmptyRow(id)]) == 0.0
    ensures ValidRows([EmptyRow(id)]) == []
  {
    SumOfSingleton(EmptyRow(id), RowAmount);
  }

  /** When every row without a product has price 0, the grand total is the
      total of the rows that have a product. */
  lemma UnselectedRowsAddNothing(rows: seq<LogRow>)
    requires forall i :: 0 <= i < |rows| && rows[i].productId.None? ==> rows[i].price == 0.0
    ensures GrandTotal(rows) == GrandTotal(Filter(rows, (r: LogRow) => r.productId.Some?))
  {
    var sel := (r: LogRow) => r.productId.Some?;
    SumOfFilter(rows, sel, RowAmount, RowAmount);
  }

  /** Typing over a row's search text clears its product but keeps its price
      and quantity, so the grand total is unchanged: it still counts a row
      that the save will drop. */
  lemma StalePriceCountedInGrandTotal(rows: seq<LogRow>, k: nat, query: string)
    requires k < |rows| && query != rows[k].searchQuery
    ensures var r := SetRowQuery(rows, rows[k].id, query);
      && GrandTotal(r) == GrandTotal(rows)
      && r[k].productId.None?
      && RowAmount(r[k]) == RowAmount(rows[k])
      && r[k] !in ValidRows(r)
  {
    var r := SetRowQuery(rows, rows[k].id, query);
    SumOfPointwise(r, RowAmount, rows, RowAmount);
  }
}
