/** The record shapes of the store: a catalog product, and a recorded sale
    with its line items; and the case-insensitive catalog search. */
module Types {
  import opened Text

  datatype Status = Active | Inactive

  datatype Product = Product(
    id: int,
    name: string,
    price: real,
    category: string,
    status: Status,
    createdAt: string,
    updatedAt: string)

  /** One line of a recorded sale; `priceAtSale` is a snapshot of the catalog
      price when the sale was made. */
  datatype SaleItem = SaleItem(
    id: int,
    saleId: int,
    productId: int,
    productName: string,
    quantity: int,
    priceAtSale: real,
    lineTotal: real)

  datatype Sale = Sale(
    id: int,
    totalAmount: real,
    createdAt: string,
    items: seq<SaleItem>)

  // ----- catalog search -----

  /** The catalog search of the inventory list and the Log Book dropdown: the
      name or the category contains the term, ignoring ASCII case. */
  predicate MatchesNameOrCategory(p: Product, term: string)
  {
    Contains(Lower(p.name), Lower(term)) || Contains(Lower(p.category), Lower(term))
  }

  /** The filter callback of that search. */
  function MatchesTermOf(term: string): Product -> bool
  {
    p => MatchesNameOrCategory(p, term)
  }

  /** `products.map(p => p.category)`. */
  function ProductCategories(ps: seq<Product>): (r: seq<string>)
    ensures |r| == |ps|
    ensures forall i :: 0 <= i < |ps| ==> r[i] == ps[i].category
  {
    seq(|ps|, i requires 0 <= i < |ps| => ps[i].category)
  }

  /** The search ignores the case of the term. */
  lemma SearchIgnoresTermCase(p: Product, term: string)
    ensures MatchesNameOrCategory(p, Lower(term)) <==> MatchesNameOrCategory(p, term)
  {
    LowerIdempotent(term);
  }

  /** An empty term matches every product. */
  lemma EmptyTermMatches(p: Product)
    ensures MatchesNameOrCategory(p, "")
  {
    assert Lower(p.name)[..0] == Lower("");
  }
}
