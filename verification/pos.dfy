/** The point-of-sale screen: a cart built from the active catalog, its
    subtotal, the flat 8% tax and the total, the category tabs and search,
    and checkout, which records the cart as a sale. */
module Pos {
  import opened Wrappers
  import opened Seqs
  import opened Text
  import opened Types
  import Db

  /** A cart line: the product as it was when first added, and how many. */
  datatype CartLine = CartLine(product: Product, quantity: int)

  function LineId(l: CartLine): int { l.product.id }

  predicate InCart(cart: seq<CartLine>, id: int)
  {
    exists i :: 0 <= i < |cart| && cart[i].product.id == id
  }

  /** No product has two lines. */
  predicate UniqueLines(cart: seq<CartLine>)
  {
    UniqueKeys(cart, LineId)
  }

  predicate PositiveQuantities(cart: seq<CartLine>)
  {
    forall i :: 0 <= i < |cart| ==> cart[i].quantity >= 1
  }

  /** `addToCart`: one more of a product already in the cart, otherwise a new
      last line with quantity 1. */
  function AddLine(cart: seq<CartLine>, p: Product): (r: seq<CartLine>)
    ensures InCart(r, p.id)
    ensures !InCart(cart, p.id) ==> r == cart + [CartLine(p, 1)]
    ensures InCart(cart, p.id) ==> |r| == |cart|
    ensures InCart(cart, p.id) ==> forall i :: 0 <= i < |cart| ==>
      r[i] == if cart[i].product.id == p.id then cart[i].(quantity := cart[i].quantity + 1) else cart[i]
    ensures UniqueLines(cart) ==> UniqueLines(r)
    ensures PositiveQuantities(cart) ==> PositiveQuantities(r)
  {
    if InCart(cart, p.id) then
      var r := seq(|cart|, i requires 0 <= i < |cart| =>
        if cart[i].product.id == p.id then cart[i].(quantity := cart[i].quantity + 1) else cart[i]);
      assert forall i :: 0 <= i < |cart| ==> r[i].product == cart[i].product;
      r
    else
      var r := cart + [CartLine(p, 1)];
      assert r[|cart|].product.id == p.id;
      r
  }

  /** `updateQuantity(id, delta)`: the quantity moves by delta but never
      below 1. */
  function ChangeQuantity(cart: seq<CartLine>, id: int, delta: int): (r: seq<CartLine>)
    ensures |r| == |cart|
    ensures forall i :: 0 <= i < |cart| ==> r[i].product == cart[i].product
    ensures forall i :: 0 <= i < |cart| && cart[i].product.id == id ==>
      r[i].quantity >= 1 && r[i].quantity >= cart[i].quantity + delta
      && (cart[i].quantity + delta >= 1 ==> r[i].quantity == cart[i].quantity + delta)
      && (cart[i].quantity + delta < 1 ==> r[i].quantity == 1)
    ensures forall i :: 0 <= i < |cart| && cart[i].product.id != id ==> r[i] == cart[i]
    ensures UniqueLines(cart) ==> UniqueLines(r)
    ensures PositiveQuantities(cart) ==> PositiveQuantities(r)
  {
    seq(|cart|, i requires 0 <= i < |cart| =>
      if cart[i].product.id == id then
        cart[i].(quantity := if cart[i].quantity + delta < 1 then 1 else cart[i].quantity + delta)
      else cart[i])
  }

  /** `removeFromCart`. */
  function RemoveLine(cart: seq<CartLine>, id: int): (r: seq<CartLine>)
    ensures !InCart(r, id)
    ensures UniqueLines(cart) ==> UniqueLines(r)
    ensures PositiveQuantities(cart) ==> PositiveQuantities(r)
  {
    var r := Filter(cart, (l: CartLine) => l.product.id != id);
    if UniqueLines(cart) then FilterUniqueKeys(cart, (l: CartLine) => l.product.id != id, LineId); r
    else r
  }

  function LineAmount(l: CartLine): real { l.product.price * l.quantity as real }

  /** Sum of price times quantity over the cart. */
  function Subtotal(cart: seq<CartLine>): real { SumOf(cart, LineAmount) }

  const TaxRate: real := 0.08

  function Tax(cart: seq<CartLine>): real { Subtotal(cart) * TaxRate }

  function Total(cart: seq<CartLine>): real { Subtotal(cart) + Tax(cart) }

  /** The requests checkout submits, one per line, in cart order. */
  function CheckoutRequests(cart: seq<CartLine>): (r: seq<Db.LineRequest>)
    ensures |r| == |cart|
    ensures forall i :: 0 <= i < |cart| ==>
      r[i].productId == cart[i].product.id && r[i].quantity == cart[i].quantity
      && r[i].price == cart[i].product.price
  {
    seq(|cart|, i requires 0 <= i < |cart| =>
      Db.LineRequest(cart[i].product.id, cart[i].quantity, cart[i].product.price))
  }

  /** The category tabs: "All", then each product category once, in order of
      first appearance. */
  function Categories(ps: seq<Product>): (r: seq<string>)
    ensures |r| >= 1 && r[0] == "All"
    ensures NoDuplicates(r[1..])
    ensures forall i :: 0 <= i < |ps| ==> ps[i].category in r[1..]
    ensures forall j :: 1 <= j < |r| ==> exists i :: 0 <= i < |ps| && ps[i].category == r[j]
    ensures r[1..] == Distinct(ProductCategories(ps))
  {
    var cats := ProductCategories(ps);
    var d := Distinct(cats);
    assert forall i :: 0 <= i < |ps| ==> cats[i] in d && cats[i] == ps[i].category;
    assert (["All"] + d)[1..] == d;
    ["All"] + d
  }

  /** The product grid's filter: the chosen category (or all) and the
      search term within the name, ignoring ASCII case. */
  predicate ShownInGrid(p: Product, activeCategory: string, term: string)
  {
    (activeCategory == "All" || p.category == activeCategory) && Contains(Lower(p.name), Lower(term))
  }

  function ShownInGridOf(activeCategory: string, term: string): Product -> bool
  {
    p => ShownInGrid(p, activeCategory, term)
  }

  /** The products the grid shows, in catalog order. */
  function FilteredProducts(ps: seq<Product>, activeCategory: string, term: string): (r: seq<Product>)
    ensures forall i :: 0 <= i < |r| ==> r[i] in ps && ShownInGrid(r[i], activeCategory, term)
    ensures forall i :: 0 <= i < |ps| && ShownInGrid(ps[i], activeCategory, term) ==> ps[i] in r
    ensures Selects(r, ps, ShownInGridOf(activeCategory, term))
  {
    FilterSelects(ps, ShownInGridOf(activeCategory, term));
    Filter(ps, ShownInGridOf(activeCategory, term))
  }

  datatype CheckoutOutcome = Skipped | Completed(sale: Sale) | Failed(error: Db.SaleError)

  /** The register's state: the cart and the in-flight flag. */
  class Register {
    var cart: seq<CartLine>
    var isProcessing: bool

    ghost predicate Valid()
      reads this
    {
      UniqueLines(cart) && PositiveQuantities(cart)
    }

    constructor ()
      ensures Valid() && cart == [] && !isProcessing
    {
      cart := [];
      isProcessing := false;
    }

    method AddToCart(p: Product)
      requires Valid()
      modifies this
      ensures Valid() && isProcessing == old(isProcessing)
      ensures cart == AddLine(old(cart), p)
    {
      cart := AddLine(cart, p);
    }

    method UpdateQuantity(id: int, delta: int)
      requires Valid()
      modifies this
      ensures Valid() && isProcessing == old(isProcessing)
      ensures cart == ChangeQuantity(old(cart), id, delta)
    {
      cart := ChangeQuantity(cart, id, delta);
    }

    method RemoveFromCart(id: int)
      requires Valid()
      modifies this
      ensures Valid() && isProcessing == old(isProcessing)
      ensures cart == RemoveLine(old(cart), id)
    {
      cart := RemoveLine(cart, id);
    }

    /** `handleCheckout`: nothing happens for an empty cart or while a
        checkout is in flight; otherwise the cart is submitted, cleared on
        success and kept on failure. */
    method Checkout(store: Db.Store, now: string) returns (outcome: CheckoutOutcome)
      requires Valid() && store.Valid()
      modifies this, store
      ensures Valid() && store.Valid()
      ensures store.products == old(store.products)
      ensures old(cart) == [] || old(isProcessing) ==>
        outcome == Skipped && cart == old(cart) && isProcessing == old(isProcessing)
        && store.sales == old(store.sales)
      ensures old(cart) != [] && !old(isProcessing) ==>
        && !isProcessing
        && (outcome.Completed? <==> Db.AllFound(old(store.products), CheckoutRequests(old(cart))))
        && (outcome.Completed? ==>
              cart == []
              && outcome.sale == Db.NewSale(old(store.products), old(store.sales), CheckoutRequests(old(cart)), now)
              && store.sales == [outcome.sale] + old(store.sales))
        && (!outcome.Completed? ==> outcome.Failed? && cart == old(cart) && store.sales == old(store.sales))
    {
      if cart == [] || isProcessing {
        return Skipped;
      }
      isProcessing := true;
      var r := store.CreateSale(CheckoutRequests(cart), now);
      if r.Ok? {
        cart := [];
        outcome := Completed(r.value);
      } else {
        outcome := Failed(r.error);
      }
      isProcessing := false;
    }
  }

  // ----- properties -----

  /** The tabs after "All" follow the order in which the categories first
      appear in the catalog. */
  lemma CategoriesInOrder(ps: seq<Product>)
    ensures FirstAppearances(Categories(ps)[1..], ProductCategories(ps))
  {
    DistinctFirstAppearances(ProductCategories(ps));
  }

  /** Adding a product already in the cart raises that line's quantity by one
      and leaves every other line as it was. */
  lemma AddExistingLine(cart: seq<CartLine>, p: Product, k: nat)
    requires UniqueLines(cart) && k < |cart| && cart[k].product.id == p.id
    ensures AddLine(cart, p) == cart[k := cart[k].(quantity := cart[k].quantity + 1)]
  {
    assert InCart(cart, p.id);
    var r := AddLine(cart, p);
    forall i | 0 <= i < |cart| && i != k ensures r[i] == cart[i] {
      assert LineId(cart[i]) != LineId(cart[k]);
    }
  }

  /** The subtotal after an add grows by the unit price of the line that
      grew: the price stored in an existing line, or the product's price for
      a new one. */
  lemma {:induction false} AddLineSubtotal(cart: seq<CartLine>, p: Product)
    requires UniqueLines(cart)
    ensures !InCart(cart, p.id) ==> Subtotal(AddLine(cart, p)) == Subtotal(cart) + p.price
    ensures forall k :: 0 <= k < |cart| && cart[k].product.id == p.id ==>
      Subtotal(AddLine(cart, p)) == Subtotal(cart) + cart[k].product.price
  {
    if !InCart(cart, p.id) {
      SumOfAppend(cart, [CartLine(p, 1)], LineAmount);
      assert [CartLine(p, 1)][..0] == [];
    }
    forall k | 0 <= k < |cart| && cart[k].product.id == p.id
      ensures Subtotal(AddLine(cart, p)) == Subtotal(cart) + cart[k].product.price
    {
      AddExistingLine(cart, p, k);
      SumAtPosition(cart, k, cart[k].(quantity := cart[k].quantity + 1));
      SumAtPosition(cart, k, cart[k]);
      assert cart[k := cart[k]] == cart;
    }
  }

  /** A cart's subtotal splits around any one position. */
  lemma SumAtPosition(cart: seq<CartLine>, k: nat, line: CartLine)
    requires k < |cart|
    ensures Subtotal(cart[k := line]) == Subtotal(cart[..k]) + LineAmount(line) + Subtotal(cart[k + 1..])
  {
    var c := cart[k := line];
    assert c == cart[..k] + [line] + cart[k + 1..];
    SumOfAppend(cart[..k] + [line], cart[k + 1..], LineAmount);
    SumOfAppend(cart[..k], [line], LineAmount);
    assert [line][..0] == [];
  }

  /** Removing a line takes out exactly that line, keeps the others in order,
      and lowers the subtotal by that line's amount. */
  lemma RemoveExistingLine(cart: seq<CartLine>, k: nat)
    requires UniqueLines(cart) && k < |cart|
    ensures RemoveLine(cart, cart[k].product.id) == cart[..k] + cart[k + 1..]
    ensures Subtotal(RemoveLine(cart, cart[k].product.id)) == Subtotal(cart) - LineAmount(cart[k])
  {
    var id := cart[k].product.id;
    FilterOutKey(cart, LineId, k, (l: CartLine) => l.product.id != id);
    SumAtPosition(cart, k, cart[k]);
    assert cart[k := cart[k]] == cart;
    SumOfAppend(cart[..k], cart[k + 1..], LineAmount);
  }

  /** Removing a product that has no line changes nothing. */
  lemma RemoveAbsentLine(cart: seq<CartLine>, id: int)
    requires !InCart(cart, id)
    ensures RemoveLine(cart, id) == cart
  {
    FilterOutAbsentKey(cart, LineId, id, (l: CartLine) => l.product.id != id);
  }

  /** Total is the subtotal plus 8%. */
  lemma TotalIsSubtotalPlusTax(cart: seq<CartLine>)
    ensures Tax(cart) == Subtotal(cart) * 0.08
    ensures Total(cart) == Subtotal(cart) * 1.08
  {
  }

  /** Two of the 45.00 product and one of the 12.50 product: subtotal
      102.50, tax 8.20, total 110.70. */
  lemma SeedCartExample(now: string)
    ensures var ps := Db.SeedProducts(now);
      var cart := [CartLine(ps[0], 2), CartLine(ps[1], 1)];
      Subtotal(cart) == 102.50 && Tax(cart) == 8.20 && Total(cart) == 110.70
  {
    var ps := Db.SeedProducts(now);
    var cart := [CartLine(ps[0], 2), CartLine(ps[1], 1)];
    assert cart[..1] == [cart[0]] && cart[..1][..0] == [];
    assert LineAmount(cart[0]) == 90.0 && LineAmount(cart[1]) == 12.5;
    calc {
      Subtotal(cart);
      SumOf(cart[..1], LineAmount) + LineAmount(cart[1]);
      SumOf(cart[..1][..0], LineAmount) + LineAmount(cart[0]) + LineAmount(cart[1]);
      102.50;
    }
  }

  /** The prices in the cart match the catalog's current prices. */
  predicate PricesCurrent(catalog: seq<Product>, cart: seq<CartLine>)
  {
    forall i :: 0 <= i < |cart| ==>
      Db.FindProduct(catalog, cart[i].product.id).Some? &&
      Db.FindProduct(catalog, cart[i].product.id).value.price == cart[i].product.price
  }

  /** When the cart's prices are still the catalog's, the recorded sale total
      is the cart's subtotal: the 8% shown at the register is not stored. */
  lemma {:induction false} CheckoutTotalExcludesTax(catalog: seq<Product>, sales: seq<Sale>, cart: seq<CartLine>, now: string)
    requires PricesCurrent(catalog, cart)
    ensures Db.AllFound(catalog, CheckoutRequests(cart))
    ensures Db.NewSale(catalog, sales, CheckoutRequests(cart), now).totalAmount == Subtotal(cart)
    ensures Total(cart) == Db.NewSale(catalog, sales, CheckoutRequests(cart), now).totalAmount * 1.08
  {
    var reqs := CheckoutRequests(cart);
    var s := Db.NewSale(catalog, sales, reqs, now);
    SumOfPointwise(s.items, Db.LineTotal, cart, LineAmount);
  }
}
