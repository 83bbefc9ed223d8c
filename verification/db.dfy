/** The in-memory store behind every screen: the product catalog and the list
    of recorded sales, with the product API (list, list active, save as update
    or create, soft delete) and the sales API (list, create). */
module Db {
  import opened Wrappers
  import opened Seqs
  import opened Types

  // ----- products -----

  /** A `Partial<Product>`: each field is either given or absent. */
  datatype ProductPatch = ProductPatch(
    id: Option<int>,
    name: Option<string>,
    price: Option<real>,
    category: Option<string>,
    status: Option<Status>,
    createdAt: Option<string>,
    updatedAt: Option<string>)

  const EmptyPatch: ProductPatch := ProductPatch(None, None, None, None, None, None, None)

  /** The patch's id is truthy: present and not 0. Such a save updates. */
  predicate HasId(patch: ProductPatch)
  {
    patch.id.Some? && patch.id.value != 0
  }

  /** The fields a newly created product takes from the patch are all given. */
  predicate Complete(patch: ProductPatch)
  {
    patch.name.Some? && patch.price.Some? && patch.category.Some?
  }

  predicate IsActive(p: Product) { p.status == Active }

  /** The products listed for sale. */
  function ActiveProducts(ps: seq<Product>): (r: seq<Product>)
    ensures |r| <= |ps|
    ensures forall i :: 0 <= i < |r| ==> r[i] in ps && r[i].status == Active
    ensures forall i :: 0 <= i < |ps| && ps[i].status == Active ==> ps[i] in r
    ensures Selects(r, ps, IsActive)
  {
    FilterSelects(ps, IsActive);
    Filter(ps, IsActive)
  }

  predicate UniqueProductIds(ps: seq<Product>)
  {
    forall i, j :: 0 <= i < j < |ps| ==> ps[i].id != ps[j].id
  }

  /** `products.find(p => p.id === id)`. */
  function FindProduct(ps: seq<Product>, id: int): (r: Option<Product>)
    ensures r.None? <==> forall i :: 0 <= i < |ps| ==> ps[i].id != id
    ensures r.Some? ==> r.value in ps && r.value.id == id
  {
    if |ps| == 0 then None
    else if ps[0].id == id then Some(ps[0])
    else FindProduct(ps[1..], id)
  }

  /** With unique ids, looking a product up by its id finds that very product. */
  lemma {:induction false} FindProductUnique(ps: seq<Product>, i: nat)
    requires UniqueProductIds(ps) && i < |ps|
    ensures FindProduct(ps, ps[i].id) == Some(ps[i])
  {
    if i > 0 {
      FindProductUnique(ps[1..], i - 1);
    }
  }

  /** `{ ...p, ...patch, updatedAt: now }`: each field the patch gives
      replaces p's, and the modification time is refreshed. */
  function Merge(p: Product, patch: ProductPatch, now: string): Product
  {
    Product(
      patch.id.GetOr(p.id),
      patch.name.GetOr(p.name),
      patch.price.GetOr(p.price),
      patch.category.GetOr(p.category),
      patch.status.GetOr(p.status),
      patch.createdAt.GetOr(p.createdAt),
      now)
  }

  /** The update path of `save`: the product with the patch's id is merged,
      every other product is kept, in place. */
  function UpdateProducts(ps: seq<Product>, patch: ProductPatch, now: string): (r: seq<Product>)
    requires HasId(patch)
    ensures |r| == |ps|
    ensures forall i :: 0 <= i < |ps| ==> r[i].id == ps[i].id
    ensures forall i :: 0 <= i < |ps| && ps[i].id != patch.id.value ==> r[i] == ps[i]
  {
    seq(|ps|, i requires 0 <= i < |ps| =>
      if ps[i].id == patch.id.value then Merge(ps[i], patch, now) else ps[i])
  }

  /** `Math.max(0, ...ids) + 1`: an id above every id in the catalog. */
  function NextProductId(ps: seq<Product>): (id: int)
    ensures id >= 1
    ensures forall i :: 0 <= i < |ps| ==> ps[i].id < id
    ensures id == 1 || exists i :: 0 <= i < |ps| && ps[i].id == id - 1
  {
    MaxKey(ps, (p: Product) => p.id) + 1
  }

  /** The create path of `save`: the patch's fields with a new id, status
      defaulting to active, both timestamps set to now. */
  function NewProduct(patch: ProductPatch, id: int, now: string): Product
    requires Complete(patch)
  {
    Product(id, patch.name.value, patch.price.value, patch.category.value,
            patch.status.GetOr(Active), now, now)
  }

  /** `delete`: the product with that id becomes inactive; nothing is removed. */
  function Deactivate(ps: seq<Product>, id: int): (r: seq<Product>)
    ensures |r| == |ps|
    ensures forall i :: 0 <= i < |ps| ==>
      r[i] == if ps[i].id == id then ps[i].(status := Inactive) else ps[i]
  {
    seq(|ps|, i requires 0 <= i < |ps| =>
      if ps[i].id == id then ps[i].(status := Inactive) else ps[i])
  }

  // ----- sales -----

  /** What the screens pass to `salesAPI.create` for each line. The `price`
      travels along but `create` does not read it. */
  datatype LineRequest = LineRequest(productId: int, quantity: int, price: real)

  datatype SaleError = ProductNotFound(productId: int)

  /** Every requested product is in the catalog. */
  predicate AllFound(ps: seq<Product>, lines: seq<LineRequest>)
  {
    forall i :: 0 <= i < |lines| ==> FindProduct(ps, lines[i].productId).Some?
  }

  /** The first request whose product is missing; `create` fails on it. */
  function FirstMissing(ps: seq<Product>, lines: seq<LineRequest>): (k: nat)
    requires !AllFound(ps, lines)
    ensures k < |lines| && FindProduct(ps, lines[k].productId).None?
    ensures forall j :: 0 <= j < k ==> FindProduct(ps, lines[j].productId).Some?
  {
    if FindProduct(ps, lines[0].productId).None? then 0
    else 1 + FirstMissing(ps, lines[1..])
  }

  function LineTotal(it: SaleItem): real { it.lineTotal }

  /** A sale agrees with its items: its total is the sum of the line totals,
      each line total is price times quantity, each item names the sale. */
  predicate Consistent(s: Sale)
  {
    && s.totalAmount == SumOf(s.items, LineTotal)
    && forall i :: 0 <= i < |s.items| ==>
         s.items[i].saleId == s.id &&
         s.items[i].lineTotal == s.items[i].priceAtSale * s.items[i].quantity as real
  }

  predicate UniqueSaleIds(sales: seq<Sale>)
  {
    forall i, j :: 0 <= i < j < |sales| ==> sales[i].id != sales[j].id
  }

  /** `Math.max(0, ...saleIds) + 1`. */
  function NextSaleId(sales: seq<Sale>): (id: int)
    ensures id >= 1
    ensures forall k :: 0 <= k < |sales| ==> sales[k].id < id
    ensures id == 1 || exists k :: 0 <= k < |sales| && sales[k].id == id - 1
  {
    MaxKey(sales, (s: Sale) => s.id) + 1
  }

  /** The line item `create` builds for the request at `index`. */
  function BuildItem(p: Product, line: LineRequest, index: nat, saleId: int): SaleItem
  {
    SaleItem(index + 1, saleId, p.id, p.name, line.quantity, p.price, p.price * line.quantity as real)
  }

  /** The items `create` builds, one per request, in request order. */
  function SaleItems(ps: seq<Product>, lines: seq<LineRequest>, saleId: int): (items: seq<SaleItem>)
    requires AllFound(ps, lines)
    ensures |items| == |lines|
    ensures forall i :: 0 <= i < |lines| ==>
      items[i] == BuildItem(FindProduct(ps, lines[i].productId).value, lines[i], i, saleId)
    ensures forall i :: 0 <= i < |lines| ==>
      && items[i].id == i + 1
      && items[i].saleId == saleId
      && items[i].productId == lines[i].productId
      && items[i].quantity == lines[i].quantity
      && items[i].priceAtSale == FindProduct(ps, lines[i].productId).value.price
      && items[i].lineTotal == items[i].priceAtSale * items[i].quantity as real
  {
    seq(|lines|, i requires 0 <= i < |lines| =>
      BuildItem(FindProduct(ps, lines[i].productId).value, lines[i], i, saleId))
  }

  /** The sale `create` records: items numbered from 1 in request order, each
      priced at the catalog's current price, the total their sum (no tax). */
  function NewSale(ps: seq<Product>, sales: seq<Sale>, lines: seq<LineRequest>, now: string): (s: Sale)
    requires AllFound(ps, lines)
    ensures Consistent(s)
    ensures s.createdAt == now && |s.items| == |lines|
    ensures s.id == NextSaleId(sales)
    ensures forall k :: 0 <= k < |sales| ==> sales[k].id < s.id
    ensures forall i :: 0 <= i < |lines| ==>
      && s.items[i].id == i + 1
      && s.items[i].productId == lines[i].productId
      && s.items[i].quantity == lines[i].quantity
      && s.items[i].priceAtSale == FindProduct(ps, lines[i].productId).value.price
  {
    var id := NextSaleId(sales);
    var items := SaleItems(ps, lines, id);
    var s := Sale(id, SumOf(items, LineTotal), now, items);
    assert forall i :: 0 <= i < |s.items| ==>
      s.items[i].saleId == s.id &&
      s.items[i].lineTotal == s.items[i].priceAtSale * s.items[i].quantity as real;
    s
  }

  /** What a request line costs at the catalog's current price (0 if the
      product is missing). */
  function CatalogAmount(ps: seq<Product>, line: LineRequest): real
  {
    match FindProduct(ps, line.productId)
    case Some(p) => p.price * line.quantity as real
    case None => 0.0
  }

  /** The recorded total is the catalog price times quantity summed over the
      request, with no tax added. */
  lemma SaleTotalIsCatalogSum(ps: seq<Product>, sales: seq<Sale>, lines: seq<LineRequest>, now: string)
    requires AllFound(ps, lines)
    ensures NewSale(ps, sales, lines, now).totalAmount == SumOf(lines, l => CatalogAmount(ps, l))
  {
    var s := NewSale(ps, sales, lines, now);
    SumOfPointwise(s.items, LineTotal, lines, l => CatalogAmount(ps, l));
  }

  /** An empty request is not rejected: it records a sale with no items and
      total 0. */
  lemma EmptySale(ps: seq<Product>, sales: seq<Sale>, now: string)
    ensures NewSale(ps, sales, [], now).items == []
    ensures NewSale(ps, sales, [], now).totalAmount == 0.0
  {
  }

  /** `create` ignores the price its callers pass: requests that differ only
      in price record the same sale. */
  lemma SaleIgnoresRequestPrice(ps: seq<Product>, sales: seq<Sale>, a: seq<LineRequest>, b: seq<LineRequest>, now: string)
    requires AllFound(ps, a) && |a| == |b|
    requires forall i :: 0 <= i < |a| ==> a[i].productId == b[i].productId && a[i].quantity == b[i].quantity
    ensures AllFound(ps, b)
    ensures NewSale(ps, sales, a, now) == NewSale(ps, sales, b, now)
  {
    var id := NextSaleId(sales);
    var ia, ib := SaleItems(ps, a, id), SaleItems(ps, b, id);
    forall i | 0 <= i < |a|
      ensures ia[i] == ib[i]
    {
      assert FindProduct(ps, a[i].productId) == FindProduct(ps, b[i].productId);
    }
    assert ia == ib;
  }

  /** The three products a fresh store starts with. */
  function SeedProducts(now: string): seq<Product>
  {
    [ Product(1, "Premium Espresso Beans 1kg", 45.00, "Coffee", Active, now, now),
      Product(2, "Artisan Dark Chocolate", 12.50, "Sweets", Active, now, now),
      Product(3, "Honey Lavender Syrup", 18.00, "Beverages", Active, now, now) ]
  }

  class Store {
    var products: seq<Product>
    var sales: seq<Sale>

    /** Product ids are positive and distinct, sale ids distinct, and every
        recorded sale agrees with its items. */
    ghost predicate Valid()
      reads this
    {
      && UniqueProductIds(products)
      && (forall i :: 0 <= i < |products| ==> products[i].id > 0)
      && UniqueSaleIds(sales)
      && (forall k :: 0 <= k < |sales| ==> Consistent(sales[k]))
    }

    constructor (now: string)
      ensures Valid()
      ensures products == SeedProducts(now) && sales == []
    {
      products := SeedProducts(now);
      sales := [];
    }

    /** `productAPI.getAll`. */
    function GetAll(): (r: seq<Product>)
      reads this
      ensures Valid() ==> UniqueProductIds(r) && forall i :: 0 <= i < |r| ==> r[i].id > 0
    {
      products
    }

    /** `productAPI.getActive`. */
    function GetActive(): (r: seq<Product>)
      reads this
      ensures r == ActiveProducts(products)
    {
      Filter(products, IsActive)
    }

    /** `salesAPI.getAll`: most recent sale first. */
    function GetSales(): (r: seq<Sale>)
      reads this
      ensures Valid() ==> UniqueSaleIds(r) && forall k :: 0 <= k < |r| ==> Consistent(r[k])
    {
      sales
    }

    /** `productAPI.save`: update when the patch carries a truthy id,
        otherwise append a new product. */
    method Save(patch: ProductPatch, now: string)
      requires Valid()
      requires !HasId(patch) ==> Complete(patch)
      modifies this
      ensures Valid()
      ensures sales == old(sales)
      ensures HasId(patch) ==> products == UpdateProducts(old(products), patch, now)
      ensures !HasId(patch) ==>
        products == old(products) + [NewProduct(patch, NextProductId(old(products)), now)]
    {
      if HasId(patch) {
        products := UpdateProducts(products, patch, now);
      } else {
        var p := NewProduct(patch, NextProductId(products), now);
        products := products + [p];
      }
    }

    /** `productAPI.delete`: a soft delete. */
    method Delete(id: int)
      requires Valid()
      modifies this
      ensures Valid()
      ensures sales == old(sales)
      ensures products == Deactivate(old(products), id)
    {
      products := Deactivate(products, id);
    }

    /** `salesAPI.create`. A missing product makes the source throw before
        anything is stored. */
    method CreateSale(lines: seq<LineRequest>, now: string) returns (r: Result<Sale, SaleError>)
      requires Valid()
      modifies this
      ensures Valid()
      ensures products == old(products)
      ensures r.Ok? <==> AllFound(old(products), lines)
      ensures r.Ok? ==>
        r.value == NewSale(old(products), old(sales), lines, now) && sales == [r.value] + old(sales)
      ensures r.Err? ==>
        sales == old(sales) &&
        r.error == ProductNotFound(lines[FirstMissing(old(products), lines)].productId)
    {
      if !AllFound(products, lines) {
        var k := FirstMissing(products, lines);
        return Err(ProductNotFound(lines[k].productId));
      }
      var sale := NewSale(products, sales, lines, now);
      sales := [sale] + sales;
      r := Ok(sale);
    }
  }

  // ----- properties of the catalog operations -----

  /** Saving with an id no product has changes nothing. */
  lemma UpdateUnknownIdIsNoOp(ps: seq<Product>, patch: ProductPatch, now: string)
    requires HasId(patch)
    requires forall i :: 0 <= i < |ps| ==> ps[i].id != patch.id.value
    ensures UpdateProducts(ps, patch, now) == ps
  {
  }

  /** After an update the product is found under its id with the patch's
      fields laid over its old ones and a refreshed modification time. */
  lemma {:induction false} UpdateThenFind(ps: seq<Product>, i: nat, patch: ProductPatch, now: string)
    requires UniqueProductIds(ps) && i < |ps|
    requires HasId(patch) && patch.id.value == ps[i].id
    ensures FindProduct(UpdateProducts(ps, patch, now), ps[i].id) == Some(Merge(ps[i], patch, now))
    ensures Merge(ps[i], patch, now).updatedAt == now
  {
    var r := UpdateProducts(ps, patch, now);
    assert UniqueProductIds(r);
    FindProductUnique(r, i);
  }

  /** A created product gets an id no existing product has, is found under it,
      and is active unless the patch says otherwise. */
  lemma CreateThenFind(ps: seq<Product>, patch: ProductPatch, now: string)
    requires UniqueProductIds(ps) && Complete(patch)
    ensures var p := NewProduct(patch, NextProductId(ps), now);
      && UniqueProductIds(ps + [p])
      && FindProduct(ps + [p], p.id) == Some(p)
      && (patch.status.None? ==> p.status == Active)
  {
    var p := NewProduct(patch, NextProductId(ps), now);
    FindProductUnique(ps + [p], |ps|);
  }

  /** Deleting twice is deleting once. */
  lemma DeactivateIdempotent(ps: seq<Product>, id: int)
    ensures Deactivate(Deactivate(ps, id), id) == Deactivate(ps, id)
  {
  }

  /** Deleting an unknown id changes nothing. */
  lemma DeactivateUnknownIsNoOp(ps: seq<Product>, id: int)
    requires forall i :: 0 <= i < |ps| ==> ps[i].id != id
    ensures Deactivate(ps, id) == ps
  {
  }

  /** A deleted product is still in the catalog, now inactive, with its
      modification time unchanged, and drops out of the active listing. */
  lemma {:induction false} DeactivateThenFind(ps: seq<Product>, i: nat)
    requires UniqueProductIds(ps) && i < |ps|
    ensures var r := Deactivate(ps, ps[i].id);
      && FindProduct(r, ps[i].id) == Some(ps[i].(status := Inactive))
      && ps[i].(status := Inactive) !in ActiveProducts(r)
  {
    var r := Deactivate(ps, ps[i].id);
    assert UniqueProductIds(r);
    FindProductUnique(r, i);
  }
}
