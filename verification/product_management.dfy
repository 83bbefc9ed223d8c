/** The inventory screen: the full catalog with a search box, a form that
    creates a product ("New Item") or edits an existing one, and a delete
    button that, once confirmed, archives the product. */
module ProductManagement {
  import opened Wrappers
  import opened Seqs
  import opened Types
  import opened Db

  /** The listed products: those whose name or category contains the search
      term, ignoring case, in catalog order; inactive products included. */
  function FilteredProducts(ps: seq<Product>, term: string): (r: seq<Product>)
    ensures |r| <= |ps|
    ensures forall i :: 0 <= i < |r| ==> r[i] in ps && MatchesNameOrCategory(r[i], term)
    ensures forall i :: 0 <= i < |ps| && MatchesNameOrCategory(ps[i], term) ==> ps[i] in r
    ensures Selects(r, ps, MatchesTermOf(term))
  {
    FilterSelects(ps, MatchesTermOf(term));
    Filter(ps, MatchesTermOf(term))
  }

  /** An empty search box lists the whole catalog. */
  lemma EmptySearchListsAll(ps: seq<Product>)
    ensures FilteredProducts(ps, "") == ps
  {
    forall i | 0 <= i < |ps| ensures MatchesTermOf("")(ps[i]) {
      EmptyTermMatches(ps[i]);
    }
    FilterKeepsAll(ps, MatchesTermOf(""));
  }

  // ----- the form -----

  /** What the submitted form holds: the three required inputs, the price
      already read as a number, and the status selector. */
  datatype ProductForm = ProductForm(name: string, price: real, category: string, status: Status)

  /** The product being edited, as a patch carrying every one of its fields. */
  function PatchOf(p: Product): (r: ProductPatch)
    ensures Complete(r)
    ensures HasId(r) <==> p.id != 0
    ensures r.id == Some(p.id) && r.status == Some(p.status) && r.createdAt == Some(p.createdAt)
  {
    ProductPatch(Some(p.id), Some(p.name), Some(p.price), Some(p.category),
                 Some(p.status), Some(p.createdAt), Some(p.updatedAt))
  }

  /** What is saved: the product being edited with the form's four fields laid
      over it. Nothing being edited spreads as no fields at all. */
  function FormPatch(editing: Option<ProductPatch>, form: ProductForm): (r: ProductPatch)
    ensures Complete(r)
    ensures r.name == Some(form.name) && r.price == Some(form.price)
    ensures r.category == Some(form.category) && r.status == Some(form.status)
    ensures editing.None? ==> !HasId(r)
    ensures editing.Some? ==> r.id == editing.value.id && r.createdAt == editing.value.createdAt
  {
    var base := editing.GetOr(EmptyPatch);
    base.(name := Some(form.name), price := Some(form.price),
          category := Some(form.category), status := Some(form.status))
  }

  /** The status the selector starts at: the edited product's, else active. */
  function FormDefaultStatus(editing: Option<ProductPatch>): (s: Status)
    ensures editing.Some? && editing.value.status.Some? ==> s == editing.value.status.value
    ensures editing.None? || editing.value.status.None? ==> s == Active
  {
    if editing.Some? then editing.value.status.GetOr(Active) else Active
  }

  /** Saving the form for an existing product (a non-zero id) updates that
      product in place: afterwards it carries the form's fields, its own id and
      creation time, and the save time as its modification time. */
  lemma EditSavesForm(ps: seq<Product>, i: nat, form: ProductForm, now: string)
    requires UniqueProductIds(ps) && i < |ps| && ps[i].id != 0
    ensures HasId(FormPatch(Some(PatchOf(ps[i])), form))
    ensures FindProduct(UpdateProducts(ps, FormPatch(Some(PatchOf(ps[i])), form), now), ps[i].id) ==
            Some(ps[i].(name := form.name, price := form.price, category := form.category,
                        status := form.status, updatedAt := now))
  {
    UpdateThenFind(ps, i, FormPatch(Some(PatchOf(ps[i])), form), now);
  }

  /** Saving the form of a new item creates a product with the next free id,
      the form's fields, and the save time as both of its timestamps. */
  lemma NewItemSavesForm(ps: seq<Product>, form: ProductForm, now: string)
    ensures !HasId(FormPatch(Some(EmptyPatch), form))
    ensures NewProduct(FormPatch(Some(EmptyPatch), form), NextProductId(ps), now) ==
            Product(NextProductId(ps), form.name, form.price, form.category, form.status, now, now)
    ensures forall i :: 0 <= i < |ps| ==> ps[i].id != NextProductId(ps)
  {
  }

  // ----- the screen -----

  /** The inventory screen's state: the loaded catalog, the search box, whether
      the form is open and what it edits (`None` when nothing is). */
  class InventoryScreen {
    var products: seq<Product>
    var searchTerm: string
    var modalOpen: bool
    var editing: Option<ProductPatch>

    constructor()
      ensures products == [] && searchTerm == "" && !modalOpen && editing.None?
    {
      products := [];
      searchTerm := "";
      modalOpen := false;
      editing := None;
    }

    /** The products the list shows. */
    function Listed(): (r: seq<Product>)
      reads this
      ensures forall i :: 0 <= i < |r| ==> r[i] in products && MatchesNameOrCategory(r[i], searchTerm)
      ensures forall i :: 0 <= i < |products| && MatchesNameOrCategory(products[i], searchTerm) ==> products[i] in r
      ensures Selects(r, products, MatchesTermOf(searchTerm))
    {
      FilteredProducts(products, searchTerm)
    }

    /** Reloads the whole catalog, inactive products included. */
    method Load(store: Store)
      modifies this
      ensures products == store.products
      ensures searchTerm == old(searchTerm) && modalOpen == old(modalOpen) && editing == old(editing)
    {
      products := store.GetAll();
    }

    method SetSearchTerm(term: string)
      modifies this
      ensures searchTerm == term
      ensures products == old(products) && modalOpen == old(modalOpen) && editing == old(editing)
    {
      searchTerm := term;
    }

    /** "New Item": opens an empty form, which will create a product. */
    method StartNew()
      modifies this
      ensures modalOpen && editing == Some(EmptyPatch)
      ensures FormDefaultStatus(editing) == Active
      ensures products == old(products) && searchTerm == old(searchTerm)
    {
      editing := Some(EmptyPatch);
      modalOpen := true;
    }

    /** The edit button of a row: opens the form on that product. */
    method StartEdit(p: Product)
      modifies this
      ensures modalOpen && editing == Some(PatchOf(p))
      ensures FormDefaultStatus(editing) == p.status
      ensures products == old(products) && searchTerm == old(searchTerm)
    {
      editing := Some(PatchOf(p));
      modalOpen := true;
    }

    /** The close button: hides the form but keeps what it was editing. */
    method CloseModal()
      modifies this
      ensures !modalOpen
      ensures editing == old(editing) && products == old(products) && searchTerm == old(searchTerm)
    {
      modalOpen := false;
    }

    /** Submitting the form saves the edited product with the form's fields
        (an update when it has a non-zero id, a new product otherwise), reloads
        the catalog and closes the form. */
    method HandleSave(store: Store, form: ProductForm, now: string)
      requires store.Valid()
      modifies this, store
      ensures store.Valid()
      ensures store.sales == old(store.sales)
      ensures var patch := FormPatch(old(editing), form);
        if HasId(patch) then store.products == UpdateProducts(old(store.products), patch, now)
        else store.products == old(store.products) + [NewProduct(patch, NextProductId(old(store.products)), now)]
      ensures products == store.products
      ensures !modalOpen && editing.None? && searchTerm == old(searchTerm)
    {
      var patch := FormPatch(editing, form);
      store.Save(patch, now);
      products := store.GetAll();
      modalOpen := false;
      editing := None;
    }

    /** The delete button of a row: when confirmed, archives the product and
        reloads the catalog; otherwise nothing changes. */
    method HandleDelete(store: Store, id: int, confirmed: bool)
      requires store.Valid()
      modifies this, store
      ensures store.Valid()
      ensures store.sales == old(store.sales)
      ensures confirmed ==> store.products == Deactivate(old(store.products), id) && products == store.products
      ensures !confirmed ==> store.products == old(store.products) && products == old(products)
      ensures searchTerm == old(searchTerm) && modalOpen == old(modalOpen) && editing == old(editing)
    {
      if confirmed {
        store.Delete(id);
        products := store.GetAll();
      }
    }
  }
}
