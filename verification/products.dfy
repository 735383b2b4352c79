/** The catalog store (src/lib/stores/products.ts): the product list that
    each mutator replaces with an id-scoped map or filter of it, and the
    lookups and the active and category filters over the current list. */
module Products {
  import opened Wrappers
  import opened Types
  import opened Listing

  /** The fields an update may carry (`Partial<Product>`); for the optional
      `stock` and `minStock`, `Some(None)` clears the field. */
  datatype ProductPatch = ProductPatch(
    id: Option<string>,
    name: Option<string>,
    price: Option<real>,
    category: Option<Category>,
    vatRate: Option<VatRate>,
    stock: Option<Option<int>>,
    minStock: Option<Option<int>>,
    isActive: Option<bool>)

  /** `{ ...p, ...changes }`: every field the patch carries, over `p`. */
  function Patched(p: Product, patch: ProductPatch): (q: Product)
    ensures patch == ProductPatch(None, None, None, None, None, None, None, None) ==> q == p
    ensures if patch.id.Some? then q.id == patch.id.value else q.id == p.id
    ensures if patch.name.Some? then q.name == patch.name.value else q.name == p.name
    ensures if patch.price.Some? then q.price == patch.price.value else q.price == p.price
    ensures if patch.category.Some? then q.category == patch.category.value else q.category == p.category
    ensures if patch.vatRate.Some? then q.vatRate == patch.vatRate.value else q.vatRate == p.vatRate
    ensures if patch.stock.Some? then q.stock == patch.stock.value else q.stock == p.stock
    ensures if patch.minStock.Some? then q.minStock == patch.minStock.value else q.minStock == p.minStock
    ensures if patch.isActive.Some? then q.isActive == patch.isActive.value else q.isActive == p.isActive
  {
    Product(
      patch.id.GetOr(p.id),
      patch.name.GetOr(p.name),
      patch.price.GetOr(p.price),
      patch.category.GetOr(p.category),
      patch.vatRate.GetOr(p.vatRate),
      patch.stock.GetOr(p.stock),
      patch.minStock.GetOr(p.minStock),
      patch.isActive.GetOr(p.isActive))
  }

  /** The test `p.id === id` the mutators scope their change by. */
  function HasId(id: string): Product -> bool {
    (p: Product) => p.id == id
  }

  /** The test `p.id !== id` deletion keeps by. */
  function LacksId(id: string): Product -> bool {
    (p: Product) => p.id != id
  }

  /** `Math.max(0, n)` */
  function AtLeastZero(n: int): (m: nat)
    ensures m >= n && (n >= 0 ==> m == n) && (n < 0 ==> m == 0)
  {
    if n < 0 then 0 else n
  }

  /** `{ ...p, isActive: !p.isActive }` */
  function Toggle(p: Product): (q: Product)
    ensures q.isActive == !p.isActive
    ensures q.(isActive := p.isActive) == p
  {
    p.(isActive := !p.isActive)
  }

  /** The stock moved by `quantity` and clamped at zero; a product whose
      stock is not tracked is left as it is. */
  function StockAdded(p: Product, quantity: int): (q: Product)
    ensures q.stock.Some? <==> p.stock.Some?
    ensures q.stock.Some? ==> q.stock.value >= 0 && q.stock.value >= p.stock.value + quantity
    ensures q.stock.Some? && p.stock.value + quantity >= 0 ==> q.stock.value == p.stock.value + quantity
    ensures q.stock.Some? && p.stock.value + quantity < 0 ==> q.stock.value == 0
    ensures q.(stock := p.stock) == p
  {
    if p.stock.Some? then p.(stock := Some(AtLeastZero(p.stock.value + quantity))) else p
  }

  /** The stock lowered by `quantity` and clamped at zero; a product whose
      stock is not tracked is left as it is. */
  function StockTaken(p: Product, quantity: int): Product {
    if p.stock.Some? then p.(stock := Some(AtLeastZero(p.stock.value - quantity))) else p
  }

  // ---------------------------------------------------------------------------
  // The list after each mutator

  function Updated(ps: seq<Product>, id: string, patch: ProductPatch): seq<Product> {
    MapWhere(ps, HasId(id), p => Patched(p, patch))
  }

  function Toggled(ps: seq<Product>, id: string): seq<Product> {
    MapWhere(ps, HasId(id), Toggle)
  }

  function StockUpdated(ps: seq<Product>, id: string, quantity: int): seq<Product> {
    MapWhere(ps, HasId(id), p => StockAdded(p, quantity))
  }

  function StockDecremented(ps: seq<Product>, id: string, quantity: int): seq<Product> {
    MapWhere(ps, HasId(id), p => StockTaken(p, quantity))
  }

  /** `products.filter(p => p.id !== id)` */
  function Deleted(ps: seq<Product>, id: string): seq<Product> {
    Where(ps, LacksId(id))
  }

  /** An update changes only the products with the identifier, and only the
      fields the patch carries; the list keeps its length and order. */
  lemma UpdateScoped(ps: seq<Product>, id: string, patch: ProductPatch)
    ensures |Updated(ps, id, patch)| == |ps|
    ensures forall i :: 0 <= i < |ps| && ps[i].id != id ==> Updated(ps, id, patch)[i] == ps[i]
    ensures forall i :: 0 <= i < |ps| && ps[i].id == id ==> Updated(ps, id, patch)[i] == Patched(ps[i], patch)
  {
  }

  /** Toggling flips `isActive` of the matching products only, and toggling
      twice gives the list back. */
  lemma ToggleTwice(ps: seq<Product>, id: string)
    ensures forall i :: 0 <= i < |ps| ==>
      Toggled(ps, id)[i].isActive == (if ps[i].id == id then !ps[i].isActive else ps[i].isActive)
    ensures Toggled(Toggled(ps, id), id) == ps
  {
    var once := Toggled(ps, id);
    var twice := Toggled(once, id);
    assert forall i :: 0 <= i < |ps| ==> twice[i] == ps[i];
  }

  /** After a stock update every touched stock is at least zero, products
      without a tracked stock and products with another identifier are
      unchanged. */
  lemma StockUpdateClamped(ps: seq<Product>, id: string, quantity: int)
    ensures |StockUpdated(ps, id, quantity)| == |ps|
    ensures forall i :: 0 <= i < |ps| && ps[i].id == id && ps[i].stock.Some? ==>
      StockUpdated(ps, id, quantity)[i].stock == Some(AtLeastZero(ps[i].stock.value + quantity))
    ensures forall i :: 0 <= i < |ps| && (ps[i].id != id || ps[i].stock.None?) ==>
      StockUpdated(ps, id, quantity)[i] == ps[i]
    ensures (forall i :: 0 <= i < |ps| && ps[i].stock.Some? ==> ps[i].stock.value >= 0) ==>
      forall i :: 0 <= i < |ps| && StockUpdated(ps, id, quantity)[i].stock.Some? ==>
        StockUpdated(ps, id, quantity)[i].stock.value >= 0
  {
  }

  /** Taking `quantity` off the stock is adding `-quantity` to it. */
  lemma DecrementIsNegativeUpdate(ps: seq<Product>, id: string, quantity: int)
    ensures StockDecremented(ps, id, quantity) == StockUpdated(ps, id, -quantity)
  {
    var a, b := StockDecremented(ps, id, quantity), StockUpdated(ps, id, -quantity);
    assert forall i :: 0 <= i < |ps| ==> a[i] == b[i];
  }

  /** Deletion removes every product with the identifier and only those,
      and keeps the others in their order: deleting from a concatenation
      deletes from each part. */
  lemma DeleteScoped(ps: seq<Product>, more: seq<Product>, id: string)
    ensures forall p :: p in Deleted(ps, id) <==> p in ps && p.id != id
    ensures (forall k :: 0 <= k < |ps| ==> ps[k].id != id) ==> Deleted(ps, id) == ps
    ensures Deleted(ps + more, id) == Deleted(ps, id) + Deleted(more, id)
  {
    WhereSplit(ps, more, LacksId(id));
  }

  // ---------------------------------------------------------------------------
  // Lookups and filters

  /** `getById`: the first product with the identifier, or none. */
  function GetById(ps: seq<Product>, id: string): (r: Option<Product>)
    ensures r.None? <==> forall j :: 0 <= j < |ps| ==> ps[j].id != id
    ensures r.Some? ==> exists k :: 0 <= k < |ps| && ps[k] == r.value && r.value.id == id
                                   && forall j :: 0 <= j < k ==> ps[j].id != id
  {
    var k := FirstWhere(ps, HasId(id));
    if k < |ps| then Some(ps[k]) else None
  }

  predicate IsActive(p: Product) {
    p.isActive
  }

  function InCategory(category: Category): Product -> bool {
    (p: Product) => p.category == category
  }

  function ActiveIn(category: Category): Product -> bool {
    (p: Product) => p.category == category && p.isActive
  }

  /** `activeProducts` */
  function ActiveProducts(ps: seq<Product>): seq<Product> {
    Where(ps, IsActive)
  }

  /** `getByCategory`: the active products of the category. */
  function GetByCategory(ps: seq<Product>, category: Category): seq<Product> {
    Where(ps, ActiveIn(category))
  }

  /** The category picker's value. */
  datatype CategoryFilter = AllCategories | OnlyCategory(category: Category)

  /** `filteredProducts`: the active products, narrowed to a category when
      one is selected. */
  function FilteredProducts(ps: seq<Product>, filter: CategoryFilter): seq<Product> {
    match filter
    case AllCategories => ActiveProducts(ps)
    case OnlyCategory(c) => Where(ActiveProducts(ps), InCategory(c))
  }

  /** Only active products are listed, every active one when all categories
      are selected; with one category selected the list is exactly
      `getByCategory`, in the same order. */
  lemma FilteredIsGetByCategory(ps: seq<Product>, category: Category)
    ensures forall p :: p in FilteredProducts(ps, AllCategories) <==> p in ps && p.isActive
    ensures FilteredProducts(ps, OnlyCategory(category)) == GetByCategory(ps, category)
    ensures forall p :: p in GetByCategory(ps, category) <==> p in ps && p.isActive && p.category == category
  {
    WhereWhere(ps, IsActive, InCategory(category), ActiveIn(category));
  }

  // ---------------------------------------------------------------------------
  // The store

  /** The catalog store. `defaults` stands for the default catalog the store
      starts from and resets to. */
  class ProductsStore {
    var products: seq<Product>
    const defaults: seq<Product>

    /** Starts from the saved catalog when there is one, else the defaults. */
    constructor(saved: Option<seq<Product>>, defaults: seq<Product>)
      ensures this.defaults == defaults
      ensures products == saved.GetOr(defaults)
    {
      this.defaults := defaults;
      products := saved.GetOr(defaults);
    }

    /** `add`: the product, under the fresh identifier `id`, goes at the end. */
    method Add(product: Product, id: string)
      modifies this
      ensures products == old(products) + [product.(id := id)]
    {
      products := products + [product.(id := id)];
    }

    method Update(id: string, patch: ProductPatch)
      modifies this
      ensures products == Updated(old(products), id, patch)
    {
      products := Updated(products, id, patch);
    }

    method Delete(id: string)
      modifies this
      ensures products == Deleted(old(products), id)
    {
      products := Deleted(products, id);
    }

    method ToggleActive(id: string)
      modifies this
      ensures products == Toggled(old(products), id)
    {
      products := Toggled(products, id);
    }

    method UpdateStock(id: string, quantity: int)
      modifies this
      ensures products == StockUpdated(old(products), id, quantity)
    {
      products := StockUpdated(products, id, quantity);
    }

    /** `decrementStock`, whose quantity defaults to one unit. */
    method DecrementStock(id: string, quantity: int := 1)
      modifies this
      ensures products == StockDecremented(old(products), id, quantity)
    {
      products := StockDecremented(products, id, quantity);
    }

    method Reset()
      modifies this
      ensures products == defaults
    {
      products := defaults;
    }
  }
}
