/** The `categories` and `products` cache tables of the Room database and the
    ProductDao over them. Both tables have a TEXT primary key `id`; each is a
    sequence of rows in rowid order (see module Tables). A query without
    ORDER BY returns its rows in rowid order here, the order of SQLite's
    full scan. */
module ProductStore {
  import opened Outcomes
  import opened Models
  import Seqs
  import Tables

  function CategoryKey(e: CategoryEntity): string { e.id }
  function ProductKey(e: ProductEntity): string { e.id }

  datatype Cache = Cache(categories: seq<CategoryEntity>, products: seq<ProductEntity>)

  ghost predicate Consistent(c: Cache)
  {
    Tables.UniqueKeys(c.categories, CategoryKey) && Tables.UniqueKeys(c.products, ProductKey)
  }

  // ---- the read queries ----

  /** `ORDER BY displayOrder ASC`. */
  predicate DisplayOrderLe(a: CategoryEntity, b: CategoryEntity)
  {
    a.displayOrder <= b.displayOrder
  }

  /** `getAllCategories`: the active categories, by ascending display order. */
  function GetAllCategories(c: Cache): (r: seq<CategoryEntity>)
    ensures forall x :: x in r <==> x in c.categories && x.isActive
    ensures forall i, j :: 0 <= i < j < |r| ==> r[i].displayOrder <= r[j].displayOrder
    ensures multiset(r) == multiset(Seqs.Filter(c.categories, (x: CategoryEntity) => x.isActive))
  {
    var f := Seqs.Filter(c.categories, (x: CategoryEntity) => x.isActive);
    var r := Seqs.SortBy(f, DisplayOrderLe);
    r
  }

  /** `getCategoryById`. */
  function GetCategoryById(c: Cache, id: string): (r: Option<CategoryEntity>)
    ensures r.Some? ==> r.value in c.categories && r.value.id == id
    ensures r.None? <==> forall x :: x in c.categories ==> x.id != id
  {
    Tables.Lookup(c.categories, CategoryKey, id)
  }

  /** `getAllAvailableProducts`: the currently available products. */
  function GetAllAvailableProducts(c: Cache): (r: seq<ProductEntity>)
    ensures forall x :: x in r <==> x in c.products && x.isCurrentlyAvailable
    ensures Seqs.SubsequenceOf(r, c.products)
  {
    Seqs.Filter(c.products, (x: ProductEntity) => x.isCurrentlyAvailable)
  }

  /** `getProductsByCategory`: the currently available products of one
      category. */
  function GetProductsByCategory(c: Cache, categoryId: string): (r: seq<ProductEntity>)
    ensures forall x :: x in r <==> x in c.products && x.categoryId == categoryId && x.isCurrentlyAvailable
    ensures Seqs.SubsequenceOf(r, c.products)
  {
    Seqs.Filter(c.products, (x: ProductEntity) => x.categoryId == categoryId && x.isCurrentlyAvailable)
  }

  /** `getProductById`: the row whatever its availability. */
  function GetProductById(c: Cache, id: string): (r: Option<ProductEntity>)
    ensures r.Some? ==> r.value in c.products && r.value.id == id
    ensures r.None? <==> forall x :: x in c.products ==> x.id != id
  {
    Tables.Lookup(c.products, ProductKey, id)
  }

  // ---- effects of the write queries ----

  /** `insertCategories` (REPLACE): each id gets the batch's last row for it;
      categories missing from the batch stay. */
  lemma InsertCategoriesSpec(c: Cache, batch: seq<CategoryEntity>, k: string)
    requires Consistent(c)
    ensures Consistent(c.(categories := Tables.UpsertAll(c.categories, CategoryKey, batch)))
    ensures GetCategoryById(c.(categories := Tables.UpsertAll(c.categories, CategoryKey, batch)), k) ==
            (if Tables.LastWithKey(batch, CategoryKey, k).Some? then Tables.LastWithKey(batch, CategoryKey, k)
             else GetCategoryById(c, k))
  {
    Tables.UpsertAllSpec(c.categories, CategoryKey, batch, k);
  }

  /** `insertProducts` (REPLACE): each id gets the batch's last row for it;
      products missing from the batch stay. */
  lemma InsertProductsSpec(c: Cache, batch: seq<ProductEntity>, k: string)
    requires Consistent(c)
    ensures Consistent(c.(products := Tables.UpsertAll(c.products, ProductKey, batch)))
    ensures GetProductById(c.(products := Tables.UpsertAll(c.products, ProductKey, batch)), k) ==
            (if Tables.LastWithKey(batch, ProductKey, k).Some? then Tables.LastWithKey(batch, ProductKey, k)
             else GetProductById(c, k))
  {
    Tables.UpsertAllSpec(c.products, ProductKey, batch, k);
  }

  /** The ProductDao. Each write takes a `fault` flag standing for an SQLite
      error; a list insert runs in one transaction, so a fault leaves the
      table as it was. */
  class ProductDao {
    var categories: seq<CategoryEntity>
    var products: seq<ProductEntity>

    function State(): Cache
      reads this
    {
      Cache(categories, products)
    }

    ghost predicate Valid()
      reads this
    {
      Consistent(State())
    }

    constructor()
      ensures Valid()
      ensures State() == Cache([], [])
    {
      categories, products := [], [];
    }

    /** `insertCategories`. */
    method InsertCategories(batch: seq<CategoryEntity>, fault: bool) returns (ok: bool)
      requires Valid()
      modifies this
      ensures Valid()
      ensures ok == !fault
      ensures products == old(products)
      ensures categories == if ok then Tables.UpsertAll(old(categories), CategoryKey, batch) else old(categories)
    {
      if fault {
        return false;
      }
      InsertCategoriesSpec(State(), batch, "");
      categories := Tables.UpsertAll(categories, CategoryKey, batch);
      ok := true;
    }

    /** `insertProducts`. */
    method InsertProducts(batch: seq<ProductEntity>, fault: bool) returns (ok: bool)
      requires Valid()
      modifies this
      ensures Valid()
      ensures ok == !fault
      ensures categories == old(categories)
      ensures products == if ok then Tables.UpsertAll(old(products), ProductKey, batch) else old(products)
    {
      if fault {
        return false;
      }
      InsertProductsSpec(State(), batch, "");
      products := Tables.UpsertAll(products, ProductKey, batch);
      ok := true;
    }

    /** `deleteAllProducts`: empties the products table only. */
    method DeleteAllProducts(fault: bool) returns (ok: bool)
      requires Valid()
      modifies this
      ensures Valid()
      ensures ok == !fault
      ensures categories == old(categories)
      ensures products == if ok then [] else old(products)
    {
      if fault {
        return false;
      }
      products := [];
      ok := true;
    }

    /** `deleteAllCategories`: empties the categories table only. */
    method DeleteAllCategories(fault: bool) returns (ok: bool)
      requires Valid()
      modifies this
      ensures Valid()
      ensures ok == !fault
      ensures products == old(products)
      ensures categories == if ok then [] else old(categories)
    {
      if fault {
        return false;
      }
      categories := [];
      ok := true;
    }
  }
}
