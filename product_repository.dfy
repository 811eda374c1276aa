/** ProductRepositoryImpl: a read-through cache of categories and products.
    A remote success refreshes the cache; only a missing connection falls
    back to the cached rows; an HTTP or other network error neither reads
    nor writes the cache.

    Prices are integers in cents: the server's prices carry two decimals. */
module ProductRepository {
  import opened Outcomes
  import opened Models
  import opened Money
  import Tables
  import opened ProductStore

  // ---- entity <-> model mapping ----

  function ToCategoryEntity(c: Category): CategoryEntity
  {
    CategoryEntity(c.id, c.name, c.displayOrder, c.isActive)
  }

  /** A cached category comes back without its product count. */
  function FromCategoryEntity(e: CategoryEntity): (c: Category)
    ensures ToCategoryEntity(c) == e
    ensures c.productCount == None
  {
    Category(e.id, e.name, e.displayOrder, e.isActive, None)
  }

  function ToProductEntity(p: Product): ProductEntity
  {
    ProductEntity(p.id, p.name, p.category.id, p.category.name, p.pricePer100g,
                  p.isAvailable, p.isCurrentlyAvailable, p.isSeasonal)
  }

  /** Reading a cached product back gives the row's every column. */
  function FromProductEntity(e: ProductEntity): (p: Product)
    ensures ToProductEntity(p) == e
  {
    Product(e.id, e.name, CategoryShort(e.categoryId, e.categoryName), e.pricePer100g,
            e.isAvailable, e.isCurrentlyAvailable, e.isSeasonal)
  }

  /** Caching a product and reading it back gives the same product: id,
      name, category id and name, price and the three flags. A category
      loses only its product count. */
  lemma MappingRoundTrip(p: Product, c: Category)
    ensures FromProductEntity(ToProductEntity(p)) == p
    ensures FromCategoryEntity(ToCategoryEntity(c)) == c.(productCount := None)
  {
  }

  function ToCategoryEntities(cs: seq<Category>): (r: seq<CategoryEntity>)
    ensures |r| == |cs|
    ensures forall i :: 0 <= i < |cs| ==> r[i] == ToCategoryEntity(cs[i])
  {
    seq(|cs|, i requires 0 <= i < |cs| => ToCategoryEntity(cs[i]))
  }

  function FromCategoryEntities(es: seq<CategoryEntity>): (r: seq<Category>)
    ensures |r| == |es|
    ensures forall i :: 0 <= i < |es| ==> r[i] == FromCategoryEntity(es[i])
  {
    seq(|es|, i requires 0 <= i < |es| => FromCategoryEntity(es[i]))
  }

  function ToProductEntities(ps: seq<Product>): (r: seq<ProductEntity>)
    ensures |r| == |ps|
    ensures forall i :: 0 <= i < |ps| ==> r[i] == ToProductEntity(ps[i])
  {
    seq(|ps|, i requires 0 <= i < |ps| => ToProductEntity(ps[i]))
  }

  function FromProductEntities(es: seq<ProductEntity>): (r: seq<Product>)
    ensures |r| == |es|
    ensures forall i :: 0 <= i < |es| ==> r[i] == FromProductEntity(es[i])
  {
    seq(|es|, i requires 0 <= i < |es| => FromProductEntity(es[i]))
  }

  // ---- the local price formula ----

  /** `pricePer100g * weightGrams.toBigDecimal() / 100.toBigDecimal()`: the
      product has the price's scale (two decimals) and the division keeps it,
      rounding HALF_EVEN. The result is the cent nearest to the exact price,
      ties to the even cent. */
  function LocalTotalPrice(pricePer100g: int, weightGrams: int): (c: int)
    ensures 2 * Abs(pricePer100g * weightGrams - 100 * c) <= 100
    ensures 2 * Abs(pricePer100g * weightGrams - 100 * c) == 100 ==> c % 2 == 0
  {
    RoundHalfEven(pricePer100g * weightGrams, 100)
  }

  /** A whole number of 100 g portions is priced exactly. */
  lemma LocalTotalPriceExact(pricePer100g: int, weightGrams: int)
    requires weightGrams % 100 == 0
    ensures LocalTotalPrice(pricePer100g, weightGrams) == pricePer100g * (weightGrams / 100)
  {
    var k := pricePer100g * (weightGrams / 100);
    assert pricePer100g * weightGrams == 100 * k by {
      assert weightGrams == 100 * (weightGrams / 100);
    }
    NearestExact(k, 100, LocalTotalPrice(pricePer100g, weightGrams));
  }

  /** A non-negative price and weight give a non-negative total. */
  lemma LocalTotalPriceNonNegative(pricePer100g: int, weightGrams: int)
    requires pricePer100g >= 0 && weightGrams >= 0
    ensures LocalTotalPrice(pricePer100g, weightGrams) >= 0
  {
    NearestAtLeast(pricePer100g * weightGrams, 100, LocalTotalPrice(pricePer100g, weightGrams), 0);
  }

  // ---- the repository ----

  class ProductRepositoryImpl {
    const dao: ProductDao

    constructor(dao: ProductDao)
      ensures this.dao == dao
    {
      this.dao := dao;
    }

    /** `getCategories`. A failing cache write turns a remote success into
        the "unexpected error" outcome. */
    method GetCategories(reply: RemoteOutcome<seq<Category>>, insertFault: bool, readFault: bool)
      returns (r: FlowEnd<seq<Category>>)
      requires dao.Valid()
      modifies dao
      ensures dao.Valid()
      ensures dao.products == old(dao.products)
      ensures reply.Ok? ==>
                && r == Emits(if insertFault then Error(Some(Unexpected)) else Success(reply.value))
                && dao.categories == if insertFault then old(dao.categories)
                                     else Tables.UpsertAll(old(dao.categories), CategoryKey, ToCategoryEntities(reply.value))
      ensures !reply.Ok? ==> dao.State() == old(dao.State())
      ensures reply.NoConnectivity? && readFault ==> r == Throws
      ensures reply.NoConnectivity? && !readFault ==>
                var cached := GetAllCategories(old(dao.State()));
                r == Emits(if cached != [] then Success(FromCategoryEntities(cached)) else Error(Some(NoConnection)))
      ensures reply.Http? ==> r == Emits(Error(Some(ServerError(reply.code))))
      ensures reply.Io? ==> r == Emits(Error(Some(NetworkError)))
      ensures reply.Other? ==> r == Emits(Error(Some(Unexpected)))
    {
      match reply {
        case Ok(categories) =>
          var ok := dao.InsertCategories(ToCategoryEntities(categories), insertFault);
          r := Emits(if ok then Success(categories) else Error(Some(Unexpected)));
        case NoConnectivity =>
          if readFault {
            return Throws;
          }
          var cached := GetAllCategories(dao.State());
          r := Emits(if cached != [] then Success(FromCategoryEntities(cached)) else Error(Some(NoConnection)));
        case Http(code) =>
          r := Emits(Error(Some(ServerError(code))));
        case Io =>
          r := Emits(Error(Some(NetworkError)));
        case Other =>
          r := Emits(Error(Some(Unexpected)));
      }
    }

    /** `getAvailableProducts`, optionally for one category. */
    method GetAvailableProducts(categoryId: Option<string>, reply: RemoteOutcome<seq<Product>>, insertFault: bool,
                                readFault: bool)
      returns (r: FlowEnd<seq<Product>>)
      requires dao.Valid()
      modifies dao
      ensures dao.Valid()
      ensures dao.categories == old(dao.categories)
      ensures reply.Ok? ==>
                && r == Emits(if insertFault then Error(Some(Unexpected)) else Success(reply.value))
                && dao.products == if insertFault then old(dao.products)
                                   else Tables.UpsertAll(old(dao.products), ProductKey, ToProductEntities(reply.value))
      ensures !reply.Ok? ==> dao.State() == old(dao.State())
      ensures reply.NoConnectivity? && readFault ==> r == Throws
      ensures reply.NoConnectivity? && !readFault ==>
                var cached := match categoryId
                              case Some(id) => GetProductsByCategory(old(dao.State()), id)
                              case None => GetAllAvailableProducts(old(dao.State()));
                r == Emits(if cached != [] then Success(FromProductEntities(cached)) else Error(Some(NoConnection)))
      ensures reply.Http? ==> r == Emits(Error(Some(ServerError(reply.code))))
      ensures reply.Io? ==> r == Emits(Error(Some(NetworkError)))
      ensures reply.Other? ==> r == Emits(Error(Some(Unexpected)))
    {
      match reply {
        case Ok(products) =>
          var ok := dao.InsertProducts(ToProductEntities(products), insertFault);
          r := Emits(if ok then Success(products) else Error(Some(Unexpected)));
        case NoConnectivity =>
          if readFault {
            return Throws;
          }
          var cached := match categoryId
                        case Some(id) => GetProductsByCategory(dao.State(), id)
                        case None => GetAllAvailableProducts(dao.State());
          r := Emits(if cached != [] then Success(FromProductEntities(cached)) else Error(Some(NoConnection)));
        case Http(code) =>
          r := Emits(Error(Some(ServerError(code))));
        case Io =>
          r := Emits(Error(Some(NetworkError)));
        case Other =>
          r := Emits(Error(Some(Unexpected)));
      }
    }

    /** `getProductById`: never writes the cache. */
    method GetProductById(productId: string, reply: RemoteOutcome<Product>, readFault: bool)
      returns (r: FlowEnd<Product>)
      requires dao.Valid()
      ensures reply.Ok? ==> r == Emits(Success(reply.value))
      ensures reply.NoConnectivity? && readFault ==> r == Throws
      ensures reply.NoConnectivity? && !readFault ==>
                r == Emits(match ProductStore.GetProductById(dao.State(), productId)
                           case Some(e) => Success(FromProductEntity(e))
                           case None => Error(Some(ProductNotFound)))
      ensures reply.Http? ==> r == Emits(Error(Some(if reply.code == 404 then ProductNotFound else ServerError(reply.code))))
      ensures (reply.Io? || reply.Other?) ==> r == Emits(Error(Some(Failed)))
    {
      match reply {
        case Ok(product) =>
          r := Emits(Success(product));
        case NoConnectivity =>
          if readFault {
            return Throws;
          }
          var cached := ProductStore.GetProductById(dao.State(), productId);
          r := Emits(if cached.Some? then Success(FromProductEntity(cached.value)) else Error(Some(ProductNotFound)));
        case Http(code) =>
          r := Emits(Error(Some(if code == 404 then ProductNotFound else ServerError(code))));
        case _ =>
          r := Emits(Error(Some(Failed)));
      }
    }

    /** `calculatePrice`: the server's price, or offline the local formula
        over the cached price. */
    method CalculatePrice(productId: string, weightGrams: int, reply: RemoteOutcome<PriceCalculationResponse>,
                          readFault: bool)
      returns (r: FlowEnd<PriceCalculationResponse>)
      requires dao.Valid()
      ensures reply.Ok? ==> r == Emits(Success(reply.value))
      ensures reply.NoConnectivity? && readFault ==> r == Throws
      ensures reply.NoConnectivity? && !readFault ==>
                r == Emits(match ProductStore.GetProductById(dao.State(), productId)
                           case Some(e) => Success(PriceCalculationResponse(e.id, e.name, e.pricePer100g, weightGrams,
                                                                            LocalTotalPrice(e.pricePer100g, weightGrams)))
                           case None => Error(Some(ProductNotFound)))
      ensures reply.Http? ==> r == Emits(Error(Some(PriceCalculationFailed)))
      ensures (reply.Io? || reply.Other?) ==> r == Emits(Error(Some(Failed)))
    {
      match reply {
        case Ok(response) =>
          r := Emits(Success(response));
        case NoConnectivity =>
          if readFault {
            return Throws;
          }
          var cached := ProductStore.GetProductById(dao.State(), productId);
          if cached.Some? {
            var e := cached.value;
            r := Emits(Success(PriceCalculationResponse(e.id, e.name, e.pricePer100g, weightGrams,
                                                        LocalTotalPrice(e.pricePer100g, weightGrams))));
          } else {
            r := Emits(Error(Some(ProductNotFound)));
          }
        case Http(_) =>
          r := Emits(Error(Some(PriceCalculationFailed)));
        case _ =>
          r := Emits(Error(Some(Failed)));
      }
    }

    /** `syncProducts`: both lists are fetched before anything is written,
        then categories and products are upserted in that order. Every
        failure is swallowed. */
    method SyncProducts(categoriesReply: RemoteOutcome<seq<Category>>, productsReply: RemoteOutcome<seq<Product>>,
                        categoriesFault: bool, productsFault: bool)
      requires dao.Valid()
      modifies dao
      ensures dao.Valid()
      ensures !(categoriesReply.Ok? && productsReply.Ok?) ==> dao.State() == old(dao.State())
      ensures categoriesReply.Ok? && productsReply.Ok? ==>
                && dao.categories == (if categoriesFault then old(dao.categories)
                                      else Tables.UpsertAll(old(dao.categories), CategoryKey, ToCategoryEntities(categoriesReply.value)))
                && dao.products == (if categoriesFault || productsFault then old(dao.products)
                                    else Tables.UpsertAll(old(dao.products), ProductKey, ToProductEntities(productsReply.value)))
    {
      if !categoriesReply.Ok? {
        return;
      }
      if !productsReply.Ok? {
        return;
      }
      var ok := dao.InsertCategories(ToCategoryEntities(categoriesReply.value), categoriesFault);
      if ok {
        ok := dao.InsertProducts(ToProductEntities(productsReply.value), productsFault);
      }
    }
  }
}
