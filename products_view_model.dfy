/** ProductsViewModel: the catalogue screen. It holds the categories and the
    products last loaded, the search query and the products it lets
    through, the product picked for weighing, and the cart being built. A
    repository call is modelled by the one terminal value it emits, given as
    a parameter. */
module ProductsViewModel {
  import opened Outcomes
  import opened Models
  import Seqs
  import Text

  datatype ProductsUiState = ProductsUiState(
    categories: seq<Category>,
    selectedCategory: Option<Category>,
    allProducts: seq<Product>,
    filteredProducts: seq<Product>,
    searchQuery: string,
    selectedProduct: Option<Product>,
    isLoading: bool,
    isCalculatingPrice: bool,
    error: Option<Msg>)

  const InitialState := ProductsUiState([], None, [], [], "", None, false, false, None)

  // ---- filterProducts ----

  /** A lowercased query found in the lowercased product name or category
      name. */
  predicate MatchesQuery(p: Product, lowered: string)
  {
    Text.Contains(Text.Lowercase(p.name), lowered) || Text.Contains(Text.Lowercase(p.category.name), lowered)
  }

  /** `filterProducts`: an empty query lets every product through; any
      other keeps, in their order, the products it matches ignoring case. */
  function FilterProducts(all: seq<Product>, query: string): (r: seq<Product>)
    ensures query == [] ==> r == all
    ensures forall p :: p in r <==> p in all && (query == [] || MatchesQuery(p, Text.Lowercase(query)))
    ensures Seqs.SubsequenceOf(r, all)
  {
    var lowered := Text.Lowercase(query);
    if lowered == [] then
      Seqs.SubsequenceOfSelf(all);
      all
    else
      Seqs.Filter(all, (p: Product) => MatchesQuery(p, lowered))
  }

  /** Filtering what a query already let through changes nothing. */
  lemma FilterProductsIdempotent(all: seq<Product>, query: string)
    ensures FilterProducts(FilterProducts(all, query), query) == FilterProducts(all, query)
  {
    var lowered := Text.Lowercase(query);
    if lowered != [] {
      var p := (p: Product) => MatchesQuery(p, lowered);
      Seqs.FilterNarrow(all, p, p);
    }
  }

  /** The search ignores case: a query and its lowercase form select the
      same products. */
  lemma FilterProductsIgnoresCase(all: seq<Product>, query: string)
    ensures FilterProducts(all, Text.Lowercase(query)) == FilterProducts(all, query)
  {
    Text.LowercaseIdempotent(query);
  }

  /** A product is found by its own name. */
  lemma FoundByOwnName(all: seq<Product>, p: Product)
    requires p in all
    ensures p in FilterProducts(all, p.name)
  {
    Text.LowercaseIdempotent(p.name);
    assert Text.Contains(Text.Lowercase(p.name), Text.Lowercase(p.name));
  }

  /** The filtered list matches the query and the product list. */
  predicate FilterUpToDate(s: ProductsUiState)
  {
    s.filteredProducts == FilterProducts(s.allProducts, s.searchQuery)
  }

  class ProductsViewModel {
    var uiState: ProductsUiState
    var cartItems: seq<CartItem>

    ghost predicate Valid()
      reads this
    {
      FilterUpToDate(uiState)
    }

    constructor()
      ensures Valid()
      ensures uiState == InitialState && cartItems == []
    {
      uiState := InitialState;
      cartItems := [];
    }

    /** `cartItemsCount`. */
    function CartItemsCount(): (r: nat)
      reads this
      ensures r == |cartItems|
    {
      |cartItems|
    }

    /** `getCartItems`. */
    function GetCartItems(): (r: seq<CartItem>)
      reads this
      ensures r == cartItems && |r| == CartItemsCount()
    {
      cartItems
    }

    /** `loadCategories`, with `outcome` the repository's terminal value. */
    method LoadCategories(outcome: Resource<seq<Category>>)
      requires Valid()
      modifies this
      ensures Valid()
      ensures cartItems == old(cartItems)
      ensures uiState == match outcome
                         case Success(cs) => old(uiState).(categories := cs, isLoading := false, error := None)
                         case Error(m) =>
                           old(uiState).(isLoading := false, error := Some(MessageOr(m, LoadCategoriesFailed)))
    {
      match outcome {
        case Success(cs) =>
          uiState := uiState.(categories := cs, isLoading := false, error := None);
        case Error(m) =>
          uiState := uiState.(isLoading := false, error := Some(MessageOr(m, LoadCategoriesFailed)));
      }
    }

    /** `loadProducts`: asks for the selected category's products (returned
        as `categoryId`) and applies the outcome; a new product list is
        filtered by the current query at once. */
    method LoadProducts(outcome: Resource<seq<Product>>) returns (categoryId: Option<string>)
      requires Valid()
      modifies this
      ensures Valid()
      ensures cartItems == old(cartItems)
      ensures categoryId == if old(uiState).selectedCategory.Some? then Some(old(uiState).selectedCategory.value.id) else None
      ensures uiState == match outcome
                         case Success(ps) =>
                           old(uiState).(allProducts := ps, isLoading := false, error := None,
                                         filteredProducts := FilterProducts(ps, old(uiState).searchQuery))
                         case Error(m) =>
                           old(uiState).(isLoading := false, error := Some(MessageOr(m, LoadProductsFailed)))
    {
      categoryId := if uiState.selectedCategory.Some? then Some(uiState.selectedCategory.value.id) else None;
      match outcome {
        case Success(ps) =>
          uiState := uiState.(allProducts := ps, isLoading := false, error := None);
          uiState := uiState.(filteredProducts := FilterProducts(uiState.allProducts, uiState.searchQuery));
        case Error(m) =>
          uiState := uiState.(isLoading := false, error := Some(MessageOr(m, LoadProductsFailed)));
      }
    }

    /** `loadData`: the categories, then the products. The query, the
        selections and the price flag are left as they were. */
    method LoadData(categories: Resource<seq<Category>>, products: Resource<seq<Product>>)
      returns (categoryId: Option<string>)
      requires Valid()
      modifies this
      ensures Valid()
      ensures cartItems == old(cartItems)
      ensures categoryId == if old(uiState).selectedCategory.Some? then Some(old(uiState).selectedCategory.value.id) else None
      ensures uiState.searchQuery == old(uiState).searchQuery && uiState.selectedCategory == old(uiState).selectedCategory
      ensures uiState.selectedProduct == old(uiState).selectedProduct
      ensures uiState.isCalculatingPrice == old(uiState).isCalculatingPrice
      ensures var listed := match categories
                            case Success(cs) => old(uiState).(categories := cs, isLoading := false, error := None)
                            case Error(m) =>
                              old(uiState).(isLoading := false, error := Some(MessageOr(m, LoadCategoriesFailed)));
              uiState == match products
                         case Success(ps) =>
                           listed.(allProducts := ps, isLoading := false, error := None,
                                   filteredProducts := FilterProducts(ps, old(uiState).searchQuery))
                         case Error(m) =>
                           listed.(isLoading := false, error := Some(MessageOr(m, LoadProductsFailed)))
    {
      LoadCategories(categories);
      categoryId := LoadProducts(products);
    }

    /** `onCategorySelect`: the selection changes and that category's
        products are loaded. */
    method OnCategorySelect(category: Option<Category>, outcome: Resource<seq<Product>>)
      returns (categoryId: Option<string>)
      requires Valid()
      modifies this
      ensures Valid()
      ensures cartItems == old(cartItems)
      ensures categoryId == if category.Some? then Some(category.value.id) else None
      ensures uiState == match outcome
                         case Success(ps) =>
                           old(uiState).(selectedCategory := category, allProducts := ps, isLoading := false,
                                         error := None, filteredProducts := FilterProducts(ps, old(uiState).searchQuery))
                         case Error(m) =>
                           old(uiState).(selectedCategory := category, isLoading := false,
                                         error := Some(MessageOr(m, LoadProductsFailed)))
    {
      uiState := uiState.(selectedCategory := category);
      categoryId := LoadProducts(outcome);
    }

    /** `onSearchQueryChange`: the new query is applied to the current
        product list. */
    method OnSearchQueryChange(query: string)
      requires Valid()
      modifies this
      ensures Valid()
      ensures cartItems == old(cartItems)
      ensures uiState == old(uiState).(searchQuery := query,
                                       filteredProducts := FilterProducts(old(uiState).allProducts, query))
    {
      uiState := uiState.(searchQuery := query);
      uiState := uiState.(filteredProducts := FilterProducts(uiState.allProducts, uiState.searchQuery));
    }

    /** `onProductSelect`: only a product available right now can be
        picked; any other raises an error and keeps the current pick. */
    method OnProductSelect(product: Product)
      requires Valid()
      modifies this
      ensures Valid()
      ensures cartItems == old(cartItems)
      ensures uiState == if product.isCurrentlyAvailable then old(uiState).(selectedProduct := Some(product))
                         else old(uiState).(error := Some(ProductUnavailable))
    {
      if !product.isCurrentlyAvailable {
        uiState := uiState.(error := Some(ProductUnavailable));
        return;
      }
      uiState := uiState.(selectedProduct := Some(product));
    }

    /** `clearSelectedProduct`. */
    method ClearSelectedProduct()
      requires Valid()
      modifies this
      ensures Valid()
      ensures cartItems == old(cartItems)
      ensures uiState == old(uiState).(selectedProduct := None)
    {
      uiState := uiState.(selectedProduct := None);
    }

    /** `addToCart`, as the weight dialog calls it (a weight above zero),
        with `outcome` the price calculation's terminal value. A price adds
        exactly one line at the end of the cart; a failure leaves the cart
        alone. Either way the pick is cleared. */
    method AddToCart(product: Product, weightGrams: int, outcome: Resource<PriceCalculationResponse>)
      requires Valid()
      requires weightGrams > 0
      modifies this
      ensures Valid()
      ensures outcome.Success? ==>
                && cartItems == old(cartItems) + [CartItem(product, weightGrams, outcome.data.totalPrice)]
                && CartItemsCount() == old(CartItemsCount()) + 1
                && uiState == old(uiState).(isCalculatingPrice := false, selectedProduct := None)
      ensures outcome.Error? ==>
                && cartItems == old(cartItems)
                && uiState == old(uiState).(isCalculatingPrice := false, selectedProduct := None,
                                            error := Some(MessageOr(outcome.message, PriceCalculationFailed)))
    {
      uiState := uiState.(isCalculatingPrice := true);
      match outcome {
        case Success(price) =>
          cartItems := cartItems + [CartItem(product, weightGrams, price.totalPrice)];
          uiState := uiState.(isCalculatingPrice := false, selectedProduct := None);
        case Error(m) =>
          uiState := uiState.(isCalculatingPrice := false, selectedProduct := None,
                              error := Some(MessageOr(m, PriceCalculationFailed)));
      }
    }

    /** `clearCart`. */
    method ClearCart()
      requires Valid()
      modifies this
      ensures Valid()
      ensures cartItems == [] && CartItemsCount() == 0
      ensures uiState == old(uiState)
    {
      cartItems := [];
    }
  }
}
