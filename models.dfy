/** The records the core passes around: the server's models, the request
    bodies, and the Room entities of the local database. Money amounts are
    integers in minor units (scale 2). */
module Models {
  import opened Outcomes
  import opened Money

  // ---- server models ----

  datatype PaymentMethod = CASH | CARD

  datatype UserRole = ADMIN | SELLER

  datatype User = User(id: string, username: string, email: string, role: UserRole)

  datatype TransactionItem = TransactionItem(
    id: string,
    productId: string,
    productName: string,
    pricePer100g: int,
    weightGrams: int,
    totalPrice: int)

  datatype Transaction = Transaction(
    id: string,
    transactionNumber: string,
    items: seq<TransactionItem>,
    totalAmount: int,
    discountAmount: int,
    finalAmount: int,
    paymentMethod: PaymentMethod,
    isCancelled: bool,
    createdAt: string,
    createdBy: User)

  datatype Category = Category(
    id: string,
    name: string,
    displayOrder: int,
    isActive: bool,
    productCount: Option<int>)

  datatype CategoryShort = CategoryShort(id: string, name: string)

  datatype Product = Product(
    id: string,
    name: string,
    category: CategoryShort,
    pricePer100g: int,
    isAvailable: bool,
    isCurrentlyAvailable: bool,
    isSeasonal: bool)

  datatype PriceCalculationResponse = PriceCalculationResponse(
    productId: string,
    productName: string,
    pricePer100g: int,
    weightGrams: int,
    totalPrice: int)

  datatype TokenResponse = TokenResponse(
    accessToken: string,
    refreshToken: string,
    expiresIn: int,
    refreshExpiresIn: int,
    tokenType: string)

  /** A line of the cart: a product, its weight and its price. */
  datatype CartItem = CartItem(product: Product, weightGrams: int, totalPrice: int)

  // ---- request bodies ----

  /** The discount type of the request body (distinct from the screen's). */
  datatype DiscountType = PERCENTAGE | FIXED

  datatype DiscountRequest = DiscountRequest(discountType: DiscountType, value: Decimal)

  datatype TransactionItemRequest = TransactionItemRequest(productId: string, weightGrams: int)

  datatype CreateTransactionRequest = CreateTransactionRequest(
    items: seq<TransactionItemRequest>,
    paymentMethod: PaymentMethod,
    discount: Option<DiscountRequest>)

  // ---- Room entities ----

  datatype CategoryEntity = CategoryEntity(
    id: string,
    name: string,
    displayOrder: int,
    isActive: bool)

  datatype ProductEntity = ProductEntity(
    id: string,
    name: string,
    categoryId: string,
    categoryName: string,
    pricePer100g: int,
    isAvailable: bool,
    isCurrentlyAvailable: bool,
    isSeasonal: bool)

  /** Room stores the payment method by its enum name and reads it back with
      `valueOf`; the enum itself stands for that name here. */
  datatype TransactionEntity = TransactionEntity(
    id: string,
    transactionNumber: string,
    totalAmount: int,
    discountAmount: int,
    finalAmount: int,
    paymentMethod: PaymentMethod,
    isCancelled: bool,
    cancellationReason: Option<string>,
    createdAt: string,
    createdByUsername: string)

  datatype TransactionItemEntity = TransactionItemEntity(
    id: string,
    transactionId: string,
    productId: string,
    productName: string,
    pricePer100g: int,
    weightGrams: int,
    totalPrice: int)

  /** The request is stored as JSON and read back with Gson; the payload is
      kept as the request value itself, since the two conversions invert each
      other on every request the app builds. */
  datatype PendingTransactionEntity = PendingTransactionEntity(
    id: string,
    requestJson: CreateTransactionRequest,
    createdAt: string)
}
