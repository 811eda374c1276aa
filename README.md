# CafeManagement point of sale: a Dafny model of its data layer and view-model rules

CafeManagement is an Android point-of-sale client for a café. Sellers pick
products sold by weight, build a cart, apply a discount and record a sale.
Sales made without a connection are queued on the device and replayed
later. Products and categories are cached for offline use.

This project models the parts of the app that hold its logic:

- **Transaction data layer.** `TransactionRepositoryImpl` over the Room
  `TransactionDao`. The three tables (transactions, transaction items,
  pending transactions) live in a `TransactionDao` class. Its methods change
  the tables in place. Each table is a sequence of rows in row order with
  unique ids. `REPLACE` is delete-then-append, and replacing a transaction
  cascades to its items. Every query is a function proved against its SQL
  meaning. Module `TransactionStore` holds the tables and `TransactionRepository`
  the repository; the queue drain (`syncPendingTransactions`) is a loop
  proved against the recursive definition `Drain`.
- **Product cache.** `ProductRepositoryImpl` over `ProductDao`: a
  read-through cache. A remote success writes the cache. Only a missing
  connection falls back to it. Modules `ProductStore` and `ProductRepository`.
- **Checkout arithmetic and cart commands.** `TransactionViewModel` holds
  the totals, the percentage and fixed discounts with their BigDecimal
  rounding, and the request a sale sends.
- **Catalogue screen.** `ProductsViewModel`: the search filter, product
  selection and the cart.
- **History screen.** `TransactionHistoryViewModel`: the date-filter
  ranges on an epoch-day calendar (module `Calendar`) and the daily
  statistics.
- **Details screen.** `TransactionDetailsViewModel`: the 30-minute,
  role-based cancellation rule and the cancellation itself.
- **Sign-in.** `ValidateLoginFieldsUseCase` (module `LoginValidation`),
  `LoginViewModel`, `AuthRepositoryImpl` (module `AuthRepository`) and
  `TokenManager` (module `Tokens`).

Shared modules:

- `Outcomes`: the remote outcome, `Resource` and the user-facing messages.
- `Seqs`, `Tables` and `Text`: sequence, keyed-table and string facts.
- `Money`: decimal values and BigDecimal rounding.
- `Models`: the entity and model records.

Modelling conventions:

- **Money** is an integer number of cents, because every stored or
  server-side amount has scale 2. The discount value a user types is a
  `Decimal(unscaled, scale)`, because its scale changes how the percentage
  discount is rounded.
- **Remote calls** to the café API and the identity server are
  parameters of type `RemoteOutcome`: `Ok(v)`, `NoConnectivity`,
  `Http(code)`, `Io` or `Other`. They stand for the reply or the exception
  class the code catches.
- **Storage failures** (a throwing DAO call) are boolean fault parameters.
- **View-models** receive the one terminal value (`Success` or `Error`)
  that the repository's Flow emits.
- **Clock, identifiers and date parsing** (the clock, fresh UUIDs,
  `LocalDateTime.parse`) are parameters. The history screen works on epoch
  days. The details screen works on epoch seconds.
- **Escaping reads.** The offline reads of the repositories run inside the
  handler for `NoConnectivityException`, where the sibling `catch` clauses
  do not apply. A read fault there ends the Flow with an exception
  (`FlowEnd.Throws`) instead of an emitted value.
- **Sign-in steps.** The authentication methods also return their steps in
  order: the calls made on `AuthApi` and the writes to the token store.
  This makes "tokens are stored before the user is fetched" and "refresh at
  most once" part of their contracts. `AuthApi` runs on the client without
  the authorization interceptor (NetworkModule.kt:44-54 and 96-99), and
  `getCurrentUser()` declares no header (AuthApi.kt:28-29). So no user call
  in the model carries a token.

Two consequences of the code that the model keeps as written:

- **Drain.** `saveTransactionToLocal` catches its own failures
  (app/src/main/java/com/cafe/management/android/domain/repository/TransactionRepositoryImpl.kt:271-273).
  So an entry the server accepted is deleted from the queue even when
  writing it locally failed. `DrainOfSnapshot` states this: an entry stays
  queued exactly when the server rejected it or its delete threw.
- **Percentage discount.** The trailing `setScale(2, HALF_UP)` suggests a
  single HALF_UP rounding, but the division before it already rounds
  HALF_EVEN. The screen's totals use the code's double rounding
  (`PercentageDiscountAsWritten`); see "## Findings".

## Model

| member | source | states |
|---|---|---|
| TransactionStore.GetTransactionById | app/src/main/java/com/cafe/management/android/data/local/database/dao/TransactionDao.kt:19-20 | returns a row with the requested id when one exists, and null exactly when no row has that id |
| TransactionStore.GetTransactionItems | app/src/main/java/com/cafe/management/android/data/local/database/dao/TransactionDao.kt:22-23 | returns exactly the item rows whose transactionId matches, in table order |
| TransactionStore.GetTransactionsByDateRange | app/src/main/java/com/cafe/management/android/data/local/database/dao/TransactionDao.kt:25-26 | returns exactly the rows with start <= createdAt < end (the same rows, no more and no fewer), newest first |
| TransactionStore.GetPendingTransactionsCount | app/src/main/java/com/cafe/management/android/data/local/database/dao/TransactionDao.kt:38-39 | COUNT(*) is the number of rows the queue query lists, and zero exactly when the queue is empty |
| TransactionStore.GetAllPendingTransactions | app/src/main/java/com/cafe/management/android/data/local/database/dao/TransactionDao.kt:35-36 | returns every queued row (as a multiset), sorted ascending by createdAt |
| TransactionStore.CreatedAtOrders | app/src/main/java/com/cafe/management/android/data/local/database/dao/TransactionDao.kt:26-36 | string comparison of createdAt is a total preorder, so both ORDER BY clauses are well defined |
| TransactionStore.WithTransactionSpec | app/src/main/java/com/cafe/management/android/data/local/database/dao/TransactionDao.kt:13-14 | REPLACE stores the row under its id, leaves all other ids as they were, and deletes the old row's items through the ON DELETE CASCADE foreign key; the queue is untouched |
| TransactionStore.WithItemsSpec | app/src/main/java/com/cafe/management/android/data/local/database/dao/TransactionDao.kt:16-17 | REPLACE of item rows: each id gets the batch's last row for it, all other item ids keep theirs, and the foreign key stays satisfied |
| TransactionStore.LookupMarkCancelled | app/src/main/java/com/cafe/management/android/data/local/database/dao/TransactionDao.kt:28-29 | after the UPDATE, a lookup finds the two columns changed on the matching row and every other row as it was |
| TransactionStore.WithCancellationSpec | app/src/main/java/com/cafe/management/android/data/local/database/dao/TransactionDao.kt:28-29 | the UPDATE changes only isCancelled and cancellationReason of the matching row; a missing id changes nothing |
| TransactionStore.WithPendingSpec | app/src/main/java/com/cafe/management/android/data/local/database/dao/TransactionDao.kt:32-33 | inserting a new id adds exactly one row: the count rises by one and the queue gains exactly that row |
| TransactionStore.WithoutPendingSpec | app/src/main/java/com/cafe/management/android/data/local/database/dao/TransactionDao.kt:41-42 | the delete removes only the row with that id; the count falls by one when it existed; a missing id is a no-op |
| TransactionStore.TransactionDao.InsertTransaction | app/src/main/java/com/cafe/management/android/data/local/database/dao/TransactionDao.kt:13-14 | on success the tables become WithTransaction of the old ones; a fault leaves them unchanged; the key and foreign-key invariant is kept |
| TransactionStore.TransactionDao.InsertTransactionItems | app/src/main/java/com/cafe/management/android/data/local/database/entities/TransactionItemEntity.kt:8-17 | succeeds exactly when there is no fault and every item's transaction exists (the foreign key check); otherwise nothing changes |
| TransactionStore.TransactionDao.UpdateTransactionCancelled | app/src/main/java/com/cafe/management/android/data/local/database/dao/TransactionDao.kt:28-29 | on success the tables become WithCancellation of the old ones; a fault changes nothing |
| TransactionStore.TransactionDao.InsertPendingTransaction | app/src/main/java/com/cafe/management/android/data/local/database/dao/TransactionDao.kt:32-33 | a plain INSERT: succeeds exactly when there is no fault and the id is new (a duplicate fails rather than overwriting) |
| TransactionStore.TransactionDao.DeletePendingTransaction | app/src/main/java/com/cafe/management/android/data/local/database/dao/TransactionDao.kt:41-42 | on success the queue loses the row with that id; a fault changes nothing |
| TransactionStore.TransactionDao.DeleteAllPendingTransactions | app/src/main/java/com/cafe/management/android/data/local/database/dao/TransactionDao.kt:44-45 | on success the queue is empty and the other tables are unchanged |
| TransactionRepository.ConvertToTransaction | app/src/main/java/com/cafe/management/android/domain/repository/TransactionRepositoryImpl.kt:276-305 | the result has the entity's id, one item per stored item row, and a creator with empty id and email and the SELLER role |
| TransactionRepository.SaveLocalSpec | app/src/main/java/com/cafe/management/android/domain/repository/TransactionRepositoryImpl.kt:243-274 | saveTransactionToLocal keeps the tables consistent and the queue unchanged, never loses a stored transaction, and stores the transaction under its id unless the first insert throws |
| TransactionRepository.SaveThenConvert | app/src/main/java/com/cafe/management/android/domain/repository/TransactionRepositoryImpl.kt:243-305 | save then convert gives back the transaction (number, amounts, payment method, cancelled flag, createdAt, creator username and items in order), with only the creator's id, email and role reset |
| TransactionRepository.DrainLog | app/src/main/java/com/cafe/management/android/domain/repository/TransactionRepositoryImpl.kt:166-182 | one log line per snapshot entry, in snapshot order: Synced exactly when the server accepted the entry |
| TransactionRepository.DeleteFromSurviving | app/src/main/java/com/cafe/management/android/domain/repository/TransactionRepositoryImpl.kt:174-176 | deleting one more id from the surviving queue is the queue without that id as well |
| TransactionRepository.DrainQueue | app/src/main/java/com/cafe/management/android/domain/repository/TransactionRepositoryImpl.kt:163-182 | a replay only deletes queue rows: the queue afterwards is the old queue minus the removed ids, in the old relative order; stored transactions are never lost |
| TransactionRepository.DrainStoresAccepted | app/src/main/java/com/cafe/management/android/domain/repository/TransactionRepositoryImpl.kt:166-173 | every entry the server accepted has a row under the server's id unless that insert threw; after the replay, looking up any id gives the transaction of the last entry stored under it, or else the row that was there before |
| TransactionRepository.DrainKeepsLastAccepted | app/src/main/java/com/cafe/management/android/domain/repository/TransactionRepositoryImpl.kt:166-173 | an accepted transaction whose row insert did not throw, and whose id no later stored entry reuses, reads back exactly as the server returned it |
| TransactionRepository.DrainOfSnapshot | app/src/main/java/com/cafe/management/android/domain/repository/TransactionRepositoryImpl.kt:163-182 | on the pass's own snapshot: an entry stays queued exactly when the server rejected it or its delete threw; the queue only shrinks and keeps its relative order |
| TransactionRepository.SaveAllStores | app/src/main/java/com/cafe/management/android/domain/repository/TransactionRepositoryImpl.kt:220-222 | saving a fetched list keeps all stored transactions and stores each listed one whose insert did not throw; the queue is unchanged |
| TransactionRepository.TransactionRepositoryImpl.SaveTransactionToLocal | app/src/main/java/com/cafe/management/android/domain/repository/TransactionRepositoryImpl.kt:243-274 | the tables become SaveLocal of the old ones; failures are swallowed |
| TransactionRepository.TransactionRepositoryImpl.SavePendingTransaction | app/src/main/java/com/cafe/management/android/domain/repository/TransactionRepositoryImpl.kt:189-201 | adds the row with the fresh id, the payload and the timestamp when the insert succeeds; the pending count rises by exactly one or stays the same |
| TransactionRepository.TransactionRepositoryImpl.CreateTransaction | app/src/main/java/com/cafe/management/android/domain/repository/TransactionRepositoryImpl.kt:30-58 | a remote success returns Success with the server transaction whatever the local save does; no connectivity and IO errors queue the request and return their Error; HTTP and other errors return their Error and queue nothing |
| TransactionRepository.TransactionRepositoryImpl.SyncPendingTransactions | app/src/main/java/com/cafe/management/android/domain/repository/TransactionRepositoryImpl.kt:161-187 | a failed read of the queue changes nothing; otherwise the snapshot is replayed once each, in ascending createdAt order, leaving the tables as Drain describes and one log line per entry |
| TransactionRepository.TransactionRepositoryImpl.GetTransactionById | app/src/main/java/com/cafe/management/android/domain/repository/TransactionRepositoryImpl.kt:60-83 | the server copy on success; offline the stored row converted, or not found, unless the local read throws, which ends the Flow with nothing emitted; 404 is not found, other HTTP codes a server error; never writes |
| TransactionRepository.TransactionRepositoryImpl.GetTransactionsByDateRange | app/src/main/java/com/cafe/management/android/domain/repository/TransactionRepositoryImpl.kt:207-241 | the server list on success, each transaction saved locally; offline the stored rows in the half-open range, newest first, converted, unless the local read throws, which ends the Flow with nothing emitted; other outcomes leave the tables unchanged |
| TransactionRepository.TransactionRepositoryImpl.CancelTransaction | app/src/main/java/com/cafe/management/android/domain/repository/TransactionRepositoryImpl.kt:132-159 | a server success marks the stored row cancelled with the reason; no connectivity, HTTP and other errors return their Error and change nothing |
| ProductStore.GetAllCategories | app/src/main/java/com/cafe/management/android/data/local/database/dao/ProductDao.kt:14-15 | returns exactly the active categories (as a multiset), ordered by ascending displayOrder |
| ProductStore.GetCategoryById | app/src/main/java/com/cafe/management/android/data/local/database/dao/ProductDao.kt:17-18 | returns a row with that id, or null exactly when none has it |
| ProductStore.GetAllAvailableProducts | app/src/main/java/com/cafe/management/android/data/local/database/dao/ProductDao.kt:24-25 | returns exactly the currently available rows, in table order |
| ProductStore.GetProductsByCategory | app/src/main/java/com/cafe/management/android/data/local/database/dao/ProductDao.kt:27-28 | returns exactly the currently available rows of that category, in table order |
| ProductStore.GetProductById | app/src/main/java/com/cafe/management/android/data/local/database/dao/ProductDao.kt:30-31 | returns the row with that id whatever its availability, or null exactly when none has it |
| ProductStore.InsertCategoriesSpec | app/src/main/java/com/cafe/management/android/data/local/database/dao/ProductDao.kt:11-12 | REPLACE by id: each id gets the batch's last row, categories not in the batch stay |
| ProductStore.InsertProductsSpec | app/src/main/java/com/cafe/management/android/data/local/database/dao/ProductDao.kt:21-22 | REPLACE by id: each id gets the batch's last row, products not in the batch stay |
| ProductStore.ProductDao.InsertCategories | app/src/main/java/com/cafe/management/android/data/local/database/dao/ProductDao.kt:11-12 | on success the categories are upserted and the products table is untouched; a fault changes nothing |
| ProductStore.ProductDao.InsertProducts | app/src/main/java/com/cafe/management/android/data/local/database/dao/ProductDao.kt:21-22 | on success the products are upserted and the categories table is untouched; a fault changes nothing |
| ProductStore.ProductDao.DeleteAllProducts | app/src/main/java/com/cafe/management/android/data/local/database/dao/ProductDao.kt:33-34 | empties the products table only |
| ProductStore.ProductDao.DeleteAllCategories | app/src/main/java/com/cafe/management/android/data/local/database/dao/ProductDao.kt:36-37 | empties the categories table only |
| ProductRepository.FromCategoryEntity | app/src/main/java/com/cafe/management/android/domain/repository/ProductRepositoryImpl.kt:48-56 | a cached category maps back to a category that maps to the same row, without a product count |
| ProductRepository.FromProductEntity | app/src/main/java/com/cafe/management/android/domain/repository/ProductRepositoryImpl.kt:103-116 | a cached product maps back to a product that maps to the same row |
| ProductRepository.MappingRoundTrip | app/src/main/java/com/cafe/management/android/domain/repository/ProductRepositoryImpl.kt:81-116 | model to row to model keeps id, name, category id and name, price and the three flags |
| ProductRepository.LocalTotalPrice | app/src/main/java/com/cafe/management/android/domain/repository/ProductRepositoryImpl.kt:185 | price times weight over 100 rounded to the nearest cent, ties to the even cent |
| ProductRepository.LocalTotalPriceExact | app/src/main/java/com/cafe/management/android/domain/repository/ProductRepositoryImpl.kt:185 | a whole number of 100 g portions is priced exactly |
| ProductRepository.LocalTotalPriceNonNegative | app/src/main/java/com/cafe/management/android/domain/repository/ProductRepositoryImpl.kt:185 | a non-negative price and weight never give a negative total |
| ProductRepository.ProductRepositoryImpl.GetCategories | app/src/main/java/com/cafe/management/android/domain/repository/ProductRepositoryImpl.kt:26-72 | a remote success upserts every category and returns the remote list; no connectivity returns the cached active categories or the no-connection Error when there are none, unless the cache read throws, which ends the Flow with nothing emitted; HTTP, IO and other errors neither read nor write the cache |
| ProductRepository.ProductRepositoryImpl.GetAvailableProducts | app/src/main/java/com/cafe/management/android/domain/repository/ProductRepositoryImpl.kt:74-134 | a remote success upserts the products and returns them; offline the cached available products of the category, or all of them, or an Error when empty, unless the cache read throws, which ends the Flow with nothing emitted; other errors leave the cache alone |
| ProductRepository.ProductRepositoryImpl.GetProductById | app/src/main/java/com/cafe/management/android/domain/repository/ProductRepositoryImpl.kt:136-170 | the server copy on success without writing the cache; offline the cached row or not found, unless the cache read throws, which ends the Flow with nothing emitted; 404 is not found |
| ProductRepository.ProductRepositoryImpl.CalculatePrice | app/src/main/java/com/cafe/management/android/domain/repository/ProductRepositoryImpl.kt:172-202 | the server price; offline the local formula on the cached price, or not found when uncached, unless the cache read throws, which ends the Flow with nothing emitted; an HTTP error gives its Error with no local computation |
| ProductRepository.ProductRepositoryImpl.SyncProducts | app/src/main/java/com/cafe/management/android/domain/repository/ProductRepositoryImpl.kt:204-236 | both fetches happen before any write, so a failed fetch writes nothing; two successes upsert both lists |
| TransactionViewModel.PercentageDiscount | app/src/main/java/com/cafe/management/android/presentation/screens/transaction/TransactionViewModel.kt:73-80 | the percentage of the total rounded once to the nearest cent, ties away from zero |
| TransactionViewModel.CalculateTotals | app/src/main/java/com/cafe/management/android/presentation/screens/transaction/TransactionViewModel.kt:66-91 | total is the sum of the line prices; a percentage discount lies within one cent of total × value / 100, a fixed one is its value in cents capped at the total; the final amount is total minus discount, or 0 when that is negative |
| TransactionViewModel.PercentageDiscountAsWritten | app/src/main/java/com/cafe/management/android/presentation/screens/transaction/TransactionViewModel.kt:73-80 | the discount the code computes, HALF_EVEN at the product's scale then HALF_UP to cents, lies within one cent of total × value / 100, and for a whole percentage is the nearest cent with ties to even |
| TransactionViewModel.DoubleRoundingWithinOneCent | app/src/main/java/com/cafe/management/android/presentation/screens/transaction/TransactionViewModel.kt:73-80 | the code's double rounding differs from one HALF_UP rounding by at most one cent |
| TransactionViewModel.PercentageRoundingCounterexample | app/src/main/java/com/cafe/management/android/presentation/screens/transaction/TransactionViewModel.kt:73-80 | 10 % of 0.25 gives 0.02 as written and 0.03 rounded HALF_UP once |
| TransactionViewModel.PercentageDiscountBounds | app/src/main/java/com/cafe/management/android/presentation/screens/transaction/TransactionViewModel.kt:73-75 | a percentage in (0, 100] of a non-negative total gives a discount between 0 and the total, both as the code rounds it (twice) and rounded once |
| TransactionViewModel.FixedDiscountBounds | app/src/main/java/com/cafe/management/android/presentation/screens/transaction/TransactionViewModel.kt:76-80 | a fixed discount is min(value, total) in cents: never above the total, not negative for a positive value |
| TransactionViewModel.NoDiscountTotals | app/src/main/java/com/cafe/management/android/presentation/screens/transaction/TransactionViewModel.kt:79-82 | without a discount, the discount is 0 and the final amount equals the total |
| TransactionViewModel.AcceptedDiscountTotals | app/src/main/java/com/cafe/management/android/presentation/screens/transaction/TransactionScreen.kt:518-527 | any discount the dialog accepts, with the rounding the code uses, lies between 0 and the total, so the final amount is exactly total minus discount |
| TransactionViewModel.RemoveFromCartTotal | app/src/main/java/com/cafe/management/android/presentation/screens/transaction/TransactionViewModel.kt:39-44 | removing a line lowers the total by exactly that line's price |
| TransactionViewModel.BuildRequest | app/src/main/java/com/cafe/management/android/presentation/screens/transaction/TransactionViewModel.kt:103-120 | one request item per cart line in cart order (product id, weight), the payment method, and the discount with its type mapped one-to-one |
| TransactionViewModel.WithTotals | app/src/main/java/com/cafe/management/android/presentation/screens/transaction/TransactionViewModel.kt:66-91 | the state with the three amounts brought up to date with cart and discount, as calculateTotals computes them |
| TransactionViewModel.TransactionViewModel.SetCartItems | app/src/main/java/com/cafe/management/android/presentation/screens/transaction/TransactionViewModel.kt:32-37 | replaces the cart and recomputes the totals |
| TransactionViewModel.TransactionViewModel.RemoveFromCart | app/src/main/java/com/cafe/management/android/presentation/screens/transaction/TransactionViewModel.kt:39-44 | drops the first equal line only, keeps the rest in order, and recomputes the totals |
| TransactionViewModel.TransactionViewModel.SetPaymentMethod | app/src/main/java/com/cafe/management/android/presentation/screens/transaction/TransactionViewModel.kt:46-50 | changes only the payment method; the amounts stay as they are |
| TransactionViewModel.TransactionViewModel.ApplyDiscount | app/src/main/java/com/cafe/management/android/presentation/screens/transaction/TransactionViewModel.kt:52-57 | sets the discount the dialog accepted and recomputes the totals |
| TransactionViewModel.TransactionViewModel.RemoveDiscount | app/src/main/java/com/cafe/management/android/presentation/screens/transaction/TransactionViewModel.kt:59-64 | clears the discount and recomputes the totals |
| TransactionViewModel.TransactionViewModel.CreateTransaction | app/src/main/java/com/cafe/management/android/presentation/screens/transaction/TransactionViewModel.kt:93-150 | an empty cart sets the cart-empty error and sends nothing; otherwise sends the request for the cart, and success records the new id while failure records the message or the default |
| TransactionViewModel.TransactionViewModel.ClearError | app/src/main/java/com/cafe/management/android/presentation/screens/transaction/TransactionViewModel.kt:152-154 | clears the error only |
| ProductsViewModel.FilterProducts | app/src/main/java/com/cafe/management/android/presentation/screens/products/ProductsViewModel.kt:120-136 | an empty query keeps every product; any other keeps, in order, exactly the products whose lowercased name or category name contains the lowercased query, with lowercase as Text.Lowercase covers it |
| ProductsViewModel.FilterProductsIdempotent | app/src/main/java/com/cafe/management/android/presentation/screens/products/ProductsViewModel.kt:120-136 | filtering the filtered list again with the same query changes nothing |
| ProductsViewModel.FilterProductsIgnoresCase | app/src/main/java/com/cafe/management/android/presentation/screens/products/ProductsViewModel.kt:121 | a query and its lowercase form select the same products |
| ProductsViewModel.FoundByOwnName | app/src/main/java/com/cafe/management/android/presentation/screens/products/ProductsViewModel.kt:126-131 | searching for a product's own name finds it |
| ProductsViewModel.ProductsViewModel.LoadCategories | app/src/main/java/com/cafe/management/android/presentation/screens/products/ProductsViewModel.kt:41-70 | a success stores the categories and clears the error; a failure records the message or the default |
| ProductsViewModel.ProductsViewModel.LoadProducts | app/src/main/java/com/cafe/management/android/presentation/screens/products/ProductsViewModel.kt:72-104 | asks for the selected category; a success stores the products and re-applies the current query; a failure records the message or the default |
| ProductsViewModel.ProductsViewModel.LoadData | app/src/main/java/com/cafe/management/android/presentation/screens/products/ProductsViewModel.kt:36-39 | the whole new state: the categories outcome applied, then the products outcome, re-filtered by the current query; the query, both selections, the price flag and the cart stay |
| ProductsViewModel.ProductsViewModel.OnCategorySelect | app/src/main/java/com/cafe/management/android/presentation/screens/products/ProductsViewModel.kt:106-111 | the whole new state: the selection stored, then that category's products re-filtered by the current query with loading and error cleared, or on failure loading cleared and the message or default shown |
| ProductsViewModel.ProductsViewModel.OnSearchQueryChange | app/src/main/java/com/cafe/management/android/presentation/screens/products/ProductsViewModel.kt:113-118 | stores the query and re-filters the current product list with it |
| ProductsViewModel.ProductsViewModel.OnProductSelect | app/src/main/java/com/cafe/management/android/presentation/screens/products/ProductsViewModel.kt:138-149 | an unavailable product sets the error and leaves the selection; an available one becomes the selection |
| ProductsViewModel.ProductsViewModel.ClearSelectedProduct | app/src/main/java/com/cafe/management/android/presentation/screens/products/ProductsViewModel.kt:151-155 | clears the selection only |
| ProductsViewModel.ProductsViewModel.AddToCart | app/src/main/java/com/cafe/management/android/presentation/screens/products/ProductsViewModel.kt:157-200 | with a weight above zero: a price appends exactly one line at the end with the returned price; a failure leaves the cart unchanged and records the error; both clear the selection and the calculating flag |
| ProductsViewModel.ProductsViewModel.CartItemsCount | app/src/main/java/com/cafe/management/android/presentation/screens/products/ProductsViewModel.kt:23-30 | the number of lines in the cart |
| ProductsViewModel.ProductsViewModel.GetCartItems | app/src/main/java/com/cafe/management/android/presentation/screens/products/ProductsViewModel.kt:202 | the cart's lines, as many as the count says |
| ProductsViewModel.ProductsViewModel.ClearCart | app/src/main/java/com/cafe/management/android/presentation/screens/products/ProductsViewModel.kt:204-206 | empties the cart, so the count is 0; the screen state is unchanged |
| HistoryViewModel.DateRangeForFilter | app/src/main/java/com/cafe/management/android/presentation/screens/history/TransactionHistoryViewModel.kt:115-133 | YESTERDAY ends at today's start and every other range at the start of `plusDays(1)`; THIS_WEEK starts on a Monday; for a valid date every range starts before it ends |
| HistoryViewModel.DayRanges | app/src/main/java/com/cafe/management/android/presentation/screens/history/TransactionHistoryViewModel.kt:118-124 | TODAY is [today, tomorrow) and YESTERDAY [yesterday, today): one day each, adjacent, only TODAY containing today |
| HistoryViewModel.WeekRange | app/src/main/java/com/cafe/management/android/presentation/screens/history/TransactionHistoryViewModel.kt:125-128 | THIS_WEEK starts on a Monday and ends at tomorrow's start, spanning dayOfWeek (1 to 7) days |
| HistoryViewModel.MonthRange | app/src/main/java/com/cafe/management/android/presentation/screens/history/TransactionHistoryViewModel.kt:129-131 | THIS_MONTH starts on the first of the month and ends at tomorrow's start, spanning day-of-month days |
| HistoryViewModel.RangesNonEmpty | app/src/main/java/com/cafe/management/android/presentation/screens/history/TransactionHistoryViewModel.kt:115-133 | every range is half-open with start before end, and all but YESTERDAY contain today |
| HistoryViewModel.SumOfActiveIsTakings | app/src/main/java/com/cafe/management/android/presentation/screens/history/TransactionHistoryViewModel.kt:136-141 | the sum of finalAmount over the active transactions is the takings defined by recursion |
| HistoryViewModel.FilterActiveIsActiveCount | app/src/main/java/com/cafe/management/android/presentation/screens/history/TransactionHistoryViewModel.kt:136-140 | the size of the non-cancelled filter equals an independent recursive count of the transactions not cancelled |
| HistoryViewModel.CalculateStatistics | app/src/main/java/com/cafe/management/android/presentation/screens/history/TransactionHistoryViewModel.kt:135-144 | transactionCount is the number of transactions not cancelled and cancelledCount the rest (independent recursive count); the total sums finalAmount over the active ones only |
| HistoryViewModel.StatisticsAppend | app/src/main/java/com/cafe/management/android/presentation/screens/history/TransactionHistoryViewModel.kt:135-144 | the statistics of two lists together are the sums of their statistics |
| HistoryViewModel.CancelledAddsNothing | app/src/main/java/com/cafe/management/android/presentation/screens/history/TransactionHistoryViewModel.kt:135-144 | a cancelled transaction adds one to the cancelled count and nothing to the takings |
| HistoryViewModel.TransactionHistoryViewModel.LoadTransactions | app/src/main/java/com/cafe/management/android/presentation/screens/history/TransactionHistoryViewModel.kt:56-90 | asks for the current filter's range; a success stores the list, a failure records the message or the default |
| HistoryViewModel.TransactionHistoryViewModel.LoadTodayStatistics | app/src/main/java/com/cafe/management/android/presentation/screens/history/TransactionHistoryViewModel.kt:92-113 | a success stores the statistics of the list; a failure changes nothing |
| HistoryViewModel.TransactionHistoryViewModel.SetDateFilter | app/src/main/java/com/cafe/management/android/presentation/screens/history/TransactionHistoryViewModel.kt:51-54 | the whole new state: the filter stored and the list reloaded for its range, with loading cleared and either the list and no error or the message or default; statistics untouched |
| HistoryViewModel.TransactionHistoryViewModel.Refresh | app/src/main/java/com/cafe/management/android/presentation/screens/history/TransactionHistoryViewModel.kt:46-49 | the whole new state: the list outcome for the current filter's range applied, then today's statistics replaced on success and kept on failure |
| Calendar.EpochDay | app/src/main/java/com/cafe/management/android/presentation/screens/history/TransactionHistoryViewModel.kt:116-131 | a valid date's epoch day lies within its month's run of days, which starts at `withDayOfMonth(1)` |
| Calendar.MonthStartNext | app/src/main/java/com/cafe/management/android/presentation/screens/history/TransactionHistoryViewModel.kt:116-131 | months tile the epoch days: each month starts its predecessor's length later, 29 days for a leap February |
| Calendar.YearLength | app/src/main/java/com/cafe/management/android/presentation/screens/history/TransactionHistoryViewModel.kt:116-131 | a year from March to February has 366 days exactly in Gregorian leap years |
| Calendar.EpochDayNext | app/src/main/java/com/cafe/management/android/presentation/screens/history/TransactionHistoryViewModel.kt:119-131 | `plusDays(1)` on a valid date is a valid date exactly one epoch day later, across month and year ends |
| Calendar.MondayOfWeek | app/src/main/java/com/cafe/management/android/presentation/screens/history/TransactionHistoryViewModel.kt:126 | going back dayOfWeek - 1 days lands on a Monday |
| DetailsViewModel.MinutesBetween | app/src/main/java/com/cafe/management/android/presentation/screens/transaction/details/TransactionDetailsViewModel.kt:124 | whole minutes between two instants, truncated toward zero |
| DetailsViewModel.CanCancelTransaction | app/src/main/java/com/cafe/management/android/presentation/screens/transaction/details/TransactionDetailsViewModel.kt:113-133 | true only for a sale not yet cancelled, with a parseable timestamp, at most 30 whole minutes old, and a user who is an admin or the seller who made it |
| DetailsViewModel.CancelWindow | app/src/main/java/com/cafe/management/android/presentation/screens/transaction/details/TransactionDetailsViewModel.kt:124-125 | 31 minutes or more after the sale no one may cancel; before that (30 whole minutes included) only the role rule decides |
| DetailsViewModel.WhoMayCancel | app/src/main/java/com/cafe/management/android/presentation/screens/transaction/details/TransactionDetailsViewModel.kt:128-132 | within the window, an admin may cancel any sale and a seller exactly its own |
| DetailsViewModel.TransactionDetailsViewModel.LoadCurrentUser | app/src/main/java/com/cafe/management/android/presentation/screens/transaction/details/TransactionDetailsViewModel.kt:37-46 | a success remembers the user's id and role; a failure changes nothing |
| DetailsViewModel.TransactionDetailsViewModel.LoadTransaction | app/src/main/java/com/cafe/management/android/presentation/screens/transaction/details/TransactionDetailsViewModel.kt:48-79 | a success shows the transaction with the cancel decision for the current user; a failure records the message or the default |
| DetailsViewModel.TransactionDetailsViewModel.CancelTransaction | app/src/main/java/com/cafe/management/android/presentation/screens/transaction/details/TransactionDetailsViewModel.kt:81-111 | a success marks the screen cancelled and shows the server's copy; a failure sets only the error and clears loading |
| LoginValidation.UsernameError | app/src/main/java/com/cafe/management/android/domain/usecases/ValidateLoginFieldsUseCase.kt:11-15 | a blank username asks for one whatever its length; a non-blank one shorter than 3 is too short; otherwise no error |
| LoginValidation.PasswordError | app/src/main/java/com/cafe/management/android/domain/usecases/ValidateLoginFieldsUseCase.kt:17-21 | a blank password asks for one; a non-blank one shorter than 4 is too short; otherwise no error |
| LoginValidation.ValidateLoginFields | app/src/main/java/com/cafe/management/android/domain/usecases/ValidateLoginFieldsUseCase.kt:7-28 | valid exactly when neither field has an error, that is when the username is non-blank and at least 3 long and the password non-blank and at least 4 long |
| LoginValidation.FieldsIndependent | app/src/main/java/com/cafe/management/android/domain/usecases/ValidateLoginFieldsUseCase.kt:11-21 | the username error depends only on the username, the password error only on the password |
| LoginValidation.BlankBeatsLength | app/src/main/java/com/cafe/management/android/domain/usecases/ValidateLoginFieldsUseCase.kt:12 | an accepted username has a visible character; an all-space one asks for a username however long |
| LoginValidation.SupplementaryCharactersCountTwice | app/src/main/java/com/cafe/management/android/domain/usecases/ValidateLoginFieldsUseCase.kt:13 | lengths are in UTF-16 units: one letter plus one emoji is long enough, two letters are not |
| LoginViewModel.LoginViewModel.OnUsernameChange | app/src/main/java/com/cafe/management/android/presentation/screens/login/LoginViewModel.kt:27-35 | sets the username and clears its error and the general error; the password side is untouched |
| LoginViewModel.LoginViewModel.OnPasswordChange | app/src/main/java/com/cafe/management/android/presentation/screens/login/LoginViewModel.kt:37-45 | sets the password and clears its error and the general error; the username side is untouched |
| LoginViewModel.LoginViewModel.OnRememberMeChange | app/src/main/java/com/cafe/management/android/presentation/screens/login/LoginViewModel.kt:47-49 | changes only rememberMe |
| LoginViewModel.LoginViewModel.Login | app/src/main/java/com/cafe/management/android/presentation/screens/login/LoginViewModel.kt:51-101 | invalid fields copy the validator's errors and send nothing, never loading; valid ones set loading and clear the general error before sending the credentials; success sets isLoginSuccessful, failure the message or the default |
| Tokens.Lookup | app/src/main/java/com/cafe/management/android/data/local/preferences/TokenManager.kt:37-47 | a stored key gives its value, an absent one null |
| Tokens.SaveThenRead | app/src/main/java/com/cafe/management/android/data/local/preferences/TokenManager.kt:30-53 | after saving, both getters return the saved tokens and the user is logged in |
| Tokens.ClearThenRead | app/src/main/java/com/cafe/management/android/data/local/preferences/TokenManager.kt:49-60 | after clearing, both getters return null and the user is not logged in |
| Tokens.OnlyTokenKeysChange | app/src/main/java/com/cafe/management/android/data/local/preferences/TokenManager.kt:30-35 | saving and clearing touch the two token keys and no other preference |
| Tokens.SaveOverwrites | app/src/main/java/com/cafe/management/android/data/local/preferences/TokenManager.kt:30-35 | a later save replaces an earlier one completely |
| Tokens.TokenManager.SaveTokens | app/src/main/java/com/cafe/management/android/data/local/preferences/TokenManager.kt:30-35 | writes the two token keys |
| Tokens.TokenManager.GetAccessToken | app/src/main/java/com/cafe/management/android/data/local/preferences/TokenManager.kt:37-41 | the stored access token, or null exactly when none is stored |
| Tokens.TokenManager.GetRefreshToken | app/src/main/java/com/cafe/management/android/data/local/preferences/TokenManager.kt:43-47 | the stored refresh token, or null exactly when none is stored |
| Tokens.TokenManager.IsLoggedIn | app/src/main/java/com/cafe/management/android/data/local/preferences/TokenManager.kt:49-53 | true exactly when an access token is stored |
| Tokens.TokenManager.ClearTokens | app/src/main/java/com/cafe/management/android/data/local/preferences/TokenManager.kt:55-60 | removes the two token keys |
| AuthRepository.LoginError | app/src/main/java/com/cafe/management/android/domain/repository/AuthRepositoryImpl.kt:45-62 | 401 and only 401 gives the wrong-credentials message, 403 and only 403 access denied, every other status the server error with its code, no connectivity and other I/O errors their own messages, anything else the unexpected error |
| AuthRepository.AuthRepositoryImpl.IsLoggedIn | app/src/main/java/com/cafe/management/android/domain/repository/AuthRepositoryImpl.kt:133 | true exactly when the token manager holds an access token |
| AuthRepository.LoginErrorsDistinct | app/src/main/java/com/cafe/management/android/domain/repository/AuthRepositoryImpl.kt:45-62 | different sign-in failures (401, 403, each other status, no connectivity, other network errors) never share a message |
| AuthRepository.AuthRepositoryImpl.Login | app/src/main/java/com/cafe/management/android/domain/repository/AuthRepositoryImpl.kt:22-63 | the steps are exactly the sign-in call, the write of the granted tokens, then the user call; the tokens stay stored if that fetch fails; a refused sign-in makes one call and stores nothing |
| AuthRepository.AuthRepositoryImpl.Logout | app/src/main/java/com/cafe/management/android/domain/repository/AuthRepositoryImpl.kt:65-67 | clears both tokens |
| AuthRepository.AuthRepositoryImpl.RefreshToken | app/src/main/java/com/cafe/management/android/domain/repository/AuthRepositoryImpl.kt:103-131 | no stored refresh token: Error, no step, no change; otherwise one refresh call, then on success the new pair written, on any failure both tokens cleared |
| AuthRepository.AuthRepositoryImpl.GetCurrentUser | app/src/main/java/com/cafe/management/android/domain/repository/AuthRepositoryImpl.kt:69-101 | a 401 triggers one refresh and, only if it succeeds, one retry after the new tokens are written; a failed refresh clears the tokens; any other error fails without a refresh; at most four steps |
| TransactionStore.MarkCancelled | app/src/main/java/com/cafe/management/android/data/local/database/dao/TransactionDao.kt:28-29 | the UPDATE changes the matching rows and leaves every other row, and the row count, as they were |
| TransactionRepository.ToItemEntities | app/src/main/java/com/cafe/management/android/domain/repository/TransactionRepositoryImpl.kt:253-264 | one item row per item of the transaction, in order, each pointing to the transaction's id |
| TransactionRepository.ConvertAll | app/src/main/java/com/cafe/management/android/domain/repository/TransactionRepositoryImpl.kt:227-233 | one converted transaction per stored row, in the rows' order |
| ProductRepository.ToCategoryEntities | app/src/main/java/com/cafe/management/android/domain/repository/ProductRepositoryImpl.kt:34-41 | one cache row per category, in order |
| ProductRepository.FromCategoryEntities | app/src/main/java/com/cafe/management/android/domain/repository/ProductRepositoryImpl.kt:48-56 | one category per cached row, in order |
| ProductRepository.ToProductEntities | app/src/main/java/com/cafe/management/android/domain/repository/ProductRepositoryImpl.kt:81-92 | one cache row per product, in order |
| ProductRepository.FromProductEntities | app/src/main/java/com/cafe/management/android/domain/repository/ProductRepositoryImpl.kt:103-116 | one product per cached row, in order |
| Money.RoundHalfEven | app/src/main/java/com/cafe/management/android/domain/repository/ProductRepositoryImpl.kt:185 | BigDecimal division at the dividend's scale: the nearest integer quotient, ties to the even one |
| Money.RoundHalfUp | app/src/main/java/com/cafe/management/android/presentation/screens/transaction/TransactionViewModel.kt:80 | HALF_UP rounding: the nearest integer quotient, ties away from zero |
| Money.ToCents | app/src/main/java/com/cafe/management/android/presentation/screens/transaction/TransactionViewModel.kt:80 | setScale(2, HALF_UP): exact for at most two decimals, otherwise the nearest cent with ties away from zero |
| Calendar.DayOfWeek | app/src/main/java/com/cafe/management/android/presentation/screens/history/TransactionHistoryViewModel.kt:126 | ISO day of the week, Monday 1 to Sunday 7 |
| Text.Lowercase | app/src/main/java/com/cafe/management/android/presentation/screens/products/ProductsViewModel.kt:121 | maps each character by Lower (A-Z, Latin-1 and Cyrillic capitals) and keeps the length |
| Text.Utf16Length | app/src/main/java/com/cafe/management/android/domain/usecases/ValidateLoginFieldsUseCase.kt:13 | String.length counts UTF-16 units: between one and two per character, and 0 only for the empty string |

## Left out

- **Flows and coroutines.** The `Loading` emissions, `collect`, `stateIn`
  and `viewModelScope` interleavings are left out. Each call is modelled as
  one sequential step from its terminal outcome. `loadData` runs the
  category load and then the product load, although in the app they are
  launched concurrently.
- **Exception text.** Messages such as "Помилка: ${e.message}" carry the
  exception's text. Each becomes one message constructor without that text.
- **Payload serialization.** The Gson serialization of queued requests is
  not modelled. The payload is an opaque value that round-trips.
- **Timestamp formatting.** `LocalDateTime.toString` and `parse` are
  left out. Date ranges are epoch days, the cancel window uses epoch
  seconds, and parsing is a parameter.
- **Price scale.** Prices are assumed to be at scale 2, so amounts are
  whole cents. The offline price formula is exact under that assumption.
  A catalogue price entered with more decimals is not modelled.
- **TokenManager storage.** Writes to the DataStore are modelled as
  always succeeding. A failing disk write is left out.
- **Today's and the last transaction.** `getTodayTransactions`
  (TransactionRepositoryImpl.kt:84-109) repeats `getTransactionsByDateRange`'s
  save-and-fallback for the range from today's start to tomorrow's, read
  from the device clock; `getMyLastTransaction` (111-127) passes the
  server's reply through. Neither is modelled.
- **Screens and excluded components.** The following are not part of
  this model:
  - the Compose screens, except the two dialog acceptance rules, which
    become the preconditions of `ApplyDiscount` and `AddToCart`;
  - the commented-out cart screen;
  - the reports view-model, which produces random mock data;
  - WorkManager synchronisation;
  - dependency injection beyond which HTTP client `AuthApi` is built on,
    the interceptors' own code, and the logging.
- **A Flow that throws.** When a repository Flow ends with an exception
  (`FlowEnd.Throws`), the collecting coroutine fails. The view-models are
  modelled only for the values a Flow emits.
- TransactionViewModel.TransactionViewModel.ApplyDiscount: requires the
  discount dialog's acceptance rule. The view-model would accept any
  value, but the screen never passes a rejected one.
- ProductsViewModel.ProductsViewModel.AddToCart: requires a weight above
  zero, as the weight dialog enforces.
- Text.Lowercase: maps only A-Z, the Latin-1 capitals U+00C0-U+00DE
  except U+00D7, the Cyrillic capitals U+0400-U+042F, and U+0490.
  Kotlin's `lowercase()` applies the full Unicode case mapping, which
  covers other scripts and can change a string's length (U+0130 becomes
  two characters). Neither is modelled, so `FilterProducts` matches queries
  in those other scripts only character for character.
- ProductRepository.ProductRepositoryImpl.CalculatePrice: the offline
  price uses HALF_EVEN at the cached price's scale (2). Prices of any other
  scale are not modelled.

## Findings

| source | as written | input that shows it | evidently intended | confidence | as-written member | corrected member |
|---|---|---|---|---|---|---|
| app/src/main/java/com/cafe/management/android/presentation/screens/transaction/TransactionViewModel.kt:73-80 | `total * value / 100` rounds HALF_EVEN to the scale of `total * value`. For a whole-number percentage that is already cents, so the later `setScale(2, HALF_UP)` never rounds anything. The percentage discount is therefore rounded half-to-even. | a total of 0.25 with a 10 % discount: the exact amount is 0.025; the code gives 0.02, HALF_UP gives 0.03 | the percentage of the total rounded once to the nearest cent, ties away from zero | medium, not executed | TransactionViewModel.PercentageRoundingCounterexample | TransactionViewModel.PercentageDiscount |
