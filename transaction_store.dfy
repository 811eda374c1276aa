/** The three transaction tables of the Room database and the TransactionDao
    that reads and writes them.

    `transactions` and `pending_transactions` have a TEXT primary key `id`;
    `transaction_items` has a TEXT primary key `id` and a foreign key
    `transactionId` to `transactions(id)` with ON DELETE CASCADE. Each table
    is a sequence of rows in rowid order (see module Tables). */
module TransactionStore {
  import opened Outcomes
  import opened Models
  import Seqs
  import Tables
  import Text

  function TransactionKey(e: TransactionEntity): string { e.id }
  function ItemKey(e: TransactionItemEntity): string { e.id }
  function PendingKey(e: PendingTransactionEntity): string { e.id }

  /** The contents of the three tables. */
  datatype Db = Db(
    transactions: seq<TransactionEntity>,
    items: seq<TransactionItemEntity>,
    pending: seq<PendingTransactionEntity>)

  /** What SQLite guarantees of the tables: unique primary keys, and every
      item row refers to an existing transaction row. */
  ghost predicate Consistent(db: Db)
  {
    && Tables.UniqueKeys(db.transactions, TransactionKey)
    && Tables.UniqueKeys(db.items, ItemKey)
    && Tables.UniqueKeys(db.pending, PendingKey)
    && (forall x :: x in db.items ==> Tables.HasKey(db.transactions, TransactionKey, x.transactionId))
  }

  // ---- effects of the write queries ----

  /** `insertTransaction` (REPLACE): an existing row with the same id is
      deleted, which cascades to its item rows, and the new row is added. */
  function WithTransaction(db: Db, row: TransactionEntity): Db
  {
    var items :=
      if Tables.HasKey(db.transactions, TransactionKey, row.id)
      then Seqs.Filter(db.items, (x: TransactionItemEntity) => x.transactionId != row.id)
      else db.items;
    db.(transactions := Tables.Upsert(db.transactions, TransactionKey, row), items := items)
  }

  /** The foreign key check of `insertTransactionItems`. */
  predicate ItemsHaveParents(db: Db, batch: seq<TransactionItemEntity>)
  {
    forall x :: x in batch ==> Tables.HasKey(db.transactions, TransactionKey, x.transactionId)
  }

  /** `insertTransactionItems` (REPLACE, row by row). */
  function WithItems(db: Db, batch: seq<TransactionItemEntity>): Db
  {
    db.(items := Tables.UpsertAll(db.items, ItemKey, batch))
  }

  function Cancelled(e: TransactionEntity, isCancelled: bool, reason: string): TransactionEntity
  {
    e.(isCancelled := isCancelled, cancellationReason := Some(reason))
  }

  function MarkCancelled(rows: seq<TransactionEntity>, id: string, isCancelled: bool, reason: string): (r: seq<TransactionEntity>)
    ensures |r| == |rows|
    ensures forall i :: 0 <= i < |rows| ==> r[i] == if rows[i].id == id then Cancelled(rows[i], isCancelled, reason) else rows[i]
    decreases |rows|
  {
    if rows == [] then []
    else
      var head := if rows[0].id == id then Cancelled(rows[0], isCancelled, reason) else rows[0];
      [head] + MarkCancelled(rows[1..], id, isCancelled, reason)
  }

  /** `updateTransactionCancelled`: sets the two columns of the row with
      that id, if there is one. */
  function WithCancellation(db: Db, id: string, isCancelled: bool, reason: string): Db
  {
    db.(transactions := MarkCancelled(db.transactions, id, isCancelled, reason))
  }

  /** `insertPendingTransaction` (plain INSERT) when the id is new. */
  function WithPending(db: Db, row: PendingTransactionEntity): Db
  {
    db.(pending := db.pending + [row])
  }

  /** `deletePendingTransaction`. */
  function WithoutPending(db: Db, id: string): Db
  {
    db.(pending := Tables.Delete(db.pending, PendingKey, id))
  }

  // ---- the read queries ----

  /** `getTransactionById`. */
  function GetTransactionById(db: Db, id: string): (r: Option<TransactionEntity>)
    ensures r.Some? ==> r.value in db.transactions && r.value.id == id
    ensures r.None? <==> forall x :: x in db.transactions ==> x.id != id
  {
    Tables.Lookup(db.transactions, TransactionKey, id)
  }

  /** `getTransactionItems`: the item rows of one transaction, in rowid order. */
  function GetTransactionItems(db: Db, transactionId: string): (r: seq<TransactionItemEntity>)
    ensures forall x :: x in r <==> x in db.items && x.transactionId == transactionId
    ensures Seqs.SubsequenceOf(r, db.items)
  {
    Seqs.Filter(db.items, (x: TransactionItemEntity) => x.transactionId == transactionId)
  }

  /** `createdAt >= :startDate AND createdAt < :endDate`. */
  predicate InDateRange(e: TransactionEntity, startDate: string, endDate: string)
  {
    Text.LexLe(startDate, e.createdAt) && !Text.LexLe(endDate, e.createdAt)
  }

  /** `ORDER BY createdAt DESC`. */
  predicate NewerOrSame(a: TransactionEntity, b: TransactionEntity)
  {
    Text.LexLe(b.createdAt, a.createdAt)
  }

  /** `ORDER BY createdAt ASC`. */
  predicate PendingNotLater(a: PendingTransactionEntity, b: PendingTransactionEntity)
  {
    Text.LexLe(a.createdAt, b.createdAt)
  }

  lemma CreatedAtOrders()
    ensures Seqs.TotalPreorder(NewerOrSame)
    ensures Seqs.TotalPreorder(PendingNotLater)
  {
    forall a: string, b: string ensures Text.LexLe(a, b) || Text.LexLe(b, a) {
      Text.LexLeTotal(a, b);
    }
    forall a: string, b: string, c: string | Text.LexLe(a, b) && Text.LexLe(b, c) ensures Text.LexLe(a, c) {
      Text.LexLeTransitive(a, b, c);
    }
  }

  /** `getTransactionsByDateRange`: exactly the rows in the half-open range,
      newest first. */
  function GetTransactionsByDateRange(db: Db, startDate: string, endDate: string): (r: seq<TransactionEntity>)
    ensures forall x :: x in r <==> x in db.transactions && InDateRange(x, startDate, endDate)
    ensures multiset(r) == multiset(Seqs.Filter(db.transactions, e => InDateRange(e, startDate, endDate)))
    ensures forall i, j :: 0 <= i < j < |r| ==> Text.LexLe(r[j].createdAt, r[i].createdAt)
  {
    CreatedAtOrders();
    var r := Seqs.SortBy(Seqs.Filter(db.transactions, e => InDateRange(e, startDate, endDate)), NewerOrSame);
    r
  }

  /** `getAllPendingTransactions`: every queued request, oldest first. */
  function GetAllPendingTransactions(db: Db): (r: seq<PendingTransactionEntity>)
    ensures multiset(r) == multiset(db.pending)
    ensures forall i, j :: 0 <= i < j < |r| ==> Text.LexLe(r[i].createdAt, r[j].createdAt)
  {
    CreatedAtOrders();
    Seqs.SortBy(db.pending, PendingNotLater)
  }

  /** `getPendingTransactionsCount`: `COUNT(*)`, the number of rows the
      queue query lists. */
  function GetPendingTransactionsCount(db: Db): (r: nat)
    ensures r == |GetAllPendingTransactions(db)|
    ensures r == 0 <==> db.pending == []
  {
    |db.pending|
  }

  // ---- lemmas ----

  /** `insertTransaction` stores the row under its id, leaves every other id's
      row alone, drops the item rows of a row it replaced, and keeps the
      tables consistent. */
  lemma WithTransactionSpec(db: Db, row: TransactionEntity)
    requires Consistent(db)
    ensures Consistent(WithTransaction(db, row))
    ensures forall k :: GetTransactionById(WithTransaction(db, row), k) ==
                        (if k == row.id then Some(row) else GetTransactionById(db, k))
    ensures GetTransactionItems(WithTransaction(db, row), row.id) == []
    ensures forall t :: t != row.id ==> GetTransactionItems(WithTransaction(db, row), t) == GetTransactionItems(db, t)
    ensures WithTransaction(db, row).pending == db.pending
  {
    WithTransactionLookup(db, row);
    WithTransactionConsistent(db, row);
    WithTransactionItems(db, row);
  }

  lemma WithTransactionLookup(db: Db, row: TransactionEntity)
    requires Tables.UniqueKeys(db.transactions, TransactionKey)
    ensures forall k :: GetTransactionById(WithTransaction(db, row), k) ==
                        (if k == row.id then Some(row) else GetTransactionById(db, k))
  {
    var r := WithTransaction(db, row);
    forall k ensures GetTransactionById(r, k) == if k == row.id then Some(row) else GetTransactionById(db, k) {
      Tables.UpsertSpec(db.transactions, TransactionKey, row, k);
    }
  }

  lemma WithTransactionConsistent(db: Db, row: TransactionEntity)
    requires Consistent(db)
    ensures Consistent(WithTransaction(db, row))
  {
    var r := WithTransaction(db, row);
    Tables.UpsertSpec(db.transactions, TransactionKey, row, row.id);
    forall x | x in r.items ensures Tables.HasKey(r.transactions, TransactionKey, x.transactionId) {
      Tables.UpsertSpec(db.transactions, TransactionKey, row, x.transactionId);
    }
    if Tables.HasKey(db.transactions, TransactionKey, row.id) {
      Tables.UniqueKeysFilter(db.items, ItemKey, (x: TransactionItemEntity) => x.transactionId != row.id);
    }
  }

  lemma WithTransactionItems(db: Db, row: TransactionEntity)
    requires Consistent(db)
    ensures GetTransactionItems(WithTransaction(db, row), row.id) == []
    ensures forall t :: t != row.id ==> GetTransactionItems(WithTransaction(db, row), t) == GetTransactionItems(db, t)
  {
    var r := WithTransaction(db, row);
    forall t | t != row.id ensures GetTransactionItems(r, t) == GetTransactionItems(db, t) {
      if Tables.HasKey(db.transactions, TransactionKey, row.id) {
        Seqs.FilterNarrow(db.items, (x: TransactionItemEntity) => x.transactionId != row.id, (x: TransactionItemEntity) => x.transactionId == t);
      }
    }
  }

  /** `insertTransactionItems` stores each id's last row of the batch, leaves
      every other id's row alone, and keeps the tables consistent when the
      foreign key check passes. */
  lemma WithItemsSpec(db: Db, batch: seq<TransactionItemEntity>)
    requires Consistent(db)
    requires ItemsHaveParents(db, batch)
    ensures Consistent(WithItems(db, batch))
    ensures forall k :: Tables.Lookup(WithItems(db, batch).items, ItemKey, k) ==
                        (if Tables.LastWithKey(batch, ItemKey, k).Some? then Tables.LastWithKey(batch, ItemKey, k)
                         else Tables.Lookup(db.items, ItemKey, k))
    ensures WithItems(db, batch).transactions == db.transactions
    ensures WithItems(db, batch).pending == db.pending
  {
    forall k ensures Tables.Lookup(WithItems(db, batch).items, ItemKey, k) ==
                     (if Tables.LastWithKey(batch, ItemKey, k).Some? then Tables.LastWithKey(batch, ItemKey, k)
                      else Tables.Lookup(db.items, ItemKey, k)) {
      Tables.UpsertAllSpec(db.items, ItemKey, batch, k);
    }
    Tables.UpsertAllSpec(db.items, ItemKey, batch, "");
    Tables.UpsertAllMembers(db.items, ItemKey, batch);
  }

  lemma {:induction false} LookupMarkCancelled(rows: seq<TransactionEntity>, id: string, isCancelled: bool, reason: string, k: string)
    ensures Tables.Lookup(MarkCancelled(rows, id, isCancelled, reason), TransactionKey, k) ==
            (match Tables.Lookup(rows, TransactionKey, k)
             case None => None
             case Some(e) => Some(if e.id == id then Cancelled(e, isCancelled, reason) else e))
    decreases |rows|
  {
    if rows != [] {
      var m := MarkCancelled(rows, id, isCancelled, reason);
      assert m[1..] == MarkCancelled(rows[1..], id, isCancelled, reason);
      assert TransactionKey(m[0]) == TransactionKey(rows[0]);
      if TransactionKey(rows[0]) != k {
        LookupMarkCancelled(rows[1..], id, isCancelled, reason, k);
      }
    }
  }

  /** `updateTransactionCancelled` changes the two columns of the row with that
      id and nothing else; without such a row it changes nothing. */
  lemma WithCancellationSpec(db: Db, id: string, isCancelled: bool, reason: string)
    requires Consistent(db)
    ensures Consistent(WithCancellation(db, id, isCancelled, reason))
    ensures forall k :: GetTransactionById(WithCancellation(db, id, isCancelled, reason), k) ==
                        (if k == id && GetTransactionById(db, k).Some?
                         then Some(Cancelled(GetTransactionById(db, k).value, isCancelled, reason))
                         else GetTransactionById(db, k))
    ensures GetTransactionById(db, id).None? ==> WithCancellation(db, id, isCancelled, reason) == db
    ensures WithCancellation(db, id, isCancelled, reason).items == db.items
    ensures WithCancellation(db, id, isCancelled, reason).pending == db.pending
  {
    var r := WithCancellation(db, id, isCancelled, reason);
    Tables.SameKeys(db.transactions, r.transactions, TransactionKey);
    forall k ensures GetTransactionById(r, k) ==
                     (if k == id && GetTransactionById(db, k).Some?
                      then Some(Cancelled(GetTransactionById(db, k).value, isCancelled, reason))
                      else GetTransactionById(db, k)) {
      LookupMarkCancelled(db.transactions, id, isCancelled, reason, k);
    }
    if GetTransactionById(db, id).None? {
      assert r.transactions == db.transactions;
    }
  }

  /** A successful `insertPendingTransaction` adds exactly one row to the
      queue. */
  lemma WithPendingSpec(db: Db, row: PendingTransactionEntity)
    requires Consistent(db)
    requires !Tables.HasKey(db.pending, PendingKey, row.id)
    ensures Consistent(WithPending(db, row))
    ensures GetPendingTransactionsCount(WithPending(db, row)) == GetPendingTransactionsCount(db) + 1
    ensures multiset(GetAllPendingTransactions(WithPending(db, row))) == multiset(GetAllPendingTransactions(db)) + multiset{row}
  {
    Tables.UniqueKeysAppend(db.pending, PendingKey, row);
  }

  /** `deletePendingTransaction` drops the row with that id, if any, and keeps
      the others in order. */
  lemma WithoutPendingSpec(db: Db, id: string)
    requires Consistent(db)
    ensures Consistent(WithoutPending(db, id))
    ensures forall x :: x in WithoutPending(db, id).pending <==> x in db.pending && x.id != id
    ensures Tables.HasKey(db.pending, PendingKey, id) ==> GetPendingTransactionsCount(WithoutPending(db, id)) == GetPendingTransactionsCount(db) - 1
    ensures !Tables.HasKey(db.pending, PendingKey, id) ==> WithoutPending(db, id) == db
  {
    Tables.UniqueKeysDelete(db.pending, PendingKey, id);
    if Tables.HasKey(db.pending, PendingKey, id) {
      Tables.DeletePresent(db.pending, PendingKey, id);
    } else {
      Tables.DeleteAbsent(db.pending, PendingKey, id);
    }
  }

  /** The TransactionDao over the three tables. Each write takes a `fault`
      flag standing for an SQLite error (the statement throws); a statement
      that throws changes nothing, and its `ok` result is false. */
  class TransactionDao {
    var transactions: seq<TransactionEntity>
    var items: seq<TransactionItemEntity>
    var pending: seq<PendingTransactionEntity>

    function State(): Db
      reads this
    {
      Db(transactions, items, pending)
    }

    ghost predicate Valid()
      reads this
    {
      Consistent(State())
    }

    constructor()
      ensures Valid()
      ensures State() == Db([], [], [])
    {
      transactions, items, pending := [], [], [];
    }

    /** `insertTransaction`. */
    method InsertTransaction(row: TransactionEntity, fault: bool) returns (ok: bool)
      requires Valid()
      modifies this
      ensures Valid()
      ensures ok == !fault
      ensures State() == if ok then WithTransaction(old(State()), row) else old(State())
    {
      if fault {
        return false;
      }
      WithTransactionSpec(State(), row);
      var db := WithTransaction(State(), row);
      transactions, items := db.transactions, db.items;
      ok := true;
    }

    /** `insertTransactionItems`: one transaction, so a foreign key violation
        or a fault on any row leaves the table as it was. */
    method InsertTransactionItems(batch: seq<TransactionItemEntity>, fault: bool) returns (ok: bool)
      requires Valid()
      modifies this
      ensures Valid()
      ensures ok == (!fault && ItemsHaveParents(old(State()), batch))
      ensures State() == if ok then WithItems(old(State()), batch) else old(State())
    {
      if fault || !ItemsHaveParents(State(), batch) {
        return false;
      }
      WithItemsSpec(State(), batch);
      items := Tables.UpsertAll(items, ItemKey, batch);
      ok := true;
    }

    /** `updateTransactionCancelled`. */
    method UpdateTransactionCancelled(id: string, isCancelled: bool, reason: string, fault: bool) returns (ok: bool)
      requires Valid()
      modifies this
      ensures Valid()
      ensures ok == !fault
      ensures State() == if ok then WithCancellation(old(State()), id, isCancelled, reason) else old(State())
    {
      if fault {
        return false;
      }
      WithCancellationSpec(State(), id, isCancelled, reason);
      transactions := MarkCancelled(transactions, id, isCancelled, reason);
      ok := true;
    }

    /** `insertPendingTransaction`: a plain INSERT, so a row whose id is
        already queued is rejected rather than replacing the queued one. */
    method InsertPendingTransaction(row: PendingTransactionEntity, fault: bool) returns (ok: bool)
      requires Valid()
      modifies this
      ensures Valid()
      ensures ok == (!fault && !Tables.HasKey(old(pending), PendingKey, row.id))
      ensures State() == if ok then WithPending(old(State()), row) else old(State())
    {
      if fault || Tables.HasKey(pending, PendingKey, row.id) {
        return false;
      }
      WithPendingSpec(State(), row);
      pending := pending + [row];
      ok := true;
    }

    /** `deletePendingTransaction`. */
    method DeletePendingTransaction(id: string, fault: bool) returns (ok: bool)
      requires Valid()
      modifies this
      ensures Valid()
      ensures ok == !fault
      ensures State() == if ok then WithoutPending(old(State()), id) else old(State())
    {
      if fault {
        return false;
      }
      WithoutPendingSpec(State(), id);
      pending := Tables.Delete(pending, PendingKey, id);
      ok := true;
    }

    /** `deleteAllPendingTransactions`. */
    method DeleteAllPendingTransactions(fault: bool) returns (ok: bool)
      requires Valid()
      modifies this
      ensures Valid()
      ensures ok == !fault
      ensures State() == if ok then old(State()).(pending := []) else old(State())
    {
      if fault {
        return false;
      }
      pending := [];
      ok := true;
    }
  }
}
