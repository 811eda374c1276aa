/** TransactionRepositoryImpl: the server is the source of truth, the Room
    tables are a local history and an outbox of requests that could not be
    sent (the pending queue).

    Every remote call is a `RemoteOutcome` parameter; fresh UUIDs and
    `LocalDateTime.now()` strings are parameters; a failing DAO statement is a
    fault flag. The Loading emission of each Flow is not modelled: a method
    returns the one terminal `Resource` the Flow emits. */
module TransactionRepository {
  import opened Outcomes
  import opened Models
  import Seqs
  import Tables
  import opened TransactionStore

  // ---- saveTransactionToLocal / convertToTransaction ----

  function ToEntity(t: Transaction): TransactionEntity
  {
    TransactionEntity(t.id, t.transactionNumber, t.totalAmount, t.discountAmount, t.finalAmount,
                      t.paymentMethod, t.isCancelled, None, t.createdAt, t.createdBy.username)
  }

  function ToItemEntity(transactionId: string, item: TransactionItem): TransactionItemEntity
  {
    TransactionItemEntity(item.id, transactionId, item.productId, item.productName,
                          item.pricePer100g, item.weightGrams, item.totalPrice)
  }

  function ToItemEntities(t: Transaction): (r: seq<TransactionItemEntity>)
    ensures |r| == |t.items|
    ensures forall i :: 0 <= i < |r| ==> r[i] == ToItemEntity(t.id, t.items[i])
  {
    seq(|t.items|, i requires 0 <= i < |t.items| => ToItemEntity(t.id, t.items[i]))
  }

  function FromItemEntity(e: TransactionItemEntity): TransactionItem
  {
    TransactionItem(e.id, e.productId, e.productName, e.pricePer100g, e.weightGrams, e.totalPrice)
  }

  /** `convertToTransaction`: the entity and its item rows as a Transaction.
      Only the creator's username is stored, so the creator comes back with
      an empty id and email and the SELLER role. */
  function ConvertToTransaction(db: Db, e: TransactionEntity): (t: Transaction)
    ensures t.id == e.id && t.createdBy == User("", e.createdByUsername, "", SELLER)
    ensures |t.items| == |GetTransactionItems(db, e.id)|
  {
    var rows := GetTransactionItems(db, e.id);
    Transaction(e.id, e.transactionNumber,
                seq(|rows|, i requires 0 <= i < |rows| => FromItemEntity(rows[i])),
                e.totalAmount, e.discountAmount, e.finalAmount, e.paymentMethod,
                e.isCancelled, e.createdAt, User("", e.createdByUsername, "", SELLER))
  }

  /** Which of the two inserts of `saveTransactionToLocal` throws. */
  datatype SaveFaults = SaveFaults(transactionRow: bool, itemRows: bool)

  const NoFaults := SaveFaults(false, false)

  /** The effect of `saveTransactionToLocal`, which swallows its own failure:
      the transaction row, then its item rows. */
  function SaveLocal(db: Db, t: Transaction, f: SaveFaults): Db
  {
    if f.transactionRow then db
    else
      var db1 := WithTransaction(db, ToEntity(t));
      if f.itemRows then db1 else WithItems(db1, ToItemEntities(t))
  }

  /** What a transaction looks like after a trip through the local tables. */
  function AsStored(t: Transaction): Transaction
  {
    t.(createdBy := User("", t.createdBy.username, "", SELLER))
  }

  /** `saveTransactionToLocal` keeps the tables consistent and the queue
      as it was, never loses a transaction row, and stores `t` under its id
      unless the first insert throws. */
  lemma SaveLocalSpec(db: Db, t: Transaction, f: SaveFaults)
    requires Consistent(db)
    ensures Consistent(SaveLocal(db, t, f))
    ensures SaveLocal(db, t, f).pending == db.pending
    ensures forall k :: GetTransactionById(db, k).Some? ==> GetTransactionById(SaveLocal(db, t, f), k).Some?
    ensures !f.transactionRow ==> GetTransactionById(SaveLocal(db, t, f), t.id) == Some(ToEntity(t))
    ensures forall k :: GetTransactionById(SaveLocal(db, t, f), k) ==
                        (if !f.transactionRow && k == t.id then Some(ToEntity(t)) else GetTransactionById(db, k))
  {
    if !f.transactionRow {
      var db1 := WithTransaction(db, ToEntity(t));
      WithTransactionSpec(db, ToEntity(t));
      if !f.itemRows {
        forall x | x in ToItemEntities(t) ensures Tables.HasKey(db1.transactions, TransactionKey, x.transactionId) {
          assert GetTransactionById(db1, t.id).Some?;
        }
        WithItemsSpec(db1, ToItemEntities(t));
      }
    }
  }

  /** Save-then-convert round trip: a transaction saved without a fault reads
      back as itself, items in order, except for the creator's id, email and
      role, which are not stored. Item ids are primary keys, so the items of
      one transaction have distinct ids. */
  lemma SaveThenConvert(db: Db, t: Transaction)
    requires Consistent(db)
    requires forall i, j :: 0 <= i < j < |t.items| ==> t.items[i].id != t.items[j].id
    ensures GetTransactionById(SaveLocal(db, t, NoFaults), t.id) == Some(ToEntity(t))
    ensures ConvertToTransaction(SaveLocal(db, t, NoFaults), ToEntity(t)) == AsStored(t)
  {
    SaveLocalSpec(db, t, NoFaults);
    var db1 := WithTransaction(db, ToEntity(t));
    WithTransactionSpec(db, ToEntity(t));
    var batch := ToItemEntities(t);
    Tables.FilterUpsertAll(db1.items, ItemKey, batch, (x: TransactionItemEntity) => x.transactionId == t.id);
    var db2 := SaveLocal(db, t, NoFaults);
    assert GetTransactionItems(db2, t.id) == batch;
    var back := ConvertToTransaction(db2, ToEntity(t));
    assert back.items == t.items;
  }

  // ---- the drain of the pending queue ----

  /** What happens to one queued entry during a drain: the reply of the
      create call (any failure to read back the stored JSON is an error
      reply), the faults of the local save, and whether the delete of the
      queued row throws. */
  datatype SyncAttempt = SyncAttempt(reply: RemoteOutcome<Transaction>, saveFaults: SaveFaults, deleteFault: bool)

  /** The log lines of a drain: one per entry of the snapshot, or one for a
      pass whose read of the queue failed. */
  datatype SyncLogEntry = Synced(id: string) | SyncFailed(id: string) | SyncAborted

  /** An entry leaves the queue exactly when the server accepted it and the
      delete did not throw. */
  predicate Removes(a: SyncAttempt)
  {
    a.reply.Ok? && !a.deleteFault
  }

  function DrainStep(db: Db, e: PendingTransactionEntity, a: SyncAttempt): Db
  {
    match a.reply
    case Ok(t) =>
      var db1 := SaveLocal(db, t, a.saveFaults);
      if a.deleteFault then db1 else WithoutPending(db1, e.id)
    case _ => db
  }

  /** The effect of replaying `entries` in order. */
  function Drain(db: Db, entries: seq<PendingTransactionEntity>, attempt: PendingTransactionEntity -> SyncAttempt): Db
    decreases |entries|
  {
    if entries == [] then db
    else
      var last := entries[|entries| - 1];
      DrainStep(Drain(db, entries[..|entries| - 1], attempt), last, attempt(last))
  }

  function DrainLog(entries: seq<PendingTransactionEntity>, attempt: PendingTransactionEntity -> SyncAttempt): (log: seq<SyncLogEntry>)
    ensures |log| == |entries|
    ensures forall i :: 0 <= i < |entries| ==>
              log[i] == if Removes(attempt(entries[i])) then Synced(entries[i].id) else SyncFailed(entries[i].id)
  {
    seq(|entries|, i requires 0 <= i < |entries| =>
      if Removes(attempt(entries[i])) then Synced(entries[i].id) else SyncFailed(entries[i].id))
  }

  lemma DrainLogAppend(entries: seq<PendingTransactionEntity>, e: PendingTransactionEntity, attempt: PendingTransactionEntity -> SyncAttempt)
    ensures DrainLog(entries + [e], attempt) ==
            DrainLog(entries, attempt) + [if Removes(attempt(e)) then Synced(e.id) else SyncFailed(e.id)]
  {
  }

  /** The ids a replay of `entries` deletes. */
  function RemovedIds(entries: seq<PendingTransactionEntity>, attempt: PendingTransactionEntity -> SyncAttempt): set<string>
  {
    set e | e in entries && Removes(attempt(e)) :: e.id
  }

  /** The queued rows whose id is not in `ids`, in queue order. */
  function Surviving(pending: seq<PendingTransactionEntity>, ids: set<string>): seq<PendingTransactionEntity>
  {
    Seqs.Filter(pending, (x: PendingTransactionEntity) => x.id !in ids)
  }

  lemma {:induction false} DeleteFromSurviving(pending: seq<PendingTransactionEntity>, ids: set<string>, k: string)
    ensures Tables.Delete(Surviving(pending, ids), PendingKey, k) == Surviving(pending, ids + {k})
    decreases |pending|
  {
    if pending != [] {
      var h, t := pending[0], pending[1..];
      DeleteFromSurviving(t, ids, k);
      var rest := Surviving(t, ids);
      if h.id in ids {
        assert Surviving(pending, ids) == rest;
        assert Surviving(pending, ids + {k}) == Surviving(t, ids + {k});
      } else {
        assert Surviving(pending, ids) == [h] + rest;
        assert ([h] + rest)[1..] == rest;
        if h.id == k {
          assert Tables.Delete([h] + rest, PendingKey, k) == Tables.Delete(rest, PendingKey, k);
          assert Surviving(pending, ids + {k}) == Surviving(t, ids + {k});
        } else {
          assert Tables.Delete([h] + rest, PendingKey, k) == [h] + Tables.Delete(rest, PendingKey, k);
          assert h.id !in ids + {k};
          assert pending == [h] + t;
          assert Surviving(pending, ids + {k}) == [h] + Surviving(t, ids + {k});
        }
      }
    }
  }

  lemma {:induction false} SurvivingAll(pending: seq<PendingTransactionEntity>)
    ensures Surviving(pending, {}) == pending
    decreases |pending|
  {
    if pending != [] {
      SurvivingAll(pending[1..]);
    }
  }

  /** One step of a replay keeps the tables consistent, deletes the entry
      from the queue exactly when it is removed, and loses no transaction
      row. */
  lemma DrainStepSpec(d: Db, e: PendingTransactionEntity, a: SyncAttempt)
    requires Consistent(d)
    ensures Consistent(DrainStep(d, e, a))
    ensures DrainStep(d, e, a).pending == if Removes(a) then Tables.Delete(d.pending, PendingKey, e.id) else d.pending
    ensures forall k :: GetTransactionById(d, k).Some? ==> GetTransactionById(DrainStep(d, e, a), k).Some?
  {
    if a.reply.Ok? {
      SaveLocalSpec(d, a.reply.value, a.saveFaults);
      if !a.deleteFault {
        WithoutPendingSpec(SaveLocal(d, a.reply.value, a.saveFaults), e.id);
      }
    }
  }

  /** A replay changes the queue only by deleting the entries it removes:
      what remains is the old queue without them, in the old order. */
  lemma {:induction false} DrainQueue(db: Db, entries: seq<PendingTransactionEntity>, attempt: PendingTransactionEntity -> SyncAttempt)
    requires Consistent(db)
    ensures Consistent(Drain(db, entries, attempt))
    ensures Drain(db, entries, attempt).pending == Surviving(db.pending, RemovedIds(entries, attempt))
    ensures forall k :: GetTransactionById(db, k).Some? ==> GetTransactionById(Drain(db, entries, attempt), k).Some?
    decreases |entries|
  {
    if entries == [] {
      assert RemovedIds(entries, attempt) == {};
      SurvivingAll(db.pending);
    } else {
      var init, last := entries[..|entries| - 1], entries[|entries| - 1];
      DrainQueue(db, init, attempt);
      var a := attempt(last);
      DrainStepSpec(Drain(db, init, attempt), last, a);
      assert entries == init + [last];
      if Removes(a) {
        DeleteFromSurviving(db.pending, RemovedIds(init, attempt), last.id);
        assert RemovedIds(entries, attempt) == RemovedIds(init, attempt) + {last.id};
      } else {
        assert RemovedIds(entries, attempt) == RemovedIds(init, attempt);
      }
    }
  }

  /** Whether the attempt leaves the server's transaction in the local table. */
  predicate StoresRow(a: SyncAttempt)
  {
    a.reply.Ok? && !a.saveFaults.transactionRow
  }

  /** The row the last entry of `entries` whose attempt stores a transaction
      with id `k` leaves behind, if there is one. */
  function LastStored(entries: seq<PendingTransactionEntity>, attempt: PendingTransactionEntity -> SyncAttempt, k: string): Option<TransactionEntity>
    decreases |entries|
  {
    if entries == [] then None
    else
      var a := attempt(entries[|entries| - 1]);
      if StoresRow(a) && a.reply.value.id == k then Some(ToEntity(a.reply.value))
      else LastStored(entries[..|entries| - 1], attempt, k)
  }

  /** A replay stores, under the server's id, every transaction the server
      returned whose row insert did not throw; looking up any id afterwards
      gives the row of the last entry stored under it, or else what the
      table held before the replay. */
  lemma {:induction false} DrainStoresAccepted(db: Db, entries: seq<PendingTransactionEntity>, attempt: PendingTransactionEntity -> SyncAttempt)
    requires Consistent(db)
    ensures forall e :: e in entries && StoresRow(attempt(e)) ==>
              GetTransactionById(Drain(db, entries, attempt), attempt(e).reply.value.id).Some?
    ensures forall k :: GetTransactionById(Drain(db, entries, attempt), k) ==
              (if LastStored(entries, attempt, k).Some? then LastStored(entries, attempt, k) else GetTransactionById(db, k))
    decreases |entries|
  {
    if entries != [] {
      var init, last := entries[..|entries| - 1], entries[|entries| - 1];
      DrainStoresAccepted(db, init, attempt);
      DrainQueue(db, init, attempt);
      var d := Drain(db, init, attempt);
      var a := attempt(last);
      assert entries == init + [last];
      if a.reply.Ok? {
        SaveLocalSpec(d, a.reply.value, a.saveFaults);
        if !a.deleteFault {
          var d1 := SaveLocal(d, a.reply.value, a.saveFaults);
          assert WithoutPending(d1, last.id).transactions == d1.transactions;
        }
      }
    }
  }

  /** In particular, an accepted transaction whose id no later stored entry
      reuses is found under that id exactly as the server returned it. */
  lemma DrainKeepsLastAccepted(db: Db, entries: seq<PendingTransactionEntity>, attempt: PendingTransactionEntity -> SyncAttempt, i: int)
    requires Consistent(db)
    requires 0 <= i < |entries| && StoresRow(attempt(entries[i]))
    requires forall j :: i < j < |entries| && StoresRow(attempt(entries[j])) ==>
               attempt(entries[j]).reply.value.id != attempt(entries[i]).reply.value.id
    ensures GetTransactionById(Drain(db, entries, attempt), attempt(entries[i]).reply.value.id) ==
            Some(ToEntity(attempt(entries[i]).reply.value))
  {
    DrainStoresAccepted(db, entries, attempt);
    LastStoredAt(entries, attempt, i);
  }

  lemma {:induction false} LastStoredAt(entries: seq<PendingTransactionEntity>, attempt: PendingTransactionEntity -> SyncAttempt, i: int)
    requires 0 <= i < |entries| && StoresRow(attempt(entries[i]))
    requires forall j :: i < j < |entries| && StoresRow(attempt(entries[j])) ==>
               attempt(entries[j]).reply.value.id != attempt(entries[i]).reply.value.id
    ensures LastStored(entries, attempt, attempt(entries[i]).reply.value.id) == Some(ToEntity(attempt(entries[i]).reply.value))
    decreases |entries|
  {
    if i < |entries| - 1 {
      var init := entries[..|entries| - 1];
      assert forall j :: i < j < |init| ==> init[j] == entries[j];
      LastStoredAt(init, attempt, i);
    }
  }

  /** On the pass's own snapshot of the queue: an entry stays queued exactly
      when its attempt failed, the entries that stay keep their relative
      order, and each removed entry's transaction was returned by the server. */
  lemma DrainOfSnapshot(db: Db, attempt: PendingTransactionEntity -> SyncAttempt)
    requires Consistent(db)
    ensures var after := Drain(db, GetAllPendingTransactions(db), attempt);
            && (forall x :: x in db.pending ==> (x in after.pending <==> !Removes(attempt(x))))
            && (forall x :: x in after.pending ==> x in db.pending)
            && Seqs.SubsequenceOf(after.pending, db.pending)
            && Consistent(after)
  {
    var snapshot := GetAllPendingTransactions(db);
    DrainQueue(db, snapshot, attempt);
    var ids := RemovedIds(snapshot, attempt);
    forall x | x in db.pending ensures x.id in ids <==> Removes(attempt(x)) {
      assert x in multiset(snapshot);
      if x.id in ids {
        var e :| e in snapshot && Removes(attempt(e)) && e.id == x.id;
        assert e in multiset(db.pending);
        Tables.UniqueKeysInjective(db.pending, PendingKey, e, x);
      }
    }
  }

  // ---- the repository ----

  class TransactionRepositoryImpl {
    const dao: TransactionDao

    constructor(dao: TransactionDao)
      ensures this.dao == dao
    {
      this.dao := dao;
    }

    /** `saveTransactionToLocal`: failures are swallowed. */
    method SaveTransactionToLocal(t: Transaction, faults: SaveFaults)
      requires dao.Valid()
      modifies dao
      ensures dao.Valid()
      ensures dao.State() == SaveLocal(old(dao.State()), t, faults)
    {
      var ok := dao.InsertTransaction(ToEntity(t), faults.transactionRow);
      if ok {
        WithTransactionSpec(old(dao.State()), ToEntity(t));
        assert TransactionStore.GetTransactionById(dao.State(), t.id).Some?;
        ok := dao.InsertTransactionItems(ToItemEntities(t), faults.itemRows);
      }
    }

    /** `savePendingTransaction`: queues the request under a fresh id with the
        current time; a failed insert is swallowed, so the queue grows by
        that one row or stays as it was. */
    method SavePendingTransaction(request: CreateTransactionRequest, freshId: string, now: string, fault: bool)
      requires dao.Valid()
      modifies dao
      ensures dao.Valid()
      ensures var row := PendingTransactionEntity(freshId, request, now);
              dao.State() == if !fault && !Tables.HasKey(old(dao.State()).pending, PendingKey, freshId)
                             then WithPending(old(dao.State()), row) else old(dao.State())
      ensures GetPendingTransactionsCount(dao.State()) == GetPendingTransactionsCount(old(dao.State()))
           || GetPendingTransactionsCount(dao.State()) == GetPendingTransactionsCount(old(dao.State())) + 1
    {
      var ok := dao.InsertPendingTransaction(PendingTransactionEntity(freshId, request, now), fault);
    }

    /** `createTransaction`. A transaction the server accepted is saved to the
        history; a request that could not reach the server is queued. */
    method CreateTransaction(request: CreateTransactionRequest, reply: RemoteOutcome<Transaction>,
                             saveFaults: SaveFaults, freshId: string, now: string, queueFault: bool)
      returns (r: Resource<Transaction>)
      requires dao.Valid()
      modifies dao
      ensures dao.Valid()
      ensures reply.Ok? ==> r == Success(reply.value) && dao.State() == SaveLocal(old(dao.State()), reply.value, saveFaults)
      ensures reply.NoConnectivity? ==> r == Error(Some(SavedLocallyWillSync))
      ensures reply.Io? ==> r == Error(Some(NetworkSavedLocally))
      ensures reply.Http? ==> r == Error(Some(CreateFailed(reply.code)))
      ensures reply.Other? ==> r == Error(Some(Unexpected))
      ensures (reply.NoConnectivity? || reply.Io?) ==>
                var row := PendingTransactionEntity(freshId, request, now);
                dao.State() == if !queueFault && !Tables.HasKey(old(dao.State()).pending, PendingKey, freshId)
                               then WithPending(old(dao.State()), row) else old(dao.State())
      ensures (reply.Http? || reply.Other?) ==> dao.State() == old(dao.State())
    {
      match reply {
        case Ok(t) =>
          SaveTransactionToLocal(t, saveFaults);
          r := Success(t);
        case NoConnectivity =>
          SavePendingTransaction(request, freshId, now, queueFault);
          r := Error(Some(SavedLocallyWillSync));
        case Http(code) =>
          r := Error(Some(CreateFailed(code)));
        case Io =>
          SavePendingTransaction(request, freshId, now, queueFault);
          r := Error(Some(NetworkSavedLocally));
        case Other =>
          r := Error(Some(Unexpected));
      }
    }

    /** `syncPendingTransactions`: one pass over a snapshot of the queue,
        oldest first. Each entry is replayed once; its failure is logged and
        the pass goes on. A failed read of the queue ends the pass with
        nothing changed. Nothing is thrown. */
    method SyncPendingTransactions(attempt: PendingTransactionEntity -> SyncAttempt, readFault: bool)
      returns (log: seq<SyncLogEntry>)
      requires dao.Valid()
      modifies dao
      ensures dao.Valid()
      ensures readFault ==> log == [SyncAborted] && dao.State() == old(dao.State())
      ensures !readFault ==>
                var snapshot := GetAllPendingTransactions(old(dao.State()));
                && log == DrainLog(snapshot, attempt)
                && dao.State() == Drain(old(dao.State()), snapshot, attempt)
    {
      if readFault {
        return [SyncAborted];
      }
      var snapshot := GetAllPendingTransactions(dao.State());
      log := [];
      var i := 0;
      while i < |snapshot|
        invariant 0 <= i <= |snapshot|
        invariant dao.Valid()
        invariant dao.State() == Drain(old(dao.State()), snapshot[..i], attempt)
        invariant log == DrainLog(snapshot[..i], attempt)
      {
        var pending := snapshot[i];
        var a := attempt(pending);
        assert snapshot[..i + 1] == snapshot[..i] + [pending];
        assert snapshot[..i + 1][..i] == snapshot[..i];
        DrainLogAppend(snapshot[..i], pending, attempt);
        match a.reply {
          case Ok(t) =>
            SaveTransactionToLocal(t, a.saveFaults);
            var deleted := dao.DeletePendingTransaction(pending.id, a.deleteFault);
            log := log + [if deleted then Synced(pending.id) else SyncFailed(pending.id)];
          case _ =>
            log := log + [SyncFailed(pending.id)];
        }
        i := i + 1;
      }
      assert snapshot[..i] == snapshot;
    }

    /** `getTransactionById`: the server's copy, or offline the stored one. */
    method GetTransactionById(id: string, reply: RemoteOutcome<Transaction>, readFault: bool)
      returns (r: FlowEnd<Transaction>)
      requires dao.Valid()
      ensures reply.Ok? ==> r == Emits(Success(reply.value))
      ensures reply.NoConnectivity? && readFault ==> r == Throws
      ensures reply.NoConnectivity? && !readFault ==>
                match TransactionStore.GetTransactionById(dao.State(), id)
                case Some(e) => r == Emits(Success(ConvertToTransaction(dao.State(), e)))
                case None => r == Emits(Error(Some(TransactionNotFound)))
      ensures reply.Http? ==>
                r == Emits(Error(Some(if reply.code == 404 then TransactionNotFound else ServerError(reply.code))))
      ensures (reply.Io? || reply.Other?) ==> r == Emits(Error(Some(Failed)))
    {
      match reply {
        case Ok(t) =>
          r := Emits(Success(t));
        case NoConnectivity =>
          if readFault {
            return Throws;
          }
          var local := TransactionStore.GetTransactionById(dao.State(), id);
          if local.Some? {
            r := Emits(Success(ConvertToTransaction(dao.State(), local.value)));
          } else {
            r := Emits(Error(Some(TransactionNotFound)));
          }
        case Http(code) =>
          r := Emits(Error(Some(if code == 404 then TransactionNotFound else ServerError(code))));
        case _ =>
          r := Emits(Error(Some(Failed)));
      }
    }

    /** `getTransactionsByDateRange`: the server's list, each saved to the
        history in list order; offline, the stored rows in the range, newest
        first. */
    method GetTransactionsByDateRange(from: string, to: string, reply: RemoteOutcome<seq<Transaction>>,
                                      saveFaults: Transaction -> SaveFaults, readFault: bool)
      returns (r: FlowEnd<seq<Transaction>>)
      requires dao.Valid()
      modifies dao
      ensures dao.Valid()
      ensures reply.Ok? ==>
                r == Emits(Success(reply.value)) && dao.State() == SaveAll(old(dao.State()), reply.value, saveFaults)
      ensures !reply.Ok? ==> dao.State() == old(dao.State())
      ensures reply.NoConnectivity? && readFault ==> r == Throws
      ensures reply.NoConnectivity? && !readFault ==>
                r == Emits(Success(ConvertAll(old(dao.State()),
                                              TransactionStore.GetTransactionsByDateRange(old(dao.State()), from, to))))
      ensures reply.Http? ==> r == Emits(Error(Some(ServerError(reply.code))))
      ensures (reply.Io? || reply.Other?) ==> r == Emits(Error(Some(Failed)))
    {
      match reply {
        case Ok(ts) =>
          var i := 0;
          while i < |ts|
            invariant 0 <= i <= |ts|
            invariant dao.Valid()
            invariant dao.State() == SaveAll(old(dao.State()), ts[..i], saveFaults)
          {
            assert ts[..i + 1][..i] == ts[..i];
            SaveTransactionToLocal(ts[i], saveFaults(ts[i]));
            i := i + 1;
          }
          assert ts[..i] == ts;
          r := Emits(Success(ts));
        case NoConnectivity =>
          if readFault {
            return Throws;
          }
          var rows := TransactionStore.GetTransactionsByDateRange(dao.State(), from, to);
          r := Emits(Success(ConvertAll(dao.State(), rows)));
        case Http(code) =>
          r := Emits(Error(Some(ServerError(code))));
        case _ =>
          r := Emits(Error(Some(Failed)));
      }
    }

    /** `cancelTransaction`: cancelling needs the server; the stored row is
        then marked. A failure of that local update is reported as an error
        although the server has already cancelled the transaction. */
    method CancelTransaction(id: string, reason: string, reply: RemoteOutcome<Transaction>, updateFault: bool)
      returns (r: Resource<Transaction>)
      requires dao.Valid()
      modifies dao
      ensures dao.Valid()
      ensures reply.Ok? ==>
                && r == (if updateFault then Error(Some(Failed)) else Success(reply.value))
                && dao.State() == if updateFault then old(dao.State()) else WithCancellation(old(dao.State()), id, true, reason)
      ensures reply.NoConnectivity? ==> r == Error(Some(ConnectionNeededToCancel))
      ensures reply.Http? ==>
                r == Error(Some(if reply.code == 400 then CannotCancel
                                else if reply.code == 404 then TransactionNotFound
                                else ServerError(reply.code)))
      ensures (reply.Io? || reply.Other?) ==> r == Error(Some(Failed))
      ensures !reply.Ok? ==> dao.State() == old(dao.State())
    {
      match reply {
        case Ok(t) =>
          var ok := dao.UpdateTransactionCancelled(id, true, reason, updateFault);
          r := if ok then Success(t) else Error(Some(Failed));
        case NoConnectivity =>
          r := Error(Some(ConnectionNeededToCancel));
        case Http(code) =>
          r := Error(Some(if code == 400 then CannotCancel
                          else if code == 404 then TransactionNotFound
                          else ServerError(code)));
        case _ =>
          r := Error(Some(Failed));
      }
    }
  }

  /** The effect of saving each transaction of a list, in list order. */
  function SaveAll(db: Db, ts: seq<Transaction>, saveFaults: Transaction -> SaveFaults): Db
    decreases |ts|
  {
    if ts == [] then db
    else
      var last := ts[|ts| - 1];
      SaveLocal(SaveAll(db, ts[..|ts| - 1], saveFaults), last, saveFaults(last))
  }

  function ConvertAll(db: Db, rows: seq<TransactionEntity>): (r: seq<Transaction>)
    ensures |r| == |rows|
    ensures forall i :: 0 <= i < |rows| ==> r[i] == ConvertToTransaction(db, rows[i])
  {
    seq(|rows|, i requires 0 <= i < |rows| => ConvertToTransaction(db, rows[i]))
  }

  /** Saving a list keeps every stored transaction and stores each listed
      one whose row insert did not throw. */
  lemma {:induction false} SaveAllStores(db: Db, ts: seq<Transaction>, saveFaults: Transaction -> SaveFaults)
    requires Consistent(db)
    ensures Consistent(SaveAll(db, ts, saveFaults))
    ensures SaveAll(db, ts, saveFaults).pending == db.pending
    ensures forall k :: GetTransactionById(db, k).Some? ==> GetTransactionById(SaveAll(db, ts, saveFaults), k).Some?
    ensures forall t :: t in ts && !saveFaults(t).transactionRow ==> GetTransactionById(SaveAll(db, ts, saveFaults), t.id).Some?
    decreases |ts|
  {
    if ts != [] {
      var init, last := ts[..|ts| - 1], ts[|ts| - 1];
      SaveAllStores(db, init, saveFaults);
      SaveLocalSpec(SaveAll(db, init, saveFaults), last, saveFaults(last));
      assert ts == init + [last];
    }
  }
}
