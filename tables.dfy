/** A Room table with a TEXT primary key, as a sequence of rows in rowid
    order.

    `@Insert(onConflict = REPLACE)` is SQLite's INSERT OR REPLACE: the row
    with the same key, if any, is deleted and the new row is inserted with a
    new rowid, i.e. appended. A list argument is inserted row by row, in list
    order, inside one transaction. */
module Tables {
  import opened Outcomes
  import Seqs

  /** No two rows share a primary key. */
  ghost predicate UniqueKeys<T(!new)>(rows: seq<T>, key: T -> string)
    decreases |rows|
  {
    rows == [] || ((forall x :: x in rows[1..] ==> key(x) != key(rows[0])) && UniqueKeys(rows[1..], key))
  }

  predicate HasKey<T>(rows: seq<T>, key: T -> string, k: string)
  {
    exists i :: 0 <= i < |rows| && key(rows[i]) == k
  }

  /** `SELECT * FROM t WHERE id = :k`. */
  function Lookup<T>(rows: seq<T>, key: T -> string, k: string): (r: Option<T>)
    ensures r.Some? ==> r.value in rows && key(r.value) == k
    ensures r.None? <==> !HasKey(rows, key, k)
    decreases |rows|
  {
    if rows == [] then None
    else if key(rows[0]) == k then Some(rows[0])
    else
      var r := Lookup(rows[1..], key, k);
      assert HasKey(rows, key, k) <==> HasKey(rows[1..], key, k) by {
        if HasKey(rows, key, k) {
          var i :| 0 <= i < |rows| && key(rows[i]) == k;
          assert key(rows[1..][i - 1]) == k;
        }
        if HasKey(rows[1..], key, k) {
          var i :| 0 <= i < |rows[1..]| && key(rows[1..][i]) == k;
          assert key(rows[i + 1]) == k;
        }
      }
      r
  }

  /** `DELETE FROM t WHERE id = :k`. */
  function Delete<T(!new)>(rows: seq<T>, key: T -> string, k: string): (r: seq<T>)
  {
    Seqs.Filter(rows, x => key(x) != k)
  }

  /** INSERT OR REPLACE of one row. */
  function Upsert<T(!new)>(rows: seq<T>, key: T -> string, row: T): (r: seq<T>)
  {
    Delete(rows, key, key(row)) + [row]
  }

  /** INSERT OR REPLACE of a list of rows, in list order. */
  function UpsertAll<T(!new)>(rows: seq<T>, key: T -> string, batch: seq<T>): (r: seq<T>)
    decreases |batch|
  {
    if batch == [] then rows
    else Upsert(UpsertAll(rows, key, batch[..|batch| - 1]), key, batch[|batch| - 1])
  }

  /** The last row of `batch` with key `k`: the one that wins the REPLACE. */
  function LastWithKey<T>(batch: seq<T>, key: T -> string, k: string): (r: Option<T>)
    ensures r.Some? ==> r.value in batch && key(r.value) == k
    ensures r.None? ==> forall i :: 0 <= i < |batch| ==> key(batch[i]) != k
    decreases |batch|
  {
    if batch == [] then None
    else if key(batch[|batch| - 1]) == k then Some(batch[|batch| - 1])
    else LastWithKey(batch[..|batch| - 1], key, k)
  }

  // ---- lemmas ----

  lemma {:induction false} LookupAppend<T>(a: seq<T>, b: seq<T>, key: T -> string, k: string)
    ensures Lookup(a + b, key, k) == if Lookup(a, key, k).Some? then Lookup(a, key, k) else Lookup(b, key, k)
    decreases |a|
  {
    if a == [] {
      assert a + b == b;
    } else {
      assert (a + b)[1..] == a[1..] + b;
      LookupAppend(a[1..], b, key, k);
    }
  }

  /** Deleting key `k` removes that row and leaves every other key's row. */
  lemma {:induction false} LookupDelete<T(!new)>(rows: seq<T>, key: T -> string, k: string, k': string)
    ensures Lookup(Delete(rows, key, k), key, k') == if k' == k then None else Lookup(rows, key, k')
    decreases |rows|
  {
    if rows != [] {
      LookupDelete(rows[1..], key, k, k');
      if key(rows[0]) != k {
        assert Delete(rows, key, k) == [rows[0]] + Delete(rows[1..], key, k);
      }
    }
  }

  /** Deleting a key keeps the keys unique. */
  lemma {:induction false} UniqueKeysDelete<T(!new)>(rows: seq<T>, key: T -> string, k: string)
    requires UniqueKeys(rows, key)
    ensures UniqueKeys(Delete(rows, key, k), key)
    decreases |rows|
  {
    if rows != [] {
      UniqueKeysDelete(rows[1..], key, k);
      if key(rows[0]) != k {
        assert Delete(rows, key, k) == [rows[0]] + Delete(rows[1..], key, k);
      }
    }
  }

  /** Appending a row with a new key keeps the keys unique. */
  lemma {:induction false} UniqueKeysAppend<T(!new)>(rows: seq<T>, key: T -> string, row: T)
    requires UniqueKeys(rows, key)
    requires forall x :: x in rows ==> key(x) != key(row)
    ensures UniqueKeys(rows + [row], key)
    decreases |rows|
  {
    if rows != [] {
      UniqueKeysAppend(rows[1..], key, row);
      assert (rows + [row])[1..] == rows[1..] + [row];
    }
  }

  /** INSERT OR REPLACE of one row: its key now finds it, every other key
      finds what it found before, and keys stay unique. */
  lemma UpsertSpec<T(!new)>(rows: seq<T>, key: T -> string, row: T, k: string)
    requires UniqueKeys(rows, key)
    ensures UniqueKeys(Upsert(rows, key, row), key)
    ensures Lookup(Upsert(rows, key, row), key, k) == if k == key(row) then Some(row) else Lookup(rows, key, k)
  {
    var d := Delete(rows, key, key(row));
    UniqueKeysDelete(rows, key, key(row));
    UniqueKeysAppend(d, key, row);
    LookupDelete(rows, key, key(row), k);
    LookupAppend(d, [row], key, k);
  }

  /** INSERT OR REPLACE of a list: a key of the batch finds the batch's last
      row with that key; every other key finds the row it found before. */
  lemma {:induction false} UpsertAllSpec<T(!new)>(rows: seq<T>, key: T -> string, batch: seq<T>, k: string)
    requires UniqueKeys(rows, key)
    ensures UniqueKeys(UpsertAll(rows, key, batch), key)
    ensures Lookup(UpsertAll(rows, key, batch), key, k) ==
      if LastWithKey(batch, key, k).Some? then LastWithKey(batch, key, k) else Lookup(rows, key, k)
    decreases |batch|
  {
    if batch != [] {
      var init := batch[..|batch| - 1];
      UpsertAllSpec(rows, key, init, k);
      UpsertSpec(UpsertAll(rows, key, init), key, batch[|batch| - 1], k);
    }
  }

  /** Every row after a list upsert was already there or came from the batch. */
  lemma {:induction false} UpsertAllMembers<T(!new)>(rows: seq<T>, key: T -> string, batch: seq<T>)
    ensures forall x :: x in UpsertAll(rows, key, batch) ==> x in rows || x in batch
    decreases |batch|
  {
    if batch != [] {
      UpsertAllMembers(rows, key, batch[..|batch| - 1]);
      assert forall x :: x in batch[..|batch| - 1] ==> x in batch;
    }
  }

  /** Two tables whose rows have the same keys, position by position, hold
      the same keys, and one has unique keys when the other does. */
  lemma {:induction false} SameKeys<T(!new)>(a: seq<T>, b: seq<T>, key: T -> string)
    requires |a| == |b|
    requires forall i :: 0 <= i < |a| ==> key(a[i]) == key(b[i])
    ensures forall k :: HasKey(a, key, k) <==> HasKey(b, key, k)
    ensures UniqueKeys(a, key) ==> UniqueKeys(b, key)
    decreases |a|
  {
    assert forall k :: HasKey(a, key, k) ==> HasKey(b, key, k) by {
      forall k | HasKey(a, key, k) ensures HasKey(b, key, k) {
        var i :| 0 <= i < |a| && key(a[i]) == k;
        assert key(b[i]) == k;
      }
    }
    assert forall k :: HasKey(b, key, k) ==> HasKey(a, key, k) by {
      forall k | HasKey(b, key, k) ensures HasKey(a, key, k) {
        var i :| 0 <= i < |b| && key(b[i]) == k;
        assert key(a[i]) == k;
      }
    }
    if a != [] && UniqueKeys(a, key) {
      SameKeys(a[1..], b[1..], key);
      forall x | x in b[1..] ensures key(x) != key(b[0]) {
        var i :| 0 <= i < |b[1..]| && b[1..][i] == x;
        assert a[1..][i] in a[1..];
      }
    }
  }

  /** Keeping any subset of the rows keeps the keys unique. */
  lemma {:induction false} UniqueKeysFilter<T(!new)>(rows: seq<T>, key: T -> string, p: T -> bool)
    requires UniqueKeys(rows, key)
    ensures UniqueKeys(Seqs.Filter(rows, p), key)
    decreases |rows|
  {
    if rows != [] {
      UniqueKeysFilter(rows[1..], key, p);
      if p(rows[0]) {
        assert Seqs.Filter(rows, p) == [rows[0]] + Seqs.Filter(rows[1..], p);
      }
    }
  }

  /** Deleting a key no row has changes nothing. */
  lemma {:induction false} DeleteAbsent<T(!new)>(rows: seq<T>, key: T -> string, k: string)
    requires !HasKey(rows, key, k)
    ensures Delete(rows, key, k) == rows
    decreases |rows|
  {
    if rows != [] {
      forall j | 0 <= j < |rows[1..]| ensures key(rows[1..][j]) != k {
        assert rows[1..][j] == rows[j + 1];
      }
      DeleteAbsent(rows[1..], key, k);
      assert key(rows[0]) != k;
    }
  }

  /** Deleting a key of a table with unique keys removes exactly one row. */
  lemma {:induction false} DeletePresent<T(!new)>(rows: seq<T>, key: T -> string, k: string)
    requires UniqueKeys(rows, key)
    requires HasKey(rows, key, k)
    ensures |Delete(rows, key, k)| == |rows| - 1
    decreases |rows|
  {
    if key(rows[0]) == k {
      forall j | 0 <= j < |rows[1..]| ensures key(rows[1..][j]) != k {
        assert rows[1..][j] in rows[1..];
      }
      DeleteAbsent(rows[1..], key, k);
    } else {
      var i :| 0 <= i < |rows| && key(rows[i]) == k;
      assert key(rows[1..][i - 1]) == k;
      DeletePresent(rows[1..], key, k);
    }
  }

  /** Filtering commutes with deleting a key. */
  lemma {:induction false} DeleteFilterCommute<T(!new)>(rows: seq<T>, key: T -> string, k: string, p: T -> bool)
    ensures Seqs.Filter(Delete(rows, key, k), p) == Delete(Seqs.Filter(rows, p), key, k)
    decreases |rows|
  {
    if rows != [] {
      DeleteFilterCommute(rows[1..], key, k, p);
      var d := Delete(rows[1..], key, k);
      var f := Seqs.Filter(rows[1..], p);
      if key(rows[0]) != k {
        assert Delete(rows, key, k) == [rows[0]] + d;
        assert ([rows[0]] + d)[1..] == d;
        if p(rows[0]) {
          assert ([rows[0]] + f)[1..] == f;
        }
      } else if p(rows[0]) {
        assert ([rows[0]] + f)[1..] == f;
      }
    }
  }

  /** Upserting a batch whose rows all satisfy `p` and have distinct keys
      into a table with no row satisfying `p` leaves exactly the batch, in
      order, among the rows satisfying `p`. */
  lemma {:induction false} FilterUpsertAll<T(!new)>(rows: seq<T>, key: T -> string, batch: seq<T>, p: T -> bool)
    requires Seqs.Filter(rows, p) == []
    requires forall x :: x in batch ==> p(x)
    requires forall i, j :: 0 <= i < j < |batch| ==> key(batch[i]) != key(batch[j])
    ensures Seqs.Filter(UpsertAll(rows, key, batch), p) == batch
    decreases |batch|
  {
    if batch != [] {
      var init, last := batch[..|batch| - 1], batch[|batch| - 1];
      var u := UpsertAll(rows, key, init);
      var k := key(last);
      assert batch == init + [last];
      assert UpsertAll(rows, key, batch) == Delete(u, key, k) + [last];
      assert forall x :: x in init ==> x in batch;
      FilterUpsertAll(rows, key, init, p);
      assert Seqs.Filter([last], p) == [last] by {
        assert p(batch[|batch| - 1]);
      }
      Seqs.FilterAppend(Delete(u, key, k), [last], p);
      DeleteFilterCommute(u, key, k, p);
      forall j | 0 <= j < |init| ensures key(init[j]) != k {
        assert init[j] == batch[j];
      }
      DeleteAbsent(init, key, k);
      calc {
        Seqs.Filter(UpsertAll(rows, key, batch), p);
        Seqs.Filter(Delete(u, key, k), p) + Seqs.Filter([last], p);
        Delete(Seqs.Filter(u, p), key, k) + [last];
        Delete(init, key, k) + [last];
        init + [last];
      }
    }
  }

  /** In a table with unique keys a key names at most one row. */
  lemma {:induction false} UniqueKeysInjective<T(!new)>(rows: seq<T>, key: T -> string, a: T, b: T)
    requires UniqueKeys(rows, key)
    requires a in rows && b in rows && key(a) == key(b)
    ensures a == b
    decreases |rows|
  {
    if a != rows[0] && b != rows[0] {
      UniqueKeysInjective(rows[1..], key, a, b);
    }
  }
}
