/** Tables with a primary key. */
module Tables {
  datatype Option<+T> = None | Some(value: T)

  /** Inserting rows one after another; a primary key already present aborts the session. */
  function InsertAll<K, V>(table: map<K, V>, rows: seq<(K, V)>): Option<map<K, V>> {
    if rows == [] then Some(table)
    else
      var (k, v) := rows[|rows| - 1];
      match InsertAll(table, rows[..|rows| - 1])
      case None => None
      case Some(m) => if k in m then None else Some(m[k := v])
  }

  ghost predicate FreshKeys<K, V>(table: map<K, V>, rows: seq<(K, V)>) {
    && (forall i, j :: 0 <= i < j < |rows| ==> rows[i].0 != rows[j].0)
    && forall i :: 0 <= i < |rows| ==> rows[i].0 !in table
  }

  /** `m` is `table` plus the rows, and nothing else. */
  ghost predicate Extends<K, V>(table: map<K, V>, rows: seq<(K, V)>, m: map<K, V>) {
    && (forall k :: k in table ==> k in m && m[k] == table[k])
    && (forall i :: 0 <= i < |rows| ==> rows[i].0 in m && m[rows[i].0] == rows[i].1)
    && (forall k :: k in m && k !in table ==> exists i :: 0 <= i < |rows| && rows[i].0 == k)
  }

  lemma {:induction false} InsertOneMore<K, V>(table: map<K, V>, front: seq<(K, V)>, m: map<K, V>, k: K, v: V)
    requires FreshKeys(table, front) && Extends(table, front, m)
    ensures k !in m <==> FreshKeys(table, front + [(k, v)])
    ensures k !in m ==> Extends(table, front + [(k, v)], m[k := v])
  {
    var rows := front + [(k, v)];
    assert rows[|front|].0 == k && forall i :: 0 <= i < |front| ==> rows[i] == front[i];
    if k in m && k !in table {
      var i :| 0 <= i < |front| && front[i].0 == k;
      assert rows[i].0 == rows[|front|].0;
    }
    if k !in m {
      forall x | x in m[k := v] && x !in table
        ensures exists i :: 0 <= i < |rows| && rows[i].0 == x
      {
        if x == k {
          assert rows[|front|].0 == x;
        } else {
          var i :| 0 <= i < |front| && front[i].0 == x;
          assert rows[i].0 == x;
        }
      }
    }
  }

  /** The insertion succeeds exactly when the new keys are distinct and absent, and then adds
      exactly the rows. */
  lemma {:induction false} InsertAllOutcome<K, V>(table: map<K, V>, rows: seq<(K, V)>)
    ensures InsertAll(table, rows).Some? <==> FreshKeys(table, rows)
    ensures InsertAll(table, rows).Some? ==> Extends(table, rows, InsertAll(table, rows).value)
  {
    if rows == [] {
    } else {
      var front := rows[..|rows| - 1];
      var (k, v) := rows[|rows| - 1];
      assert rows == front + [(k, v)];
      InsertAllOutcome(table, front);
      if InsertAll(table, front).Some? {
        InsertOneMore(table, front, InsertAll(table, front).value, k, v);
      } else {
        assert !FreshKeys(table, rows) by {
          assert forall i :: 0 <= i < |front| ==> front[i] == rows[i];
        }
      }
    }
  }
}
