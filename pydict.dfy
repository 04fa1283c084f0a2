/**
 * Python dicts built by assignment `d[k] = v` in a loop (or by a comprehension): the
 * last assignment to a key wins, and iteration follows the order in which keys were
 * first inserted.
 */
module PyDict {

  /** A dict: its keys in insertion order and its entries. */
  datatype Dict<K(==), V> = Dict(keys: seq<K>, entries: map<K, V>) {
    ghost predicate Valid() {
      && (forall i, j :: 0 <= i < j < |keys| ==> keys[i] != keys[j])
      && entries.Keys == set k | k in keys
    }
  }

  /** `d[k] = v`: a new key goes to the end, an existing key keeps its place. */
  function Put<K(==), V>(d: Dict<K, V>, k: K, v: V): (r: Dict<K, V>)
    requires d.Valid()
    ensures r.Valid()
  {
    Dict(if k in d.entries then d.keys else d.keys + [k], d.entries[k := v])
  }

  /** The dict left by `for t in rows: d[key(t)] = val(t)`, starting from `{}`. */
  function Collect<T, K(==), V>(rows: seq<T>, key: T -> K, val: T -> V): (d: Dict<K, V>)
    ensures d.Valid()
  {
    if |rows| == 0 then Dict([], map[])
    else
      var t := rows[|rows| - 1];
      Put(Collect(rows[..|rows| - 1], key, val), key(t), val(t))
  }

  /** The keys of the dict are the keys of the rows. */
  lemma {:induction false} CollectKeys<T, K, V>(rows: seq<T>, key: T -> K, val: T -> V)
    ensures Collect(rows, key, val).entries.Keys == set t | t in rows :: key(t)
  {
    if |rows| > 0 {
      var init := rows[..|rows| - 1];
      assert rows == init + [rows[|rows| - 1]];
      CollectKeys(init, key, val);
    }
  }

  /** The key of row i, assigned by no later row, holds row i's value. */
  lemma {:induction false} CollectLastWins<T, K, V>(rows: seq<T>, key: T -> K, val: T -> V, i: nat)
    requires i < |rows|
    requires forall j :: i < j < |rows| ==> key(rows[j]) != key(rows[i])
    ensures key(rows[i]) in Collect(rows, key, val).entries
    ensures Collect(rows, key, val).entries[key(rows[i])] == val(rows[i])
  {
    if i < |rows| - 1 {
      var init := rows[..|rows| - 1];
      assert init[i] == rows[i];
      CollectLastWins(init, key, val, i);
    }
  }

  /** Every row's key is in the dict. */
  lemma CollectHas<T, K, V>(rows: seq<T>, key: T -> K, val: T -> V, j: nat)
    requires j < |rows|
    ensures key(rows[j]) in Collect(rows, key, val).entries
  {
    CollectKeys(rows, key, val);
  }

  /** Every key of the dict is some row's key. */
  lemma CollectFrom<T, K, V>(rows: seq<T>, key: T -> K, val: T -> V, k: K)
    requires k in Collect(rows, key, val).entries
    ensures exists i :: 0 <= i < |rows| && key(rows[i]) == k
  {
    CollectKeys(rows, key, val);
    var t :| t in rows && key(t) == k;
    var i :| 0 <= i < |rows| && rows[i] == t;
  }

  /**
   * Iteration order is first-insertion order: every key listed before k was assigned
   * by some row before the first row that assigns k.
   */
  lemma {:induction false} CollectOrder<T, K, V>(rows: seq<T>, key: T -> K, val: T -> V, a: nat, b: nat)
    requires a < b < |Collect(rows, key, val).keys|
    ensures exists i :: 0 <= i < |rows| && key(rows[i]) == Collect(rows, key, val).keys[a]
                        && forall j :: 0 <= j <= i ==> key(rows[j]) != Collect(rows, key, val).keys[b]
  {
    var d := Collect(rows, key, val);
    var init := rows[..|rows| - 1];
    var t := rows[|rows| - 1];
    var d' := Collect(init, key, val);
    if b < |d'.keys| {
      CollectOrder(init, key, val, a, b);
      var i :| 0 <= i < |init| && key(init[i]) == d'.keys[a]
               && forall j :: 0 <= j <= i ==> key(init[j]) != d'.keys[b];
      assert key(rows[i]) == d.keys[a];
      forall j | 0 <= j <= i
        ensures key(rows[j]) != d.keys[b]
      {
        assert rows[j] == init[j];
      }
    } else {
      // keys[b] is the key of the last row, new to d'; keys[a] was already in d'
      assert d.keys == d'.keys + [key(t)] && d.keys[b] == key(t);
      assert d.keys[a] in d'.entries;
      CollectFrom(init, key, val, d.keys[a]);
      var i :| 0 <= i < |init| && key(init[i]) == d.keys[a];
      assert key(rows[i]) == d.keys[a];
      forall j | 0 <= j <= i
        ensures key(rows[j]) != d.keys[b]
      {
        CollectHas(init, key, val, j);
        assert rows[j] == init[j];
      }
    }
  }

  /** One more row is one more assignment. */
  lemma CollectSnoc<T, K, V>(rows: seq<T>, t: T, key: T -> K, val: T -> V)
    ensures Collect(rows + [t], key, val) == Put(Collect(rows, key, val), key(t), val(t))
  {
    assert (rows + [t])[..|rows|] == rows;
  }
}
