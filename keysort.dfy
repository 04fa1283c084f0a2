/**
 * `sorted(keys, key=lambda x: int(x))`: GPU indices are strings and are ordered by
 * the integer they spell. Python's sort is stable; insertion sort that puts a key in
 * front of the keys it does not exceed is one stable sort.
 */
module KeySort {
  import opened Common
  import opened PyStr

  /** int(k) succeeds for every key. */
  predicate AllInts(ks: seq<string>) {
    forall k :: k in ks ==> PyInt(k).Some?
  }

  /** The sort key: int(k), for a key where int() succeeds. */
  function IntKey(k: string): int {
    PyInt(k).GetOr(0)
  }

  ghost predicate SortedBy<T>(xs: seq<T>, key: T -> int) {
    forall i, j :: 0 <= i < j < |xs| ==> key(xs[i]) <= key(xs[j])
  }

  ghost predicate Distinct<T>(xs: seq<T>) {
    forall i, j :: 0 <= i < j < |xs| ==> xs[i] != xs[j]
  }

  /** Puts x in front of the first element whose key is not below x's. */
  function Insert<T>(x: T, xs: seq<T>, key: T -> int): (r: seq<T>)
    ensures multiset(r) == multiset(xs) + multiset{x}
  {
    if |xs| == 0 || key(x) <= key(xs[0]) then [x] + xs
    else
      assert xs == [xs[0]] + xs[1..];
      [xs[0]] + Insert(x, xs[1..], key)
  }

  /** Inserting into a sorted sequence keeps it sorted; the new head is x or the old head. */
  lemma {:induction false} InsertSorted<T>(x: T, xs: seq<T>, key: T -> int)
    requires SortedBy(xs, key)
    ensures SortedBy(Insert(x, xs, key), key)
    ensures Insert(x, xs, key)[0] == x || (|xs| > 0 && Insert(x, xs, key)[0] == xs[0])
  {
    if |xs| > 0 && key(x) > key(xs[0]) {
      var rest := Insert(x, xs[1..], key);
      InsertSorted(x, xs[1..], key);
      var r := [xs[0]] + rest;
      assert key(xs[0]) <= key(rest[0]);
      forall i, j | 0 <= i < j < |r|
        ensures key(r[i]) <= key(r[j])
      {
        if i == 0 && j > 1 {
          assert key(rest[0]) <= key(rest[j - 1]);
        }
      }
    }
  }

  /** Stable insertion sort by key. */
  function InsertionSort<T>(xs: seq<T>, key: T -> int): (r: seq<T>)
    ensures multiset(r) == multiset(xs)
  {
    if |xs| == 0 then []
    else
      assert xs == [xs[0]] + xs[1..];
      Insert(xs[0], InsertionSort(xs[1..], key), key)
  }

  lemma {:induction false} InsertionSortSorted<T>(xs: seq<T>, key: T -> int)
    ensures SortedBy(InsertionSort(xs, key), key)
  {
    if |xs| > 0 {
      InsertionSortSorted(xs[1..], key);
      InsertSorted(xs[0], InsertionSort(xs[1..], key), key);
    }
  }

  /**
   * sorted(ks, key=lambda x: int(x)): raises (ValueError) exactly when some key is
   * not an int; otherwise every key, each as often as it occurs, in non-decreasing
   * int order.
   */
  function SortByInt(ks: seq<string>): (r: Result<seq<string>>)
    ensures r.Ok? <==> AllInts(ks)
    ensures r.Ok? ==> multiset(r.value) == multiset(ks) && SortedBy(r.value, IntKey)
  {
    if AllInts(ks) then
      InsertionSortSorted(ks, IntKey);
      Ok(InsertionSort(ks, IntKey))
    else Err(NotAnInteger)
  }

  /** x occurs in s somewhere before an occurrence of y. */
  ghost predicate Before<T>(s: seq<T>, x: T, y: T) {
    exists p, q :: 0 <= p < q < |s| && s[p] == x && s[q] == y
  }

  /** Insert puts x in front of every element whose key is not below x's. */
  lemma {:induction false} InsertBefore<T>(x: T, s: seq<T>, y: T, key: T -> int)
    requires y in s && key(x) <= key(y)
    ensures Before(Insert(x, s, key), x, y)
  {
    var r := Insert(x, s, key);
    if key(x) <= key(s[0]) {
      var q :| 0 <= q < |s| && s[q] == y;
      assert r[0] == x && r[q + 1] == y;
    } else {
      assert s[0] != y;
      var q :| 0 <= q < |s| && s[q] == y;
      assert s[1..][q - 1] == y;
      InsertBefore(x, s[1..], y, key);
      var rest := Insert(x, s[1..], key);
      var p', q' :| 0 <= p' < q' < |rest| && rest[p'] == x && rest[q'] == y;
      assert r[p' + 1] == x && r[q' + 1] == y;
    }
  }

  /** Inserting an element keeps the relative order of the others. */
  lemma {:induction false} InsertKeeps<T>(z: T, s: seq<T>, x: T, y: T, key: T -> int)
    requires Before(s, x, y)
    ensures Before(Insert(z, s, key), x, y)
  {
    var r := Insert(z, s, key);
    var p, q :| 0 <= p < q < |s| && s[p] == x && s[q] == y;
    if |s| == 0 || key(z) <= key(s[0]) {
      assert r[p + 1] == x && r[q + 1] == y;
    } else {
      var rest := Insert(z, s[1..], key);
      if p == 0 {
        assert y in multiset(s[1..]) by {
          assert s[1..][q - 1] == y;
        }
        assert y in multiset(rest);
        var q' :| 0 <= q' < |rest| && rest[q'] == y;
        assert r[0] == x && r[q' + 1] == y;
      } else {
        assert s[1..][p - 1] == x && s[1..][q - 1] == y;
        InsertKeeps(z, s[1..], x, y, key);
        var p', q' :| 0 <= p' < q' < |rest| && rest[p'] == x && rest[q'] == y;
        assert r[p' + 1] == x && r[q' + 1] == y;
      }
    }
  }

  /** The sort is stable: elements with equal keys keep their input order. */
  lemma {:induction false} InsertionSortStable<T>(xs: seq<T>, key: T -> int, x: T, y: T)
    requires Before(xs, x, y) && key(x) == key(y)
    ensures Before(InsertionSort(xs, key), x, y)
  {
    var p, q :| 0 <= p < q < |xs| && xs[p] == x && xs[q] == y;
    var tail := xs[1..];
    var sortedTail := InsertionSort(tail, key);
    if p == 0 {
      assert tail[q - 1] == y;
      assert y in multiset(sortedTail);
      InsertBefore(x, sortedTail, y, key);
    } else {
      assert tail[p - 1] == x && tail[q - 1] == y;
      InsertionSortStable(tail, key, x, y);
      InsertKeeps(xs[0], sortedTail, x, y, key);
    }
  }

  /**
   * Like Python's sorted, SortByInt is stable: keys that spell the same integer
   * ("1" and "01") keep the order they had.
   */
  lemma SortByIntStable(ks: seq<string>, a: string, b: string)
    requires SortByInt(ks).Ok? && Before(ks, a, b) && IntKey(a) == IntKey(b)
    ensures Before(SortByInt(ks).value, a, b)
  {
    InsertionSortStable(ks, IntKey, a, b);
  }

  /** A sequence without repeats holds every element at most once. */
  lemma {:induction false} DistinctCount<T>(ks: seq<T>, x: T)
    requires Distinct(ks)
    ensures multiset(ks)[x] <= 1
  {
    if |ks| > 0 {
      var t := ks[1..];
      assert ks == [ks[0]] + t;
      assert Distinct(t) by {
        forall i, j | 0 <= i < j < |t| ensures t[i] != t[j] {
          assert t[i] == ks[i + 1] && t[j] == ks[j + 1];
        }
      }
      DistinctCount(t, x);
      if ks[0] == x {
        assert x !in t by {
          forall i | 0 <= i < |t| ensures t[i] != x {
            assert t[i] == ks[i + 1];
          }
        }
      }
    }
  }

  /** Rearranging a sequence without repeats gives one without repeats. */
  lemma PermutationDistinct<T>(ks: seq<T>, r: seq<T>)
    requires Distinct(ks) && multiset(r) == multiset(ks)
    ensures Distinct(r)
  {
    forall i, j | 0 <= i < j < |r|
      ensures r[i] != r[j]
    {
      if r[i] == r[j] {
        var x := r[i];
        assert r == r[..j] + r[j..];
        assert x in r[..j] && x in r[j..];
        assert multiset(r)[x] == multiset(r[..j])[x] + multiset(r[j..])[x];
        DistinctCount(ks, x);
        assert false;
      }
    }
  }

  /**
   * When no two keys spell the same int (as with nvidia-smi's indices), the sorted
   * keys are each present once and strictly ascending.
   */
  lemma SortedStrictly(ks: seq<string>)
    requires SortByInt(ks).Ok? && Distinct(ks)
    requires forall a, b :: a in ks && b in ks && IntKey(a) == IntKey(b) ==> a == b
    ensures Distinct(SortByInt(ks).value)
    ensures forall i, j :: 0 <= i < j < |SortByInt(ks).value| ==>
              IntKey(SortByInt(ks).value[i]) < IntKey(SortByInt(ks).value[j])
  {
    var r := SortByInt(ks).value;
    PermutationDistinct(ks, r);
    forall i, j | 0 <= i < j < |r|
      ensures IntKey(r[i]) < IntKey(r[j])
    {
      assert r[i] in multiset(ks) && r[j] in multiset(ks);
    }
  }
}
