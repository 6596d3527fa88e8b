/** Python's `sorted(xs, key=f)`: a stable sort that compares the keys only.
    An element is decorated with its key, the decorated list is sorted, and
    the keys are dropped again. The sort is specified here by insertion:
    each element goes after every earlier element whose key is not greater. */
module StableSort {

  datatype Keyed<T> = Keyed(key: real, item: T)

  predicate Sorted<T>(s: seq<Keyed<T>>) {
    forall i, j :: 0 <= i < j < |s| ==> s[i].key <= s[j].key
  }

  /** The elements of `s` whose key is `k`, in their order in `s`. */
  function WithKey<T>(s: seq<Keyed<T>>, k: real): seq<Keyed<T>> {
    if s == [] then []
    else WithKey(s[..|s| - 1], k) + (if s[|s| - 1].key == k then [s[|s| - 1]] else [])
  }

  function Items<T>(s: seq<Keyed<T>>): (r: seq<T>)
    ensures |r| == |s|
    ensures forall i :: 0 <= i < |s| ==> r[i] == s[i].item
  {
    seq(|s|, i requires 0 <= i < |s| => s[i].item)
  }

  /** Inserts `x` after the last element whose key is at most `x.key`. */
  function Insert<T>(s: seq<Keyed<T>>, x: Keyed<T>): (r: seq<Keyed<T>>)
    ensures |r| == |s| + 1
    ensures multiset(r) == multiset(s) + multiset{x}
    decreases |s|
  {
    if s == [] then [x]
    else if s[|s| - 1].key <= x.key then s + [x]
    else
      var init := s[..|s| - 1];
      assert s == init + [s[|s| - 1]];
      Insert(init, x) + [s[|s| - 1]]
  }

  /** Inserting into a sorted sequence keeps it sorted. */
  lemma {:induction false} InsertSorted<T>(s: seq<Keyed<T>>, x: Keyed<T>)
    requires Sorted(s)
    ensures Sorted(Insert(s, x))
    decreases |s|
  {
    if s != [] && x.key < s[|s| - 1].key {
      var init, last := s[..|s| - 1], s[|s| - 1];
      var ins := Insert(init, x);
      InsertSorted(init, x);
      forall i | 0 <= i < |ins| ensures ins[i].key <= last.key {
        assert ins[i] in multiset(init) + multiset{x};
        if ins[i] != x {
          var j :| 0 <= j < |init| && init[j] == ins[i];
        }
      }
      assert Insert(s, x) == ins + [last];
    }
  }

  function SortByKey<T>(s: seq<Keyed<T>>): (r: seq<Keyed<T>>)
    ensures |r| == |s|
    ensures multiset(r) == multiset(s)
    ensures Sorted(r)
  {
    if s == [] then []
    else
      assert s == s[..|s| - 1] + [s[|s| - 1]];
      InsertSorted(SortByKey(s[..|s| - 1]), s[|s| - 1]);
      Insert(SortByKey(s[..|s| - 1]), s[|s| - 1])
  }

  lemma {:induction false} WithKeyAppend<T>(u: seq<Keyed<T>>, v: seq<Keyed<T>>, k: real)
    ensures WithKey(u + v, k) == WithKey(u, k) + WithKey(v, k)
    decreases |v|
  {
    if v == [] {
      assert u + v == u;
    } else {
      var init, last := v[..|v| - 1], v[|v| - 1];
      assert (u + v)[..|u + v| - 1] == u + init;
      WithKeyAppend(u, init, k);
    }
  }

  lemma WithKeyOne<T>(y: Keyed<T>, k: real)
    ensures WithKey([y], k) == (if y.key == k then [y] else [])
  {
    assert [y][..0] == [];
  }

  lemma SwapEmpty<T>(w: seq<T>, a: seq<T>, b: seq<T>)
    requires a == [] || b == []
    ensures w + a + b == w + b + a
  {
    if a == [] {
      assert w + a == w;
    } else {
      assert w + b == w;
    }
  }

  /** Insertion keeps the relative order of the elements of each key. */
  lemma {:induction false} InsertWithKey<T>(s: seq<Keyed<T>>, x: Keyed<T>, k: real)
    ensures WithKey(Insert(s, x), k) == WithKey(s, k) + (if x.key == k then [x] else [])
    decreases |s|
  {
    WithKeyOne(x, k);
    if s == [] {
      assert Insert(s, x) == [x];
      assert WithKey(s, k) == [];
    } else if s[|s| - 1].key <= x.key {
      assert Insert(s, x) == s + [x];
      WithKeyAppend(s, [x], k);
    } else {
      var init, last := s[..|s| - 1], s[|s| - 1];
      var xs, ls := (if x.key == k then [x] else []), (if last.key == k then [last] else []);
      assert Insert(s, x) == Insert(init, x) + [last];
      assert s == init + [last];
      WithKeyOne(last, k);
      InsertWithKey(init, x, k);
      WithKeyAppend(Insert(init, x), [last], k);
      WithKeyAppend(init, [last], k);
      SwapEmpty(WithKey(init, k), xs, ls);
    }
  }

  /** The sort is stable: for every key, the elements with that key keep their order. */
  lemma {:induction false} SortIsStable<T>(s: seq<Keyed<T>>, k: real)
    ensures WithKey(SortByKey(s), k) == WithKey(s, k)
  {
    if s != [] {
      var init, last := s[..|s| - 1], s[|s| - 1];
      SortIsStable(init, k);
      InsertWithKey(SortByKey(init), last, k);
    }
  }

  /** A list that is already sorted is left as it is. */
  lemma {:induction false} SortedIsFixpoint<T>(s: seq<Keyed<T>>)
    requires Sorted(s)
    ensures SortByKey(s) == s
  {
    if s != [] {
      var init := s[..|s| - 1];
      SortedIsFixpoint(init);
      assert init + [s[|s| - 1]] == s;
    }
  }

  /** Sorting is idempotent. */
  lemma SortIsIdempotent<T>(s: seq<Keyed<T>>)
    ensures SortByKey(SortByKey(s)) == SortByKey(s)
  {
    SortedIsFixpoint(SortByKey(s));
  }

  /** Appending to a sorted list and sorting inserts the new element
      after every element whose key is not greater. */
  lemma AppendThenSort<T>(s: seq<Keyed<T>>, x: Keyed<T>)
    requires Sorted(s)
    ensures SortByKey(s + [x]) == Insert(s, x)
  {
    assert (s + [x])[..|s|] == s;
    SortedIsFixpoint(s);
  }

  lemma ItemsAppendOne<T>(u: seq<Keyed<T>>, y: Keyed<T>)
    ensures Items(u + [y]) == Items(u) + [y.item]
  {
  }

  /** Insertion adds exactly the inserted item to the items. */
  lemma {:induction false} InsertItems<T>(s: seq<Keyed<T>>, x: Keyed<T>)
    ensures multiset(Items(Insert(s, x))) == multiset(Items(s)) + multiset{x.item}
    decreases |s|
  {
    if s == [] {
      assert Items([x]) == [x.item];
    } else if s[|s| - 1].key <= x.key {
      ItemsAppendOne(s, x);
    } else {
      var init, last := s[..|s| - 1], s[|s| - 1];
      assert s == init + [last];
      InsertItems(init, x);
      ItemsAppendOne(Insert(init, x), last);
      ItemsAppendOne(init, last);
    }
  }

  /** Dropping the keys after sorting gives a permutation of the items. */
  lemma {:induction false} SortItems<T>(s: seq<Keyed<T>>)
    ensures multiset(Items(SortByKey(s))) == multiset(Items(s))
  {
    if s != [] {
      var init, last := s[..|s| - 1], s[|s| - 1];
      assert s == init + [last];
      SortItems(init);
      InsertItems(SortByKey(init), last);
      ItemsAppendOne(init, last);
    }
  }
}
