/** The JavaScript array operations the store and the pages are built from:
    `find`, `filter`, a `map` that replaces the elements with a given key, and a
    `reduce` that adds up one numeric field. Each is defined once here, on an
    arbitrary element type, with the key or the field passed as a function. */
module Seqs {
  import opened Wrappers

  /** `s.find(m)`: the first element satisfying `m`, if any. */
  function FindFirst<T>(s: seq<T>, m: T -> bool): (r: Option<T>)
    ensures r.None? <==> forall i :: 0 <= i < |s| ==> !m(s[i])
    ensures r.Some? ==> exists i :: 0 <= i < |s| && s[i] == r.value && m(s[i]) &&
                                   forall j :: 0 <= j < i ==> !m(s[j])
  {
    if s == [] then None
    else if m(s[0]) then Some(s[0])
    else
      var r := FindFirst(s[1..], m);
      assert forall i :: 1 <= i < |s| ==> s[i] == s[1..][i - 1];
      r
  }

  /** `s.find(x => key(x) === k)`. */
  function FindByKey<T, K(==)>(s: seq<T>, key: T -> K, k: K): (r: Option<T>)
    ensures r.None? <==> forall i :: 0 <= i < |s| ==> key(s[i]) != k
    ensures r.Some? ==> r.value in s && key(r.value) == k
  {
    FindFirst(s, x => key(x) == k)
  }

  /** `find` returns the element at the first index that carries the key. */
  lemma {:induction false} FirstByKey<T, K>(s: seq<T>, key: T -> K, k: K)
    ensures forall i :: 0 <= i < |s| && key(s[i]) == k && (forall j :: 0 <= j < i ==> key(s[j]) != k) ==>
              FindByKey(s, key, k) == Some(s[i])
  {
    if s != [] {
      FirstByKey(s[1..], key, k);
      forall i | 0 <= i < |s| && key(s[i]) == k && (forall j :: 0 <= j < i ==> key(s[j]) != k)
        ensures FindByKey(s, key, k) == Some(s[i])
      {
        if i > 0 {
          assert s[1..][i - 1] == s[i];
          assert forall j :: 0 <= j < i - 1 ==> s[1..][j] == s[j + 1];
          assert FindByKey(s, key, k) == FindByKey(s[1..], key, k);
        }
      }
    }
  }

  /** `s.filter(keep)`: the elements satisfying `keep`, in their order. */
  function Filter<T(!new)>(s: seq<T>, keep: T -> bool): (r: seq<T>)
    ensures |r| <= |s|
    ensures forall x :: x in r <==> x in s && keep(x)
  {
    if s == [] then []
    else
      var rest := Filter(s[1..], keep);
      assert s == [s[0]] + s[1..];
      if keep(s[0]) then [s[0]] + rest else rest
  }

  /** `s.filter(x => key(x) !== k)`: every element with key `k` removed. */
  function WithoutKey<T(!new), K(==)>(s: seq<T>, key: T -> K, k: K): (r: seq<T>)
    ensures forall x :: x in r <==> x in s && key(x) != k
    ensures forall i :: 0 <= i < |r| ==> key(r[i]) != k
  {
    Filter(s, x => key(x) != k)
  }

  /** `s.filter(x => key(x) === k)`: the elements with key `k`. */
  function WithKey<T(!new), K(==)>(s: seq<T>, key: T -> K, k: K): (r: seq<T>)
    ensures forall x :: x in r <==> x in s && key(x) == k
  {
    Filter(s, x => key(x) == k)
  }

  /** `s.map(y => key(y) === key(x) ? x : y)`. */
  function ReplaceByKey<T, K(==)>(s: seq<T>, key: T -> K, x: T): (r: seq<T>)
    ensures |r| == |s|
    ensures forall i :: 0 <= i < |s| ==> r[i] == if key(s[i]) == key(x) then x else s[i]
  {
    if s == [] then []
    else [if key(s[0]) == key(x) then x else s[0]] + ReplaceByKey(s[1..], key, x)
  }

  /** `s.reduce((acc, y) => acc + f(y), 0)`, accumulated from the left. */
  function Sum<T>(s: seq<T>, f: T -> real): real
  {
    if s == [] then 0.0 else Sum(s[..|s| - 1], f) + f(s[|s| - 1])
  }

  /** The same `reduce` over an integer field. */
  function SumInt<T>(s: seq<T>, f: T -> int): int
  {
    if s == [] then 0 else SumInt(s[..|s| - 1], f) + f(s[|s| - 1])
  }

  /** Filtering commutes with concatenation, so the kept elements stay in order. */
  lemma {:induction false} FilterAppend<T(!new)>(a: seq<T>, b: seq<T>, keep: T -> bool)
    ensures Filter(a + b, keep) == Filter(a, keep) + Filter(b, keep)
  {
    if a == [] {
      assert a + b == b;
    } else {
      assert (a + b)[0] == a[0];
      assert (a + b)[1..] == a[1..] + b;
      var ab := a + b;
      assert ab != [] && ab[0] == a[0] && ab[1..] == a[1..] + b;
      FilterAppend(a[1..], b, keep);
      var tail, rest := Filter(a[1..], keep), Filter(b, keep);
      assert Filter(ab[1..], keep) == tail + rest;
      if keep(a[0]) {
        assert Filter(ab, keep) == [a[0]] + (tail + rest);
        assert Filter(a, keep) == [a[0]] + tail;
      } else {
        assert Filter(ab, keep) == tail + rest;
        assert Filter(a, keep) == tail;
      }
    }
  }

  /** Selecting key `k` after removing a different key `j` is selecting `k`. */
  lemma {:induction false} WithKeyOfWithoutKey<T(!new), K>(s: seq<T>, key: T -> K, j: K, k: K)
    requires j != k
    ensures WithKey(WithoutKey(s, key, j), key, k) == WithKey(s, key, k)
  {
    if s != [] {
      WithKeyOfWithoutKey(s[1..], key, j, k);
    }
  }

  /** Removing a key keeps every other element where it stood relative to
      the rest: around any element, the two sides are filtered separately. */
  lemma WithoutKeyAround<T(!new), K>(a: seq<T>, x: T, b: seq<T>, key: T -> K, k: K)
    ensures WithoutKey(a + [x] + b, key, k) ==
            WithoutKey(a, key, k) + (if key(x) == k then [] else [x]) + WithoutKey(b, key, k)
  {
    var keep := y => key(y) != k;
    var single := Filter([x], keep);
    assert single == if key(x) == k then [] else [x] by {
      assert [x][1..] == [];
    }
    calc {
      WithoutKey(a + [x] + b, key, k);
      Filter(a + [x] + b, keep);
      { FilterAppend(a + [x], b, keep); }
      Filter(a + [x], keep) + Filter(b, keep);
      { FilterAppend(a, [x], keep); }
      Filter(a, keep) + single + Filter(b, keep);
      WithoutKey(a, key, k) + single + WithoutKey(b, key, k);
    }
  }

  /** Selecting a key commutes with concatenation. */
  lemma {:induction false} WithKeyAppend<T(!new), K>(a: seq<T>, b: seq<T>, key: T -> K, k: K)
    ensures WithKey(a + b, key, k) == WithKey(a, key, k) + WithKey(b, key, k)
  {
    if a == [] {
      assert a + b == b;
    } else {
      assert (a + b)[0] == a[0];
      assert (a + b)[1..] == a[1..] + b;
      WithKeyAppend(a[1..], b, key, k);
    }
  }

  /** Filtering keeps a sequence whose every element passes exactly as it is. */
  lemma {:induction false} FilterAllKept<T(!new)>(s: seq<T>, keep: T -> bool)
    requires forall i :: 0 <= i < |s| ==> keep(s[i])
    ensures Filter(s, keep) == s
  {
    if s != [] {
      assert forall i :: 0 <= i < |s[1..]| ==> s[1..][i] == s[i + 1];
      FilterAllKept(s[1..], keep);
    }
  }

  /** Removing a key and then appending an element with that key leaves exactly
      one element with the key: the appended one, in last position. */
  lemma UpsertByKey<T(!new), K>(s: seq<T>, key: T -> K, x: T)
    ensures var r := WithoutKey(s, key, key(x)) + [x];
            r[|r| - 1] == x &&
            (forall i :: 0 <= i < |r| ==> (key(r[i]) == key(x) <==> i == |r| - 1)) &&
            FindByKey(r, key, key(x)) == Some(x)
  {
    var w := WithoutKey(s, key, key(x));
    var r := w + [x];
    assert forall i :: 0 <= i < |w| ==> r[i] == w[i];
  }

  /** The sum over a concatenation is the sum of the two sums. */
  lemma {:induction false} SumAppend<T>(a: seq<T>, b: seq<T>, f: T -> real)
    ensures Sum(a + b, f) == Sum(a, f) + Sum(b, f)
  {
    if b == [] {
      assert a + b == a;
    } else {
      assert (a + b)[..|a + b| - 1] == a + b[..|b| - 1];
      SumAppend(a, b[..|b| - 1], f);
    }
  }

  /** When `h` is pointwise `f + g` on the elements, its sum is the sum of theirs. */
  lemma {:induction false} SumPointwise<T>(s: seq<T>, f: T -> real, g: T -> real, h: T -> real)
    requires forall i :: 0 <= i < |s| ==> h(s[i]) == f(s[i]) + g(s[i])
    ensures Sum(s, h) == Sum(s, f) + Sum(s, g)
  {
    if s != [] {
      var t := s[..|s| - 1];
      assert forall i :: 0 <= i < |t| ==> t[i] == s[i];
      SumPointwise(t, f, g, h);
    }
  }
}
