/** Python's `sorted` and `list.sort` as the application uses them: a stable sort under
    a strict weak order. The model is an insertion sort; what is proved about it
    (a permutation, ordered, equal keys keep their input order) is exactly what Python
    guarantees of its own sort, so any stable sort gives the same list. */
module Sorting {

  /** `lt` is irreflexive, transitive, and its incomparability is transitive. */
  ghost predicate StrictWeakOrder<T(!new)>(lt: (T, T) -> bool) {
    && (forall a :: !lt(a, a))
    && (forall a, b, c :: lt(a, b) && lt(b, c) ==> lt(a, c))
    && (forall a, b, c :: !lt(a, b) && !lt(b, c) ==> !lt(a, c))
  }

  /** No element is strictly below one that comes before it. */
  predicate Sorted<T>(s: seq<T>, lt: (T, T) -> bool) {
    forall i, j :: 0 <= i < j < |s| ==> !lt(s[j], s[i])
  }

  /** The members of `s` that are neither below nor above `w`, in their order in `s`. */
  function EquivClass<T>(s: seq<T>, w: T, lt: (T, T) -> bool): seq<T> {
    if |s| == 0 then []
    else (if !lt(s[0], w) && !lt(w, s[0]) then [s[0]] else []) + EquivClass(s[1..], w, lt)
  }

  /** `x` placed before the first member of `t` that it is strictly below. */
  function Insert<T>(t: seq<T>, x: T, lt: (T, T) -> bool): (r: seq<T>)
    ensures |r| == |t| + 1
    ensures multiset(r) == multiset(t) + multiset{x}
  {
    if |t| == 0 then [x]
    else if lt(x, t[0]) then [x] + t
    else
      assert t == [t[0]] + t[1..];
      [t[0]] + Insert(t[1..], x, lt)
  }

  /** The stable sort of `s` under `lt`. */
  function SortBy<T>(s: seq<T>, lt: (T, T) -> bool): (r: seq<T>)
    ensures |r| == |s|
    ensures multiset(r) == multiset(s)
  {
    if |s| == 0 then []
    else
      assert s == s[..|s| - 1] + [s[|s| - 1]];
      Insert(SortBy(s[..|s| - 1], lt), s[|s| - 1], lt)
  }

  lemma {:induction false} BelowHeadIsBelowAll<T(!new)>(t: seq<T>, x: T, lt: (T, T) -> bool)
    requires StrictWeakOrder(lt) && Sorted(t, lt)
    requires |t| > 0 && lt(x, t[0])
    ensures forall j :: 0 <= j < |t| ==> lt(x, t[j])
  {
    forall j | 0 <= j < |t| ensures lt(x, t[j]) {
      if j > 0 {
        assert !lt(t[j], t[0]);
      }
    }
  }

  lemma {:induction false} InsertSorted<T(!new)>(t: seq<T>, x: T, lt: (T, T) -> bool)
    requires StrictWeakOrder(lt) && Sorted(t, lt)
    ensures Sorted(Insert(t, x, lt), lt)
  {
    if |t| == 0 {
    } else if lt(x, t[0]) {
      BelowHeadIsBelowAll(t, x, lt);
    } else {
      InsertSorted(t[1..], x, lt);
      var r := Insert(t, x, lt);
      var rest := Insert(t[1..], x, lt);
      assert r == [t[0]] + rest;
      assert multiset(rest) == multiset(t[1..]) + multiset{x};
      forall j | 0 < j < |r| ensures !lt(r[j], t[0]) {
        assert r[j] in multiset(rest);
        assert r[j] in multiset(t[1..]) || r[j] == x;
        if r[j] != x {
          var k :| 0 <= k < |t[1..]| && t[1..][k] == r[j];
          assert t[k + 1] == r[j];
        }
      }
    }
  }

  /** The sort is ordered. */
  lemma {:induction false} SortBySorted<T(!new)>(s: seq<T>, lt: (T, T) -> bool)
    requires StrictWeakOrder(lt)
    ensures Sorted(SortBy(s, lt), lt)
  {
    if |s| > 0 {
      SortBySorted(s[..|s| - 1], lt);
      InsertSorted(SortBy(s[..|s| - 1], lt), s[|s| - 1], lt);
    }
  }

  lemma {:induction false} EquivClassConcat<T>(a: seq<T>, b: seq<T>, w: T, lt: (T, T) -> bool)
    ensures EquivClass(a + b, w, lt) == EquivClass(a, w, lt) + EquivClass(b, w, lt)
  {
    if |a| == 0 {
      assert a + b == b;
    } else {
      assert (a + b)[1..] == a[1..] + b;
      EquivClassConcat(a[1..], b, w, lt);
    }
  }

  lemma {:induction false} EquivClassNone<T>(t: seq<T>, w: T, lt: (T, T) -> bool)
    requires forall j :: 0 <= j < |t| ==> lt(w, t[j])
    ensures EquivClass(t, w, lt) == []
  {
    if |t| > 0 {
      EquivClassNone(t[1..], w, lt);
    }
  }

  lemma {:induction false} InsertKeepsEquivClass<T(!new)>(t: seq<T>, x: T, w: T, lt: (T, T) -> bool)
    requires StrictWeakOrder(lt) && Sorted(t, lt)
    ensures EquivClass(Insert(t, x, lt), w, lt) ==
      EquivClass(t, w, lt) + (if !lt(x, w) && !lt(w, x) then [x] else [])
  {
    if |t| == 0 {
    } else if lt(x, t[0]) {
      EquivClassCons(x, t, w, lt);
      if !lt(x, w) && !lt(w, x) {
        BelowHeadIsBelowAll(t, x, lt);
        forall j | 0 <= j < |t| ensures lt(w, t[j]) {
          assert lt(x, t[j]);
        }
        EquivClassNone(t, w, lt);
      }
    } else {
      InsertKeepsEquivClass(t[1..], x, w, lt);
      InsertEquivStep(t, x, w, lt);
    }
  }

  lemma {:induction false} Reassociate<T>(a: seq<T>, b: seq<T>, c: seq<T>)
    ensures a + (b + c) == (a + b) + c
  {
  }

  /** The step of the proof above past a head that `x` is not below. */
  lemma {:induction false} InsertEquivStep<T>(t: seq<T>, x: T, w: T, lt: (T, T) -> bool)
    requires |t| > 0 && !lt(x, t[0])
    requires EquivClass(Insert(t[1..], x, lt), w, lt) ==
      EquivClass(t[1..], w, lt) + (if !lt(x, w) && !lt(w, x) then [x] else [])
    ensures EquivClass(Insert(t, x, lt), w, lt) ==
      EquivClass(t, w, lt) + (if !lt(x, w) && !lt(w, x) then [x] else [])
  {
    var head := if !lt(t[0], w) && !lt(w, t[0]) then [t[0]] else [];
    var tail := if !lt(x, w) && !lt(w, x) then [x] else [];
    var rest := Insert(t[1..], x, lt);
    assert Insert(t, x, lt) == [t[0]] + rest;
    EquivClassCons(t[0], rest, w, lt);
    assert EquivClass(t, w, lt) == head + EquivClass(t[1..], w, lt);
    Reassociate(head, EquivClass(t[1..], w, lt), tail);
  }

  lemma {:induction false} EquivClassCons<T>(a: T, t: seq<T>, w: T, lt: (T, T) -> bool)
    ensures EquivClass([a] + t, w, lt) == (if !lt(a, w) && !lt(w, a) then [a] else []) + EquivClass(t, w, lt)
  {
    assert ([a] + t)[1..] == t;
  }

  /** The sort is stable: the members of one equivalence class keep their input order. */
  lemma {:induction false} SortByStable<T(!new)>(s: seq<T>, w: T, lt: (T, T) -> bool)
    requires StrictWeakOrder(lt)
    ensures EquivClass(SortBy(s, lt), w, lt) == EquivClass(s, w, lt)
  {
    if |s| > 0 {
      var init := s[..|s| - 1];
      SortByStable(init, w, lt);
      SortBySorted(init, lt);
      InsertKeepsEquivClass(SortBy(init, lt), s[|s| - 1], w, lt);
      StableStep(s, w, lt);
    }
  }

  lemma {:induction false} SplitLast<T>(s: seq<T>)
    requires |s| > 0
    ensures s == s[..|s| - 1] + [s[|s| - 1]]
  {
  }

  /** The step of the stability proof that needs no property of `lt`. */
  lemma {:induction false} StableStep<T>(s: seq<T>, w: T, lt: (T, T) -> bool)
    requires |s| > 0
    requires EquivClass(SortBy(s[..|s| - 1], lt), w, lt) == EquivClass(s[..|s| - 1], w, lt)
    requires var x := s[|s| - 1];
      EquivClass(Insert(SortBy(s[..|s| - 1], lt), x, lt), w, lt) ==
        EquivClass(SortBy(s[..|s| - 1], lt), w, lt) + (if !lt(x, w) && !lt(w, x) then [x] else [])
    ensures EquivClass(SortBy(s, lt), w, lt) == EquivClass(s, w, lt)
  {
    var init := s[..|s| - 1];
    var x := s[|s| - 1];
    assert SortBy(s, lt) == Insert(SortBy(init, lt), x, lt);
    SplitLast(s);
    EquivClassConcat(init, [x], w, lt);
    assert EquivClass([x], w, lt) == (if !lt(x, w) && !lt(w, x) then [x] else []);
  }

  /** In an ordered list, an element strictly below another comes before it. */
  lemma {:induction false} SortedBelowComesFirst<T>(s: seq<T>, lt: (T, T) -> bool, i: nat, j: nat)
    requires Sorted(s, lt) && i < |s| && j < |s| && s[i] != s[j] && lt(s[j], s[i])
    ensures j < i
  {
  }

  /** An already ordered list is left as it is. */
  lemma {:induction false} SortBySortedIsIdentity<T(!new)>(s: seq<T>, lt: (T, T) -> bool)
    requires StrictWeakOrder(lt) && Sorted(s, lt)
    ensures SortBy(s, lt) == s
  {
    if |s| > 0 {
      var init := s[..|s| - 1];
      var x := s[|s| - 1];
      assert Sorted(init, lt);
      SortBySortedIsIdentity(init, lt);
      InsertAtEnd(init, x, lt);
      SplitLast(s);
    }
  }

  lemma {:induction false} InsertAtEnd<T(!new)>(t: seq<T>, x: T, lt: (T, T) -> bool)
    requires forall j :: 0 <= j < |t| ==> !lt(x, t[j])
    ensures Insert(t, x, lt) == t + [x]
  {
    if |t| > 0 {
      InsertAtEnd(t[1..], x, lt);
      assert [t[0]] + (t[1..] + [x]) == t + [x];
    }
  }

  /** Comparing by a key under a strict weak order is a strict weak order. */
  lemma {:induction false} ByKeyIsStrictWeakOrder<T(!new), K(!new)>(key: T -> K, lt: (K, K) -> bool, derived: (T, T) -> bool)
    requires StrictWeakOrder(lt)
    requires forall a, b :: derived(a, b) == lt(key(a), key(b))
    ensures StrictWeakOrder(derived)
  {
    forall a, b, c | !derived(a, b) && !derived(b, c) ensures !derived(a, c) {
      assert !lt(key(a), key(b)) && !lt(key(b), key(c));
    }
    forall a, b, c | derived(a, b) && derived(b, c) ensures derived(a, c) {
      assert lt(key(a), key(b)) && lt(key(b), key(c));
    }
    forall a ensures !derived(a, a) {
      assert !lt(key(a), key(a));
    }
  }
}
