/** Python's `<` on the values the application sorts: numbers (bool, int, float) among
    themselves, strings among themselves, and two-element tuples of them compared
    lexicographically. Any other pairing raises TypeError. */
module PyOrder {
  import opened Py
  import Sorting

  /** `a < b` as Python evaluates it, for the values it is defined on. Lists are not
      compared element by element in this model. */
  function PyLess(a: Value, b: Value): (r: Result<bool>)
    ensures r.Ok? <==> Comparable(a, b)
    ensures r.Err? ==> r.exc.kind == TypeError
  {
    if IsNumber(a) && IsNumber(b) then Ok(Num(a) < Num(b))
    else if a.Str? && b.Str? then Ok(LexLt(a.s, b.s))
    else Err(Exc(TypeError, "'<' not supported between instances of '" + TypeName(a) + "' and '" + TypeName(b) + "'"))
  }

  /** `p < q` for two pairs: the first unequal position decides; equal pairs are not less. */
  function PyTupleLess(p: (Value, Value), q: (Value, Value)): (r: Result<bool>)
    ensures r.Ok? <==> PairComparable(p, q)
    ensures r.Err? ==> r.exc.kind == TypeError
  {
    if !PyEq(p.0, q.0) then PyLess(p.0, q.0)
    else if !PyEq(p.1, q.1) then PyLess(p.1, q.1)
    else Ok(false)
  }

  predicate Comparable(a: Value, b: Value) {
    (IsNumber(a) && IsNumber(b)) || (a.Str? && b.Str?)
  }

  predicate PairComparable(p: (Value, Value), q: (Value, Value)) {
    if PyEq(p.0, q.0) then PyEq(p.1, q.1) || Comparable(p.1, q.1) else Comparable(p.0, q.0)
  }

  /** Numbers below strings below everything else: a total order that the sort uses, and
      that agrees with `<` wherever Python defines `<`. */
  function Rank(v: Value): nat {
    if IsNumber(v) then 0 else if v.Str? then 1 else 2
  }

  predicate ValueLt(a: Value, b: Value) {
    if Rank(a) != Rank(b) then Rank(a) < Rank(b)
    else if IsNumber(a) then Num(a) < Num(b)
    else if a.Str? then LexLt(a.s, b.s)
    else false
  }

  predicate PairLt(p: (Value, Value), q: (Value, Value)) {
    ValueLt(p.0, q.0) || (!ValueLt(q.0, p.0) && ValueLt(p.1, q.1))
  }

  /** Where Python's `<` is defined it never fails and agrees with ValueLt. */
  lemma {:induction false} PyLessAgrees(a: Value, b: Value)
    ensures PyLess(a, b).Ok? <==> Comparable(a, b)
    ensures PyLess(a, b).Ok? ==> PyLess(a, b).value == ValueLt(a, b)
  {
  }

  /** Comparable values are equivalent under ValueLt exactly when Python calls them equal. */
  lemma {:induction false} EquivIsPyEq(a: Value, b: Value)
    requires Comparable(a, b)
    ensures (!ValueLt(a, b) && !ValueLt(b, a)) <==> PyEq(a, b)
  {
    if a.Str? && b.Str? {
      if a.s != b.s { LexLtTotal(a.s, b.s); } else { LexLtIrreflexive(a.s); }
    }
  }

  /** Values Python calls equal are equivalent under ValueLt. */
  lemma {:induction false} PyEqIsEquiv(a: Value, b: Value)
    requires PyEq(a, b)
    ensures !ValueLt(a, b) && !ValueLt(b, a)
  {
    if a.Str? { LexLtIrreflexive(a.s); }
  }

  lemma {:induction false} PyTupleLessAgrees(p: (Value, Value), q: (Value, Value))
    ensures PyTupleLess(p, q).Ok? <==> PairComparable(p, q)
    ensures PyTupleLess(p, q).Ok? ==> PyTupleLess(p, q).value == PairLt(p, q)
  {
    if PyEq(p.0, q.0) {
      PyEqIsEquiv(p.0, q.0);
      if PyEq(p.1, q.1) { PyEqIsEquiv(p.1, q.1); }
    } else if Comparable(p.0, q.0) {
      EquivIsPyEq(p.0, q.0);
    }
  }

  lemma {:induction false} LexLtAsymmetric(a: string, b: string)
    requires LexLt(a, b)
    ensures !LexLt(b, a)
  {
    if LexLt(b, a) {
      LexLtTransitive(a, b, a);
      LexLtIrreflexive(a);
    }
  }

  lemma {:induction false} ValueLtTransitive(a: Value, b: Value, c: Value)
    requires ValueLt(a, b) && ValueLt(b, c)
    ensures ValueLt(a, c)
  {
    if Rank(a) == Rank(b) == Rank(c) && a.Str? {
      LexLtTransitive(a.s, b.s, c.s);
    }
  }

  /** Whatever lies strictly between two strings' order is on one side of each. */
  lemma {:induction false} LexLtSplit(a: string, b: string, c: string)
    ensures LexLt(a, c) ==> LexLt(a, b) || LexLt(b, c)
  {
    if LexLt(a, c) && a != b && !LexLt(a, b) {
      LexLtTotal(a, b);
      LexLtTransitive(b, a, c);
    }
  }

  lemma {:induction false} ValueLtNegTransitive(a: Value, b: Value, c: Value)
    requires !ValueLt(a, b) && !ValueLt(b, c)
    ensures !ValueLt(a, c)
  {
    if Rank(a) == Rank(b) == Rank(c) && a.Str? {
      LexLtSplit(a.s, b.s, c.s);
    }
  }

  lemma {:induction false} ValueLtIrreflexive(a: Value)
    ensures !ValueLt(a, a)
  {
    if a.Str? { LexLtIrreflexive(a.s); }
  }

  lemma {:induction false} ValueLtIsStrictWeakOrder()
    ensures Sorting.StrictWeakOrder(ValueLt)
  {
    forall a ensures !ValueLt(a, a) { ValueLtIrreflexive(a); }
    forall a, b, c | ValueLt(a, b) && ValueLt(b, c) ensures ValueLt(a, c) {
      ValueLtTransitive(a, b, c);
    }
    forall a, b, c | !ValueLt(a, b) && !ValueLt(b, c) ensures !ValueLt(a, c) {
      ValueLtNegTransitive(a, b, c);
    }
  }

  lemma {:induction false} PairLtIsStrictWeakOrder()
    ensures Sorting.StrictWeakOrder(PairLt)
  {
    ValueLtIsStrictWeakOrder();
    forall p: (Value, Value), q: (Value, Value), t: (Value, Value) | PairLt(p, q) && PairLt(q, t)
      ensures PairLt(p, t)
    {
      if !ValueLt(p.0, t.0) {
        if ValueLt(t.0, p.0) {
          assert false;
        }
      }
    }
  }

  /** `sorted(s, key=...)` when the keys it compares may not be comparable: the sort fails
      with TypeError as soon as any two members cannot be compared, and otherwise gives the
      stable sort under `lt`. */
  function CheckedSort<T>(s: seq<T>, lt: (T, T) -> bool, comparable: (T, T) -> bool): (r: Result<seq<T>>)
    ensures r.Ok? <==> forall i, j :: 0 <= i < j < |s| ==> comparable(s[i], s[j])
    ensures r.Ok? ==> r.value == Sorting.SortBy(s, lt)
    ensures r.Err? ==> r.exc.kind == TypeError
  {
    if forall i, j :: 0 <= i < j < |s| ==> comparable(s[i], s[j]) then Ok(Sorting.SortBy(s, lt))
    else Err(Exc(TypeError, "'<' not supported between instances"))
  }
}
