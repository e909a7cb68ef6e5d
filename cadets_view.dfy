/** The cadet list screen (main.py:2532-2570 and 2623-2679): which cache entries are
    listed, in what order, and what each row shows. */
module CadetsView {
  import opened Py
  import Sorting
  import PyOrder

  /** A cadet as listed: its id (a key of the cache, or a list position) and its record. */
  type Entry = (Value, Value)

  /** Only dict and string records are listed. */
  predicate Listable(v: Value) {
    v.Dict? || v.Str?
  }

  /** `[(k, v) for k, v in cadets.items() if isinstance(v, (dict, str))]`. */
  function ListableEntries(entries: seq<(Value, Value)>): (r: seq<Entry>)
    ensures |r| <= |entries|
    ensures forall p :: p in r <==> p in entries && Listable(p.1)
  {
    if |entries| == 0 then []
    else
      assert forall p :: p in entries <==> p == entries[0] || p in entries[1..];
      (if Listable(entries[0].1) then [entries[0]] else []) + ListableEntries(entries[1..])
  }

  /** `[(i, item) for i, item in enumerate(items) if isinstance(item, (dict, str))]`, the
      positions counted from `start`. */
  function ListableItems(items: seq<Value>, start: nat): (r: seq<Entry>)
    ensures |r| <= |items|
    ensures forall p :: p in r <==>
      exists i :: 0 <= i < |items| && p == (Int(start + i), items[i]) && Listable(items[i])
  {
    if |items| == 0 then []
    else
      var rest := ListableItems(items[1..], start + 1);
      var first := if Listable(items[0]) then [(Int(start), items[0])] else [];
      assert forall p :: p in rest <==>
        exists i :: 1 <= i < |items| && p == (Int(start + i), items[i]) && Listable(items[i]) by {
        forall p | p in rest ensures exists i :: 1 <= i < |items| && p == (Int(start + i), items[i]) && Listable(items[i]) {
          var j :| 0 <= j < |items[1..]| && p == (Int(start + 1 + j), items[1..][j]) && Listable(items[1..][j]);
          assert p == (Int(start + (j + 1)), items[j + 1]);
        }
        forall p | exists i :: 1 <= i < |items| && p == (Int(start + i), items[i]) && Listable(items[i])
          ensures p in rest
        {
          var i :| 1 <= i < |items| && p == (Int(start + i), items[i]) && Listable(items[i]);
          assert p == (Int(start + 1 + (i - 1)), items[1..][i - 1]);
        }
      }
      first + rest
  }

  /** Every key is a string. */
  predicate AllStringKeys(entries: seq<(Value, Value)>) {
    forall i :: 0 <= i < |entries| ==> entries[i].0.Str?
  }

  /** The field names a flat cadet record may have (main.py:2552). */
  const FlatRecordKeys: Value :=
    List([Str("first_name"), Str("last_name"), Str("email"), Str("grade"), Str("flight")])

  predicate AllKeysAreFieldNames(entries: seq<(Value, Value)>) {
    forall i :: 0 <= i < |entries| ==> In(entries[i].0, FlatRecordKeys) == Ok(true)
  }

  /** `cadets_list` as built from the cache. */
  function DisplayEntries(cadets: Value): (r: seq<Entry>)
    ensures forall i :: 0 <= i < |r| ==> Listable(r[i].1)
    ensures !cadets.Dict? && !cadets.List? ==> r == []
  {
    match cadets
    case Dict(entries) =>
      if AllStringKeys(entries) then ListableEntries(entries)
      else if AllKeysAreFieldNames(entries) then [(Str("direct"), cadets)]
      else []
    case List(items) =>
      var r := ListableItems(items, 0);
      assert forall i :: 0 <= i < |r| ==> r[i] in r;
      r
    case _ => []
  }

  /** The branch for a flat record never runs: a dict whose keys are all field names has
      only string keys, so the first branch has already taken it. A dict with any other
      key lists nothing. */
  lemma {:induction false} FlatRecordBranchIsDead(entries: seq<(Value, Value)>)
    requires !AllStringKeys(entries)
    ensures DisplayEntries(Dict(entries)) == []
  {
    var i :| 0 <= i < |entries| && !entries[i].0.Str?;
    var k := entries[i].0;
    assert In(k, FlatRecordKeys).Ok? && !In(k, FlatRecordKeys).value by {
      var names := FlatRecordKeys.items;
      assert forall j :: 0 <= j < |names| ==> names[j].Str?;
      assert forall j :: 0 <= j < |names| ==> !PyEq(names[j], k);
    }
  }

  /** `x or y or ''`. */
  function FirstTruthy(x: Value, y: Value): (r: Value)
    ensures Truthy(x) ==> r == x
    ensures !Truthy(x) && Truthy(y) ==> r == y
    ensures !Truthy(x) && !Truthy(y) ==> r == Str("")
  {
    if Truthy(x) then x else if Truthy(y) then y else Str("")
  }

  /** `get_sort_key` (main.py:2558-2564): non-dict records sort as ('', ''); a dict sorts
      by its lowercased surname then given name, each taken from the snake_case field
      when that is truthy and from the spaced field otherwise. */
  function SortKey(p: Entry): (k: (string, string))
    ensures !p.1.Dict? ==> k == ("", "")
    ensures forall i :: 0 <= i < |k.0| ==> !('A' <= k.0[i] <= 'Z')
    ensures forall i :: 0 <= i < |k.1| ==> !('A' <= k.1[i] <= 'Z')
  {
    if !p.1.Dict? then ("", "")
    else
      var e := p.1.entries;
      (Lower(PyStr(FirstTruthy(Field(e, "last_name", Str("")), Field(e, "Last Name", Str(""))))),
       Lower(PyStr(FirstTruthy(Field(e, "first_name", Str("")), Field(e, "First Name", Str(""))))))
  }

  function KeyValues(p: Entry): (Value, Value) {
    (Str(SortKey(p).0), Str(SortKey(p).1))
  }

  predicate CadetLt(p: Entry, q: Entry) {
    PyOrder.PairLt(KeyValues(p), KeyValues(q))
  }

  /** `sorted(cadets_list, key=get_sort_key)`. */
  function SortedEntries(cadets: Value): (r: seq<Entry>)
    ensures multiset(r) == multiset(DisplayEntries(cadets))
  {
    Sorting.SortBy(DisplayEntries(cadets), CadetLt)
  }

  lemma {:induction false} CadetLtIsStrictWeakOrder()
    ensures Sorting.StrictWeakOrder(CadetLt)
  {
    PyOrder.PairLtIsStrictWeakOrder();
    Sorting.ByKeyIsStrictWeakOrder(KeyValues, PyOrder.PairLt, CadetLt);
  }

  /** The sort key's tuples are always comparable, so the sort never raises, and it orders
      them as Python's tuple `<` does. */
  lemma {:induction false} SortKeysCompare(p: Entry, q: Entry)
    ensures PyOrder.PyTupleLess(KeyValues(p), KeyValues(q)) == Ok(CadetLt(p, q))
  {
    PyOrder.PyTupleLessAgrees(KeyValues(p), KeyValues(q));
  }

  /** The listed cadets are the listable entries, each once, ordered by the sort key, and
      cadets with equal keys stay in the cache's order. */
  lemma {:induction false} SortedEntriesSpec(cadets: Value, w: Entry)
    ensures multiset(SortedEntries(cadets)) == multiset(DisplayEntries(cadets))
    ensures Sorting.Sorted(SortedEntries(cadets), CadetLt)
    ensures Sorting.EquivClass(SortedEntries(cadets), w, CadetLt) == Sorting.EquivClass(DisplayEntries(cadets), w, CadetLt)
  {
    CadetLtIsStrictWeakOrder();
    Sorting.SortBySorted(DisplayEntries(cadets), CadetLt);
    Sorting.SortByStable(DisplayEntries(cadets), w, CadetLt);
  }

  /** Nothing of two strings is below ('', '') under the pair order. */
  lemma {:induction false} EmptyPairIsLeast(q: (Value, Value))
    requires q.0.Str? && q.1.Str?
    ensures !PyOrder.PairLt((Str(""), Str("")), q) ==> q == (Str(""), Str(""))
  {
    EmptyIsLeast(q.0.s);
    EmptyIsLeast(q.1.s);
  }

  /** A string record sorts before every dict whose key is not ('', ''): everything listed
      ahead of it also has the key ('', ''). */
  lemma {:induction false} NonDictSortsFirst(cadets: Value, i: nat)
    requires i < |SortedEntries(cadets)| && !SortedEntries(cadets)[i].1.Dict?
    ensures forall j :: 0 <= j < i ==> SortKey(SortedEntries(cadets)[j]) == ("", "")
  {
    var s := SortedEntries(cadets);
    CadetLtIsStrictWeakOrder();
    Sorting.SortBySorted(DisplayEntries(cadets), CadetLt);
    assert KeyValues(s[i]) == (Str(""), Str(""));
    forall j | 0 <= j < i ensures SortKey(s[j]) == ("", "") {
      assert !CadetLt(s[i], s[j]);
      EmptyPairIsLeast(KeyValues(s[j]));
    }
  }

  /** One row of the list. */
  datatype Row = Row(id: Value, name: string, grade: string, flight: string, csHours: string,
                     status: string, active: bool)

  /** `d.get(a, d.get(b, default))`: the first field that is PRESENT wins, even when its
      value is empty. */
  function FieldOr(e: seq<(Value, Value)>, a: string, b: string, default: Value): (r: Value)
    ensures HasKey(e, Str(a)) ==> r == Lookup(e, Str(a)).value
    ensures !HasKey(e, Str(a)) && HasKey(e, Str(b)) ==> r == Lookup(e, Str(b)).value
    ensures !HasKey(e, Str(a)) && !HasKey(e, Str(b)) ==> r == default
  {
    Field(e, a, Field(e, b, default))
  }

  function StatusOf(e: seq<(Value, Value)>): Value {
    FieldOr(e, "status", "Status", Str("Active"))
  }

  /** The row for a dict record whose status is a string. */
  function RenderRow(id: Value, e: seq<(Value, Value)>): (r: Row)
    requires StatusOf(e).Str?
    ensures r.id == id
    ensures HasKey(e, Str("status")) ==> Str(r.status) == Lookup(e, Str("status")).value
    ensures !HasKey(e, Str("status")) && !HasKey(e, Str("Status")) ==> r.status == "Active" && r.active
    ensures r.active ==> |r.status| == 6
    ensures r.active <==> Lower(r.status) == "active"
    ensures r.name == PyStr(FieldOr(e, "last_name", "Last Name", Str(""))) + ", "
                      + PyStr(FieldOr(e, "first_name", "First Name", Str("")))
    ensures r.grade == PyStr(FieldOr(e, "grade", "Grade", Str("")))
    ensures r.flight == PyStr(FieldOr(e, "flight", "Flight", Str("")))
    ensures r.csHours == PyStr(FieldOr(e, "cs_hours", "CS Hours", Int(0)))
  {
    Row(id,
        PyStr(FieldOr(e, "last_name", "Last Name", Str(""))) + ", "
          + PyStr(FieldOr(e, "first_name", "First Name", Str(""))),
        PyStr(FieldOr(e, "grade", "Grade", Str(""))),
        PyStr(FieldOr(e, "flight", "Flight", Str(""))),
        PyStr(FieldOr(e, "cs_hours", "CS Hours", Int(0))),
        StatusOf(e).s,
        Lower(StatusOf(e).s) == "active")
  }

  /** The dict records of `list`, in order: the only ones that get a row. */
  function DictEntries(list: seq<Entry>): (r: seq<Entry>)
    ensures forall i :: 0 <= i < |r| ==> r[i].1.Dict?
    ensures |r| <= |list|
  {
    if |list| == 0 then []
    else (if list[0].1.Dict? then [list[0]] else []) + DictEntries(list[1..])
  }

  /** `_display_cadets_list` (main.py:2623-2679): rows for the dict records; a status that
      is not a string makes `status.lower()` raise AttributeError. */
  function RenderRows(list: seq<Entry>): (r: Result<seq<Row>>)
    ensures r.Ok? ==> |r.value| == |DictEntries(list)|
    ensures r.Err? ==> r.exc.kind == AttributeError
  {
    if |list| == 0 then Ok([])
    else if !list[0].1.Dict? then RenderRows(list[1..])
    else
      var e := list[0].1.entries;
      if !StatusOf(e).Str? then Err(Exc(AttributeError, "'" + TypeName(StatusOf(e)) + "' object has no attribute 'lower'"))
      else
        var rest :- RenderRows(list[1..]);
        Ok([RenderRow(list[0].0, e)] + rest)
  }

  /** Rendering succeeds exactly when every dict record has a string status. */
  lemma {:induction false} RenderRowsFails(list: seq<Entry>)
    ensures RenderRows(list).Ok? <==>
      forall i :: 0 <= i < |list| && list[i].1.Dict? ==> StatusOf(list[i].1.entries).Str?
  {
    if |list| > 0 {
      RenderRowsFails(list[1..]);
      assert forall i :: 0 < i < |list| ==> list[i] == list[1..][i - 1];
    }
  }

  /** Every record of `d` is a dict with a string status. */
  predicate AllRenderable(d: seq<Entry>) {
    forall i :: 0 <= i < |d| ==> d[i].1.Dict? && StatusOf(d[i].1.entries).Str?
  }

  /** One row per record of `d`, in order. */
  function RowsOf(d: seq<Entry>): (r: seq<Row>)
    requires AllRenderable(d)
    ensures |r| == |d|
    ensures forall i :: 0 <= i < |d| ==> r[i] == RenderRow(d[i].0, d[i].1.entries)
  {
    if |d| == 0 then []
    else
      assert AllRenderable(d[1..]) by {
        forall i | 0 <= i < |d[1..]| ensures d[1..][i] == d[i + 1] { }
      }
      assert forall i :: 0 < i < |d| ==> d[1..][i - 1] == d[i];
      [RenderRow(d[0].0, d[0].1.entries)] + RowsOf(d[1..])
  }

  /** A successful rendering has one row per dict record, in order. */
  lemma {:induction false} RenderRowsContents(list: seq<Entry>)
    requires RenderRows(list).Ok?
    ensures AllRenderable(DictEntries(list))
    ensures RenderRows(list).value == RowsOf(DictEntries(list))
  {
    if |list| > 0 {
      var tail := list[1..];
      RenderRowsContents(tail);
      var dt := DictEntries(tail);
      if list[0].1.Dict? {
        assert DictEntries(list) == [list[0]] + dt;
        RowsOfCons(list[0], dt);
      } else {
        assert DictEntries(list) == dt;
      }
    }
  }

  lemma {:induction false} RowsOfCons(x: Entry, d: seq<Entry>)
    requires AllRenderable(d) && x.1.Dict? && StatusOf(x.1.entries).Str?
    ensures AllRenderable([x] + d)
    ensures RowsOf([x] + d) == [RenderRow(x.0, x.1.entries)] + RowsOf(d)
  {
    var c := [x] + d;
    assert c[1..] == d;
    forall i | 0 < i < |c| ensures c[i] == d[i - 1] { }
  }

  /** What the screen shows. */
  datatype Screen = NoCadets | Rows(rows: seq<Row>)

  /** `update_cadets_display`: a falsy cache, an empty list and a failure while drawing
      all end in the "No cadets found." message. */
  function Display(cadets: Value): (r: Screen)
    ensures !Truthy(cadets) ==> r == NoCadets
    ensures |DisplayEntries(cadets)| == 0 ==> r == NoCadets
    ensures r == NoCadets <==>
      !Truthy(cadets) || |DisplayEntries(cadets)| == 0 || RenderRows(SortedEntries(cadets)).Err?
    ensures r.Rows? ==> AllRenderable(DictEntries(SortedEntries(cadets)))
    ensures r.Rows? ==> r.rows == RowsOf(DictEntries(SortedEntries(cadets)))
  {
    if !Truthy(cadets) then NoCadets
    else
      var list := DisplayEntries(cadets);
      if |list| == 0 then NoCadets
      else match RenderRows(SortedEntries(cadets))
        case Err(_) => NoCadets
        case Ok(rows) =>
          RenderRowsContents(SortedEntries(cadets));
          Rows(rows)
  }

  /** A cadet with an empty 'last_name' next to a filled 'Last Name' sorts under the
      second but shows the first: the sort key skips falsy values, the row only absent
      ones. */
  lemma {:induction false} NameFallbacksDisagree()
    ensures var e := [(Str("last_name"), Str("")), (Str("Last Name"), Str("Smith"))];
      SortKey((Str("c1"), Dict(e))).0 == "smith"
      && FieldOr(e, "last_name", "Last Name", Str("")) == Str("")
  {
    var e := [(Str("last_name"), Str("")), (Str("Last Name"), Str("Smith"))];
    assert FindKey(e, Str("last_name")) == Some(0);
    assert FindKey(e, Str("Last Name")) == Some(1);
    assert Field(e, "last_name", Str("")) == Str("");
    assert Field(e, "Last Name", Str("")) == Str("Smith");
    assert FirstTruthy(Str(""), Str("Smith")) == Str("Smith");
    assert Lower("Smith") == "smith";
  }
}
