/** The cadet roster report (main.py:3327-3374): the cadets grouped by company and then by
    flight, each level printed in sorted order, followed by the total. Also the choice of
    report body by its name (main.py:3280-3291) and the export file name
    (main.py:3298-3299). The timestamps are inputs. */
module Roster {
  import opened Py
  import Sorting
  import PyOrder

  /** A cadet record, as the dict entries the report reads. */
  type Cadet = seq<(Value, Value)>
  /** A company's flights: each flight key with its cadets, in first-seen order. */
  type Flights = seq<(Value, seq<Cadet>)>
  /** The companies: each company key with its flights, in first-seen order. */
  type Companies = seq<(Value, Flights)>

  function CompanyOf(cadet: Cadet): Value {
    Field(cadet, "company", Str("U"))
  }

  function FlightOf(cadet: Cadet): Value {
    Field(cadet, "flight", Str("0"))
  }

  /** The position of the group whose key equals `k`, as a dict lookup finds it. */
  function FindGroup<T>(gs: seq<(Value, T)>, k: Value): (r: Option<nat>)
    ensures r.Some? ==> r.value < |gs| && PyEq(gs[r.value].0, k)
    ensures r.None? ==> forall j :: 0 <= j < |gs| ==> !PyEq(gs[j].0, k)
  {
    if |gs| == 0 then None
    else if PyEq(gs[0].0, k) then Some(0)
    else match FindGroup(gs[1..], k)
      case None => None
      case Some(j) => Some(j + 1)
  }

  /** `companies[company][flight].append(cadet)` within one company's flights. */
  function AddToFlight(fs: Flights, flight: Value, cadet: Cadet): Flights {
    match FindGroup(fs, flight)
    case None => fs + [(flight, [cadet])]
    case Some(j) => fs[j := (fs[j].0, fs[j].1 + [cadet])]
  }

  /** One cadet filed under its company and flight, each created when not yet present. */
  function AddCadet(g: Companies, company: Value, flight: Value, cadet: Cadet): Companies {
    match FindGroup(g, company)
    case None => g + [(company, [(flight, [cadet])])]
    case Some(i) => g[i := (g[i].0, AddToFlight(g[i].1, flight, cadet))]
  }

  /** Filing one value of the cadets dict: `cadet.get` fails on a non-dict, and the
      membership tests fail on an unhashable company, then flight. */
  function GroupStep(g: Companies, cadet: Value): Result<Companies> {
    if !cadet.Dict? then Err(Exc(AttributeError, "'" + TypeName(cadet) + "' object has no attribute 'get'"))
    else if !Hashable(CompanyOf(cadet.entries)) then Err(UnhashableError(CompanyOf(cadet.entries)))
    else if !Hashable(FlightOf(cadet.entries)) then Err(UnhashableError(FlightOf(cadet.entries)))
    else Ok(AddCadet(g, CompanyOf(cadet.entries), FlightOf(cadet.entries), cadet.entries))
  }

  predicate Fileable(cadet: Value) {
    cadet.Dict? && Hashable(CompanyOf(cadet.entries)) && Hashable(FlightOf(cadet.entries))
  }

  /** The grouping of a sequence of cadets, filed in order. */
  function Grouping(cadets: seq<Value>): Result<Companies> {
    if |cadets| == 0 then Ok([])
    else
      var g :- Grouping(cadets[..|cadets| - 1]);
      GroupStep(g, cadets[|cadets| - 1])
  }

  /** The loop that files every cadet. */
  method GroupCadets(cadets: seq<Value>) returns (r: Result<Companies>)
    ensures r == Grouping(cadets)
  {
    var companies: Companies := [];
    var i := 0;
    while i < |cadets|
      invariant 0 <= i <= |cadets|
      invariant Grouping(cadets[..i]) == Ok(companies)
    {
      GroupingExtend(cadets, i);
      var step := GroupStep(companies, cadets[i]);
      if step.Err? {
        GroupingFailsOnPrefix(cadets, i + 1);
        return step;
      }
      companies := step.value;
      i := i + 1;
    }
    TakeAll(cadets);
    return Ok(companies);
  }

  lemma {:induction false} GroupingExtend(cadets: seq<Value>, i: nat)
    requires i < |cadets| && Grouping(cadets[..i]).Ok?
    ensures Grouping(cadets[..i + 1]) == GroupStep(Grouping(cadets[..i]).value, cadets[i])
  {
    assert cadets[..i + 1][..i] == cadets[..i];
  }

  lemma {:induction false} GroupStepFails(g: Companies, cadet: Value)
    ensures GroupStep(g, cadet).Err? <==> !Fileable(cadet)
  {
  }

  lemma {:induction false} TakeAll<T>(s: seq<T>)
    ensures s[..|s|] == s
  {
  }

  lemma {:induction false} GroupingFailsOnPrefix(cadets: seq<Value>, n: nat)
    requires n <= |cadets| && Grouping(cadets[..n]).Err?
    ensures Grouping(cadets) == Grouping(cadets[..n])
    decreases |cadets| - n
  {
    if n < |cadets| {
      assert cadets[..n + 1][..n] == cadets[..n];
      GroupingFailsOnPrefix(cadets, n + 1);
    } else {
      assert cadets[..n] == cadets;
    }
  }

  /** Grouping fails exactly when some cadet is not a dict or has an unhashable company or
      flight. */
  lemma {:induction false} GroupingFails(cadets: seq<Value>)
    ensures Grouping(cadets).Err? <==> exists i :: 0 <= i < |cadets| && !Fileable(cadets[i])
  {
    if |cadets| > 0 {
      var n := |cadets| - 1;
      GroupingFails(cadets[..n]);
      GroupingUnfolds(cadets);
      UnfitSplit(cadets);
      if Grouping(cadets[..n]).Ok? {
        GroupStepFails(Grouping(cadets[..n]).value, cadets[n]);
      }
    }
  }

  /** How the grouping of a list follows from that of all but its last cadet. */
  lemma {:induction false} GroupingUnfolds(cadets: seq<Value>)
    requires |cadets| > 0
    ensures var n := |cadets| - 1;
      && (Grouping(cadets[..n]).Err? ==> Grouping(cadets).Err?)
      && (Grouping(cadets[..n]).Ok? ==> Grouping(cadets) == GroupStep(Grouping(cadets[..n]).value, cadets[n]))
  {
  }

  lemma {:induction false} UnfitSplit(cadets: seq<Value>)
    requires |cadets| > 0
    ensures var n := |cadets| - 1;
      (exists i :: 0 <= i < |cadets| && !Fileable(cadets[i])) <==>
        (exists i :: 0 <= i < n && !Fileable(cadets[..n][i])) || !Fileable(cadets[n])
  {
    var n := |cadets| - 1;
    if exists i :: 0 <= i < |cadets| && !Fileable(cadets[i]) {
      var i :| 0 <= i < |cadets| && !Fileable(cadets[i]);
      if i < n {
        assert cadets[..n][i] == cadets[i];
      }
    }
    if exists i :: 0 <= i < n && !Fileable(cadets[..n][i]) {
      var i :| 0 <= i < n && !Fileable(cadets[..n][i]);
      assert cadets[..n][i] == cadets[i];
    }
  }

  // The cadets held by a grouping, counted with multiplicity.

  function SumBags<T>(s: seq<T>, f: T -> multiset<Cadet>): multiset<Cadet> {
    if |s| == 0 then multiset{} else f(s[0]) + SumBags(s[1..], f)
  }

  function FlightMembers(p: (Value, seq<Cadet>)): multiset<Cadet> {
    multiset(p.1)
  }

  function CompanyMembers(c: (Value, Flights)): multiset<Cadet> {
    SumBags(c.1, FlightMembers)
  }

  lemma {:induction false} SumBagsConcat<T>(a: seq<T>, b: seq<T>, f: T -> multiset<Cadet>)
    ensures SumBags(a + b, f) == SumBags(a, f) + SumBags(b, f)
  {
    if |a| > 0 {
      assert (a + b)[1..] == a[1..] + b;
      SumBagsConcat(a[1..], b, f);
    } else {
      assert a + b == b;
    }
  }

  lemma {:induction false} SumBagsUpdate<T>(s: seq<T>, i: nat, x: T, f: T -> multiset<Cadet>)
    requires i < |s|
    ensures SumBags(s[i := x], f) + f(s[i]) == SumBags(s, f) + f(x)
  {
    var t := s[i := x];
    if i > 0 {
      assert t[1..] == s[1..][i - 1 := x];
      assert s[1..][i - 1] == s[i];
      SumBagsUpdate(s[1..], i - 1, x, f);
      calc {
        SumBags(t, f) + f(s[i]);
        f(t[0]) + SumBags(t[1..], f) + f(s[i]);
        f(s[0]) + (SumBags(s[1..][i - 1 := x], f) + f(s[1..][i - 1]));
        f(s[0]) + SumBags(s[1..], f) + f(x);
      }
    } else {
      assert t[1..] == s[1..];
    }
  }

  lemma {:induction false} MultisetCancel(a: multiset<Cadet>, b: multiset<Cadet>, c: multiset<Cadet>)
    requires a + b == c + b
    ensures a == c
  {
    forall e ensures a[e] == c[e] {
      assert (a + b)[e] == (c + b)[e];
    }
  }

  lemma {:induction false} SumBagsSingle<T>(x: T, f: T -> multiset<Cadet>)
    ensures SumBags([x], f) == f(x)
  {
    assert [x][1..] == [];
  }

  lemma {:induction false} SumBagsInsert<T>(t: seq<T>, x: T, lt: (T, T) -> bool, f: T -> multiset<Cadet>)
    ensures SumBags(Sorting.Insert(t, x, lt), f) == SumBags(t, f) + f(x)
  {
    if |t| > 0 && !lt(x, t[0]) {
      SumBagsInsert(t[1..], x, lt, f);
    }
  }

  /** Sorting moves the groups but keeps the cadets they hold. */
  lemma {:induction false} SumBagsSortBy<T>(s: seq<T>, lt: (T, T) -> bool, f: T -> multiset<Cadet>)
    ensures SumBags(Sorting.SortBy(s, lt), f) == SumBags(s, f)
  {
    if |s| > 0 {
      var n := |s| - 1;
      var init := Sorting.SortBy(s[..n], lt);
      assert Sorting.SortBy(s, lt) == Sorting.Insert(init, s[n], lt);
      SumBagsSortBy(s[..n], lt, f);
      SumBagsInsert(init, s[n], lt, f);
      SumBagsConcat(s[..n], [s[n]], f);
      SumBagsSingle(s[n], f);
      Sorting.SplitLast(s);
    }
  }

  lemma {:induction false} AddToFlightMembers(fs: Flights, flight: Value, cadet: Cadet)
    ensures SumBags(AddToFlight(fs, flight, cadet), FlightMembers) == SumBags(fs, FlightMembers) + multiset{cadet}
  {
    match FindGroup(fs, flight)
    case None =>
      SumBagsConcat(fs, [(flight, [cadet])], FlightMembers);
      SumBagsSingle((flight, [cadet]), FlightMembers);
    case Some(j) =>
      var x := (fs[j].0, fs[j].1 + [cadet]);
      SumBagsUpdate(fs, j, x, FlightMembers);
      assert FlightMembers(x) == FlightMembers(fs[j]) + multiset{cadet};
      MultisetCancel(SumBags(fs[j := x], FlightMembers), FlightMembers(fs[j]), SumBags(fs, FlightMembers) + multiset{cadet});
  }

  lemma {:induction false} AddCadetMembers(g: Companies, company: Value, flight: Value, cadet: Cadet)
    ensures SumBags(AddCadet(g, company, flight, cadet), CompanyMembers) == SumBags(g, CompanyMembers) + multiset{cadet}
  {
    match FindGroup(g, company)
    case None =>
      SumBagsConcat(g, [(company, [(flight, [cadet])])], CompanyMembers);
      SumBagsSingle((flight, [cadet]), FlightMembers);
      SumBagsSingle((company, [(flight, [cadet])]), CompanyMembers);
    case Some(i) =>
      AddToFlightMembers(g[i].1, flight, cadet);
      var x := (g[i].0, AddToFlight(g[i].1, flight, cadet));
      SumBagsUpdate(g, i, x, CompanyMembers);
      assert CompanyMembers(x) == CompanyMembers(g[i]) + multiset{cadet};
      MultisetCancel(SumBags(g[i := x], CompanyMembers), CompanyMembers(g[i]), SumBags(g, CompanyMembers) + multiset{cadet});
  }

  /** The cadets of a sequence of values that are dicts, as records. */
  function Records(cadets: seq<Value>): seq<Cadet> {
    if |cadets| == 0 then []
    else
      var last := cadets[|cadets| - 1];
      Records(cadets[..|cadets| - 1]) + (if last.Dict? then [last.entries] else [])
  }

  // Where each cadet is filed.

  predicate DistinctGroups<T>(gs: seq<(Value, T)>) {
    forall i, j :: 0 <= i < j < |gs| ==> !PyEq(gs[i].0, gs[j].0)
  }

  predicate CadetsIn(cs: seq<Cadet>, company: Value, flight: Value) {
    forall k :: 0 <= k < |cs| ==> PyEq(CompanyOf(cs[k]), company) && PyEq(FlightOf(cs[k]), flight)
  }

  predicate FlightsWell(fs: Flights, company: Value) {
    && DistinctGroups(fs)
    && forall i :: 0 <= i < |fs| ==> Hashable(fs[i].0) && |fs[i].1| > 0 && CadetsIn(fs[i].1, company, fs[i].0)
  }

  /** Keys are distinct and hashable, no group is empty, and every cadet sits under keys
      equal to its own company and flight. */
  predicate GroupedWell(g: Companies) {
    && DistinctGroups(g)
    && forall i :: 0 <= i < |g| ==> Hashable(g[i].0) && |g[i].1| > 0 && FlightsWell(g[i].1, g[i].0)
  }

  lemma {:induction false} AddToFlightWell(fs: Flights, company: Value, cadet: Cadet)
    requires FlightsWell(fs, company) && PyEq(CompanyOf(cadet), company) && Hashable(FlightOf(cadet))
    ensures FlightsWell(AddToFlight(fs, FlightOf(cadet), cadet), company)
    ensures |AddToFlight(fs, FlightOf(cadet), cadet)| > 0
  {
    var flight := FlightOf(cadet);
    match FindGroup(fs, flight)
    case None =>
      var r := fs + [(flight, [cadet])];
      assert forall i :: 0 <= i < |fs| ==> r[i] == fs[i];
      assert CadetsIn([cadet], company, flight);
    case Some(j) =>
      var r := fs[j := (fs[j].0, fs[j].1 + [cadet])];
      assert CadetsIn(fs[j].1 + [cadet], company, fs[j].0) by {
        var cs := fs[j].1 + [cadet];
        forall k | 0 <= k < |cs| ensures PyEq(CompanyOf(cs[k]), company) && PyEq(FlightOf(cs[k]), fs[j].0) {
          if k < |fs[j].1| {
            assert cs[k] == fs[j].1[k];
          }
        }
      }
      assert forall i :: 0 <= i < |r| && i != j ==> r[i] == fs[i];
  }

  lemma {:induction false} AddCadetWell(g: Companies, cadet: Cadet)
    requires GroupedWell(g) && Hashable(CompanyOf(cadet)) && Hashable(FlightOf(cadet))
    ensures GroupedWell(AddCadet(g, CompanyOf(cadet), FlightOf(cadet), cadet))
  {
    var company := CompanyOf(cadet);
    var flight := FlightOf(cadet);
    match FindGroup(g, company)
    case None =>
      var r := g + [(company, [(flight, [cadet])])];
      assert forall i :: 0 <= i < |g| ==> r[i] == g[i];
      assert CadetsIn([cadet], company, flight);
      assert FlightsWell([(flight, [cadet])], company);
    case Some(i) =>
      AddToFlightWell(g[i].1, g[i].0, cadet);
      var r := g[i := (g[i].0, AddToFlight(g[i].1, flight, cadet))];
      assert forall k :: 0 <= k < |r| && k != i ==> r[k] == g[k];
  }

  /** A successful grouping holds every cadet exactly as often as the cache does, each
      under its own company and flight. */
  lemma {:induction false} GroupingPartition(cadets: seq<Value>)
    requires Grouping(cadets).Ok?
    ensures forall i :: 0 <= i < |cadets| ==> cadets[i].Dict?
    ensures GroupedWell(Grouping(cadets).value)
    ensures SumBags(Grouping(cadets).value, CompanyMembers) == multiset(Records(cadets))
  {
    GroupingAllDicts(cadets);
    GroupingWell(cadets);
    GroupingMembers(cadets);
  }

  lemma {:induction false} GroupingAllDicts(cadets: seq<Value>)
    requires Grouping(cadets).Ok?
    ensures forall i :: 0 <= i < |cadets| ==> cadets[i].Dict?
  {
    if |cadets| > 0 {
      GroupingLast(cadets);
      GroupingAllDicts(cadets[..|cadets| - 1]);
    }
  }

  lemma {:induction false} GroupingWell(cadets: seq<Value>)
    requires Grouping(cadets).Ok?
    ensures GroupedWell(Grouping(cadets).value)
  {
    if |cadets| > 0 {
      var n := |cadets| - 1;
      GroupingLast(cadets);
      GroupingWell(cadets[..n]);
      AddCadetWell(Grouping(cadets[..n]).value, cadets[n].entries);
    }
  }

  lemma {:induction false} GroupingMembers(cadets: seq<Value>)
    requires Grouping(cadets).Ok?
    ensures SumBags(Grouping(cadets).value, CompanyMembers) == multiset(Records(cadets))
  {
    if |cadets| > 0 {
      var n := |cadets| - 1;
      var c := cadets[n].entries;
      GroupingLast(cadets);
      GroupingMembers(cadets[..n]);
      AddCadetMembers(Grouping(cadets[..n]).value, CompanyOf(c), FlightOf(c), c);
      RecordsLast(cadets);
    }
  }

  lemma {:induction false} RecordsLast(cadets: seq<Value>)
    requires |cadets| > 0 && cadets[|cadets| - 1].Dict?
    ensures multiset(Records(cadets)) == multiset(Records(cadets[..|cadets| - 1])) + multiset{cadets[|cadets| - 1].entries}
  {
    var n := |cadets| - 1;
    assert Records(cadets) == Records(cadets[..n]) + [cadets[n].entries];
  }

  /** A successful grouping of a non-empty sequence files its last cadet, a dict, into the
      grouping of the others. */
  lemma {:induction false} GroupingLast(cadets: seq<Value>)
    requires |cadets| > 0 && Grouping(cadets).Ok?
    ensures var n := |cadets| - 1;
      && Grouping(cadets[..n]).Ok? && Fileable(cadets[n])
      && Grouping(cadets).value == AddCadet(Grouping(cadets[..n]).value, CompanyOf(cadets[n].entries), FlightOf(cadets[n].entries), cadets[n].entries)
      && forall i :: 0 <= i < n ==> cadets[..n][i] == cadets[i]
  {
  }

  // The text of the report.

  /** What has been written so far, the cadets listed in it, and the exception that
      stopped the writing, if any. */
  datatype Written = Written(text: string, listed: seq<Cadet>, failure: Option<Exc>)

  /** More writing after `w`, unless `w` already failed. */
  function Then(w: Written, next: Written): (r: Written)
    ensures w.failure.Some? ==> r == w
    ensures w.failure.None? ==> r.text == w.text + next.text && r.listed == w.listed + next.listed && r.failure == next.failure
  {
    if w.failure.Some? then w else Written(w.text + next.text, w.listed + next.listed, next.failure)
  }

  function Done(text: string): Written {
    Written(text, [], None)
  }

  /** The within-flight key `(x.get('last_name', ''), x.get('first_name', ''))`. */
  function RosterKey(c: Cadet): (Value, Value) {
    (Field(c, "last_name", Str("")), Field(c, "first_name", Str("")))
  }

  predicate RosterLt(a: Cadet, b: Cadet) {
    PyOrder.PairLt(RosterKey(a), RosterKey(b))
  }

  predicate RosterComparable(a: Cadet, b: Cadet) {
    PyOrder.PairComparable(RosterKey(a), RosterKey(b))
  }

  predicate FlightLt(p: (Value, seq<Cadet>), q: (Value, seq<Cadet>)) {
    PyOrder.ValueLt(p.0, q.0)
  }

  predicate FlightComparable(p: (Value, seq<Cadet>), q: (Value, seq<Cadet>)) {
    PyOrder.Comparable(p.0, q.0)
  }

  predicate CompanyLt(p: (Value, Flights), q: (Value, Flights)) {
    PyOrder.ValueLt(p.0, q.0)
  }

  predicate CompanyComparable(p: (Value, Flights), q: (Value, Flights)) {
    PyOrder.Comparable(p.0, q.0)
  }

  /** A cadet's line: name, grade and rank, each 'N/A' when missing. */
  function CadetLine(c: Cadet): string {
    PyStr(Field(c, "last_name", Str("N/A"))) + ", " + PyStr(Field(c, "first_name", Str("N/A")))
      + " (Grade: " + PyStr(Field(c, "grade", Str("N/A")))
      + ", Rank: " + PyStr(Field(c, "rank", Str("N/A"))) + ")\n"
  }

  function Lines(cs: seq<Cadet>): string {
    if |cs| == 0 then "" else CadetLine(cs[0]) + Lines(cs[1..])
  }

  /** One flight: its heading, its cadets by (last name, first name), a blank line. */
  function RenderFlight(f: (Value, seq<Cadet>)): Written {
    var heading := "FLIGHT " + PyStr(f.0) + ":\n";
    match PyOrder.CheckedSort(f.1, RosterLt, RosterComparable)
    case Err(e) => Written(heading, [], Some(e))
    case Ok(sorted) => Written(heading + Lines(sorted) + "\n", sorted, None)
  }

  function RenderFlights(fs: Flights): Written {
    if |fs| == 0 then Done("") else Then(RenderFlight(fs[0]), RenderFlights(fs[1..]))
  }

  /** One company: its heading and rule, its flights in key order, a blank line. */
  function RenderCompany(c: (Value, Flights)): Written {
    var heading := "COMPANY " + PyStr(c.0) + "\n" + Repeat('-', 80) + "\n";
    match PyOrder.CheckedSort(c.1, FlightLt, FlightComparable)
    case Err(e) => Written(heading, [], Some(e))
    case Ok(sorted) => Then(Done(heading), Then(RenderFlights(sorted), Done("\n")))
  }

  function RenderCompanies(g: Companies): Written {
    if |g| == 0 then Done("") else Then(RenderCompany(g[0]), RenderCompanies(g[1..]))
  }

  function Header(timestamp: string): string {
    "AFJROTC CADET ROSTER\n" + Repeat('=', 80) + "\n\n" + "Generated on: " + timestamp + "\n\n"
  }

  function TotalLine(n: nat): string {
    "TOTAL CADETS: " + NatToString(n) + "\n"
  }

  /** Everything after the header, up to the total or to the exception. */
  function RosterBody(cadets: Value): (w: Written)
    ensures !cadets.Dict? ==> w.text == "" && w.listed == [] && w.failure.Some? && w.failure.value.kind == AttributeError
    ensures w.failure.None? ==> cadets.Dict?
  {
    if !cadets.Dict? then Written("", [], Some(Exc(AttributeError, "'" + TypeName(cadets) + "' object has no attribute 'items'")))
    else match Grouping(Values(cadets.entries))
      case Err(e) => Written("", [], Some(e))
      case Ok(g) =>
        match PyOrder.CheckedSort(g, CompanyLt, CompanyComparable)
        case Err(e) => Written("", [], Some(e))
        case Ok(sorted) => Then(RenderCompanies(sorted), Done(TotalLine(|cadets.entries|)))
  }

  /** `_generate_cadet_roster`'s text: the header, the body, and on an exception the error
      line after whatever was already written. */
  function RosterReport(cadets: Value, timestamp: string): (r: string)
    ensures StartsWith(r, Header(timestamp))
    ensures !cadets.Dict? ==>
      r == Header(timestamp) + "\nError generating cadet roster: " + RosterBody(cadets).failure.value.msg + "\n"
  {
    var body := RosterBody(cadets);
    var tail := if body.failure.Some? then "\nError generating cadet roster: " + body.failure.value.msg + "\n" else "";
    assert (Header(timestamp) + (body.text + tail))[..|Header(timestamp)|] == Header(timestamp);
    Header(timestamp) + body.text + tail
  }

  lemma {:induction false} RenderFlightsListed(fs: Flights)
    requires RenderFlights(fs).failure.None?
    ensures multiset(RenderFlights(fs).listed) == SumBags(fs, FlightMembers)
  {
    if |fs| > 0 {
      RenderFlightsListed(fs[1..]);
    }
  }

  lemma {:induction false} RenderCompaniesListed(g: Companies)
    requires RenderCompanies(g).failure.None?
    ensures multiset(RenderCompanies(g).listed) == SumBags(g, CompanyMembers)
  {
    if |g| > 0 {
      RenderCompaniesListed(g[1..]);
      var sorted := Sorting.SortBy(g[0].1, FlightLt);
      RenderFlightsListed(sorted);
      SumBagsSortBy(g[0].1, FlightLt, FlightMembers);
    }
  }

  /** A report that reaches its total lists every cadet of the cache exactly as often as
      it occurs there, so each once. */
  lemma {:induction false} RosterListsEveryCadet(cadets: Value)
    requires RosterBody(cadets).failure.None?
    ensures cadets.Dict?
    ensures multiset(RosterBody(cadets).listed) == multiset(Records(Values(cadets.entries)))
    ensures |RosterBody(cadets).listed| == |cadets.entries|
  {
    var vs := Values(cadets.entries);
    var g := Grouping(vs).value;
    GroupingPartition(vs);
    var sorted := Sorting.SortBy(g, CompanyLt);
    RenderCompaniesListed(sorted);
    SumBagsSortBy(g, CompanyLt, CompanyMembers);
    RecordsOfDicts(vs);
  }

  lemma {:induction false} RecordsOfDicts(cadets: seq<Value>)
    requires forall i :: 0 <= i < |cadets| ==> cadets[i].Dict?
    ensures |Records(cadets)| == |cadets|
  {
    if |cadets| > 0 {
      RecordsOfDicts(cadets[..|cadets| - 1]);
    }
  }

  /** The report opens with its header and, when nothing fails, closes with the total of
      all entries of the cache; otherwise it closes with the error line. */
  lemma {:induction false} RosterFrame(cadets: Value, timestamp: string)
    ensures var r := RosterReport(cadets, timestamp);
      StartsWith(r, Header(timestamp))
    ensures var r := RosterReport(cadets, timestamp);
      var body := RosterBody(cadets);
      var tail := if body.failure.Some? then "\nError generating cadet roster: " + body.failure.value.msg + "\n"
                  else TotalLine(|cadets.entries|);
      |tail| <= |r| && r[|r| - |tail|..] == tail
  {
    var body := RosterBody(cadets);
    var h := Header(timestamp);
    if body.failure.None? {
      var w := RenderCompanies(Sorting.SortBy(Grouping(Values(cadets.entries)).value, CompanyLt));
      assert body.text == w.text + TotalLine(|cadets.entries|);
      DropEmptyTail(h, w.text, TotalLine(|cadets.entries|));
      FramedBy(h, w.text, TotalLine(|cadets.entries|));
    } else {
      FramedBy(h, body.text, "\nError generating cadet roster: " + body.failure.value.msg + "\n");
    }
  }

  /** Each flight's cadets are listed in key order, stably. */
  lemma {:induction false} RenderFlightSorted(f: (Value, seq<Cadet>), w: Cadet)
    requires RenderFlight(f).failure.None?
    ensures Sorting.Sorted(RenderFlight(f).listed, RosterLt)
    ensures Sorting.EquivClass(RenderFlight(f).listed, w, RosterLt) == Sorting.EquivClass(f.1, w, RosterLt)
  {
    RosterLtIsStrictWeakOrder();
    Sorting.SortBySorted(f.1, RosterLt);
    Sorting.SortByStable(f.1, w, RosterLt);
  }

  lemma {:induction false} RosterLtIsStrictWeakOrder()
    ensures Sorting.StrictWeakOrder(RosterLt)
  {
    PyOrder.PairLtIsStrictWeakOrder();
    Sorting.ByKeyIsStrictWeakOrder(RosterKey, PyOrder.PairLt, RosterLt);
  }

  /** The company and flight orders, by key, are strict weak orders. */
  lemma {:induction false} GroupOrdersAreStrictWeak()
    ensures Sorting.StrictWeakOrder(CompanyLt)
    ensures Sorting.StrictWeakOrder(FlightLt)
  {
    PyOrder.ValueLtIsStrictWeakOrder();
    Sorting.ByKeyIsStrictWeakOrder((c: (Value, Flights)) => c.0, PyOrder.ValueLt, CompanyLt);
    Sorting.ByKeyIsStrictWeakOrder((f: (Value, seq<Cadet>)) => f.0, PyOrder.ValueLt, FlightLt);
  }

  lemma {:induction false} CompaniesInKeyOrder(cadets: Value)
    requires cadets.Dict? && Grouping(Values(cadets.entries)).Ok?
    requires PyOrder.CheckedSort(Grouping(Values(cadets.entries)).value, CompanyLt, CompanyComparable).Ok?
    ensures Sorting.Sorted(PyOrder.CheckedSort(Grouping(Values(cadets.entries)).value, CompanyLt, CompanyComparable).value, CompanyLt)
  {
    GroupOrdersAreStrictWeak();
    Sorting.SortBySorted(Grouping(Values(cadets.entries)).value, CompanyLt);
  }

  /** The flights of a company are written in key order. */
  lemma {:induction false} FlightsInKeyOrder(c: (Value, Flights))
    requires PyOrder.CheckedSort(c.1, FlightLt, FlightComparable).Ok?
    ensures Sorting.Sorted(PyOrder.CheckedSort(c.1, FlightLt, FlightComparable).value, FlightLt)
  {
    GroupOrdersAreStrictWeak();
    Sorting.SortBySorted(c.1, FlightLt);
  }

  // Which report is written, and the file it is exported to.

  datatype ReportKind = CadetRoster | EventAttendance | FundraiserSummary | UniformInventory | ContactDirectory
                      | NotImplemented(name: string)

  function ReportName(k: ReportKind): string {
    match k
    case CadetRoster => "Cadet Roster"
    case EventAttendance => "Event Attendance"
    case FundraiserSummary => "Fundraiser Summary"
    case UniformInventory => "Uniform Inventory"
    case ContactDirectory => "Contact Directory"
    case NotImplemented(name) => name
  }

  /** The report body chosen for a report type's name. */
  function Dispatch(reportType: string): (k: ReportKind)
    ensures ReportName(k) == reportType
    ensures k.NotImplemented? ==> k.name == reportType
  {
    if reportType == "Cadet Roster" then CadetRoster
    else if reportType == "Event Attendance" then EventAttendance
    else if reportType == "Fundraiser Summary" then FundraiserSummary
    else if reportType == "Uniform Inventory" then UniformInventory
    else if reportType == "Contact Directory" then ContactDirectory
    else NotImplemented(reportType)
  }

  /** The text written for a type without a generator. */
  function NotImplementedText(reportType: string): string {
    "Report type '" + reportType + "' is not implemented yet.\n"
  }

  /** Dispatching keeps the name, and only the five known names have a generator. */
  lemma {:induction false} DispatchRoundTrip(reportType: string)
    ensures ReportName(Dispatch(reportType)) == reportType
    ensures Dispatch(reportType).NotImplemented? <==>
      reportType !in ["Cadet Roster", "Event Attendance", "Fundraiser Summary", "Uniform Inventory", "Contact Directory"]
  {
  }

  lemma {:induction false} KnownKindsDispatchBack(k: ReportKind)
    requires !k.NotImplemented?
    ensures Dispatch(ReportName(k)) == k
  {
  }

  /** `f"{report_type.replace(' ', '_')}_{timestamp}.txt"`. */
  function ExportFilename(reportType: string, timestamp: string): (name: string)
    ensures |name| >= 5
    ensures name[|name| - 4..] == ".txt"
    ensures ' ' !in timestamp ==> ' ' !in name
  {
    ReplaceChar(reportType, ' ', "_") + "_" + timestamp + ".txt"
  }

  /** The name starts with the report type, spaces made underscores, and keeps every
      other character. */
  lemma {:induction false} ExportFilenamePrefix(reportType: string, timestamp: string)
    ensures StartsWith(ExportFilename(reportType, timestamp), ReplaceChar(reportType, ' ', "_") + "_")
    ensures |ExportFilename(reportType, timestamp)| == |reportType| + |timestamp| + 5
    ensures forall i :: 0 <= i < |reportType| ==>
      ExportFilename(reportType, timestamp)[i] == (if reportType[i] == ' ' then '_' else reportType[i])
  {
    ReplaceCharByChar(reportType, ' ', '_');
    var p := ReplaceChar(reportType, ' ', "_") + "_";
    assert ExportFilename(reportType, timestamp) == p + (timestamp + ".txt");
  }
}
