/** The upcoming-events list on the dashboard (main.py:3557-3595) and the order of the
    events calendar (main.py:1078). `today` is a day number and `parseDate` reads an
    ISO date, as in the dashboard counters. */
module Upcoming {
  import opened Py
  import Sorting
  import PyOrder
  import Dashboard

  /** An event inside the seven-day window: the record shown for it and its parsed day. */
  datatype Upcoming = Upcoming(record: Value, day: int)

  predicate InWindow(d: int, today: int) {
    today <= d <= today + 7
  }

  /** The record appended for an event in the window. */
  function EventRecord(id: Value, event: seq<(Value, Value)>): Value {
    Dict(EventEntries(id, Field(event, "title", Str("Untitled Event")), Field(event, "date", Str("")),
                      Field(event, "time", Str("")), Field(event, "location", Str("TBD"))))
  }

  /** The record's entries, in the order the code writes them. */
  function EventEntries(id: Value, title: Value, date: Value, time: Value, location: Value): seq<(Value, Value)> {
    [(Str("id"), id), (Str("title"), title), (Str("date"), date), (Str("time"), time), (Str("location"), location)]
  }

  lemma {:induction false} EventEntriesLookups(id: Value, title: Value, date: Value, time: Value, location: Value)
    ensures var e := EventEntries(id, title, date, time, location);
      && Lookup(e, Str("id")) == Some(id)
      && Lookup(e, Str("title")) == Some(title)
      && Lookup(e, Str("date")) == Some(date)
      && Lookup(e, Str("time")) == Some(time)
      && Lookup(e, Str("location")) == Some(location)
  {
    EventEntriesFirst(id, title, date, time, location);
    EventEntriesLater(id, title, date, time, location);
  }

  lemma {:induction false} EventEntriesFirst(id: Value, title: Value, date: Value, time: Value, location: Value)
    ensures var e := EventEntries(id, title, date, time, location);
      && Lookup(e, Str("id")) == Some(id)
      && Lookup(e, Str("title")) == Some(title)
      && Lookup(e, Str("date")) == Some(date)
  {
    var e := EventEntries(id, title, date, time, location);
    assert |"id"| == 2 && |"title"| == 5 && |"date"| == 4;
    FindKeyFirst(e, Str("id"), 0);
    FindKeyFirst(e, Str("title"), 1);
    FindKeyFirst(e, Str("date"), 2);
  }

  lemma {:induction false} EventEntriesLater(id: Value, title: Value, date: Value, time: Value, location: Value)
    ensures var e := EventEntries(id, title, date, time, location);
      && Lookup(e, Str("time")) == Some(time)
      && Lookup(e, Str("location")) == Some(location)
  {
    var e := EventEntries(id, title, date, time, location);
    assert |"id"| == 2 && |"title"| == 5 && |"date"| == 4 && |"location"| == 8 && "date"[0] != "time"[0];
    FindKeyFirst(e, Str("time"), 3);
    FindKeyFirst(e, Str("location"), 4);
  }

  /** What one `(event_id, event)` item contributes: nothing unless the event is a dict with
      a 'date' that parses to a day in the window. */
  function Candidate(id: Value, event: Value, today: int, parseDate: string -> Option<int>): (r: Option<Upcoming>)
    ensures r.Some? ==> event.Dict? && InWindow(r.value.day, today) && r.value.record.Dict?
    ensures !event.Dict? ==> r.None?
  {
    if !event.Dict? || !HasKey(event.entries, Str("date")) then None
    else match Dashboard.DateOf(Field(event.entries, "date", Str("")), parseDate)
      case None => None
      case Some(d) => if InWindow(d, today) then Some(Upcoming(EventRecord(id, event.entries), d)) else None
  }

  /** The `Some` results of `f` over `xs`, in order. */
  function Collect<T, U>(xs: seq<T>, f: T -> Option<U>): (r: seq<U>)
    ensures |r| <= |xs|
  {
    if |xs| == 0 then []
    else
      var rest := Collect(xs[..|xs| - 1], f);
      match f(xs[|xs| - 1])
        case None => rest
        case Some(u) => rest + [u]
  }

  /** Collect holds exactly the `Some` results of `f`. */
  lemma {:induction false} CollectMembers<T, U>(xs: seq<T>, f: T -> Option<U>, u: U)
    ensures u in Collect(xs, f) <==> exists i :: 0 <= i < |xs| && f(xs[i]) == Some(u)
  {
    if |xs| > 0 {
      var n := |xs| - 1;
      var init := xs[..n];
      CollectMembers(init, f, u);
      assert forall i :: 0 <= i < n ==> init[i] == xs[i];
      if exists i :: 0 <= i < |xs| && f(xs[i]) == Some(u) {
        var i :| 0 <= i < |xs| && f(xs[i]) == Some(u);
        if i < n {
          assert init[i] == xs[i];
        }
      }
    }
  }

  /** What each item of the events dict contributes. */
  function CandidateOf(today: int, parseDate: string -> Option<int>): ((Value, Value)) -> Option<Upcoming> {
    (item: (Value, Value)) => Candidate(item.0, item.1, today, parseDate)
  }

  /** The candidates in dict order. */
  function Window(items: seq<(Value, Value)>, today: int, parseDate: string -> Option<int>): (r: seq<Upcoming>)
    ensures |r| <= |items|
  {
    Collect(items, CandidateOf(today, parseDate))
  }

  /** The loop that appends each event in the window. */
  method CollectWindow(items: seq<(Value, Value)>, today: int, parseDate: string -> Option<int>)
    returns (found: seq<Upcoming>)
    ensures found == Window(items, today, parseDate)
  {
    found := [];
    var i := 0;
    while i < |items|
      invariant 0 <= i <= |items|
      invariant found == Window(items[..i], today, parseDate)
    {
      assert items[..i + 1][..i] == items[..i];
      var (id, event) := items[i];
      var c := Candidate(id, event, today, parseDate);
      if c.Some? {
        found := found + [c.value];
      }
      i := i + 1;
    }
    assert items[..i] == items;
  }

  /** The window holds exactly the candidates of the items. */
  lemma {:induction false} WindowMembers(items: seq<(Value, Value)>, today: int, parseDate: string -> Option<int>, u: Upcoming)
    ensures u in Window(items, today, parseDate) <==>
      exists i :: 0 <= i < |items| && Candidate(items[i].0, items[i].1, today, parseDate) == Some(u)
  {
    CollectMembers(items, CandidateOf(today, parseDate), u);
  }

  /** The record of an event answers each of its five keys. */
  lemma {:induction false} EventRecordFields(id: Value, event: seq<(Value, Value)>)
    ensures var r := EventRecord(id, event).entries;
      && Lookup(r, Str("id")) == Some(id)
      && Lookup(r, Str("title")) == Some(Field(event, "title", Str("Untitled Event")))
      && Lookup(r, Str("date")) == Some(Field(event, "date", Str("")))
      && Lookup(r, Str("time")) == Some(Field(event, "time", Str("")))
      && Lookup(r, Str("location")) == Some(Field(event, "location", Str("TBD")))
  {
    EventEntriesLookups(id, Field(event, "title", Str("Untitled Event")), Field(event, "date", Str("")),
                        Field(event, "time", Str("")), Field(event, "location", Str("TBD")));
  }

  /** An event is listed exactly when it is a dict with a 'date' that parses to a day at
      most seven days from today and not before it; the record carries its id, its date,
      and its title, time and location with their defaults. */
  lemma {:induction false} CandidateMeaning(id: Value, event: Value, today: int, parseDate: string -> Option<int>)
    ensures Candidate(id, event, today, parseDate).Some? <==>
      && event.Dict? && Lookup(event.entries, Str("date")).Some?
      && Lookup(event.entries, Str("date")).value.Str?
      && parseDate(Lookup(event.entries, Str("date")).value.s).Some?
      && InWindow(parseDate(Lookup(event.entries, Str("date")).value.s).value, today)
    ensures Candidate(id, event, today, parseDate).Some? ==>
      var u := Candidate(id, event, today, parseDate).value;
      && u.day == parseDate(Lookup(event.entries, Str("date")).value.s).value
      && u.record.Dict?
      && Lookup(u.record.entries, Str("id")) == Some(id)
      && Lookup(u.record.entries, Str("date")) == Lookup(event.entries, Str("date"))
      && Lookup(u.record.entries, Str("title")) == Some(Field(event.entries, "title", Str("Untitled Event")))
      && Lookup(u.record.entries, Str("time")) == Some(Field(event.entries, "time", Str("")))
      && Lookup(u.record.entries, Str("location")) == Some(Field(event.entries, "location", Str("TBD")))
  {
    if event.Dict? {
      EventRecordFields(id, event.entries);
      if Lookup(event.entries, Str("date")).Some? {
        assert Field(event.entries, "date", Str("")) == Lookup(event.entries, Str("date")).value;
      }
    }
  }

  /** The sort key `(date, x.get('time', '23:59'))`; every record has a 'time', so the
      '23:59' default never applies. */
  function SortKey(u: Upcoming): (Value, Value) {
    (Int(u.day), if u.record.Dict? then Field(u.record.entries, "time", Str("23:59")) else Null)
  }

  predicate UpcomingLt(p: Upcoming, q: Upcoming) {
    PyOrder.PairLt(SortKey(p), SortKey(q))
  }

  predicate UpcomingComparable(p: Upcoming, q: Upcoming) {
    PyOrder.PairComparable(SortKey(p), SortKey(q))
  }

  /** The time placed in the key is the event's own time, '' when it has none. */
  lemma {:induction false} SortKeyTime(id: Value, event: Value, today: int, parseDate: string -> Option<int>)
    requires Candidate(id, event, today, parseDate).Some?
    ensures SortKey(Candidate(id, event, today, parseDate).value) ==
      (Int(Candidate(id, event, today, parseDate).value.day), Field(event.entries, "time", Str("")))
  {
    var u := Candidate(id, event, today, parseDate).value;
    EventRecordFields(id, event.entries);
    assert Field(u.record.entries, "time", Str("23:59")) == Lookup(u.record.entries, Str("time")).value;
  }

  lemma {:induction false} UpcomingLtIsStrictWeakOrder()
    ensures Sorting.StrictWeakOrder(UpcomingLt)
  {
    PyOrder.PairLtIsStrictWeakOrder();
    Sorting.ByKeyIsStrictWeakOrder(SortKey, PyOrder.PairLt, UpcomingLt);
  }

  /** On the same day an event without a time comes before any event with a non-empty
      string time, and on different days the earlier day comes first. */
  lemma {:induction false} UntimedFirst(p: Upcoming, q: Upcoming)
    requires p.record.Dict? && q.record.Dict?
    requires SortKey(p).1 == Str("") && SortKey(q).1.Str? && SortKey(q).1.s != ""
    ensures p.day == q.day ==> UpcomingLt(p, q) && !UpcomingLt(q, p)
    ensures p.day < q.day ==> UpcomingLt(p, q)
  {
    EmptyIsLeast(SortKey(q).1.s);
    assert PyOrder.ValueLt(SortKey(p).1, SortKey(q).1);
    assert !PyOrder.ValueLt(SortKey(q).1, SortKey(p).1);
    if p.day < q.day {
      assert PyOrder.ValueLt(SortKey(p).0, SortKey(q).0);
    } else if p.day == q.day {
      assert SortKey(p).0 == SortKey(q).0;
      assert !PyOrder.ValueLt(SortKey(p).0, SortKey(q).0);
    }
  }

  /** The list `update_upcoming_events` would store, or the exception that aborts it: a
      non-dict events cache has no `.items()`, and a TypeError from comparing two keys
      escapes the sort's handler. */
  function UpcomingSpec(events: Value, today: int, parseDate: string -> Option<int>): (r: Result<seq<Upcoming>>)
    ensures !events.Dict? ==> r.Err? && r.exc.kind == AttributeError
    ensures events.Dict? && r.Err? ==> r.exc.kind == TypeError
    ensures r.Ok? ==> |r.value| == |Window(events.entries, today, parseDate)| <= |events.entries|
  {
    if !events.Dict? then Err(Exc(AttributeError, "'" + TypeName(events) + "' object has no attribute 'items'"))
    else PyOrder.CheckedSort(Window(events.entries, today, parseDate), UpcomingLt, UpcomingComparable)
  }

  /** When it succeeds, the list holds the window's events, each as often as there, in
      order of (day, time), with events of equal key in dict order. */
  lemma {:induction false} UpcomingSpecSorted(events: Value, today: int, parseDate: string -> Option<int>, w: Upcoming)
    requires UpcomingSpec(events, today, parseDate).Ok?
    ensures events.Dict?
    ensures var r := UpcomingSpec(events, today, parseDate).value;
      var win := Window(events.entries, today, parseDate);
      && multiset(r) == multiset(win)
      && Sorting.Sorted(r, UpcomingLt)
      && Sorting.EquivClass(r, w, UpcomingLt) == Sorting.EquivClass(win, w, UpcomingLt)
  {
    var win := Window(events.entries, today, parseDate);
    UpcomingLtIsStrictWeakOrder();
    Sorting.SortBySorted(win, UpcomingLt);
    Sorting.SortByStable(win, w, UpcomingLt);
  }

  /** Events whose times are all strings never make the sort fail. */
  lemma {:induction false} StringTimesNeverFail(events: Value, today: int, parseDate: string -> Option<int>)
    requires events.Dict?
    requires forall u :: u in Window(events.entries, today, parseDate) ==> SortKey(u).1.Str?
    ensures UpcomingSpec(events, today, parseDate).Ok?
  {
    var win := Window(events.entries, today, parseDate);
    forall i, j | 0 <= i < j < |win| ensures UpcomingComparable(win[i], win[j]) {
      assert win[i] in win && win[j] in win;
    }
  }

  /** The records of the listed events. */
  function Records(us: seq<Upcoming>): (r: seq<Value>)
    ensures |r| == |us|
    ensures forall i :: 0 <= i < |us| ==> r[i] == us[i].record
  {
    if |us| == 0 then [] else [us[0].record] + Records(us[1..])
  }

  /** The records `update_upcoming_events` would store, or the exception that aborts it. */
  function Latest(events: Value, today: int, parseDate: string -> Option<int>): (r: Result<seq<Value>>)
    ensures r.Err? <==> UpcomingSpec(events, today, parseDate).Err?
    ensures r.Err? ==> r.exc.kind == AttributeError || r.exc.kind == TypeError
    ensures r.Ok? ==> events.Dict? && |r.value| <= |events.entries|
  {
    match UpcomingSpec(events, today, parseDate)
    case Err(e) => Err(e)
    case Ok(us) => Ok(Records(us))
  }

  /** The records `update_upcoming_events` would store, computed the way it does: the
      window's loop, then the sort; `Err` when the refresh aborts. */
  method ComputeLatest(events: Value, today: int, parseDate: string -> Option<int>) returns (r: Result<seq<Value>>)
    ensures r == Latest(events, today, parseDate)
  {
    if !events.Dict? {
      return Err(Exc(AttributeError, "'" + TypeName(events) + "' object has no attribute 'items'"));
    }
    var found := CollectWindow(events.entries, today, parseDate);
    var sorted := PyOrder.CheckedSort(found, UpcomingLt, UpcomingComparable);
    if sorted.Err? {
      return Err(sorted.exc);
    }
    return Ok(Records(sorted.value));
  }

  /** Whether the cached list is replaced: unless the new list equals the old one and no
      dashboard refresh was asked for. */
  predicate Replaces(current: seq<Value>, latest: seq<Value>, updateDashboard: bool)
    ensures updateDashboard ==> Replaces(current, latest, updateDashboard)
    ensures !Replaces(current, latest, updateDashboard) ==> current == latest
  {
    !(current == latest && !updateDashboard)
  }

  /** The key the calendar sorts events by: the event's 'date', or '9999-12-31'. */
  function CalendarKey(item: (Value, Value)): (r: Value)
    ensures item.1.Dict? && !HasKey(item.1.entries, Str("date")) ==> r == Str("9999-12-31")
    ensures item.1.Dict? && HasKey(item.1.entries, Str("date")) ==> r == Lookup(item.1.entries, Str("date")).value
  {
    if item.1.Dict? then Field(item.1.entries, "date", Str("9999-12-31")) else Null
  }

  predicate CalendarLt(p: (Value, Value), q: (Value, Value)) {
    PyOrder.ValueLt(CalendarKey(p), CalendarKey(q))
  }

  predicate CalendarComparable(p: (Value, Value), q: (Value, Value)) {
    PyOrder.Comparable(CalendarKey(p), CalendarKey(q))
  }

  /** `sorted(self.events.items(), key=...)`: a non-dict event has no `.get`, and keys that
      `<` cannot compare raise TypeError. */
  function CalendarOrder(events: seq<(Value, Value)>): (r: Result<seq<(Value, Value)>>)
    ensures r.Err? <==>
      (exists i :: 0 <= i < |events| && !events[i].1.Dict?)
      || !(forall i, j :: 0 <= i < j < |events| ==> CalendarComparable(events[i], events[j]))
  {
    match FirstNonDict(events)
    case Some(i) => Err(Exc(AttributeError, "'" + TypeName(events[i].1) + "' object has no attribute 'get'"))
    case None => PyOrder.CheckedSort(events, CalendarLt, CalendarComparable)
  }

  /** The list `update_calendar_display` draws (main.py:1078): `self.events.items()` needs a
      dict, and its items are then put in calendar order. */
  function CalendarList(events: Value): (r: Result<seq<(Value, Value)>>)
    ensures r.Err? <==> !events.Dict? || CalendarOrder(events.entries).Err?
    ensures !events.Dict? ==> r.Err? && r.exc.kind == AttributeError
    ensures r.Ok? ==> multiset(r.value) == multiset(events.entries) && Sorting.Sorted(r.value, CalendarLt)
  {
    if !events.Dict? then Err(Exc(AttributeError, "'" + TypeName(events) + "' object has no attribute 'items'"))
    else
      var r := CalendarOrder(events.entries);
      if r.Ok? then
        CalendarOrderSorted(events.entries);
        r
      else r
  }

  /** The first item whose event is not a dict: the item whose key raises first. */
  function FirstNonDict(events: seq<(Value, Value)>): (r: Option<nat>)
    ensures r.Some? ==> r.value < |events| && !events[r.value].1.Dict?
    ensures r.Some? ==> forall j :: 0 <= j < r.value ==> events[j].1.Dict?
    ensures r.None? <==> forall j :: 0 <= j < |events| ==> events[j].1.Dict?
  {
    if |events| == 0 then None
    else if !events[0].1.Dict? then Some(0)
    else match FirstNonDict(events[1..])
      case None => None
      case Some(j) => Some(j + 1)
  }

  lemma {:induction false} CalendarLtIsStrictWeakOrder()
    ensures Sorting.StrictWeakOrder(CalendarLt)
  {
    PyOrder.ValueLtIsStrictWeakOrder();
    Sorting.ByKeyIsStrictWeakOrder(CalendarKey, PyOrder.ValueLt, CalendarLt);
  }

  /** An event without a 'date' is listed after every event dated before '9999-12-31'. */
  lemma {:induction false} UndatedLast(events: seq<(Value, Value)>, i: nat, j: nat)
    requires CalendarOrder(events).Ok?
    requires var s := CalendarOrder(events).value;
      && i < |s| && j < |s| && s[i].1.Dict? && !HasKey(s[i].1.entries, Str("date"))
      && s[j].1.Dict? && Lookup(s[j].1.entries, Str("date")).Some?
      && Lookup(s[j].1.entries, Str("date")).value.Str?
      && LexLt(Lookup(s[j].1.entries, Str("date")).value.s, "9999-12-31")
    ensures j < i
  {
    var s := CalendarOrder(events).value;
    CalendarOrderSorted(events);
    DatedBeforeUndated(s[j], s[i]);
    Sorting.SortedBelowComesFirst(s, CalendarLt, i, j);
  }

  /** The calendar's order is sorted by its key. */
  lemma {:induction false} CalendarOrderSorted(events: seq<(Value, Value)>)
    requires CalendarOrder(events).Ok?
    ensures Sorting.Sorted(CalendarOrder(events).value, CalendarLt)
  {
    CalendarLtIsStrictWeakOrder();
    Sorting.SortBySorted(events, CalendarLt);
  }

  lemma {:induction false} DatedBeforeUndated(dated: (Value, Value), undated: (Value, Value))
    requires undated.1.Dict? && !HasKey(undated.1.entries, Str("date"))
    requires dated.1.Dict? && Lookup(dated.1.entries, Str("date")).Some?
    requires Lookup(dated.1.entries, Str("date")).value.Str?
    requires LexLt(Lookup(dated.1.entries, Str("date")).value.s, "9999-12-31")
    ensures CalendarLt(dated, undated) && dated != undated
  {
    assert CalendarKey(undated) == Str("9999-12-31");
  }
}
