/** The registry of realtime listeners (main.py:228-291): a map from collection name to the
    handle its stream subscription returned. Setting up first calls a collection's existing
    handle (to unsubscribe) and then subscribes afresh; cleanup calls every callable handle
    and empties the map. */
module Listeners {
  import opened Py

  /** A subscription handle. `callable` is whether Python's `callable(handle)` holds. */
  datatype Handle = Handle(id: nat, callable: bool)

  /** The collections `listeners_config` subscribes to, in its order (main.py:254-260). */
  const Collections: seq<string> := ["cadets", "jobs", "events", "fundraisers", "contacts"]

  /** The refresh methods a push to each collection schedules (main.py:254-260). */
  function UpdateMethods(collection: string): (r: seq<string>)
    ensures collection in Collections ==> |r| > 0 && ("update_dashboard" in r <==> collection != "contacts")
    ensures collection !in Collections ==> r == []
  {
    match collection
    case "cadets" => ["update_cadets_display", "update_dashboard"]
    case "jobs" => ["update_jobs_display", "update_dashboard"]
    case "events" => ["update_calendar_display", "update_upcoming_events", "update_dashboard"]
    case "fundraisers" => ["update_fundraisers_display", "update_dashboard"]
    case "contacts" => ["update_contacts_display"]
    case _ => []
  }

  predicate NoDuplicates<T(==)>(s: seq<T>) {
    forall i, j :: 0 <= i < j < |s| ==> s[i] != s[j]
  }

  /** The registry's contents: the map, its keys in insertion order (the order Python
      iterates a dict in), and every call made on a handle so far. */
  datatype RegistryState = RegistryState(handles: map<string, Handle>, order: seq<string>, calls: seq<Handle>)

  predicate WellFormed(st: RegistryState) {
    NoDuplicates(st.order) && (forall n :: n in st.handles ==> n in st.order)
    && (forall i :: 0 <= i < |st.order| ==> st.order[i] in st.handles)
  }

  /** `self._listeners[c]()` when `c` is registered: a callable handle is invoked; calling
      one that is not callable raises TypeError, which is caught. */
  function Unsubscribe(st: RegistryState, c: string): (r: RegistryState)
    ensures r.handles == st.handles && r.order == st.order
    ensures r.calls == st.calls || (c in st.handles && st.handles[c].callable && r.calls == st.calls + [st.handles[c]])
    ensures c in st.handles && st.handles[c].callable ==> |r.calls| == |st.calls| + 1
  {
    if c in st.handles && st.handles[c].callable then st.(calls := st.calls + [st.handles[c]]) else st
  }

  /** `self._listeners[c] = h`: a name already present keeps its place. */
  function Register(st: RegistryState, c: string, h: Handle): (r: RegistryState)
    ensures c in r.handles && r.handles[c] == h
    ensures forall n :: n != c ==> (n in r.handles <==> n in st.handles)
    ensures forall n :: n != c && n in st.handles ==> r.handles[n] == st.handles[n]
    ensures r.calls == st.calls
    ensures c in st.handles ==> r.order == st.order
  {
    st.(handles := st.handles[c := h], order := if c in st.handles then st.order else st.order + [c])
  }

  /** The setup loop over `cs`, with `subscribe` standing for the stream call; the second
      component is the error message when a subscription raised, which ends the loop. */
  function SetupSpec(st: RegistryState, cs: seq<string>, subscribe: string -> Result<Handle>): (r: (RegistryState, Option<string>))
    ensures st.calls <= r.0.calls
    ensures r.1.Some? ==> StartsWith(r.1.value, "Error setting up real-time listeners: ")
    decreases |cs|
  {
    if |cs| == 0 then (st, None)
    else
      var st1 := Unsubscribe(st, cs[0]);
      match subscribe(cs[0])
      case Err(e) => (st1, Some("Error setting up real-time listeners: " + e.msg))
      case Ok(h) => SetupSpec(Register(st1, cs[0], h), cs[1..], subscribe)
  }

  /** The callable handles among those registered under `names`, in that order. */
  function CallableIn(names: seq<string>, handles: map<string, Handle>): (r: seq<Handle>)
    ensures |r| <= |names|
    ensures forall i :: 0 <= i < |r| ==> r[i].callable
  {
    if |names| == 0 then []
    else
      var first := if names[0] in handles && handles[names[0]].callable then [handles[names[0]]] else [];
      first + CallableIn(names[1..], handles)
  }

  lemma {:induction false} CallableInMembers(names: seq<string>, handles: map<string, Handle>, h: Handle)
    ensures h in CallableIn(names, handles) <==>
      h.callable && exists i :: 0 <= i < |names| && names[i] in handles && handles[names[i]] == h
  {
    if |names| > 0 {
      var rest := names[1..];
      CallableInMembers(rest, handles, h);
      if exists i :: 0 <= i < |names| && names[i] in handles && handles[names[i]] == h {
        var i :| 0 <= i < |names| && names[i] in handles && handles[names[i]] == h;
        if i > 0 { assert rest[i - 1] == names[i]; }
      }
      if exists i :: 0 <= i < |rest| && rest[i] in handles && handles[rest[i]] == h {
        var i :| 0 <= i < |rest| && rest[i] in handles && handles[rest[i]] == h;
        assert names[i + 1] == rest[i];
      }
    }
  }

  /** Setup keeps the registry well formed. */
  lemma {:induction false} SetupKeepsWellFormed(st: RegistryState, cs: seq<string>, subscribe: string -> Result<Handle>)
    requires WellFormed(st)
    ensures WellFormed(SetupSpec(st, cs, subscribe).0)
    decreases |cs|
  {
    if |cs| > 0 {
      var st1 := Unsubscribe(st, cs[0]);
      if subscribe(cs[0]).Ok? {
        var st2 := Register(st1, cs[0], subscribe(cs[0]).value);
        ReplaceKeepsWellFormed(st, cs[0], subscribe(cs[0]).value);
        SetupKeepsWellFormed(st2, cs[1..], subscribe);
      }
    }
  }

  /** Setup reports an error exactly when some subscription raised. */
  lemma {:induction false} SetupFailsIff(st: RegistryState, cs: seq<string>, subscribe: string -> Result<Handle>)
    ensures SetupSpec(st, cs, subscribe).1.None? <==> forall c :: c in cs ==> subscribe(c).Ok?
    decreases |cs|
  {
    if |cs| > 0 {
      var st1 := Unsubscribe(st, cs[0]);
      if subscribe(cs[0]).Ok? {
        SetupFailsIff(Register(st1, cs[0], subscribe(cs[0]).value), cs[1..], subscribe);
        assert forall n :: n in cs <==> n == cs[0] || n in cs[1..];
      }
    }
  }

  /** When every subscription succeeds, each collection holds its fresh handle, every
      other name keeps its handle, and each collection's previous handle was called first,
      when it was callable. */
  lemma {:induction false} SetupSucceeds(st: RegistryState, cs: seq<string>, subscribe: string -> Result<Handle>)
    requires NoDuplicates(cs)
    requires forall c :: c in cs ==> subscribe(c).Ok?
    ensures forall c :: c in cs ==>
      c in SetupSpec(st, cs, subscribe).0.handles && SetupSpec(st, cs, subscribe).0.handles[c] == subscribe(c).value
    ensures forall n :: n !in cs ==> (n in SetupSpec(st, cs, subscribe).0.handles <==> n in st.handles)
    ensures forall n :: n !in cs && n in st.handles ==> SetupSpec(st, cs, subscribe).0.handles[n] == st.handles[n]
    decreases |cs|
  {
    if |cs| > 0 {
      var c := cs[0];
      var rest := cs[1..];
      var st2 := Register(Unsubscribe(st, c), c, subscribe(c).value);
      assert SetupSpec(st, cs, subscribe) == SetupSpec(st2, rest, subscribe);
      assert NoDuplicates(rest);
      assert forall n :: n in rest ==> n != c;
      assert forall n :: n in cs <==> n == c || n in rest;
      SetupSucceeds(st2, rest, subscribe);
    }
  }

  /** When every subscription succeeds, the handles called are the callable previous
      handles of the collections, in the collections' order. */
  lemma {:induction false} SetupCalls(st: RegistryState, cs: seq<string>, subscribe: string -> Result<Handle>)
    requires NoDuplicates(cs)
    requires forall c :: c in cs ==> subscribe(c).Ok?
    ensures SetupSpec(st, cs, subscribe).0.calls == st.calls + CallableIn(cs, st.handles)
    decreases |cs|
  {
    if |cs| > 0 {
      var c := cs[0];
      var rest := cs[1..];
      var h := subscribe(c).value;
      var st2 := Register(Unsubscribe(st, c), c, h);
      var first := if c in st.handles && st.handles[c].callable then [st.handles[c]] else [];
      var tail := CallableIn(rest, st.handles);
      assert SetupSpec(st, cs, subscribe).0.calls == SetupSpec(st2, rest, subscribe).0.calls by {
        SetupStep(st, cs, subscribe);
      }
      assert SetupSpec(st2, rest, subscribe).0.calls == st2.calls + CallableIn(rest, st2.handles) by {
        NoDuplicatesTail(cs);
        assert forall n :: n in rest ==> n in cs;
        SetupCalls(st2, rest, subscribe);
      }
      assert CallableIn(rest, st2.handles) == tail by {
        NoDuplicatesTail(cs);
        ReplaceStep(st, c, h);
        CallableInOthers(rest, st.handles, c, h);
      }
      ReplaceStep(st, c, h);
      assert CallableIn(cs, st.handles) == first + tail by {
        CallableInStep(cs, st.handles);
      }
      ConcatAssoc(st.calls, first, tail);
    }
  }

  /** Re-registering one name keeps the registry well formed. */
  lemma {:induction false} ReplaceKeepsWellFormed(st: RegistryState, c: string, h: Handle)
    requires WellFormed(st)
    ensures WellFormed(Register(Unsubscribe(st, c), c, h))
  {
    var st2 := Register(Unsubscribe(st, c), c, h);
    if c !in st.handles {
      assert c !in st.order;
      assert forall i :: 0 <= i < |st.order| ==> st2.order[i] == st.order[i];
    }
  }

  /** Unsubscribing and re-registering one name: its previous handle is called when it is
      callable, and the name now maps to the new handle. */
  lemma {:induction false} ReplaceStep(st: RegistryState, c: string, h: Handle)
    ensures Register(Unsubscribe(st, c), c, h).calls ==
      st.calls + (if c in st.handles && st.handles[c].callable then [st.handles[c]] else [])
    ensures Register(Unsubscribe(st, c), c, h).handles == st.handles[c := h]
  {
  }

  lemma {:induction false} SetupStep(st: RegistryState, cs: seq<string>, subscribe: string -> Result<Handle>)
    requires |cs| > 0 && subscribe(cs[0]).Ok?
    ensures SetupSpec(st, cs, subscribe) ==
      SetupSpec(Register(Unsubscribe(st, cs[0]), cs[0], subscribe(cs[0]).value), cs[1..], subscribe)
  {
  }

  lemma {:induction false} SetupStepFails(st: RegistryState, cs: seq<string>, subscribe: string -> Result<Handle>)
    requires |cs| > 0 && subscribe(cs[0]).Err?
    ensures SetupSpec(st, cs, subscribe) ==
      (Unsubscribe(st, cs[0]), Some("Error setting up real-time listeners: " + subscribe(cs[0]).exc.msg))
  {
  }

  lemma {:induction false} CallableInStep(names: seq<string>, handles: map<string, Handle>)
    requires |names| > 0
    ensures CallableIn(names, handles) ==
      (if names[0] in handles && handles[names[0]].callable then [handles[names[0]]] else []) + CallableIn(names[1..], handles)
  {
  }

  lemma {:induction false} NoDuplicatesTail<T>(s: seq<T>)
    requires |s| > 0 && NoDuplicates(s)
    ensures NoDuplicates(s[1..]) && s[0] !in s[1..]
  {
    assert forall i :: 0 <= i < |s| - 1 ==> s[1..][i] == s[i + 1];
  }

  /** Changing the handle of a name not in `names` does not change what they select. */
  lemma {:induction false} CallableInOthers(names: seq<string>, handles: map<string, Handle>, c: string, h: Handle)
    requires c !in names
    ensures CallableIn(names, handles[c := h]) == CallableIn(names, handles)
  {
    if |names| > 0 {
      CallableInOthers(names[1..], handles, c, h);
    }
  }

  /** The realtime listener registry as the application keeps it. */
  class Registry {
    var handles: map<string, Handle>
    var order: seq<string>
    var calls: seq<Handle>

    function Current(): RegistryState
      reads this
    {
      RegistryState(handles, order, calls)
    }

    predicate Valid()
      reads this
    {
      WellFormed(Current())
    }

    constructor()
      ensures Valid() && handles == map[] && order == [] && calls == []
    {
      handles := map[];
      order := [];
      calls := [];
    }

    /** `setup_realtime_listeners` (main.py:228-280); the result is the error message shown
        when a subscription raised. */
    method Setup(subscribe: string -> Result<Handle>) returns (error: Option<string>)
      requires Valid()
      modifies this
      ensures Valid()
      ensures (Current(), error) == SetupSpec(old(Current()), Collections, subscribe)
    {
      var i := 0;
      while i < |Collections|
        invariant 0 <= i <= |Collections|
        invariant Valid()
        invariant SetupSpec(old(Current()), Collections, subscribe) == SetupSpec(Current(), Collections[i..], subscribe)
      {
        var c := Collections[i];
        ghost var st := Current();
        assert Collections[i..][0] == c && Collections[i..][1..] == Collections[i + 1..];
        if c in handles && handles[c].callable {
          calls := calls + [handles[c]];
        }
        var h := subscribe(c);
        if h.Err? {
          assert Current() == Unsubscribe(st, c);
          SetupStepFails(st, Collections[i..], subscribe);
          return Some("Error setting up real-time listeners: " + h.exc.msg);
        }
        if c !in handles {
          order := order + [c];
        }
        handles := handles[c := h.value];
        ReplaceStep(st, c, h.value);
        assert Current() == Register(Unsubscribe(st, c), c, h.value);
        ReplaceKeepsWellFormed(st, c, h.value);
        SetupStep(st, Collections[i..], subscribe);
        i := i + 1;
      }
      return None;
    }

    /** `cleanup`'s listener part (main.py:284-291): every callable handle is called, in
        the dict's order, and the map is emptied. */
    method Cleanup()
      requires Valid()
      modifies this
      ensures Valid() && handles == map[] && order == []
      ensures calls == old(calls) + CallableIn(old(order), old(handles))
    {
      var i := 0;
      while i < |order|
        invariant 0 <= i <= |order|
        invariant calls == old(calls) + CallableIn(order[..i], handles)
        invariant handles == old(handles) && order == old(order)
      {
        var name := order[i];
        CallableInSnoc(order[..i], handles, name);
        assert order[..i + 1] == order[..i] + [name];
        if handles[name].callable {
          calls := calls + [handles[name]];
        }
        i := i + 1;
      }
      assert order[..i] == order;
      handles := map[];
      order := [];
    }
  }

  lemma {:induction false} CallableInSnoc(names: seq<string>, handles: map<string, Handle>, n: string)
    ensures CallableIn(names + [n], handles) ==
      CallableIn(names, handles) + (if n in handles && handles[n].callable then [handles[n]] else [])
  {
    if |names| == 0 {
      assert names + [n] == [n];
    } else {
      assert (names + [n])[1..] == names[1..] + [n];
      CallableInSnoc(names[1..], handles, n);
    }
  }

  /** Cleanup calls exactly the callable registered handles. */
  lemma {:induction false} CleanupCallsEveryCallable(st: RegistryState, h: Handle)
    requires WellFormed(st)
    ensures h in CallableIn(st.order, st.handles) <==> h.callable && h in st.handles.Values
  {
    CallableInMembers(st.order, st.handles, h);
    if h.callable && h in st.handles.Values {
      var n :| n in st.handles && st.handles[n] == h;
      var i :| 0 <= i < |st.order| && st.order[i] == n;
    }
  }
}
