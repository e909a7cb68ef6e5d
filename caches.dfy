/** How a realtime-database push message turns into the new contents of one in-memory
    collection cache (main.py:235-249 for the generic per-collection callback,
    main.py:993-1036 for the cadets heuristic and the wholesale replacement of the others).

    Each rule is a function of the message (and nothing else): `Ok(None)` when the message
    leaves the cache alone, `Ok(Some(v))` when the cache becomes `v`, and `Err(e)` when
    the callback raises `e` before it assigns, so that the cache is left as it was. */
module Caches {
  import opened Py

  /** The key a kept list item gets: its own 'id', or else its position in the list. */
  function ItemKey(item: Value, idx: nat): Value
    requires item.Dict?
  {
    Field(item.entries, "id", Int(idx))
  }

  /** The comprehension keeps the truthy items; it can only get through them when they
      are dicts. */
  predicate Kept(items: seq<Value>, i: int) {
    0 <= i < |items| && Truthy(items[i]) && items[i].Dict?
  }

  /** `{item.get('id', idx): item for idx, item in enumerate(items) if item}`. */
  function ListToDict(items: seq<Value>): (r: Result<seq<(Value, Value)>>)
    ensures r.Ok? ==> DistinctKeys(r.value)
    ensures r.Ok? ==> |r.value| <= |items|
    decreases |items|
  {
    if |items| == 0 then Ok([])
    else
      var idx := |items| - 1;
      var d :- ListToDict(items[..idx]);
      var item := items[idx];
      if !Truthy(item) then Ok(d)
      else
        var k :- Get(item, Str("id"), Int(idx));
        if !Hashable(k) then Err(UnhashableError(k))
        else
          DictSetKeepsDistinct(d, k, item);
          Ok(DictSet(d, k, item))
  }

  /** The comprehension fails exactly when some truthy item is not a dict, or has an 'id'
      that cannot be a key. */
  lemma {:induction false} ListToDictFails(items: seq<Value>)
    ensures ListToDict(items).Ok? <==>
      forall i :: 0 <= i < |items| && Truthy(items[i]) ==> items[i].Dict? && Hashable(ItemKey(items[i], i))
  {
    if |items| > 0 {
      var idx := |items| - 1;
      ListToDictFails(items[..idx]);
      assert forall i :: 0 <= i < idx ==> items[..idx][i] == items[i];
    }
  }

  /** Item `i` is kept and its key equals `k`. */
  predicate KeptWithKey(items: seq<Value>, i: int, k: Value) {
    Kept(items, i) && PyEq(ItemKey(items[i], i), k)
  }

  /** No kept item after `i` has a key equal to `k`. */
  predicate NoLaterKey(items: seq<Value>, i: int, k: Value) {
    forall j :: i < j < |items| ==> !KeptWithKey(items, j, k)
  }

  /** What the last item of the list adds to the comprehension's dict. */
  lemma {:induction false} ListToDictLast(items: seq<Value>, k: Value)
    requires |items| > 0 && ListToDict(items).Ok?
    ensures ListToDict(items[..|items| - 1]).Ok?
    ensures Lookup(ListToDict(items).value, k) ==
      if KeptWithKey(items, |items| - 1, k) then Some(items[|items| - 1])
      else Lookup(ListToDict(items[..|items| - 1]).value, k)
  {
    var idx := |items| - 1;
    var d := ListToDict(items[..idx]).value;
    var item := items[idx];
    if Truthy(item) {
      var key := ItemKey(item, idx);
      assert Get(item, Str("id"), Int(idx)) == Ok(key);
      assert ListToDict(items).value == DictSet(d, key, item);
      if PyEq(key, k) {
        FindKeyCongruent(DictSet(d, key, item), key, k);
      } else {
        PyEqIsEquivalence(k, key, k);
      }
    }
  }

  /** Every kept item is reachable under its key, and a key holds the LAST kept item that
      carries it: later duplicates win. */
  lemma {:induction false} ListToDictLookup(items: seq<Value>, k: Value)
    requires ListToDict(items).Ok?
    ensures Lookup(ListToDict(items).value, k).Some? <==> exists i :: KeptWithKey(items, i, k)
    ensures Lookup(ListToDict(items).value, k).Some? ==>
      exists i :: KeptWithKey(items, i, k) && NoLaterKey(items, i, k)
        && Lookup(ListToDict(items).value, k).value == items[i]
    decreases |items|, 1
  {
    if |items| > 0 {
      if KeptWithKey(items, |items| - 1, k) {
        ListToDictLast(items, k);
        assert NoLaterKey(items, |items| - 1, k);
      } else {
        LookupBeforeLast(items, k);
      }
    }
  }

  /** The induction step when the last item does not carry `k`. */
  lemma {:induction false} LookupBeforeLast(items: seq<Value>, k: Value)
    requires |items| > 0 && ListToDict(items).Ok? && !KeptWithKey(items, |items| - 1, k)
    ensures Lookup(ListToDict(items).value, k).Some? <==> exists i :: KeptWithKey(items, i, k)
    ensures Lookup(ListToDict(items).value, k).Some? ==>
      exists i :: KeptWithKey(items, i, k) && NoLaterKey(items, i, k)
        && Lookup(ListToDict(items).value, k).value == items[i]
    decreases |items|, 0
  {
    var pre := items[..|items| - 1];
    ListToDictLast(items, k);
    ListToDictLookup(pre, k);
    PrefixTransfer(items, k);
  }

  /** What the prefix says about `k` holds of the whole list when its last item does not
      carry `k`. */
  lemma {:induction false} PrefixTransfer(items: seq<Value>, k: Value)
    requires |items| > 0 && !KeptWithKey(items, |items| - 1, k)
    ensures var pre := items[..|items| - 1];
      (exists i :: KeptWithKey(items, i, k)) <==> (exists i :: KeptWithKey(pre, i, k))
    ensures var pre := items[..|items| - 1];
      forall i :: KeptWithKey(pre, i, k) && NoLaterKey(pre, i, k) ==>
        KeptWithKey(items, i, k) && NoLaterKey(items, i, k) && pre[i] == items[i]
  {
    var idx := |items| - 1;
    var pre := items[..idx];
    if exists i :: KeptWithKey(items, i, k) {
      var i :| KeptWithKey(items, i, k);
      KeptInPrefix(items, idx, i, k);
    }
    if exists i :: KeptWithKey(pre, i, k) {
      var i :| KeptWithKey(pre, i, k);
      KeptInPrefix(items, idx, i, k);
    }
    forall i | KeptWithKey(pre, i, k) && NoLaterKey(pre, i, k)
      ensures KeptWithKey(items, i, k) && NoLaterKey(items, i, k) && pre[i] == items[i]
    {
      KeptInPrefix(items, idx, i, k);
      forall j | i < j < |items|
        ensures !KeptWithKey(items, j, k)
      {
        if j < idx {
          KeptInPrefix(items, idx, j, k);
        }
      }
    }
  }

  lemma {:induction false} KeptInPrefix(items: seq<Value>, n: nat, i: int, k: Value)
    requires n <= |items| && 0 <= i < n
    ensures KeptWithKey(items[..n], i, k) <==> KeptWithKey(items, i, k)
    ensures items[..n][i] == items[i]
  {
  }

  /** `x in ["put", "patch"]`. */
  predicate IsWrite(event: Value) {
    event == Str("put") || event == Str("patch")
  }

  /** `v or {}`. */
  function OrEmpty(v: Value): (r: Value)
    ensures Truthy(v) ==> r == v
    ensures !Truthy(v) ==> r == Dict([])
  {
    if Truthy(v) then v else Dict([])
  }

  /** The generic callback made by `create_callback` (main.py:235-249). */
  function GenericPush(message: Value): (r: Result<Option<Value>>)
    ensures r.Ok? && r.value.Some? ==> message.Dict?
    ensures r.Ok? && r.value.Some? ==> Truthy(r.value.value) || r.value.value == Dict([])
    ensures r.Ok? && r.value.Some? ==> !r.value.value.List?
  {
    var event :- Get(message, Str("event"), Null);
    if !IsWrite(event) then Ok(None)
    else
      var data := OrEmpty(Field(message.entries, "data", Null));
      if data.List? then
        var d :- ListToDict(data.items);
        Ok(Some(Dict(d)))
      else Ok(Some(data))
  }

  /** A message of any other kind never touches the cache. */
  lemma {:induction false} GenericPushOnlyWrites(message: Value)
    requires message.Dict?
    ensures !IsWrite(Field(message.entries, "event", Null)) <==> GenericPush(message) == Ok(None)
  {
  }

  /** A write whose payload is null, empty or otherwise falsy leaves an empty dict. */
  lemma {:induction false} GenericPushFalsyIsEmpty(message: Value)
    requires message.Dict? && IsWrite(Field(message.entries, "event", Null))
    requires !Truthy(Field(message.entries, "data", Null))
    ensures GenericPush(message) == Ok(Some(Dict([])))
  {
  }

  /** A write whose payload is neither a list nor falsy is stored as it is. */
  lemma {:induction false} GenericPushStoresPayload(message: Value)
    requires message.Dict? && IsWrite(Field(message.entries, "event", Null))
    requires Truthy(Field(message.entries, "data", Null)) && !Field(message.entries, "data", Null).List?
    ensures GenericPush(message) == Ok(Some(Field(message.entries, "data", Null)))
  {
  }

  /** `any(key.startswith('-') for key in keys)`: stops at the first key that starts with
      '-', and fails on a key before that which is not a string. */
  function AnyDashKey(entries: seq<(Value, Value)>): (r: Result<bool>)
    ensures r.Err? ==> r.exc.kind == AttributeError
  {
    if |entries| == 0 then Ok(false)
    else
      var key := entries[0].0;
      if !key.Str? then Err(Exc(AttributeError, "'" + TypeName(key) + "' object has no attribute 'startswith'"))
      else if StartsWith(key.s, "-") then Ok(true)
      else AnyDashKey(entries[1..])
  }

  /** The scan answers True exactly when a '-' key is reached with only string keys before
      it, and False exactly when every key is a string not starting with '-'. */
  lemma {:induction false} AnyDashKeyMeaning(entries: seq<(Value, Value)>)
    ensures AnyDashKey(entries) == Ok(true) <==> exists i :: DashKeyAt(entries, i) && AllStrBefore(entries, i)
    ensures AnyDashKey(entries) == Ok(false) <==> forall i :: 0 <= i < |entries| ==> PlainKeyAt(entries, i)
  {
    if |entries| > 0 {
      var key := entries[0].0;
      var rest := entries[1..];
      if !key.Str? {
        assert !PlainKeyAt(entries, 0);
        forall i | DashKeyAt(entries, i) ensures !AllStrBefore(entries, i) {
          assert i > 0;
        }
      } else if StartsWith(key.s, "-") {
        assert DashKeyAt(entries, 0) && AllStrBefore(entries, 0);
        assert !PlainKeyAt(entries, 0);
      } else {
        AnyDashKeyMeaning(rest);
        assert forall i :: 0 < i < |entries| ==> entries[i] == rest[i - 1];
        assert forall i :: 0 < i <= |entries| ==> (AllStrBefore(entries, i) <==> AllStrBefore(rest, i - 1)) by {
          forall i | 0 < i <= |entries| ensures AllStrBefore(entries, i) <==> AllStrBefore(rest, i - 1) {
            assert forall j :: 0 < j < i ==> entries[j] == rest[j - 1];
          }
        }
        assert !DashKeyAt(entries, 0) && PlainKeyAt(entries, 0);
        if AnyDashKey(rest) == Ok(true) {
          var i :| DashKeyAt(rest, i) && AllStrBefore(rest, i);
          assert DashKeyAt(entries, i + 1) && AllStrBefore(entries, i + 1);
        }
        if exists i :: DashKeyAt(entries, i) && AllStrBefore(entries, i) {
          var i :| DashKeyAt(entries, i) && AllStrBefore(entries, i);
          assert DashKeyAt(rest, i - 1) && AllStrBefore(rest, i - 1);
        }
        if forall i :: 0 <= i < |entries| ==> PlainKeyAt(entries, i) {
          assert forall i :: 0 <= i < |rest| ==> PlainKeyAt(rest, i) by {
            forall i | 0 <= i < |rest| ensures PlainKeyAt(rest, i) { assert PlainKeyAt(entries, i + 1); }
          }
        }
        if forall i :: 0 <= i < |rest| ==> PlainKeyAt(rest, i) {
          forall i | 0 <= i < |entries| ensures PlainKeyAt(entries, i) {
            if i > 0 { assert PlainKeyAt(rest, i - 1); }
          }
        }
      }
    }
  }

  /** Key `i` is a string that does not start with '-'. */
  predicate PlainKeyAt(entries: seq<(Value, Value)>, i: int)
    requires 0 <= i < |entries|
  {
    entries[i].0.Str? && !StartsWith(entries[i].0.s, "-")
  }

  /** Key `i` is a string that starts with '-', as the backend's push ids do. */
  predicate DashKeyAt(entries: seq<(Value, Value)>, i: int) {
    0 <= i < |entries| && entries[i].0.Str? && StartsWith(entries[i].0.s, "-")
  }

  /** Every key before position `i` is a string. */
  predicate AllStrBefore(entries: seq<(Value, Value)>, i: int)
    requires 0 <= i <= |entries|
  {
    forall j :: 0 <= j < i ==> entries[j].0.Str?
  }

  /** The cadets callback (main.py:993-1002). A plain record pushed at the top level,
      recognised by having no push-id style key, is wrapped as the single cadet 'direct'. */
  function CadetsPush(message: Value): (r: Result<Option<Value>>)
    ensures r.Ok? ==> Index(message, Str("event")).Ok?
    ensures r.Ok? && r.value.Some? ==> r.value.value.Dict? && IsWrite(Index(message, Str("event")).value)
  {
    var event :- Index(message, Str("event"));
    if !IsWrite(event) then Ok(None)
    else
      var raw :- Index(message, Str("data"));
      var data := OrEmpty(raw);
      if data.List? then
        var d :- ListToDict(data.items);
        Ok(Some(Dict(d)))
      else if Truthy(data) then
        if !data.Dict? then Err(Exc(AttributeError, "'" + TypeName(data) + "' object has no attribute 'keys'"))
        else
          var dash :- AnyDashKey(data.entries);
          if dash then Ok(Some(data)) else Ok(Some(Dict([(Str("direct"), data)])))
      else Ok(Some(data))
  }

  /** Without an "event" key the callback raises KeyError and changes nothing. */
  lemma {:induction false} CadetsPushNeedsEvent(message: Value)
    requires message.Dict? && !HasKey(message.entries, Str("event"))
    ensures CadetsPush(message) == Err(Exc(KeyError, "'event'"))
  {
  }

  /** A write's "event" and "data" are read with `[]`, which succeeds when both are there. */
  lemma {:induction false} CadetsPushReads(message: Value, data: Value)
    requires message.Dict? && IsWrite(Field(message.entries, "event", Null))
    requires Lookup(message.entries, Str("data")) == Some(data)
    ensures Index(message, Str("event")) == Ok(Field(message.entries, "event", Null))
    ensures Index(message, Str("data")) == Ok(data)
  {
    assert HasKey(message.entries, Str("event"));
  }

  /** For a write whose payload is a non-empty dict, the payload is wrapped as
      {'direct': data} exactly when every key is a string not starting with '-', stored as
      it is when a '-' key comes before any non-string key, and the callback fails
      otherwise. */
  lemma {:induction false} CadetsPushDictPayload(message: Value, entries: seq<(Value, Value)>)
    requires message.Dict? && IsWrite(Field(message.entries, "event", Null))
    requires Lookup(message.entries, Str("data")) == Some(Dict(entries)) && |entries| > 0
    ensures (forall i :: 0 <= i < |entries| ==> PlainKeyAt(entries, i)) <==>
      CadetsPush(message) == Ok(Some(Dict([(Str("direct"), Dict(entries))])))
    ensures (exists i :: DashKeyAt(entries, i) && AllStrBefore(entries, i)) <==>
      CadetsPush(message) == Ok(Some(Dict(entries)))
    ensures CadetsPush(message).Err? <==>
      !(exists i :: DashKeyAt(entries, i) && AllStrBefore(entries, i))
      && !(forall i :: 0 <= i < |entries| ==> PlainKeyAt(entries, i))
  {
    CadetsPushReads(message, Dict(entries));
    AnyDashKeyMeaning(entries);
    assert Dict([(Str("direct"), Dict(entries))]) != Dict(entries);
  }

  /** The callbacks for events, jobs, fundraisers and contacts (main.py:1011-1036): a write
      replaces the cache by the payload, or by {} when the payload is falsy. */
  function WholesalePush(message: Value): (r: Result<Option<Value>>)
    ensures r.Ok? && r.value.Some? ==> Truthy(r.value.value) || r.value.value == Dict([])
  {
    var event :- Index(message, Str("event"));
    if !IsWrite(event) then Ok(None)
    else
      var raw :- Index(message, Str("data"));
      Ok(Some(OrEmpty(raw)))
  }

  lemma {:induction false} WholesalePushStores(message: Value)
    requires message.Dict? && IsWrite(Field(message.entries, "event", Null))
    requires HasKey(message.entries, Str("data"))
    ensures WholesalePush(message) == Ok(Some(OrEmpty(Field(message.entries, "data", Null))))
  {
    assert HasKey(message.entries, Str("event"));
  }
}
