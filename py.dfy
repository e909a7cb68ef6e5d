/** The slice of Python's value semantics that the application's record handling relies on:
    JSON-shaped values as the realtime database delivers them, truthiness, equality and
    hashing of dictionary keys, `d.get`, `d[k]`, `x in c`, `str(x)`, and the string methods
    the code calls (`lower`, `strip`, `replace`, `startswith`, substring tests). */
module Py {

  /** A Python value. A dict is its entries in insertion order, as CPython keeps them. */
  datatype Value =
    | Null
    | Bool(b: bool)
    | Int(i: int)
    | Float(r: real)
    | Str(s: string)
    | List(items: seq<Value>)
    | Dict(entries: seq<(Value, Value)>)

  /** A raised exception: its class and the text `str(e)` gives. */
  datatype ExcKind = ValueError | KeyError | IndexError | TypeError | AttributeError | Exception
  datatype Exc = Exc(kind: ExcKind, msg: string)

  datatype Option<+T> = None | Some(value: T)

  /** Either a value or the exception that was raised instead. */
  datatype Result<+T> = Ok(value: T) | Err(exc: Exc) {
    predicate IsFailure() { Err? }
    function PropagateFailure<U>(): Result<U>
      requires Err?
    {
      Err(exc)
    }
    function Extract(): T
      requires Ok?
    {
      value
    }
  }

  function TypeName(v: Value): string {
    match v
    case Null => "NoneType"
    case Bool(_) => "bool"
    case Int(_) => "int"
    case Float(_) => "float"
    case Str(_) => "str"
    case List(_) => "list"
    case Dict(_) => "dict"
  }

  /** `bool(v)`. */
  predicate Truthy(v: Value) {
    match v
    case Null => false
    case Bool(b) => b
    case Int(i) => i != 0
    case Float(r) => r != 0.0
    case Str(s) => |s| > 0
    case List(items) => |items| > 0
    case Dict(entries) => |entries| > 0
  }

  predicate IsNumber(v: Value) {
    v.Bool? || v.Int? || v.Float?
  }

  /** The numeric value of a bool, int or float (`True == 1`). */
  function Num(v: Value): real
    requires IsNumber(v)
  {
    match v
    case Bool(b) => if b then 1.0 else 0.0
    case Int(i) => i as real
    case Float(r) => r
  }

  /** `a == b`: numbers compare by value across bool, int and float; everything else
      structurally. */
  predicate PyEq(a: Value, b: Value) {
    if IsNumber(a) && IsNumber(b) then Num(a) == Num(b) else a == b
  }

  lemma {:induction false} PyEqIsEquivalence(a: Value, b: Value, c: Value)
    ensures PyEq(a, a)
    ensures PyEq(a, b) ==> PyEq(b, a)
    ensures PyEq(a, b) && PyEq(b, c) ==> PyEq(a, c)
  {
  }

  /** Lists and dicts cannot be dictionary keys. */
  predicate Hashable(v: Value) {
    !v.List? && !v.Dict?
  }

  function UnhashableError(k: Value): Exc {
    Exc(TypeError, "unhashable type: '" + TypeName(k) + "'")
  }

  /** The position of the entry whose key equals `k`, if any. */
  function FindKey(entries: seq<(Value, Value)>, k: Value): (r: Option<nat>)
    ensures r.Some? ==> r.value < |entries| && PyEq(entries[r.value].0, k)
    ensures r.Some? ==> forall j :: 0 <= j < r.value ==> !PyEq(entries[j].0, k)
    ensures r.None? ==> forall j :: 0 <= j < |entries| ==> !PyEq(entries[j].0, k)
  {
    if |entries| == 0 then None
    else if PyEq(entries[0].0, k) then Some(0)
    else match FindKey(entries[1..], k)
      case None => None
      case Some(j) => Some(j + 1)
  }

  predicate HasKey(entries: seq<(Value, Value)>, k: Value) {
    FindKey(entries, k).Some?
  }

  function Lookup(entries: seq<(Value, Value)>, k: Value): Option<Value> {
    match FindKey(entries, k)
    case None => None
    case Some(j) => Some(entries[j].1)
  }

  /** `d[k] = v`: an existing equal key keeps its place and its own key object; a new key
      goes to the end. */
  function DictSet(entries: seq<(Value, Value)>, k: Value, v: Value): (r: seq<(Value, Value)>)
    ensures Lookup(r, k) == Some(v)
    ensures forall k' :: !PyEq(k', k) ==> Lookup(r, k') == Lookup(entries, k')
    ensures HasKey(entries, k) ==> |r| == |entries|
    ensures !HasKey(entries, k) ==> |r| == |entries| + 1
  {
    match FindKey(entries, k)
    case Some(j) =>
      var r := entries[j := (entries[j].0, v)];
      assert FindKey(r, k) == Some(j) by { FindKeyAfterUpdate(entries, j, v, k); }
      forall k' | !PyEq(k', k) ensures Lookup(r, k') == Lookup(entries, k') {
        FindKeyAfterUpdate(entries, j, v, k');
      }
      r
    case None =>
      var r := entries + [(k, v)];
      assert FindKey(r, k) == Some(|entries|) by { FindKeyAfterAppend(entries, k, v, k); }
      forall k' | !PyEq(k', k) ensures Lookup(r, k') == Lookup(entries, k') {
        FindKeyAfterAppend(entries, k, v, k');
      }
      r
  }

  lemma {:induction false} FindKeyAfterUpdate(entries: seq<(Value, Value)>, j: nat, v: Value, k: Value)
    requires j < |entries|
    ensures FindKey(entries[j := (entries[j].0, v)], k) == FindKey(entries, k)
  {
    var r := entries[j := (entries[j].0, v)];
    match FindKey(entries, k)
    case None =>
      assert forall i :: 0 <= i < |r| ==> r[i].0 == entries[i].0;
    case Some(m) =>
      assert forall i :: 0 <= i < |r| ==> r[i].0 == entries[i].0;
      FindKeyFirst(r, k, m);
  }

  lemma {:induction false} FindKeyAfterAppend(entries: seq<(Value, Value)>, k0: Value, v: Value, k: Value)
    ensures FindKey(entries + [(k0, v)], k) ==
      (if HasKey(entries, k) then FindKey(entries, k)
       else if PyEq(k0, k) then Some(|entries|) else None)
  {
    var r := entries + [(k0, v)];
    match FindKey(entries, k)
    case Some(m) => FindKeyFirst(r, k, m);
    case None =>
      if PyEq(k0, k) { FindKeyFirst(r, k, |entries|); }
  }

  /** FindKey finds the first position whose key is equal. */
  lemma {:induction false} FindKeyFirst(entries: seq<(Value, Value)>, k: Value, m: nat)
    requires m < |entries| && PyEq(entries[m].0, k)
    requires forall j :: 0 <= j < m ==> !PyEq(entries[j].0, k)
    ensures FindKey(entries, k) == Some(m)
  {
    if m > 0 {
      FindKeyFirst(entries[1..], k, m - 1);
    }
  }

  /** Equal keys find the same entry. */
  lemma {:induction false} FindKeyCongruent(entries: seq<(Value, Value)>, k1: Value, k2: Value)
    requires PyEq(k1, k2)
    ensures FindKey(entries, k1) == FindKey(entries, k2)
  {
    if |entries| > 0 {
      PyEqIsEquivalence(entries[0].0, k1, k2);
      PyEqIsEquivalence(entries[0].0, k2, k1);
      FindKeyCongruent(entries[1..], k1, k2);
    }
  }

  /** The keys of a dict are pairwise unequal, as Python guarantees. */
  predicate DistinctKeys(entries: seq<(Value, Value)>) {
    forall i, j :: 0 <= i < j < |entries| ==> !PyEq(entries[i].0, entries[j].0)
  }

  lemma {:induction false} DictSetKeepsDistinct(entries: seq<(Value, Value)>, k: Value, v: Value)
    requires DistinctKeys(entries)
    ensures DistinctKeys(DictSet(entries, k, v))
  {
    var r := DictSet(entries, k, v);
    match FindKey(entries, k)
    case Some(j) =>
      assert forall i :: 0 <= i < |r| ==> r[i].0 == entries[i].0;
    case None =>
      assert r == entries + [(k, v)];
      forall i, j | 0 <= i < j < |r| ensures !PyEq(r[i].0, r[j].0) {
        if j == |entries| {
          PyEqIsEquivalence(r[i].0, k, k);
        }
      }
  }

  /** The values of a dict, in order. */
  function Values(entries: seq<(Value, Value)>): (r: seq<Value>)
    ensures |r| == |entries|
    ensures forall i :: 0 <= i < |r| ==> r[i] == entries[i].1
  {
    if |entries| == 0 then [] else [entries[0].1] + Values(entries[1..])
  }

  /** `d.get(k, default)`. */
  function Get(d: Value, k: Value, default: Value): (r: Result<Value>)
    ensures d.Dict? && Hashable(k) ==> r.Ok?
    ensures !d.Dict? ==> r == Err(Exc(AttributeError, "'" + TypeName(d) + "' object has no attribute 'get'"))
  {
    if !d.Dict? then Err(Exc(AttributeError, "'" + TypeName(d) + "' object has no attribute 'get'"))
    else if !Hashable(k) then Err(UnhashableError(k))
    else match Lookup(d.entries, k)
      case Some(v) => Ok(v)
      case None => Ok(default)
  }

  /** `d.get(name, default)` on a dict, for a string key: never fails. */
  function Field(entries: seq<(Value, Value)>, name: string, default: Value): (r: Value)
    ensures Get(Dict(entries), Str(name), default) == Ok(r)
  {
    match Lookup(entries, Str(name))
    case Some(v) => v
    case None => default
  }

  /** `str(k)` as a KeyError message shows it, which is `repr(k)`. */
  function KeyRepr(k: Value): string {
    if k.Str? then "'" + k.s + "'" else PyStr(k)
  }

  /** `d[k]`. */
  function Index(d: Value, k: Value): (r: Result<Value>)
    ensures d.Dict? && Hashable(k) && Lookup(d.entries, k).Some? ==> r == Ok(Lookup(d.entries, k).value)
    ensures d.Dict? && Hashable(k) && Lookup(d.entries, k).None? ==> r == Err(Exc(KeyError, KeyRepr(k)))
  {
    match d
    case Dict(entries) =>
      if !Hashable(k) then Err(UnhashableError(k))
      else (match Lookup(entries, k)
        case Some(v) => Ok(v)
        case None => Err(Exc(KeyError, KeyRepr(k))))
    case List(items) =>
      if k.Int? || k.Bool? then
        var n := |items| as int;
        var i := if k.Int? then k.i else if k.b then 1 else 0;
        var j := if i < 0 then i + n else i;
        if 0 <= j < n then Ok(items[j]) else Err(Exc(IndexError, "list index out of range"))
      else Err(Exc(TypeError, "list indices must be integers or slices, not " + TypeName(k)))
    case Str(s) =>
      if k.Int? || k.Bool? then
        var n := |s| as int;
        var i := if k.Int? then k.i else if k.b then 1 else 0;
        var j := if i < 0 then i + n else i;
        if 0 <= j < n then Ok(Str([s[j]])) else Err(Exc(IndexError, "string index out of range"))
      else Err(Exc(TypeError, "string indices must be integers, not '" + TypeName(k) + "'"))
    case _ => Err(Exc(TypeError, "'" + TypeName(d) + "' object is not subscriptable"))
  }

  /** `item in container`. */
  function In(item: Value, container: Value): (r: Result<bool>)
    ensures container.Dict? && Hashable(item) ==> r == Ok(HasKey(container.entries, item))
  {
    match container
    case Dict(entries) => if Hashable(item) then Ok(HasKey(entries, item)) else Err(UnhashableError(item))
    case List(items) => Ok(exists j :: 0 <= j < |items| && PyEq(items[j], item))
    case Str(s) =>
      if item.Str? then Ok(IsSubstring(item.s, s))
      else Err(Exc(TypeError, "'in <string>' requires string as left operand, not " + TypeName(item)))
    case _ => Err(Exc(TypeError, "argument of type '" + TypeName(container) + "' is not iterable"))
  }

  // ---------------------------------------------------------------- strings

  function DigitChar(d: nat): char
    requires d < 10
  {
    ['0', '1', '2', '3', '4', '5', '6', '7', '8', '9'][d]
  }

  function NatToString(n: nat): (r: string)
    ensures |r| > 0
    decreases n
  {
    if n < 10 then [DigitChar(n)] else NatToString(n / 10) + [DigitChar(n % 10)]
  }

  /** The decimal text Python prints for an int. */
  function IntToString(i: int): string {
    if i < 0 then "-" + NatToString(-i) else NatToString(i)
  }

  /** `str(v)`. Floats with a fractional part, lists and dicts print as a fixed placeholder:
      their exact text form is not part of this model. */
  function PyStr(v: Value): (r: string)
    ensures v.Str? ==> r == v.s
    ensures !v.Str? ==> |r| > 0
  {
    match v
    case Null => "None"
    case Bool(b) => if b then "True" else "False"
    case Int(i) => IntToString(i)
    case Float(r) => if r == r.Floor as real then IntToString(r.Floor) + ".0" else "<float>"
    case Str(s) => s
    case List(_) => "[...]"
    case Dict(_) => "{...}"
  }

  /** `str.lower()` on the ASCII letters. */
  function LowerChar(c: char): char {
    if 'A' <= c <= 'Z' then (c as int + 32) as char else c
  }

  function Lower(s: string): (r: string)
    ensures |r| == |s|
    ensures forall i :: 0 <= i < |s| ==> r[i] == LowerChar(s[i])
    ensures forall i :: 0 <= i < |r| ==> !('A' <= r[i] <= 'Z')
  {
    if |s| == 0 then "" else [LowerChar(s[0])] + Lower(s[1..])
  }

  /** The characters `str.isspace()` accepts, which `str.strip()` removes. */
  predicate IsSpace(c: char) {
    var n := c as int;
    (0x09 <= n <= 0x0D) || (0x1C <= n <= 0x20) || n == 0x85 || n == 0xA0 || n == 0x1680
    || (0x2000 <= n <= 0x200A) || n == 0x2028 || n == 0x2029 || n == 0x202F || n == 0x205F
    || n == 0x3000
  }

  /** How many characters at the front of `s` are to be dropped. */
  function LeadingDropped(s: string, drop: char -> bool): (n: nat)
    ensures n <= |s|
    ensures forall i :: 0 <= i < n ==> drop(s[i])
    ensures n < |s| ==> !drop(s[n])
  {
    if |s| > 0 && drop(s[0]) then 1 + LeadingDropped(s[1..], drop) else 0
  }

  /** Where `s` ends once the characters to drop are taken off its back. */
  function KeptEnd(s: string, drop: char -> bool): (n: nat)
    ensures n <= |s|
    ensures forall i :: n <= i < |s| ==> drop(s[i])
    ensures n > 0 ==> !drop(s[n - 1])
  {
    if |s| > 0 && drop(s[|s| - 1]) then KeptEnd(s[..|s| - 1], drop) else |s|
  }

  /** `s.strip(chars)` with `drop` telling which characters are in `chars`: the longest
      middle slice of `s` that neither starts nor ends with a dropped character. */
  function Trim(s: string, drop: char -> bool): (r: string)
    ensures |r| > 0 ==> !drop(r[0]) && !drop(r[|r| - 1])
    ensures |r| == 0 <==> forall i :: 0 <= i < |s| ==> drop(s[i])
    ensures LeadingDropped(s, drop) + |r| <= |s|
    ensures r == s[LeadingDropped(s, drop)..LeadingDropped(s, drop) + |r|]
  {
    var a := LeadingDropped(s, drop);
    var b := a + KeptEnd(s[a..], drop);
    assert a < |s| ==> b > a;
    s[a..b]
  }

  /** `s.strip()`. */
  function Strip(s: string): (r: string)
    ensures |r| <= |s|
    ensures |r| > 0 ==> !IsSpace(r[0]) && !IsSpace(r[|r| - 1])
    ensures |r| == 0 <==> forall i :: 0 <= i < |s| ==> IsSpace(s[i])
  {
    Trim(s, IsSpace)
  }

  /** `s.replace(target, replacement)` for a one-character `target`. */
  function ReplaceChar(s: string, target: char, replacement: string): (r: string)
    ensures target !in replacement ==> target !in r
    ensures target !in s ==> r == s
  {
    if |s| == 0 then ""
    else (if s[0] == target then replacement else [s[0]]) + ReplaceChar(s[1..], target, replacement)
  }

  /** Replacing a character by one character keeps the length and every other character. */
  lemma {:induction false} ReplaceCharByChar(s: string, target: char, c: char)
    ensures |ReplaceChar(s, target, [c])| == |s|
    ensures forall i :: 0 <= i < |s| ==> ReplaceChar(s, target, [c])[i] == (if s[i] == target then c else s[i])
  {
    if |s| > 0 {
      ReplaceCharByChar(s[1..], target, c);
      var head := if s[0] == target then [c] else [s[0]];
      var r := ReplaceChar(s, target, [c]);
      var t := ReplaceChar(s[1..], target, [c]);
      assert r == head + t;
      forall i | 0 < i < |s| ensures r[i] == (if s[i] == target then c else s[i]) {
        assert r[i] == t[i - 1] && s[1..][i - 1] == s[i];
      }
    }
  }

  predicate StartsWith(s: string, prefix: string) {
    |prefix| <= |s| && s[..|prefix|] == prefix
  }

  /** A text made of a head, a middle and a tail starts with the head and ends with the
      tail. */
  lemma {:induction false} FramedBy(h: string, mid: string, tail: string)
    ensures var s := h + mid + tail; StartsWith(s, h) && |tail| <= |s| && s[|s| - |tail|..] == tail
  {
    var s := h + mid + tail;
    assert s[..|h|] == h;
    assert s[|s| - |tail|..] == tail;
  }

  lemma {:induction false} DropEmptyTail(h: string, a: string, b: string)
    ensures h + (a + b) + "" == h + a + b
  {
  }

  /** `sub in s` for strings. */
  predicate IsSubstring(sub: string, s: string)
    decreases |s|
  {
    StartsWith(s, sub) || (|s| > 0 && IsSubstring(sub, s[1..]))
  }

  /** ", ".join(parts). */
  function Join(parts: seq<string>, sep: string): string {
    if |parts| == 0 then ""
    else if |parts| == 1 then parts[0]
    else parts[0] + sep + Join(parts[1..], sep)
  }

  /** `c * n` for a one-character string. */
  function Repeat(c: char, n: nat): (r: string)
    ensures |r| == n && forall i :: 0 <= i < n ==> r[i] == c
  {
    if n == 0 then "" else [c] + Repeat(c, n - 1)
  }

  /** Python's `<` on strings: code point by code point. */
  predicate LexLt(a: string, b: string)
    decreases |a|
  {
    if |a| == 0 then |b| > 0
    else if |b| == 0 then false
    else if a[0] != b[0] then a[0] < b[0]
    else LexLt(a[1..], b[1..])
  }

  /** Concatenation regroups; stated apart so that proofs with much else in scope need not
      rediscover it. */
  lemma {:induction false} ConcatAssoc<T>(a: seq<T>, b: seq<T>, c: seq<T>)
    ensures (a + b) + c == a + (b + c)
  {
  }

  lemma {:induction false} LexLtIrreflexive(a: string)
    ensures !LexLt(a, a)
    decreases |a|
  {
    if |a| > 0 { LexLtIrreflexive(a[1..]); }
  }

  lemma {:induction false} LexLtTransitive(a: string, b: string, c: string)
    requires LexLt(a, b) && LexLt(b, c)
    ensures LexLt(a, c)
    decreases |a|
  {
    if |a| > 0 && |b| > 0 && |c| > 0 && a[0] == b[0] && b[0] == c[0] {
      LexLtTransitive(a[1..], b[1..], c[1..]);
    }
  }

  lemma {:induction false} LexLtTotal(a: string, b: string)
    requires a != b
    ensures LexLt(a, b) || LexLt(b, a)
    decreases |a|
  {
    if |a| > 0 && |b| > 0 && a[0] == b[0] {
      assert a == [a[0]] + a[1..] && b == [b[0]] + b[1..];
      LexLtTotal(a[1..], b[1..]);
    }
  }

  /** The empty string is below every other string. */
  lemma {:induction false} EmptyIsLeast(b: string)
    ensures LexLt("", b) <==> b != ""
    ensures !LexLt(b, "")
  {
  }
}
