/**
 * The JavaScript values that cross the engine's boundaries: attribute values
 * of definitions and user files, per-module state objects, and whatever a
 * user script returns. Numbers are carried as the text JavaScript's
 * `String()` gives them, so no floating point is involved. Plain objects are
 * ordered key/value sequences with JavaScript's assignment semantics.
 */
module Js {
  import opened Wrappers
  import opened JsText

  datatype JsValue =
    | Undefined
    | Null
    | Bool(b: bool)
    | Num(repr: string)
    | Str(s: string)
    | List(items: seq<string>)
    | Obj(fields: seq<(string, JsValue)>)

  /** JavaScript truthiness; `-0` renders as "0", so it is covered. */
  predicate Truthy(v: JsValue)
  {
    match v
    case Undefined => false
    case Null => false
    case Bool(b) => b
    case Num(r) => r != "0" && r != "NaN"
    case Str(s) => s != ""
    case List(_) => true
    case Obj(_) => true
  }

  predicate Nullish(v: JsValue)
  {
    v.Undefined? || v.Null?
  }

  /** `v ?? fallback`. */
  function Coalesce(v: JsValue, fallback: JsValue): (r: JsValue)
    ensures !Nullish(v) ==> r == v
    ensures Nullish(v) ==> r == fallback
  {
    if Nullish(v) then fallback else v
  }

  /** `String(v)`; arrays join their elements with commas. */
  function ToStr(v: JsValue): string
  {
    match v
    case Undefined => "undefined"
    case Null => "null"
    case Bool(b) => if b then "true" else "false"
    case Num(r) => r
    case Str(s) => s
    case List(items) => Join(items, ",")
    case Obj(_) => "[object Object]"
  }

  // ---------------------------------------------------------------------
  // Ordered objects: a sequence of (key, value) pairs in insertion order.
  // ---------------------------------------------------------------------

  function Keys<V>(m: seq<(string, V)>): (ks: seq<string>)
    ensures |ks| == |m|
    ensures forall i :: 0 <= i < |m| ==> ks[i] == m[i].0
  {
    if m == [] then [] else [m[0].0] + Keys(m[1..])
  }

  predicate UniqueKeys<V>(m: seq<(string, V)>)
  {
    forall i, j :: 0 <= i < j < |m| ==> m[i].0 != m[j].0
  }

  /** `obj[k]` for an own key: the first pair with that key. */
  function Lookup<V>(m: seq<(string, V)>, k: string): (r: Option<V>)
    ensures r.None? <==> k !in Keys(m)
    ensures r.Some? ==> exists i :: 0 <= i < |m| && m[i] == (k, r.value)
  {
    if m == [] then None else if m[0].0 == k then Some(m[0].1) else Lookup(m[1..], k)
  }

  /** `obj[k] = v`: an existing key keeps its place, a new key goes last. */
  function Put<V>(m: seq<(string, V)>, k: string, v: V): (r: seq<(string, V)>)
    ensures Keys(r) == if k in Keys(m) then Keys(m) else Keys(m) + [k]
  {
    if m == [] then [(k, v)]
    else if m[0].0 == k then [(k, v)] + m[1..]
    else [m[0]] + Put(m[1..], k, v)
  }

  /** Reading back an assigned key gives the assigned value; other keys are untouched. */
  lemma {:induction false} PutLookup<V>(m: seq<(string, V)>, k: string, v: V, other: string)
    ensures Lookup(Put(m, k, v), k) == Some(v)
    ensures other != k ==> Lookup(Put(m, k, v), other) == Lookup(m, other)
  {
    if m != [] && m[0].0 != k {
      PutLookup(m[1..], k, v, other);
    }
  }

  lemma {:induction false} PutUnique<V>(m: seq<(string, V)>, k: string, v: V)
    requires UniqueKeys(m)
    ensures UniqueKeys(Put(m, k, v))
  {
    var r := Put(m, k, v);
    assert Keys(r) == if k in Keys(m) then Keys(m) else Keys(m) + [k];
    forall i, j | 0 <= i < j < |r| ensures r[i].0 != r[j].0 {
      assert Keys(r)[i] == r[i].0 && Keys(r)[j] == r[j].0;
    }
  }

  /** The keys of an object built by assigning `ks` in order: each key once, at its first assignment. */
  function Dedup(ks: seq<string>): (r: seq<string>)
  {
    if ks == [] then []
    else var d := Dedup(ks[..|ks| - 1]); if ks[|ks| - 1] in d then d else d + [ks[|ks| - 1]]
  }

  /** Extending a key list by one key extends its deduplication by that key unless it is already there. */
  lemma DedupSnoc(ks: seq<string>, k: string)
    ensures Dedup(ks + [k]) == if k in Dedup(ks) then Dedup(ks) else Dedup(ks) + [k]
  {
    assert (ks + [k])[..|ks|] == ks;
  }

  lemma {:induction false} DedupUnique(ks: seq<string>)
    requires forall i, j :: 0 <= i < j < |ks| ==> ks[i] != ks[j]
    ensures Dedup(ks) == ks
  {
    if ks != [] {
      var init := ks[..|ks| - 1];
      DedupUnique(init);
      assert ks == init + [ks[|ks| - 1]];
    }
  }

  /**
   * The loop `for (k in items) result[k] = f(k, items[k])` that stops at the
   * first failure: the shape of every result-building loop of the engine.
   */
  function PutEach<T, V, E>(items: seq<(string, T)>, f: (string, T) -> Result<V, E>, i: nat, acc: seq<(string, V)>): Result<seq<(string, V)>, E>
    requires i <= |items|
    decreases |items| - i
  {
    if i == |items| then Ok(acc)
    else
      var v :- f(items[i].0, items[i].1);
      PutEach(items, f, i + 1, Put(acc, items[i].0, v))
  }

  /** The result has one key per item, in first-occurrence order. */
  lemma {:induction false} PutEachKeys<T, V, E>(items: seq<(string, T)>, f: (string, T) -> Result<V, E>, i: nat, acc: seq<(string, V)>)
    requires i <= |items| && Keys(acc) == Dedup(Keys(items)[..i])
    ensures var r := PutEach(items, f, i, acc); r.Ok? ==> Keys(r.value) == Dedup(Keys(items))
    decreases |items| - i
  {
    var names := Keys(items);
    if i == |items| {
      assert names[..i] == names;
    } else {
      var v := f(items[i].0, items[i].1);
      if v.Ok? {
        var acc2 := Put(acc, items[i].0, v.value);
        assert Keys(acc2) == Dedup(names[..i + 1]) by {
          PrefixSnoc(names, i);
          DedupSnoc(names[..i], items[i].0);
        }
        PutEachKeys(items, f, i + 1, acc2);
      }
    }
  }

  /** A property every answer of `f` has, every value of the result has. */
  lemma {:induction false} PutEachAll<T, V, E>(items: seq<(string, T)>, f: (string, T) -> Result<V, E>, i: nat, acc: seq<(string, V)>,
                                               P: V -> bool)
    requires i <= |items| && forall j :: 0 <= j < |acc| ==> P(acc[j].1)
    requires forall j :: i <= j < |items| && f(items[j].0, items[j].1).Ok? ==> P(f(items[j].0, items[j].1).value)
    ensures var r := PutEach(items, f, i, acc); r.Ok? ==> forall j :: 0 <= j < |r.value| ==> P(r.value[j].1)
    decreases |items| - i
  {
    if i < |items| {
      var v := f(items[i].0, items[i].1);
      if v.Ok? {
        assert P(v.value);
        PutKeepsAll(acc, items[i].0, v.value, P);
        PutEachAll(items, f, i + 1, Put(acc, items[i].0, v.value), P);
      }
    }
  }

  /** The same loop with an `f` that answers the same on every item gives the same result. */
  lemma {:induction false} PutEachSame<T, V, E>(items: seq<(string, T)>, f: (string, T) -> Result<V, E>, g: (string, T) -> Result<V, E>,
                                                i: nat, acc: seq<(string, V)>)
    requires i <= |items| && forall j :: i <= j < |items| ==> f(items[j].0, items[j].1) == g(items[j].0, items[j].1)
    ensures PutEach(items, f, i, acc) == PutEach(items, g, i, acc)
    decreases |items| - i
  {
    if i < |items| {
      var v := f(items[i].0, items[i].1);
      if v.Ok? {
        PutEachSame(items, f, g, i + 1, Put(acc, items[i].0, v.value));
      }
    }
  }

  /** Assignment keeps a property of all values when the new value has it. */
  lemma {:induction false} PutKeepsAll<V>(m: seq<(string, V)>, k: string, v: V, P: V -> bool)
    requires (forall j :: 0 <= j < |m| ==> P(m[j].1)) && P(v)
    ensures forall j :: 0 <= j < |Put(m, k, v)| ==> P(Put(m, k, v)[j].1)
  {
    if m != [] && m[0].0 != k {
      PutKeepsAll(m[1..], k, v, P);
      var r := [m[0]] + Put(m[1..], k, v);
      assert forall j :: 1 <= j < |r| ==> r[j] == Put(m[1..], k, v)[j - 1];
    }
  }

  /** The property `k` of `v` as a script's code reads it. */
  function Get(v: JsValue, k: string): JsValue
  {
    match v
    case Obj(fields) => Lookup(fields, k).GetOr(Undefined)
    case List(items) => ElementAt(items, k, 0)
    case Str(s) => CharAt(s, k, 0)
    case _ => Undefined
  }

  function ElementAt(items: seq<string>, k: string, i: nat): JsValue
    decreases |items| - i
  {
    if i >= |items| then Undefined
    else if NatToString(i) == k then Str(items[i])
    else ElementAt(items, k, i + 1)
  }

  function CharAt(s: string, k: string, i: nat): JsValue
    decreases |s| - i
  {
    if i >= |s| then Undefined
    else if NatToString(i) == k then Str([s[i]])
    else CharAt(s, k, i + 1)
  }

  /** The (key, value) pairs a `for ... in` loop visits: an object's own keys, an array's or string's indices, nothing for other values. */
  function ForIn(v: JsValue): (r: seq<(string, JsValue)>)
    ensures v.Obj? ==> r == v.fields
    ensures v.List? ==> |r| == |v.items|
    ensures v.Str? ==> |r| == |v.s|
    ensures !v.Obj? && !v.List? && !v.Str? ==> r == []
  {
    match v
    case Obj(fields) => fields
    case List(items) => seq(|items|, i requires 0 <= i < |items| => (NatToString(i), Str(items[i])))
    case Str(s) => seq(|s|, i requires 0 <= i < |s| => (NatToString(i), Str([s[i]])))
    case _ => []
  }
}
