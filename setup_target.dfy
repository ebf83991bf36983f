/**
 * The Rust text of the target crate (src/services/projectCreation/rust/setupTargetDir.ts):
 * parameter types for event outputs, the parameter lists of event functions,
 * the grouping of generated entries into one function per key, the library
 * and module dependency lines of Cargo.toml, and the choice of exit flag and
 * event loop. The files themselves are not written here.
 */
module SetupTarget {
  import opened Wrappers
  import opened Js
  import opened JsText
  import opened Types
  import opened User

  // ---------------------------------------------------------------------
  // convertToFunctionType
  // ---------------------------------------------------------------------

  const UnsupportedType := "Unsupported or invalid type for conversion to function type"

  /** `convertToFunctionType`: `String`, `bool`, or the type's first letter followed by its size. */
  function ConvertToFunctionType(t: JsValue): Result<string, string>
  {
    var ty := Get(t, "type");
    if ty == Str("string") then Ok("String")
    else if ty == Str("bool") then Ok("bool")
    else if ty == Str("int") || ty == Str("uint") || ty == Str("float") then Ok([ty.s[0]] + ToStr(Get(t, "size")))
    else Err(UnsupportedType)
  }

  /** The Rust type a legal value type stands for. */
  function RustType(vt: ValueType): string
  {
    var size := vt.size.GetOr("");
    if vt.typeName == "string" then "String"
    else if vt.typeName == "bool" then "bool"
    else if vt.typeName == "int" then "i" + size
    else if vt.typeName == "uint" then "u" + size
    else "f" + size
  }

  /** Every legal value type converts, to its Rust type. */
  lemma ConvertLegal(vt: ValueType)
    requires Legal(vt)
    ensures ConvertToFunctionType(ToJs(vt)) == Ok(RustType(vt))
  {
  }

  /** Different legal value types get different Rust types. */
  lemma RustTypeInjective(a: ValueType, b: ValueType)
    requires Legal(a) && Legal(b) && RustType(a) == RustType(b)
    ensures a == b
  {
    var ra, rb := RustType(a), RustType(b);
    assert ra[0] == rb[0];
    if a.typeName in {"int", "uint", "float"} {
      assert ra[1..] == a.size.value;
      assert rb[1..] == b.size.value;
    }
  }

  /** No array index is a word with letters in it. */
  lemma {:induction false} NoIndexNamed(s: string, items: seq<string>, k: string, i: nat)
    requires exists j :: 0 <= j < |k| && !('0' <= k[j] <= '9')
    ensures CharAt(s, k, i) == Undefined
    ensures ElementAt(items, k, i) == Undefined
    decreases |s| + |items| - i
  {
    if i < |s| || i < |items| {
      var j :| 0 <= j < |k| && !('0' <= k[j] <= '9');
      assert forall m :: 0 <= m < |NatToString(i)| ==> '0' <= NatToString(i)[m] <= '9';
      assert NatToString(i) != k;
      NoIndexNamed(s, items, k, i + 1);
    }
  }

  /** A value that is not a plain object has no type to convert. */
  lemma ConvertNeedsObject(t: JsValue)
    requires !t.Obj?
    ensures ConvertToFunctionType(t) == Err(UnsupportedType)
  {
    assert !('0' <= "type"[0] <= '9');
    match t
    case Str(s) => NoIndexNamed(s, [], "type", 0);
    case List(items) => NoIndexNamed("", items, "type", 0);
    case _ =>
  }

  // ---------------------------------------------------------------------
  // generateEventParameters
  // ---------------------------------------------------------------------

  /** The JavaScript value of an event output: the value type's object, or the object of named value types. */
  function OutputValue(o: OutputResult): (v: JsValue)
    ensures o.Multi? ==> v.Obj? && |v.fields| == |o.entries|
  {
    match o
    case Single(obj) => obj
    case Multi(es) => Obj(seq(|es|, i requires 0 <= i < |es| => (es[i].0, ToJs(es[i].1))))
  }

  /** `typeof v === "object" && v !== null`. */
  predicate IsObject(v: JsValue)
  {
    v.Obj? || v.List?
  }

  /** One parameter `name: T, `. */
  function Param(name: string, t: JsValue): Result<string, string>
  {
    var ty :- ConvertToFunctionType(t);
    Ok(name + ": " + ty + ", ")
  }

  /** The inner loop: `outputName__subName: T, ` for each entry from `j` on, appended to `acc`. */
  function SubParams(outputName: string, subs: seq<(string, JsValue)>, j: nat, acc: string): Result<string, string>
    requires j <= |subs|
    decreases |subs| - j
  {
    if j == |subs| then Ok(acc)
    else match Param(outputName + "__" + subs[j].0, subs[j].1)
      case Err(e) => Err(e)
      case Ok(p) => SubParams(outputName, subs, j + 1, acc + p)
  }

  /** One output as the source treats it: every object iterates its entries, anything else is one parameter. */
  function OutputParamsAsWritten(acc: string, outputName: string, v: JsValue): Result<string, string>
  {
    if IsObject(v) then SubParams(outputName, ForIn(v), 0, acc)
    else match Param(outputName, v)
      case Err(e) => Err(e)
      case Ok(p) => Ok(acc + p)
  }

  function ParamsAsWrittenGo(outputs: seq<(string, OutputResult)>, i: nat, acc: string): Result<string, string>
    requires i <= |outputs|
    decreases |outputs| - i
  {
    if i == |outputs| then Ok(acc)
    else match OutputParamsAsWritten(acc, outputs[i].0, OutputValue(outputs[i].1))
      case Err(e) => Err(e)
      case Ok(a) => ParamsAsWrittenGo(outputs, i + 1, a)
  }

  /** `generateEventParameters` as written. */
  function EventParametersAsWritten(outputs: seq<(string, OutputResult)>): Result<string, string>
  {
    ParamsAsWrittenGo(outputs, 0, "")
  }

  /**
   * As written, a single output, which is itself a value-type object, is
   * taken apart entry by entry, and converting its `type` string fails: an
   * event whose first output is a single value type has no parameter list.
   */
  lemma SingleOutputRejectedAsWritten(outputName: string, vt: ValueType, rest: seq<(string, OutputResult)>)
    ensures EventParametersAsWritten([(outputName, Single(ToJs(vt)))] + rest) == Err(UnsupportedType)
  {
    var outputs := [(outputName, Single(ToJs(vt)))] + rest;
    ConvertNeedsObject(Str(vt.typeName));
    assert ForIn(ToJs(vt))[0] == ("type", Str(vt.typeName));
    assert OutputParamsAsWritten("", outputName, OutputValue(outputs[0].1)) == Err(UnsupportedType);
  }

  /** One output as intended: a map of named value types iterates its entries, a single value type is one parameter. */
  function OutputParams(acc: string, outputName: string, o: OutputResult): Result<string, string>
  {
    match o
    case Multi(_) => SubParams(outputName, ForIn(OutputValue(o)), 0, acc)
    case Single(obj) =>
      match Param(outputName, obj)
      case Err(e) => Err(e)
      case Ok(p) => Ok(acc + p)
  }

  function ParamsGo(outputs: seq<(string, OutputResult)>, i: nat, acc: string): Result<string, string>
    requires i <= |outputs|
    decreases |outputs| - i
  {
    if i == |outputs| then Ok(acc)
    else match OutputParams(acc, outputs[i].0, outputs[i].1)
      case Err(e) => Err(e)
      case Ok(a) => ParamsGo(outputs, i + 1, a)
  }

  /** The parameter list of an event function. */
  function EventParameters(outputs: seq<(string, OutputResult)>): Result<string, string>
  {
    ParamsGo(outputs, 0, "")
  }

  /** The two readings agree whenever every output is a map of named value types. */
  lemma {:induction false} AsWrittenAgreesOnMultiOutputs(outputs: seq<(string, OutputResult)>, i: nat, acc: string)
    requires i <= |outputs|
    requires forall k :: 0 <= k < |outputs| ==> outputs[k].1.Multi?
    ensures ParamsAsWrittenGo(outputs, i, acc) == ParamsGo(outputs, i, acc)
    decreases |outputs| - i
  {
    if i < |outputs| {
      var a := OutputParams(acc, outputs[i].0, outputs[i].1);
      assert OutputParamsAsWritten(acc, outputs[i].0, OutputValue(outputs[i].1)) == a;
      if a.Ok? {
        AsWrittenAgreesOnMultiOutputs(outputs, i + 1, a.value);
      }
    }
  }

  /** The `params +=` loops. */
  method GenerateEventParameters(outputs: seq<(string, OutputResult)>) returns (r: Result<string, string>)
    ensures r == EventParameters(outputs)
  {
    var params := "";
    var i := 0;
    while i < |outputs|
      invariant 0 <= i <= |outputs|
      invariant ParamsGo(outputs, i, params) == EventParameters(outputs)
    {
      var outputName := outputs[i].0;
      var output := outputs[i].1;
      if output.Multi? {
        var subs := ForIn(OutputValue(output));
        var start := params;
        var j := 0;
        while j < |subs|
          invariant 0 <= j <= |subs|
          invariant SubParams(outputName, subs, j, params) == SubParams(outputName, subs, 0, start)
        {
          var p := Param(outputName + "__" + subs[j].0, subs[j].1);
          if p.Err? {
            return Err(p.error);
          }
          params := params + p.value;
          j := j + 1;
        }
      } else {
        var p := Param(outputName, output.obj);
        if p.Err? {
          return Err(p.error);
        }
        params := params + p.value;
      }
      i := i + 1;
    }
    return Ok(params);
  }

  // The parameters an event function declares, as (name, value) pairs.

  function Prefixed(outputName: string, subs: seq<(string, JsValue)>): (r: seq<(string, JsValue)>)
    ensures |r| == |subs|
    ensures forall k :: 0 <= k < |subs| ==> r[k] == (outputName + "__" + subs[k].0, subs[k].1)
  {
    if subs == [] then [] else [(outputName + "__" + subs[0].0, subs[0].1)] + Prefixed(outputName, subs[1..])
  }

  /** Every declared parameter, in order: a single output under its own name, each entry of a map as `outputName__key`. */
  function Declared(outputs: seq<(string, OutputResult)>): seq<(string, JsValue)>
  {
    if outputs == [] then []
    else
      (match outputs[0].1
       case Single(obj) => [(outputs[0].0, obj)]
       case Multi(_) => Prefixed(outputs[0].0, ForIn(OutputValue(outputs[0].1)))) +
      Declared(outputs[1..])
  }

  /** The parameters of a declaration list appended to `acc`, failing at the first unconvertible one. */
  function ParamsOf(ds: seq<(string, JsValue)>, acc: string): Result<string, string>
  {
    if ds == [] then Ok(acc)
    else match Param(ds[0].0, ds[0].1)
      case Err(e) => Err(e)
      case Ok(p) => ParamsOf(ds[1..], acc + p)
  }

  lemma {:induction false} ParamsOfAppend(a: seq<(string, JsValue)>, b: seq<(string, JsValue)>, acc: string)
    ensures ParamsOf(a + b, acc) == match ParamsOf(a, acc) case Err(e) => Err(e) case Ok(x) => ParamsOf(b, x)
  {
    if a == [] {
      assert a + b == b;
    } else {
      assert (a + b)[0] == a[0];
      assert (a + b)[1..] == a[1..] + b;
      if Param(a[0].0, a[0].1).Ok? {
        ParamsOfAppend(a[1..], b, acc + Param(a[0].0, a[0].1).value);
      }
    }
  }

  lemma {:induction false} SubParamsIsParamsOf(outputName: string, subs: seq<(string, JsValue)>, j: nat, acc: string)
    requires j <= |subs|
    ensures SubParams(outputName, subs, j, acc) == ParamsOf(Prefixed(outputName, subs)[j..], acc)
    decreases |subs| - j
  {
    if j < |subs| {
      var p := Param(outputName + "__" + subs[j].0, subs[j].1);
      assert Prefixed(outputName, subs)[j..][1..] == Prefixed(outputName, subs)[j + 1..];
      if p.Ok? {
        SubParamsIsParamsOf(outputName, subs, j + 1, acc + p.value);
      }
    }
  }

  lemma {:induction false} ParamsGoIsParamsOf(outputs: seq<(string, OutputResult)>, i: nat, acc: string)
    requires i <= |outputs|
    ensures ParamsGo(outputs, i, acc) == ParamsOf(Declared(outputs[i..]), acc)
    decreases |outputs| - i
  {
    if i < |outputs| {
      var rest := outputs[i..];
      assert rest[0] == outputs[i] && rest[1..] == outputs[i + 1..];
      var head := match outputs[i].1
        case Single(obj) => [(outputs[i].0, obj)]
        case Multi(_) => Prefixed(outputs[i].0, ForIn(OutputValue(outputs[i].1)));
      assert Declared(rest) == head + Declared(outputs[i + 1..]);
      ParamsOfAppend(head, Declared(outputs[i + 1..]), acc);
      if outputs[i].1.Multi? {
        SubParamsIsParamsOf(outputs[i].0, ForIn(OutputValue(outputs[i].1)), 0, acc);
        assert Prefixed(outputs[i].0, ForIn(OutputValue(outputs[i].1)))[0..] == head;
      }
      var a := OutputParams(acc, outputs[i].0, outputs[i].1);
      if a.Ok? {
        ParamsGoIsParamsOf(outputs, i + 1, a.value);
      }
    }
  }

  /** The text of the declared parameters, each `name: T, `, assuming all convert. */
  function ParamText(ds: seq<(string, JsValue)>): string
    requires forall k :: 0 <= k < |ds| ==> ConvertToFunctionType(ds[k].1).Ok?
  {
    if ds == [] then "" else ds[0].0 + ": " + ConvertToFunctionType(ds[0].1).value + ", " + ParamText(ds[1..])
  }

  lemma {:induction false} ParamsOfRules(ds: seq<(string, JsValue)>, acc: string)
    ensures ParamsOf(ds, acc).Ok? <==> forall k :: 0 <= k < |ds| ==> ConvertToFunctionType(ds[k].1).Ok?
    ensures ParamsOf(ds, acc).Err? ==> ParamsOf(ds, acc) == Err(UnsupportedType)
    ensures ParamsOf(ds, acc).Ok? ==> ParamsOf(ds, acc).value == acc + ParamText(ds)
  {
    if ds != [] {
      var p := Param(ds[0].0, ds[0].1);
      if p.Ok? {
        ParamsOfRules(ds[1..], acc + p.value);
        assert forall k :: 1 <= k < |ds| ==> ds[1..][k - 1] == ds[k];
        if ParamsOf(ds, acc).Ok? {
          ConcatAssoc(acc, p.value, ParamText(ds[1..]));
        }
      }
    }
  }

  /**
   * The parameter list declares every single output under its name and
   * every entry of a map output as `outputName__key`, in order; it exists
   * exactly when each of them converts.
   */
  lemma EventParametersDeclared(outputs: seq<(string, OutputResult)>)
    ensures EventParameters(outputs).Ok? <==> forall k :: 0 <= k < |Declared(outputs)| ==> ConvertToFunctionType(Declared(outputs)[k].1).Ok?
    ensures EventParameters(outputs).Err? ==> EventParameters(outputs) == Err(UnsupportedType)
    ensures EventParameters(outputs).Ok? ==> EventParameters(outputs).value == ParamText(Declared(outputs))
  {
    ParamsGoIsParamsOf(outputs, 0, "");
    assert outputs[0..] == outputs;
    ParamsOfRules(Declared(outputs), "");
  }

  /** With the correction, an event with one single legal output gets the one parameter `outputName: T, `. */
  lemma SingleOutputParameter(outputName: string, vt: ValueType)
    requires Legal(vt)
    ensures EventParameters([(outputName, Single(ToJs(vt)))]) == Ok(outputName + ": " + RustType(vt) + ", ")
  {
    ConvertLegal(vt);
    var outputs := [(outputName, Single(ToJs(vt)))];
    var p := outputName + ": " + RustType(vt) + ", ";
    assert Param(outputName, ToJs(vt)) == Ok(p);
    assert "" + p == p;
    assert OutputParams("", outputName, outputs[0].1) == Ok(p);
    assert ParamsGo(outputs, 1, outputName + ": " + RustType(vt) + ", ") == Ok(outputName + ": " + RustType(vt) + ", ");
  }

  // ---------------------------------------------------------------------
  // generateRustEvents
  // ---------------------------------------------------------------------

  /** What `allEvents` holds for one key: its code pieces and the outputs of its first occurrence. */
  datatype EventGroup = EventGroup(codes: seq<string>, outputs: seq<(string, OutputResult)>)

  function KeysOf(entries: seq<GeneratedEntry>): (r: seq<string>)
    ensures |r| == |entries|
    ensures forall i :: 0 <= i < |entries| ==> r[i] == entries[i].key
  {
    if entries == [] then [] else KeysOf(entries[..|entries| - 1]) + [entries[|entries| - 1].key]
  }

  /** The code pieces of the entries under `k`, in program order. */
  function CodesOf(entries: seq<GeneratedEntry>, k: string): seq<string>
  {
    if entries == [] then []
    else CodesOf(entries[..|entries| - 1], k) + if entries[|entries| - 1].key == k then [entries[|entries| - 1].code] else []
  }

  /** The outputs of the first entry under `k`. */
  function FirstOutputs(entries: seq<GeneratedEntry>, k: string): (r: Option<seq<(string, OutputResult)>>)
    ensures r.Some? <==> k in KeysOf(entries)
  {
    if entries == [] then None
    else
      var f := FirstOutputs(entries[..|entries| - 1], k);
      if f.Some? then f else if entries[|entries| - 1].key == k then Some(entries[|entries| - 1].outputs) else None
  }

  function GroupOf(entries: seq<GeneratedEntry>, k: string): EventGroup
  {
    EventGroup(CodesOf(entries, k), FirstOutputs(entries, k).GetOr([]))
  }

  /** A key is in the first-occurrence order exactly when some entry carries it. */
  lemma {:induction false} DedupMembers(ks: seq<string>)
    ensures forall k :: k in Dedup(ks) <==> k in ks
  {
    if ks != [] {
      var init := ks[..|ks| - 1];
      DedupMembers(init);
      assert ks == init + [ks[|ks| - 1]];
    }
  }

  /** The first-occurrence order lists each key once. */
  lemma {:induction false} DedupDistinct(ks: seq<string>)
    ensures forall i, j :: 0 <= i < j < |Dedup(ks)| ==> Dedup(ks)[i] != Dedup(ks)[j]
  {
    if ks != [] {
      var init := ks[..|ks| - 1];
      DedupDistinct(init);
    }
  }

  lemma KeysOfSnoc(entries: seq<GeneratedEntry>, e: GeneratedEntry)
    ensures KeysOf(entries + [e]) == KeysOf(entries) + [e.key]
  {
    assert (entries + [e])[..|entries|] == entries;
  }

  /** Adding one entry extends its key's group, or starts it, and leaves the other groups alone. */
  lemma GroupOfSnoc(entries: seq<GeneratedEntry>, e: GeneratedEntry, k: string)
    ensures GroupOf(entries + [e], k) ==
      if e.key != k then GroupOf(entries, k)
      else if k in KeysOf(entries) then GroupOf(entries, k).(codes := GroupOf(entries, k).codes + [e.code])
      else EventGroup([e.code], e.outputs)
  {
    var all := entries + [e];
    assert all[..|all| - 1] == entries && all[|all| - 1] == e;
    assert CodesOf(all, k) == CodesOf(entries, k) + if e.key == k then [e.code] else [];
    var f := FirstOutputs(entries, k);
    assert FirstOutputs(all, k) == if f.Some? then f else if e.key == k then Some(e.outputs) else None;
    if e.key == k && k !in KeysOf(entries) {
      CodesAbsent(entries, k);
    }
  }

  /** After the first `i` entries: the keys in first-occurrence order, and each key's group so far. */
  ghost predicate GroupedUpTo(entries: seq<GeneratedEntry>, i: nat, order: seq<string>, groups: map<string, EventGroup>)
    requires i <= |entries|
  {
    order == Dedup(KeysOf(entries[..i])) &&
    (forall k :: k in groups <==> k in KeysOf(entries[..i])) &&
    (forall k :: k in groups ==> groups[k] == GroupOf(entries[..i], k))
  }

  /** `allEvents` after one more entry: its key's group is created if needed, then gets the entry's code. */
  function AddEntry(order: seq<string>, groups: map<string, EventGroup>, e: GeneratedEntry): (r: (seq<string>, map<string, EventGroup>))
  {
    var g := if e.key !in groups then groups[e.key := EventGroup([], e.outputs)] else groups;
    (if e.key !in groups then order + [e.key] else order, g[e.key := g[e.key].(codes := g[e.key].codes + [e.code])])
  }

  /** Adding entry `i` keeps the grouping invariant. */
  lemma GroupStep(entries: seq<GeneratedEntry>, i: nat, order: seq<string>, groups: map<string, EventGroup>)
    requires i < |entries| && GroupedUpTo(entries, i, order, groups)
    ensures GroupedUpTo(entries, i + 1, AddEntry(order, groups, entries[i]).0, AddEntry(order, groups, entries[i]).1)
  {
    var e, p := entries[i], entries[..i];
    assert entries[..i + 1] == p + [e];
    var r := AddEntry(order, groups, e);
    KeysOfSnoc(p, e);
    DedupMembers(KeysOf(p));
    assert r.0 == Dedup(KeysOf(p + [e])) by {
      DedupSnoc(KeysOf(p), e.key);
    }
    assert forall k :: k in r.1 <==> k in KeysOf(p + [e]);
    forall k | k in r.1 ensures r.1[k] == GroupOf(p + [e], k) {
      GroupOfSnoc(p, e, k);
    }
  }

  /** The loop that fills `allEvents`: keys in first-occurrence order, each key's code pieces, and its first outputs. */
  method GroupEvents(entries: seq<GeneratedEntry>) returns (order: seq<string>, groups: map<string, EventGroup>)
    ensures order == Dedup(KeysOf(entries))
    ensures forall k :: k in groups <==> k in order
    ensures forall k :: k in groups ==> groups[k] == GroupOf(entries, k)
  {
    order := [];
    groups := map[];
    var i := 0;
    while i < |entries|
      invariant 0 <= i <= |entries|
      invariant GroupedUpTo(entries, i, order, groups)
    {
      var e := entries[i];
      GroupStep(entries, i, order, groups);
      if e.key !in groups {
        groups := groups[e.key := EventGroup([], e.outputs)];
        order := order + [e.key];
      }
      groups := groups[e.key := groups[e.key].(codes := groups[e.key].codes + [e.code])];
      i := i + 1;
    }
    assert entries[..i] == entries;
    DedupMembers(KeysOf(entries));
  }

  const SpawnOpen := "std::thread::spawn(|| {"
  const SpawnClose := "});\n"

  /** The body of an event function: one piece as is, several each on its own thread. */
  function EventBody(codes: seq<string>): (r: string)
    ensures |codes| == 1 ==> r == codes[0]
  {
    if |codes| == 1 then codes[0] else Concat(seq(|codes|, i requires 0 <= i < |codes| => SpawnOpen + codes[i] + SpawnClose))
  }

  lemma {:induction false} ConcatAround(parts: seq<string>, i: nat)
    requires i < |parts|
    ensures Concat(parts) == Concat(parts[..i]) + parts[i] + Concat(parts[i + 1..])
  {
    if i > 0 {
      ConcatAround(parts[1..], i - 1);
      assert parts[1..][..i - 1] == parts[1..i];
      assert parts[1..][i..] == parts[i + 1..];
      assert parts[..i] == [parts[0]] + parts[1..i];
      assert Concat(parts[..i]) == parts[0] + Concat(parts[1..i]);
    }
  }

  /** With several pieces, every piece runs inside its own spawned thread. */
  lemma SeveralPiecesSpawned(codes: seq<string>, i: nat)
    requires |codes| != 1 && i < |codes|
    ensures Includes(EventBody(codes), SpawnOpen + codes[i] + SpawnClose)
  {
    var parts := seq(|codes|, i requires 0 <= i < |codes| => SpawnOpen + codes[i] + SpawnClose);
    ConcatAround(parts, i);
    IncludesMiddle(Concat(parts[..i]), parts[i], Concat(parts[i + 1..]));
  }

  /** `fn name(params) {\n body \n}`. */
  function EventFunction(name: string, g: EventGroup): Result<string, string>
  {
    var params :- EventParameters(g.outputs);
    Ok("fn " + name + "(" + params + ") {\n " + EventBody(g.codes) + " \n}")
  }

  /** The functions of the keys from `i` on, failing at the first whose parameters fail. */
  function FunctionsGo(order: seq<string>, groups: map<string, EventGroup>, i: nat): Result<seq<string>, string>
    requires i <= |order| && forall k :: k in order ==> k in groups
    decreases |order| - i
  {
    if i == |order| then Ok([])
    else
      var f :- EventFunction(order[i], groups[order[i]]);
      var rest :- FunctionsGo(order, groups, i + 1);
      Ok([f] + rest)
  }

  /** The map over `allEvents` and the join: the functions, one per line. */
  function RenderEvents(order: seq<string>, groups: map<string, EventGroup>): Result<string, string>
    requires forall k :: k in order ==> k in groups
  {
    var fs :- FunctionsGo(order, groups, 0);
    Ok(Join(fs, "\n"))
  }

  /** What `allEvents` holds once every entry was added. */
  function Groups(entries: seq<GeneratedEntry>): (r: map<string, EventGroup>)
    ensures forall k :: k in r <==> k in KeysOf(entries)
  {
    DedupMembers(KeysOf(entries));
    map k | k in Dedup(KeysOf(entries)) :: GroupOf(entries, k)
  }

  /** `generateRustEvents`, on values. */
  function RustEvents(entries: seq<GeneratedEntry>): Result<string, string>
  {
    DedupMembers(KeysOf(entries));
    RenderEvents(Dedup(KeysOf(entries)), Groups(entries))
  }

  /** `generateRustEvents`: the grouping loop, then one function per key in first-occurrence order. */
  method GenerateRustEvents(entries: seq<GeneratedEntry>) returns (r: Result<string, string>)
    ensures r == RustEvents(entries)
  {
    var order, groups := GroupEvents(entries);
    DedupMembers(KeysOf(entries));
    assert groups == Groups(entries);
    r := RenderEvents(order, groups);
  }

  /** Entries that all share one key make one function body holding all their code, in order. */
  lemma {:induction false} OneKeyOneGroup(entries: seq<GeneratedEntry>, k: string)
    requires forall i :: 0 <= i < |entries| ==> entries[i].key == k
    ensures CodesOf(entries, k) == seq(|entries|, i requires 0 <= i < |entries| => entries[i].code)
    ensures entries != [] ==> Dedup(KeysOf(entries)) == [k]
  {
    if entries != [] {
      var init := entries[..|entries| - 1];
      OneKeyOneGroup(init, k);
      DedupSnoc(KeysOf(init), k);
      assert KeysOf(entries) == KeysOf(init) + [k];
      if init == [] {
        assert KeysOf(init) == [];
      }
    }
  }

  /** Entries with distinct keys are not grouped: each key keeps its entry's code and outputs. */
  lemma {:induction false} DistinctKeysApart(entries: seq<GeneratedEntry>, i: nat)
    requires forall a, b :: 0 <= a < b < |entries| ==> entries[a].key != entries[b].key
    requires i < |entries|
    ensures GroupOf(entries, entries[i].key) == EventGroup([entries[i].code], entries[i].outputs)
  {
    var last := |entries| - 1;
    var init := entries[..last];
    if i == last {
      assert entries[i].key !in KeysOf(init);
      CodesAbsent(init, entries[i].key);
    } else {
      DistinctKeysApart(init, i);
    }
  }

  lemma {:induction false} CodesAbsent(entries: seq<GeneratedEntry>, k: string)
    requires k !in KeysOf(entries)
    ensures CodesOf(entries, k) == []
  {
    if entries != [] {
      var init := entries[..|entries| - 1];
      assert KeysOf(entries) == KeysOf(init) + [entries[|entries| - 1].key];
      CodesAbsent(init, k);
    }
  }

  /** No generated entry, no event function. */
  lemma NoEntriesNoFunctions()
    ensures RustEvents([]) == Ok("")
  {
  }

  // ---------------------------------------------------------------------
  // Cargo.toml dependencies
  // ---------------------------------------------------------------------

  /** A library's `scope` after the schema: one scope name or a list of them. */
  datatype Scope = OneScope(name: string) | Scopes(names: seq<string>)

  /** A library entry of config.rs.json (the flags Cargo.toml does not receive are omitted). */
  datatype Library = Library(version: Option<string>, git: Option<string>, scope: Scope, features: Option<seq<string>>)

  /** `cfg.scope.includes("target")`: a substring test on one name, membership on a list. */
  predicate InTarget(lib: Library)
  {
    match lib.scope
    case OneScope(s) => Includes(s, "target")
    case Scopes(names) => "target" in names
  }

  function Quote(s: string): string
  {
    "\"" + s + "\""
  }

  /** The dependency line of one library: its version if it has one, its git source otherwise, and its quoted features. */
  function LibraryLine(name: string, lib: Library): (r: string)
  {
    name + " = { " + LibrarySource(lib) + ", features = [" + FeatureList(lib.features.GetOr([])) + "] }"
  }

  /** The source part of a dependency line. */
  function LibrarySource(lib: Library): string
  {
    if lib.version.Some? && lib.version.value != "" then "version = " + Quote(lib.version.value)
    else "git = " + Quote(if lib.git.Some? then lib.git.value else "undefined")
  }

  /** The quoted features, comma-separated. */
  function FeatureList(features: seq<string>): string
  {
    Join(seq(|features|, i requires 0 <= i < |features| => Quote(features[i])), ", ")
  }

  /** The two lines that differ only in their source show which source was chosen. */
  lemma VersionPreferred(name: string, v: string, git: Option<string>, scope: Scope, features: Option<seq<string>>)
    requires v != ""
    ensures LibraryLine(name, Library(Some(v), git, scope, features)) == LibraryLine(name, Library(Some(v), None, scope, features))
    ensures StartsWith(LibraryLine(name, Library(Some(v), git, scope, features)), name + " = { version = " + Quote(v))
  {
    var lib := Library(Some(v), git, scope, features);
    assert LibrarySource(lib) == LibrarySource(Library(Some(v), None, scope, features)) == "version = " + Quote(v);
    var head := name + " = { version = " + Quote(v);
    var tail := ", features = [" + FeatureList(features.GetOr([])) + "] }";
    assert name + " = { " + ("version = " + Quote(v)) == head;
    assert LibraryLine(name, lib) == head + tail;
    assert (head + tail)[..|head|] == head;
  }

  /** The lines for one module's libraries: those in the target scope, in order. */
  function ModuleLibraryLines(libs: seq<(string, Library)>): (r: seq<string>)
    ensures |r| <= |libs|
  {
    if libs == [] then []
    else (if InTarget(libs[0].1) then [LibraryLine(libs[0].0, libs[0].1)] else []) + ModuleLibraryLines(libs[1..])
  }

  /** Each line belongs to a library of the target scope, and each such library has its line. */
  lemma {:induction false} LibraryLinesExact(libs: seq<(string, Library)>)
    ensures forall i :: 0 <= i < |libs| && InTarget(libs[i].1) ==> LibraryLine(libs[i].0, libs[i].1) in ModuleLibraryLines(libs)
    ensures forall l :: l in ModuleLibraryLines(libs) ==> exists i :: 0 <= i < |libs| && InTarget(libs[i].1) && l == LibraryLine(libs[i].0, libs[i].1)
  {
    if libs != [] {
      LibraryLinesExact(libs[1..]);
      var head := if InTarget(libs[0].1) then [LibraryLine(libs[0].0, libs[0].1)] else [];
      forall l | l in ModuleLibraryLines(libs)
        ensures exists i :: 0 <= i < |libs| && InTarget(libs[i].1) && l == LibraryLine(libs[i].0, libs[i].1)
      {
        if l !in head {
          var j :| 0 <= j < |libs[1..]| && InTarget(libs[1..][j].1) && l == LibraryLine(libs[1..][j].0, libs[1..][j].1);
          assert libs[j + 1] == libs[1..][j];
        }
      }
      forall i | 0 <= i < |libs| && InTarget(libs[i].1) ensures LibraryLine(libs[i].0, libs[i].1) in ModuleLibraryLines(libs) {
        if i > 0 {
          assert libs[i] == libs[1..][i - 1];
        }
      }
    }
  }

  /** `getDependentLibraries`: every module's lines, flattened, one per line; a module without libraries adds none. */
  function DependentLibraries(modules: seq<Option<seq<(string, Library)>>>): string
  {
    Join(AllLibraryLines(modules), "\n")
  }

  function AllLibraryLines(modules: seq<Option<seq<(string, Library)>>>): seq<string>
  {
    if modules == [] then []
    else (if modules[0].Some? then ModuleLibraryLines(modules[0].value) else []) + AllLibraryLines(modules[1..])
  }

  /** Local-only libraries add nothing to Cargo.toml. */
  lemma {:induction false} LocalLibrariesOmitted(modules: seq<Option<seq<(string, Library)>>>)
    requires forall m, i :: 0 <= m < |modules| && modules[m].Some? && 0 <= i < |modules[m].value| ==> !InTarget(modules[m].value[i].1)
    ensures DependentLibraries(modules) == ""
  {
    if modules != [] {
      if modules[0].Some? {
        NoTargetNoLines(modules[0].value);
      }
      forall m, i | 0 <= m < |modules[1..]| && modules[1..][m].Some? && 0 <= i < |modules[1..][m].value|
        ensures !InTarget(modules[1..][m].value[i].1)
      {
        assert modules[1..][m] == modules[m + 1];
      }
      LocalLibrariesOmitted(modules[1..]);
    }
  }

  lemma {:induction false} NoTargetNoLines(libs: seq<(string, Library)>)
    requires forall i :: 0 <= i < |libs| ==> !InTarget(libs[i].1)
    ensures ModuleLibraryLines(libs) == []
  {
    if libs != [] {
      NoTargetNoLines(libs[1..]);
    }
  }

  /** The path dependency of a module that adds files to the local scope. */
  function ModuleLine(name: string): string
  {
    "spirelite_" + name + " = { path = \"../spirelite_" + name + "\" }"
  }

  /** The module list with, for each, whether its config.rs.json has a truthy `addFileToLocalScope`. */
  function ModuleLines(modules: seq<(string, bool)>): (r: seq<string>)
    ensures |r| <= |modules|
    ensures forall l :: l in r ==> exists i :: 0 <= i < |modules| && modules[i].0 != "target" && modules[i].1 && l == ModuleLine(modules[i].0)
  {
    if modules == [] then []
    else
      var rest := ModuleLines(modules[1..]);
      assert forall i :: 0 <= i < |modules[1..]| ==> modules[1..][i] == modules[i + 1];
      (if modules[0].0 != "target" && modules[0].1 then [ModuleLine(modules[0].0)] else []) + rest
  }

  /** `getDependentModules`. */
  function DependentModules(modules: seq<(string, bool)>): string
  {
    Join(ModuleLines(modules), "\n")
  }

  /** Different modules get different lines. */
  lemma ModuleLineInjective(a: string, b: string)
    ensures ModuleLine(a) == ModuleLine(b) ==> a == b
  {
    if ModuleLine(a) == ModuleLine(b) {
      assert |ModuleLine(a)| == 2 * |a| + |ModuleLine("")|;
      assert |ModuleLine(b)| == 2 * |b| + |ModuleLine("")|;
      assert ModuleLine(a)[10..10 + |a|] == a;
      assert ModuleLine(b)[10..10 + |b|] == b;
    }
  }

  /** The target scope never depends on itself. */
  lemma TargetNotItsOwnDependency(modules: seq<(string, bool)>)
    ensures ModuleLine("target") !in ModuleLines(modules)
  {
    forall i | 0 <= i < |modules| && modules[i].0 != "target" ensures ModuleLine(modules[i].0) != ModuleLine("target") {
      ModuleLineInjective(modules[i].0, "target");
    }
  }

  // ---------------------------------------------------------------------
  // The exit strategy
  // ---------------------------------------------------------------------

  const ExitFlag := "target__EXIT"
  const ExitFlagDecl := "static " + ExitFlag + ": std::sync::atomic::AtomicBool = std::sync::atomic::AtomicBool::new(false);"
  const PollingLoop := "loop { if " + ExitFlag + ".load(std::sync::atomic::Ordering::Relaxed) { break; } }"

  /** The exit-flag declaration and the event loop of lib.rs. */
  function ExitStrategy(eventLoop: string): (r: (string, string))
  {
    if eventLoop == "" then (ExitFlagDecl, PollingLoop) else ("", eventLoop)
  }

  /**
   * An empty eventLoop section gets the default loop, which polls the exit
   * flag it also declares; otherwise the section is the loop and no flag
   * is declared.
   */
  lemma ExitStrategyRules(eventLoop: string)
    ensures ExitStrategy(eventLoop).0 != "" <==> eventLoop == ""
    ensures eventLoop != "" ==> ExitStrategy(eventLoop).1 == eventLoop
    ensures eventLoop == "" ==> Includes(ExitStrategy(eventLoop).0, ExitFlag) && Includes(ExitStrategy(eventLoop).1, ExitFlag)
  {
    IncludesMiddle("static ", ExitFlag, ": std::sync::atomic::AtomicBool = std::sync::atomic::AtomicBool::new(false);");
    IncludesMiddle("loop { if ", ExitFlag, ".load(std::sync::atomic::Ordering::Relaxed) { break; } }");
  }
}
