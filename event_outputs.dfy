/**
 * The output type resolver of src/services/conversion/eventOutputs.ts: for
 * each declared output of an event, a value type (or a map of them), from
 * the output's static type or from the event's `resultType` scripts, in one
 * of four ways: static or scripted type, single or `multiple` output.
 *
 * Scripts see the event module's state, the event flags, `stripQuotes` and
 * a reader scoped to the module; the model passes the state and the flags
 * to the `ty` oracle and leaves the two helpers to it.
 */
module EventOutputs {
  import opened Wrappers
  import opened Js
  import opened JsText
  import opened Types
  import opened Defs
  import opened User
  import opened Errors
  import opened Engine

  // ---------------------------------------------------------------------
  // Helpers
  // ---------------------------------------------------------------------

  /** `validateOutputType`: one of the five output type names. */
  function ValidateOutputType(t: JsValue, eventName: string, outputName: string): (r: Result<string, Error>)
    ensures r.Ok? <==> t.Str? && t.s in OutputTypes
    ensures r.Ok? ==> t == Str(r.value)
    ensures r.Err? ==> r.error == InvalidOutputType(eventName, outputName, t)
  {
    if t.Str? && t.s in OutputTypes then Ok(t.s) else Err(InvalidOutputType(eventName, outputName, t))
  }

  /** `validateOutputSize`: one of the integer widths, whatever the type. */
  function ValidateOutputSize(size: JsValue, eventName: string, outputName: string): (r: Result<JsValue, Error>)
    ensures r.Ok? <==> size in IntSizes
    ensures r.Ok? ==> r.value == size
    ensures r.Err? ==> r.error == InvalidOutputSize(eventName, outputName, size)
  {
    if size in IntSizes then Ok(size) else Err(InvalidOutputSize(eventName, outputName, size))
  }

  /** `executeUserScript`: a `resultType` script run with the event module's state and the event flags. */
  function RunScript(env: Env, script: JsValue, st: States, flags: Option<EventFlags>, moduleName: string): Result<JsValue, Error>
  {
    match env.ty(ResultTypeCall(ToStr(script), StateOf(st, moduleName), flags, moduleName))
    case Err(msg) => Err(ScriptThrew(msg))
    case Ok(v) => Ok(v)
  }

  /** The context every scenario shares. */
  datatype Ctx = Ctx(env: Env, moduleName: string, eventName: string, flags: Option<EventFlags>, st: States)
  {
    function Run(script: JsValue): Result<JsValue, Error>
    {
      RunScript(env, script, st, flags, moduleName)
    }
  }

  // ---------------------------------------------------------------------
  // Static type, multiple output
  // ---------------------------------------------------------------------

  /** The loop of `multipleKnownType`: every name gets the validated static pair, which must exist. */
  function KnownGo(names: seq<string>, validated: Option<ValueType>, outputName: string, eventName: string,
                   i: nat, acc: seq<(string, ValueType)>): Result<seq<(string, ValueType)>, Error>
    requires i <= |names|
    decreases |names| - i
  {
    if i == |names| then Ok(acc)
    else
      match validated
      case None => Err(UndeterminedEntryType(names[i], outputName, eventName))
      case Some(vt) => KnownGo(names, validated, outputName, eventName, i + 1, Put(acc, names[i], vt))
  }

  /** `multipleKnownType`: the script names the entries; the static type and width apply to each. */
  function MultipleKnown(c: Ctx, outputName: string, o: OutputSpec, section: Option<ResultTypeSection>): Result<OutputResult, Error>
  {
    if section.None? then Err(MultipleNeedsResultType(outputName, c.eventName))
    else
      var names :- c.Run(section.value.typeScript);
      if !names.List? then Err(NamesNotAList(outputName, c.eventName))
      else
        var _ :- ValidateOutputType(o.TypeValue(), c.eventName, outputName);
        var entries :- KnownGo(names.items, GetValidatedOutput(o.TypeValue(), o.Size()), outputName, c.eventName, 0, []);
        Ok(Multi(entries))
  }

  // ---------------------------------------------------------------------
  // Static type, single output
  // ---------------------------------------------------------------------

  /** `notMultipleKnownType`: the output's own object, when it is a ResultValueType. */
  function SingleKnown(o: OutputSpec): Result<OutputResult, Error>
  {
    if IsResultValueType(Obj(o.attrs)) then Ok(Single(Obj(o.attrs))) else Err(NotAValidOutputType(o.attrs))
  }

  // ---------------------------------------------------------------------
  // Scripted type, multiple output
  // ---------------------------------------------------------------------

  /** One entry of `multipleUnknownType`: the static width first, then the width the size map gives. */
  function UnknownEntry(t: JsValue, key: string, specSize: JsValue, sizes: JsValue, eventName: string, outputName: string): Result<ValueType, Error>
  {
    var _ :- ValidateOutputType(t, eventName, outputName);
    match GetValidatedOutput(t, specSize)
    case Some(vt) => Ok(vt)
    case None =>
      if !Truthy(sizes) then Err(CannotDetermineSize)
      else
        var size :- ValidateOutputSize(Get(sizes, key), eventName, outputName);
        match GetValidatedOutput(t, size)
        case Some(vt) => Ok(vt)
        case None => Err(CannotDetermineSize)
  }

  /** The per-key step of the `for … in` loop of `multipleUnknownType`. */
  function UnknownStep(specSize: JsValue, sizes: JsValue, eventName: string, outputName: string): (string, JsValue) -> Result<ValueType, Error>
  {
    (key, t) => UnknownEntry(t, key, specSize, sizes, eventName, outputName)
  }

  /** `multipleUnknownType`: the type script gives a map of types; the size script, when present, a map of widths. */
  function MultipleUnknown(c: Ctx, outputName: string, o: OutputSpec, section: ResultTypeSection): Result<OutputResult, Error>
  {
    var types :- c.Run(section.typeScript);
    if !Truthy(types) then Err(ResultTypesRequired)
    else
      var sizes :- if !Truthy(section.sizeScript) then Ok(Undefined) else c.Run(section.sizeScript);
      var entries :- PutEach(ForIn(types), UnknownStep(o.Size(), sizes, c.eventName, outputName), 0, []);
      Ok(Multi(entries))
  }

  // ---------------------------------------------------------------------
  // Scripted type, single output
  // ---------------------------------------------------------------------

  /** The width of `notMultipleUnknownType`: the static size if set, else none without a size script, else the script's validated answer. */
  function UnknownSize(c: Ctx, outputName: string, o: OutputSpec, section: ResultTypeSection): Result<JsValue, Error>
  {
    if Truthy(o.Size()) then Ok(o.Size())
    else if !Truthy(section.sizeScript) then Ok(Undefined)
    else
      var size :- c.Run(section.sizeScript);
      ValidateOutputSize(size, c.eventName, outputName)
  }

  /** `notMultipleUnknownType`. */
  function SingleUnknown(c: Ctx, outputName: string, o: OutputSpec, section: ResultTypeSection): Result<OutputResult, Error>
  {
    var t :- c.Run(section.typeScript);
    var _ :- ValidateOutputType(t, c.eventName, outputName);
    var size :- UnknownSize(c, outputName, o, section);
    match GetValidatedOutput(t, size)
    case None => Err(UndeterminedOutputType(c.eventName, outputName))
    case Some(vt) => Ok(Single(ToJs(vt)))
  }

  // ---------------------------------------------------------------------
  // The dispatch and the loop over the outputs
  // ---------------------------------------------------------------------

  /** `returnTypeForOutput`. */
  function ReturnTypeForOutput(c: Ctx, outputName: string, o: OutputSpec, section: Option<ResultTypeSection>): Result<OutputResult, Error>
  {
    if Truthy(o.TypeValue()) then
      if Truthy(o.Multiple()) then MultipleKnown(c, outputName, o, section) else SingleKnown(o)
    else if section.None? then Err(ResultTypeNotProvided(outputName, c.eventName))
    else if Truthy(o.Multiple()) then MultipleUnknown(c, outputName, o, section.value)
    else SingleUnknown(c, outputName, o, section.value)
  }

  /** `eventDef.outputs`, read by a loop that visits nothing when it is undefined. */
  function OutputsOf(d: BlockDef): seq<(string, OutputSpec)>
  {
    if d.Event? then d.outputs else []
  }

  /** `eventDef.resultType?.[outputName]`. */
  function SectionFor(d: BlockDef, outputName: string): Option<ResultTypeSection>
  {
    if d.Event? && d.resultType.Some? then Lookup(d.resultType.value, outputName) else None
  }

  /** The per-output step of `eventOutputs`. */
  function OutputStep(c: Ctx, d: BlockDef): (string, OutputSpec) -> Result<OutputResult, Error>
  {
    (name, o) => ReturnTypeForOutput(c, name, o, SectionFor(d, name))
  }

  /** `eventOutputs`: one result per declared output, stopping at the first failure. */
  function EventOutputs(c: Ctx, d: BlockDef): Result<Outputs, Error>
  {
    PutEach(OutputsOf(d), OutputStep(c, d), 0, [])
  }

  // ---------------------------------------------------------------------
  // The loops as the source runs them
  // ---------------------------------------------------------------------

  /** `eventOutputs`: fills the results object, one output at a time. */
  method RunEventOutputs(c: Ctx, d: BlockDef) returns (r: Result<Outputs, Error>)
    ensures r == EventOutputs(c, d)
  {
    var outs := OutputsOf(d);
    var results: Outputs := [];
    var i := 0;
    while i < |outs|
      invariant i <= |outs|
      invariant PutEach(outs, OutputStep(c, d), i, results) == EventOutputs(c, d)
      decreases |outs| - i
    {
      var res := ReturnTypeForOutput(c, outs[i].0, outs[i].1, SectionFor(d, outs[i].0));
      if res.Err? {
        return Err(res.error);
      }
      results := Put(results, outs[i].0, res.value);
      i := i + 1;
    }
    return Ok(results);
  }

  /** The loop of `multipleKnownType`. */
  method RunKnownEntries(names: seq<string>, t: JsValue, size: JsValue, outputName: string, eventName: string)
    returns (r: Result<seq<(string, ValueType)>, Error>)
    ensures r == KnownGo(names, GetValidatedOutput(t, size), outputName, eventName, 0, [])
  {
    var result: seq<(string, ValueType)> := [];
    var i := 0;
    while i < |names|
      invariant i <= |names|
      invariant KnownGo(names, GetValidatedOutput(t, size), outputName, eventName, i, result) ==
                KnownGo(names, GetValidatedOutput(t, size), outputName, eventName, 0, [])
      decreases |names| - i
    {
      var validated := GetValidatedOutput(t, size);
      if validated.None? {
        return Err(UndeterminedEntryType(names[i], outputName, eventName));
      }
      result := Put(result, names[i], validated.value);
      i := i + 1;
    }
    return Ok(result);
  }

  /** The loop of `multipleUnknownType`. */
  method RunUnknownEntries(pairs: seq<(string, JsValue)>, specSize: JsValue, sizes: JsValue, eventName: string, outputName: string)
    returns (r: Result<seq<(string, ValueType)>, Error>)
    ensures r == PutEach(pairs, UnknownStep(specSize, sizes, eventName, outputName), 0, [])
  {
    var result: seq<(string, ValueType)> := [];
    var i := 0;
    while i < |pairs|
      invariant i <= |pairs|
      invariant PutEach(pairs, UnknownStep(specSize, sizes, eventName, outputName), i, result) ==
                PutEach(pairs, UnknownStep(specSize, sizes, eventName, outputName), 0, [])
      decreases |pairs| - i
    {
      var vt := UnknownEntry(pairs[i].1, pairs[i].0, specSize, sizes, eventName, outputName);
      if vt.Err? {
        return Err(vt.error);
      }
      result := Put(result, pairs[i].0, vt.value);
      i := i + 1;
    }
    return Ok(result);
  }

  // ---------------------------------------------------------------------
  // Properties
  // ---------------------------------------------------------------------

  /** The result has one entry per declared output, in declaration order. */
  lemma OnePerOutput(c: Ctx, d: BlockDef)
    ensures var r := EventOutputs(c, d); r.Ok? ==> Keys(r.value) == Dedup(Keys(OutputsOf(d)))
    ensures var r := EventOutputs(c, d); r.Ok? && UniqueKeys(OutputsOf(d)) ==> Keys(r.value) == Keys(OutputsOf(d))
  {
    assert Keys(OutputsOf(d))[..0] == [];
    PutEachKeys(OutputsOf(d), OutputStep(c, d), 0, []);
    if UniqueKeys(OutputsOf(d)) {
      DedupUnique(Keys(OutputsOf(d)));
    }
  }

  /** Every value type a `multiple` loop records is a legal one. */
  predicate AllLegal(entries: seq<(string, ValueType)>)
  {
    forall i :: 0 <= i < |entries| ==> Legal(entries[i].1)
  }

  /** What one scripted entry yields is a legal value type whose name is the script's answer. */
  lemma UnknownEntryLegal(t: JsValue, key: string, specSize: JsValue, sizes: JsValue, eventName: string, outputName: string)
    ensures var r := UnknownEntry(t, key, specSize, sizes, eventName, outputName);
      r.Ok? ==> Legal(r.value) && t == Str(r.value.typeName)
  {
    ValidatedIsLegal(t, specSize);
    if Truthy(sizes) {
      ValidatedIsLegal(t, Get(sizes, key));
    }
  }

  /** The answer of a static multiple output is a map of legal value types. */
  lemma MultipleKnownLegal(c: Ctx, outputName: string, o: OutputSpec, section: Option<ResultTypeSection>)
    ensures var r := MultipleKnown(c, outputName, o, section); r.Ok? ==> r.value.Multi? && AllLegal(r.value.entries)
  {
    if section.Some? {
      var names := c.Run(section.value.typeScript);
      if names.Ok? && names.value.List? {
        var v := GetValidatedOutput(o.TypeValue(), o.Size());
        ValidatedIsLegal(o.TypeValue(), o.Size());
        assert names.value.items[..0] == [];
        KnownGoEntries(names.value.items, v, outputName, c.eventName, 0, []);
      }
    }
  }

  /** The answer of a scripted multiple output is a map of legal value types. */
  lemma MultipleUnknownLegal(c: Ctx, outputName: string, o: OutputSpec, s: ResultTypeSection)
    ensures var r := MultipleUnknown(c, outputName, o, s); r.Ok? ==> r.value.Multi? && AllLegal(r.value.entries)
  {
    var types := c.Run(s.typeScript);
    var sizes := if !Truthy(s.sizeScript) then Ok(Undefined) else c.Run(s.sizeScript);
    if types.Ok? && sizes.Ok? {
      UnknownEntriesLegal(ForIn(types.value), o.Size(), sizes.value, c.eventName, outputName);
    }
  }

  lemma UnknownEntriesLegal(pairs: seq<(string, JsValue)>, specSize: JsValue, sizes: JsValue, eventName: string, outputName: string)
    ensures var r := PutEach(pairs, UnknownStep(specSize, sizes, eventName, outputName), 0, []); r.Ok? ==> AllLegal(r.value)
  {
    var step := UnknownStep(specSize, sizes, eventName, outputName);
    forall j | 0 <= j < |pairs| && step(pairs[j].0, pairs[j].1).Ok?
      ensures Legal(step(pairs[j].0, pairs[j].1).value)
    {
      UnknownEntryLegal(pairs[j].1, pairs[j].0, specSize, sizes, eventName, outputName);
    }
    PutEachAll(pairs, step, 0, [], Legal);
  }

  /** The answer of a single scripted output is the object of a legal value type. */
  lemma SingleUnknownLegal(c: Ctx, outputName: string, o: OutputSpec, s: ResultTypeSection)
    ensures var r := SingleUnknown(c, outputName, o, s);
      r.Ok? ==> exists vt :: r.value == Single(ToJs(vt)) && Legal(vt) && c.Run(s.typeScript) == Ok(Str(vt.typeName))
  {
    var t := c.Run(s.typeScript);
    var size := UnknownSize(c, outputName, o, s);
    if t.Ok? && size.Ok? && GetValidatedOutput(t.value, size.value).Some? {
      ValidatedIsLegal(t.value, size.value);
      var vt := GetValidatedOutput(t.value, size.value).value;
      assert SingleUnknown(c, outputName, o, s) == Ok(Single(ToJs(vt)));
    }
  }

  /** Every output the resolver answers is an OutputResult: one ResultValueType, or a map of legal value types. */
  lemma ReturnTypeIsOutputResult(c: Ctx, outputName: string, o: OutputSpec, section: Option<ResultTypeSection>)
    ensures var r := ReturnTypeForOutput(c, outputName, o, section); r.Ok? ==> OutputResultOk(r.value)
  {
    MultipleKnownLegal(c, outputName, o, section);
    if section.Some? {
      MultipleUnknownLegal(c, outputName, o, section.value);
      SingleUnknownLegal(c, outputName, o, section.value);
      var r := SingleUnknown(c, outputName, o, section.value);
      if r.Ok? {
        var vt :| r.value == Single(ToJs(vt)) && Legal(vt) && c.Run(section.value.typeScript) == Ok(Str(vt.typeName));
        ValidatedRoundTrip(vt);
      }
    }
  }

  /** Every output of a resolved event satisfies OutputResultSchema. */
  lemma EventOutputsAreOutputResults(c: Ctx, d: BlockDef)
    ensures var r := EventOutputs(c, d); r.Ok? ==> forall k :: 0 <= k < |r.value| ==> OutputResultOk(r.value[k].1)
  {
    var step := OutputStep(c, d);
    var outs := OutputsOf(d);
    forall j | 0 <= j < |outs| && step(outs[j].0, outs[j].1).Ok?
      ensures OutputResultOk(step(outs[j].0, outs[j].1).value)
    {
      ReturnTypeIsOutputResult(c, outs[j].0, outs[j].1, SectionFor(d, outs[j].0));
    }
    PutEachAll(outs, step, 0, [], OutputResultOk);
  }

  /** Without a static type, an output with no `resultType` entry fails with "ResultType not provided". */
  lemma NoTypeNeedsResultType(c: Ctx, outputName: string, o: OutputSpec)
    requires !Truthy(o.TypeValue())
    ensures ReturnTypeForOutput(c, outputName, o, None) == Err(ResultTypeNotProvided(outputName, c.eventName))
  {
  }

  /** A static single output is returned as its own object exactly when that object is a ResultValueType. */
  lemma StaticSingleUnchanged(c: Ctx, outputName: string, o: OutputSpec, section: Option<ResultTypeSection>)
    requires Truthy(o.TypeValue()) && !Truthy(o.Multiple())
    ensures IsResultValueType(Obj(o.attrs)) ==> ReturnTypeForOutput(c, outputName, o, section) == Ok(Single(Obj(o.attrs)))
    ensures !IsResultValueType(Obj(o.attrs)) ==> ReturnTypeForOutput(c, outputName, o, section) == Err(NotAValidOutputType(o.attrs))
  {
  }

  lemma {:induction false} KnownGoEntries(names: seq<string>, v: Option<ValueType>, outputName: string, eventName: string,
                                          i: nat, acc: seq<(string, ValueType)>)
    requires i <= |names| && Keys(acc) == Dedup(names[..i])
    requires forall k :: 0 <= k < |acc| ==> Some(acc[k].1) == v
    ensures var r := KnownGo(names, v, outputName, eventName, i, acc);
      r.Ok? ==> Keys(r.value) == Dedup(names) && forall k :: 0 <= k < |r.value| ==> Some(r.value[k].1) == v
    ensures i < |names| && v.None? ==>
      KnownGo(names, v, outputName, eventName, i, acc) == Err(UndeterminedEntryType(names[i], outputName, eventName))
    decreases |names| - i
  {
    if i == |names| {
      assert names[..i] == names;
    } else {
      if v.Some? {
        var acc2 := Put(acc, names[i], v.value);
        assert Keys(acc2) == Dedup(names[..i + 1]) by {
          PrefixSnoc(names, i);
          DedupSnoc(names[..i], names[i]);
        }
        PutKeepsAll(acc, names[i], v.value, x => Some(x) == v);
        KnownGoEntries(names, v, outputName, eventName, i + 1, acc2);
      }
    }
  }

  /**
   * A static `multiple` output maps every name the script lists to the
   * validated static pair; a pair that does not validate fails at the first
   * name, so an empty list of names succeeds whatever the pair.
   */
  lemma StaticMultipleEntries(c: Ctx, outputName: string, o: OutputSpec, s: ResultTypeSection, names: seq<string>)
    requires Truthy(o.TypeValue()) && Truthy(o.Multiple())
    requires c.Run(s.typeScript) == Ok(List(names)) && o.TypeValue().Str? && o.TypeValue().s in OutputTypes
    ensures var r := ReturnTypeForOutput(c, outputName, o, Some(s));
      r.Ok? ==> r.value.Multi? && Keys(r.value.entries) == Dedup(names) &&
                forall k :: 0 <= k < |r.value.entries| ==> Some(r.value.entries[k].1) == GetValidatedOutput(o.TypeValue(), o.Size())
    ensures names == [] ==> ReturnTypeForOutput(c, outputName, o, Some(s)) == Ok(Multi([]))
    ensures names != [] && GetValidatedOutput(o.TypeValue(), o.Size()).None? ==>
      ReturnTypeForOutput(c, outputName, o, Some(s)) == Err(UndeterminedEntryType(names[0], outputName, c.eventName))
  {
    assert names[..0] == [];
    KnownGoEntries(names, GetValidatedOutput(o.TypeValue(), o.Size()), outputName, c.eventName, 0, []);
  }

  /** A static `multiple` output without a `resultType` entry, or whose script does not answer a list, fails. */
  lemma StaticMultipleNeedsNames(c: Ctx, outputName: string, o: OutputSpec, section: Option<ResultTypeSection>)
    requires Truthy(o.TypeValue()) && Truthy(o.Multiple())
    ensures section.None? ==> ReturnTypeForOutput(c, outputName, o, section) == Err(MultipleNeedsResultType(outputName, c.eventName))
    ensures section.Some? && c.Run(section.value.typeScript).Ok? && !c.Run(section.value.typeScript).value.List? ==>
      ReturnTypeForOutput(c, outputName, o, section) == Err(NamesNotAList(outputName, c.eventName))
  {
  }

  /**
   * Scripted single output: the script's type must be one of the five
   * names; a static size wins over the size script, whose answer must be an
   * integer width; the pair must then validate.
   */
  lemma ScriptedSingle(c: Ctx, outputName: string, o: OutputSpec, s: ResultTypeSection)
    requires !Truthy(o.TypeValue()) && !Truthy(o.Multiple())
    ensures var r := ReturnTypeForOutput(c, outputName, o, Some(s));
      r.Ok? ==> exists vt :: r.value == Single(ToJs(vt)) && Legal(vt) && c.Run(s.typeScript) == Ok(Str(vt.typeName))
    ensures var t := c.Run(s.typeScript);
      t.Ok? && !(t.value.Str? && t.value.s in OutputTypes) ==>
        ReturnTypeForOutput(c, outputName, o, Some(s)) == Err(InvalidOutputType(c.eventName, outputName, t.value))
    ensures Truthy(o.Size()) ==> UnknownSize(c, outputName, o, s) == Ok(o.Size())
    ensures var z := c.Run(s.sizeScript);
      !Truthy(o.Size()) && Truthy(s.sizeScript) && z.Ok? ==> (UnknownSize(c, outputName, o, s).Ok? <==> z.value in IntSizes)
  {
    SingleUnknownLegal(c, outputName, o, s);
  }

  /** Size scripts are checked only against the integer widths: a float width of 128 passes that check and is refused afterwards. */
  lemma FloatWidthCheckedLate(c: Ctx, outputName: string, o: OutputSpec, s: ResultTypeSection)
    requires !Truthy(o.TypeValue()) && !Truthy(o.Multiple()) && !Truthy(o.Size()) && Truthy(s.sizeScript)
    requires c.Run(s.typeScript) == Ok(Str("float")) && c.Run(s.sizeScript) == Ok(Num("128"))
    ensures UnknownSize(c, outputName, o, s) == Ok(Num("128"))
    ensures ReturnTypeForOutput(c, outputName, o, Some(s)) == Err(UndeterminedOutputType(c.eventName, outputName))
  {
    assert Num("128") in IntSizes && Num("128") !in FloatSizes;
    assert UnknownSize(c, outputName, o, s) == Ok(Num("128"));
    assert ValidateOutputType(Str("float"), c.eventName, outputName).Ok?;
    assert GetValidatedOutput(Str("float"), Num("128")).None?;
    assert ReturnTypeForOutput(c, outputName, o, Some(s)) == SingleUnknown(c, outputName, o, s);
  }

  /**
   * One scripted entry of a `multiple` output takes the static width when
   * it validates, else the size map's width for its key, which must be an
   * integer width and then validate; otherwise "Difficulty determining size".
   */
  lemma ScriptedEntryWidth(t: JsValue, key: string, specSize: JsValue, sizes: JsValue, eventName: string, outputName: string)
    requires t.Str? && t.s in OutputTypes
    ensures GetValidatedOutput(t, specSize).Some? ==>
      UnknownEntry(t, key, specSize, sizes, eventName, outputName) == Ok(GetValidatedOutput(t, specSize).value)
    ensures GetValidatedOutput(t, specSize).None? && !Truthy(sizes) ==>
      UnknownEntry(t, key, specSize, sizes, eventName, outputName) == Err(CannotDetermineSize)
    ensures GetValidatedOutput(t, specSize).None? && Truthy(sizes) && Get(sizes, key) !in IntSizes ==>
      UnknownEntry(t, key, specSize, sizes, eventName, outputName) == Err(InvalidOutputSize(eventName, outputName, Get(sizes, key)))
    ensures GetValidatedOutput(t, specSize).None? && Truthy(sizes) && Get(sizes, key) in IntSizes ==>
      UnknownEntry(t, key, specSize, sizes, eventName, outputName) ==
        (if GetValidatedOutput(t, Get(sizes, key)).Some? then Ok(GetValidatedOutput(t, Get(sizes, key)).value) else Err(CannotDetermineSize))
  {
  }

  /** A scripted `multiple` output has one entry per key of the type map, each named by the script. */
  lemma ScriptedMultipleEntries(c: Ctx, outputName: string, o: OutputSpec, s: ResultTypeSection)
    requires !Truthy(o.TypeValue()) && Truthy(o.Multiple())
    ensures c.Run(s.typeScript).Ok? && !Truthy(c.Run(s.typeScript).value) ==>
      ReturnTypeForOutput(c, outputName, o, Some(s)) == Err(ResultTypesRequired)
    ensures var r := ReturnTypeForOutput(c, outputName, o, Some(s));
      r.Ok? ==> c.Run(s.typeScript).Ok? && r.value.Multi? && Keys(r.value.entries) == Dedup(Keys(ForIn(c.Run(s.typeScript).value)))
  {
    var types := c.Run(s.typeScript);
    var sizes := if !Truthy(s.sizeScript) then Ok(Undefined) else c.Run(s.sizeScript);
    if types.Ok? && sizes.Ok? {
      var pairs := ForIn(types.value);
      assert Keys(pairs)[..0] == [];
      PutEachKeys(pairs, UnknownStep(o.Size(), sizes.value, c.eventName, outputName), 0, []);
    }
  }

  /** Scripts see the module states only through the event module's own state. */
  lemma OnlyOwnStateMatters(c: Ctx, st2: States, d: BlockDef)
    requires StateOf(c.st, c.moduleName) == StateOf(st2, c.moduleName)
    ensures EventOutputs(c, d) == EventOutputs(c.(st := st2), d)
  {
    var c2 := c.(st := st2);
    assert forall script :: c.Run(script) == c2.Run(script);
    var outs := OutputsOf(d);
    forall j | 0 <= j < |outs|
      ensures OutputStep(c, d)(outs[j].0, outs[j].1) == OutputStep(c2, d)(outs[j].0, outs[j].1)
    {
      SameRunsSameAnswer(c, c2, outs[j].0, outs[j].1, SectionFor(d, outs[j].0));
    }
    PutEachSame(outs, OutputStep(c, d), OutputStep(c2, d), 0, []);
  }

  lemma SameRunsSameAnswer(c: Ctx, c2: Ctx, outputName: string, o: OutputSpec, section: Option<ResultTypeSection>)
    requires c.eventName == c2.eventName && forall script :: c.Run(script) == c2.Run(script)
    ensures ReturnTypeForOutput(c, outputName, o, section) == ReturnTypeForOutput(c2, outputName, o, section)
  {
    if section.Some? {
      var s := section.value;
      assert c.Run(s.typeScript) == c2.Run(s.typeScript);
      assert c.Run(s.sizeScript) == c2.Run(s.sizeScript);
      assert MultipleKnown(c, outputName, o, section) == MultipleKnown(c2, outputName, o, section);
      assert MultipleUnknown(c, outputName, o, s) == MultipleUnknown(c2, outputName, o, s);
      assert SingleUnknown(c, outputName, o, s) == SingleUnknown(c2, outputName, o, s) by {
        assert UnknownSize(c, outputName, o, s) == UnknownSize(c2, outputName, o, s);
      }
    }
  }
}
