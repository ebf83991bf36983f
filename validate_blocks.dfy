/**
 * The rules src/services/configuration/validateBlocks.ts applies to every
 * block definition of the catalog once the schemas have been consulted:
 * the reserved name, the kind-by-sections dispatch, the input, code,
 * return, outputs, resultType and handle rules, and the messages they
 * throw. The schemas are the shapes of src/schemas/blocks.ts written as
 * predicates; the issue list the schema library reports for a rejected
 * value, the JavaScript parser behind the code checks, and the parsing of
 * the definition file are inputs.
 */
module ValidateBlocks {
  import opened Wrappers
  import opened Js
  import opened JsText
  import opened Types
  import opened Defs
  import opened ConfigUtils
  import BlockDefParser
  import Catalog

  /** Which schema a rejected value was checked against. */
  datatype Schema = InputParameters | OutputParameters | CodeResultValueType | HandleParameters

  /** What the schema library reports for a value the schema rejects. */
  type Explain = (Schema, JsValue) -> seq<Issue>

  /** What parsing and walking a `code` section finds: the argument count of every `addAtBlockLocation` call, in walk order. */
  datatype CodeScan = CodeUnparsable | CodeCalls(arities: seq<nat>)

  /** What parsing and walking `(function(){ <script> })()` finds. */
  datatype ScriptScan = ScriptUnparsable | NoReturn | Returns

  /** The three oracles of the validator. */
  datatype Oracles = Oracles(explain: Explain, code: string -> CodeScan, script: string -> ScriptScan)

  // ---------------------------------------------------------------------
  // Inputs
  // ---------------------------------------------------------------------

  /** InputSectionParametersSchema. */
  predicate InputSchemaAccepts(s: InputSpec)
  {
    var t := Attr(s.attrs, "type");
    var d := s.Default();
    t.List? && (forall i :: 0 <= i < |t.items| ==> t.items[i] in InputTypes) &&
    SchemaInputFlags(s).Some? &&
    (d == Undefined || d.Str? || d.Bool? || d.Num?) &&
    (Absent(s.attrs, "valueList") || Attr(s.attrs, "valueList").List?) &&
    OptStr(s.attrs, "placeholder") && OptStr(s.attrs, "blockDoc") && OptNum(s.attrs, "multipleMax") &&
    OnlyKeys(s.attrs, InputKeys)
  }

  function InputIssueLine(name: string, block: string): Issue -> string
  {
    (e: Issue) =>
      if e.code.UnrecognizedKeys? then
        "Input \"" + name + "\" in block \"" + block + "\" has an unknown parameter: \"" + Join(e.code.keys, ", ") + "\"."
      else "Input \"" + name + "\" in block \"" + block + "\", field \"" + Join(e.path, ".") + "\" - " + e.message
  }

  function MixedBlockType(block: string, name: string): string
  {
    "Block: \"" + block + "\" in input: \"" + name +
    "\" May have either a \"block\" type input or other types (uint, int, float, string, bool), but not both simultaneously!"
  }

  function BlockNotAllowed(name: string, block: string): string
  {
    "input: \"" + name + "\" in block: \"" + block + "\" Requires a block, but \"canYouPutBlockIn\" is set to false. Which makes no sense."
  }

  /** The checks of one input: the schema, then "block" alone in the type list, then a block type that admits blocks. */
  function CheckInput(o: Oracles, block: string, name: string, s: InputSpec): Result<(), string>
  {
    if !InputSchemaAccepts(s) then Err(Lines(o.explain(InputParameters, Obj(s.attrs)), InputIssueLine(name, block)))
    else CheckInputAccepted(block, name, s)
  }

  /** The checks after the schema: "block" alone among the types, and only where blocks are admitted. */
  function CheckInputAccepted(block: string, name: string, s: InputSpec): Result<(), string>
    requires SchemaInputFlags(s).Some?
  {
    var types := s.Types();
    if "block" in types && |types| > 1 then Err(MixedBlockType(block, name))
    else if "block" in types && !SchemaInputFlags(s).value.canYouPutBlockIn then Err(BlockNotAllowed(name, block))
    else Ok(())
  }

  /** A schema-valid input passes exactly when it either accepts no block, or accepts only blocks and admits them. */
  lemma InputRules(o: Oracles, block: string, name: string, s: InputSpec)
    requires InputSchemaAccepts(s)
    ensures CheckInput(o, block, name, s).Ok? <==>
      "block" !in s.Types() || (s.Types() == ["block"] && SchemaInputFlags(s).value.canYouPutBlockIn)
  {
    AcceptedInputRules(block, name, s);
  }

  /** The checks after the schema pass exactly when "block" is absent, or alone and admitted. */
  lemma AcceptedInputRules(block: string, name: string, s: InputSpec)
    requires SchemaInputFlags(s).Some?
    ensures CheckInputAccepted(block, name, s).Ok? <==>
      "block" !in s.Types() || (s.Types() == ["block"] && SchemaInputFlags(s).value.canYouPutBlockIn)
  {
    var types := s.Types();
    if "block" in types {
      if |types| > 1 {
        assert |["block"]| == 1;
      } else {
        assert types == [types[0]] && types[0] == "block";
      }
    }
  }

  /** A type list mixing "block" with another type fails with that complaint, whatever `canYouPutBlockIn` says. */
  lemma MixedTypesReported(o: Oracles, block: string, name: string, s: InputSpec)
    requires InputSchemaAccepts(s) && "block" in s.Types() && |s.Types()| > 1
    ensures CheckInput(o, block, name, s) == Err(MixedBlockType(block, name))
  {
    AcceptedInput(o, block, name, s);
    MixedAccepted(block, name, s);
  }

  /** Past the schema, only the checks after it decide. */
  lemma AcceptedInput(o: Oracles, block: string, name: string, s: InputSpec)
    requires InputSchemaAccepts(s)
    ensures CheckInput(o, block, name, s) == CheckInputAccepted(block, name, s)
  {
  }

  /** "block" beside another type is the first complaint after the schema. */
  lemma MixedAccepted(block: string, name: string, s: InputSpec)
    requires SchemaInputFlags(s).Some? && "block" in s.Types() && |s.Types()| > 1
    ensures CheckInputAccepted(block, name, s) == Err(MixedBlockType(block, name))
  {
  }

  /** An input without an explicit `canYouPutBlockIn` admits blocks. */
  lemma BlockInputAdmitsByDefault(o: Oracles, block: string, name: string, s: InputSpec)
    requires InputSchemaAccepts(s) && s.Types() == ["block"] && s.CanYouPutBlockIn() == Undefined
    ensures CheckInput(o, block, name, s) == Ok(())
  {
  }

  /** `checkInputsSection`: every declared input in order. */
  function CheckInputs(o: Oracles, block: string, inputs: seq<(string, InputSpec)>): Result<(), string>
  {
    CheckAll(inputs, (e: (string, InputSpec)) => CheckInput(o, block, e.0, e.1))
  }

  /**
   * An input declared with attributes but no `type` is parsed to the list
   * `[undefined]` (`BlockDefParser.InputWithoutType`), which the input schema
   * rejects: the block's inputs, and so its file, fail validation.
   */
  lemma InputWithoutTypeRejected(o: Oracles, block: string, inputs: seq<(string, InputSpec)>, i: nat)
    requires i < |inputs| && Attr(inputs[i].1.attrs, "type") == List(["undefined"])
    ensures CheckInput(o, block, inputs[i].0, inputs[i].1).Err?
    ensures CheckInputs(o, block, inputs).Err?
  {
    assert !InputSchemaAccepts(inputs[i].1) by {
      var t := Attr(inputs[i].1.attrs, "type");
      assert t.items[0] == "undefined" && "undefined" !in InputTypes;
    }
    var check := (e: (string, InputSpec)) => CheckInput(o, block, e.0, e.1);
    assert check(inputs[i]).Err?;
  }

  // ---------------------------------------------------------------------
  // Code
  // ---------------------------------------------------------------------

  function CodeNotString(block: string): string { "The \"code\" section in block: \"" + block + "\", is not of type string." }
  function CodeEmpty(block: string): string { "The \"code\" section in block: \"" + block + "\", is empty!" }
  function CodeIncorrect(block: string): string { "The \"code\" section in block: \"" + block + "\", has incorrect JS code." }
  function WrongArity(block: string): string
  {
    "The addAtBlockLocation() function within block \"" + block + "\" Must have exactly 1 parameter."
  }
  function NeverAppends(block: string): string
  {
    "The addAtBlockLocation() function within block \"" + block + "\" Must be used at least once."
  }

  /** `checkCodeSection`: a non-blank string that parses and calls `addAtBlockLocation` at least once, always with one argument. */
  function CheckCode(o: Oracles, block: string, code: JsValue): Result<(), string>
  {
    if !code.Str? then Err(CodeNotString(block))
    else if Trim(code.s) == "" then Err(CodeEmpty(block))
    else match o.code(code.s)
      case CodeUnparsable => Err(CodeIncorrect(block))
      case CodeCalls(arities) =>
        var _ :- CheckAll(arities, (n: nat) => if n != 1 then Err(WrongArity(block)) else Ok(()));
        if arities == [] then Err(NeverAppends(block)) else Ok(())
  }

  /** The code rules in full. */
  lemma CodeRules(o: Oracles, block: string, code: JsValue)
    ensures CheckCode(o, block, code).Ok? <==>
      code.Str? && !AllWhitespace(code.s) && o.code(code.s).CodeCalls? &&
      |o.code(code.s).arities| >= 1 && forall i :: 0 <= i < |o.code(code.s).arities| ==> o.code(code.s).arities[i] == 1
  {
    if code.Str? {
      TrimEmptyIffBlank(code.s);
    }
  }

  /** A code section that is not text, or only white space, fails before it is parsed. */
  lemma BlankCodeFails(o: Oracles, block: string, code: JsValue)
    requires !code.Str? || AllWhitespace(code.s)
    ensures CheckCode(o, block, code) == Err(if code.Str? then CodeEmpty(block) else CodeNotString(block))
  {
    if code.Str? {
      TrimEmptyIffBlank(code.s);
    }
  }

  // ---------------------------------------------------------------------
  // Return
  // ---------------------------------------------------------------------

  /** `checkIfReturns`: the script, wrapped in a function, must parse and contain a `return`. */
  function CheckIfReturns(o: Oracles, what: string, part: string, block: string): (r: Result<(), string>)
    ensures r.Ok? <==> o.script("(function(){ " + what + " })()") == Returns
  {
    match o.script("(function(){ " + what + " })()")
    case ScriptUnparsable =>
      Err("The \"return\" section (" + part + ") in block: \"" + block + "\", contains invalid JS code.")
    case NoReturn =>
      Err("The \"return\" section (" + part + ") in block \"" + block + "\" does not return any value (missing return).")
    case Returns => Ok(())
  }

  function ReturnIssueLine(block: string): Issue -> string
  {
    (e: Issue) => "The \"return\" section in block \"" + block + "\", field \"" + Join(e.path, ".") + "\" - " + e.message
  }

  /**
   * `checkReturnSection`: a section ResultValueTypeSchema accepts has its
   * numeric width checked; any other must be a script section whose type
   * script, and size script when there is one, return a value.
   */
  function CheckReturn(o: Oracles, block: string, ret: ReturnSection): Result<(), string>
  {
    var obj := ReturnObject(ret);
    if IsResultValueType(Obj(obj)) then
      var t := ret.typeValue;
      if t == Str("string") || t == Str("bool") then Ok(())
      else ValidateNumericTypeSize(t, ret.size, "The \"return\" section in block \"" + block + "\" type \"" + ToStr(t) + "\"")
    else if !ScriptSectionAccepts(obj) then Err(Lines(o.explain(CodeResultValueType, Obj(obj)), ReturnIssueLine(block)))
    else
      var _ :- CheckIfReturns(o, ToStr(ret.typeValue), "type", block);
      if Truthy(ret.size) then CheckIfReturns(o, ToStr(ret.size), "size", block) else Ok(())
  }

  lemma ReturnObjectFields(ret: ReturnSection)
    ensures Get(Obj(ReturnObject(ret)), "type") == ret.typeValue
    ensures Get(Obj(ReturnObject(ret)), "size") == ret.size
  {
  }

  /** The width check of a static return section never fails: the schema already admitted only legal widths. */
  lemma StaticReturnPasses(o: Oracles, block: string, ret: ReturnSection)
    requires IsResultValueType(Obj(ReturnObject(ret)))
    ensures CheckReturn(o, block, ret) == Ok(())
  {
    ReturnObjectFields(ret);
    LegalWidthPasses(ret.typeValue, ret.size, "The \"return\" section in block \"" + block + "\" type \"" + ToStr(ret.typeValue) + "\"");
  }

  /** A (type, width) pair `isResultValueType` accepts passes the width check. */
  lemma LegalWidthPasses(t: JsValue, size: JsValue, ctx: string)
    requires IsResultValueType(Pair(t, size))
    ensures ValidateNumericTypeSize(t, size, ctx) == Ok(())
  {
    assert Get(Pair(t, size), "type") == t && Get(Pair(t, size), "size") == size;
  }

  /** A script return section passes exactly when its scripts return a value. */
  lemma ScriptReturnRules(o: Oracles, block: string, ret: ReturnSection)
    requires !IsResultValueType(Obj(ReturnObject(ret))) && ScriptSectionAccepts(ReturnObject(ret))
    ensures CheckReturn(o, block, ret).Ok? <==>
      o.script("(function(){ " + ToStr(ret.typeValue) + " })()") == Returns &&
      (Truthy(ret.size) ==> o.script("(function(){ " + ToStr(ret.size) + " })()") == Returns)
  {
  }

  // ---------------------------------------------------------------------
  // Outputs, resultType, handle
  // ---------------------------------------------------------------------

  function OutputIssueLine(name: string, block: string): Issue -> string
  {
    (e: Issue) =>
      if e.code.UnrecognizedKeys? then
        "Output \"" + name + "\" in block \"" + block + "\" has an unknown parameter: \"" + Join(e.code.keys, ", ") + "\"."
      else "Output \"" + name + "\" in block \"" + block + "\", field \"" + Join(e.path, ".") + "\" - " + e.message
  }

  function InvalidDataType(name: string, block: string, t: JsValue): string
  {
    "Output \"" + name + "\" in block \"" + block + "\" provided an invalid data type: \"" + ToStr(t) + "\". " +
    "Allowed types are one of: " + Join(OutputTypes, ", ") + "."
  }

  function UntypedWithoutResultType(block: string, name: string): string
  {
    "Block: \"" + block + "\" the output \"" + name + "\" has no type specified," +
    "Yet it does not implement the \"resultType\" section."
  }

  /** The checks of one output: the schema, a legal static type, a resultType section for an untyped output, the width. */
  function CheckOutput(o: Oracles, block: string, hasResultType: bool, name: string, spec: OutputSpec): Result<(), string>
  {
    var t := spec.TypeValue();
    if !OutputSchemaAccepts(spec) then Err(Lines(o.explain(OutputParameters, Obj(spec.attrs)), OutputIssueLine(name, block)))
    else if !IsResultValueType(Obj(spec.attrs)) && t != Undefined then Err(InvalidDataType(name, block, t))
    else if !Truthy(t) && !hasResultType then Err(UntypedWithoutResultType(block, name))
    else ValidateNumericTypeSize(t, spec.Size(), "Output \"" + name + "\" in block \"" + block + "\"")
  }

  /** Past the schema, an output fails only when it has no type and the block has no resultType section. */
  lemma OutputRules(o: Oracles, block: string, hasResultType: bool, name: string, spec: OutputSpec)
    requires OutputSchemaAccepts(spec)
    ensures CheckOutput(o, block, hasResultType, name, spec).Ok? <==> spec.TypeValue() != Undefined || hasResultType
  {
    var t, size := spec.TypeValue(), spec.Size();
    var ctx := "Output \"" + name + "\" in block \"" + block + "\"";
    if t == Undefined {
      assert CheckOutput(o, block, hasResultType, name, spec) ==
        if !hasResultType then Err(UntypedWithoutResultType(block, name)) else ValidateNumericTypeSize(t, size, ctx);
      NonNumericTypesPass(t, size, ctx);
    } else {
      StaticOutputPasses(spec, ctx);
      assert CheckOutput(o, block, hasResultType, name, spec) == ValidateNumericTypeSize(t, size, ctx);
    }
  }

  /** An accepted output with a type is a legal value type whose width passes. */
  lemma StaticOutputPasses(spec: OutputSpec, ctx: string)
    requires OutputSchemaAccepts(spec) && spec.TypeValue() != Undefined
    ensures IsResultValueType(Obj(spec.attrs)) && Truthy(spec.TypeValue())
    ensures ValidateNumericTypeSize(spec.TypeValue(), spec.Size(), ctx) == Ok(())
  {
    OutputSchemaShape(spec);
  }

  /** `checkOutputsSection`: every declared output in order. */
  function CheckOutputs(o: Oracles, block: string, outputs: seq<(string, OutputSpec)>, hasResultType: bool): Result<(), string>
  {
    CheckAll(outputs, (e: (string, OutputSpec)) => CheckOutput(o, block, hasResultType, e.0, e.1))
  }

  function ResultTypeIssueLine(name: string, block: string): Issue -> string
  {
    (e: Issue) =>
      "The \"resultType\" section, field \"" + name + "\" in block \"" + block + "\", error in \"" +
      Join(e.path, ".") + "\" - " + e.message
  }

  /** The `{type, size}` object the definition parser builds for a resultType entry. */
  function EntryObject(sec: ResultTypeSection): Attrs
  {
    [("type", sec.typeScript), ("size", sec.sizeScript)]
  }

  /**
   * One resultType entry: after the schema, a type naming an output type has
   * its width checked when the size is a number, any other type must be a
   * returning script, and so must a non-empty size text.
   */
  function CheckResultTypeEntry(o: Oracles, block: string, name: string, sec: ResultTypeSection): Result<(), string>
  {
    var t := sec.typeScript;
    var size := sec.sizeScript;
    if !ScriptSectionAccepts(EntryObject(sec)) then
      Err(Lines(o.explain(CodeResultValueType, Obj(EntryObject(sec))), ResultTypeIssueLine(name, block)))
    else
      var _ :-
        if !Truthy(t) then Ok(())
        else if ToStr(t) in OutputTypes then
          if size.Num? then
            ValidateNumericTypeSize(t, size, "The \"resultType\" section, field \"" + name + "\" in block \"" + block + "\"")
          else Ok(())
        else CheckIfReturns(o, ToStr(t), "type", block);
      if Truthy(size) && size.Str? then CheckIfReturns(o, size.s, "size", block) else Ok(())
  }

  /**
   * Past the schema the size of an entry is text or absent, so the width
   * check is never reached: an entry passes exactly when its non-catalog
   * type and its non-empty size are returning scripts.
   */
  lemma ResultTypeEntryRules(o: Oracles, block: string, name: string, sec: ResultTypeSection)
    requires ScriptSectionAccepts(EntryObject(sec))
    ensures CheckResultTypeEntry(o, block, name, sec).Ok? <==>
      (Truthy(sec.typeScript) && sec.typeScript.s !in OutputTypes ==>
        o.script("(function(){ " + sec.typeScript.s + " })()") == Returns) &&
      (Truthy(sec.sizeScript) ==> o.script("(function(){ " + sec.sizeScript.s + " })()") == Returns)
  {
    assert Attr(EntryObject(sec), "type") == sec.typeScript;
    assert Attr(EntryObject(sec), "size") == sec.sizeScript;
  }

  /** `checkResultTypeSection`: nothing without the section, otherwise every entry in order. */
  function CheckResultTypes(o: Oracles, block: string, section: Option<seq<(string, ResultTypeSection)>>): Result<(), string>
  {
    if section.None? then Ok(())
    else CheckAll(section.value, (e: (string, ResultTypeSection)) => CheckResultTypeEntry(o, block, e.0, e.1))
  }

  /** HandleSectionParametersSchema: an optional string `suffix` and nothing else. */
  predicate HandleSchemaAccepts(h: Attrs)
  {
    OptStr(h, "suffix") && OnlyKeys(h, {"suffix"})
  }

  function HandleIssueLine(block: string): Issue -> string
  {
    (e: Issue) =>
      if e.code.UnrecognizedKeys? then
        "The \"handle\" section in block \"" + block + "\" has an unknown parameter: \"" + Join(e.code.keys, ", ") + "\"."
      else "The \"handle\" section in block \"" + block + "\", field \"" + Join(e.path, ".") + "\" - " + e.message
  }

  /** `checkHandleSection`: only the schema. */
  function CheckHandle(o: Oracles, block: string, handle: Option<Attrs>): (r: Result<(), string>)
    ensures r.Ok? <==> handle.None? || HandleSchemaAccepts(handle.value)
  {
    if handle.None? then Ok(())
    else if !HandleSchemaAccepts(handle.value) then Err(Lines(o.explain(HandleParameters, Obj(handle.value)), HandleIssueLine(block)))
    else Ok(())
  }

  // ---------------------------------------------------------------------
  // One definition, the whole catalog
  // ---------------------------------------------------------------------

  /** The sections as the casts of the validator read them; a section the definition lacks reads as undefined. */
  function ReturnOf(d: BlockDef): ReturnSection
  {
    if d.Return? then d.ret else ReturnSection(Undefined, Undefined)
  }

  function OutputsOf(d: BlockDef): seq<(string, OutputSpec)>
  {
    if d.Event? then d.outputs else []
  }

  function ResultTypeOf(d: BlockDef): Option<seq<(string, ResultTypeSection)>>
  {
    if d.Event? then d.resultType else None
  }

  function HandleOf(d: BlockDef): Option<Attrs>
  {
    if d.Event? then d.handle else None
  }

  /**
   * The validator and the definition parser classify a section set with
   * different priorities: they agree exactly when some kind-deciding
   * section is present and `outputs` does not come with `return` or `code`.
   */
  lemma KindPrioritiesDiffer(keys: set<string>)
    ensures ResolveBlockKind(keys) == Ok(BlockDefParser.GetBlockType(keys)) <==>
      ("return" in keys || "code" in keys || "outputs" in keys) &&
      !("outputs" in keys && ("return" in keys || "code" in keys))
    ensures "return" in keys && "outputs" in keys ==>
      ResolveBlockKind(keys) == Ok(ReturnKind) && BlockDefParser.GetBlockType(keys) == EventKind
  {
  }

  /** The checks the kind of a definition selects, in the order they run. */
  function CheckDefinition(o: Oracles, block: string, d: BlockDef): Result<(), string>
  {
    var kind :- ResolveBlockKind(DefKeys(d));
    match kind
    case ActionKind =>
      var _ :- CheckInputs(o, block, InputsOf(d));
      CheckCode(o, block, CodeOf(d))
    case ReturnKind =>
      var _ :- CheckInputs(o, block, InputsOf(d));
      var _ :- CheckReturn(o, block, ReturnOf(d));
      CheckCode(o, block, CodeOf(d))
    case EventKind =>
      var _ :- CheckOutputs(o, block, OutputsOf(d), ResultTypeOf(d).Some?);
      var _ :- CheckResultTypes(o, block, ResultTypeOf(d));
      CheckHandle(o, block, HandleOf(d))
  }

  /** Action blocks face the input and code rules, return blocks also the return rule, events the output, resultType and handle rules. */
  lemma DefinitionRules(o: Oracles, block: string, d: BlockDef)
    ensures d.Action? ==> (CheckDefinition(o, block, d).Ok? <==>
      CheckInputs(o, block, d.inputs).Ok? && CheckCode(o, block, d.code).Ok?)
    ensures d.Return? ==> (CheckDefinition(o, block, d).Ok? <==>
      CheckInputs(o, block, d.inputs).Ok? && CheckReturn(o, block, d.ret).Ok? && CheckCode(o, block, d.code).Ok?)
    ensures d.Event? ==> (CheckDefinition(o, block, d).Ok? <==>
      CheckOutputs(o, block, d.outputs, d.resultType.Some?).Ok? && CheckResultTypes(o, block, d.resultType).Ok? &&
      CheckHandle(o, block, d.handle).Ok?)
  {
    ResolveParsedKind(d);
  }

  const ReservedName := "#flags"

  /** One catalog entry: the reserved name, the definition file, its parse, then its checks. */
  function CheckBlockFile(tree: Catalog.FsNode, parse: (string, string) -> Result<BlockDef, string>, o: Oracles,
                          m: string, b: string): Result<(), string>
  {
    if b == ReservedName then Err("Block in module \"" + m + "\" cannot be named \"#flags\".")
    else
      var text := Catalog.FileAt(tree, Catalog.NormalizeVirtualPath("modules/" + m + "/" + b + ".xml"));
      if text.None? then Err("Block definition not found...")
      else
        var d :- parse(text.value, b);
        CheckDefinition(o, b, d)
  }

  /** Every (module, block) pair of the index, modules in order and each module's blocks in order. */
  function IndexPairs(index: Catalog.Index): (r: seq<(string, string)>)
    ensures forall i, b :: 0 <= i < |index| && b in index[i].1 ==> (index[i].0, b) in r
    ensures forall p :: p in r ==> exists i :: 0 <= i < |index| && index[i].0 == p.0 && p.1 in index[i].1
  {
    if index == [] then []
    else
      var here := seq(|index[0].1|, j requires 0 <= j < |index[0].1| => (index[0].0, index[0].1[j]));
      var rest := IndexPairs(index[1..]);
      assert forall i :: 1 <= i < |index| ==> index[i] == index[1..][i - 1];
      forall b | b in index[0].1 ensures (index[0].0, b) in here {
        var j :| 0 <= j < |index[0].1| && index[0].1[j] == b;
        assert here[j] == (index[0].0, b);
      }
      assert forall p :: p in rest ==> exists i :: 0 <= i < |index| && index[i].0 == p.0 && p.1 in index[i].1 by {
        forall p | p in rest ensures exists i :: 0 <= i < |index| && index[i].0 == p.0 && p.1 in index[i].1 {
          var i :| 0 <= i < |index[1..]| && index[1..][i].0 == p.0 && p.1 in index[1..][i].1;
          assert index[i + 1] == index[1..][i];
        }
      }
      here + rest
  }

  /** `validateBlocksDef`: every block of every module, stopping at the first failure. */
  function ValidateBlocksDef(index: Catalog.Index, tree: Catalog.FsNode, parse: (string, string) -> Result<BlockDef, string>,
                             o: Oracles): Result<(), string>
  {
    CheckAll(IndexPairs(index), (p: (string, string)) => CheckBlockFile(tree, parse, o, p.0, p.1))
  }

  /** The catalog validates exactly when every block of every module does; in particular no block is named "#flags". */
  lemma ValidateBlocksDefAll(index: Catalog.Index, tree: Catalog.FsNode, parse: (string, string) -> Result<BlockDef, string>,
                             o: Oracles)
    ensures ValidateBlocksDef(index, tree, parse, o).Ok? <==>
      forall i, b :: 0 <= i < |index| && b in index[i].1 ==> CheckBlockFile(tree, parse, o, index[i].0, b).Ok?
    ensures ValidateBlocksDef(index, tree, parse, o).Ok? ==>
      forall i :: 0 <= i < |index| ==> ReservedName !in index[i].1
  {
    var pairs := IndexPairs(index);
    var check := (p: (string, string)) => CheckBlockFile(tree, parse, o, p.0, p.1);
    if ValidateBlocksDef(index, tree, parse, o).Ok? {
      forall i, b | 0 <= i < |index| && b in index[i].1 ensures CheckBlockFile(tree, parse, o, index[i].0, b).Ok? {
        var k :| 0 <= k < |pairs| && pairs[k] == (index[i].0, b);
        assert check(pairs[k]).Ok?;
      }
      forall i | 0 <= i < |index| ensures ReservedName !in index[i].1 {
        assert CheckBlockFile(tree, parse, o, index[i].0, ReservedName).Err?;
      }
    } else {
      var k :| 0 <= k < |pairs| && check(pairs[k]).Err?;
      assert pairs[k] in pairs;
      var i :| 0 <= i < |index| && index[i].0 == pairs[k].0 && pairs[k].1 in index[i].1;
      assert !CheckBlockFile(tree, parse, o, index[i].0, pairs[k].1).Ok?;
    }
  }
}
