/**
 * The input resolver of src/services/conversion/blockInputs.ts: for each
 * declared input of a block, find the user's value, fall back to a default,
 * quote literals, collect `multiple` inputs, run nested action chains and
 * return blocks, and check the type a return block produces.
 *
 * The resolver is specified by mutually recursive functions written as the
 * folds the source's loops perform, threading the module states; the
 * methods at the end perform those loops on the shared `customData` object.
 * The recursion descends the user tree (`depth` only indents log lines).
 */
module BlockInputs {
  import opened Wrappers
  import opened Js
  import opened JsText
  import opened Types
  import opened Defs
  import opened User
  import opened Errors
  import opened Engine
  import Catalog

  /** `inputDef.type[0]`. */
  function FirstType(spec: InputSpec): Option<string>
  {
    if |spec.Types()| > 0 then Some(spec.Types()[0]) else None
  }

  /** The input wants action blocks: its first accepted type is "block". */
  predicate TakesBlocks(spec: InputSpec)
  {
    FirstType(spec) == Some("block")
  }

  /** `blockContent[k]`. */
  function FindEntry(content: seq<Entry>, k: string): (r: Option<Item>)
    ensures r.None? <==> forall i :: 0 <= i < |content| ==> content[i].key != k
    ensures r.Some? ==> exists i :: 0 <= i < |content| && content[i] == Entry(k, r.value)
    ensures r.Some? && r.value.Value? && r.value.text.Blocks? ==> BlocksSize(r.value.text.blocks) < ContentSize(content)
  {
    if content == [] then None
    else if content[0].key == k then Some(content[0].item)
    else FindEntry(content[1..], k)
  }

  /** The user gave no value: the key is missing, or holds undefined. */
  predicate Missing(item: Option<Item>)
  {
    item.None? || item.value == AttrValue(Undefined)
  }

  // ---------------------------------------------------------------------
  // Literals and defaults
  // ---------------------------------------------------------------------

  /** The type name a literal carries. */
  function LiteralType(l: Literal): string
  {
    match l
    case LString(_) => "string"
    case LBool(_) => "bool"
    case LNumber(_, k, _) => k.Name()
  }

  /** `resolveDirectValue`: a literal is refused by a block input; otherwise strings are quoted and the rest kept. */
  function ResolveDirectValue(spec: InputSpec, blockName: string, lit: Literal): (r: Result<Resolved, Error>)
    ensures r.Err? <==> TakesBlocks(spec)
    ensures r.Err? ==> r.error == DirectValueForBlockInput(blockName)
    ensures r.Ok? ==> r.value.TypeName() == LiteralType(lit) && !r.value.RBlock?
    ensures r.Ok? && lit.LString? ==> r.value.RString? && StripQuotes(Str(r.value.value)) == Ok(lit.value)
    ensures r.Ok? && !lit.LString? ==> r.value.value == lit.value
    ensures r.Ok? && lit.LNumber? ==> r.value.RNumber? && r.value.size == Num(lit.width)
  {
    if TakesBlocks(spec) then Err(DirectValueForBlockInput(blockName))
    else match lit
      case LString(v) =>
        StripQuotesUndoesQuoting(v);
        Ok(RString("\"" + v + "\""))
      case LBool(v) => Ok(RBool(v))
      case LNumber(v, k, w) => Ok(RNumber(v, k, Num(w)))
  }

  /** `assignDefaultInputValue`: a truthy `required` fails; otherwise the default for the first accepted type. */
  function AssignDefault(spec: InputSpec, inputName: string, blockName: string): (r: Result<Literal, Error>)
    ensures Truthy(spec.Required()) ==> r == Err(RequiredInputMissing(inputName, blockName))
    ensures !Truthy(spec.Required()) ==>
      (r.Ok? <==> FirstType(spec).Some? && FirstType(spec).value in OutputTypes)
    ensures r.Ok? ==> Some(LiteralType(r.value)) == FirstType(spec) && LiteralOk(r.value)
    ensures r.Err? && !Truthy(spec.Required()) ==> r.error == UnsupportedDefaultType(blockName, inputName)
  {
    if Truthy(spec.Required()) then Err(RequiredInputMissing(inputName, blockName))
    else
      var d := spec.Default();
      match FirstType(spec)
      case Some("string") => Ok(LString(ToStr(Coalesce(d, Str("")))))
      case Some("bool") => Ok(LBool(ToStr(Coalesce(d, Bool(false)))))
      case Some("int") => Ok(LNumber(ToStr(Coalesce(d, Num("0"))), KInt, "32"))
      case Some("uint") => Ok(LNumber(ToStr(Coalesce(d, Num("0"))), KUint, "32"))
      case Some("float") => Ok(LNumber(ToStr(Coalesce(d, Num("0"))), KFloat, "64"))
      case _ => Err(UnsupportedDefaultType(blockName, inputName))
  }

  /** Without a `default`, the defaults are "", "false", "0" at width 32 for integers and "0" (not "0.0") at width 64 for floats. */
  lemma DefaultsWithoutDefault(spec: InputSpec, inputName: string, blockName: string)
    requires !Truthy(spec.Required()) && spec.Default() == Undefined
    ensures FirstType(spec) == Some("string") ==> AssignDefault(spec, inputName, blockName) == Ok(LString(""))
    ensures FirstType(spec) == Some("bool") ==> AssignDefault(spec, inputName, blockName) == Ok(LBool("false"))
    ensures FirstType(spec) == Some("int") ==> AssignDefault(spec, inputName, blockName) == Ok(LNumber("0", KInt, "32"))
    ensures FirstType(spec) == Some("uint") ==> AssignDefault(spec, inputName, blockName) == Ok(LNumber("0", KUint, "32"))
    ensures FirstType(spec) == Some("float") ==> AssignDefault(spec, inputName, blockName) == Ok(LNumber("0", KFloat, "64"))
    ensures FirstType(spec) == Some("block") ==> AssignDefault(spec, inputName, blockName) == Err(UnsupportedDefaultType(blockName, inputName))
  {
    var d, r := spec.Default(), AssignDefault(spec, inputName, blockName);
    match FirstType(spec)
    case Some("string") => assert ToStr(Coalesce(d, Str(""))) == "";
    case Some("bool") => assert ToStr(Coalesce(d, Bool(false))) == "false";
    case Some("int") => assert r == Ok(LNumber(ToStr(Coalesce(d, Num("0"))), KInt, "32"));
    case Some("uint") => assert r == Ok(LNumber(ToStr(Coalesce(d, Num("0"))), KUint, "32"));
    case Some("float") => assert r == Ok(LNumber(ToStr(Coalesce(d, Num("0"))), KFloat, "64"));
    case _ =>
  }

  // ---------------------------------------------------------------------
  // Return types
  // ---------------------------------------------------------------------

  /** The type (and, for numbers, the width) a return block produces. */
  datatype RetType = RetType(typeName: string, size: JsValue)

  /**
   * `determineReturnedType`: a literal type from the definition is used as it
   * stands; otherwise the `type` script must answer one of the five type
   * names, and a numeric answer needs a `size` field, run as a script when it
   * is a string and used as it is otherwise. The width is not checked.
   */
  function DetermineReturnedType(env: Env, ret: ReturnSection, ins: Inputs, out: Outputs, state: JsValue,
                                 blockName: string, possible: seq<string>): (r: Result<RetType, Error>)
    ensures r.Ok? ==> r.value.typeName in OutputTypes
  {
    if ret.typeValue.Str? && ret.typeValue.s in OutputTypes then Ok(RetType(ret.typeValue.s, ret.size))
    else
      match env.ty(ReturnTypeCall(ToStr(ret.typeValue), ins, out, state, possible))
      case Err(_) => Err(TypeScriptFailed(blockName))
      case Ok(t) =>
        if !(t.Str? && t.s in OutputTypes) then Err(UndeterminedType(blockName, t))
        else if t.s == "string" || t.s == "bool" then Ok(RetType(t.s, Undefined))
        else if ret.size == Undefined then Err(MissingNumericSize(blockName))
        else if ret.size.Str? then
          match env.ty(ReturnTypeCall(ret.size.s, ins, out, state, possible))
          case Err(_) => Err(SizeScriptFailed(blockName))
          case Ok(size) => Ok(RetType(t.s, size))
        else Ok(RetType(t.s, ret.size))
  }

  /** The declared numeric kind of a numeric type name. */
  function KindOf(t: string): NumKind
  {
    if t == "uint" then KUint else if t == "int" then KInt else KFloat
  }

  /** The final value object of a return block: its text with the determined type, and a width only for numbers. */
  function TypedValue(value: string, rt: RetType): (r: Resolved)
    requires rt.typeName in OutputTypes
    ensures r.TypeName() == rt.typeName && r.value == value
    ensures r.RNumber? <==> rt.typeName !in ["string", "bool"]
    ensures r.RNumber? ==> r.size == rt.size
  {
    if rt.typeName == "string" then RString(value)
    else if rt.typeName == "bool" then RBool(value)
    else RNumber(value, KindOf(rt.typeName), rt.size)
  }

  // ---------------------------------------------------------------------
  // The recursive descent
  // ---------------------------------------------------------------------

  /** The entries a `multiple` input collects: those whose `#flags.for` is the input's name, in content order. */
  function Collect(content: seq<Entry>, inputName: string): (r: seq<Entry>)
    ensures ContentSize(r) <= ContentSize(content)
    ensures forall i :: 0 <= i < |r| ==> r[i].item.Value? && r[i].item.forTag == Some(Str(inputName))
  {
    if content == [] then []
    else
      var rest := Collect(content[1..], inputName);
      var e := content[0];
      if e.item.Value? && e.item.forTag == Some(Str(inputName)) then
        assert ContentSize([e] + rest) == EntrySize(e) + ContentSize(rest) by {
          assert ([e] + rest)[1..] == rest;
        }
        [e] + rest
      else rest
  }

  /** `blockInputs(def, content, …)`: one entry per declared input, in declaration order. */
  function ResolveInputs(env: Env, def: BlockDef, content: seq<Entry>, blockName: string, out: Outputs, st: States): Result<Out<Inputs>, Error>
    decreases ContentSize(content), 4, 0
  {
    InputsGo(env, InputsOf(def), content, blockName, out, 0, [], st)
  }

  function InputsGo(env: Env, specs: seq<(string, InputSpec)>, content: seq<Entry>, blockName: string, out: Outputs,
                    i: nat, acc: Inputs, st: States): Result<Out<Inputs>, Error>
    requires i <= |specs|
    decreases ContentSize(content), 3, |specs| - i
  {
    if i == |specs| then Ok(Out(acc, st))
    else
      var o :- ResolveInput(env, specs[i].1, specs[i].0, content, blockName, out, st);
      InputsGo(env, specs, content, blockName, out, i + 1, Put(acc, specs[i].0, o.value), o.states)
  }

  /** One declared input: a `multiple` one collects tagged entries; a single one takes its entry or the default. */
  function ResolveInput(env: Env, spec: InputSpec, inputName: string, content: seq<Entry>, blockName: string, out: Outputs,
                        st: States): Result<Out<ResolvedInput>, Error>
    decreases ContentSize(content), 2, 0
  {
    if Truthy(spec.Multiple()) then
      var items := Collect(content, inputName);
      MultipleGo(env, spec, inputName, items, blockName, out, 0, [], st)
    else
      var item := FindEntry(content, inputName);
      if Missing(item) then
        var lit :- AssignDefault(spec, inputName, blockName);
        var v :- ResolveDirectValue(spec, blockName, lit);
        Ok(Out(One(v), st))
      else match item.value
        case AttrValue(_) =>
          // a merged block attribute is a primitive, whose `#text` is undefined
          if TakesBlocks(spec) then Err(DirectValueForBlockInput(blockName)) else Err(NotAValue(inputName, blockName))
        case Value(Lit(l), _) =>
          var v :- ResolveDirectValue(spec, blockName, l);
          Ok(Out(One(v), st))
        case Value(Blocks(bs), _) =>
          var o :- ResolveBlockValue(env, spec, inputName, bs, out, st);
          Ok(Out(One(o.value), o.states))
  }

  /** The second loop of a `multiple` input: resolve each collected entry, keyed by its user name. */
  function MultipleGo(env: Env, spec: InputSpec, inputName: string, items: seq<Entry>, blockName: string, out: Outputs,
                      j: nat, acc: seq<(string, Resolved)>, st: States): Result<Out<ResolvedInput>, Error>
    requires j <= |items|
    requires forall k :: 0 <= k < |items| ==> items[k].item.Value?
    decreases ContentSize(items), 1, |items| - j
  {
    if j == |items| then Ok(Out(Many(acc), st))
    else
      var e := items[j];
      EntrySmaller(items, j);
      var o :- ResolveValue(env, spec, inputName, e.item.text, blockName, out, st, ContentSize(items));
      MultipleGo(env, spec, inputName, items, blockName, out, j + 1, Put(acc, e.key, o.value), o.states)
  }

  /** A user value: a block list goes to `resolveBlockValue`, a literal to `resolveDirectValue`. */
  function ResolveValue(env: Env, spec: InputSpec, inputName: string, v: UserValue, blockName: string, out: Outputs,
                        st: States, ghost bound: nat): Result<Out<Resolved>, Error>
    requires v.Blocks? ==> BlocksSize(v.blocks) < bound
    decreases bound, 0, 0
  {
    match v
    case Blocks(bs) => ResolveBlockValue(env, spec, inputName, bs, out, st)
    case Lit(l) =>
      var r :- ResolveDirectValue(spec, blockName, l);
      Ok(Out(r, st))
  }

  /** `resolveBlockValue`: a "block" input runs the whole list as an action chain; any other resolves only the first block, as a return block. */
  function ResolveBlockValue(env: Env, spec: InputSpec, inputName: string, bs: seq<UserBlock>, out: Outputs, st: States): Result<Out<Resolved>, Error>
    decreases BlocksSize(bs), 2, 0
  {
    if TakesBlocks(spec) then ChainGo(env, bs, out, 0, "", st)
    else if bs == [] then Err(NoReturnBlock(inputName))
    else
      BlockSmaller(bs, 0);
      ResolveReturnBlock(env, bs[0], spec, out, st)
  }

  /** `resolveActionBlocks`: the blocks' texts are concatenated in list order, untrimmed. */
  function ChainGo(env: Env, bs: seq<UserBlock>, out: Outputs, k: nat, acc: string, st: States): Result<Out<Resolved>, Error>
    requires k <= |bs|
    decreases BlocksSize(bs), 1, |bs| - k
  {
    if k == |bs| then Ok(Out(RBlock(acc), st))
    else
      BlockSmaller(bs, k);
      var o :- ChainStep(env, bs[k], out, st);
      ChainGo(env, bs, out, k + 1, acc + o.value, o.states)
  }

  /** The texts of the appends, when every one is a string. */
  predicate AllText(appends: seq<Append>)
  {
    forall i :: 0 <= i < |appends| ==> appends[i].Text?
  }

  function Texts(appends: seq<Append>): (r: seq<string>)
    requires AllText(appends)
    ensures |r| == |appends| && forall i :: 0 <= i < |r| ==> r[i] == appends[i].s
  {
    seq(|appends|, i requires 0 <= i < |appends| => appends[i].s)
  }

  // ---------------------------------------------------------------------
  // Nested blocks: the name, module and content the resolvers look up
  // ---------------------------------------------------------------------

  /**
   * `Object.keys(block).find(key => key !== "type" && key !== "#flags")`: a
   * nested block written `<type>` has no other key, so its name is undefined,
   * and "undefined" is how the templates and error messages print it.
   */
  function NestedName(b: UserBlock): string
  {
    if b.name == "type" then "undefined" else b.name
  }

  /** `blockFromModule(name, flags)` for a nested block: an undefined name is in no module's list of names. */
  function NestedModule(env: Env, b: UserBlock): Result<string, Error>
  {
    if b.name != "type" then Catalog.BlockFromModule(env.index, b.name, FlagModule(b.flags))
    else Catalog.BlockFromModule(if env.index.Ok? then Ok([]) else env.index, "undefined", FlagModule(b.flags))
  }

  /** `block[name]`: the block's content, or none at all for an unnamed block. */
  function NestedContent(b: UserBlock): (r: seq<Entry>)
    ensures ContentSize(r) < BlockSize(b)
  {
    if b.name == "type" then [] else b.content
  }

  /** The first declared input that is not `multiple`. */
  function FirstSingle(specs: seq<(string, InputSpec)>): (r: Option<string>)
    ensures r.None? <==> forall i :: 0 <= i < |specs| ==> Truthy(specs[i].1.Multiple())
    ensures r.Some? ==> exists i :: 0 <= i < |specs| && specs[i].0 == r.value && !Truthy(specs[i].1.Multiple())
  {
    if specs == [] then None
    else if !Truthy(specs[0].1.Multiple()) then Some(specs[0].0)
    else FirstSingle(specs[1..])
  }

  /**
   * `blockInputs` on the content `undefined` of an unnamed block: the loop
   * over a `multiple` input's entries runs zero times, and reading the first
   * single input (`blockContent[inputDefName]`) throws.
   */
  function ContentReadable(def: BlockDef, b: UserBlock): (r: Result<(), Error>)
    ensures r.Err? <==> b.name == "type" && FirstSingle(InputsOf(def)).Some?
  {
    if b.name == "type" && FirstSingle(InputsOf(def)).Some? then Err(ContentUndefined(FirstSingle(InputsOf(def)).value))
    else Ok(())
  }

  /** One block of an action chain: resolve its module, definition and inputs, create its module state, run its code. */
  function ChainStep(env: Env, b: UserBlock, out: Outputs, st: States): Result<Out<string>, Error>
    decreases BlockSize(b), 0, 0
  {
    var m :- NestedModule(env, b);
    var def :- env.fetch(m, NestedName(b));
    var _ :- ContentReadable(def, b);
    var ins :- ResolveInputs(env, def, NestedContent(b), NestedName(b), out, st);
    var st2 := EnsureState(ins.states, m);
    match env.gen(ChainCall(ToStr(CodeOf(def)), ins.value, out, st2[m], NestedContent(b)))
    case Err(_) => Err(ActionCodeFailed(NestedName(b)))
    case Ok(g) =>
      if AllText(g.appends) then Ok(Out(Concat(Texts(g.appends)), st2[m := g.state]))
      else Err(ActionCodeFailed(NestedName(b)))
  }

  /**
   * A nested block written `<type>` is resolved under the name undefined:
   * without a module flag no module lists it, whatever the index holds; with
   * one, the file "undefined.xml" is fetched, and a definition with a single
   * input fails reading its content.
   */
  lemma UnnamedNestedBlock(env: Env, b: UserBlock, parent: InputSpec, out: Outputs, st: States)
    requires b.name == "type"
    ensures env.index.Ok? && !Truthy(FlagModule(b.flags)) ==>
      ChainStep(env, b, out, st) == Err(ModuleNotFound("undefined")) &&
      ResolveReturnBlock(env, b, parent, out, st) == Err(ModuleNotFound("undefined"))
    ensures FlagModule(b.flags).Str? && Truthy(FlagModule(b.flags)) ==>
      var m := FlagModule(b.flags).s;
      var d := env.fetch(m, "undefined");
      (d.Err? ==> ChainStep(env, b, out, st) == Err(d.error) && ResolveReturnBlock(env, b, parent, out, st) == Err(d.error)) &&
      (d.Ok? && FirstSingle(InputsOf(d.value)).Some? ==>
         ChainStep(env, b, out, st) == Err(ContentUndefined(FirstSingle(InputsOf(d.value)).value)) &&
         ResolveReturnBlock(env, b, parent, out, st) == Err(ContentUndefined(FirstSingle(InputsOf(d.value)).value)))
  {
  }

  /** `resolveReturnBlock`: resolve, determine and check the type, run the code, build the typed value. */
  function ResolveReturnBlock(env: Env, b: UserBlock, parent: InputSpec, out: Outputs, st: States): Result<Out<Resolved>, Error>
    decreases BlockSize(b), 1, 0
  {
    var m :- NestedModule(env, b);
    var def :- env.fetch(m, NestedName(b));
    var _ :- ContentReadable(def, b);
    var ins :- ResolveInputs(env, def, NestedContent(b), NestedName(b), out, st);
    if !def.Return? then Err(NotAReturnDefinition(NestedName(b)))
    else ReturnValue(env, NestedName(b), parent, m, def, ins.value, out, ins.states)
  }

  /** The appended values of a return block's code, each coerced to a string. */
  function CoercedAll(appends: seq<Append>): (r: seq<string>)
    ensures |r| == |appends| && forall i :: 0 <= i < |r| ==> r[i] == Coerced(appends[i])
  {
    seq(|appends|, i requires 0 <= i < |appends| => Coerced(appends[i]))
  }

  /** The part of `resolveReturnBlock` after the inputs: the type, its check against the parent's input, and the code. */
  function ReturnValue(env: Env, blockName: string, parent: InputSpec, m: string, def: BlockDef, ins: Inputs, out: Outputs,
                       st: States): Result<Out<Resolved>, Error>
    requires def.Return?
  {
    var state := StateOf(st, m);
    var rt :- DetermineReturnedType(env, def.ret, ins, out, state, blockName, parent.Types());
    if !IsValidType(Attr(parent.attrs, "type"), rt.typeName) then Err(TypeNotAllowed(parent.Types(), rt.typeName))
    else
      match env.gen(ReturnCall(ToStr(def.code), ins, out, state))
      case Err(_) => Err(ReturnCodeFailed(blockName))
      case Ok(g) =>
        var value := Concat(CoercedAll(g.appends));
        var st2 := if m in st then st[m := g.state] else st;
        Ok(Out(TypedValue(value, rt), st2))
  }

  // ---------------------------------------------------------------------
  // Properties of the resolver
  // ---------------------------------------------------------------------

  /** One step of the input fold. */
  lemma InputsGoStep(env: Env, specs: seq<(string, InputSpec)>, content: seq<Entry>, blockName: string,
                     out: Outputs, i: nat, acc: Inputs, st: States)
    requires i < |specs|
    ensures InputsGo(env, specs, content, blockName, out, i, acc, st) ==
      match ResolveInput(env, specs[i].1, specs[i].0, content, blockName, out, st)
      case Err(e) => Err(e)
      case Ok(o) => InputsGo(env, specs, content, blockName, out, i + 1, Put(acc, specs[i].0, o.value), o.states)
  {
  }

  /** One step of the `multiple` fold. */
  lemma MultipleGoStep(env: Env, spec: InputSpec, inputName: string, items: seq<Entry>, blockName: string,
                       out: Outputs, j: nat, acc: seq<(string, Resolved)>, st: States)
    requires j < |items| && forall k :: 0 <= k < |items| ==> items[k].item.Value?
    ensures EntrySize(items[j]) <= ContentSize(items)
    ensures MultipleGo(env, spec, inputName, items, blockName, out, j, acc, st) ==
      match ResolveValue(env, spec, inputName, items[j].item.text, blockName, out, st, ContentSize(items))
      case Err(e) => Err(e)
      case Ok(o) => MultipleGo(env, spec, inputName, items, blockName, out, j + 1, Put(acc, items[j].key, o.value), o.states)
  {
    EntrySmaller(items, j);
  }

  lemma {:induction false} InputsGoKeys(env: Env, specs: seq<(string, InputSpec)>, content: seq<Entry>, blockName: string,
                                        out: Outputs, i: nat, acc: Inputs, st: States)
    requires i <= |specs| && Keys(acc) == Dedup(Keys(specs)[..i])
    ensures var r := InputsGo(env, specs, content, blockName, out, i, acc, st);
      r.Ok? ==> Keys(r.value.value) == Dedup(Keys(specs))
    decreases |specs| - i
  {
    var names := Keys(specs);
    if i == |specs| {
      assert names[..i] == names;
    } else {
      PrefixSnoc(names, i);
      DedupSnoc(names[..i], specs[i].0);
      InputsGoStep(env, specs, content, blockName, out, i, acc, st);
      var o := ResolveInput(env, specs[i].1, specs[i].0, content, blockName, out, st);
      if o.Ok? {
        var acc2 := Put(acc, specs[i].0, o.value.value);
        InputsGoKeys(env, specs, content, blockName, out, i + 1, acc2, o.value.states);
      }
    }
  }

  /** The resolved inputs have one key per declared input, in declaration order; user entries nobody declared are ignored. */
  lemma ResolvedInputKeys(env: Env, def: BlockDef, content: seq<Entry>, blockName: string, out: Outputs, st: States)
    ensures var r := ResolveInputs(env, def, content, blockName, out, st);
      r.Ok? ==> Keys(r.value.value) == Dedup(Keys(InputsOf(def)))
    ensures var r := ResolveInputs(env, def, content, blockName, out, st);
      r.Ok? && UniqueKeys(InputsOf(def)) ==> Keys(r.value.value) == Keys(InputsOf(def))
  {
    assert Keys(InputsOf(def))[..0] == [];
    InputsGoKeys(env, InputsOf(def), content, blockName, out, 0, [], st);
    if UniqueKeys(InputsOf(def)) {
      DedupUnique(Keys(InputsOf(def)));
    }
  }

  /** A single input the user left out, whose `required` is truthy. */
  predicate RequiredButMissing(spec: InputSpec, inputName: string, content: seq<Entry>)
  {
    !Truthy(spec.Multiple()) && Missing(FindEntry(content, inputName)) && Truthy(spec.Required())
  }

  /** Such an input fails with "Required input missing". */
  lemma RequiredInputFails(env: Env, spec: InputSpec, inputName: string, content: seq<Entry>, blockName: string, out: Outputs, st: States)
    requires RequiredButMissing(spec, inputName, content)
    ensures ResolveInput(env, spec, inputName, content, blockName, out, st) == Err(RequiredInputMissing(inputName, blockName))
  {
  }

  lemma {:induction false} InputsGoFails(env: Env, specs: seq<(string, InputSpec)>, content: seq<Entry>, blockName: string,
                                         out: Outputs, i: nat, acc: Inputs, st: States, bad: nat)
    requires i <= bad < |specs| && RequiredButMissing(specs[bad].1, specs[bad].0, content)
    ensures InputsGo(env, specs, content, blockName, out, i, acc, st).Err?
    decreases |specs| - i
  {
    InputsGoStep(env, specs, content, blockName, out, i, acc, st);
    if i == bad {
      RequiredInputFails(env, specs[i].1, specs[i].0, content, blockName, out, st);
    } else {
      var o := ResolveInput(env, specs[i].1, specs[i].0, content, blockName, out, st);
      if o.Ok? {
        InputsGoFails(env, specs, content, blockName, out, i + 1, Put(acc, specs[i].0, o.value.value), o.value.states, bad);
      }
    }
  }

  /** A block with a required input the user left out does not resolve. */
  lemma RequiredMissingFailsBlock(env: Env, def: BlockDef, content: seq<Entry>, blockName: string, out: Outputs, st: States, bad: nat)
    requires bad < |InputsOf(def)| && RequiredButMissing(InputsOf(def)[bad].1, InputsOf(def)[bad].0, content)
    ensures ResolveInputs(env, def, content, blockName, out, st).Err?
  {
    InputsGoFails(env, InputsOf(def), content, blockName, out, 0, [], st, bad);
  }

  /** An absent `required` counts as optional: a missing string input gets the quoted default, a missing float "0" at width 64. */
  lemma AbsentRequiredIsOptional(env: Env, spec: InputSpec, inputName: string, content: seq<Entry>, blockName: string, out: Outputs, st: States)
    requires !Truthy(spec.Multiple()) && Missing(FindEntry(content, inputName))
    requires spec.Required() == Undefined && spec.Default() == Undefined
    ensures FirstType(spec) == Some("string") ==>
      ResolveInput(env, spec, inputName, content, blockName, out, st) == Ok(Out(One(RString("\"\"")), st))
    ensures FirstType(spec) == Some("float") ==>
      ResolveInput(env, spec, inputName, content, blockName, out, st) == Ok(Out(One(RNumber("0", KFloat, Num("64"))), st))
    ensures FirstType(spec) == Some("uint") ==>
      ResolveInput(env, spec, inputName, content, blockName, out, st) == Ok(Out(One(RNumber("0", KUint, Num("32"))), st))
  {
    DefaultsWithoutDefault(spec, inputName, blockName);
    assert "\"" + "" + "\"" == "\"\"";
  }

  /** A missing input takes the default for its first type, as a literal. */
  lemma MissingInputTakesDefault(env: Env, spec: InputSpec, inputName: string, content: seq<Entry>, blockName: string, out: Outputs, st: States)
    requires !Truthy(spec.Multiple()) && Missing(FindEntry(content, inputName))
    ensures var r := ResolveInput(env, spec, inputName, content, blockName, out, st);
      var d := AssignDefault(spec, inputName, blockName);
      (d.Err? ==> r == Err(d.error)) &&
      (d.Ok? ==> r.Ok? && r.value.states == st && r.value.value.One? && r.value.value.r.TypeName() == LiteralType(d.value))
  {
  }

  lemma {:induction false} MultipleGoKeys(env: Env, spec: InputSpec, inputName: string, items: seq<Entry>, blockName: string,
                                          out: Outputs, j: nat, acc: seq<(string, Resolved)>, st: States)
    requires j <= |items| && forall k :: 0 <= k < |items| ==> items[k].item.Value?
    requires Keys(acc) == Dedup(EntryKeys(items)[..j])
    ensures var r := MultipleGo(env, spec, inputName, items, blockName, out, j, acc, st);
      r.Ok? ==> r.value.value.Many? && Keys(r.value.value.entries) == Dedup(EntryKeys(items))
    decreases |items| - j
  {
    var names := EntryKeys(items);
    if j == |items| {
      assert names[..j] == names;
    } else {
      MultipleGoStep(env, spec, inputName, items, blockName, out, j, acc, st);
      var o := ResolveValue(env, spec, inputName, items[j].item.text, blockName, out, st, ContentSize(items));
      if o.Ok? {
        var acc2 := Put(acc, items[j].key, o.value.value);
        assert Keys(acc2) == Dedup(names[..j + 1]) by {
          PrefixSnoc(names, j);
          DedupSnoc(names[..j], items[j].key);
        }
        MultipleGoKeys(env, spec, inputName, items, blockName, out, j + 1, acc2, o.value.states);
      }
    }
  }

  /** The user names of content entries. */
  function EntryKeys(c: seq<Entry>): (r: seq<string>)
    ensures |r| == |c| && forall i :: 0 <= i < |c| ==> r[i] == c[i].key
  {
    seq(|c|, i requires 0 <= i < |c| => c[i].key)
  }

  /** A `multiple` input yields a map keyed by exactly the entries tagged for it, in content order; none tagged gives an empty map. */
  lemma MultipleInputKeys(env: Env, spec: InputSpec, inputName: string, content: seq<Entry>, blockName: string, out: Outputs, st: States)
    requires Truthy(spec.Multiple())
    ensures var r := ResolveInput(env, spec, inputName, content, blockName, out, st);
      r.Ok? ==> r.value.value.Many? && Keys(r.value.value.entries) == Dedup(EntryKeys(Collect(content, inputName)))
    ensures Collect(content, inputName) == [] ==>
      ResolveInput(env, spec, inputName, content, blockName, out, st) == Ok(Out(Many([]), st))
  {
    var items := Collect(content, inputName);
    assert EntryKeys(items)[..0] == [];
    MultipleGoKeys(env, spec, inputName, items, blockName, out, 0, [], st);
  }

  /** An entry is collected exactly when it is a value tagged `for` the input. */
  lemma {:induction false} CollectExact(content: seq<Entry>, inputName: string, e: Entry)
    ensures e in Collect(content, inputName) <==> e in content && e.item.Value? && e.item.forTag == Some(Str(inputName))
  {
    if content != [] {
      CollectExact(content[1..], inputName, e);
      assert content == [content[0]] + content[1..];
    }
  }

  lemma {:induction false} ChainGoExtends(env: Env, bs: seq<UserBlock>, out: Outputs, k: nat, acc: string, st: States)
    requires k <= |bs|
    ensures var r := ChainGo(env, bs, out, k, acc, st);
      r.Ok? ==> r.value.value.RBlock? && StartsWith(r.value.value.value, acc)
    decreases |bs| - k
  {
    if k < |bs| {
      BlockSmaller(bs, k);
      var o := ChainStep(env, bs[k], out, st);
      if o.Ok? {
        ChainGoExtends(env, bs, out, k + 1, acc + o.value.value, o.value.states);
        var r := ChainGo(env, bs, out, k + 1, acc + o.value.value, o.value.states);
        if r.Ok? {
          assert r.value.value.value[..|acc|] == (acc + o.value.value)[..|acc|];
        }
      }
    }
  }

  /** An action chain yields a block value whose text starts with the first block's text, untrimmed. */
  lemma ChainIsConcatenation(env: Env, b: UserBlock, rest: seq<UserBlock>, out: Outputs, st: States)
    ensures var r := ChainGo(env, [b] + rest, out, 0, "", st);
      var first := ChainStep(env, b, out, st);
      r.Ok? ==> first.Ok? && r.value.value.RBlock? && StartsWith(r.value.value.value, first.value.value)
  {
    var bs := [b] + rest;
    assert bs[0] == b;
    BlockSmaller(bs, 0);
    var first := ChainStep(env, b, out, st);
    if first.Ok? {
      assert "" + first.value.value == first.value.value;
      ChainGoExtends(env, bs, out, 1, first.value.value, first.value.states);
    }
  }

  /**
   * Once a chain block's module, definition and inputs are resolved, its
   * generator decides: a throw or a non-string append fails the chain with
   * the block's name; otherwise the block contributes the appended strings,
   * joined and untrimmed, and the module's state (created if need be) becomes
   * what the generator left.
   */
  lemma ChainStepByGenerator(env: Env, b: UserBlock, out: Outputs, st: States, m: string, def: BlockDef, ins: Out<Inputs>)
    requires NestedModule(env, b) == Ok(m)
    requires env.fetch(m, NestedName(b)) == Ok(def) && ContentReadable(def, b).Ok?
    requires ResolveInputs(env, def, NestedContent(b), NestedName(b), out, st) == Ok(ins)
    ensures var g := env.gen(ChainCall(ToStr(CodeOf(def)), ins.value, out, StateOf(EnsureState(ins.states, m), m), NestedContent(b)));
      var r := ChainStep(env, b, out, st);
      (g.Err? || !AllText(g.value.appends) ==> r == Err(ActionCodeFailed(NestedName(b)))) &&
      (g.Ok? && AllText(g.value.appends) ==>
         r == Ok(Out(Concat(Texts(g.value.appends)), EnsureState(ins.states, m)[m := g.value.state])))
  {
  }

  /** For a non-block input only the first block of the list is resolved; the rest is ignored. */
  lemma ReturnUsesFirstBlockOnly(env: Env, spec: InputSpec, inputName: string, b: UserBlock, rest1: seq<UserBlock>, rest2: seq<UserBlock>,
                                 out: Outputs, st: States)
    requires !TakesBlocks(spec)
    ensures ResolveBlockValue(env, spec, inputName, [b] + rest1, out, st) == ResolveBlockValue(env, spec, inputName, [b] + rest2, out, st)
    ensures ResolveBlockValue(env, spec, inputName, [], out, st) == Err(NoReturnBlock(inputName))
  {
    assert ([b] + rest1)[0] == b && ([b] + rest2)[0] == b;
  }

  /** A return block that resolves produces a type the consuming input accepts, one of the five value types, with a width only for numbers. */
  lemma ReturnTypeAccepted(env: Env, b: UserBlock, parent: InputSpec, out: Outputs, st: States)
    ensures var r := ResolveReturnBlock(env, b, parent, out, st);
      r.Ok? ==> IsValidType(Attr(parent.attrs, "type"), r.value.value.TypeName()) &&
                r.value.value.TypeName() in OutputTypes &&
                (r.value.value.RNumber? <==> r.value.value.TypeName() in ["uint", "int", "float"])
  {
    var m := NestedModule(env, b);
    if m.Ok? {
      var def := env.fetch(m.value, NestedName(b));
      if def.Ok? && def.value.Return? && ContentReadable(def.value, b).Ok? {
        var ins := ResolveInputs(env, def.value, NestedContent(b), NestedName(b), out, st);
        if ins.Ok? {
          ReturnValueAccepted(env, NestedName(b), parent, m.value, def.value, ins.value.value, out, ins.value.states);
        }
      }
    }
  }

  lemma ReturnValueAccepted(env: Env, blockName: string, parent: InputSpec, m: string, def: BlockDef, ins: Inputs, out: Outputs,
                            st: States)
    requires def.Return?
    ensures var r := ReturnValue(env, blockName, parent, m, def, ins, out, st);
      r.Ok? ==> IsValidType(Attr(parent.attrs, "type"), r.value.value.TypeName()) &&
                r.value.value.TypeName() in OutputTypes &&
                (r.value.value.RNumber? <==> r.value.value.TypeName() in ["uint", "int", "float"])
  {
  }

  /** A literal return type is used as it stands, width and all, without validation. */
  lemma LiteralReturnTypeAsIs(env: Env, t: string, size: JsValue, ins: Inputs, out: Outputs, state: JsValue, blockName: string, possible: seq<string>)
    requires t in OutputTypes
    ensures DetermineReturnedType(env, ReturnSection(Str(t), size), ins, out, state, blockName, possible) == Ok(RetType(t, size))
  {
  }

  /** A type script answering anything but the five names fails; a numeric answer without a `size` field fails. */
  lemma ScriptReturnTypeChecks(env: Env, ret: ReturnSection, ins: Inputs, out: Outputs, state: JsValue, blockName: string, possible: seq<string>)
    requires !(ret.typeValue.Str? && ret.typeValue.s in OutputTypes)
    ensures var a := env.ty(ReturnTypeCall(ToStr(ret.typeValue), ins, out, state, possible));
      var r := DetermineReturnedType(env, ret, ins, out, state, blockName, possible);
      (a.Err? ==> r == Err(TypeScriptFailed(blockName))) &&
      (a.Ok? && !(a.value.Str? && a.value.s in OutputTypes) ==> r == Err(UndeterminedType(blockName, a.value))) &&
      (a.Ok? && a.value in [Str("int"), Str("uint"), Str("float")] && ret.size == Undefined ==> r == Err(MissingNumericSize(blockName))) &&
      (a.Ok? && a.value in [Str("string"), Str("bool")] ==> r == Ok(RetType(a.value.s, Undefined)))
  {
  }

  /** A width from a `size` script is taken as it is, even one outside the width catalog. */
  lemma SizeScriptUnchecked(env: Env, ret: ReturnSection, ins: Inputs, out: Outputs, state: JsValue, blockName: string, possible: seq<string>)
    requires ret.typeValue.Str? && ret.typeValue.s !in OutputTypes && ret.size.Str?
    requires env.ty(ReturnTypeCall(ret.typeValue.s, ins, out, state, possible)) == Ok(Str("int"))
    requires env.ty(ReturnTypeCall(ret.size.s, ins, out, state, possible)) == Ok(Num("7"))
    ensures DetermineReturnedType(env, ret, ins, out, state, blockName, possible) == Ok(RetType("int", Num("7")))
  {
  }

  // ---------------------------------------------------------------------
  // Module states are created, never removed
  // ---------------------------------------------------------------------

  /** Resolving inputs never removes a module's state: `customData` only gains keys. */
  lemma {:induction false} InputsKeepStates(env: Env, specs: seq<(string, InputSpec)>, content: seq<Entry>, blockName: string,
                                            out: Outputs, i: nat, acc: Inputs, st: States)
    requires i <= |specs|
    ensures var r := InputsGo(env, specs, content, blockName, out, i, acc, st); r.Ok? ==> st.Keys <= r.value.states.Keys
    decreases ContentSize(content), 3, |specs| - i
  {
    if i < |specs| {
      InputsGoStep(env, specs, content, blockName, out, i, acc, st);
      InputKeepsStates(env, specs[i].1, specs[i].0, content, blockName, out, st);
      var o := ResolveInput(env, specs[i].1, specs[i].0, content, blockName, out, st);
      if o.Ok? {
        InputsKeepStates(env, specs, content, blockName, out, i + 1, Put(acc, specs[i].0, o.value.value), o.value.states);
      }
    }
  }

  lemma {:induction false} InputKeepsStates(env: Env, spec: InputSpec, inputName: string, content: seq<Entry>, blockName: string,
                                            out: Outputs, st: States)
    ensures var r := ResolveInput(env, spec, inputName, content, blockName, out, st); r.Ok? ==> st.Keys <= r.value.states.Keys
    decreases ContentSize(content), 2, 0
  {
    if Truthy(spec.Multiple()) {
      MultipleKeepsStates(env, spec, inputName, Collect(content, inputName), blockName, out, 0, [], st);
    } else {
      var item := FindEntry(content, inputName);
      if !Missing(item) && item.value.Value? && item.value.text.Blocks? {
        BlockValueKeepsStates(env, spec, inputName, item.value.text.blocks, out, st);
      }
    }
  }

  lemma {:induction false} MultipleKeepsStates(env: Env, spec: InputSpec, inputName: string, items: seq<Entry>, blockName: string,
                                               out: Outputs, j: nat, acc: seq<(string, Resolved)>, st: States)
    requires j <= |items| && forall k :: 0 <= k < |items| ==> items[k].item.Value?
    ensures var r := MultipleGo(env, spec, inputName, items, blockName, out, j, acc, st); r.Ok? ==> st.Keys <= r.value.states.Keys
    decreases ContentSize(items), 1, |items| - j
  {
    if j < |items| {
      EntrySmaller(items, j);
      var v := items[j].item.text;
      var o := ResolveValue(env, spec, inputName, v, blockName, out, st, ContentSize(items));
      assert o.Ok? ==> st.Keys <= o.value.states.Keys by {
        ValueKeepsStates(env, spec, inputName, v, blockName, out, st, ContentSize(items));
      }
      if o.Ok? {
        var next := Put(acc, items[j].key, o.value.value);
        assert MultipleGo(env, spec, inputName, items, blockName, out, j, acc, st) ==
               MultipleGo(env, spec, inputName, items, blockName, out, j + 1, next, o.value.states) by {
          MultipleGoStep(env, spec, inputName, items, blockName, out, j, acc, st);
        }
        MultipleKeepsStates(env, spec, inputName, items, blockName, out, j + 1, next, o.value.states);
      } else {
        assert MultipleGo(env, spec, inputName, items, blockName, out, j, acc, st).Err? by {
          MultipleGoStep(env, spec, inputName, items, blockName, out, j, acc, st);
        }
      }
    }
  }

  lemma {:induction false} ValueKeepsStates(env: Env, spec: InputSpec, inputName: string, v: UserValue, blockName: string,
                                            out: Outputs, st: States, bound: nat)
    requires v.Blocks? ==> BlocksSize(v.blocks) < bound
    ensures var r := ResolveValue(env, spec, inputName, v, blockName, out, st, bound); r.Ok? ==> st.Keys <= r.value.states.Keys
    decreases bound, 0, 0
  {
    if v.Blocks? {
      BlockValueKeepsStates(env, spec, inputName, v.blocks, out, st);
    }
  }

  lemma {:induction false} BlockValueKeepsStates(env: Env, spec: InputSpec, inputName: string, bs: seq<UserBlock>, out: Outputs, st: States)
    ensures var r := ResolveBlockValue(env, spec, inputName, bs, out, st); r.Ok? ==> st.Keys <= r.value.states.Keys
    decreases BlocksSize(bs), 2, 0
  {
    if TakesBlocks(spec) {
      ChainKeepsStates(env, bs, out, 0, "", st);
    } else if bs != [] {
      BlockSmaller(bs, 0);
      ReturnKeepsStates(env, bs[0], spec, out, st);
    }
  }

  lemma {:induction false} ChainKeepsStates(env: Env, bs: seq<UserBlock>, out: Outputs, k: nat, acc: string, st: States)
    requires k <= |bs|
    ensures var r := ChainGo(env, bs, out, k, acc, st); r.Ok? ==> st.Keys <= r.value.states.Keys
    decreases BlocksSize(bs), 1, |bs| - k
  {
    if k < |bs| {
      BlockSmaller(bs, k);
      ChainGoStep(env, bs, out, k, acc, st);
      StepKeepsStates(env, bs[k], out, st);
      var o := ChainStep(env, bs[k], out, st);
      if o.Ok? {
        ChainKeepsStates(env, bs, out, k + 1, acc + o.value.value, o.value.states);
      }
    }
  }

  /** An action block's module always has a state afterwards. */
  lemma {:induction false} StepKeepsStates(env: Env, b: UserBlock, out: Outputs, st: States)
    ensures var r := ChainStep(env, b, out, st); r.Ok? ==> st.Keys <= r.value.states.Keys
    ensures var r := ChainStep(env, b, out, st);
      r.Ok? ==> NestedModule(env, b).Ok? && NestedModule(env, b).value in r.value.states
    decreases BlockSize(b), 0, 0
  {
    var m := NestedModule(env, b);
    if m.Ok? {
      var def := env.fetch(m.value, NestedName(b));
      if def.Ok? {
        InputsKeepStates(env, InputsOf(def.value), NestedContent(b), NestedName(b), out, 0, [], st);
      }
    }
  }

  lemma {:induction false} ReturnKeepsStates(env: Env, b: UserBlock, parent: InputSpec, out: Outputs, st: States)
    ensures var r := ResolveReturnBlock(env, b, parent, out, st); r.Ok? ==> st.Keys <= r.value.states.Keys
    decreases BlockSize(b), 1, 0
  {
    var m := NestedModule(env, b);
    if m.Ok? {
      var def := env.fetch(m.value, NestedName(b));
      if def.Ok? {
        InputsKeepStates(env, InputsOf(def.value), NestedContent(b), NestedName(b), out, 0, [], st);
      }
    }
  }

  // ---------------------------------------------------------------------
  // The resolver as the source runs it, on the shared module states
  // ---------------------------------------------------------------------

  /** A run agrees with its specification: on success the same value and the specified states; on failure the same error. */
  predicate Agrees<T(==)>(r: Result<T, Error>, now: States, spec: Result<Out<T>, Error>)
  {
    match spec
    case Ok(o) => r == Ok(o.value) && now == o.states
    case Err(e) => r == Err(e)
  }

  /** One step of an action chain. */
  lemma ChainGoStep(env: Env, bs: seq<UserBlock>, out: Outputs, k: nat, acc: string, st: States)
    requires k < |bs|
    ensures ChainGo(env, bs, out, k, acc, st) ==
      match ChainStep(env, bs[k], out, st)
      case Err(e) => Err(e)
      case Ok(o) => ChainGo(env, bs, out, k + 1, acc + o.value, o.states)
  {
    BlockSmaller(bs, k);
  }

  /** `blockInputs`: the loop over the declared inputs. */
  method RunBlockInputs(env: Env, def: BlockDef, content: seq<Entry>, blockName: string, out: Outputs, cd: ModuleStates)
    returns (r: Result<Inputs, Error>)
    modifies cd
    ensures Agrees(r, cd.states, ResolveInputs(env, def, content, blockName, out, old(cd.states)))
    decreases ContentSize(content), 4, 0
  {
    var specs := InputsOf(def);
    var acc: Inputs := [];
    var i := 0;
    while i < |specs|
      invariant i <= |specs|
      invariant InputsGo(env, specs, content, blockName, out, i, acc, cd.states) ==
                ResolveInputs(env, def, content, blockName, out, old(cd.states))
      decreases |specs| - i
    {
      ghost var before := cd.states;
      var o := RunInput(env, specs[i].1, specs[i].0, content, blockName, out, cd);
      InputsGoStep(env, specs, content, blockName, out, i, acc, before);
      if o.Err? {
        return Err(o.error);
      }
      acc := Put(acc, specs[i].0, o.value);
      i := i + 1;
    }
    return Ok(acc);
  }

  /** One declared input. */
  method RunInput(env: Env, spec: InputSpec, inputName: string, content: seq<Entry>, blockName: string, out: Outputs,
                  cd: ModuleStates) returns (r: Result<ResolvedInput, Error>)
    modifies cd
    ensures Agrees(r, cd.states, ResolveInput(env, spec, inputName, content, blockName, out, old(cd.states)))
    decreases ContentSize(content), 2, 0
  {
    if Truthy(spec.Multiple()) {
      r := RunMultipleInput(env, spec, inputName, content, blockName, out, cd);
    } else {
      r := RunSingleInput(env, spec, inputName, content, blockName, out, cd);
    }
  }

  /** The first loop of a `multiple` input: the entries whose `#flags.for` names it. */
  method CollectTagged(content: seq<Entry>, inputName: string) returns (items: seq<Entry>)
    ensures items == Collect(content, inputName)
  {
    items := [];
    var k := 0;
    while k < |content|
      invariant k <= |content|
      invariant items + Collect(content[k..], inputName) == Collect(content, inputName)
    {
      assert content[k..][1..] == content[k + 1..];
      var e := content[k];
      if e.item.Value? && e.item.forTag == Some(Str(inputName)) {
        items := items + [e];
      }
      k := k + 1;
    }
  }

  /** A `multiple` input: collect the tagged entries, then resolve each under its own user name. */
  method RunMultipleInput(env: Env, spec: InputSpec, inputName: string, content: seq<Entry>, blockName: string, out: Outputs,
                          cd: ModuleStates) returns (r: Result<ResolvedInput, Error>)
    requires Truthy(spec.Multiple())
    modifies cd
    ensures Agrees(r, cd.states, ResolveInput(env, spec, inputName, content, blockName, out, old(cd.states)))
    decreases ContentSize(content), 1, 0
  {
    var items := CollectTagged(content, inputName);
    ghost var goal := MultipleGo(env, spec, inputName, items, blockName, out, 0, [], cd.states);
    assert goal == ResolveInput(env, spec, inputName, content, blockName, out, cd.states);
    var acc: seq<(string, Resolved)> := [];
    var j := 0;
    while j < |items|
      invariant j <= |items|
      invariant MultipleGo(env, spec, inputName, items, blockName, out, j, acc, cd.states) == goal
      decreases |items| - j
    {
      ghost var before := cd.states;
      MultipleGoStep(env, spec, inputName, items, blockName, out, j, acc, before);
      var v := RunValue(env, spec, inputName, items[j].item.text, blockName, out, cd, ContentSize(items));
      if v.Err? {
        return Err(v.error);
      }
      acc := Put(acc, items[j].key, v.value);
      j := j + 1;
    }
    return Ok(Many(acc));
  }

  /** One collected entry: a block list goes to `resolveBlockValue`, anything else to `resolveDirectValue`. */
  method RunValue(env: Env, spec: InputSpec, inputName: string, v: UserValue, blockName: string, out: Outputs,
                  cd: ModuleStates, ghost bound: nat) returns (r: Result<Resolved, Error>)
    requires v.Blocks? ==> BlocksSize(v.blocks) < bound
    modifies cd
    ensures Agrees(r, cd.states, ResolveValue(env, spec, inputName, v, blockName, out, old(cd.states), bound))
    decreases bound, 0, 0
  {
    match v
    case Blocks(bs) =>
      r := RunBlockValue(env, spec, inputName, bs, out, cd);
    case Lit(l) =>
      r := ResolveDirectValue(spec, blockName, l);
  }

  /** A single input: the user's entry, or the default when it is missing. */
  method RunSingleInput(env: Env, spec: InputSpec, inputName: string, content: seq<Entry>, blockName: string, out: Outputs,
                        cd: ModuleStates) returns (r: Result<ResolvedInput, Error>)
    requires !Truthy(spec.Multiple())
    modifies cd
    ensures Agrees(r, cd.states, ResolveInput(env, spec, inputName, content, blockName, out, old(cd.states)))
    decreases ContentSize(content), 1, 0
  {
    var item := FindEntry(content, inputName);
    if Missing(item) {
      var lit := AssignDefault(spec, inputName, blockName);
      if lit.Err? {
        return Err(lit.error);
      }
      var v := ResolveDirectValue(spec, blockName, lit.value);
      if v.Err? {
        return Err(v.error);
      }
      return Ok(One(v.value));
    }
    match item.value
    case AttrValue(_) =>
      r := if TakesBlocks(spec) then Err(DirectValueForBlockInput(blockName)) else Err(NotAValue(inputName, blockName));
    case Value(Lit(l), _) =>
      var v := ResolveDirectValue(spec, blockName, l);
      if v.Err? {
        return Err(v.error);
      }
      r := Ok(One(v.value));
    case Value(Blocks(bs), _) =>
      var o := RunBlockValue(env, spec, inputName, bs, out, cd);
      if o.Err? {
        return Err(o.error);
      }
      r := Ok(One(o.value));
  }

  /** `resolveBlockValue`. */
  method RunBlockValue(env: Env, spec: InputSpec, inputName: string, bs: seq<UserBlock>, out: Outputs, cd: ModuleStates)
    returns (r: Result<Resolved, Error>)
    modifies cd
    ensures Agrees(r, cd.states, ResolveBlockValue(env, spec, inputName, bs, out, old(cd.states)))
    decreases BlocksSize(bs), 2, 0
  {
    if TakesBlocks(spec) {
      r := RunActionBlocks(env, bs, out, cd);
    } else if bs == [] {
      r := Err(NoReturnBlock(inputName));
    } else {
      BlockSmaller(bs, 0);
      r := RunReturnBlock(env, bs[0], spec, out, cd);
    }
  }

  /** An action block's `addAtBlockLocation`: appends strings to the block's text and throws at the first non-string. */
  method AppendTexts(appends: seq<Append>) returns (r: Option<string>)
    ensures r.Some? <==> AllText(appends)
    ensures r.Some? ==> r.value == Concat(Texts(appends))
  {
    var local := "";
    var t := 0;
    while t < |appends|
      invariant t <= |appends| && AllText(appends[..t]) && local == Concat(Texts(appends[..t]))
    {
      if appends[t].NonText? {
        return None;
      }
      assert appends[..t + 1] == appends[..t] + [appends[t]];
      assert Texts(appends[..t + 1]) == Texts(appends[..t]) + [appends[t].s];
      ConcatAppend(Texts(appends[..t]), appends[t].s);
      local := local + appends[t].s;
      t := t + 1;
    }
    assert appends[..t] == appends;
    return Some(local);
  }

  /** `resolveActionBlocks`: the loop over the chain, joining the blocks' texts. */
  method RunActionBlocks(env: Env, bs: seq<UserBlock>, out: Outputs, cd: ModuleStates) returns (r: Result<Resolved, Error>)
    modifies cd
    ensures Agrees(r, cd.states, ChainGo(env, bs, out, 0, "", old(cd.states)))
    decreases BlocksSize(bs), 1, 0
  {
    var generated := "";
    var k := 0;
    while k < |bs|
      invariant k <= |bs|
      invariant ChainGo(env, bs, out, k, generated, cd.states) == ChainGo(env, bs, out, 0, "", old(cd.states))
      decreases |bs| - k
    {
      ghost var before := cd.states;
      BlockSmaller(bs, k);
      ChainGoStep(env, bs, out, k, generated, before);
      var local := RunChainStep(env, bs[k], out, cd);
      if local.Err? {
        return Err(local.error);
      }
      generated := generated + local.value;
      k := k + 1;
    }
    return Ok(RBlock(generated));
  }

  /** One block of an action chain. */
  method RunChainStep(env: Env, b: UserBlock, out: Outputs, cd: ModuleStates) returns (r: Result<string, Error>)
    modifies cd
    ensures Agrees(r, cd.states, ChainStep(env, b, out, old(cd.states)))
    decreases BlockSize(b), 0, 0
  {
    var m := NestedModule(env, b);
    if m.Err? {
      return Err(m.error);
    }
    var def := env.fetch(m.value, NestedName(b));
    if def.Err? {
      return Err(def.error);
    }
    var readable := ContentReadable(def.value, b);
    if readable.Err? {
      return Err(readable.error);
    }
    var ins := RunBlockInputs(env, def.value, NestedContent(b), NestedName(b), out, cd);
    if ins.Err? {
      return Err(ins.error);
    }
    cd.Ensure(m.value);
    var g := env.gen(ChainCall(ToStr(CodeOf(def.value)), ins.value, out, cd.states[m.value], NestedContent(b)));
    if g.Err? {
      return Err(ActionCodeFailed(NestedName(b)));
    }
    var local := AppendTexts(g.value.appends);
    if local.None? {
      return Err(ActionCodeFailed(NestedName(b)));
    }
    cd.Set(m.value, g.value.state);
    return Ok(local.value);
  }

  /** A return block's `addAtBlockLocation`: appends anything, coerced to a string. */
  method AppendCoerced(appends: seq<Append>) returns (r: string)
    ensures r == Concat(CoercedAll(appends))
  {
    ghost var coerced := CoercedAll(appends);
    r := "";
    var t := 0;
    while t < |appends|
      invariant t <= |appends| && r == Concat(coerced[..t])
    {
      assert coerced[..t + 1] == coerced[..t] + [Coerced(appends[t])];
      ConcatAppend(coerced[..t], Coerced(appends[t]));
      r := r + Coerced(appends[t]);
      t := t + 1;
    }
    assert coerced[..t] == coerced;
  }

  /** `resolveReturnBlock`. */
  method RunReturnBlock(env: Env, b: UserBlock, parent: InputSpec, out: Outputs, cd: ModuleStates) returns (r: Result<Resolved, Error>)
    modifies cd
    ensures Agrees(r, cd.states, ResolveReturnBlock(env, b, parent, out, old(cd.states)))
    decreases BlockSize(b), 1, 0
  {
    var m := NestedModule(env, b);
    if m.Err? {
      return Err(m.error);
    }
    var def := env.fetch(m.value, NestedName(b));
    if def.Err? {
      return Err(def.error);
    }
    var readable := ContentReadable(def.value, b);
    if readable.Err? {
      return Err(readable.error);
    }
    var ins := RunBlockInputs(env, def.value, NestedContent(b), NestedName(b), out, cd);
    if ins.Err? {
      return Err(ins.error);
    }
    if !def.value.Return? {
      return Err(NotAReturnDefinition(NestedName(b)));
    }
    r := RunReturnCode(env, NestedName(b), parent, m.value, def.value, ins.value, out, cd);
  }

  /** The type of a return block, its check, and its code. */
  method RunReturnCode(env: Env, blockName: string, parent: InputSpec, m: string, def: BlockDef, ins: Inputs, out: Outputs,
                       cd: ModuleStates) returns (r: Result<Resolved, Error>)
    requires def.Return?
    modifies cd
    ensures Agrees(r, cd.states, ReturnValue(env, blockName, parent, m, def, ins, out, old(cd.states)))
  {
    var state := StateOf(cd.states, m);
    var rt := DetermineReturnedType(env, def.ret, ins, out, state, blockName, parent.Types());
    if rt.Err? {
      return Err(rt.error);
    }
    if !IsValidType(Attr(parent.attrs, "type"), rt.value.typeName) {
      return Err(TypeNotAllowed(parent.Types(), rt.value.typeName));
    }
    var g := env.gen(ReturnCall(ToStr(def.code), ins, out, state));
    if g.Err? {
      return Err(ReturnCodeFailed(blockName));
    }
    var generated := AppendCoerced(g.value.appends);
    if m in cd.states {
      cd.Set(m, g.value.state);
    }
    return Ok(TypedValue(generated, rt.value));
  }
}
