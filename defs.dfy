/**
 * Block definitions as the definition parser produces them, and the shapes
 * src/schemas/blocks.ts gives their sections. Attribute objects are kept as
 * the ordered attribute lists of the definition file, so that the converter
 * and the validator read the same values.
 */
module Defs {
  import opened Wrappers
  import opened Js
  import opened Types

  type Attrs = seq<(string, JsValue)>

  /** `attrs[k]`, undefined when the attribute is absent. */
  function Attr(attrs: Attrs, k: string): JsValue
  {
    Get(Obj(attrs), k)
  }

  /** One declared input of an action or return block. */
  datatype InputSpec = InputSpec(attrs: Attrs)
  {
    /** The accepted types; the definition parser makes `type` an array. */
    function Types(): seq<string>
    {
      var t := Attr(attrs, "type"); if t.List? then t.items else []
    }
    function Required(): JsValue { Attr(attrs, "required") }
    function Default(): JsValue { Attr(attrs, "default") }
    function Multiple(): JsValue { Attr(attrs, "multiple") }
    function CanYouPutBlockIn(): JsValue { Attr(attrs, "canYouPutBlockIn") }
  }

  /** The `return` section: `{type, size}` (numeric or script) or `{type}` (string/bool, size undefined). */
  datatype ReturnSection = ReturnSection(typeValue: JsValue, size: JsValue)

  /** One declared output of an event block. */
  datatype OutputSpec = OutputSpec(attrs: Attrs)
  {
    function TypeValue(): JsValue { Attr(attrs, "type") }
    function Size(): JsValue { Attr(attrs, "size") }
    function Multiple(): JsValue { Attr(attrs, "multiple") }
  }

  /** One entry of an event's `resultType` section: a type script and a size script. */
  datatype ResultTypeSection = ResultTypeSection(typeScript: JsValue, sizeScript: JsValue)

  datatype BlockDef =
    | Action(inputs: seq<(string, InputSpec)>, code: JsValue)
    | Return(inputs: seq<(string, InputSpec)>, ret: ReturnSection, code: JsValue)
    | Event(outputs: seq<(string, OutputSpec)>, resultType: Option<seq<(string, ResultTypeSection)>>,
            handle: Option<Attrs>)

  datatype Kind = ActionKind | ReturnKind | EventKind
  {
    function Name(): string
    {
      match this
      case ActionKind => "action"
      case ReturnKind => "return"
      case EventKind => "event"
    }
  }

  /** The own keys of the parsed definition object (present even when their value is undefined). */
  function DefKeys(d: BlockDef): set<string>
  {
    match d
    case Action(_, _) => {"inputs", "code"}
    case Return(_, _, _) => {"inputs", "return", "code"}
    case Event(_, _, _) => {"outputs", "resultType", "handle"}
  }

  /** `def.inputs`, read by a loop that visits nothing when it is undefined. */
  function InputsOf(d: BlockDef): seq<(string, InputSpec)>
  {
    if d.Event? then [] else d.inputs
  }

  /** `def.code`. */
  function CodeOf(d: BlockDef): JsValue
  {
    if d.Event? then Undefined else d.code
  }

  /** `def.handle?.suffix`. */
  function SuffixOf(d: BlockDef): JsValue
  {
    if d.Event? && d.handle.Some? then Attr(d.handle.value, "suffix") else Undefined
  }

  // ---------------------------------------------------------------------
  // Section shapes (the zod schemas of src/schemas/blocks.ts)
  // ---------------------------------------------------------------------

  predicate Absent(attrs: Attrs, k: string) { Attr(attrs, k) == Undefined }
  predicate OptStr(attrs: Attrs, k: string) { Absent(attrs, k) || Attr(attrs, k).Str? }
  predicate OptBool(attrs: Attrs, k: string) { Absent(attrs, k) || Attr(attrs, k).Bool? }
  predicate OptNum(attrs: Attrs, k: string) { Absent(attrs, k) || Attr(attrs, k).Num? }

  predicate OnlyKeys(attrs: Attrs, allowed: set<string>)
  {
    forall i :: 0 <= i < |attrs| ==> attrs[i].0 in allowed
  }

  const OutputKeys: set<string> := {"type", "size", "blockDoc", "multiple", "multipleMax"}

  predicate OutputCommonOk(attrs: Attrs)
  {
    OptStr(attrs, "blockDoc") && OptBool(attrs, "multiple") && OptNum(attrs, "multipleMax")
  }

  /** OutputsSectionParametersSchema: a static float/int/uint type with a legal width, bool/string without width, or neither type nor size. */
  predicate OutputSchemaAccepts(o: OutputSpec)
  {
    var t := o.TypeValue();
    var size := o.Size();
    var staticType :=
      (t == Str("float") && size in FloatSizes) ||
      ((t == Str("int") || t == Str("uint")) && size in IntSizes) ||
      ((t == Str("bool") || t == Str("string")) && size == Undefined);
    OutputCommonOk(o.attrs) &&
    ((staticType && OnlyKeys(o.attrs, OutputKeys)) || (t == Undefined && size == Undefined))
  }

  /** An accepted output spec is either a legal static type (with no width for bool/string) or has neither type nor size. */
  lemma OutputSchemaShape(o: OutputSpec)
    requires OutputSchemaAccepts(o)
    ensures (IsResultValueType(Obj(o.attrs)) && o.TypeValue() != Undefined) || (o.TypeValue() == Undefined && o.Size() == Undefined)
    ensures o.TypeValue() in {Str("bool"), Str("string")} ==> o.Size() == Undefined
  {
  }

  /** CodeResultValueTypeSchema: a string `type`, an optional string `size`, nothing else. */
  predicate ScriptSectionAccepts(attrs: Attrs)
  {
    Attr(attrs, "type").Str? && OptStr(attrs, "size") && OnlyKeys(attrs, {"type", "size"})
  }

  /** The `{type, size}` object of a return section as the schemas see it. */
  function ReturnObject(r: ReturnSection): Attrs
  {
    [("type", r.typeValue)] + if r.size == Undefined then [] else [("size", r.size)]
  }

  /** The script-section shape rejects every key other than `type` and `size`. */
  lemma ScriptSectionRejects(attrs: Attrs, i: nat)
    requires i < |attrs| && attrs[i].0 !in {"type", "size"}
    ensures !ScriptSectionAccepts(attrs)
  {
  }

  const InputKeys: set<string> :=
    {"type", "required", "default", "canYouPutBlockIn", "valueList", "placeholder", "blockDoc", "multiple", "multipleMax"}

  /** The boolean flags InputSectionParametersSchema yields after parsing. */
  datatype InputFlags = InputFlags(required: bool, canYouPutBlockIn: bool, multiple: bool)

  /** `z.boolean().default(fallback)`: absent gives the fallback, a boolean itself, anything else fails. */
  function SchemaBool(v: JsValue, fallback: bool): Option<bool>
  {
    match v
    case Undefined => Some(fallback)
    case Bool(b) => Some(b)
    case _ => None
  }

  function SchemaInputFlags(s: InputSpec): Option<InputFlags>
  {
    var req := SchemaBool(s.Required(), true);
    var canPut := SchemaBool(s.CanYouPutBlockIn(), true);
    var mult := SchemaBool(s.Multiple(), false);
    if req.Some? && canPut.Some? && mult.Some? then Some(InputFlags(req.value, canPut.value, mult.value)) else None
  }

  /** Schema parsing fills in required = true, canYouPutBlockIn = true and multiple = false, and keeps given booleans. */
  lemma SchemaInputDefaults(s: InputSpec)
    requires s.Required() == Undefined && s.CanYouPutBlockIn() == Undefined && s.Multiple() == Undefined
    ensures SchemaInputFlags(s) == Some(InputFlags(true, true, false))
  {
  }

  lemma SchemaInputKeepsBooleans(s: InputSpec, r: bool, c: bool, m: bool)
    requires s.Required() == Bool(r) && s.CanYouPutBlockIn() == Bool(c) && s.Multiple() == Bool(m)
    ensures SchemaInputFlags(s) == Some(InputFlags(r, c, m))
  {
  }

  /** An output result is one legal value type or a map of them (OutputResultSchema). */
  predicate OutputResultOk(r: OutputResult)
  {
    match r
    case Single(obj) => IsResultValueType(obj)
    case Multi(entries) => forall i :: 0 <= i < |entries| ==> Legal(entries[i].1)
  }
}
