/**
 * The parsed user program of src/schemas/user.ts: literal values, the block
 * tree, event occurrences with their flags, and the generated entries.
 */
module User {
  import opened Wrappers
  import opened Js
  import opened JsText
  import opened Types

  datatype NumKind = KUint | KInt | KFloat
  {
    function Name(): string
    {
      match this
      case KUint => "uint"
      case KInt => "int"
      case KFloat => "float"
    }
  }

  /** The `{value, type[, size]}` literal objects; numbers keep their source text. */
  datatype Literal =
    | LString(value: string)
    | LBool(value: string)
    | LNumber(value: string, kind: NumKind, width: string)

  /** NumberSchema: the width is legal for the kind. */
  predicate LiteralOk(l: Literal)
  {
    l.LNumber? ==> Num(l.width) in (if l.kind == KFloat then FloatSizes else IntSizes)
  }

  /** A literal's type and width as a value type; a well-formed literal gives a legal one. */
  lemma LiteralTypeLegal(l: Literal)
    requires LiteralOk(l)
    ensures Legal(ValueType(if l.LString? then "string" else if l.LBool? then "bool" else l.kind.Name(),
                            if l.LNumber? then Some(l.width) else None))
  {
  }

  /** The `#text` of an input value: a literal or an ordered list of blocks. */
  datatype UserValue = Lit(lit: Literal) | Blocks(blocks: seq<UserBlock>)

  /**
   * One entry of a block's content: an input value with its optional `for`
   * tag, or an attribute of the block element merged in as a raw value.
   */
  datatype Item = Value(text: UserValue, forTag: Option<JsValue>) | AttrValue(raw: JsValue)

  datatype Entry = Entry(key: string, item: Item)

  /**
   * A block `{[name]: content, "#flags"?: {module}}`; `flags` is present
   * exactly when the `#flags` key is, and holds the `module` value.
   */
  datatype UserBlock = UserBlock(name: string, flags: Option<JsValue>, content: seq<Entry>)

  /** The event flags object: `module` first, then the dynamic `_…` fields. */
  datatype EventFlags = EventFlags(moduleName: string, extras: seq<(string, string)>)
  {
    function AsObject(): seq<(string, string)>
    {
      [("module", moduleName)] + extras
    }
  }

  /** EventBlockFlagsUserSchema's refinement: every field other than `module` starts with "_". */
  predicate EventFlagsOk(f: EventFlags)
  {
    forall i :: 0 <= i < |f.AsObject()| ==> f.AsObject()[i].0 == "module" || StartsWith(f.AsObject()[i].0, "_")
  }

  /** The fields the refinement complains about, in order. */
  function InvalidFlagFields(fields: seq<(string, string)>): (r: seq<string>)
  {
    if fields == [] then []
    else (if fields[0].0 != "module" && !StartsWith(fields[0].0, "_") then [fields[0].0] else []) + InvalidFlagFields(fields[1..])
  }

  /** The flags are valid exactly when the refinement reports no field. */
  lemma {:induction false} EventFlagsOkIffNoIssue(f: EventFlags)
    ensures EventFlagsOk(f) <==> InvalidFlagFields(f.AsObject()) == []
  {
    NoIssueAll(f.AsObject());
  }

  lemma {:induction false} NoIssueAll(fields: seq<(string, string)>)
    ensures InvalidFlagFields(fields) == [] <==>
      forall i :: 0 <= i < |fields| ==> fields[i].0 == "module" || StartsWith(fields[i].0, "_")
  {
    if fields != [] {
      NoIssueAll(fields[1..]);
      assert forall i :: 1 <= i < |fields| ==> fields[i] == fields[1..][i - 1];
    }
  }

  /** One event occurrence `{[name]: blocks | undefined, "#flags"?: flags}`. */
  datatype EventOccurrence = EventOccurrence(name: string, body: Option<seq<UserBlock>>, flags: Option<EventFlags>)

  /** One record `{[key]: {code, outputs, flags}}` of the generated output. */
  datatype GeneratedEntry = GeneratedEntry(key: string, code: string, outputs: seq<(string, OutputResult)>, flags: Option<EventFlags>)

  // Sizes that make the descent through the tree terminate.

  function BlockSize(b: UserBlock): nat
  {
    1 + ContentSize(b.content)
  }

  function ContentSize(c: seq<Entry>): nat
  {
    if c == [] then 0 else EntrySize(c[0]) + ContentSize(c[1..])
  }

  function EntrySize(e: Entry): nat
  {
    1 + match e.item
        case Value(Blocks(bs), _) => BlocksSize(bs)
        case _ => 0
  }

  function BlocksSize(bs: seq<UserBlock>): nat
  {
    if bs == [] then 0 else BlockSize(bs[0]) + BlocksSize(bs[1..])
  }

  lemma {:induction false} EntrySmaller(c: seq<Entry>, i: nat)
    requires i < |c|
    ensures EntrySize(c[i]) <= ContentSize(c)
  {
    if i > 0 {
      EntrySmaller(c[1..], i - 1);
    }
  }

  lemma {:induction false} BlockSmaller(bs: seq<UserBlock>, i: nat)
    requires i < |bs|
    ensures BlockSize(bs[i]) <= BlocksSize(bs)
  {
    if i > 0 {
      BlockSmaller(bs[1..], i - 1);
    }
  }
}
