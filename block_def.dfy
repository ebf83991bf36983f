/**
 * What src/utils/parsers/blockDef.ts does with the order-preserving XML
 * tree of a block definition: the section tables, the event-first choice of
 * the definition kind, the checks and shapes of a return section, the
 * resultType and handle sections, the normalisation of input and output
 * attributes (with its warnings), and the `#text` extraction of a CDATA
 * section. Turning the file's text into the tree is the XML parser's work
 * and is an input here; so is `JSON.parse`, as an oracle.
 */
module BlockDefParser {
  import opened Wrappers
  import opened Js
  import opened JsText
  import opened Defs
  import opened Logging

  /** `getBlockType`: an `outputs` key makes an event, otherwise a `return` key a return block, otherwise an action. */
  function GetBlockType(keys: set<string>): (k: Kind)
    ensures k == EventKind <==> "outputs" in keys
    ensures k == ReturnKind <==> "outputs" !in keys && "return" in keys
    ensures k == ActionKind <==> "outputs" !in keys && "return" !in keys
  {
    if "outputs" in keys then EventKind
    else if "return" in keys then ReturnKind
    else ActionKind
  }

  /** The kind of a parsed definition is the kind of its constructor. */
  lemma GetBlockTypeOfParsed(d: BlockDef)
    ensures GetBlockType(DefKeys(d)) == ActionKind <==> d.Action?
    ensures GetBlockType(DefKeys(d)) == ReturnKind <==> d.Return?
    ensures GetBlockType(DefKeys(d)) == EventKind <==> d.Event?
  {
  }

  // ---------------------------------------------------------------------
  // The parsed tree
  // ---------------------------------------------------------------------

  /** A text value as the parser types it (`parseTagValue`): a string, a number or a boolean. */
  datatype Scalar = TStr(s: string) | TNum(repr: string) | TBool(b: bool)
  {
    function ToJs(): JsValue
    {
      match this
      case TStr(s) => Str(s)
      case TNum(r) => Num(r)
      case TBool(b) => Bool(b)
    }
  }

  /**
   * A node of the order-preserving parse: an element `{[tag]: children, ":@": attributes}`,
   * whose attribute object exists only when the element has attributes, or a
   * text node `{"#text": value}`.
   */
  datatype XNode = Elem(tag: string, attrs: Option<Attrs>, children: seq<XNode>) | Text(value: Scalar)

  /** What a node holds under its first key: an element's children, or a text node's value. */
  datatype Content = Kids(nodes: seq<XNode>) | Leaf(value: Scalar)

  /** `Object.keys(node)[0]`. */
  function FirstKey(n: XNode): string
  {
    if n.Elem? then n.tag else "#text"
  }

  /** `node[Object.keys(node)[0]]`. */
  function ContentOf(n: XNode): Content
  {
    if n.Elem? then Kids(n.children) else Leaf(n.value)
  }

  /** `node[":@"]`. */
  function AttrsOf(n: XNode): Option<Attrs>
  {
    if n.Elem? then n.attrs else None
  }

  /** The nodes of a list under their first keys, as the loops over a section visit them. */
  function Named(nodes: seq<XNode>): (r: seq<(string, XNode)>)
    ensures |r| == |nodes| && forall i :: 0 <= i < |nodes| ==> r[i] == (FirstKey(nodes[i]), nodes[i])
  {
    seq(|nodes|, i requires 0 <= i < |nodes| => (FirstKey(nodes[i]), nodes[i]))
  }

  // ---------------------------------------------------------------------
  // Errors and warnings
  // ---------------------------------------------------------------------

  datatype DefError =
    | NoDocument                              // `parse(xml)[0]` is undefined
    | NoFirstChunk                            // `content[0]["#text"]` with no element at index 0
    | NoAttributes(name: string, property: string) // reading a property of an input without attributes
    | AssignToNoAttributes(name: string, property: string) // assigning a property of an output without attributes
    | NotIterable                             // `for ... of` over a number or a boolean
    | MissingReturnType(block: string)
    | MissingReturnSize(typeName: string, block: string)

  /** The text of the thrown error, as `${e}` renders it. */
  function Message(e: DefError): string
  {
    match e
    case NoDocument => "TypeError: Cannot read properties of undefined (reading 'block')"
    case NoFirstChunk => "TypeError: Cannot read properties of undefined (reading '#text')"
    case NoAttributes(_, p) => "TypeError: Cannot read properties of undefined (reading '" + p + "')"
    case AssignToNoAttributes(_, p) => "TypeError: Cannot set properties of undefined (setting '" + p + "')"
    case NotIterable => "TypeError: outputContent is not iterable"
    case MissingReturnType(b) => "Error: Missing return type in return block (block name: " + b + "). Expected a type."
    case MissingReturnSize(t, b) =>
      "Error: Missing size for return type " + t + " in return block (block name: " + b + "}). \"Expected size to be provided."
  }

  /** What `parseBlockDef` throws: everything after the first lookup is wrapped. */
  function ErrorText(e: DefError): string
  {
    if e.NoDocument? then Message(e) else "\"Failed to parse block definition, error: " + Message(e)
  }

  /** The warning an unparsable `valueList` logs. */
  function InvalidValueList(name: string): string
  {
    "Invalid valueList provided in input: " + name + " "
  }

  /** A result together with the warnings logged while computing it. */
  datatype Logged<T> = Logged(result: Result<T, DefError>, warnings: seq<string>)

  // ---------------------------------------------------------------------
  // normalizeCDATAtoString
  // ---------------------------------------------------------------------

  /** `content[0]["#text"]`: the first chunk's text; an element has none, and a missing index 0 throws. */
  function FirstText(c: Content): (r: Result<JsValue, DefError>)
    ensures r.Ok? && r.value != Undefined ==> c.Kids? && c.nodes != [] && c.nodes[0].Text? && r.value == c.nodes[0].value.ToJs()
    ensures c.Kids? ==> (r.Err? <==> c.nodes == [])
  {
    match c
    case Kids(ns) => if ns == [] then Err(NoFirstChunk) else if ns[0].Text? then Ok(ns[0].value.ToJs()) else Ok(Undefined)
    case Leaf(v) => if v.TStr? && v.s != "" then Ok(Undefined) else Err(NoFirstChunk)
  }

  /** `normalizeCDATAtoString`: undefined for an absent or falsy section, otherwise the first chunk's `#text`. */
  function NormalizeCData(c: Option<Content>): (r: Result<JsValue, DefError>)
    ensures c.None? ==> r == Ok(Undefined)
    ensures c.Some? && c.value.Leaf? && !Truthy(c.value.value.ToJs()) ==> r == Ok(Undefined)
    ensures r.Ok? && r.value != Undefined ==> c.Some? && c.value.Kids? && c.value.nodes != [] &&
                                              c.value.nodes[0].Text? && r.value == c.value.nodes[0].value.ToJs()
    ensures c == Some(Kids([])) ==> r.Err?
  {
    if c.None? || (c.value.Leaf? && !Truthy(c.value.value.ToJs())) then Ok(Undefined)
    else FirstText(c.value)
  }

  /** A CDATA section `<code><![CDATA[text]]></code>` yields its text. */
  lemma CDataText(s: string, rest: seq<XNode>)
    ensures NormalizeCData(Some(Kids([Text(TStr(s))] + rest))) == Ok(Str(s))
  {
  }

  // ---------------------------------------------------------------------
  // The section tables
  // ---------------------------------------------------------------------

  /** `sectionNameMap`: the first key of every child of `<block>`, in order. */
  function SectionNames(nodes: seq<XNode>): (r: seq<string>)
    ensures |r| == |nodes| && forall i :: 0 <= i < |nodes| ==> r[i] == FirstKey(nodes[i])
  {
    if nodes == [] then [] else SectionNames(nodes[..|nodes| - 1]) + [FirstKey(nodes[|nodes| - 1])]
  }

  /** `sectionContentMap` once its loop has visited `nodes`. */
  function SectionMap(nodes: seq<XNode>): seq<(string, Content)>
  {
    if nodes == [] then []
    else var n := nodes[|nodes| - 1]; Put(SectionMap(nodes[..|nodes| - 1]), FirstKey(n), ContentOf(n))
  }

  /** The content of the last section with first key `k`. */
  function LastSection(nodes: seq<XNode>, k: string): (r: Option<Content>)
    ensures r.None? <==> k !in SectionNames(nodes)
    ensures r.Some? ==> exists i :: 0 <= i < |nodes| && FirstKey(nodes[i]) == k && ContentOf(nodes[i]) == r.value &&
                                    forall j :: i < j < |nodes| ==> FirstKey(nodes[j]) != k
  {
    if nodes == [] then None
    else
      var n := nodes[|nodes| - 1];
      var init := nodes[..|nodes| - 1];
      if FirstKey(n) == k then Some(ContentOf(n)) else LastSection(init, k)
  }

  /** A section name seen twice keeps the content of its last occurrence. */
  lemma {:induction false} SectionMapLookup(nodes: seq<XNode>, k: string)
    ensures Lookup(SectionMap(nodes), k) == LastSection(nodes, k)
    decreases |nodes|
  {
    if nodes != [] {
      var n := nodes[|nodes| - 1];
      var init := nodes[..|nodes| - 1];
      SectionMapLookup(init, k);
      PutLookup(SectionMap(init), FirstKey(n), ContentOf(n), k);
    }
  }

  /** Every named section holds an element's children; only text nodes hold a value. */
  lemma {:induction false} SectionsAreElements(nodes: seq<XNode>, k: string)
    requires k != "#text"
    ensures LastSection(nodes, k).Some? ==> LastSection(nodes, k).value.Kids?
    decreases |nodes|
  {
    if nodes != [] {
      SectionsAreElements(nodes[..|nodes| - 1], k);
    }
  }

  /** The nodes a `for ... of` loop over a section visits; an absent section has none. */
  function ChildrenOf(c: Option<Content>): seq<XNode>
  {
    if c.Some? && c.value.Kids? then c.value.nodes else []
  }

  /** The two loops that build `sectionNameMap` and `sectionContentMap`. */
  method SectionTables(nodes: seq<XNode>) returns (names: seq<string>, contents: seq<(string, Content)>)
    ensures names == SectionNames(nodes) && contents == SectionMap(nodes)
  {
    names, contents := [], [];
    for i := 0 to |nodes|
      invariant names == SectionNames(nodes[..i]) && contents == SectionMap(nodes[..i])
    {
      assert nodes[..i + 1][..i] == nodes[..i];
      names := names + [FirstKey(nodes[i])];
      contents := Put(contents, FirstKey(nodes[i]), ContentOf(nodes[i]));
    }
    assert nodes[..|nodes|] == nodes;
  }

  // ---------------------------------------------------------------------
  // The return section
  // ---------------------------------------------------------------------

  /** The `type` and `size` texts the return section's loop reads; a later tag overrides an earlier one. */
  function ReturnFieldsGo(nodes: seq<XNode>, i: nat, t: JsValue, size: JsValue): Result<(JsValue, JsValue), DefError>
    requires i <= |nodes|
    decreases |nodes| - i
  {
    if i == |nodes| then Ok((t, size))
    else
      var n := nodes[i];
      var t2 :- if FirstKey(n) == "type" then NormalizeCData(Some(ContentOf(n))) else Ok(t);
      var size2 :- if FirstKey(n) == "size" then NormalizeCData(Some(ContentOf(n))) else Ok(size);
      ReturnFieldsGo(nodes, i + 1, t2, size2)
  }

  const NumericNames: set<JsValue> := {Str("int"), Str("uint"), Str("float")}

  /** The two checks and the three shapes of a return section. */
  function ClassifyReturn(t: JsValue, size: JsValue, block: string): Result<ReturnSection, DefError>
  {
    if t == Str("") || t == Undefined then Err(MissingReturnType(block))
    else if t in NumericNames && size == Undefined then Err(MissingReturnSize(t.s, block))
    else if t in NumericNames then Ok(ReturnSection(t, size))
    else if t == Str("string") || t == Str("bool") then Ok(ReturnSection(t, Undefined))
    else Ok(ReturnSection(t, size))
  }

  /** `parsedReturn`: read the section, then classify it. */
  function ReturnSectionOf(nodes: seq<XNode>, block: string): Result<ReturnSection, DefError>
  {
    var fields :- ReturnFieldsGo(nodes, 0, Str(""), Undefined);
    ClassifyReturn(fields.0, fields.1, block)
  }

  /**
   * The return section's shapes: a missing or empty type fails, a numeric
   * type needs a size and keeps it, string and bool drop any size, and any
   * other type text is a script section with whatever size was read.
   */
  lemma ReturnShapes(t: JsValue, size: JsValue, block: string)
    ensures t == Str("") || t == Undefined ==> ClassifyReturn(t, size, block) == Err(MissingReturnType(block))
    ensures t in NumericNames && size == Undefined ==> ClassifyReturn(t, size, block) == Err(MissingReturnSize(t.s, block))
    ensures t in NumericNames && size != Undefined ==> ClassifyReturn(t, size, block) == Ok(ReturnSection(t, size))
    ensures t in {Str("string"), Str("bool")} ==>
      ClassifyReturn(t, size, block).Ok? && ReturnObject(ClassifyReturn(t, size, block).value) == [("type", t)]
    ensures ClassifyReturn(t, size, block).Ok? && t !in NumericNames && t !in {Str("string"), Str("bool")} ==>
      ClassifyReturn(t, size, block) == Ok(ReturnSection(t, size))
  {
  }

  /** Without a `type` tag the type stays "", so the section fails. */
  lemma {:induction false} NoTypeTagFails(nodes: seq<XNode>, i: nat, size: JsValue, block: string)
    requires i <= |nodes|
    requires forall j :: i <= j < |nodes| ==> FirstKey(nodes[j]) != "type"
    ensures var f := ReturnFieldsGo(nodes, i, Str(""), size); f.Ok? ==> f.value.0 == Str("")
    decreases |nodes| - i
  {
    if i < |nodes| {
      var n := nodes[i];
      var s2 := if FirstKey(n) == "size" then NormalizeCData(Some(ContentOf(n))) else Ok(size);
      if s2.Ok? {
        NoTypeTagFails(nodes, i + 1, s2.value, block);
      }
    }
  }

  /** Without a `size` tag the size stays undefined. */
  lemma {:induction false} NoSizeTagKeepsSize(nodes: seq<XNode>, i: nat, t: JsValue)
    requires i <= |nodes|
    requires forall j :: i <= j < |nodes| ==> FirstKey(nodes[j]) != "size"
    ensures var f := ReturnFieldsGo(nodes, i, t, Undefined); f.Ok? ==> f.value.1 == Undefined
    decreases |nodes| - i
  {
    if i < |nodes| {
      var n := nodes[i];
      var t2 := if FirstKey(n) == "type" then NormalizeCData(Some(ContentOf(n))) else Ok(t);
      if t2.Ok? {
        NoSizeTagKeepsSize(nodes, i + 1, t2.value);
      }
    }
  }

  /** A return section with no `type` tag always fails. */
  lemma ReturnWithoutTypeFails(nodes: seq<XNode>, block: string)
    requires forall j :: 0 <= j < |nodes| ==> FirstKey(nodes[j]) != "type"
    ensures ReturnSectionOf(nodes, block).Err?
  {
    NoTypeTagFails(nodes, 0, Undefined, block);
  }

  /** A numeric return section with no `size` tag fails with the missing-size error. */
  lemma NumericWithoutSizeFails(nodes: seq<XNode>, block: string)
    requires forall j :: 0 <= j < |nodes| ==> FirstKey(nodes[j]) != "size"
    requires ReturnFieldsGo(nodes, 0, Str(""), Undefined).Ok?
    requires ReturnFieldsGo(nodes, 0, Str(""), Undefined).value.0 in NumericNames
    ensures ReturnSectionOf(nodes, block) == Err(MissingReturnSize(ReturnFieldsGo(nodes, 0, Str(""), Undefined).value.0.s, block))
  {
    NoSizeTagKeepsSize(nodes, 0, Str(""));
    var f := ReturnFieldsGo(nodes, 0, Str(""), Undefined).value;
    ReturnShapes(f.0, f.1, block);
  }

  /** The loop over the return section and the checks after it. */
  method ReadReturnSection(nodes: seq<XNode>, block: string) returns (r: Result<ReturnSection, DefError>)
    ensures r == ReturnSectionOf(nodes, block)
  {
    var t, size := Str(""), Undefined;
    for i := 0 to |nodes|
      invariant ReturnFieldsGo(nodes, i, t, size) == ReturnFieldsGo(nodes, 0, Str(""), Undefined)
    {
      if FirstKey(nodes[i]) == "type" {
        var v := NormalizeCData(Some(ContentOf(nodes[i])));
        if v.Err? {
          return Err(v.error);
        }
        t := v.value;
      }
      if FirstKey(nodes[i]) == "size" {
        var v := NormalizeCData(Some(ContentOf(nodes[i])));
        if v.Err? {
          return Err(v.error);
        }
        size := v.value;
      }
    }
    r := ClassifyReturn(t, size, block);
  }

  // ---------------------------------------------------------------------
  // The resultType and handle sections
  // ---------------------------------------------------------------------

  /** The properties of one resultType entry; both texts start empty and a later property overrides an earlier one. */
  function PropsGo(props: seq<XNode>, i: nat, t: JsValue, size: JsValue): Result<ResultTypeSection, DefError>
    requires i <= |props|
    decreases |props| - i
  {
    if i == |props| then Ok(ResultTypeSection(t, size))
    else
      var text :- FirstText(ContentOf(props[i]));
      var name := FirstKey(props[i]);
      PropsGo(props, i + 1, if name == "type" then text else t, if name == "size" then text else size)
  }

  /**
   * One resultType entry: an element's children are its properties; a text
   * entry is iterated character by character, and no character carries a
   * `#text`; a number or boolean is not iterable.
   */
  function ResultTypeEntry(name: string, n: XNode): Result<ResultTypeSection, DefError>
  {
    match ContentOf(n)
    case Kids(props) => PropsGo(props, 0, Str(""), Str(""))
    case Leaf(v) => if v.TStr? then Ok(ResultTypeSection(Str(""), Str(""))) else Err(NotIterable)
  }

  /** `parsedResultType`: undefined without the section, otherwise one entry per child. */
  function ResultTypes(c: Option<Content>): Result<Option<seq<(string, ResultTypeSection)>>, DefError>
  {
    if c.None? then Ok(None)
    else
      var r :- PutEach(Named(ChildrenOf(c)), ResultTypeEntry, 0, []);
      Ok(Some(r))
  }

  /** A property's text is taken only from a `type` or `size` tag; an entry without them keeps both texts empty. */
  lemma {:induction false} PropsDefaults(props: seq<XNode>, i: nat)
    requires i <= |props|
    requires forall j :: i <= j < |props| ==> FirstKey(props[j]) != "type" && FirstKey(props[j]) != "size"
    ensures var r := PropsGo(props, i, Str(""), Str("")); r.Ok? ==> r.value == ResultTypeSection(Str(""), Str(""))
    decreases |props| - i
  {
    if i < |props| {
      PropsDefaults(props, i + 1);
    }
  }

  /** The entries of the resultType section are keyed by the entry tags, each once, in first-occurrence order. */
  lemma ResultTypeKeys(c: Option<Content>)
    ensures var r := ResultTypes(c); r.Ok? && r.value.Some? ==> Keys(r.value.value) == Dedup(Keys(Named(ChildrenOf(c))))
  {
    PutEachKeys(Named(ChildrenOf(c)), ResultTypeEntry, 0, []);
  }

  /** One handle entry: its CDATA text, or null when that is falsy. */
  function HandleEntry(name: string, n: XNode): (r: Result<JsValue, DefError>)
    ensures r.Ok? ==> Truthy(r.value) || r.value == Null
  {
    var v :- NormalizeCData(Some(ContentOf(n)));
    Ok(if Truthy(v) then v else Null)
  }

  /** `handleData`: undefined without the section, otherwise one entry per child. */
  function HandleSection(c: Option<Content>): Result<Option<Attrs>, DefError>
  {
    if c.None? then Ok(None)
    else
      var r :- PutEach(Named(ChildrenOf(c)), HandleEntry, 0, []);
      Ok(Some(r))
  }

  /** Every handle value is either a truthy text or null. */
  lemma HandleValues(c: Option<Content>)
    ensures var r := HandleSection(c); r.Ok? && r.value.Some? ==>
      forall j :: 0 <= j < |r.value.value| ==> Truthy(r.value.value[j].1) || r.value.value[j].1 == Null
  {
    if c.Some? {
      var items := Named(ChildrenOf(c));
      var P := (v: JsValue) => Truthy(v) || v == Null;
      forall j | 0 <= j < |items| && HandleEntry(items[j].0, items[j].1).Ok?
        ensures P(HandleEntry(items[j].0, items[j].1).value)
      {
      }
      PutEachAll(items, HandleEntry, 0, [], P);
      var p := PutEach(items, HandleEntry, 0, []);
      assert p.Ok? ==> forall j :: 0 <= j < |p.value| ==> P(p.value[j].1);
      if p.Ok? {
        assert HandleSection(c) == Ok(Some(p.value));
        forall j | 0 <= j < |p.value| ensures Truthy(p.value[j].1) || p.value[j].1 == Null {
          assert P(p.value[j].1);
        }
      }
    }
  }

  /** The loop over one resultType entry's properties. */
  method ReadResultTypeEntry(name: string, n: XNode) returns (r: Result<ResultTypeSection, DefError>)
    ensures r == ResultTypeEntry(name, n)
  {
    if n.Text? {
      return if n.value.TStr? then Ok(ResultTypeSection(Str(""), Str(""))) else Err(NotIterable);
    }
    var props := n.children;
    var t, size := Str(""), Str("");
    for j := 0 to |props|
      invariant PropsGo(props, j, t, size) == PropsGo(props, 0, Str(""), Str(""))
    {
      var text := FirstText(ContentOf(props[j]));
      if text.Err? {
        return Err(text.error);
      }
      if FirstKey(props[j]) == "type" {
        t := text.value;
      }
      if FirstKey(props[j]) == "size" {
        size := text.value;
      }
    }
    r := Ok(ResultTypeSection(t, size));
  }

  /** The loop over the resultType section. */
  method ReadResultTypes(c: Option<Content>) returns (r: Result<Option<seq<(string, ResultTypeSection)>>, DefError>)
    ensures r == ResultTypes(c)
  {
    if c.None? {
      return Ok(None);
    }
    var items := Named(ChildrenOf(c));
    var result: seq<(string, ResultTypeSection)> := [];
    for i := 0 to |items|
      invariant PutEach(items, ResultTypeEntry, i, result) == PutEach(items, ResultTypeEntry, 0, [])
    {
      var e := ReadResultTypeEntry(items[i].0, items[i].1);
      if e.Err? {
        return Err(e.error);
      }
      result := Put(result, items[i].0, e.value);
    }
    r := Ok(Some(result));
  }

  /** The loop over the handle section. */
  method ReadHandle(c: Option<Content>) returns (r: Result<Option<Attrs>, DefError>)
    ensures r == HandleSection(c)
  {
    if c.None? {
      return Ok(None);
    }
    var items := Named(ChildrenOf(c));
    var result: Attrs := [];
    for i := 0 to |items|
      invariant PutEach(items, HandleEntry, i, result) == PutEach(items, HandleEntry, 0, [])
    {
      var v := NormalizeCData(Some(ContentOf(items[i].1)));
      if v.Err? {
        return Err(v.error);
      }
      result := Put(result, items[i].0, if Truthy(v.value) then v.value else Null);
    }
    r := Ok(Some(result));
  }

  // ---------------------------------------------------------------------
  // normalizeInput and normalizeOutput
  // ---------------------------------------------------------------------

  /**
   * A JSON array replaces the `type` attribute; a value that is not JSON is
   * wrapped into a one-element list; any other JSON value leaves it as it was.
   * A missing `type` is undefined, which `JSON.parse` refuses, so it becomes
   * `[undefined]`. The value model's arrays hold strings, so a wrapped
   * non-string is carried as its `String()` text, which is no type name.
   */
  function WithTypeList(a: Attrs, json: string -> Option<JsValue>): Attrs
  {
    var t := Attr(a, "type");
    match json(ToStr(t))
    case None => Put(a, "type", List([ToStr(t)]))
    case Some(v) => if v.List? then Put(a, "type", v) else a
  }

  /** A truthy `valueList` is replaced by its JSON value; one that does not parse becomes undefined and logs a warning. */
  function WithValueList(name: string, a: Attrs, json: string -> Option<JsValue>): (Attrs, seq<string>)
  {
    var vl := Attr(a, "valueList");
    if !Truthy(vl) then (a, [])
    else match json(ToStr(vl))
      case Some(v) => (Put(a, "valueList", v), [])
      case None => (Put(a, "valueList", Undefined), [InvalidValueList(name)])
  }

  /** Assignment changes one attribute and no other. */
  lemma AttrPut(a: Attrs, k: string, v: JsValue, other: string)
    ensures Attr(Put(a, k, v), k) == v
    ensures other != k ==> Attr(Put(a, k, v), other) == Attr(a, other)
  {
    PutLookup(a, k, v, other);
  }

  /** The type normalisation of an input, and every other attribute kept. */
  lemma TypeListNormalised(a: Attrs, json: string -> Option<JsValue>, other: string)
    ensures var t := Attr(a, "type"); var p := json(ToStr(t));
      (p.Some? && p.value.List? ==> InputSpec(WithTypeList(a, json)).Types() == p.value.items) &&
      (p.None? ==> InputSpec(WithTypeList(a, json)).Types() == [ToStr(t)]) &&
      (p.None? && t.Str? ==> InputSpec(WithTypeList(a, json)).Types() == [t.s]) &&
      (p.Some? && !p.value.List? ==> WithTypeList(a, json) == a) &&
      (other != "type" ==> Attr(WithTypeList(a, json), other) == Attr(a, other))
  {
    var t := Attr(a, "type");
    match json(ToStr(t))
    case None => AttrPut(a, "type", List([ToStr(t)]), other);
    case Some(v) => if v.List? { AttrPut(a, "type", v, other); }
  }

  /** An unparsable `valueList` never fails: it becomes undefined with one warning, and nothing else changes. */
  lemma ValueListNormalised(name: string, a: Attrs, json: string -> Option<JsValue>, other: string)
    ensures var vl := Attr(a, "valueList"); var r := WithValueList(name, a, json);
      (!Truthy(vl) ==> r == (a, [])) &&
      (Truthy(vl) && json(ToStr(vl)).Some? ==> Attr(r.0, "valueList") == json(ToStr(vl)).value && r.1 == []) &&
      (Truthy(vl) && json(ToStr(vl)).None? ==> Attr(r.0, "valueList") == Undefined && r.1 == [InvalidValueList(name)]) &&
      (other != "valueList" ==> Attr(r.0, other) == Attr(a, other))
  {
    var vl := Attr(a, "valueList");
    if Truthy(vl) {
      match json(ToStr(vl))
      case Some(v) => AttrPut(a, "valueList", v, other);
      case None => AttrPut(a, "valueList", Undefined, other);
    }
  }

  /** One input: without attributes reading `type` throws; otherwise the type, then the value list. */
  function InputStep(json: string -> Option<JsValue>, name: string, n: XNode): Logged<InputSpec>
  {
    match AttrsOf(n)
    case None => Logged(Err(NoAttributes(name, "type")), [])
    case Some(a) =>
      var (a2, w) := WithValueList(name, WithTypeList(a, json), json);
      Logged(Ok(InputSpec(a2)), w)
  }

  /** An input with attributes but no `type` comes out typed `[undefined]`: `JSON.parse(undefined)` throws and the catch wraps it. */
  lemma InputWithoutType(json: string -> Option<JsValue>, name: string, n: XNode)
    requires AttrsOf(n).Some? && Attr(AttrsOf(n).value, "type") == Undefined
    requires json("undefined").None?
    ensures InputStep(json, name, n).result.Ok?
    ensures Attr(InputStep(json, name, n).result.value.attrs, "type") == List(["undefined"])
  {
    var a := AttrsOf(n).value;
    var a1 := WithTypeList(a, json);
    assert Attr(a1, "type") == List(["undefined"]) by {
      TypeListNormalised(a, json, "valueList");
    }
    ValueListNormalised(name, a1, json, "type");
  }

  /**
   * One output: without attributes reading `valueList` throws inside the
   * `try`, the catch block logs the warning, and its assignment throws the
   * error that escapes.
   */
  function OutputStep(json: string -> Option<JsValue>, name: string, n: XNode): Logged<OutputSpec>
  {
    match AttrsOf(n)
    case None => Logged(Err(AssignToNoAttributes(name, "valueList")), [InvalidValueList(name)])
    case Some(a) =>
      var (a2, w) := WithValueList(name, a, json);
      Logged(Ok(OutputSpec(a2)), w)
  }

  /** An input fails exactly when it has no attributes, with the error of reading `type`. */
  lemma InputFailsIffNoAttributes(json: string -> Option<JsValue>, name: string, n: XNode)
    ensures InputStep(json, name, n).result.Err? <==> AttrsOf(n).None?
    ensures AttrsOf(n).None? ==>
      Message(InputStep(json, name, n).result.error) == "TypeError: Cannot read properties of undefined (reading 'type')"
    ensures |InputStep(json, name, n).warnings| <= 1
  {
    ReadTypeMessage();
  }

  /** An output fails exactly when it has no attributes, with the error of assigning `valueList`, and logs at most one warning. */
  lemma OutputFailsIffNoAttributes(json: string -> Option<JsValue>, name: string, n: XNode)
    ensures OutputStep(json, name, n).result.Err? <==> AttrsOf(n).None?
    ensures AttrsOf(n).None? ==>
      Message(OutputStep(json, name, n).result.error) == "TypeError: Cannot set properties of undefined (setting 'valueList')" &&
      OutputStep(json, name, n).warnings == [InvalidValueList(name)]
    ensures |OutputStep(json, name, n).warnings| <= 1
  {
    SetValueListMessage();
  }

  lemma ReadTypeMessage()
    ensures "TypeError: Cannot read properties of undefined (reading '" + "type" + "')" ==
            "TypeError: Cannot read properties of undefined (reading 'type')"
  {
  }

  lemma SetValueListMessage()
    ensures "TypeError: Cannot set properties of undefined (setting '" + "valueList" + "')" ==
            "TypeError: Cannot set properties of undefined (setting 'valueList')"
  {
  }

  /**
   * `for (k in items) result[k] = step(k, items[k])`, stopping at the first
   * failure, with the warnings every visited item logged.
   */
  function LogEach<T, V>(items: seq<(string, T)>, step: (string, T) -> Logged<V>, i: nat, acc: seq<(string, V)>, ws: seq<string>): Logged<seq<(string, V)>>
    requires i <= |items|
    decreases |items| - i
  {
    if i == |items| then Logged(Ok(acc), ws)
    else
      var s := step(items[i].0, items[i].1);
      if s.result.Err? then Logged(Err(s.result.error), ws + s.warnings)
      else LogEach(items, step, i + 1, Put(acc, items[i].0, s.result.value), ws + s.warnings)
  }

  /** The loop succeeds exactly when every item does. */
  lemma {:induction false} LogEachOk<T, V>(items: seq<(string, T)>, step: (string, T) -> Logged<V>, i: nat, acc: seq<(string, V)>, ws: seq<string>)
    requires i <= |items|
    ensures LogEach(items, step, i, acc, ws).result.Ok? <==> forall j :: i <= j < |items| ==> step(items[j].0, items[j].1).result.Ok?
    decreases |items| - i
  {
    if i < |items| {
      var s := step(items[i].0, items[i].1);
      if s.result.Ok? {
        var next := Put(acc, items[i].0, s.result.value);
        assert LogEach(items, step, i, acc, ws) == LogEach(items, step, i + 1, next, ws + s.warnings);
        LogEachOk(items, step, i + 1, next, ws + s.warnings);
      } else {
        assert LogEach(items, step, i, acc, ws).result.Err?;
      }
    }
  }

  /** The warnings already logged come first and are kept. */
  lemma {:induction false} LogEachKeepsWarnings<T, V>(items: seq<(string, T)>, step: (string, T) -> Logged<V>, i: nat, acc: seq<(string, V)>,
                                                      w0: seq<string>, ws: seq<string>)
    requires i <= |items|
    ensures LogEach(items, step, i, acc, w0 + ws) == Logged(LogEach(items, step, i, acc, ws).result, w0 + LogEach(items, step, i, acc, ws).warnings)
    decreases |items| - i
  {
    if i < |items| {
      var s := step(items[i].0, items[i].1);
      ConcatAssoc(w0, ws, s.warnings);
      if s.result.Ok? {
        LogEachKeepsWarnings(items, step, i + 1, Put(acc, items[i].0, s.result.value), w0, ws + s.warnings);
      }
    }
  }

  function InputStepOf(json: string -> Option<JsValue>): (string, XNode) -> Logged<InputSpec>
  {
    (name, n) => InputStep(json, name, n)
  }

  function OutputStepOf(json: string -> Option<JsValue>): (string, XNode) -> Logged<OutputSpec>
  {
    (name, n) => OutputStep(json, name, n)
  }

  /** `normalizeInput(inputs)`. */
  function NormalizeInputs(c: Option<Content>, json: string -> Option<JsValue>): Logged<seq<(string, InputSpec)>>
  {
    LogEach(Named(ChildrenOf(c)), InputStepOf(json), 0, [], [])
  }

  /** `normalizeOutput(outputs)`. */
  function NormalizeOutputs(c: Option<Content>, json: string -> Option<JsValue>): Logged<seq<(string, OutputSpec)>>
  {
    LogEach(Named(ChildrenOf(c)), OutputStepOf(json), 0, [], [])
  }

  /** An inputs section fails exactly when one of its inputs has no attributes; a bad value list never fails it. */
  lemma InputsFailIffNoAttributes(c: Option<Content>, json: string -> Option<JsValue>)
    ensures NormalizeInputs(c, json).result.Err? <==> exists j :: 0 <= j < |ChildrenOf(c)| && AttrsOf(ChildrenOf(c)[j]).None?
  {
    var items := Named(ChildrenOf(c));
    LogEachOk(items, InputStepOf(json), 0, [], []);
    forall j | 0 <= j < |items|
      ensures InputStepOf(json)(items[j].0, items[j].1).result.Ok? <==> AttrsOf(ChildrenOf(c)[j]).Some?
    {
      InputFailsIffNoAttributes(json, items[j].0, items[j].1);
    }
  }

  /** One input's normalisation, logging its warning. */
  method NormalizeOneInput(json: string -> Option<JsValue>, name: string, n: XNode, logger: DevLogger) returns (r: Result<InputSpec, DefError>)
    modifies logger
    ensures r == InputStep(json, name, n).result
    ensures logger.warnings == old(logger.warnings) + InputStep(json, name, n).warnings
  {
    if AttrsOf(n).None? {
      return Err(NoAttributes(name, "type"));
    }
    var a := WithTypeList(AttrsOf(n).value, json);
    var vl := Attr(a, "valueList");
    if Truthy(vl) {
      match json(ToStr(vl))
      case Some(v) =>
        a := Put(a, "valueList", v);
      case None =>
        logger.WarnText(InvalidValueList(name));
        a := Put(a, "valueList", Undefined);
    }
    r := Ok(InputSpec(a));
  }

  /** One output's normalisation, logging its warning. */
  method NormalizeOneOutput(json: string -> Option<JsValue>, name: string, n: XNode, logger: DevLogger) returns (r: Result<OutputSpec, DefError>)
    modifies logger
    ensures r == OutputStep(json, name, n).result
    ensures logger.warnings == old(logger.warnings) + OutputStep(json, name, n).warnings
  {
    if AttrsOf(n).None? {
      logger.WarnText(InvalidValueList(name));
      return Err(AssignToNoAttributes(name, "valueList"));
    }
    var a := AttrsOf(n).value;
    var vl := Attr(a, "valueList");
    if Truthy(vl) {
      match json(ToStr(vl))
      case Some(v) =>
        a := Put(a, "valueList", v);
      case None =>
        logger.WarnText(InvalidValueList(name));
        a := Put(a, "valueList", Undefined);
    }
    r := Ok(OutputSpec(a));
  }

  /** The loop of `normalizeInput`. */
  method ReadInputs(c: Option<Content>, json: string -> Option<JsValue>, logger: DevLogger) returns (r: Result<seq<(string, InputSpec)>, DefError>)
    modifies logger
    ensures r == NormalizeInputs(c, json).result
    ensures logger.warnings == old(logger.warnings) + NormalizeInputs(c, json).warnings
  {
    var items := Named(ChildrenOf(c));
    var step := InputStepOf(json);
    var result: seq<(string, InputSpec)> := [];
    ghost var logged: seq<string> := [];
    for i := 0 to |items|
      invariant LogEach(items, step, i, result, logged) == LogEach(items, step, 0, [], [])
      invariant logger.warnings == old(logger.warnings) + logged
    {
      ghost var before := logger.warnings;
      var e := NormalizeOneInput(json, items[i].0, items[i].1, logger);
      assert step(items[i].0, items[i].1) == InputStep(json, items[i].0, items[i].1);
      ConcatAssoc(old(logger.warnings), logged, InputStep(json, items[i].0, items[i].1).warnings);
      logged := logged + InputStep(json, items[i].0, items[i].1).warnings;
      if e.Err? {
        return Err(e.error);
      }
      result := Put(result, items[i].0, e.value);
    }
    r := Ok(result);
  }

  /** The loop of `normalizeOutput`. */
  method ReadOutputs(c: Option<Content>, json: string -> Option<JsValue>, logger: DevLogger) returns (r: Result<seq<(string, OutputSpec)>, DefError>)
    modifies logger
    ensures r == NormalizeOutputs(c, json).result
    ensures logger.warnings == old(logger.warnings) + NormalizeOutputs(c, json).warnings
  {
    var items := Named(ChildrenOf(c));
    var step := OutputStepOf(json);
    var result: seq<(string, OutputSpec)> := [];
    ghost var logged: seq<string> := [];
    for i := 0 to |items|
      invariant LogEach(items, step, i, result, logged) == LogEach(items, step, 0, [], [])
      invariant logger.warnings == old(logger.warnings) + logged
    {
      var e := NormalizeOneOutput(json, items[i].0, items[i].1, logger);
      assert step(items[i].0, items[i].1) == OutputStep(json, items[i].0, items[i].1);
      ConcatAssoc(old(logger.warnings), logged, OutputStep(json, items[i].0, items[i].1).warnings);
      logged := logged + OutputStep(json, items[i].0, items[i].1).warnings;
      if e.Err? {
        return Err(e.error);
      }
      result := Put(result, items[i].0, e.value);
    }
    r := Ok(result);
  }

  // ---------------------------------------------------------------------
  // parseBlockDef
  // ---------------------------------------------------------------------

  /** The inputs, then the code section, of an action or return definition. */
  function InputsAndCode(sm: seq<(string, Content)>, json: string -> Option<JsValue>): Logged<(seq<(string, InputSpec)>, JsValue)>
  {
    var ins := NormalizeInputs(Lookup(sm, "inputs"), json);
    if ins.result.Err? then Logged(Err(ins.result.error), ins.warnings)
    else match NormalizeCData(Lookup(sm, "code"))
      case Err(e) => Logged(Err(e), ins.warnings)
      case Ok(code) => Logged(Ok((ins.result.value, code)), ins.warnings)
  }

  /** The event branch: resultType, then handle, then the outputs. */
  function EventDef(sm: seq<(string, Content)>, json: string -> Option<JsValue>): Logged<BlockDef>
  {
    match ResultTypes(Lookup(sm, "resultType"))
    case Err(e) => Logged(Err(e), [])
    case Ok(rt) =>
      match HandleSection(Lookup(sm, "handle"))
      case Err(e) => Logged(Err(e), [])
      case Ok(h) =>
        var outs := NormalizeOutputs(Lookup(sm, "outputs"), json);
        Logged(if outs.result.Ok? then Ok(Event(outs.result.value, rt, h)) else Err(outs.result.error), outs.warnings)
  }

  /** The return branch: the return section, then the inputs and the code. */
  function ReturnDef(sm: seq<(string, Content)>, json: string -> Option<JsValue>, block: string): Logged<BlockDef>
  {
    match ReturnSectionOf(ChildrenOf(Lookup(sm, "return")), block)
    case Err(e) => Logged(Err(e), [])
    case Ok(ret) =>
      var ic := InputsAndCode(sm, json);
      Logged(if ic.result.Ok? then Ok(Return(ic.result.value.0, ret, ic.result.value.1)) else Err(ic.result.error), ic.warnings)
  }

  /** The action branch: the inputs and the code. */
  function ActionDef(sm: seq<(string, Content)>, json: string -> Option<JsValue>): Logged<BlockDef>
  {
    var ic := InputsAndCode(sm, json);
    Logged(if ic.result.Ok? then Ok(Action(ic.result.value.0, ic.result.value.1)) else Err(ic.result.error), ic.warnings)
  }

  /** The body of the `try`: an `outputs` section makes an event, otherwise a `return` section a return block, otherwise an action. */
  function ParseSections(nodes: seq<XNode>, json: string -> Option<JsValue>, block: string): Logged<BlockDef>
  {
    var names := SectionNames(nodes);
    if "outputs" in names then EventDef(SectionMap(nodes), json)
    else if "return" in names then ReturnDef(SectionMap(nodes), json, block)
    else ActionDef(SectionMap(nodes), json)
  }

  /** `parser.parse(xml)[0]["block"]`: the children of a leading `<block>`; any other first node has no `block` key, and its loops visit nothing. */
  function BlockChildren(doc: seq<XNode>): Result<seq<XNode>, DefError>
  {
    if doc == [] then Err(NoDocument)
    else if doc[0].Elem? && doc[0].tag == "block" then Ok(doc[0].children)
    else Ok([])
  }

  /** `parseBlockDef` on the parsed document, with the warnings it logs. */
  function ParseDocument(doc: seq<XNode>, json: string -> Option<JsValue>, block: string): Logged<BlockDef>
  {
    match BlockChildren(doc)
    case Err(e) => Logged(Err(e), [])
    case Ok(nodes) => ParseSections(nodes, json, block)
  }

  /** `parseBlockDef` as the catalog calls it: the XML parser gives the document, and a failure becomes its message. */
  function DefinitionParser(xml: string -> seq<XNode>, json: string -> Option<JsValue>): (string, string) -> Result<BlockDef, string>
  {
    (text, block) =>
      var p := ParseDocument(xml(text), json, block);
      if p.result.Ok? then Ok(p.result.value) else Err(ErrorText(p.result.error))
  }

  /** The kind of the parsed definition follows the section names, with `outputs` first. */
  lemma ParsedKind(nodes: seq<XNode>, json: string -> Option<JsValue>, block: string)
    ensures var p := ParseSections(nodes, json, block); var names := SectionNames(nodes);
      p.result.Ok? ==>
        (p.result.value.Event? <==> "outputs" in names) &&
        (p.result.value.Return? <==> "outputs" !in names && "return" in names) &&
        (p.result.value.Action? <==> "outputs" !in names && "return" !in names)
  {
  }

  /** The engine's `getBlockType` of a parsed definition agrees with the sections the file had. */
  lemma ParsedBlockType(nodes: seq<XNode>, json: string -> Option<JsValue>, block: string)
    ensures var p := ParseSections(nodes, json, block);
      p.result.Ok? ==> GetBlockType(DefKeys(p.result.value)) == GetBlockType(set k | k in SectionNames(nodes))
  {
    ParsedKind(nodes, json, block);
  }

  /** The ways the return checks fail. */
  predicate ReturnCheckError(e: DefError)
  {
    e.MissingReturnType? || e.MissingReturnSize?
  }

  /** The errors of one resultType entry come from reading a property, or from a value that is not iterable. */
  lemma {:induction false} PropsGoErrors(props: seq<XNode>, i: nat, t: JsValue, size: JsValue)
    requires i <= |props|
    ensures var r := PropsGo(props, i, t, size); r.Err? ==> !ReturnCheckError(r.error)
    decreases |props| - i
  {
    if i < |props| {
      var text := FirstText(ContentOf(props[i]));
      if text.Ok? {
        var name := FirstKey(props[i]);
        PropsGoErrors(props, i + 1, if name == "type" then text.value else t, if name == "size" then text.value else size);
      }
    }
  }

  /** A failure of the loop is a failure of one item. */
  lemma {:induction false} PutEachErrors<T, V>(items: seq<(string, T)>, f: (string, T) -> Result<V, DefError>, i: nat, acc: seq<(string, V)>,
                                             P: DefError -> bool)
    requires i <= |items|
    requires forall j :: i <= j < |items| && f(items[j].0, items[j].1).Err? ==> P(f(items[j].0, items[j].1).error)
    ensures var r := PutEach(items, f, i, acc); r.Err? ==> P(r.error)
    decreases |items| - i
  {
    if i < |items| {
      var v := f(items[i].0, items[i].1);
      if v.Ok? {
        PutEachErrors(items, f, i + 1, Put(acc, items[i].0, v.value), P);
      }
    }
  }

  /** A failure of the loop is a failure of one item. */
  lemma {:induction false} LogEachErrors<T, V>(items: seq<(string, T)>, step: (string, T) -> Logged<V>, i: nat, acc: seq<(string, V)>, ws: seq<string>,
                                             P: DefError -> bool)
    requires i <= |items|
    requires forall j :: i <= j < |items| && step(items[j].0, items[j].1).result.Err? ==> P(step(items[j].0, items[j].1).result.error)
    ensures var r := LogEach(items, step, i, acc, ws).result; r.Err? ==> P(r.error)
    decreases |items| - i
  {
    if i < |items| {
      var s := step(items[i].0, items[i].1);
      if s.result.Ok? {
        LogEachErrors(items, step, i + 1, Put(acc, items[i].0, s.result.value), ws + s.warnings, P);
      }
    }
  }

  predicate NotReturnCheck(e: DefError)
  {
    !ReturnCheckError(e)
  }

  lemma ResultTypesErrors(c: Option<Content>)
    ensures var r := ResultTypes(c); r.Err? ==> NotReturnCheck(r.error)
  {
    var items := Named(ChildrenOf(c));
    forall j | 0 <= j < |items| && ResultTypeEntry(items[j].0, items[j].1).Err?
      ensures NotReturnCheck(ResultTypeEntry(items[j].0, items[j].1).error)
    {
      if ContentOf(items[j].1).Kids? {
        PropsGoErrors(ContentOf(items[j].1).nodes, 0, Str(""), Str(""));
      }
    }
    PutEachErrors(items, ResultTypeEntry, 0, [], NotReturnCheck);
  }

  lemma OutputsErrors(c: Option<Content>, json: string -> Option<JsValue>)
    ensures var r := NormalizeOutputs(c, json).result; r.Err? ==> NotReturnCheck(r.error)
  {
    var items := Named(ChildrenOf(c));
    forall j | 0 <= j < |items| && OutputStepOf(json)(items[j].0, items[j].1).result.Err?
      ensures NotReturnCheck(OutputStepOf(json)(items[j].0, items[j].1).result.error)
    {
      assert OutputStepOf(json)(items[j].0, items[j].1) == OutputStep(json, items[j].0, items[j].1);
    }
    LogEachErrors(items, OutputStepOf(json), 0, [], [], NotReturnCheck);
  }

  /** With an `outputs` section the return checks are never reached, however malformed the return section is. */
  lemma EventBeforeReturn(nodes: seq<XNode>, json: string -> Option<JsValue>, block: string)
    requires "outputs" in SectionNames(nodes)
    ensures var p := ParseSections(nodes, json, block); p.result.Err? ==> !ReturnCheckError(p.result.error)
  {
    EventDefErrors(SectionMap(nodes), json);
  }

  lemma EventDefErrors(sm: seq<(string, Content)>, json: string -> Option<JsValue>)
    ensures var p := EventDef(sm, json); p.result.Err? ==> NotReturnCheck(p.result.error)
  {
    ResultTypesErrors(Lookup(sm, "resultType"));
    PutEachErrors(Named(ChildrenOf(Lookup(sm, "handle"))), HandleEntry, 0, [], NotReturnCheck);
    OutputsErrors(Lookup(sm, "outputs"), json);
  }

  /** The event branch, section by section. */
  method ReadEvent(sm: seq<(string, Content)>, json: string -> Option<JsValue>, logger: DevLogger) returns (r: Result<BlockDef, DefError>)
    modifies logger
    ensures r == EventDef(sm, json).result
    ensures logger.warnings == old(logger.warnings) + EventDef(sm, json).warnings
  {
    var rt := ReadResultTypes(Lookup(sm, "resultType"));
    if rt.Err? {
      return Err(rt.error);
    }
    var h := ReadHandle(Lookup(sm, "handle"));
    if h.Err? {
      return Err(h.error);
    }
    var outs := ReadOutputs(Lookup(sm, "outputs"), json, logger);
    if outs.Err? {
      return Err(outs.error);
    }
    r := Ok(Event(outs.value, rt.value, h.value));
  }

  /** The inputs, then the code. */
  method ReadInputsAndCode(sm: seq<(string, Content)>, json: string -> Option<JsValue>, logger: DevLogger)
    returns (r: Result<(seq<(string, InputSpec)>, JsValue), DefError>)
    modifies logger
    ensures r == InputsAndCode(sm, json).result
    ensures logger.warnings == old(logger.warnings) + InputsAndCode(sm, json).warnings
  {
    var ins := ReadInputs(Lookup(sm, "inputs"), json, logger);
    if ins.Err? {
      return Err(ins.error);
    }
    var code := NormalizeCData(Lookup(sm, "code"));
    if code.Err? {
      return Err(code.error);
    }
    r := Ok((ins.value, code.value));
  }

  /** `parseBlockDef`, logging the warnings of its input and output loops. */
  method ParseBlockDef(doc: seq<XNode>, json: string -> Option<JsValue>, block: string, logger: DevLogger) returns (r: Result<BlockDef, DefError>)
    modifies logger
    ensures r == ParseDocument(doc, json, block).result
    ensures logger.warnings == old(logger.warnings) + ParseDocument(doc, json, block).warnings
  {
    if doc == [] {
      return Err(NoDocument);
    }
    var nodes := if doc[0].Elem? && doc[0].tag == "block" then doc[0].children else [];
    var names, sm := SectionTables(nodes);
    if "outputs" in names {
      r := ReadEvent(sm, json, logger);
      return;
    }
    if "return" in names {
      var ret := ReadReturnSection(ChildrenOf(Lookup(sm, "return")), block);
      if ret.Err? {
        return Err(ret.error);
      }
      var ic := ReadInputsAndCode(sm, json, logger);
      r := if ic.Ok? then Ok(Return(ic.value.0, ret.value, ic.value.1)) else Err(ic.error);
      return;
    }
    var ic := ReadInputsAndCode(sm, json, logger);
    r := if ic.Ok? then Ok(Action(ic.value.0, ic.value.1)) else Err(ic.error);
  }
}
