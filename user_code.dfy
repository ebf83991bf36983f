/**
 * What src/utils/parsers/userCode.ts does with the order-preserving XML tree
 * of a user program: the literal values of simple inputs (typed by the
 * block's definition), the content of each block with its `for` tags and
 * merged attributes, the `#flags` of blocks and events, and the list of
 * event occurrences. Turning the file's text into the tree is the XML
 * parser's work and is an input here; the catalog is the run's environment.
 */
module UserCode {
  import opened Wrappers
  import opened Js
  import opened JsText
  import opened Types
  import opened Defs
  import opened User
  import opened Errors
  import opened Engine
  import Catalog
  import opened BlockDefParser

  // ---------------------------------------------------------------------
  // createNumber, createString, createBool
  // ---------------------------------------------------------------------

  const FloatWidths: seq<nat> := [32, 64]
  const IntWidths: seq<nat> := [8, 16, 32, 64, 128]

  function WidthsFor(kind: NumKind): seq<nat>
  {
    if kind == KFloat then FloatWidths else IntWidths
  }

  /** Every width `createNumber` keeps is one NumberSchema accepts for the kind. */
  lemma WidthsAreSchemaSizes(kind: NumKind, w: nat)
    requires w in WidthsFor(kind)
    ensures Num(NatToString(w)) in (if kind == KFloat then FloatSizes else IntSizes)
  {
    WidthTexts();
    if kind == KFloat {
      assert w == 32 || w == 64;
    } else {
      assert w == 8 || w == 16 || w == 32 || w == 64 || w == 128;
    }
  }

  lemma WidthTexts()
    ensures NatToString(8) == "8" && NatToString(16) == "16" && NatToString(32) == "32"
    ensures NatToString(64) == "64" && NatToString(128) == "128"
  {
    assert NatToString(1) == "1" && NatToString(3) == "3" && NatToString(6) == "6";
    assert NatToString(12) == NatToString(1) + [DigitChar(2)];
    assert NatToString(128) == NatToString(12) + [DigitChar(8)];
  }

  /** `createNumber(value, type, size)`: a width the kind does not allow becomes 32, so the literal always fits NumberSchema. */
  function CreateNumber(value: string, kind: NumKind, size: nat): (r: Literal)
    ensures r.LNumber? && r.value == value && r.kind == kind
    ensures LiteralOk(r)
    ensures size in WidthsFor(kind) ==> r.width == NatToString(size)
    ensures size !in WidthsFor(kind) ==> r.width == "32"
  {
    var width := if size in WidthsFor(kind) then size else 32;
    WidthsAreSchemaSizes(kind, width);
    LNumber(value, kind, NatToString(width))
  }

  // ---------------------------------------------------------------------
  // parseSimpleValue
  // ---------------------------------------------------------------------

  /** `s.substring(1, s.length - 1)`; for the one-character string `"` the bounds swap and the string is kept whole. */
  function Unquote(s: string): string
  {
    if |s| >= 2 then s[1..|s| - 1] else s
  }

  /** A text value: quoted text loses its quotes, "true"/"false" in any case are booleans, anything else stays as it is. */
  function StringLiteral(s: string): (r: Literal)
    ensures r.LString? || r == LBool("true") || r == LBool("false")
  {
    if StartsWith(s, "\"") && EndsWith(s, "\"") then LString(Unquote(s))
    else if AsciiLower(s) == "true" then LBool("true")
    else if AsciiLower(s) == "false" then LBool("false")
    else LString(s)
  }

  /** Quoting any text and reading it back gives the text. */
  lemma QuotedTextUnquoted(s: string)
    ensures StringLiteral("\"" + s + "\"") == LString(s)
  {
    var q := "\"" + s + "\"";
    assert q[..1] == "\"";
    assert q[|q| - 1..] == "\"";
    assert q[1..|q| - 1] == s;
  }

  /** "true" and "false" in any mix of cases are the lower-case booleans. */
  lemma BooleanWordsAnyCase(s: string)
    ensures AsciiLower(s) == "true" ==> StringLiteral(s) == LBool("true")
    ensures AsciiLower(s) == "false" ==> StringLiteral(s) == LBool("false")
  {
    if s != [] {
      assert AsciiLower(s)[0] == if 'A' <= s[0] <= 'Z' then (s[0] as int + 32) as char else s[0];
    }
  }

  /** Unquoted text that is no boolean word is kept unchanged. */
  lemma PlainTextKept(s: string)
    requires !(StartsWith(s, "\"") && EndsWith(s, "\""))
    requires AsciiLower(s) != "true" && AsciiLower(s) != "false"
    ensures StringLiteral(s) == LString(s)
  {
  }

  /** A number literal typed by the input's declared type(s): uint first, then int/number/any, then float; otherwise a string. */
  function NumberLiteral(repr: string, t: JsValue): (r: Literal)
    ensures LiteralOk(r)
    ensures r.value == repr
  {
    if IsValidType(t, "uint") then CreateNumber(repr, KUint, 32)
    else if IsValidType(t, "int") || IsValidType(t, "number") || IsValidType(t, "any") then CreateNumber(repr, KInt, 32)
    else if IsValidType(t, "float") then CreateNumber(repr, KFloat, 64)
    else LString(repr)
  }

  /** The default of a missing value: uint, int/number/any, float, bool, string in that order; otherwise `String(value)`. */
  function DefaultLiteral(t: JsValue, value: JsValue): (r: Literal)
    ensures LiteralOk(r)
  {
    if IsValidType(t, "uint") then CreateNumber("0", KUint, 32)
    else if IsValidType(t, "int") || IsValidType(t, "number") || IsValidType(t, "any") then CreateNumber("0", KInt, 32)
    else if IsValidType(t, "float") then CreateNumber("0.0", KFloat, 64)
    else if IsValidType(t, "bool") then LBool("false")
    else if IsValidType(t, "string") then LString("")
    else LString(ToStr(value))
  }

  /** Which kind a number literal takes, by the first accepted type in priority order, and the fixed widths. */
  lemma NumberLiteralChoice(repr: string, t: JsValue)
    ensures IsValidType(t, "uint") ==> NumberLiteral(repr, t) == LNumber(repr, KUint, "32")
    ensures !IsValidType(t, "uint") && (IsValidType(t, "int") || IsValidType(t, "number") || IsValidType(t, "any")) ==>
      NumberLiteral(repr, t) == LNumber(repr, KInt, "32")
    ensures (!IsValidType(t, "uint") && !IsValidType(t, "int") && !IsValidType(t, "number") && !IsValidType(t, "any") &&
             IsValidType(t, "float")) ==> NumberLiteral(repr, t) == LNumber(repr, KFloat, "64")
    ensures NumberLiteral(repr, t).LString? <==>
      !IsValidType(t, "uint") && !IsValidType(t, "int") && !IsValidType(t, "number") && !IsValidType(t, "any") && !IsValidType(t, "float")
  {
    WidthTexts();
  }

  /** The defaults of a missing value, in priority order. */
  lemma DefaultLiteralChoice(t: JsValue, value: JsValue)
    ensures IsValidType(t, "uint") ==> DefaultLiteral(t, value) == LNumber("0", KUint, "32")
    ensures !IsValidType(t, "uint") && (IsValidType(t, "int") || IsValidType(t, "number") || IsValidType(t, "any")) ==>
      DefaultLiteral(t, value) == LNumber("0", KInt, "32")
    ensures (!IsValidType(t, "uint") && !IsValidType(t, "int") && !IsValidType(t, "number") && !IsValidType(t, "any") &&
             IsValidType(t, "float")) ==> DefaultLiteral(t, value) == LNumber("0.0", KFloat, "64")
    ensures DefaultLiteral(t, value).LBool? ==> DefaultLiteral(t, value) == LBool("false") && IsValidType(t, "bool")
    ensures (!IsValidType(t, "uint") && !IsValidType(t, "int") && !IsValidType(t, "number") && !IsValidType(t, "any") &&
             !IsValidType(t, "float") && !IsValidType(t, "bool") && IsValidType(t, "string")) ==> DefaultLiteral(t, value) == LString("")
  {
    WidthTexts();
  }

  /** `blockDef.inputs[inputName].type`, or `None` where reading it throws or the input is undeclared. */
  function DeclaredType(def: BlockDef, input: string): Option<JsValue>
  {
    match Lookup(InputsOf(def), input)
    case None => None
    case Some(spec) => Some(Attr(spec.attrs, "type"))
  }

  /** `parseSimpleValue(value, blockName, inputName, moduleName)`; only numbers and missing values read the definition. */
  function ParseSimpleValue(env: Env, value: JsValue, block: string, input: string, m: string): (r: Result<Literal, Error>)
    ensures r.Ok? ==> LiteralOk(r.value)
  {
    if value.Str? then Ok(StringLiteral(value.s))
    else if value.Bool? then Ok(LBool(ToStr(value)))
    else if value.Num? then
      var def :- env.fetch(m, block);
      match DeclaredType(def, input)
      case None => Err(UnknownInput(input, block))
      case Some(t) => Ok(NumberLiteral(value.repr, t))
    else if Nullish(value) then MissingLiteral(env, value, block, input, m)
    else Ok(LString(ToStr(value)))
  }

  function MissingLiteral(env: Env, value: JsValue, block: string, input: string, m: string): (r: Result<Literal, Error>)
    ensures r.Ok? ==> LiteralOk(r.value)
  {
    var def :- env.fetch(m, block);
    match DeclaredType(def, input)
    case None => Err(InputTypeUnreadable(input))
    case Some(t) => Ok(DefaultLiteral(t, value))
  }

  /** Text and booleans are typed without the catalog. */
  lemma TextNeedsNoDefinition(e1: Env, e2: Env, v: Scalar, block: string, input: string, m1: string, m2: string)
    requires !v.TNum?
    ensures ParseSimpleValue(e1, v.ToJs(), block, input, m1) == ParseSimpleValue(e2, v.ToJs(), block, input, m2)
    ensures v.TStr? ==> ParseSimpleValue(e1, v.ToJs(), block, input, m1) == Ok(StringLiteral(v.s))
    ensures v.TBool? ==> ParseSimpleValue(e1, v.ToJs(), block, input, m1) == Ok(LBool(if v.b then "true" else "false"))
  {
  }

  /** With the definition at hand, a number fails exactly for an undeclared input, and then with "Unknown input". */
  lemma NumberForUnknownInput(env: Env, repr: string, block: string, input: string, m: string)
    ensures env.fetch(m, block).Err? ==> ParseSimpleValue(env, Num(repr), block, input, m) == Err(env.fetch(m, block).error)
    ensures env.fetch(m, block).Ok? ==>
      (ParseSimpleValue(env, Num(repr), block, input, m).Err? <==> input !in Keys(InputsOf(env.fetch(m, block).value)))
    ensures env.fetch(m, block).Ok? && input !in Keys(InputsOf(env.fetch(m, block).value)) ==>
      ParseSimpleValue(env, Num(repr), block, input, m) == Err(UnknownInput(input, block))
  {
  }

  // ---------------------------------------------------------------------
  // processBlockContent, processBlockUser
  // ---------------------------------------------------------------------

  /** `Array.isArray(node[key]) ? node[key] : []`. */
  function Entries(n: XNode): seq<XNode>
  {
    if n.Elem? then n.children else []
  }

  /** `valueArray.find(v => v && v["#text"] !== undefined)`: the first text node. */
  function SimpleValueEntry(ns: seq<XNode>): (r: Option<Scalar>)
    ensures r.Some? ==> XNode.Text(r.value) in ns
    ensures r.None? <==> forall i :: 0 <= i < |ns| ==> ns[i].Elem?
  {
    if ns == [] then None
    else if ns[0].Text? then Some(ns[0].value)
    else
      var r := SimpleValueEntry(ns[1..]);
      assert forall i :: 1 <= i < |ns| ==> ns[i] == ns[1..][i - 1];
      r
  }

  /** The `#flags` of an input entry: `{for}` when its `for` attribute is truthy. */
  function ForTag(attrs: Option<Attrs>): (r: Option<JsValue>)
    ensures r.Some? ==> Truthy(r.value)
  {
    if attrs.Some? && Truthy(Attr(attrs.value, "@_for")) then Some(Attr(attrs.value, "@_for")) else None
  }

  /** The module a block's inputs are typed against, from its `module` attribute when it gives one. */
  function ContentModule(index: Result<Catalog.Index, Error>, block: string, attrs: Option<Attrs>): Result<string, Error>
  {
    Catalog.BlockFromModule(index, block, if attrs.Some? then Attr(attrs.value, "@_module") else Undefined)
  }

  /**
   * As written at src/utils/parsers/userCode.ts:149: the raw attribute object
   * is passed as the flags, so `flags?.module` reads an attribute called
   * "module", where the parser names it "@_module".
   */
  function ContentModuleAsWritten(index: Result<Catalog.Index, Error>, block: string, attrs: Option<Attrs>): Result<string, Error>
  {
    Catalog.BlockFromModule(index, block, if attrs.Some? then Attr(attrs.value, "module") else Undefined)
  }

  /** Attribute names as the parser gives them: unique, each with the "@_" prefix. */
  predicate ParserAttrs(a: Attrs)
  {
    UniqueKeys(a) && forall i :: 0 <= i < |a| ==> StartsWith(a[i].0, "@_")
  }

  /** As written, the module attribute is never seen: the module always comes from the index. */
  lemma AsWrittenIgnoresModuleAttribute(index: Result<Catalog.Index, Error>, block: string, a: Attrs)
    requires ParserAttrs(a)
    ensures ContentModuleAsWritten(index, block, Some(a)) == Catalog.BlockFromModule(index, block, Undefined)
  {
    assert "module" !in Keys(a) by {
      forall i | 0 <= i < |a| ensures Keys(a)[i] != "module" {
        assert a[i].0[..2] == "@_" && "module"[..2] == "mo";
      }
    }
  }

  /** A block named in two modules, with `module="A"`: as written the lookup is ambiguous, corrected it resolves to A. */
  lemma ExplicitModuleExample()
    ensures ContentModuleAsWritten(Ok([("A", ["b"]), ("B", ["b"])]), "b", Some([("@_module", Str("A"))])) ==
      Err(ModuleAmbiguous("b", ["A", "B"]))
    ensures ContentModule(Ok([("A", ["b"]), ("B", ["b"])]), "b", Some([("@_module", Str("A"))])) == Ok("A")
  {
    var idx: Catalog.Index := [("A", ["b"]), ("B", ["b"])];
    assert Catalog.ModulesContaining(idx[1..], "b") == ["B"];
    assert Catalog.ModulesContaining(idx, "b") == ["A", "B"];
    assert |"@_module"| != |"module"|;
    assert Attr([("@_module", Str("A"))], "module") == Undefined;
  }

  /** Case 3, an empty tag: an input accepting blocks gets no blocks, any other its default literal. */
  function EmptyValue(env: Env, block: string, key: string, m: string): (r: Result<UserValue, Error>)
  {
    var def :- env.fetch(m, block);
    match DeclaredType(def, key)
    case None => Err(InputTypeUnreadable(key))
    case Some(t) =>
      if IsValidType(t, "block") then Ok(Blocks([]))
      else
        var lit :- ParseSimpleValue(env, Null, block, key, m);
        Ok(Lit(lit))
  }

  /** An empty tag gives an empty block list exactly when the input accepts blocks, and otherwise the default literal. */
  lemma EmptyTagValue(env: Env, block: string, key: string, m: string, def: BlockDef, t: JsValue)
    requires env.fetch(m, block) == Ok(def) && DeclaredType(def, key) == Some(t)
    ensures IsValidType(t, "block") ==> EmptyValue(env, block, key, m) == Ok(Blocks([]))
    ensures !IsValidType(t, "block") ==> EmptyValue(env, block, key, m) == Ok(Lit(DefaultLiteral(t, Null)))
  {
    if !IsValidType(t, "block") {
      assert MissingLiteral(env, Null, block, key, m) == Ok(DefaultLiteral(t, Null));
      assert ParseSimpleValue(env, Null, block, key, m) == MissingLiteral(env, Null, block, key, m);
    }
  }

  /** The text of one input entry: its first text node, else its nested blocks, else the empty-tag value. */
  function EntryValue(env: Env, parent: XNode, i: nat, m: string): (r: Result<UserValue, Error>)
    requires i < |Entries(parent)|
    decreases parent, 1, |Entries(parent)| - i, 0
  {
    var entry := Entries(parent)[i];
    var key := FirstKey(entry);
    var block := FirstKey(parent);
    match ContentOf(entry)
    case Kids(ns) =>
      var t := SimpleValueEntry(ns);
      if t.Some? then
        var lit :- ParseSimpleValue(env, t.value.ToJs(), block, key, m);
        Ok(Lit(lit))
      else if ns != [] then
        assert entry in parent.children;
        var bs :- ParseBlocks(env, ns);
        Ok(Blocks(bs))
      else EmptyValue(env, block, key, m)
    case Leaf(_) => EmptyValue(env, block, key, m)
  }

  /**
   * One pass of the loop of `processBlockContent`: an entry with a key
   * resolves the module, computes its value and assigns `content[key]`.
   */
  function ContentStep(env: Env, parent: XNode, i: nat, acc: seq<(string, Item)>): (r: Result<seq<(string, Item)>, Error>)
    requires i < |Entries(parent)|
    ensures r.Ok? ==> Keys(r.value) == if FirstKey(Entries(parent)[i]) == "" || FirstKey(Entries(parent)[i]) in Keys(acc) then Keys(acc)
                                       else Keys(acc) + [FirstKey(Entries(parent)[i])]
    decreases parent, 1, |Entries(parent)| - i, 1
  {
    var entry := Entries(parent)[i];
    var key := FirstKey(entry);
    if key == "" then Ok(acc)
    else
      var m :- ContentModule(env.index, FirstKey(parent), AttrsOf(parent));
      var v :- EntryValue(env, parent, i, m);
      Ok(Put(acc, key, Value(v, ForTag(AttrsOf(entry)))))
  }

  /** The loop of `processBlockContent` from entry `i` on. */
  function ParseContent(env: Env, parent: XNode, i: nat, acc: seq<(string, Item)>): (r: Result<seq<(string, Item)>, Error>)
    decreases parent, 1, |Entries(parent)| - i
  {
    if i >= |Entries(parent)| then Ok(acc)
    else
      var next :- ContentStep(env, parent, i, acc);
      ParseContent(env, parent, i + 1, next)
  }

  /** `Promise.all(nodes.map(processBlockUser))`, in order; the first failure is the result. */
  function ParseBlocks(env: Env, ns: seq<XNode>): (r: Result<seq<UserBlock>, Error>)
    decreases ns, 0
  {
    if ns == [] then Ok([])
    else
      var b :- ParseBlock(env, ns[0]);
      var rest :- ParseBlocks(env, ns[1..]);
      Ok([b] + rest)
  }

  /** `processBlockUser(block)`. */
  function ParseBlock(env: Env, n: XNode): (r: Result<UserBlock, Error>)
    decreases n, 2
  {
    var name := FirstKey(n);
    if name == "" then Err(EmptyBlockTag)
    else
      var content :- ParseContent(env, n, 0, []);
      Ok(Assemble(name, AttrsOf(n), content))
  }

  /** `flagKey.substring(2)`. */
  function Clean(k: string): string
  {
    if |k| >= 2 then k[2..] else ""
  }

  /** The loop building `attributesToMerge`: every attribute but `for`, under its name without "@_". */
  function MergeGo(a: Attrs, i: nat, acc: seq<(string, JsValue)>): seq<(string, JsValue)>
    decreases |a| - i
  {
    if i >= |a| then acc
    else MergeGo(a, i + 1, MergeStep(a, i, acc))
  }

  function MergeStep(a: Attrs, i: nat, acc: seq<(string, JsValue)>): seq<(string, JsValue)>
    requires i < |a|
  {
    if a[i].0 != "@_for" then Put(acc, Clean(a[i].0), a[i].1) else acc
  }

  /** `{...content, ...extra}`: the attributes overwrite equal keys in place and append the others. */
  function Spread(content: seq<(string, Item)>, extra: seq<(string, JsValue)>): seq<(string, Item)>
    decreases |extra|
  {
    if extra == [] then content else Spread(Put(content, extra[0].0, AttrValue(extra[0].1)), extra[1..])
  }

  function EntriesOf(p: seq<(string, Item)>): (r: seq<Entry>)
    ensures |r| == |p| && forall i :: 0 <= i < |p| ==> r[i] == Entry(p[i].0, p[i].1)
  {
    seq(|p|, i requires 0 <= i < |p| => Entry(p[i].0, p[i].1))
  }

  /** The content of a block as an ordered object. */
  function PairsOf(c: seq<Entry>): (r: seq<(string, Item)>)
    ensures |r| == |c| && forall i :: 0 <= i < |c| ==> r[i] == (c[i].key, c[i].item)
  {
    seq(|c|, i requires 0 <= i < |c| => (c[i].key, c[i].item))
  }

  lemma PairsOfEntries(p: seq<(string, Item)>)
    ensures PairsOf(EntriesOf(p)) == p
  {
  }

  /**
   * The block object: with attributes, `#flags` is `{module}` and the
   * other attributes are spread over the content (spreading nothing changes
   * nothing, so the `hasMergeableAttributes` test needs no counterpart).
   */
  function Assemble(name: string, attrs: Option<Attrs>, content: seq<(string, Item)>): (b: UserBlock)
    ensures b.name == name
  {
    match attrs
    case None => UserBlock(name, None, EntriesOf(content))
    case Some(a) => UserBlock(name, Some(Attr(a, "@_module")), EntriesOf(Spread(content, MergeGo(a, 0, []))))
  }

  // ---------------------------------------------------------------------
  // Lemmas about blocks
  // ---------------------------------------------------------------------

  /** The loop body of `processBlockContent` as a relation between accumulators. */
  lemma {:induction false} ContentKeys(env: Env, parent: XNode, i: nat, acc: seq<(string, Item)>, k: string)
    requires ParseContent(env, parent, i, acc).Ok?
    ensures k in Keys(ParseContent(env, parent, i, acc).value) <==>
      k in Keys(acc) || (k != "" && exists j :: i <= j < |Entries(parent)| && FirstKey(Entries(parent)[j]) == k)
    decreases |Entries(parent)| - i
  {
    var es := Entries(parent);
    if i < |es| {
      var step := ContentStep(env, parent, i, acc);
      ContentOk(env, parent, i, acc);
      ContentKeys(env, parent, i + 1, step.value, k);
      KeysCombine(Keys(acc), Keys(step.value), Keys(ParseContent(env, parent, i + 1, step.value).value), es, i, k);
    }
  }

  /** A loop that succeeds passed entry `i` and went on from its result. */
  lemma ContentOk(env: Env, parent: XNode, i: nat, acc: seq<(string, Item)>)
    requires i < |Entries(parent)| && ParseContent(env, parent, i, acc).Ok?
    ensures ContentStep(env, parent, i, acc).Ok?
    ensures ParseContent(env, parent, i, acc) == ParseContent(env, parent, i + 1, ContentStep(env, parent, i, acc).value)
  {
  }

  /** Chaining one step's keys with the rest of the loop's keys. */
  lemma KeysCombine(before: seq<string>, after: seq<string>, last: seq<string>, es: seq<XNode>, i: nat, k: string)
    requires i < |es|
    requires k in after <==> k in before || (k != "" && k == FirstKey(es[i]))
    requires k in last <==> k in after || (k != "" && exists j :: i + 1 <= j < |es| && FirstKey(es[j]) == k)
    ensures k in last <==> k in before || (k != "" && exists j :: i <= j < |es| && FirstKey(es[j]) == k)
  {
    KeyAtOrAfter(es, i, k);
  }

  /** A key occurs from `i` on exactly when it is the key at `i` or occurs from `i + 1` on. */
  lemma KeyAtOrAfter(es: seq<XNode>, i: nat, k: string)
    requires i < |es|
    ensures (exists j :: i <= j < |es| && FirstKey(es[j]) == k) <==>
      FirstKey(es[i]) == k || exists j :: i + 1 <= j < |es| && FirstKey(es[j]) == k
  {
    if exists j :: i <= j < |es| && FirstKey(es[j]) == k {
      var j :| i <= j < |es| && FirstKey(es[j]) == k;
      if j > i {
        assert i + 1 <= j < |es| && FirstKey(es[j]) == k;
      }
    }
  }

  /** The content's keys are exactly the entries' non-empty keys. */
  lemma BlockContentKeys(env: Env, parent: XNode, k: string)
    requires ParseContent(env, parent, 0, []).Ok?
    ensures k in Keys(ParseContent(env, parent, 0, []).value) <==>
      k != "" && exists j :: 0 <= j < |Entries(parent)| && FirstKey(Entries(parent)[j]) == k
  {
    ContentKeys(env, parent, 0, [], k);
  }

  /** A block's module flag is the one the converter resolves it by, and its inputs were typed against that module. */
  lemma BlockModuleAgrees(env: Env, n: XNode, b: UserBlock)
    requires ParseBlock(env, n) == Ok(b)
    ensures b.name == FirstKey(n)
    ensures b.flags.Some? <==> AttrsOf(n).Some?
    ensures ContentModule(env.index, FirstKey(n), AttrsOf(n)) == Catalog.BlockFromModule(env.index, b.name, FlagModule(b.flags))
  {
  }

  lemma {:induction false} MergeGoUnique(a: Attrs, i: nat, acc: seq<(string, JsValue)>)
    requires UniqueKeys(acc)
    ensures UniqueKeys(MergeGo(a, i, acc))
    decreases |a| - i
  {
    if i < |a| {
      if a[i].0 != "@_for" {
        PutUnique(acc, Clean(a[i].0), a[i].1);
      }
      MergeGoUnique(a, i + 1, MergeStep(a, i, acc));
    }
  }

  /** An attribute merged in step `j` keeps its value when later attribute names differ. */
  lemma {:induction false} MergeGoFound(a: Attrs, i: nat, acc: seq<(string, JsValue)>, j: nat)
    requires ParserAttrs(a) && i <= j < |a| && a[j].0 != "@_for"
    ensures Lookup(MergeGo(a, i, acc), Clean(a[j].0)) == Some(a[j].1)
    decreases |a| - i
  {
    var next := MergeStep(a, i, acc);
    assert MergeGo(a, i, acc) == MergeGo(a, i + 1, next);
    if i == j {
      assert next == Put(acc, Clean(a[j].0), a[j].1);
      PutLookup(acc, Clean(a[j].0), a[j].1, Clean(a[j].0));
      LaterNamesDiffer(a, j);
      MergeGoAbsent(a, i + 1, next, Clean(a[j].0));
    } else {
      MergeGoFound(a, i + 1, next, j);
    }
  }

  /** No later attribute cleans to the same name as attribute `j`. */
  lemma LaterNamesDiffer(a: Attrs, j: nat)
    requires ParserAttrs(a) && j < |a|
    ensures forall x :: j + 1 <= x < |a| && a[x].0 != "@_for" ==> Clean(a[x].0) != Clean(a[j].0)
  {
    forall x | j + 1 <= x < |a| && a[x].0 != "@_for" ensures Clean(a[x].0) != Clean(a[j].0) {
      CleanDistinct(a, x, j);
    }
  }

  lemma CleanDistinct(a: Attrs, i: nat, j: nat)
    requires ParserAttrs(a) && i < |a| && j < |a| && i != j
    ensures Clean(a[i].0) != Clean(a[j].0)
  {
    var x, y := a[i].0, a[j].0;
    assert x[..2] == "@_" && y[..2] == "@_";
  }

  /** A key no merged attribute has is read from the content. */
  lemma {:induction false} MergeGoAbsent(a: Attrs, i: nat, acc: seq<(string, JsValue)>, k: string)
    requires forall j :: i <= j < |a| && a[j].0 != "@_for" ==> Clean(a[j].0) != k
    ensures Lookup(MergeGo(a, i, acc), k) == Lookup(acc, k)
    decreases |a| - i
  {
    if i < |a| {
      if a[i].0 != "@_for" {
        PutLookup(acc, Clean(a[i].0), a[i].1, k);
      }
      MergeGoAbsent(a, i + 1, MergeStep(a, i, acc), k);
    }
  }

  /** Spreading: a key of the attributes takes the attribute's value, any other key keeps the content's. */
  lemma {:induction false} SpreadLookup(content: seq<(string, Item)>, extra: seq<(string, JsValue)>, k: string)
    requires UniqueKeys(extra)
    ensures Lookup(extra, k).Some? ==> Lookup(Spread(content, extra), k) == Some(AttrValue(Lookup(extra, k).value))
    ensures Lookup(extra, k).None? ==> Lookup(Spread(content, extra), k) == Lookup(content, k)
    decreases |extra|
  {
    if extra != [] {
      var next := Put(content, extra[0].0, AttrValue(extra[0].1));
      assert UniqueKeys(extra[1..]) by {
        assert forall x, y :: 0 <= x < y < |extra[1..]| ==> extra[1..][x] == extra[x + 1] && extra[1..][y] == extra[y + 1];
      }
      SpreadLookup(next, extra[1..], k);
      PutLookup(content, extra[0].0, AttrValue(extra[0].1), k);
      if extra[0].0 == k {
        assert k !in Keys(extra[1..]) by {
          forall x | 0 <= x < |extra[1..]| ensures Keys(extra[1..])[x] != k {
            assert extra[1..][x] == extra[x + 1];
          }
        }
      }
    }
  }

  /** Every attribute except `for` is in the block's content, under its name without "@_" and with its value. */
  lemma BlockAttributesMerged(env: Env, n: XNode, b: UserBlock, j: nat)
    requires ParseBlock(env, n) == Ok(b)
    requires AttrsOf(n).Some? && ParserAttrs(AttrsOf(n).value)
    requires j < |AttrsOf(n).value| && AttrsOf(n).value[j].0 != "@_for"
    ensures Lookup(PairsOf(b.content), Clean(AttrsOf(n).value[j].0)) == Some(AttrValue(AttrsOf(n).value[j].1))
  {
    var a := AttrsOf(n).value;
    var content := ParseContent(env, n, 0, []).value;
    var extra := MergeGo(a, 0, []);
    MergeGoUnique(a, 0, []);
    MergeGoFound(a, 0, [], j);
    SpreadLookup(content, extra, Clean(a[j].0));
    PairsOfEntries(Spread(content, extra));
  }

  /** A key that no merged attribute gives keeps the input value the content loop assigned. */
  lemma BlockInputsKept(env: Env, n: XNode, b: UserBlock, k: string)
    requires ParseBlock(env, n) == Ok(b)
    requires AttrsOf(n).Some? ==> forall j :: 0 <= j < |AttrsOf(n).value| && AttrsOf(n).value[j].0 != "@_for" ==>
      Clean(AttrsOf(n).value[j].0) != k
    ensures Lookup(PairsOf(b.content), k) == Lookup(ParseContent(env, n, 0, []).value, k)
  {
    var content := ParseContent(env, n, 0, []).value;
    if AttrsOf(n).Some? {
      var a := AttrsOf(n).value;
      MergeGoUnique(a, 0, []);
      MergeGoAbsent(a, 0, [], k);
      SpreadLookup(content, MergeGo(a, 0, []), k);
      PairsOfEntries(Spread(content, MergeGo(a, 0, [])));
    } else {
      PairsOfEntries(content);
    }
  }

  /** `Promise.all` keeps the order: one block per node, each the parse of its node. */
  lemma {:induction false} ParseBlocksInOrder(env: Env, ns: seq<XNode>)
    requires ParseBlocks(env, ns).Ok?
    ensures |ParseBlocks(env, ns).value| == |ns|
    ensures forall k :: 0 <= k < |ns| ==> ParseBlock(env, ns[k]) == Ok(ParseBlocks(env, ns).value[k])
  {
    if ns != [] {
      ParseBlocksInOrder(env, ns[1..]);
      assert forall k :: 1 <= k < |ns| ==> ns[k] == ns[1..][k - 1];
    }
  }

  /** One entry of the content loop, case by case: skipped without a key, failing with the module or the value, or assigned. */
  lemma ContentCases(env: Env, parent: XNode, i: nat, acc: seq<(string, Item)>)
    requires i < |Entries(parent)|
    ensures var e := Entries(parent)[i]; FirstKey(e) == "" ==>
      ParseContent(env, parent, i, acc) == ParseContent(env, parent, i + 1, acc)
    ensures var e, m := Entries(parent)[i], ContentModule(env.index, FirstKey(parent), AttrsOf(parent));
      FirstKey(e) != "" && m.Err? ==> ParseContent(env, parent, i, acc) == Err(m.error)
    ensures var e, m := Entries(parent)[i], ContentModule(env.index, FirstKey(parent), AttrsOf(parent));
      FirstKey(e) != "" && m.Ok? && EntryValue(env, parent, i, m.value).Err? ==>
        ParseContent(env, parent, i, acc) == Err(EntryValue(env, parent, i, m.value).error)
    ensures var e, m := Entries(parent)[i], ContentModule(env.index, FirstKey(parent), AttrsOf(parent));
      FirstKey(e) != "" && m.Ok? && EntryValue(env, parent, i, m.value).Ok? ==>
        ParseContent(env, parent, i, acc) ==
        ParseContent(env, parent, i + 1, Put(acc, FirstKey(e), Value(EntryValue(env, parent, i, m.value).value, ForTag(AttrsOf(e)))))
  {
  }

  /** One pass of the loop of `processBlockContent`: an entry without a key is skipped, any other assigns `content[key]`. */
  method ReadEntry(env: Env, parent: XNode, i: nat, content: seq<(string, Item)>) returns (r: Result<seq<(string, Item)>, Error>)
    requires i < |Entries(parent)|
    ensures r == ContentStep(env, parent, i, content)
  {
    var entry := Entries(parent)[i];
    var key := FirstKey(entry);
    if key == "" {
      return Ok(content);
    }
    var m := ContentModule(env.index, FirstKey(parent), AttrsOf(parent));
    if m.Err? {
      return Err(m.error);
    }
    var v := EntryValue(env, parent, i, m.value);
    if v.Err? {
      return Err(v.error);
    }
    return Ok(Put(content, key, Value(v.value, ForTag(AttrsOf(entry)))));
  }

  /** The loop of `processBlockContent`, assigning `content[key]` entry by entry. */
  method ReadContent(env: Env, parent: XNode) returns (r: Result<seq<(string, Item)>, Error>)
    ensures r == ParseContent(env, parent, 0, [])
  {
    var entries := Entries(parent);
    var content: seq<(string, Item)> := [];
    var i := 0;
    while i < |entries|
      invariant 0 <= i <= |entries|
      invariant ParseContent(env, parent, i, content) == ParseContent(env, parent, 0, [])
      decreases |entries| - i
    {
      var next := ReadEntry(env, parent, i, content);
      if next.Err? {
        return Err(next.error);
      }
      content := next.value;
      i := i + 1;
    }
    return Ok(content);
  }

  // ---------------------------------------------------------------------
  // processBlockEventUser, parseCodeUser
  // ---------------------------------------------------------------------

  /** `String(flagsEntry["@_module"] || await blockFromModule(eventName, flagsEntry["@_module"]))`. */
  function EventModule(index: Result<Catalog.Index, Error>, name: string, mod: JsValue): Result<string, Error>
  {
    if Truthy(mod) then Ok(ToStr(mod))
    else
      var found :- Catalog.BlockFromModule(index, name, Get(mod, "module"));
      Ok(ToStr(Str(found)))
  }

  /**
   * An event's module is resolved as `blockFromModule` resolves a string or
   * falsy flag: explicit when truthy, looked up otherwise. Any other truthy
   * value is converted with `String()` and never fails.
   */
  lemma EventModuleResolution(index: Result<Catalog.Index, Error>, name: string, mod: JsValue)
    ensures mod.Str? || !Truthy(mod) ==> EventModule(index, name, mod) == Catalog.BlockFromModule(index, name, mod)
    ensures Truthy(mod) ==> EventModule(index, name, mod) == Ok(ToStr(mod))
  {
  }

  /** The attribute named `k` becomes a dynamic event flag: "@_" followed by a name starting with "_". */
  predicate IsDynamicFlag(k: string)
  {
    StartsWith(k, "@_") && StartsWith(k[2..], "_") && k[2..] != "module"
  }

  /** The loop of `processBlockEventUser` over the attributes from `i` on, collecting the dynamic flags after `module`. */
  function ExtrasGo(a: Attrs, i: nat, acc: seq<(string, string)>): seq<(string, string)>
    decreases |a| - i
  {
    if i >= |a| then acc
    else ExtrasGo(a, i + 1, ExtrasStep(a, i, acc))
  }

  function ExtrasStep(a: Attrs, i: nat, acc: seq<(string, string)>): seq<(string, string)>
    requires i < |a|
  {
    if IsDynamicFlag(a[i].0) then Put(acc, a[i].0[2..], ToStr(a[i].1)) else acc
  }

  /** The `#flags` of an event element with attributes. */
  function EventFlagsFor(index: Result<Catalog.Index, Error>, name: string, a: Attrs): Result<EventFlags, Error>
  {
    var m :- EventModule(index, name, Attr(a, "@_module"));
    Ok(EventFlags(m, ExtrasGo(a, 0, [])))
  }

  /** Every collected flag name starts with "_". */
  lemma {:induction false} ExtrasGoUnderscored(a: Attrs, i: nat, acc: seq<(string, string)>)
    requires forall x :: 0 <= x < |acc| ==> StartsWith(acc[x].0, "_")
    ensures forall x :: 0 <= x < |ExtrasGo(a, i, acc)| ==> StartsWith(ExtrasGo(a, i, acc)[x].0, "_")
    decreases |a| - i
  {
    if i < |a| {
      var next := ExtrasStep(a, i, acc);
      assert forall x :: 0 <= x < |next| ==> next[x].0 == Keys(next)[x];
      assert forall x :: 0 <= x < |acc| ==> acc[x].0 == Keys(acc)[x];
      ExtrasGoUnderscored(a, i + 1, next);
    }
  }

  /** The event flags always pass EventBlockFlagsUserSchema's refinement. */
  lemma EventFlagsAccepted(index: Result<Catalog.Index, Error>, name: string, a: Attrs)
    requires EventFlagsFor(index, name, a).Ok?
    ensures EventFlagsOk(EventFlagsFor(index, name, a).value)
  {
    ExtrasGoUnderscored(a, 0, []);
  }

  lemma DynamicName(s: string, k: string)
    ensures (IsDynamicFlag(s) && s[2..] == k) <==> (s == "@_" + k && StartsWith(k, "_"))
  {
    if s == "@_" + k {
      assert s[..2] == "@_" && s[2..] == k;
      if StartsWith(k, "_") {
        assert k != "module" by { assert k[0] == '_'; }
      }
    }
    if IsDynamicFlag(s) && s[2..] == k {
      assert s == s[..2] + s[2..];
    }
  }

  /** The flag names collected from `i` on are those of the dynamic attributes. */
  lemma {:induction false} ExtrasGoKeys(a: Attrs, i: nat, acc: seq<(string, string)>, k: string)
    requires i <= |a|
    ensures k in Keys(ExtrasGo(a, i, acc)) <==>
      k in Keys(acc) || (StartsWith(k, "_") && exists j :: i <= j < |a| && a[j].0 == "@_" + k)
    decreases |a| - i
  {
    if i < |a| {
      var next := ExtrasStep(a, i, acc);
      ExtrasGoKeys(a, i + 1, next, k);
      DynamicName(a[i].0, k);
      if StartsWith(k, "_") && exists j :: i <= j < |a| && a[j].0 == "@_" + k {
        var j :| i <= j < |a| && a[j].0 == "@_" + k;
        if j > i {
          assert exists j :: i + 1 <= j < |a| && a[j].0 == "@_" + k;
        }
      }
    }
  }

  /** The dynamic flags are exactly the attributes "@__…", without the "@_" prefix. */
  lemma EventFlagNames(index: Result<Catalog.Index, Error>, name: string, a: Attrs, k: string)
    requires EventFlagsFor(index, name, a).Ok?
    ensures k in Keys(EventFlagsFor(index, name, a).value.extras) <==> StartsWith(k, "_") && ("@_" + k) in Keys(a)
  {
    ExtrasGoKeys(a, 0, [], k);
    if StartsWith(k, "_") && ("@_" + k) in Keys(a) {
      var j :| 0 <= j < |a| && Keys(a)[j] == "@_" + k;
      assert a[j].0 == "@_" + k;
    }
  }

  /** Attributes after `i` that give no flag `k` leave its value alone. */
  lemma {:induction false} ExtrasGoAbsent(a: Attrs, i: nat, acc: seq<(string, string)>, k: string)
    requires forall x :: i <= x < |a| ==> !(IsDynamicFlag(a[x].0) && a[x].0[2..] == k)
    ensures Lookup(ExtrasGo(a, i, acc), k) == Lookup(acc, k)
    decreases |a| - i
  {
    if i < |a| {
      if IsDynamicFlag(a[i].0) {
        PutLookup(acc, a[i].0[2..], ToStr(a[i].1), k);
      }
      ExtrasGoAbsent(a, i + 1, ExtrasStep(a, i, acc), k);
    }
  }

  /** A dynamic flag holds `String()` of its attribute's value. */
  lemma {:induction false} ExtrasGoValue(a: Attrs, i: nat, acc: seq<(string, string)>, k: string, j: nat)
    requires i <= j < |a| && a[j].0 == "@_" + k && StartsWith(k, "_")
    requires forall x :: j < x < |a| ==> a[x].0 != "@_" + k
    ensures Lookup(ExtrasGo(a, i, acc), k) == Some(ToStr(a[j].1))
    decreases |a| - i
  {
    if i == j {
      ExtrasGoAt(a, j, acc, k);
    } else {
      ExtrasGoValue(a, i + 1, ExtrasStep(a, i, acc), k, j);
    }
  }

  lemma ExtrasGoAt(a: Attrs, j: nat, acc: seq<(string, string)>, k: string)
    requires j < |a| && a[j].0 == "@_" + k && StartsWith(k, "_")
    requires forall x :: j < x < |a| ==> a[x].0 != "@_" + k
    ensures Lookup(ExtrasGo(a, j, acc), k) == Some(ToStr(a[j].1))
  {
    DynamicName(a[j].0, k);
    var next := Put(acc, k, ToStr(a[j].1));
    PutLookup(acc, k, ToStr(a[j].1), k);
    forall x | j + 1 <= x < |a| ensures !(IsDynamicFlag(a[x].0) && a[x].0[2..] == k) {
      DynamicName(a[x].0, k);
    }
    ExtrasGoAbsent(a, j + 1, next, k);
  }

  /** With the parser's unique attribute names, each dynamic flag is the text of its attribute. */
  lemma EventFlagValues(index: Result<Catalog.Index, Error>, name: string, a: Attrs, k: string, j: nat)
    requires EventFlagsFor(index, name, a).Ok?
    requires UniqueKeys(a) && j < |a| && a[j].0 == "@_" + k && StartsWith(k, "_")
    ensures Lookup(EventFlagsFor(index, name, a).value.extras, k) == Some(ToStr(a[j].1))
  {
    assert forall x :: j < x < |a| ==> a[x].0 != a[j].0;
    ExtrasGoValue(a, 0, [], k, j);
  }

  /** The loop of `processBlockEventUser` filling the flags object, which starts as `{module}`. */
  method BuildEventFlags(index: Result<Catalog.Index, Error>, name: string, a: Attrs) returns (r: Result<EventFlags, Error>)
    ensures r == EventFlagsFor(index, name, a)
  {
    var m := EventModule(index, name, Attr(a, "@_module"));
    if m.Err? {
      return Err(m.error);
    }
    var flags: seq<(string, string)> := [("module", m.value)];
    assert flags[1..] == [];
    for i := 0 to |a|
      invariant |flags| >= 1 && flags[0] == ("module", m.value)
      invariant ExtrasGo(a, i, flags[1..]) == ExtrasGo(a, 0, [])
    {
      var key := a[i].0;
      if StartsWith(key, "@_") {
        var cleanKey := key[2..];
        if StartsWith(cleanKey, "_") && cleanKey != "module" {
          flags := Put(flags, cleanKey, ToStr(a[i].1));
        }
      }
    }
    return Ok(EventFlags(flags[0].1, flags[1..]));
  }

  /** `processBlockEventUser(event)`; `None` is the empty object an element without a name gives. */
  function ParseEvent(env: Env, n: XNode): (r: Result<Option<EventOccurrence>, Error>)
    ensures r.Ok? && r.value.Some? ==> r.value.value.name == FirstKey(n) && r.value.value.body.Some?
    ensures r.Ok? && r.value.Some? ==> (r.value.value.flags.Some? <==> AttrsOf(n).Some?)
  {
    var name := FirstKey(n);
    if name == "" then Ok(None)
    else
      var blocks :- ParseBlocks(env, Entries(n));
      match AttrsOf(n)
      case None => Ok(Some(EventOccurrence(name, Some(blocks), None)))
      case Some(a) =>
        var f :- EventFlagsFor(env.index, name, a);
        Ok(Some(EventOccurrence(name, Some(blocks), Some(f))))
  }

  /** Every event of a parsed program carries flags the schema accepts. */
  lemma EventFlagsValid(env: Env, n: XNode)
    requires ParseEvent(env, n).Ok? && ParseEvent(env, n).value.Some?
    ensures ParseEvent(env, n).value.value.flags.Some? ==> EventFlagsOk(ParseEvent(env, n).value.value.flags.value)
  {
    if AttrsOf(n).Some? {
      EventFlagsAccepted(env.index, FirstKey(n), AttrsOf(n).value);
    }
  }

  /** `Promise.all(events.map(processBlockEventUser))`, in order. */
  function ParseEvents(env: Env, ns: seq<XNode>): Result<seq<Option<EventOccurrence>>, Error>
  {
    if ns == [] then Ok([])
    else
      var e :- ParseEvent(env, ns[0]);
      var rest :- ParseEvents(env, ns[1..]);
      Ok([e] + rest)
  }

  /** `parseCodeUser(text)`, with the XML parser as an oracle that answers the tree or the message it throws. */
  function ParseCode(env: Env, xml: string -> Result<seq<XNode>, string>, text: string): (r: Result<seq<Option<EventOccurrence>>, Error>)
    ensures xml(text).Err? ==> r == Err(XmlParsingError(xml(text).error))
  {
    match xml(text)
    case Err(msg) => Err(XmlParsingError(msg))
    case Ok(nodes) => ParseEvents(env, nodes)
  }

  lemma {:induction false} ParseEventsInOrder(env: Env, ns: seq<XNode>)
    requires ParseEvents(env, ns).Ok?
    ensures |ParseEvents(env, ns).value| == |ns|
    ensures forall k :: 0 <= k < |ns| ==> ParseEvent(env, ns[k]) == Ok(ParseEvents(env, ns).value[k])
  {
    if ns != [] {
      ParseEventsInOrder(env, ns[1..]);
      assert forall k :: 1 <= k < |ns| ==> ns[k] == ns[1..][k - 1];
    }
  }

  /** A parsed program has one event object per top-level node, in document order. */
  lemma ProgramInOrder(env: Env, xml: string -> Result<seq<XNode>, string>, text: string)
    requires ParseCode(env, xml, text).Ok?
    ensures xml(text).Ok? && |ParseCode(env, xml, text).value| == |xml(text).value|
    ensures forall k :: 0 <= k < |xml(text).value| ==> ParseEvent(env, xml(text).value[k]) == Ok(ParseCode(env, xml, text).value[k])
  {
    ParseEventsInOrder(env, xml(text).value);
  }
}
