/**
 * The primitive kinds, their legal widths, and the type predicates of the
 * engine: `isValidType`, `isResultValueType`, `getValidatedOutput` and
 * `stripQuotes` (src/utils/utils.ts), over the catalogs of src/schemas/blocks.ts.
 */
module Types {
  import opened Wrappers
  import opened Js

  const InputTypes: seq<string> := ["uint", "int", "float", "bool", "string", "block"]
  const OutputTypes: seq<string> := ["uint", "int", "float", "bool", "string"]
  const FloatSizes: seq<JsValue> := [Num("32"), Num("64")]
  const IntSizes: seq<JsValue> := [Num("8"), Num("16"), Num("32"), Num("64"), Num("128")]

  /** A validated value type: a type name and, for the numeric kinds, the width's text. */
  datatype ValueType = ValueType(typeName: string, size: Option<string>)

  /** An event output's result: one value type, or a map from entry names to value types. */
  datatype OutputResult = Single(obj: JsValue) | Multi(entries: seq<(string, ValueType)>)

  /** The (type, width) pairs of ResultValueTypeSchema. */
  predicate LegalPair(typeName: string, size: Option<string>)
  {
    if typeName == "string" || typeName == "bool" then size.None?
    else if typeName == "float" then size.Some? && Num(size.value) in FloatSizes
    else if typeName == "int" || typeName == "uint" then size.Some? && Num(size.value) in IntSizes
    else false
  }

  predicate Legal(vt: ValueType)
  {
    LegalPair(vt.typeName, vt.size)
  }

  /** The legal pairs are exactly these fourteen. */
  lemma LegalPairsCatalog(t: string, s: Option<string>)
    ensures LegalPair(t, s) <==>
      (t in {"string", "bool"} && s == None) ||
      (t == "float" && s in {Some("32"), Some("64")}) ||
      (t in {"int", "uint"} && s in {Some("8"), Some("16"), Some("32"), Some("64"), Some("128")})
  {
  }

  /** The output types are the input types without "block". */
  lemma OutputTypesAreInputTypesWithoutBlock()
    ensures forall t :: t in OutputTypes <==> t in InputTypes && t != "block"
  {
  }

  /** The plain object a value type stands for: `{type}` or `{type, size}`. */
  function ToJs(vt: ValueType): JsValue
  {
    Obj([("type", Str(vt.typeName))] + if vt.size.Some? then [("size", Num(vt.size.value))] else [])
  }

  /** `isValidType`: list membership when `expected` is an array, equality otherwise. */
  predicate IsValidType(expected: JsValue, actual: string)
  {
    match expected
    case List(items) => actual in items
    case Str(s) => s == actual
    case _ => false
  }

  /** A one-element list accepts exactly what the single name accepts. */
  lemma IsValidTypeSingleton(t: string, actual: string)
    ensures IsValidType(List([t]), actual) == IsValidType(Str(t), actual)
  {
  }

  /** `isResultValueType`: an object whose `type`/`size` properties form a ResultValueType. */
  predicate IsResultValueType(v: JsValue)
  {
    v.Obj? &&
    var t := Get(v, "type");
    var size := Get(v, "size");
    t == Str("string") || t == Str("bool") ||
    (t == Str("float") && size in FloatSizes) ||
    ((t == Str("int") || t == Str("uint")) && size in IntSizes)
  }

  /** The two-property object `{type, size}`. */
  function Pair(t: JsValue, size: JsValue): JsValue
  {
    Obj([("type", t), ("size", size)])
  }

  /** `getValidatedOutput({type, size})`. */
  function GetValidatedOutput(t: JsValue, size: JsValue): Option<ValueType>
  {
    if t == Str("string") || t == Str("bool") then Some(ValueType(t.s, None))
    else if t == Str("float") && Truthy(size) && size in FloatSizes then Some(ValueType("float", Some(size.repr)))
    else if (t == Str("int") || t == Str("uint")) && Truthy(size) && size in IntSizes then Some(ValueType(t.s, Some(size.repr)))
    else None
  }

  /** `getValidatedOutput` answers exactly for the pairs `isResultValueType` accepts, and what it answers is legal. */
  lemma ValidatedIffResultValueType(t: JsValue, size: JsValue)
    ensures GetValidatedOutput(t, size).Some? <==> IsResultValueType(Pair(t, size))
    ensures GetValidatedOutput(t, size).Some? ==> Legal(GetValidatedOutput(t, size).value)
  {
    assert Get(Pair(t, size), "type") == t;
    assert Get(Pair(t, size), "size") == size;
    if t == Str("string") || t == Str("bool") {
      assert GetValidatedOutput(t, size) == Some(ValueType(t.s, None));
    } else if t == Str("float") {
      assert GetValidatedOutput(t, size).Some? <==> size in FloatSizes;
    } else if t == Str("int") || t == Str("uint") {
      assert GetValidatedOutput(t, size).Some? <==> size in IntSizes;
    } else {
      assert GetValidatedOutput(t, size).None?;
    }
  }

  /** What `getValidatedOutput` answers is a legal value type with the given type name. */
  lemma ValidatedIsLegal(t: JsValue, size: JsValue)
    ensures GetValidatedOutput(t, size).Some? ==> Legal(GetValidatedOutput(t, size).value) && t == Str(GetValidatedOutput(t, size).value.typeName)
  {
  }

  /** A legal value type, written out as an object and validated again, comes back unchanged; string/bool drop any size. */
  lemma {:induction false} ValidatedRoundTrip(vt: ValueType)
    requires Legal(vt)
    ensures IsResultValueType(ToJs(vt))
    ensures GetValidatedOutput(Get(ToJs(vt), "type"), Get(ToJs(vt), "size")) == Some(vt)
  {
    if vt.size.Some? {
      assert Get(ToJs(vt), "size") == Num(vt.size.value);
    } else {
      assert Get(ToJs(vt), "size") == Undefined;
    }
    assert Get(ToJs(vt), "type") == Str(vt.typeName);
  }

  /** `typeof v`. */
  function TypeOf(v: JsValue): string
  {
    match v
    case Undefined => "undefined"
    case Bool(_) => "boolean"
    case Num(_) => "number"
    case Str(_) => "string"
    case _ => "object"
  }

  predicate IsQuote(c: char)
  {
    c == '\'' || c == '"' || c == '`'
  }

  predicate Quoted(s: string)
  {
    |s| >= 1 && IsQuote(s[0]) && s[0] == s[|s| - 1]
  }

  /** `stripQuotes`: drops a matching pair of enclosing quotes; a lone quote becomes "". */
  function StripQuotes(v: JsValue): Result<string, string>
  {
    if !v.Str? then Err("Expected string, got " + TypeOf(v))
    else if Quoted(v.s) then Ok(if |v.s| >= 2 then v.s[1..|v.s| - 1] else "")
    else Ok(v.s)
  }

  /** Stripping changes the string exactly when it is quoted, and then removes one character at each end. */
  lemma StripQuotesSpec(s: string)
    ensures StripQuotes(Str(s)).Ok?
    ensures Quoted(s) && |s| >= 2 ==> StripQuotes(Str(s)).value == s[1..|s| - 1]
    ensures !Quoted(s) ==> StripQuotes(Str(s)).value == s
    ensures |StripQuotes(Str(s)).value| == if Quoted(s) then (if |s| >= 2 then |s| - 2 else 0) else |s|
  {
  }

  /** Only strings are accepted. */
  lemma StripQuotesRejectsNonStrings(v: JsValue)
    requires !v.Str?
    ensures StripQuotes(v).Err?
  {
  }

  /** The double quotes the resolver puts around a string literal are exactly what `stripQuotes` removes. */
  lemma StripQuotesUndoesQuoting(s: string)
    ensures StripQuotes(Str("\"" + s + "\"")) == Ok(s)
  {
    var q := "\"" + s + "\"";
    assert q[0] == '"' && q[|q| - 1] == '"';
    assert q[1..|q| - 1] == s;
  }
}
