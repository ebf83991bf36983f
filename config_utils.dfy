/**
 * The helpers of the configuration validator (src/services/configuration/utils.ts):
 * the section-based choice of a definition's kind, the width rule for
 * numeric types, and the one-line-per-issue rendering of schema errors.
 * Issues stand for what the schema library reports; which issues it reports
 * for a given value is not part of this model.
 */
module ConfigUtils {
  import opened Wrappers
  import opened Js
  import opened JsText
  import opened Types
  import opened Defs

  // ---------------------------------------------------------------------
  // resolveBlockKind
  // ---------------------------------------------------------------------

  const UndeterminedKind := "It is impossible to determine what type of block this is."

  /** `resolveBlockKind`: a `return` section makes a return block, else `code` an action, else `outputs` an event. */
  function ResolveBlockKind(keys: set<string>): (r: Result<Kind, string>)
    ensures r == Ok(ReturnKind) <==> "return" in keys
    ensures r == Ok(ActionKind) <==> "return" !in keys && "code" in keys
    ensures r == Ok(EventKind) <==> "return" !in keys && "code" !in keys && "outputs" in keys
    ensures r.Err? <==> "return" !in keys && "code" !in keys && "outputs" !in keys
    ensures r.Err? ==> r.error == UndeterminedKind
  {
    if "return" in keys then Ok(ReturnKind)
    else if "code" in keys then Ok(ActionKind)
    else if "outputs" in keys then Ok(EventKind)
    else Err(UndeterminedKind)
  }

  /** On the definitions the parser produces, the kind follows the constructor. */
  lemma ResolveParsedKind(d: BlockDef)
    ensures ResolveBlockKind(DefKeys(d)) == Ok(ActionKind) <==> d.Action?
    ensures ResolveBlockKind(DefKeys(d)) == Ok(ReturnKind) <==> d.Return?
    ensures ResolveBlockKind(DefKeys(d)) == Ok(EventKind) <==> d.Event?
  {
  }

  // ---------------------------------------------------------------------
  // validateNumericTypeSize
  // ---------------------------------------------------------------------

  const IntSizesText := "8, 16, 32, 64, 128"
  const FloatSizesText := "32, 64"

  function MissingSize(ctx: string, t: JsValue, sizes: string): string
  {
    ctx + ", Size parameter is missing, although type is set to: \"" + ToStr(t) + "\". " +
    "The size parameter must be set to one of these values: [" + sizes + "]"
  }

  function WrongSize(ctx: string, t: JsValue, size: JsValue, sizes: string): string
  {
    ctx + ", Incorrectly set size parameter: \"" + ToStr(size) + "\". " +
    "The size parameter must be set to one of these values: [" + sizes + "], Because the type parameter is set to: \"" + ToStr(t) + "\""
  }

  /** The width check of one numeric kind: a falsy size is missing, a size outside the list is wrong. */
  function SizeIn(ctx: string, t: JsValue, size: JsValue, legal: seq<JsValue>, sizes: string): (r: Result<(), string>)
    requires forall i :: 0 <= i < |legal| ==> Truthy(legal[i])
    ensures r.Ok? <==> size in legal
  {
    if !Truthy(size) then Err(MissingSize(ctx, t, sizes))
    else if size !in legal then Err(WrongSize(ctx, t, size, sizes))
    else Ok(())
  }

  /** `validateNumericTypeSize`: only int/uint and float are checked, each against its own width list. */
  function ValidateNumericTypeSize(t: JsValue, size: JsValue, ctx: string): (r: Result<(), string>)
    ensures r.Err? <==>
      ((t == Str("int") || t == Str("uint")) && size !in IntSizes) || (t == Str("float") && size !in FloatSizes)
    ensures r.Err? && !Truthy(size) ==> r.error == MissingSize(ctx, t, if t == Str("float") then FloatSizesText else IntSizesText)
  {
    if !Truthy(t) then Ok(())
    else if t == Str("uint") || t == Str("int") then SizeIn(ctx, t, size, IntSizes, IntSizesText)
    else if t == Str("float") then SizeIn(ctx, t, size, FloatSizes, FloatSizesText)
    else Ok(())
  }

  /** For a numeric type name the check passes exactly for the legal (type, width) pairs. */
  lemma NumericSizeIsLegalPair(t: string, size: JsValue, ctx: string)
    requires t in {"int", "uint", "float"}
    ensures ValidateNumericTypeSize(Str(t), size, ctx).Ok? <==> size.Num? && LegalPair(t, Some(size.repr))
  {
    if t == "float" {
      assert ValidateNumericTypeSize(Str(t), size, ctx).Ok? <==> size in FloatSizes;
    } else {
      assert ValidateNumericTypeSize(Str(t), size, ctx).Ok? <==> size in IntSizes;
    }
  }

  /** Undefined and every other type name pass without looking at the size. */
  lemma NonNumericTypesPass(t: JsValue, size: JsValue, ctx: string)
    requires t !in {Str("int"), Str("uint"), Str("float")}
    ensures ValidateNumericTypeSize(t, size, ctx) == Ok(())
  {
  }

  // ---------------------------------------------------------------------
  // formatZodError
  // ---------------------------------------------------------------------

  datatype IssueCode =
    | InvalidType(expected: string, received: string)
    | InvalidValue(options: Option<seq<string>>)
    | TooSmall(minimum: string)
    | UnrecognizedKeys(keys: seq<string>)
    | OtherCode

  /** One issue of a failed schema parse: its code, the path of the offending field, and the library's message. */
  datatype Issue = Issue(code: IssueCode, path: seq<string>, message: string)

  /** The line `formatZodError` writes for one issue. */
  function ZodLine(e: Issue): (r: string)
    ensures StartsWith(r, "Field \"" + Join(e.path, ".") + "\": ")
  {
    var head := "Field \"" + Join(e.path, ".") + "\": ";
    var tail :=
      match e.code
      case InvalidType(expected, received) => "expected " + expected + ", received " + received + "."
      case InvalidValue(options) =>
        if options.Some? then "Invalid value. Expected one of: " + Join(options.value, ", ") + "." else "Invalid value."
      case TooSmall(minimum) => "Too short/small. Minimum: " + minimum + "."
      case _ => e.message;
    assert (head + tail)[..|head|] == head;
    head + tail
  }

  /** The issues rendered one per line by `line`, joined with line breaks. */
  function Lines(issues: seq<Issue>, line: Issue -> string): string
  {
    Join(seq(|issues|, i requires 0 <= i < |issues| => line(issues[i])), "\n")
  }

  /** `formatZodError`. */
  function FormatZodError(issues: seq<Issue>): string
  {
    Lines(issues, ZodLine)
  }

  /** Rendered issues split back at the line breaks into one line per issue, in order. */
  lemma LinesSplit(issues: seq<Issue>, line: Issue -> string)
    requires |issues| >= 1
    requires forall i :: 0 <= i < |issues| ==> '\n' !in line(issues[i])
    ensures Split(Lines(issues, line), '\n') == seq(|issues|, i requires 0 <= i < |issues| => line(issues[i]))
  {
    SplitJoin(seq(|issues|, i requires 0 <= i < |issues| => line(issues[i])), '\n');
  }

  /** `formatZodError` writes one line per issue, each naming the issue's field path first. */
  lemma FormatZodErrorLines(issues: seq<Issue>)
    requires |issues| >= 1
    requires forall i :: 0 <= i < |issues| ==> '\n' !in ZodLine(issues[i])
    ensures |Split(FormatZodError(issues), '\n')| == |issues|
    ensures forall i :: 0 <= i < |issues| ==>
      StartsWith(Split(FormatZodError(issues), '\n')[i], "Field \"" + Join(issues[i].path, ".") + "\": ")
  {
    LinesSplit(issues, ZodLine);
  }

  /** No issues, no text. */
  lemma FormatNoIssues()
    ensures FormatZodError([]) == ""
  {
  }

  // ---------------------------------------------------------------------
  // Checks that stop at the first failure
  // ---------------------------------------------------------------------

  /** A `for` loop of checks: the first error thrown ends it. */
  function CheckAll<T>(items: seq<T>, check: T -> Result<(), string>): (r: Result<(), string>)
    ensures r.Ok? <==> forall i :: 0 <= i < |items| ==> check(items[i]).Ok?
  {
    if items == [] then Ok(())
    else if check(items[0]).Err? then check(items[0])
    else
      var rest := CheckAll(items[1..], check);
      assert forall i :: 1 <= i < |items| ==> items[i] == items[1..][i - 1];
      rest
  }

  /** The error of a failed loop is the error of its first failing item. */
  lemma {:induction false} CheckAllFirstError<T>(items: seq<T>, check: T -> Result<(), string>, k: nat)
    requires k < |items| && check(items[k]).Err?
    requires forall j :: 0 <= j < k ==> check(items[j]).Ok?
    ensures CheckAll(items, check) == check(items[k])
  {
    if k > 0 {
      assert forall j :: 0 <= j < k - 1 ==> items[1..][j] == items[j + 1];
      CheckAllFirstError(items[1..], check, k - 1);
    }
  }
}
