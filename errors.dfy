/** The errors the catalog, the resolvers and the orchestrator throw, one constructor per throw site. */
module Errors {
  import opened Js

  datatype Error =
    // src/utils/fs.ts
    | ModulesFolderMissing
    | ModuleNotFound(block: string)
    | ModuleAmbiguous(block: string, modules: seq<string>)
    | DefinitionNotFound(moduleName: string, block: string)
    | DefinitionUnparsable(block: string, reason: string)
    | PathNotAString(received: JsValue)
    // src/services/conversion/blockInputs.ts
    | RequiredInputMissing(input: string, block: string)
    | ContentUndefined(input: string)
    | UnsupportedDefaultType(block: string, input: string)
    | DirectValueForBlockInput(block: string)
    | NotAValue(input: string, block: string)
    | NoReturnBlock(input: string)
    | NotAReturnDefinition(block: string)
    | ActionCodeFailed(block: string)
    | ReturnCodeFailed(block: string)
    | TypeScriptFailed(block: string)
    | UndeterminedType(block: string, received: JsValue)
    | MissingNumericSize(block: string)
    | SizeScriptFailed(block: string)
    | TypeNotAllowed(allowed: seq<string>, returned: string)
    // src/services/conversion/eventOutputs.ts
    | ResultTypeNotProvided(output: string, event: string)
    | MultipleNeedsResultType(output: string, event: string)
    | ScriptThrew(reason: string)
    | NamesNotAList(output: string, event: string)
    | InvalidOutputType(event: string, output: string, received: JsValue)
    | InvalidOutputSize(event: string, output: string, received: JsValue)
    | UndeterminedEntryType(entry: string, output: string, event: string)
    | NotAValidOutputType(spec: seq<(string, JsValue)>)
    | ResultTypesRequired
    | CannotDetermineSize
    | UndeterminedOutputType(event: string, output: string)
    // src/services/conversion/conversion.ts
    | SuffixNotAString(suffix: JsValue)
    | NotAnActionBlock(kind: string)
    | NonStringAppend
    | HelperNeedsString(helper: string)
    // src/utils/parsers/userCode.ts
    | XmlParsingError(message: string)
    | UnknownInput(input: string, block: string)
    | InputTypeUnreadable(input: string)
    | EmptyBlockTag
}
