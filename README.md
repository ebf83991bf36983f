# SpireCore core, modelled in Dafny

SpireCore compiles a user program made of "blocks" into Rust source. Modules
provide the blocks. Each module ships block definitions (XML files that
declare a block's inputs, its outputs, its return section and the script
that generates its code) together with a module config. A user program is
an XML tree of event occurrences whose bodies are chains of blocks. This
project models the core of that compiler and proves what its code promises.
The modelled parts are:

- **Type catalogue and predicates.** The primitive kinds, their legal
  widths, `isValidType`, `isResultValueType`, `getValidatedOutput`,
  `stripQuotes` and the development logger (`Types`, `Logging`). Also the
  shapes the schemas give definitions and user programs (`Defs`, `User`).
- **Catalog lookup.** This covers the unpacked application tree as a
  recursive value, the virtual path walk, the block index, module
  resolution for a block name, the module listing and the two memo caches
  (`Catalog`).
- **Conversion engine.** `Engine` is the environment that stands for the
  catalog and the scripts module authors write. The input resolver with its
  mutual recursion is `BlockInputs`, the output type resolver is
  `EventOutputs`, and `Conversion` is the conversion loop with its
  per-module state `customData`, created lazily.
- **Front ends.** These classify the already-parsed XML trees of block
  definitions and user programs (`BlockDefParser`, `UserCode`).
- **Configuration rules.** These are the checks run after the schemas: the
  target settings, the block definitions, each module's config and its
  language config, the project config, and section access by module type
  (`Config`, `ConfigUtils`, `ValidateBlocks`, `ValidateModules`,
  `ValidateProject`, `ModuleValidation`).
- **Project creation.** This covers the target-scope section buffers
  (`Sections`) and the Rust side of the target crate (`SetupTarget`): the
  event functions, their parameter lists, the dependency lines and the exit
  strategy.

Scripts are oracles whose answers are parameters of the model. These are
the generator scripts of blocks, the type, size and suffix scripts, the
JavaScript parser behind the code checks, `JSON.parse` and the schema
library. The model passes each script exactly the values the source binds
for it and takes whatever it answers. The operating system name and the
target settings are parameters too.

Where the source changes state step by step, the model does so as well.
The conversion loop, the resolvers' loops over inputs and chains, the
definition parser's loops, the block-index build, the module-validation
loop, the grouping of generated entries and the parameter-list builder are
methods with loop invariants. Each of them is proved equal to a functional
specification, usually a fold. Lemmas state the source's promises about
that specification. The section record, the module-state map, the logger
and the two caches are classes updated in place.

The proofs also show some properties of the code as written:

- Once the schema has accepted a resultType entry, its width check cannot
  fail (`ValidateBlocks.ResultTypeEntryRules`).
- The width check of a static return section cannot fail either
  (`ValidateBlocks.StaticReturnPasses`).
- Past the schema, the "invalid data type" check on outputs is never
  reached (`ValidateBlocks.OutputRules`).
- With the default target, no module validates on macOS
  (`ValidateModules.DefaultTargetNeedsMappedSystem`).
- After a successful module loop, the check of the selected windowing and
  rendering modules never fails (`ValidateModules.GlobalCheckPasses`).
- A width produced by a size script is checked only against the integer
  widths, so a float width of 128 is rejected later by
  `getValidatedOutput` (`EventOutputs.FloatWidthCheckedLate`).
- On one and the same key set, `resolveBlockKind` and `getBlockType` give
  different kinds when `outputs` comes together with `return` or `code`
  (`ValidateBlocks.KindPrioritiesDiffer`). The validator never meets such a
  definition: it classifies what `parseBlockDef` returns, no parsed
  definition mixes those keys, and on every parsed definition the two agree
  (`ConfigUtils.ResolveParsedKind`).

Two other points follow the code. First, a missing float input defaults to
the text "0" in the input resolver, since `String(0.0)` is "0" (src/services/conversion/blockInputs.ts:360),
but to "0.0" when the user program parser supplies the value
(src/utils/parsers/userCode.ts:115). Each part of the model uses the value its
own source file gives. Second, a missing `required` attribute counts as
optional at conversion time, because the resolver tests truthiness and the
definition parser applies no schema default.

## Model

| member | source | states |
|---|---|---|
| Types.LegalPairsCatalog | src/schemas/blocks.ts:15-21 | The legal (type, width) pairs are exactly those ResultValueTypeSchema admits: string and bool without a width, float with 32 or 64, int and uint with 8, 16, 32, 64 or 128. |
| Types.OutputTypesAreInputTypesWithoutBlock | src/schemas/blocks.ts:4-5 | The output types are the input types without "block". |
| Types.IsValidType | src/utils/utils.ts:41-48 | `isValidType`: a list accepts a name it includes, a single name one equal to it. Specified by `Types.IsValidTypeSingleton`. |
| Types.IsResultValueType | src/utils/utils.ts:50-79 | `isResultValueType`: an object with a legal type name and, for numeric kinds, a legal width. Specified by `Types.ValidatedIffResultValueType`. |
| Types.IsValidTypeSingleton | src/utils/utils.ts:41-48 | A one-element list of expected types accepts exactly what the single type name accepts. |
| Types.GetValidatedOutput | src/utils/utils.ts:81-99 | `getValidatedOutput`. Specified by `Types.ValidatedIffResultValueType`, `Types.ValidatedIsLegal` and `Types.ValidatedRoundTrip`. |
| Types.ValidatedIffResultValueType | src/utils/utils.ts:50-99 | `getValidatedOutput` answers exactly for the `{type, size}` pairs `isResultValueType` accepts, and its answer is a legal value type. |
| Types.ValidatedIsLegal | src/utils/utils.ts:81-99 | What `getValidatedOutput` answers is legal and keeps the given type name. |
| Types.ValidatedRoundTrip | src/utils/utils.ts:81-99 | A legal value type written out as an object and validated again comes back unchanged. |
| Types.StripQuotes | src/utils/utils.ts:105-121 | `stripQuotes`. Specified by `Types.StripQuotesSpec`, `Types.StripQuotesRejectsNonStrings` and `Types.StripQuotesUndoesQuoting`. |
| Types.StripQuotesSpec | src/utils/utils.ts:105-121 | `stripQuotes` accepts every string, removes one character at each end exactly when the string starts and ends with the same quote, and otherwise returns it unchanged; a lone quote becomes "". |
| Types.StripQuotesRejectsNonStrings | src/utils/utils.ts:106-108 | Any value that is not a string is rejected. |
| Types.StripQuotesUndoesQuoting | src/utils/utils.ts:113-118 | Stripping a double-quoted string gives back the string inside. |
| Logging.WarningTextOne | src/utils/utils.ts:23 | A warning with one argument records that argument's `String()` text. |
| Logging.DevLogger.constructor | src/utils/utils.ts:14-15 | A new logger holds no warnings. |
| Logging.DevLogger.Warn | src/utils/utils.ts:21-24 | `warn` appends exactly one message, the space-joined text of its arguments, and keeps the earlier ones. |
| Logging.DevLogger.WarnText | src/utils/utils.ts:21-24 | `warn` with one string appends that string. |
| Logging.DevLogger.Warnings | src/utils/utils.ts:26-28 | The getter returns the recorded messages. |
| Logging.DevLogger.Clear | src/utils/utils.ts:30-32 | `clear` leaves no message. |
| Defs.OutputSchemaShape | src/schemas/blocks.ts:42-71 | An output spec the schema accepts is a legal static value type, with no width for bool and string, or has neither type nor size. |
| Defs.ScriptSectionRejects | src/schemas/blocks.ts:11-14 | A script type section with any key other than `type` and `size` is rejected. |
| Defs.SchemaInputDefaults | src/schemas/blocks.ts:30-40 | Parsing an input spec fills in required = true, canYouPutBlockIn = true and multiple = false. |
| Defs.SchemaInputKeepsBooleans | src/schemas/blocks.ts:30-40 | Booleans given for those three flags are kept. |
| User.LiteralTypeLegal | src/schemas/user.ts:6-13 | A literal accepted by NumberSchema, StringSchema or BoolSchema has a legal value type. |
| User.EventFlagsOkIffNoIssue | src/schemas/user.ts:22-36 | The event flags are valid exactly when the refinement reports no field, that is, when every field other than `module` starts with "_". |
| Engine.ThreadResults | src/services/conversion/conversion.ts:29-66 | The sequential loop keeps what it collected and adds exactly one result per remaining item, each produced by that item's own step. |
| Engine.ThreadFromStart | src/services/conversion/conversion.ts:29-66 | A whole successful loop gives exactly one result per item, and result `j` is one that item `j` itself produces. |
| Engine.ThreadKeepsStates | src/services/conversion/conversion.ts:91 | When every step keeps the existing module states, the whole loop keeps them: a module's state is never dropped. |
| Engine.EnsureState | src/services/conversion/conversion.ts:91 | `customData[m] ??= {}` adds an empty object for a module without state and changes nothing otherwise. |
| Engine.EnsureStateIdempotent | src/services/conversion/conversion.ts:91 | Creating a state twice is creating it once, and an existing state is never reset. |
| Engine.ModuleStates.constructor | src/services/conversion/conversion.ts:13 | The run-wide `customData` starts empty. |
| Engine.ModuleStates.Ensure | src/services/conversion/conversion.ts:91 | The method leaves the states `EnsureState` describes. |
| Engine.ModuleStates.Set | src/services/conversion/conversion.ts:93-101 | A script's state changes replace that module's state and no other. |
| Engine.EnvFor | src/utils/fs.ts:163-176 | The run's block index is the one built from the unpacked tree, and fetching a block definition is `getBlockDef` on that tree. |
| Conversion.IsThereBlockInTheInput | src/services/conversion/conversion.ts:151-154 | A non-string input throws; a missing input answers false; otherwise the answer is whether the input's raw content holds a list of blocks. |
| Conversion.AnyHasKey | src/services/conversion/conversion.ts:139-146 | The search answers true exactly when some element of the list has the wanted own key. |
| Conversion.SpecificImpliesBlock | src/services/conversion/conversion.ts:129-154 | Finding a specific block in an input implies the input holds a list; for string arguments the specific test is true exactly when the input's list has an element with that own key. |
| Conversion.EntryKeyShape | src/services/conversion/conversion.ts:45-63 | Without a suffix the entry key is `module__event`; with a literal suffix (no space) it is `module__event__suffix`. |
| Conversion.ScriptedSuffix | src/services/conversion/conversion.ts:48-55 | A suffix containing a space is run as a script that sees only the event module's state and the flags, and its answer decides the suffix. |
| Conversion.OccurrenceEntry | src/services/conversion/conversion.ts:29-68 | A successful event occurrence gives an entry keyed by its module and suffix, holding the event's outputs and flags; without a body its code is empty and the states are unchanged. |
| Conversion.GivenFlags | src/services/conversion/conversion.ts:65 | Every entry an occurrence gives carries that occurrence's flags. |
| Conversion.Convert | src/services/conversion/conversion.ts:15-107 | `conversion`. Specified by `Conversion.OneEntryPerOccurrence`, `Conversion.ConvertKeepsStates` and `Conversion.RunConversion`. |
| Conversion.OneEntryPerOccurrence | src/services/conversion/conversion.ts:29-66 | A successful conversion pushes exactly one entry per event occurrence, in program order, each with its occurrence's flags. |
| Conversion.NonActionAborts | src/services/conversion/conversion.ts:79-80 | A top-level block whose definition is not an action aborts with the block type named, before its inputs are resolved. |
| Conversion.TopBlockByGenerator | src/services/conversion/conversion.ts:83-101 | A resolved top-level action block runs its generator on its module's state (or `{}` on first touch); a throw or a non-string append aborts, otherwise the block adds its trimmed appends and its module's state becomes what the script left. |
| Conversion.TopBlockIsCode | src/services/conversion/conversion.ts:79-101 | Once the module, an action definition and the inputs are resolved, the block's outcome is that of running its code. |
| Conversion.TopBlockCodeByGenerator | src/services/conversion/conversion.ts:91-101 | Running the code of a resolved action block: a throw aborts with the script's message, a non-string append aborts, otherwise the trimmed appends are the code and the module state is updated. |
| Conversion.Trimmed | src/services/conversion/conversion.ts:126 | Each appended piece is recorded with its surrounding whitespace removed, one per append, in order. |
| Conversion.TopLevelPiecesTrimmed | src/services/conversion/conversion.ts:123-127 | No piece a top-level block contributes has whitespace at either end. |
| Conversion.TopBlockKeepsStates | src/services/conversion/conversion.ts:91 | A top-level block never removes a module's state, and afterwards its own module has a state. |
| Conversion.BodyKeepsStates | src/services/conversion/conversion.ts:70-102 | The loop over an event's blocks never removes a module's state. |
| Conversion.OccurrenceKeepsStates | src/services/conversion/conversion.ts:29-102 | One event occurrence never removes a module's state. |
| Conversion.ConvertKeepsStates | src/services/conversion/conversion.ts:91 | A whole conversion only adds keys to `customData`, the module-level record declared at line 13. |
| Conversion.RunConversion | src/services/conversion/conversion.ts:28-106 | The loop over the occurrences returns what the specification `Convert` gives and leaves `customData` as it says. |
| Conversion.RunOccurrence | src/services/conversion/conversion.ts:29-102 | One iteration pushes the occurrence's entry with its code, or fails as the specification does. |
| Conversion.RunEventHead | src/services/conversion/conversion.ts:30-65 | The entry built before the body runs is the specification's `EventHead`. |
| Conversion.RunEventBody | src/services/conversion/conversion.ts:70-102 | The loop over an event's blocks computes the specification's result and module states. |
| Conversion.RunTopBlock | src/services/conversion/conversion.ts:71-101 | One top-level block, imperatively, agrees with the specification `TopBlock` on result and states. |
| Conversion.AppendTrimmed | src/services/conversion/conversion.ts:123-127 | The appends succeed exactly when all are strings, and then the code gained is the concatenation of their trimmed texts. |
| Catalog.Find | src/utils/fs.ts:106-108 | A folder has no child of a name exactly when no entry carries it; a found child is an entry of that name. |
| Catalog.ReplaceBackslashes | src/utils/fs.ts:57 | Every backslash becomes a slash and every other character is kept, position by position. |
| Catalog.NormalizeVirtualPath | src/utils/fs.ts:54-60 | `normalizeVirtualPath`. Specified by `Catalog.SegmentsClean` and `Catalog.SegmentsOfJoin`. |
| Catalog.SegmentsClean | src/utils/fs.ts:54-60 | The segments of a normalised virtual path are never empty and contain no slash or backslash. |
| Catalog.SegmentsOfJoin | src/utils/fs.ts:54-60 | Normalising `a/b` gives the segments of `a` followed by those of `b`. |
| Catalog.WalkSplit | src/utils/fs.ts:104-109 | Walking a path `a + b` is walking `a` and then walking `b` from where it led. |
| Catalog.FileAtShape | src/utils/fs.ts:100-112 | Text comes back only when every segment before the last names a folder and the last names a file. |
| Catalog.GetFileContent | src/utils/fs.ts:100-112 | The segment-by-segment walk returns exactly the file text at the normalised path, or null. |
| Catalog.DirEntriesAppend | src/utils/fs.ts:124-143 | Walking one more directory entry appends the pairs that entry gives. |
| Catalog.PushAllAppend | src/utils/fs.ts:136-137 | Pushing two runs of pairs is pushing the first run and then the second. |
| Catalog.PushLookup | src/utils/fs.ts:136-137 | One push appends the block to its module's list and leaves the other lists alone. |
| Catalog.PushKeys | src/utils/fs.ts:136 | After a push the modules are the earlier ones plus the pushed one. |
| Catalog.PushAllLists | src/utils/fs.ts:136-137 | Pushing pairs appends to each module's list exactly the blocks filed under it, in order. |
| Catalog.PushAllKeys | src/utils/fs.ts:136 | A module is a key after pushing exactly when it already was or some pair is filed under it. |
| Catalog.PushAllUnique | src/utils/fs.ts:136 | Pushing keeps at most one list per module. |
| Catalog.BlockIndex | src/utils/fs.ts:121-153 | `buildBlockIndex` on the unpacked tree. Specified by `Catalog.BlockIndexContents`, `Catalog.IndexExact` and `Catalog.BlockIndexNeedsModulesFolder`. |
| Catalog.BlockIndexContents | src/utils/fs.ts:121-153 | The index has one key per module with at least one block and lists under it exactly the blocks the walk filed there. |
| Catalog.BlockIndexNeedsModulesFolder | src/utils/fs.ts:146-149 | Building the index fails when `modules` is missing or is a file. |
| Catalog.NodeEntriesSound | src/utils/fs.ts:129-142 | Every pair a directory entry contributes comes from an .xml file at a real path below it. |
| Catalog.DirEntriesSound | src/utils/fs.ts:124-143 | Every pair the walk contributes comes from an .xml file at a real path. |
| Catalog.DirEntriesMember | src/utils/fs.ts:125 | A pair of any one entry is among the folder's pairs. |
| Catalog.DirEntriesComplete | src/utils/fs.ts:124-143 | Every .xml file at a real path contributes its pair. |
| Catalog.IndexExact | src/utils/fs.ts:129-139 | The walk files a pair exactly for the .xml files at depth two or more below `modules`, under the first folder of their path, with the extension dropped. |
| Catalog.BlocksUnderMember | src/utils/fs.ts:136-137 | A block is listed under a module exactly when that pair was filed. |
| Catalog.BlockIndexBuilder.constructor | src/utils/fs.ts:122 | The shared map starts empty. |
| Catalog.BlockIndexBuilder.Walk | src/utils/fs.ts:124-144 | The recursive walk leaves the shared map as pushing every pair of the folder, in order. |
| Catalog.BuildBlockIndex | src/utils/fs.ts:121-153 | The imperative build returns what the specification `BlockIndex` gives, including the missing-modules error. |
| Catalog.ModulesContaining | src/utils/fs.ts:185 | Every module the filter keeps is a key of the index. |
| Catalog.ModulesContainingMember | src/utils/fs.ts:185 | A module is kept exactly when its block list contains the block. |
| Catalog.BlockFromModule | src/utils/fs.ts:164-199 | `blockFromModule`, together with the string check of `getBlockDef`'s `path.posix.join` (line 168) that every caller applies to its answer next. Specified by `Catalog.BlockFromModuleFlag`, `Catalog.BlockFromModuleNonString`, `Catalog.BlockFromModuleUnique` and `Catalog.BlockFromModuleFails`. |
| Catalog.BlockFromModuleNonString | src/utils/fs.ts:164-182 | A truthy module flag that is not a string (a number, or `true`) fails with the path TypeError, whatever the index. |
| Catalog.BlockFromModuleFlag | src/utils/fs.ts:182 | An explicit module flag is returned whatever the index is. |
| Catalog.BlockFromModuleUnique | src/utils/fs.ts:184-198 | Without a flag, resolution answers `m` exactly when `m` lists the block and no other module does. |
| Catalog.OnlyMatchResolves | src/utils/fs.ts:185-198 | A single match is a module that lists the block, and the only one. |
| Catalog.UniqueListerResolves | src/utils/fs.ts:185-198 | A module that alone lists the block is the single match. |
| Catalog.BlockFromModuleFails | src/utils/fs.ts:187-196 | Without a flag, resolution fails exactly when the block is in no module or in several; in none, with "not found". |
| Catalog.ListAllModules | src/utils/fs.ts:201-212 | `listAllModules`. Specified by `Catalog.FolderNamesExact`. |
| Catalog.FolderNamesExact | src/utils/fs.ts:201-212 | `listAllModules` lists a name exactly when `modules` has a folder child of that name. |
| Catalog.GetBlockDef | src/utils/fs.ts:163-176 | `getBlockDef`. Specified by `Catalog.GetBlockDefPath`. |
| Catalog.GetBlockDefPath | src/utils/fs.ts:167-169 | The definition is read at `modules`, then the module's segments, then the block's file name. |
| Catalog.FsCache.constructor | src/utils/fs.ts:52-119 | Both caches start empty. |
| Catalog.FsCache.UnpackedFolder | src/utils/fs.ts:78-93 | The tree is read once and then served from the cache; a failed read is cached as an empty folder. |
| Catalog.FsCache.BlocksList | src/utils/fs.ts:155-161 | The index is served from the cache when present; otherwise it is built from the cached or read tree, the tree is cached as `unpackedFolder` caches it, and the index is cached only when building succeeds. |
| BlockInputs.FindEntry | src/services/conversion/blockInputs.ts:59-66 | A user entry is missing exactly when no content entry carries the key; a found one is an entry of that key, and a nested block list is smaller than its content. |
| BlockInputs.ResolveDirectValue | src/services/conversion/blockInputs.ts:296-324 | A literal fails exactly when the input takes blocks; otherwise its type is kept, a string comes back quoted (so stripping the quotes gives it back), other values unchanged and numbers keep their width. |
| BlockInputs.AssignDefault | src/services/conversion/blockInputs.ts:327-372 | A truthy `required` fails with "Required input missing"; otherwise a default exists exactly when the first accepted type is a value type, and it has that type. |
| BlockInputs.DefaultsWithoutDefault | src/services/conversion/blockInputs.ts:339-364 | Without a `default`, the defaults are "", "false", "0" at width 32 for int and uint, "0" at width 64 for float, and a block input fails. |
| BlockInputs.DetermineReturnedType | src/services/conversion/blockInputs.ts:234-293 | A determined return type is always one of the five value types. |
| BlockInputs.TypedValue | src/services/conversion/blockInputs.ts:214-229 | The final value of a return block keeps the text and the determined type, and carries a width exactly for the numeric types. |
| BlockInputs.Collect | src/services/conversion/blockInputs.ts:26-32 | A `multiple` input collects only value entries whose `#flags.for` names it, and never more content than there is. |
| BlockInputs.CollectExact | src/services/conversion/blockInputs.ts:26-32 | An entry is collected exactly when it is a value tagged `for` the input. |
| BlockInputs.Texts | src/services/conversion/blockInputs.ts:128-133 | The texts of string appends, one per append, in order. |
| BlockInputs.CoercedAll | src/services/conversion/blockInputs.ts:202 | Every value a return block appends is kept, coerced to a string, in order. |
| BlockInputs.InputsGoKeys | src/services/conversion/blockInputs.ts:21-82 | The input loop keeps the keys it had and adds each declared input once, in declaration order. |
| BlockInputs.ResolveInputs | src/services/conversion/blockInputs.ts:7-85 | `blockInputs`. Specified by `BlockInputs.ResolvedInputKeys`, `BlockInputs.RequiredMissingFailsBlock`, `BlockInputs.InputsKeepStates` and `BlockInputs.RunBlockInputs`. |
| BlockInputs.ResolvedInputKeys | src/services/conversion/blockInputs.ts:7-85 | The resolved inputs have one key per declared input, in declaration order; user entries nobody declared are ignored. |
| BlockInputs.RequiredInputFails | src/services/conversion/blockInputs.ts:327-333 | A single input the user left out (line 59) whose `required` is truthy fails with "Required input missing". |
| BlockInputs.InputsGoFails | src/services/conversion/blockInputs.ts:21-82 | The loop fails when any later declared input is required but missing. |
| BlockInputs.RequiredMissingFailsBlock | src/services/conversion/blockInputs.ts:7-85 | A block with a required input the user left out does not resolve. |
| BlockInputs.AbsentRequiredIsOptional | src/services/conversion/blockInputs.ts:333-364 | An absent `required` counts as optional: a missing string input gets the quoted empty string, a float "0" at width 64, a uint "0" at width 32. |
| BlockInputs.MissingInputTakesDefault | src/services/conversion/blockInputs.ts:59-79 | A missing single input takes the default for its first type, or fails as the default does, and touches no module state. |
| BlockInputs.MultipleGoKeys | src/services/conversion/blockInputs.ts:36-49 | The second `multiple` loop keys the results by exactly the collected user names. |
| BlockInputs.EntryKeys | src/services/conversion/blockInputs.ts:27 | The user names of the content entries, in order. |
| BlockInputs.MultipleInputKeys | src/services/conversion/blockInputs.ts:25-52 | A `multiple` input yields a map keyed by exactly the entries tagged for it, in content order; none tagged gives an empty map. |
| BlockInputs.ChainGoExtends | src/services/conversion/blockInputs.ts:113-160 | The chain's text only grows: each block's text is appended after what came before. |
| BlockInputs.ChainIsConcatenation | src/services/conversion/blockInputs.ts:108-166 | An action chain yields a block value whose text starts with the first block's text, untrimmed. |
| BlockInputs.NestedName | src/services/conversion/blockInputs.ts:116 | A nested block's name is found by skipping the keys `type` and `#flags`, so a block written `<type>` is resolved under the name undefined. Specified by `BlockInputs.UnnamedNestedBlock`. |
| BlockInputs.NestedModule | src/services/conversion/blockInputs.ts:116-118 | `blockFromModule` on the nested name. An undefined name is in no module's list, so without a flag it is not found, even when a module has a file `undefined.xml`. Specified by `BlockInputs.UnnamedNestedBlock`. |
| BlockInputs.NestedContent | src/services/conversion/blockInputs.ts:122 | `block[name]`: the content, or none for an unnamed block; it is smaller than the block. |
| BlockInputs.FirstSingle | src/services/conversion/blockInputs.ts:21-58 | The first declared input that is not `multiple`; none exactly when every input is `multiple`. |
| BlockInputs.ContentReadable | src/services/conversion/blockInputs.ts:21-58 | `blockInputs` on undefined content fails exactly for an unnamed block whose definition has a single input: reading that input throws, while `multiple` loops run zero times. |
| BlockInputs.UnnamedNestedBlock | src/services/conversion/blockInputs.ts:116-120 | A nested `<type>` block, as an action or a return block: without a module flag it fails with "not found" for the name undefined; with a string flag it fetches `undefined.xml` from that module, and fails reading its content when the definition has a single input. |
| BlockInputs.ChainStepByGenerator | src/services/conversion/blockInputs.ts:115-159 | Once a chain block is resolved its generator decides: a throw or a non-string append fails with the block's name; otherwise the block adds its appended strings, untrimmed, and its module's state (created if need be) becomes what the script left. |
| BlockInputs.ResolveBlockValue | src/services/conversion/blockInputs.ts:89-105 | `resolveBlockValue`. Specified by `BlockInputs.ReturnUsesFirstBlockOnly`, `BlockInputs.BlockValueKeepsStates` and `BlockInputs.RunBlockValue`. |
| BlockInputs.ReturnUsesFirstBlockOnly | src/services/conversion/blockInputs.ts:96-104 | For a non-block input only the first block of the list is resolved; an empty list fails. |
| BlockInputs.ResolveReturnBlock | src/services/conversion/blockInputs.ts:168-231 | `resolveReturnBlock`, naming the block by the key filter of line 175 (`BlockInputs.NestedName`). Specified by `BlockInputs.UnnamedNestedBlock`, `BlockInputs.ReturnTypeAccepted`, `BlockInputs.ReturnKeepsStates` and `BlockInputs.RunReturnBlock`. |
| BlockInputs.ReturnTypeAccepted | src/services/conversion/blockInputs.ts:168-230 | A return block that resolves produces a type the consuming input accepts, one of the five value types, with a width exactly for the numeric ones. |
| BlockInputs.ReturnValueAccepted | src/services/conversion/blockInputs.ts:185-229 | The same for the part after the inputs: type, compatibility check and code. |
| BlockInputs.LiteralReturnTypeAsIs | src/services/conversion/blockInputs.ts:244-247 | A literal return type is used as it stands, width and all, without validation. |
| BlockInputs.ScriptReturnTypeChecks | src/services/conversion/blockInputs.ts:249-273 | A throwing type script fails, an answer other than the five names fails, a numeric answer without `size` fails, and string or bool need no width. |
| BlockInputs.SizeScriptUnchecked | src/services/conversion/blockInputs.ts:275-292 | A width from a `size` script is taken as it is, even one outside the width catalog. |
| BlockInputs.InputsKeepStates | src/services/conversion/blockInputs.ts:21-82 | Resolving inputs never removes a module's state. |
| BlockInputs.InputKeepsStates | src/services/conversion/blockInputs.ts:24-79 | Resolving one input never removes a module's state. |
| BlockInputs.MultipleKeepsStates | src/services/conversion/blockInputs.ts:36-49 | The `multiple` loop never removes a module's state. |
| BlockInputs.BlockValueKeepsStates | src/services/conversion/blockInputs.ts:89-105 | Resolving a nested block list never removes a module's state. |
| BlockInputs.ChainKeepsStates | src/services/conversion/blockInputs.ts:115-160 | An action chain never removes a module's state. |
| BlockInputs.StepKeepsStates | src/services/conversion/blockInputs.ts:142 | An action block never removes a module's state, and its own module has one afterwards. |
| BlockInputs.ReturnKeepsStates | src/services/conversion/blockInputs.ts:168-230 | A return block never removes a module's state. |
| BlockInputs.RunBlockInputs | src/services/conversion/blockInputs.ts:7-85 | The imperative `blockInputs` returns what the specification `ResolveInputs` gives and leaves `customData` as it says. |
| BlockInputs.RunInput | src/services/conversion/blockInputs.ts:22-79 | One declared input, imperatively, agrees with the specification on result and states. |
| BlockInputs.CollectTagged | src/services/conversion/blockInputs.ts:26-32 | The first `multiple` loop returns exactly the specification's collected entries. |
| BlockInputs.RunMultipleInput | src/services/conversion/blockInputs.ts:25-52 | A `multiple` input, imperatively, agrees with the specification. |
| BlockInputs.RunValue | src/services/conversion/blockInputs.ts:40-48 | One collected entry, imperatively, agrees with the specification. |
| BlockInputs.RunSingleInput | src/services/conversion/blockInputs.ts:56-79 | A single input, imperatively, agrees with the specification. |
| BlockInputs.RunBlockValue | src/services/conversion/blockInputs.ts:89-105 | `resolveBlockValue`, imperatively, agrees with the specification. |
| BlockInputs.AppendTexts | src/services/conversion/blockInputs.ts:127-133 | The appends succeed exactly when all are strings, and the text gained is their concatenation. |
| BlockInputs.RunActionBlocks | src/services/conversion/blockInputs.ts:108-166 | `resolveActionBlocks`, imperatively, agrees with the specification chain. |
| BlockInputs.RunChainStep | src/services/conversion/blockInputs.ts:116-159 | One chain block, imperatively, agrees with the specification `ChainStep`, including the name filter of line 116 and the undefined content of an unnamed block (`BlockInputs.UnnamedNestedBlock`). |
| BlockInputs.AppendCoerced | src/services/conversion/blockInputs.ts:201-202 | The text gained is the concatenation of the appended values coerced to strings. |
| BlockInputs.RunReturnBlock | src/services/conversion/blockInputs.ts:168-230 | `resolveReturnBlock`, imperatively, agrees with the specification `ResolveReturnBlock`, including the name filter of line 175 and the undefined content of an unnamed block. |
| BlockInputs.RunReturnCode | src/services/conversion/blockInputs.ts:185-229 | The type, its check and the code, imperatively, agree with the specification. |
| EventOutputs.ValidateOutputType | src/services/conversion/eventOutputs.ts:258-262 | A type passes exactly when it is one of the five output type names, and is then returned; otherwise the error names it. |
| EventOutputs.ValidateOutputSize | src/services/conversion/eventOutputs.ts:264-268 | A size passes exactly when it is an integer width (8, 16, 32, 64, 128), whatever the type, and is returned unchanged. |
| EventOutputs.RunEventOutputs | src/services/conversion/eventOutputs.ts:10-33 | The loop over the declared outputs returns what the specification `EventOutputs` gives. |
| EventOutputs.RunKnownEntries | src/services/conversion/eventOutputs.ts:107-122 | The loop of `multipleKnownType` returns what the specification fold gives. |
| EventOutputs.RunUnknownEntries | src/services/conversion/eventOutputs.ts:168-191 | The loop of `multipleUnknownType` returns what the specification fold gives. |
| EventOutputs.EventOutputs | src/services/conversion/eventOutputs.ts:10-33 | `eventOutputs`. Specified by `EventOutputs.OnePerOutput`, `EventOutputs.EventOutputsAreOutputResults` and `EventOutputs.RunEventOutputs`. |
| EventOutputs.OnePerOutput | src/services/conversion/eventOutputs.ts:20-30 | The result has one entry per declared output, in declaration order. |
| EventOutputs.KnownGoEntries | src/services/conversion/eventOutputs.ts:107-122 | Every listed name gets the validated static pair; an unvalidated pair fails at the first name. |
| EventOutputs.UnknownEntryLegal | src/services/conversion/eventOutputs.ts:173-187 | One scripted entry yields a legal value type whose name is the script's answer. |
| EventOutputs.MultipleKnownLegal | src/services/conversion/eventOutputs.ts:66-125 | A static multiple output answers a map of legal value types. |
| EventOutputs.MultipleUnknownLegal | src/services/conversion/eventOutputs.ts:135-194 | A scripted multiple output answers a map of legal value types. |
| EventOutputs.UnknownEntriesLegal | src/services/conversion/eventOutputs.ts:168-191 | Every entry the scripted loop records is a legal value type. |
| EventOutputs.SingleUnknownLegal | src/services/conversion/eventOutputs.ts:196-237 | A single scripted output answers the object of a legal value type named by the script. |
| EventOutputs.ReturnTypeForOutput | src/services/conversion/eventOutputs.ts:35-62 | `returnTypeForOutput`. Specified by `EventOutputs.ReturnTypeIsOutputResult`, `EventOutputs.NoTypeNeedsResultType` and the four scenario lemmas after it. |
| EventOutputs.ReturnTypeIsOutputResult | src/services/conversion/eventOutputs.ts:35-62 | Every output the resolver answers is one ResultValueType or a map of legal value types. |
| EventOutputs.EventOutputsAreOutputResults | src/services/conversion/eventOutputs.ts:10-33 | Every output of a resolved event satisfies the output result shape. |
| EventOutputs.NoTypeNeedsResultType | src/services/conversion/eventOutputs.ts:53-55 | Without a static type, an output with no `resultType` entry fails with "ResultType not provided". |
| EventOutputs.StaticSingleUnchanged | src/services/conversion/eventOutputs.ts:127-133 | A static single output is returned as its own object exactly when that object is a ResultValueType, and fails otherwise. |
| EventOutputs.StaticMultipleEntries | src/services/conversion/eventOutputs.ts:100-124 | A static multiple output maps every listed name to the validated static pair; no names gives an empty map; an unvalidated pair fails at the first name. |
| EventOutputs.StaticMultipleNeedsNames | src/services/conversion/eventOutputs.ts:77-98 | A static multiple output without a `resultType` entry, or whose script does not answer a list, fails. |
| EventOutputs.ScriptedSingle | src/services/conversion/eventOutputs.ts:196-237 | A scripted single output needs one of the five names from its script; a static size wins over the size script, whose answer must be an integer width; the pair must then validate. |
| EventOutputs.FloatWidthCheckedLate | src/services/conversion/eventOutputs.ts:215-233 | A size script answering 128 for a float passes the width check and is refused only by the final validation. |
| EventOutputs.ScriptedEntryWidth | src/services/conversion/eventOutputs.ts:173-187 | A scripted entry takes the static width when it validates, else the size map's width for its key, which must be an integer width and validate; otherwise "Difficulty determining size". |
| EventOutputs.ScriptedMultipleEntries | src/services/conversion/eventOutputs.ts:147-193 | A scripted multiple output has one entry per key of the type map; a falsy map fails. |
| EventOutputs.OnlyOwnStateMatters | src/services/conversion/eventOutputs.ts:241-256 | The scripts see the module states only through the event module's own state. |
| EventOutputs.SameRunsSameAnswer | src/services/conversion/eventOutputs.ts:35-62 | Two contexts whose scripts answer alike give the same output. |
| BlockDefParser.GetBlockType | src/utils/parsers/blockDef.ts:182-192 | An `outputs` key makes an event; otherwise a `return` key makes a return block; otherwise it is an action block; exactly one holds. |
| BlockDefParser.GetBlockTypeOfParsed | src/utils/parsers/blockDef.ts:182-192 | The kind `getBlockType` gives a parsed definition is the kind it was built as. |
| BlockDefParser.FirstText | src/utils/parsers/blockDef.ts:178 | Reading `[0]["#text"]` (here and at line 47) gives the first chunk's text when there is one, and throws exactly when the list is empty. |
| BlockDefParser.NormalizeCData | src/utils/parsers/blockDef.ts:175-179 | An absent or falsy section gives undefined; a defined answer is the first chunk's text; an empty list throws. |
| BlockDefParser.CDataText | src/utils/parsers/blockDef.ts:175-179 | A CDATA section yields its text. |
| BlockDefParser.SectionNames | src/utils/parsers/blockDef.ts:17-23 | The section names are the first keys of the `<block>` children, one each, in order. |
| BlockDefParser.LastSection | src/utils/parsers/blockDef.ts:24-32 | A section name with no occurrence has no content; otherwise the content is that of its last occurrence. |
| BlockDefParser.SectionMapLookup | src/utils/parsers/blockDef.ts:24-32 | The content map gives each section name the content of its last occurrence. |
| BlockDefParser.SectionsAreElements | src/utils/parsers/blockDef.ts:24-32 | Every named section holds an element's children. |
| BlockDefParser.SectionTables | src/utils/parsers/blockDef.ts:17-32 | The two loops build exactly the specification's name list and content map. |
| BlockDefParser.ReturnShapes | src/utils/parsers/blockDef.ts:91-105 | A missing or empty return type fails; a numeric type needs a size and keeps it; string and bool drop any size; any other type text is a script section with whatever size was read. |
| BlockDefParser.NoTypeTagFails | src/utils/parsers/blockDef.ts:79-89 | Without a `type` tag the type stays "". |
| BlockDefParser.NoSizeTagKeepsSize | src/utils/parsers/blockDef.ts:80-89 | Without a `size` tag the size stays undefined. |
| BlockDefParser.ReturnWithoutTypeFails | src/utils/parsers/blockDef.ts:79-93 | A return section with no `type` tag always fails. |
| BlockDefParser.NumericWithoutSizeFails | src/utils/parsers/blockDef.ts:95-97 | A numeric return section with no `size` tag fails with the missing-size error. |
| BlockDefParser.ReadReturnSection | src/utils/parsers/blockDef.ts:77-107 | The loop over the return section and the checks after it give the specification's section. |
| BlockDefParser.PropsDefaults | src/utils/parsers/blockDef.ts:43-51 | An entry with no `type` or `size` property keeps both texts empty. |
| BlockDefParser.ResultTypeKeys | src/utils/parsers/blockDef.ts:36-54 | The resultType entries are keyed by the entry tags, each once, in first-occurrence order. |
| BlockDefParser.HandleEntry | src/utils/parsers/blockDef.ts:62 | A handle value is a truthy text or null. |
| BlockDefParser.HandleValues | src/utils/parsers/blockDef.ts:56-66 | Every handle value is either a truthy text or null. |
| BlockDefParser.ReadResultTypeEntry | src/utils/parsers/blockDef.ts:45-50 | The loop over one entry's properties gives the specification's entry. |
| BlockDefParser.ReadResultTypes | src/utils/parsers/blockDef.ts:36-54 | The loop over the resultType section gives the specification's map. |
| BlockDefParser.ReadHandle | src/utils/parsers/blockDef.ts:56-66 | The loop over the handle section gives the specification's map. |
| BlockDefParser.AttrPut | src/utils/parsers/blockDef.ts:136-144 | Assigning an attribute changes that attribute and no other. |
| BlockDefParser.TypeListNormalised | src/utils/parsers/blockDef.ts:133-140 | A JSON array replaces `type`; a value that is not JSON becomes the one-element list of its `String()` text (a missing `type` becomes `[undefined]`); other JSON leaves it; no other attribute changes. |
| BlockDefParser.InputWithoutType | src/utils/parsers/blockDef.ts:133-140 | An input with attributes but no `type` parses, with the type list `[undefined]`. |
| BlockDefParser.ValueListNormalised | src/utils/parsers/blockDef.ts:141-149 | A falsy `valueList` is left alone; a parsable one is replaced by its value; an unparsable one becomes undefined with exactly one warning; nothing else changes. |
| BlockDefParser.InputFailsIffNoAttributes | src/utils/parsers/blockDef.ts:128-152 | One input fails exactly when it has no attributes, with the TypeError of reading `type`, and logs at most one warning. |
| BlockDefParser.OutputFailsIffNoAttributes | src/utils/parsers/blockDef.ts:157-172 | One output fails exactly when it has no attributes. The read of `valueList` throws inside the `try`, the catch block logs its warning, and its assignment throws the error that escapes, "Cannot set properties of undefined (setting 'valueList')". |
| BlockDefParser.LogEachOk | src/utils/parsers/blockDef.ts:128-152 | A `for ... in` normalisation loop succeeds exactly when every item does. |
| BlockDefParser.LogEachKeepsWarnings | src/utils/parsers/blockDef.ts:147-167 | Warnings logged before the loop come first and are kept. |
| BlockDefParser.InputsFailIffNoAttributes | src/utils/parsers/blockDef.ts:126-154 | An inputs section fails exactly when one of its inputs has no attributes; a bad value list never fails it. |
| BlockDefParser.NormalizeOneInput | src/utils/parsers/blockDef.ts:129-151 | One input's normalisation returns the specification's result and logs its warning; an input without `type` gets `[undefined]` (`BlockDefParser.InputWithoutType`). |
| BlockDefParser.NormalizeOneOutput | src/utils/parsers/blockDef.ts:158-171 | One output's normalisation returns the specification's result and logs its warning. |
| BlockDefParser.ReadInputs | src/utils/parsers/blockDef.ts:126-154 | The loop of `normalizeInput` returns the specification's inputs and logs exactly its warnings. |
| BlockDefParser.ReadOutputs | src/utils/parsers/blockDef.ts:155-174 | The loop of `normalizeOutput` returns the specification's outputs and logs exactly its warnings. |
| BlockDefParser.ParsedKind | src/utils/parsers/blockDef.ts:35-120 | A parsed definition is an event exactly when there is an `outputs` section, a return block exactly when there is a `return` but no `outputs` section, otherwise an action. |
| BlockDefParser.ParsedBlockType | src/utils/parsers/blockDef.ts:182-192 | `getBlockType` of a parsed definition agrees with the sections the file had (read at lines 35-120). |
| BlockDefParser.PropsGoErrors | src/utils/parsers/blockDef.ts:45-50 | Reading resultType properties never raises a return-section error. |
| BlockDefParser.PutEachErrors | src/utils/parsers/blockDef.ts:40-52 | A failure of a loop is a failure of one of its items. |
| BlockDefParser.LogEachErrors | src/utils/parsers/blockDef.ts:128-152 | A failure of a logging loop is a failure of one of its items. |
| BlockDefParser.ResultTypesErrors | src/utils/parsers/blockDef.ts:36-54 | The resultType section never raises a return-section error. |
| BlockDefParser.OutputsErrors | src/utils/parsers/blockDef.ts:155-174 | The outputs section never raises a return-section error. |
| BlockDefParser.EventBeforeReturn | src/utils/parsers/blockDef.ts:35-76 | With an `outputs` section the return checks are never reached, however malformed the return section is. |
| BlockDefParser.EventDefErrors | src/utils/parsers/blockDef.ts:35-73 | The event branch never raises a return-section error. |
| BlockDefParser.ReadEvent | src/utils/parsers/blockDef.ts:35-73 | The event branch, section by section, gives the specification's definition and warnings. |
| BlockDefParser.ReadInputsAndCode | src/utils/parsers/blockDef.ts:110-119 | The inputs then the code give the specification's pair and warnings. |
| BlockDefParser.ParseBlockDef | src/utils/parsers/blockDef.ts:14-125 | `parseBlockDef` returns the specification's definition or error and logs exactly its warnings. |
| UserCode.WidthsAreSchemaSizes | src/utils/parsers/userCode.ts:28-31 | Every width `createNumber` keeps is one the number schema accepts for its kind. |
| UserCode.CreateNumber | src/utils/parsers/userCode.ts:26-33 | A number literal keeps its text and kind; a width the kind allows is kept and any other becomes 32, so the literal always fits the schema. |
| UserCode.StringLiteral | src/utils/parsers/userCode.ts:56-65 | A text value becomes a string literal or one of the two booleans. |
| UserCode.QuotedTextUnquoted | src/utils/parsers/userCode.ts:57-58 | Quoting any text and reading it back gives the text. |
| UserCode.BooleanWordsAnyCase | src/utils/parsers/userCode.ts:61-62 | "true" and "false" in any mix of cases are the lower-case booleans. |
| UserCode.PlainTextKept | src/utils/parsers/userCode.ts:64 | Unquoted text that is no boolean word is kept unchanged. |
| UserCode.NumberLiteral | src/utils/parsers/userCode.ts:78-94 | A number literal keeps its text and always fits the schema. |
| UserCode.DefaultLiteral | src/utils/parsers/userCode.ts:99-126 | The default of a missing value always fits the schema. |
| UserCode.NumberLiteralChoice | src/utils/parsers/userCode.ts:83-94 | A number takes uint at width 32 if uint is accepted, else int at 32 for int, number or any, else float at 64; it stays a string (the fall-through at line 126) exactly when none of these is accepted. |
| UserCode.DefaultLiteralChoice | src/utils/parsers/userCode.ts:105-126 | A missing value defaults to uint "0", int "0", float "0.0" at 64, bool "false" or string "", in that priority order. |
| UserCode.ParseSimpleValue | src/utils/parsers/userCode.ts:55-127 | Every literal `parseSimpleValue` answers fits the schema. |
| UserCode.MissingLiteral | src/utils/parsers/userCode.ts:98-126 | Every default for a missing value fits the schema. |
| UserCode.TextNeedsNoDefinition | src/utils/parsers/userCode.ts:56-69 | Text and booleans are typed without the catalog: text as `StringLiteral` says, booleans as their word. |
| UserCode.NumberForUnknownInput | src/utils/parsers/userCode.ts:71-76 | A number fails when the definition cannot be fetched, and otherwise exactly for an undeclared input, with "Unknown input". |
| UserCode.SimpleValueEntry | src/utils/parsers/userCode.ts:151 | The simple value is the first text node of the entry, and there is none exactly when every node is an element. |
| UserCode.ForTag | src/utils/parsers/userCode.ts:142-146 | An input entry carries a `for` flag only when its `for` attribute is truthy. |
| UserCode.ContentModuleAsWritten | src/utils/parsers/userCode.ts:149 | The module lookup as written: the raw attributes are the flags, so `flags?.module` is never set. Specified by `UserCode.AsWrittenIgnoresModuleAttribute` and `UserCode.ExplicitModuleExample`. |
| UserCode.ContentModule | src/utils/parsers/userCode.ts:149 | The corrected module lookup, which honours an explicit `module` attribute. Specified by `UserCode.ExplicitModuleExample` and `UserCode.BlockModuleAgrees`. |
| UserCode.AsWrittenIgnoresModuleAttribute | src/utils/parsers/userCode.ts:149 | As written, a block's `module` attribute (passed in as the whole attribute object at line 203) is never seen when typing its inputs: the module always comes from the index. |
| UserCode.ExplicitModuleExample | src/utils/parsers/userCode.ts:149 | For a block named in modules A and B with `module="A"`, the code as written reports an ambiguity where the corrected lookup resolves to A. |
| UserCode.EmptyTagValue | src/utils/parsers/userCode.ts:162-175 | An empty tag gives an empty block list exactly when the input accepts blocks, and otherwise the default literal. |
| UserCode.ContentStep | src/utils/parsers/userCode.ts:134-186 | One pass of the content loop skips a node without a key and otherwise assigns exactly that key. It uses the corrected module lookup (`ContentModule`), which honours an explicit `module` attribute. |
| UserCode.EntriesOf | src/utils/parsers/userCode.ts:185 | The content pairs as entries, one per pair, in order. |
| UserCode.PairsOf | src/utils/parsers/userCode.ts:132 | The entries as an ordered object, one per entry, in order. |
| UserCode.PairsOfEntries | src/utils/parsers/userCode.ts:132-185 | Turning pairs into entries and back gives the pairs. |
| UserCode.Assemble | src/utils/parsers/userCode.ts:223-234 | The block object has the block's name. |
| UserCode.ParseContent | src/utils/parsers/userCode.ts:131-188 | The content loop of `processBlockContent`, with the corrected module lookup. Specified by `UserCode.ContentKeys` and `UserCode.BlockContentKeys`. |
| UserCode.ParseBlock | src/utils/parsers/userCode.ts:192-238 | One block of the user program, with the corrected module lookup. Specified by `UserCode.BlockModuleAgrees`, `UserCode.BlockAttributesMerged` and `UserCode.BlockInputsKept`. |
| UserCode.ContentKeys | src/utils/parsers/userCode.ts:134-186 | The content loop's keys are those it had plus every non-empty key of the remaining entries. |
| UserCode.BlockContentKeys | src/utils/parsers/userCode.ts:131-188 | A block's content keys are exactly its entries' non-empty keys. |
| UserCode.BlockModuleAgrees | src/utils/parsers/userCode.ts:192-238 | With the corrected module lookup, a parsed block keeps its name, has flags exactly when it had attributes, and was typed against the module the converter resolves it by. The code as written does not promise this (see `UserCode.ExplicitModuleExample`). |
| UserCode.MergeGoUnique | src/utils/parsers/userCode.ts:209-215 | The merged attribute object has each key once. |
| UserCode.MergeGoFound | src/utils/parsers/userCode.ts:209-215 | An attribute other than `for` is merged under its name without "@_" with its value. |
| UserCode.CleanDistinct | src/utils/parsers/userCode.ts:211 | Distinct parser attribute names stay distinct once "@_" is removed. |
| UserCode.MergeGoAbsent | src/utils/parsers/userCode.ts:209-215 | A key no merged attribute has is left as it was. |
| UserCode.SpreadLookup | src/utils/parsers/userCode.ts:219 | After the spread, an attribute's key takes the attribute's value and any other key keeps the content's. |
| UserCode.BlockAttributesMerged | src/utils/parsers/userCode.ts:205-221 | Every attribute except `for` is in the block's content, under its name without "@_" and with its value. |
| UserCode.BlockInputsKept | src/utils/parsers/userCode.ts:203-221 | A key that no merged attribute gives keeps the input value the content loop assigned. |
| UserCode.ParseBlocksInOrder | src/utils/parsers/userCode.ts:160 | `Promise.all` keeps the order: one block per node, each the parse of its node. |
| UserCode.ReadEntry | src/utils/parsers/userCode.ts:134-183 | One pass of the imperative content loop returns what the specification `ContentStep` gives, with the corrected module lookup. |
| UserCode.ReadContent | src/utils/parsers/userCode.ts:131-188 | The imperative content loop returns what the specification `ParseContent` gives, with the corrected module lookup. |
| UserCode.EventModuleResolution | src/utils/parsers/userCode.ts:256 | An event's module is the `String()` text of its attribute when that is truthy, and is looked up otherwise. For a string or falsy attribute this is exactly how `blockFromModule` resolves a flag. |
| UserCode.ExtrasGoUnderscored | src/utils/parsers/userCode.ts:259-266 | Every collected event flag name starts with "_". |
| UserCode.EventFlagsAccepted | src/utils/parsers/userCode.ts:254-269 | The event flags always pass the event flags schema's refinement. |
| UserCode.DynamicName | src/utils/parsers/userCode.ts:260-262 | An attribute gives flag `k` exactly when it is "@_" followed by `k` and `k` starts with "_". |
| UserCode.ExtrasGoKeys | src/utils/parsers/userCode.ts:259-266 | The collected flag names are those the loop had plus those of the remaining dynamic attributes. |
| UserCode.EventFlagNames | src/utils/parsers/userCode.ts:255-268 | The dynamic flags are exactly the attributes "@__…", without the "@_" prefix. |
| UserCode.ExtrasGoAbsent | src/utils/parsers/userCode.ts:259-266 | Attributes that give no flag `k` leave its value alone. |
| UserCode.ExtrasGoValue | src/utils/parsers/userCode.ts:263 | A dynamic flag holds the text of the last attribute that gives it. |
| UserCode.ExtrasGoAt | src/utils/parsers/userCode.ts:263 | A dynamic flag holds the text of its attribute when no later attribute gives it. |
| UserCode.EventFlagValues | src/utils/parsers/userCode.ts:263 | With the parser's unique attribute names, each dynamic flag is the text of its attribute. |
| UserCode.BuildEventFlags | src/utils/parsers/userCode.ts:254-269 | The imperative flags loop returns what the specification gives. |
| UserCode.ParseEvent | src/utils/parsers/userCode.ts:243-273 | A parsed event keeps its element's name and has a body, and has flags exactly when the element had attributes. |
| UserCode.EventFlagsValid | src/utils/parsers/userCode.ts:243-273 | Every event of a parsed program carries flags the schema accepts. |
| UserCode.ParseCode | src/utils/parsers/userCode.ts:277-283 | A failure of the XML parser is reported as "XML parsing error". |
| UserCode.ParseEventsInOrder | src/utils/parsers/userCode.ts:288 | One event object per node, each the parse of its node, in order. |
| UserCode.ProgramInOrder | src/utils/parsers/userCode.ts:277-291 | A parsed program has one event object per top-level node, in document order. |
| Config.CheckTarget | src/services/configuration/configuration.ts:12-27 | The target checks of `configuration()`. Specified by `Config.TargetRules` and `Config.LanguageCheckedFirst`. |
| Config.TargetRules | src/services/configuration/configuration.ts:12-27 | The target settings pass exactly when language, platform and architecture are each allowed and the architecture is default exactly when the platform is. |
| Config.LanguageCheckedFirst | src/services/configuration/configuration.ts:12-14 | An unsupported language is reported first, whatever the platform and architecture, with the allowed list "rust". |
| Config.DefaultTargetPasses | src/schemas/config.ts:15-18 | The settings used when none is given (default platform, default architecture, rust) pass the target checks. |
| ConfigUtils.ResolveBlockKind | src/services/configuration/utils.ts:10-23 | A `return` section makes a return block, otherwise `code` an action block, otherwise `outputs` an event block; a definition with none of the three is an error with the fixed message. |
| ConfigUtils.ResolveParsedKind | src/services/configuration/utils.ts:10-23 | On every definition the parser builds, the resolved kind is the definition's own kind. |
| ConfigUtils.SizeIn | src/services/configuration/utils.ts:57-68 | The width check of one numeric kind passes exactly when the size is one of the legal widths; a falsy size is reported as missing. |
| ConfigUtils.ValidateNumericTypeSize | src/services/configuration/utils.ts:49-85 | The check fails exactly for int/uint with a width other than 8, 16, 32, 64 or 128 and for float with a width other than 32 or 64; a falsy width is reported as missing with the kind's own list. |
| ConfigUtils.NumericSizeIsLegalPair | src/services/configuration/utils.ts:56-84 | For int, uint and float the check passes exactly for the (type, width) pairs the output type catalogue calls legal. |
| ConfigUtils.NonNumericTypesPass | src/services/configuration/utils.ts:54-84 | An absent type and every non-numeric type pass without their width being looked at. |
| ConfigUtils.ZodLine | src/services/configuration/utils.ts:87-110 | The line written for one schema issue begins with the issue's dotted field path. |
| ConfigUtils.LinesSplit | src/services/configuration/utils.ts:111 | Issue lines without line breaks, joined with line breaks, split back into exactly those lines in order. |
| ConfigUtils.FormatZodError | src/services/configuration/utils.ts:86-112 | `formatZodError`. Specified by `ConfigUtils.FormatZodErrorLines` and `ConfigUtils.FormatNoIssues`. |
| ConfigUtils.FormatZodErrorLines | src/services/configuration/utils.ts:86-112 | The formatted schema error has one line per issue, in order, each beginning with that issue's field path. |
| ConfigUtils.FormatNoIssues | src/services/configuration/utils.ts:86-112 | No issues format to the empty text. |
| ConfigUtils.CheckAll | src/services/configuration/validateProjectConf.ts:46-51 | A loop of checks that throws at the first failure succeeds exactly when every item passes. |
| ConfigUtils.CheckAllFirstError | src/utils/moduleValidation.ts:25-29 | A failed loop of checks reports the error of its first failing item. |
| ModuleValidation.RequiredType | src/utils/moduleValidation.ts:8-14 | stateRender and eventRender demand a rendering module, stateApp, eventOS and eventLoop a windowing module; global and preUser demand nothing. |
| ModuleValidation.SectionGate | src/utils/moduleValidation.ts:4-22 | The two checks before the code is read pass exactly for a known section and the module type it demands. |
| ModuleValidation.ValidateModuleSectionAccess | src/utils/moduleValidation.ts:3-30 | `validateModuleSectionAccess` on text. Specified by `ModuleValidation.SectionAccessRules`, `ModuleValidation.OpenSections` and `ModuleValidation.PlaceholderNeedsRendering`. |
| ModuleValidation.ValidateSectionAccessOn | src/utils/moduleValidation.ts:3-30 | `validateModuleSectionAccess` on whatever value an untyped caller passes as `code`. Specified by `ModuleValidation.UntypedCodeRules`. |
| ModuleValidation.UntypedCodeRules | src/utils/moduleValidation.ts:25-29 | Text is checked as text. An array passes exactly when the section checks pass and the module is a rendering module or no element is a window placeholder. Any other value fails, with the TypeError of `code.includes` once the section checks pass. |
| ModuleValidation.SectionAccessRules | src/utils/moduleValidation.ts:3-30 | A module may write to a section exactly when the section is known, the module has the type the section demands, and, unless it is a rendering module, its code names no window placeholder. |
| ModuleValidation.OpenSections | src/utils/moduleValidation.ts:8-29 | global and preUser accept placeholder-free code from every module type. |
| ModuleValidation.PlaceholderNeedsRendering | src/utils/moduleValidation.ts:25-29 | Code containing a window placeholder anywhere is refused to every module that is not a rendering module, whatever the section. |
| ModuleValidation.ValidateWindowSectionUsage | src/utils/moduleValidation.ts:32-36 | Only rendering modules may write to the window sections. |
| ValidateProject.ValidateProjectConf | src/services/configuration/validateProjectConf.ts:6-54 | `validateProjectConf`. Specified by `ValidateProject.MissingOrBlankConfig` and `ValidateProject.AcceptedConfigRules`. |
| ValidateProject.MissingOrBlankConfig | src/services/configuration/validateProjectConf.ts:11-17 | A missing config.json is reported as not found, a non-empty one holding only white space as empty. |
| ValidateProject.AcceptedConfigRules | src/services/configuration/validateProjectConf.ts:26-51 | A config the schema accepts passes exactly when it supports the target platform (or the platform is default), lists the target language, and every entry point is a file of the unpacked tree. |
| ValidateProject.EntryPointsPresent | src/services/configuration/validateProjectConf.ts:46-51 | The entry-point loop passes exactly when every entry point names a file of the unpacked tree. |
| ValidateProject.FirstMissingEntryPoint | src/services/configuration/validateProjectConf.ts:46-51 | The first entry point that is not a file is the one reported. |
| ValidateBlocks.InputWithoutTypeRejected | src/services/configuration/validateBlocks.ts:56-70 | An input typed `[undefined]` fails the input schema, and with it the block's input checks, so a definition with an untyped input does not validate. |
| ValidateBlocks.InputRules | src/services/configuration/validateBlocks.ts:56-85 | An input the schema accepts passes exactly when its type list has no "block", or is "block" alone and the input admits blocks. |
| ValidateBlocks.MixedTypesReported | src/services/configuration/validateBlocks.ts:75-77 | A type list mixing "block" with other types fails with the mixed-types message, whatever `canYouPutBlockIn` says. |
| ValidateBlocks.BlockInputAdmitsByDefault | src/services/configuration/validateBlocks.ts:79-83 | A block input without an explicit `canYouPutBlockIn` passes. |
| ValidateBlocks.CodeRules | src/services/configuration/validateBlocks.ts:87-141 | A code section passes exactly when it is non-blank text that parses and calls `addAtBlockLocation` at least once, every call with exactly one argument. |
| ValidateBlocks.BlankCodeFails | src/services/configuration/validateBlocks.ts:90-95 | Code that is not text is reported as not a string, blank text as empty, before any parsing. |
| ValidateBlocks.CheckIfReturns | src/services/configuration/utils.ts:25-47 | A type or size script passes exactly when, wrapped in a function, it parses and contains a return statement. |
| ValidateBlocks.ReturnObjectFields | src/services/configuration/validateBlocks.ts:144-150 | The return section the validator inspects carries the definition's own type and size. |
| ValidateBlocks.StaticReturnPasses | src/services/configuration/validateBlocks.ts:145-160 | A return section the static value-type schema accepts always passes: the schema admits only legal widths, so the width check cannot fail. |
| ValidateBlocks.ScriptReturnRules | src/services/configuration/validateBlocks.ts:161-176 | A script return section passes exactly when its type script returns and, when its size is truthy, so does its size script. |
| ValidateBlocks.OutputRules | src/services/configuration/validateBlocks.ts:179-220 | Past the schema an output fails only when it has no type and the block has no resultType section. |
| ValidateBlocks.ResultTypeEntryRules | src/services/configuration/validateBlocks.ts:222-257 | A resultType entry the schema accepts passes exactly when a type outside the output types is a returning script and a non-empty size is a returning script. |
| ValidateBlocks.CheckHandle | src/services/configuration/validateBlocks.ts:259-274 | A handle section passes exactly when it is absent or holds at most a text `suffix`. |
| ValidateBlocks.DefinitionRules | src/services/configuration/validateBlocks.ts:33-48 | Action blocks pass exactly when their inputs and code do, return blocks when inputs, return section and code do, event blocks when outputs, resultType and handle do. |
| ValidateBlocks.IndexPairs | src/services/configuration/validateBlocks.ts:14-21 | The (module, block) pairs visited are exactly the blocks listed under each module of the index. |
| ValidateBlocks.ValidateBlocksDef | src/services/configuration/validateBlocks.ts:10-53 | `validateBlocksDef`. Specified by `ValidateBlocks.ValidateBlocksDefAll`. |
| ValidateBlocks.ValidateBlocksDefAll | src/services/configuration/validateBlocks.ts:10-53 | The block catalogue validates exactly when every listed block file is present, parses and passes its kind's checks; in particular no block is named "#flags". |
| ValidateBlocks.KindPrioritiesDiffer | src/services/configuration/utils.ts:10-23 | `resolveBlockKind` and `getBlockType` agree exactly when a kind-deciding section is present and `outputs` is not combined with `return` or `code`; with both `return` and `outputs` the validator says return and the parser says event. This is a statement about the two functions on one key set; no definition `parseBlockDef` returns mixes those keys. |
| ValidateModules.ValidateModuleConfig | src/services/configuration/validateModulesConf.ts:59-81 | `validateModuleConfig`. Specified by `ValidateModules.EngineVersionRule`. |
| ValidateModules.EngineVersionRule | src/services/configuration/validateModulesConf.ts:59-81 | A module config the schema accepts is compatible exactly when its engine version is non-empty and starts with the program version's first character; the accepted config is what the check returns. |
| ValidateModules.ValidatePlatformSupport | src/services/configuration/validateModulesConf.ts:84-107 | `validatePlatformSupport`. Specified by `ValidateModules.PlatformRules` and `ValidateModules.DefaultTargetNeedsMappedSystem`. |
| ValidateModules.PlatformRules | src/services/configuration/validateModulesConf.ts:84-107 | A module supports the target exactly when it lists the target platform, or, with the default target, the mapped name of the current operating system. |
| ValidateModules.DefaultTargetNeedsMappedSystem | src/services/configuration/validateModulesConf.ts:89-106 | With the default target, no module validates on a system other than win32 and linux, since "macos" and "unknown" are not allowed platform names. |
| ValidateModules.CheckModuleUniqueness | src/services/configuration/validateModulesConf.ts:110-133 | A windowing or rendering module fails exactly when its slot is already taken; otherwise it takes its own slot and leaves the other unchanged. |
| ValidateModules.UnknownOptions | src/services/configuration/validateModulesConf.ts:158-165 | Every option name outside the supported list raises its warning, and there are no more warnings than option names. |
| ValidateModules.KnownOptionsQuiet | src/services/configuration/validateModulesConf.ts:158-165 | Supported option names raise no warning. |
| ValidateModules.RustConfigCheck | src/services/configuration/validateModulesConf.ts:136-184 | `validateRustConfig`. Specified by `ValidateModules.RustConfigWarnsOnly`, `ValidateModules.WindowSectionsNeedRendering` and `ValidateModules.SectionEntryRules`. |
| ValidateModules.EntryContent | src/services/configuration/validateModulesConf.ts:170-171 | `"text" in entry` then `entry.text`: the value of `text` whatever it is, or "" without one; the `in` operator throws on a value that is not an object. Specified by `ValidateModules.SectionEntryRules`. |
| ValidateModules.SectionEntryOk | src/services/configuration/validateModulesConf.ts:167-178 | One entry of `addToSectionInTargetScope`: skipped when falsy, otherwise its content checked by `validateModuleSectionAccess`. Specified by `ValidateModules.SectionEntryRules`. |
| ValidateModules.SectionEntryRules | src/services/configuration/validateModulesConf.ts:167-178 | A text `text` is checked as that text, a missing one as "". A `text` that is neither text nor an array fails whatever the module type. A truthy entry that is not an object or an array fails with the TypeError of the `in` operator. |
| ValidateModules.NumericTextFails | src/services/configuration/validateModulesConf.ts:171 | A numeric `text` in the open section "global" fails with "TypeError: code.includes is not a function". |
| ValidateModules.RustConfigWarnsOnly | src/services/configuration/validateModulesConf.ts:136-165 | When config.rs.json uses neither `addToSectionInTargetScope` nor `addToSectionInWindowTargetScope`, schema issues and unknown options never fail validation; they raise one warning for the schema and one per unknown option. |
| ValidateModules.WindowSectionsNeedRendering | src/services/configuration/validateModulesConf.ts:180-182 | A config.rs.json using the window sections passes exactly for a rendering module. |
| ValidateModules.ModuleStep | src/services/configuration/validateModulesConf.ts:30-52 | One pass of the module loop. Specified by `ValidateModules.ModulesGoStep`, `ValidateModules.StepKeepsSlots` and `ValidateModules.CheckModule`. |
| ValidateModules.ModulesGoStep | src/services/configuration/validateModulesConf.ts:30-52 | One turn of the module loop: a failing entry ends the loop with its error and warnings, a passing one continues with the updated state. |
| ValidateModules.WarnAll | src/services/configuration/validateModulesConf.ts:155-164 | The logger ends holding its earlier warnings followed by the new ones in order. |
| ValidateModules.CheckModule | src/services/configuration/validateModulesConf.ts:30-52 | One entry checked imperatively yields exactly the functional step's result, and logs exactly its warnings. The step includes the TypeErrors of a section entry whose `text` is not text (`ValidateModules.SectionEntryRules`). |
| ValidateModules.RunValidateModulesConf | src/services/configuration/validateModulesConf.ts:13-55 | The imperative validator with its two slot variables and config record returns the functional validator's verdict and logs exactly its warnings in order. |
| ValidateModules.StepKeepsSlots | src/services/configuration/validateModulesConf.ts:41-47 | One successful entry keeps each slot naming the single recorded module of its type. |
| ValidateModules.ModulesGoKeepsSlots | src/services/configuration/validateModulesConf.ts:30-52 | A successful loop ends with each slot naming the single recorded module of its type. |
| ValidateModules.GlobalCheckPasses | src/services/configuration/validateModulesConf.ts:186-214 | Once every module validated, the check of the selected windowing and rendering modules cannot fail. |
| ValidateModules.AtMostOneOfEach | src/services/configuration/validateModulesConf.ts:110-133 | A validated set of modules holds at most one windowing module and at most one rendering module. |
| Sections.DataWarning | src/services/projectCreation/sections.ts:14 | The corrected data warning, which shows the data. Specified by `Sections.DataWarningShowsData`. |
| Sections.DataWarningAsWritten | src/services/projectCreation/sections.ts:14 | The data warning as written, which prints the section name. Specified by `Sections.AsWrittenHidesData`. |
| Sections.DataWarningShowsData | src/services/projectCreation/sections.ts:13-16 | The corrected data warning determines the data it reports: equal warnings mean equal data text. |
| Sections.AsWrittenHidesData | src/services/projectCreation/sections.ts:14 | As written, the data warning is the same for two pieces of data with different text. |
| Sections.Initial | src/services/projectCreation/sections.ts:3-6 | The section record starts with exactly the seven section names, each holding empty text. |
| Sections.AddToSection | src/services/projectCreation/sections.ts:8-19 | A call changes something exactly when the section is known and the data is text; then only that section changes, gaining the data between newlines. Otherwise it returns the section warning for an unknown section, or the corrected data warning (`Sections.DataWarning`, which shows the data) for non-text data. |
| Sections.AddsCommute | src/services/projectCreation/sections.ts:8-19 | Calls on two different sections may be made in either order. |
| Sections.AddEachAppends | src/services/projectCreation/sections.ts:18 | After several calls on one section it holds its earlier text followed by each piece of data between newlines, in call order, and the other sections are unchanged. |
| Sections.SectionStore.constructor | src/services/projectCreation/sections.ts:3-6 | The record starts as the seven empty sections. |
| Sections.SectionStore.Text | src/services/projectCreation/sections.ts:3-6 | Reading a section gives its current text. |
| Sections.SectionStore.Add | src/services/projectCreation/sections.ts:8-19 | The in-place call updates the record and returns the warning exactly as the functional model of one call says, with the corrected data warning. |
| SetupTarget.ConvertToFunctionType | src/services/projectCreation/rust/setupTargetDir.ts:161-173 | `convertToFunctionType`. Specified by `SetupTarget.ConvertLegal`, `SetupTarget.RustTypeInjective` and `SetupTarget.ConvertNeedsObject`. |
| SetupTarget.ConvertLegal | src/services/projectCreation/rust/setupTargetDir.ts:161-173 | Every legal value type converts: string to `String`, bool to `bool`, a numeric type to its first letter followed by its width. |
| SetupTarget.RustTypeInjective | src/services/projectCreation/rust/setupTargetDir.ts:161-171 | Different legal value types get different Rust types. |
| SetupTarget.ConvertNeedsObject | src/services/projectCreation/rust/setupTargetDir.ts:161-173 | A value that is not an object has no type to convert and raises the unsupported-type error. |
| SetupTarget.OutputValue | src/services/projectCreation/rust/setupTargetDir.ts:42-45 | A map of named outputs is an object with one field per named value type. |
| SetupTarget.EventParametersAsWritten | src/services/projectCreation/rust/setupTargetDir.ts:40-53 | `generateEventParameters` as written. Specified by `SetupTarget.SingleOutputRejectedAsWritten` and `SetupTarget.AsWrittenAgreesOnMultiOutputs`. |
| SetupTarget.SingleOutputRejectedAsWritten | src/services/projectCreation/rust/setupTargetDir.ts:40-53 | As written, an event whose first output is a single value type gets no parameter list: the value-type object is taken apart and its `type` string fails to convert. |
| SetupTarget.AsWrittenAgreesOnMultiOutputs | src/services/projectCreation/rust/setupTargetDir.ts:42-47 | When every output is a map of named value types, the code as written and the corrected reading build the same parameter list. |
| SetupTarget.GenerateEventParameters | src/services/projectCreation/rust/setupTargetDir.ts:40-53 | The nested `params +=` loops build exactly the corrected parameter list, failing at the first output that does not convert. |
| SetupTarget.EventParameters | src/services/projectCreation/rust/setupTargetDir.ts:40-53 | The corrected `generateEventParameters`, with a single output as one parameter. Specified by `SetupTarget.EventParametersDeclared` and `SetupTarget.SingleOutputParameter`. |
| SetupTarget.EventParametersDeclared | src/services/projectCreation/rust/setupTargetDir.ts:40-53 | The parameter list exists exactly when every declared parameter converts; it then lists each single output under its name and each entry of a map output as `outputName__key`, in order, each as `name: T, `. |
| SetupTarget.SingleOutputParameter | src/services/projectCreation/rust/setupTargetDir.ts:48-50 | With the correction, one single legal output gives the one parameter `outputName: T, `. |
| SetupTarget.FirstOutputs | src/services/projectCreation/rust/setupTargetDir.ts:61-63 | An event key has recorded outputs exactly when some generated entry carries that key. |
| SetupTarget.DedupMembers | src/services/projectCreation/rust/setupTargetDir.ts:56-67 | The keys in first-occurrence order are exactly the keys of the generated entries. |
| SetupTarget.DedupDistinct | src/services/projectCreation/rust/setupTargetDir.ts:56-67 | The first-occurrence order lists each key once, so each event gets one function. |
| SetupTarget.GroupStep | src/services/projectCreation/rust/setupTargetDir.ts:58-65 | One turn of the grouping loop keeps the keys in first-occurrence order and each key's group equal to its code pieces so far with its first outputs. |
| SetupTarget.GroupEvents | src/services/projectCreation/rust/setupTargetDir.ts:56-65 | The grouping loop yields the keys in first-occurrence order and, for each, all its code pieces in program order with the outputs of its first occurrence. |
| SetupTarget.EventFunction | src/services/projectCreation/rust/setupTargetDir.ts:67-73 | One Rust function per event key, with the corrected parameter list. Specified by `SetupTarget.EventBody` and `SetupTarget.SeveralPiecesSpawned`. |
| SetupTarget.EventBody | src/services/projectCreation/rust/setupTargetDir.ts:69-71 | A single code piece is the function body as is. |
| SetupTarget.SeveralPiecesSpawned | src/services/projectCreation/rust/setupTargetDir.ts:69-71 | With several code pieces, each one appears inside its own spawned thread. |
| SetupTarget.Groups | src/services/projectCreation/rust/setupTargetDir.ts:56-65 | The grouped events have exactly the keys of the generated entries. |
| SetupTarget.RustEvents | src/services/projectCreation/rust/setupTargetDir.ts:55-75 | `generateRustEvents`, with the corrected parameter lists. Specified by `SetupTarget.OneKeyOneGroup`, `SetupTarget.DistinctKeysApart`, `SetupTarget.NoEntriesNoFunctions` and `SetupTarget.GenerateRustEvents`. |
| SetupTarget.GenerateRustEvents | src/services/projectCreation/rust/setupTargetDir.ts:55-75 | The imperative generator yields exactly the functional rendering: one function per key in first-occurrence order, joined by line breaks. The parameter lists are the corrected ones (`SetupTarget.EventParameters`), so an event with a single output gets one parameter where the code as written throws. |
| SetupTarget.OneKeyOneGroup | src/services/projectCreation/rust/setupTargetDir.ts:56-65 | Entries sharing one key make one function holding all their code in order. |
| SetupTarget.DistinctKeysApart | src/services/projectCreation/rust/setupTargetDir.ts:56-65 | Entries with distinct keys are not merged: each key keeps its own code and outputs. |
| SetupTarget.NoEntriesNoFunctions | src/services/projectCreation/rust/setupTargetDir.ts:55-75 | No generated code gives no event functions. |
| SetupTarget.DependentLibraries | src/services/projectCreation/rust/setupTargetDir.ts:22-37 | `getDependentLibraries`. Specified by `SetupTarget.VersionPreferred`, `SetupTarget.ModuleLibraryLines`, `SetupTarget.LibraryLinesExact` and `SetupTarget.LocalLibrariesOmitted`. |
| SetupTarget.VersionPreferred | src/services/projectCreation/rust/setupTargetDir.ts:30 | A library with a version is depended on by that version, whatever its git source. |
| SetupTarget.ModuleLibraryLines | src/services/projectCreation/rust/setupTargetDir.ts:27-33 | A module contributes at most one line per library. |
| SetupTarget.LibraryLinesExact | src/services/projectCreation/rust/setupTargetDir.ts:27-33 | Each line belongs to a library in the target scope, and every library in the target scope has its line. |
| SetupTarget.LocalLibrariesOmitted | src/services/projectCreation/rust/setupTargetDir.ts:22-36 | When no library is in the target scope, Cargo.toml gets no library lines. |
| SetupTarget.DependentModules | src/services/projectCreation/rust/setupTargetDir.ts:10-20 | `getDependentModules`. Specified by `SetupTarget.ModuleLines`, `SetupTarget.ModuleLineInjective` and `SetupTarget.TargetNotItsOwnDependency`. |
| SetupTarget.ModuleLines | src/services/projectCreation/rust/setupTargetDir.ts:10-20 | Every module dependency line belongs to a module other than "target" whose language config adds files to the local scope. |
| SetupTarget.ModuleLineInjective | src/services/projectCreation/rust/setupTargetDir.ts:16 | Different modules get different dependency lines. |
| SetupTarget.TargetNotItsOwnDependency | src/services/projectCreation/rust/setupTargetDir.ts:13 | The target scope never depends on itself. |
| SetupTarget.ExitStrategy | src/services/projectCreation/rust/setupTargetDir.ts:119-125 | The exit flag and the event loop of lib.rs. Specified by `SetupTarget.ExitStrategyRules`. |
| SetupTarget.ExitStrategyRules | src/services/projectCreation/rust/setupTargetDir.ts:119-125 | An empty eventLoop section gets the declared exit flag and a default loop polling it; otherwise the section is the loop and no flag is declared. |

## Left out

- JavaScript execution: every `new Function(...)` script is an oracle. The generator scripts (`Env.gen`) answer the pieces they append and the module's new state. Type, size and suffix scripts (`Env.ty`) answer a value and are taken not to change module state.
- The XML parser (fast-xml-parser): its order-preserving tree is the input to `BlockDefParser` and `UserCode`, and `UserCode.ParseCode` takes its verdict as a parameter.
- `JSON.parse` and every zod schema: they are parameters, either answering a value or an issue list, or written as predicates over the shapes of src/schemas/blocks.ts. Which issues zod reports for a rejected value is not modelled.
- acorn and acorn-walk: the code checks take the argument counts of the `addAtBlockLocation` calls, and the return checks take whether a return statement was found. The mutable counter and flag of the walk are not modelled.
- The file system: the unpacked tree is a value. Reading it from disk, directory creation and copying in `configuration()`, `hasCargo`, the Cargo.toml, main.rs and lib.rs templates and every file write are not modelled. `loadModuleLangConfig` and `listAllModules` are inputs to the Cargo dependency functions.
- The `fileSystem` reader handed to generator scripts: it is left to the generator oracle.
- `path.normalize`: only the split of a path into segments and the dropping of empty segments are modelled.
- `Promise.all` is modelled as a sequential, order-preserving map.
- Console output and `logger.log` lines are not modelled. Only the warnings the logger keeps are.
- Environment variables: the target platform, architecture and language, and the name of the operating system, are parameters.
- JavaScript objects are ordered key/value lists with assignment semantics. The engine's reordering of integer-like keys is not modelled, and neither are prototype keys such as `toString` in lookups.
- Case-insensitive comparisons lower-case ASCII letters only.
- A config.rs.json whose content is the literal `null` is not told apart from malformed content. A `text` array in an `addToSectionInTargetScope` entry holds strings only.
- UserCode.ContentStep: uses the corrected module lookup, so an explicit `module` attribute on a block that several modules provide is honoured, where the code as written throws "occurs in multiple modules".
- UserCode.ParseContent: built on `ContentStep`, so it carries the same correction.
- UserCode.ParseBlock: parses the content with the corrected lookup; so do `UserCode.ParseCode` and the lemmas stated over it.
- UserCode.ReadContent: the imperative loop follows `ParseContent`, with the corrected lookup.
- UserCode.ReadEntry: one pass of that loop follows `ContentStep`, with the corrected lookup.
- UserCode.BlockModuleAgrees: holds for the corrected lookup only. As written, the module comes from the index alone and can differ from the converter's `#flags.module`.
- SetupTarget.EventFunction: renders with the corrected parameter list, where the code as written throws for an event with a single output.
- SetupTarget.RustEvents: built on `EventFunction`, so it carries the same correction.
- SetupTarget.GenerateRustEvents: equals `RustEvents`, so it carries the same correction.
- Sections.AddToSection: returns the corrected data warning, which shows the data; the code as written prints the section name there (`Sections.DataWarningAsWritten`).
- Sections.SectionStore.Add: returns the same corrected data warning as `AddToSection`.
- src/services/conversion/preprocessor.ts, src/services/projectCreation/rust/setupModules.ts, setupGlobalCargoToml.ts, initProject.ts, projectCreation.ts and src/index.ts are not part of this model. They are script execution and file output around the modelled pieces.
- Numbers are carried as the text `String()` gives them, so floating point never arises.
- BlockInputs.ChainStep: an unnamed nested block (`<type>`) hands its generator empty content. In the code the content is undefined, so the script's `isThereBlockInTheInput` throws, which the generator oracle does not see.
- BlockDefParser.WithTypeList: a wrapped `type` that is not a string is carried as its `String()` text, because the model's arrays hold strings: `[undefined]` is the list `["undefined"]`. Both match no type name and fail the input schema. Only a script reading `possibleInputTypes`, or a message that prints the list, could tell them apart.
- Strings are sequences of Unicode scalar values, not of UTF-16 code units. Lengths, indices and `substring` differ from JavaScript's for text outside the Basic Multilingual Plane.
- The `input` and `output` objects handed to generator and type scripts are shared and mutable in the code. The model passes them unchanged, so a script that mutates them does not affect later blocks or scripts.
- UserCode.ContentModule: a truthy `module` attribute that is not a string fails at once with the path TypeError of `Catalog.BlockFromModule`. The corrected code would fail only when the block's definition is fetched, so a block whose inputs are all text would still parse.
- SetupTarget.ConvertToFunctionType: an undefined or null type answers the unsupported-type error, where the code throws "Cannot read properties of undefined (reading 'type')", or the same message with null. Both fail. The event outputs it is applied to are never undefined or null.

## Findings

| source | as written | input that shows it | evidently intended | confidence | as-written member | corrected member |
|---|---|---|---|---|---|---|
| src/services/projectCreation/rust/setupTargetDir.ts:40-53 | Every output that is an object is iterated entry by entry, and that includes a single value type such as `{type, size}`. `convertToFunctionType` then receives the string `"int"` and throws. | An event whose output `out` is the single value type `{type: "int", size: 32}` | A single output gives one parameter `out: i32, `; only a map of named value types is iterated | not executed | SetupTarget.SingleOutputRejectedAsWritten | SetupTarget.EventParametersDeclared |
| src/utils/parsers/userCode.ts:149 | The raw XML attributes are passed as the block's flags. `blockFromModule` reads `flags.module`, but the parser names that attribute `@_module`, so an explicit `module` attribute is ignored while the content is parsed. | A block `b` provided by both modules `A` and `B`, written with `module="A"`: parsing its content fails as ambiguous | The explicit module decides, as it does for the block's `#flags` | not executed | UserCode.ExplicitModuleExample | UserCode.BlockModuleAgrees |
| src/services/projectCreation/sections.ts:14 | The warning about non-string data prints the section name where the data belongs | `addToSectionInTargetScope("global", 1)` warns `data: "global"` | The warning shows the offending data | not executed | Sections.AsWrittenHidesData | Sections.DataWarningShowsData |
