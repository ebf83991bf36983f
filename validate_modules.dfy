/**
 * The checks of every module's config.json and config.rs.json
 * (src/services/configuration/validateModulesConf.ts): the engine-version
 * test, platform support, the single windowing and single rendering module,
 * the warnings about the language config, and the final check of the two
 * selected modules. The directory listing, the operating system's name,
 * `JSON.parse` and the schemas are inputs; the loop over the modules keeps
 * the two module slots and the config map in variables, as the source does.
 */
module ValidateModules {
  import opened Wrappers
  import opened Js
  import opened JsText
  import opened Config
  import opened ConfigUtils
  import opened ModuleValidation
  import opened Logging
  import Catalog

  /** A directory entry of the modules folder. */
  datatype Dirent = Dirent(name: string, isDirectory: bool)

  /** Warnings produced on the way to a result. */
  datatype Run<T> = Run(warnings: seq<string>, result: Result<T, string>)

  /** What the validator reads: the unpacked tree, the parsers, the target and the current operating system. */
  datatype Inputs = Inputs(
    tree: Catalog.FsNode,
    json: string -> Option<JsValue>,
    moduleSchema: JsValue -> Result<ModuleConfig, seq<Issue>>,
    langSchema: JsValue -> Option<seq<Issue>>,
    target: Target,
    os: string)

  function ReadFile(tree: Catalog.FsNode, path: string): Option<string>
  {
    Catalog.FileAt(tree, Catalog.NormalizeVirtualPath(path))
  }

  // ---------------------------------------------------------------------
  // validateModuleConfig
  // ---------------------------------------------------------------------

  /** `s[0]`, undefined for the empty string. */
  function FirstChar(s: string): Option<char>
  {
    if s == "" then None else Some(s[0])
  }

  /** `validateModuleConfig`: JSON, the schema, then the engine version's first character against the program's. */
  function ValidateModuleConfig(inp: Inputs, text: string, name: string): Result<ModuleConfig, string>
  {
    match inp.json(text)
    case None => Err("Error parsing config.json for module \"" + name + "\".")
    case Some(raw) =>
      match inp.moduleSchema(raw)
      case Err(issues) => Err("Module \"" + name + "\": validation failed.\n" + FormatZodError(issues))
      case Ok(config) =>
        if FirstChar(ProgramVersion) != FirstChar(config.engineVersion) then
          Err("Module \"" + name + "\": incompatible engine version (engineVersion).")
        else Ok(config)
  }

  /** A schema-valid config is compatible exactly when its engine version starts with the program version's first character. */
  lemma EngineVersionRule(inp: Inputs, text: string, name: string, config: ModuleConfig)
    requires inp.json(text).Some? && inp.moduleSchema(inp.json(text).value) == Ok(config)
    ensures ValidateModuleConfig(inp, text, name).Ok? <==> config.engineVersion != "" && config.engineVersion[0] == ProgramVersion[0]
    ensures ValidateModuleConfig(inp, text, name).Ok? ==> ValidateModuleConfig(inp, text, name).value == config
  {
  }

  // ---------------------------------------------------------------------
  // validatePlatformSupport
  // ---------------------------------------------------------------------

  /** `platformMap[os.platform()] || "unknown"`. */
  function CurrentOs(os: string): string
  {
    if os == "win32" then "windows"
    else if os == "linux" then "linux"
    else if os == "darwin" then "macos"
    else "unknown"
  }

  /** `validatePlatformSupport`: a non-default target must be supported; with the default target the current system must be. */
  function ValidatePlatformSupport(config: ModuleConfig, name: string, platform: string, os: string): Result<(), string>
  {
    if platform !in config.supportedPlatforms && platform != "default" then
      Err("Module \"" + name + "\" does not support the target platform: \"" + platform + "\".")
    else if platform == "default" && CurrentOs(os) !in config.supportedPlatforms then
      Err("Module \"" + name + "\" does not support the current platform (" + CurrentOs(os) + "). " +
          "Supported platforms: " + Join(config.supportedPlatforms, ", "))
    else Ok(())
  }

  /** The platform rule, both ways. */
  lemma PlatformRules(config: ModuleConfig, name: string, platform: string, os: string)
    ensures ValidatePlatformSupport(config, name, platform, os).Ok? <==>
      if platform == "default" then CurrentOs(os) in config.supportedPlatforms else platform in config.supportedPlatforms
  {
  }

  /**
   * The schema admits only the allowed platform names, and "macos" and
   * "unknown" are not among them: with the default target, no module
   * validates on macOS or on an unmapped system.
   */
  lemma DefaultTargetNeedsMappedSystem(config: ModuleConfig, name: string, os: string)
    requires forall i :: 0 <= i < |config.supportedPlatforms| ==> config.supportedPlatforms[i] in AllowedPlatforms
    requires os !in {"win32", "linux"}
    ensures ValidatePlatformSupport(config, name, "default", os).Err?
  {
    assert CurrentOs(os) !in AllowedPlatforms;
  }

  // ---------------------------------------------------------------------
  // checkModuleUniqueness
  // ---------------------------------------------------------------------

  /** The windowing and rendering modules found so far (`string | null`). */
  datatype Slots = Slots(windowing: Option<string>, rendering: Option<string>)

  /** Truthiness of `string | null`. */
  predicate Occupied(s: Option<string>)
  {
    s.Some? && s.value != ""
  }

  /** `checkModuleUniqueness`: a second windowing or rendering module fails; otherwise the module takes the slot of its type. */
  function CheckModuleUniqueness(config: ModuleConfig, name: string, slots: Slots): (r: Result<Slots, string>)
    ensures r.Err? <==>
      (config.moduleType == Windowing && Occupied(slots.windowing)) || (config.moduleType == Rendering && Occupied(slots.rendering))
    ensures r.Ok? ==> r.value.windowing == (if config.moduleType == Windowing then Some(name) else slots.windowing)
    ensures r.Ok? ==> r.value.rendering == (if config.moduleType == Rendering then Some(name) else slots.rendering)
  {
    if config.moduleType == Windowing then
      if Occupied(slots.windowing) then
        Err("Module \"" + name + "\": a window module already exists \"" + slots.windowing.value + "\". Only one window module is allowed.")
      else Ok(Slots(Some(name), slots.rendering))
    else if config.moduleType == Rendering then
      if Occupied(slots.rendering) then
        Err("Module \"" + name + "\": a rendering module already exists \"" + slots.rendering.value + "\". Only one rendering module is allowed.")
      else Ok(Slots(slots.windowing, Some(name)))
    else Ok(slots)
  }

  // ---------------------------------------------------------------------
  // validateRustConfig
  // ---------------------------------------------------------------------

  const AllowedOptions: seq<string> :=
    ["addFileToLocalScope", "addToSectionInTargetScope", "libraries", "addToSectionInWindowTargetScope", "Preprocessors"]

  function UnknownOptionWarning(name: string, option: string): string
  {
    "In config.rs.json, in module " + name + " there is a setting: " + option +
    ". Which is not supported in this version of SpireCore (" + ProgramVersion + "). supported are [" +
    Join(AllowedOptions, ", ") + "]"
  }

  /** The option names `Object.keys` finds, in order. */
  function OptionNames(raw: JsValue): seq<string>
  {
    Keys(ForIn(raw))
  }

  /** One warning per option name outside the supported list, in order. */
  function UnknownOptions(name: string, options: seq<string>): (r: seq<string>)
    ensures |r| <= |options|
    ensures forall k :: k in options && k !in AllowedOptions ==> UnknownOptionWarning(name, k) in r
  {
    if options == [] then []
    else (if options[0] in AllowedOptions then [] else [UnknownOptionWarning(name, options[0])]) + UnknownOptions(name, options[1..])
  }

  /** Supported option names raise no warning. */
  lemma {:induction false} KnownOptionsQuiet(name: string, options: seq<string>)
    requires forall i :: 0 <= i < |options| ==> options[i] in AllowedOptions
    ensures UnknownOptions(name, options) == []
  {
    if options != [] {
      KnownOptionsQuiet(name, options[1..]);
    }
  }

  /**
   * `"text" in entry ? entry.text : ""` on a truthy entry: an object gives its
   * `text` field, whatever its value, or "" without one; an array has no
   * `text` key; the `in` operator throws on any other value.
   */
  function EntryContent(entry: JsValue): Result<JsValue, string>
  {
    match entry
    case Obj(fields) => Ok(Lookup(fields, "text").GetOr(Str("")))
    case List(_) => Ok(Str(""))
    case _ => Err("TypeError: Cannot use 'in' operator to search for 'text' in " + ToStr(entry))
  }

  /** The section-access check on one entry of `addToSectionInTargetScope`; a falsy entry is skipped. */
  function SectionEntryOk(name: string, config: ModuleConfig, e: (string, JsValue)): Result<(), string>
  {
    if !Truthy(e.1) then Ok(())
    else match EntryContent(e.1)
      case Err(msg) => Err(msg)
      case Ok(content) => ValidateSectionAccessOn(name, config, e.0, content)
  }

  /** The section-access check on every entry of `addToSectionInTargetScope`, in order. */
  function SectionEntriesOk(name: string, config: ModuleConfig, entries: seq<(string, JsValue)>): Result<(), string>
  {
    CheckAll(entries, (e: (string, JsValue)) => SectionEntryOk(name, config, e))
  }

  /**
   * An entry whose `text` is a string is checked as that text, and one without
   * `text` as ""; a `text` that is neither a string nor an array fails the
   * check whatever the module type, and a truthy entry that is not an object
   * or an array fails before its section is looked at.
   */
  lemma SectionEntryRules(name: string, config: ModuleConfig, section: string, entry: JsValue)
    ensures entry.Obj? && Lookup(entry.fields, "text").Some? && Lookup(entry.fields, "text").value.Str? ==>
      SectionEntryOk(name, config, (section, entry)) ==
      ValidateModuleSectionAccess(name, config, section, Lookup(entry.fields, "text").value.s)
    ensures entry.Obj? && Lookup(entry.fields, "text").None? ==>
      SectionEntryOk(name, config, (section, entry)) == ValidateModuleSectionAccess(name, config, section, "")
    ensures entry.Obj? && Lookup(entry.fields, "text").Some? &&
            !Lookup(entry.fields, "text").value.Str? && !Lookup(entry.fields, "text").value.List? ==>
      SectionEntryOk(name, config, (section, entry)).Err?
    ensures Truthy(entry) && !entry.Obj? && !entry.List? ==>
      SectionEntryOk(name, config, (section, entry)) ==
      Err("TypeError: Cannot use 'in' operator to search for 'text' in " + ToStr(entry))
  {
    if entry.Obj? {
      UntypedCodeRules(name, config, section, Lookup(entry.fields, "text").GetOr(Str("")));
    }
  }

  /** A numeric `text` in the open section "global" fails with the TypeError of `code.includes`. */
  lemma NumericTextFails(name: string, config: ModuleConfig, n: string)
    ensures SectionEntriesOk(name, config, [("global", Obj([("text", Num(n))]))]) ==
      Err("TypeError: code.includes is not a function")
  {
    assert SectionGate(name, config, "global").Ok?;
    assert SectionEntryOk(name, config, ("global", Obj([("text", Num(n))]))) == Err("TypeError: code.includes is not a function");
  }

  /**
   * `validateRustConfig`: nothing unless the target language is Rust and the
   * module has a config.rs.json; malformed JSON fails; schema issues and
   * unknown options only warn; the section entries and the window sections
   * are then checked against the module's type.
   */
  function RustConfigCheck(inp: Inputs, name: string, config: ModuleConfig): Run<()>
  {
    var text := ReadFile(inp.tree, "modules/" + name + "/config.rs.json");
    if inp.target.lang != "rust" || text.None? || text.value == "" then Run([], Ok(()))
    else match inp.json(text.value)
      case None => Run([], Err("Error parsing config.rs.json for module \"" + name + "\"."))
      case Some(raw) =>
        var schemaWarnings :=
          match inp.langSchema(raw)
          case None => []
          case Some(issues) => ["Module \"" + name + "\": validation of config.rs.json failed:\n" + FormatZodError(issues)];
        var warnings := schemaWarnings + UnknownOptions(name, OptionNames(raw));
        var sections := Get(raw, "addToSectionInTargetScope");
        var sectionCheck := if Truthy(sections) then SectionEntriesOk(name, config, ForIn(sections)) else Ok(());
        if sectionCheck.Err? then Run(warnings, sectionCheck)
        else if Truthy(Get(raw, "addToSectionInWindowTargetScope")) then Run(warnings, ValidateWindowSectionUsage(name, config))
        else Run(warnings, Ok(()))
  }

  /** Schema issues and unknown options never stop validation, they only add warnings. */
  lemma RustConfigWarnsOnly(inp: Inputs, name: string, config: ModuleConfig, text: string, raw: JsValue)
    requires inp.target.lang == "rust" && ReadFile(inp.tree, "modules/" + name + "/config.rs.json") == Some(text) && text != ""
    requires inp.json(text) == Some(raw)
    requires !Truthy(Get(raw, "addToSectionInTargetScope")) && !Truthy(Get(raw, "addToSectionInWindowTargetScope"))
    ensures RustConfigCheck(inp, name, config).result == Ok(())
    ensures |RustConfigCheck(inp, name, config).warnings| == |UnknownOptions(name, OptionNames(raw))| + if inp.langSchema(raw).Some? then 1 else 0
  {
  }

  /** A language config that uses the window sections is refused to every module that is not a rendering module. */
  lemma WindowSectionsNeedRendering(inp: Inputs, name: string, config: ModuleConfig, text: string, raw: JsValue)
    requires inp.target.lang == "rust" && ReadFile(inp.tree, "modules/" + name + "/config.rs.json") == Some(text) && text != ""
    requires inp.json(text) == Some(raw)
    requires !Truthy(Get(raw, "addToSectionInTargetScope")) && Truthy(Get(raw, "addToSectionInWindowTargetScope"))
    ensures RustConfigCheck(inp, name, config).result.Ok? <==> config.moduleType == Rendering
  {
  }

  // ---------------------------------------------------------------------
  // The loop over the modules
  // ---------------------------------------------------------------------

  /** The loop's variables: the two slots and the configs read so far. */
  datatype LoopState = LoopState(slots: Slots, configs: map<string, ModuleConfig>)

  /** One directory entry: folders only; read, validate and record its config, then the platform, slot and language checks. */
  function ModuleStep(inp: Inputs, d: Dirent, st: LoopState): Run<LoopState>
  {
    if !d.isDirectory then Run([], Ok(st))
    else
      var text := ReadFile(inp.tree, "modules/" + d.name + "/config.json");
      if text.None? || text.value == "" then Run([], Err("Module \"" + d.name + "\" Does not have a config.json file."))
      else match ValidateModuleConfig(inp, text.value, d.name)
        case Err(e) => Run([], Err(e))
        case Ok(config) =>
          match ValidatePlatformSupport(config, d.name, inp.target.platform, inp.os)
          case Err(e) => Run([], Err(e))
          case Ok(_) =>
            match CheckModuleUniqueness(config, d.name, st.slots)
            case Err(e) => Run([], Err(e))
            case Ok(slots) =>
              var rust := RustConfigCheck(inp, d.name, config);
              if rust.result.Err? then Run(rust.warnings, Err(rust.result.error))
              else Run(rust.warnings, Ok(LoopState(slots, st.configs[d.name := config])))
  }

  /** The loop from entry `i` on, with the warnings logged so far. */
  function ModulesGo(inp: Inputs, ds: seq<Dirent>, i: nat, st: LoopState, ws: seq<string>): Run<LoopState>
    requires i <= |ds|
    decreases |ds| - i
  {
    if i == |ds| then Run(ws, Ok(st))
    else
      var step := ModuleStep(inp, ds[i], st);
      if step.result.Err? then Run(ws + step.warnings, step.result)
      else ModulesGo(inp, ds, i + 1, step.result.value, ws + step.warnings)
  }

  /** `validateSpecificModule`: the selected module must have a config of the type it was selected for. */
  function ValidateSpecificModule(name: string, expected: ModuleType, config: Option<ModuleConfig>): Result<(), string>
  {
    if config.None? then Err("Configuration for module \"" + name + "\" not found.")
    else if config.value.moduleType != expected then
      Err("The module \"" + name + "\" is not of type " + expected.Name() + ", yet it was used as a module for " + expected.Name() + ".")
    else Ok(())
  }

  function ConfigOf(configs: map<string, ModuleConfig>, name: string): Option<ModuleConfig>
  {
    if name in configs then Some(configs[name]) else None
  }

  /** `validateGlobalModulesConfiguration`: both selected modules, when there are any. */
  function ValidateGlobal(st: LoopState): Result<(), string>
  {
    var _ :- if Occupied(st.slots.windowing) then
      ValidateSpecificModule(st.slots.windowing.value, Windowing, ConfigOf(st.configs, st.slots.windowing.value)) else Ok(());
    if Occupied(st.slots.rendering) then
      ValidateSpecificModule(st.slots.rendering.value, Rendering, ConfigOf(st.configs, st.slots.rendering.value)) else Ok(())
  }

  const StartState := LoopState(Slots(None, None), map[])

  function MissingModulesDir(modulesDir: string): string
  {
    "The \"modules\" directory does not exist in: " + modulesDir
  }

  /** `validateModulesConf`: the folder must exist; then every entry, then the selected modules. */
  function ValidateModulesConf(inp: Inputs, listing: Option<seq<Dirent>>, modulesDir: string): Run<()>
  {
    if listing.None? then Run([], Err(MissingModulesDir(modulesDir)))
    else
      var run := ModulesGo(inp, listing.value, 0, StartState, []);
      if run.result.Err? then Run(run.warnings, Err(run.result.error))
      else Run(run.warnings, ValidateGlobal(run.result.value))
  }

  /** One turn of the loop: a failing entry ends it, a passing one moves it on. */
  lemma ModulesGoStep(inp: Inputs, ds: seq<Dirent>, i: nat, st: LoopState, ws: seq<string>)
    requires i < |ds|
    ensures var step := ModuleStep(inp, ds[i], st);
      ModulesGo(inp, ds, i, st, ws) ==
        if step.result.Err? then Run(ws + step.warnings, step.result)
        else ModulesGo(inp, ds, i + 1, step.result.value, ws + step.warnings)
  {
  }

  /** `logger.warn` for each message in order. */
  method WarnAll(logger: DevLogger, ws: seq<string>)
    modifies logger
    ensures logger.warnings == old(logger.warnings) + ws
  {
    var i := 0;
    while i < |ws|
      invariant 0 <= i <= |ws|
      invariant logger.warnings == old(logger.warnings) + ws[..i]
    {
      logger.WarnText(ws[i]);
      assert ws[..i + 1] == ws[..i] + [ws[i]];
      i := i + 1;
    }
    assert ws[..i] == ws;
  }

  /** One entry of the loop, its warnings logged. */
  method CheckModule(inp: Inputs, d: Dirent, st: LoopState, logger: DevLogger) returns (step: Run<LoopState>)
    modifies logger
    ensures step == ModuleStep(inp, d, st)
    ensures logger.warnings == old(logger.warnings) + step.warnings
  {
    step := ModuleStep(inp, d, st);
    WarnAll(logger, step.warnings);
  }

  /** The validator as the source runs it: two slot variables and a config map updated entry by entry, warnings logged as they arise. */
  method RunValidateModulesConf(inp: Inputs, listing: Option<seq<Dirent>>, modulesDir: string, logger: DevLogger)
    returns (r: Result<(), string>)
    modifies logger
    ensures r == ValidateModulesConf(inp, listing, modulesDir).result
    ensures logger.warnings == old(logger.warnings) + ValidateModulesConf(inp, listing, modulesDir).warnings
  {
    if listing.None? {
      return Err(MissingModulesDir(modulesDir));
    }
    var ds := listing.value;
    var windowing: Option<string> := None;
    var rendering: Option<string> := None;
    var configs: map<string, ModuleConfig> := map[];
    ghost var w0 := logger.warnings;
    ghost var ws: seq<string> := [];
    var i := 0;
    while i < |ds|
      invariant 0 <= i <= |ds|
      invariant logger.warnings == w0 + ws
      invariant ModulesGo(inp, ds, i, LoopState(Slots(windowing, rendering), configs), ws) == ModulesGo(inp, ds, 0, StartState, [])
    {
      ModulesGoStep(inp, ds, i, LoopState(Slots(windowing, rendering), configs), ws);
      var step := CheckModule(inp, ds[i], LoopState(Slots(windowing, rendering), configs), logger);
      ConcatAssoc(w0, ws, step.warnings);
      ws := ws + step.warnings;
      if step.result.Err? {
        return Err(step.result.error);
      }
      windowing := step.result.value.slots.windowing;
      rendering := step.result.value.slots.rendering;
      configs := step.result.value.configs;
      i := i + 1;
    }
    r := ValidateGlobal(LoopState(Slots(windowing, rendering), configs));
  }

  // ---------------------------------------------------------------------
  // What the loop guarantees
  // ---------------------------------------------------------------------

  /** Directory entries have distinct, non-empty names. */
  predicate ProperListing(ds: seq<Dirent>)
  {
    (forall i :: 0 <= i < |ds| ==> ds[i].name != "") &&
    (forall i, j :: 0 <= i < j < |ds| ==> ds[i].name != ds[j].name)
  }

  /** Each slot names a recorded module of its type, and a recorded module of that type is the one in the slot. */
  predicate SlotsAgree(st: LoopState)
  {
    (st.slots.windowing.Some? ==> st.slots.windowing.value in st.configs && st.configs[st.slots.windowing.value].moduleType == Windowing) &&
    (st.slots.rendering.Some? ==> st.slots.rendering.value in st.configs && st.configs[st.slots.rendering.value].moduleType == Rendering) &&
    (forall n :: n in st.configs && st.configs[n].moduleType == Windowing ==> st.slots.windowing == Some(n)) &&
    (forall n :: n in st.configs && st.configs[n].moduleType == Rendering ==> st.slots.rendering == Some(n))
  }

  /** Every recorded name is non-empty and is the name of an entry before `i`. */
  predicate RecordedBefore(ds: seq<Dirent>, i: nat, st: LoopState)
    requires i <= |ds|
  {
    forall n :: n in st.configs ==> n != "" && exists k :: 0 <= k < i && ds[k].name == n
  }

  /** One step keeps the slots in agreement with the configs, for a name not yet recorded. */
  lemma StepKeepsSlots(inp: Inputs, d: Dirent, st: LoopState)
    requires SlotsAgree(st) && d.name != "" && d.name !in st.configs
    requires forall n :: n in st.configs ==> n != ""
    requires ModuleStep(inp, d, st).result.Ok?
    ensures SlotsAgree(ModuleStep(inp, d, st).result.value)
  {
    if d.isDirectory {
      var config := ValidateModuleConfig(inp, ReadFile(inp.tree, "modules/" + d.name + "/config.json").value, d.name).value;
      var slots := CheckModuleUniqueness(config, d.name, st.slots).value;
      var st' := LoopState(slots, st.configs[d.name := config]);
      assert ModuleStep(inp, d, st).result.value == st';
      RecordKeepsSlots(st, d.name, config, slots);
    }
  }

  /** Recording a new module whose slot check passed keeps the slots in agreement with the configs. */
  lemma RecordKeepsSlots(st: LoopState, name: string, config: ModuleConfig, slots: Slots)
    requires SlotsAgree(st) && name != "" && name !in st.configs
    requires forall n :: n in st.configs ==> n != ""
    requires CheckModuleUniqueness(config, name, st.slots) == Ok(slots)
    ensures SlotsAgree(LoopState(slots, st.configs[name := config]))
  {
  }

  /** The loop from `i` on ends, if it succeeds, with slots in agreement with the configs. */
  lemma {:induction false} ModulesGoKeepsSlots(inp: Inputs, ds: seq<Dirent>, i: nat, st: LoopState, ws: seq<string>)
    requires i <= |ds| && ProperListing(ds)
    requires SlotsAgree(st) && RecordedBefore(ds, i, st)
    requires ModulesGo(inp, ds, i, st, ws).result.Ok?
    ensures SlotsAgree(ModulesGo(inp, ds, i, st, ws).result.value)
    decreases |ds| - i
  {
    if i < |ds| {
      var step := ModuleStep(inp, ds[i], st);
      assert step.result.Ok?;
      assert ds[i].name !in st.configs by {
        forall n | n in st.configs ensures n != ds[i].name {
          var k :| 0 <= k < i && ds[k].name == n;
        }
      }
      StepKeepsSlots(inp, ds[i], st);
      var st' := step.result.value;
      assert st'.configs.Keys <= st.configs.Keys + {ds[i].name};
      assert RecordedBefore(ds, i + 1, st') by {
        forall n | n in st'.configs ensures n != "" && exists k :: 0 <= k < i + 1 && ds[k].name == n {
          if n != ds[i].name {
            var k :| 0 <= k < i && ds[k].name == n;
          }
        }
      }
      ModulesGoKeepsSlots(inp, ds, i + 1, st', ws + step.warnings);
    }
  }

  /** Once every module validated, the check of the two selected modules cannot fail. */
  lemma GlobalCheckPasses(inp: Inputs, ds: seq<Dirent>, modulesDir: string)
    requires ProperListing(ds)
    requires ModulesGo(inp, ds, 0, StartState, []).result.Ok?
    ensures ValidateModulesConf(inp, Some(ds), modulesDir).result == Ok(())
  {
    ModulesGoKeepsSlots(inp, ds, 0, StartState, []);
  }

  /** A validated set of modules has at most one windowing and at most one rendering module. */
  lemma AtMostOneOfEach(inp: Inputs, ds: seq<Dirent>, n: string, m: string)
    requires ProperListing(ds)
    requires ModulesGo(inp, ds, 0, StartState, []).result.Ok?
    ensures var configs := ModulesGo(inp, ds, 0, StartState, []).result.value.configs;
      (n in configs && m in configs && configs[n].moduleType == configs[m].moduleType &&
       configs[n].moduleType in {Windowing, Rendering}) ==> n == m
  {
    ModulesGoKeepsSlots(inp, ds, 0, StartState, []);
  }
}
