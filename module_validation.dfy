/**
 * Which modules may write to which section of the target scope
 * (src/utils/moduleValidation.ts): the seven section names, the module type
 * some of them demand, and the window placeholders only rendering modules
 * may use.
 */
module ModuleValidation {
  import opened Wrappers
  import opened JsText
  import opened Js
  import opened Config
  import opened ConfigUtils

  /** The module type a section demands, if any. */
  function RequiredType(section: string): (r: Option<ModuleType>)
    ensures section in {"stateRender", "eventRender"} <==> r == Some(Rendering)
    ensures section in {"stateApp", "eventOS", "eventLoop"} <==> r == Some(Windowing)
    ensures r.Some? ==> section in SectionKeys && section !in {"global", "preUser"}
  {
    if section == "stateRender" || section == "eventRender" then Some(Rendering)
    else if section == "stateApp" || section == "eventOS" || section == "eventLoop" then Some(Windowing)
    else None
  }

  /** The text of a window placeholder, `${key}`. */
  function Placeholder(key: string): string
  {
    "${" + key + "}"
  }

  /** The error for a window placeholder in the code of a module that is not a rendering module. */
  function PlaceholderRefused(moduleName: string, config: ModuleConfig, key: string): string
  {
    "Module \"" + moduleName + "\" of type \"" + config.moduleType.Name() +
    "\" is not allowed to use WindowSectionKey \"" + Placeholder(key) + "\". Only \"rendering\" modules can."
  }

  /** The placeholder check for one window key. */
  function PlaceholderCheck(moduleName: string, config: ModuleConfig, code: string): string -> Result<(), string>
  {
    (key: string) =>
      if Includes(code, Placeholder(key)) && config.moduleType != Rendering then Err(PlaceholderRefused(moduleName, config, key))
      else Ok(())
  }

  /** The two checks before the code is read: a known section, and the module type it demands. */
  function SectionGate(moduleName: string, config: ModuleConfig, section: string): (r: Result<(), string>)
    ensures r.Ok? <==> section in SectionKeys && (RequiredType(section).Some? ==> config.moduleType == RequiredType(section).value)
  {
    if section !in SectionKeys then
      Err("Module \"" + moduleName + "\" tried to use an unknown section: \"" + section + "\". Valid sections are: " +
          Join(SectionKeys, ", "))
    else if RequiredType(section).Some? && config.moduleType != RequiredType(section).value then
      Err("Module \"" + moduleName + "\" of type \"" + config.moduleType.Name() + "\" is not allowed to use section \"" +
          section + "\". Only \"" + RequiredType(section).value.Name() + "\" modules can.")
    else Ok(())
  }

  /** `validateModuleSectionAccess`: a known section, the module type it demands, and window placeholders only in rendering modules. */
  function ValidateModuleSectionAccess(moduleName: string, config: ModuleConfig, section: string, code: string): Result<(), string>
  {
    if SectionGate(moduleName, config, section).Err? then SectionGate(moduleName, config, section)
    else CheckAll(WindowSectionKeys, PlaceholderCheck(moduleName, config, code))
  }

  /** Access is granted exactly for a known section, the type it demands, and no window placeholder outside rendering modules. */
  lemma SectionAccessRules(moduleName: string, config: ModuleConfig, section: string, code: string)
    ensures ValidateModuleSectionAccess(moduleName, config, section, code).Ok? <==>
      section in SectionKeys &&
      (RequiredType(section).Some? ==> config.moduleType == RequiredType(section).value) &&
      (config.moduleType == Rendering || forall k :: k in WindowSectionKeys ==> !Includes(code, Placeholder(k)))
  {
    var check := PlaceholderCheck(moduleName, config, code);
    if section in SectionKeys && (RequiredType(section).Some? ==> config.moduleType == RequiredType(section).value) {
      if config.moduleType != Rendering && CheckAll(WindowSectionKeys, check).Ok? {
        forall k | k in WindowSectionKeys ensures !Includes(code, Placeholder(k)) {
          var i :| 0 <= i < |WindowSectionKeys| && WindowSectionKeys[i] == k;
          assert check(WindowSectionKeys[i]).Ok?;
        }
      }
    }
  }

  /** global and preUser are open to every module type. */
  lemma OpenSections(moduleName: string, config: ModuleConfig, section: string)
    requires section in {"global", "preUser"}
    ensures ValidateModuleSectionAccess(moduleName, config, section, "") == Ok(())
  {
    forall k | k in WindowSectionKeys ensures !Includes("", Placeholder(k)) {
    }
    SectionAccessRules(moduleName, config, section, "");
  }

  /** Code naming a window placeholder is refused to every module that is not a rendering module. */
  lemma PlaceholderNeedsRendering(moduleName: string, config: ModuleConfig, section: string, a: string, key: string, b: string)
    requires key in WindowSectionKeys && config.moduleType != Rendering
    ensures ValidateModuleSectionAccess(moduleName, config, section, a + Placeholder(key) + b).Err?
  {
    IncludesMiddle(a, Placeholder(key), b);
    SectionAccessRules(moduleName, config, section, a + Placeholder(key) + b);
  }

  /**
   * The placeholder check when `code` holds an array of strings:
   * `Array.prototype.includes` looks for an element equal to the placeholder.
   */
  function ListPlaceholderCheck(moduleName: string, config: ModuleConfig, items: seq<string>): string -> Result<(), string>
  {
    (key: string) =>
      if Placeholder(key) in items && config.moduleType != Rendering then Err(PlaceholderRefused(moduleName, config, key))
      else Ok(())
  }

  /** What `code.includes` raises when `code` is neither a string nor an array. */
  function IncludesError(code: JsValue): string
  {
    match code
    case Undefined => "TypeError: Cannot read properties of undefined (reading 'includes')"
    case Null => "TypeError: Cannot read properties of null (reading 'includes')"
    case _ => "TypeError: code.includes is not a function"
  }

  /**
   * `validateModuleSectionAccess` as JavaScript runs it when its caller
   * passes an arbitrary value as `code`: a string is checked as text, an
   * array element by element, and any other value throws once the section
   * checks have passed.
   */
  function ValidateSectionAccessOn(moduleName: string, config: ModuleConfig, section: string, code: JsValue): Result<(), string>
  {
    if code.Str? then ValidateModuleSectionAccess(moduleName, config, section, code.s)
    else if SectionGate(moduleName, config, section).Err? then SectionGate(moduleName, config, section)
    else if code.List? then CheckAll(WindowSectionKeys, ListPlaceholderCheck(moduleName, config, code.items))
    else Err(IncludesError(code))
  }

  /**
   * An array passes exactly when the section checks pass and the module is a
   * rendering module or no element is a window placeholder; any value that is
   * neither a string nor an array fails, with the TypeError once the section
   * checks have passed.
   */
  lemma UntypedCodeRules(moduleName: string, config: ModuleConfig, section: string, code: JsValue)
    ensures code.Str? ==>
      ValidateSectionAccessOn(moduleName, config, section, code) == ValidateModuleSectionAccess(moduleName, config, section, code.s)
    ensures code.List? ==> (ValidateSectionAccessOn(moduleName, config, section, code).Ok? <==>
      section in SectionKeys &&
      (RequiredType(section).Some? ==> config.moduleType == RequiredType(section).value) &&
      (config.moduleType == Rendering || forall k :: k in WindowSectionKeys ==> Placeholder(k) !in code.items))
    ensures !code.Str? && !code.List? ==> ValidateSectionAccessOn(moduleName, config, section, code).Err?
    ensures !code.Str? && !code.List? && SectionGate(moduleName, config, section).Ok? ==>
      ValidateSectionAccessOn(moduleName, config, section, code) == Err(IncludesError(code))
  {
    if code.List? && SectionGate(moduleName, config, section).Ok? {
      var check := ListPlaceholderCheck(moduleName, config, code.items);
      if config.moduleType != Rendering && CheckAll(WindowSectionKeys, check).Ok? {
        forall k | k in WindowSectionKeys ensures Placeholder(k) !in code.items {
          var i :| 0 <= i < |WindowSectionKeys| && WindowSectionKeys[i] == k;
          assert check(WindowSectionKeys[i]).Ok?;
        }
      }
    }
  }

  /** `validateWindowSectionUsage`: only rendering modules may write to the window sections. */
  function ValidateWindowSectionUsage(moduleName: string, config: ModuleConfig): (r: Result<(), string>)
    ensures r.Ok? <==> config.moduleType == Rendering
  {
    if config.moduleType != Rendering then
      Err("Module \"" + moduleName + "\" of type \"" + config.moduleType.Name() +
          "\" is not allowed to use \"addToSectionInWindowTargetScope\". Only \"rendering\" modules can.")
    else Ok(())
  }
}
