/**
 * The checks of the project's own config.json
 * (src/services/configuration/validateProjectConf.ts): present, not blank,
 * valid JSON, accepted by the schema, supporting the target platform and
 * language, and naming entry points that exist in the unpacked tree.
 * `JSON.parse` and the schema are oracles.
 */
module ValidateProject {
  import opened Wrappers
  import opened Js
  import opened JsText
  import opened Config
  import opened ConfigUtils
  import Catalog

  /** `getFileContent` on the unpacked tree. */
  function ReadFile(tree: Catalog.FsNode, path: string): Option<string>
  {
    Catalog.FileAt(tree, Catalog.NormalizeVirtualPath(path))
  }

  const ConfigNotFound := "Project configuration \"config.json\" not found."
  const ConfigEmpty := "Project configuration \"config.json\" is empty."
  const ConfigUnparsable := "Error while parsing \"config.json\"."

  function MissingEntryPoint(e: string): string
  {
    "Entry point file \"" + e + "\" specified in \"config.json\" does not exist."
  }

  /** The entry-point loop: every entry point must name a file. */
  function CheckEntryPoints(tree: Catalog.FsNode, entries: seq<string>): Result<(), string>
  {
    CheckAll(entries, (e: string) => if ReadFile(tree, e).None? then Err(MissingEntryPoint(e)) else Ok(()))
  }

  /** `validateProjectConf`. */
  function ValidateProjectConf(tree: Catalog.FsNode, json: string -> Option<JsValue>,
                               schema: JsValue -> Result<ProjectConf, seq<Issue>>, target: Target): Result<(), string>
  {
    var text := ReadFile(tree, "config.json");
    if text.None? || text.value == "" then Err(ConfigNotFound)
    else if Trim(text.value) == "" then Err(ConfigEmpty)
    else if json(text.value).None? then Err(ConfigUnparsable)
    else match schema(json(text.value).value)
      case Err(issues) => Err("Project configuration validation errors:\n" + FormatZodError(issues))
      case Ok(config) => CheckAccepted(tree, target, config)
  }

  /** The checks after the schema: the target platform, the target language, then the entry points. */
  function CheckAccepted(tree: Catalog.FsNode, target: Target, config: ProjectConf): Result<(), string>
  {
    if target.platform != "default" && target.platform !in config.targetPlatforms then
      Err("The project does not support the target platform: \"" + target.platform + "\". Supported platforms: " +
          Join(config.targetPlatforms, ", "))
    else if target.lang !in config.targetLanguages then
      Err("The project does not support the target language: \"" + target.lang + "\". Supported languages: " +
          Join(config.targetLanguages, ", "))
    else CheckEntryPoints(tree, config.entryPoints)
  }

  /** A missing config fails as not found, a blank one as empty. */
  lemma MissingOrBlankConfig(tree: Catalog.FsNode, json: string -> Option<JsValue>,
                             schema: JsValue -> Result<ProjectConf, seq<Issue>>, target: Target)
    ensures ReadFile(tree, "config.json").None? ==> ValidateProjectConf(tree, json, schema, target) == Err(ConfigNotFound)
    ensures ReadFile(tree, "config.json").Some? && ReadFile(tree, "config.json").value != "" &&
            AllWhitespace(ReadFile(tree, "config.json").value) ==>
      ValidateProjectConf(tree, json, schema, target) == Err(ConfigEmpty)
  {
    if ReadFile(tree, "config.json").Some? {
      TrimEmptyIffBlank(ReadFile(tree, "config.json").value);
    }
  }

  /**
   * A config the schema accepts passes exactly when the target platform is
   * "default" or listed, the target language is listed, and every entry
   * point is a file of the tree.
   */
  lemma AcceptedConfigRules(tree: Catalog.FsNode, json: string -> Option<JsValue>,
                            schema: JsValue -> Result<ProjectConf, seq<Issue>>, target: Target, text: string, config: ProjectConf)
    requires ReadFile(tree, "config.json") == Some(text) && !AllWhitespace(text)
    requires json(text).Some? && schema(json(text).value) == Ok(config)
    ensures ValidateProjectConf(tree, json, schema, target).Ok? <==>
      (target.platform == "default" || target.platform in config.targetPlatforms) &&
      target.lang in config.targetLanguages &&
      forall i :: 0 <= i < |config.entryPoints| ==> ReadFile(tree, config.entryPoints[i]).Some?
  {
    TrimEmptyIffBlank(text);
    assert ValidateProjectConf(tree, json, schema, target) == CheckAccepted(tree, target, config);
    EntryPointsPresent(tree, config.entryPoints);
  }

  /** The entry-point loop passes exactly when every entry point names a file. */
  lemma EntryPointsPresent(tree: Catalog.FsNode, entries: seq<string>)
    ensures CheckEntryPoints(tree, entries).Ok? <==> forall i :: 0 <= i < |entries| ==> ReadFile(tree, entries[i]).Some?
  {
    var check := (e: string) => if ReadFile(tree, e).None? then Err(MissingEntryPoint(e)) else Ok(());
    assert forall i :: 0 <= i < |entries| ==> (check(entries[i]).Ok? <==> ReadFile(tree, entries[i]).Some?);
  }

  /** The first entry point that is not a file is the one reported. */
  lemma FirstMissingEntryPoint(tree: Catalog.FsNode, entries: seq<string>, k: nat)
    requires k < |entries| && ReadFile(tree, entries[k]).None?
    requires forall j :: 0 <= j < k ==> ReadFile(tree, entries[j]).Some?
    ensures CheckEntryPoints(tree, entries) == Err(MissingEntryPoint(entries[k]))
  {
    CheckAllFirstError(entries, (e: string) => if ReadFile(tree, e).None? then Err(MissingEntryPoint(e)) else Ok(()), k);
  }
}
