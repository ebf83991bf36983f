/**
 * The configuration constants of src/schemas/config.ts, the configuration
 * records the validators read once their schemas accepted them, and the
 * target checks at the start of `configuration()` (src/services/configuration/configuration.ts).
 * The target platform, architecture and language come from the environment;
 * here they are a parameter.
 */
module Config {
  import opened Wrappers
  import opened JsText

  const ProgramVersion := "0.0.1"
  const AllowedPlatforms: seq<string> := ["default", "windows", "linux", "web"]
  const AllowedArchs: seq<string> := ["default", "x86", "x64", "arm", "arm64"]
  const AllowedLangs: seq<string> := ["rust"]
  const SectionKeys: seq<string> := ["preUser", "global", "eventLoop", "eventOS", "stateApp", "eventRender", "stateRender"]
  const WindowSectionKeys: seq<string> := ["createWindow", "redrawRequested", "resized"]

  /** The PLATFORM, ARCH and TARGET_LANG settings. */
  datatype Target = Target(platform: string, arch: string, lang: string)

  /** The settings when none is given. */
  const DefaultTarget := Target("default", "default", "rust")

  /** `moduleType` of a module's config.json. */
  datatype ModuleType = Windowing | Rendering | Compilation | DefaultModule
  {
    function Name(): string
    {
      match this
      case Windowing => "windowing"
      case Rendering => "rendering"
      case Compilation => "compilation"
      case DefaultModule => "default"
    }
  }

  /** A module's config.json as ModuleConfigSchema yields it (descriptive fields omitted). */
  datatype ModuleConfig = ModuleConfig(
    version: string,
    engineVersion: string,
    supportedPlatforms: seq<string>,
    supportedLanguages: seq<string>,
    moduleType: ModuleType)

  /** The project's config.json as ProjectConfigSchema yields it (descriptive fields omitted). */
  datatype ProjectConf = ProjectConf(
    name: string,
    version: string,
    engineVersion: string,
    entryPoints: seq<string>,
    targetPlatforms: seq<string>,
    targetLanguages: seq<string>)

  /** The target checks that open `configuration()`: each setting allowed, and an architecture exactly for a non-default platform. */
  function CheckTarget(t: Target): Result<(), string>
  {
    if t.lang !in AllowedLangs then
      Err("Unsupported language: " + t.lang + ". Allowed languages: " + Join(AllowedLangs, ", ") + ".")
    else if t.platform !in AllowedPlatforms then
      Err("Unsupported platform: " + t.platform + ". Allowed platforms: " + Join(AllowedPlatforms, ", ") + ".")
    else if t.arch !in AllowedArchs then
      Err("Unsupported architecture: " + t.arch + ". Allowed architectures: " + Join(AllowedArchs, ", ") + ".")
    else if t.platform != "default" && t.arch == "default" then
      Err("Unspecified architecture for platform \"" + t.platform + "\". Please set ARCH environment variable.")
    else if t.platform == "default" && t.arch != "default" then
      Err("Cannot specify architecture when target platform is 'default'.")
    else Ok(())
  }

  /** A target passes exactly when every setting is allowed and the architecture is default exactly when the platform is. */
  lemma TargetRules(t: Target)
    ensures CheckTarget(t).Ok? <==>
      t.lang in AllowedLangs && t.platform in AllowedPlatforms && t.arch in AllowedArchs &&
      (t.platform == "default" <==> t.arch == "default")
  {
  }

  /** The language check comes first: an unknown language is reported whatever the other settings are. */
  lemma LanguageCheckedFirst(t: Target)
    requires t.lang !in AllowedLangs
    ensures CheckTarget(t) == Err("Unsupported language: " + t.lang + ". Allowed languages: rust.")
  {
    assert Join(AllowedLangs, ", ") == "rust";
    var x := "Unsupported language: " + t.lang;
    assert x + ". Allowed languages: " + "rust" + "." == x + (". Allowed languages: " + "rust" + ".");
    assert ". Allowed languages: " + "rust" + "." == ". Allowed languages: rust.";
  }

  /** The default settings pass. */
  lemma DefaultTargetPasses()
    ensures CheckTarget(DefaultTarget) == Ok(())
  {
  }
}
