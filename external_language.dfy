/**
 * The language registry `LanguageOps`: the same discovery and lookup as the
 * build-system registry, reporting misses as "Unknown language <lang>", with
 * the `toolchain_hash`, `outputs` and `compiler` extension points.
 */
module ExternalLanguage {

  import opened Wrappers
  import opened Host
  import opened Naming
  import opened Discovery

  /** The noun in "Unknown language <lang>". */
  const LanguageNoun: string := "language"

  /** `LanguageRunner::new`: never fails; the hash is the placeholder 0. */
  function NewLanguageRunner(path: PluginPath): (r: Result<Plugin, Error>)
    ensures r.Ok? && r.value.path == path && r.value.hash == 0
  {
    Ok(NewPlugin(path))
  }

  /** `LanguageOps`: the registry of language plugins, fixed once built. */
  class LanguageOps {
    /** Map from language names to their runners. */
    const languages: map<string, Plugin>
    /** The platform whose executable suffix the scan used. */
    const platform: Platform
    /** `closest_msg`: the "did you mean" suffix for an unknown language. */
    const closestMsg: (string, set<string>) -> string
    /** The search directories the registry was built from. */
    ghost const searchPaths: seq<SearchDir>

    ghost predicate Valid() {
      languages == Discover(searchPaths, platform)
    }

    /** The struct literal `LanguageOps { languages }` that ends `LanguageOps::new`. */
    constructor (languages: map<string, Plugin>, ghost searchPaths: seq<SearchDir>, platform: Platform,
                 closestMsg: (string, set<string>) -> string)
      requires languages == Discover(searchPaths, platform)
      ensures Valid()
      ensures this.languages == languages && this.searchPaths == searchPaths
      ensures this.platform == platform && this.closestMsg == closestMsg
    {
      this.languages := languages;
      this.platform := platform;
      this.closestMsg := closestMsg;
      this.searchPaths := searchPaths;
    }

    /**
     * `LanguageOps::new`: scan the search directories in order. It always
     * returns `Ok`: unreadable directories and entries are skipped, and
     * `LanguageRunner::new` never fails, so its `?` inside the scan never fires.
     */
    static method New(searchPaths: seq<SearchDir>, platform: Platform, closestMsg: (string, set<string>) -> string)
      returns (r: Result<LanguageOps, Error>)
      ensures r.Ok?
      ensures fresh(r.value) && r.value.Valid()
      ensures r.value.searchPaths == searchPaths && r.value.platform == platform
      ensures r.value.closestMsg == closestMsg
    {
      var languages := Scan(searchPaths, platform);
      var ops := new LanguageOps(languages, searchPaths, platform, closestMsg);
      r := Ok(ops);
    }

    /** `language_runner`: the registered runner, or "Unknown language <lang>...". */
    function LanguageRunner(lang: string): (r: Result<Plugin, Error>)
      ensures r.Ok? <==> lang in languages
      ensures r.Ok? ==> r.value == languages[lang]
      ensures r.Err? ==> r.error.Unknown? && "Unknown language " + lang <= ErrorText(r.error)
    {
      Lookup(languages, LanguageNoun, lang, closestMsg)
    }

    /** `toolchain_hash`: 0 for every registered language, the lookup error otherwise. */
    function ToolchainHash(lang: string): (r: Result<u64, Error>)
      requires Valid()
      ensures r.Ok? <==> lang in languages
      ensures r.Ok? ==> r.value == 0
      ensures r.Err? ==> r.error == LanguageRunner(lang).error
    {
      DiscoverEntries(searchPaths, platform);
      var runner :- LanguageRunner(lang);
      Ok(runner.hash)
    }

    /** `outputs`: always an empty list; no lookup is made, so an unknown language succeeds too. */
    function Outputs(lang: string, unit: Unit): (r: Result<seq<OutputFile>, Error>)
      ensures r.Ok? && r.value == []
    {
      Ok([])
    }

    /** `compiler`: a command running the registered runner with the single argument "build". */
    function Compiler(lang: string): (r: Result<Command, Error>)
      ensures r.Ok? <==> lang in languages
      ensures r.Ok? ==> r.value.program == languages[lang].path && r.value.args == ["build"]
      ensures r.Err? ==> r.error == LanguageRunner(lang).error
    {
      var runner :- LanguageRunner(lang);
      Ok(Command(runner.path, []).Arg("build"))
    }
  }
}
