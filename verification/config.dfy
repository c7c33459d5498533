/**
 * The configuration profile store: a directory of `<name>.json` files and a
 * `current-config.txt` file naming the active profile, with a fallback to
 * the `JENKINS_URL`/`JENKINS_USER`/`JENKINS_TOKEN` environment variables.
 */
module Config {
  import opened Wrappers
  import opened Strings
  import opened Seqs

  datatype Preferences = Preferences(editor: Option<string>, logViewer: Option<string>, downloadLogsDir: Option<string>)

  /** One Jenkins server profile. */
  datatype JenkinsConfig = JenkinsConfig(
    name: string, url: string, username: string, token: string,
    description: Option<string>, preferences: Option<Preferences>)

  const Extension: string := ".json"

  /** The file a profile is stored in. */
  function ConfigFileName(name: string): (r: string)
    ensures EndsWith(r, Extension) && |r| == |name| + |Extension|
  {
    name + Extension
  }

  /** Different profiles live in different files. */
  lemma ConfigFileNameInjective(a: string, b: string)
    requires ConfigFileName(a) == ConfigFileName(b)
    ensures a == b
  {
    assert a == ConfigFileName(a)[..|a|];
  }

  // ---------------------------------------------------------------------------
  // Listing the directory

  predicate IsConfigFile(entry: string) {
    EndsWith(entry, Extension)
  }

  /** `file.replace('.json', '')`: the first occurrence of `.json` is removed, wherever it is. */
  function ListedName(entry: string): string {
    ReplaceFirst(entry, Extension, "")
  }

  /**
   * `listConfigs`: the directory entries ending in `.json`, in directory order, each with its
   * first `.json` removed; `[]` when the directory cannot be read (`entries == None`).
   */
  function ListConfigs(entries: Option<seq<string>>): (r: seq<string>)
    ensures entries.None? ==> r == []
    ensures entries.Some? ==> |r| <= |entries.value|
  {
    match entries
    case None => []
    case Some(es) => Map(Filter(es, IsConfigFile), ListedName)
  }

  /** Listing two runs of entries, one after the other, lists each run in turn. */
  lemma ListConfigsConcat(a: seq<string>, b: seq<string>)
    ensures ListConfigs(Some(a + b)) == ListConfigs(Some(a)) + ListConfigs(Some(b))
  {
    FilterConcat(a, b, IsConfigFile);
    MapConcat(Filter(a, IsConfigFile), Filter(b, IsConfigFile), ListedName);
  }

  /** One entry is listed, with its first `.json` removed, exactly when it ends in `.json`. */
  lemma ListConfigsSingle(e: string)
    ensures ListConfigs(Some([e])) == if IsConfigFile(e) then [ListedName(e)] else []
  {
    assert [e][1..] == [];
  }

  /** `.json` occurs in `entry` only as its final five characters. */
  predicate ExtensionOnlyAtEnd(entry: string) {
    forall j :: 0 <= j < |entry| - |Extension| ==> !StartsWith(entry[j..], Extension)
  }

  /** For an ordinary profile name, the listed name is the name the profile was saved under. */
  lemma ListedNameOfFile(name: string)
    requires ExtensionOnlyAtEnd(ConfigFileName(name))
    ensures ListedName(ConfigFileName(name)) == name
  {
    var file := ConfigFileName(name);
    forall j | 0 <= j < |name|
      ensures !StartsWith((name + Extension)[j..], Extension)
    {
    }
    ReplaceFirstSkip(name, Extension, Extension, "");
    assert StartsWith(Extension, Extension);
    assert Extension[|Extension|..] == "";
  }

  /** A profile name without a dot is listed as it was saved. */
  lemma DotFreeListed(name: string, file: string)
    requires '.' !in name && file == ConfigFileName(name)
    ensures ListedName(file) == name
  {
    forall j | 0 <= j < |file| - |Extension|
      ensures !StartsWith(file[j..], Extension)
    {
      assert file[j] == name[j];
      assert name[j] in name;
    }
    ListedNameOfFile(name);
  }

  /** Three profile files followed by two other entries list the three profiles. */
  lemma ListThenSkip(a: string, b: string, c: string, x: string, y: string)
    requires IsConfigFile(a) && IsConfigFile(b) && IsConfigFile(c)
    requires !IsConfigFile(x) && !IsConfigFile(y)
    ensures ListConfigs(Some([a, b, c, x, y])) == [ListedName(a), ListedName(b), ListedName(c)]
  {
    assert Filter([x, y], IsConfigFile) == [] by {
      assert [x, y][1..] == [y];
      assert [y][1..] == [];
    }
    FilterAll([a, b, c], IsConfigFile);
    FilterConcat([a, b, c], [x, y], IsConfigFile);
    assert [a, b, c] + [x, y] == [a, b, c, x, y];
  }

  lemma ProductionListed()
    ensures ListedName("production.json") == "production"
  {
    DotFreeListed("production", "production.json");
  }

  lemma StagingListed()
    ensures ListedName("staging.json") == "staging"
  {
    DotFreeListed("staging", "staging.json");
  }

  lemma DevelopmentListed()
    ensures ListedName("development.json") == "development"
  {
    DotFreeListed("development", "development.json");
  }

  /** A directory with three profiles, a dot file and a read-me lists the three profiles. */
  lemma ListConfigsFixture()
    ensures ListConfigs(Some(["production.json", "staging.json", "development.json", ".current", "README.md"]))
         == ["production", "staging", "development"]
  {
    ProductionListed();
    StagingListed();
    DevelopmentListed();
    ListThenSkip("production.json", "staging.json", "development.json", ".current", "README.md");
  }

  /** A profile whose name contains `.json` is listed under another name. */
  lemma ListedNameMangles()
    ensures ConfigFileName("x.jsonb") == "x.jsonb.json"
    ensures ListedName("x.jsonb.json") == "xb.json"
  {
    var s := "x.jsonb.json";
    assert !StartsWith(s, Extension) by { assert s[0] != Extension[0]; }
    assert s[1..] == ".jsonb.json";
    assert StartsWith(s[1..], Extension) by { assert s[1..][..5] == Extension; }
    assert s[1..][5..] == "b.json";
  }

  /** The evidently intended naming: the trailing `.json` is cut off. */
  function ProfileName(entry: string): (r: string)
    ensures IsConfigFile(entry) ==> ConfigFileName(r) == entry
  {
    if IsConfigFile(entry) then entry[..|entry| - |Extension|] else entry
  }

  /** Every profile is listed under the name it was saved under. */
  lemma ProfileNameOfFile(name: string)
    ensures ProfileName(ConfigFileName(name)) == name
  {
    assert ConfigFileName(name)[..|name|] == name;
  }

  /** `listConfigs` with the trailing extension cut off instead of the first one. */
  function ListProfiles(entries: Option<seq<string>>): (r: seq<string>)
    ensures entries.None? ==> r == []
  {
    match entries
    case None => []
    case Some(es) => Map(Filter(es, IsConfigFile), ProfileName)
  }

  /** Each listed profile can be looked up in the directory it was listed from. */
  lemma ListProfilesFindsFiles(entries: seq<string>, i: nat)
    requires i < |ListProfiles(Some(entries))|
    ensures ConfigFileName(ListProfiles(Some(entries))[i]) in entries
  {
    var files := Filter(entries, IsConfigFile);
    FilterMembers(entries, IsConfigFile);
    assert files[i] in entries && IsConfigFile(files[i]);
  }

  /** The source's listing and the intended one agree unless some name contains `.json`. */
  lemma ListingsAgree(entries: seq<string>)
    requires forall e :: e in entries && IsConfigFile(e) ==> ExtensionOnlyAtEnd(e)
    ensures ListConfigs(Some(entries)) == ListProfiles(Some(entries))
  {
    var files := Filter(entries, IsConfigFile);
    FilterMembers(entries, IsConfigFile);
    forall i | 0 <= i < |files|
      ensures ListedName(files[i]) == ProfileName(files[i])
    {
      var name := ProfileName(files[i]);
      assert files[i] in entries && IsConfigFile(files[i]);
      assert ConfigFileName(name) == files[i];
      ListedNameOfFile(name);
    }
  }

  // ---------------------------------------------------------------------------
  // The current-config file

  /** `getCurrentConfig` on the current-config file's content: trimmed, and `None` when missing or blank. */
  function CurrentOf(currentFile: Option<string>): (r: Option<string>)
    ensures r.None? <==> currentFile.None? || forall k :: 0 <= k < |currentFile.value| ==> IsWhitespace(currentFile.value[k])
    ensures r.Some? ==> r.value != "" && Trim(r.value) == r.value
  {
    match currentFile
    case None => None
    case Some(content) =>
      TrimEmpty(content);
      TrimIdempotent(content);
      var name := Trim(content);
      if name == "" then None else Some(name)
  }

  /** A name without surrounding white space reads back as written. */
  lemma CurrentOfWritten(name: string)
    requires name != "" && Trim(name) == name
    ensures CurrentOf(Some(name)) == Some(name)
  {
  }

  /** A name written with surrounding white space reads back trimmed. */
  lemma CurrentOfPadded()
    ensures CurrentOf(Some(" prod\n")) == Some("prod")
    ensures CurrentOf(Some("  ")) == None
  {
    assert TrimStart(" prod\n") == "prod\n" by { assert " prod\n"[1..] == "prod\n"; }
    assert TrimEnd("prod\n") == "prod" by { assert "prod\n"[..4] == "prod"; }
    assert TrimStart("  ") == "" by { assert "  "[1..] == " "; assert " "[1..] == ""; }
  }

  // ---------------------------------------------------------------------------
  // The store

  /** `ConfigManagerImpl` over its two pieces of disk state. */
  class ConfigManager {
    /** The `configs` directory: file name to content. */
    var files: map<string, string>
    /** The content of `current-config.txt`, `None` when the file does not exist. */
    var currentFile: Option<string>
    /** `JSON.parse` as a partial function: `None` for content that does not parse. */
    const parse: string -> Option<JenkinsConfig>
    /** `JSON.stringify(config, null, 2)`. */
    const stringify: JenkinsConfig -> string

    constructor (files: map<string, string>, currentFile: Option<string>,
                 parse: string -> Option<JenkinsConfig>, stringify: JenkinsConfig -> string)
      ensures this.files == files && this.currentFile == currentFile
      ensures this.parse == parse && this.stringify == stringify
    {
      this.files := files;
      this.currentFile := currentFile;
      this.parse := parse;
      this.stringify := stringify;
    }

    /** `loadConfig`: `None` when the file is absent or its content does not parse. */
    function LoadConfig(name: string): (r: Option<JenkinsConfig>)
      reads this
      ensures r.Some? ==> ConfigFileName(name) in files && parse(files[ConfigFileName(name)]) == r
      ensures ConfigFileName(name) in files ==> r == parse(files[ConfigFileName(name)])
      ensures ConfigFileName(name) !in files ==> r.None?
    {
      var file := ConfigFileName(name);
      if file in files then parse(files[file]) else None
    }

    /** `getCurrentConfig`. */
    function CurrentConfig(): (r: Option<string>)
      reads this
      ensures r.Some? ==> currentFile.Some? && r.value == Trim(currentFile.value)
    {
      CurrentOf(currentFile)
    }

    /** `getActiveConfig`: the profile the current-config file names, if it loads. */
    function GetActiveConfig(): (r: Option<JenkinsConfig>)
      reads this
      ensures r.Some? ==> currentFile.Some? && ConfigFileName(Trim(currentFile.value)) in files
      ensures CurrentConfig().None? ==> r.None?
      ensures CurrentConfig().Some? ==> r == LoadConfig(CurrentConfig().value)
    {
      match CurrentConfig()
      case None => None
      case Some(name) => LoadConfig(name)
    }

    /** `saveConfig`: (over)writes one file; nothing else changes. */
    method SaveConfig(config: JenkinsConfig)
      modifies this
      ensures files == old(files)[ConfigFileName(config.name) := stringify(config)]
      ensures currentFile == old(currentFile)
      ensures parse(stringify(config)) == Some(config) ==> LoadConfig(config.name) == Some(config)
      ensures forall n :: n != config.name ==> LoadConfig(n) == old(LoadConfig(n))
    {
      files := files[ConfigFileName(config.name) := stringify(config)];
      forall n | n != config.name
        ensures LoadConfig(n) == old(LoadConfig(n))
      {
        if ConfigFileName(n) == ConfigFileName(config.name) {
          ConfigFileNameInjective(n, config.name);
        }
      }
    }

    /**
     * `deleteConfig`: `false` and no change for a missing profile; otherwise the file is removed,
     * and the current-config file is removed too when it names this profile.
     */
    method DeleteConfig(name: string) returns (deleted: bool)
      modifies this
      ensures deleted <==> ConfigFileName(name) in old(files)
      ensures !deleted ==> files == old(files) && currentFile == old(currentFile)
      ensures deleted ==> files == old(files) - {ConfigFileName(name)}
      ensures currentFile == if deleted && old(CurrentConfig()) == Some(name) then None else old(currentFile)
      ensures LoadConfig(name) == None
      ensures forall n :: n != name ==> LoadConfig(n) == old(LoadConfig(n))
    {
      var file := ConfigFileName(name);
      if file !in files {
        return false;
      }
      files := files - {file};
      var current := CurrentConfig();
      if current == Some(name) {
        currentFile := None;
      }
      forall n | n != name
        ensures LoadConfig(n) == old(LoadConfig(n))
      {
        if ConfigFileName(n) == file {
          ConfigFileNameInjective(n, name);
        }
      }
      return true;
    }

    /** `setCurrentConfig`: the current-config file is written only when the profile loads. */
    method SetCurrentConfig(name: string) returns (ok: bool)
      modifies this
      ensures ok <==> old(LoadConfig(name)).Some?
      ensures files == old(files)
      ensures currentFile == if ok then Some(name) else old(currentFile)
      ensures ok && name != "" && Trim(name) == name ==> GetActiveConfig() == LoadConfig(name)
    {
      var config := LoadConfig(name);
      if config.None? {
        return false;
      }
      currentFile := Some(name);
      if name != "" && Trim(name) == name {
        CurrentOfWritten(name);
      }
      return true;
    }
  }

  /**
   * Listing the store's own directory: every listed profile has its file in the store, and
   * loading it parses that file.
   */
  lemma ListedProfileLoads(manager: ConfigManager, entries: seq<string>, i: nat)
    requires forall e :: e in entries ==> e in manager.files
    requires i < |ListProfiles(Some(entries))|
    ensures ConfigFileName(ListProfiles(Some(entries))[i]) in manager.files
    ensures manager.LoadConfig(ListProfiles(Some(entries))[i])
         == manager.parse(manager.files[ConfigFileName(ListProfiles(Some(entries))[i])])
  {
    ListProfilesFindsFiles(entries, i);
  }

  // ---------------------------------------------------------------------------
  // Choosing the configuration to use

  /** The three environment variables, `None` when unset. */
  datatype Environment = Environment(url: Option<string>, user: Option<string>, token: Option<string>)

  const FallbackName: string := "env-fallback"
  const FallbackDescription: string := "Configuración desde variables de entorno (fallback)"

  /**
   * `getJenkinsConfig`: the active profile when there is one; otherwise a profile built from
   * the environment, but only when all three variables are set and non-empty.
   */
  function GetJenkinsConfig(manager: ConfigManager, env: Environment): (r: Option<JenkinsConfig>)
    reads manager
    ensures manager.GetActiveConfig().Some? ==> r == manager.GetActiveConfig()
    ensures manager.GetActiveConfig().None? ==>
      (r.Some? <==> Truthy(env.url) && Truthy(env.user) && Truthy(env.token))
    ensures manager.GetActiveConfig().None? && r.Some? ==>
      r.value.name == FallbackName && r.value.url == env.url.value
      && r.value.username == env.user.value && r.value.token == env.token.value
  {
    match manager.GetActiveConfig()
    case Some(config) => Some(config)
    case None =>
      if Truthy(env.url) && Truthy(env.user) && Truthy(env.token) then
        Some(JenkinsConfig(FallbackName, env.url.value, env.user.value, env.token.value,
          Some(FallbackDescription), None))
      else None
  }
}
