/** `ConfigManager`: the store of LLM profiles behind the web UI. Every
    operation loads `config.json`, changes the loaded value and saves it
    back; the file is the `file` field here (`None` when it is missing or
    cannot be parsed). */
module ConfigManager {
  import opened Wrappers

  datatype Provider = OpenAI | Gemini | DeepSeek

  datatype Profile = Profile(
    name: string,
    provider: Provider,
    model: string,
    apiKey: string,
    baseURL: Option<string>,
    temperature: Option<real>,
    maxTokens: Option<int>,
    topP: Option<real>)

  datatype AppConfig = AppConfig(
    defaultProfile: string,
    profiles: seq<Profile>,
    pluginsDir: string,
    outputDir: string)

  /** The parsed file: any field may be missing. */
  datatype StoredConfig = StoredConfig(
    defaultProfile: Option<string>,
    profiles: Option<seq<Profile>>,
    pluginsDir: Option<string>,
    outputDir: Option<string>)

  const DefaultConfig := AppConfig("", [], "/shared/report-framework/plugins", "/shared/report-framework/reports")

  /** `load()`: `{ ...DEFAULT_CONFIG, ...loaded }`, or the defaults when
      there is no readable file. */
  function Loaded(file: Option<StoredConfig>): (c: AppConfig)
    ensures file.None? ==> c == DefaultConfig
    ensures file.Some? ==>
      && c.defaultProfile == file.value.defaultProfile.GetOr(DefaultConfig.defaultProfile)
      && c.profiles == file.value.profiles.GetOr(DefaultConfig.profiles)
      && c.pluginsDir == file.value.pluginsDir.GetOr(DefaultConfig.pluginsDir)
      && c.outputDir == file.value.outputDir.GetOr(DefaultConfig.outputDir)
  {
    match file
    case None => DefaultConfig
    case Some(s) =>
      AppConfig(
        s.defaultProfile.GetOr(DefaultConfig.defaultProfile),
        s.profiles.GetOr(DefaultConfig.profiles),
        s.pluginsDir.GetOr(DefaultConfig.pluginsDir),
        s.outputDir.GetOr(DefaultConfig.outputDir))
  }

  /** `save(config)` writes every field. */
  function Saved(c: AppConfig): StoredConfig {
    StoredConfig(Some(c.defaultProfile), Some(c.profiles), Some(c.pluginsDir), Some(c.outputDir))
  }

  /** What is saved is loaded back unchanged. */
  lemma LoadSaved(c: AppConfig)
    ensures Loaded(Some(Saved(c))) == c
  {
  }

  /** `profiles.findIndex((p) => p.name === name)` */
  function FindIndex(profiles: seq<Profile>, name: string): (i: int)
    ensures -1 <= i < |profiles|
    ensures i == -1 <==> forall j :: 0 <= j < |profiles| ==> profiles[j].name != name
    ensures i >= 0 ==> profiles[i].name == name && forall j :: 0 <= j < i ==> profiles[j].name != name
  {
    if profiles == [] then -1
    else if profiles[0].name == name then 0
    else
      var i := FindIndex(profiles[1..], name);
      assert forall j :: 0 < j < |profiles| ==> profiles[j] == profiles[1..][j - 1];
      if i == -1 then -1 else i + 1
  }

  /** `profiles.find((p) => p.name === name)` */
  function Find(profiles: seq<Profile>, name: string): Option<Profile> {
    var i := FindIndex(profiles, name);
    if i == -1 then None else Some(profiles[i])
  }

  // ---------------------------------------------------------------
  // The transformations of the loaded value
  // ---------------------------------------------------------------

  /** `addProfile`: replace the first profile of that name, or append; a
      lone profile becomes the default. */
  function WithProfile(c: AppConfig, p: Profile): AppConfig {
    var i := FindIndex(c.profiles, p.name);
    var profiles := if i >= 0 then c.profiles[i := p] else c.profiles + [p];
    c.(profiles := profiles,
       defaultProfile := if |profiles| == 1 then p.name else c.defaultProfile)
  }

  /** `removeProfile`: drop the first profile of that name; when it was the
      default, the first remaining profile (or nobody) takes over. */
  function WithoutProfile(c: AppConfig, name: string): Result<AppConfig> {
    var i := FindIndex(c.profiles, name);
    if i == -1 then Err("Profile '" + name + "' not found")
    else
      var profiles := c.profiles[..i] + c.profiles[i + 1..];
      Ok(c.(profiles := profiles,
            defaultProfile :=
              if c.defaultProfile == name then (if |profiles| > 0 then profiles[0].name else "")
              else c.defaultProfile))
  }

  /** `setDefaultProfile`: only a known name can become the default. */
  function WithDefault(c: AppConfig, name: string): Result<AppConfig> {
    if Find(c.profiles, name).None? then Err("Profile '" + name + "' not found")
    else Ok(c.(defaultProfile := name))
  }

  /** `getProfile(name)`: the named profile, else the default one; nothing
      for an empty name. */
  function ProfileOf(c: AppConfig, name: Option<string>): Option<Profile> {
    var profileName := if name.Some? && name.value != "" then name.value else c.defaultProfile;
    if profileName == "" then None else Find(c.profiles, profileName)
  }

  datatype LlmConfig = LlmConfig(
    provider: Provider,
    model: string,
    apiKey: string,
    baseURL: Option<string>,
    temperature: real,
    maxTokens: int,
    topP: real)

  /** The LLM settings of a profile, with the sampling defaults filled in. */
  function LlmConfigOf(p: Profile): LlmConfig {
    LlmConfig(p.provider, p.model, p.apiKey, p.baseURL,
      p.temperature.GetOr(0.7), p.maxTokens.GetOr(4096), p.topP.GetOr(1.0))
  }

  // ---------------------------------------------------------------
  // What the transformations promise
  // ---------------------------------------------------------------

  /** A new name is appended; a known name is replaced in place, nothing
      else moving. Either way the profile is then found under its name. */
  lemma WithProfileShape(c: AppConfig, p: Profile)
    ensures var i := FindIndex(c.profiles, p.name);
      var after := WithProfile(c, p).profiles;
      && (i == -1 ==> after == c.profiles + [p])
      && (i >= 0 ==> (
            && |after| == |c.profiles| && after[i] == p
            && forall j :: 0 <= j < |after| && j != i ==> after[j] == c.profiles[j]))
    ensures Find(WithProfile(c, p).profiles, p.name) == Some(p)
    ensures WithProfile(c, p).pluginsDir == c.pluginsDir && WithProfile(c, p).outputDir == c.outputDir
  {
    var i := FindIndex(c.profiles, p.name);
    var after := WithProfile(c, p).profiles;
    if i == -1 {
      assert after[|c.profiles|] == p;
      assert FindIndex(after, p.name) == |c.profiles|;
    } else {
      var k := FindIndex(after, p.name);
      assert after[i].name == p.name;
      assert forall j :: 0 <= j < i ==> after[j] == c.profiles[j];
      assert k == i;
    }
  }

  /** Only a lone profile becomes the default by being added. */
  lemma WithProfileDefault(c: AppConfig, p: Profile)
    ensures |WithProfile(c, p).profiles| == 1 ==> WithProfile(c, p).defaultProfile == p.name
    ensures |WithProfile(c, p).profiles| != 1 ==> WithProfile(c, p).defaultProfile == c.defaultProfile
  {
  }

  /** Removing an unknown name fails; a known one loses exactly its first
      entry, the others keeping their order. */
  lemma WithoutProfileShape(c: AppConfig, name: string)
    ensures WithoutProfile(c, name).Err? <==> forall j :: 0 <= j < |c.profiles| ==> c.profiles[j].name != name
    ensures WithoutProfile(c, name).Ok? ==>
      var i := FindIndex(c.profiles, name);
      var after := WithoutProfile(c, name).value;
      && after.profiles == c.profiles[..i] + c.profiles[i + 1..]
      && |after.profiles| == |c.profiles| - 1
      && (c.defaultProfile == name ==>
            after.defaultProfile == if after.profiles == [] then "" else after.profiles[0].name)
      && (c.defaultProfile != name ==> after.defaultProfile == c.defaultProfile)
  {
  }

  /** Adding a new profile and removing it again gives back the list. */
  lemma AddThenRemove(c: AppConfig, p: Profile)
    requires forall j :: 0 <= j < |c.profiles| ==> c.profiles[j].name != p.name
    ensures WithoutProfile(WithProfile(c, p), p.name).Ok?
    ensures WithoutProfile(WithProfile(c, p), p.name).value.profiles == c.profiles
  {
    WithProfileShape(c, p);
    var after := WithProfile(c, p).profiles;
    assert FindIndex(after, p.name) == |c.profiles|;
    assert after[..|c.profiles|] == c.profiles;
  }

  /** After `setDefaultProfile(name)`, `getProfile()` finds that profile. */
  lemma DefaultIsFound(c: AppConfig, name: string)
    requires WithDefault(c, name).Ok? && name != ""
    ensures ProfileOf(WithDefault(c, name).value, None) == Find(c.profiles, name)
    ensures ProfileOf(WithDefault(c, name).value, None).Some?
    ensures ProfileOf(WithDefault(c, name).value, None).value.name == name
  {
  }

  /** `getProfile` finds nothing with no name and no default, and otherwise
      a profile of the name it was asked for. */
  lemma ProfileOfShape(c: AppConfig, name: Option<string>)
    ensures (name.None? || name.value == "") && c.defaultProfile == "" ==> ProfileOf(c, name).None?
    ensures ProfileOf(c, name).Some? ==>
      ProfileOf(c, name).value.name == (if name.Some? && name.value != "" then name.value else c.defaultProfile)
  {
  }

  /** Missing sampling settings get 0.7, 4096 and 1; given ones are kept. */
  lemma LlmDefaults(p: Profile)
    ensures LlmConfigOf(p).temperature == (if p.temperature.Some? then p.temperature.value else 0.7)
    ensures LlmConfigOf(p).maxTokens == (if p.maxTokens.Some? then p.maxTokens.value else 4096)
    ensures LlmConfigOf(p).topP == (if p.topP.Some? then p.topP.value else 1.0)
    ensures LlmConfigOf(p).provider == p.provider && LlmConfigOf(p).model == p.model
    ensures LlmConfigOf(p).apiKey == p.apiKey && LlmConfigOf(p).baseURL == p.baseURL
  {
  }

  // ---------------------------------------------------------------
  // The manager
  // ---------------------------------------------------------------

  class Manager {
    /** The contents of `config.json`. */
    var file: Option<StoredConfig>

    constructor(file: Option<StoredConfig>)
      ensures this.file == file
    {
      this.file := file;
    }

    method Load() returns (c: AppConfig)
      ensures c == Loaded(file)
    {
      c := Loaded(file);
    }

    method Save(c: AppConfig)
      modifies this
      ensures file == Some(Saved(c))
    {
      file := Some(Saved(c));
    }

    method AddProfile(p: Profile)
      modifies this
      ensures file == Some(Saved(WithProfile(Loaded(old(file)), p)))
    {
      var config := Load();
      var existingIndex := FindIndex(config.profiles, p.name);
      if existingIndex >= 0 {
        config := config.(profiles := config.profiles[existingIndex := p]);
      } else {
        config := config.(profiles := config.profiles + [p]);
      }
      if |config.profiles| == 1 {
        config := config.(defaultProfile := p.name);
      }
      Save(config);
    }

    method RemoveProfile(name: string) returns (r: Outcome)
      modifies this
      ensures r.Fail? <==> FindIndex(Loaded(old(file)).profiles, name) == -1
      ensures r.Fail? ==> file == old(file) && r.msg == "Profile '" + name + "' not found"
      ensures r.Pass? ==> file == Some(Saved(WithoutProfile(Loaded(old(file)), name).value))
    {
      var config := Load();
      var index := FindIndex(config.profiles, name);
      if index == -1 {
        return Fail("Profile '" + name + "' not found");
      }
      config := config.(profiles := config.profiles[..index] + config.profiles[index + 1..]);
      if config.defaultProfile == name {
        config := config.(defaultProfile := if |config.profiles| > 0 then config.profiles[0].name else "");
      }
      Save(config);
      r := Pass;
    }

    method GetProfile(name: Option<string>) returns (p: Option<Profile>)
      ensures p == ProfileOf(Loaded(file), name)
    {
      var config := Load();
      var profileName := if name.Some? && name.value != "" then name.value else config.defaultProfile;
      if profileName == "" {
        return None;
      }
      p := Find(config.profiles, profileName);
    }

    method SetDefaultProfile(name: string) returns (r: Outcome)
      modifies this
      ensures r.Fail? <==> Find(Loaded(old(file)).profiles, name).None?
      ensures r.Fail? ==> file == old(file) && r.msg == "Profile '" + name + "' not found"
      ensures r.Pass? ==> file == Some(Saved(Loaded(old(file)).(defaultProfile := name)))
    {
      var config := Load();
      var profile := Find(config.profiles, name);
      if profile.None? {
        return Fail("Profile '" + name + "' not found");
      }
      config := config.(defaultProfile := name);
      Save(config);
      r := Pass;
    }

    method GetLlmConfig(profileName: Option<string>) returns (c: Option<LlmConfig>)
      ensures c.None? <==> ProfileOf(Loaded(file), profileName).None?
      ensures c.Some? ==> c.value == LlmConfigOf(ProfileOf(Loaded(file), profileName).value)
    {
      var profile := GetProfile(profileName);
      if profile.None? {
        return None;
      }
      c := Some(LlmConfigOf(profile.value));
    }

    /** `getDefaultProfile`: nothing without a default name, else the
        profile of that name. */
    method GetDefaultProfile() returns (p: Option<Profile>)
      ensures p == ProfileOf(Loaded(file), None)
      ensures p.Some? ==> p.value.name == Loaded(file).defaultProfile
    {
      var config := Load();
      if config.defaultProfile == "" {
        return None;
      }
      p := GetProfile(Some(config.defaultProfile));
      ProfileOfShape(config, Some(config.defaultProfile));
    }

    /** `getDefaultProfileName`: the default name, `null` when it is empty. */
    method GetDefaultProfileName() returns (name: Option<string>)
      ensures name.None? <==> Loaded(file).defaultProfile == ""
      ensures name.Some? ==> name.value == Loaded(file).defaultProfile
    {
      var config := Load();
      name := if config.defaultProfile == "" then None else Some(config.defaultProfile);
    }

    method SetPluginsDir(dir: string)
      modifies this
      ensures file == Some(Saved(Loaded(old(file)).(pluginsDir := dir)))
      ensures Loaded(file).pluginsDir == dir
      ensures Loaded(file).profiles == Loaded(old(file)).profiles
    {
      var config := Load();
      config := config.(pluginsDir := dir);
      Save(config);
    }

    method SetOutputDir(dir: string)
      modifies this
      ensures file == Some(Saved(Loaded(old(file)).(outputDir := dir)))
      ensures Loaded(file).outputDir == dir
      ensures Loaded(file).profiles == Loaded(old(file)).profiles
    {
      var config := Load();
      config := config.(outputDir := dir);
      Save(config);
    }
  }
}
