/** Loading the clone profiles, and turning one into the configuration of a machine. */
module ProfileConfig {
  import opened Wrappers
  import opened Text
  import opened ProfileTemplates
  import opened ProfileScanners

  // A missing config section is None.
  datatype CloneProfile = CloneProfile(templateVMID: int, cloneMode: string, config: Option<map<string, string>>)

  datatype EntryProblem =
    | ReservedKey(key: string)
    | BridgeInAddress(key: string)
    | BadPlaceholder(key: string, problem: Problem)

  datatype LoadError =
    | NoProfiles
    | EmptyName
    | NoTemplate(name: string)
    | BadCloneMode(name: string, mode: string)
    | BadEntry(name: string, entry: EntryProblem)

  // ----- one config section

  ghost predicate EntryOk(key: string, value: string) {
    && key != "cipublickey" && key != "ciname"
    && ("ipconfig" <= key ==> !Contains(value, "bridge="))
    && Clean(Parse(value))
  }

  // The problem is one that the section has.
  ghost predicate Explains(cfg: map<string, string>, p: EntryProblem) {
    && p.key in cfg
    && match p
       case ReservedKey(key) => key == "cipublickey" || key == "ciname"
       case BridgeInAddress(key) => "ipconfig" <= key && Contains(cfg[key], "bridge=")
       case BadPlaceholder(key, problem) => FirstProblem(Parse(cfg[key])) == Some(problem)
  }

  lemma IndexTellsContains(s: string, sub: string)
    ensures Index(s, sub) == -1 <==> !Contains(s, sub)
  {
  }

  method ValidateEntry(cfg: map<string, string>, key: string) returns (problem: Option<EntryProblem>)
    requires key in cfg
    ensures problem.None? <==> EntryOk(key, cfg[key])
    ensures problem.Some? ==> problem.value.key == key && Explains(cfg, problem.value)
  {
    if key == "cipublickey" || key == "ciname" {
      return Some(ReservedKey(key));
    }
    IndexTellsContains(cfg[key], "bridge=");
    if "ipconfig" <= key && Index(cfg[key], "bridge=") != -1 {
      return Some(BridgeInAddress(key));
    }
    var bad := ValidatePlaceholders(cfg[key]);
    ValidationIsExact(Parse(cfg[key]));
    if bad.Some? {
      return Some(BadPlaceholder(key, bad.value));
    }
    return None;
  }

  // The keys are visited in no particular order.
  method ValidateProfileConfig(cfg: map<string, string>) returns (problem: Option<EntryProblem>)
    ensures problem.None? <==> forall key | key in cfg :: EntryOk(key, cfg[key])
    ensures problem.Some? ==> Explains(cfg, problem.value)
  {
    var todo := cfg.Keys;
    while todo != {}
      invariant todo <= cfg.Keys
      invariant forall key | key in cfg.Keys - todo :: EntryOk(key, cfg[key])
      decreases |todo|
    {
      var key :| key in todo;
      problem := ValidateEntry(cfg, key);
      if problem.Some? {
        return;
      }
      todo := todo - {key};
    }
    return None;
  }

  // ----- the whole file

  ghost predicate ProfileOk(name: string, profile: CloneProfile) {
    && TrimSpace(name) != ""
    && profile.templateVMID > 0
    && profile.cloneMode in {"", "full", "linked"}
    && (profile.config.Some? ==>
          forall key | key in profile.config.value :: EntryOk(key, profile.config.value[key]))
  }

  ghost predicate Loadable(file: map<string, CloneProfile>) {
    file != map[] && forall name | name in file :: ProfileOk(name, file[name])
  }

  function WithDefaults(profile: CloneProfile): CloneProfile {
    CloneProfile(profile.templateVMID,
                 if profile.cloneMode == "" then "linked" else profile.cloneMode,
                 if profile.config.None? then Some(map[]) else profile.config)
  }

  // The template and the section are the file's, and a profile that gives no mode makes linked clones.
  ghost predicate MeansTheSame(given: CloneProfile, loaded: CloneProfile) {
    && loaded.templateVMID == given.templateVMID
    && loaded.cloneMode in {"full", "linked"} && (loaded.cloneMode == "full" <==> given.cloneMode == "full")
    && loaded.config == match given.config
                        case Some(cfg) => Some(cfg)
                        case None => Some(map[])
  }

  function AllWithDefaults(file: map<string, CloneProfile>): map<string, CloneProfile> {
    map name | name in file :: WithDefaults(file[name])
  }

  ghost predicate Blames(file: map<string, CloneProfile>, e: LoadError) {
    match e
    case NoProfiles => file == map[]
    case EmptyName => exists name :: name in file && TrimSpace(name) == ""
    case NoTemplate(name) => name in file && file[name].templateVMID <= 0
    case BadCloneMode(name, mode) =>
      name in file && file[name].cloneMode == mode && mode !in {"", "full", "linked"}
    case BadEntry(name, entry) =>
      name in file && file[name].config.Some? && Explains(file[name].config.value, entry)
  }

  method CheckProfile(name: string, given: CloneProfile) returns (r: Result<CloneProfile, LoadError>)
    ensures r.Ok? <==> ProfileOk(name, given)
    ensures r.Ok? ==> r.value == WithDefaults(given)
    ensures r.Err? ==> !r.error.NoProfiles? && Blames(map[name := given], r.error)
  {
    var profile := given;
    if TrimSpace(name) == "" {
      assert name in map[name := given];
      return Err(EmptyName);
    }
    if profile.templateVMID <= 0 {
      return Err(NoTemplate(name));
    }
    if profile.cloneMode == "" {
      profile := profile.(cloneMode := "linked");
    }
    if profile.cloneMode != "full" && profile.cloneMode != "linked" {
      return Err(BadCloneMode(name, profile.cloneMode));
    }
    var problem := ValidateProfileConfig(if profile.config.Some? then profile.config.value else map[]);
    if problem.Some? {
      return Err(BadEntry(name, problem.value));
    }
    if profile.config.None? {
      profile := profile.(config := Some(map[]));
    }
    return Ok(profile);
  }

  lemma BlameWidens(file: map<string, CloneProfile>, name: string, e: LoadError)
    requires name in file && !e.NoProfiles? && Blames(map[name := file[name]], e)
    ensures Blames(file, e)
  {
  }

  // The file is accepted exactly when it is Loadable; what is loaded is the file with its defaults
  // filled in; and a refusal names something that is wrong with it.
  method LoadCloneProfiles(file: map<string, CloneProfile>) returns (r: Result<map<string, CloneProfile>, LoadError>)
    ensures r.Ok? <==> Loadable(file)
    ensures r.Ok? ==> r.value == AllWithDefaults(file)
    ensures r.Ok? ==> r.value.Keys == file.Keys && forall name | name in file :: MeansTheSame(file[name], r.value[name])
    ensures r.Err? ==> Blames(file, r.error)
  {
    hide MeansTheSame, ProfileOk, WithDefaults, Explains;
    if |file| == 0 {
      return Err(NoProfiles);
    }
    var profiles, todo := file, file.Keys;
    while todo != {}
      invariant todo <= file.Keys == profiles.Keys
      invariant forall name | name in file.Keys - todo ::
                  ProfileOk(name, file[name]) && profiles[name] == WithDefaults(file[name])
      invariant forall name | name in todo :: profiles[name] == file[name]
      decreases |todo|
    {
      var name :| name in todo;
      var checked := CheckProfile(name, profiles[name]);
      if checked.Err? {
        BlameWidens(file, name, checked.error);
        return Err(checked.error);
      }
      profiles := profiles[name := checked.value];
      todo := todo - {name};
    }
    DefaultsMeanTheSame(file);
    return Ok(profiles);
  }

  lemma DefaultsMeanTheSame(file: map<string, CloneProfile>)
    requires forall name | name in file :: ProfileOk(name, file[name])
    ensures forall name | name in file :: MeansTheSame(file[name], AllWithDefaults(file)[name])
  {
    forall name | name in file ensures MeansTheSame(file[name], AllWithDefaults(file)[name]) {
      assert ProfileOk(name, file[name]);
    }
  }

  // ----- rendering a loaded profile

  function Rendered(cfg: map<string, string>, vm: Machine): map<string, string> {
    map key | key in cfg :: Render(Parse(cfg[key]), vm)
  }

  // Every key of the section and no other, each with its entry filled in.
  ghost predicate AllFilled(cfg: map<string, string>, out: map<string, string>, key: string, hostname: string) {
    out.Keys == cfg.Keys && forall k | k in cfg :: Filled(cfg[k], out[k], key, hostname)
  }

  lemma RenderedIsFilled(cfg: map<string, string>, key: string, hostname: string)
    ensures AllFilled(cfg, Rendered(cfg, Machine(hostname, key)), key, hostname)
  {
    forall k | k in cfg ensures Filled(cfg[k], Rendered(cfg, Machine(hostname, key))[k], key, hostname) {
      RenderingFills(cfg[k], key, hostname);
    }
  }

  method RenderProfileConfig(cfg: map<string, string>, vm: Machine) returns (out: map<string, string>)
    ensures out == Rendered(cfg, vm)
  {
    out := map[];
    var todo := cfg.Keys;
    while todo != {}
      invariant todo <= cfg.Keys && out.Keys == cfg.Keys - todo
      invariant forall key | key in out :: out[key] == Render(Parse(cfg[key]), vm)
      decreases |todo|
    {
      var key :| key in todo;
      var value := RenderProfileValue(cfg[key], vm);
      out := out[key := value];
      todo := todo - {key};
    }
  }

  ghost predicate RendersClean(config: Option<map<string, string>>, vm: Machine) {
    config.Some? ==> forall key | key in config.value :: !Contains(Rendered(config.value, vm)[key], "{{")
  }

  // Everything the loader asks for except what concerns placeholders.
  ghost predicate OtherwiseOk(name: string, profile: CloneProfile) {
    && TrimSpace(name) != ""
    && profile.templateVMID > 0
    && profile.cloneMode in {"", "full", "linked"}
    && (profile.config.Some? ==>
          forall key | key in profile.config.value ::
            && key != "cipublickey" && key != "ciname"
            && ("ipconfig" <= key ==> !Contains(profile.config.value[key], "bridge=")))
  }

  lemma EntryRendersClean(value: string, vm: Machine)
    requires BraceFree(vm)
    ensures Clean(Parse(value)) <==> !Contains(Render(Parse(value), vm), "{{")
  {
    ValidationIsExact(Parse(value));
    ValidatedExactlyWhenCleanlyRendered(value, vm);
  }

  lemma ProfileRendersClean(name: string, profile: CloneProfile, vm: Machine)
    requires BraceFree(vm)
    ensures ProfileOk(name, profile) <==> OtherwiseOk(name, profile) && RendersClean(profile.config, vm)
  {
    if profile.config.Some? {
      var cfg := profile.config.value;
      assert Rendered(cfg, vm).Keys == cfg.Keys;
      forall key | key in cfg ensures Clean(Parse(cfg[key])) <==> !Contains(Rendered(cfg, vm)[key], "{{") {
        EntryRendersClean(cfg[key], vm);
      }
    }
  }

  // Loading asks, of placeholders, exactly what is needed: take any one machine, and a file that is
  // otherwise in order loads if and only if nothing it would write into that machine's configuration
  // still has a "{{".
  lemma LoadsExactlyWhenRenderedCleanly(file: map<string, CloneProfile>, vm: Machine)
    requires BraceFree(vm)
    ensures Loadable(file) <==>
            && file != map[]
            && forall name | name in file :: OtherwiseOk(name, file[name]) && RendersClean(file[name].config, vm)
  {
    forall name | name in file
      ensures ProfileOk(name, file[name]) <==> OtherwiseOk(name, file[name]) && RendersClean(file[name].config, vm)
    {
      ProfileRendersClean(name, file[name], vm);
    }
  }

  lemma DefaultsAreOk(name: string, profile: CloneProfile)
    requires ProfileOk(name, profile)
    ensures ProfileOk(name, WithDefaults(profile)) && WithDefaults(WithDefaults(profile)) == WithDefaults(profile)
  {
  }

  // Loading what was loaded changes nothing.
  lemma LoadingIsIdempotent(file: map<string, CloneProfile>)
    requires Loadable(file)
    ensures Loadable(AllWithDefaults(file)) && AllWithDefaults(AllWithDefaults(file)) == AllWithDefaults(file)
  {
    var loaded := AllWithDefaults(file);
    assert loaded.Keys == file.Keys;
    forall name | name in file ensures ProfileOk(name, loaded[name]) && WithDefaults(loaded[name]) == loaded[name] {
      DefaultsAreOk(name, file[name]);
    }
  }
}
