/** The configuration loader (`vont/src/config/loader.ts`): the candidate files
    tried in order, the default configuration built from the root directory and
    the environment, the merge of a user configuration over the defaults, and
    validation. File access and `import()` are inputs: the set of paths that
    exist and the module each import specifier gives, `None` when the import
    throws. */
module ConfigLoader {
  import opened Wrappers
  import opened Js
  import opened VontTypes

  /** The configuration file names, in the order they are tried. */
  const ConfigFiles: seq<string> := ["vont.config.ts", "vont.config.js", "vont.config.mjs"]

  /** A configuration module: its default export, if any, and the module
      namespace object itself. */
  datatype ConfigModule = ConfigModule(defaultExport: Option<VontConfig>, namespace: VontConfig)

  /** `configModule.default || configModule`. */
  function ConfigOf(m: ConfigModule): VontConfig {
    if m.defaultExport.Some? then m.defaultExport.value else m.namespace
  }

  // ---------------------------------------------------------------------------
  // getDefaultConfig
  // ---------------------------------------------------------------------------

  /** `getDefaultConfig(rootDir)` under environment `env`. */
  function GetDefaultConfig(rootDir: string, env: Env): VontConfig {
    VontConfig(
      root := Some(rootDir),
      port := Some(ParseInt(StrOrDefault(EnvVar(env, "PORT"), "3000"))),
      host := Some(StrOrDefault(EnvVar(env, "HOST"), "0.0.0.0")),
      apiPrefix := Some("/api"),
      apiDir := Some(PathJoin(PathJoin(rootDir, "src"), "api")),
      pagesDir := Some(PathJoin(PathJoin(rootDir, "src"), "pages")),
      outDir := Some(PathJoin(rootDir, "dist")),
      framework := None,
      viteConfig := None,
      server := Some(ServerConfig(
        hmrPort := Some(ParseInt(StrOrDefault(EnvVar(env, "HMR_PORT"), "3001"))),
        middlewares := Some([]))),
      build := Some(BuildConfig(sourcemap := Some(true), minify := Some(true), target := Some("es2020"))),
      isDev := None)
  }

  /** The literal defaults: the directories under the root, `/api`, the build
      flags and an empty middleware list. */
  lemma DefaultLiterals(rootDir: string, env: Env)
    ensures var d := GetDefaultConfig(rootDir, env);
      && d.root == Some(rootDir) && d.apiPrefix == Some("/api")
      && d.apiDir == Some(PathJoin(PathJoin(rootDir, "src"), "api"))
      && d.pagesDir == Some(PathJoin(PathJoin(rootDir, "src"), "pages"))
      && d.outDir == Some(PathJoin(rootDir, "dist"))
      && d.build == Some(BuildConfig(Some(true), Some(true), Some("es2020")))
      && d.server.Some? && d.server.value.middlewares == Some([])
      && d.framework.None? && d.viteConfig.None?
  {
  }

  lemma ParseDefaultPort()
    ensures ParseInt("3000") == Num(3000)
  {
    var s := "3000";
    assert TrimStart(s) == s && SignStripped(s) == s;
    DigitPrefixAll(s);
    assert s[..3] == "300" && "300"[..2] == "30" && "30"[..1] == "3";
    assert DigitsValue("3") == 3;
    assert DigitsValue("30") == 30;
    assert DigitsValue("300") == 300;
  }

  lemma ParseDefaultHmrPort()
    ensures ParseInt("3001") == Num(3001)
  {
    var s := "3001";
    assert TrimStart(s) == s && SignStripped(s) == s;
    DigitPrefixAll(s);
    assert s[..3] == "300" && "300"[..2] == "30" && "30"[..1] == "3";
    assert DigitsValue("3") == 3;
    assert DigitsValue("30") == 30;
    assert DigitsValue("300") == 300;
  }

  /** The ports and the host come from `PORT`, `HMR_PORT` and `HOST` when those are
      set to a non-empty value, and are 3000, 3001 and `0.0.0.0` otherwise. */
  lemma DefaultPortsAndHost(rootDir: string, env: Env)
    ensures var d := GetDefaultConfig(rootDir, env);
      && (StrTruthy(EnvVar(env, "PORT")) ==> d.port == Some(ParseInt(env["PORT"])))
      && (!StrTruthy(EnvVar(env, "PORT")) ==> d.port == Some(Num(3000)))
      && (StrTruthy(EnvVar(env, "HMR_PORT")) ==> d.server.value.hmrPort == Some(ParseInt(env["HMR_PORT"])))
      && (!StrTruthy(EnvVar(env, "HMR_PORT")) ==> d.server.value.hmrPort == Some(Num(3001)))
      && (StrTruthy(EnvVar(env, "HOST")) ==> d.host == Some(env["HOST"]))
      && (!StrTruthy(EnvVar(env, "HOST")) ==> d.host == Some("0.0.0.0"))
  {
    ParseDefaultPort();
    ParseDefaultHmrPort();
  }

  // ---------------------------------------------------------------------------
  // mergeWithDefaults
  // ---------------------------------------------------------------------------

  /** `r` is what a spread of `u` over `d` gives for one key. */
  predicate Overrides<T(==)>(u: Option<T>, d: Option<T>, r: Option<T>) {
    (u.Some? ==> r == u) && (u.None? ==> r == d)
  }

  /** `{...defaults.server, ...userConfig.server}`; spreading an absent object adds
      no keys. */
  function MergeServer(d: ServerConfig, u: Option<ServerConfig>): ServerConfig {
    if u.None? then d
    else ServerConfig(Spread(u.value.hmrPort, d.hmrPort), Spread(u.value.middlewares, d.middlewares))
  }

  /** `{...defaults.build, ...userConfig.build}`. */
  function MergeBuild(d: BuildConfig, u: Option<BuildConfig>): BuildConfig {
    if u.None? then d
    else BuildConfig(Spread(u.value.sourcemap, d.sourcemap), Spread(u.value.minify, d.minify),
                     Spread(u.value.target, d.target))
  }

  /** The spread `{...defaults, ...userConfig, server: {...}, build: {...}}` over
      a given set of defaults that has `server` and `build`. */
  function MergeOver(user: VontConfig, d: VontConfig): VontConfig
    requires d.server.Some? && d.build.Some?
  {
    VontConfig(
      root := Spread(user.root, d.root),
      port := Spread(user.port, d.port),
      host := Spread(user.host, d.host),
      apiPrefix := Spread(user.apiPrefix, d.apiPrefix),
      apiDir := Spread(user.apiDir, d.apiDir),
      pagesDir := Spread(user.pagesDir, d.pagesDir),
      outDir := Spread(user.outDir, d.outDir),
      framework := Spread(user.framework, d.framework),
      viteConfig := Spread(user.viteConfig, d.viteConfig),
      server := Some(MergeServer(d.server.value, user.server)),
      build := Some(MergeBuild(d.build.value, user.build)),
      isDev := Spread(user.isDev, d.isDev))
  }

  /** `mergeWithDefaults(userConfig, rootDir)`. */
  function MergeWithDefaults(user: VontConfig, rootDir: string, env: Env): VontConfig {
    MergeOver(user, GetDefaultConfig(rootDir, env))
  }

  /** Every top-level key the user gives overrides the default; every other key
      keeps the default. */
  lemma MergeTopLevel(user: VontConfig, rootDir: string, env: Env)
    ensures var d, r := GetDefaultConfig(rootDir, env), MergeWithDefaults(user, rootDir, env);
      && Overrides(user.root, d.root, r.root) && Overrides(user.port, d.port, r.port)
      && Overrides(user.host, d.host, r.host) && Overrides(user.apiPrefix, d.apiPrefix, r.apiPrefix)
      && Overrides(user.apiDir, d.apiDir, r.apiDir) && Overrides(user.pagesDir, d.pagesDir, r.pagesDir)
      && Overrides(user.outDir, d.outDir, r.outDir) && Overrides(user.framework, d.framework, r.framework)
      && Overrides(user.viteConfig, d.viteConfig, r.viteConfig) && Overrides(user.isDev, d.isDev, r.isDev)
  {
  }

  /** `server` is merged key by key: the user's keys win and the default keys the
      user leaves out are kept, also when the user gives no `server` at all. */
  lemma MergeServerKeys(user: VontConfig, rootDir: string, env: Env)
    ensures var ds := GetDefaultConfig(rootDir, env).server.value;
      var us := user.server.GetOr(ServerConfig(None, None));
      var r := MergeWithDefaults(user, rootDir, env);
      && r.server.Some?
      && Overrides(us.hmrPort, ds.hmrPort, r.server.value.hmrPort)
      && Overrides(us.middlewares, ds.middlewares, r.server.value.middlewares)
  {
  }

  /** `build` is merged key by key in the same way. */
  lemma MergeBuildKeys(user: VontConfig, rootDir: string, env: Env)
    ensures var db := GetDefaultConfig(rootDir, env).build.value;
      var ub := user.build.GetOr(BuildConfig(None, None, None));
      var r := MergeWithDefaults(user, rootDir, env);
      && r.build.Some?
      && Overrides(ub.sourcemap, db.sourcemap, r.build.value.sourcemap)
      && Overrides(ub.minify, db.minify, r.build.value.minify)
      && Overrides(ub.target, db.target, r.build.value.target)
  {
  }

  /** An empty user configuration gives the defaults. */
  lemma MergeEmpty(rootDir: string, env: Env)
    ensures MergeWithDefaults(EmptyConfig, rootDir, env) == GetDefaultConfig(rootDir, env)
  {
  }

  /** Every key the defaults provide is present after a merge, whatever the user
      gave, down to the keys of `server` and `build`. */
  lemma MergeComplete(user: VontConfig, rootDir: string, env: Env)
    ensures var r := MergeWithDefaults(user, rootDir, env);
      && r.root.Some? && r.port.Some? && r.host.Some? && r.apiPrefix.Some?
      && r.apiDir.Some? && r.pagesDir.Some? && r.outDir.Some?
      && r.server.Some? && r.server.value.hmrPort.Some? && r.server.value.middlewares.Some?
      && r.build.Some? && r.build.value.sourcemap.Some? && r.build.value.minify.Some?
      && r.build.value.target.Some?
  {
    var d := GetDefaultConfig(rootDir, env);
    assert d.port.Some? && d.server.value.hmrPort.Some?;
    MergeOverKeeps(user, d);
  }

  /** A key that the defaults have is present after the spread. */
  lemma MergeOverKeeps(user: VontConfig, d: VontConfig)
    requires d.server.Some? && d.build.Some?
    ensures var r := MergeOver(user, d);
      && (d.root.Some? ==> r.root.Some?) && (d.port.Some? ==> r.port.Some?)
      && (d.host.Some? ==> r.host.Some?) && (d.apiPrefix.Some? ==> r.apiPrefix.Some?)
      && (d.apiDir.Some? ==> r.apiDir.Some?) && (d.pagesDir.Some? ==> r.pagesDir.Some?)
      && (d.outDir.Some? ==> r.outDir.Some?)
      && (d.server.value.hmrPort.Some? ==> r.server.value.hmrPort.Some?)
      && (d.server.value.middlewares.Some? ==> r.server.value.middlewares.Some?)
      && (d.build.value.sourcemap.Some? ==> r.build.value.sourcemap.Some?)
      && (d.build.value.minify.Some? ==> r.build.value.minify.Some?)
      && (d.build.value.target.Some? ==> r.build.value.target.Some?)
  {
  }

  /** Spreading the same user keys twice over the same defaults changes nothing. */
  lemma MergeOverIdempotent(user: VontConfig, d: VontConfig)
    requires d.server.Some? && d.build.Some?
    ensures MergeOver(MergeOver(user, d), d) == MergeOver(user, d)
  {
  }

  /** Merging a merged configuration again changes nothing. */
  lemma MergeIdempotent(user: VontConfig, rootDir: string, env: Env)
    ensures var r := MergeWithDefaults(user, rootDir, env);
      MergeWithDefaults(r, rootDir, env) == r
  {
    MergeOverIdempotent(user, GetDefaultConfig(rootDir, env));
  }

  // ---------------------------------------------------------------------------
  // validateConfig
  // ---------------------------------------------------------------------------

  const RootRequired := "root directory is required in config"
  const PortRange := "port must be between 1 and 65535"
  const HmrPortRange := "hmrPort must be between 1 and 65535"

  /** A port check fails only for a truthy number outside [1, 65535]; a missing
      port, 0 and NaN pass. */
  predicate PortAccepted(p: Option<JsNumber>) {
    !(OptNumTruthy(p) && (p.value.n < 1 || p.value.n > 65535))
  }

  /** `validateConfig`: the three checks in order; a throw is a `Failure`. */
  function ValidateConfig(config: VontConfig): (r: Result<(), string>)
    ensures r.Success? <==>
      StrTruthy(config.root) && PortAccepted(config.port)
      && (config.server.None? || PortAccepted(config.server.value.hmrPort))
    ensures !StrTruthy(config.root) ==> r == Failure(RootRequired)
    ensures StrTruthy(config.root) && !PortAccepted(config.port) ==> r == Failure(PortRange)
    ensures StrTruthy(config.root) && PortAccepted(config.port) && r.Failure? ==> r == Failure(HmrPortRange)
    ensures r.Failure? ==> r.error in {RootRequired, PortRange, HmrPortRange}
  {
    if !StrTruthy(config.root) then Failure(RootRequired)
    else if OptNumTruthy(config.port) && (config.port.value.n < 1 || config.port.value.n > 65535) then
      Failure(PortRange)
    else if config.server.Some? && OptNumTruthy(config.server.value.hmrPort)
      && (config.server.value.hmrPort.value.n < 1 || config.server.value.hmrPort.value.n > 65535) then
      Failure(HmrPortRange)
    else Success(())
  }

  /** Port 0 and a port that did not parse are not rejected. */
  lemma FalsyPortsPass(config: VontConfig)
    requires StrTruthy(config.root) && config.server.None?
    requires config.port == Some(Num(0)) || config.port == Some(NaN) || config.port.None?
    ensures ValidateConfig(config).Success?
  {
  }

  /** An environment port variable that passes validation: unset or empty (the
      literal default is used), or text that parses to NaN, 0 or a number in
      [1, 65535]. */
  predicate EnvPortAccepted(env: Env, name: string) {
    !StrTruthy(EnvVar(env, name)) || PortAccepted(Some(ParseInt(env[name])))
  }

  /** The defaults pass validation exactly when the root is not empty and each of
      `PORT` and `HMR_PORT` is unset or parses to an accepted port. */
  lemma DefaultsValid(rootDir: string, env: Env)
    ensures ValidateConfig(GetDefaultConfig(rootDir, env)).Success? <==>
      rootDir != "" && EnvPortAccepted(env, "PORT") && EnvPortAccepted(env, "HMR_PORT")
  {
    DefaultPortsAndHost(rootDir, env);
  }

  // ---------------------------------------------------------------------------
  // loadConfig
  // ---------------------------------------------------------------------------

  /** The candidate at `path` loads when the file is accessible and importing it
      does not throw. */
  predicate Loads(path: string, accessible: set<string>, importModule: string -> Option<ConfigModule>) {
    path in accessible && importModule(FileUrl(path)).Some?
  }

  /** What trying `files` in order gives: the first one that loads, merged over the
      defaults, or the defaults when none does. */
  function LoadedFrom(rootDir: string, env: Env, accessible: set<string>,
                      importModule: string -> Option<ConfigModule>, files: seq<string>): VontConfig
  {
    if files == [] then GetDefaultConfig(rootDir, env)
    else
      var path := PathJoin(rootDir, files[0]);
      if Loads(path, accessible, importModule) then
        MergeWithDefaults(ConfigOf(importModule(FileUrl(path)).value), rootDir, env)
      else LoadedFrom(rootDir, env, accessible, importModule, files[1..])
  }

  /** The first candidate that loads wins. */
  lemma {:induction false} FirstLoadableWins(rootDir: string, env: Env, accessible: set<string>,
                                             importModule: string -> Option<ConfigModule>,
                                             files: seq<string>, k: nat)
    requires k < |files| && Loads(PathJoin(rootDir, files[k]), accessible, importModule)
    requires forall j :: 0 <= j < k ==> !Loads(PathJoin(rootDir, files[j]), accessible, importModule)
    ensures LoadedFrom(rootDir, env, accessible, importModule, files)
         == MergeWithDefaults(ConfigOf(importModule(FileUrl(PathJoin(rootDir, files[k]))).value), rootDir, env)
  {
    if k > 0 {
      assert !Loads(PathJoin(rootDir, files[0]), accessible, importModule);
      forall j | 0 <= j < k - 1
        ensures !Loads(PathJoin(rootDir, files[1..][j]), accessible, importModule)
      {
        assert files[1..][j] == files[j + 1];
      }
      FirstLoadableWins(rootDir, env, accessible, importModule, files[1..], k - 1);
    }
  }

  /** When no candidate loads, the defaults are used. */
  lemma {:induction false} NoneLoadable(rootDir: string, env: Env, accessible: set<string>,
                                        importModule: string -> Option<ConfigModule>, files: seq<string>)
    requires forall j :: 0 <= j < |files| ==> !Loads(PathJoin(rootDir, files[j]), accessible, importModule)
    ensures LoadedFrom(rootDir, env, accessible, importModule, files) == GetDefaultConfig(rootDir, env)
  {
    if files != [] {
      assert !Loads(PathJoin(rootDir, files[0]), accessible, importModule);
      forall j | 0 <= j < |files| - 1
        ensures !Loads(PathJoin(rootDir, files[1..][j]), accessible, importModule)
      {
        assert files[1..][j] == files[j + 1];
      }
      NoneLoadable(rootDir, env, accessible, importModule, files[1..]);
    }
  }

  /** `loadConfig(rootDir)`: tries `vont.config.ts`, `.js` and `.mjs` in that
      order and returns at the first that loads. */
  method LoadConfig(rootDir: string, env: Env, accessible: set<string>,
                    importModule: string -> Option<ConfigModule>)
    returns (config: VontConfig)
    ensures config == LoadedFrom(rootDir, env, accessible, importModule, ConfigFiles)
  {
    for i := 0 to |ConfigFiles|
      invariant LoadedFrom(rootDir, env, accessible, importModule, ConfigFiles)
             == LoadedFrom(rootDir, env, accessible, importModule, ConfigFiles[i..])
    {
      assert ConfigFiles[i..][1..] == ConfigFiles[i + 1..];
      var configPath := PathJoin(rootDir, ConfigFiles[i]);
      if configPath in accessible {
        var configModule := importModule(FileUrl(configPath));
        if configModule.Some? {
          return MergeWithDefaults(ConfigOf(configModule.value), rootDir, env);
        }
      }
    }
    return GetDefaultConfig(rootDir, env);
  }
}
