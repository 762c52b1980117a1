/** The second configuration loader (`src/config/loader.ts`). Its defaults, merge
    and validation are the same as those of `ConfigLoader`, which this module
    reuses; what differs is `loadConfig`: a `vont.config.ts` candidate is first
    compiled by esbuild into `<root>/.vont/config.mjs` and that output is
    imported under a `?t=<timestamp>` query, and any failure on that path moves on
    to the next candidate. */
module RootConfigLoader {
  import opened Wrappers
  import opened Js
  import opened VontTypes
  import ConfigLoader

  /** What the file system, esbuild, `import()` and the clock answer during one
      `loadConfig` call: the paths `fs.access` accepts, whether `fs.mkdir` of the
      temporary directory succeeds, whether compiling an entry point to an output
      file succeeds, what each import specifier gives (`None` when it throws),
      and `Date.now()`. */
  datatype Host = Host(accessible: set<string>, mkdirOk: bool,
                       compiles: (string, string) -> bool,
                       importModule: string -> Option<ConfigLoader.ConfigModule>,
                       timestamp: nat)

  /** `path.join(rootDir, '.vont')`. */
  function TempDir(rootDir: string): string {
    PathJoin(rootDir, ".vont")
  }

  /** `path.join(tempDir, 'config.mjs')`. */
  function TempFile(rootDir: string): string {
    PathJoin(TempDir(rootDir), "config.mjs")
  }

  /** The specifier the compiled configuration is imported under. */
  function CompiledSpecifier(rootDir: string, timestamp: nat): (spec: string)
    ensures StartsWith(spec, FileUrl(TempFile(rootDir)) + "?t=")
  {
    FileUrl(TempFile(rootDir)) + "?t=" + IntToString(timestamp)
  }

  /** Two imports at different times use different specifiers, so the module
      cache never hands back an older compiled configuration. */
  lemma CompiledSpecifierFresh(rootDir: string, t1: nat, t2: nat)
    requires t1 != t2
    ensures CompiledSpecifier(rootDir, t1) != CompiledSpecifier(rootDir, t2)
  {
    var p := FileUrl(TempFile(rootDir)) + "?t=";
    if CompiledSpecifier(rootDir, t1) == CompiledSpecifier(rootDir, t2) {
      assert CompiledSpecifier(rootDir, t1)[|p|..] == IntToString(t1);
      assert CompiledSpecifier(rootDir, t2)[|p|..] == IntToString(t2);
      NatToStringInjective(t1, t2);
    }
  }

  /** The module one candidate yields, or `None` when anything in its `try`
      block throws: the file is not accessible, or (for `.ts`) the temporary
      directory cannot be made, the compile fails or the compiled import throws,
      or (otherwise) the direct import throws. */
  function TryCandidate(rootDir: string, file: string, host: Host): Option<ConfigLoader.ConfigModule> {
    var configPath := PathJoin(rootDir, file);
    if configPath !in host.accessible then None
    else if EndsWith(file, ".ts") then
      if !host.mkdirOk || !host.compiles(configPath, TempFile(rootDir)) then None
      else host.importModule(CompiledSpecifier(rootDir, host.timestamp))
    else host.importModule(FileUrl(configPath))
  }

  /** What trying `files` in order gives: the first candidate that yields a
      module, merged over the defaults, or the defaults when none does. */
  function LoadedFrom(rootDir: string, env: Env, host: Host, files: seq<string>): VontConfig {
    if files == [] then ConfigLoader.GetDefaultConfig(rootDir, env)
    else
      var m := TryCandidate(rootDir, files[0], host);
      if m.Some? then ConfigLoader.MergeWithDefaults(ConfigLoader.ConfigOf(m.value), rootDir, env)
      else LoadedFrom(rootDir, env, host, files[1..])
  }

  /** `loadConfig(rootDir)`. */
  method LoadConfig(rootDir: string, env: Env, host: Host) returns (config: VontConfig)
    ensures config == LoadedFrom(rootDir, env, host, ConfigLoader.ConfigFiles)
  {
    var configFiles := ConfigLoader.ConfigFiles;
    for i := 0 to |configFiles|
      invariant LoadedFrom(rootDir, env, host, configFiles) == LoadedFrom(rootDir, env, host, configFiles[i..])
    {
      assert configFiles[i..][1..] == configFiles[i + 1..];
      var file := configFiles[i];
      var configPath := PathJoin(rootDir, file);
      if configPath in host.accessible {
        var configModule: Option<ConfigLoader.ConfigModule> := None;
        if EndsWith(file, ".ts") {
          var tempFile := TempFile(rootDir);
          if host.mkdirOk && host.compiles(configPath, tempFile) {
            configModule := host.importModule(FileUrl(tempFile) + "?t=" + IntToString(host.timestamp));
          }
        } else {
          configModule := host.importModule(FileUrl(configPath));
        }
        if configModule.Some? {
          return ConfigLoader.MergeWithDefaults(ConfigLoader.ConfigOf(configModule.value), rootDir, env);
        }
      }
    }
    return ConfigLoader.GetDefaultConfig(rootDir, env);
  }

  /** A `vont.config.ts` that is present but does not compile is skipped as if it
      were absent: the `.js` and `.mjs` candidates are tried next. */
  lemma CompileFailureFallsThrough(rootDir: string, env: Env, host: Host)
    requires !host.mkdirOk || !host.compiles(PathJoin(rootDir, "vont.config.ts"), TempFile(rootDir))
    ensures LoadedFrom(rootDir, env, host, ConfigLoader.ConfigFiles)
         == LoadedFrom(rootDir, env, host, ["vont.config.js", "vont.config.mjs"])
  {
    var files := ConfigLoader.ConfigFiles;
    assert files[0] == "vont.config.ts";
    assert EndsWith(files[0], ".ts") by {
      assert files[0][|files[0]| - 3..] == ".ts";
    }
    assert TryCandidate(rootDir, files[0], host).None?;
    assert files[1..] == ["vont.config.js", "vont.config.mjs"];
  }

  /** A compiled `vont.config.ts` whose import succeeds wins over the other
      candidates, and it is the module imported from the temporary file, not the
      source file, that is used. */
  lemma CompiledTsWins(rootDir: string, env: Env, host: Host)
    requires PathJoin(rootDir, "vont.config.ts") in host.accessible && host.mkdirOk
    requires host.compiles(PathJoin(rootDir, "vont.config.ts"), TempFile(rootDir))
    requires host.importModule(CompiledSpecifier(rootDir, host.timestamp)).Some?
    ensures LoadedFrom(rootDir, env, host, ConfigLoader.ConfigFiles)
         == ConfigLoader.MergeWithDefaults(
              ConfigLoader.ConfigOf(host.importModule(CompiledSpecifier(rootDir, host.timestamp)).value),
              rootDir, env)
  {
    var files := ConfigLoader.ConfigFiles;
    assert files[0] == "vont.config.ts";
    assert EndsWith(files[0], ".ts") by {
      assert files[0][|files[0]| - 3..] == ".ts";
    }
  }

  /** A file that is not TypeScript is loaded the way the other loader loads it. */
  lemma {:induction false} SameAsPlainLoader(rootDir: string, env: Env, host: Host, files: seq<string>)
    requires forall j :: 0 <= j < |files| ==> !EndsWith(files[j], ".ts")
    ensures LoadedFrom(rootDir, env, host, files)
         == ConfigLoader.LoadedFrom(rootDir, env, host.accessible, host.importModule, files)
  {
    if files != [] {
      assert !EndsWith(files[0], ".ts");
      forall j | 0 <= j < |files| - 1
        ensures !EndsWith(files[1..][j], ".ts")
      {
        assert files[1..][j] == files[j + 1];
      }
      SameAsPlainLoader(rootDir, env, host, files[1..]);
    }
  }

  /** Without a `vont.config.ts`, both loaders give the same configuration. */
  lemma NoTsSameAsPlainLoader(rootDir: string, env: Env, host: Host)
    requires PathJoin(rootDir, "vont.config.ts") !in host.accessible
    ensures LoadedFrom(rootDir, env, host, ConfigLoader.ConfigFiles)
         == ConfigLoader.LoadedFrom(rootDir, env, host.accessible, host.importModule, ConfigLoader.ConfigFiles)
  {
    var files := ConfigLoader.ConfigFiles;
    var rest := ["vont.config.js", "vont.config.mjs"];
    assert files[1..] == rest;
    assert !EndsWith(rest[0], ".ts") by {
      assert rest[0][|rest[0]| - 3..] != ".ts";
    }
    assert !EndsWith(rest[1], ".ts") by {
      assert rest[1][|rest[1]| - 2] != 't';
    }
    SameAsPlainLoader(rootDir, env, host, rest);
  }
}
