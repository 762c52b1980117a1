/** The decision logic of the production build (`build/index.ts`): API-file
    discovery over a directory tree, the precedence of build options over the
    configuration, the Vite plugin list, framework detection from
    `package.json`, and the defaults of the build flags. The bundler calls and
    file writes around them are not modelled. */
module Build {
  import opened Wrappers
  import opened Js
  import opened VontTypes
  import ConfigLoader

  // ---------------------------------------------------------------------------
  // findApiFiles
  // ---------------------------------------------------------------------------

  /** A directory entry as `fs.readdir(dir, { withFileTypes: true })` reports it:
      a directory (with what reading it gives) or anything else. */
  datatype Entry = File(name: string) | Dir(name: string, listing: Listing)

  /** What reading a directory gives: its entries in listing order, or an error
      (the directory is missing or cannot be read). */
  datatype Listing = Unreadable | Entries(entries: seq<Entry>)

  /** The file-name filter: TypeScript sources that are not tests. */
  predicate IsApiFileName(name: string) {
    EndsWith(name, ".ts") && !EndsWith(name, ".test.ts")
  }

  /** The API files under `dir`: what `findApiFiles(dir)` resolves to. */
  function ApiFiles(dir: string, listing: Listing): seq<string>
    decreases listing
  {
    match listing
    case Unreadable => []
    case Entries(es) => EntriesFiles(dir, es)
  }

  /** The API files found by the loop over `es`, in listing order. */
  function EntriesFiles(dir: string, es: seq<Entry>): seq<string>
    decreases es
  {
    if es == [] then [] else EntryFiles(dir, es[0]) + EntriesFiles(dir, es[1..])
  }

  /** What one entry contributes. */
  function EntryFiles(dir: string, e: Entry): seq<string>
    decreases e
  {
    var fullPath := PathJoin(dir, e.name);
    match e
    case Dir(_, listing) => ApiFiles(fullPath, listing)
    case File(name) => if IsApiFileName(name) then [fullPath] else []
  }

  /** The loop's results over two runs of entries are the two results in turn. */
  lemma {:induction false} EntriesFilesConcat(dir: string, a: seq<Entry>, b: seq<Entry>)
    ensures EntriesFiles(dir, a + b) == EntriesFiles(dir, a) + EntriesFiles(dir, b)
  {
    if a == [] {
      assert a + b == b;
    } else {
      assert (a + b)[1..] == a[1..] + b;
      EntriesFilesConcat(dir, a[1..], b);
    }
  }

  /** A subdirectory's results are spliced in at that entry's position. */
  lemma DirSpliced(dir: string, a: seq<Entry>, name: string, sub: Listing, b: seq<Entry>)
    ensures ApiFiles(dir, Entries(a + [Dir(name, sub)] + b))
         == ApiFiles(dir, Entries(a)) + ApiFiles(PathJoin(dir, name), sub) + ApiFiles(dir, Entries(b))
  {
    EntriesFilesConcat(dir, a + [Dir(name, sub)], b);
    EntriesFilesConcat(dir, a, [Dir(name, sub)]);
    assert EntriesFiles(dir, [Dir(name, sub)]) == ApiFiles(PathJoin(dir, name), sub) by {
      assert [Dir(name, sub)][1..] == [];
    }
  }

  /** A file entry contributes its joined path exactly when its name passes the
      filter, at its position in the listing. */
  lemma FileKeptIff(dir: string, a: seq<Entry>, name: string, b: seq<Entry>)
    ensures ApiFiles(dir, Entries(a + [File(name)] + b))
         == ApiFiles(dir, Entries(a)) + (if IsApiFileName(name) then [PathJoin(dir, name)] else [])
          + ApiFiles(dir, Entries(b))
  {
    EntriesFilesConcat(dir, a + [File(name)], b);
    EntriesFilesConcat(dir, a, [File(name)]);
    assert [File(name)][1..] == [];
  }

  /** A string that differs from `suffix` at one position of its tail does not
      end with `suffix`. */
  lemma DifferAt(s: string, suffix: string, k: nat)
    requires k < |suffix| <= |s| && s[|s| - |suffix| + k] != suffix[k]
    ensures !EndsWith(s, suffix)
  {
  }

  /** A suffix without `/` is a suffix of a joined path iff it is one of the name. */
  lemma JoinedSuffix(dir: string, name: string, suffix: string)
    requires '/' !in suffix
    ensures EndsWith(PathJoin(dir, name), suffix) <==> EndsWith(name, suffix)
  {
    var p := PathJoin(dir, name);
    if |suffix| <= |name| {
      assert p[|p| - |suffix|..] == name[|name| - |suffix|..];
    } else if |suffix| <= |p| {
      var k := |suffix| - |name| - 1;
      assert p[|p| - |suffix| + k] == '/';
      assert suffix[k] != '/';
      DifferAt(p, suffix, k);
    }
  }

  /** Every path found lies under `dir` and ends in `.ts` but not in `.test.ts`. */
  lemma {:induction false} ApiFilesFiltered(dir: string, listing: Listing)
    ensures forall x :: x in ApiFiles(dir, listing) ==>
      StartsWith(x, dir + "/") && EndsWith(x, ".ts") && !EndsWith(x, ".test.ts")
    decreases listing
  {
    if listing.Entries? {
      EntriesFiltered(dir, listing.entries);
    }
  }

  lemma {:induction false} EntriesFiltered(dir: string, es: seq<Entry>)
    ensures forall x :: x in EntriesFiles(dir, es) ==>
      StartsWith(x, dir + "/") && EndsWith(x, ".ts") && !EndsWith(x, ".test.ts")
    decreases es
  {
    if es != [] {
      var e := es[0];
      var fullPath := PathJoin(dir, e.name);
      EntriesFiltered(dir, es[1..]);
      match e
      case Dir(_, sub) =>
        ApiFilesFiltered(fullPath, sub);
        forall x | x in ApiFiles(fullPath, sub)
          ensures StartsWith(x, dir + "/")
        {
          StartsWithAppend(dir + "/", e.name, dir + "/");
          UnderJoined(dir, e.name, x);
        }
      case File(name) =>
        if IsApiFileName(name) {
          JoinedSuffix(dir, name, ".ts");
          JoinedSuffix(dir, name, ".test.ts");
          assert StartsWith(fullPath, dir + "/") by {
            assert fullPath[..|dir + "/"|] == dir + "/";
          }
        }
    }
  }

  /** A path under `dir/name/` lies under `dir/`. */
  lemma UnderJoined(dir: string, name: string, x: string)
    requires StartsWith(x, PathJoin(dir, name) + "/")
    ensures StartsWith(x, dir + "/")
  {
    assert x[..|dir + "/"|] == (PathJoin(dir, name) + "/")[..|dir + "/"|];
  }

  /** A missing or unreadable directory gives no files rather than an error. */
  lemma UnreadableIsEmpty(dir: string)
    ensures ApiFiles(dir, Unreadable) == []
  {
  }

  /** `findApiFiles(dir)`: a loop over the listing that pushes accepted files and
      the results of a recursive call for each subdirectory. */
  method FindApiFiles(dir: string, listing: Listing) returns (files: seq<string>)
    ensures files == ApiFiles(dir, listing)
    decreases listing
  {
    files := [];
    if listing.Unreadable? {
      return;
    }
    var entries := listing.entries;
    for i := 0 to |entries|
      invariant files == EntriesFiles(dir, entries[..i])
    {
      var entry := entries[i];
      var fullPath := PathJoin(dir, entry.name);
      EntriesFilesConcat(dir, entries[..i], [entry]);
      assert entries[..i + 1] == entries[..i] + [entry];
      assert [entry][1..] == [];
      if entry.Dir? {
        var sub := FindApiFiles(fullPath, entry.listing);
        files := files + sub;
      } else if EndsWith(entry.name, ".ts") && !EndsWith(entry.name, ".test.ts") {
        files := files + [fullPath];
      }
    }
    assert entries[..|entries|] == entries;
  }

  // ---------------------------------------------------------------------------
  // Option precedence
  // ---------------------------------------------------------------------------

  /** The keys of `BuildOptions` that `buildProject` reads. */
  datatype BuildOptions = BuildOptions(root: Option<string>, outDir: Option<string>,
                                       apiDir: Option<string>, serverDir: Option<string>)

  /** The directories a build uses. */
  datatype BuildDirs = BuildDirs(rootDir: string, outDir: string, serverDir: string, apiDir: string)

  /** No options at all: `options?.key` is undefined for every key. */
  const NoOptions := BuildOptions(None, None, None, None)

  /** `options?.root || process.cwd()`. */
  function BuildRoot(options: BuildOptions, cwd: string): string {
    StrOrDefault(options.root, cwd)
  }

  /** The directories of `buildProject` for a loaded configuration. */
  function ResolveBuildDirs(options: BuildOptions, rootDir: string, config: VontConfig): (r: BuildDirs)
    ensures r.rootDir == rootDir
  {
    var outDir := StrOrDefault(OrStr(options.outDir, config.outDir), PathJoin(rootDir, "dist"));
    var serverDir := StrOrDefault(options.serverDir, PathJoin(outDir, "server"));
    var apiDir := StrOrDefault(OrStr(options.apiDir, config.apiDir), PathJoin(PathJoin(rootDir, "src"), "api"));
    BuildDirs(rootDir, outDir, serverDir, apiDir)
  }

  /** Options win over the configuration, which wins over the default, each when
      it is a non-empty string; the server directory follows the output
      directory unless it is given. */
  lemma BuildDirsPrecedence(options: BuildOptions, rootDir: string, config: VontConfig)
    ensures var r := ResolveBuildDirs(options, rootDir, config);
      && (StrTruthy(options.outDir) ==> r.outDir == options.outDir.value)
      && (!StrTruthy(options.outDir) && StrTruthy(config.outDir) ==> r.outDir == config.outDir.value)
      && (!StrTruthy(options.outDir) && !StrTruthy(config.outDir) ==> r.outDir == PathJoin(rootDir, "dist"))
      && (StrTruthy(options.serverDir) ==> r.serverDir == options.serverDir.value)
      && (!StrTruthy(options.serverDir) ==> r.serverDir == PathJoin(r.outDir, "server"))
      && (StrTruthy(options.apiDir) ==> r.apiDir == options.apiDir.value)
      && (!StrTruthy(options.apiDir) && StrTruthy(config.apiDir) ==> r.apiDir == config.apiDir.value)
      && (!StrTruthy(options.apiDir) && !StrTruthy(config.apiDir) ==> r.apiDir == PathJoin(PathJoin(rootDir, "src"), "api"))
  {
  }

  /** The root is the `root` option when it is a non-empty string, else the
      working directory. */
  lemma BuildRootPrecedence(options: BuildOptions, cwd: string)
    ensures StrTruthy(options.root) ==> BuildRoot(options, cwd) == options.root.value
    ensures !StrTruthy(options.root) ==> BuildRoot(options, cwd) == cwd
  {
  }

  /** With a loaded configuration and no options, the output and API directories
      are the user's when given as non-empty strings and the defaults under the
      root otherwise: an empty string in the user's file also yields the default. */
  lemma LoadedBuildDirs(user: VontConfig, rootDir: string, env: Env)
    ensures var r := ResolveBuildDirs(NoOptions, rootDir, ConfigLoader.MergeWithDefaults(user, rootDir, env));
      && r.outDir == StrOrDefault(user.outDir, PathJoin(rootDir, "dist"))
      && r.apiDir == StrOrDefault(user.apiDir, PathJoin(PathJoin(rootDir, "src"), "api"))
      && r.serverDir == PathJoin(r.outDir, "server")
  {
    ConfigLoader.MergeTopLevel(user, rootDir, env);
    ConfigLoader.DefaultLiterals(rootDir, env);
  }

  // ---------------------------------------------------------------------------
  // Vite plugins
  // ---------------------------------------------------------------------------

  /** `Array.isArray(p) ? p : p ? [p] : []` on `viteConfig.plugins`, where
      `viteConfig` is `config.viteConfig || {}`. */
  function PluginList(viteConfig: Option<ViteConfig>): (r: seq<Plugin>)
    ensures viteConfig.None? ==> r == []
  {
    if viteConfig.None? then []
    else
      match viteConfig.value.plugins
      case PluginArray(items) => items
      case SinglePlugin(p) => [p]
      case NoPlugins => []
  }

  /** An array is kept as it is, a single plugin becomes a one-element list and a
      missing value an empty one; normalising the result again changes nothing. */
  lemma PluginListLaws(v: PluginsValue)
    ensures v.PluginArray? ==> PluginList(Some(ViteConfig(v))) == v.items
    ensures v.SinglePlugin? ==> PluginList(Some(ViteConfig(v))) == [v.item]
    ensures v.NoPlugins? ==> PluginList(Some(ViteConfig(v))) == []
    ensures var r := PluginList(Some(ViteConfig(v)));
      PluginList(Some(ViteConfig(PluginArray(r)))) == r
  {
  }

  /** The `plugins` value handed to `viteBuild`: the raw `viteConfig.plugins`,
      absent when there is no Vite configuration. The normalised list is not
      what is passed. */
  function BuildPluginsOption(viteConfig: Option<ViteConfig>): PluginsValue {
    if viteConfig.None? then NoPlugins else viteConfig.value.plugins
  }

  /** The build hands Vite the normalised list exactly when the user wrote an
      array: a single plugin is passed as it is, not wrapped in a list. */
  lemma NormalisedListUnused(viteConfig: Option<ViteConfig>)
    ensures BuildPluginsOption(viteConfig) == PluginArray(PluginList(viteConfig)) <==>
      BuildPluginsOption(viteConfig).PluginArray?
    ensures forall p :: BuildPluginsOption(viteConfig) == SinglePlugin(p) ==> PluginList(viteConfig) == [p]
  {
  }

  /** A list written with `vitePlugins([...])` normalises to itself and is what
      reaches `viteBuild`. */
  lemma VitePluginsKept(plugins: seq<Plugin>)
    ensures PluginList(Some(ViteConfig(PluginArray(VitePlugins(plugins))))) == plugins
    ensures BuildPluginsOption(Some(ViteConfig(PluginArray(VitePlugins(plugins))))) == PluginArray(plugins)
  {
  }

  // ---------------------------------------------------------------------------
  // Framework detection
  // ---------------------------------------------------------------------------

  /** The part of a parsed `package.json` that detection reads; a dependency's
      value is its version string. */
  datatype PackageJson = PackageJson(dependencies: Option<map<string, string>>,
                                     devDependencies: Option<map<string, string>>)

  /** `{ ...pkg.dependencies, ...pkg.devDependencies }`. */
  function AllDeps(pkg: PackageJson): map<string, string> {
    pkg.dependencies.GetOr(map[]) + pkg.devDependencies.GetOr(map[])
  }

  /** `config.framework || 'react'`, then, when the configuration names no
      framework, `vue` if the merged dependencies have a truthy `vue`. `pkg` is
      `None` when `package.json` cannot be read or parsed, which keeps `react`. */
  function DetectFramework(configured: Option<Framework>, pkg: Option<PackageJson>): Framework {
    if configured.Some? then configured.value
    else if pkg.Some? && "vue" in AllDeps(pkg.value) && AllDeps(pkg.value)["vue"] != "" then Vue
    else React
  }

  /** A configured framework wins. Otherwise the answer is `vue` exactly when
      `devDependencies` has a non-empty `vue`, or has none and `dependencies` has
      a non-empty one; an empty `vue` in `devDependencies` hides the one in
      `dependencies`. */
  lemma DetectFrameworkIff(configured: Option<Framework>, pkg: Option<PackageJson>)
    ensures configured.Some? ==> DetectFramework(configured, pkg) == configured.value
    ensures configured.None? ==>
      (DetectFramework(configured, pkg) == Vue <==>
        pkg.Some? &&
        var deps, dev := pkg.value.dependencies.GetOr(map[]), pkg.value.devDependencies.GetOr(map[]);
        if "vue" in dev then dev["vue"] != "" else "vue" in deps && deps["vue"] != "")
  {
  }

  // ---------------------------------------------------------------------------
  // Build flags
  // ---------------------------------------------------------------------------

  /** The flags passed to Vite and esbuild. */
  datatype BuildFlags = BuildFlags(sourcemap: bool, minify: bool, target: string)

  /** `sourcemap: build?.sourcemap !== false`, `minify: build?.minify !== false`,
      `target: build?.target || 'es2020'`. */
  function ResolveBuildFlags(build: Option<BuildConfig>): BuildFlags {
    var b := build.GetOr(BuildConfig(None, None, None));
    BuildFlags(b.sourcemap != Some(false), b.minify != Some(false), StrOrDefault(b.target, "es2020"))
  }

  /** Source maps and minification are off only when set to `false`, and the
      target falls back to `es2020` when missing or empty. */
  lemma BuildFlagsDefaults(build: Option<BuildConfig>)
    ensures var f := ResolveBuildFlags(build);
      && (f.sourcemap <==> !(build.Some? && build.value.sourcemap == Some(false)))
      && (f.minify <==> !(build.Some? && build.value.minify == Some(false)))
      && (build.Some? && StrTruthy(build.value.target) ==> f.target == build.value.target.value)
      && (!(build.Some? && StrTruthy(build.value.target)) ==> f.target == "es2020")
  {
  }
}
