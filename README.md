# vont core, modelled in Dafny

vont is a full-stack framework: Koa on the server, React or Vue on the client,
Vite for bundling. Routes come from the file system. A page file under
`src/pages/` becomes a client route, and an API file under `src/api/` becomes a
server endpoint. This project models the logic that decides these things and
proves it correct:

- **File path to route path.** `getRoutePath` is a chain of anchored rewrites:
  - strip the pages prefix and the extension;
  - drop one trailing `index`;
  - turn `[x]` into `:x`;
  - force a leading `/`.

  The React `generateRoutes` then sorts the route table by how many `:`
  parameters each route has. The sort is stable, and routes with more
  parameters come first. The Vue `generateRoutes` keeps input order and appends
  a `/:pathMatch(.*)*` catch-all. Both copies share one model (`RoutePath`).
  They differ only in their extension lists, and a lemma proves that they agree
  on files that do not end in `.vue`.
- **API-file discovery for the build.** `findApiFiles` works over an abstract
  directory tree. The build also has option precedence, normalisation of the
  Vite plugin list (computed but not passed to `viteBuild`, which receives the
  raw `plugins` value), framework detection from `package.json`, and build-flag
  defaults.
- **The dev server.**
  - option and HMR-port precedence;
  - which requests get the SPA HTML;
  - which paths the API watcher ignores;
  - the debounce-and-reload protocol of the watcher, driven by logical time.
    The pure transition functions of this state machine are shadowed by a class
    with the watcher's fields.
- **Configuration.** Both copies of the loader are modelled:
  - the candidate order;
  - the defaults, the shallow and key-wise merge, and validation as a `Result`;
  - the `.ts` compile-and-fall-through path of the root-level copy.
- **The client-entry generator.** The generated `.vont/client.tsx` text for
  React and for Vue.
- **Scaffolding and `vont create`.** Template choice and `{{PROJECT_NAME}}`
  substitution, plus the argument parsing of the create command.
- **The example apps.** The React app's `fetchApi` helpers, the Vue app's
  `ApiClient` and `userApi`, and the in-memory users store, which is a class
  over a `seq`.

## Environment and inputs

JavaScript's own behaviour is written out in module `Js`:
- truthiness, `||` and object spread;
- `startsWith`, `endsWith`, `trim`, `split` and `join`;
- `parseInt(s, 10)` on integers and template interpolation of integers.

Everything outside the program is an input:
- `process.env` is a map.
- The file system is the set of accessible paths plus an abstract directory
  tree.
- `import()` is a function from specifiers to an optional module.
- esbuild's success, `Date.now()` and `encodeURIComponent` are parameters.
- The route registry's rescan is a function from the rescan number to an
  optional route list.
- Timers are replaced by logical time.
- Whether the dev server runs as a CommonJS module, where `require` is
  defined, or as an ES module, where it is not, is a fixed flag of the watcher
  state (`commonJs`). It depends on how the package is compiled, which is not
  part of this model.

`fetch` appears through its output: the request it is given and the response it
returns, as data. What `response.json()` gives is `None` when the body is not
JSON, in which case it rejects with a `SyntaxError` (`Js.Thrown`). A parsed
body is `null` or another value together with its `error` property
(`Js.JsonValue`); reading that property of `null` throws a `TypeError`.

## Where the model departs from the documented behaviour

- The command's usage text (`vont/src/cli/create.ts:16`) documents
  `--template <name>`, and the comment at line 8 shows `--template=xxx`. The
  code reads the template from a single argument, taking the second piece
  after splitting it at a space. The model follows the code
  (`CreateCli.CreateCommandAsWritten`) and records the difference under
  Findings.
- The dev server's framework auto-detection (`vont/src/server/dev-server.ts:59-74`)
  is the same code as the build's (`vont/src/build/index.ts:82-97`).
  `Build.DetectFramework` models both.
- The root-level loader (`src/config/loader.ts`) repeats `getDefaultConfig`,
  `mergeWithDefaults` and `validateConfig` token for token (lines 77-133).
  Module `ConfigLoader` models them once. `RootConfigLoader` adds only its own
  `loadConfig`.

## Model

| member | source | states |
|---|---|---|
| Js.ParseInt | vont/src/config/loader.ts:45 | `parseInt(s, 10)` is NaN exactly when no digit follows the leading white space and optional sign; otherwise it is the value of the leading digits, negated after a `-` |
| Js.NatToStringValue | examples/koa-vue-ts/src/lib/api.ts:94 | the decimal text interpolated for a natural number reads back as that number |
| Js.IntToStringInjective | examples/koa-vue-ts/src/lib/api.ts:94 | different integers interpolate to different texts |
| Js.SplitJoin | examples/koa-react-ts/src/lib/api.ts:20 | splitting a `join` at its separator gives back the pieces, when no piece contains the separator |
| Js.DigitPrefixConcat | vont/src/scaffolding/index.ts:165 | the digits read from a number's text end where the first non-digit starts |
| Js.ParseIntReads | vont/src/scaffolding/index.ts:165 | `parseInt` of an integer's decimal text, followed by anything not starting with a digit, gives back that integer |
| VontTypes.ParseMethod | vont/src/types/index.ts:26 | a name that parses to a method is that method's own name |
| VontTypes.MethodLiterals | vont/src/types/index.ts:26 | the route method is exactly one of GET, POST, PUT, DELETE, PATCH, OPTIONS, and every name parses back to its method |
| VontTypes.DefineConfig | vont/src/types/index.ts:119-121 | `defineConfig` returns its argument unchanged |
| VontTypes.VitePlugin | vont/src/types/index.ts:141-143 | `vitePlugin` returns its argument unchanged |
| VontTypes.VitePlugins | vont/src/types/index.ts:163-165 | `vitePlugins` returns a list of the same length with the same elements in the same order |
| RoutePath.StripFirstPrefix | vont/src/client/index.tsx:13 | removing an optional prefix leaves a suffix of the input |
| RoutePath.StripFirstPrefixAt | vont/src/client/index.tsx:13 | when `ps[k]` is the first candidate the path starts with, exactly that prefix is removed |
| RoutePath.StripFirstPrefixNone | vont/src/client/index.tsx:13 | a path starting with no candidate is left unchanged |
| RoutePath.PagesPrefixesExclusive | vont/src/client/index.tsx:13 | no path starts with two different pages-prefix alternatives of the anchored pattern |
| RoutePath.StripKnownPrefix | vont/src/client/index.tsx:11-13 | each of `pages/`, `./pages/`, `../pages/`, `/pages/`, `src/pages/`, `./src/pages/`, `../src/pages/` and `/src/pages/` is stripped from the front, leaving the rest intact |
| RoutePath.StripNoPrefix | vont/src/client/index.tsx:13 | a path without a pages prefix keeps all its directories |
| RoutePath.StripExtension | vont/src/client/index.tsx:14 | stripping an extension leaves a prefix of the input |
| RoutePath.StripExtensionAt | vont/src/client/index.tsx:14 | from `base.ext` with `ext` in the list, exactly the one extension is stripped |
| RoutePath.StripExtensionNone | vont/src/client/index.tsx:14 | a path ending in none of the extensions is left unchanged |
| RoutePath.DropIndex | vont/src/client/index.tsx:17-21 | definition of the index handling; stated by `DropIndexOfDirectory`, `TranslateIndex` and `TranslateRootIndex` |
| RoutePath.DropIndexOfDirectory | vont/src/client/index.tsx:17-18 | exactly one trailing `/index` is removed: `a/index/index` becomes `a/index` |
| RoutePath.ReplaceParams | vont/src/client/index.tsx:24 | definition of the global `[x]` to `:x` rewrite; stated by `ReplaceParamsLiteral`, `ReplaceParamsBracket`, `ReplaceParamsPieces` and `ReplaceParamsNoBracket` |
| RoutePath.ReplaceParamsLiteral | vont/src/client/index.tsx:24 | text without `[` passes through the bracket rewrite unchanged and does not disturb what follows |
| RoutePath.ReplaceParamsBracket | vont/src/client/index.tsx:24 | `[x]` with a non-empty `x` free of `]` becomes `:x` |
| RoutePath.ReplaceParamsPieces | vont/src/client/index.tsx:24 | every `[name]` of a file name becomes `:name` and the literal text is kept: the rewrite maps the file form of any piece list to its route form |
| RoutePath.ReplaceParamsNoBracket | vont/src/client/index.tsx:24 | text without `[` is unchanged by the rewrite |
| RoutePath.Translate | vont/src/client/index.tsx:27 | the route path starts with `/`, equals `/` iff the rewritten route is empty, and is `/` followed by the rewritten route |
| RoutePath.FileFormEmpty | vont/src/client/index.tsx:24 | a piece list's file form is empty iff its route form is |
| RoutePath.TranslatePage | vont/src/client/index.tsx:9-28 | a non-index page `<prefix><pieces>.<ext>` maps to `/` and its pieces in route form |
| RoutePath.TranslateIndex | vont/src/client/index.tsx:9-28 | an index file `<prefix><pieces>/index.<ext>` maps to its directory's route |
| RoutePath.TranslateRootIndex | vont/src/client/index.tsx:12-21 | `index.<ext>` under any pages prefix maps to `/` |
| RoutePath.TranslateUnprefixed | vont/src/client/index.tsx:12-14 | a file outside any pages prefix keeps its directories, e.g. `components/x.tsx` maps to `/components/x` |
| ReactClient.ExtensionsSuffixFree | vont/src/client/index.tsx:14 | no React extension `.tsx`, `.ts`, `.jsx`, `.js` is a suffix of another |
| ReactClient.GetRoutePath | vont/src/client/index.tsx:9-28 | the React route path starts with `/` and is `/` exactly when the rewritten route is empty |
| ReactClient.RootIndexRoute | vont/src/client/index.tsx:12-21 | `./pages/index.tsx`, `/pages/index.tsx`, `/src/pages/index.tsx` and the other prefixed `index.<ext>` files all map to `/` |
| ReactClient.DirectoryIndexRoute | vont/src/client/index.tsx:17-18 | `pages/<dir>/index.tsx` maps to `/<dir>` |
| ReactClient.ParamPieces | vont/src/client/index.tsx:24 | a directory followed by one parameter has file form `dir[name]` and route form `dir:name` |
| ReactClient.ParamRoute | vont/src/client/index.tsx:24 | `pages/<dir>[name].tsx` maps to `/<dir>:name`, so `pages/users/[id].tsx` gives `/users/:id` and `[...rest]` gives `:...rest` |
| ReactClient.PlainPageRoute | vont/src/client/index.tsx:12-27 | `pages/<name>.tsx` without brackets or a trailing index maps to `/<name>` |
| ReactClient.UnprefixedRoute | vont/src/client/index.tsx:12-14 | a file without a pages prefix keeps its directories |
| ReactClient.SortBySpecificity | vont/src/client/index.tsx:47-51 | definition of the stable sort by descending `:` count; stated by `SortPermutation`, `SortNonIncreasing`, `SortStable` and `StableSortUnique` |
| ReactClient.SortPermutation | vont/src/client/index.tsx:47-51 | sorting by parameter count keeps exactly the same routes (a permutation) |
| ReactClient.SortNonIncreasing | vont/src/client/index.tsx:47-51 | after sorting, parameter counts never increase along the table |
| ReactClient.SortStable | vont/src/client/index.tsx:47-51 | routes with equal parameter counts keep their input order |
| ReactClient.HeadIsMaximal | vont/src/client/index.tsx:47-51 | the first route of a sorted table has the most parameters |
| ReactClient.StableSortUnique | vont/src/client/index.tsx:47-51 | there is only one ordering that is sorted and stable, so the sorted table is fully determined by the input |
| ReactClient.GenerateRoutes | vont/src/client/index.tsx:33-54 | one route per module; the table is a permutation of the collected routes, sorted by non-increasing parameter count, with ties kept in input order |
| ReactClient.GeneratedIsSorted | vont/src/client/index.tsx:47-51 | a non-increasing table with the same routes per parameter count as the collected routes is exactly their stable sort |
| ReactClient.PageRoutesNotStar | vont/src/client/index.tsx:27 | no page route has the catch-all path `*`, because every page path starts with `/` |
| ReactClient.VontAppRoutes | vont/src/client/index.tsx:71-89 | the route list ends with a `*` route showing `notFoundComponent` when given and `DefaultNotFound` otherwise; no page route precedes it with path `*` |
| VueClient.ExtensionsSuffixFree | vont/src/client/vue.ts:12 | no Vue extension `.vue`, `.tsx`, `.ts`, `.jsx`, `.js` is a suffix of another |
| VueClient.GetRoutePath | vont/src/client/vue.ts:8-26 | the Vue route path starts with `/` and is `/` exactly when the rewritten route is empty |
| VueClient.SameAsReact | vont/src/client/vue.ts:8-26 | on a file not ending in `.vue`, the Vue route path equals the React one |
| VueClient.RootIndexRoute | vont/src/client/vue.ts:14-19 | prefixed `index.<ext>` files, `.vue` included, map to `/` |
| VueClient.IndexFileRoute | vont/src/client/vue.ts:14-19 | an index file maps to its directory's route |
| VueClient.PageFileRoute | vont/src/client/vue.ts:10-25 | a non-index page, `.vue` stripped like the other extensions, maps to its pieces in route form |
| VueClient.ParamPageRoute | vont/src/client/vue.ts:22 | `pages/[name].vue` maps to `/:name` |
| VueClient.PageCanShadowNotFound | vont/src/client/vue.ts:22-44 | the page file `pages/[pathMatch(.*)*].vue` yields the catch-all's own path, since nothing detects duplicates |
| VueClient.GenerateRoutes | vont/src/client/vue.ts:31-56 | routes keep insertion order with `module.default` when present, else the module itself; the table has one more entry than there are modules, and the last is the `/:pathMatch(.*)*` 404 route |
| Build.EntriesFilesConcat | vont/src/build/index.ts:18-25 | the files found in a listing are those of its first part followed by those of its second |
| Build.DirSpliced | vont/src/build/index.ts:20-21 | a subdirectory's files are spliced in at that entry's position in listing order |
| Build.FileKeptIff | vont/src/build/index.ts:22-23 | a file entry contributes its joined path exactly when its name ends in `.ts` and not in `.test.ts` |
| Build.JoinedSuffix | vont/src/build/index.ts:19-22 | a joined path ends in a slash-free suffix exactly when the entry name does |
| Build.ApiFilesFiltered | vont/src/build/index.ts:13-31 | every file found lies under the directory, ends in `.ts` and does not end in `.test.ts` |
| Build.UnreadableIsEmpty | vont/src/build/index.ts:15-30 | a missing or unreadable directory yields `[]` rather than an error |
| Build.FindApiFiles | vont/src/build/index.ts:13-31 | the recursive push loop returns exactly the files of the abstract tree, in listing order |
| Build.ResolveBuildDirs | vont/src/build/index.ts:62-68 | the root directory passed in is kept |
| Build.BuildDirsPrecedence | vont/src/build/index.ts:66-68 | `outDir` is options > config > `root/dist`; `serverDir` is options > `outDir/server`; `apiDir` is options > config > `root/src/api` |
| Build.BuildRootPrecedence | vont/src/build/index.ts:62 | the root is `options.root` when truthy, else the working directory |
| Build.LoadedBuildDirs | vont/src/build/index.ts:63-68 | once merged with the defaults, a missing or empty user `outDir`/`apiDir` gives `root/dist` and `root/src/api` |
| Build.PluginList | vont/src/build/index.ts:108-114 | no Vite config gives no plugins |
| Build.PluginListLaws | vont/src/build/index.ts:111-114 | an array maps to itself, a truthy non-array value to a singleton, and a falsy value to `[]` |
| Build.VitePluginsKept | vont/src/build/index.ts:111-140 | normalising a list written with `vitePlugins` gives that list, and the list itself is what `viteBuild` receives |
| Build.NormalisedListUnused | vont/src/build/index.ts:111-140 | `viteBuild` receives the raw `plugins` value; it coincides with the normalised list exactly when the user wrote an array, and a single plugin is passed unwrapped |
| Build.DetectFramework | vont/src/build/index.ts:82-97 | definition of framework detection; stated by `DetectFrameworkIff` |
| Build.DetectFrameworkIff | vont/src/build/index.ts:82-97 | `config.framework` wins when set; otherwise Vue iff the merged dependencies have a truthy `vue` (devDependencies overriding dependencies), and React on read or parse failure |
| Build.ResolveBuildFlags | vont/src/build/index.ts:152-154 | definition of the build flags; stated by `BuildFlagsDefaults` |
| Build.BuildFlagsDefaults | vont/src/build/index.ts:152-154 | sourcemap and minify are on unless explicitly `false`; the target defaults to `es2020` |
| ConfigLoader.GetDefaultConfig | vont/src/config/loader.ts:42-61 | definition of the defaults; stated by `DefaultLiterals`, `DefaultPortsAndHost` and `DefaultsValid` |
| ConfigLoader.DefaultLiterals | vont/src/config/loader.ts:42-61 | defaults: `root = rootDir`, `apiPrefix = '/api'`, `apiDir`/`pagesDir`/`outDir` under `root`, build `{sourcemap: true, minify: true, target: 'es2020'}`, server middlewares `[]` |
| ConfigLoader.ParseDefaultPort | vont/src/config/loader.ts:45 | `parseInt('3000', 10)` is 3000 |
| ConfigLoader.ParseDefaultHmrPort | vont/src/config/loader.ts:52 | `parseInt('3001', 10)` is 3001 |
| ConfigLoader.DefaultPortsAndHost | vont/src/config/loader.ts:45-52 | the port comes from a non-empty `PORT`, else 3000; `hmrPort` from `HMR_PORT`, else 3001; the host from `HOST`, else `0.0.0.0` |
| ConfigLoader.MergeWithDefaults | vont/src/config/loader.ts:66-81 | definition of the merge; stated by `MergeTopLevel`, `MergeServerKeys`, `MergeBuildKeys`, `MergeComplete` and `MergeIdempotent` |
| ConfigLoader.MergeTopLevel | vont/src/config/loader.ts:69-71 | every top-level key present in the user config overrides the default; absent keys keep it |
| ConfigLoader.MergeServerKeys | vont/src/config/loader.ts:72-75 | `server` is merged key-wise: user keys win and default keys the user does not give are kept |
| ConfigLoader.MergeBuildKeys | vont/src/config/loader.ts:76-79 | `build` is merged key-wise in the same way |
| ConfigLoader.MergeEmpty | vont/src/config/loader.ts:66-81 | merging an empty user config gives the defaults |
| ConfigLoader.MergeComplete | vont/src/config/loader.ts:66-81 | after merging, every defaulted key, nested keys included, has a value |
| ConfigLoader.MergeOverKeeps | vont/src/config/loader.ts:69-79 | a key that the defaults have is present after the merge |
| ConfigLoader.MergeOverIdempotent | vont/src/config/loader.ts:69-79 | spreading the same user config twice over the same defaults changes nothing |
| ConfigLoader.MergeIdempotent | vont/src/config/loader.ts:66-81 | merging an already-merged config with the defaults again gives the same config |
| ConfigLoader.ValidateConfig | vont/src/config/loader.ts:86-98 | validation fails iff the root is falsy, or a truthy port or hmrPort lies outside [1, 65535]; the checks run in that order, and each failure names the first check that fails |
| ConfigLoader.FalsyPortsPass | vont/src/config/loader.ts:91 | port 0, NaN or undefined passes validation |
| ConfigLoader.DefaultsValid | vont/src/config/loader.ts:42-98 | the defaults validate exactly when the root is non-empty and each of `PORT` and `HMR_PORT` is unset, empty, or parses to NaN or to a number in [1, 65535] |
| ConfigLoader.FirstLoadableWins | vont/src/config/loader.ts:17-32 | the first candidate that is accessible and imports is merged with the defaults; earlier failing candidates are skipped |
| ConfigLoader.NoneLoadable | vont/src/config/loader.ts:34-36 | when no candidate loads, the defaults are used |
| ConfigLoader.LoadConfig | vont/src/config/loader.ts:10-37 | the loop over `vont.config.ts`, `.js`, `.mjs` with early return agrees with the first-success specification |
| RootConfigLoader.CompiledSpecifier | src/config/loader.ts:46-47 | the import specifier of the compiled `.ts` config is its file URL with a `?t=` cache-busting query |
| RootConfigLoader.CompiledSpecifierFresh | src/config/loader.ts:46-47 | different timestamps give different specifiers |
| RootConfigLoader.TryCandidate | src/config/loader.ts:18-66 | definition of one candidate's attempt, the compile branch included; stated by `CompileFailureFallsThrough`, `CompiledTsWins` and `SameAsPlainLoader` |
| RootConfigLoader.LoadConfig | src/config/loader.ts:11-72 | the candidate loop with its compile branch and `continue` agrees with the first-success specification |
| RootConfigLoader.CompileFailureFallsThrough | src/config/loader.ts:27-66 | when the temporary directory or the compile fails for `vont.config.ts`, the error rethrown at line 53 is caught at line 63 and the next candidate is tried |
| RootConfigLoader.CompiledTsWins | src/config/loader.ts:27-62 | an accessible `.ts` config that compiles and imports is the one merged with the defaults |
| RootConfigLoader.SameAsPlainLoader | src/config/loader.ts:55-58 | over candidates not ending in `.ts`, this loader behaves like the other copy |
| RootConfigLoader.NoTsSameAsPlainLoader | src/config/loader.ts:18-71 | without a `vont.config.ts`, both loaders give the same config |
| DevServer.ResolveDevSettings | vont/src/server/dev-server.ts:45-49 | the resolved port is never 0 |
| DevServer.DevSettingsPrecedence | vont/src/server/dev-server.ts:45-49 | `apiDir`, `pagesDir`, port (3000) and host (`0.0.0.0`) follow options > config > default; the HMR port is `options.hmrPort`, else `config.server.hmrPort`, else PORT + 1 |
| DevServer.LoadedHmrPortIgnoresPort | vont/src/server/dev-server.ts:49 | through the loader's defaults the HMR port is 3001 whatever the port, when `HMR_PORT` is unset and the user gives no `server` |
| DevServer.HmrPortFollowsPort | vont/src/server/dev-server.ts:49 | when `HMR_PORT` is set to text that is not a number, the default `hmrPort` is NaN, which is falsy, so the HMR port is the port + 1 |
| DevServer.ServesSpa | vont/src/server/dev-server.ts:178-189 | definition of when the page HTML is served; stated by `ApiPrefixNeverServed`, `InternalPathsNeverServed`, `HandledNeverServed` and `PagePathServed` |
| DevServer.ApiPrefixNeverServed | vont/src/server/dev-server.ts:186 | no path starting with `/api` gets the SPA HTML, `/apiary` included |
| DevServer.InternalPathsNeverServed | vont/src/server/dev-server.ts:187-188 | paths under `/.vont/` and `/@` never get the SPA HTML |
| DevServer.HandledNeverServed | vont/src/server/dev-server.ts:180-189 | sent headers, `respond === false` or an existing body mean no SPA HTML |
| DevServer.PagePathServed | vont/src/server/dev-server.ts:178-189 | for a path starting with none of `/api`, `/.vont/` and `/@`, the HTML is served exactly when headers are unsent, `respond !== false` and there is no body |
| DevServer.AboutServed | vont/src/server/dev-server.ts:178-189 | an untouched request for `/about` gets the HTML, although it starts with the same letter as `/api` |
| DevServer.IgnoredByWatcher | vont/src/server/dev-server.ts:144 | definition of the `ignored` pattern; stated by `DotSegmentIgnored` and `NoDotSegmentWatched` |
| DevServer.DotSegmentIgnored | vont/src/server/dev-server.ts:144 | a path with a segment after `/` that starts with `.` and has another character after the dot is ignored by the watcher |
| DevServer.LeadingDotIgnored | vont/src/server/dev-server.ts:144 | a path that starts with `.` followed by another character is ignored, as the `^` alternative of the pattern says |
| DevServer.NoDotSegmentWatched | vont/src/server/dev-server.ts:144 | a path with no such segment is not ignored |
| DevServer.AfterChange | vont/src/server/dev-server.ts:150-153 | definition of the watcher callback; stated by `BurstPending` and `ApiWatcher.OnChange` |
| DevServer.Fire | vont/src/server/dev-server.ts:154-174 | definition of the timer callback in both module formats; stated by `BurstReloadsOnce`, `FailedRescanKeepsRouter` and `EsModuleNeverReloads` |
| DevServer.AfterPass | vont/src/server/dev-server.ts:153-174 | definition of time passing until the timer is due; stated by `BurstReloadsOnce` and `ApiWatcher.Advance` |
| DevServer.RunConcat | vont/src/server/dev-server.ts:149-175 | running two step sequences is running them one after the other |
| DevServer.BurstPending | vont/src/server/dev-server.ts:152-153 | during a burst of events spaced under 300 ms, exactly one reload is pending, for the last event, due 300 ms after it, with no rescan yet |
| DevServer.BurstReloadsOnce | vont/src/server/dev-server.ts:149-175 | in a CommonJS server a burst followed by 300 ms of quiet triggers exactly one rescan, only the last event's path leaves the module cache, and the router is replaced iff the scan succeeds; in an ES module nothing is rescanned |
| DevServer.FailedRescanKeepsRouter | vont/src/server/dev-server.ts:159-172 | a failed rescan keeps the previous router; a rescan is counted only in a CommonJS server |
| DevServer.EsModuleNeverReloads | vont/src/server/dev-server.ts:159-172 | where `require` is undefined, the `ReferenceError` at `require.cache` is caught before the rescan, so no sequence of events changes the routes, the cache or the rescan count |
| DevServer.ApiWatcher.constructor | vont/src/server/dev-server.ts:149 | the watcher starts with no pending reload and no rescans |
| DevServer.ApiWatcher.OnChange | vont/src/server/dev-server.ts:150-153 | an event cancels the pending reload and schedules one 300 ms later, as the transition function says |
| DevServer.ApiWatcher.Advance | vont/src/server/dev-server.ts:153-174 | time passing fires the due reload as the transition function says |
| VirtualClient.TrimBetweenNewlines | vont/src/generators/virtual-client.ts:7-20 | `.trim()` removes exactly the template literal's opening and closing line breaks |
| VirtualClient.EntryTextEnds | vont/src/generators/virtual-client.ts:8-19 | the entry text starts with its import line and ends with `;` |
| VirtualClient.GenerateReactClient | vont/src/generators/virtual-client.ts:6-21 | definition of the React entry text; stated by `ReactClientText` and `EntryShape` |
| VirtualClient.GenerateVueClient | vont/src/generators/virtual-client.ts:26-41 | definition of the Vue entry text; stated by `VueClientText` and `EntryShape` |
| VirtualClient.ReactClientText | vont/src/generators/virtual-client.ts:6-21 | the React entry is the template text with both patterns filled in |
| VirtualClient.VueClientText | vont/src/generators/virtual-client.ts:26-41 | the Vue entry is the template text with both patterns filled in |
| VirtualClient.IntrosEndWithGlobCall | vont/src/generators/virtual-client.ts:11-14 | each pattern is preceded by `import.meta.glob('` |
| VirtualClient.PatternsInOrder | vont/src/generators/virtual-client.ts:11-34 | both globs appear verbatim, each right after `import.meta.glob('`, styles before pages |
| VirtualClient.GenerateVirtualClient | vont/src/generators/virtual-client.ts:47-57 | definition of `generateVirtualClient`; stated by `ClientDefaults`, `FrameworkChoosesEntry` and `ClientTextShape` |
| VirtualClient.ClientDefaults | vont/src/generators/virtual-client.ts:48-50 | missing or empty options give `/src/styles/**/*.css`, `/src/pages/**/*.{tsx,jsx,vue}` and React |
| VirtualClient.FrameworkChoosesEntry | vont/src/generators/virtual-client.ts:52-56 | `vue` gives the `renderVueApp` entry from `vont/client/vue`; anything else gives the `renderVontApp` entry from `vont/client` |
| VirtualClient.ClientTextShape | vont/src/generators/virtual-client.ts:20-57 | the output starts with the chosen import line and has no leading or trailing white space |
| VirtualClient.EntryShape | vont/src/generators/virtual-client.ts:7-20 | an entry text starts with its import line and has no white space at either end |
| Scaffolding.TemplateDescription | vont/src/scaffolding/index.ts:55-61 | `react-ts` is described as `React + TypeScript`, `vue-ts` as `Vue 3 + TypeScript` |
| Scaffolding.TemplatesExactly | vont/src/scaffolding/index.ts:41-50 | the templates are exactly `react-ts` and `vue-ts`, in that order, and a name is valid iff it is one of them |
| Scaffolding.ResolveChoice | vont/src/scaffolding/index.ts:156-179 | the answer always resolves to a member of the template list |
| Scaffolding.PromptTemplate | vont/src/scaffolding/index.ts:131-138 | a single template is returned without asking; the result is always a template |
| Scaffolding.BlankAnswerPicksFirst | vont/src/scaffolding/index.ts:156-162 | a blank answer picks the first template |
| Scaffolding.NumberPicksByPosition | vont/src/scaffolding/index.ts:165-169 | an answer whose leading digits read as k + 1 picks the k-th template |
| Scaffolding.NamePicksItself | vont/src/scaffolding/index.ts:171-175 | a non-numeric answer naming a template picks it |
| Scaffolding.NumberOutOfRangeFallsBack | vont/src/scaffolding/index.ts:165-179 | a number outside the list that is no template name falls back to the first |
| Scaffolding.NumericPrefixExample | vont/src/scaffolding/index.ts:165-167 | `2x` is read as 2 and picks `vue-ts` |
| Scaffolding.Substitute | vont/src/scaffolding/index.ts:29 | definition of the intended literal substitution; stated by `SubstituteEveryPlaceholder`, `NoPlaceholderUnchanged` and `JsonTemplateSubstituted` |
| Scaffolding.SubstitutePlainPrefix | vont/src/scaffolding/index.ts:29 | a prefix at none of whose positions a placeholder starts passes through the intended substitution unchanged |
| Scaffolding.SubstituteEveryPlaceholder | vont/src/scaffolding/index.ts:29 | every `{{PROJECT_NAME}}` between pieces without a placeholder is replaced by the project name, and the pieces are kept, whatever braces they contain |
| Scaffolding.NoPlaceholderUnchanged | vont/src/scaffolding/index.ts:29 | content without an occurrence of `{{PROJECT_NAME}}` is copied unchanged, braces included |
| Scaffolding.PlaceholderUnbordered | vont/src/scaffolding/index.ts:29 | no proper suffix of `{{PROJECT_NAME}}` is also its prefix, so two occurrences cannot overlap |
| Scaffolding.JsonTemplateSubstituted | vont/src/scaffolding/index.ts:29 | in a `package.json` line `{"name": "{{PROJECT_NAME}}"}` the placeholder is replaced and the JSON braces are kept |
| Scaffolding.ExpandPlain | vont/src/scaffolding/index.ts:29 | a replacement string without `$` stands for itself |
| Scaffolding.ReplaceAsWritten | vont/src/scaffolding/index.ts:29 | definition of the `replace` call as written; stated by `AsWrittenAgreesWithoutDollar` and `DollarNameMisexpanded` |
| Scaffolding.AsWrittenAgreesWithoutDollar | vont/src/scaffolding/index.ts:29 | for a project name without `$`, the `replace` call as written performs the intended substitution |
| Scaffolding.DollarNameMisexpanded | vont/src/scaffolding/index.ts:29 | the project name `a$&b` turns `{{PROJECT_NAME}}` into `a{{PROJECT_NAME}}b` as written, where `a$&b` is intended |
| CreateCli.CommandArgs | vont/src/cli/create.ts:9 | the arguments are `argv` from index 3 on |
| CreateCli.FirstNonFlag | vont/src/cli/create.ts:10 | the project name is the first argument not starting with `-`; it is undefined iff every argument does |
| CreateCli.FirstTemplateFlag | vont/src/cli/create.ts:11 | the template argument is the first starting with `--template`; it is undefined iff none does |
| CreateCli.TemplateAsWritten | vont/src/cli/create.ts:11-12 | definition of the template as the code reads it; stated by `NoSpaceNoTemplate`, `UsageExampleTemplate` and `EqualsFormTemplate` |
| CreateCli.TemplateIntended | vont/src/cli/create.ts:8-16 | definition of the template as documented; stated by `IntendedReadsFlag`, `UsageExampleTemplate` and `EqualsFormTemplate` |
| CreateCli.IntendedReadsFlag | vont/src/cli/create.ts:8-16 | as intended, the first template flag selects its template in both the `--template <t>` and the `--template=<t>` form, whatever the other arguments |
| CreateCli.NoSpaceNoTemplate | vont/src/cli/create.ts:11-12 | with no space inside any argument, the template as written is always undefined |
| CreateCli.UsageExampleTemplate | vont/src/cli/create.ts:11-16 | `<name> --template <t>` yields no template as written and `<t>` as intended |
| CreateCli.EqualsFormTemplate | vont/src/cli/create.ts:8-12 | `--template=<t>` yields no template as written and `<t>` as intended |
| CreateCli.CreateCommandAsWritten | vont/src/cli/create.ts:9-38 | definition of the command as written; stated by `UsageExampleOutcome` and `CreatedTemplateValid` |
| CreateCli.CreateCommand | vont/src/cli/create.ts:8-38 | definition of the command as documented; stated by `UsageExampleOutcome` |
| CreateCli.Decide | vont/src/cli/create.ts:14-38 | a missing name is an error; a defined invalid template is an error; otherwise the project is created with that name and template |
| CreateCli.CreatedTemplateValid | vont/src/cli/create.ts:29-38 | a template passed to `createProject` is valid or left to the prompt, both for the command as written and with the template read as intended |
| CreateCli.UsageExampleOutcome | vont/src/cli/create.ts:9-38 | `vont create my-app --template vue-ts` prompts for a template as written and creates with `vue-ts` as intended |
| ReactApi.BuildQueryString | examples/koa-react-ts/src/lib/api.ts:15-21 | definition of `buildQueryString`; stated by `QueryEmptyIff` and `QueryParsesBack` |
| ReactApi.Rendered | examples/koa-react-ts/src/lib/api.ts:18 | each kept entry renders as `enc(key)=enc(String(value))`, in entry order |
| ReactApi.KeptIff | examples/koa-react-ts/src/lib/api.ts:17 | an entry is kept iff its value is neither null nor undefined |
| ReactApi.KeptConcat | examples/koa-react-ts/src/lib/api.ts:16-17 | the filter keeps entry order |
| ReactApi.KeptEmptyIff | examples/koa-react-ts/src/lib/api.ts:17 | nothing is kept iff every value is null or undefined |
| ReactApi.QueryEmptyIff | examples/koa-react-ts/src/lib/api.ts:20 | the query string is `''` iff no entry is kept, and starts with `?` otherwise |
| ReactApi.QueryParsesBack | examples/koa-react-ts/src/lib/api.ts:15-21 | with an encoder that never emits `&` or `=`, splitting the query at `&` and each piece at `=` recovers the encoded kept entries in order |
| ReactApi.SlashedPath | examples/koa-react-ts/src/lib/api.ts:33 | the path gets a leading `/` exactly when it lacks one |
| ReactApi.FetchUrl | examples/koa-react-ts/src/lib/api.ts:33-36 | the URL always starts with `/api/`; the query string is appended only when `params` is given |
| ReactApi.SlashOptional | examples/koa-react-ts/src/lib/api.ts:33 | `x` and `/x` give the same URL |
| ReactApi.NoQueryWithoutValues | examples/koa-react-ts/src/lib/api.ts:20-36 | without params, or with only null/undefined values, the URL has no query string |
| ReactApi.FinalHeaders | examples/koa-react-ts/src/lib/api.ts:39-45 | definition of the merged headers; stated by `CallerHeadersReplace` |
| ReactApi.FetchRequest | examples/koa-react-ts/src/lib/api.ts:30-48 | definition of the request `fetchApi` sends; stated by `CallerHeadersReplace`, `GetRequest` and `BodyRequest` |
| ReactApi.CallerHeadersReplace | examples/koa-react-ts/src/lib/api.ts:39-45 | caller `headers` replace the merged headers, JSON `Content-Type` included; method and body pass through |
| ReactApi.ErrorMessage | examples/koa-react-ts/src/lib/api.ts:52-54 | the thrown message is `errorData.error` when truthy, else `API error: <statusText> (<status>)`; it is never empty |
| ReactApi.FetchOutcome | examples/koa-react-ts/src/lib/api.ts:50-57 | a response settles successfully iff it is ok and its body parses, with the parsed body (`null` included); a non-ok response with a `null` body rejects with the `TypeError` of `errorData.error`, otherwise with the error message (the `error` key of a body that parses, else the status text); an ok body that is not JSON rejects with the parser's `SyntaxError` |
| ReactApi.GetRequest | examples/koa-react-ts/src/lib/api.ts:67-69 | `get` sends GET, no body, the JSON content type, and the query exactly when params are given |
| ReactApi.BodyRequest | examples/koa-react-ts/src/lib/api.ts:74-121 | a body wrapper sends `JSON.stringify(body)` and its own method unless the options name another |
| ReactApi.PostRequest | examples/koa-react-ts/src/lib/api.ts:74-84 | `post` sends POST unless the options override the method |
| ReactApi.PutRequest | examples/koa-react-ts/src/lib/api.ts:89-99 | `put` sends PUT unless the options override the method |
| ReactApi.PatchRequest | examples/koa-react-ts/src/lib/api.ts:111-121 | `patch` sends PATCH unless the options override the method |
| ReactApi.DeleteRequest | examples/koa-react-ts/src/lib/api.ts:104-106 | `del` sends DELETE unless the options override it, passing the other options through |
| VueApi.Request | examples/koa-vue-ts/src/lib/api.ts:11-30 | the URL is `/api` + path with nothing inserted; a body is attached iff data is truthy and the method is not GET |
| VueApi.Settle | examples/koa-vue-ts/src/lib/api.ts:33-43 | 204 returns `{data: undefined}` without parsing; any other body that is not JSON rejects with `SyntaxError`; a non-ok response with a `null` body rejects with the `TypeError` of `json.error`, any other non-ok one throws `json.error`, else `Request failed`; an ok one returns the parsed JSON, `null` included |
| VueApi.SettleSucceedsIff | examples/koa-vue-ts/src/lib/api.ts:33-43 | a request succeeds iff the status is 204, or the body parses and the response is ok; only 204 gives no data; the parser's error surfaces exactly for a non-204 body that is not JSON, and the `TypeError` exactly for a non-204, non-ok `null` body |
| VueApi.Get | examples/koa-vue-ts/src/lib/api.ts:53-55 | `get` never sends a body |
| VueApi.Post | examples/koa-vue-ts/src/lib/api.ts:60-62 | `post` sends a body exactly when the data is truthy |
| VueApi.Put | examples/koa-vue-ts/src/lib/api.ts:67-69 | `put` sends a body exactly when the data is truthy |
| VueApi.Delete | examples/koa-vue-ts/src/lib/api.ts:74-76 | `delete` never sends a body |
| VueApi.UserPath | examples/koa-vue-ts/src/lib/api.ts:94-111 | `/users/${id}` is `/users/` followed by the id's decimal text |
| VueApi.UserPathInjective | examples/koa-vue-ts/src/lib/api.ts:94-111 | different ids give different paths |
| VueApi.GetAllUsers | examples/koa-vue-ts/src/lib/api.ts:89 | `getAll` is GET `/api/users` |
| VueApi.GetUserById | examples/koa-vue-ts/src/lib/api.ts:94 | `getById(id)` is GET `/api/users/<id>` |
| VueApi.CreateUser | examples/koa-vue-ts/src/lib/api.ts:99-100 | `create` is POST `/api/users` with the data as the body |
| VueApi.UpdateUser | examples/koa-vue-ts/src/lib/api.ts:105-106 | `update(id)` is PUT `/api/users/<id>` with the data as the body |
| VueApi.DeleteUser | examples/koa-vue-ts/src/lib/api.ts:111 | `delete(id)` is DELETE `/api/users/<id>` without a body |
| UsersStore.MaxId | examples/koa-react-ts/src/api/users.ts:37 | `Math.max(...ids, 0)` is at least 0 and every id, and is 0 or one of the ids |
| UsersStore.NextIdFresh | examples/koa-react-ts/src/api/users.ts:36-40 | the new id is greater than every existing id, and 1 on an empty store |
| UsersStore.InitialNextId | examples/koa-react-ts/src/api/users.ts:5-37 | the three initial users have unique ids, and the next id is 4 |
| UsersStore.PostStore | examples/koa-react-ts/src/api/users.ts:25-48 | definition of the store after `post`; stated by `PostEffect`, `PostKeepsUnique` and `Store.Post` |
| UsersStore.PostResponse | examples/koa-react-ts/src/api/users.ts:25-48 | definition of the response to `post`; stated by `PostEffect` and `Store.Post` |
| UsersStore.PostEffect | examples/koa-react-ts/src/api/users.ts:28-47 | a missing or empty name or email gives 400 with an error and an unchanged store; otherwise exactly one user is appended with a fresh id, existing entries are kept, and the response is 201 with `{data: newUser}` |
| UsersStore.PostKeepsUnique | examples/koa-react-ts/src/api/users.ts:37-42 | a post keeps ids unique |
| UsersStore.PostsKeepUnique | examples/koa-react-ts/src/api/users.ts:37-42 | ids stay unique and earlier entries stay in place across any sequence of posts |
| UsersStore.Store.constructor | examples/koa-react-ts/src/api/users.ts:5-9 | the store starts with Alice, Bob and Charlie with ids 1, 2, 3 |
| UsersStore.Store.Get | examples/koa-react-ts/src/api/users.ts:15-19 | `get` answers with the whole list and leaves the store unchanged |
| UsersStore.Store.Post | examples/koa-react-ts/src/api/users.ts:25-48 | `post` changes the store and answers as the pure specification says, keeping ids unique |

## Left out

- The server-side route registry, Koa route registration, the router generator
  and the production server are not part of this model. `route-registry.js`,
  `app.js`, `router-generator.js`, `prod-server.js` and `production.js` are
  imported at `vont/src/index.ts:2-7` and `vont/src/server/dev-server.ts:10-11`,
  but their source is not available.
- Vite, esbuild, chokidar and koa-connect calls, the HTTP server, signals and
  shutdown timeouts are foreign APIs and process lifecycle. This covers
  `vont/src/server/dev-server.ts:82-140,210-264` and
  `vont/src/build/index.ts:117-246` apart from the flag expressions.
- File-system writes are I/O and are not modelled: `.vont` directory creation,
  `cleanupTempFile`, temporary-file removal, `copyDir`'s directory walk and its
  writes, and `createProject`.
- `promptTemplate`'s readline dialogue is terminal I/O. Only the resolution of
  an answer is modelled.
- Real timers and `require.cache` are replaced by logical time and a set of
  cached paths.
- Rescans run one at a time. The asynchronous interleaving of a slow rescan
  with a later event is concurrency and is not modelled.
- The dev server passes `viteConfig.plugins` to `createViteServer` unnormalised
  too (`vont/src/server/dev-server.ts:85`); the Vite server options are not
  modelled.
- `path.resolve` of the changed file is not modelled: the cache key is the path
  as reported.
- Object spread does not tell a key that is present with the value `undefined`
  apart from a missing key. Both are `None`. The same holds for the React
  example's `...fetchOptions`.
- `path.join` is `dir + "/" + name`, without normalisation of `.`, `..` or
  doubled slashes.
- `pathToFileURL` is `"file://" + path`, without percent-encoding.
- Numbers are integers or NaN: fractional numbers, and the loss of precision
  of doubles beyond 2^53, are not modelled.
- Handlers, middleware, plugins and page components are opaque tokens: their
  behaviour is foreign code.
- `package.json` dependency values are strings. Only their truthiness is used.
- `encodeURIComponent`, `String(value)` and `JSON.stringify` are inputs. The
  query-string lemmas assume only that the encoder never emits `&` or `=`.
- `fetchApi` and `request` log the error and rethrow it. The log is output and
  the rethrow is the same `Failure`.
- `users.ts` handlers read `name` and `email` from a body object that is
  assumed present. A request without a parsed body throws in the source.
- `get` in `users.ts` returns the live array. Later posts being visible
  through an earlier response object (aliasing) is not modelled.
- `ApiModule` and the route and config interfaces appear as datatypes only.
  No code in the modelled files does anything with them.

## Findings

| source | as written | input that shows it | evidently intended | confidence | as-written member | corrected member |
|---|---|---|---|---|---|---|
| vont/src/scaffolding/index.ts:29 | `content.replace(/\{\{PROJECT_NAME\}\}/g, projectName)` treats the project name as a replacement pattern, so `$&`, `$$`, `` $` `` and `$'` in it are expanded | project name `a$&b` on a file containing `{{PROJECT_NAME}}` yields `a{{PROJECT_NAME}}b` | every placeholder replaced by the project name literally | not executed | Scaffolding.DollarNameMisexpanded | Scaffolding.SubstituteEveryPlaceholder |
| vont/src/cli/create.ts:11-12 | the template is the second space-separated piece of the first argument starting with `--template`, but shells pass `--template vue-ts` as two arguments and `--template=vue-ts` has no space | `vont create my-app --template vue-ts` yields no template, so the prompt is shown | `--template <name>` (the usage text) and `--template=<name>` (the comment at line 8) both select `<name>` | not executed | CreateCli.UsageExampleOutcome | CreateCli.IntendedReadsFlag |
