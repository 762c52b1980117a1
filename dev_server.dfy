/** The decision logic of the development server (`server/dev-server.ts`): how
    options, the loaded configuration and the defaults combine, which requests
    get the SPA page, which paths the API watcher ignores, and the debounced
    reload of the API routes after file changes. Vite, Koa and the HTTP server
    are not modelled; the route registry is an input that answers each rescan. */
module DevServer {
  import opened Wrappers
  import opened Js
  import opened VontTypes
  import ConfigLoader

  // ---------------------------------------------------------------------------
  // Settings
  // ---------------------------------------------------------------------------

  /** The keys of `DevServerOptions` that `createDevServer` reads. */
  datatype DevOptions = DevOptions(root: Option<string>, apiDir: Option<string>, pagesDir: Option<string>,
                                   port: Option<JsNumber>, host: Option<string>, hmrPort: Option<JsNumber>)

  /** No options at all. */
  const NoDevOptions := DevOptions(None, None, None, None, None, None)

  /** The settings the server runs with; the ports are truthy numbers by
      construction, so they are integers. */
  datatype DevSettings = DevSettings(apiDir: string, pagesDir: string, port: int, host: string, hmrPort: int)

  /** `a || b` on optional numbers, `None` when both are falsy. */
  function OrNum(a: Option<JsNumber>, b: Option<JsNumber>): Option<JsNumber> {
    if OptNumTruthy(a) then a else b
  }

  /** `a || d` where the default `d` is an integer. */
  function NumOrDefault(a: Option<JsNumber>, d: int): int {
    if OptNumTruthy(a) then a.value.n else d
  }

  /** Lines 45-49 of `createDevServer`. */
  function ResolveDevSettings(options: DevOptions, rootDir: string, config: VontConfig): (r: DevSettings)
    ensures r.port != 0
  {
    var port := NumOrDefault(OrNum(options.port, config.port), 3000);
    var configHmr := if config.server.Some? then config.server.value.hmrPort else None;
    DevSettings(
      apiDir := StrOrDefault(OrStr(options.apiDir, config.apiDir), PathJoin(PathJoin(rootDir, "src"), "api")),
      pagesDir := StrOrDefault(OrStr(options.pagesDir, config.pagesDir), PathJoin(PathJoin(rootDir, "src"), "pages")),
      port := port,
      host := StrOrDefault(OrStr(options.host, config.host), "0.0.0.0"),
      hmrPort := NumOrDefault(OrNum(options.hmrPort, configHmr), port + 1))
  }

  /** Each setting takes the option when truthy, else the configuration's value
      when truthy, else the default; the HMR port's last resort is the port
      plus one. */
  lemma DevSettingsPrecedence(options: DevOptions, rootDir: string, config: VontConfig)
    ensures var r := ResolveDevSettings(options, rootDir, config);
      && (StrTruthy(options.apiDir) ==> r.apiDir == options.apiDir.value)
      && (!StrTruthy(options.apiDir) && StrTruthy(config.apiDir) ==> r.apiDir == config.apiDir.value)
      && (!StrTruthy(options.apiDir) && !StrTruthy(config.apiDir) ==> r.apiDir == PathJoin(PathJoin(rootDir, "src"), "api"))
      && (StrTruthy(options.pagesDir) ==> r.pagesDir == options.pagesDir.value)
      && (!StrTruthy(options.pagesDir) && StrTruthy(config.pagesDir) ==> r.pagesDir == config.pagesDir.value)
      && (!StrTruthy(options.pagesDir) && !StrTruthy(config.pagesDir) ==> r.pagesDir == PathJoin(PathJoin(rootDir, "src"), "pages"))
      && (OptNumTruthy(options.port) ==> r.port == options.port.value.n)
      && (!OptNumTruthy(options.port) && OptNumTruthy(config.port) ==> r.port == config.port.value.n)
      && (!OptNumTruthy(options.port) && !OptNumTruthy(config.port) ==> r.port == 3000)
      && (StrTruthy(options.host) ==> r.host == options.host.value)
      && (!StrTruthy(options.host) && StrTruthy(config.host) ==> r.host == config.host.value)
      && (!StrTruthy(options.host) && !StrTruthy(config.host) ==> r.host == "0.0.0.0")
      && (OptNumTruthy(options.hmrPort) ==> r.hmrPort == options.hmrPort.value.n)
      && (!OptNumTruthy(options.hmrPort) && config.server.Some? && OptNumTruthy(config.server.value.hmrPort)
          ==> r.hmrPort == config.server.value.hmrPort.value.n)
      && (!OptNumTruthy(options.hmrPort) && !(config.server.Some? && OptNumTruthy(config.server.value.hmrPort))
          ==> r.hmrPort == r.port + 1)
  {
  }

  /** With a loaded configuration, no options, no `server` key in the user's file
      and `HMR_PORT` unset, the HMR port is 3001 whatever the port is: the
      defaults always fill `server.hmrPort`, so "port plus one" is not reached. */
  lemma LoadedHmrPortIgnoresPort(user: VontConfig, rootDir: string, env: Env)
    requires user.server.None? && !StrTruthy(EnvVar(env, "HMR_PORT"))
    ensures ResolveDevSettings(NoDevOptions, rootDir, ConfigLoader.MergeWithDefaults(user, rootDir, env)).hmrPort == 3001
  {
    ConfigLoader.DefaultPortsAndHost(rootDir, env);
    ConfigLoader.MergeServerKeys(user, rootDir, env);
  }

  /** "Port plus one" is reached when `HMR_PORT` is set to text that is not a
      number (and neither options nor the user's file give an HMR port). */
  lemma HmrPortFollowsPort(user: VontConfig, rootDir: string, env: Env)
    requires user.server.None? && StrTruthy(EnvVar(env, "HMR_PORT")) && ParseInt(env["HMR_PORT"]) == NaN
    ensures var r := ResolveDevSettings(NoDevOptions, rootDir, ConfigLoader.MergeWithDefaults(user, rootDir, env));
      r.hmrPort == r.port + 1
  {
    ConfigLoader.DefaultPortsAndHost(rootDir, env);
    ConfigLoader.MergeServerKeys(user, rootDir, env);
  }

  // ---------------------------------------------------------------------------
  // SPA fallback
  // ---------------------------------------------------------------------------

  /** The request state the fallback middleware looks at: whether headers were
      sent, `ctx.respond` (undefined, true or false), the path, and whether the
      body is truthy. */
  datatype RequestState = RequestState(headersSent: bool, respond: Option<bool>, path: string, hasBody: bool)

  /** The fallback serves the development HTML page. */
  predicate ServesSpa(req: RequestState) {
    !(req.headersSent || req.respond == Some(false))
    && !StartsWith(req.path, "/api") && !StartsWith(req.path, "/.vont/") && !StartsWith(req.path, "/@")
    && !req.hasBody
  }

  /** Nothing under the `/api` prefix gets the page, including paths such as
      `/apiary` that merely start with the same letters. */
  lemma ApiPrefixNeverServed(req: RequestState, rest: string)
    requires req.path == "/api" + rest
    ensures !ServesSpa(req)
  {
    assert req.path[..4] == "/api";
  }

  /** Nor do the virtual client files and Vite's `/@` paths. */
  lemma InternalPathsNeverServed(req: RequestState, rest: string)
    requires req.path == "/.vont/" + rest || req.path == "/@" + rest
    ensures !ServesSpa(req)
  {
    if req.path == "/.vont/" + rest {
      assert req.path[..7] == "/.vont/";
    } else {
      assert req.path[..2] == "/@";
    }
  }

  /** A handled response (headers sent, `respond` false or a body) never gets the
      page. */
  lemma HandledNeverServed(req: RequestState)
    requires req.headersSent || req.respond == Some(false) || req.hasBody
    ensures !ServesSpa(req)
  {
  }

  /** Any other path gets the page exactly when the response is untouched. */
  lemma PagePathServed(req: RequestState)
    requires !StartsWith(req.path, "/api") && !StartsWith(req.path, "/.vont/") && !StartsWith(req.path, "/@")
    ensures ServesSpa(req) <==> !req.headersSent && req.respond != Some(false) && !req.hasBody
  {
  }

  /** `/about`, which shares its first letter with `/api`, gets the page. */
  lemma AboutServed(req: RequestState)
    requires req == RequestState(false, None, "/about", false)
    ensures ServesSpa(req)
  {
    var p := req.path;
    assert p[..4][2] != "/api"[2];
    assert |p| < |"/.vont/"|;
    assert p[..2][1] != "/@"[1];
    PagePathServed(req);
  }

  // ---------------------------------------------------------------------------
  // Watcher filter
  // ---------------------------------------------------------------------------

  /** The characters the regular expression `.` does not match. */
  predicate IsLineTerminator(c: char) {
    c == '\n' || c == '\r' || c == '\U{2028}' || c == '\U{2029}'
  }

  /** `/(^|[/\\])\../` finds a match at `i`: `i` is the start or follows a slash
      or backslash, `path[i]` is a dot, and another character other than a line
      terminator follows. */
  predicate DotSegmentAt(path: string, i: nat) {
    i + 1 < |path| && (i == 0 || path[i - 1] == '/' || path[i - 1] == '\\')
    && path[i] == '.' && !IsLineTerminator(path[i + 1])
  }

  /** The watcher's `ignored` test. */
  predicate IgnoredByWatcher(path: string) {
    exists i: nat :: i < |path| && DotSegmentAt(path, i)
  }

  /** A file or directory whose name starts with a dot is ignored, wherever it
      sits, so everything below such a directory is ignored too. */
  lemma DotSegmentIgnored(dir: string, name: string, below: string)
    requires |name| >= 1 && !IsLineTerminator(name[0])
    ensures IgnoredByWatcher(dir + "/." + name + below)
  {
    var p := dir + "/." + name + below;
    assert DotSegmentAt(p, |dir| + 1);
  }

  /** A relative path whose first segment starts with a dot is ignored. */
  lemma LeadingDotIgnored(name: string, below: string)
    requires |name| >= 1 && !IsLineTerminator(name[0])
    ensures IgnoredByWatcher("." + name + below)
  {
    assert DotSegmentAt("." + name + below, 0);
  }

  /** A path none of whose segments starts with a dot is watched. */
  lemma NoDotSegmentWatched(path: string)
    requires path == [] || path[0] != '.'
    requires forall i :: 0 <= i < |path| - 1 && (path[i] == '/' || path[i] == '\\') ==> path[i + 1] != '.'
    ensures !IgnoredByWatcher(path)
  {
    forall i: nat
      ensures !DotSegmentAt(path, i)
    {
      if i > 0 && i + 1 < |path| && (path[i - 1] == '/' || path[i - 1] == '\\') {
        assert path[(i - 1) + 1] != '.';
      }
    }
  }

  // ---------------------------------------------------------------------------
  // Debounced reload
  // ---------------------------------------------------------------------------

  /** The debounce delay, in milliseconds. */
  const ReloadDelay: nat := 300

  /** A scheduled reload: the event and path it was scheduled for and when it is
      due. */
  datatype Timer = Timer(event: string, path: string, due: nat)

  /** What a rescan gives: the new API routes, or `None` when `scan` or
      `getApiRoutes` throws. */
  type ScanResult = Option<seq<RouteConfig>>

  /** The watcher's state: the clock, the pending timer (`reloadTimeout`), the
      module-cache keys, the routes the current `apiRouter` was registered from,
      how many rescans ran, and whether the server runs as a CommonJS module, in
      which `require` is defined; it never changes. */
  datatype Watch = Watch(now: nat, pending: Option<Timer>, cache: set<string>,
                         router: seq<RouteConfig>, rescans: nat, commonJs: bool)

  /** One thing that happens: a watcher event, or time passing. */
  datatype Step = Change(event: string, path: string) | Pass(dt: nat)

  /** The watcher callback: the pending timer is cleared and a new one set. */
  function AfterChange(w: Watch, event: string, path: string): Watch {
    w.(pending := Some(Timer(event, path, w.now + ReloadDelay)))
  }

  /** The timer callback: the cache entry of the timer's path is deleted, the
      routes are rescanned, and `apiRouter` is replaced only when the rescan
      succeeds. `scans(k)` is what the k-th rescan gives. In an ES module
      `require` is not defined: reading `require.cache` throws a
      `ReferenceError`, which the callback catches, so nothing else happens. */
  function Fire(w: Watch, t: Timer, scans: nat -> ScanResult): Watch {
    if !w.commonJs then w.(pending := None)
    else
      var r := scans(w.rescans);
      w.(pending := None, cache := w.cache - {t.path},
         router := if r.Some? then r.value else w.router, rescans := w.rescans + 1)
  }

  /** Time passes by `dt`; the pending timer fires if it falls due. */
  function AfterPass(w: Watch, dt: nat, scans: nat -> ScanResult): Watch {
    var w' := w.(now := w.now + dt);
    if w.pending.Some? && w.pending.value.due <= w'.now then Fire(w', w.pending.value, scans) else w'
  }

  function Apply(w: Watch, s: Step, scans: nat -> ScanResult): Watch {
    match s
    case Change(event, path) => AfterChange(w, event, path)
    case Pass(dt) => AfterPass(w, dt, scans)
  }

  function Run(w: Watch, steps: seq<Step>, scans: nat -> ScanResult): Watch
    decreases |steps|
  {
    if steps == [] then w else Run(Apply(w, steps[0], scans), steps[1..], scans)
  }

  lemma {:induction false} RunConcat(w: Watch, a: seq<Step>, b: seq<Step>, scans: nat -> ScanResult)
    ensures Run(w, a + b, scans) == Run(Run(w, a, scans), b, scans)
    decreases |a|
  {
    if a == [] {
      assert a + b == b;
    } else {
      assert (a + b)[1..] == a[1..] + b;
      RunConcat(Apply(w, a[0], scans), a[1..], b, scans);
    }
  }

  /** One event of a burst and the time since the previous one. */
  datatype BurstEvent = BurstEvent(gapBefore: nat, event: string, path: string)

  /** The steps of a burst: each event after its gap. */
  function BurstSteps(b: seq<BurstEvent>): seq<Step> {
    if b == [] then []
    else
      var e := b[|b| - 1];
      BurstSteps(b[..|b| - 1]) + [Pass(e.gapBefore), Change(e.event, e.path)]
  }

  /** The time a burst takes. */
  function BurstLength(b: seq<BurstEvent>): nat {
    if b == [] then 0 else BurstLength(b[..|b| - 1]) + b[|b| - 1].gapBefore
  }

  /** During a burst whose events come less than 300 ms apart, starting with no
      reload pending, nothing fires: only the clock moves and one timer is
      pending, for the last event. */
  lemma {:induction false} BurstPending(w: Watch, b: seq<BurstEvent>, scans: nat -> ScanResult)
    requires w.pending.None? && |b| >= 1
    requires forall i :: 1 <= i < |b| ==> b[i].gapBefore < ReloadDelay
    ensures var last := b[|b| - 1];
      var now := w.now + BurstLength(b);
      Run(w, BurstSteps(b), scans)
        == w.(now := now, pending := Some(Timer(last.event, last.path, now + ReloadDelay)))
  {
    var e := b[|b| - 1];
    var front := b[..|b| - 1];
    var two := [Pass(e.gapBefore), Change(e.event, e.path)];
    assert BurstSteps(b) == BurstSteps(front) + two;
    RunConcat(w, BurstSteps(front), two, scans);
    var mid := Run(w, BurstSteps(front), scans);
    var nowMid := w.now + BurstLength(front);
    if |front| >= 1 {
      forall i | 1 <= i < |front|
        ensures front[i].gapBefore < ReloadDelay
      {
        assert front[i] == b[i];
      }
      BurstPending(w, front, scans);
      assert e.gapBefore < ReloadDelay;
      assert mid.pending.Some? && mid.pending.value.due == nowMid + ReloadDelay;
    } else {
      assert mid == w;
    }
    assert mid.now == nowMid;
    var afterPass := mid.(now := nowMid + e.gapBefore);
    assert Apply(mid, two[0], scans) == afterPass;
    assert two[1..] == [Change(e.event, e.path)];
    assert two[1..][1..] == [];
    assert Run(mid, two, scans) == Run(afterPass, two[1..], scans);
    var fin := AfterChange(afterPass, e.event, e.path);
    assert Run(afterPass, two[1..], scans) == Run(fin, [], scans) == fin;
    assert mid.cache == w.cache && mid.router == w.router && mid.rescans == w.rescans;
    assert BurstLength(b) == BurstLength(front) + e.gapBefore;
  }

  /** A burst of changes less than 300 ms apart, followed by at least 300 ms of
      quiet, triggers exactly one rescan in a CommonJS server; only the last
      event's path leaves the module cache; the routes are replaced only if that
      rescan succeeds. In an ES module the timer fires and nothing is rescanned. */
  lemma BurstReloadsOnce(w: Watch, b: seq<BurstEvent>, quiet: nat, scans: nat -> ScanResult)
    requires w.pending.None? && |b| >= 1
    requires forall i :: 1 <= i < |b| ==> b[i].gapBefore < ReloadDelay
    requires quiet >= ReloadDelay
    ensures var r := Run(w, BurstSteps(b) + [Pass(quiet)], scans);
      && r.rescans == w.rescans + (if w.commonJs then 1 else 0)
      && r.cache == (if w.commonJs then w.cache - {b[|b| - 1].path} else w.cache)
      && r.router == (if w.commonJs && scans(w.rescans).Some? then scans(w.rescans).value else w.router)
      && r.pending.None?
  {
    BurstPending(w, b, scans);
    RunConcat(w, BurstSteps(b), [Pass(quiet)], scans);
    assert [Pass(quiet)][1..] == [];
  }

  /** A failed rescan leaves the routes as they were. */
  lemma FailedRescanKeepsRouter(w: Watch, t: Timer, scans: nat -> ScanResult)
    requires scans(w.rescans).None?
    ensures Fire(w, t, scans).router == w.router
    ensures Fire(w, t, scans).rescans == w.rescans + (if w.commonJs then 1 else 0)
  {
  }

  /** In an ES module no sequence of changes and waits ever rescans, evicts a
      cache entry or replaces the routes. */
  lemma {:induction false} EsModuleNeverReloads(w: Watch, steps: seq<Step>, scans: nat -> ScanResult)
    requires !w.commonJs
    ensures var r := Run(w, steps, scans);
      r.router == w.router && r.cache == w.cache && r.rescans == w.rescans && !r.commonJs
    decreases |steps|
  {
    if steps != [] {
      var w' := Apply(w, steps[0], scans);
      EsModuleNeverReloads(w', steps[1..], scans);
    }
  }

  /** The watcher as the server holds it: the variables the callbacks reassign. */
  class ApiWatcher {
    var now: nat
    var pending: Option<Timer>
    var cache: set<string>
    var router: seq<RouteConfig>
    var rescans: nat
    const commonJs: bool
    const scans: nat -> ScanResult

    function State(): Watch
      reads this
    {
      Watch(now, pending, cache, router, rescans, commonJs)
    }

    /** The server after the first scan and registration, with no reload
        pending. */
    constructor (cache0: set<string>, routes: seq<RouteConfig>, commonJs: bool, scans: nat -> ScanResult)
      ensures State() == Watch(0, None, cache0, routes, 0, commonJs) && this.scans == scans
    {
      now := 0;
      pending := None;
      cache := cache0;
      router := routes;
      rescans := 0;
      this.commonJs := commonJs;
      this.scans := scans;
    }

    /** `apiWatcher.on('all', …)`: clear the pending timer, set a new one. */
    method OnChange(event: string, path: string)
      modifies this
      ensures State() == AfterChange(old(State()), event, path)
    {
      pending := Some(Timer(event, path, now + ReloadDelay));
    }

    /** Time passes; the pending timer's callback runs if it falls due. */
    method Advance(dt: nat)
      modifies this
      ensures State() == AfterPass(old(State()), dt, scans)
    {
      now := now + dt;
      if pending.Some? && pending.value.due <= now {
        var t := pending.value;
        pending := None;
        if commonJs {
          cache := cache - {t.path};
          var result := scans(rescans);
          if result.Some? {
            router := result.value;
          }
          rescans := rescans + 1;
        }
      }
    }
  }
}
