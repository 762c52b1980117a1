/** The framework's public types (`types/index.ts`): route and module shapes, the
    configuration record, and the identity helpers used in `vont.config.ts`.
    Handlers, middleware, plugins and Vite configurations are functions or
    objects the model never looks into; each is an opaque token. */
module VontTypes {
  import opened Wrappers
  import opened Js

  /** A route handler or middleware function, known only by identity. */
  datatype Handler = Handler(id: nat)
  datatype Middleware = Middleware(id: nat)

  /** A Vite plugin object, known only by identity. */
  datatype Plugin = Plugin(id: nat)

  /** The value found under `viteConfig.plugins`: missing or falsy, an array, or
      a single truthy non-array value. */
  datatype PluginsValue = NoPlugins | PluginArray(items: seq<Plugin>) | SinglePlugin(item: Plugin)

  /** The part of a user's Vite configuration the framework reads. */
  datatype ViteConfig = ViteConfig(plugins: PluginsValue)

  /** `RouteConfig.method`: a union of exactly six string literals. */
  datatype HttpMethod = GET | POST | PUT | DELETE | PATCH | OPTIONS

  const AllMethods: seq<HttpMethod> := [GET, POST, PUT, DELETE, PATCH, OPTIONS]

  /** The string literal each method stands for. */
  function MethodName(m: HttpMethod): string {
    match m
    case GET => "GET"
    case POST => "POST"
    case PUT => "PUT"
    case DELETE => "DELETE"
    case PATCH => "PATCH"
    case OPTIONS => "OPTIONS"
  }

  /** The string of a method literal, if `s` is one of the six. */
  function ParseMethod(s: string): (m: Option<HttpMethod>)
    ensures m.Some? ==> MethodName(m.value) == s
  {
    if s == "GET" then Some(GET)
    else if s == "POST" then Some(POST)
    else if s == "PUT" then Some(PUT)
    else if s == "DELETE" then Some(DELETE)
    else if s == "PATCH" then Some(PATCH)
    else if s == "OPTIONS" then Some(OPTIONS)
    else None
  }

  /** Every method has its own literal, and the six literals are all there is. */
  lemma MethodLiterals(m: HttpMethod, s: string)
    ensures ParseMethod(MethodName(m)) == Some(m)
    ensures ParseMethod(s).Some? <==> s in ["GET", "POST", "PUT", "DELETE", "PATCH", "OPTIONS"]
    ensures m in AllMethods && |AllMethods| == 6
  {
  }

  /** `RouteConfig`: an API route as the registry reports it. */
  datatype RouteConfig = RouteConfig(path: string, httpMethod: HttpMethod, handler: Handler, middleware: seq<Middleware>)

  /** `PageRouteConfig`. */
  datatype PageRouteConfig<C> = PageRouteConfig(path: string, component: C)

  /** `ApiModule`: what an API file may export, one optional handler per method
      and an optional middleware list. */
  datatype ApiModule = ApiModule(
    get: Option<Handler>, post: Option<Handler>, put: Option<Handler>,
    delete: Option<Handler>, patch: Option<Handler>, options: Option<Handler>,
    middleware: Option<seq<Middleware>>)

  datatype Framework = React | Vue

  /** `VontConfig.server`. */
  datatype ServerConfig = ServerConfig(hmrPort: Option<JsNumber>, middlewares: Option<seq<Middleware>>)

  /** `VontConfig.build`. */
  datatype BuildConfig = BuildConfig(sourcemap: Option<bool>, minify: Option<bool>, target: Option<string>)

  /** `VontConfig`: every key is optional; `None` is a key that is not given. */
  datatype VontConfig = VontConfig(
    root: Option<string>, port: Option<JsNumber>, host: Option<string>, apiPrefix: Option<string>,
    apiDir: Option<string>, pagesDir: Option<string>, outDir: Option<string>,
    framework: Option<Framework>, viteConfig: Option<ViteConfig>,
    server: Option<ServerConfig>, build: Option<BuildConfig>, isDev: Option<bool>)

  /** The configuration with no key given. */
  const EmptyConfig := VontConfig(None, None, None, None, None, None, None, None, None, None, None, None)

  /** `defineConfig`: hands the configuration back unchanged. */
  function DefineConfig(config: VontConfig): (r: VontConfig)
    ensures r == config
  {
    config
  }

  /** `vitePlugin`: hands the plugin back unchanged. */
  function VitePlugin(plugin: Plugin): (r: Plugin)
    ensures r == plugin
  {
    plugin
  }

  /** `vitePlugins`: hands the same list back, element for element. */
  function VitePlugins(plugins: seq<Plugin>): (r: seq<Plugin>)
    ensures |r| == |plugins| && forall i :: 0 <= i < |r| ==> r[i] == plugins[i]
  {
    plugins
  }
}
