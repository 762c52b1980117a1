/** The Vue client entry (`client/vue.ts`): the same path translation as the
    React client with `.vue` added to the extensions, and a route table in module
    order that ends in a catch-all 404 route. */
module VueClient {
  import opened Wrappers
  import opened Js
  import opened RoutePath
  import ReactClient

  /** The extensions `/\.(vue|tsx|ts|jsx|js)$/` strips, in pattern order. */
  const Extensions: seq<string> := ["vue", "tsx", "ts", "jsx", "js"]

  /** The parameter of Vue Router's catch-all 404 route, and the path it is
      registered under. */
  const CatchAllParam := "pathMatch(.*)*"
  const NotFoundPath := "/:" + CatchAllParam

  lemma ExtensionsSuffixFree()
    ensures SuffixFree(Extensions)
  {
    forall i, j | 0 <= i < |Extensions| && 0 <= j < |Extensions| && i != j
      ensures !EndsWith("." + Extensions[i], "." + Extensions[j])
    {
      // `.tsx`/`.jsx` first differ three characters from the end, `.ts`/`.js`
      // two, every other pair at the last character.
      var d := if i + j == 4 && i % 2 == 1 then 3 else if i + j == 6 && i != 3 then 2 else 1;
      ReactClient.DifferFromEnd("." + Extensions[i], "." + Extensions[j], d);
    }
  }

  /** `getRoutePath`: Vue Router path of a page file. */
  function GetRoutePath(filePath: string): (path: string)
    ensures |path| >= 1 && path[0] == '/'
    ensures path == "/" <==> Rewritten(Extensions, filePath) == ""
  {
    Translate(Extensions, filePath)
  }

  /** Both translators agree on every file that does not end in `.vue`. */
  lemma SameAsReact(filePath: string)
    requires !EndsWith(filePath, ".vue")
    ensures GetRoutePath(filePath) == ReactClient.GetRoutePath(filePath)
  {
    var s := StripPagesPrefix(filePath);
    assert filePath == filePath[..|filePath| - |s|] + s;
    if EndsWith(s, "." + Extensions[0]) {
      EndsWithPrepend(s, filePath[..|filePath| - |s|], ".vue");
    }
    assert Extensions[1..] == ReactClient.Extensions;
    assert StripExtension(Extensions, s) == StripExtension(ReactClient.Extensions, s);
  }

  /** `<prefix>index.<ext>` is the root route for every pages prefix and every
      extension, `.vue` included. */
  lemma RootIndexRoute(prefix: string, k: nat, f: string)
    requires prefix in PagesPrefixes && k < |Extensions| && f == prefix + "index." + Extensions[k]
    ensures GetRoutePath(f) == "/"
  {
    ExtensionsSuffixFree();
    TranslateRootIndex(Extensions, prefix, k);
  }

  /** A directory's `index` file routes to the directory. */
  lemma IndexFileRoute(prefix: string, ps: seq<Piece>, k: nat, f: string)
    requires prefix in PagesPrefixes && k < |Extensions| && WellFormed(ps)
    requires f == prefix + FileForm(ps) + "/index." + Extensions[k]
    ensures GetRoutePath(f) == "/" + RouteForm(ps)
  {
    ExtensionsSuffixFree();
    TranslateIndex(Extensions, prefix, ps, k);
  }

  /** A `.vue` page, or a page with any other extension, routes to its pieces with
      every `[name]` rewritten to `:name`. */
  lemma PageFileRoute(prefix: string, ps: seq<Piece>, k: nat, f: string)
    requires prefix in PagesPrefixes && k < |Extensions| && WellFormed(ps)
    requires !EndsWith(FileForm(ps), "/index") && FileForm(ps) != "index"
    requires f == prefix + FileForm(ps) + "." + Extensions[k]
    ensures GetRoutePath(f) == "/" + RouteForm(ps)
  {
    ExtensionsSuffixFree();
    TranslatePage(Extensions, prefix, ps, k);
  }

  /** `pages/[<name>].vue` routes to `/:<name>`. */
  lemma ParamPageRoute(name: string, f: string)
    requires name != [] && ']' !in name && f == "pages/[" + name + "].vue"
    ensures GetRoutePath(f) == "/:" + name
  {
    var c := "[" + name + "]";
    SingleParam(name);
    assert c[0] == '[' && c[|c| - 1] == ']';
    ReactClient.DifferFromEnd(c, "/index", 1);
    assert f == PagesPrefixes[7] + c + "." + Extensions[0];
    PageFileRoute(PagesPrefixes[7], [Param(name)], 0, f);
  }

  /** Nothing keeps a page from claiming the 404 route's path: the page file
      `pages/[pathMatch(.*)*].vue` routes to exactly that path. */
  lemma PageCanShadowNotFound(f: string)
    requires f == "pages/[" + CatchAllParam + "].vue"
    ensures GetRoutePath(f) == NotFoundPath
  {
    assert CatchAllParam[0] == 'p' && ']' !in CatchAllParam;
    ParamPageRoute(CatchAllParam, f);
  }

  // ---------------------------------------------------------------------------
  // generateRoutes
  // ---------------------------------------------------------------------------

  /** A `.vue` or script module as `import.meta.glob` gives it. */
  datatype VueModule<C> = VueModule(defaultExport: Option<C>)

  /** What a route renders: the module's default export, the module object itself
      when it has no default export, or the built-in 404 page. */
  datatype Component<C> = DefaultExport(c: C) | ModuleObject(m: VueModule<C>) | NotFoundPage

  /** `module.default || module`. */
  function ComponentOf<C>(m: VueModule<C>): Component<C> {
    if m.defaultExport.Some? then DefaultExport(m.defaultExport.value) else ModuleObject(m)
  }

  /** `generateRoutes`: one route per module, in module order, then the 404 route. */
  method GenerateRoutes<C>(pageModules: seq<(string, VueModule<C>)>)
    returns (routes: seq<Route<Component<C>>>)
    ensures |routes| == |pageModules| + 1
    ensures forall i :: 0 <= i < |pageModules| ==>
      routes[i] == Route(GetRoutePath(pageModules[i].0), ComponentOf(pageModules[i].1))
    ensures routes[|pageModules|] == Route(NotFoundPath, NotFoundPage)
  {
    routes := [];
    for i := 0 to |pageModules|
      invariant |routes| == i
      invariant forall j :: 0 <= j < i ==>
        routes[j] == Route(GetRoutePath(pageModules[j].0), ComponentOf(pageModules[j].1))
    {
      var (filePath, pageModule) := pageModules[i];
      var path := GetRoutePath(filePath);
      routes := routes + [Route(path, ComponentOf(pageModule))];
    }
    routes := routes + [Route(NotFoundPath, NotFoundPage)];
  }
}
