/** The React client entry (`client/index.tsx`): the route path of a page file,
    the route table built from the page modules of an `import.meta.glob`, sorted
    so that routes with more `:` parameters come first, and the table the app
    renders, which ends in a `*` catch-all. */
module ReactClient {
  import opened Wrappers
  import opened Js
  import opened RoutePath

  /** The extensions `/\.(tsx|ts|jsx|js)$/` strips, in pattern order. */
  const Extensions: seq<string> := ["tsx", "ts", "jsx", "js"]

  /** Two strings that differ `d` characters from their ends do not end alike. */
  lemma DifferFromEnd(a: string, b: string, d: nat)
    requires 1 <= d <= |a| && d <= |b| && a[|a| - d] != b[|b| - d]
    ensures !EndsWith(a, b)
  {
  }

  lemma ExtensionsSuffixFree()
    ensures SuffixFree(Extensions)
  {
    forall i, j | 0 <= i < |Extensions| && 0 <= j < |Extensions| && i != j
      ensures !EndsWith("." + Extensions[i], "." + Extensions[j])
    {
      // `.tsx`/`.jsx` first differ three characters from the end, `.ts`/`.js`
      // two, every other pair at the last character.
      var d := if i + j == 2 && i != 1 then 3 else if i + j == 4 && i != 2 then 2 else 1;
      DifferFromEnd("." + Extensions[i], "." + Extensions[j], d);
    }
  }

  /** `getRoutePath`: React Router path of a page file. */
  function GetRoutePath(filePath: string): (path: string)
    ensures |path| >= 1 && path[0] == '/'
    ensures path == "/" <==> Rewritten(Extensions, filePath) == ""
  {
    Translate(Extensions, filePath)
  }

  /** `<prefix>index.<ext>` is the root route under every spelling of the pages
      prefix and for every extension. */
  lemma RootIndexRoute(prefix: string, k: nat, f: string)
    requires prefix in PagesPrefixes && k < |Extensions| && f == prefix + "index." + Extensions[k]
    ensures GetRoutePath(f) == "/"
  {
    ExtensionsSuffixFree();
    TranslateRootIndex(Extensions, prefix, k);
  }

  /** `pages/<dir>/index.tsx` routes to `/<dir>` when `dir` has no brackets. */
  lemma DirectoryIndexRoute(dir: string, f: string)
    requires '[' !in dir && f == "pages/" + dir + "/index.tsx"
    ensures GetRoutePath(f) == "/" + dir
  {
    ExtensionsSuffixFree();
    assert "pages/" == PagesPrefixes[7];
    var ps := [Lit(dir)];
    assert FileForm(ps) == dir && RouteForm(ps) == dir;
    TranslateIndex(Extensions, "pages/", ps, 0);
    assert f == "pages/" + FileForm(ps) + "/index." + Extensions[0];
  }

  lemma ParamPieces(dir: string, name: string)
    ensures FileForm([Lit(dir), Param(name)]) == dir + "[" + name + "]"
    ensures RouteForm([Lit(dir), Param(name)]) == dir + ":" + name
  {
    var ps := [Lit(dir), Param(name)];
    assert ps[1..] == [Param(name)] && ps[1..][1..] == [];
    assert FileForm([Param(name)]) == "[" + name + "]" + "";
    assert RouteForm([Param(name)]) == ":" + name + "";
  }

  /** `pages/<dir>[<name>].tsx` routes to `/<dir>:<name>`. */
  lemma ParamRoute(dir: string, name: string, f: string)
    requires '[' !in dir && name != [] && ']' !in name && '[' !in name
    requires f == "pages/" + dir + "[" + name + "].tsx"
    ensures GetRoutePath(f) == "/" + dir + ":" + name
  {
    var ps := [Lit(dir), Param(name)];
    var c := FileForm(ps);
    ParamPieces(dir, name);
    assert WellFormed(ps) by {
      assert WellFormedPiece(ps[0]) && WellFormedPiece(ps[1]);
    }
    assert !EndsWith(c, "/index") && c != "index" by {
      assert c[|c| - 1] == ']';
      DifferFromEnd(c, "/index", 1);
    }
    assert f == "pages/" + c + "." + Extensions[0];
    ExtensionsSuffixFree();
    assert "pages/" == PagesPrefixes[7];
    TranslatePage(Extensions, "pages/", ps, 0);
  }

  /** `pages/<name>.tsx` routes to `/<name>` when `name` has no brackets and is
      not an index. */
  lemma PlainPageRoute(name: string, f: string)
    requires '[' !in name && !EndsWith(name, "/index") && name != "index"
    requires f == "pages/" + name + ".tsx"
    ensures GetRoutePath(f) == "/" + name
  {
    ExtensionsSuffixFree();
    var ps := [Lit(name)];
    LitPiece(name);
    assert "." + Extensions[0] == ".tsx";
    assert f == PagesPrefixes[7] + FileForm(ps) + "." + Extensions[0];
    TranslatePage(Extensions, PagesPrefixes[7], ps, 0);
  }

  /** A file outside every pages prefix keeps its directories. */
  lemma UnprefixedRoute(name: string, f: string)
    requires '[' !in name && !EndsWith(name, "/index") && name != "index"
    requires f == name + ".tsx"
    requires forall q :: q in PagesPrefixes ==> !StartsWith(f, q)
    ensures GetRoutePath(f) == "/" + name
  {
    ExtensionsSuffixFree();
    var ps := [Lit(name)];
    LitPiece(name);
    assert "." + Extensions[0] == ".tsx";
    assert f == FileForm(ps) + "." + Extensions[0];
    TranslateUnprefixed(Extensions, ps, 0);
  }

  // ---------------------------------------------------------------------------
  // generateRoutes
  // ---------------------------------------------------------------------------

  /** A page module as `import.meta.glob` gives it: its default export. */
  datatype PageModule<C> = PageModule(defaultExport: C)

  /** The sort key: the number of `:` in the path. */
  function Specificity<C>(r: Route<C>): nat {
    Count(r.path, ':')
  }

  /** The routes of the page modules in `Object.entries` order, before sorting. */
  function PageRoutes<C>(pageModules: seq<(string, PageModule<C>)>): seq<Route<C>> {
    seq(|pageModules|, i requires 0 <= i < |pageModules| =>
      Route(GetRoutePath(pageModules[i].0), pageModules[i].1.defaultExport))
  }

  /** Routes with more parameters come first. */
  predicate NonIncreasing<C>(rs: seq<Route<C>>) {
    forall i, j :: 0 <= i < j < |rs| ==> Specificity(rs[i]) >= Specificity(rs[j])
  }

  /** The routes of key `k`, in their order in `rs`. */
  function WithSpecificity<C>(rs: seq<Route<C>>, k: nat): seq<Route<C>> {
    if rs == [] then []
    else (if Specificity(rs[0]) == k then [rs[0]] else []) + WithSpecificity(rs[1..], k)
  }

  /** Inserts `x` before the first route whose key is not larger than its own. */
  function Insert<C>(x: Route<C>, sorted: seq<Route<C>>): seq<Route<C>> {
    if sorted == [] || Specificity(x) >= Specificity(sorted[0]) then [x] + sorted
    else [sorted[0]] + Insert(x, sorted[1..])
  }

  /** `routes.sort((a, b) => spec(b) - spec(a))`; `Array.prototype.sort` is stable,
      and this insertion sort is the stable sort for that comparator. */
  function SortBySpecificity<C>(rs: seq<Route<C>>): seq<Route<C>> {
    if rs == [] then [] else Insert(rs[0], SortBySpecificity(rs[1..]))
  }

  lemma {:induction false} InsertPermutation<C>(x: Route<C>, sorted: seq<Route<C>>)
    ensures multiset(Insert(x, sorted)) == multiset(sorted) + multiset{x}
  {
    if sorted != [] && Specificity(x) < Specificity(sorted[0]) {
      InsertPermutation(x, sorted[1..]);
      assert sorted == [sorted[0]] + sorted[1..];
    }
  }

  lemma {:induction false} SortPermutation<C>(rs: seq<Route<C>>)
    ensures multiset(SortBySpecificity(rs)) == multiset(rs)
  {
    if rs != [] {
      SortPermutation(rs[1..]);
      InsertPermutation(rs[0], SortBySpecificity(rs[1..]));
      assert rs == [rs[0]] + rs[1..];
    }
  }

  lemma {:induction false} InsertNonIncreasing<C>(x: Route<C>, sorted: seq<Route<C>>)
    requires NonIncreasing(sorted)
    ensures NonIncreasing(Insert(x, sorted))
  {
    if sorted != [] && Specificity(x) < Specificity(sorted[0]) {
      var tail := Insert(x, sorted[1..]);
      InsertNonIncreasing(x, sorted[1..]);
      InsertPermutation(x, sorted[1..]);
      forall j | 0 <= j < |tail|
        ensures Specificity(sorted[0]) >= Specificity(tail[j])
      {
        assert tail[j] in multiset(tail);
        if tail[j] != x {
          assert tail[j] in multiset(sorted[1..]);
          var m :| 0 <= m < |sorted[1..]| && sorted[1..][m] == tail[j];
          assert sorted[m + 1] == tail[j];
        }
      }
    }
  }

  lemma {:induction false} SortNonIncreasing<C>(rs: seq<Route<C>>)
    ensures NonIncreasing(SortBySpecificity(rs))
  {
    if rs != [] {
      SortNonIncreasing(rs[1..]);
      InsertNonIncreasing(rs[0], SortBySpecificity(rs[1..]));
    }
  }

  lemma WithSpecificityCons<C>(r: Route<C>, rs: seq<Route<C>>, k: nat)
    ensures WithSpecificity([r] + rs, k) == (if Specificity(r) == k then [r] else []) + WithSpecificity(rs, k)
  {
    assert ([r] + rs)[1..] == rs;
  }

  lemma {:induction false} InsertStable<C>(x: Route<C>, sorted: seq<Route<C>>, k: nat)
    ensures WithSpecificity(Insert(x, sorted), k)
         == (if Specificity(x) == k then [x] else []) + WithSpecificity(sorted, k)
  {
    if sorted == [] || Specificity(x) >= Specificity(sorted[0]) {
      WithSpecificityCons(x, sorted, k);
    } else {
      var head, tail := sorted[0], sorted[1..];
      InsertStable(x, tail, k);
      WithSpecificityCons(head, Insert(x, tail), k);
      assert sorted == [head] + tail;
      WithSpecificityCons(head, tail, k);
      // `x` and `head` have different keys, so at most one of them is kept.
      if Specificity(x) == k {
        assert Specificity(head) != k;
      }
    }
  }

  /** Ties keep their input order: the routes of each key appear in the sorted
      table exactly as they appear in the input. */
  lemma {:induction false} SortStable<C>(rs: seq<Route<C>>, k: nat)
    ensures WithSpecificity(SortBySpecificity(rs), k) == WithSpecificity(rs, k)
  {
    if rs != [] {
      SortStable(rs[1..], k);
      InsertStable(rs[0], SortBySpecificity(rs[1..]), k);
    }
  }

  lemma {:induction false} WithSpecificityFrom<C>(rs: seq<Route<C>>, k: nat, r: Route<C>)
    requires r in WithSpecificity(rs, k)
    ensures r in rs && Specificity(r) == k
  {
    if rs != [] {
      if r != rs[0] || Specificity(rs[0]) != k {
        WithSpecificityFrom(rs[1..], k, r);
      }
    }
  }

  lemma WithSpecificityHead<C>(rs: seq<Route<C>>)
    requires rs != []
    ensures WithSpecificity(rs, Specificity(rs[0])) != []
  {
  }

  /** Keys never exceed the key of the first route of a non-increasing table. */
  lemma HeadIsMaximal<C>(rs: seq<Route<C>>, r: Route<C>)
    requires NonIncreasing(rs) && r in rs
    ensures Specificity(r) <= Specificity(rs[0])
  {
    var i :| 0 <= i < |rs| && rs[i] == r;
  }

  /** A table that is ordered by key and keeps each key's input order is unique:
      any stable sort by this comparator returns what SortBySpecificity returns. */
  lemma {:induction false} StableSortUnique<C>(a: seq<Route<C>>, b: seq<Route<C>>)
    requires NonIncreasing(a) && NonIncreasing(b)
    requires forall k: nat :: WithSpecificity(a, k) == WithSpecificity(b, k)
    ensures a == b
  {
    if a == [] && b == [] {
    } else if b == [] {
      WithSpecificityHead(a);
      assert false;
    } else if a == [] {
      WithSpecificityHead(b);
      assert false;
    } else {
      var ka, kb := Specificity(a[0]), Specificity(b[0]);
      assert b[0] in WithSpecificity(b, kb);
      WithSpecificityFrom(a, kb, b[0]);
      HeadIsMaximal(a, b[0]);
      assert a[0] in WithSpecificity(a, ka);
      WithSpecificityFrom(b, ka, a[0]);
      HeadIsMaximal(b, a[0]);
      assert ka == kb;
      assert WithSpecificity(a, ka) == [a[0]] + WithSpecificity(a[1..], ka);
      assert WithSpecificity(b, ka) == [b[0]] + WithSpecificity(b[1..], ka);
      assert a[0] == WithSpecificity(a, ka)[0] == WithSpecificity(b, ka)[0] == b[0];
      forall k: nat
        ensures WithSpecificity(a[1..], k) == WithSpecificity(b[1..], k)
      {
        if k == ka {
          assert WithSpecificity(a, k)[1..] == WithSpecificity(a[1..], k);
          assert WithSpecificity(b, k)[1..] == WithSpecificity(b[1..], k);
        } else {
          assert WithSpecificity(a, k) == WithSpecificity(a[1..], k);
          assert WithSpecificity(b, k) == WithSpecificity(b[1..], k);
        }
      }
      StableSortUnique(a[1..], b[1..]);
      assert a == [a[0]] + a[1..] && b == [b[0]] + b[1..];
    }
  }

  /** `generateRoutes`: one route per page module, ordered by non-increasing number
      of parameters, each parameter count keeping the modules' order. */
  method GenerateRoutes<C(==)>(pageModules: seq<(string, PageModule<C>)>)
    returns (routes: seq<Route<C>>)
    ensures |routes| == |pageModules|
    ensures multiset(routes) == multiset(PageRoutes(pageModules))
    ensures NonIncreasing(routes)
    ensures forall k: nat :: WithSpecificity(routes, k) == WithSpecificity(PageRoutes(pageModules), k)
  {
    routes := [];
    for i := 0 to |pageModules|
      invariant |routes| == i
      invariant forall j :: 0 <= j < i ==>
        routes[j] == Route(GetRoutePath(pageModules[j].0), pageModules[j].1.defaultExport)
    {
      var (filePath, pageModule) := pageModules[i];
      var path := GetRoutePath(filePath);
      routes := routes + [Route(path, pageModule.defaultExport)];
    }
    ghost var collected := routes;
    assert collected == PageRoutes(pageModules);
    routes := SortBySpecificity(routes);
    SortPermutation(collected);
    SortNonIncreasing(collected);
    forall k: nat
      ensures WithSpecificity(routes, k) == WithSpecificity(collected, k)
    {
      SortStable(collected, k);
    }
    assert |routes| == |multiset(routes)| == |multiset(collected)| == |collected|;
  }

  // ---------------------------------------------------------------------------
  // VontApp
  // ---------------------------------------------------------------------------

  /** What a route renders: a page component or the built-in 404 page. */
  datatype View<C> = PageComponent(component: C) | DefaultNotFound

  /** The table `generateRoutes` returns is the stable sort of the collected
      routes: a sorted table with the same routes per key is unique. */
  lemma GeneratedIsSorted<C>(pageModules: seq<(string, PageModule<C>)>, routes: seq<Route<C>>)
    requires NonIncreasing(routes)
    requires forall k: nat :: WithSpecificity(routes, k) == WithSpecificity(PageRoutes(pageModules), k)
    ensures routes == SortBySpecificity(PageRoutes(pageModules))
  {
    var sorted := SortBySpecificity(PageRoutes(pageModules));
    SortNonIncreasing(PageRoutes(pageModules));
    forall k: nat
      ensures WithSpecificity(routes, k) == WithSpecificity(sorted, k)
    {
      SortStable(PageRoutes(pageModules), k);
    }
    StableSortUnique(routes, sorted);
  }

  /** No page route is the catch-all `*`: every page path starts with `/`. */
  lemma PageRoutesNotStar<C>(pageModules: seq<(string, PageModule<C>)>, routes: seq<Route<C>>)
    requires multiset(routes) == multiset(PageRoutes(pageModules))
    ensures forall i :: 0 <= i < |routes| ==> routes[i].path != "*"
  {
    forall i | 0 <= i < |routes|
      ensures routes[i].path != "*"
    {
      assert routes[i] in multiset(PageRoutes(pageModules));
      var j :| 0 <= j < |pageModules| && PageRoutes(pageModules)[j] == routes[i];
      assert routes[i].path == GetRoutePath(pageModules[j].0);
    }
  }

  /** The `<Routes>` of `VontApp`: the generated routes in order, then a `*` route
      rendering `notFoundComponent` when one is given and `DefaultNotFound`
      otherwise. */
  method VontAppRoutes<C(==)>(pagesGlob: seq<(string, PageModule<C>)>, notFoundComponent: Option<C>)
    returns (table: seq<Route<View<C>>>)
    ensures |table| == |pagesGlob| + 1
    ensures table[|pagesGlob|] == Route("*",
      if notFoundComponent.Some? then PageComponent(notFoundComponent.value) else DefaultNotFound)
    ensures forall i :: 0 <= i < |pagesGlob| ==> table[i].path != "*" && table[i].component.PageComponent?
    ensures |SortBySpecificity(PageRoutes(pagesGlob))| == |pagesGlob|
    ensures forall i :: 0 <= i < |pagesGlob| ==>
      var r := SortBySpecificity(PageRoutes(pagesGlob))[i];
      table[i] == Route(r.path, PageComponent(r.component))
  {
    var routes := GenerateRoutes(pagesGlob);
    GeneratedIsSorted(pagesGlob, routes);
    var notFound := if notFoundComponent.Some? then PageComponent(notFoundComponent.value) else DefaultNotFound;
    table := [];
    for i := 0 to |routes|
      invariant |table| == i
      invariant forall j :: 0 <= j < i ==> table[j] == Route(routes[j].path, PageComponent(routes[j].component))
    {
      table := table + [Route(routes[i].path, PageComponent(routes[i].component))];
    }
    PageRoutesNotStar(pagesGlob, routes);
    table := table + [Route("*", notFound)];
  }
}
