/** The file-path to route-path translation that both client entry points
    (`client/index.tsx` for React, `client/vue.ts` for Vue) perform with the same
    chain of anchored regular-expression rewrites. The two copies differ only in
    the list of extensions the second rewrite strips, so the chain is written once
    here over that list, and each client module instantiates it. */
module RoutePath {
  import opened Js

  /** One entry of a client route table. */
  datatype Route<C> = Route(path: string, component: C)

  // ---------------------------------------------------------------------------
  // Step 1: `.replace(/^(\.\.?\/|\/)?(?:src\/)?pages\//, '')`
  // ---------------------------------------------------------------------------

  /** Every text the anchored pages-prefix pattern can match, in the order in
      which the regular expression tries its alternatives. */
  const PagesPrefixes: seq<string> :=
    ["../src/pages/", "../pages/", "./src/pages/", "./pages/",
     "/src/pages/", "/pages/", "src/pages/", "pages/"]

  /** Removes the first of `ps` that `s` starts with. */
  function StripFirstPrefix(s: string, ps: seq<string>): (r: string)
    ensures |r| <= |s| && r == s[|s| - |r|..]
  {
    if ps == [] then s
    else if StartsWith(s, ps[0]) then s[|ps[0]|..]
    else StripFirstPrefix(s, ps[1..])
  }

  function StripPagesPrefix(s: string): string {
    StripFirstPrefix(s, PagesPrefixes)
  }

  /** If `ps[k]` is the first entry `s` starts with, exactly that entry is removed. */
  lemma {:induction false} StripFirstPrefixAt(s: string, ps: seq<string>, k: nat)
    requires k < |ps| && StartsWith(s, ps[k])
    requires forall i :: 0 <= i < k ==> !StartsWith(s, ps[i])
    ensures StripFirstPrefix(s, ps) == s[|ps[k]|..]
  {
    if k > 0 {
      assert !StartsWith(s, ps[0]);
      assert forall i :: 0 <= i < k - 1 ==> ps[1..][i] == ps[i + 1];
      StripFirstPrefixAt(s, ps[1..], k - 1);
    }
  }

  lemma {:induction false} StripFirstPrefixNone(s: string, ps: seq<string>)
    requires forall i :: 0 <= i < |ps| ==> !StartsWith(s, ps[i])
    ensures StripFirstPrefix(s, ps) == s
  {
    if ps != [] {
      assert !StartsWith(s, ps[0]);
      assert forall i :: 0 <= i < |ps| - 1 ==> ps[1..][i] == ps[i + 1];
      StripFirstPrefixNone(s, ps[1..]);
    }
  }

  /** No two of the texts the pages-prefix pattern can match are prefixes of one
      string, so the order in which the pattern tries them never matters. */
  lemma PagesPrefixesExclusive(s: string, i: nat, j: nat)
    requires i < |PagesPrefixes| && j < |PagesPrefixes|
    requires StartsWith(s, PagesPrefixes[i]) && StartsWith(s, PagesPrefixes[j])
    ensures i == j
  {
    var p, q := PagesPrefixes[i], PagesPrefixes[j];
    // Every pair of distinct candidates differs at some index below both lengths.
    assert p[0] == s[0] == q[0];
    if p[0] == '.' {
      assert p[1] == s[1] == q[1];
      if p[1] == '.' {
        assert p[3] == s[3] == q[3];
      } else {
        assert p[2] == s[2] == q[2];
      }
    } else if p[0] == '/' {
      assert p[1] == s[1] == q[1];
    }
  }

  /** Any matched pages prefix is removed, and only it. */
  lemma StripKnownPrefix(p: string, rest: string)
    requires p in PagesPrefixes
    ensures StripPagesPrefix(p + rest) == rest
  {
    var s := p + rest;
    var k :| 0 <= k < |PagesPrefixes| && PagesPrefixes[k] == p;
    assert s[..|p|] == p;
    forall i | 0 <= i < k
      ensures !StartsWith(s, PagesPrefixes[i])
    {
      if StartsWith(s, PagesPrefixes[i]) {
        PagesPrefixesExclusive(s, i, k);
      }
    }
    StripFirstPrefixAt(s, PagesPrefixes, k);
    assert s[|p|..] == rest;
  }

  /** A path that matches no pages prefix is left as it is. */
  lemma StripNoPrefix(s: string)
    requires forall q :: q in PagesPrefixes ==> !StartsWith(s, q)
    ensures StripPagesPrefix(s) == s
  {
    StripFirstPrefixNone(s, PagesPrefixes);
  }

  // ---------------------------------------------------------------------------
  // Step 2: `.replace(/\.(e1|e2|...)$/, '')`
  // ---------------------------------------------------------------------------

  /** Removes `.e` for the first extension `e` of `exts` that `s` ends with. */
  function StripExtension(exts: seq<string>, s: string): (r: string)
    ensures |r| <= |s| && r == s[..|r|]
  {
    if exts == [] then s
    else if EndsWith(s, "." + exts[0]) then s[..|s| - |exts[0]| - 1]
    else StripExtension(exts[1..], s)
  }

  /** No `.e` in the list ends with another `.e'`: then the leftmost match of the
      pattern and the first alternative that matches are the same. */
  predicate SuffixFree(exts: seq<string>) {
    forall i, j :: 0 <= i < |exts| && 0 <= j < |exts| && i != j ==>
      !EndsWith("." + exts[i], "." + exts[j])
  }

  lemma SuffixStep(s: string, a: string, b: string)
    requires EndsWith(s, a) && EndsWith(s, b) && |b| <= |a|
    ensures EndsWith(a, b)
  {
    assert a[|a| - |b|..] == s[|s| - |b|..];
  }

  /** A string that ends in `a` ends in no `b` unrelated to `a` by suffix. */
  lemma SuffixExclusive(s: string, a: string, b: string)
    requires EndsWith(s, a) && !EndsWith(a, b) && !EndsWith(b, a)
    ensures !EndsWith(s, b)
  {
    if EndsWith(s, b) {
      if |b| <= |a| {
        SuffixStep(s, a, b);
      } else {
        SuffixStep(s, b, a);
      }
    }
  }

  lemma {:induction false} StripExtensionAt(exts: seq<string>, base: string, k: nat)
    requires SuffixFree(exts) && k < |exts|
    ensures StripExtension(exts, base + "." + exts[k]) == base
  {
    var s := base + "." + exts[k];
    assert EndsWith(s, "." + exts[k]) by {
      assert s[|s| - |"." + exts[k]|..] == "." + exts[k];
    }
    if k == 0 {
      assert s[..|s| - |exts[0]| - 1] == base;
    } else {
      SuffixExclusive(s, "." + exts[k], "." + exts[0]);
      var tail := exts[1..];
      assert tail[k - 1] == exts[k];
      assert SuffixFree(tail) by {
        forall i, j | 0 <= i < |tail| && 0 <= j < |tail| && i != j
          ensures !EndsWith("." + tail[i], "." + tail[j])
        {
          assert tail[i] == exts[i + 1] && tail[j] == exts[j + 1];
        }
      }
      StripExtensionAt(tail, base, k - 1);
    }
  }

  lemma {:induction false} StripExtensionNone(exts: seq<string>, s: string)
    requires forall e :: e in exts ==> !EndsWith(s, "." + e)
    ensures StripExtension(exts, s) == s
  {
    if exts != [] {
      assert exts[0] in exts;
      StripExtensionNone(exts[1..], s);
    }
  }

  // ---------------------------------------------------------------------------
  // Step 3: one trailing `/index`, or a bare `index`, is dropped
  // ---------------------------------------------------------------------------

  function DropIndex(route: string): string {
    if EndsWith(route, "/index") then route[..|route| - 6]
    else if route == "index" then ""
    else route
  }

  /** Exactly one trailing `/index` is removed, whatever precedes it. */
  lemma DropIndexOfDirectory(d: string)
    ensures DropIndex(d + "/index") == d
  {
    var s := d + "/index";
    assert s[|s| - 6..] == "/index";
    assert s[..|s| - 6] == d;
  }

  // ---------------------------------------------------------------------------
  // Step 4: `.replace(/\[([^\]]+)\]/g, ':$1')`
  // ---------------------------------------------------------------------------

  /** Index of the first `]` in `t`, or `|t|` when there is none. */
  function CloseBracket(t: string): (k: nat)
    ensures k <= |t| && (k < |t| ==> t[k] == ']') && ']' !in t[..k]
  {
    if t == [] || t[0] == ']' then 0
    else
      var k := 1 + CloseBracket(t[1..]);
      assert t[..k] == [t[0]] + t[1..][..k - 1];
      k
  }

  /** The global replacement, scanning left to right: a `[` followed by at least
      one character up to the next `]` becomes `:` and those characters; any other
      character is copied. */
  function ReplaceParams(s: string): string
    decreases |s|
  {
    if s == [] then []
    else if s[0] == '[' && 0 < CloseBracket(s[1..]) < |s| - 1 then
      var k := CloseBracket(s[1..]);
      ":" + s[1..k + 1] + ReplaceParams(s[k + 2..])
    else [s[0]] + ReplaceParams(s[1..])
  }

  lemma CloseBracketOf(x: string, rest: string)
    requires ']' !in x
    ensures CloseBracket(x + "]" + rest) == |x|
  {
    var t := x + "]" + rest;
    assert t[|x|] == ']';
    assert forall i :: 0 <= i < |x| ==> t[i] == x[i];
  }

  /** Text before the first `[` is copied unchanged. */
  lemma {:induction false} ReplaceParamsLiteral(a: string, t: string)
    requires '[' !in a
    ensures ReplaceParams(a + t) == a + ReplaceParams(t)
  {
    if a != [] {
      assert (a + t)[0] == a[0] && (a + t)[1..] == a[1..] + t;
      assert '[' !in a[1..];
      ReplaceParamsLiteral(a[1..], t);
    } else {
      assert a + t == t;
    }
  }

  /** A bracketed name becomes `:` and the name. */
  lemma ReplaceParamsBracket(x: string, t: string)
    requires x != [] && ']' !in x
    ensures ReplaceParams("[" + x + "]" + t) == ":" + x + ReplaceParams(t)
  {
    var s := "[" + x + "]" + t;
    assert s[1..] == x + "]" + t;
    CloseBracketOf(x, t);
    assert s[1..|x| + 1] == x;
    assert s[|x| + 2..] == t;
  }

  /** A path written as literal pieces and bracketed parameter names. */
  datatype Piece = Lit(text: string) | Param(name: string)

  predicate WellFormedPiece(p: Piece) {
    match p
    case Lit(t) => '[' !in t
    case Param(n) => n != [] && ']' !in n
  }

  predicate WellFormed(ps: seq<Piece>) {
    forall i :: 0 <= i < |ps| ==> WellFormedPiece(ps[i])
  }

  /** The pieces as they are written in a file name: `[name]`. */
  function FileForm(ps: seq<Piece>): string {
    if ps == [] then ""
    else
      (match ps[0]
       case Lit(t) => t
       case Param(n) => "[" + n + "]") + FileForm(ps[1..])
  }

  /** The pieces as they are written in a route: `:name`. */
  function RouteForm(ps: seq<Piece>): string {
    if ps == [] then ""
    else
      (match ps[0]
       case Lit(t) => t
       case Param(n) => ":" + n) + RouteForm(ps[1..])
  }

  /** Every bracketed name is rewritten, wherever and however often it occurs. */
  lemma {:induction false} ReplaceParamsPieces(ps: seq<Piece>)
    requires WellFormed(ps)
    ensures ReplaceParams(FileForm(ps)) == RouteForm(ps)
  {
    if ps != [] {
      assert WellFormedPiece(ps[0]);
      assert WellFormed(ps[1..]) by {
        forall i | 0 <= i < |ps| - 1 ensures WellFormedPiece(ps[1..][i]) {
          assert ps[1..][i] == ps[i + 1];
        }
      }
      ReplaceParamsPieces(ps[1..]);
      match ps[0]
      case Lit(t) =>
        ReplaceParamsLiteral(t, FileForm(ps[1..]));
      case Param(n) =>
        ReplaceParamsBracket(n, FileForm(ps[1..]));
        assert FileForm(ps) == "[" + n + "]" + FileForm(ps[1..]);
    }
  }

  /** Text without `[` is not changed by the rewrite. */
  lemma ReplaceParamsNoBracket(s: string)
    requires '[' !in s
    ensures ReplaceParams(s) == s
  {
    ReplaceParamsLiteral(s, "");
    assert s + "" == s;
  }

  // ---------------------------------------------------------------------------
  // The whole translation
  // ---------------------------------------------------------------------------

  /** The route text before the leading `/` is added. */
  function Rewritten(exts: seq<string>, filePath: string): string {
    ReplaceParams(DropIndex(StripExtension(exts, StripPagesPrefix(filePath))))
  }

  /** Step 5: `route ? '/' + route : '/'`. */
  function Translate(exts: seq<string>, filePath: string): (path: string)
    ensures |path| >= 1 && path[0] == '/'
    ensures path == "/" <==> Rewritten(exts, filePath) == ""
    ensures path[1..] == Rewritten(exts, filePath)
  {
    var route := Rewritten(exts, filePath);
    if route == "" then "/" else "/" + route
  }

  lemma FileFormEmpty(ps: seq<Piece>)
    requires WellFormed(ps)
    ensures FileForm(ps) == "" <==> RouteForm(ps) == ""
  {
    ReplaceParamsPieces(ps);
    if FileForm(ps) == "" {
      assert ReplaceParams("") == "";
    } else {
      assert ReplaceParams(FileForm(ps)) != "";
    }
  }

  /** A single literal piece is its own file form and route form. */
  lemma LitPiece(t: string)
    requires '[' !in t
    ensures FileForm([Lit(t)]) == t && RouteForm([Lit(t)]) == t && WellFormed([Lit(t)])
  {
    var ps := [Lit(t)];
    assert ps[1..] == [];
    assert WellFormedPiece(ps[0]);
  }

  /** A single parameter piece: `[name]` in a file name, `:name` in a route. */
  lemma SingleParam(name: string)
    requires name != [] && ']' !in name
    ensures FileForm([Param(name)]) == "[" + name + "]"
    ensures RouteForm([Param(name)]) == ":" + name
    ensures WellFormed([Param(name)])
  {
    var ps := [Param(name)];
    assert ps[1..] == [];
    assert WellFormedPiece(ps[0]);
  }

  /** A page file `<prefix><pieces>.<ext>` that is not an index file maps to `/`
      followed by its pieces in route form. */
  lemma TranslatePage(exts: seq<string>, prefix: string, ps: seq<Piece>, k: nat)
    requires prefix in PagesPrefixes && SuffixFree(exts) && k < |exts| && WellFormed(ps)
    requires !EndsWith(FileForm(ps), "/index") && FileForm(ps) != "index"
    ensures Translate(exts, prefix + FileForm(ps) + "." + exts[k]) == "/" + RouteForm(ps)
  {
    var c := FileForm(ps);
    assert prefix + c + "." + exts[k] == prefix + (c + "." + exts[k]);
    StripKnownPrefix(prefix, c + "." + exts[k]);
    StripExtensionAt(exts, c, k);
    ReplaceParamsPieces(ps);
  }

  /** An index file `<prefix><pieces>/index.<ext>` maps to its directory. */
  lemma TranslateIndex(exts: seq<string>, prefix: string, ps: seq<Piece>, k: nat)
    requires prefix in PagesPrefixes && SuffixFree(exts) && k < |exts| && WellFormed(ps)
    ensures Translate(exts, prefix + FileForm(ps) + "/index." + exts[k]) == "/" + RouteForm(ps)
  {
    var c := FileForm(ps);
    assert prefix + c + "/index." + exts[k] == prefix + ((c + "/index") + "." + exts[k]);
    StripKnownPrefix(prefix, (c + "/index") + "." + exts[k]);
    StripExtensionAt(exts, c + "/index", k);
    DropIndexOfDirectory(c);
    ReplaceParamsPieces(ps);
  }

  /** A bare `index.<ext>` under any pages prefix is the root route. */
  lemma TranslateRootIndex(exts: seq<string>, prefix: string, k: nat)
    requires prefix in PagesPrefixes && SuffixFree(exts) && k < |exts|
    ensures Translate(exts, prefix + "index." + exts[k]) == "/"
  {
    assert prefix + "index." + exts[k] == prefix + ("index" + "." + exts[k]);
    StripKnownPrefix(prefix, "index" + "." + exts[k]);
    StripExtensionAt(exts, "index", k);
  }

  /** A file outside any pages prefix keeps all its directories. */
  lemma TranslateUnprefixed(exts: seq<string>, ps: seq<Piece>, k: nat)
    requires SuffixFree(exts) && k < |exts| && WellFormed(ps)
    requires forall q :: q in PagesPrefixes ==> !StartsWith(FileForm(ps) + "." + exts[k], q)
    requires !EndsWith(FileForm(ps), "/index") && FileForm(ps) != "index"
    ensures Translate(exts, FileForm(ps) + "." + exts[k]) == "/" + RouteForm(ps)
  {
    var c := FileForm(ps);
    StripNoPrefix(c + "." + exts[k]);
    StripExtensionAt(exts, c, k);
    ReplaceParamsPieces(ps);
  }
}
