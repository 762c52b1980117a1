/** The client entry generator (`generators/virtual-client.ts`): the source text
    of the `.vont/client.tsx` file the dev server and the build write, for React
    or for Vue, with the two `import.meta.glob` patterns filled in. */
module VirtualClient {
  import opened Wrappers
  import opened Js
  import opened VontTypes

  /** `VirtualClientOptions`; a missing options object has every key undefined. */
  datatype VirtualClientOptions = VirtualClientOptions(stylesGlob: Option<string>, pagesGlob: Option<string>,
                                                       framework: Option<Framework>)

  const NoClientOptions := VirtualClientOptions(None, None, None)

  const DefaultStylesGlob := "/src/styles/**/*.css"
  const DefaultPagesGlob := "/src/pages/**/*.{tsx,jsx,vue}"

  /** The two import lines, each starting with the `import` keyword. */
  const ReactImport := "import" + " { renderVontApp } from 'vont/client';"
  const VueImport := "import" + " { renderVueApp } from 'vont/client/vue';"

  /** The fixed text between the import line and the styles pattern. */
  const StylesIntro := "\n\n// 动态导入样式（如果存在）\nconst styleModules = import.meta.glob('"
  /** The fixed text between the two patterns. */
  const PagesIntro := "', { eager: true });\n\n// 动态导入所有页面\nconst pageModules = import.meta.glob('"
  /** The fixed text between the pages pattern and the render call. */
  const RenderIntro := "', { eager: true });\n\n// 渲染应用\n"
  /** The fixed text after the render function's name. */
  const RenderArgs := "({\n  pagesGlob: pageModules,\n});"

  /** The entry text between the template literal's opening and closing line
      breaks. */
  function EntryText(importLine: string, render: string, stylesGlob: string, pagesGlob: string): string {
    importLine + StylesIntro + stylesGlob + PagesIntro + pagesGlob + RenderIntro + render + RenderArgs
  }

  /** `.trim()` of a text between two line breaks that itself starts and ends
      with a character that is not white space gives that text back. */
  lemma TrimBetweenNewlines(s: string)
    requires s != [] && !IsWhiteSpace(s[0]) && !IsWhiteSpace(s[|s| - 1])
    ensures Trim("\n" + s + "\n") == s
  {
    var t := "\n" + s + "\n";
    assert t[1..] == s + "\n";
    assert TrimStart(s + "\n") == s + "\n";
    assert TrimStart(t) == s + "\n";
    assert (s + "\n")[..|s + "\n"| - 1] == s;
    assert TrimEnd(s + "\n") == TrimEnd(s) == s;
  }

  /** The entry text starts with its import line and ends with `;`. */
  lemma EntryTextEnds(importLine: string, render: string, stylesGlob: string, pagesGlob: string)
    requires importLine != [] && importLine[0] == 'i'
    ensures var s := EntryText(importLine, render, stylesGlob, pagesGlob);
      s != [] && s[0] == 'i' && s[|s| - 1] == ';'
  {
    var s := EntryText(importLine, render, stylesGlob, pagesGlob);
    var front := importLine + StylesIntro + stylesGlob + PagesIntro + pagesGlob + RenderIntro + render;
    assert s == front + RenderArgs;
    assert s[|s| - 1] == RenderArgs[|RenderArgs| - 1];
    assert s[0] == importLine[0];
  }

  /** `generateReactClient(stylesGlob, pagesGlob)`. */
  function GenerateReactClient(stylesGlob: string, pagesGlob: string): string {
    Trim("\n" + EntryText(ReactImport, "renderVontApp", stylesGlob, pagesGlob) + "\n")
  }

  /** `generateVueClient(stylesGlob, pagesGlob)`. */
  function GenerateVueClient(stylesGlob: string, pagesGlob: string): string {
    Trim("\n" + EntryText(VueImport, "renderVueApp", stylesGlob, pagesGlob) + "\n")
  }

  /** `generateVirtualClient(options)`. */
  function GenerateVirtualClient(options: VirtualClientOptions): string {
    var stylesGlob := StrOrDefault(options.stylesGlob, DefaultStylesGlob);
    var pagesGlob := StrOrDefault(options.pagesGlob, DefaultPagesGlob);
    var framework := options.framework.GetOr(React);
    if framework == Vue then GenerateVueClient(stylesGlob, pagesGlob)
    else GenerateReactClient(stylesGlob, pagesGlob)
  }

  /** The generated entry is the template's text with the patterns filled in and
      its two outer line breaks trimmed away: it has no leading or trailing
      white space. */
  lemma ReactClientText(stylesGlob: string, pagesGlob: string)
    ensures GenerateReactClient(stylesGlob, pagesGlob) == EntryText(ReactImport, "renderVontApp", stylesGlob, pagesGlob)
  {
    assert ReactImport[0] == "import"[0] == 'i';
    EntryTextEnds(ReactImport, "renderVontApp", stylesGlob, pagesGlob);
    TrimBetweenNewlines(EntryText(ReactImport, "renderVontApp", stylesGlob, pagesGlob));
  }

  lemma VueClientText(stylesGlob: string, pagesGlob: string)
    ensures GenerateVueClient(stylesGlob, pagesGlob) == EntryText(VueImport, "renderVueApp", stylesGlob, pagesGlob)
  {
    assert VueImport[0] == "import"[0] == 'i';
    EntryTextEnds(VueImport, "renderVueApp", stylesGlob, pagesGlob);
    TrimBetweenNewlines(EntryText(VueImport, "renderVueApp", stylesGlob, pagesGlob));
  }

  /** Where the two filled-in parts of `p + x + q + y + r` sit. */
  lemma Locate(p: string, x: string, q: string, y: string, r: string)
    ensures var s := p + x + q + y + r;
      && s[..|p|] == p && s[|p|..|p| + |x|] == x
      && s[..|p + x + q|] == p + x + q && s[|p + x + q|..|p + x + q| + |y|] == y
  {
    var s := p + x + q + y + r;
    assert s == p + (x + q + y + r);
    assert s == (p + x + q) + (y + r);
  }

  /** Both fixed texts before a pattern end with the `import.meta.glob('` call. */
  lemma IntrosEndWithGlobCall()
    ensures EndsWith(StylesIntro, "import.meta.glob('") && EndsWith(PagesIntro, "import.meta.glob('")
  {
  }

  /** Both patterns appear verbatim, each right after `import.meta.glob('`, the
      styles pattern first. */
  lemma PatternsInOrder(importLine: string, render: string, stylesGlob: string, pagesGlob: string)
    ensures var s := EntryText(importLine, render, stylesGlob, pagesGlob);
      var i := |importLine + StylesIntro|;
      var j := i + |stylesGlob + PagesIntro|;
      && i + |stylesGlob| <= j && j + |pagesGlob| <= |s|
      && s[i..i + |stylesGlob|] == stylesGlob && s[j..j + |pagesGlob|] == pagesGlob
      && EndsWith(s[..i], "import.meta.glob('") && EndsWith(s[..j], "import.meta.glob('")
  {
    var p := importLine + StylesIntro;
    var r := RenderIntro + render + RenderArgs;
    IntrosEndWithGlobCall();
    EndsWithPrepend(StylesIntro, importLine, "import.meta.glob('");
    GlobsAt(p, stylesGlob, PagesIntro, pagesGlob, r, "import.meta.glob('");
    assert EntryText(importLine, render, stylesGlob, pagesGlob) == p + stylesGlob + PagesIntro + pagesGlob + r;
  }

  /** In `p + x + q + y + r` with `p` and `q` both ending in `g`, `x` and `y`
      each sit right after a `g`. */
  lemma GlobsAt(p: string, x: string, q: string, y: string, r: string, g: string)
    requires EndsWith(p, g) && EndsWith(q, g)
    ensures var s := p + x + q + y + r;
      var i, j := |p|, |p + x + q|;
      && i + |x| <= j && j + |y| <= |s| && s[i..i + |x|] == x && s[j..j + |y|] == y
      && EndsWith(s[..i], g) && EndsWith(s[..j], g)
  {
    Locate(p, x, q, y, r);
    EndsWithPrepend(q, p + x, g);
  }

  /** Missing or empty options fall back to the default patterns and to React. */
  lemma ClientDefaults(options: VirtualClientOptions)
    requires !StrTruthy(options.stylesGlob) && !StrTruthy(options.pagesGlob) && options.framework.None?
    ensures GenerateVirtualClient(options) == EntryText(ReactImport, "renderVontApp", DefaultStylesGlob, DefaultPagesGlob)
  {
    ReactClientText(DefaultStylesGlob, DefaultPagesGlob);
  }

  /** Vue gives the entry that calls `renderVueApp` from `vont/client/vue`; any
      other choice gives the one that calls `renderVontApp` from `vont/client`. */
  lemma FrameworkChoosesEntry(options: VirtualClientOptions)
    ensures var styles, pages := StrOrDefault(options.stylesGlob, DefaultStylesGlob), StrOrDefault(options.pagesGlob, DefaultPagesGlob);
      && (options.framework == Some(Vue) ==> GenerateVirtualClient(options) == EntryText(VueImport, "renderVueApp", styles, pages))
      && (options.framework != Some(Vue) ==> GenerateVirtualClient(options) == EntryText(ReactImport, "renderVontApp", styles, pages))
  {
    var styles, pages := StrOrDefault(options.stylesGlob, DefaultStylesGlob), StrOrDefault(options.pagesGlob, DefaultPagesGlob);
    ReactClientText(styles, pages);
    VueClientText(styles, pages);
  }

  /** The generated text starts with the chosen import line and has no white
      space at either end. */
  lemma ClientTextShape(options: VirtualClientOptions)
    ensures var r := GenerateVirtualClient(options);
      && StartsWith(r, if options.framework == Some(Vue) then VueImport else ReactImport)
      && r != [] && !IsWhiteSpace(r[0]) && !IsWhiteSpace(r[|r| - 1])
  {
    FrameworkChoosesEntry(options);
    var styles, pages := StrOrDefault(options.stylesGlob, DefaultStylesGlob), StrOrDefault(options.pagesGlob, DefaultPagesGlob);
    if options.framework == Some(Vue) {
      assert VueImport[0] == "import"[0] == 'i';
      EntryShape(VueImport, "renderVueApp", styles, pages);
    } else {
      assert ReactImport[0] == "import"[0] == 'i';
      EntryShape(ReactImport, "renderVontApp", styles, pages);
    }
  }

  /** An entry text starts with its import line and has no white space at either
      end. */
  lemma EntryShape(importLine: string, render: string, stylesGlob: string, pagesGlob: string)
    requires importLine != [] && importLine[0] == 'i'
    ensures var s := EntryText(importLine, render, stylesGlob, pagesGlob);
      && StartsWith(s, importLine) && s != [] && !IsWhiteSpace(s[0]) && !IsWhiteSpace(s[|s| - 1])
  {
    EntryTextEnds(importLine, render, stylesGlob, pagesGlob);
    var s := EntryText(importLine, render, stylesGlob, pagesGlob);
    var rest := StylesIntro + stylesGlob + PagesIntro + pagesGlob + RenderIntro + render + RenderArgs;
    assert s == importLine + rest;
    assert s[..|importLine|] == importLine;
  }
}
