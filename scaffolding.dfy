/** Project scaffolding (`scaffolding/index.ts`): the template list, template
    validation and descriptions, how an answer to the template prompt is
    resolved, and the `{{PROJECT_NAME}}` substitution applied to every copied
    file. The prompt's terminal I/O and the file copying are not modelled. */
module Scaffolding {
  import opened Wrappers
  import opened Js

  /** `getAvailableTemplates()`. */
  const AvailableTemplates: seq<string> := ["react-ts", "vue-ts"]

  /** `isValidTemplate(template)`. */
  predicate IsValidTemplate(template: string) {
    template in AvailableTemplates
  }

  /** `getTemplateDescription(template)`, for the two template names. */
  function TemplateDescription(template: string): (d: string)
    requires IsValidTemplate(template)
    ensures template == "react-ts" ==> d == "React + TypeScript"
    ensures template == "vue-ts" ==> d == "Vue 3 + TypeScript"
  {
    if template == "react-ts" then "React + TypeScript" else "Vue 3 + TypeScript"
  }

  /** Exactly the two names are valid, in this order. */
  lemma TemplatesExactly(s: string)
    ensures IsValidTemplate(s) <==> s == "react-ts" || s == "vue-ts"
    ensures |AvailableTemplates| == 2 && AvailableTemplates[0] == "react-ts" && AvailableTemplates[1] == "vue-ts"
  {
  }

  // ---------------------------------------------------------------------------
  // promptTemplate
  // ---------------------------------------------------------------------------

  /** The answer callback of `promptTemplate` over a template list: a blank answer
      picks the first template, then a number from 1 picks by position (only the
      leading digits are read), then a template name picks itself, and anything
      else falls back to the first. */
  function ResolveChoice(templates: seq<string>, answer: string): (t: string)
    requires |templates| >= 1
    ensures t in templates
  {
    var choice := Trim(answer);
    if choice == "" then templates[0]
    else
      var parsed := ParseInt(choice);
      if parsed.Num? && 0 <= parsed.n - 1 < |templates| then templates[parsed.n - 1]
      else if choice in templates then choice
      else templates[0]
  }

  /** `promptTemplate()`: a single template is returned without asking. */
  function PromptTemplate(templates: seq<string>, answer: string): (t: string)
    requires |templates| >= 1
    ensures |templates| == 1 ==> t == templates[0]
    ensures t in templates
  {
    if |templates| == 1 then templates[0] else ResolveChoice(templates, answer)
  }

  /** A blank answer (only white space) picks the first template. */
  lemma BlankAnswerPicksFirst(templates: seq<string>, answer: string)
    requires |templates| >= 1 && Trim(answer) == ""
    ensures ResolveChoice(templates, answer) == templates[0]
  {
  }

  /** An answer whose leading digits (after white space) read as `k + 1`, with
      `k` a position in the list, picks the template at `k`, whatever follows the
      digits. */
  lemma NumberPicksByPosition(templates: seq<string>, answer: string, k: nat)
    requires k < |templates| && ParseInt(Trim(answer)) == Num(k + 1)
    ensures ResolveChoice(templates, answer) == templates[k]
  {
    assert Trim(answer) != "";
  }

  /** An answer that is not a number and names a template picks it. */
  lemma NamePicksItself(templates: seq<string>, answer: string)
    requires |templates| >= 1 && Trim(answer) in templates && Trim(answer) != ""
    requires ParseInt(Trim(answer)) == NaN
    ensures ResolveChoice(templates, answer) == Trim(answer)
  {
  }

  /** A number outside the list that is not a template name falls back to the
      first template: `0` and `3` both pick `react-ts`. */
  lemma NumberOutOfRangeFallsBack(templates: seq<string>, answer: string, n: int)
    requires |templates| >= 1 && Trim(answer) != "" && Trim(answer) !in templates
    requires ParseInt(Trim(answer)) == Num(n) && !(1 <= n <= |templates|)
    ensures ResolveChoice(templates, answer) == templates[0]
  {
  }

  /** `2x` is read as 2 and picks `vue-ts`. */
  lemma NumericPrefixExample()
    ensures ResolveChoice(AvailableTemplates, "2x") == "vue-ts"
  {
    var s := "2x";
    assert TrimStart(s) == s;
    assert TrimEnd(s) == s;
    assert SignStripped(s) == s;
    assert s[1..] == "x";
    assert DigitPrefix("x") == "";
    assert DigitPrefix(s) == "2";
    assert DigitsValue("2") == 2;
    NumberPicksByPosition(AvailableTemplates, s, 1);
  }

  // ---------------------------------------------------------------------------
  // {{PROJECT_NAME}} substitution
  // ---------------------------------------------------------------------------

  const Placeholder := "{{PROJECT_NAME}}"

  /** The project name put in place of every `{{PROJECT_NAME}}`, scanning left to
      right and resuming after each replacement, as a global regular expression
      does. */
  function Substitute(content: string, name: string): string
    decreases |content|
  {
    if content == [] then []
    else if StartsWith(content, Placeholder) then name + Substitute(content[|Placeholder|..], name)
    else [content[0]] + Substitute(content[1..], name)
  }

  /** `segs[0] + sep + segs[1] + … + sep + segs[n-1]`. */
  function JoinWith(segs: seq<string>, sep: string): string
    requires |segs| >= 1
  {
    if |segs| == 1 then segs[0] else segs[0] + sep + JoinWith(segs[1..], sep)
  }

  /** No `{{PROJECT_NAME}}` starts anywhere in `a`. */
  predicate PlaceholderFree(a: string) {
    forall k :: 0 <= k < |a| ==> !StartsWith(a[k..], Placeholder)
  }

  /** `{{PROJECT_NAME}}` has no border: no proper suffix of it is also a prefix,
      so two occurrences of it never overlap. */
  lemma PlaceholderUnbordered(d: nat)
    requires 1 <= d < |Placeholder|
    ensures Placeholder[d..] != Placeholder[..|Placeholder| - d]
  {
    var p := Placeholder;
    assert p[..|p| - d][0] == '{';
    if d == 1 {
      assert p[d..][1] == p[2] == 'P';
      assert p[..|p| - d][1] == '{';
    } else {
      assert p[d..][0] == p[d];
      assert forall j :: 2 <= j < |p| ==> p[j] != '{';
    }
  }

  /** Text in which no placeholder starts passes through unchanged and does not
      disturb what follows. */
  lemma {:induction false} SubstitutePlainPrefix(a: string, t: string, name: string)
    requires forall k :: 0 <= k < |a| ==> !StartsWith((a + t)[k..], Placeholder)
    ensures Substitute(a + t, name) == a + Substitute(t, name)
  {
    if a != [] {
      assert (a + t)[0..] == a + t;
      assert !StartsWith(a + t, Placeholder);
      assert (a + t)[1..] == a[1..] + t;
      forall k | 0 <= k < |a[1..]|
        ensures !StartsWith((a[1..] + t)[k..], Placeholder)
      {
        assert (a[1..] + t)[k..] == (a + t)[k + 1..];
      }
      SubstitutePlainPrefix(a[1..], t, name);
      assert [a[0]] + a[1..] == a;
    } else {
      assert a + t == t;
    }
  }

  /** A segment free of placeholders, followed by a placeholder, has no
      placeholder starting inside the segment: none can straddle the joint. */
  lemma NoStraddle(a: string, rest: string)
    requires PlaceholderFree(a)
    ensures forall k :: 0 <= k < |a| ==> !StartsWith((a + (Placeholder + rest))[k..], Placeholder)
  {
    var s := a + (Placeholder + rest);
    var n := |Placeholder|;
    forall k | 0 <= k < |a|
      ensures !StartsWith(s[k..], Placeholder)
    {
      if k + n <= |a| {
        assert s[k..][..n] == a[k..][..n];
      } else {
        var d := |a| - k;
        PlaceholderUnbordered(d);
        assert s[k..][..n][d..] == Placeholder[..n - d];
      }
    }
  }

  /** Every placeholder between segments free of placeholders is replaced by the
      name, and the segments are kept as they are. */
  lemma {:induction false} SubstituteEveryPlaceholder(segs: seq<string>, name: string)
    requires |segs| >= 1 && forall i :: 0 <= i < |segs| ==> PlaceholderFree(segs[i])
    ensures Substitute(JoinWith(segs, Placeholder), name) == JoinWith(segs, name)
  {
    if |segs| == 1 {
      assert segs[0] + [] == segs[0];
      SubstitutePlainPrefix(segs[0], [], name);
    } else {
      var rest := JoinWith(segs[1..], Placeholder);
      assert JoinWith(segs, Placeholder) == segs[0] + (Placeholder + rest);
      NoStraddle(segs[0], rest);
      SubstitutePlainPrefix(segs[0], Placeholder + rest, name);
      assert StartsWith(Placeholder + rest, Placeholder);
      assert (Placeholder + rest)[|Placeholder|..] == rest;
      SubstituteEveryPlaceholder(segs[1..], name);
    }
  }

  /** A JSON template with braces of its own: `{"name": "{{PROJECT_NAME}}"}`
      becomes `{"name": "<name>"}`. */
  lemma JsonTemplateSubstituted(name: string)
    ensures Substitute("{\"name\": \"" + Placeholder + "\"}", name) == "{\"name\": \"" + name + "\"}"
  {
    var a, b := "{\"name\": \"", "\"}";
    // Both segments are shorter than the placeholder, so none starts in them.
    assert PlaceholderFree(a) && PlaceholderFree(b);
    var segs := [a, b];
    assert segs[1..] == [b];
    assert JoinWith(segs, Placeholder) == a + Placeholder + b;
    assert JoinWith(segs, name) == a + name + b;
    SubstituteEveryPlaceholder(segs, name);
  }

  /** Content in which no placeholder occurs is copied unchanged. */
  lemma NoPlaceholderUnchanged(content: string, name: string)
    requires PlaceholderFree(content)
    ensures Substitute(content, name) == content
  {
    assert content + [] == content;
    SubstitutePlainPrefix(content, [], name);
  }

  // ---------------------------------------------------------------------------
  // The substitution as written: String.prototype.replace with a string
  // ---------------------------------------------------------------------------

  /** ECMAScript's GetSubstitution for a pattern without capture groups: `$$` is a
      dollar sign, `$&` the match, `` $` `` the text before it and `$'` the text
      after it; every other character is copied. */
  function ExpandReplacement(r: string, matched: string, before: string, after: string): string
    decreases |r|
  {
    if r == [] then []
    else if r[0] == '$' && |r| >= 2 && r[1] == '$' then "$" + ExpandReplacement(r[2..], matched, before, after)
    else if r[0] == '$' && |r| >= 2 && r[1] == '&' then matched + ExpandReplacement(r[2..], matched, before, after)
    else if r[0] == '$' && |r| >= 2 && r[1] == '`' then before + ExpandReplacement(r[2..], matched, before, after)
    else if r[0] == '$' && |r| >= 2 && r[1] == '\'' then after + ExpandReplacement(r[2..], matched, before, after)
    else [r[0]] + ExpandReplacement(r[1..], matched, before, after)
  }

  /** `content.replace(/\{\{PROJECT_NAME\}\}/g, projectName)` from position `i`:
      the name is expanded as a replacement pattern at each match. */
  function ReplaceAsWrittenFrom(content: string, i: nat, name: string): string
    requires i <= |content|
    decreases |content| - i
  {
    var rest := content[i..];
    if rest == [] then []
    else if StartsWith(rest, Placeholder) then
      ExpandReplacement(name, Placeholder, content[..i], content[i + |Placeholder|..])
      + ReplaceAsWrittenFrom(content, i + |Placeholder|, name)
    else [content[i]] + ReplaceAsWrittenFrom(content, i + 1, name)
  }

  function ReplaceAsWritten(content: string, name: string): string {
    ReplaceAsWrittenFrom(content, 0, name)
  }

  /** Without a `$`, a replacement pattern stands for itself. */
  lemma {:induction false} ExpandPlain(r: string, matched: string, before: string, after: string)
    requires '$' !in r
    ensures ExpandReplacement(r, matched, before, after) == r
    decreases |r|
  {
    if r != [] {
      assert '$' !in r[1..];
      ExpandPlain(r[1..], matched, before, after);
    }
  }

  /** For a project name without `$`, the code as written performs the intended
      substitution. */
  lemma {:induction false} AsWrittenAgreesWithoutDollar(content: string, i: nat, name: string)
    requires i <= |content| && '$' !in name
    ensures ReplaceAsWrittenFrom(content, i, name) == Substitute(content[i..], name)
    decreases |content| - i
  {
    var rest := content[i..];
    if rest != [] {
      if StartsWith(rest, Placeholder) {
        ExpandPlain(name, Placeholder, content[..i], content[i + |Placeholder|..]);
        assert rest[|Placeholder|..] == content[i + |Placeholder|..];
        AsWrittenAgreesWithoutDollar(content, i + |Placeholder|, name);
      } else {
        assert rest[0] == content[i];
        assert rest[1..] == content[i + 1..];
        AsWrittenAgreesWithoutDollar(content, i + 1, name);
      }
    }
  }

  /** The name `a$&b` turns a file that is just `{{PROJECT_NAME}}` into
      `a{{PROJECT_NAME}}b` rather than `a$&b`. */
  lemma DollarNameMisexpanded()
    ensures ReplaceAsWritten(Placeholder, "a$&b") == "a" + Placeholder + "b"
    ensures Substitute(Placeholder, "a$&b") == "a$&b"
  {
    var name := "a$&b";
    var p := Placeholder;
    assert StartsWith(p, p);
    assert p[..0] == [] && p[|p|..] == [];
    assert p[0..] == p;
    assert ReplaceAsWrittenFrom(p, |p|, name) == [];
    assert name[1..] == "$&b" && name[1..][2..] == "b" && "b"[1..] == [];
    assert ExpandReplacement("b", p, [], []) == "b";
    assert ExpandReplacement("$&b", p, [], []) == p + "b";
    assert ExpandReplacement(name, p, [], []) == "a" + (p + "b");
    assert Substitute([], name) == [];
  }
}
