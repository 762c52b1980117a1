/** The `vont create` command (`cli/create.ts`): the project name and template
    read from the command line, and whether the command stops with an error or
    goes on to create the project. */
module CreateCli {
  import opened Wrappers
  import opened Js
  import Scaffolding

  /** `process.argv.slice(3)`: the words after `node vont create`. */
  function CommandArgs(argv: seq<string>): (args: seq<string>)
    ensures |argv| >= 3 ==> args == argv[3..]
    ensures |argv| < 3 ==> args == []
  {
    if |argv| >= 3 then argv[3..] else []
  }

  /** `args.find(arg => !arg.startsWith('-'))`. */
  function FirstNonFlag(args: seq<string>): (r: Option<string>)
    ensures r.None? <==> forall i :: 0 <= i < |args| ==> StartsWith(args[i], "-")
    ensures r.Some? ==> exists i :: 0 <= i < |args| && args[i] == r.value && !StartsWith(args[i], "-")
                          && forall j :: 0 <= j < i ==> StartsWith(args[j], "-")
  {
    if args == [] then None
    else if !StartsWith(args[0], "-") then Some(args[0])
    else
      var r := FirstNonFlag(args[1..]);
      assert forall i :: 1 <= i < |args| ==> args[i] == args[1..][i - 1];
      if r.Some? then
        ghost var i :| 0 <= i < |args[1..]| && args[1..][i] == r.value && !StartsWith(args[1..][i], "-")
                       && forall j :: 0 <= j < i ==> StartsWith(args[1..][j], "-");
        assert args[i + 1] == r.value;
        r
      else r
  }

  /** `args.find(arg => arg.startsWith('--template'))`. */
  function FirstTemplateFlag(args: seq<string>): (r: Option<string>)
    ensures r.None? <==> forall i :: 0 <= i < |args| ==> !StartsWith(args[i], "--template")
    ensures r.Some? ==> exists i :: 0 <= i < |args| && args[i] == r.value && StartsWith(args[i], "--template")
                          && forall j :: 0 <= j < i ==> !StartsWith(args[j], "--template")
  {
    if args == [] then None
    else if StartsWith(args[0], "--template") then Some(args[0])
    else
      var r := FirstTemplateFlag(args[1..]);
      assert forall i :: 1 <= i < |args| ==> args[i] == args[1..][i - 1];
      if r.Some? then
        ghost var i :| 0 <= i < |args[1..]| && args[1..][i] == r.value && StartsWith(args[1..][i], "--template")
                       && forall j :: 0 <= j < i ==> !StartsWith(args[1..][j], "--template");
        assert args[i + 1] == r.value;
        r
      else r
  }

  /** `templateArg?.split(' ')[1]`, as written. */
  function TemplateAsWritten(args: seq<string>): Option<string> {
    var flag := FirstTemplateFlag(args);
    if flag.None? then None
    else
      var pieces := Split(flag.value, ' ');
      if |pieces| >= 2 then Some(pieces[1]) else None
  }

  /** The template flag read as the command's usage text and its comment describe
      it: `--template <name>` as two words, or `--template=<name>` as one. */
  function TemplateIntended(args: seq<string>): Option<string> {
    if args == [] then None
    else if args[0] == "--template" then (if |args| >= 2 then Some(args[1]) else None)
    else if StartsWith(args[0], "--template=") then Some(args[0][|"--template="|..])
    else TemplateIntended(args[1..])
  }

  /** As intended, the first template flag selects its template, in both the
      two-word form `--template <t>` and the one-word form `--template=<t>`,
      whatever the other arguments are. */
  lemma {:induction false} IntendedReadsFlag(pre: seq<string>, t: string, post: seq<string>)
    requires forall i :: 0 <= i < |pre| ==> !StartsWith(pre[i], "--template")
    ensures TemplateIntended(pre + ["--template", t] + post) == Some(t)
    ensures TemplateIntended(pre + ["--template=" + t] + post) == Some(t)
  {
    var two, one := pre + ["--template", t] + post, pre + ["--template=" + t] + post;
    if pre == [] {
      assert two[0] == "--template" && two[1] == t;
      var flag := "--template=" + t;
      assert one[0] == flag && flag[..|"--template="|] == "--template=";
      assert flag != "--template";
      assert flag[|"--template="|..] == t;
    } else {
      assert pre[0] != "--template" by {
        assert StartsWith("--template", "--template");
      }
      assert !StartsWith(pre[0], "--template");
      IntendedReadsFlag(pre[1..], t, post);
      assert two[0] == pre[0] && two[1..] == pre[1..] + ["--template", t] + post;
      assert one[0] == pre[0] && one[1..] == pre[1..] + ["--template=" + t] + post;
    }
  }

  /** With no space in the flag word, the code as written never finds a template. */
  lemma {:induction false} NoSpaceNoTemplate(args: seq<string>)
    requires forall i :: 0 <= i < |args| ==> ' ' !in args[i]
    ensures TemplateAsWritten(args) == None
  {
    var flag := FirstTemplateFlag(args);
    if flag.Some? {
      var i :| 0 <= i < |args| && args[i] == flag.value;
      assert ' ' !in flag.value;
    }
  }

  /** The usage example `vont create my-app --template vue-ts`: as written, no
      template is read, so the prompt is shown; as intended, `vue-ts` is. */
  lemma UsageExampleTemplate(name: string, template: string)
    requires ' ' !in name && ' ' !in template && !StartsWith(name, "--template")
    ensures var args := [name, "--template", template];
      TemplateAsWritten(args) == None && TemplateIntended(args) == Some(template)
  {
    var args := [name, "--template", template];
    assert ' ' !in "--template";
    NoSpaceNoTemplate(args);
    assert args[0] != "--template" by {
      assert StartsWith("--template", "--template");
    }
    assert !StartsWith(args[0], "--template=");
    assert args[1..] == ["--template", template];
    assert args[1..][1..] == [template];
  }

  /** The form in the code's own comment, `--template=vue-ts`, yields no template
      either as written; as intended it yields the name after `=`. */
  lemma EqualsFormTemplate(template: string)
    requires ' ' !in template
    ensures var args := ["--template=" + template];
      TemplateAsWritten(args) == None && TemplateIntended(args) == Some(template)
  {
    var flag := "--template=" + template;
    var args := [flag];
    assert ' ' !in "--template=";
    assert ' ' !in flag;
    NoSpaceNoTemplate(args);
    assert flag[..|"--template="|] == "--template=";
    assert flag != "--template";
    assert flag[|"--template="|..] == template;
  }

  /** What the command does. */
  datatype Outcome =
    | MissingName               // "Project name is required", exit 1
    | InvalidTemplate(t: string) // "Invalid template", exit 1
    | Create(projectName: string, template: Option<string>) // createProject(name, template)

  /** The two guards in order, for a project name and template already read. */
  function Decide(projectName: Option<string>, template: Option<string>): (o: Outcome)
    ensures o == MissingName <==> !StrTruthy(projectName)
    ensures o.InvalidTemplate? <==> StrTruthy(projectName) && StrTruthy(template)
                                    && !Scaffolding.IsValidTemplate(template.value)
    ensures o.Create? ==> o.projectName == projectName.value && o.template == template
  {
    if !StrTruthy(projectName) then MissingName
    else if StrTruthy(template) && !Scaffolding.IsValidTemplate(template.value) then InvalidTemplate(template.value)
    else Create(projectName.value, template)
  }

  /** The command as written. */
  function CreateCommandAsWritten(argv: seq<string>): Outcome {
    var args := CommandArgs(argv);
    Decide(FirstNonFlag(args), TemplateAsWritten(args))
  }

  /** The command with the template read as intended. */
  function CreateCommand(argv: seq<string>): Outcome {
    var args := CommandArgs(argv);
    Decide(FirstNonFlag(args), TemplateIntended(args))
  }

  /** A template the command creates with is valid or left to the prompt: an
      invalid name never reaches `createProject`, as written and as intended. */
  lemma CreatedTemplateValid(argv: seq<string>)
    ensures var o := CreateCommandAsWritten(argv);
      o.Create? && StrTruthy(o.template) ==> Scaffolding.IsValidTemplate(o.template.value)
    ensures var o := CreateCommand(argv);
      o.Create? && StrTruthy(o.template) ==> Scaffolding.IsValidTemplate(o.template.value)
  {
  }

  /** `vont create my-app --template vue-ts` prompts as written and creates with
      `vue-ts` as intended. */
  lemma UsageExampleOutcome(node: string, vont: string, name: string)
    requires name != "" && !StartsWith(name, "-") && ' ' !in name
    ensures var argv := [node, vont, "create", name, "--template", "vue-ts"];
      CreateCommandAsWritten(argv) == Create(name, None)
      && CreateCommand(argv) == Create(name, Some("vue-ts"))
  {
    var argv := [node, vont, "create", name, "--template", "vue-ts"];
    var args := [name, "--template", "vue-ts"];
    assert CommandArgs(argv) == args;
    assert !StartsWith(name, "--template");
    UsageExampleTemplate(name, "vue-ts");
    assert FirstNonFlag(args) == Some(name);
    Scaffolding.TemplatesExactly("vue-ts");
  }
}
