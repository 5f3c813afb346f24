/** `CmdWorkflowComposer`: on a Windows agent, every `.cmd`/`.bat` command
    line is rewritten into an invocation of `cmd /D /C "…"`. The path of
    `cmd` is looked up by a path-resolution workflow emitted just before the
    first such rewrite, and kept once it is known. */
module CmdWorkflowComposers {
  import opened Common
  import opened Text
  import opened TargetTypes
  import opened CommandLines

  const ComposerTarget: TargetType := Host

  /** The collaborators the composer consults. `resolution` is the workflow
      the path-resolver factory creates for `cmd`; `resolvedAfter(k)` is the
      path that workflow has resolved once it has run for the `k`-th time
      (counting from 0), or none. `newId(c)` is the identity given to the
      command line that replaces `c`. */
  datatype Collaborators = Collaborators(
    extension: Path -> string,
    resolution: seq<CommandLine>,
    resolvedAfter: nat -> Option<Path>,
    resolvePath: string -> string,
    combine: seq<string> -> string,
    newId: CommandLine -> nat)

  /** The lower-cased extension is `cmd` or `bat`. */
  predicate IsShellScript(extension: string) {
    Lower(extension) == "cmd" || Lower(extension) == "bat"
  }

  /** The extension test ignores case. */
  lemma IsShellScriptIgnoresCase(extension: string)
    ensures IsShellScript(Lower(extension)) <==> IsShellScript(extension)
  {
    LowerIdempotent(extension);
  }

  predicate Rewritten(c: CommandLine, env: Collaborators) {
    IsShellScript(env.extension(c.executable))
  }

  /** The executable and then every argument value, each as the process
      will see it. */
  function ResolvedValues(c: CommandLine, env: Collaborators): (r: seq<string>)
    ensures |r| == 1 + |c.arguments|
    ensures r[0] == env.resolvePath(c.executable.path)
    ensures forall k :: 0 <= k < |c.arguments| ==> r[k + 1] == env.resolvePath(c.arguments[k].value)
  {
    [env.resolvePath(c.executable.path)]
      + seq(|c.arguments|, k requires 0 <= k < |c.arguments| => env.resolvePath(c.arguments[k].value))
  }

  /** `getArguments`. */
  function CmdArguments(c: CommandLine, env: Collaborators): (r: seq<Argument>)
    ensures |r| == 3
    ensures r[0] == CustomArgument("/D") && r[1] == CustomArgument("/C")
    ensures r[2].argType == Target
  {
    [CustomArgument("/D"), CustomArgument("/C"),
     Argument("\"" + env.combine(ResolvedValues(c, env)) + "\"", Target)]
  }

  /** The last argument is the combined command, quoted once. */
  lemma CmdArgumentsQuoteCommand(c: CommandLine, env: Collaborators)
    ensures var v := CmdArguments(c, env)[2].value;
      |v| >= 2 && v[0] == '"' && v[|v| - 1] == '"'
      && v[1..|v| - 1] == env.combine(ResolvedValues(c, env))
  {
  }

  /** The command line that runs `c` through `cmd`. */
  function Wrap(c: CommandLine, cmdExecutable: Option<Path>, env: Collaborators): (r: CommandLine)
    ensures r.base.None? && r.target == Host
    ensures r.executable == cmdExecutable.GetOr(Path("cmd"))
    ensures r.workingDirectory == c.workingDirectory && r.environment == c.environment
    ensures r.title == c.title && r.description == c.description
    ensures r.arguments == CmdArguments(c, env)
  {
    CommandLine(None, Host, cmdExecutable.GetOr(Path("cmd")), c.workingDirectory,
      CmdArguments(c, env), c.environment, c.title, c.description, env.newId(c))
  }

  /** The rewritten workflow of `lines`, given the path known so far and the
      number of resolution runs so far. */
  function ComposeFrom(lines: seq<CommandLine>, cmdExecutable: Option<Path>, attempts: nat, env: Collaborators)
    : seq<CommandLine>
    decreases |lines|
  {
    if lines == [] then []
    else if !Rewritten(lines[0], env) then
      [lines[0]] + ComposeFrom(lines[1..], cmdExecutable, attempts, env)
    else if cmdExecutable.None? then
      var resolved := env.resolvedAfter(attempts);
      env.resolution + [Wrap(lines[0], resolved, env)] + ComposeFrom(lines[1..], resolved, attempts + 1, env)
    else
      [Wrap(lines[0], cmdExecutable, env)] + ComposeFrom(lines[1..], cmdExecutable, attempts, env)
  }

  /** `compose`: the workflow is rewritten only on Windows. */
  function Composed(isWindows: bool, lines: seq<CommandLine>, env: Collaborators): (r: seq<CommandLine>)
    ensures !isWindows ==> r == lines
  {
    if isWindows then ComposeFrom(lines, None, 0, env) else lines
  }

  /** `compose`, with the loop and the cached `cmdExecutable` of the
      source. */
  method Compose(isWindows: bool, lines: seq<CommandLine>, env: Collaborators) returns (r: seq<CommandLine>)
    ensures r == Composed(isWindows, lines, env)
  {
    if !isWindows {
      return lines;
    }
    r := [];
    var cmdExecutable: Option<Path> := None;
    var attempts: nat := 0;
    for i := 0 to |lines|
      invariant r + ComposeFrom(lines[i..], cmdExecutable, attempts, env) == ComposeFrom(lines, None, 0, env)
    {
      var original := lines[i];
      ComposeFromAt(lines, i, cmdExecutable, attempts, env);
      if Rewritten(original, env) {
        if cmdExecutable.None? {
          AppendAssociative(r, env.resolution, [Wrap(original, env.resolvedAfter(attempts), env)]
            + ComposeFrom(lines[i + 1..], env.resolvedAfter(attempts), attempts + 1, env));
          r := r + env.resolution;
          cmdExecutable := env.resolvedAfter(attempts);
          attempts := attempts + 1;
        }
        AppendAssociative(r, [Wrap(original, cmdExecutable, env)], ComposeFrom(lines[i + 1..], cmdExecutable, attempts, env));
        r := r + [Wrap(original, cmdExecutable, env)];
      } else {
        AppendAssociative(r, [original], ComposeFrom(lines[i + 1..], cmdExecutable, attempts, env));
        r := r + [original];
      }
    }
  }

  /** One step of `ComposeFrom` at position `i`, with the concatenations
      grouped as the loop of `Compose` appends them. */
  lemma ComposeFromAt(lines: seq<CommandLine>, i: nat, cmdExecutable: Option<Path>, attempts: nat, env: Collaborators)
    requires i < |lines|
    ensures var c := lines[i];
      var resolved := env.resolvedAfter(attempts);
      ComposeFrom(lines[i..], cmdExecutable, attempts, env) ==
        if !Rewritten(c, env) then [c] + ComposeFrom(lines[i + 1..], cmdExecutable, attempts, env)
        else if cmdExecutable.None? then
          env.resolution + ([Wrap(c, resolved, env)] + ComposeFrom(lines[i + 1..], resolved, attempts + 1, env))
        else [Wrap(c, cmdExecutable, env)] + ComposeFrom(lines[i + 1..], cmdExecutable, attempts, env)
  {
    assert lines[i..][0] == lines[i] && lines[i..][1..] == lines[i + 1..];
  }

  /** Without `.cmd`/`.bat` lines the workflow is left as it is and no
      resolution is run. */
  lemma {:induction false} NoScriptsUnchanged(lines: seq<CommandLine>, cmdExecutable: Option<Path>, attempts: nat, env: Collaborators)
    requires forall k :: 0 <= k < |lines| ==> !Rewritten(lines[k], env)
    ensures ComposeFrom(lines, cmdExecutable, attempts, env) == lines
  {
    if lines != [] {
      NoScriptsUnchanged(lines[1..], cmdExecutable, attempts, env);
    }
  }

  /** The line that `c` becomes once the path of `cmd` is known. */
  function Rewrite(c: CommandLine, cmdExecutable: Option<Path>, env: Collaborators): CommandLine {
    if Rewritten(c, env) then Wrap(c, cmdExecutable, env) else c
  }

  /** Once the path is known, every line yields exactly one line, in order,
      and the resolution is never run again. */
  lemma {:induction false} KnownPathRewritesInPlace(lines: seq<CommandLine>, path: Path, attempts: nat, env: Collaborators)
    ensures var r := ComposeFrom(lines, Some(path), attempts, env);
      |r| == |lines| && forall k :: 0 <= k < |lines| ==> r[k] == Rewrite(lines[k], Some(path), env)
  {
    if lines != [] {
      KnownPathRewritesInPlace(lines[1..], path, attempts, env);
    }
  }

  /** While the path is unknown, the lines before the next `.cmd`/`.bat`
      line pass unchanged, then the resolution workflow runs, then that line
      is rewritten with whatever path the run resolved. */
  lemma {:induction false} ResolutionBeforeScript(lines: seq<CommandLine>, k: nat, attempts: nat, env: Collaborators)
    requires k < |lines| && Rewritten(lines[k], env)
    requires forall j :: 0 <= j < k ==> !Rewritten(lines[j], env)
    ensures var resolved := env.resolvedAfter(attempts);
      ComposeFrom(lines, None, attempts, env)
        == lines[..k] + env.resolution + [Wrap(lines[k], resolved, env)]
          + ComposeFrom(lines[k + 1..], resolved, attempts + 1, env)
  {
    var resolved := env.resolvedAfter(attempts);
    var tail := ComposeFrom(lines[k + 1..], resolved, attempts + 1, env);
    if k > 0 {
      var rest := lines[1..];
      assert rest[k - 1] == lines[k] && rest[k..] == lines[k + 1..];
      assert forall j :: 0 <= j < k - 1 ==> rest[j] == lines[j + 1];
      ResolutionBeforeScript(rest, k - 1, attempts, env);
      var w := [Wrap(lines[k], resolved, env)];
      assert ComposeFrom(lines, None, attempts, env)
        == [lines[0]] + (rest[..k - 1] + env.resolution + w + tail);
      assert lines[..k] == [lines[0]] + rest[..k - 1];
      AppendAssociative([lines[0]], rest[..k - 1] + env.resolution + w, tail);
      AppendAssociative([lines[0]], rest[..k - 1] + env.resolution, w);
      AppendAssociative([lines[0]], rest[..k - 1], env.resolution);
    } else {
      assert lines[..0] == [];
      assert lines[1..] == lines[k + 1..];
    }
  }
}
