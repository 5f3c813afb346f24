/** `DotnetCommandSet`: the configured `dotnet` command, chosen by the
    runner's command parameter among the known commands, expanded into one
    composite command per group of target arguments. */
module DotnetCommandSets {
  import opened Common
  import opened Text
  import opened CommandLines
  import opened DotnetCommands

  /** `associateBy { it.commandType.id }`: for a repeated identifier the
      later command replaces the earlier one. */
  function KnownCommands(cmds: seq<DotnetCommand>): (m: map<string, DotnetCommand>)
    ensures forall k :: k in m <==> exists i :: 0 <= i < |cmds| && cmds[i].commandType == k
    ensures forall k :: k in m ==> m[k].commandType == k && m[k] in cmds
  {
    if cmds == [] then map[]
    else
      var last := cmds[|cmds| - 1];
      var before := KnownCommands(cmds[..|cmds| - 1]);
      assert forall i :: 0 <= i < |cmds| - 1 ==> cmds[..|cmds| - 1][i] == cmds[i];
      before[last.commandType := last]
  }

  /** The command kept for an identifier is the last one declaring it. */
  lemma {:induction false} LaterCommandWins(cmds: seq<DotnetCommand>, i: int)
    requires 0 <= i < |cmds|
    requires forall j :: i < j < |cmds| ==> cmds[j].commandType != cmds[i].commandType
    ensures KnownCommands(cmds)[cmds[i].commandType] == cmds[i]
  {
    if i < |cmds| - 1 {
      var prefix := cmds[..|cmds| - 1];
      assert forall j :: i < j < |prefix| ==> prefix[j] == cmds[j];
      LaterCommandWins(prefix, i);
    }
  }

  // ---------------------------------------------------------------------
  // Groups of target arguments

  /** What `getTargetArguments` yields: the command's groups, or one empty
      group when it has none. */
  function TargetGroups(groups: seq<TargetArguments>): (r: seq<TargetArguments>)
    ensures |r| >= 1
    ensures groups != [] ==> r == groups
    ensures groups == [] ==> r == [TargetArguments([])]
  {
    if groups == [] then [TargetArguments([])] else groups
  }

  /** `getTargetArguments`: yields every group of the command, and an empty
      group when the loop yielded none. */
  method GetTargetArguments(command: DotnetCommand) returns (groups: seq<TargetArguments>)
    ensures groups == TargetGroups(command.targetArguments)
  {
    var hasTargets := false;
    groups := [];
    var i := 0;
    while i < |command.targetArguments|
      invariant 0 <= i <= |command.targetArguments|
      invariant groups == command.targetArguments[..i]
      invariant hasTargets <==> i > 0
    {
      groups := groups + [command.targetArguments[i]];
      hasTargets := true;
      i := i + 1;
    }
    if !hasTargets {
      groups := groups + [TargetArguments([])];
    }
  }

  // ---------------------------------------------------------------------
  // The verb of a command

  const NotEmpty: string -> bool := (w: string) => w != ""

  /** The command type's identifier split on '-', empty pieces dropped. */
  function VerbTokens(id: string): (r: seq<string>)
    ensures forall k :: 0 <= k < |r| ==> r[k] != "" && '-' !in r[k]
  {
    var r := Filter(SplitOn(id, '-'), NotEmpty);
    assert forall k :: 0 <= k < |r| ==> r[k] in r;
    r
  }

  /** The verb tokens glue back to the identifier without its dashes. */
  lemma VerbTokensFlatten(id: string)
    ensures Flatten(VerbTokens(id)) == Without(id, '-')
  {
    SplitOnFlatten(id, '-');
    FlattenDropsEmpty(SplitOn(id, '-'));
  }

  lemma {:induction false} FlattenDropsEmpty(xs: seq<string>)
    ensures Flatten(Filter(xs, NotEmpty)) == Flatten(xs)
  {
    if xs != [] {
      FlattenDropsEmpty(xs[1..]);
      if xs[0] != "" {
        assert Filter(xs, NotEmpty) == [xs[0]] + Filter(xs[1..], NotEmpty);
        assert Flatten([xs[0]] + Filter(xs[1..], NotEmpty))
            == xs[0] + Flatten(Filter(xs[1..], NotEmpty));
      } else {
        assert Filter(xs, NotEmpty) == Filter(xs[1..], NotEmpty);
      }
    }
  }

  /** Splitting a dashed identifier recovers its words. */
  lemma VerbTokensOfJoin(words: seq<string>)
    requires |words| >= 1
    requires forall k :: 0 <= k < |words| ==> words[k] != "" && '-' !in words[k]
    ensures VerbTokens(Join(words, "-")) == words
  {
    SplitOnJoin(words, '-');
    FilterOfAll(words, NotEmpty);
  }

  /** The verb, as mandatory arguments. */
  function VerbArguments(commandType: string): seq<Argument> {
    MandatoryArguments(VerbTokens(commandType))
  }

  // ---------------------------------------------------------------------
  // Composite commands

  /** `CompositeCommand`: `command` restricted to one group of targets. The
      source does not override `commandWords`; the interface default it
      inherits is not modelled, and the words are taken to be the wrapped
      command's. */
  function Composite(command: DotnetCommand, targets: TargetArguments): (c: DotnetCommand)
    ensures c.arguments
      == (if command.toolResolver.isCommandRequired then VerbArguments(command.commandType) else [])
        + targets.arguments + command.arguments
    ensures c.targetArguments == [targets]
    ensures c.commandType == command.commandType && c.toolResolver == command.toolResolver
    ensures c.environmentBuilders == command.environmentBuilders
    ensures c.resultsAnalyzer == command.resultsAnalyzer
    ensures c.resultsObserver == command.resultsObserver
    ensures c.commandWords == command.commandWords
  {
    var verb := if command.toolResolver.isCommandRequired then VerbArguments(command.commandType) else [];
    command.(arguments := verb + targets.arguments + command.arguments, targetArguments := [targets])
  }

  function CompositesOf(command: DotnetCommand): (r: seq<DotnetCommand>)
    ensures |r| == |TargetGroups(command.targetArguments)|
  {
    var groups := TargetGroups(command.targetArguments);
    seq(|groups|, i requires 0 <= i < |groups| => Composite(command, TargetArguments(groups[i].arguments)))
  }

  /** `commands`: nothing when the command parameter is absent or names no
      known command (the parameter is looked up as given, not trimmed). */
  function Commands(parameter: Option<string>, known: seq<DotnetCommand>): (r: seq<DotnetCommand>)
    ensures parameter.None? ==> r == []
    ensures parameter.Some? && (forall i :: 0 <= i < |known| ==> known[i].commandType != parameter.value) ==> r == []
  {
    var m := KnownCommands(known);
    match parameter
    case None => []
    case Some(p) => if p in m then CompositesOf(m[p]) else []
  }

  /** A command with target groups gives one composite per group, in order. */
  lemma {:induction false} CommandsPerGroup(p: string, known: seq<DotnetCommand>)
    requires p in KnownCommands(known)
    requires KnownCommands(known)[p].targetArguments != []
    ensures var command := KnownCommands(known)[p];
      var r := Commands(Some(p), known);
      |r| == |command.targetArguments|
      && forall i :: 0 <= i < |r| ==> r[i] == Composite(command, command.targetArguments[i])
  {
    var command := KnownCommands(known)[p];
    var r := Commands(Some(p), known);
    assert r == CompositesOf(command);
    forall i | 0 <= i < |r| ensures r[i] == Composite(command, command.targetArguments[i]) {
      assert TargetArguments(command.targetArguments[i].arguments) == command.targetArguments[i];
    }
  }

  /** A command without target groups gives one composite with an empty group. */
  lemma CommandsWithoutGroups(p: string, known: seq<DotnetCommand>)
    requires p in KnownCommands(known)
    requires KnownCommands(known)[p].targetArguments == []
    ensures var command := KnownCommands(known)[p];
      var r := Commands(Some(p), known);
      |r| == 1 && r[0].targetArguments == [TargetArguments([])]
      && r[0].arguments
        == (if command.toolResolver.isCommandRequired then VerbArguments(command.commandType) else [])
          + command.arguments
  {
  }

  lemma VerbOfClean()
    ensures VerbArguments("clean") == [Argument("clean", Mandatory)]
  {
    VerbTokensOfJoin(["clean"]);
  }

  /** The `clean` case of the command-set test, with its registry of build,
      clean, test-assembly and test commands: a required verb before the
      clean command's own arguments, in a single composite. */
  lemma CleanExample(build: DotnetCommand, clean: DotnetCommand, testAssembly: DotnetCommand, test: DotnetCommand)
    requires clean.commandType == "clean" && clean.toolResolver.isCommandRequired
    requires clean.targetArguments == []
    requires testAssembly.commandType != "clean" && test.commandType != "clean"
    ensures Commands(Some("clean"), [build, clean, testAssembly, test])
      == [clean.(arguments := [Argument("clean", Mandatory)] + clean.arguments,
                 targetArguments := [TargetArguments([])])]
  {
    var known := [build, clean, testAssembly, test];
    assert known[1] == clean && known[2] == testAssembly && known[3] == test;
    LaterCommandWins(known, 1);
    CommandsOfKnown("clean", known);
    CleanComposites(clean);
  }

  /** A known identifier gives the composites of the command kept for it. */
  lemma CommandsOfKnown(p: string, known: seq<DotnetCommand>)
    requires p in KnownCommands(known)
    ensures Commands(Some(p), known) == CompositesOf(KnownCommands(known)[p])
  {
  }

  lemma CleanComposites(clean: DotnetCommand)
    requires clean.commandType == "clean" && clean.toolResolver.isCommandRequired
    requires clean.targetArguments == []
    ensures CompositesOf(clean)
      == [clean.(arguments := [Argument("clean", Mandatory)] + clean.arguments,
                 targetArguments := [TargetArguments([])])]
  {
    VerbOfClean();
    var r := CompositesOf(clean);
    assert |r| == 1;
    assert r[0] == Composite(clean, TargetArguments([]));
    assert r[0].arguments == [Argument("clean", Mandatory)] + clean.arguments;
  }
}
