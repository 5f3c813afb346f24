/** `ComposedDotnetCommandStreamResolver`: the final composition stage,
    which gives every command its full argument list: the verb words when
    the tool needs them, then all target groups, then the command's own
    arguments. */
module ComposedResolvers {
  import opened Common
  import opened CommandLines
  import opened DotnetCommands

  const Stage: ResolvingStage := FinalComposition

  /** The resolver applies to every stream. */
  function ShouldBeApplied(commands: seq<DotnetCommand>): (b: bool)
    ensures b
  {
    true
  }

  function Composed(command: DotnetCommand): (c: DotnetCommand)
    ensures c.commandType == command.commandType && c.toolResolver == command.toolResolver
    ensures c.commandWords == command.commandWords && c.targetArguments == command.targetArguments
    ensures c.environmentBuilders == command.environmentBuilders
    ensures c.resultsAnalyzer == command.resultsAnalyzer
    ensures c.resultsObserver == command.resultsObserver
  {
    var words := if command.toolResolver.isCommandRequired then MandatoryArguments(command.commandWords) else [];
    command.(arguments := words + Flatten(TargetGroupArguments(command.targetArguments)) + command.arguments)
  }

  /** The arguments of each target group (`flatMap { it.arguments }`). */
  function TargetGroupArguments(groups: seq<TargetArguments>): (r: seq<seq<Argument>>)
    ensures |r| == |groups| && forall g :: 0 <= g < |groups| ==> r[g] == groups[g].arguments
  {
    seq(|groups|, g requires 0 <= g < |groups| => groups[g].arguments)
  }

  /** `apply`: one composed command per command, in order. */
  function Apply(commands: seq<DotnetCommand>): (r: seq<DotnetCommand>)
    ensures |r| == |commands|
    ensures forall i :: 0 <= i < |r| ==> r[i] == Composed(commands[i])
  {
    seq(|commands|, i requires 0 <= i < |commands| => Composed(commands[i]))
  }

  /** The number of verb arguments a composed command starts with. */
  function VerbCount(command: DotnetCommand): nat {
    if command.toolResolver.isCommandRequired then |command.commandWords| else 0
  }

  /** The composed arguments start with the words as mandatory arguments
      and end with the command's own arguments; the targets sit between. */
  lemma ComposedArgumentLayout(command: DotnetCommand)
    ensures |Composed(command).arguments|
      == VerbCount(command) + SumLengths(TargetGroupArguments(command.targetArguments)) + |command.arguments|
    ensures forall k :: 0 <= k < VerbCount(command) ==>
      Composed(command).arguments[k] == Argument(command.commandWords[k], Mandatory)
    ensures forall k :: 0 <= k < |command.arguments| ==>
      Composed(command).arguments[VerbCount(command) + SumLengths(TargetGroupArguments(command.targetArguments)) + k]
        == command.arguments[k]
  {
    var words := if command.toolResolver.isCommandRequired then MandatoryArguments(command.commandWords) else [];
    assert Composed(command).arguments == words + Flatten(TargetGroupArguments(command.targetArguments)) + command.arguments;
  }

  /** Argument `k` of target group `g` follows the verb and the arguments of
      all earlier groups. */
  lemma ComposedTargetPosition(command: DotnetCommand, g: nat, k: nat)
    requires g < |command.targetArguments| && k < |command.targetArguments[g].arguments|
    ensures var at := VerbCount(command) + SumLengths(TargetGroupArguments(command.targetArguments)[..g]) + k;
      at < |Composed(command).arguments|
      && Composed(command).arguments[at] == command.targetArguments[g].arguments[k]
  {
    var groups := TargetGroupArguments(command.targetArguments);
    var words := if command.toolResolver.isCommandRequired then MandatoryArguments(command.commandWords) else [];
    assert Composed(command).arguments == words + Flatten(groups) + command.arguments;
    GroupPosition(words, groups, command.arguments, g, k);
  }

  lemma GroupPosition<T>(a: seq<T>, xs: seq<seq<T>>, c: seq<T>, g: nat, k: nat)
    requires g < |xs| && k < |xs[g]|
    ensures |a| + SumLengths(xs[..g]) + k < |a + Flatten(xs) + c|
    ensures (a + Flatten(xs) + c)[|a| + SumLengths(xs[..g]) + k] == xs[g][k]
  {
    var f := Flatten(xs);
    FlattenIndex(xs, g, k);
    var j := SumLengths(xs[..g]) + k;
    assert (a + f + c)[|a| + j] == f[j];
  }

  /** Without a required verb the arguments are the targets followed by the
      command's own. */
  lemma NoVerbWhenNotRequired(command: DotnetCommand)
    requires !command.toolResolver.isCommandRequired
    ensures Composed(command).arguments
      == Flatten(TargetGroupArguments(command.targetArguments)) + command.arguments
  {
  }
}
