/** A `dotnet` intent (`DotnetCommand`) as a record of the members the
    resolvers read and replace. `arguments` is what `getArguments` returns
    for the build's one context. A command type is represented by its
    identifier. */
module DotnetCommands {
  import opened CommandLines

  /** The identifier of `DotnetCommandType.Test`. */
  const TestCommandType := "test"

  datatype ToolResolver = ToolResolver(id: nat, isCommandRequired: bool)

  /** An observer of command results: an opaque one, or the list-tests
      handler that writes to the saver of one test-splitting session. */
  datatype ResultsObserver = Observer(id: nat) | ListTestsHandler(session: nat)

  /** One group of target arguments (project files or directories). */
  datatype TargetArguments = TargetArguments(arguments: seq<Argument>)

  datatype DotnetCommand = DotnetCommand(
    commandType: string,
    toolResolver: ToolResolver,
    commandWords: seq<string>,
    targetArguments: seq<TargetArguments>,
    arguments: seq<Argument>,
    environmentBuilders: seq<nat>,
    resultsAnalyzer: nat,
    resultsObserver: ResultsObserver)

  /** The stages of command-stream resolution that the resolvers name. */
  datatype ResolvingStage = Transformation | FinalComposition

  predicate IsTest(c: DotnetCommand) {
    c.commandType == TestCommandType
  }

  /** The arguments of `words`, each tagged `Mandatory`. */
  function MandatoryArguments(words: seq<string>): (r: seq<Argument>)
    ensures |r| == |words|
    ensures forall k :: 0 <= k < |r| ==> r[k] == Argument(words[k], Mandatory)
  {
    seq(|words|, k requires 0 <= k < |words| => Argument(words[k], Mandatory))
  }
}
