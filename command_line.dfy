/** The invocation records of the build agent: arguments, environment
    variables, styled text and the `CommandLine` that a workflow is made of.
    A command line may wrap a base command line (a script interpreter
    around a user executable); its chain is itself followed by its bases. */
module CommandLines {
  import opened Common
  import opened TargetTypes

  datatype ArgumentType = Mandatory | Target | Custom

  /** `CommandLineArgument`; its type defaults to `Custom`. */
  datatype Argument = Argument(value: string, argType: ArgumentType)

  function CustomArgument(value: string): Argument {
    Argument(value, Custom)
  }

  datatype Path = Path(path: string)

  datatype EnvironmentVariable = EnvironmentVariable(name: string, value: string)

  datatype Color = Default | Header | Warning | Details

  /** One styled fragment of a description. */
  datatype StdOutText = StdOutText(text: string, color: Color)

  /** The attributes a results observer may attach to an output event;
      only `Suppressed` is ever read here. */
  datatype ResultAttribute = Suppressed | OtherAttribute(name: string)

  /** `CommandResultOutput`: one line of output and its mutable set of
      attributes. */
  class OutputEvent {
    const output: string
    var attributes: set<ResultAttribute>

    constructor (output: string, attributes: set<ResultAttribute>)
      ensures this.output == output && this.attributes == attributes
    {
      this.output := output;
      this.attributes := attributes;
    }
  }

  /** `CommandResultEvent`: an output line, or the exit code of the command
      line with the given id. */
  datatype ResultEvent = Output(event: OutputEvent) | ExitCode(exitCode: int, commandLineId: nat)

  datatype CommandLine = CommandLine(
    base: Option<CommandLine>,
    target: TargetType,
    executable: Path,
    workingDirectory: Path,
    arguments: seq<Argument>,
    environment: seq<EnvironmentVariable>,
    title: string,
    description: seq<StdOutText>,
    id: nat)

  /** The command line followed by its bases, outermost first. */
  function Chain(c: CommandLine): (r: seq<CommandLine>)
    ensures |r| >= 1 && r[0] == c
    ensures c.base.None? <==> |r| == 1
    ensures c.base.Some? ==> r[1..] == Chain(c.base.value)
    decreases c
  {
    match c.base
    case None => [c]
    case Some(b) => [c] + Chain(b)
  }
}
