/** `CommandExecutionAdapter`: runs one command line of a workflow. It
    announces the invocation, turns the process's output into result events
    for the workflow's observer and into build-log entries, hides the whole
    invocation from the visible log when it is a diagnostic one, and reports
    the exit code. The build log is modelled as the sequence of entries
    written to it, the observer by the output lines it marks suppressed. */
module ExecutionAdapters {
  import opened Common
  import opened Text
  import opened TargetTypes
  import opened CommandLines

  /** The source's `Default` strategy is named `DefaultLogging` here. */
  datatype LoggingStrategy = DefaultLogging | HiddenInBuildLog

  /** The agent's answers to an interrupt: do nothing, kill the started
      process only, or kill it with all its descendants. */
  datatype TerminationAction = NoTermination | KillChild | KillProcessTree

  /** One write to the build log. */
  datatype LogEntry =
    | Standard(text: string)                 // writeStandardOutput(String)
    | Styled(fragments: seq<StdOutText>)     // writeStandardOutput(vararg StdOutText)
    | Trace(text: string)
    | WarningText(text: string)
    | BlockOpened(name: string)
    | BlockClosed(name: string)
    | BaseMessage(message: Option<string>)   // the build's own logger

  /** What the workflow's observer received: an output line (with the id
      of its command line, when the event carries one) or an exit code. */
  datatype Delivered = OutputDelivered(text: string, outputOf: Option<nat>) | ExitDelivered(exitCode: int, exitOf: nat)

  /** The result observer, seen through the one effect the adapter reads
      back: whether it marks an output line `Suppressed`. */
  datatype Observer = Observer(suppresses: string -> bool)

  /** The presentation service and the virtual context. */
  datatype Presentation = Presentation(
    executable: Path -> seq<StdOutText>,
    arguments: seq<Argument> -> seq<StdOutText>,
    resolvePath: string -> string)

  // ---------------------------------------------------------------------
  // Pure decisions

  /** Whether some command line of the chain is a diagnostic one. */
  function HasDiagnostics(c: CommandLine): (b: bool)
    ensures b <==> exists k :: 0 <= k < |Chain(c)| && Chain(c)[k].target == SystemDiagnostics
    decreases c
  {
    match c.base
    case None =>
      assert Chain(c)[0] == c;
      c.target == SystemDiagnostics
    case Some(b) =>
      var rest := HasDiagnostics(b);
      assert forall k :: 1 <= k < |Chain(c)| ==> Chain(c)[k] == Chain(b)[k - 1];
      c.target == SystemDiagnostics || rest
  }

  /** `_loggingStrategy`. */
  function StrategyOf(c: CommandLine): (s: LoggingStrategy)
    ensures s == HiddenInBuildLog <==> HasDiagnostics(c)
  {
    if HasDiagnostics(c) then HiddenInBuildLog else DefaultLogging
  }

  /** `AllowMessagesGuard`: on unless the parameter is set to something
      other than "true" (in any case). */
  function AllowMessagesGuard(parameter: Option<string>): (b: bool)
    ensures !b <==> parameter.Some? && !EqualsIgnoreCase(parameter.value, "true")
  {
    match parameter
    case None => true
    case Some(value) => EqualsIgnoreCase(value, "true")
  }

  /** The replacer is the messages guard, or the identity. */
  function OutputReplacer(parameter: Option<string>, messagesGuard: string -> seq<string>): (r: string -> seq<string>)
    ensures !AllowMessagesGuard(parameter) ==> forall text :: r(text) == [text]
    ensures AllowMessagesGuard(parameter) ==> r == messagesGuard
  {
    if AllowMessagesGuard(parameter) then messagesGuard else (text: string) => [text]
  }

  /** `writeStandardOutput(text: String)`. */
  function TextEntries(strategy: LoggingStrategy, replace: string -> seq<string>, text: string): (r: seq<LogEntry>)
    ensures strategy == HiddenInBuildLog ==> r == [Trace(text)]
    ensures strategy == DefaultLogging ==> |r| == |replace(text)|
    ensures strategy == DefaultLogging ==> forall k :: 0 <= k < |r| ==> r[k] == Standard(replace(text)[k])
  {
    match strategy
    case DefaultLogging => seq(|replace(text)|, k requires 0 <= k < |replace(text)| => Standard(replace(text)[k]))
    case HiddenInBuildLog => [Trace(text)]
  }

  function Texts(fragments: seq<StdOutText>): (r: seq<string>)
    ensures |r| == |fragments| && forall k :: 0 <= k < |r| ==> r[k] == fragments[k].text
  {
    seq(|fragments|, k requires 0 <= k < |fragments| => fragments[k].text)
  }

  /** `writeStandardOutput(vararg text: StdOutText)`: under the hidden
      strategy the styling is dropped and the fragments joined with " ". */
  function StyledEntries(strategy: LoggingStrategy, fragments: seq<StdOutText>): (r: seq<LogEntry>)
    ensures |r| == 1
    ensures strategy == DefaultLogging ==> r[0] == Styled(fragments)
    ensures strategy == HiddenInBuildLog ==> r[0] == Trace(Join(Texts(fragments), " "))
  {
    match strategy
    case DefaultLogging => [Styled(fragments)]
    case HiddenInBuildLog => [Trace(Join(Texts(fragments), " "))]
  }

  /** `SuppressingLogger.message`. */
  function MessageEntries(strategy: LoggingStrategy, message: Option<string>): (r: seq<LogEntry>)
    ensures strategy == DefaultLogging ==> r == [BaseMessage(message)]
    ensures strategy == HiddenInBuildLog && message.None? ==> r == []
    ensures strategy == HiddenInBuildLog && message.Some? ==> r == [Trace(message.value)]
  {
    match strategy
    case DefaultLogging => [BaseMessage(message)]
    case HiddenInBuildLog => if message.Some? then [Trace(message.value)] else []
  }

  /** A hidden invocation writes nothing to the visible log: every entry
      its text, styled output or messages produce is a trace entry. */
  lemma HiddenWritesOnlyTrace(replace: string -> seq<string>, text: string, fragments: seq<StdOutText>, message: Option<string>)
    ensures var all := TextEntries(HiddenInBuildLog, replace, text)
      + StyledEntries(HiddenInBuildLog, fragments) + MessageEntries(HiddenInBuildLog, message);
      forall e :: e in all ==> e.Trace?
  {
  }

  /** The "Starting: …" fragments of one command line. */
  function StartingInfo(c: CommandLine, presentation: Presentation): seq<StdOutText> {
    [StdOutText("Starting: ", Color.Default)] + c.description
      + presentation.executable(c.executable) + presentation.arguments(c.arguments)
  }

  /** The "Starting: …" entries for `c` and then each of its bases. */
  function StartingEntries(strategy: LoggingStrategy, c: CommandLine, presentation: Presentation): seq<LogEntry>
    decreases c
  {
    StyledEntries(strategy, StartingInfo(c, presentation))
      + match c.base
        case None => []
        case Some(b) => StartingEntries(strategy, b, presentation)
  }

  /** One "Starting: …" entry per command line of the chain, outermost
      first. */
  lemma {:induction false} StartingEntriesFollowChain(strategy: LoggingStrategy, c: CommandLine, presentation: Presentation)
    ensures var r := StartingEntries(strategy, c, presentation);
      |r| == |Chain(c)|
      && forall k :: 0 <= k < |r| ==> r[k] == StyledEntries(strategy, StartingInfo(Chain(c)[k], presentation))[0]
    decreases c
  {
    match c.base
    case None =>
    case Some(b) =>
      StartingEntriesFollowChain(strategy, b, presentation);
      var r := StartingEntries(strategy, c, presentation);
      assert forall k :: 1 <= k < |r| ==> r[k] == StartingEntries(strategy, b, presentation)[k - 1];
      assert forall k :: 1 <= k < |Chain(c)| ==> Chain(c)[k] == Chain(b)[k - 1];
  }

  /** The title opens a block under the default strategy and is traced
      under the hidden one; a blank title does neither. */
  function TitleEntries(strategy: LoggingStrategy, replace: string -> seq<string>, title: string): (r: seq<LogEntry>)
    ensures IsBlank(title) ==> r == []
    ensures !IsBlank(title) && strategy == DefaultLogging ==> r == [BlockOpened(title)]
    ensures !IsBlank(title) && strategy == HiddenInBuildLog ==> r == [Trace(title)]
  {
    if IsBlank(title) then []
    else if strategy == HiddenInBuildLog then TextEntries(strategy, replace, title)
    else [BlockOpened(title)]
  }

  /** The "in directory: …" entry. */
  function DirectoryEntries(strategy: LoggingStrategy, c: CommandLine, presentation: Presentation): seq<LogEntry> {
    StyledEntries(strategy, [StdOutText("in directory: ", Color.Default),
      StdOutText(presentation.resolvePath(c.workingDirectory.path), Color.Default)])
  }

  /** Everything `processStarted` writes. */
  function StartedEntries(strategy: LoggingStrategy, replace: string -> seq<string>, c: CommandLine, presentation: Presentation)
    : seq<LogEntry>
  {
    TitleEntries(strategy, replace, c.title) + StartingEntries(strategy, c, presentation)
      + DirectoryEntries(strategy, c, presentation)
  }

  /** `interruptRequested`: the whole process tree is killed. */
  function InterruptRequested(): (a: TerminationAction)
    ensures a == KillProcessTree
  {
    KillProcessTree
  }

  // ---------------------------------------------------------------------
  // The adapter

  class CommandExecutionAdapter {
    var commandLine: CommandLine
    var eventObserver: Observer
    var blockToken: Option<string>
    var log: seq<LogEntry>
    var events: seq<Delivered>
    const presentation: Presentation
    const outputReplacer: string -> seq<string>

    /** The adapter before `create`: an empty command line and an observer
        that marks nothing. */
    constructor (presentation: Presentation, messagesGuardParameter: Option<string>,
                 messagesGuard: string -> seq<string>, initialId: nat)
      ensures commandLine == CommandLine(None, NotApplicable, Path(""), Path(""), [], [], "", [], initialId)
      ensures blockToken.None? && log == [] && events == []
      ensures this.presentation == presentation
      ensures outputReplacer == OutputReplacer(messagesGuardParameter, messagesGuard)
    {
      commandLine := CommandLine(None, NotApplicable, Path(""), Path(""), [], [], "", [], initialId);
      eventObserver := Observer((text: string) => false);
      blockToken := None;
      log := [];
      events := [];
      this.presentation := presentation;
      outputReplacer := OutputReplacer(messagesGuardParameter, messagesGuard);
    }

    function Strategy(): LoggingStrategy
      reads this`commandLine
    {
      StrategyOf(commandLine)
    }

    method Create(c: CommandLine, observer: Observer)
      modifies this
      ensures commandLine == c && eventObserver == observer
      ensures blockToken == old(blockToken) && log == old(log) && events == old(events)
    {
      commandLine := c;
      eventObserver := observer;
    }

    method WriteText(text: string)
      modifies this`log
      ensures log == old(log) + TextEntries(Strategy(), outputReplacer, text)
    {
      match Strategy()
      case DefaultLogging =>
        var lines := outputReplacer(text);
        for k := 0 to |lines|
          invariant log == old(log) + seq(k, j requires 0 <= j < k => Standard(lines[j]))
        {
          assert seq(k + 1, j requires 0 <= j < k + 1 => Standard(lines[j]))
            == seq(k, j requires 0 <= j < k => Standard(lines[j])) + [Standard(lines[k])];
          log := log + [Standard(lines[k])];
        }
      case HiddenInBuildLog =>
        log := log + [Trace(text)];
    }

    method WriteStyled(fragments: seq<StdOutText>)
      modifies this`log
      ensures log == old(log) + StyledEntries(Strategy(), fragments)
    {
      match Strategy()
      case DefaultLogging =>
        log := log + [Styled(fragments)];
      case HiddenInBuildLog =>
        log := log + [Trace(Join(Texts(fragments), " "))];
    }

    /** `processStarted`: the title, a "Starting: …" line for the command
        line and each of its bases, then the working directory. */
    method ProcessStarted()
      modifies this`log, this`blockToken
      ensures log == old(log) + StartedEntries(Strategy(), outputReplacer, commandLine, presentation)
      ensures !IsBlank(commandLine.title) && Strategy() == DefaultLogging ==> blockToken == Some(commandLine.title)
      ensures IsBlank(commandLine.title) || Strategy() == HiddenInBuildLog ==> blockToken == old(blockToken)
    {
      WriteTitle();
      WriteStarting();
      WriteStyled([StdOutText("in directory: ", Color.Default),
        StdOutText(presentation.resolvePath(commandLine.workingDirectory.path), Color.Default)]);
      AppendAssociative(old(log), TitleEntries(Strategy(), outputReplacer, commandLine.title),
        StartingEntries(Strategy(), commandLine, presentation));
    }

    method WriteTitle()
      modifies this`log, this`blockToken
      ensures log == old(log) + TitleEntries(Strategy(), outputReplacer, commandLine.title)
      ensures !IsBlank(commandLine.title) && Strategy() == DefaultLogging ==> blockToken == Some(commandLine.title)
      ensures IsBlank(commandLine.title) || Strategy() == HiddenInBuildLog ==> blockToken == old(blockToken)
    {
      if !IsBlank(commandLine.title) {
        if Strategy() == HiddenInBuildLog {
          WriteText(commandLine.title);
        } else {
          log := log + [BlockOpened(commandLine.title)];
          blockToken := Some(commandLine.title);
        }
      }
    }

    /** The `while (commandLine != null)` walk down the bases. */
    method WriteStarting()
      modifies this`log
      ensures log == old(log) + StartingEntries(Strategy(), commandLine, presentation)
    {
      var current: Option<CommandLine> := Some(commandLine);
      while current.Some?
        invariant log + StartingFrom(current) == old(log) + StartingEntries(Strategy(), commandLine, presentation)
        decreases current
      {
        var c := current.value;
        AppendAssociative(log, StyledEntries(Strategy(), StartingInfo(c, presentation)), StartingFrom(c.base));
        WriteStyled(StartingInfo(c, presentation));
        current := c.base;
      }
    }

    /** The "Starting: …" entries still to be written from `current` on. */
    function StartingFrom(current: Option<CommandLine>): seq<LogEntry>
      reads this`commandLine
    {
      match current
      case None => []
      case Some(c) => StartingEntries(Strategy(), c, presentation)
    }

    /** The observer receives the event and may mark it. */
    method Notify(event: OutputEvent, commandLineId: Option<nat>)
      modifies this`events, event
      ensures events == old(events) + [OutputDelivered(event.output, commandLineId)]
      ensures event.attributes == old(event.attributes)
        + (if eventObserver.suppresses(event.output) then {Suppressed} else {})
    {
      events := events + [OutputDelivered(event.output, commandLineId)];
      if eventObserver.suppresses(event.output) {
        event.attributes := event.attributes + {Suppressed};
      }
    }

    /** `onStandardOutput`: the observer sees the line first; it reaches
        the log only if the observer did not suppress it. */
    method OnStandardOutput(text: string)
      modifies this
      ensures events == old(events) + [OutputDelivered(text, Some(commandLine.id))]
      ensures log == old(log)
        + (if eventObserver.suppresses(text) then [] else TextEntries(Strategy(), outputReplacer, text))
      ensures commandLine == old(commandLine) && eventObserver == old(eventObserver)
      ensures blockToken == old(blockToken)
    {
      var event := new OutputEvent(text, {});
      Notify(event, Some(commandLine.id));
      if Suppressed !in event.attributes {
        WriteText(text);
      }
    }

    /** `onErrorOutput`: the observer is handed a second, separate event,
        so the one checked is never suppressed and every error line becomes
        a warning. */
    method OnErrorOutput(error: string)
      modifies this
      ensures events == old(events) + [OutputDelivered(error, None)]
      ensures log == old(log) + [WarningText(error)]
      ensures commandLine == old(commandLine) && eventObserver == old(eventObserver)
      ensures blockToken == old(blockToken)
    {
      var event := new OutputEvent(error, {});
      var delivered := new OutputEvent(error, {});
      Notify(delivered, None);
      if Suppressed !in event.attributes {
        log := log + [WarningText(error)];
      }
    }

    /** `processFinished`: one exit-code event for this command line, then
        the block, if one was opened, is closed. */
    method ProcessFinished(exitCode: int)
      modifies this
      ensures events == old(events) + [ExitDelivered(exitCode, commandLine.id)]
      ensures log == old(log) + (if blockToken.Some? then [BlockClosed(blockToken.value)] else [])
      ensures commandLine == old(commandLine) && eventObserver == old(eventObserver)
      ensures blockToken == old(blockToken)
    {
      events := events + [ExitDelivered(exitCode, commandLine.id)];
      if blockToken.Some? {
        log := log + [BlockClosed(blockToken.value)];
      }
    }

    /** `message` of the logger handed out by `getLogger`. */
    method Message(message: Option<string>)
      modifies this`log
      ensures log == old(log) + MessageEntries(Strategy(), message)
    {
      match Strategy()
      case DefaultLogging =>
        log := log + [BaseMessage(message)];
      case HiddenInBuildLog =>
        if message.Some? {
          log := log + [Trace(message.value)];
        }
    }
  }
}
