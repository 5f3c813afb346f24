/** `ExactMatchTestCommandsStreamResolver`: when tests are split into chunks
    by exact names, every `test` command becomes a list-tests probe, whose
    output handler saves the discovered test names, followed by one copy of
    the command per chunk. Sessions are numbered in the order the test
    commands are transformed; the chunk count of each session is an input,
    since it is known only once its probe has run. */
module ExactMatchResolvers {
  import opened Common
  import opened Text
  import opened CommandLines
  import opened DotnetCommands

  const Stage: ResolvingStage := Transformation

  predicate HasTest(commands: seq<DotnetCommand>) {
    exists i :: 0 <= i < |commands| && IsTest(commands[i])
  }

  function ShouldBeApplied(isActive: bool, useExactMatchFilter: bool, commands: seq<DotnetCommand>): (b: bool)
    ensures b <==> isActive && useExactMatchFilter && HasTest(commands)
  {
    isActive && useExactMatchFilter && AnyTest(commands)
  }

  /** `commands.any { it.commandType == Test }`. */
  function AnyTest(commands: seq<DotnetCommand>): (b: bool)
    ensures b <==> HasTest(commands)
  {
    if commands == [] then false
    else
      assert forall i :: 0 < i < |commands| ==> commands[i] == commands[1..][i - 1];
      IsTest(commands[0]) || AnyTest(commands[1..])
  }

  /** `ObservingListTestsDotnetCommand`: the list-tests command observed by
      the handler of one session. */
  function Probe(listTests: DotnetCommand, session: nat): (c: DotnetCommand)
    ensures c.resultsObserver == ListTestsHandler(session)
    ensures c.(resultsObserver := listTests.resultsObserver) == listTests
  {
    listTests.(resultsObserver := ListTestsHandler(session))
  }

  /** `repeat(n) { yield(c) }`. */
  function Repeat(c: DotnetCommand, n: nat): (r: seq<DotnetCommand>)
    ensures |r| == n && forall i :: 0 <= i < n ==> r[i] == c
  {
    if n == 0 then [] else [c] + Repeat(c, n - 1)
  }

  /** `transform` for the test command given session `session`. */
  function Transform(test: DotnetCommand, listTests: DotnetCommand, session: nat, chunks: nat): (r: seq<DotnetCommand>)
    ensures |r| == 1 + chunks && r[0] == Probe(listTests, session)
    ensures forall i :: 1 <= i <= chunks ==> r[i] == test
  {
    [Probe(listTests, session)] + Repeat(test, chunks)
  }

  /** `apply`, starting the sessions at number `session`. */
  function Apply(commands: seq<DotnetCommand>, listTests: DotnetCommand, chunksCount: nat -> nat, session: nat)
    : seq<DotnetCommand>
  {
    if commands == [] then []
    else if IsTest(commands[0]) then
      Transform(commands[0], listTests, session, chunksCount(session))
        + Apply(commands[1..], listTests, chunksCount, session + 1)
    else
      [commands[0]] + Apply(commands[1..], listTests, chunksCount, session)
  }

  /** The number of test commands in `commands`. */
  function TestCount(commands: seq<DotnetCommand>): (n: nat)
    ensures n <= |commands|
    ensures n == |Filter(commands, IsTest)|
  {
    if commands == [] then 0 else (if IsTest(commands[0]) then 1 else 0) + TestCount(commands[1..])
  }

  /** The tests of two runs of commands add up. */
  lemma {:induction false} TestCountAppend(a: seq<DotnetCommand>, b: seq<DotnetCommand>)
    ensures TestCount(a + b) == TestCount(a) + TestCount(b)
  {
    if a == [] {
      assert a + b == b;
    } else {
      assert (a + b)[1..] == a[1..] + b;
      TestCountAppend(a[1..], b);
    }
  }

  /** The chunks of all test commands, sessions numbered from `session`. */
  function TotalChunks(commands: seq<DotnetCommand>, chunksCount: nat -> nat, session: nat): nat {
    if commands == [] then 0
    else if IsTest(commands[0]) then
      chunksCount(session) + TotalChunks(commands[1..], chunksCount, session + 1)
    else TotalChunks(commands[1..], chunksCount, session)
  }

  /** What command `i` expands to: itself, or its probe and chunk copies;
      its session is the number of test commands before it. */
  function Expansion(commands: seq<DotnetCommand>, i: nat, listTests: DotnetCommand, chunksCount: nat -> nat, session: nat)
    : seq<DotnetCommand>
    requires i < |commands|
  {
    var s := session + TestCount(commands[..i]);
    if IsTest(commands[i]) then Transform(commands[i], listTests, s, chunksCount(s)) else [commands[i]]
  }

  function Expansions(commands: seq<DotnetCommand>, listTests: DotnetCommand, chunksCount: nat -> nat, session: nat)
    : (r: seq<seq<DotnetCommand>>)
    ensures |r| == |commands|
    ensures forall i :: 0 <= i < |commands| ==> r[i] == Expansion(commands, i, listTests, chunksCount, session)
  {
    seq(|commands|, i requires 0 <= i < |commands| => Expansion(commands, i, listTests, chunksCount, session))
  }

  /** `apply` is the `flatMap` of each command's expansion. */
  lemma {:induction false} ApplyIsFlatMap(commands: seq<DotnetCommand>, listTests: DotnetCommand, chunksCount: nat -> nat, session: nat)
    ensures Apply(commands, listTests, chunksCount, session) == Flatten(Expansions(commands, listTests, chunksCount, session))
  {
    if commands != [] {
      var rest := commands[1..];
      var next := if IsTest(commands[0]) then session + 1 else session;
      ApplyIsFlatMap(rest, listTests, chunksCount, next);
      var e := Expansions(commands, listTests, chunksCount, session);
      assert e[0] == Expansion(commands, 0, listTests, chunksCount, session);
      assert commands[..0] == [];
      ExpansionsOfRest(commands, listTests, chunksCount, session);
    }
  }

  lemma ExpansionsOfRest(commands: seq<DotnetCommand>, listTests: DotnetCommand, chunksCount: nat -> nat, session: nat)
    requires commands != []
    ensures Expansions(commands, listTests, chunksCount, session)[1..]
      == Expansions(commands[1..], listTests, chunksCount, if IsTest(commands[0]) then session + 1 else session)
  {
    var next := if IsTest(commands[0]) then session + 1 else session;
    forall i | 0 <= i < |commands| - 1
      ensures Expansion(commands, i + 1, listTests, chunksCount, session)
        == Expansion(commands[1..], i, listTests, chunksCount, next)
    {
      ExpansionShift(commands, i, listTests, chunksCount, session);
    }
  }

  lemma ExpansionShift(commands: seq<DotnetCommand>, i: nat, listTests: DotnetCommand, chunksCount: nat -> nat, session: nat)
    requires i + 1 < |commands|
    ensures Expansion(commands, i + 1, listTests, chunksCount, session)
      == Expansion(commands[1..], i, listTests, chunksCount, if IsTest(commands[0]) then session + 1 else session)
  {
    var rest := commands[1..];
    assert commands[..i + 1] == [commands[0]] + rest[..i];
    assert ([commands[0]] + rest[..i])[1..] == rest[..i];
    assert commands[i + 1] == rest[i];
  }

  /** The output has one command per input command, plus one for every
      chunk of every test command. */
  lemma {:induction false} ApplyLength(commands: seq<DotnetCommand>, listTests: DotnetCommand, chunksCount: nat -> nat, session: nat)
    ensures |Apply(commands, listTests, chunksCount, session)| == |commands| + TotalChunks(commands, chunksCount, session)
  {
    if commands != [] {
      ApplyLength(commands[1..], listTests, chunksCount, if IsTest(commands[0]) then session + 1 else session);
    }
  }

  /** A stream without test commands passes through unchanged. */
  lemma {:induction false} ApplyWithoutTests(commands: seq<DotnetCommand>, listTests: DotnetCommand, chunksCount: nat -> nat, session: nat)
    requires !HasTest(commands)
    ensures Apply(commands, listTests, chunksCount, session) == commands
  {
    if commands != [] {
      assert !IsTest(commands[0]);
      assert !HasTest(commands[1..]) by {
        forall i | 0 <= i < |commands[1..]| ensures !IsTest(commands[1..][i]) {
          assert commands[1..][i] == commands[i + 1];
        }
      }
      ApplyWithoutTests(commands[1..], listTests, chunksCount, session);
    }
  }

  // ---------------------------------------------------------------------
  // The list-tests output handler

  const TestsListOutputMarker := "The following Tests are available:"

  /** Whether a trimmed output line is the marker. */
  predicate IsMarker(trimmed: string) {
    EqualsIgnoreCase(trimmed, TestsListOutputMarker)
  }

  datatype HandlerState = HandlerState(started: bool, saved: seq<string>)

  /** The handler's reaction to one output line. */
  function Step(st: HandlerState, line: string): (r: HandlerState)
    ensures !st.started ==> r.saved == st.saved && (r.started <==> IsMarker(Trim(line)))
    ensures st.started ==> r.started && r.saved == st.saved + SplitOnWhitespace(Trim(line))
  {
    var resultLine := Trim(line);
    if !st.started then HandlerState(IsMarker(resultLine), st.saved)
    else HandlerState(true, st.saved + SplitOnWhitespace(resultLine))
  }

  function Feed(st: HandlerState, lines: seq<string>): HandlerState
    decreases |lines|
  {
    if lines == [] then st else Feed(Step(st, lines[0]), lines[1..])
  }

  /** The tokens of every line split on whitespace after trimming. */
  function Tokens(lines: seq<string>): seq<string> {
    if lines == [] then [] else SplitOnWhitespace(Trim(lines[0])) + Tokens(lines[1..])
  }

  /** Before the marker nothing is saved. */
  lemma {:induction false} FeedBeforeMarker(saved: seq<string>, lines: seq<string>)
    requires forall i :: 0 <= i < |lines| ==> !IsMarker(Trim(lines[i]))
    ensures Feed(HandlerState(false, saved), lines) == HandlerState(false, saved)
  {
    if lines != [] {
      assert forall i :: 0 <= i < |lines[1..]| ==> lines[1..][i] == lines[i + 1];
      FeedBeforeMarker(saved, lines[1..]);
    }
  }

  /** Once capture has started it never stops, and every later line,
      a repeated marker included, gives up its tokens in order. */
  lemma {:induction false} FeedAfterMarker(saved: seq<string>, lines: seq<string>)
    ensures Feed(HandlerState(true, saved), lines) == HandlerState(true, saved + Tokens(lines))
    decreases |lines|
  {
    if lines != [] {
      var x := SplitOnWhitespace(Trim(lines[0]));
      FeedUnfold(HandlerState(true, saved), lines);
      StepStarted(saved, lines[0]);
      FeedAfterMarker(saved + x, lines[1..]);
      TokensUnfold(lines);
      AppendAssociative(saved, x, Tokens(lines[1..]));
    }
  }

  lemma FeedUnfold(st: HandlerState, lines: seq<string>)
    requires lines != []
    ensures Feed(st, lines) == Feed(Step(st, lines[0]), lines[1..])
  {
  }

  lemma TokensUnfold(lines: seq<string>)
    requires lines != []
    ensures Tokens(lines) == SplitOnWhitespace(Trim(lines[0])) + Tokens(lines[1..])
  {
  }

  lemma StepStarted(saved: seq<string>, line: string)
    ensures Step(HandlerState(true, saved), line) == HandlerState(true, saved + SplitOnWhitespace(Trim(line)))
  {
  }

  lemma StepWaiting(saved: seq<string>, line: string)
    ensures Step(HandlerState(false, saved), line) == HandlerState(IsMarker(Trim(line)), saved)
  {
  }

  lemma {:induction false} FeedAppend(st: HandlerState, a: seq<string>, b: seq<string>)
    ensures Feed(st, a + b) == Feed(Feed(st, a), b)
    decreases |a|
  {
    if a != [] {
      assert (a + b)[0] == a[0] && (a + b)[1..] == a[1..] + b;
      FeedAppend(Step(st, a[0]), a[1..], b);
    } else {
      assert a + b == b;
    }
  }

  /** The handler saves exactly the tokens of the lines after the first marker. */
  lemma FeedFromFirstMarker(before: seq<string>, marker: string, after: seq<string>)
    requires forall i :: 0 <= i < |before| ==> !IsMarker(Trim(before[i]))
    requires IsMarker(Trim(marker))
    ensures Feed(HandlerState(false, []), before + [marker] + after) == HandlerState(true, Tokens(after))
  {
    FeedAppend(HandlerState(false, []), before + [marker], after);
    FeedAppend(HandlerState(false, []), before, [marker]);
    FeedBeforeMarker([], before);
    FeedAfterMarker([], after);
  }

  lemma MarkerIsMarker()
    ensures IsMarker(Trim(TestsListOutputMarker))
  {
    TrimOfTrimmed(TestsListOutputMarker);
  }

  /** Lines "A B" and "C" after the marker save A, B and C; here for any
      three words. */
  lemma SavesExample(a: string, b: string, c: string)
    requires IsPlainWord(a) && IsPlainWord(b) && IsPlainWord(c)
    ensures Feed(HandlerState(false, []), [TestsListOutputMarker, a + " " + b, c])
      == HandlerState(true, [a, b, c])
  {
    MarkerIsMarker();
    TokensOfExample(a, b, c);
    FeedFromMarkerLine(TestsListOutputMarker, a + " " + b, c);
  }

  /** The three example lines as one list; kept apart so that the
      sequence fact is proved without the definitions of `Feed` in view. */
  lemma ThreeLines(m: string, x: string, y: string)
    ensures [] + [m] + [x, y] == [m, x, y]
  {
  }

  lemma FeedFromMarkerLine(marker: string, x: string, y: string)
    requires IsMarker(Trim(marker))
    ensures Feed(HandlerState(false, []), [marker, x, y]) == HandlerState(true, Tokens([x, y]))
  {
    FeedFromFirstMarker([], marker, [x, y]);
    ThreeLines(marker, x, y);
  }

  lemma TokensOfExample(a: string, b: string, c: string)
    requires IsPlainWord(a) && IsPlainWord(b) && IsPlainWord(c)
    ensures Tokens([a + " " + b, c]) == [a, b, c]
  {
    TokensOfTwoLines(a + " " + b, c);
    SplitTwoWords(a, b);
    SplitOneWord(c);
    ConcatTwoAndOne(SplitOnWhitespace(Trim(a + " " + b)), SplitOnWhitespace(Trim(c)), a, b, c);
  }

  /** The tokens of the two example lines joined; kept apart so that the
      sequence fact is proved without the definitions of `Tokens` in view. */
  lemma ConcatTwoAndOne(x: seq<string>, y: seq<string>, a: string, b: string, c: string)
    requires x == [a, b] && y == [c]
    ensures x + y == [a, b, c]
  {
  }

  lemma TokensOfTwoLines(x: string, y: string)
    ensures Tokens([x, y]) == SplitOnWhitespace(Trim(x)) + SplitOnWhitespace(Trim(y))
  {
    TokensUnfold([x, y]);
    assert [x, y][1..] == [y];
    TokensUnfold([y]);
  }

  /** `ExactMatchListTestsCommandResultHandler`. `saved` is the sequence of
      names handed to the session's saver. */
  class ListTestsResultHandler {
    var isTestsOutputStarted: bool
    var saved: seq<string>

    constructor ()
      ensures !isTestsOutputStarted && saved == []
    {
      isTestsOutputStarted := false;
      saved := [];
    }

    function State(): HandlerState
      reads this
    {
      HandlerState(isTestsOutputStarted, saved)
    }

    /** `onNext`: every output line is suppressed, and drives the state
      machine; other events are ignored. */
    method OnNext(value: ResultEvent)
      modifies this, if value.Output? then {value.event} else {}
      ensures value.ExitCode? ==> State() == old(State())
      ensures value.Output? ==> value.event.attributes == old(value.event.attributes) + {Suppressed}
      ensures value.Output? ==> State() == Step(old(State()), value.event.output)
    {
      if !value.Output? {
        return;
      }
      var event := value.event;
      event.attributes := event.attributes + {Suppressed};
      var resultLine := Trim(event.output);
      if !isTestsOutputStarted {
        StepWaiting(saved, event.output);
        if EqualsIgnoreCase(resultLine, TestsListOutputMarker) {
          isTestsOutputStarted := true;
        }
        return;
      }
      StepStarted(saved, event.output);
      SaveAll(SplitOnWhitespace(resultLine));
    }

    /** `forEach { saver.tryToSave(it) }`. */
    method SaveAll(tokens: seq<string>)
      modifies this
      ensures saved == old(saved) + tokens
      ensures isTestsOutputStarted == old(isTestsOutputStarted)
    {
      var i := 0;
      while i < |tokens|
        invariant 0 <= i <= |tokens|
        invariant saved == old(saved) + tokens[..i]
        invariant isTestsOutputStarted == old(isTestsOutputStarted)
      {
        assert tokens[..i + 1] == tokens[..i] + [tokens[i]];
        AppendAssociative(old(saved), tokens[..i], [tokens[i]]);
        saved := saved + [tokens[i]];
        i := i + 1;
      }
      assert tokens[..i] == tokens;
    }
  }
}
