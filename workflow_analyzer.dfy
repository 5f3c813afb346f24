/** `DotnetWorkflowAnalyzerImpl`: after each `dotnet` invocation, a failed
    result becomes a build problem keyed by the exit code; any other result
    is kept for the summary, and failed tests are reported as error output
    without failing the step. */
module WorkflowAnalyzers {
  import opened Common
  import opened Text

  /** The kinds a result set may hold; only `Fail` and `FailedTests` are
      read here. */
  datatype CommandResult = Fail | FailedTests | OtherResult(name: string)

  /** `BuildProblemData.TC_EXIT_CODE_TYPE`. */
  datatype ProblemType = ExitCodeProblem

  /** One write to the logger service. */
  datatype AnalyzerWrite =
    | BuildProblem(identity: string, problemType: ProblemType, description: string)
    | ErrorOutput(text: string)

  function ProblemIdentity(exitCode: int): string {
    "dotnet_exit_code" + IntToString(exitCode)
  }

  /** One build problem per distinct exit code: different codes never share
      an identity. */
  lemma ProblemIdentityInjective(a: int, b: int)
    ensures ProblemIdentity(a) == ProblemIdentity(b) ==> a == b
  {
    if ProblemIdentity(a) == ProblemIdentity(b) {
      var n := |"dotnet_exit_code"|;
      assert IntToString(a) == ProblemIdentity(a)[n..];
      assert IntToString(b) == ProblemIdentity(b)[n..];
      IntToStringInjective(a, b);
    }
  }

  /** The build problem of a failed invocation. */
  function ExitProblem(exitCode: int): AnalyzerWrite {
    BuildProblem(ProblemIdentity(exitCode), ExitCodeProblem, "Process exited with code " + IntToString(exitCode))
  }

  function FailedTestsMessage(exitCode: int): string {
    "Process finished with positive exit code " + IntToString(exitCode)
      + " (some tests have failed). Reporting step success as all the tests have run."
  }

  const SummaryMessage: string :=
    "Some of processes finished with positive exit code (some tests have failed). Reporting step success as all the tests have run."

  /** What `registerResult` writes. */
  function RegisterWrites(result: set<CommandResult>, exitCode: int): (r: seq<AnalyzerWrite>)
    ensures Fail in result ==> r == [ExitProblem(exitCode)]
    ensures Fail !in result && FailedTests in result ==> r == [ErrorOutput(FailedTestsMessage(exitCode))]
    ensures Fail !in result && FailedTests !in result ==> r == []
    ensures forall w :: w in r && w.BuildProblem? ==> Fail in result
  {
    if Fail in result then [ExitProblem(exitCode)]
    else if FailedTests in result then [ErrorOutput(FailedTestsMessage(exitCode))]
    else []
  }

  /** The results the context keeps: every one without `Fail`, in order. */
  function Kept(results: seq<set<CommandResult>>): (r: seq<set<CommandResult>>)
    ensures forall k :: 0 <= k < |r| ==> Fail !in r[k]
  {
    var r := Filter(results, NoFail);
    assert forall k :: 0 <= k < |r| ==> r[k] in r;
    r
  }

  const NoFail: set<CommandResult> -> bool := (result: set<CommandResult>) => Fail !in result

  /** Some kept result has failed tests. */
  predicate HasFailedTests(results: seq<set<CommandResult>>) {
    exists k :: 0 <= k < |results| && FailedTests in results[k]
  }

  /** What `summarize` writes. */
  function SummaryWrites(results: seq<set<CommandResult>>): (r: seq<AnalyzerWrite>)
    ensures results == [] ==> r == []
    ensures |r| <= 1
    ensures |r| == 1 <==> results != [] && FailedTests !in results[|results| - 1] && HasFailedTests(results)
  {
    if results == [] then []
    else if FailedTests !in results[|results| - 1] && AnyFailedTests(results) then [ErrorOutput(SummaryMessage)]
    else []
  }

  /** `results.any { it.contains(FailedTests) }`. */
  function AnyFailedTests(results: seq<set<CommandResult>>): (b: bool)
    ensures b <==> HasFailedTests(results)
  {
    if results == [] then false
    else
      assert forall k :: 1 <= k < |results| ==> results[k] == results[1..][k - 1];
      FailedTests in results[0] || AnyFailedTests(results[1..])
  }

  /** The results `DotnetWorkflowAnalyzerContext` has collected. */
  class AnalyzerContext {
    var results: seq<set<CommandResult>>

    constructor ()
      ensures results == []
    {
      results := [];
    }
  }

  class WorkflowAnalyzer {
    /** What the analyzer has written to the logger service. */
    var log: seq<AnalyzerWrite>

    constructor ()
      ensures log == []
    {
      log := [];
    }

    /** `registerResult`. */
    method RegisterResult(context: AnalyzerContext, result: set<CommandResult>, exitCode: int)
      modifies this, context
      ensures log == old(log) + RegisterWrites(result, exitCode)
      ensures context.results == old(context.results) + (if Fail in result then [] else [result])
    {
      if Fail in result {
        log := log + [ExitProblem(exitCode)];
      } else {
        context.results := context.results + [result];
        if FailedTests in result {
          log := log + [ErrorOutput(FailedTestsMessage(exitCode))];
        }
      }
    }

    /** `summarize`. */
    method Summarize(context: AnalyzerContext)
      modifies this
      ensures log == old(log) + SummaryWrites(context.results)
    {
      if |context.results| == 0 {
        return;
      }
      var lastCommandIsSucceeded := FailedTests !in context.results[|context.results| - 1];
      var hasFailedTests := AnyFailedTests(context.results);
      if lastCommandIsSucceeded && hasFailedTests {
        log := log + [ErrorOutput(SummaryMessage)];
      }
    }
  }

  /** The writes of registering `results` one after another. */
  function RegisterAllWrites(results: seq<set<CommandResult>>, exitCodes: seq<int>): seq<AnalyzerWrite>
    requires |exitCodes| == |results|
  {
    if results == [] then []
    else RegisterWrites(results[0], exitCodes[0]) + RegisterAllWrites(results[1..], exitCodes[1..])
  }

  /** Registering in order keeps exactly the results without `Fail`. */
  lemma {:induction false} KeptAppend(results: seq<set<CommandResult>>, result: set<CommandResult>)
    ensures Kept(results + [result]) == Kept(results) + (if Fail in result then [] else [result])
  {
    FilterAppend(results, [result], NoFail);
    assert Filter([result], NoFail) == (if Fail in result then [] else [result]) by {
      assert [result][1..] == [];
    }
  }

  /** A build problem is written for exactly the results holding `Fail`,
      each keyed by its own exit code. */
  lemma {:induction false} ProblemsOfRegistrations(results: seq<set<CommandResult>>, exitCodes: seq<int>, w: AnalyzerWrite)
    requires |exitCodes| == |results|
    ensures w in RegisterAllWrites(results, exitCodes) && w.BuildProblem? <==>
      exists k :: 0 <= k < |results| && Fail in results[k] && w == ExitProblem(exitCodes[k])
  {
    if results != [] {
      var rest, codes := results[1..], exitCodes[1..];
      ProblemsOfRegistrations(rest, codes, w);
      HeadProblem(results[0], exitCodes[0], w);
      assert w in RegisterAllWrites(results, exitCodes) <==>
        w in RegisterWrites(results[0], exitCodes[0]) || w in RegisterAllWrites(rest, codes);
      ShiftedWitness(results, exitCodes, w);
    }
  }

  /** The write of the first registration is a build problem exactly when
      that result holds `Fail`. */
  lemma HeadProblem(result: set<CommandResult>, exitCode: int, w: AnalyzerWrite)
    ensures w in RegisterWrites(result, exitCode) && w.BuildProblem? <==> Fail in result && w == ExitProblem(exitCode)
  {
  }

  /** A failing position after the first is a failing position of the rest. */
  lemma ShiftedWitness(results: seq<set<CommandResult>>, exitCodes: seq<int>, w: AnalyzerWrite)
    requires |exitCodes| == |results| && results != []
    ensures (exists k :: 0 <= k < |results| && Fail in results[k] && w == ExitProblem(exitCodes[k])) <==>
      (Fail in results[0] && w == ExitProblem(exitCodes[0]))
      || exists k :: 0 <= k < |results| - 1 && Fail in results[1..][k] && w == ExitProblem(exitCodes[1..][k])
  {
    var rest, codes := results[1..], exitCodes[1..];
    if exists k :: 0 <= k < |results| && Fail in results[k] && w == ExitProblem(exitCodes[k]) {
      var k :| 0 <= k < |results| && Fail in results[k] && w == ExitProblem(exitCodes[k]);
      if k > 0 {
        assert rest[k - 1] == results[k] && codes[k - 1] == exitCodes[k];
      }
    }
    if exists k :: 0 <= k < |results| - 1 && Fail in rest[k] && w == ExitProblem(codes[k]) {
      var k :| 0 <= k < |results| - 1 && Fail in rest[k] && w == ExitProblem(codes[k]);
      assert rest[k] == results[k + 1] && codes[k] == exitCodes[k + 1];
    }
  }
}
