/** `DotnetStateWorkflowComposer`: before the `dotnet` tool is used, find
    where its executable lives inside a virtual environment (container)
    when its home is not known, and probe the SDK version with
    `dotnet --version` when someone listens for the version. */
module DotnetStateComposers {
  import opened Common
  import opened Text
  import opened TargetTypes
  import opened CommandLines

  const ComposerTarget: TargetType := SystemDiagnostics

  /** A parsed version; `Empty` is what the parser gives for a line that
      holds none. Non-empty versions are opaque here. */
  datatype Version = Empty | Known(id: nat)

  /** What the composer reads from `ToolState`: the virtual path of the
      executable, its home paths, and whether a version observer is set. */
  datatype ToolState = ToolState(virtualPath: Path, homePaths: seq<Path>, hasVersionObserver: bool)

  // ---------------------------------------------------------------------
  // The path observer

  /** The closure's captured `virtualPath` and what it passed on to the
      tool state's own path observer. */
  datatype PathObserverState = PathObserverState(virtualPath: Option<Path>, forwarded: seq<Path>)

  /** Reaction to one resolved path: only the first non-blank one is kept
      and passed on. */
  function ObservePath(st: PathObserverState, p: Path): (r: PathObserverState)
    ensures st.virtualPath.None? && !IsBlank(p.path) ==> r == PathObserverState(Some(p), st.forwarded + [p])
    ensures st.virtualPath.Some? || IsBlank(p.path) ==> r == st
  {
    if st.virtualPath.None? && !IsBlank(p.path) then PathObserverState(Some(p), st.forwarded + [p]) else st
  }

  function ObserveAll(st: PathObserverState, paths: seq<Path>): PathObserverState
    decreases |paths|
  {
    if paths == [] then st else ObserveAll(ObservePath(st, paths[0]), paths[1..])
  }

  /** The first path that is not blank, if any. */
  function FirstNonBlank(paths: seq<Path>): (r: Option<Path>)
    ensures r.None? <==> forall k :: 0 <= k < |paths| ==> IsBlank(paths[k].path)
    ensures r.Some? ==> !IsBlank(r.value.path)
    ensures r.Some? ==>
      exists k :: 0 <= k < |paths| && paths[k] == r.value && forall j :: 0 <= j < k ==> IsBlank(paths[j].path)
  {
    if paths == [] then None
    else if !IsBlank(paths[0].path) then Some(paths[0])
    else
      var r := FirstNonBlank(paths[1..]);
      assert forall k :: 1 <= k < |paths| ==> paths[k] == paths[1..][k - 1];
      r
  }

  /** Once a path is kept, later paths change nothing. */
  lemma {:induction false} ObserveAllAfterKept(st: PathObserverState, paths: seq<Path>)
    requires st.virtualPath.Some?
    ensures ObserveAll(st, paths) == st
  {
    if paths != [] {
      ObserveAllAfterKept(ObservePath(st, paths[0]), paths[1..]);
    }
  }

  /** Fed all resolved paths from the start, the observer keeps and passes
      on exactly the first non-blank one, and nothing when all are blank. */
  lemma {:induction false} ObserveAllKeepsFirstNonBlank(paths: seq<Path>)
    ensures var r := ObserveAll(PathObserverState(None, []), paths);
      r.virtualPath == FirstNonBlank(paths)
      && r.forwarded == (if r.virtualPath.Some? then [r.virtualPath.value] else [])
  {
    if paths != [] {
      var st := ObservePath(PathObserverState(None, []), paths[0]);
      if IsBlank(paths[0].path) {
        ObserveAllKeepsFirstNonBlank(paths[1..]);
      } else {
        ObserveAllAfterKept(st, paths[1..]);
      }
    }
  }

  /** The `observer<Path> { … }` closure with its captured variable. */
  class PathObserver {
    var virtualPath: Option<Path>
    var forwarded: seq<Path>

    constructor ()
      ensures virtualPath == None && forwarded == []
    {
      virtualPath := None;
      forwarded := [];
    }

    function State(): PathObserverState
      reads this
    {
      PathObserverState(virtualPath, forwarded)
    }

    method OnNext(p: Path)
      modifies this
      ensures State() == ObservePath(old(State()), p)
    {
      if virtualPath.None? && !IsBlank(p.path) {
        virtualPath := Some(p);
        forwarded := forwarded + [p];
      }
    }

    /** The resolution workflows reporting their paths one after another. */
    method OnEach(paths: seq<Path>)
      modifies this
      ensures State() == ObserveAll(old(State()), paths)
    {
      for i := 0 to |paths|
        invariant ObserveAll(State(), paths[i..]) == ObserveAll(old(State()), paths)
      {
        assert paths[i..][1..] == paths[i + 1..];
        OnNext(paths[i]);
      }
    }
  }

  // ---------------------------------------------------------------------
  // The version probe

  const NotEmpty: Version -> bool := (v: Version) => v != Empty

  /** The versions handed to the version observer while the probe runs:
      each output line parsed on its own, `Empty` results dropped. */
  function ForwardedVersions(lines: seq<string>, parse: seq<string> -> Version): (r: seq<Version>)
    ensures forall v :: v in r ==> v != Empty
    ensures forall v :: v in r <==> v != Empty && exists k :: 0 <= k < |lines| && parse([lines[k]]) == v
  {
    var parsed := seq(|lines|, k requires 0 <= k < |lines| => parse([lines[k]]));
    assert forall k :: 0 <= k < |lines| ==> parsed[k] == parse([lines[k]]);
    Filter(parsed, NotEmpty)
  }

  /** One more output line forwards its parsed version after those of the
      earlier lines, unless it parses to `Empty`: the versions come one per
      non-`Empty` line, in line order. */
  lemma ForwardedVersionsAppend(lines: seq<string>, l: string, parse: seq<string> -> Version)
    ensures ForwardedVersions(lines + [l], parse)
      == ForwardedVersions(lines, parse) + (if parse([l]) == Empty then [] else [parse([l])])
  {
    var all := lines + [l];
    var p1 := seq(|lines|, k requires 0 <= k < |lines| => parse([lines[k]]));
    var p2 := seq(|all|, k requires 0 <= k < |all| => parse([all[k]]));
    assert p2 == p1 + [parse([l])];
    FilterAppend(p1, [parse([l])], NotEmpty);
    assert [parse([l])][1..] == [];
  }

  /** The `dotnet --version` command line. */
  function VersionProbe(executable: Path, workingDirectory: Path, environment: seq<EnvironmentVariable>, id: nat)
    : (c: CommandLine)
    ensures c.base.None? && c.target == SystemDiagnostics
    ensures c.executable == executable && c.workingDirectory == workingDirectory
    ensures c.arguments == [CustomArgument("--version")]
    ensures c.environment == environment
    ensures c.title == "dotnet --version"
    ensures c.description == [StdOutText("Getting the .NET SDK version", Default)]
  {
    CommandLine(None, SystemDiagnostics, executable, workingDirectory, [CustomArgument("--version")],
      environment, "dotnet --version", [StdOutText("Getting the .NET SDK version", Default)], id)
  }

  // ---------------------------------------------------------------------
  // `compose`

  /** The path resolution is needed inside a virtual environment when the
      tool has no known home. */
  predicate ResolvesPath(isVirtual: bool, state: ToolState) {
    isVirtual && state.homePaths == []
  }

  /** The inputs of one composition: each path-resolver composer's
      workflow, the paths those workflows resolve in the order they report
      them, the working directory, the default environment, and the
      identity of the probe. */
  datatype Inputs = Inputs(
    resolverWorkflows: seq<seq<CommandLine>>,
    resolvedPaths: seq<Path>,
    workingDirectory: Path,
    environment: seq<EnvironmentVariable>,
    probeId: nat)

  /** The executable the version probe runs. */
  function ProbeExecutable(isVirtual: bool, state: ToolState, inputs: Inputs): Path {
    var kept := if ResolvesPath(isVirtual, state)
      then ObserveAll(PathObserverState(None, []), inputs.resolvedPaths).virtualPath
      else None;
    kept.GetOr(state.virtualPath)
  }

  /** `compose`. */
  function Compose(isVirtual: bool, state: ToolState, inputs: Inputs): (r: seq<CommandLine>)
  {
    var resolution := if ResolvesPath(isVirtual, state) then Flatten(inputs.resolverWorkflows) else [];
    if !state.hasVersionObserver then resolution
    else
      resolution + [VersionProbe(ProbeExecutable(isVirtual, state, inputs),
        inputs.workingDirectory, inputs.environment, inputs.probeId)]
  }

  /** The resolution lines of every composer, in order, come first exactly
      when the path must be resolved; without a version observer they are
      all there is, otherwise one line (the probe) follows. */
  lemma ComposeLayout(isVirtual: bool, state: ToolState, inputs: Inputs)
    ensures var r := Compose(isVirtual, state, inputs);
      var n := if ResolvesPath(isVirtual, state) then SumLengths(inputs.resolverWorkflows) else 0;
      |r| == n + (if state.hasVersionObserver then 1 else 0)
      && r[..n] == (if ResolvesPath(isVirtual, state) then Flatten(inputs.resolverWorkflows) else [])
      && (!state.hasVersionObserver ==> r == r[..n])
  {
  }

  /** With a version observer the last line is the probe: it runs the first
      non-blank resolved path, or the tool's virtual path when there is none
      or no resolution ran. */
  lemma ComposeEndsWithProbe(isVirtual: bool, state: ToolState, inputs: Inputs)
    requires state.hasVersionObserver
    ensures var r := Compose(isVirtual, state, inputs);
      var kept := if ResolvesPath(isVirtual, state) then FirstNonBlank(inputs.resolvedPaths) else None;
      |r| >= 1 && r[|r| - 1] == VersionProbe(kept.GetOr(state.virtualPath),
        inputs.workingDirectory, inputs.environment, inputs.probeId)
  {
    ObserveAllKeepsFirstNonBlank(inputs.resolvedPaths);
  }
}
