/** The priority classes of an invocation (`TargetType`): every command line
    of a workflow names the class of program it starts, and the classes are
    ordered by an integer priority. */
module TargetTypes {

  datatype TargetType =
    | NotApplicable
    | SystemDiagnostics
    | Tool
    | Host
    | PerformanceProfiler
    | MemoryProfiler
    | CodeCoverageProfiler

  predicate IsProfiler(t: TargetType) {
    t == PerformanceProfiler || t == MemoryProfiler || t == CodeCoverageProfiler
  }

  function Priority(t: TargetType): (p: int)
    ensures p >= 0
    ensures p == 0 <==> t == NotApplicable
    ensures IsProfiler(t) <==> p > 200
  {
    match t
    case NotApplicable => 0
    case SystemDiagnostics => 1
    case Tool => 100
    case Host => 200
    case PerformanceProfiler => 300
    case MemoryProfiler => 310
    case CodeCoverageProfiler => 320
  }

  /** `TargetType.values()`, in declaration order. */
  const DeclarationOrder: seq<TargetType> := [
    NotApplicable, SystemDiagnostics, Tool, Host,
    PerformanceProfiler, MemoryProfiler, CodeCoverageProfiler]

  lemma DeclarationOrderIsComplete(t: TargetType)
    ensures t in DeclarationOrder
  {
  }

  /** Each class comes with a larger priority than the one declared before it. */
  lemma PriorityIncreasesInDeclarationOrder(i: int, j: int)
    requires 0 <= i < j < |DeclarationOrder|
    ensures Priority(DeclarationOrder[i]) < Priority(DeclarationOrder[j])
  {
  }

  /** Priorities are pairwise distinct, so they order the classes totally. */
  lemma {:induction false} PriorityInjective(a: TargetType, b: TargetType)
    ensures Priority(a) == Priority(b) ==> a == b
  {
    DeclarationOrderIsComplete(a);
    DeclarationOrderIsComplete(b);
    var i :| 0 <= i < |DeclarationOrder| && DeclarationOrder[i] == a;
    var j :| 0 <= j < |DeclarationOrder| && DeclarationOrder[j] == b;
    if i < j {
      PriorityIncreasesInDeclarationOrder(i, j);
    } else if j < i {
      PriorityIncreasesInDeclarationOrder(j, i);
    }
  }

  /** `NotApplicable` is the least class and every profiler ranks above `Host`. */
  lemma PriorityExtremes(t: TargetType)
    ensures Priority(NotApplicable) <= Priority(t)
    ensures IsProfiler(t) ==> Priority(t) > Priority(Host)
  {
  }
}
