/** The catalogue of build tools (`Tool` in dotnet-common): twenty-nine constants,
    each with a version, a tool type, a platform, a bitness, a description
    and a Visual Studio version; an identifier derived from them, and
    parsing an identifier back to its tool, case-insensitively. */
module Tools {
  import opened Common
  import opened Text

  datatype ToolType = VisualStudio | MSBuild | VSTest
  datatype ToolPlatform = Windows | CrossPlatform | Mono
  datatype ToolBitness = Any | X64 | X86

  /** How each kind renders in a string template: its constant name. */
  function TypeName(t: ToolType): string {
    match t
    case VisualStudio => "VisualStudio"
    case MSBuild => "MSBuild"
    case VSTest => "VSTest"
  }

  function PlatformName(p: ToolPlatform): string {
    match p
    case Windows => "Windows"
    case CrossPlatform => "CrossPlatform"
    case Mono => "Mono"
  }

  function BitnessName(b: ToolBitness): string {
    match b
    case Any => "Any"
    case X64 => "X64"
    case X86 => "X86"
  }

  /** The constructor arguments of one constant. */
  datatype ToolInfo = ToolInfo(
    version: int, toolType: ToolType, platform: ToolPlatform, bitness: ToolBitness,
    description: string, vsVersion: int)

  datatype Tool =
    | VisualStudioAny | VisualStudio2019 | VisualStudio2017 | VisualStudio2015
    | VisualStudio2013 | VisualStudio2012 | VisualStudio2010
    | MSBuildCrossPlatform | MSBuildMono
    | MSBuild16Windows | MSBuild16WindowsX64 | MSBuild16WindowsX86
    | MSBuild15Windows | MSBuild15WindowsX64 | MSBuild15WindowsX86
    | MSBuild14Windows | MSBuild14WindowsX64 | MSBuild14WindowsX86
    | MSBuild12Windows | MSBuild12WindowsX64 | MSBuild12WindowsX86
    | MSBuild4Windows | MSBuild4WindowsX64 | MSBuild4WindowsX86
    | VSTestCrossPlatform | VSTest16Windows | VSTest15Windows | VSTest14Windows | VSTest12Windows

  /** `Tool.values()`, in declaration order. */
  const AllTools: seq<Tool> := [
    VisualStudioAny, VisualStudio2019, VisualStudio2017, VisualStudio2015,
    VisualStudio2013, VisualStudio2012, VisualStudio2010,
    MSBuildCrossPlatform, MSBuildMono,
    MSBuild16Windows, MSBuild16WindowsX64, MSBuild16WindowsX86,
    MSBuild15Windows, MSBuild15WindowsX64, MSBuild15WindowsX86,
    MSBuild14Windows, MSBuild14WindowsX64, MSBuild14WindowsX86,
    MSBuild12Windows, MSBuild12WindowsX64, MSBuild12WindowsX86,
    MSBuild4Windows, MSBuild4WindowsX64, MSBuild4WindowsX86,
    VSTestCrossPlatform, VSTest16Windows, VSTest15Windows, VSTest14Windows, VSTest12Windows]

  /** The default `vsVersion` of the Kotlin constructor. */
  const DefaultVsVersion := 0

  function Info(t: Tool): ToolInfo {
    match t
    case VisualStudioAny => ToolInfo(0, VisualStudio, Windows, Any, "Any", 0)
    case VisualStudio2019 => ToolInfo(16, VisualStudio, Windows, Any, "Visual Studio 2019", 2019)
    case VisualStudio2017 => ToolInfo(15, VisualStudio, Windows, Any, "Visual Studio 2017", 2017)
    case VisualStudio2015 => ToolInfo(14, VisualStudio, Windows, Any, "Visual Studio 2015", 2015)
    case VisualStudio2013 => ToolInfo(12, VisualStudio, Windows, Any, "Visual Studio 2013", 2013)
    case VisualStudio2012 => ToolInfo(11, VisualStudio, Windows, Any, "Visual Studio 2012", 2012)
    case VisualStudio2010 => ToolInfo(10, VisualStudio, Windows, Any, "Visual Studio 2010", 2010)
    case MSBuildCrossPlatform => ToolInfo(0, MSBuild, CrossPlatform, Any, "Cross-platform MSBuild", DefaultVsVersion)
    case MSBuildMono => ToolInfo(0, MSBuild, Mono, Any, "Mono MSBuild", DefaultVsVersion)
    case MSBuild16Windows => ToolInfo(16, MSBuild, Windows, Any, "MSBuild 2019", 2019)
    case MSBuild16WindowsX64 => ToolInfo(16, MSBuild, Windows, X64, "MSBuild 2019 x64", 2019)
    case MSBuild16WindowsX86 => ToolInfo(16, MSBuild, Windows, X86, "MSBuild 2019 x86", 2019)
    case MSBuild15Windows => ToolInfo(15, MSBuild, Windows, Any, "MSBuild 2017", 2017)
    case MSBuild15WindowsX64 => ToolInfo(15, MSBuild, Windows, X64, "MSBuild 2017 x64", 2017)
    case MSBuild15WindowsX86 => ToolInfo(15, MSBuild, Windows, X86, "MSBuild 2017 x86", 2017)
    case MSBuild14Windows => ToolInfo(14, MSBuild, Windows, Any, "MSBuild 2015", 2015)
    case MSBuild14WindowsX64 => ToolInfo(14, MSBuild, Windows, X64, "MSBuild 2015 x64", 2015)
    case MSBuild14WindowsX86 => ToolInfo(14, MSBuild, Windows, X86, "MSBuild 2015 x86", 2015)
    case MSBuild12Windows => ToolInfo(12, MSBuild, Windows, Any, "MSBuild 2013", 2013)
    case MSBuild12WindowsX64 => ToolInfo(12, MSBuild, Windows, X64, "MSBuild 2013 x64", 2013)
    case MSBuild12WindowsX86 => ToolInfo(12, MSBuild, Windows, X86, "MSBuild 2013 x86", 2013)
    case MSBuild4Windows => ToolInfo(4, MSBuild, Windows, Any, "MSBuild 4", 2010)
    case MSBuild4WindowsX64 => ToolInfo(4, MSBuild, Windows, X64, "MSBuild 4 x64", 2010)
    case MSBuild4WindowsX86 => ToolInfo(4, MSBuild, Windows, X86, "MSBuild 4 x86", 2010)
    case VSTestCrossPlatform => ToolInfo(0, VSTest, CrossPlatform, Any, "Cross-platform VSTest", DefaultVsVersion)
    case VSTest16Windows => ToolInfo(16, VSTest, Windows, Any, "VSTest 2019", 2019)
    case VSTest15Windows => ToolInfo(15, VSTest, Windows, Any, "VSTest 2017", 2017)
    case VSTest14Windows => ToolInfo(14, VSTest, Windows, Any, "VSTest 2015", 2015)
    case VSTest12Windows => ToolInfo(12, VSTest, Windows, Any, "VSTest 2013", 2013)
  }

  /** The identifier template: type, `_version` unless the version is 0,
      `_platform`, and `_bitness` unless the bitness is `Any`. */
  function IdOf(i: ToolInfo): string {
    TypeName(i.toolType)
      + (if i.version != 0 then "_" + IntToString(i.version) else "")
      + "_" + PlatformName(i.platform)
      + (if i.bitness != Any then "_" + BitnessName(i.bitness) else "")
  }

  /** The `id` of a constant. */
  function Id(t: Tool): string {
    IdOf(Info(t))
  }

  /** The identifiers that the catalogue's comments and callers rely on. */
  lemma IdExamples()
    ensures Id(VisualStudioAny) == "VisualStudio_Windows"
    ensures Id(MSBuildCrossPlatform) == "MSBuild_CrossPlatform"
    ensures Id(MSBuild15WindowsX64) == "MSBuild_15_Windows_X64"
  {
    IdOfVisualStudioAny();
    IdOfMSBuildCrossPlatform();
    IdOfMSBuild15WindowsX64();
  }

  lemma IdOfVisualStudioAny()
    ensures Id(VisualStudioAny) == "VisualStudio_Windows"
  {
    assert Id(VisualStudioAny) == "VisualStudio_" + "Windows" by {
      assert Info(VisualStudioAny).version == 0 && Info(VisualStudioAny).bitness == Any;
    }
  }

  lemma IdOfMSBuildCrossPlatform()
    ensures Id(MSBuildCrossPlatform) == "MSBuild_CrossPlatform"
  {
    assert Id(MSBuildCrossPlatform) == "MSBuild_" + "CrossPlatform" by {
      assert Info(MSBuildCrossPlatform).version == 0 && Info(MSBuildCrossPlatform).bitness == Any;
    }
  }

  lemma IdOfMSBuild15WindowsX64()
    ensures Id(MSBuild15WindowsX64) == "MSBuild_15_Windows_X64"
  {
    var i := Info(MSBuild15WindowsX64);
    assert i.toolType == MSBuild && i.version == 15 && i.platform == Windows && i.bitness == X64;
    IdOfFullShape(i);
    assert IntToString(15) == "15" by {
      assert NatToString(15) == NatToString(1) + [Digit(5)];
    }
    assert "MSBuild" + "_" + "15" + "_" + "Windows" + "_" + "X64" == "MSBuild_15_Windows_X64";
  }

  /** The identifier of a constant with a version and a bitness. */
  lemma IdOfFullShape(i: ToolInfo)
    requires i.version != 0 && i.bitness != Any
    ensures IdOf(i) == TypeName(i.toolType) + "_" + IntToString(i.version) + "_" + PlatformName(i.platform)
      + "_" + BitnessName(i.bitness)
  {
  }

  // ---------------------------------------------------------------------
  // Identifiers are distinct, even ignoring case

  /** The pieces of the lower-cased identifier between its underscores. */
  ghost function PartsOf(i: ToolInfo): seq<string> {
    [Lower(TypeName(i.toolType))]
      + (if i.version != 0 then [IntToString(i.version)] else [])
      + [Lower(PlatformName(i.platform))]
      + (if i.bitness != Any then [Lower(BitnessName(i.bitness))] else [])
  }

  lemma LowerNames()
    ensures Lower(TypeName(VisualStudio)) == "visualstudio"
    ensures Lower(TypeName(MSBuild)) == "msbuild"
    ensures Lower(TypeName(VSTest)) == "vstest"
    ensures Lower(PlatformName(Windows)) == "windows"
    ensures Lower(PlatformName(CrossPlatform)) == "crossplatform"
    ensures Lower(PlatformName(Mono)) == "mono"
    ensures Lower(BitnessName(X64)) == "x64"
    ensures Lower(BitnessName(X86)) == "x86"
  {
  }

  lemma VersionsAreNatural(t: Tool)
    ensures Info(t).version >= 0
  {
  }

  /** Two tools with the same type, version, platform and bitness are one. */
  lemma InfoKeyDeterminesTool(a: Tool, b: Tool)
    requires Info(a).toolType == Info(b).toolType && Info(a).version == Info(b).version
    requires Info(a).platform == Info(b).platform && Info(a).bitness == Info(b).bitness
    ensures a == b
  {
    var i := Info(a);
    if i.toolType == VisualStudio {
      SameKeyVisualStudio(a, b);
    } else if i.toolType == VSTest {
      SameKeyVSTest(a, b);
    } else if i.bitness == Any {
      SameKeyMSBuild(a, b);
    } else if i.bitness == X64 {
      SameKeyMSBuildX64(a, b);
    } else {
      SameKeyMSBuildX86(a, b);
    }
  }

  // `InfoKeyDeterminesTool` within one type and bitness, one group at a time.

  lemma SameKeyVisualStudio(a: Tool, b: Tool)
    requires Info(a).toolType == VisualStudio && Info(a).bitness == Any
    requires Info(a).toolType == Info(b).toolType && Info(a).version == Info(b).version
    requires Info(a).platform == Info(b).platform && Info(a).bitness == Info(b).bitness
    ensures a == b
  {
  }

  lemma SameKeyVSTest(a: Tool, b: Tool)
    requires Info(a).toolType == VSTest && Info(a).bitness == Any
    requires Info(a).toolType == Info(b).toolType && Info(a).version == Info(b).version
    requires Info(a).platform == Info(b).platform && Info(a).bitness == Info(b).bitness
    ensures a == b
  {
  }

  lemma SameKeyMSBuild(a: Tool, b: Tool)
    requires Info(a).toolType == MSBuild && Info(a).bitness == Any
    requires Info(a).toolType == Info(b).toolType && Info(a).version == Info(b).version
    requires Info(a).platform == Info(b).platform && Info(a).bitness == Info(b).bitness
    ensures a == b
  {
  }

  lemma SameKeyMSBuildX64(a: Tool, b: Tool)
    requires Info(a).toolType == MSBuild && Info(a).bitness == X64
    requires Info(a).toolType == Info(b).toolType && Info(a).version == Info(b).version
    requires Info(a).platform == Info(b).platform && Info(a).bitness == Info(b).bitness
    ensures a == b
  {
  }

  lemma SameKeyMSBuildX86(a: Tool, b: Tool)
    requires Info(a).toolType == MSBuild && Info(a).bitness == X86
    requires Info(a).toolType == Info(b).toolType && Info(a).version == Info(b).version
    requires Info(a).platform == Info(b).platform && Info(a).bitness == Info(b).bitness
    ensures a == b
  {
  }

  lemma LowerIdIsJoin(i: ToolInfo)
    requires i.version >= 0
    ensures Lower(IdOf(i)) == Join(PartsOf(i), "_")
  {
    LowerDigits(IntToString(i.version));
    if i.version != 0 && i.bitness != Any {
      LowerIdWithVersionAndBitness(i);
    } else if i.version != 0 {
      LowerIdWithVersion(i);
    } else if i.bitness != Any {
      LowerIdWithBitness(i);
    } else {
      LowerIdOfTwo(i);
    }
  }

  // The four shapes an identifier takes, one lemma each.

  lemma LowerIdWithVersionAndBitness(i: ToolInfo)
    requires i.version > 0 && i.bitness != Any && Lower(IntToString(i.version)) == IntToString(i.version)
    ensures Lower(IdOf(i)) == Join(PartsOf(i), "_")
  {
    var tn, v, pn, bn := TypeName(i.toolType), IntToString(i.version), PlatformName(i.platform), BitnessName(i.bitness);
    assert IdOf(i) == tn + "_" + v + "_" + pn + "_" + bn;
    LowerJoinOfFour(tn, v, pn, bn);
    assert PartsOf(i) == [Lower(tn), Lower(v), Lower(pn), Lower(bn)];
  }

  lemma LowerIdWithVersion(i: ToolInfo)
    requires i.version > 0 && i.bitness == Any && Lower(IntToString(i.version)) == IntToString(i.version)
    ensures Lower(IdOf(i)) == Join(PartsOf(i), "_")
  {
    var tn, v, pn := TypeName(i.toolType), IntToString(i.version), PlatformName(i.platform);
    assert IdOf(i) == tn + "_" + v + "_" + pn;
    LowerJoinOfThree(tn, v, pn);
    assert PartsOf(i) == [Lower(tn), Lower(v), Lower(pn)];
  }

  lemma LowerIdWithBitness(i: ToolInfo)
    requires i.version == 0 && i.bitness != Any
    ensures Lower(IdOf(i)) == Join(PartsOf(i), "_")
  {
    var tn, pn, bn := TypeName(i.toolType), PlatformName(i.platform), BitnessName(i.bitness);
    assert IdOf(i) == tn + "_" + pn + "_" + bn;
    LowerJoinOfThree(tn, pn, bn);
    assert PartsOf(i) == [Lower(tn), Lower(pn), Lower(bn)];
  }

  lemma LowerIdOfTwo(i: ToolInfo)
    requires i.version == 0 && i.bitness == Any
    ensures Lower(IdOf(i)) == Join(PartsOf(i), "_")
  {
    var tn, pn := TypeName(i.toolType), PlatformName(i.platform);
    assert IdOf(i) == tn + "_" + pn;
    LowerAppend(tn, "_");
    LowerAppend(tn + "_", pn);
    assert PartsOf(i) == [Lower(tn), Lower(pn)];
  }

  lemma LowerJoinOfThree(a: string, b: string, c: string)
    ensures Lower(a + "_" + b + "_" + c) == Join([Lower(a), Lower(b), Lower(c)], "_")
  {
    LowerAppend(a, "_");
    LowerAppend(a + "_", b);
    LowerAppend(a + "_" + b, "_");
    LowerAppend(a + "_" + b + "_", c);
    JoinOfThree(Lower(a), Lower(b), Lower(c));
  }

  lemma LowerJoinOfFour(a: string, b: string, c: string, d: string)
    ensures Lower(a + "_" + b + "_" + c + "_" + d) == Join([Lower(a), Lower(b), Lower(c), Lower(d)], "_")
  {
    LowerAppend(a, "_");
    LowerAppend(a + "_", b);
    LowerAppend(a + "_" + b, "_");
    LowerAppend(a + "_" + b + "_", c);
    LowerAppend(a + "_" + b + "_" + c, "_");
    LowerAppend(a + "_" + b + "_" + c + "_", d);
    JoinOfFour(Lower(a), Lower(b), Lower(c), Lower(d));
  }

  lemma JoinOfThree(a: string, b: string, c: string)
    ensures Join([a, b, c], "_") == a + "_" + b + "_" + c
  {
    assert [a, b, c][1..] == [b, c];
    assert [b, c][1..] == [c];
    assert Join([b, c], "_") == b + "_" + c;
  }

  lemma JoinOfFour(a: string, b: string, c: string, d: string)
    ensures Join([a, b, c, d], "_") == a + "_" + b + "_" + c + "_" + d
  {
    assert [a, b, c, d][1..] == [b, c, d];
    JoinOfThree(b, c, d);
  }

  lemma PartsHaveNoUnderscore(i: ToolInfo)
    requires i.version >= 0
    ensures forall k, j :: 0 <= k < |PartsOf(i)| && 0 <= j < |PartsOf(i)[k]| ==> PartsOf(i)[k][j] != '_'
  {
    LowerNames();
    var v := IntToString(i.version);
    assert '_' !in v by {
      assert forall j :: 0 <= j < |v| ==> IsDigit(v[j]);
    }
    var p := PartsOf(i);
    assert forall k :: 0 <= k < |p| ==> p[k] == v || p[k] in NamePieces;
    NamePiecesHaveNoUnderscore();
    WithoutInPieces(p, '_');
  }

  lemma NamePiecesHaveNoUnderscore()
    ensures forall w :: w in NamePieces ==> '_' !in w
  {
  }

  /** The lower-cased names of types, platforms and bitnesses. */
  const NamePieces: set<string> :=
    {"visualstudio", "msbuild", "vstest", "windows", "crossplatform", "mono", "x64", "x86"}

  lemma WithoutInPieces(p: seq<string>, c: char)
    requires forall k :: 0 <= k < |p| ==> c !in p[k]
    ensures forall k, j :: 0 <= k < |p| && 0 <= j < |p[k]| ==> p[k][j] != c
  {
    forall k, j | 0 <= k < |p| && 0 <= j < |p[k]| ensures p[k][j] != c {
      assert p[k][j] in p[k];
    }
  }

  /** The pieces fix the type, version, platform and bitness. */
  lemma {:induction false} PartsDetermineKey(a: ToolInfo, b: ToolInfo)
    requires a.version >= 0 && b.version >= 0
    requires PartsOf(a) == PartsOf(b)
    ensures a.toolType == b.toolType && a.version == b.version
    ensures a.platform == b.platform && a.bitness == b.bitness
  {
    var p := PartsOf(a);
    LowerNames();
    assert p[0] == Lower(TypeName(a.toolType)) == Lower(TypeName(b.toolType));
    // the second piece starts with a digit exactly when a version is present
    assert IsDigit(p[1][0]) <==> a.version != 0;
    assert IsDigit(p[1][0]) <==> b.version != 0;
    var k := if a.version != 0 then 2 else 1;
    assert p[k] == Lower(PlatformName(a.platform)) == Lower(PlatformName(b.platform));
    if a.version != 0 {
      IntToStringInjective(a.version, b.version);
    }
    assert |p| == k + 2 <==> a.bitness != Any;
    assert |p| == k + 2 <==> b.bitness != Any;
    if a.bitness != Any {
      assert p[k + 1] == Lower(BitnessName(a.bitness)) == Lower(BitnessName(b.bitness));
    }
  }

  /** No two tools have identifiers that are equal ignoring case. */
  lemma IdsDistinctIgnoringCase(a: Tool, b: Tool)
    ensures EqualsIgnoreCase(Id(a), Id(b)) ==> a == b
  {
    if EqualsIgnoreCase(Id(a), Id(b)) {
      var ia, ib := Info(a), Info(b);
      VersionsAreNatural(a);
      VersionsAreNatural(b);
      LowerIdIsJoin(ia);
      LowerIdIsJoin(ib);
      PartsHaveNoUnderscore(ia);
      PartsHaveNoUnderscore(ib);
      SplitOnJoin(PartsOf(ia), '_');
      SplitOnJoin(PartsOf(ib), '_');
      PartsDetermineKey(ia, ib);
      InfoKeyDeterminesTool(a, b);
    }
  }

  // ---------------------------------------------------------------------
  // Parsing

  /** The position of each constant in `values()`. */
  function Ordinal(t: Tool): (n: nat)
    ensures n < |AllTools| && AllTools[n] == t
  {
    match t
    case VisualStudioAny => 0 case VisualStudio2019 => 1 case VisualStudio2017 => 2
    case VisualStudio2015 => 3 case VisualStudio2013 => 4 case VisualStudio2012 => 5
    case VisualStudio2010 => 6 case MSBuildCrossPlatform => 7 case MSBuildMono => 8
    case MSBuild16Windows => 9 case MSBuild16WindowsX64 => 10 case MSBuild16WindowsX86 => 11
    case MSBuild15Windows => 12 case MSBuild15WindowsX64 => 13 case MSBuild15WindowsX86 => 14
    case MSBuild14Windows => 15 case MSBuild14WindowsX64 => 16 case MSBuild14WindowsX86 => 17
    case MSBuild12Windows => 18 case MSBuild12WindowsX64 => 19 case MSBuild12WindowsX86 => 20
    case MSBuild4Windows => 21 case MSBuild4WindowsX64 => 22 case MSBuild4WindowsX86 => 23
    case VSTestCrossPlatform => 24 case VSTest16Windows => 25 case VSTest15Windows => 26
    case VSTest14Windows => 27 case VSTest12Windows => 28
  }

  /** `values()` lists every constant once. */
  lemma {:induction false} AllToolsDistinct()
    ensures Distinct(AllTools)
  {
    forall i, j | 0 <= i < j < |AllTools| ensures AllTools[i] != AllTools[j] {
      OrdinalOfEntry(i);
      OrdinalOfEntry(j);
    }
  }

  lemma OrdinalOfEntry(i: nat)
    requires i < |AllTools|
    ensures Ordinal(AllTools[i]) == i
  {
    if i < 6 {
      OrdinalOfEntries0To6(i);
    } else if i < 12 {
      OrdinalOfEntries6To12(i);
    } else if i < 18 {
      OrdinalOfEntries12To18(i);
    } else if i < 24 {
      OrdinalOfEntries18To24(i);
    } else {
      OrdinalOfEntries24To29(i);
    }
  }

  // One case per position, so that each case reads one entry of the list.

  lemma OrdinalOfEntries0To6(i: nat)
    requires i < 6
    ensures Ordinal(AllTools[i]) == i
  {
    match i
    case 0 => case 1 => case 2 => case 3 => case 4 => case _ =>
  }

  lemma OrdinalOfEntries6To12(i: nat)
    requires 6 <= i < 12
    ensures Ordinal(AllTools[i]) == i
  {
    match i
    case 6 => case 7 => case 8 => case 9 => case 10 => case _ =>
  }

  lemma OrdinalOfEntries12To18(i: nat)
    requires 12 <= i < 18
    ensures Ordinal(AllTools[i]) == i
  {
    match i
    case 12 => case 13 => case 14 => case 15 => case 16 => case _ =>
  }

  lemma OrdinalOfEntries18To24(i: nat)
    requires 18 <= i < 24
    ensures Ordinal(AllTools[i]) == i
  {
    match i
    case 18 => case 19 => case 20 => case 21 => case 22 => case _ =>
  }

  lemma OrdinalOfEntries24To29(i: nat)
    requires 24 <= i < |AllTools|
    ensures Ordinal(AllTools[i]) == i
  {
    match i
    case 24 => case 25 => case 26 => case 27 => case _ =>
  }

  /** `Tool.tryParse`: the only constant whose identifier equals `id`
      ignoring case, or null. */
  function TryParse(id: string): (r: Option<Tool>)
    ensures r.Some? ==> EqualsIgnoreCase(Id(r.value), id)
    ensures r.None? ==> forall t :: !EqualsIgnoreCase(Id(t), id)
  {
    var m := Matching(AllTools, id);
    TryParseMatches(id);
    var r := SingleOrNull(m);
    assert r.Some? ==> |m| == 1 && r.value == m[0];
    r
  }

  /** The tools whose identifier equals `id` ignoring case, in order:
      `singleOrNull { … }` keeps its one element, if it has exactly one. */
  function Matching(tools: seq<Tool>, id: string): (r: seq<Tool>)
    ensures |r| <= |tools|
    ensures forall t :: t in r <==> t in tools && EqualsIgnoreCase(Id(t), id)
  {
    if tools == [] then []
    else (if EqualsIgnoreCase(Id(tools[0]), id) then [tools[0]] else []) + Matching(tools[1..], id)
  }

  lemma TryParseMatches(id: string)
    ensures var m := Matching(AllTools, id);
      (|m| == 1 ==> EqualsIgnoreCase(Id(m[0]), id))
      && (|m| != 1 ==> forall t :: !EqualsIgnoreCase(Id(t), id))
  {
    var m := Matching(AllTools, id);
    if |m| == 1 {
      assert m[0] in m;
    } else {
      forall t ensures !EqualsIgnoreCase(Id(t), id) {
        if EqualsIgnoreCase(Id(t), id) {
          TryParseSingleMatch(t, id);
        }
      }
    }
  }

  lemma TryParseSingleMatch(t: Tool, id: string)
    requires EqualsIgnoreCase(Id(t), id)
    ensures Matching(AllTools, id) == [t]
  {
    forall u | u in AllTools && EqualsIgnoreCase(Id(u), id) ensures u == t {
      IdsDistinctIgnoringCase(u, t);
    }
    AllToolsDistinct();
    assert AllTools[Ordinal(t)] == t;
    MatchingOfUnique(AllTools, id, t);
  }

  /** In a list without repetitions, the only tool that matches is all the
      filter keeps. */
  lemma {:induction false} MatchingOfUnique(tools: seq<Tool>, id: string, t: Tool)
    requires Distinct(tools) && t in tools && EqualsIgnoreCase(Id(t), id)
    requires forall u :: u in tools && EqualsIgnoreCase(Id(u), id) ==> u == t
    ensures Matching(tools, id) == [t]
  {
    var rest := tools[1..];
    assert Distinct(rest) by {
      forall i, j | 0 <= i < j < |rest| ensures rest[i] != rest[j] {
        assert rest[i] == tools[i + 1] && rest[j] == tools[j + 1];
      }
    }
    if tools[0] == t {
      assert t !in rest by {
        forall k | 0 <= k < |rest| ensures rest[k] != t {
          assert rest[k] == tools[k + 1];
        }
      }
      assert forall u :: u in rest ==> u in tools;
      assert Matching(rest, id) == [] by {
        if Matching(rest, id) != [] {
          assert Matching(rest, id)[0] in Matching(rest, id);
        }
      }
    } else {
      assert t in rest;
      MatchingOfUnique(rest, id, t);
    }
  }

  /** Parsing finds a tool from its identifier written in any letter case. */
  lemma {:induction false} TryParseId(t: Tool, id: string)
    requires EqualsIgnoreCase(Id(t), id)
    ensures TryParse(id) == Some(t)
  {
    TryParseSingleMatch(t, id);
  }

  lemma {:induction false} TryParseRoundTrip(t: Tool)
    ensures TryParse(Id(t)) == Some(t)
    ensures TryParse(Lower(Id(t))) == Some(t)
  {
    TryParseId(t, Id(t));
    LowerIdempotent(Id(t));
    TryParseId(t, Lower(Id(t)));
  }

  /** Only Windows tools name a Visual Studio version. */
  lemma NonWindowsToolsHaveDefaultVsVersion(t: Tool)
    ensures Info(t).platform != Windows ==> Info(t).vsVersion == DefaultVsVersion
    ensures Info(t).platform == Windows && t != VisualStudioAny ==> Info(t).vsVersion >= 2010
  {
  }
}
