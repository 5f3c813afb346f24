# The orchestration core of the TeamCity .NET runner, in Dafny

This project models the decisions the TeamCity .NET build runner makes
between the build configuration and the processes it starts, and proves
what those decisions guarantee. It covers:

- the invocation priority classes (`TargetType`);
- the tool catalogue and its identifiers (`Tool`), and `Platform` parsing;
- how the configured `dotnet` command is expanded into one command per group
  of targets (`DotnetCommandSet`), and how the final argument list is
  assembled (`ComposedDotnetCommandStreamResolver`);
- test splitting by exact names (`ExactMatchTestCommandsStreamResolver`) and
  the state machine that collects test names from `dotnet test --list-tests`;
- the dotCover filter lists (`CoverageFilterProviderImpl`);
- the workflow composers that wrap `.cmd`/`.bat` files in `cmd /D /C`
  (`CmdWorkflowComposer`) and that locate the `dotnet` executable and probe
  the SDK version (`DotnetStateWorkflowComposer`);
- the execution adapter that routes one process's output to the build log and
  to the workflow's observer (`CommandExecutionAdapter`);
- the results analyzer (`DotnetWorkflowAnalyzerImpl`);
- the merge of agent properties from all providers (`PropertiesExtension`).

The logger and the build log are traces of the entries written to them. The
collaborators are inputs of the model. These are the version parser, the
filter converter, `resolvePath`, `combine`, the presentation service, the
output replacer, `Path.extension()` and the path-resolution workflows. Kotlin
sequences are finite `seq`s. The parts that update state in place are
classes with methods: the list-tests result handler, the path observer
closure, the execution adapter, the analyzer with its context, and the
property merge. The `cmd` rewrite, whose loop caches the path of `cmd`, is a
method with a loop. Each method is proved against a function on
values, and the properties are proved about those functions.

Files: `common.dfy` (option, flatten, filter, `singleOrNull`, `indexOf`),
`text.dfy` (the Kotlin/Java string operations the runner uses), then one file
per source file of the core. `command_line.dfy` and `dotnet_command.dfy` hold
the records the others share.

## Model

| member | source | states |
|---|---|---|
| TargetTypes.Priority | plugin-dotnet-agent/src/main/kotlin/jetbrains/buildServer/agent/TargetType.kt:19-27 | priorities are non-negative; zero exactly for NotApplicable; above Host's 200 exactly for the three profilers |
| TargetTypes.PriorityIncreasesInDeclarationOrder | plugin-dotnet-agent/src/main/kotlin/jetbrains/buildServer/agent/TargetType.kt:20-26 | each class declared later has a strictly larger priority |
| TargetTypes.PriorityInjective | plugin-dotnet-agent/src/main/kotlin/jetbrains/buildServer/agent/TargetType.kt:19-27 | equal priorities mean equal classes, so priority orders the classes totally |
| TargetTypes.PriorityExtremes | plugin-dotnet-agent/src/main/kotlin/jetbrains/buildServer/agent/TargetType.kt:20-26 | NotApplicable has the least priority and every profiler ranks above Host |
| TargetTypes.DeclarationOrderIsComplete | plugin-dotnet-agent/src/main/kotlin/jetbrains/buildServer/agent/TargetType.kt:19-27 | every class occurs in `values()` |
| Platforms.Description | plugin-dotnet-common/src/main/kotlin/jetbrains/buildServer/dotnet/Platform.kt:4-6 | each platform's description equals its identifier |
| Platforms.IdsDistinctIgnoringCase | plugin-dotnet-common/src/main/kotlin/jetbrains/buildServer/dotnet/Platform.kt:4-6 | no two platforms have identifiers equal ignoring case |
| Platforms.TryParseAsWritten | plugin-dotnet-common/src/main/kotlin/jetbrains/buildServer/dotnet/Platform.kt:9-11 | `tryParse` as written returns null for every input |
| Platforms.TryParseAsWrittenIgnoresArgument | plugin-dotnet-common/src/main/kotlin/jetbrains/buildServer/dotnet/Platform.kt:9-11 | the result of `tryParse` as written does not depend on its argument |
| Platforms.TryParseAsWrittenRejectsIds | plugin-dotnet-common/src/main/kotlin/jetbrains/buildServer/dotnet/Platform.kt:9-11 | even "x86", "x64" and "ARM" are rejected |
| Platforms.TryParse | plugin-dotnet-common/src/main/kotlin/jetbrains/buildServer/dotnet/Platform.kt:9-11 | corrected parse: a result matches the input ignoring case; null only when no identifier matches |
| Platforms.TryParseRoundTrip | plugin-dotnet-common/src/main/kotlin/jetbrains/buildServer/dotnet/Platform.kt:9-11 | the corrected parse finds every platform from its identifier in any letter case |
| Platforms.TryParseOwnId | plugin-dotnet-common/src/main/kotlin/jetbrains/buildServer/dotnet/Platform.kt:9-11 | the corrected parse finds every platform from its identifier and its lower-cased identifier |
| Tools.Id | plugin-dotnet-common/src/main/kotlin/jetbrains/buildServer/dotnet/Tool.kt:60 | the identifier template (contract given by Tools.IdExamples, Tools.LowerIdIsJoin, Tools.PartsDetermineKey and Tools.IdsDistinctIgnoringCase) |
| Tools.IdExamples | plugin-dotnet-common/src/main/kotlin/jetbrains/buildServer/dotnet/Tool.kt:21-60 | VisualStudioAny, MSBuildCrossPlatform and MSBuild15WindowsX64 have the identifiers "VisualStudio_Windows", "MSBuild_CrossPlatform" and "MSBuild_15_Windows_X64" |
| Tools.LowerIdIsJoin | plugin-dotnet-common/src/main/kotlin/jetbrains/buildServer/dotnet/Tool.kt:60 | the lower-cased identifier is the type, the version when not 0, the platform, and the bitness when not Any, joined with "_" |
| Tools.PartsDetermineKey | plugin-dotnet-common/src/main/kotlin/jetbrains/buildServer/dotnet/Tool.kt:60 | the pieces of an identifier determine type, version, platform and bitness |
| Tools.InfoKeyDeterminesTool | plugin-dotnet-common/src/main/kotlin/jetbrains/buildServer/dotnet/Tool.kt:19-58 | no two constants share type, version, platform and bitness |
| Tools.IdsDistinctIgnoringCase | plugin-dotnet-common/src/main/kotlin/jetbrains/buildServer/dotnet/Tool.kt:21-60 | no two tools have identifiers equal ignoring case |
| Tools.AllToolsDistinct | plugin-dotnet-common/src/main/kotlin/jetbrains/buildServer/dotnet/Tool.kt:19-58 | `values()` lists every constant exactly once |
| Tools.Ordinal | plugin-dotnet-common/src/main/kotlin/jetbrains/buildServer/dotnet/Tool.kt:19-58 | every tool occurs in `values()` at its declaration position |
| Tools.TryParse | plugin-dotnet-common/src/main/kotlin/jetbrains/buildServer/dotnet/Tool.kt:63-65 | a result matches the input ignoring case; null exactly when no identifier matches |
| Tools.Matching | plugin-dotnet-common/src/main/kotlin/jetbrains/buildServer/dotnet/Tool.kt:64 | keeps exactly the listed tools whose identifier equals the input ignoring case, never more than the list holds |
| Tools.TryParseSingleMatch | plugin-dotnet-common/src/main/kotlin/jetbrains/buildServer/dotnet/Tool.kt:64 | the tools matching an identifier ignoring case are exactly that one tool |
| Tools.TryParseId | plugin-dotnet-common/src/main/kotlin/jetbrains/buildServer/dotnet/Tool.kt:63-65 | parsing any re-casing of a tool's identifier gives that tool |
| Tools.TryParseRoundTrip | plugin-dotnet-common/src/main/kotlin/jetbrains/buildServer/dotnet/Tool.kt:63-65 | `tryParse(t.id) == t`, also for the lower-cased identifier |
| Tools.NonWindowsToolsHaveDefaultVsVersion | plugin-dotnet-common/src/main/kotlin/jetbrains/buildServer/dotnet/Tool.kt:19-54 | cross-platform and Mono tools have vsVersion 0; Windows tools other than VisualStudioAny have a vsVersion of 2010 or later |
| DotnetCommandSets.KnownCommands | plugin-dotnet-agent/src/main/kotlin/jetbrains/buildServer/dotnet/DotnetCommandSet.kt:31 | a key of the map is exactly the type of some command; each entry is a command of the list with that type |
| DotnetCommandSets.LaterCommandWins | plugin-dotnet-agent/src/main/kotlin/jetbrains/buildServer/dotnet/DotnetCommandSet.kt:31 | for a repeated type the last command with it is kept |
| DotnetCommandSets.TargetGroups | plugin-dotnet-agent/src/main/kotlin/jetbrains/buildServer/dotnet/DotnetCommandSet.kt:43-53 | the command's groups when it has some, otherwise one empty group |
| DotnetCommandSets.GetTargetArguments | plugin-dotnet-agent/src/main/kotlin/jetbrains/buildServer/dotnet/DotnetCommandSet.kt:43-53 | the loop with its `hasTargets` flag yields the groups, or one empty group when the loop yielded none |
| DotnetCommandSets.VerbTokens | plugin-dotnet-agent/src/main/kotlin/jetbrains/buildServer/dotnet/DotnetCommandSet.kt:70-72 | the verb tokens are non-empty and contain no '-' |
| DotnetCommandSets.VerbTokensFlatten | plugin-dotnet-agent/src/main/kotlin/jetbrains/buildServer/dotnet/DotnetCommandSet.kt:70-72 | together the tokens are the identifier without its dashes |
| DotnetCommandSets.VerbTokensOfJoin | plugin-dotnet-agent/src/main/kotlin/jetbrains/buildServer/dotnet/DotnetCommandSet.kt:70-72 | splitting a dash-joined identifier of non-empty dash-free words gives back the words |
| DotnetCommandSets.Composite | plugin-dotnet-agent/src/main/kotlin/jetbrains/buildServer/dotnet/DotnetCommandSet.kt:55-91 | the arguments are the verb (only if required), then the group's targets, then the command's own; the target groups are exactly the one group; type, tool resolver, environment builders, results analyzer and results observer are the wrapped command's |
| DotnetCommandSets.Commands | plugin-dotnet-agent/src/main/kotlin/jetbrains/buildServer/dotnet/DotnetCommandSet.kt:33-41 | an absent parameter, or one naming no known type (compared untrimmed), gives no commands |
| DotnetCommandSets.CommandsPerGroup | plugin-dotnet-agent/src/main/kotlin/jetbrains/buildServer/dotnet/DotnetCommandSet.kt:36-48 | a command with k groups gives k composites, the i-th for the i-th group |
| DotnetCommandSets.CommandsWithoutGroups | plugin-dotnet-agent/src/main/kotlin/jetbrains/buildServer/dotnet/DotnetCommandSet.kt:50-52 | a command without groups gives one composite with an empty group, holding the verb and the command's arguments |
| DotnetCommandSets.CleanExample | plugin-dotnet-agent/src/test/kotlin/jetbrains/buildServer/dotnet/test/dotnet/DotnetCommandSetTest.kt:59-91 | with the test's registry of build, clean, test-assembly and test commands, `clean` gives one composite: the mandatory verb "clean", then the clean command's own arguments |
| DotnetCommands.MandatoryArguments | plugin-dotnet-agent/src/main/kotlin/jetbrains/buildServer/dotnet/DotnetCommandSet.kt:72 | each word becomes one Mandatory argument, in order |
| ComposedResolvers.ShouldBeApplied | plugin-dotnet-agent/src/main/kotlin/jetbrains/buildServer/dotnet/commands/resolution/resolvers/ComposedDotnetCommandStreamResolver.kt:30 | the resolver applies to every stream |
| ComposedResolvers.Composed | plugin-dotnet-agent/src/main/kotlin/jetbrains/buildServer/dotnet/commands/resolution/resolvers/ComposedDotnetCommandStreamResolver.kt:34-36 | every member other than the arguments is the original's |
| ComposedResolvers.Apply | plugin-dotnet-agent/src/main/kotlin/jetbrains/buildServer/dotnet/commands/resolution/resolvers/ComposedDotnetCommandStreamResolver.kt:32 | one composed command per command, same length and order |
| ComposedResolvers.TargetGroupArguments | plugin-dotnet-agent/src/main/kotlin/jetbrains/buildServer/dotnet/commands/resolution/resolvers/ComposedDotnetCommandStreamResolver.kt:48 | the arguments of each group, group by group |
| ComposedResolvers.ComposedArgumentLayout | plugin-dotnet-agent/src/main/kotlin/jetbrains/buildServer/dotnet/commands/resolution/resolvers/ComposedDotnetCommandStreamResolver.kt:37-52 | the arguments are the words as Mandatory arguments (only if required), then all groups' targets, then the original arguments; the length adds up |
| ComposedResolvers.ComposedTargetPosition | plugin-dotnet-agent/src/main/kotlin/jetbrains/buildServer/dotnet/commands/resolution/resolvers/ComposedDotnetCommandStreamResolver.kt:48 | argument k of group g sits after the verb and all earlier groups |
| ComposedResolvers.NoVerbWhenNotRequired | plugin-dotnet-agent/src/main/kotlin/jetbrains/buildServer/dotnet/commands/resolution/resolvers/ComposedDotnetCommandStreamResolver.kt:38-41 | without a required verb no verb argument appears |
| ExactMatchResolvers.ShouldBeApplied | plugin-dotnet-agent/src/main/kotlin/jetbrains/buildServer/dotnet/commands/resolution/resolvers/ExactMatchTestCommandsStreamResolver.kt:40-41 | applies iff splitting is active, the exact-match filter is used and some command is a test |
| ExactMatchResolvers.AnyTest | plugin-dotnet-agent/src/main/kotlin/jetbrains/buildServer/dotnet/commands/resolution/resolvers/ExactMatchTestCommandsStreamResolver.kt:41 | `any` holds iff some command is a test |
| ExactMatchResolvers.Probe | plugin-dotnet-agent/src/main/kotlin/jetbrains/buildServer/dotnet/commands/resolution/resolvers/ExactMatchTestCommandsStreamResolver.kt:56-73 | the probe is the list-tests command with only its results observer replaced by the handler of its session |
| ExactMatchResolvers.Repeat | plugin-dotnet-agent/src/main/kotlin/jetbrains/buildServer/dotnet/commands/resolution/resolvers/ExactMatchTestCommandsStreamResolver.kt:62-64 | exactly n copies of the command |
| ExactMatchResolvers.Transform | plugin-dotnet-agent/src/main/kotlin/jetbrains/buildServer/dotnet/commands/resolution/resolvers/ExactMatchTestCommandsStreamResolver.kt:52-66 | a test command becomes its probe followed by `chunksCount` copies of itself |
| ExactMatchResolvers.TestCount | plugin-dotnet-agent/src/main/kotlin/jetbrains/buildServer/dotnet/commands/resolution/resolvers/ExactMatchTestCommandsStreamResolver.kt:43-50 | the number of commands that are tests, i.e. the length of the filter keeping the tests |
| ExactMatchResolvers.TestCountAppend | plugin-dotnet-agent/src/main/kotlin/jetbrains/buildServer/dotnet/commands/resolution/resolvers/ExactMatchTestCommandsStreamResolver.kt:43-50 | the test counts of two runs of commands add up, so sessions are numbered consecutively across the stream |
| ExactMatchResolvers.Apply | plugin-dotnet-agent/src/main/kotlin/jetbrains/buildServer/dotnet/commands/resolution/resolvers/ExactMatchTestCommandsStreamResolver.kt:43-50 | `apply` over the stream with sessions numbered in order (contract given by ExactMatchResolvers.ApplyIsFlatMap, ExactMatchResolvers.ApplyLength and ExactMatchResolvers.ApplyWithoutTests) |
| ExactMatchResolvers.Expansions | plugin-dotnet-agent/src/main/kotlin/jetbrains/buildServer/dotnet/commands/resolution/resolvers/ExactMatchTestCommandsStreamResolver.kt:43-50 | command i expands to itself, or to its probe and copies with session number the count of tests before it |
| ExactMatchResolvers.ApplyIsFlatMap | plugin-dotnet-agent/src/main/kotlin/jetbrains/buildServer/dotnet/commands/resolution/resolvers/ExactMatchTestCommandsStreamResolver.kt:43-50 | `apply` is the concatenation of the expansions, in order |
| ExactMatchResolvers.ApplyLength | plugin-dotnet-agent/src/main/kotlin/jetbrains/buildServer/dotnet/commands/resolution/resolvers/ExactMatchTestCommandsStreamResolver.kt:43-66 | the output length is n plus the chunk counts of all test commands |
| ExactMatchResolvers.ApplyWithoutTests | plugin-dotnet-agent/src/main/kotlin/jetbrains/buildServer/dotnet/commands/resolution/resolvers/ExactMatchTestCommandsStreamResolver.kt:43-50 | without test commands the stream is unchanged |
| ExactMatchResolvers.Step | plugin-dotnet-agent/src/main/kotlin/jetbrains/buildServer/dotnet/commands/resolution/resolvers/ExactMatchTestCommandsStreamResolver.kt:89-100 | before the marker nothing is saved and capture starts iff the trimmed line is the marker ignoring case; afterwards capture stays on and the trimmed line's whitespace-split tokens are saved |
| ExactMatchResolvers.FeedBeforeMarker | plugin-dotnet-agent/src/main/kotlin/jetbrains/buildServer/dotnet/commands/resolution/resolvers/ExactMatchTestCommandsStreamResolver.kt:91-96 | lines before the marker save nothing and do not start capture |
| ExactMatchResolvers.FeedAfterMarker | plugin-dotnet-agent/src/main/kotlin/jetbrains/buildServer/dotnet/commands/resolution/resolvers/ExactMatchTestCommandsStreamResolver.kt:79-100 | once started, capture never stops and every later line, a repeated marker included, gives up its tokens in order |
| ExactMatchResolvers.FeedAppend | plugin-dotnet-agent/src/main/kotlin/jetbrains/buildServer/dotnet/commands/resolution/resolvers/ExactMatchTestCommandsStreamResolver.kt:81-101 | feeding two runs of lines is feeding their concatenation |
| ExactMatchResolvers.FeedFromFirstMarker | plugin-dotnet-agent/src/main/kotlin/jetbrains/buildServer/dotnet/commands/resolution/resolvers/ExactMatchTestCommandsStreamResolver.kt:89-100 | the saved names are exactly the tokens of the lines after the first marker; the marker itself is not saved |
| ExactMatchResolvers.MarkerIsMarker | plugin-dotnet-agent/src/main/kotlin/jetbrains/buildServer/dotnet/commands/resolution/resolvers/ExactMatchTestCommandsStreamResolver.kt:92-108 | the marker text is recognised as the marker |
| ExactMatchResolvers.SavesExample | plugin-dotnet-agent/src/main/kotlin/jetbrains/buildServer/dotnet/commands/resolution/resolvers/ExactMatchTestCommandsStreamResolver.kt:98-100 | after the marker, lines "A B" and "C" save A, B and C |
| ExactMatchResolvers.TokensOfExample | plugin-dotnet-agent/src/main/kotlin/jetbrains/buildServer/dotnet/commands/resolution/resolvers/ExactMatchTestCommandsStreamResolver.kt:98-100 | the tokens of "A B" and "C" are A, B, C |
| ExactMatchResolvers.ListTestsResultHandler.OnNext | plugin-dotnet-agent/src/main/kotlin/jetbrains/buildServer/dotnet/commands/resolution/resolvers/ExactMatchTestCommandsStreamResolver.kt:81-101 | exit-code events change nothing; every output event is marked Suppressed and advances the state as Step does |
| ExactMatchResolvers.ListTestsResultHandler.SaveAll | plugin-dotnet-agent/src/main/kotlin/jetbrains/buildServer/dotnet/commands/resolution/resolvers/ExactMatchTestCommandsStreamResolver.kt:98-100 | every token is handed to the saver in order |
| Text.Trim | plugin-dotnet-agent/src/main/kotlin/jetbrains/buildServer/dotnet/commands/resolution/resolvers/ExactMatchTestCommandsStreamResolver.kt:89 | `trim()`: a slice of the line with only whitespace before and after it; empty exactly for a blank line, otherwise starting and ending with non-whitespace |
| Text.SplitTrimmedLine | plugin-dotnet-agent/src/main/kotlin/jetbrains/buildServer/dotnet/commands/resolution/resolvers/ExactMatchTestCommandsStreamResolver.kt:98-99 | splitting a trimmed line on `\s+` gives its words, or one empty string for an empty line |
| Text.IntToStringInjective | plugin-dotnet-agent/src/main/kotlin/jetbrains/buildServer/dotnet/DotnetWorkflowAnalyzerImpl.kt:12 | different integers render differently |
| CoverageFilters.GetMask | plugin-dotnet-agent/src/main/kotlin/jetbrains/buildServer/dotcover/CoverageFilterProviderImpl.kt:70-76 | the default mask when the mask is Any, the mask otherwise |
| CoverageFilters.GetMaskIsAny | plugin-dotnet-agent/src/main/kotlin/jetbrains/buildServer/dotcover/CoverageFilterProviderImpl.kt:70-76 | the resolved mask is Any iff the mask and its default are |
| CoverageFilters.ToModuleFilter | plugin-dotnet-agent/src/main/kotlin/jetbrains/buildServer/dotcover/CoverageFilterProviderImpl.kt:78-85 | type, class and function masks kept; default mask Any; module mask resolved against the default |
| CoverageFilters.ToAttributeFilter | plugin-dotnet-agent/src/main/kotlin/jetbrains/buildServer/dotcover/CoverageFilterProviderImpl.kt:87-94 | only type and resolved class mask survive; the other masks are Any |
| CoverageFilters.AddAdditional | plugin-dotnet-agent/src/main/kotlin/jetbrains/buildServer/dotcover/CoverageFilterProviderImpl.kt:61-68 | without the outdated filter nothing changes; with it, one all-Any filter of the type is inserted just before its first occurrence and removing it gives the input back |
| CoverageFilters.AddAdditionalKeepsOther | plugin-dotnet-agent/src/main/kotlin/jetbrains/buildServer/dotcover/CoverageFilterProviderImpl.kt:42-43 | the fix-up for one type keeps the arrangement made for the other |
| CoverageFilters.AppendKeepsArrangement | plugin-dotnet-agent/src/main/kotlin/jetbrains/buildServer/dotcover/CoverageFilterProviderImpl.kt:44 | appending the default excludes keeps the arrangement |
| CoverageFilters.Converted | plugin-dotnet-agent/src/main/kotlin/jetbrains/buildServer/dotcover/CoverageFilterProviderImpl.kt:32-36 | the converted filters in module form, in order; none without a parameter |
| CoverageFilters.FiltersOf | plugin-dotnet-agent/src/main/kotlin/jetbrains/buildServer/dotcover/CoverageFilterProviderImpl.kt:29-46 | the `filters` list as a value (contract given by CoverageFilters.FiltersEndWithDefaultExcludes, CoverageFilters.FiltersWithoutConverted, CoverageFilters.FiltersWithoutOutdated, CoverageFilters.FiltersArrangeOutdated and CoverageFilters.FiltersLength) |
| CoverageFilters.Filters | plugin-dotnet-agent/src/main/kotlin/jetbrains/buildServer/dotcover/CoverageFilterProviderImpl.kt:29-46 | the getter's in-place construction yields `FiltersOf` |
| CoverageFilters.FiltersEndWithDefaultExcludes | plugin-dotnet-agent/src/main/kotlin/jetbrains/buildServer/dotcover/CoverageFilterProviderImpl.kt:44-101 | the list always ends with the three default excludes |
| CoverageFilters.FiltersWithoutConverted | plugin-dotnet-agent/src/main/kotlin/jetbrains/buildServer/dotcover/CoverageFilterProviderImpl.kt:32-97 | without converted filters the list is the include-everything filter and the default excludes |
| CoverageFilters.FiltersWithoutOutdated | plugin-dotnet-agent/src/main/kotlin/jetbrains/buildServer/dotcover/CoverageFilterProviderImpl.kt:42-68 | without outdated filters nothing is inserted |
| CoverageFilters.FiltersArrangeOutdated | plugin-dotnet-agent/src/main/kotlin/jetbrains/buildServer/dotcover/CoverageFilterProviderImpl.kt:42-68 | for Include and Exclude alike, an all-Any filter stands just before the first outdated filter of that type |
| CoverageFilters.FiltersLength | plugin-dotnet-agent/src/main/kotlin/jetbrains/buildServer/dotcover/CoverageFilterProviderImpl.kt:31-45 | the number of converted filters (or 1), plus one per type with an outdated filter, plus 3 |
| CoverageFilters.AttributeFilters | plugin-dotnet-agent/src/main/kotlin/jetbrains/buildServer/dotcover/CoverageFilterProviderImpl.kt:48-103 | the kept filters are exclusions naming a class, followed by exactly the default attribute filter |
| CoverageFilters.AttributeFiltersInOrder | plugin-dotnet-agent/src/main/kotlin/jetbrains/buildServer/dotcover/CoverageFilterProviderImpl.kt:48-59 | the kept filters are the attribute forms of exactly the converted exclusions whose resolved class mask is not Any, in input order, followed by the default attribute filter |
| CoverageFilters.AttributeFilterKept | plugin-dotnet-agent/src/main/kotlin/jetbrains/buildServer/dotcover/CoverageFilterProviderImpl.kt:50-94 | every converted exclusion whose resolved class mask is not Any is kept |
| CmdWorkflowComposers.IsShellScriptIgnoresCase | plugin-dotnet-agent/src/main/kotlin/jetbrains/buildServer/cmd/CmdWorkflowComposer.kt:22-23 | the extension test ignores case |
| CmdWorkflowComposers.ResolvedValues | plugin-dotnet-agent/src/main/kotlin/jetbrains/buildServer/cmd/CmdWorkflowComposer.kt:50 | the resolved executable path and then every resolved argument value |
| CmdWorkflowComposers.CmdArguments | plugin-dotnet-agent/src/main/kotlin/jetbrains/buildServer/cmd/CmdWorkflowComposer.kt:47-52 | exactly "/D", "/C" and one Target argument |
| CmdWorkflowComposers.CmdArgumentsQuoteCommand | plugin-dotnet-agent/src/main/kotlin/jetbrains/buildServer/cmd/CmdWorkflowComposer.kt:51 | the last argument is the combined resolved values wrapped in double quotes |
| CmdWorkflowComposers.Wrap | plugin-dotnet-agent/src/main/kotlin/jetbrains/buildServer/cmd/CmdWorkflowComposer.kt:30-37 | a Host line without base running the resolved `cmd` (or "cmd"), with working directory, environment, title and description of the original |
| CmdWorkflowComposers.Composed | plugin-dotnet-agent/src/main/kotlin/jetbrains/buildServer/cmd/CmdWorkflowComposer.kt:17-44 | off Windows the workflow is returned unchanged |
| CmdWorkflowComposers.ComposeFrom | plugin-dotnet-agent/src/main/kotlin/jetbrains/buildServer/cmd/CmdWorkflowComposer.kt:16-45 | the rewrite of the rest of a workflow given the cached path and the runs so far (contract given by CmdWorkflowComposers.NoScriptsUnchanged, CmdWorkflowComposers.KnownPathRewritesInPlace and CmdWorkflowComposers.ResolutionBeforeScript) |
| CmdWorkflowComposers.Compose | plugin-dotnet-agent/src/main/kotlin/jetbrains/buildServer/cmd/CmdWorkflowComposer.kt:16-45 | the loop with its cached `cmdExecutable` yields the recursive rewrite |
| CmdWorkflowComposers.NoScriptsUnchanged | plugin-dotnet-agent/src/main/kotlin/jetbrains/buildServer/cmd/CmdWorkflowComposer.kt:21-40 | without `.cmd`/`.bat` lines the output is the input, with no resolution lines |
| CmdWorkflowComposers.KnownPathRewritesInPlace | plugin-dotnet-agent/src/main/kotlin/jetbrains/buildServer/cmd/CmdWorkflowComposer.kt:24-39 | once the path is known, each line gives one line in order and resolution never runs again |
| CmdWorkflowComposers.ResolutionBeforeScript | plugin-dotnet-agent/src/main/kotlin/jetbrains/buildServer/cmd/CmdWorkflowComposer.kt:20-37 | while the path is unknown, the lines before the next script pass unchanged, then the resolution lines come, then the rewritten script with the path that run resolved |
| DotnetStateComposers.ObservePath | plugin-dotnet-agent/src/main/kotlin/jetbrains/buildServer/dotnet/DotnetStateWorkflowComposer.kt:43-48 | only a non-blank path seen while none is kept is stored and forwarded |
| DotnetStateComposers.FirstNonBlank | plugin-dotnet-agent/src/main/kotlin/jetbrains/buildServer/dotnet/DotnetStateWorkflowComposer.kt:44 | the first non-blank path, or none exactly when all are blank |
| DotnetStateComposers.ObserveAllAfterKept | plugin-dotnet-agent/src/main/kotlin/jetbrains/buildServer/dotnet/DotnetStateWorkflowComposer.kt:44 | once a path is kept later paths change nothing |
| DotnetStateComposers.ObserveAllKeepsFirstNonBlank | plugin-dotnet-agent/src/main/kotlin/jetbrains/buildServer/dotnet/DotnetStateWorkflowComposer.kt:38-48 | the observer keeps and forwards exactly the first non-blank path |
| DotnetStateComposers.PathObserver.OnNext | plugin-dotnet-agent/src/main/kotlin/jetbrains/buildServer/dotnet/DotnetStateWorkflowComposer.kt:43-48 | the closure's update of the captured `virtualPath` |
| DotnetStateComposers.PathObserver.OnEach | plugin-dotnet-agent/src/main/kotlin/jetbrains/buildServer/dotnet/DotnetStateWorkflowComposer.kt:43-51 | a run of reported paths updates the observer as the fold does |
| DotnetStateComposers.ForwardedVersions | plugin-dotnet-agent/src/main/kotlin/jetbrains/buildServer/dotnet/DotnetStateWorkflowComposer.kt:59-63 | the forwarded versions are exactly the non-Empty parses of single output lines |
| DotnetStateComposers.ForwardedVersionsAppend | plugin-dotnet-agent/src/main/kotlin/jetbrains/buildServer/dotnet/DotnetStateWorkflowComposer.kt:59-63 | one more output line forwards its parsed version after the earlier ones unless it parses to Empty: one version per non-Empty line, in line order |
| DotnetStateComposers.VersionProbe | plugin-dotnet-agent/src/main/kotlin/jetbrains/buildServer/dotnet/DotnetStateWorkflowComposer.kt:65-76 | no base, target SystemDiagnostics, argument "--version" only, title "dotnet --version" and the fixed description |
| DotnetStateComposers.Compose | plugin-dotnet-agent/src/main/kotlin/jetbrains/buildServer/dotnet/DotnetStateWorkflowComposer.kt:36-78 | `compose` (contract given by DotnetStateComposers.ComposeLayout and DotnetStateComposers.ComposeEndsWithProbe) |
| DotnetStateComposers.ComposeLayout | plugin-dotnet-agent/src/main/kotlin/jetbrains/buildServer/dotnet/DotnetStateWorkflowComposer.kt:39-56 | resolution lines of every composer in order iff virtual without home paths; without a version observer nothing else, otherwise exactly one more line |
| DotnetStateComposers.ComposeEndsWithProbe | plugin-dotnet-agent/src/main/kotlin/jetbrains/buildServer/dotnet/DotnetStateWorkflowComposer.kt:65-76 | the last line is the probe running the first non-blank resolved path, or the tool's virtual path |
| ExecutionAdapters.HasDiagnostics | plugin-dotnet-agent/src/main/kotlin/jetbrains/buildServer/agent/runner/CommandExecutionAdapter.kt:117 | some line of the chain targets SystemDiagnostics |
| ExecutionAdapters.StrategyOf | plugin-dotnet-agent/src/main/kotlin/jetbrains/buildServer/agent/runner/CommandExecutionAdapter.kt:115-119 | HiddenInBuildLog iff some line of the chain is diagnostic, otherwise default |
| ExecutionAdapters.AllowMessagesGuard | plugin-dotnet-agent/src/main/kotlin/jetbrains/buildServer/agent/runner/CommandExecutionAdapter.kt:42-45 | the guard is off iff the parameter is present and not "true" ignoring case |
| ExecutionAdapters.OutputReplacer | plugin-dotnet-agent/src/main/kotlin/jetbrains/buildServer/agent/runner/CommandExecutionAdapter.kt:46 | the messages guard when allowed, otherwise the identity |
| ExecutionAdapters.TextEntries | plugin-dotnet-agent/src/main/kotlin/jetbrains/buildServer/agent/runner/CommandExecutionAdapter.kt:121-131 | default: one standard line per replaced line; hidden: the text as one trace line |
| ExecutionAdapters.StyledEntries | plugin-dotnet-agent/src/main/kotlin/jetbrains/buildServer/agent/runner/CommandExecutionAdapter.kt:133-141 | default: the styled fragments; hidden: one trace line of the texts joined by " " |
| ExecutionAdapters.MessageEntries | plugin-dotnet-agent/src/main/kotlin/jetbrains/buildServer/agent/runner/CommandExecutionAdapter.kt:149-154 | default: passed to the build's logger; hidden: traced when present, dropped when null |
| ExecutionAdapters.HiddenWritesOnlyTrace | plugin-dotnet-agent/src/main/kotlin/jetbrains/buildServer/agent/runner/CommandExecutionAdapter.kt:121-154 | a hidden invocation's text, styled output and messages are all trace entries |
| CommandLines.Chain | plugin-dotnet-agent/src/main/kotlin/jetbrains/buildServer/agent/runner/CommandExecutionAdapter.kt:66-79 | the line and then its bases, outermost first, ending at the line without a base |
| ExecutionAdapters.StartingEntriesFollowChain | plugin-dotnet-agent/src/main/kotlin/jetbrains/buildServer/agent/runner/CommandExecutionAdapter.kt:66-79 | one "Starting: …" entry per line of the chain, outermost first |
| ExecutionAdapters.TitleEntries | plugin-dotnet-agent/src/main/kotlin/jetbrains/buildServer/agent/runner/CommandExecutionAdapter.kt:57-64 | a non-blank title opens a block by default and is traced when hidden; a blank one does nothing |
| ExecutionAdapters.InterruptRequested | plugin-dotnet-agent/src/main/kotlin/jetbrains/buildServer/agent/runner/CommandExecutionAdapter.kt:108 | always kill the process tree |
| ExecutionAdapters.CommandExecutionAdapter.constructor | plugin-dotnet-agent/src/main/kotlin/jetbrains/buildServer/agent/runner/CommandExecutionAdapter.kt:38-46 | the empty NotApplicable command line, no block, and the replacer chosen by the guard |
| ExecutionAdapters.CommandExecutionAdapter.Create | plugin-dotnet-agent/src/main/kotlin/jetbrains/buildServer/agent/runner/CommandExecutionAdapter.kt:48-52 | stores the command line and observer, nothing else changes |
| ExecutionAdapters.CommandExecutionAdapter.WriteText | plugin-dotnet-agent/src/main/kotlin/jetbrains/buildServer/agent/runner/CommandExecutionAdapter.kt:121-131 | appends TextEntries for the current strategy |
| ExecutionAdapters.CommandExecutionAdapter.WriteStyled | plugin-dotnet-agent/src/main/kotlin/jetbrains/buildServer/agent/runner/CommandExecutionAdapter.kt:133-141 | appends StyledEntries for the current strategy |
| ExecutionAdapters.CommandExecutionAdapter.ProcessStarted | plugin-dotnet-agent/src/main/kotlin/jetbrains/buildServer/agent/runner/CommandExecutionAdapter.kt:56-83 | appends the title entries, then the starting entries of the chain, then the directory entry; a block is opened only for a non-blank title by default |
| ExecutionAdapters.CommandExecutionAdapter.WriteTitle | plugin-dotnet-agent/src/main/kotlin/jetbrains/buildServer/agent/runner/CommandExecutionAdapter.kt:57-64 | the title part of `processStarted` |
| ExecutionAdapters.CommandExecutionAdapter.WriteStarting | plugin-dotnet-agent/src/main/kotlin/jetbrains/buildServer/agent/runner/CommandExecutionAdapter.kt:66-79 | the `while` walk down the bases writes the chain's starting entries |
| ExecutionAdapters.CommandExecutionAdapter.OnStandardOutput | plugin-dotnet-agent/src/main/kotlin/jetbrains/buildServer/agent/runner/CommandExecutionAdapter.kt:92-98 | the observer receives the line with the command line's id first; it is logged only if not suppressed |
| ExecutionAdapters.CommandExecutionAdapter.OnErrorOutput | plugin-dotnet-agent/src/main/kotlin/jetbrains/buildServer/agent/runner/CommandExecutionAdapter.kt:100-106 | the observer receives a separate event without id; every error line is logged as a warning |
| ExecutionAdapters.CommandExecutionAdapter.ProcessFinished | plugin-dotnet-agent/src/main/kotlin/jetbrains/buildServer/agent/runner/CommandExecutionAdapter.kt:85-88 | exactly one exit-code event with the command line's id, then the block is closed if one was opened |
| ExecutionAdapters.CommandExecutionAdapter.Message | plugin-dotnet-agent/src/main/kotlin/jetbrains/buildServer/agent/runner/CommandExecutionAdapter.kt:149-154 | appends MessageEntries for the current strategy |
| WorkflowAnalyzers.ProblemIdentityInjective | plugin-dotnet-agent/src/main/kotlin/jetbrains/buildServer/dotnet/DotnetWorkflowAnalyzerImpl.kt:12 | different exit codes give different problem identities |
| WorkflowAnalyzers.RegisterWrites | plugin-dotnet-agent/src/main/kotlin/jetbrains/buildServer/dotnet/DotnetWorkflowAnalyzerImpl.kt:10-19 | Fail gives exactly the exit-code build problem; otherwise FailedTests gives one error line; a build problem only with Fail |
| WorkflowAnalyzers.Kept | plugin-dotnet-agent/src/main/kotlin/jetbrains/buildServer/dotnet/DotnetWorkflowAnalyzerImpl.kt:13-14 | the kept results hold no Fail |
| WorkflowAnalyzers.SummaryWrites | plugin-dotnet-agent/src/main/kotlin/jetbrains/buildServer/dotnet/DotnetWorkflowAnalyzerImpl.kt:21-31 | nothing on no results; otherwise one message iff the last result lacks FailedTests and some result has it |
| WorkflowAnalyzers.AnyFailedTests | plugin-dotnet-agent/src/main/kotlin/jetbrains/buildServer/dotnet/DotnetWorkflowAnalyzerImpl.kt:27 | `any` holds iff some result has FailedTests |
| WorkflowAnalyzers.WorkflowAnalyzer.RegisterResult | plugin-dotnet-agent/src/main/kotlin/jetbrains/buildServer/dotnet/DotnetWorkflowAnalyzerImpl.kt:10-19 | writes RegisterWrites; the result is added to the context iff it lacks Fail |
| WorkflowAnalyzers.WorkflowAnalyzer.Summarize | plugin-dotnet-agent/src/main/kotlin/jetbrains/buildServer/dotnet/DotnetWorkflowAnalyzerImpl.kt:21-31 | writes SummaryWrites of the context's results |
| WorkflowAnalyzers.KeptAppend | plugin-dotnet-agent/src/main/kotlin/jetbrains/buildServer/dotnet/DotnetWorkflowAnalyzerImpl.kt:13-14 | registering in order keeps exactly the results without Fail |
| WorkflowAnalyzers.ProblemsOfRegistrations | plugin-dotnet-agent/src/main/kotlin/jetbrains/buildServer/dotnet/DotnetWorkflowAnalyzerImpl.kt:11-12 | a build problem is written for exactly the results holding Fail, each with its own exit code |
| PropertiesExtensions.PutLine | plugin-dotnet-agent/src/main/kotlin/jetbrains/buildServer/agent/PropertiesExtension.kt:36-41 | a warning iff the name is already present, information otherwise |
| PropertiesExtensions.MergeLog | plugin-dotnet-agent/src/main/kotlin/jetbrains/buildServer/agent/PropertiesExtension.kt:33-44 | one log line per property, none of them a debug line |
| PropertiesExtensions.ProviderLog | plugin-dotnet-agent/src/main/kotlin/jetbrains/buildServer/agent/PropertiesExtension.kt:32-48 | one line per property, plus one debug line iff the enumeration raises |
| PropertiesExtensions.Merge | plugin-dotnet-agent/src/main/kotlin/jetbrains/buildServer/agent/PropertiesExtension.kt:33-44 | the map after one provider's properties are put in order (contract given by PropertiesExtensions.MergeKeys, PropertiesExtensions.MergeLastWins, PropertiesExtensions.MergeKeepsOthers and PropertiesExtensions.MergeAppend) |
| PropertiesExtensions.MergeKeys | plugin-dotnet-agent/src/main/kotlin/jetbrains/buildServer/agent/PropertiesExtension.kt:33-44 | a name is a key after merging iff it was one before or some property has it |
| PropertiesExtensions.MergeLastWins | plugin-dotnet-agent/src/main/kotlin/jetbrains/buildServer/agent/PropertiesExtension.kt:43 | a name's value is the one of its last write |
| PropertiesExtensions.MergeKeepsOthers | plugin-dotnet-agent/src/main/kotlin/jetbrains/buildServer/agent/PropertiesExtension.kt:43 | a name no property has keeps its value |
| PropertiesExtensions.MergeAppend | plugin-dotnet-agent/src/main/kotlin/jetbrains/buildServer/agent/PropertiesExtension.kt:33 | properties are applied in sequence order: writing two runs is writing their concatenation |
| PropertiesExtensions.MergeLogWarns | plugin-dotnet-agent/src/main/kotlin/jetbrains/buildServer/agent/PropertiesExtension.kt:36-41 | a write logs a warning iff its name was present before, even with an equal value |
| PropertiesExtensions.MergeAll | plugin-dotnet-agent/src/main/kotlin/jetbrains/buildServer/agent/PropertiesExtension.kt:16-28 | the map after every provider, in order (contract given by PropertiesExtensions.MergeAllIsMerge and PropertiesExtensions.RaisingKeepsEarlierEntries) |
| PropertiesExtensions.MergeAllIsMerge | plugin-dotnet-agent/src/main/kotlin/jetbrains/buildServer/agent/PropertiesExtension.kt:20-24 | merging provider by provider is merging all their properties in order, so the key set is the union of all names and each value the last written |
| PropertiesExtensions.RaisingKeepsEarlierEntries | plugin-dotnet-agent/src/main/kotlin/jetbrains/buildServer/agent/PropertiesExtension.kt:32-48 | a provider that raises keeps what it wrote and does not affect the others |
| PropertiesExtensions.MergeExample | plugin-dotnet-agent/src/test/kotlin/jetbrains/buildServer/dotnet/test/agent/PropertiesExtensionTest.kt:57-72 | providers {prop1, prop} and {prop, prop2} with the same value for prop give exactly three keys |
| PropertiesExtensions.PropertiesExtension.FetchProperties | plugin-dotnet-agent/src/main/kotlin/jetbrains/buildServer/agent/PropertiesExtension.kt:30-50 | the map after the loop is Merge of the yielded properties, and the log gets ProviderLog |
| PropertiesExtensions.PropertiesExtension.GetParameters | plugin-dotnet-agent/src/main/kotlin/jetbrains/buildServer/agent/PropertiesExtension.kt:16-28 | the result is MergeAll of all providers, fetched one after another |

## Left out

- Concurrency: `PropertiesExtension` fetches the providers in parallel under a lock. The model folds them in list order, so it does not capture the order nondeterminism.
- `infoBlock`/`debugBlock` of `PropertiesExtension` and the exception object passed to `debug` are not modelled; the log holds the warn, info and debug messages only.
- A provider's enumeration is modelled by the properties it yields before it ends, and whether it ends by raising. Where inside the enumeration the exception occurs is therefore not a separate input.
- The agent API's `TerminationAction` enum is not part of this model; `TerminationAction` here lists the three answers that API offers (no action, kill the child, kill the process tree).
- DotnetCommandSets.Composite: `CompositeCommand` does not override `commandWords`, so it takes the default of the `DotnetCommand` interface, which is not part of this model. The model gives the composite the wrapped command's words; `ComposedResolvers.Composed` reads them.
- ExecutionAdapters.CommandExecutionAdapter.OnErrorOutput: `CommandResultOutput` is not part of this model. The event that `onErrorOutput` sends is `CommandResultOutput(error)` with its other arguments left to their defaults; the model takes the default id to be none, and the default attributes to be empty.
- Tools.TypeName, Tools.PlatformName and Tools.BitnessName: the enums `ToolType`, `ToolPlatform` and `ToolBitness` are not part of this model. The identifier template renders each of them through its string form, which the model takes to be the constant's name (`TypeName`, `PlatformName`, `BitnessName`).
- `AgentProperty`'s tool type is not read by the merge and is not modelled.
- Laziness of Kotlin sequences: workflows and streams are finite `seq`s. `session.chunksCount` is an input per session. Sessions are numbered in the order the test commands are transformed.
- The saver, the session manager and their `use` disposal are not modelled; the names handed to `tryToSave` are a trace.
- The resolved path of `cmd` after the k-th run of the resolution workflow is an input (`resolvedAfter`), because it is set by workflows that run outside the composer.
- CmdWorkflowComposers.Wrap: the rewritten line's `Id` comes from an input (`newId`), because `CommandLine` allocates it and its definition is not part of this model.
- `CommandLine.chain` is taken to be the line followed by its bases.
- The observer of the execution adapter is modelled by the output lines it marks Suppressed. Other effects of the observer that run inside `onNext` are not modelled.
- `beforeProcessStarted`, `makeProgramCommandLine`, `isCommandLineLoggingEnabled`, `getFlowId` and the unused parameters of `processStarted` are not modelled.
- ExecutionAdapters.CommandExecutionAdapter.ProcessFinished: disposing the block token is modelled as one BlockClosed entry; the empty token of the source is modelled as none.
- The presentation service, the output replacer and the messages guard are opaque functions.
- `CoverageFilter.Any` is not defined in the source files of this model. Its value is taken to be "*". Only its distinctness from "*.*", from the default module and class names and from the class mask of kept attribute filters matters.
- The converter of dotCover filter strings is an opaque function.
- `CommandResult` holds more values than `Fail` and `FailedTests`; those are modelled as one opaque constructor, since the analyzer reads no others.
- `BuildProblemData.TC_EXIT_CODE_TYPE` is an opaque constant.
- The `Version` values other than `Empty` are opaque, and the version parser is an input.
- `toLowerCase` and `equals(ignoreCase = true)` are modelled on ASCII letters only.
- `isBlank` is modelled with Kotlin's `Char.isWhitespace` code points, and the regular expression `\s` with its six ASCII characters.
- The test-to-test-assembly swap expected at plugin-dotnet-agent/src/test/kotlin/jetbrains/buildServer/dotnet/test/dotnet/DotnetCommandSetTest.kt:112-144 has no counterpart in `DotnetCommandSet`, so it is not modelled.

## Findings

| source | as written | input that shows it | evidently intended | confidence | as-written member | corrected member |
|---|---|---|---|---|---|---|
| plugin-dotnet-common/src/main/kotlin/jetbrains/buildServer/dotnet/Platform.kt:9-11 | `values().singleOrNull()` takes no predicate, and there are three values, so it always returns null | `tryParse("x86")` returns null | the one platform whose identifier equals the input ignoring case, as `Tool.tryParse` does | high, not executed | Platforms.TryParseAsWritten (with TryParseAsWrittenRejectsIds) | Platforms.TryParse (with TryParseRoundTrip) |
