# Flex build step: scope resolution, validation and task planning

This project models the core of the IntelliJ Flex plugin's build step,
`FlexCompiler`. Given a compile scope, there are three steps:

1. Resolve the scope to (module, build configuration) pairs, called "BC"
   pairs below:
   - an explicit list of pairs, with debug-forced copies;
   - the pair a Flash or FlexUnit run configuration is bound to;
   - every non-skipped BC of the affected Flex modules.

   The first two are closed under BC dependency entries.
2. Validate every pair:
   - SDK, additional configuration file, main class, output file and folder;
   - HTML wrapper template, runtime style sheets, files to include in a SWC;
   - AIR packaging for desktop, Android and iOS;
   - no two pairs writing the same output file.
3. Plan the compilation:
   - one task per pair, plus one per existing runtime style sheet;
   - each task's dependency BCs;
   - the choice between the built-in compiler and mxmlc/compc;
   - the per-module lists of BCs with resource files.

How the code is organised:

- **Imperative Dafny where the source mutates state.**
  - The resolved set is a `PairSet` class, since the source's `HashSet` is added to in place.
  - The output-path map is an `OutputPathMap` class.
  - The problem sink is a sequence that methods append to.
  - The source's loops are `while`/`for` loops with invariants.
- **Specification functions.** Each method is proved equal to a specification function, or to a predicate characterising its result, such as a dependency closure. The lemmas prove what the source promises about those functions.
- **Modules:**

| Module | Contents |
|---|---|
| `Wrappers` | `Option` and `Result` |
| `Strings` | lowercasing, suffixes, paths, option tokens |
| `BuildModel` | BCs, modules, the project, dependency lookup, problems, the outside world |
| `ScopeResolution` | debug-forced copies, the dependency closure, the three scope forms |
| `Validation` | `checkConfiguration`, `checkPackagingOptions`, `checkDependencyType` |
| `ValidationProperties` | which rule reports which problem, exactly when |
| `OutputConflicts` | `checkSimilarOutputFiles` / `checkOutputPathUnique` |
| `ProjectValidation` | `validateConfiguration` |
| `CompilationPlanning` | the task list of `process`, `getSdkIfSame`, `mapModuleToBCsWithResourceFiles`, `isSourceFile` |

The outside world is passed in as an `Env` value. It holds:

- the file system, as sets of existing files and directories;
- the parsed compiler configuration files, by path;
- the source and content roots of files;
- the BC natures for which `BCUtils` allows runtime style sheets and resource files.

Four more inputs are passed as parameters:

- whether the file system is case sensitive;
- the AIR package parameters;
- the compiler settings;
- what a run configuration's `checkAndGetModuleAndBC` answers.

### Behaviour of the code worth noting

- **No `LoadInRuntime` filter in the closure.** The dependency closure of a scope does not filter `LoadInRuntime` entries. Only the per-task dependency set in `process` drops them.
- **The explicit list drops skip-compile pairs.** A skip-compile pair of the list adds neither itself nor its dependencies.
- **The result holds the copy.** What enters the result is the debug-forced copy, but dependencies are expanded from the original BC.
- **Conflicts name the previous claimant.** A conflict is reported on every collision, against the most recent earlier claimant of the path. That is not always the first claimant.
- **Style-sheet output folders use the actual output path.** The output folder of a style sheet's BC comes from the parent of the parent BC's actual output file path. It is not the configured output folder.
- **Only mobile BCs can get debug.** A BC that is not mobile always gets `-debug=false`.

## Model

All source paths are in `flex/src/com/intellij/lang/javascript/flex/build/`.

| member | source | states |
|---|---|---|
| BuildModel.Lookup | flex/src/com/intellij/lang/javascript/flex/build/FlexCompiler.java:397-398 | a found dependency target is a pair of the project whose module and BC carry the names the entry gives |
| ScopeResolution.ForceDebugStatus | flex/src/com/intellij/lang/javascript/flex/build/FlexCompiler.java:366-388 | the copy differs from the BC only in its additional options; their tokens are the original tokens without any debug or compiler.debug setting, followed by one `-debug=` token with the decided status |
| ScopeResolution.ForcedDebugFlagIsAuthoritative | flex/src/com/intellij/lang/javascript/flex/build/FlexCompiler.java:366-388 | in the copy's options exactly one token sets debug and it is the last; it is `-debug=true` exactly for a mobile BC whose Android packaging is enabled and not a release package, or whose Android packaging is off and whose iOS package type is debug-over-network |
| ScopeResolution.PairSet.constructor | flex/src/com/intellij/lang/javascript/flex/build/FlexCompiler.java:311 | the result set starts empty |
| ScopeResolution.PairSet.Add | flex/src/com/intellij/lang/javascript/flex/build/FlexCompiler.java:407 | the pair is in the set afterwards, nothing else changes, and the answer is true exactly when it was new |
| ScopeResolution.AppendEntryDependencies | flex/src/com/intellij/lang/javascript/flex/build/FlexCompiler.java:394-410 | the set only grows; on success the entry resolves and its non-skipped target is in the set, and every pair added is a non-skipped pair of the project, reached from the owner, whose entries resolve into the set; on failure the error is a dangling entry of the owner or of a BC reached from it |
| ScopeResolution.AppendBCDependencies | flex/src/com/intellij/lang/javascript/flex/build/FlexCompiler.java:390-413 | the set only grows and the recursion terminates on cycles; on success every entry of the BC resolves with non-skipped targets in the set, and every added pair is non-skipped, reached from the BC and has its own dependencies in the set; on failure the error names a dangling entry reachable from the BC |
| ScopeResolution.ClosureContainsReachable | flex/src/com/intellij/lang/javascript/flex/build/FlexCompiler.java:390-413 | a resolved set holds every pair reachable from the roots along resolving, non-skipped entries |
| ScopeResolution.DepsInGivesSuccs | flex/src/com/intellij/lang/javascript/flex/build/FlexCompiler.java:390-413 | a set into which the roots' and its own entries all resolve is closed under the dependency relation |
| ScopeResolution.ClosureIsUnique | flex/src/com/intellij/lang/javascript/flex/build/FlexCompiler.java:390-413 | for given roots and seeds there is only one resolved set, so any order of expansion gives the same result |
| ScopeResolution.ResolveExplicitList | flex/src/com/intellij/lang/javascript/flex/build/FlexCompiler.java:315-322 | on success the answer is the closure of the listed non-skipped pairs, seeded with their debug-forced copies; on failure it is a dangling entry reached from those pairs |
| ScopeResolution.ResolveRunConfiguration | flex/src/com/intellij/lang/javascript/flex/build/FlexCompiler.java:324-350 | a binding error becomes a configuration error naming the run configuration; otherwise the answer is the closure of the bound pair (empty when it is skip-compile) or a dangling entry reached from it |
| ScopeResolution.ResolveAffectedModules | flex/src/com/intellij/lang/javascript/flex/build/FlexCompiler.java:352-361 | exactly the non-skipped BCs of the Flex modules among the affected ones, with no dependency expansion |
| ScopeResolution.GetModulesAndBCsToCompile | flex/src/com/intellij/lang/javascript/flex/build/FlexCompiler.java:308-364 | an explicit list takes precedence over a Flash or FlexUnit run configuration, which takes precedence over the affected modules; each branch has the outcome stated above |
| Validation.CheckDependencyType | flex/src/com/intellij/lang/javascript/flex/build/FlexCompiler.java:694-715 | a dependency is allowed exactly when it is no application, is loaded at runtime exactly when it is a runtime-loaded module, uses a SWC linkage otherwise, and a runtime-loaded module is depended on only by an application; an allowed linkage is never Default or Test |
| Validation.CheckGeneralOptions | flex/src/com/intellij/lang/javascript/flex/build/FlexCompiler.java:421-448 | yields the settings read from the configuration file (the default when none is set or the BC is a temporary copy) and the SDK, additional configuration file and main class problems, each reported exactly when SdkRule, ConfigFileRule and MainClassRule say |
| Validation.CheckOutput | flex/src/com/intellij/lang/javascript/flex/build/FlexCompiler.java:450-478 | reports exactly the output file and folder problems: an unset name (OutputNameRules), a wrong extension (OutputExtensionRules) and an unset or relative folder (OutputFolderRules), all only when the configuration file sets no output |
| Validation.CheckHtmlWrapper | flex/src/com/intellij/lang/javascript/flex/build/FlexCompiler.java:480-516 | reports exactly the HTML template folder problems, which HtmlWrapperRules characterises: at most one, and only for a web application that uses the wrapper |
| Validation.CheckRuntimeStylesheets | flex/src/com/intellij/lang/javascript/flex/build/FlexCompiler.java:518-531 | reports exactly the specified problems of each style sheet, in list order |
| Validation.CheckFilesToIncludeInSwc | flex/src/com/intellij/lang/javascript/flex/build/FlexCompiler.java:533-541 | reports exactly the specified missing files, in list order |
| Validation.CheckConfiguration | flex/src/com/intellij/lang/javascript/flex/build/FlexCompiler.java:415-550 | the problems are those of the rules in source order, with packaging last and only when asked for |
| Validation.CheckPackagingOptions | flex/src/com/intellij/lang/javascript/flex/build/FlexCompiler.java:575-589 | reports exactly the packaging problems of the BC's platform: those of the desktop options for a desktop application, of the enabled Android and iOS options for a mobile one, none otherwise (PackagingMembership) |
| Validation.CheckAirPackagingOptions | flex/src/com/intellij/lang/javascript/flex/build/FlexCompiler.java:591-692 | reports exactly the descriptor, package file name, files to package, provisioning and keystore problems for the device, each reported exactly when DescriptorRules, PackageFileNameRule, FilesToPackageProblemsReported with FilesToPackageProblemJustified, FileToPackageRules, ProvisioningRules and KeystoreRules say |
| Validation.CheckFilesToPackage | flex/src/com/intellij/lang/javascript/flex/build/FlexCompiler.java:621-654 | reports exactly each entry's specified problems, in entry order |
| Validation.CheckFileToPackage | flex/src/com/intellij/lang/javascript/flex/build/FlexCompiler.java:622-653 | reports exactly one entry's specified problems |
| Validation.CheckSigning | flex/src/com/intellij/lang/javascript/flex/build/FlexCompiler.java:656-691 | reports exactly the provisioning profile problems, then the keystore problems; when each is reported is stated by ProvisioningRules and KeystoreRules |
| ValidationProperties.SdkRule | flex/src/com/intellij/lang/javascript/flex/build/FlexCompiler.java:421-425 | "SDK not set" is reported exactly when the BC has no SDK |
| ValidationProperties.MainClassRule | flex/src/com/intellij/lang/javascript/flex/build/FlexCompiler.java:442-448 | "main class not set" is reported exactly when the BC is no library and neither the configuration file nor the BC names a main class |
| ValidationProperties.ConfigFileRule | flex/src/com/intellij/lang/javascript/flex/build/FlexCompiler.java:429-440 | "additional configuration file not found" is reported exactly when its path is set and names no file or a directory, and it is the only problem at that location |
| ValidationProperties.GeneralRulesAt | flex/src/com/intellij/lang/javascript/flex/build/FlexCompiler.java:421-448 | each of the SDK, configuration file and main class rules reports only under its own category and location |
| ValidationProperties.OutputRulesAt | flex/src/com/intellij/lang/javascript/flex/build/FlexCompiler.java:450-478 | the output rules report only at the output file name and folder of the BC's general options |
| ValidationProperties.OutputRulesNeedNoConfigOutput | flex/src/com/intellij/lang/javascript/flex/build/FlexCompiler.java:450-478 | when the configuration file sets an output file name or folder, no output file or folder problem is reported at all |
| ValidationProperties.OutputExtensionRules | flex/src/com/intellij/lang/javascript/flex/build/FlexCompiler.java:457-467 | the wrong .swf extension is reported exactly for a non-library whose name does not end in .swf, the wrong .swc extension exactly for a library whose name does not end in .swc, ignoring case |
| ValidationProperties.ExtensionRule | flex/src/com/intellij/lang/javascript/flex/build/FlexCompiler.java:457-467 | the same for the whole of checkConfiguration, and the two extension problems never come together |
| ValidationProperties.OutputFolderRules | flex/src/com/intellij/lang/javascript/flex/build/FlexCompiler.java:469-477 | "folder not set" exactly for an empty folder and "folder not absolute" exactly for a non-empty relative one, both only when the configuration file sets no output; no other folder problem exists |
| ValidationProperties.OutputFolderRulesExclusive | flex/src/com/intellij/lang/javascript/flex/build/FlexCompiler.java:469-477 | the same for the whole of checkConfiguration, so the two folder problems are mutually exclusive |
| ValidationProperties.OutputNameRules | flex/src/com/intellij/lang/javascript/flex/build/FlexCompiler.java:450-467 | "output file name not set" is reported exactly when the configuration file sets no output and the name is empty; such a name is also reported as having the wrong extension |
| ValidationProperties.OutputNameRule | flex/src/com/intellij/lang/javascript/flex/build/FlexCompiler.java:450-467 | the same for the whole of checkConfiguration |
| ValidationProperties.HtmlWrapperRules | flex/src/com/intellij/lang/javascript/flex/build/FlexCompiler.java:480-497 | for a web application using the wrapper: "folder not set" exactly for an empty path, "folder not found" exactly when the path names no directory, "no index.template.html" exactly when the directory lacks that file; at most one problem, and none for other BCs |
| ValidationProperties.HtmlWrapperRule | flex/src/com/intellij/lang/javascript/flex/build/FlexCompiler.java:480-497 | the same three rules for the whole of checkConfiguration |
| ValidationProperties.HtmlRuleOwns | flex/src/com/intellij/lang/javascript/flex/build/FlexCompiler.java:480-497 | an HTML template problem is reported by checkConfiguration exactly when the HTML wrapper rule reports it |
| ValidationProperties.HtmlWrapperRuleAt | flex/src/com/intellij/lang/javascript/flex/build/FlexCompiler.java:480-516 | the HTML wrapper rule reports only at the HTML template path |
| ValidationProperties.StylesheetProblemsAt | flex/src/com/intellij/lang/javascript/flex/build/FlexCompiler.java:518-531 | style sheet problems are at the runtime style sheets location, at most one per style sheet |
| ValidationProperties.StylesheetProblemsReported | flex/src/com/intellij/lang/javascript/flex/build/FlexCompiler.java:518-531 | every problem of any one style sheet is reported |
| ValidationProperties.StylesheetProblemJustified | flex/src/com/intellij/lang/javascript/flex/build/FlexCompiler.java:518-531 | every reported style sheet problem has its reason in some listed style sheet |
| ValidationProperties.StylesheetRuleReportsNonCss | flex/src/com/intellij/lang/javascript/flex/build/FlexCompiler.java:518-524 | a listed style sheet is reported as no .css file exactly when the BC can have runtime style sheets and its name does not end in .css, ignoring case |
| ValidationProperties.RuntimeStylesheetRule | flex/src/com/intellij/lang/javascript/flex/build/FlexCompiler.java:518-524 | the same for the whole of checkConfiguration |
| ValidationProperties.SwcIncludeProblemsAt | flex/src/com/intellij/lang/javascript/flex/build/FlexCompiler.java:533-541 | SWC include problems are at the files-to-include location, at most one per file |
| ValidationProperties.SwcIncludeProblemsReported | flex/src/com/intellij/lang/javascript/flex/build/FlexCompiler.java:533-541 | every missing file is reported |
| ValidationProperties.SwcIncludeProblemJustified | flex/src/com/intellij/lang/javascript/flex/build/FlexCompiler.java:533-541 | every reported file is one of the list and missing |
| ValidationProperties.SwcRuleReportsMissing | flex/src/com/intellij/lang/javascript/flex/build/FlexCompiler.java:533-541 | a listed file is reported exactly when the BC is a library and the file does not exist |
| ValidationProperties.SwcIncludeRule | flex/src/com/intellij/lang/javascript/flex/build/FlexCompiler.java:533-541 | the same for the whole of checkConfiguration |
| ValidationProperties.LoopRulesAt | flex/src/com/intellij/lang/javascript/flex/build/FlexCompiler.java:518-541 | the style sheet and SWC include rules each report only under their own category and location |
| ValidationProperties.PackageNamingProblemsAt | flex/src/com/intellij/lang/javascript/flex/build/FlexCompiler.java:598-619 | descriptor problems are at the custom descriptor and package name problems at the package file name, in the device's packaging category |
| ValidationProperties.FileToPackageProblemsAt | flex/src/com/intellij/lang/javascript/flex/build/FlexCompiler.java:621-654 | one entry yields at most three problems, all at files to package |
| ValidationProperties.FilesToPackageProblemsAt | flex/src/com/intellij/lang/javascript/flex/build/FlexCompiler.java:621-654 | the files to package yield at most three problems per entry, all at files to package |
| ValidationProperties.FilesToPackageProblemsReported | flex/src/com/intellij/lang/javascript/flex/build/FlexCompiler.java:621-654 | every problem of any one entry is reported |
| ValidationProperties.FilesToPackageProblemJustified | flex/src/com/intellij/lang/javascript/flex/build/FlexCompiler.java:621-654 | every files-to-package problem is a problem of one of the entries |
| ValidationProperties.EmptyFileNameReportedAlone | flex/src/com/intellij/lang/javascript/flex/build/FlexCompiler.java:628-631 | an entry with an empty file path yields the empty file name problem and nothing else |
| ValidationProperties.LeadingSlashStripped | flex/src/com/intellij/lang/javascript/flex/build/FlexCompiler.java:623-644 | for a named file, the empty relative path is reported exactly when the path in package is empty or a single slash |
| ValidationProperties.DirectoryMustEndWithPathInPackage | flex/src/com/intellij/lang/javascript/flex/build/FlexCompiler.java:646-652 | the path mismatch is reported exactly when the file is an existing directory whose path does not end with "/" and the stripped path in package |
| ValidationProperties.MissingFileIsNoDirectory | flex/src/com/intellij/lang/javascript/flex/build/FlexCompiler.java:633-652 | a missing file is reported as not found and never as a path mismatch |
| ValidationProperties.FileToPackageRules | flex/src/com/intellij/lang/javascript/flex/build/FlexCompiler.java:628-637 | "empty file name" exactly for an entry without a path, and "file not found" exactly for the entry's set path when it does not exist |
| ValidationProperties.SigningProblemsAt | flex/src/com/intellij/lang/javascript/flex/build/FlexCompiler.java:656-691 | provisioning problems are at the provisioning profile and keystore problems at the keystore |
| ValidationProperties.IosSigning | flex/src/com/intellij/lang/javascript/flex/build/FlexCompiler.java:656-691 | for iOS a missing keystore and a missing provisioning profile are each reported exactly when that path is empty, whatever the temporary certificate setting; other devices with a temporary certificate get no signing problem |
| ValidationProperties.DescriptorRules | flex/src/com/intellij/lang/javascript/flex/build/FlexCompiler.java:598-614 | with the generated descriptor nothing is checked; otherwise "custom descriptor not set" exactly for an empty path and "not found" exactly when the path names no file or a directory |
| ValidationProperties.PackageFileNameRule | flex/src/com/intellij/lang/javascript/flex/build/FlexCompiler.java:616-619 | "package file name not set" is reported exactly when the name is empty |
| ValidationProperties.KeystoreRules | flex/src/com/intellij/lang/javascript/flex/build/FlexCompiler.java:674-691 | unless a non-iOS device uses a temporary certificate: "keystore not set" exactly for an empty path, "keystore not found" exactly when the path names no file or a directory; nothing otherwise |
| ValidationProperties.KeystoreRuleOwns | flex/src/com/intellij/lang/javascript/flex/build/FlexCompiler.java:674-691 | a keystore problem is reported by the AIR packaging check exactly when the keystore rule reports it |
| ValidationProperties.ProvisioningRules | flex/src/com/intellij/lang/javascript/flex/build/FlexCompiler.java:656-673 | for iOS only: "provisioning profile not set" exactly for an empty path, "not found" exactly when the path names no file or a directory |
| ValidationProperties.AirPackagingProblemsAt | flex/src/com/intellij/lang/javascript/flex/build/FlexCompiler.java:591-692 | every AIR packaging rule reports only at its own location, in the device's packaging category |
| ValidationProperties.AirPackagingWithin | flex/src/com/intellij/lang/javascript/flex/build/FlexCompiler.java:591-692 | every AIR packaging problem is in the device's packaging category, at a packaging location |
| ValidationProperties.AirRuleOwnsLocation | flex/src/com/intellij/lang/javascript/flex/build/FlexCompiler.java:591-692 | a problem is reported by the AIR packaging check exactly when the one rule owning its location reports it |
| ValidationProperties.PackagingDispatch | flex/src/com/intellij/lang/javascript/flex/build/FlexCompiler.java:575-589 | packaging problems exist only for applications outside the web platform; desktop problems come only from desktop BCs, and Android or iOS problems only from mobile BCs with that packaging enabled |
| ValidationProperties.PackagingMembership | flex/src/com/intellij/lang/javascript/flex/build/FlexCompiler.java:575-589 | a problem is a packaging problem of the BC exactly when the BC is an application and the problem is one of its desktop options on the desktop platform, or of its enabled Android or iOS options on the mobile platform |
| ValidationProperties.DispatchMembership | flex/src/com/intellij/lang/javascript/flex/build/FlexCompiler.java:575-589 | membership in the platform dispatch, over the problems of each device |
| ValidationProperties.ConfigurationParts | flex/src/com/intellij/lang/javascript/flex/build/FlexCompiler.java:415-550 | each rule of checkConfiguration reports only under its own category and locations |
| ValidationProperties.RuleOwnsLocation | flex/src/com/intellij/lang/javascript/flex/build/FlexCompiler.java:415-550 | a problem is reported by checkConfiguration exactly when the one rule owning its location reports it |
| ValidationProperties.OutputRuleOwns | flex/src/com/intellij/lang/javascript/flex/build/FlexCompiler.java:450-478 | an output file or folder problem is reported by checkConfiguration exactly when the output rules report it |
| ValidationProperties.StylesheetRuleOwns | flex/src/com/intellij/lang/javascript/flex/build/FlexCompiler.java:518-531 | a runtime style sheet problem is reported by checkConfiguration exactly when the style sheet rule reports it |
| ValidationProperties.SwcRuleOwns | flex/src/com/intellij/lang/javascript/flex/build/FlexCompiler.java:533-541 | a SWC include problem is reported by checkConfiguration exactly when the SWC rule reports it |
| ValidationProperties.PackagingOnlyWhenAsked | flex/src/com/intellij/lang/javascript/flex/build/FlexCompiler.java:543-545 | packaging problems appear only when packaging is asked for, and only for applications outside the web platform |
| ValidationProperties.PackagingAppended | flex/src/com/intellij/lang/javascript/flex/build/FlexCompiler.java:543-545 | asking for packaging appends the packaging problems and changes nothing else |
| OutputConflicts.LastClaim | flex/src/com/intellij/lang/javascript/flex/build/FlexCompiler.java:283-299 | the index of the last pair claiming a path key, or none when no pair claims it |
| OutputConflicts.OutputPathMap.constructor | flex/src/com/intellij/lang/javascript/flex/build/FlexCompiler.java:283-284 | the map starts empty |
| OutputConflicts.OutputPathMap.Put | flex/src/com/intellij/lang/javascript/flex/build/FlexCompiler.java:299 | the key now maps to the pair and the previous holder, if any, is answered |
| OutputConflicts.CheckOutputPathUnique | flex/src/com/intellij/lang/javascript/flex/build/FlexCompiler.java:293-306 | the path, lowercased only on a case-insensitive file system, is claimed for the pair; a problem naming the previous holder is reported exactly when there was one |
| OutputConflicts.CheckSimilarOutputFiles | flex/src/com/intellij/lang/javascript/flex/build/FlexCompiler.java:280-291 | always answers true; the problems are the specified conflicts of the pairs in order |
| OutputConflicts.LastClaimFound | flex/src/com/intellij/lang/javascript/flex/build/FlexCompiler.java:293-306 | a key has a last claimant exactly when some pair claims it |
| OutputConflicts.ConflictCount | flex/src/com/intellij/lang/javascript/flex/build/FlexCompiler.java:280-306 | the number of problems is the number of pairs minus the number of distinct output path keys |
| OutputConflicts.NoConflictsIffDistinct | flex/src/com/intellij/lang/javascript/flex/build/FlexCompiler.java:280-306 | nothing is reported exactly when all pairs have distinct output path keys |
| OutputConflicts.ConflictNamesPrecedingClaimant | flex/src/com/intellij/lang/javascript/flex/build/FlexCompiler.java:293-306 | every problem is reported against a pair and names an earlier pair with the same key, with no pair in between claiming it |
| OutputConflicts.SharedPathChain | flex/src/com/intellij/lang/javascript/flex/build/FlexCompiler.java:293-306 | k pairs sharing one path yield k-1 problems, each pair after the first reported against the one just before it |
| OutputConflicts.CaseOnlyDifference | flex/src/com/intellij/lang/javascript/flex/build/FlexCompiler.java:297 | two paths differing only in case clash on a case-insensitive file system and not on a case-sensitive one |
| ProjectValidation.Reported | flex/src/com/intellij/lang/javascript/flex/build/FlexCompiler.java:236-240 | each problem of a pair is passed on, in order, tagged with its module and BC |
| ProjectValidation.CheckPair | flex/src/com/intellij/lang/javascript/flex/build/FlexCompiler.java:242-254 | reports the pair's configuration problems without packaging, then its Android packaging problems when it is a mobile application the Flash run configuration launches on an Android device |
| ProjectValidation.CheckPairs | flex/src/com/intellij/lang/javascript/flex/build/FlexCompiler.java:235-255 | reports each pair's problems in turn |
| ProjectValidation.ValidateConfiguration | flex/src/com/intellij/lang/javascript/flex/build/FlexCompiler.java:226-278 | with no affected module it passes silently, on a resolution error it fails silently, and otherwise it reports the pair problems then the output conflicts and passes exactly when nothing was reported |
| ProjectValidation.PairPasses | flex/src/com/intellij/lang/javascript/flex/build/FlexCompiler.java:242-254 | nothing is reported for a pair exactly when it passes checkConfiguration and, when launched on an Android device, the Android packaging check |
| ProjectValidation.ValidationPasses | flex/src/com/intellij/lang/javascript/flex/build/FlexCompiler.java:226-278 | validation reports nothing exactly when every pair passes and no two pairs share an output path key |
| CompilationPlanning.TaskDependencies | flex/src/com/intellij/lang/javascript/flex/build/FlexCompiler.java:123-135 | the task's dependency set is that of the BC's entries that resolve to a non-skipped BC and are not loaded at runtime |
| CompilationPlanning.TaskDependencyMembers | flex/src/com/intellij/lang/javascript/flex/build/FlexCompiler.java:127-135 | a BC is a task dependency exactly when a resolving, non-skipped entry that is not loaded at runtime names it |
| CompilationPlanning.TaskDependenciesInScope | flex/src/com/intellij/lang/javascript/flex/build/FlexCompiler.java:127-135 | when the BC's targets lie in the resolved scope, each task dependency is the BC of a pair in that scope |
| CompilationPlanning.StylesheetBC | flex/src/com/intellij/lang/javascript/flex/build/FlexCompiler.java:145-157 | the style sheet's BC is a temporary copy whose main class is the style sheet, whose output file is its name with .swf, with no style sheets and no resource files; its output folder is the parent of the BC's actual output path extended by the style sheet's folder below its root, or unchanged when that is absent or empty; nothing else changes |
| CompilationPlanning.StylesheetOutputExample | flex/src/com/intellij/lang/javascript/flex/build/FlexCompiler.java:145-157 | a style sheet at /src/theme/app.css under the root /src of a BC writing /out/app.swf is compiled to app.swf in /out/theme |
| CompilationPlanning.MakeStylesheetBC | flex/src/com/intellij/lang/javascript/flex/build/FlexCompiler.java:145-157 | builds exactly the specified style sheet BC |
| CompilationPlanning.RuntimeStylesheetTasks | flex/src/com/intellij/lang/javascript/flex/build/FlexCompiler.java:140-162 | one task per existing style sheet, in list order, sharing the item's dependencies |
| CompilationPlanning.StylesheetTaskMembers | flex/src/com/intellij/lang/javascript/flex/build/FlexCompiler.java:140-162 | a task is a style sheet task exactly when it compiles the style sheet BC of an existing listed style sheet |
| CompilationPlanning.StylesheetTaskCount | flex/src/com/intellij/lang/javascript/flex/build/FlexCompiler.java:140-162 | there are at most as many style sheet tasks as style sheets |
| CompilationPlanning.CompilationTasks | flex/src/com/intellij/lang/javascript/flex/build/FlexCompiler.java:122-163 | the tasks are each item's own task followed by its style sheet tasks, item by item |
| CompilationPlanning.PlannedTaskMembers | flex/src/com/intellij/lang/javascript/flex/build/FlexCompiler.java:122-163 | a task is planned exactly when it is one of some item's tasks |
| CompilationPlanning.ItemTasksShareDependencies | flex/src/com/intellij/lang/javascript/flex/build/FlexCompiler.java:137-160 | every task of an item is for its module and compiler, has the item's dependency set, and compiles either the item's BC or a temporary style sheet BC of one of its style sheets |
| CompilationPlanning.GetSdkIfSame | flex/src/com/intellij/lang/javascript/flex/build/FlexCompiler.java:207-219 | the first item's SDK exactly when every item uses it, else none |
| CompilationPlanning.PlanCompilation | flex/src/com/intellij/lang/javascript/flex/build/FlexCompiler.java:92-185 | the compiler shell plans nothing; otherwise the built-in compiler is used exactly when it is chosen and all items share one SDK, and the tasks are those planned for the items |
| CompilationPlanning.MapModuleToBCsWithResourceFiles | flex/src/com/intellij/lang/javascript/flex/build/FlexCompiler.java:187-205 | each module with a non-skipped BC that can have and has resource files maps to those BCs in item order, and no other module is in the map |
| CompilationPlanning.ResourceBCMembers | flex/src/com/intellij/lang/javascript/flex/build/FlexCompiler.java:187-205 | a BC is listed for a module exactly when an item of that module holds it and it has resource files |
| CompilationPlanning.SourceFileByExtension | flex/src/com/intellij/lang/javascript/flex/build/FlexCompiler.java:721-724 | a file is a source file exactly when its extension is as, mxml or fxg, ignoring case; a name without an extension is not |

## Left out

- **User interface.** These are not modelled:
  - the problems dialog and its show/edit handling;
  - `Messages` error dialogs;
  - `saveProject`;
  - `FlashProjectStructureErrorsDialog`.

  The model reports problems as a sequence. `validateConfiguration`'s answer is kept.
- **Compiler handling in `process`.** These are not modelled:
  - marking BCs dirty when the build is not a make;
  - quitting the compiler shell;
  - information messages;
  - starting the built-in compiler, and its `IOException` path;
  - `FlexCompilationManager.compile()` and its concurrent scheduling;
  - deleting temporary FlexUnit files.

  The model stops at the list of tasks and the compiler choice.
- **getProcessingItems.** Only wraps each resolved pair in a processing item, so it is not modelled separately. The items are the resolved pairs in some order.
- **Message texts.** `FlexBundle` texts are represented by message constructors that carry the same arguments. `toSystemDependentName` is left out, so paths appear as given.
- **Commented-out checks.** The template macro check and the `checkDependencies` call are commented out, so they are not modelled. `checkDependencies` itself is never called. Only the `checkDependencyType` matrix it would use is modelled.
- **Library helpers.** These are not part of this model. Simplified definitions stand in for them, in `Strings` and `BuildModel`:
  - `FlexUtils.removeOptions`: drops from a space-separated option string every token that starts with `-` or `+` and whose name (up to any `=` or `+`) is one of the listed names;
  - `getActualOutputFilePath`: output folder, "/", output file name;
  - `PathUtil.getParentPath` / `getFileName`;
  - `FileUtil.getNameWithoutExtension` / `isAbsoluteFilePath`;
  - `VfsUtilCore.getRelativePath`.
  - `LinkageType` and `LinkageType.getSwcLinkageValues()` (line 707): `BuildModel.LinkageType` names the linkages the checks compare against, and `BuildModel.SwcLinkageValues` stands for the SWC linkages, taken to be merged, RSL, external and include.
- **Parsing of compiler configuration files.** Not modelled. `getInfoFromConfigFile` is a lookup in `Env`, answering the default when the file is unknown.
- **Platform and project services.** These are inputs:
  - `LocalFileSystem`, `ProjectRootManager`, `BCUtils`;
  - `checkAndGetModuleAndBC`;
  - `SystemInfo.isFileSystemCaseSensitive`;
  - the AIR package parameters and compiler settings.
- **Factory.getTemporaryCopyForCompilation.** Modelled only as marking the copy temporary. How it merges configuration files is not part of this model.
- **Object identity.** BCs and pairs are compared by value. The source's sets and maps compare them with `equals`, which for BCs is identity, so two distinct but equal BC objects are one pair here.
- **Iteration order.** `HashSet` iteration order is not modelled: the resolved scope is a set. Validation and planning take the pairs as a sequence in any order, and their contracts hold for every order. That sequence is taken to list each resolved pair once, as iterating the set does; a sequence that repeats a pair would report it as clashing with itself in the output check.
- **Case conversion.** `toLowerCase` maps only ASCII letters.
- **ProjectValidation.ValidateConfiguration.** Takes whether the scope has affected modules and what resolution answered, instead of calling resolution itself. A resolution error stands for the `ConfigurationException` path, which the source notes cannot happen after earlier checks.
- **CompilationPlanning.GetSdkIfSame.** Requires a non-empty item list whose first BC has an SDK. The source reads that SDK without a check and relies on validation having reported a missing SDK. `CompilationPlanning.PlanCompilation` passes this requirement on when the compiler shell is not used.
- ScopeResolution.AppendBCDependencies: on failure the contract names some dangling entry reachable from the BC. The source throws on the first one met in its depth-first walk over the entries in order (FlexCompiler.java:394-404); which one that is is not stated.
- **FlexResourceBuildTargetScopeProvider.** Not part of this model. It only maps resolved pairs to module names for an external build process.
