/**
 * What the validation rules promise: which problems each rule reports and
 * for which settings, where in the settings each problem points, and which
 * rules exclude each other.
 */
module ValidationProperties {
  import opened Strings
  import opened BuildModel
  import opened Validation

  /** Every problem in ps points at one of the locations. */
  ghost predicate PointsAt(ps: seq<Problem>, locations: set<Location>)
  {
    forall q :: q in ps ==> q.location in locations
  }

  /** Every problem in ps belongs to category c and points at one of the locations. */
  ghost predicate Within(ps: seq<Problem>, c: Category, locations: set<Location>)
  {
    && PointsAt(ps, locations)
    && forall q :: q in ps ==> q.category == c
  }

  /** The k-th of eight parts. */
  function Pick<T>(k: nat, a: T, b: T, c: T, d: T, e: T, f: T, g: T, h: T): T
  {
    if k == 0 then a else if k == 1 then b else if k == 2 then c else if k == 3 then d
    else if k == 4 then e else if k == 5 then f else if k == 6 then g else h
  }

  /** Which of the eight rules of checkConfiguration, in the order they run, reports at a location. */
  function OwnerIndex(location: Location): (k: nat)
    ensures k < 8
  {
    match location
    case SdkLocation => 0
    case AdditionalConfigFile => 1
    case MainClass => 2
    case OutputFileName => 3
    case OutputFolder => 3
    case HtmlTemplatePath => 4
    case RuntimeStyleSheets => 5
    case FilesToIncludeInSwc => 6
    case _ => 7
  }

  /** Every problem in ps points at a location the k-th rule owns. */
  ghost predicate OwnedBy(ps: seq<Problem>, k: nat)
  {
    forall q :: q in ps ==> OwnerIndex(q.location) == k
  }

  /** Problems at locations that one rule owns are owned by that rule. */
  lemma OwnedByWithin(ps: seq<Problem>, locations: set<Location>, k: nat)
    requires PointsAt(ps, locations)
    requires forall l :: l in locations ==> OwnerIndex(l) == k
    ensures OwnedBy(ps, k)
  {
  }

  /** A problem is in the eight parts, each at the locations its rule owns, exactly when it is in its owner's part. */
  lemma SeparatedMembership(q: Problem,
                            a: seq<Problem>, b: seq<Problem>, c: seq<Problem>, d: seq<Problem>,
                            e: seq<Problem>, f: seq<Problem>, g: seq<Problem>, h: seq<Problem>)
    requires OwnedBy(a, 0) && OwnedBy(b, 1) && OwnedBy(c, 2) && OwnedBy(d, 3)
    requires OwnedBy(e, 4) && OwnedBy(f, 5) && OwnedBy(g, 6) && OwnedBy(h, 7)
    ensures q in a + b + c + d + e + f + g + h <==> q in Pick(OwnerIndex(q.location), a, b, c, d, e, f, g, h)
  {
  }

  ghost predicate NotCss(path: string)
  {
    !EndsWith(ToLower(path), ".css")
  }

  /** q is the problem reported about the style sheet at path: not a .css file, or else missing. */
  ghost predicate StylesheetReason(env: Env, moduleName: string, bc: BuildConfiguration, path: string, q: Problem)
  {
    || (NotCss(path) && q.message == NotACssRuntimeStylesheet(path))
    || (!NotCss(path) && !env.fs.Exists(path) && q.message == CssNotFound(bc.name, moduleName, path))
  }

  // ---------------------------------------------------------------------
  // The loops: every offending entry is reported, and nothing else is.
  // ---------------------------------------------------------------------

  /** Every runtime style sheet problem points at the BC's style sheet list; there is at most one per path. */
  lemma {:induction false} StylesheetProblemsAt(env: Env, moduleName: string, bc: BuildConfiguration, paths: seq<string>)
    ensures Within(StylesheetProblems(env, moduleName, bc, paths), GeneralOption(bc.name), {RuntimeStyleSheets})
    ensures |StylesheetProblems(env, moduleName, bc, paths)| <= |paths|
  {
    if paths != [] {
      StylesheetProblemsAt(env, moduleName, bc, paths[..|paths| - 1]);
    }
  }

  /** The problem about each style sheet, if it has one, is reported. */
  lemma {:induction false} StylesheetProblemsReported(env: Env, moduleName: string, bc: BuildConfiguration, paths: seq<string>, i: nat)
    requires i < |paths|
    ensures forall q :: q in StylesheetProblem(env, moduleName, bc, paths[i]) ==> q in StylesheetProblems(env, moduleName, bc, paths)
  {
    if i < |paths| - 1 {
      var init := paths[..|paths| - 1];
      StylesheetProblemsReported(env, moduleName, bc, init, i);
      assert init[i] == paths[i];
    }
  }

  /** Every runtime style sheet problem is about one of the paths: not a .css file, or else missing. */
  lemma {:induction false} StylesheetProblemJustified(env: Env, moduleName: string, bc: BuildConfiguration, paths: seq<string>, q: Problem)
    requires q in StylesheetProblems(env, moduleName, bc, paths)
    ensures exists i :: 0 <= i < |paths| && StylesheetReason(env, moduleName, bc, paths[i], q)
  {
    var init := paths[..|paths| - 1];
    if q in StylesheetProblems(env, moduleName, bc, init) {
      StylesheetProblemJustified(env, moduleName, bc, init, q);
      var i :| 0 <= i < |init| && StylesheetReason(env, moduleName, bc, init[i], q);
      assert init[i] == paths[i];
    } else {
      assert StylesheetReason(env, moduleName, bc, paths[|paths| - 1], q);
    }
  }

  /** Every problem about the files to include in a SWC points at that list; there is at most one per file. */
  lemma {:induction false} SwcIncludeProblemsAt(env: Env, files: seq<string>)
    ensures Within(SwcIncludeProblems(env, files), CompilerOptionsCategory, {FilesToIncludeInSwc})
    ensures |SwcIncludeProblems(env, files)| <= |files|
  {
    if files != [] {
      SwcIncludeProblemsAt(env, files[..|files| - 1]);
    }
  }

  /** Each missing file to include in a SWC is reported. */
  lemma {:induction false} SwcIncludeProblemsReported(env: Env, files: seq<string>, i: nat)
    requires i < |files| && !env.fs.Exists(files[i])
    ensures Problem(CompilerOptionsCategory, FilesToIncludeInSwc, FileToIncludeInSwcNotFound(files[i])) in SwcIncludeProblems(env, files)
  {
    if i < |files| - 1 {
      var init := files[..|files| - 1];
      assert init[i] == files[i];
      SwcIncludeProblemsReported(env, init, i);
    }
  }

  /** Every problem about the files to include in a SWC names one of them that is missing. */
  lemma {:induction false} SwcIncludeProblemJustified(env: Env, files: seq<string>, q: Problem)
    requires q in SwcIncludeProblems(env, files)
    ensures exists i :: 0 <= i < |files| && !env.fs.Exists(files[i]) && q.message == FileToIncludeInSwcNotFound(files[i])
  {
    var init := files[..|files| - 1];
    if q in SwcIncludeProblems(env, init) {
      SwcIncludeProblemJustified(env, init, q);
      var i :| 0 <= i < |init| && !env.fs.Exists(init[i]) && q.message == FileToIncludeInSwcNotFound(init[i]);
      assert init[i] == files[i];
    } else {
      assert q in SwcIncludeProblem(env, files[|files| - 1]);
    }
  }

  /** Every problem about the files to package points at that table of their device; at most three per entry. */
  lemma {:induction false} FilesToPackageProblemsAt(env: Env, device: Device, entries: seq<FileToPackage>)
    ensures Within(FilesToPackageProblems(env, device, entries), PackagingCategory(device), {FilesToPackage})
    ensures |FilesToPackageProblems(env, device, entries)| <= 3 * |entries|
  {
    if entries != [] {
      FilesToPackageProblemsAt(env, device, entries[..|entries| - 1]);
      FileToPackageProblemsAt(env, device, entries[|entries| - 1]);
    }
  }

  /** Every problem of each entry to package is reported. */
  lemma {:induction false} FilesToPackageProblemsReported(env: Env, device: Device, entries: seq<FileToPackage>, i: nat)
    requires i < |entries|
    ensures forall q :: q in FileToPackageProblems(env, device, entries[i]) ==> q in FilesToPackageProblems(env, device, entries)
  {
    if i < |entries| - 1 {
      var init := entries[..|entries| - 1];
      FilesToPackageProblemsReported(env, device, init, i);
      assert init[i] == entries[i];
    }
  }

  /** Every problem about the files to package is a problem of one of the entries. */
  lemma {:induction false} FilesToPackageProblemJustified(env: Env, device: Device, entries: seq<FileToPackage>, q: Problem)
    requires q in FilesToPackageProblems(env, device, entries)
    ensures exists i :: 0 <= i < |entries| && q in FileToPackageProblems(env, device, entries[i])
  {
    var init := entries[..|entries| - 1];
    if q in FilesToPackageProblems(env, device, init) {
      FilesToPackageProblemJustified(env, device, init, q);
      var i :| 0 <= i < |init| && q in FileToPackageProblems(env, device, init[i]);
      assert init[i] == entries[i];
    } else {
      assert q in FileToPackageProblems(env, device, entries[|entries| - 1]);
    }
  }

  // ---------------------------------------------------------------------
  // One file to package.
  // ---------------------------------------------------------------------

  /** The problems of one entry: at most three, all at the files-to-package table of its device. */
  lemma FileToPackageProblemsAt(env: Env, device: Device, entry: FileToPackage)
    ensures Within(FileToPackageProblems(env, device, entry), PackagingCategory(device), {FilesToPackage})
    ensures |FileToPackageProblems(env, device, entry)| <= 3
  {
  }

  /** An entry without a file is reported once, for that alone. */
  lemma EmptyFileNameReportedAlone(env: Env, device: Device, entry: FileToPackage)
    requires entry.filePath == ""
    ensures FileToPackageProblems(env, device, entry) == [PackagingProblem(device, FilesToPackage, PackagingEmptyFileName)]
  {
  }

  /** With a file set, the relative path is reported empty exactly when the path in package is "" or the bare "/". */
  lemma LeadingSlashStripped(env: Env, device: Device, entry: FileToPackage)
    requires entry.filePath != ""
    ensures PackagingProblem(device, FilesToPackage, PackagingEmptyRelativePath) in FileToPackageProblems(env, device, entry)
      <==> entry.pathInPackage == "" || entry.pathInPackage == "/"
  {
    var p := entry.pathInPackage;
    if p != "" && p != "/" && StartsWith(p, "/") {
      assert |p| > 1;
      assert StrippedPathInPackage(entry) != "";
    }
  }

  /** An existing directory must be packaged under a path its own path ends with. */
  lemma DirectoryMustEndWithPathInPackage(env: Env, device: Device, entry: FileToPackage)
    requires entry.filePath != ""
    ensures PackagingProblem(device, FilesToPackage, PackagingRelativePathNotMatches(StrippedPathInPackage(entry)))
        in FileToPackageProblems(env, device, entry)
      <==> env.fs.Exists(entry.filePath) && env.fs.IsDirectory(entry.filePath)
           && !EndsWith(entry.filePath, "/" + StrippedPathInPackage(entry))
  {
  }

  /** A missing file is reported as missing, and then never as a mismatched directory. */
  lemma MissingFileIsNoDirectory(env: Env, device: Device, entry: FileToPackage)
    requires entry.filePath != "" && !env.fs.Exists(entry.filePath)
    ensures PackagingProblem(device, FilesToPackage, PackagingFileNotFound(entry.filePath)) in FileToPackageProblems(env, device, entry)
    ensures forall q :: q in FileToPackageProblems(env, device, entry) ==> !q.message.PackagingRelativePathNotMatches?
  {
  }

  /**
   * An entry is reported without a file exactly when its path is empty, and
   * a file is reported not found exactly when it is the entry's set path
   * and does not exist.
   */
  lemma FileToPackageRules(env: Env, device: Device, entry: FileToPackage, p: string)
    ensures PackagingProblem(device, FilesToPackage, PackagingEmptyFileName) in FileToPackageProblems(env, device, entry)
      <==> entry.filePath == ""
    ensures PackagingProblem(device, FilesToPackage, PackagingFileNotFound(p)) in FileToPackageProblems(env, device, entry)
      <==> entry.filePath != "" && !env.fs.Exists(entry.filePath) && p == entry.filePath
  {
  }

  // ---------------------------------------------------------------------
  // Packaging options.
  // ---------------------------------------------------------------------

  const PackagingLocations: set<Location> := {CustomDescriptor, PackageFileName, FilesToPackage, ProvisioningProfile, Keystore}

  /** The rule of checkPackagingOptions that reports at a location of the packaging page. */
  ghost function AirRuleAt(env: Env, device: Device, po: PackagingOptions, location: Location): seq<Problem>
  {
    match location
    case CustomDescriptor => DescriptorProblems(env, device, po)
    case PackageFileName => PackageFileNameProblems(device, po)
    case FilesToPackage => FilesToPackageProblems(env, device, po.filesToPackage)
    case ProvisioningProfile => ProvisioningProblems(env, device, po)
    case Keystore => KeystoreProblems(env, device, po)
    case _ => []
  }

  lemma WithinWider(ps: seq<Problem>, c: Category, small: set<Location>, big: set<Location>)
    requires Within(ps, c, small) && small <= big
    ensures Within(ps, c, big)
  {
  }

  lemma WithinConcat(a: seq<Problem>, b: seq<Problem>, c: Category, locations: set<Location>)
    requires Within(a, c, locations) && Within(b, c, locations)
    ensures Within(a + b, c, locations)
  {
  }

  /** The descriptor and package file name rules of one set of packaging options. */
  lemma PackageNamingProblemsAt(env: Env, device: Device, po: PackagingOptions)
    ensures Within(DescriptorProblems(env, device, po), PackagingCategory(device), {CustomDescriptor})
    ensures Within(PackageFileNameProblems(device, po), PackagingCategory(device), {PackageFileName})
  {
  }

  /** The signing rules of one set of packaging options. */
  lemma SigningProblemsAt(env: Env, device: Device, po: PackagingOptions)
    ensures Within(ProvisioningProblems(env, device, po), PackagingCategory(device), {ProvisioningProfile})
    ensures Within(KeystoreProblems(env, device, po), PackagingCategory(device), {Keystore})
  {
  }

  /** Every problem about one set of packaging options is filed under its device. */
  lemma AirPackagingProblemsAt(env: Env, device: Device, po: PackagingOptions)
    ensures Within(DescriptorProblems(env, device, po), PackagingCategory(device), {CustomDescriptor})
    ensures Within(PackageFileNameProblems(device, po), PackagingCategory(device), {PackageFileName})
    ensures Within(FilesToPackageProblems(env, device, po.filesToPackage), PackagingCategory(device), {FilesToPackage})
    ensures Within(ProvisioningProblems(env, device, po), PackagingCategory(device), {ProvisioningProfile})
    ensures Within(KeystoreProblems(env, device, po), PackagingCategory(device), {Keystore})
    ensures Within(AirPackagingProblems(env, device, po), PackagingCategory(device), PackagingLocations)
  {
    PackageNamingProblemsAt(env, device, po);
    FilesToPackageProblemsAt(env, device, po.filesToPackage);
    SigningProblemsAt(env, device, po);
    var c := PackagingCategory(device);
    var d, n, f := DescriptorProblems(env, device, po), PackageFileNameProblems(device, po), FilesToPackageProblems(env, device, po.filesToPackage);
    var p, k := ProvisioningProblems(env, device, po), KeystoreProblems(env, device, po);
    WithinWider(d, c, {CustomDescriptor}, PackagingLocations);
    WithinWider(n, c, {PackageFileName}, PackagingLocations);
    WithinWider(f, c, {FilesToPackage}, PackagingLocations);
    WithinWider(p, c, {ProvisioningProfile}, PackagingLocations);
    WithinWider(k, c, {Keystore}, PackagingLocations);
    WithinConcat(d, n, c, PackagingLocations);
    WithinConcat(d + n, f, c, PackagingLocations);
    WithinConcat(d + n + f, p, c, PackagingLocations);
    WithinConcat(d + n + f + p, k, c, PackagingLocations);
    assert AirPackagingProblems(env, device, po) == d + n + f + p + k;
  }

  /** Each location of the packaging page is reported on by one rule of checkPackagingOptions alone. */
  lemma AirRuleOwnsLocation(env: Env, device: Device, po: PackagingOptions, q: Problem)
    ensures q in AirPackagingProblems(env, device, po) <==> q in AirRuleAt(env, device, po, q.location)
  {
    AirPackagingProblemsAt(env, device, po);
  }

  /**
   * An iOS package always needs a provisioning profile and a keystore of
   * its own; another device signed with a temporary certificate needs
   * neither.
   */
  lemma IosSigning(env: Env, device: Device, po: PackagingOptions)
    ensures device == Ios ==>
      (PackagingProblem(Ios, Keystore, KeystoreNotSet) in AirPackagingProblems(env, device, po) <==> po.signing.keystorePath == "")
    ensures device == Ios ==>
      (PackagingProblem(Ios, ProvisioningProfile, IosProvisioningProfileNotSet) in AirPackagingProblems(env, device, po)
       <==> po.signing.provisioningProfilePath == "")
    ensures device != Ios && po.signing.useTempCertificate ==>
      forall q :: q in AirPackagingProblems(env, device, po) ==> q.location != Keystore && q.location != ProvisioningProfile
  {
    AirPackagingProblemsAt(env, device, po);
    AirRuleOwnsLocation(env, device, po, PackagingProblem(Ios, Keystore, KeystoreNotSet));
    AirRuleOwnsLocation(env, device, po, PackagingProblem(Ios, ProvisioningProfile, IosProvisioningProfileNotSet));
  }

  /** The problems of one set of packaging options, filed under its device. */
  lemma AirPackagingWithin(env: Env, device: Device, po: PackagingOptions)
    ensures Within(AirPackagingProblems(env, device, po), PackagingCategory(device), PackagingLocations)
  {
    AirPackagingProblemsAt(env, device, po);
  }

  /** The dispatch of the BC overload of checkPackagingOptions, over the problems of each device. */
  lemma DispatchShape(bc: BuildConfiguration, r: seq<Problem>, desktop: seq<Problem>, android: seq<Problem>, ios: seq<Problem>)
    requires Within(desktop, PackagingCategory(AirDesktop), PackagingLocations)
    requires Within(android, PackagingCategory(Android), PackagingLocations)
    requires Within(ios, PackagingCategory(Ios), PackagingLocations)
    requires r == if bc.outputType != Application then []
                  else if bc.targetPlatform == Desktop then desktop
                  else if bc.targetPlatform == Mobile then
                    (if bc.androidPackaging.enabled then android else []) + (if bc.iosPackaging.enabled then ios else [])
                  else []
    ensures r != [] ==> bc.outputType == Application && bc.targetPlatform != Web
    ensures forall q :: q in r ==> q.category.PackagingCategory? && q.location in PackagingLocations
    ensures OwnedBy(r, 7)
    ensures forall q :: q in r && q.category == PackagingCategory(AirDesktop) ==> bc.targetPlatform == Desktop
    ensures forall q :: q in r && q.category == PackagingCategory(Android) ==> bc.targetPlatform == Mobile && bc.androidPackaging.enabled
    ensures forall q :: q in r && q.category == PackagingCategory(Ios) ==> bc.targetPlatform == Mobile && bc.iosPackaging.enabled
  {
    assert PointsAt(r, PackagingLocations);
    OwnedByWithin(r, PackagingLocations, 7);
  }

  /**
   * Packaging problems arise only for applications, and only for the
   * devices their platform packages for: AIR desktop for a desktop
   * application, Android and iOS, each when enabled, for a mobile one.
   */
  lemma PackagingDispatch(env: Env, bc: BuildConfiguration)
    ensures PackagingProblems(env, bc) != [] ==> bc.outputType == Application && bc.targetPlatform != Web
    ensures forall q :: q in PackagingProblems(env, bc) ==> q.category.PackagingCategory? && q.location in PackagingLocations
    ensures OwnedBy(PackagingProblems(env, bc), 7)
    ensures forall q :: q in PackagingProblems(env, bc) && q.category == PackagingCategory(AirDesktop) ==>
      bc.targetPlatform == Desktop
    ensures forall q :: q in PackagingProblems(env, bc) && q.category == PackagingCategory(Android) ==>
      bc.targetPlatform == Mobile && bc.androidPackaging.enabled
    ensures forall q :: q in PackagingProblems(env, bc) && q.category == PackagingCategory(Ios) ==>
      bc.targetPlatform == Mobile && bc.iosPackaging.enabled
  {
    var desktop := AirPackagingProblems(env, AirDesktop, bc.desktopPackaging);
    var android := AirPackagingProblems(env, Android, bc.androidPackaging);
    var ios := AirPackagingProblems(env, Ios, bc.iosPackaging);
    AirPackagingWithin(env, AirDesktop, bc.desktopPackaging);
    AirPackagingWithin(env, Android, bc.androidPackaging);
    AirPackagingWithin(env, Ios, bc.iosPackaging);
    DispatchShape(bc, PackagingProblems(env, bc), desktop, android, ios);
  }

  // ---------------------------------------------------------------------
  // checkConfiguration as a whole.
  // ---------------------------------------------------------------------

  /** The rule of checkConfiguration that reports at a location. */
  ghost function RuleAt(env: Env, moduleName: string, bc: BuildConfiguration, checkPackaging: bool, location: Location): seq<Problem>
  {
    var info := ConfigInfo(env, bc);
    Pick(OwnerIndex(location),
         SdkProblems(bc), ConfigFileProblems(env, bc), MainClassProblems(info, bc), OutputProblems(info, bc),
         HtmlWrapperProblems(env, bc), RuntimeStylesheetRuleProblems(env, moduleName, bc), SwcRuleProblems(env, bc),
         if checkPackaging then PackagingProblems(env, bc) else [])
  }

  /** Where each rule of checkConfiguration points: the rules before the output file. */
  lemma GeneralRulesAt(env: Env, bc: BuildConfiguration)
    ensures Within(SdkProblems(bc), Dependencies, {SdkLocation})
    ensures Within(ConfigFileProblems(env, bc), CompilerOptionsCategory, {AdditionalConfigFile})
    ensures Within(MainClassProblems(ConfigInfo(env, bc), bc), GeneralOption(bc.name), {MainClass})
    ensures OwnedBy(SdkProblems(bc), 0) && OwnedBy(ConfigFileProblems(env, bc), 1)
    ensures OwnedBy(MainClassProblems(ConfigInfo(env, bc), bc), 2)
  {
  }

  /** Where each rule of checkConfiguration points: the output file and folder. */
  lemma OutputRulesAt(info: ConfigFileInfo, bc: BuildConfiguration)
    ensures Within(OutputProblems(info, bc), GeneralOption(bc.name), {OutputFileName, OutputFolder})
    ensures OwnedBy(OutputProblems(info, bc), 3)
  {
  }

  /** Where each rule of checkConfiguration points: the HTML wrapper template. */
  lemma HtmlWrapperRuleAt(env: Env, bc: BuildConfiguration)
    ensures Within(HtmlWrapperProblems(env, bc), GeneralOption(bc.name), {HtmlTemplatePath})
    ensures OwnedBy(HtmlWrapperProblems(env, bc), 4)
  {
  }

  /** Where each rule of checkConfiguration points: the two loops. */
  lemma LoopRulesAt(env: Env, moduleName: string, bc: BuildConfiguration)
    ensures Within(RuntimeStylesheetRuleProblems(env, moduleName, bc), GeneralOption(bc.name), {RuntimeStyleSheets})
    ensures Within(SwcRuleProblems(env, bc), CompilerOptionsCategory, {FilesToIncludeInSwc})
    ensures OwnedBy(RuntimeStylesheetRuleProblems(env, moduleName, bc), 5) && OwnedBy(SwcRuleProblems(env, bc), 6)
  {
    StylesheetProblemsAt(env, moduleName, bc, bc.cssFilesToCompile);
    SwcIncludeProblemsAt(env, bc.compilerOptions.filesToIncludeInSwc);
    OwnedByWithin(RuntimeStylesheetRuleProblems(env, moduleName, bc), {RuntimeStyleSheets}, 5);
    OwnedByWithin(SwcRuleProblems(env, bc), {FilesToIncludeInSwc}, 6);
  }

  /** Where each rule of checkConfiguration points. */
  lemma ConfigurationParts(env: Env, moduleName: string, bc: BuildConfiguration)
    ensures Within(SdkProblems(bc), Dependencies, {SdkLocation})
    ensures Within(ConfigFileProblems(env, bc), CompilerOptionsCategory, {AdditionalConfigFile})
    ensures Within(MainClassProblems(ConfigInfo(env, bc), bc), GeneralOption(bc.name), {MainClass})
    ensures Within(OutputProblems(ConfigInfo(env, bc), bc), GeneralOption(bc.name), {OutputFileName, OutputFolder})
    ensures Within(HtmlWrapperProblems(env, bc), GeneralOption(bc.name), {HtmlTemplatePath})
    ensures Within(RuntimeStylesheetRuleProblems(env, moduleName, bc), GeneralOption(bc.name), {RuntimeStyleSheets})
    ensures Within(SwcRuleProblems(env, bc), CompilerOptionsCategory, {FilesToIncludeInSwc})
    ensures forall q :: q in PackagingProblems(env, bc) ==> q.category.PackagingCategory? && q.location in PackagingLocations
    ensures OwnedBy(SdkProblems(bc), 0) && OwnedBy(ConfigFileProblems(env, bc), 1)
    ensures OwnedBy(MainClassProblems(ConfigInfo(env, bc), bc), 2) && OwnedBy(OutputProblems(ConfigInfo(env, bc), bc), 3)
    ensures OwnedBy(HtmlWrapperProblems(env, bc), 4) && OwnedBy(RuntimeStylesheetRuleProblems(env, moduleName, bc), 5)
    ensures OwnedBy(SwcRuleProblems(env, bc), 6) && OwnedBy(PackagingProblems(env, bc), 7)
  {
    GeneralRulesAt(env, bc);
    OutputRulesAt(ConfigInfo(env, bc), bc);
    HtmlWrapperRuleAt(env, bc);
    LoopRulesAt(env, moduleName, bc);
    PackagingDispatch(env, bc);
  }

  /** Each location of a BC's settings is reported on by one rule of checkConfiguration alone. */
  lemma RuleOwnsLocation(env: Env, moduleName: string, bc: BuildConfiguration, checkPackaging: bool, q: Problem)
    ensures q in ConfigurationProblems(env, moduleName, bc, checkPackaging) <==> q in RuleAt(env, moduleName, bc, checkPackaging, q.location)
  {
    ConfigurationParts(env, moduleName, bc);
    var info := ConfigInfo(env, bc);
    var sdk, config, main := SdkProblems(bc), ConfigFileProblems(env, bc), MainClassProblems(info, bc);
    var output, html := OutputProblems(info, bc), HtmlWrapperProblems(env, bc);
    var css, swc := RuntimeStylesheetRuleProblems(env, moduleName, bc), SwcRuleProblems(env, bc);
    var packaging := if checkPackaging then PackagingProblems(env, bc) else [];
    assert OwnedBy(packaging, 7);
    assert ConfigurationProblems(env, moduleName, bc, checkPackaging) == sdk + config + main + output + html + css + swc + packaging;
    SeparatedMembership(q, sdk, config, main, output, html, css, swc, packaging);
  }

  /** A problem about the output file or folder is in checkConfiguration's list exactly when the output rules report it. */
  lemma OutputRuleOwns(env: Env, moduleName: string, bc: BuildConfiguration, checkPackaging: bool, q: Problem)
    requires q.location == OutputFileName || q.location == OutputFolder
    ensures q in ConfigurationProblems(env, moduleName, bc, checkPackaging) <==> q in OutputProblems(ConfigInfo(env, bc), bc)
  {
    assert OwnerIndex(q.location) == 3;
    RuleOwnsLocation(env, moduleName, bc, checkPackaging, q);
  }

  /** A problem about the files to include in a SWC is in checkConfiguration's list exactly when that rule reports it. */
  lemma SwcRuleOwns(env: Env, moduleName: string, bc: BuildConfiguration, checkPackaging: bool, q: Problem)
    requires OwnerIndex(q.location) == 6
    ensures q in ConfigurationProblems(env, moduleName, bc, checkPackaging) <==> q in SwcRuleProblems(env, bc)
  {
    RuleOwnsLocation(env, moduleName, bc, checkPackaging, q);
  }

  /** A problem about the runtime style sheets is in checkConfiguration's list exactly when that rule reports it. */
  lemma StylesheetRuleOwns(env: Env, moduleName: string, bc: BuildConfiguration, checkPackaging: bool, q: Problem)
    requires q.location == RuntimeStyleSheets
    ensures q in ConfigurationProblems(env, moduleName, bc, checkPackaging) <==> q in RuntimeStylesheetRuleProblems(env, moduleName, bc)
  {
    RuleOwnsLocation(env, moduleName, bc, checkPackaging, q);
    assert RuleAt(env, moduleName, bc, checkPackaging, q.location) == RuntimeStylesheetRuleProblems(env, moduleName, bc);
  }

  /** The SDK is reported missing exactly when the BC has none. */
  lemma SdkRule(env: Env, moduleName: string, bc: BuildConfiguration, checkPackaging: bool)
    ensures Problem(Dependencies, SdkLocation, SdkNotSet) in ConfigurationProblems(env, moduleName, bc, checkPackaging)
      <==> bc.sdk.None?
  {
    RuleOwnsLocation(env, moduleName, bc, checkPackaging, Problem(Dependencies, SdkLocation, SdkNotSet));
  }

  /**
   * The main class is reported missing exactly when the BC is no library
   * and neither the BC nor its additional configuration file names one.
   */
  lemma MainClassRule(env: Env, moduleName: string, bc: BuildConfiguration, checkPackaging: bool)
    ensures GeneralProblem(bc, MainClass, MainClassNotSet) in ConfigurationProblems(env, moduleName, bc, checkPackaging)
      <==> !IsLib(bc) && ConfigInfo(env, bc).mainClass.None? && bc.mainClass == ""
  {
    RuleOwnsLocation(env, moduleName, bc, checkPackaging, GeneralProblem(bc, MainClass, MainClassNotSet));
  }

  /** When the configuration file sets the output file name or folder, the BC's own are not checked at all. */
  lemma OutputRulesNeedNoConfigOutput(env: Env, moduleName: string, bc: BuildConfiguration, checkPackaging: bool)
    requires ConfigInfo(env, bc).outputFileName.Some? || ConfigInfo(env, bc).outputFolderPath.Some?
    ensures forall q :: q in ConfigurationProblems(env, moduleName, bc, checkPackaging) ==>
      q.location != OutputFileName && q.location != OutputFolder
  {
    forall q | q in ConfigurationProblems(env, moduleName, bc, checkPackaging)
      ensures q.location != OutputFileName && q.location != OutputFolder
    {
      RuleOwnsLocation(env, moduleName, bc, checkPackaging, q);
    }
  }

  /**
   * Otherwise an application or module must be written to a .swf file and
   * a library to a .swc file, ignoring case.
   */
  lemma OutputExtensionRules(info: ConfigFileInfo, bc: BuildConfiguration)
    requires info.outputFileName.None? && info.outputFolderPath.None?
    ensures GeneralProblem(bc, OutputFileName, OutputFileWrongExtension("swf")) in OutputProblems(info, bc)
      <==> !IsLib(bc) && !EndsWith(ToLower(bc.outputFileName), ".swf")
    ensures GeneralProblem(bc, OutputFileName, OutputFileWrongExtension("swc")) in OutputProblems(info, bc)
      <==> IsLib(bc) && !EndsWith(ToLower(bc.outputFileName), ".swc")
  {
    assert "swf" != "swc" by { assert "swf"[2] != "swc"[2]; }
  }

  /** The same for the whole of checkConfiguration; at most one of the two extensions is asked for. */
  lemma ExtensionRule(env: Env, moduleName: string, bc: BuildConfiguration, checkPackaging: bool)
    requires ConfigInfo(env, bc).outputFileName.None? && ConfigInfo(env, bc).outputFolderPath.None?
    ensures GeneralProblem(bc, OutputFileName, OutputFileWrongExtension("swf")) in ConfigurationProblems(env, moduleName, bc, checkPackaging)
      <==> !IsLib(bc) && !EndsWith(ToLower(bc.outputFileName), ".swf")
    ensures GeneralProblem(bc, OutputFileName, OutputFileWrongExtension("swc")) in ConfigurationProblems(env, moduleName, bc, checkPackaging)
      <==> IsLib(bc) && !EndsWith(ToLower(bc.outputFileName), ".swc")
    ensures !(GeneralProblem(bc, OutputFileName, OutputFileWrongExtension("swf")) in ConfigurationProblems(env, moduleName, bc, checkPackaging)
              && GeneralProblem(bc, OutputFileName, OutputFileWrongExtension("swc")) in ConfigurationProblems(env, moduleName, bc, checkPackaging))
  {
    OutputExtensionRules(ConfigInfo(env, bc), bc);
    OutputRuleOwns(env, moduleName, bc, checkPackaging, GeneralProblem(bc, OutputFileName, OutputFileWrongExtension("swf")));
    OutputRuleOwns(env, moduleName, bc, checkPackaging, GeneralProblem(bc, OutputFileName, OutputFileWrongExtension("swc")));
  }

  /** An output folder is reported as unset or as relative, never both, and only when the configuration file leaves it open. */
  lemma OutputFolderRules(info: ConfigFileInfo, bc: BuildConfiguration)
    ensures var open := info.outputFileName.None? && info.outputFolderPath.None?;
      && (GeneralProblem(bc, OutputFolder, OutputFolderNotSet) in OutputProblems(info, bc) <==> open && bc.outputFolder == "")
      && (GeneralProblem(bc, OutputFolder, OutputFolderNotAbsolute(bc.outputFolder)) in OutputProblems(info, bc)
          <==> open && bc.outputFolder != "" && !IsAbsoluteFilePath(bc.outputFolder))
    ensures forall q :: q in OutputProblems(info, bc) && q.location == OutputFolder ==>
      q == GeneralProblem(bc, OutputFolder, OutputFolderNotSet)
      || q == GeneralProblem(bc, OutputFolder, OutputFolderNotAbsolute(bc.outputFolder))
  {
  }

  /** The same for the whole of checkConfiguration. */
  lemma OutputFolderRulesExclusive(env: Env, moduleName: string, bc: BuildConfiguration, checkPackaging: bool)
    ensures var ps := ConfigurationProblems(env, moduleName, bc, checkPackaging);
      var open := ConfigInfo(env, bc).outputFileName.None? && ConfigInfo(env, bc).outputFolderPath.None?;
      && (GeneralProblem(bc, OutputFolder, OutputFolderNotSet) in ps <==> open && bc.outputFolder == "")
      && (GeneralProblem(bc, OutputFolder, OutputFolderNotAbsolute(bc.outputFolder)) in ps
          <==> open && bc.outputFolder != "" && !IsAbsoluteFilePath(bc.outputFolder))
    ensures forall q :: q in ConfigurationProblems(env, moduleName, bc, checkPackaging) && q.location == OutputFolder ==>
      q == GeneralProblem(bc, OutputFolder, OutputFolderNotSet)
      || q == GeneralProblem(bc, OutputFolder, OutputFolderNotAbsolute(bc.outputFolder))
  {
    OutputFolderRules(ConfigInfo(env, bc), bc);
    OutputRuleOwns(env, moduleName, bc, checkPackaging, GeneralProblem(bc, OutputFolder, OutputFolderNotSet));
    OutputRuleOwns(env, moduleName, bc, checkPackaging, GeneralProblem(bc, OutputFolder, OutputFolderNotAbsolute(bc.outputFolder)));
    forall q | q in ConfigurationProblems(env, moduleName, bc, checkPackaging) && q.location == OutputFolder
      ensures q == GeneralProblem(bc, OutputFolder, OutputFolderNotSet)
           || q == GeneralProblem(bc, OutputFolder, OutputFolderNotAbsolute(bc.outputFolder))
    {
      OutputRuleOwns(env, moduleName, bc, checkPackaging, q);
    }
  }

  /** Packaging is checked only when asked for, and only for applications outside the web platform. */
  lemma PackagingOnlyWhenAsked(env: Env, moduleName: string, bc: BuildConfiguration, checkPackaging: bool)
    ensures forall q :: q in ConfigurationProblems(env, moduleName, bc, checkPackaging) && q.category.PackagingCategory? ==>
      checkPackaging && bc.outputType == Application && bc.targetPlatform != Web
  {
    ConfigurationParts(env, moduleName, bc);
    PackagingDispatch(env, bc);
  }

  /** Asking for packaging adds the packaging problems after the others and changes nothing else. */
  lemma PackagingAppended(env: Env, moduleName: string, bc: BuildConfiguration)
    ensures ConfigurationProblems(env, moduleName, bc, true)
      == ConfigurationProblems(env, moduleName, bc, false) + PackagingProblems(env, bc)
  {
  }

  /** A library's file to include in a SWC is reported exactly when missing; other BCs' are not checked. */
  lemma SwcRuleReportsMissing(env: Env, bc: BuildConfiguration, i: nat)
    requires i < |bc.compilerOptions.filesToIncludeInSwc|
    ensures var path := bc.compilerOptions.filesToIncludeInSwc[i];
      Problem(CompilerOptionsCategory, FilesToIncludeInSwc, FileToIncludeInSwcNotFound(path)) in SwcRuleProblems(env, bc)
      <==> IsLib(bc) && !env.fs.Exists(path)
  {
    var files := bc.compilerOptions.filesToIncludeInSwc;
    var q := Problem(CompilerOptionsCategory, FilesToIncludeInSwc, FileToIncludeInSwcNotFound(files[i]));
    if IsLib(bc) {
      if !env.fs.Exists(files[i]) {
        SwcIncludeProblemsReported(env, files, i);
      } else if q in SwcIncludeProblems(env, files) {
        SwcIncludeProblemJustified(env, files, q);
        assert false;
      }
    }
  }

  /** The same for the whole of checkConfiguration. */
  lemma SwcIncludeRule(env: Env, moduleName: string, bc: BuildConfiguration, checkPackaging: bool, i: nat)
    requires i < |bc.compilerOptions.filesToIncludeInSwc|
    ensures var path := bc.compilerOptions.filesToIncludeInSwc[i];
      Problem(CompilerOptionsCategory, FilesToIncludeInSwc, FileToIncludeInSwcNotFound(path))
        in ConfigurationProblems(env, moduleName, bc, checkPackaging)
      <==> IsLib(bc) && !env.fs.Exists(path)
  {
    var path := bc.compilerOptions.filesToIncludeInSwc[i];
    SwcRuleReportsMissing(env, bc, i);
    SwcRuleOwns(env, moduleName, bc, checkPackaging, Problem(CompilerOptionsCategory, FilesToIncludeInSwc, FileToIncludeInSwcNotFound(path)));
  }

  /**
   * A runtime style sheet of a BC that can have them is reported as no
   * .css file exactly when its name does not end in .css, ignoring case.
   */
  lemma StylesheetRuleReportsNonCss(env: Env, moduleName: string, bc: BuildConfiguration, i: nat)
    requires i < |bc.cssFilesToCompile|
    ensures var path := bc.cssFilesToCompile[i];
      GeneralProblem(bc, RuntimeStyleSheets, NotACssRuntimeStylesheet(path)) in RuntimeStylesheetRuleProblems(env, moduleName, bc)
      <==> CanHaveRuntimeStylesheets(env, bc) && NotCss(path)
  {
    var css := bc.cssFilesToCompile;
    var q := GeneralProblem(bc, RuntimeStyleSheets, NotACssRuntimeStylesheet(css[i]));
    if CanHaveRuntimeStylesheets(env, bc) {
      if NotCss(css[i]) {
        StylesheetProblemsReported(env, moduleName, bc, css, i);
        assert q in StylesheetProblem(env, moduleName, bc, css[i]);
      } else if q in StylesheetProblems(env, moduleName, bc, css) {
        StylesheetProblemJustified(env, moduleName, bc, css, q);
        assert false;
      }
    }
  }

  /** The same for the whole of checkConfiguration. */
  lemma RuntimeStylesheetRule(env: Env, moduleName: string, bc: BuildConfiguration, checkPackaging: bool, i: nat)
    requires i < |bc.cssFilesToCompile|
    ensures var path := bc.cssFilesToCompile[i];
      GeneralProblem(bc, RuntimeStyleSheets, NotACssRuntimeStylesheet(path)) in ConfigurationProblems(env, moduleName, bc, checkPackaging)
      <==> CanHaveRuntimeStylesheets(env, bc) && NotCss(path)
  {
    var path := bc.cssFilesToCompile[i];
    StylesheetRuleReportsNonCss(env, moduleName, bc, i);
    StylesheetRuleOwns(env, moduleName, bc, checkPackaging, GeneralProblem(bc, RuntimeStyleSheets, NotACssRuntimeStylesheet(path)));
  }

  // ---------------------------------------------------------------------
  // When the remaining rules of checkConfiguration report.
  // ---------------------------------------------------------------------

  /**
   * The additional configuration file is reported missing exactly when its
   * path is set and names no file, or names a directory; nothing else is
   * reported at that location.
   */
  lemma ConfigFileRule(env: Env, moduleName: string, bc: BuildConfiguration, checkPackaging: bool)
    ensures var path := bc.compilerOptions.additionalConfigFilePath;
      Problem(CompilerOptionsCategory, AdditionalConfigFile, AdditionalConfigFileNotFound(path))
        in ConfigurationProblems(env, moduleName, bc, checkPackaging)
      <==> path != "" && (!env.fs.Exists(path) || env.fs.IsDirectory(path))
    ensures forall q :: q in ConfigurationProblems(env, moduleName, bc, checkPackaging) && q.location == AdditionalConfigFile ==>
      q == Problem(CompilerOptionsCategory, AdditionalConfigFile, AdditionalConfigFileNotFound(bc.compilerOptions.additionalConfigFilePath))
  {
    var path := bc.compilerOptions.additionalConfigFilePath;
    RuleOwnsLocation(env, moduleName, bc, checkPackaging, Problem(CompilerOptionsCategory, AdditionalConfigFile, AdditionalConfigFileNotFound(path)));
    forall q | q in ConfigurationProblems(env, moduleName, bc, checkPackaging) && q.location == AdditionalConfigFile
      ensures q == Problem(CompilerOptionsCategory, AdditionalConfigFile, AdditionalConfigFileNotFound(path))
    {
      RuleOwnsLocation(env, moduleName, bc, checkPackaging, q);
    }
  }

  /**
   * With the output left open by the configuration file, an empty output
   * file name is reported as not set, and, since the name then has no
   * extension either, also as having the wrong extension.
   */
  lemma OutputNameRules(info: ConfigFileInfo, bc: BuildConfiguration)
    ensures var open := info.outputFileName.None? && info.outputFolderPath.None?;
      GeneralProblem(bc, OutputFileName, OutputFileNameNotSet) in OutputProblems(info, bc) <==> open && bc.outputFileName == ""
    ensures info.outputFileName.None? && info.outputFolderPath.None? && bc.outputFileName == "" ==>
      GeneralProblem(bc, OutputFileName, OutputFileWrongExtension(if IsLib(bc) then "swc" else "swf")) in OutputProblems(info, bc)
  {
    if info.outputFileName.None? && info.outputFolderPath.None? && bc.outputFileName == "" {
      assert ToLower(bc.outputFileName) == "";
      assert !EndsWith(ToLower(bc.outputFileName), ".swf") && !EndsWith(ToLower(bc.outputFileName), ".swc");
    }
  }

  /** The same for the whole of checkConfiguration. */
  lemma OutputNameRule(env: Env, moduleName: string, bc: BuildConfiguration, checkPackaging: bool)
    ensures var open := ConfigInfo(env, bc).outputFileName.None? && ConfigInfo(env, bc).outputFolderPath.None?;
      GeneralProblem(bc, OutputFileName, OutputFileNameNotSet) in ConfigurationProblems(env, moduleName, bc, checkPackaging)
      <==> open && bc.outputFileName == ""
    ensures ConfigInfo(env, bc).outputFileName.None? && ConfigInfo(env, bc).outputFolderPath.None? && bc.outputFileName == "" ==>
      GeneralProblem(bc, OutputFileName, OutputFileWrongExtension(if IsLib(bc) then "swc" else "swf"))
        in ConfigurationProblems(env, moduleName, bc, checkPackaging)
  {
    OutputNameRules(ConfigInfo(env, bc), bc);
    OutputRuleOwns(env, moduleName, bc, checkPackaging, GeneralProblem(bc, OutputFileName, OutputFileNameNotSet));
    OutputRuleOwns(env, moduleName, bc, checkPackaging,
                   GeneralProblem(bc, OutputFileName, OutputFileWrongExtension(if IsLib(bc) then "swc" else "swf")));
  }

  /** The HTML wrapper rule applies to web applications that use the wrapper. */
  predicate UsesHtmlWrapper(bc: BuildConfiguration)
  {
    bc.targetPlatform == Web && IsApp(bc) && bc.useHtmlWrapper
  }

  /**
   * For a web application using the wrapper, the template folder is
   * reported as not set when its path is empty, as not found when the path
   * names no directory, and as lacking index.template.html when the
   * directory exists without that file; at most one of these, and none for
   * any other BC.
   */
  lemma HtmlWrapperRules(env: Env, bc: BuildConfiguration)
    ensures var path := bc.wrapperTemplatePath;
      && (GeneralProblem(bc, HtmlTemplatePath, HtmlTemplateFolderNotSet) in HtmlWrapperProblems(env, bc)
          <==> UsesHtmlWrapper(bc) && path == "")
      && (GeneralProblem(bc, HtmlTemplatePath, HtmlTemplateFolderNotFound(path)) in HtmlWrapperProblems(env, bc)
          <==> UsesHtmlWrapper(bc) && path != "" && !(env.fs.Exists(path) && env.fs.IsDirectory(path)))
      && (GeneralProblem(bc, HtmlTemplatePath, NoIndexTemplateHtmlFile(path)) in HtmlWrapperProblems(env, bc)
          <==> UsesHtmlWrapper(bc) && path != "" && env.fs.IsDirectory(path)
               && !env.fs.Exists(path + "/" + HtmlWrapperTemplateFileName))
    ensures |HtmlWrapperProblems(env, bc)| <= 1
  {
  }

  /** A problem about the HTML template folder is in checkConfiguration's list exactly when that rule reports it. */
  lemma HtmlRuleOwns(env: Env, moduleName: string, bc: BuildConfiguration, checkPackaging: bool, q: Problem)
    requires q.location == HtmlTemplatePath
    ensures q in ConfigurationProblems(env, moduleName, bc, checkPackaging) <==> q in HtmlWrapperProblems(env, bc)
  {
    RuleOwnsLocation(env, moduleName, bc, checkPackaging, q);
    assert RuleAt(env, moduleName, bc, checkPackaging, q.location) == HtmlWrapperProblems(env, bc);
  }

  /** The same for the whole of checkConfiguration. */
  lemma HtmlWrapperRule(env: Env, moduleName: string, bc: BuildConfiguration, checkPackaging: bool)
    ensures var ps, path := ConfigurationProblems(env, moduleName, bc, checkPackaging), bc.wrapperTemplatePath;
      && (GeneralProblem(bc, HtmlTemplatePath, HtmlTemplateFolderNotSet) in ps <==> UsesHtmlWrapper(bc) && path == "")
      && (GeneralProblem(bc, HtmlTemplatePath, HtmlTemplateFolderNotFound(path)) in ps
          <==> UsesHtmlWrapper(bc) && path != "" && !(env.fs.Exists(path) && env.fs.IsDirectory(path)))
      && (GeneralProblem(bc, HtmlTemplatePath, NoIndexTemplateHtmlFile(path)) in ps
          <==> UsesHtmlWrapper(bc) && path != "" && env.fs.IsDirectory(path)
               && !env.fs.Exists(path + "/" + HtmlWrapperTemplateFileName))
  {
    var path := bc.wrapperTemplatePath;
    HtmlWrapperRules(env, bc);
    HtmlRuleOwns(env, moduleName, bc, checkPackaging, GeneralProblem(bc, HtmlTemplatePath, HtmlTemplateFolderNotSet));
    HtmlRuleOwns(env, moduleName, bc, checkPackaging, GeneralProblem(bc, HtmlTemplatePath, HtmlTemplateFolderNotFound(path)));
    HtmlRuleOwns(env, moduleName, bc, checkPackaging, GeneralProblem(bc, HtmlTemplatePath, NoIndexTemplateHtmlFile(path)));
  }

  // ---------------------------------------------------------------------
  // When the rules of checkPackagingOptions report.
  // ---------------------------------------------------------------------

  /**
   * A custom descriptor is asked for only when the generated one is not
   * used: reported as not set when its path is empty, as not found when the
   * path names no file or a directory.
   */
  lemma DescriptorRules(env: Env, device: Device, po: PackagingOptions)
    ensures var path := po.customDescriptorPath;
      && (PackagingProblem(device, CustomDescriptor, CustomDescriptorNotSet) in AirPackagingProblems(env, device, po)
          <==> !po.useGeneratedDescriptor && path == "")
      && (PackagingProblem(device, CustomDescriptor, CustomDescriptorNotFound(path)) in AirPackagingProblems(env, device, po)
          <==> !po.useGeneratedDescriptor && path != "" && (!env.fs.Exists(path) || env.fs.IsDirectory(path)))
  {
    AirRuleOwnsLocation(env, device, po, PackagingProblem(device, CustomDescriptor, CustomDescriptorNotSet));
    AirRuleOwnsLocation(env, device, po, PackagingProblem(device, CustomDescriptor, CustomDescriptorNotFound(po.customDescriptorPath)));
  }

  /** The package file name is reported as not set exactly when it is empty. */
  lemma PackageFileNameRule(env: Env, device: Device, po: PackagingOptions)
    ensures PackagingProblem(device, PackageFileName, PackageFileNameNotSet) in AirPackagingProblems(env, device, po)
      <==> po.packageFileName == ""
  {
    AirRuleOwnsLocation(env, device, po, PackagingProblem(device, PackageFileName, PackageFileNameNotSet));
  }

  /**
   * The keystore is checked unless a device other than iOS uses a
   * temporary certificate: not set when its path is empty, not found when
   * the path names no file or a directory.
   */
  lemma KeystoreRules(env: Env, device: Device, po: PackagingOptions)
    ensures var path, checked := po.signing.keystorePath, !(device != Ios && po.signing.useTempCertificate);
      && (PackagingProblem(device, Keystore, KeystoreNotSet) in AirPackagingProblems(env, device, po) <==> checked && path == "")
      && (PackagingProblem(device, Keystore, KeystoreNotFound(path)) in AirPackagingProblems(env, device, po)
          <==> checked && path != "" && (!env.fs.Exists(path) || env.fs.IsDirectory(path)))
  {
    var path := po.signing.keystorePath;
    var ks := KeystoreProblems(env, device, po);
    assert PackagingProblem(device, Keystore, KeystoreNotSet) in ks <==> !(device != Ios && po.signing.useTempCertificate) && path == "";
    assert PackagingProblem(device, Keystore, KeystoreNotFound(path)) in ks
      <==> !(device != Ios && po.signing.useTempCertificate) && path != "" && (!env.fs.Exists(path) || env.fs.IsDirectory(path));
    KeystoreRuleOwns(env, device, po, PackagingProblem(device, Keystore, KeystoreNotSet));
    KeystoreRuleOwns(env, device, po, PackagingProblem(device, Keystore, KeystoreNotFound(path)));
  }

  /** A problem about the keystore is in checkPackagingOptions' list exactly when the keystore rule reports it. */
  lemma KeystoreRuleOwns(env: Env, device: Device, po: PackagingOptions, q: Problem)
    requires q.location == Keystore
    ensures q in AirPackagingProblems(env, device, po) <==> q in KeystoreProblems(env, device, po)
  {
    AirRuleOwnsLocation(env, device, po, q);
  }

  /** The provisioning profile is checked for iOS only, in the same way as the keystore. */
  lemma ProvisioningRules(env: Env, device: Device, po: PackagingOptions)
    ensures var path := po.signing.provisioningProfilePath;
      && (PackagingProblem(device, ProvisioningProfile, IosProvisioningProfileNotSet) in AirPackagingProblems(env, device, po)
          <==> device == Ios && path == "")
      && (PackagingProblem(device, ProvisioningProfile, IosProvisioningProfileNotFound(path)) in AirPackagingProblems(env, device, po)
          <==> device == Ios && path != "" && (!env.fs.Exists(path) || env.fs.IsDirectory(path)))
  {
    AirRuleOwnsLocation(env, device, po, PackagingProblem(device, ProvisioningProfile, IosProvisioningProfileNotSet));
    AirRuleOwnsLocation(env, device, po,
                        PackagingProblem(device, ProvisioningProfile, IosProvisioningProfileNotFound(po.signing.provisioningProfilePath)));
  }

  /**
   * Conversely to PackagingDispatch: a problem is reported for the BC
   * exactly when it is an application and the problem is one of its
   * desktop options (desktop platform), or of its Android or iOS options
   * with that target enabled (mobile platform).
   */
  lemma PackagingMembership(env: Env, bc: BuildConfiguration, q: Problem)
    ensures q in PackagingProblems(env, bc) <==>
      && bc.outputType == Application
      && ((bc.targetPlatform == Desktop && q in AirPackagingProblems(env, AirDesktop, bc.desktopPackaging))
          || (bc.targetPlatform == Mobile
              && ((bc.androidPackaging.enabled && q in AirPackagingProblems(env, Android, bc.androidPackaging))
                  || (bc.iosPackaging.enabled && q in AirPackagingProblems(env, Ios, bc.iosPackaging)))))
  {
    var desktop := AirPackagingProblems(env, AirDesktop, bc.desktopPackaging);
    var android := AirPackagingProblems(env, Android, bc.androidPackaging);
    var ios := AirPackagingProblems(env, Ios, bc.iosPackaging);
    DispatchMembership(bc, PackagingProblems(env, bc), desktop, android, ios, q);
  }

  /** The dispatch of the BC overload, over the problems of each device. */
  lemma DispatchMembership(bc: BuildConfiguration, r: seq<Problem>, desktop: seq<Problem>, android: seq<Problem>, ios: seq<Problem>,
                           q: Problem)
    requires r == if bc.outputType != Application then []
                  else if bc.targetPlatform == Desktop then desktop
                  else if bc.targetPlatform == Mobile then
                    (if bc.androidPackaging.enabled then android else []) + (if bc.iosPackaging.enabled then ios else [])
                  else []
    ensures q in r <==>
      && bc.outputType == Application
      && ((bc.targetPlatform == Desktop && q in desktop)
          || (bc.targetPlatform == Mobile
              && ((bc.androidPackaging.enabled && q in android) || (bc.iosPackaging.enabled && q in ios))))
  {
  }
}
