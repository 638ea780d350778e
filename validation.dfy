/**
 * The configuration validator: checkConfiguration, the two
 * checkPackagingOptions overloads and checkDependencyType.  Each rule adds
 * its problems to the sink independently of the others; nothing is thrown.
 * Each check is a method that fills its sink in a loop, proved equal to a
 * specification function assembled rule by rule, about which the lemmas at
 * the end state what the rules promise.
 */
module Validation {
  import opened Wrappers
  import opened Strings
  import opened BuildModel

  /** CreateHtmlWrapperTemplateDialog.HTML_WRAPPER_TEMPLATE_FILE_NAME. */
  const HtmlWrapperTemplateFileName := "index.template.html"

  function GeneralProblem(bc: BuildConfiguration, location: Location, message: Message): Problem
  {
    Problem(GeneralOption(bc.name), location, message)
  }

  function PackagingProblem(device: Device, location: Location, message: Message): Problem
  {
    Problem(PackagingCategory(device), location, message)
  }

  /**
   * The InfoFromConfigFile checkConfiguration works with: that of the
   * additional configuration file when one is set and the BC is not a
   * temporary copy for compilation, DEFAULT otherwise.
   */
  function ConfigInfo(env: Env, bc: BuildConfiguration): ConfigFileInfo
  {
    var path := bc.compilerOptions.additionalConfigFilePath;
    if path != "" && !bc.tempForCompilation && path in env.configFiles then env.configFiles[path] else DefaultInfo
  }

  // ---------------------------------------------------------------------
  // checkConfiguration, rule by rule.
  // ---------------------------------------------------------------------

  function SdkProblems(bc: BuildConfiguration): seq<Problem>
  {
    if bc.sdk.None? then [Problem(Dependencies, SdkLocation, SdkNotSet)] else []
  }

  function ConfigFileProblems(env: Env, bc: BuildConfiguration): seq<Problem>
  {
    var path := bc.compilerOptions.additionalConfigFilePath;
    if path != "" && (!env.fs.Exists(path) || env.fs.IsDirectory(path))
    then [Problem(CompilerOptionsCategory, AdditionalConfigFile, AdditionalConfigFileNotFound(path))]
    else []
  }

  function MainClassProblems(info: ConfigFileInfo, bc: BuildConfiguration): seq<Problem>
  {
    if !IsLib(bc) && info.mainClass.None? && bc.mainClass == ""
    then [GeneralProblem(bc, MainClass, MainClassNotSet)]
    else []
  }

  function OutputFolderProblems(bc: BuildConfiguration): seq<Problem>
  {
    if bc.outputFolder == "" then [GeneralProblem(bc, OutputFolder, OutputFolderNotSet)]
    else if !IsAbsoluteFilePath(bc.outputFolder) then [GeneralProblem(bc, OutputFolder, OutputFolderNotAbsolute(bc.outputFolder))]
    else []
  }

  /** The output rules, applied only when the configuration file sets neither output file name nor folder. */
  function OutputProblems(info: ConfigFileInfo, bc: BuildConfiguration): seq<Problem>
  {
    if info.outputFileName.None? && info.outputFolderPath.None? then
      (if bc.outputFileName == "" then [GeneralProblem(bc, OutputFileName, OutputFileNameNotSet)] else [])
      + (if !IsLib(bc) && !EndsWith(ToLower(bc.outputFileName), ".swf")
         then [GeneralProblem(bc, OutputFileName, OutputFileWrongExtension("swf"))] else [])
      + (if IsLib(bc) && !EndsWith(ToLower(bc.outputFileName), ".swc")
         then [GeneralProblem(bc, OutputFileName, OutputFileWrongExtension("swc"))] else [])
      + OutputFolderProblems(bc)
    else []
  }

  function HtmlWrapperProblems(env: Env, bc: BuildConfiguration): seq<Problem>
  {
    var path := bc.wrapperTemplatePath;
    if bc.targetPlatform == Web && IsApp(bc) && bc.useHtmlWrapper then
      if path == "" then [GeneralProblem(bc, HtmlTemplatePath, HtmlTemplateFolderNotSet)]
      else if !env.fs.Exists(path) || !env.fs.IsDirectory(path) then [GeneralProblem(bc, HtmlTemplatePath, HtmlTemplateFolderNotFound(path))]
      else if !env.fs.Exists(path + "/" + HtmlWrapperTemplateFileName) then [GeneralProblem(bc, HtmlTemplatePath, NoIndexTemplateHtmlFile(path))]
      else []
    else []
  }

  function StylesheetProblem(env: Env, moduleName: string, bc: BuildConfiguration, path: string): seq<Problem>
  {
    if !EndsWith(ToLower(path), ".css") then [GeneralProblem(bc, RuntimeStyleSheets, NotACssRuntimeStylesheet(path))]
    else if !env.fs.Exists(path) then [GeneralProblem(bc, RuntimeStyleSheets, CssNotFound(bc.name, moduleName, path))]
    else []
  }

  function StylesheetProblems(env: Env, moduleName: string, bc: BuildConfiguration, paths: seq<string>): seq<Problem>
  {
    if paths == [] then []
    else StylesheetProblems(env, moduleName, bc, paths[..|paths| - 1]) + StylesheetProblem(env, moduleName, bc, paths[|paths| - 1])
  }

  function SwcIncludeProblem(env: Env, path: string): seq<Problem>
  {
    if !env.fs.Exists(path) then [Problem(CompilerOptionsCategory, FilesToIncludeInSwc, FileToIncludeInSwcNotFound(path))] else []
  }

  function SwcIncludeProblems(env: Env, paths: seq<string>): seq<Problem>
  {
    if paths == [] then []
    else SwcIncludeProblems(env, paths[..|paths| - 1]) + SwcIncludeProblem(env, paths[|paths| - 1])
  }

  function RuntimeStylesheetRuleProblems(env: Env, moduleName: string, bc: BuildConfiguration): seq<Problem>
  {
    if CanHaveRuntimeStylesheets(env, bc) then StylesheetProblems(env, moduleName, bc, bc.cssFilesToCompile) else []
  }

  function SwcRuleProblems(env: Env, bc: BuildConfiguration): seq<Problem>
  {
    if IsLib(bc) then SwcIncludeProblems(env, bc.compilerOptions.filesToIncludeInSwc) else []
  }

  /** What checkConfiguration reports for one BC before the packaging options, rule after rule. */
  function OptionProblems(env: Env, moduleName: string, bc: BuildConfiguration): seq<Problem>
  {
    SdkProblems(bc)
    + ConfigFileProblems(env, bc)
    + MainClassProblems(ConfigInfo(env, bc), bc)
    + OutputProblems(ConfigInfo(env, bc), bc)
    + HtmlWrapperProblems(env, bc)
    + RuntimeStylesheetRuleProblems(env, moduleName, bc)
    + SwcRuleProblems(env, bc)
  }

  /** Everything checkConfiguration reports for one BC. */
  function ConfigurationProblems(env: Env, moduleName: string, bc: BuildConfiguration, checkPackaging: bool): seq<Problem>
  {
    if checkPackaging then OptionProblems(env, moduleName, bc) + PackagingProblems(env, bc)
    else OptionProblems(env, moduleName, bc)
  }

  // ---------------------------------------------------------------------
  // checkPackagingOptions, rule by rule.
  // ---------------------------------------------------------------------

  function DescriptorProblems(env: Env, device: Device, po: PackagingOptions): seq<Problem>
  {
    var path := po.customDescriptorPath;
    if po.useGeneratedDescriptor then []
    else if path == "" then [PackagingProblem(device, CustomDescriptor, CustomDescriptorNotSet)]
    else if !env.fs.Exists(path) || env.fs.IsDirectory(path) then [PackagingProblem(device, CustomDescriptor, CustomDescriptorNotFound(path))]
    else []
  }

  function PackageFileNameProblems(device: Device, po: PackagingOptions): seq<Problem>
  {
    if po.packageFileName == "" then [PackagingProblem(device, PackageFileName, PackageFileNameNotSet)] else []
  }

  /** The path in package with one leading '/' removed. */
  function StrippedPathInPackage(entry: FileToPackage): string
  {
    if StartsWith(entry.pathInPackage, "/") then entry.pathInPackage[1..] else entry.pathInPackage
  }

  function FileToPackageProblems(env: Env, device: Device, entry: FileToPackage): seq<Problem>
  {
    var fullPath := entry.filePath;
    var rel := StrippedPathInPackage(entry);
    if fullPath == "" then [PackagingProblem(device, FilesToPackage, PackagingEmptyFileName)]
    else
      (if !env.fs.Exists(fullPath) then [PackagingProblem(device, FilesToPackage, PackagingFileNotFound(fullPath))] else [])
      + (if rel == "" then [PackagingProblem(device, FilesToPackage, PackagingEmptyRelativePath)] else [])
      + (if env.fs.Exists(fullPath) && env.fs.IsDirectory(fullPath) && !EndsWith(fullPath, "/" + rel)
         then [PackagingProblem(device, FilesToPackage, PackagingRelativePathNotMatches(rel))] else [])
  }

  function FilesToPackageProblems(env: Env, device: Device, entries: seq<FileToPackage>): seq<Problem>
  {
    if entries == [] then []
    else FilesToPackageProblems(env, device, entries[..|entries| - 1]) + FileToPackageProblems(env, device, entries[|entries| - 1])
  }

  function ProvisioningProblems(env: Env, device: Device, po: PackagingOptions): seq<Problem>
  {
    var path := po.signing.provisioningProfilePath;
    if device != Ios then []
    else if path == "" then [PackagingProblem(device, ProvisioningProfile, IosProvisioningProfileNotSet)]
    else if !env.fs.Exists(path) || env.fs.IsDirectory(path) then [PackagingProblem(device, ProvisioningProfile, IosProvisioningProfileNotFound(path))]
    else []
  }

  function KeystoreProblems(env: Env, device: Device, po: PackagingOptions): seq<Problem>
  {
    var path := po.signing.keystorePath;
    var tempCertificate := device != Ios && po.signing.useTempCertificate;
    if tempCertificate then []
    else if path == "" then [PackagingProblem(device, Keystore, KeystoreNotSet)]
    else if !env.fs.Exists(path) || env.fs.IsDirectory(path) then [PackagingProblem(device, Keystore, KeystoreNotFound(path))]
    else []
  }

  /** Everything the packaging-options overload reports for one set of options. */
  function AirPackagingProblems(env: Env, device: Device, po: PackagingOptions): seq<Problem>
  {
    DescriptorProblems(env, device, po)
    + PackageFileNameProblems(device, po)
    + FilesToPackageProblems(env, device, po.filesToPackage)
    + ProvisioningProblems(env, device, po)
    + KeystoreProblems(env, device, po)
  }

  /** Everything the BC overload reports: nothing for a non-application, else per target platform. */
  function PackagingProblems(env: Env, bc: BuildConfiguration): seq<Problem>
  {
    if bc.outputType != Application then []
    else if bc.targetPlatform == Desktop then AirPackagingProblems(env, AirDesktop, bc.desktopPackaging)
    else if bc.targetPlatform == Mobile then
      (if bc.androidPackaging.enabled then AirPackagingProblems(env, Android, bc.androidPackaging) else [])
      + (if bc.iosPackaging.enabled then AirPackagingProblems(env, Ios, bc.iosPackaging) else [])
    else []
  }

  // ---------------------------------------------------------------------
  // checkDependencyType.
  // ---------------------------------------------------------------------

  /**
   * Whether bc may depend on dependencyBC under the given linkage: never on
   * an application, on a runtime-loaded module only from an application and
   * only loaded at runtime, on a library only under a SWC linkage.
   */
  function CheckDependencyType(bc: BuildConfiguration, dependencyBC: BuildConfiguration, linkage: LinkageType): (ok: bool)
    ensures ok <==>
      && dependencyBC.outputType != Application
      && (linkage == LoadInRuntime <==> dependencyBC.outputType == RuntimeLoadedModule)
      && (linkage == LoadInRuntime || linkage in SwcLinkageValues)
      && (dependencyBC.outputType == RuntimeLoadedModule ==> bc.outputType == Application)
    ensures ok ==> linkage != Default && linkage != Test
  {
    match dependencyBC.outputType
    case Application => false
    case RuntimeLoadedModule => bc.outputType == Application && linkage == LoadInRuntime
    case Library => linkage in SwcLinkageValues
  }

  // ---------------------------------------------------------------------
  // The checks as the source runs them: problems appended to a sink.
  // ---------------------------------------------------------------------

  /** checkConfiguration. */
  method CheckConfiguration(env: Env, moduleName: string, bc: BuildConfiguration, checkPackaging: bool)
    returns (problems: seq<Problem>)
    ensures problems == ConfigurationProblems(env, moduleName, bc, checkPackaging)
  {
    var general, info := CheckGeneralOptions(env, bc);
    var output := CheckOutput(info, bc);
    var html := CheckHtmlWrapper(env, bc);
    var css := [];
    if CanHaveRuntimeStylesheets(env, bc) {
      css := CheckRuntimeStylesheets(env, moduleName, bc, bc.cssFilesToCompile);
    }
    var swc := [];
    if IsLib(bc) {
      swc := CheckFilesToIncludeInSwc(env, bc.compilerOptions.filesToIncludeInSwc);
    }
    problems := general + output + html + css + swc;
    if checkPackaging {
      var packaging := CheckPackagingOptions(env, bc);
      problems := problems + packaging;
    }
  }

  /** The SDK, additional configuration file and main class rules of checkConfiguration, and the configuration file's settings. */
  method CheckGeneralOptions(env: Env, bc: BuildConfiguration) returns (problems: seq<Problem>, info: ConfigFileInfo)
    ensures info == ConfigInfo(env, bc)
    ensures problems == SdkProblems(bc) + ConfigFileProblems(env, bc) + MainClassProblems(info, bc)
  {
    problems := [];
    if bc.sdk.None? {
      problems := problems + [Problem(Dependencies, SdkLocation, SdkNotSet)];
    }
    info := DefaultInfo;
    var configPath := bc.compilerOptions.additionalConfigFilePath;
    if configPath != "" {
      if !env.fs.Exists(configPath) || env.fs.IsDirectory(configPath) {
        problems := problems + [Problem(CompilerOptionsCategory, AdditionalConfigFile, AdditionalConfigFileNotFound(configPath))];
      }
      if !bc.tempForCompilation && configPath in env.configFiles {
        info := env.configFiles[configPath];
      }
    }
    assert problems == SdkProblems(bc) + ConfigFileProblems(env, bc);
    if !IsLib(bc) && info.mainClass.None? && bc.mainClass == "" {
      problems := problems + [GeneralProblem(bc, MainClass, MainClassNotSet)];
    }
  }

  /** The output file name and folder rules of checkConfiguration. */
  method CheckOutput(info: ConfigFileInfo, bc: BuildConfiguration) returns (problems: seq<Problem>)
    ensures problems == OutputProblems(info, bc)
  {
    problems := [];
    if info.outputFileName.None? && info.outputFolderPath.None? {
      var name := bc.outputFileName;
      var lower := ToLower(name);
      if name == "" {
        problems := problems + [GeneralProblem(bc, OutputFileName, OutputFileNameNotSet)];
      }
      if !IsLib(bc) && !EndsWith(lower, ".swf") {
        problems := problems + [GeneralProblem(bc, OutputFileName, OutputFileWrongExtension("swf"))];
      }
      if IsLib(bc) && !EndsWith(lower, ".swc") {
        problems := problems + [GeneralProblem(bc, OutputFileName, OutputFileWrongExtension("swc"))];
      }
      var folder := bc.outputFolder;
      if folder == "" {
        problems := problems + [GeneralProblem(bc, OutputFolder, OutputFolderNotSet)];
      } else if !IsAbsoluteFilePath(folder) {
        problems := problems + [GeneralProblem(bc, OutputFolder, OutputFolderNotAbsolute(folder))];
      }
    }
  }

  /** The HTML wrapper template rule of checkConfiguration. */
  method CheckHtmlWrapper(env: Env, bc: BuildConfiguration) returns (problems: seq<Problem>)
    ensures problems == HtmlWrapperProblems(env, bc)
  {
    problems := [];
    if bc.targetPlatform == Web && IsApp(bc) && bc.useHtmlWrapper {
      var path := bc.wrapperTemplatePath;
      if path == "" {
        problems := [GeneralProblem(bc, HtmlTemplatePath, HtmlTemplateFolderNotSet)];
      } else if !env.fs.Exists(path) || !env.fs.IsDirectory(path) {
        problems := [GeneralProblem(bc, HtmlTemplatePath, HtmlTemplateFolderNotFound(path))];
      } else if !env.fs.Exists(path + "/" + HtmlWrapperTemplateFileName) {
        problems := [GeneralProblem(bc, HtmlTemplatePath, NoIndexTemplateHtmlFile(path))];
      }
    }
  }

  /** The loop over the runtime style sheets of checkConfiguration. */
  method CheckRuntimeStylesheets(env: Env, moduleName: string, bc: BuildConfiguration, css: seq<string>)
    returns (problems: seq<Problem>)
    ensures problems == StylesheetProblems(env, moduleName, bc, css)
  {
    problems := [];
    var i := 0;
    while i < |css|
      invariant 0 <= i <= |css|
      invariant problems == StylesheetProblems(env, moduleName, bc, css[..i])
    {
      assert css[..i + 1][..i] == css[..i];
      var path := css[i];
      if !EndsWith(ToLower(path), ".css") {
        problems := problems + [GeneralProblem(bc, RuntimeStyleSheets, NotACssRuntimeStylesheet(path))];
      } else if !env.fs.Exists(path) {
        problems := problems + [GeneralProblem(bc, RuntimeStyleSheets, CssNotFound(bc.name, moduleName, path))];
      }
      i := i + 1;
    }
    assert css[..|css|] == css;
  }

  /** The loop over the files to include in a SWC of checkConfiguration. */
  method CheckFilesToIncludeInSwc(env: Env, files: seq<string>) returns (problems: seq<Problem>)
    ensures problems == SwcIncludeProblems(env, files)
  {
    problems := [];
    var i := 0;
    while i < |files|
      invariant 0 <= i <= |files|
      invariant problems == SwcIncludeProblems(env, files[..i])
    {
      assert files[..i + 1][..i] == files[..i];
      if !env.fs.Exists(files[i]) {
        problems := problems + [Problem(CompilerOptionsCategory, FilesToIncludeInSwc, FileToIncludeInSwcNotFound(files[i]))];
      }
      i := i + 1;
    }
    assert files[..|files|] == files;
  }

  /** checkPackagingOptions(bc, sink). */
  method CheckPackagingOptions(env: Env, bc: BuildConfiguration) returns (problems: seq<Problem>)
    ensures problems == PackagingProblems(env, bc)
  {
    problems := [];
    if bc.outputType != Application {
      return;
    }
    if bc.targetPlatform == Desktop {
      problems := CheckAirPackagingOptions(env, AirDesktop, bc.desktopPackaging);
    } else if bc.targetPlatform == Mobile {
      var android, ios := [], [];
      if bc.androidPackaging.enabled {
        android := CheckAirPackagingOptions(env, Android, bc.androidPackaging);
      }
      if bc.iosPackaging.enabled {
        ios := CheckAirPackagingOptions(env, Ios, bc.iosPackaging);
      }
      problems := android + ios;
    }
  }

  /** checkPackagingOptions(packagingOptions, sink); device says which kind of options they are. */
  method CheckAirPackagingOptions(env: Env, device: Device, po: PackagingOptions) returns (problems: seq<Problem>)
    ensures problems == AirPackagingProblems(env, device, po)
  {
    problems := [];
    if !po.useGeneratedDescriptor {
      var path := po.customDescriptorPath;
      if path == "" {
        problems := [PackagingProblem(device, CustomDescriptor, CustomDescriptorNotSet)];
      } else if !env.fs.Exists(path) || env.fs.IsDirectory(path) {
        problems := [PackagingProblem(device, CustomDescriptor, CustomDescriptorNotFound(path))];
      }
    }
    assert problems == DescriptorProblems(env, device, po);
    if po.packageFileName == "" {
      problems := problems + [PackagingProblem(device, PackageFileName, PackageFileNameNotSet)];
    }
    assert problems == DescriptorProblems(env, device, po) + PackageFileNameProblems(device, po);
    var files := CheckFilesToPackage(env, device, po.filesToPackage);
    var signing := CheckSigning(env, device, po);
    problems := problems + files + signing;
  }

  /** The loop over the files to package of checkPackagingOptions. */
  method CheckFilesToPackage(env: Env, device: Device, files: seq<FileToPackage>) returns (problems: seq<Problem>)
    ensures problems == FilesToPackageProblems(env, device, files)
  {
    problems := [];
    var i := 0;
    while i < |files|
      invariant 0 <= i <= |files|
      invariant problems == FilesToPackageProblems(env, device, files[..i])
    {
      assert files[..i + 1][..i] == files[..i];
      var entryProblems := CheckFileToPackage(env, device, files[i]);
      problems := problems + entryProblems;
      i := i + 1;
    }
    assert files[..|files|] == files;
  }

  /** The provisioning profile and keystore rules of checkPackagingOptions. */
  method CheckSigning(env: Env, device: Device, po: PackagingOptions) returns (problems: seq<Problem>)
    ensures problems == ProvisioningProblems(env, device, po) + KeystoreProblems(env, device, po)
  {
    problems := [];
    if device == Ios {
      var path := po.signing.provisioningProfilePath;
      if path == "" {
        problems := [PackagingProblem(device, ProvisioningProfile, IosProvisioningProfileNotSet)];
      } else if !env.fs.Exists(path) || env.fs.IsDirectory(path) {
        problems := [PackagingProblem(device, ProvisioningProfile, IosProvisioningProfileNotFound(path))];
      }
    }
    assert problems == ProvisioningProblems(env, device, po);
    var tempCertificate := device != Ios && po.signing.useTempCertificate;
    if !tempCertificate {
      var path := po.signing.keystorePath;
      if path == "" {
        problems := problems + [PackagingProblem(device, Keystore, KeystoreNotSet)];
      } else if !env.fs.Exists(path) || env.fs.IsDirectory(path) {
        problems := problems + [PackagingProblem(device, Keystore, KeystoreNotFound(path))];
      }
    }
  }

  /** One entry of the files-to-package loop of checkPackagingOptions. */
  method CheckFileToPackage(env: Env, device: Device, entry: FileToPackage) returns (problems: seq<Problem>)
    ensures problems == FileToPackageProblems(env, device, entry)
  {
    problems := [];
    var fullPath := entry.filePath;
    var rel := entry.pathInPackage;
    if StartsWith(rel, "/") {
      rel := rel[1..];
    }
    if fullPath == "" {
      problems := [PackagingProblem(device, FilesToPackage, PackagingEmptyFileName)];
    } else {
      var found := env.fs.Exists(fullPath);
      if !found {
        problems := problems + [PackagingProblem(device, FilesToPackage, PackagingFileNotFound(fullPath))];
      }
      if |rel| == 0 {
        problems := problems + [PackagingProblem(device, FilesToPackage, PackagingEmptyRelativePath)];
      }
      if found && env.fs.IsDirectory(fullPath) && !EndsWith(fullPath, "/" + rel) {
        problems := problems + [PackagingProblem(device, FilesToPackage, PackagingRelativePathNotMatches(rel))];
      }
    }
  }
}
