/**
 * The project model the Flex build step reads: modules, their build
 * configurations (BCs), dependency entries, packaging options, the problem
 * records the validator reports, and the outside world it consults (file
 * system, parsed compiler configuration files, source and content roots,
 * and which BC natures allow runtime stylesheets and resource files).
 */
module BuildModel {
  import opened Wrappers

  datatype OutputType = Application | RuntimeLoadedModule | Library

  datatype TargetPlatform = Web | Desktop | Mobile

  datatype LinkageType = Default | Merged | RSL | External | Include | LoadInRuntime | Test

  /** LinkageType.getSwcLinkageValues: the linkages under which a library (SWC) may be used. */
  const SwcLinkageValues: set<LinkageType> := {Merged, RSL, External, Include}

  datatype ResourceFilesMode = NoResourceFiles | AllResourceFiles | ResourcePatterns

  /** BuildConfigurationNature: target platform, pure ActionScript or not, and output type. */
  datatype Nature = Nature(targetPlatform: TargetPlatform, pureAS: bool, outputType: OutputType)

  /** A dependency entry of a BC: on another BC, named by module and BC name, or on a library. */
  datatype DependencyEntry =
    | BuildConfigurationEntry(moduleName: string, bcName: string, linkage: LinkageType)
    | LibraryEntry(libraryName: string, linkage: LinkageType)

  datatype CompilerOptions = CompilerOptions(
    additionalOptions: string,
    additionalConfigFilePath: string,
    filesToIncludeInSwc: seq<string>,
    resourceFilesMode: ResourceFilesMode)

  /** Which AIR packaging options an instance is: desktop, Android or iOS. */
  datatype Device = AirDesktop | Android | Ios

  datatype FileToPackage = FileToPackage(filePath: string, pathInPackage: string)

  datatype SigningOptions = SigningOptions(
    useTempCertificate: bool,
    provisioningProfilePath: string,
    keystorePath: string)

  /** AirPackagingOptions; which of the three kinds an instance is follows from the BC field that holds it. */
  datatype PackagingOptions = PackagingOptions(
    enabled: bool,
    useGeneratedDescriptor: bool,
    customDescriptorPath: string,
    packageFileName: string,
    filesToPackage: seq<FileToPackage>,
    signing: SigningOptions)

  /** FlexIdeBuildConfiguration: one compilable configuration of a module. */
  datatype BuildConfiguration = BuildConfiguration(
    name: string,
    targetPlatform: TargetPlatform,
    pureAS: bool,
    outputType: OutputType,
    skipCompile: bool,
    mainClass: string,
    outputFileName: string,
    outputFolder: string,
    useHtmlWrapper: bool,
    wrapperTemplatePath: string,
    cssFilesToCompile: seq<string>,
    dependencies: seq<DependencyEntry>,
    sdk: Option<string>,
    compilerOptions: CompilerOptions,
    tempForCompilation: bool,
    desktopPackaging: PackagingOptions,
    androidPackaging: PackagingOptions,
    iosPackaging: PackagingOptions)

  function NatureOf(bc: BuildConfiguration): Nature
  {
    Nature(bc.targetPlatform, bc.pureAS, bc.outputType)
  }

  predicate IsLib(bc: BuildConfiguration) { bc.outputType == Library }

  predicate IsApp(bc: BuildConfiguration) { bc.outputType == Application }

  /** getActualOutputFilePath: the output folder and the output file name. */
  function ActualOutputFilePath(bc: BuildConfiguration): string
  {
    bc.outputFolder + "/" + bc.outputFileName
  }

  /** A module, its type (Flex or other) and its BCs. */
  datatype Module = Module(name: string, isFlexModule: bool, buildConfigurations: seq<BuildConfiguration>)

  /** The project's modules, by name. */
  type Project = map<string, Module>

  /** Pair<Module, FlexIdeBuildConfiguration>, with the module given by its name. */
  datatype ModuleAndBC = ModuleAndBC(moduleName: string, bc: BuildConfiguration)

  /** The first BC of the list with the given name. */
  function FindByName(bcs: seq<BuildConfiguration>, name: string): (r: Option<BuildConfiguration>)
    ensures r.Some? ==> r.value in bcs && r.value.name == name
    ensures r.None? ==> forall bc :: bc in bcs ==> bc.name != name
  {
    if bcs == [] then None
    else if bcs[0].name == name then Some(bcs[0])
    else FindByName(bcs[1..], name)
  }

  /** Every (module, BC) pair of the project. */
  ghost function Universe(project: Project): set<ModuleAndBC>
  {
    set n, bc | n in project && bc in project[n].buildConfigurations :: ModuleAndBC(n, bc)
  }

  /**
   * BuildConfigurationEntry.findModule then findBuildConfiguration: the
   * module and BC a dependency entry names, absent when the entry is not a
   * BC entry or either of them does not exist.
   */
  function Lookup(project: Project, e: DependencyEntry): (r: Option<ModuleAndBC>)
    ensures r.Some? ==> e.BuildConfigurationEntry? && r.value in Universe(project)
    ensures r.Some? ==> r.value.moduleName == e.moduleName && r.value.bc.name == e.bcName
  {
    if e.LibraryEntry? || e.moduleName !in project then None
    else
      match FindByName(project[e.moduleName].buildConfigurations, e.bcName)
      case None => None
      case Some(bc) => Some(ModuleAndBC(e.moduleName, bc))
  }

  /** ConfigurationException: a dangling BC dependency, or a run configuration that cannot be resolved. */
  datatype ConfigError =
    | DanglingDependency(entry: DependencyEntry, owner: ModuleAndBC)
    | RunConfigurationError(message: string, runConfigurationName: string)

  /** The error names an entry of its owner BC that does not resolve. */
  predicate IsDangling(project: Project, err: ConfigError)
  {
    && err.DanglingDependency?
    && err.entry.BuildConfigurationEntry?
    && err.entry in err.owner.bc.dependencies
    && Lookup(project, err.entry).None?
  }

  // ---------------------------------------------------------------------
  // Problem records (FlashProjectStructureProblem) without message text.
  // ---------------------------------------------------------------------

  /** Which factory made the problem; a general-option problem names its BC, a packaging problem its options. */
  datatype Category =
    | Dependencies
    | CompilerOptionsCategory
    | GeneralOption(bcName: string)
    | PackagingCategory(device: Device)

  /** The field of the settings UI the problem points at. */
  datatype Location =
    | SdkLocation | AdditionalConfigFile | MainClass | OutputFileName | OutputFolder
    | HtmlTemplatePath | RuntimeStyleSheets | FilesToIncludeInSwc
    | CustomDescriptor | PackageFileName | FilesToPackage | ProvisioningProfile | Keystore

  /** The message key of the problem and its arguments. */
  datatype Message =
    | SdkNotSet
    | AdditionalConfigFileNotFound(path: string)
    | MainClassNotSet
    | OutputFileNameNotSet
    | OutputFileWrongExtension(extension: string)
    | OutputFolderNotSet
    | OutputFolderNotAbsolute(folder: string)
    | HtmlTemplateFolderNotSet
    | HtmlTemplateFolderNotFound(path: string)
    | NoIndexTemplateHtmlFile(path: string)
    | NotACssRuntimeStylesheet(path: string)
    | CssNotFound(bcName: string, moduleName: string, path: string)
    | FileToIncludeInSwcNotFound(path: string)
    | CustomDescriptorNotSet
    | CustomDescriptorNotFound(path: string)
    | PackageFileNameNotSet
    | PackagingEmptyFileName
    | PackagingFileNotFound(path: string)
    | PackagingEmptyRelativePath
    | PackagingRelativePathNotMatches(relativePath: string)
    | IosProvisioningProfileNotSet
    | IosProvisioningProfileNotFound(path: string)
    | KeystoreNotSet
    | KeystoreNotFound(path: string)
    | SameOutputFiles(existingBCName: string, existingModuleName: string, outputPath: string)

  datatype Problem = Problem(category: Category, location: Location, message: Message)

  /** A problem together with the module and BC it is reported against. */
  datatype ReportedProblem = ReportedProblem(moduleName: string, bc: BuildConfiguration, problem: Problem)

  // ---------------------------------------------------------------------
  // The outside world.
  // ---------------------------------------------------------------------

  /** LocalFileSystem: the paths of existing files and directories. */
  datatype FileSystem = FileSystem(files: set<string>, directories: set<string>)
  {
    predicate Exists(path: string) { path in files || path in directories }
    predicate IsDirectory(path: string) { path in directories }
  }

  /** InfoFromConfigFile: what a compiler configuration file sets, each part possibly absent. */
  datatype ConfigFileInfo = ConfigFileInfo(
    mainClass: Option<string>,
    outputFileName: Option<string>,
    outputFolderPath: Option<string>)

  /** InfoFromConfigFile.DEFAULT. */
  const DefaultInfo := ConfigFileInfo(None, None, None)

  /**
   * The collaborators the core consults: the file system, the parsed
   * configuration files by path, the source and content root of a file by
   * the file's path, and the BC natures for which BCUtils allows runtime
   * stylesheets and resource files.
   */
  datatype Env = Env(
    fs: FileSystem,
    configFiles: map<string, ConfigFileInfo>,
    sourceRoots: map<string, string>,
    contentRoots: map<string, string>,
    runtimeStylesheetNatures: set<Nature>,
    resourceFileNatures: set<Nature>)

  /** BCUtils.canHaveRuntimeStylesheets. */
  predicate CanHaveRuntimeStylesheets(env: Env, bc: BuildConfiguration)
  {
    NatureOf(bc) in env.runtimeStylesheetNatures
  }

  /** BCUtils.canHaveResourceFiles. */
  predicate CanHaveResourceFiles(env: Env, nature: Nature)
  {
    nature in env.resourceFileNatures
  }
}
