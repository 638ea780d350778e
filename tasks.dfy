/**
 * What the build step plans per (module, BC) item before it hands the work
 * to the compilation manager: the dependency BCs of each task, the extra
 * tasks that compile a BC's runtime style sheets to their own .swf files,
 * the choice between the built-in compiler and mxmlc/compc, the per-module
 * lists of BCs with resource files, and which files are sources.
 */
module CompilationPlanning {
  import opened Wrappers
  import opened Strings
  import opened BuildModel
  import ScopeResolution

  // ---------------------------------------------------------------------
  // The dependency BCs of one compilation task.
  // ---------------------------------------------------------------------

  /** A dependency entry names a BC the task waits for: it resolves to a non-skipped BC and is not loaded at runtime. */
  predicate Contributes(project: Project, e: DependencyEntry)
  {
    && e.BuildConfigurationEntry?
    && Lookup(project, e).Some?
    && !Lookup(project, e).value.bc.skipCompile
    && e.linkage != LoadInRuntime
  }

  /** The BCs the contributing entries of the list name. */
  function TaskDependencySet(project: Project, entries: seq<DependencyEntry>): set<BuildConfiguration>
  {
    if entries == [] then {}
    else
      var e := entries[|entries| - 1];
      TaskDependencySet(project, entries[..|entries| - 1])
      + (if Contributes(project, e) then {Lookup(project, e).value.bc} else {})
  }

  /** The dependency set process builds for each BC it compiles. */
  method TaskDependencies(project: Project, bc: BuildConfiguration) returns (deps: set<BuildConfiguration>)
    ensures deps == TaskDependencySet(project, bc.dependencies)
  {
    deps := {};
    for i := 0 to |bc.dependencies|
      invariant deps == TaskDependencySet(project, bc.dependencies[..i])
    {
      var e := bc.dependencies[i];
      assert bc.dependencies[..i + 1][..i] == bc.dependencies[..i];
      if e.BuildConfigurationEntry? {
        var found := Lookup(project, e);
        if found.Some? && !found.value.bc.skipCompile && e.linkage != LoadInRuntime {
          deps := deps + {found.value.bc};
        }
      }
    }
    assert bc.dependencies[..|bc.dependencies|] == bc.dependencies;
  }

  /** A BC is a task dependency exactly when some contributing entry names it. */
  lemma {:induction false} TaskDependencyMembers(project: Project, entries: seq<DependencyEntry>, d: BuildConfiguration)
    ensures d in TaskDependencySet(project, entries)
      <==> exists e :: e in entries && Contributes(project, e) && Lookup(project, e).value.bc == d
  {
    if entries != [] {
      var init, e := entries[..|entries| - 1], entries[|entries| - 1];
      TaskDependencyMembers(project, init, d);
      assert entries == init + [e];
    }
  }

  /**
   * The task dependencies of a BC whose non-skipped dependency targets all
   * lie in a set of pairs (as the resolved scope's closure guarantees) are
   * BCs of that set.
   */
  lemma TaskDependenciesInScope(project: Project, bc: BuildConfiguration, t: set<ModuleAndBC>, d: BuildConfiguration)
    requires ScopeResolution.SuccsIn(project, bc, t)
    requires d in TaskDependencySet(project, bc.dependencies)
    ensures exists q :: q in t && q.bc == d
  {
    TaskDependencyMembers(project, bc.dependencies, d);
    var e :| e in bc.dependencies && Contributes(project, e) && Lookup(project, e).value.bc == d;
    assert Lookup(project, e).value in t;
  }

  // ---------------------------------------------------------------------
  // Runtime style sheets compiled as BCs of their own.
  // ---------------------------------------------------------------------

  /** Factory.getTemporaryCopyForCompilation: a copy marked as temporary; nothing else of it is modelled. */
  function TemporaryCopy(bc: BuildConfiguration): BuildConfiguration
  {
    bc.(tempForCompilation := true)
  }

  /** The source root of a file, else its content root, else none. */
  function RootOf(env: Env, path: string): Option<string>
  {
    if path in env.sourceRoots then Some(env.sourceRoots[path])
    else if path in env.contentRoots then Some(env.contentRoots[path])
    else None
  }

  /** The folder of the style sheet below its root, absent when it has no root or lies outside it. */
  function StylesheetRelativePath(env: Env, cssPath: string): Option<string>
  {
    match RootOf(env, cssPath)
    case None => None
    case Some(root) => RelativePath(ParentPath(cssPath), root)
  }

  /**
   * The BC that compiles one runtime style sheet of bc: a temporary copy
   * whose main class is the style sheet, whose output file is the style
   * sheet's name with .swf, with no style sheets and no resource files of
   * its own, and whose output folder is the parent's output folder
   * extended by the style sheet's folder below its root when that is not
   * empty.
   */
  function StylesheetBC(env: Env, bc: BuildConfiguration, cssPath: string): (r: BuildConfiguration)
    ensures r.tempForCompilation && r.mainClass == cssPath
    ensures r.outputFileName == NameWithoutExtension(FileName(cssPath)) + ".swf"
    ensures r.cssFilesToCompile == [] && r.compilerOptions.resourceFilesMode == NoResourceFiles
    ensures r.compilerOptions.(resourceFilesMode := bc.compilerOptions.resourceFilesMode) == bc.compilerOptions
    ensures r.(tempForCompilation := bc.tempForCompilation, mainClass := bc.mainClass, outputFileName := bc.outputFileName,
               outputFolder := bc.outputFolder, cssFilesToCompile := bc.cssFilesToCompile,
               compilerOptions := bc.compilerOptions) == bc
    ensures var rel := StylesheetRelativePath(env, cssPath);
      r.outputFolder == if rel.Some? && rel.value != "" then ParentPath(ActualOutputFilePath(bc)) + "/" + rel.value else bc.outputFolder
  {
    var copy := TemporaryCopy(bc).(
      mainClass := cssPath,
      outputFileName := NameWithoutExtension(FileName(cssPath)) + ".swf",
      cssFilesToCompile := [],
      compilerOptions := bc.compilerOptions.(resourceFilesMode := NoResourceFiles));
    var rel := StylesheetRelativePath(env, cssPath);
    if rel.Some? && rel.value != "" then copy.(outputFolder := ParentPath(ActualOutputFilePath(bc)) + "/" + rel.value)
    else copy
  }

  /** One task of FlexCompilationManager: the module, the BC, the BCs it waits for, and which compiler runs it. */
  datatype CompilationTask = CompilationTask(
    moduleName: string,
    bc: BuildConfiguration,
    dependencies: set<BuildConfiguration>,
    builtIn: bool)

  /** The tasks for the existing style sheets among the paths, in order. */
  function StylesheetTasks(env: Env, item: ModuleAndBC, deps: set<BuildConfiguration>, paths: seq<string>, builtIn: bool)
    : seq<CompilationTask>
  {
    if paths == [] then []
    else
      var path := paths[|paths| - 1];
      StylesheetTasks(env, item, deps, paths[..|paths| - 1], builtIn)
      + (if env.fs.Exists(path) then [CompilationTask(item.moduleName, StylesheetBC(env, item.bc, path), deps, builtIn)] else [])
  }

  /** The tasks for one item: its own, then one per existing runtime style sheet when its BC can have them. */
  function ItemTasks(env: Env, project: Project, item: ModuleAndBC, builtIn: bool): seq<CompilationTask>
  {
    var deps := TaskDependencySet(project, item.bc.dependencies);
    [CompilationTask(item.moduleName, item.bc, deps, builtIn)]
    + (if CanHaveRuntimeStylesheets(env, item.bc) then StylesheetTasks(env, item, deps, item.bc.cssFilesToCompile, builtIn) else [])
  }

  /** The tasks for all items, in order. */
  function PlannedTasks(env: Env, project: Project, items: seq<ModuleAndBC>, builtIn: bool): seq<CompilationTask>
  {
    if items == [] then []
    else PlannedTasks(env, project, items[..|items| - 1], builtIn) + ItemTasks(env, project, items[|items| - 1], builtIn)
  }

  /** The style sheet loop after one more path: a task for it when the file exists. */
  lemma StylesheetTasksStep(env: Env, item: ModuleAndBC, deps: set<BuildConfiguration>, paths: seq<string>, i: nat, builtIn: bool)
    requires i < |paths|
    ensures StylesheetTasks(env, item, deps, paths[..i + 1], builtIn)
         == StylesheetTasks(env, item, deps, paths[..i], builtIn)
            + (if env.fs.Exists(paths[i]) then [CompilationTask(item.moduleName, StylesheetBC(env, item.bc, paths[i]), deps, builtIn)] else [])
  {
    assert paths[..i + 1][..i] == paths[..i];
  }

  /** The BC the loop of process builds for one existing style sheet, setter by setter. */
  method MakeStylesheetBC(env: Env, bc: BuildConfiguration, cssPath: string) returns (cssBC: BuildConfiguration)
    ensures cssBC == StylesheetBC(env, bc, cssPath)
  {
    cssBC := TemporaryCopy(bc);
    cssBC := cssBC.(mainClass := cssPath);
    cssBC := cssBC.(outputFileName := NameWithoutExtension(FileName(cssPath)) + ".swf");
    cssBC := cssBC.(cssFilesToCompile := []);
    cssBC := cssBC.(compilerOptions := cssBC.compilerOptions.(resourceFilesMode := NoResourceFiles));
    var root := RootOf(env, cssPath);
    var relativePath := if root.None? then None else RelativePath(ParentPath(cssPath), root.value);
    if relativePath.Some? && relativePath.value != "" {
      var outputFolder := ParentPath(ActualOutputFilePath(bc));
      cssBC := cssBC.(outputFolder := outputFolder + "/" + relativePath.value);
    }
  }

  /** The style sheet loop of process for one item. */
  method RuntimeStylesheetTasks(env: Env, item: ModuleAndBC, deps: set<BuildConfiguration>, builtIn: bool)
    returns (tasks: seq<CompilationTask>)
    ensures tasks == StylesheetTasks(env, item, deps, item.bc.cssFilesToCompile, builtIn)
  {
    var bc := item.bc;
    var paths := bc.cssFilesToCompile;
    tasks := [];
    for i := 0 to |paths|
      invariant tasks == StylesheetTasks(env, item, deps, paths[..i], builtIn)
    {
      var cssPath := paths[i];
      StylesheetTasksStep(env, item, deps, paths, i, builtIn);
      if !env.fs.Exists(cssPath) {
        continue;
      }
      var cssBC := MakeStylesheetBC(env, bc, cssPath);
      tasks := tasks + [CompilationTask(item.moduleName, cssBC, deps, builtIn)];
    }
    assert paths[..|paths|] == paths;
  }

  /** The task loop of process. */
  method CompilationTasks(env: Env, project: Project, items: seq<ModuleAndBC>, builtIn: bool)
    returns (tasks: seq<CompilationTask>)
    ensures tasks == PlannedTasks(env, project, items, builtIn)
  {
    tasks := [];
    for i := 0 to |items|
      invariant tasks == PlannedTasks(env, project, items[..i], builtIn)
    {
      var item := items[i];
      assert items[..i + 1][..i] == items[..i];
      var deps := TaskDependencies(project, item.bc);
      tasks := tasks + [CompilationTask(item.moduleName, item.bc, deps, builtIn)];
      if CanHaveRuntimeStylesheets(env, item.bc) {
        var cssTasks := RuntimeStylesheetTasks(env, item, deps, builtIn);
        tasks := tasks + cssTasks;
      }
    }
    assert items[..|items|] == items;
  }

  /** A style sheet task is planned exactly for each existing style sheet among the paths. */
  lemma {:induction false} StylesheetTaskMembers(env: Env, item: ModuleAndBC, deps: set<BuildConfiguration>, paths: seq<string>,
                                                 builtIn: bool, t: CompilationTask)
    ensures t in StylesheetTasks(env, item, deps, paths, builtIn)
      <==> exists path :: path in paths && env.fs.Exists(path)
                          && t == CompilationTask(item.moduleName, StylesheetBC(env, item.bc, path), deps, builtIn)
  {
    if paths != [] {
      var init := paths[..|paths| - 1];
      StylesheetTaskMembers(env, item, deps, init, builtIn, t);
      assert paths == init + [paths[|paths| - 1]];
    }
  }

  /** At most one task per style sheet path. */
  lemma {:induction false} StylesheetTaskCount(env: Env, item: ModuleAndBC, deps: set<BuildConfiguration>, paths: seq<string>, builtIn: bool)
    ensures |StylesheetTasks(env, item, deps, paths, builtIn)| <= |paths|
  {
    if paths != [] {
      StylesheetTaskCount(env, item, deps, paths[..|paths| - 1], builtIn);
    }
  }

  /** Every item gets its own task with its own BC, and every task belongs to some item and waits for that item's dependencies. */
  lemma {:induction false} PlannedTaskMembers(env: Env, project: Project, items: seq<ModuleAndBC>, builtIn: bool, t: CompilationTask)
    ensures t in PlannedTasks(env, project, items, builtIn)
      <==> exists i :: 0 <= i < |items| && t in ItemTasks(env, project, items[i], builtIn)
  {
    if items != [] {
      var init := items[..|items| - 1];
      PlannedTaskMembers(env, project, init, builtIn, t);
      assert forall i :: 0 <= i < |init| ==> items[i] == init[i];
    }
  }

  /** Each task of an item uses the item's module, the item's dependency set and the chosen compiler. */
  lemma ItemTasksShareDependencies(env: Env, project: Project, item: ModuleAndBC, builtIn: bool, t: CompilationTask)
    requires t in ItemTasks(env, project, item, builtIn)
    ensures t.moduleName == item.moduleName && t.builtIn == builtIn
    ensures t.dependencies == TaskDependencySet(project, item.bc.dependencies)
    ensures t.bc == item.bc || (CanHaveRuntimeStylesheets(env, item.bc) && t.bc.tempForCompilation && t.bc.mainClass in item.bc.cssFilesToCompile)
  {
    var deps := TaskDependencySet(project, item.bc.dependencies);
    if t != CompilationTask(item.moduleName, item.bc, deps, builtIn) {
      StylesheetTaskMembers(env, item, deps, item.bc.cssFilesToCompile, builtIn, t);
    }
  }

  /**
   * A style sheet src/theme/app.css of a BC writing /out/app.swf, under
   * the source root src, is compiled to /out/theme/app.swf.
   */
  lemma StylesheetOutputExample(env: Env, bc: BuildConfiguration)
    requires bc.outputFolder == "/out" && bc.outputFileName == "app.swf"
    requires env.sourceRoots == map["/src/theme/app.css" := "/src"]
    ensures StylesheetBC(env, bc, "/src/theme/app.css").outputFolder == "/out/theme"
    ensures StylesheetBC(env, bc, "/src/theme/app.css").outputFileName == "app.swf"
  {
    ExampleStylesheetPath();
    ExampleRelativePath();
    ExampleOutputPath();
    assert ActualOutputFilePath(bc) == "/out/app.swf";
    assert StylesheetRelativePath(env, "/src/theme/app.css") == Some("theme");
    assert "/out" + "/" + "theme" == "/out/theme";
    assert "app" + ".swf" == "app.swf";
  }

  lemma ExampleOutputPath()
    ensures ParentPath("/out/app.swf") == "/out"
  {
    assert "/out/app.swf" == "/out" + ['/'] + "app.swf";
    LastIndexOfJoin("/out", '/', "app.swf");
  }

  lemma ExampleStylesheetPath()
    ensures ParentPath("/src/theme/app.css") == "/src/theme"
    ensures NameWithoutExtension(FileName("/src/theme/app.css")) == "app"
  {
    assert "/src/theme/app.css" == "/src/theme" + ['/'] + "app.css";
    LastIndexOfJoin("/src/theme", '/', "app.css");
    assert "app.css" == "app" + ['.'] + "css";
    LastIndexOfJoin("app", '.', "css");
  }

  lemma ExampleRelativePath()
    ensures RelativePath("/src/theme", "/src") == Some("theme")
  {
    assert "/src/theme"[..5] == "/src/";
  }

  // ---------------------------------------------------------------------
  // Choosing the compiler.
  // ---------------------------------------------------------------------

  /** All items use the first item's SDK. */
  predicate SameSdk(items: seq<ModuleAndBC>)
    requires |items| > 0
  {
    forall i :: 0 <= i < |items| ==> items[i].bc.sdk == items[0].bc.sdk
  }

  /**
   * getSdkIfSame: the first item's SDK when every item uses it, else none.
   * The source reads the first item's SDK without a check, relying on the
   * earlier validation that every BC has one.
   */
  method GetSdkIfSame(items: seq<ModuleAndBC>) returns (sdk: Option<string>)
    requires |items| > 0 && items[0].bc.sdk.Some?
    ensures sdk.Some? <==> SameSdk(items)
    ensures sdk.Some? ==> sdk == items[0].bc.sdk
  {
    var first := items[0].bc.sdk.value;
    for i := 1 to |items|
      invariant forall j :: 0 <= j < i ==> items[j].bc.sdk == Some(first)
    {
      if items[i].bc.sdk != Some(first) {
        return None;
      }
    }
    return Some(first);
  }

  /** FlexCompilerProjectConfiguration: the compiler shell and the built-in compiler switches. */
  datatype CompilerSettings = CompilerSettings(useFcsh: bool, useBuiltInCompiler: bool)

  /** What process hands to the compilation manager, or that the compiler shell is unsupported. */
  datatype Plan = FcshUnsupported | Plan(builtIn: bool, tasks: seq<CompilationTask>)

  /**
   * process without its messages and compiler handling: the compiler shell
   * plans nothing; otherwise the built-in compiler is used only when chosen
   * and all items share one SDK, and each item is planned in order.
   */
  method PlanCompilation(env: Env, project: Project, settings: CompilerSettings, items: seq<ModuleAndBC>) returns (plan: Plan)
    requires !settings.useFcsh ==> |items| > 0 && items[0].bc.sdk.Some?
    ensures settings.useFcsh <==> plan.FcshUnsupported?
    ensures !settings.useFcsh ==> plan.builtIn == (settings.useBuiltInCompiler && SameSdk(items))
    ensures !settings.useFcsh ==> plan.tasks == PlannedTasks(env, project, items, plan.builtIn)
  {
    if settings.useFcsh {
      return FcshUnsupported;
    }
    var builtIn := settings.useBuiltInCompiler;
    var commonSdk := GetSdkIfSame(items);
    if builtIn && commonSdk.None? {
      builtIn := false;
    }
    var tasks := CompilationTasks(env, project, items, builtIn);
    plan := Plan(builtIn, tasks);
  }

  // ---------------------------------------------------------------------
  // BCs with resource files, per module.
  // ---------------------------------------------------------------------

  /** The BC is compiled and copies resource files. */
  predicate HasResourceFiles(env: Env, bc: BuildConfiguration)
  {
    && !bc.skipCompile
    && CanHaveResourceFiles(env, NatureOf(bc))
    && bc.compilerOptions.resourceFilesMode != NoResourceFiles
  }

  /** The BCs of the module's items that have resource files, in item order. */
  function ResourceBCsOf(env: Env, items: seq<ModuleAndBC>, moduleName: string): seq<BuildConfiguration>
  {
    if items == [] then []
    else
      var item := items[|items| - 1];
      ResourceBCsOf(env, items[..|items| - 1], moduleName)
      + (if item.moduleName == moduleName && HasResourceFiles(env, item.bc) then [item.bc] else [])
  }

  /** The map holds, for each module with BCs with resource files, those BCs, and no other module. */
  ghost predicate ResourceMapOf(env: Env, items: seq<ModuleAndBC>, result: map<string, seq<BuildConfiguration>>)
  {
    forall m :: (m in result <==> ResourceBCsOf(env, items, m) != []) && (m in result ==> result[m] == ResourceBCsOf(env, items, m))
  }

  /** The map after one item: a BC with resource files is appended to its module's list. */
  function WithItem(env: Env, before: map<string, seq<BuildConfiguration>>, item: ModuleAndBC)
    : map<string, seq<BuildConfiguration>>
  {
    if HasResourceFiles(env, item.bc)
    then before[item.moduleName := (if item.moduleName in before then before[item.moduleName] else []) + [item.bc]]
    else before
  }

  lemma ResourceMapStep(env: Env, items: seq<ModuleAndBC>, i: nat, before: map<string, seq<BuildConfiguration>>)
    requires i < |items| && ResourceMapOf(env, items[..i], before)
    ensures ResourceMapOf(env, items[..i + 1], WithItem(env, before, items[i]))
  {
    assert items[..i + 1][..i] == items[..i];
  }

  /** mapModuleToBCsWithResourceFiles. */
  method MapModuleToBCsWithResourceFiles(env: Env, items: seq<ModuleAndBC>)
    returns (result: map<string, seq<BuildConfiguration>>)
    ensures ResourceMapOf(env, items, result)
  {
    result := map[];
    for i := 0 to |items|
      invariant ResourceMapOf(env, items[..i], result)
    {
      var item := items[i];
      ResourceMapStep(env, items, i, result);
      var bc := item.bc;
      if !bc.skipCompile && CanHaveResourceFiles(env, NatureOf(bc)) && bc.compilerOptions.resourceFilesMode != NoResourceFiles {
        var bcs := if item.moduleName in result then result[item.moduleName] else [];
        result := result[item.moduleName := bcs + [bc]];
      }
    }
    assert items[..|items|] == items;
  }

  /** A BC is listed for a module exactly when some item of that module holds it and it has resource files. */
  lemma {:induction false} ResourceBCMembers(env: Env, items: seq<ModuleAndBC>, moduleName: string, bc: BuildConfiguration)
    ensures bc in ResourceBCsOf(env, items, moduleName)
      <==> exists i :: 0 <= i < |items| && items[i] == ModuleAndBC(moduleName, bc) && HasResourceFiles(env, bc)
  {
    if items != [] {
      var init := items[..|items| - 1];
      ResourceBCMembers(env, init, moduleName, bc);
      assert forall i :: 0 <= i < |init| ==> items[i] == init[i];
    }
  }

  // ---------------------------------------------------------------------
  // Source files.
  // ---------------------------------------------------------------------

  /** String.equalsIgnoreCase, for ASCII letters. */
  predicate EqualsIgnoreCase(a: string, b: string)
  {
    ToLower(a) == ToLower(b)
  }

  /** isSourceFile: the file's extension is as, mxml or fxg, ignoring case. */
  predicate IsSourceFile(fileName: string)
  {
    var ext := Extension(fileName);
    ext.Some? && (EqualsIgnoreCase(ext.value, "as") || EqualsIgnoreCase(ext.value, "mxml") || EqualsIgnoreCase(ext.value, "fxg"))
  }

  lemma {:induction false} ToLowerOfLower(s: string)
    requires forall k :: 0 <= k < |s| ==> !('A' <= s[k] <= 'Z')
    ensures ToLower(s) == s
  {
    if s != [] {
      ToLowerOfLower(s[1..]);
    }
  }

  /** The extension of base.ext is ext when ext holds no dot. */
  lemma ExtensionAfterLastDot(base: string, ext: string)
    requires '.' !in ext
    ensures Extension(base + "." + ext) == Some(ext)
  {
    LastIndexOfJoin(base, '.', ext);
    assert base + "." + ext == base + ['.'] + ext;
    assert (base + ['.'] + ext)[|base| + 1..] == ext;
  }

  /** base.ext is a source file exactly when ext is as, mxml or fxg ignoring case; a name without a dot never is. */
  lemma SourceFileByExtension(base: string, ext: string, name: string)
    requires '.' !in ext && '.' !in name
    ensures IsSourceFile(base + "." + ext) <==> ToLower(ext) in {"as", "mxml", "fxg"}
    ensures !IsSourceFile(name)
  {
    ExtensionAfterLastDot(base, ext);
    SourceExtensionsAreLower();
  }

  lemma SourceExtensionsAreLower()
    ensures ToLower("as") == "as" && ToLower("mxml") == "mxml" && ToLower("fxg") == "fxg"
  {
    ToLowerOfLower("as");
    ToLowerOfLower("mxml");
    ToLowerOfLower("fxg");
  }
}
