/**
 * Scope resolution: which (module, BC) pairs a compile scope builds
 * (getModulesAndBCsToCompile), the transitive closure over BC dependency
 * entries (appendBCDependencies) and the debug-forced copy of a BC
 * (forceDebugStatus).
 */
module ScopeResolution {
  import opened Wrappers
  import opened Strings
  import opened BuildModel

  // ---------------------------------------------------------------------
  // The debug-forced copy.
  // ---------------------------------------------------------------------

  datatype AndroidPackageType = AndroidRelease | AndroidDebugOverNetwork | AndroidDebugOverUsb

  datatype IosPackageType = IosTest | IosDebugOverNetwork | IosAdHoc | IosAppStore

  /** AirPackageProjectParameters: the project-wide package types chosen for Android and iOS. */
  datatype PackageParameters = PackageParameters(androidPackageType: AndroidPackageType, iosPackageType: IosPackageType)

  /** The options forceDebugStatus strips before it appends its own. */
  const DebugOptionNames: set<string> := {"debug", "compiler.debug"}

  /** The debug status forceDebugStatus decides on. */
  function DebugStatus(params: PackageParameters, bc: BuildConfiguration): bool
  {
    if bc.targetPlatform == Mobile then
      if bc.androidPackaging.enabled then params.androidPackageType != AndroidRelease
      else params.iosPackageType == IosDebugOverNetwork
    else false
  }

  /** String.valueOf(boolean). */
  function BoolText(b: bool): string
  {
    if b then "true" else "false"
  }

  function DebugToken(debug: bool): string
  {
    "-debug=" + BoolText(debug)
  }

  /**
   * forceDebugStatus: a copy of bc that differs only in its additional
   * compiler options, whose tokens are the original tokens that set neither
   * debug nor compiler.debug, followed by one -debug token.
   */
  function ForceDebugStatus(params: PackageParameters, bc: BuildConfiguration): (r: BuildConfiguration)
    ensures r.(compilerOptions := bc.compilerOptions) == bc
    ensures r.compilerOptions.(additionalOptions := bc.compilerOptions.additionalOptions) == bc.compilerOptions
    ensures Tokens(r.compilerOptions.additionalOptions)
         == KeepOthers(Tokens(bc.compilerOptions.additionalOptions), DebugOptionNames) + [DebugToken(DebugStatus(params, bc))]
  {
    var debug := DebugStatus(params, bc);
    var options := RemoveOptions(bc.compilerOptions.additionalOptions, DebugOptionNames) + " -debug=" + BoolText(debug);
    ForcedOptionsTokens(bc.compilerOptions.additionalOptions, debug);
    bc.(compilerOptions := bc.compilerOptions.(additionalOptions := options))
  }

  /** The option string forceDebugStatus builds: the kept tokens, then the -debug token. */
  lemma ForcedOptionsTokens(options: string, debug: bool)
    ensures Tokens(RemoveOptions(options, DebugOptionNames) + " -debug=" + BoolText(debug))
         == KeepOthers(Tokens(options), DebugOptionNames) + [DebugToken(debug)]
  {
    var kept := KeepOthers(Tokens(options), DebugOptionNames);
    assert RemoveOptions(options, DebugOptionNames) == Join(kept);
    JoinThenDebugToken(kept, debug);
  }

  lemma JoinThenDebugToken(kept: seq<string>, debug: bool)
    requires forall u :: u in kept ==> IsToken(u)
    ensures Tokens(Join(kept) + " -debug=" + BoolText(debug)) == kept + [DebugToken(debug)]
  {
    assert Join(kept) + " -debug=" + BoolText(debug) == Join(kept) + " " + DebugToken(debug);
    TokensOfJoinThen(kept, DebugToken(debug));
  }

  lemma DebugTokenSetsDebug(debug: bool)
    ensures IsToken(DebugToken(debug))
    ensures OptionName(DebugToken(debug)) == Some("debug")
  {
    var t := DebugToken(debug);
    assert t[1..] == "debug" + ("=" + BoolText(debug));
    NamePartOfName("debug", "=" + BoolText(debug));
  }

  /** Tokens none of which sets debug, then a -debug token: that token is the only debug setting, and the last. */
  lemma DebugTokenLast(ts: seq<string>, kept: seq<string>, debug: bool)
    requires ts == kept + [DebugToken(debug)]
    requires forall x :: x in kept ==> !SetsOneOf(x, DebugOptionNames)
    ensures |ts| > 0
    ensures forall k :: 0 <= k < |ts| - 1 ==> !SetsOneOf(ts[k], DebugOptionNames)
    ensures SetsOneOf(ts[|ts| - 1], DebugOptionNames)
    ensures ts[|ts| - 1] == if debug then "-debug=true" else "-debug=false"
  {
    DebugTokenSetsDebug(debug);
    forall k | 0 <= k < |ts| - 1 ensures !SetsOneOf(ts[k], DebugOptionNames) {
      assert ts[k] == kept[k];
    }
  }

  /**
   * The copy carries exactly one debug setting, its last token, and that
   * token is -debug=true exactly when the BC is a Mobile one and either
   * Android packaging is enabled with a package type other than Release,
   * or it is not and the iOS package type is DebugOverNetwork.
   */
  lemma ForcedDebugFlagIsAuthoritative(params: PackageParameters, bc: BuildConfiguration)
    ensures var ts := Tokens(ForceDebugStatus(params, bc).compilerOptions.additionalOptions);
      && |ts| > 0
      && (forall k :: 0 <= k < |ts| - 1 ==> !SetsOneOf(ts[k], DebugOptionNames))
      && SetsOneOf(ts[|ts| - 1], DebugOptionNames)
      && ts[|ts| - 1] == (if bc.targetPlatform == Mobile
                          && (if bc.androidPackaging.enabled then params.androidPackageType != AndroidRelease
                              else params.iosPackageType == IosDebugOverNetwork)
                          then "-debug=true" else "-debug=false")
  {
    DebugTokenLast(Tokens(ForceDebugStatus(params, bc).compilerOptions.additionalOptions),
                   KeepOthers(Tokens(bc.compilerOptions.additionalOptions), DebugOptionNames), DebugStatus(params, bc));
  }

  // ---------------------------------------------------------------------
  // Dependency closure.
  // ---------------------------------------------------------------------

  /** Every BC entry of bc resolves, and each target that is not skip-compile is in s. */
  ghost predicate DepsIn(project: Project, bc: BuildConfiguration, s: set<ModuleAndBC>)
  {
    forall e :: e in bc.dependencies && e.BuildConfigurationEntry? ==>
      Lookup(project, e).Some? && (Lookup(project, e).value.bc.skipCompile || Lookup(project, e).value in s)
  }

  /** Every resolving, non-skipped target of bc's entries is in t. */
  ghost predicate SuccsIn(project: Project, bc: BuildConfiguration, t: set<ModuleAndBC>)
  {
    forall e :: e in bc.dependencies && Lookup(project, e).Some? && !Lookup(project, e).value.bc.skipCompile ==>
      Lookup(project, e).value in t
  }

  /** t holds the resolving, non-skipped dependency targets of each of its members. */
  ghost predicate Closed(project: Project, t: set<ModuleAndBC>)
  {
    forall p :: p in t ==> SuccsIn(project, p.bc, t)
  }

  ghost predicate RootsSuccsIn(project: Project, roots: set<ModuleAndBC>, t: set<ModuleAndBC>)
  {
    forall r :: r in roots ==> SuccsIn(project, r.bc, t)
  }

  /**
   * p is reached from the roots in one or more steps along resolving,
   * non-skipped dependency entries: it lies in every closed set that holds
   * the roots' dependency targets.
   */
  ghost predicate ReachableFrom(project: Project, roots: set<ModuleAndBC>, p: ModuleAndBC)
  {
    forall t :: RootsSuccsIn(project, roots, t) && Closed(project, t) ==> p in t
  }

  /**
   * s is the resolved set for the roots, seeded with seeds: it holds the
   * seeds, every root's and every member's dependencies resolve and are in
   * s unless skip-compile, no member is skip-compile, and every member is a
   * seed or is reached from the roots.
   */
  ghost predicate IsDependencyClosure(project: Project, roots: set<ModuleAndBC>, seeds: set<ModuleAndBC>, s: set<ModuleAndBC>)
  {
    && seeds <= s
    && (forall r :: r in roots ==> DepsIn(project, r.bc, s))
    && (forall p :: p in s ==> !p.bc.skipCompile && DepsIn(project, p.bc, s))
    && (forall p :: p in s ==> p in seeds || ReachableFrom(project, roots, p))
  }

  /** The error is a dangling entry of a root or of a BC reached from the roots. */
  ghost predicate DanglingReachable(project: Project, roots: set<ModuleAndBC>, err: ConfigError)
  {
    IsDangling(project, err) && (err.owner in roots || ReachableFrom(project, roots, err.owner))
  }

  lemma DepsInMono(project: Project, bc: BuildConfiguration, s: set<ModuleAndBC>, s': set<ModuleAndBC>)
    requires DepsIn(project, bc, s) && s <= s'
    ensures DepsIn(project, bc, s')
  {
  }

  lemma ReachableMono(project: Project, roots: set<ModuleAndBC>, roots': set<ModuleAndBC>, p: ModuleAndBC)
    requires ReachableFrom(project, roots, p) && roots <= roots'
    ensures ReachableFrom(project, roots', p)
  {
    forall t | RootsSuccsIn(project, roots', t) && Closed(project, t) ensures p in t {
      assert RootsSuccsIn(project, roots, t);
    }
  }

  /** A resolving, non-skipped target of one of start's entries is reached from start. */
  lemma TargetReachable(project: Project, start: ModuleAndBC, e: DependencyEntry)
    requires e in start.bc.dependencies && Lookup(project, e).Some? && !Lookup(project, e).value.bc.skipCompile
    ensures ReachableFrom(project, {start}, Lookup(project, e).value)
  {
    forall t | RootsSuccsIn(project, {start}, t) && Closed(project, t) ensures Lookup(project, e).value in t {
      assert SuccsIn(project, start.bc, t);
    }
  }

  /** Reachability composes. */
  lemma ReachableTrans(project: Project, start: ModuleAndBC, q: ModuleAndBC, p: ModuleAndBC)
    requires ReachableFrom(project, {start}, q) && ReachableFrom(project, {q}, p)
    ensures ReachableFrom(project, {start}, p)
  {
    forall t | RootsSuccsIn(project, {start}, t) && Closed(project, t) ensures p in t {
      assert q in t;
      assert SuccsIn(project, q.bc, t);
      assert RootsSuccsIn(project, {q}, t);
    }
  }

  lemma CardinalityShrinks<T>(u: set<T>, a: set<T>, b: set<T>, x: T)
    requires a <= b && x in u && x !in a && x in b
    ensures |u - b| < |u - a|
  {
    assert u - b <= (u - a) - {x};
    SubsetCardinality(u - b, (u - a) - {x});
  }

  lemma SubsetCardinality<T>(a: set<T>, b: set<T>)
    requires a <= b
    ensures |a| <= |b|
  {
    assert b == a + (b - a);
  }

  /** The HashSet of (module, BC) pairs that resolution fills in place. */
  class PairSet {
    var elements: set<ModuleAndBC>

    constructor ()
      ensures elements == {}
    {
      elements := {};
    }

    /** HashSet.add: inserts p and answers whether it was absent. */
    method Add(p: ModuleAndBC) returns (added: bool)
      modifies this
      ensures added == (p !in old(elements))
      ensures elements == old(elements) + {p}
    {
      added := p !in elements;
      elements := elements + {p};
    }
  }

  /** Every pair of s not in initial is a non-skipped pair of the project reached from start whose entries resolve into s. */
  ghost predicate AddedFrom(project: Project, start: ModuleAndBC, initial: set<ModuleAndBC>, s: set<ModuleAndBC>)
  {
    forall p :: p in s - initial ==>
      && p in Universe(project)
      && !p.bc.skipCompile
      && DepsIn(project, p.bc, s)
      && ReachableFrom(project, {start}, p)
  }

  /** A BC entry resolves, and its target is in s unless it is skip-compile. */
  ghost predicate EntryResolved(project: Project, e: DependencyEntry, s: set<ModuleAndBC>)
  {
    e.BuildConfigurationEntry? ==>
      Lookup(project, e).Some? && (Lookup(project, e).value.bc.skipCompile || Lookup(project, e).value in s)
  }

  /** The first i entries are resolved into s. */
  ghost predicate PrefixResolved(project: Project, entries: seq<DependencyEntry>, i: nat, s: set<ModuleAndBC>)
    requires i <= |entries|
  {
    forall j :: 0 <= j < i ==> EntryResolved(project, entries[j], s)
  }

  /** The loop of appendBCDependencies after entry i, which only grew the set and resolved entry i into it. */
  lemma PrefixResolvedStep(project: Project, entries: seq<DependencyEntry>, i: nat, before: set<ModuleAndBC>, after: set<ModuleAndBC>)
    requires i < |entries| && PrefixResolved(project, entries, i, before) && before <= after
    requires EntryResolved(project, entries[i], after)
    ensures PrefixResolved(project, entries, i + 1, after)
  {
  }

  lemma PrefixResolvedAll(project: Project, bc: BuildConfiguration, s: set<ModuleAndBC>)
    requires PrefixResolved(project, bc.dependencies, |bc.dependencies|, s)
    ensures DepsIn(project, bc, s)
  {
    assert forall e :: e in bc.dependencies ==> exists j :: 0 <= j < |bc.dependencies| && bc.dependencies[j] == e;
  }

  /** A target of start, with everything the recursion into it added, is added from start. */
  lemma AddedAfterRecursion(project: Project, start: ModuleAndBC, entry: DependencyEntry, dep: ModuleAndBC,
                            before: set<ModuleAndBC>, mid: set<ModuleAndBC>, after: set<ModuleAndBC>)
    requires entry in start.bc.dependencies && Lookup(project, entry) == Some(dep) && !dep.bc.skipCompile
    requires mid == before + {dep} && mid <= after && DepsIn(project, dep.bc, after)
    requires forall p :: p in after - mid ==>
      && p in Universe(project)
      && !p.bc.skipCompile
      && DepsIn(project, p.bc, after)
      && ReachableFrom(project, {dep}, p)
    ensures AddedFrom(project, start, before, after)
  {
    TargetReachable(project, start, entry);
    forall p | p in after - before ensures ReachableFrom(project, {start}, p) {
      if p != dep {
        ReachableTrans(project, start, dep, p);
      }
    }
  }

  /** A dangling entry reached from a target of start is reached from start. */
  lemma DanglingThroughTarget(project: Project, start: ModuleAndBC, entry: DependencyEntry, dep: ModuleAndBC, err: ConfigError)
    requires entry in start.bc.dependencies && Lookup(project, entry) == Some(dep) && !dep.bc.skipCompile
    requires DanglingReachable(project, {dep}, err)
    ensures DanglingReachable(project, {start}, err)
  {
    TargetReachable(project, start, entry);
    if err.owner != dep {
      ReachableTrans(project, start, dep, err.owner);
    }
  }

  /** What one entry added, after what the earlier entries added, is what the loop added so far. */
  lemma AddedFromTrans(project: Project, start: ModuleAndBC, initial: set<ModuleAndBC>, mid: set<ModuleAndBC>, after: set<ModuleAndBC>)
    requires initial <= mid <= after
    requires AddedFrom(project, start, initial, mid) && AddedFrom(project, start, mid, after)
    ensures AddedFrom(project, start, initial, after)
  {
    forall p | p in mid - initial ensures DepsIn(project, p.bc, after) {
      DepsInMono(project, p.bc, mid, after);
    }
  }

  /**
   * appendBCDependencies: adds to modulesAndBCs the non-skipped targets of
   * bc's BC entries, recursing into each target that was not yet present.
   * On success bc's entries all resolve, every pair it added is a
   * non-skipped pair of the project reached from (moduleName, bc) whose own
   * entries resolve and are present; otherwise it reports a dangling entry
   * of bc or of a BC reached from it.  Recursion is cut by Add's answer, so
   * cycles end without an error.
   */
  method AppendBCDependencies(project: Project, modulesAndBCs: PairSet, moduleName: string, bc: BuildConfiguration)
    returns (err: Option<ConfigError>)
    modifies modulesAndBCs
    decreases |Universe(project) - modulesAndBCs.elements|, 1
    ensures old(modulesAndBCs.elements) <= modulesAndBCs.elements
    ensures err.None? ==> DepsIn(project, bc, modulesAndBCs.elements)
    ensures err.None? ==> forall p :: p in modulesAndBCs.elements - old(modulesAndBCs.elements) ==>
      && p in Universe(project)
      && !p.bc.skipCompile
      && DepsIn(project, p.bc, modulesAndBCs.elements)
      && ReachableFrom(project, {ModuleAndBC(moduleName, bc)}, p)
    ensures err.Some? ==> DanglingReachable(project, {ModuleAndBC(moduleName, bc)}, err.value)
  {
    ghost var start := ModuleAndBC(moduleName, bc);
    ghost var initial := modulesAndBCs.elements;
    var i := 0;
    while i < |bc.dependencies|
      invariant 0 <= i <= |bc.dependencies|
      invariant initial <= modulesAndBCs.elements
      invariant PrefixResolved(project, bc.dependencies, i, modulesAndBCs.elements)
      invariant AddedFrom(project, start, initial, modulesAndBCs.elements)
      invariant |Universe(project) - modulesAndBCs.elements| <= |Universe(project) - initial|
    {
      ghost var previous := modulesAndBCs.elements;
      var entryErr := AppendEntryDependencies(project, modulesAndBCs, ModuleAndBC(moduleName, bc), bc.dependencies[i]);
      if entryErr.Some? {
        return entryErr;
      }
      PrefixResolvedStep(project, bc.dependencies, i, previous, modulesAndBCs.elements);
      AddedFromTrans(project, start, initial, previous, modulesAndBCs.elements);
      SubsetCardinality(Universe(project) - modulesAndBCs.elements, Universe(project) - previous);
      i := i + 1;
    }
    PrefixResolvedAll(project, bc, modulesAndBCs.elements);
    return None;
  }

  /**
   * The body of appendBCDependencies' loop for one entry of owner's BC: a
   * dangling BC entry is an error; a non-skipped target is added and, when
   * it was absent, its own dependencies are appended.
   */
  method AppendEntryDependencies(project: Project, modulesAndBCs: PairSet, owner: ModuleAndBC, entry: DependencyEntry)
    returns (err: Option<ConfigError>)
    requires entry in owner.bc.dependencies
    modifies modulesAndBCs
    decreases |Universe(project) - modulesAndBCs.elements|, 0
    ensures old(modulesAndBCs.elements) <= modulesAndBCs.elements
    ensures err.None? ==> EntryResolved(project, entry, modulesAndBCs.elements)
    ensures err.None? ==> AddedFrom(project, owner, old(modulesAndBCs.elements), modulesAndBCs.elements)
    ensures err.Some? ==> DanglingReachable(project, {owner}, err.value)
  {
    if entry.BuildConfigurationEntry? {
      var dependency := Lookup(project, entry);
      if dependency.None? {
        return Some(DanglingDependency(entry, owner));
      }
      var dep := dependency.value;
      if !dep.bc.skipCompile {
        ghost var before := modulesAndBCs.elements;
        var added := modulesAndBCs.Add(dep);
        if added {
          CardinalityShrinks(Universe(project), before, modulesAndBCs.elements, dep);
          ghost var mid := modulesAndBCs.elements;
          var inner := AppendBCDependencies(project, modulesAndBCs, dep.moduleName, dep.bc);
          if inner.Some? {
            DanglingThroughTarget(project, owner, entry, dep, inner.value);
            return inner;
          }
          AddedAfterRecursion(project, owner, entry, dep, before, mid, modulesAndBCs.elements);
        }
      }
    }
    return None;
  }

  /** The resolved set holds everything reached from the roots. */
  lemma ClosureContainsReachable(project: Project, roots: set<ModuleAndBC>, seeds: set<ModuleAndBC>, s: set<ModuleAndBC>, p: ModuleAndBC)
    requires IsDependencyClosure(project, roots, seeds, s)
    requires ReachableFrom(project, roots, p)
    ensures p in s
  {
    DepsInGivesSuccs(project, roots, s);
  }

  lemma DepsInGivesSuccs(project: Project, roots: set<ModuleAndBC>, s: set<ModuleAndBC>)
    requires forall r :: r in roots ==> DepsIn(project, r.bc, s)
    requires forall p :: p in s ==> DepsIn(project, p.bc, s)
    ensures RootsSuccsIn(project, roots, s) && Closed(project, s)
  {
    forall r | r in roots ensures SuccsIn(project, r.bc, s) {
      assert DepsIn(project, r.bc, s);
    }
    forall p | p in s ensures SuccsIn(project, p.bc, s) {
      assert DepsIn(project, p.bc, s);
    }
  }

  /**
   * Resolution is determined by its roots and seeds: two sets that both
   * satisfy IsDependencyClosure are equal, so resolving an unchanged scope
   * again yields the same set.
   */
  lemma ClosureIsUnique(project: Project, roots: set<ModuleAndBC>, seeds: set<ModuleAndBC>, s1: set<ModuleAndBC>, s2: set<ModuleAndBC>)
    requires IsDependencyClosure(project, roots, seeds, s1)
    requires IsDependencyClosure(project, roots, seeds, s2)
    ensures s1 == s2
  {
    forall p | p in s1 ensures p in s2 {
      if p !in seeds {
        ClosureContainsReachable(project, roots, seeds, s2, p);
      }
    }
    forall p | p in s2 ensures p in s1 {
      if p !in seeds {
        ClosureContainsReachable(project, roots, seeds, s1, p);
      }
    }
  }

  // ---------------------------------------------------------------------
  // The three forms of compile scope.
  // ---------------------------------------------------------------------

  datatype RunConfigurationKind = FlashRunConfiguration | FlexUnitRunConfiguration | OtherRunConfiguration

  /**
   * A run configuration: its kind, its name, and what its
   * checkAndGetModuleAndBC answers (the pair, or the error's message).
   */
  datatype RunConfiguration = RunConfiguration(kind: RunConfigurationKind, name: string, binding: Result<ModuleAndBC, string>)

  /**
   * CompileScope: the MODULES_AND_BCS_TO_COMPILE user data (absent when not
   * set), the run configuration the scope runs before (if any) and the
   * affected modules.
   */
  datatype CompileScope = CompileScope(
    bcsToCompile: Option<seq<ModuleAndBC>>,
    runConfiguration: Option<RunConfiguration>,
    affectedModules: seq<Module>)

  /** The listed pairs that are not skip-compile. */
  ghost function ListedRoots(list: seq<ModuleAndBC>): set<ModuleAndBC>
  {
    set p | p in list && !p.bc.skipCompile
  }

  /** The debug-forced copies of the listed pairs that are not skip-compile. */
  ghost function ListedCopies(params: PackageParameters, list: seq<ModuleAndBC>): set<ModuleAndBC>
  {
    set p | p in list && !p.bc.skipCompile :: ModuleAndBC(p.moduleName, ForceDebugStatus(params, p.bc))
  }

  /**
   * The outcome of resolving an explicit list: success with the closure of
   * the listed non-skipped pairs seeded with their debug-forced copies, or
   * a dangling entry reached from them.
   */
  ghost predicate ExplicitListOutcome(project: Project, params: PackageParameters, list: seq<ModuleAndBC>,
                                      r: Result<set<ModuleAndBC>, ConfigError>)
  {
    && (r.Ok? ==> IsDependencyClosure(project, ListedRoots(list), ListedCopies(params, list), r.value))
    && (r.Err? ==> DanglingReachable(project, ListedRoots(list), r.error))
  }

  /** The bound pair, or nothing when it is skip-compile. */
  function BoundRoots(p: ModuleAndBC): set<ModuleAndBC>
  {
    if p.bc.skipCompile then {} else {p}
  }

  /**
   * The outcome of resolving a run configuration: its binding error as a
   * configuration error naming it, or the closure of the bound pair (empty
   * when that is skip-compile), or a dangling entry reached from it.
   */
  ghost predicate RunConfigurationOutcome(project: Project, rc: RunConfiguration, r: Result<set<ModuleAndBC>, ConfigError>)
  {
    match rc.binding
    case Err(message) => r == Err(RunConfigurationError(message, rc.name))
    case Ok(pair) =>
      && (r.Ok? ==> IsDependencyClosure(project, BoundRoots(pair), BoundRoots(pair), r.value))
      && (r.Err? ==> DanglingReachable(project, BoundRoots(pair), r.error))
  }

  /** The non-skipped BCs of the Flex modules among the given ones. */
  ghost function OpenScopePairs(modules: seq<Module>): set<ModuleAndBC>
  {
    set m, bc | m in modules && m.isFlexModule && bc in m.buildConfigurations && !bc.skipCompile :: ModuleAndBC(m.name, bc)
  }

  /** A skip-compile entry of the list adds no root and no copy. */
  lemma ListedSkip(params: PackageParameters, list: seq<ModuleAndBC>, i: nat)
    requires i < |list| && list[i].bc.skipCompile
    ensures ListedRoots(list[..i + 1]) == ListedRoots(list[..i])
    ensures ListedCopies(params, list[..i + 1]) == ListedCopies(params, list[..i])
  {
    assert list[..i + 1] == list[..i] + [list[i]];
  }

  /** A dangling entry reached from one listed, non-skipped entry is reached from the listed roots. */
  lemma ListedError(project: Project, list: seq<ModuleAndBC>, i: nat, err: ConfigError)
    requires i < |list| && !list[i].bc.skipCompile
    requires DanglingReachable(project, {list[i]}, err)
    ensures DanglingReachable(project, ListedRoots(list), err)
  {
    if err.owner != list[i] {
      ReachableMono(project, {list[i]}, ListedRoots(list), err.owner);
    }
  }

  /** A listed, non-skipped entry adds itself as a root and its debug-forced copy as a seed. */
  lemma ListedGrows(params: PackageParameters, list: seq<ModuleAndBC>, i: nat)
    requires i < |list| && !list[i].bc.skipCompile
    ensures ListedRoots(list[..i + 1]) == ListedRoots(list[..i]) + {list[i]}
    ensures ListedCopies(params, list[..i + 1])
         == ListedCopies(params, list[..i]) + {ModuleAndBC(list[i].moduleName, ForceDebugStatus(params, list[i].bc))}
  {
    assert list[..i + 1] == list[..i] + [list[i]];
  }

  /**
   * Adding one root and its seed: once the seed is added and the root's
   * dependencies appended, the set is the closure of the larger roots.
   */
  lemma ClosureGrows(project: Project, roots: set<ModuleAndBC>, seeds: set<ModuleAndBC>, pair: ModuleAndBC,
                     copy: ModuleAndBC, before: set<ModuleAndBC>, after: set<ModuleAndBC>)
    requires IsDependencyClosure(project, roots, seeds, before)
    requires !copy.bc.skipCompile && copy.bc.dependencies == pair.bc.dependencies
    requires before + {copy} <= after && DepsIn(project, pair.bc, after)
    requires forall p :: p in after - (before + {copy}) ==>
      !p.bc.skipCompile && DepsIn(project, p.bc, after) && ReachableFrom(project, {pair}, p)
    ensures IsDependencyClosure(project, roots + {pair}, seeds + {copy}, after)
  {
    forall q | q in roots ensures DepsIn(project, q.bc, after) {
      DepsInMono(project, q.bc, before, after);
    }
    forall q | q in after
      ensures !q.bc.skipCompile && DepsIn(project, q.bc, after)
      ensures q in seeds + {copy} || ReachableFrom(project, roots + {pair}, q)
    {
      if q in before {
        DepsInMono(project, q.bc, before, after);
        if q !in seeds {
          ReachableMono(project, roots, roots + {pair}, q);
        }
      } else if q != copy {
        ReachableMono(project, {pair}, roots + {pair}, q);
      }
    }
  }

  method ResolveExplicitList(project: Project, params: PackageParameters, list: seq<ModuleAndBC>)
    returns (r: Result<set<ModuleAndBC>, ConfigError>)
    ensures ExplicitListOutcome(project, params, list, r)
  {
    var result := new PairSet();
    var i := 0;
    while i < |list|
      invariant 0 <= i <= |list|
      invariant IsDependencyClosure(project, ListedRoots(list[..i]), ListedCopies(params, list[..i]), result.elements)
    {
      var pair := list[i];
      if !pair.bc.skipCompile {
        ghost var before := result.elements;
        var copy := ModuleAndBC(pair.moduleName, ForceDebugStatus(params, pair.bc));
        var _ := result.Add(copy);
        var err := AppendBCDependencies(project, result, pair.moduleName, pair.bc);
        if err.Some? {
          ListedError(project, list, i, err.value);
          return Err(err.value);
        }
        ListedGrows(params, list, i);
        ClosureGrows(project, ListedRoots(list[..i]), ListedCopies(params, list[..i]), pair, copy, before, result.elements);
      } else {
        ListedSkip(params, list, i);
      }
      i := i + 1;
    }
    assert list[..|list|] == list;
    return Ok(result.elements);
  }

  method ResolveRunConfiguration(project: Project, rc: RunConfiguration)
    returns (r: Result<set<ModuleAndBC>, ConfigError>)
    ensures RunConfigurationOutcome(project, rc, r)
  {
    if rc.binding.Err? {
      return Err(RunConfigurationError(rc.binding.error, rc.name));
    }
    var pair := rc.binding.value;
    var result := new PairSet();
    if !pair.bc.skipCompile {
      var _ := result.Add(pair);
      var err := AppendBCDependencies(project, result, pair.moduleName, pair.bc);
      if err.Some? {
        return Err(err.value);
      }
    }
    return Ok(result.elements);
  }

  method ResolveAffectedModules(modules: seq<Module>) returns (s: set<ModuleAndBC>)
    ensures s == OpenScopePairs(modules)
  {
    var result := new PairSet();
    var i := 0;
    while i < |modules|
      invariant 0 <= i <= |modules|
      invariant result.elements == OpenScopePairs(modules[..i])
    {
      var m := modules[i];
      assert modules[..i + 1] == modules[..i] + [m];
      if m.isFlexModule {
        var bcs := m.buildConfigurations;
        var j := 0;
        while j < |bcs|
          invariant 0 <= j <= |bcs|
          invariant result.elements == OpenScopePairs(modules[..i])
                                       + set bc | bc in bcs[..j] && !bc.skipCompile :: ModuleAndBC(m.name, bc)
        {
          assert bcs[..j + 1] == bcs[..j] + [bcs[j]];
          if !bcs[j].skipCompile {
            var _ := result.Add(ModuleAndBC(m.name, bcs[j]));
          }
          j := j + 1;
        }
        assert bcs[..j] == bcs;
      }
      i := i + 1;
    }
    assert modules[..|modules|] == modules;
    return result.elements;
  }

  /**
   * getModulesAndBCsToCompile: an explicit list takes precedence, then a
   * Flash or FlexUnit run configuration, and otherwise every non-skipped BC
   * of each affected Flex module (with no dependency expansion).
   */
  method GetModulesAndBCsToCompile(project: Project, params: PackageParameters, scope: CompileScope)
    returns (r: Result<set<ModuleAndBC>, ConfigError>)
    ensures scope.bcsToCompile.Some? ==> ExplicitListOutcome(project, params, scope.bcsToCompile.value, r)
    ensures scope.bcsToCompile.None? && scope.runConfiguration.Some?
            && scope.runConfiguration.value.kind != OtherRunConfiguration ==>
              RunConfigurationOutcome(project, scope.runConfiguration.value, r)
    ensures scope.bcsToCompile.None?
            && (scope.runConfiguration.None? || scope.runConfiguration.value.kind == OtherRunConfiguration) ==>
              r == Ok(OpenScopePairs(scope.affectedModules))
  {
    if scope.bcsToCompile.Some? {
      r := ResolveExplicitList(project, params, scope.bcsToCompile.value);
    } else if scope.runConfiguration.Some? && scope.runConfiguration.value.kind != OtherRunConfiguration {
      r := ResolveRunConfiguration(project, scope.runConfiguration.value);
    } else {
      var s := ResolveAffectedModules(scope.affectedModules);
      r := Ok(s);
    }
  }
}
