/**
 * validateConfiguration: checks every (module, BC) pair the scope compiles
 * without its packaging, checks the Android packaging of the pair a Flash
 * run configuration launches on an Android device, then checks that no two
 * pairs write the same output file.  The build goes ahead only when
 * nothing was reported.
 */
module ProjectValidation {
  import opened Wrappers
  import opened BuildModel
  import opened Validation
  import opened OutputConflicts

  /** The runner parameters of the scope's run configuration, when that is a Flash run configuration. */
  datatype FlashRunTarget = FlashRunTarget(moduleName: string, bcName: string, onAndroidDevice: bool)

  /** The problems of one pair, as the dialog receives them. */
  function Reported(pair: ModuleAndBC, ps: seq<Problem>): (r: seq<ReportedProblem>)
    ensures |r| == |ps|
    ensures forall k :: 0 <= k < |r| ==> r[k] == ReportedProblem(pair.moduleName, pair.bc, ps[k])
  {
    if ps == [] then [] else [ReportedProblem(pair.moduleName, pair.bc, ps[0])] + Reported(pair, ps[1..])
  }

  /** The pair is a mobile application that the Flash run configuration launches on an Android device. */
  predicate RunsOnAndroidDevice(pair: ModuleAndBC, run: Option<FlashRunTarget>)
  {
    && pair.bc.targetPlatform == Mobile && pair.bc.outputType == Application
    && run.Some? && run.value.moduleName == pair.moduleName && run.value.bcName == pair.bc.name
    && run.value.onAndroidDevice
  }

  /** What is reported for one pair: its configuration problems, then the Android packaging problems when it is launched on a device. */
  function PairProblems(env: Env, pair: ModuleAndBC, run: Option<FlashRunTarget>): seq<ReportedProblem>
  {
    Reported(pair, ConfigurationProblems(env, pair.moduleName, pair.bc, false))
    + (if RunsOnAndroidDevice(pair, run) then Reported(pair, AirPackagingProblems(env, Android, pair.bc.androidPackaging)) else [])
  }

  /** The check of each pair, as one function of the pair. */
  function PairCheck(env: Env, run: Option<FlashRunTarget>): ModuleAndBC -> seq<ReportedProblem>
  {
    pair => PairProblems(env, pair, run)
  }

  /** What a check reports for each pair in turn. */
  function Flat(check: ModuleAndBC -> seq<ReportedProblem>, pairs: seq<ModuleAndBC>): seq<ReportedProblem>
  {
    if pairs == [] then []
    else Flat(check, pairs[..|pairs| - 1]) + check(pairs[|pairs| - 1])
  }

  /** Everything validateConfiguration reports for the resolved pairs, in order. */
  function ValidationProblems(env: Env, caseSensitive: bool, pairs: seq<ModuleAndBC>, run: Option<FlashRunTarget>)
    : seq<ReportedProblem>
  {
    Flat(PairCheck(env, run), pairs) + Conflicts(caseSensitive, pairs)
  }

  /** The body of validateConfiguration's loop for one pair. */
  method CheckPair(env: Env, pair: ModuleAndBC, run: Option<FlashRunTarget>) returns (reported: seq<ReportedProblem>)
    ensures reported == PairProblems(env, pair, run)
  {
    var ps := CheckConfiguration(env, pair.moduleName, pair.bc, false);
    reported := Reported(pair, ps);
    if pair.bc.targetPlatform == Mobile && pair.bc.outputType == Application {
      if run.Some? && run.value.moduleName == pair.moduleName && run.value.bcName == pair.bc.name && run.value.onAndroidDevice {
        var packaging := CheckAirPackagingOptions(env, Android, pair.bc.androidPackaging);
        reported := reported + Reported(pair, packaging);
      }
    }
  }

  /** validateConfiguration's loop over the pairs. */
  method CheckPairs(env: Env, pairs: seq<ModuleAndBC>, run: Option<FlashRunTarget>) returns (problems: seq<ReportedProblem>)
    ensures problems == Flat(PairCheck(env, run), pairs)
  {
    problems := [];
    for i := 0 to |pairs|
      invariant problems == Flat(PairCheck(env, run), pairs[..i])
    {
      assert pairs[..i + 1][..i] == pairs[..i];
      var reported := CheckPair(env, pairs[i], run);
      assert reported == PairCheck(env, run)(pairs[i]);
      problems := problems + reported;
    }
    assert pairs[..|pairs|] == pairs;
  }

  /**
   * validateConfiguration, given whether the scope affects any module and
   * what getModulesAndBCsToCompile answers (the pairs in iteration order,
   * or its error).  It answers true with nothing reported when no module is
   * affected, false on an error, and otherwise true exactly when nothing
   * was reported.
   */
  method ValidateConfiguration(env: Env, caseSensitive: bool, hasAffectedModules: bool,
                               resolved: Result<seq<ModuleAndBC>, ConfigError>, run: Option<FlashRunTarget>)
    returns (ok: bool, problems: seq<ReportedProblem>)
    ensures !hasAffectedModules ==> ok && problems == []
    ensures hasAffectedModules && resolved.Err? ==> !ok && problems == []
    ensures hasAffectedModules && resolved.Ok? ==>
      problems == ValidationProblems(env, caseSensitive, resolved.value, run) && (ok <==> problems == [])
  {
    problems := [];
    if !hasAffectedModules {
      return true, problems;
    }
    if resolved.Err? {
      return false, problems;
    }
    var pairs := resolved.value;
    problems := CheckPairs(env, pairs, run);
    var _, conflicts := CheckSimilarOutputFiles(caseSensitive, pairs);
    problems := problems + conflicts;
    ok := problems == [];
  }

  /** A check reports nothing for the pairs exactly when it reports nothing for any one of them. */
  lemma {:induction false} FlatEmpty(check: ModuleAndBC -> seq<ReportedProblem>, pairs: seq<ModuleAndBC>)
    ensures Flat(check, pairs) == [] <==> forall i :: 0 <= i < |pairs| ==> check(pairs[i]) == []
  {
    if pairs != [] {
      var init := pairs[..|pairs| - 1];
      FlatEmpty(check, init);
      assert forall i :: 0 <= i < |init| ==> pairs[i] == init[i];
    }
  }

  /** Nothing is reported for a pair exactly when it passes checkConfiguration and, when launched on an Android device, its Android packaging check. */
  lemma PairPasses(env: Env, pair: ModuleAndBC, run: Option<FlashRunTarget>)
    ensures PairProblems(env, pair, run) == []
      <==> && ConfigurationProblems(env, pair.moduleName, pair.bc, false) == []
           && (RunsOnAndroidDevice(pair, run) ==> AirPackagingProblems(env, Android, pair.bc.androidPackaging) == [])
  {
  }

  /**
   * Validation passes exactly when nothing is reported for any pair and no
   * two pairs share an output path.
   */
  lemma ValidationPasses(env: Env, caseSensitive: bool, pairs: seq<ModuleAndBC>, run: Option<FlashRunTarget>)
    ensures ValidationProblems(env, caseSensitive, pairs, run) == []
      <==> && (forall i :: 0 <= i < |pairs| ==> PairProblems(env, pairs[i], run) == [])
           && (forall i, j :: 0 <= i < j < |pairs| ==> KeyOf(caseSensitive, pairs[i]) != KeyOf(caseSensitive, pairs[j]))
  {
    FlatEmpty(PairCheck(env, run), pairs);
    NoConflictsIffDistinct(caseSensitive, pairs);
  }
}
