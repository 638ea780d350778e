/**
 * checkSimilarOutputFiles and checkOutputPathUnique: one pass over the
 * (module, BC) pairs to compile that remembers, per output path, the pair
 * that claimed it last, and reports every pair whose output path was
 * already claimed, naming the pair that held it.  Paths are compared as
 * written on a case-sensitive file system and lower-cased otherwise.
 */
module OutputConflicts {
  import opened Wrappers
  import opened Strings
  import opened BuildModel

  /** The map key of an output path: the path itself, or its lower-case form on a case-insensitive file system. */
  function Key(caseSensitive: bool, path: string): string
  {
    if caseSensitive then path else ToLower(path)
  }

  function KeyOf(caseSensitive: bool, p: ModuleAndBC): string
  {
    Key(caseSensitive, ActualOutputFilePath(p.bc))
  }

  /** The keys claimed by some pair of the list. */
  ghost function KeysOf(caseSensitive: bool, ps: seq<ModuleAndBC>): set<string>
  {
    if ps == [] then {} else KeysOf(caseSensitive, ps[..|ps| - 1]) + {KeyOf(caseSensitive, ps[|ps| - 1])}
  }

  /** The problem reported against p when existing already claimed its output path. */
  function SameOutput(p: ModuleAndBC, existing: ModuleAndBC): ReportedProblem
  {
    ReportedProblem(p.moduleName, p.bc,
      Problem(GeneralOption(p.bc.name), OutputFileName,
              SameOutputFiles(existing.bc.name, existing.moduleName, ActualOutputFilePath(p.bc))))
  }

  /** The index of the last pair of the list whose output path has the given key. */
  function LastClaim(caseSensitive: bool, ps: seq<ModuleAndBC>, k: string): (r: Option<nat>)
    ensures r.Some? ==> r.value < |ps| && KeyOf(caseSensitive, ps[r.value]) == k
    ensures r.Some? ==> forall j :: r.value < j < |ps| ==> KeyOf(caseSensitive, ps[j]) != k
    ensures r.None? ==> forall j :: 0 <= j < |ps| ==> KeyOf(caseSensitive, ps[j]) != k
  {
    if ps == [] then None
    else if KeyOf(caseSensitive, ps[|ps| - 1]) == k then Some(|ps| - 1)
    else LastClaim(caseSensitive, ps[..|ps| - 1], k)
  }

  /** The last pair of the list that claimed the key. */
  function LastClaimant(caseSensitive: bool, ps: seq<ModuleAndBC>, k: string): Option<ModuleAndBC>
  {
    match LastClaim(caseSensitive, ps, k)
    case None => None
    case Some(i) => Some(ps[i])
  }

  /** What one pass reports for p after the pairs before it. */
  function ConflictOf(caseSensitive: bool, before: seq<ModuleAndBC>, p: ModuleAndBC): seq<ReportedProblem>
  {
    match LastClaim(caseSensitive, before, KeyOf(caseSensitive, p))
    case None => []
    case Some(i) => [SameOutput(p, before[i])]
  }

  /**
   * The problems of one pass over the pairs, in order: each pair whose key
   * an earlier pair claimed is reported against the last such claimant.
   */
  function Conflicts(caseSensitive: bool, ps: seq<ModuleAndBC>): seq<ReportedProblem>
  {
    if ps == [] then []
    else Conflicts(caseSensitive, ps[..|ps| - 1]) + ConflictOf(caseSensitive, ps[..|ps| - 1], ps[|ps| - 1])
  }

  /** The map's answer for a key, as Map.get. */
  function Get(claims: map<string, ModuleAndBC>, k: string): Option<ModuleAndBC>
  {
    if k in claims then Some(claims[k]) else None
  }

  /** The map holds, for each key, the last pair of the list that claimed it, and nothing else. */
  ghost predicate Mirrors(claims: map<string, ModuleAndBC>, caseSensitive: bool, ps: seq<ModuleAndBC>)
  {
    forall k :: Get(claims, k) == LastClaimant(caseSensitive, ps, k)
  }

  /** No two pairs of the list have the same output path key. */
  ghost predicate DistinctKeys(caseSensitive: bool, ps: seq<ModuleAndBC>)
  {
    forall i, j :: 0 <= i < j < |ps| ==> KeyOf(caseSensitive, ps[i]) != KeyOf(caseSensitive, ps[j])
  }

  /** The output path to pair map of checkSimilarOutputFiles. */
  class OutputPathMap {
    var claims: map<string, ModuleAndBC>

    constructor ()
      ensures claims == map[]
    {
      claims := map[];
    }

    /** Map.put: stores p under the key and answers what the key held before. */
    method Put(k: string, p: ModuleAndBC) returns (existing: Option<ModuleAndBC>)
      modifies this
      ensures claims == old(claims)[k := p]
      ensures existing == Get(old(claims), k)
    {
      existing := Get(claims, k);
      claims := claims[k := p];
    }
  }

  /**
   * checkOutputPathUnique: claims the output path for the pair and answers
   * the problem to report when another pair held it.
   */
  method CheckOutputPathUnique(caseSensitive: bool, outputPath: string, p: ModuleAndBC, m: OutputPathMap)
    returns (problem: Option<ReportedProblem>)
    modifies m
    ensures m.claims == old(m.claims)[Key(caseSensitive, outputPath) := p]
    ensures Get(old(m.claims), Key(caseSensitive, outputPath)).None? ==> problem.None?
    ensures Get(old(m.claims), Key(caseSensitive, outputPath)).Some? ==>
      var existing := old(m.claims)[Key(caseSensitive, outputPath)];
      problem == Some(ReportedProblem(p.moduleName, p.bc,
        Problem(GeneralOption(p.bc.name), OutputFileName, SameOutputFiles(existing.bc.name, existing.moduleName, outputPath))))
  {
    var caseAwarePath := if caseSensitive then outputPath else ToLower(outputPath);
    var existing := m.Put(caseAwarePath, p);
    problem := None;
    if existing.Some? {
      var e := existing.value;
      problem := Some(ReportedProblem(p.moduleName, p.bc,
        Problem(GeneralOption(p.bc.name), OutputFileName, SameOutputFiles(e.bc.name, e.moduleName, outputPath))));
    }
  }

  /** Claiming p's key keeps the map equal to the last claimant of each key. */
  lemma ClaimsAfter(caseSensitive: bool, pairs: seq<ModuleAndBC>, i: nat,
                    before: map<string, ModuleAndBC>, after: map<string, ModuleAndBC>)
    requires i < |pairs|
    requires Mirrors(before, caseSensitive, pairs[..i])
    requires after == before[KeyOf(caseSensitive, pairs[i]) := pairs[i]]
    ensures Mirrors(after, caseSensitive, pairs[..i + 1])
  {
    var ps, p := pairs[..i], pairs[i];
    assert pairs[..i + 1] == ps + [p];
    assert (ps + [p])[..|ps|] == ps;
    forall k
      ensures Get(after, k) == LastClaimant(caseSensitive, ps + [p], k)
    {
      if KeyOf(caseSensitive, p) != k {
        assert LastClaim(caseSensitive, ps + [p], k) == LastClaim(caseSensitive, ps, k);
        assert LastClaimant(caseSensitive, ps, k) == Get(before, k);
      }
    }
  }

  /** The problem, if any, that checkOutputPathUnique gives p against a map that held before. */
  function PutProblem(caseSensitive: bool, p: ModuleAndBC, before: map<string, ModuleAndBC>): seq<ReportedProblem>
  {
    match Get(before, KeyOf(caseSensitive, p))
    case None => []
    case Some(e) => [SameOutput(p, e)]
  }

  /** One step of the pass: the problems so far grow by what the map's previous holder of p's key gives. */
  lemma ConflictsAfter(caseSensitive: bool, pairs: seq<ModuleAndBC>, i: nat, before: map<string, ModuleAndBC>)
    requires i < |pairs|
    requires Mirrors(before, caseSensitive, pairs[..i])
    ensures Conflicts(caseSensitive, pairs[..i + 1]) == Conflicts(caseSensitive, pairs[..i]) + PutProblem(caseSensitive, pairs[i], before)
  {
    var ps, p := pairs[..i], pairs[i];
    assert pairs[..i + 1][..i] == ps;
    assert Get(before, KeyOf(caseSensitive, p)) == LastClaimant(caseSensitive, ps, KeyOf(caseSensitive, p));
  }

  /** What CheckOutputPathUnique answers for p's own output path. */
  lemma PutProblemIs(caseSensitive: bool, p: ModuleAndBC, before: map<string, ModuleAndBC>, problem: Option<ReportedProblem>)
    requires Get(before, Key(caseSensitive, ActualOutputFilePath(p.bc))).None? ==> problem.None?
    requires Get(before, Key(caseSensitive, ActualOutputFilePath(p.bc))).Some? ==>
      var existing := before[Key(caseSensitive, ActualOutputFilePath(p.bc))];
      problem == Some(ReportedProblem(p.moduleName, p.bc,
        Problem(GeneralOption(p.bc.name), OutputFileName,
                SameOutputFiles(existing.bc.name, existing.moduleName, ActualOutputFilePath(p.bc)))))
    ensures PutProblem(caseSensitive, p, before) == if problem.Some? then [problem.value] else []
  {
  }

  /** checkSimilarOutputFiles: every problem of one pass over the pairs, in order; it always answers true. */
  method CheckSimilarOutputFiles(caseSensitive: bool, pairs: seq<ModuleAndBC>)
    returns (ok: bool, problems: seq<ReportedProblem>)
    ensures ok
    ensures problems == Conflicts(caseSensitive, pairs)
  {
    var m := new OutputPathMap();
    problems := [];
    for i := 0 to |pairs|
      invariant Mirrors(m.claims, caseSensitive, pairs[..i])
      invariant problems == Conflicts(caseSensitive, pairs[..i])
    {
      var p := pairs[i];
      ghost var before := m.claims;
      var problem := CheckOutputPathUnique(caseSensitive, ActualOutputFilePath(p.bc), p, m);
      PutProblemIs(caseSensitive, p, before, problem);
      ClaimsAfter(caseSensitive, pairs, i, before, m.claims);
      ConflictsAfter(caseSensitive, pairs, i, before);
      if problem.Some? {
        problems := problems + [problem.value];
      }
    }
    assert pairs[..|pairs|] == pairs;
    ok := true;
  }

  // ---------------------------------------------------------------------
  // Properties of one pass.
  // ---------------------------------------------------------------------

  /** A key has a claimant exactly when some pair of the list claims it. */
  lemma {:induction false} LastClaimFound(caseSensitive: bool, ps: seq<ModuleAndBC>, k: string)
    ensures LastClaim(caseSensitive, ps, k).Some? <==> k in KeysOf(caseSensitive, ps)
  {
    if ps != [] {
      LastClaimFound(caseSensitive, ps[..|ps| - 1], k);
    }
  }

  /** n pairs over d distinct output paths yield n - d problems. */
  lemma {:induction false} ConflictCount(caseSensitive: bool, ps: seq<ModuleAndBC>)
    ensures |Conflicts(caseSensitive, ps)| == |ps| - |KeysOf(caseSensitive, ps)|
  {
    if ps != [] {
      var init, p := ps[..|ps| - 1], ps[|ps| - 1];
      ConflictCount(caseSensitive, init);
      LastClaimFound(caseSensitive, init, KeyOf(caseSensitive, p));
      assert KeysOf(caseSensitive, ps) == KeysOf(caseSensitive, init) + {KeyOf(caseSensitive, p)};
      if KeyOf(caseSensitive, p) in KeysOf(caseSensitive, init) {
        assert |ConflictOf(caseSensitive, init, p)| == 1;
        assert KeysOf(caseSensitive, ps) == KeysOf(caseSensitive, init);
      } else {
        assert ConflictOf(caseSensitive, init, p) == [];
      }
    }
  }

  /** The keys of a list are distinct exactly when those of all but its last pair are and none of them is the last pair's. */
  lemma DistinctKeysSnoc(caseSensitive: bool, ps: seq<ModuleAndBC>)
    requires ps != []
    ensures DistinctKeys(caseSensitive, ps)
      <==> && DistinctKeys(caseSensitive, ps[..|ps| - 1])
           && forall j :: 0 <= j < |ps| - 1 ==> KeyOf(caseSensitive, ps[j]) != KeyOf(caseSensitive, ps[|ps| - 1])
  {
    var init := ps[..|ps| - 1];
    assert forall j :: 0 <= j < |init| ==> ps[j] == init[j];
  }

  /** Nothing is reported exactly when no two pairs share an output path. */
  lemma {:induction false} NoConflictsIffDistinct(caseSensitive: bool, ps: seq<ModuleAndBC>)
    ensures Conflicts(caseSensitive, ps) == [] <==> DistinctKeys(caseSensitive, ps)
  {
    if ps != [] {
      var init, n := ps[..|ps| - 1], |ps| - 1;
      NoConflictsIffDistinct(caseSensitive, init);
      DistinctKeysSnoc(caseSensitive, ps);
      var c := LastClaim(caseSensitive, init, KeyOf(caseSensitive, ps[n]));
      assert ConflictOf(caseSensitive, init, ps[n]) == [] <==> c.None?;
      if c.Some? {
        assert KeyOf(caseSensitive, init[c.value]) == KeyOf(caseSensitive, ps[n]);
      }
    }
  }

  /**
   * Every problem is reported against a pair of the list and names an
   * earlier pair with the same output path that no pair in between claimed.
   */
  lemma {:induction false} ConflictNamesPrecedingClaimant(caseSensitive: bool, ps: seq<ModuleAndBC>, r: ReportedProblem)
    requires r in Conflicts(caseSensitive, ps)
    ensures exists i, j ::
              && 0 <= i < j < |ps| && r == SameOutput(ps[j], ps[i])
              && KeyOf(caseSensitive, ps[i]) == KeyOf(caseSensitive, ps[j])
              && forall m :: i < m < j ==> KeyOf(caseSensitive, ps[m]) != KeyOf(caseSensitive, ps[j])
  {
    var init, n := ps[..|ps| - 1], |ps| - 1;
    assert forall m :: 0 <= m < n ==> ps[m] == init[m];
    if r in Conflicts(caseSensitive, init) {
      ConflictNamesPrecedingClaimant(caseSensitive, init, r);
    } else {
      var i := LastClaim(caseSensitive, init, KeyOf(caseSensitive, ps[n])).value;
      assert r == SameOutput(ps[n], ps[i]);
    }
  }

  /** Pairs that all share one output path: each after the first is reported against the one just before it. */
  lemma {:induction false} SharedPathChain(caseSensitive: bool, ps: seq<ModuleAndBC>)
    requires ps != []
    requires forall i :: 0 <= i < |ps| ==> KeyOf(caseSensitive, ps[i]) == KeyOf(caseSensitive, ps[0])
    ensures |Conflicts(caseSensitive, ps)| == |ps| - 1
    ensures forall i :: 0 <= i < |ps| - 1 ==> Conflicts(caseSensitive, ps)[i] == SameOutput(ps[i + 1], ps[i])
  {
    if |ps| > 1 {
      var init, n := ps[..|ps| - 1], |ps| - 1;
      assert forall i :: 0 <= i < |init| ==> init[i] == ps[i];
      SharedPathChain(caseSensitive, init);
      assert LastClaim(caseSensitive, init, KeyOf(caseSensitive, ps[n])) == Some(n - 1);
      var c, before := Conflicts(caseSensitive, ps), Conflicts(caseSensitive, init);
      assert c == before + [SameOutput(ps[n], ps[n - 1])];
      forall i | 0 <= i < n ensures c[i] == SameOutput(ps[i + 1], ps[i]) {
        if i < n - 1 {
          assert c[i] == before[i];
        }
      }
    }
  }

  /**
   * Two output paths that differ only in case clash on a case-insensitive
   * file system and not on a case-sensitive one.
   */
  lemma CaseOnlyDifference(a: ModuleAndBC, b: ModuleAndBC)
    requires ActualOutputFilePath(a.bc) != ActualOutputFilePath(b.bc)
    requires ToLower(ActualOutputFilePath(a.bc)) == ToLower(ActualOutputFilePath(b.bc))
    ensures Conflicts(true, [a, b]) == []
    ensures Conflicts(false, [a, b]) == [SameOutput(b, a)]
  {
    assert [a, b][..1] == [a];
    assert [a][..0] == [];
    assert Conflicts(true, [a]) == [] && Conflicts(false, [a]) == [];
  }
}
