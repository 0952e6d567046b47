/**
 The stage commands as they run: each performs its writes one after the other on the artifact store, in a process
 that may die before or inside any of them. Every command is shown to do exactly what the workflow's attempt says.
 */
module BenchmarkPipeline {
  import opened Naturals
  import opened Wrappers
  import opened ArtifactWorkflow
  import opened ArtifactSafety
  import opened BenchmarkVerification

  /** Why an audit replay refuses. */
  datatype AuditRefusal =
    | LockUnusable
    | RuntimeDiffers
    | NoFinalResult
    | RecordUnreadable
    | SelectedModelDiffers
    | FinalLockChecksumDiffers
    | CompletionChecksumDiffers
    | AccessLockChecksumDiffers
    | ResultsDiffer

  /** What a process with `life` effects left makes of one effect. */
  ghost function After(w: World, life: nat, e: Effect, torn: Option<Leftover>): World {
    if life > 0 then Perform(w, e).world
    else if torn.Some? && Writes(w.files, e) then Litter(w, torn.value)
    else w
  }

  /**
   One benchmark directory, how many more effects the current process will live to perform, and the temporary file it
   leaves if it then dies inside a write.
   */
  class BenchmarkArtifactStore {
    var files: Files
    var evaluations: nat
    var lifetime: nat
    const torn: Option<Leftover>

    constructor (lifetime: nat, torn: Option<Leftover>)
      ensures Contents() == EMPTY && this.lifetime == lifetime && this.torn == torn
    {
      files := map[];
      evaluations := 0;
      this.lifetime := lifetime;
      this.torn := torn;
    }

    ghost function Contents(): World
      reads this
    {
      World(files, evaluations)
    }

    /** Whether the process lives to perform one more effect. */
    method LiveOn() returns (alive: bool)
      modifies this`lifetime
      ensures alive == (old(lifetime) > 0)
      ensures lifetime == if old(lifetime) > 0 then old(lifetime) - 1 else 0
    {
      alive := lifetime > 0;
      if alive {
        lifetime := lifetime - 1;
      }
    }

    /** The content goes to a temporary file, which then takes the artifact's name; a death may come in between. */
    method AtomicWrite(name: Name, payload: Content, alive: bool)
      modifies this`files
      ensures files == if alive then old(files)[name := payload]
                       else if torn.Some? then old(files)[Temporary(torn.value.id) := Plain(torn.value.data)]
                       else old(files)
    {
      if alive {
        files := files[name := payload];
      } else if torn.Some? {
        files := files[Temporary(torn.value.id) := Plain(torn.value.data)];
      }
    }

    /** Existing equal content is left alone, other existing content conflicts unless it may be replaced. */
    method WriteBytes(name: Name, payload: Content, allowReplace: bool) returns (written: bool)
      modifies this
      ensures written == (old(lifetime) > 0 && Perform(old(Contents()), Put(name, payload, allowReplace)).going)
      ensures Contents() == After(old(Contents()), old(lifetime), Put(name, payload, allowReplace), torn)
      ensures lifetime == if old(lifetime) > 0 then old(lifetime) - 1 else 0
    {
      var alive := LiveOn();
      if name in files {
        if Sha(files[name]) == Sha(payload) {
          return alive;
        }
        if !allowReplace {
          return false;
        }
      }
      AtomicWrite(name, payload, alive);
      written := alive;
    }

    /** Lists the checksum of every file except the index itself, and replaces the index; a temporary file stops it. */
    method WriteIndex(stage: Stage) returns (written: bool)
      modifies this
      ensures written == (old(lifetime) > 0 && Perform(old(Contents()), PutIndex(stage)).going)
      ensures Contents() == After(old(Contents()), old(lifetime), PutIndex(stage), torn)
      ensures lifetime == if old(lifetime) > 0 then old(lifetime) - 1 else 0
    {
      hide IndexOf, Littered;
      var artifacts := Checksums(files);
      if artifacts == None {
        var _ := LiveOn();
        return false;
      }
      ChecksumsAreIndex(files, artifacts.value, stage);
      written := WriteBytes(ArtifactIndex, Index(artifacts.value, stage), true);
    }

    /** Computes the final results once; the number of such computations is what the access record guards. */
    method EvaluateFinalTest() returns (done: bool)
      modifies this
      ensures done == (old(lifetime) > 0 && Perform(old(Contents()), Evaluate).going)
      ensures Contents() == After(old(Contents()), old(lifetime), Evaluate, torn)
      ensures lifetime == if old(lifetime) > 0 then old(lifetime) - 1 else 0
    {
      done := LiveOn();
      if done {
        evaluations := evaluations + 1;
      }
    }
  }

  /** The checksum of every file but the index; a temporary file's name is not an artifact's and has none. */
  method Checksums(files: Files) returns (result: Option<map<Name, Hash>>)
    ensures result == None <==> Littered(files)
    ensures result.Some? ==>
              && result.value.Keys == files.Keys - {ArtifactIndex}
              && forall n :: n in result.value ==> result.value[n] == Sha(files[n])
  {
    var remaining := files.Keys - {ArtifactIndex};
    var artifacts: map<Name, Hash> := map[];
    while remaining != {}
      invariant remaining <= files.Keys - {ArtifactIndex}
      invariant artifacts.Keys == files.Keys - {ArtifactIndex} - remaining
      invariant forall n :: n in artifacts ==> artifacts[n] == Sha(files[n]) && !n.Temporary?
      decreases |remaining|
    {
      var name :| name in remaining;
      if name.Temporary? {
        return None;
      }
      artifacts := artifacts[name := Sha(files[name])];
      remaining := remaining - {name};
    }
    result := Some(artifacts);
    forall n | n in files.Keys ensures !n.Temporary? {
      if n != ArtifactIndex {
        assert n in artifacts;
      }
    }
  }

  lemma ChecksumsAreIndex(files: Files, artifacts: map<Name, Hash>, stage: Stage)
    requires artifacts.Keys == files.Keys - {ArtifactIndex}
    requires forall n :: n in artifacts ==> artifacts[n] == Sha(files[n])
    ensures Index(artifacts, stage) == IndexOf(files, stage)
  {
    var index := map n | n in files && n != ArtifactIndex :: Sha(files[n]);
    assert index.Keys == artifacts.Keys;
    assert artifacts == index;
  }

  /** The process has performed the first `k` effects of a script and lives on. */
  ghost predicate Follows(w: World, life: nat, script: seq<Effect>, k: nat, now: World, left: nat) {
    && k <= |script| && k <= life && left == life - k
    && Exec(w, script, k) == Progress(now, true)
  }

  /** Where a process of this lifetime leaves the directory. */
  ghost function Ends(w: World, life: nat, script: seq<Effect>, torn: Option<Leftover>): World {
    var last := Exec(w, script, Min(life, |script|)).world;
    if torn.Some? && DiesWriting(w, script, life) then Litter(last, torn.value) else last
  }

  lemma {:induction false} Halted(w: World, script: seq<Effect>, n: nat, m: nat)
    requires n <= m <= |script| && !Exec(w, script, n).going
    ensures Exec(w, script, m) == Exec(w, script, n)
    decreases m
  {
    if n < m {
      Halted(w, script, n, m - 1);
    }
  }

  /** One more effect: the process follows the script further, or this is where it ends. */
  lemma OneMore(w: World, life: nat, script: seq<Effect>, k: nat, now: World, left: nat, torn: Option<Leftover>)
    requires Follows(w, life, script, k, now, left) && k < |script|
    ensures left == 0 ==> After(now, left, script[k], torn) == Ends(w, life, script, torn)
    ensures left > 0 ==>
              var p := Perform(now, script[k]);
              if p.going
              then
                && Follows(w, life, script, k + 1, p.world, left - 1)
                && (k + 1 == |script| ==> p.world == Ends(w, life, script, torn))
              else p.world == Ends(w, life, script, torn)
  {
    hide Perform, Writes, Litter;
    if left > 0 && !Perform(now, script[k]).going {
      Halted(w, script, k + 1, Min(life, |script|));
    }
  }

  class BenchmarkPipeline {
    const store: BenchmarkArtifactStore

    constructor (store: BenchmarkArtifactStore)
      ensures this.store == store
    {
      this.store := store;
    }

    method PrepareBenchmark(feed: int, eligibility: int, split: int, runtime: int, lockData: int, report: int)
      modifies store
      ensures var c := Prepare(feed, eligibility, split, runtime, lockData, report);
              store.Contents() == Attempted(old(store.Contents()), Attempt(c, old(store.lifetime), store.torn))
    {
      hide Exec, Perform;
      ghost var w, life := store.Contents(), store.lifetime;
      ghost var script := PrepareScript(Prepare(feed, eligibility, split, runtime, lockData, report));
      ExecNothing(w, script);
      OneMore(w, life, script, 0, store.Contents(), store.lifetime, store.torn);
      var ok := store.WriteBytes(FeedAvailability, Plain(feed), false);
      if !ok { return; }
      OneMore(w, life, script, 1, store.Contents(), store.lifetime, store.torn);
      ok := store.WriteBytes(DatasetEligibility, Plain(eligibility), false);
      if !ok { return; }
      OneMore(w, life, script, 2, store.Contents(), store.lifetime, store.torn);
      ok := store.WriteBytes(SplitManifest, Plain(split), false);
      if !ok { return; }
      OneMore(w, life, script, 3, store.Contents(), store.lifetime, store.torn);
      var lock := Lock(Sha(Plain(split)), Sha(Plain(eligibility)), runtime, lockData);
      ok := store.WriteBytes(BenchmarkLock, lock, false);
      if !ok { return; }
      OneMore(w, life, script, 4, store.Contents(), store.lifetime, store.torn);
      ok := store.WriteBytes(BenchmarkLockSum, LockSum(Sha(lock)), false);
      if !ok { return; }
      OneMore(w, life, script, 5, store.Contents(), store.lifetime, store.torn);
      ok := store.WriteBytes(BenchmarkReport, Report(Prepared, report), false);
      if !ok { return; }
      OneMore(w, life, script, 6, store.Contents(), store.lifetime, store.torn);
      ok := store.WriteIndex(Prepared);
    }

    /**
     Refuses a directory that does not verify, and a runtime other than the lock's; `reproduces` is what the
     recomputations from the data say.
     */
    method RunValidation(validation: int, baselines: int, strategies: int, model: int, selection: int, readiness: int,
                         report: int, runtime: int, reproduces: bool) returns (started: bool)
      modifies store
      ensures var c := Command.RunValidation(validation, baselines, strategies, model, selection, readiness, report,
                                             runtime, reproduces);
              && started == Starts(old(store.Contents()), c)
              && store.Contents() == Attempted(old(store.Contents()), Attempt(c, old(store.lifetime), store.torn))
    {
      hide Exec, Perform, Verifies, ValidationScript, Readable, Found, CheckedNames;
      if !LockLoads(store.files) {
        return false;
      }
      var verifier := new BenchmarkVerifier(store.files);
      var verdict := verifier.VerifyBenchmarkDirectory(reproduces);
      if verdict.Err? {
        return false;
      }
      if store.files[BenchmarkLock].runtime != runtime {
        return false;
      }
      started := true;
      WriteValidation(validation, baselines, strategies, model, selection, readiness, report, runtime, reproduces);
    }

    method WriteValidation(validation: int, baselines: int, strategies: int, model: int, selection: int, readiness: int,
                           report: int, ghost runtime: int, ghost reproduces: bool)
      modifies store
      ensures var c := Command.RunValidation(validation, baselines, strategies, model, selection, readiness, report,
                                             runtime, reproduces);
              store.Contents() == Ends(old(store.Contents()), old(store.lifetime), ValidationScript(c), store.torn)
    {
      hide Exec, Perform;
      ghost var w, life := store.Contents(), store.lifetime;
      ghost var c := Command.RunValidation(validation, baselines, strategies, model, selection, readiness, report,
                                           runtime, reproduces);
      ghost var script := ValidationScript(c);
      ExecNothing(w, script);
      OneMore(w, life, script, 0, store.Contents(), store.lifetime, store.torn);
      var ok := store.WriteBytes(ValidationResults, Plain(validation), false);
      if !ok { return; }
      OneMore(w, life, script, 1, store.Contents(), store.lifetime, store.torn);
      ok := store.WriteBytes(ClassificationBaselines, Plain(baselines), false);
      if !ok { return; }
      OneMore(w, life, script, 2, store.Contents(), store.lifetime, store.torn);
      ok := store.WriteBytes(StrategyBaselines, Plain(strategies), false);
      if !ok { return; }
      OneMore(w, life, script, 3, store.Contents(), store.lifetime, store.torn);
      ok := store.WriteBytes(SelectedModelManifest, Selection(model, Sha(Plain(validation)), selection), false);
      if !ok { return; }
      OneMore(w, life, script, 4, store.Contents(), store.lifetime, store.torn);
      ok := store.WriteBytes(FinalTestReadiness, Plain(readiness), false);
      if !ok { return; }
      OneMore(w, life, script, 5, store.Contents(), store.lifetime, store.torn);
      ok := store.WriteBytes(BenchmarkReport, Report(Validated, report), true);
      if !ok { return; }
      OneMore(w, life, script, 6, store.Contents(), store.lifetime, store.torn);
      ok := store.WriteIndex(Validated);
    }

    /** Locks the checksums of what is there; it needs the validation artifacts but does not verify the directory. */
    method FinalizeLock(acknowledged: bool, runtime: int) returns (started: bool)
      modifies store
      ensures var c := Command.FinalizeLock(acknowledged, runtime);
              && started == Starts(old(store.Contents()), c)
              && store.Contents() == Attempted(old(store.Contents()), Attempt(c, old(store.lifetime), store.torn))
    {
      hide Exec, Perform;
      if !acknowledged || !LockLoads(store.files) {
        return false;
      }
      if store.files[BenchmarkLock].runtime != runtime {
        return false;
      }
      if !HasValidation(store.files) {
        return false;
      }
      started := true;
      ghost var w, life := store.Contents(), store.lifetime;
      var files := store.files;
      ghost var script := LockScript(files);
      ExecNothing(w, script);
      OneMore(w, life, script, 0, store.Contents(), store.lifetime, store.torn);
      var lock := FinalLock(
        Sha(files[BenchmarkLock]), Sha(files[ValidationResults]), Sha(files[ClassificationBaselines]),
        Sha(files[StrategyBaselines]), Sha(files[SelectedModelManifest]), Sha(files[FinalTestReadiness]),
        files[SelectedModelManifest].model, true);
      var ok := store.WriteBytes(FinalTestLock, lock, false);
      if !ok { return; }
      OneMore(w, life, script, 1, store.Contents(), store.lifetime, store.torn);
      ok := store.WriteIndex(Locked);
    }

    /** One controlled evaluation: the access record is written before it and forbids another. */
    method RunFinalTest(acknowledged: bool, runtime: int, accessData: int, results: Content, completionData: int,
                        report: int)
      returns (started: bool)
      modifies store
      ensures var c := Command.RunFinalTest(acknowledged, runtime, accessData, results, completionData, report);
              && started == Starts(old(store.Contents()), c)
              && store.Contents() == Attempted(old(store.Contents()), Attempt(c, old(store.lifetime), store.torn))
    {
      hide Exec, Perform;
      var files := store.files;
      if || FinalTestLock !in files || !files[FinalTestLock].FinalLock?
         || BenchmarkLock !in files || !files[BenchmarkLock].Lock?
         || files[FinalTestLock].lock != Sha(files[BenchmarkLock])
         || files[BenchmarkLock].runtime != runtime
         || !files[FinalTestLock].acknowledged
         || FinalTestResults in files || FinalTestAccess in files
         || !acknowledged || !results.Results?
      {
        return false;
      }
      started := true;
      ghost var w, life := store.Contents(), store.lifetime;
      ghost var c := Command.RunFinalTest(acknowledged, runtime, accessData, results, completionData, report);
      ghost var script := TestScript(files, c);
      ExecNothing(w, script);
      OneMore(w, life, script, 0, store.Contents(), store.lifetime, store.torn);
      var lock := Sha(files[FinalTestLock]);
      var access := Access(lock, runtime, accessData);
      var ok := store.WriteBytes(FinalTestAccess, access, false);
      if !ok { return; }
      OneMore(w, life, script, 1, store.Contents(), store.lifetime, store.torn);
      ok := store.EvaluateFinalTest();
      if !ok { return; }
      RecordResults(w, life, c, lock, access, results, runtime, completionData, report);
    }

    /** Writes the evaluated results, their parts, and the completion record that links them. */
    method RecordResults(ghost w: World, ghost life: nat, ghost c: Command, lock: Hash, access: Content,
                         results: Content, runtime: int, completionData: int, report: int)
      requires results.Results? && FinalTestLock in w.files && lock == Sha(w.files[FinalTestLock])
      requires c.RunFinalTest?
      requires c == Command.RunFinalTest(c.acknowledged, runtime, c.access, results, completionData, report)
      requires access == Access(lock, runtime, c.access)
      requires Follows(w, life, TestScript(w.files, c), 2, store.Contents(), store.lifetime)
      modifies store
      ensures store.Contents() == Ends(w, life, TestScript(w.files, c), store.torn)
    {
      hide Exec, Perform;
      ghost var script := TestScript(w.files, c);
      OneMore(w, life, script, 2, store.Contents(), store.lifetime, store.torn);
      var ok := store.WriteBytes(FinalTestResults, results, false);
      if !ok { return; }
      OneMore(w, life, script, 3, store.Contents(), store.lifetime, store.torn);
      ok := store.WriteBytes(CostSensitivity, Plain(results.cost), false);
      if !ok { return; }
      OneMore(w, life, script, 4, store.Contents(), store.lifetime, store.torn);
      ok := store.WriteBytes(RegimeResults, Plain(results.regime), false);
      if !ok { return; }
      OneMore(w, life, script, 5, store.Contents(), store.lifetime, store.torn);
      ok := store.WriteBytes(BacktestResults, Plain(results.strategyResults), false);
      if !ok { return; }
      OneMore(w, life, script, 6, store.Contents(), store.lifetime, store.torn);
      var completion := Completion(lock, Sha(access), Sha(results), Sha(Plain(results.cost)),
                                   Sha(Plain(results.regime)), Sha(Plain(results.strategyResults)),
                                   runtime, completionData);
      ok := store.WriteBytes(FinalTestCompletion, completion, false);
      if !ok { return; }
      OneMore(w, life, script, 7, store.Contents(), store.lifetime, store.torn);
      ok := store.WriteBytes(BenchmarkReport, Report(Tested, report), true);
      if !ok { return; }
      OneMore(w, life, script, 8, store.Contents(), store.lifetime, store.torn);
      ok := store.WriteIndex(Tested);
    }

    /** The audit replay of a completed test.  It changes nothing; `recomputed` are the results computed anew. */
    method ReplayFinalTest(recomputed: Content, runtime: int) returns (r: Option<AuditRefusal>)
      ensures r == None <==> AuditPasses(store.files, recomputed, runtime)
      ensures r == Some(NoFinalResult) ==> FinalTestResults !in store.files || FinalTestCompletion !in store.files
      ensures r == Some(ResultsDiffer) ==>
                FinalTestResults in store.files && AuditPasses(store.files, store.files[FinalTestResults], runtime)
    {
      var files := store.files;
      if || FinalTestLock !in files || !files[FinalTestLock].FinalLock?
         || BenchmarkLock !in files || !files[BenchmarkLock].Lock?
         || files[FinalTestLock].lock != Sha(files[BenchmarkLock])
      {
        return Some(LockUnusable);
      }
      if files[BenchmarkLock].runtime != runtime {
        return Some(RuntimeDiffers);
      }
      var lock := files[FinalTestLock];
      if !lock.acknowledged {
        return Some(LockUnusable);
      }
      if FinalTestResults !in files || FinalTestCompletion !in files {
        return Some(NoFinalResult);
      }
      if || !HasValidation(files) || !files[FinalTestCompletion].Completion?
         || !(COMPLETED <= files.Keys) || !files[FinalTestAccess].Access?
      {
        return Some(RecordUnreadable);
      }
      if lock.model != files[SelectedModelManifest].model {
        return Some(SelectedModelDiffers);
      }
      if || lock.validation != Sha(files[ValidationResults]) || lock.baselines != Sha(files[ClassificationBaselines])
         || lock.strategies != Sha(files[StrategyBaselines]) || lock.selection != Sha(files[SelectedModelManifest])
         || lock.readiness != Sha(files[FinalTestReadiness])
      {
        return Some(FinalLockChecksumDiffers);
      }
      var completion := files[FinalTestCompletion];
      if || completion.finalLock != Sha(files[FinalTestLock]) || completion.access != Sha(files[FinalTestAccess])
         || completion.results != Sha(files[FinalTestResults]) || completion.costs != Sha(files[CostSensitivity])
         || completion.regimes != Sha(files[RegimeResults]) || completion.backtest != Sha(files[BacktestResults])
      {
        return Some(CompletionChecksumDiffers);
      }
      if files[FinalTestAccess].finalLock != Sha(files[FinalTestLock]) {
        return Some(AccessLockChecksumDiffers);
      }
      if files[FinalTestAccess].runtime != runtime || completion.runtime != runtime {
        return Some(RuntimeDiffers);
      }
      if Sha(recomputed) != Sha(files[FinalTestResults]) {
        return Some(ResultsDiffer);
      }
      r := None;
    }
  }
}
