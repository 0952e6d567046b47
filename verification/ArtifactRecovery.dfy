/** Commands run again after a death, commands run to their end, and validations that died half-way. */
module ArtifactRecovery {
  import opened Naturals
  import opened ArtifactWorkflow
  import opened ArtifactSafety

  // ---------------------------------------------------------------- running a script again

  /** Writes to different names, perhaps an evaluation, and the index last. */
  ghost predicate WellOrdered(script: seq<Effect>) {
    && script != []
    && script[|script| - 1].PutIndex?
    && (forall i :: 0 <= i < |script| - 1 ==>
          !script[i].PutIndex? && (script[i].Put? ==> script[i].name != ArtifactIndex))
    && (forall i :: 0 <= i < |script| && script[i].Put? ==> !script[i].name.Temporary?)
    && (forall i, j :: 0 <= i < j < |script| - 1 && script[i].Put? && script[j].Put? ==>
          script[i].name != script[j].name)
  }

  ghost predicate Resumable(script: seq<Effect>) {
    WellOrdered(script) && forall i :: 0 <= i < |script| ==> !script[i].Evaluate?
  }

  lemma {:induction false} PutStays(w: World, script: seq<Effect>, n: nat, j: nat)
    requires Resumable(script) && j < n <= |script| && j < |script| - 1
    requires Exec(w, script, n).going
    ensures Holds(Exec(w, script, n).world.files, script[j].name, script[j].content)
  {
    if j < n - 1 {
      PutStays(w, script, n - 1, j);
    }
  }

  lemma {:induction false} StillGoing(w: World, script: seq<Effect>, n: nat, m: nat)
    requires n <= m <= |script| && Exec(w, script, m).going
    ensures Exec(w, script, n).going
    decreases m
  {
    if n < m {
      StillGoing(w, script, n, m - 1);
    }
  }

  lemma IndexAgain(files: Files, stage: Stage)
    ensures var once := files[ArtifactIndex := IndexOf(files, stage)];
            once[ArtifactIndex := IndexOf(once, stage)] == once && (Littered(once) <==> Littered(files))
  {
    var once := files[ArtifactIndex := IndexOf(files, stage)];
    assert IndexOf(once, stage) == IndexOf(files, stage);
  }

  /** An effect already performed changes nothing when performed again. */
  lemma PerformedAgain(w: World, script: seq<Effect>, k: nat, j: nat)
    requires Resumable(script) && j < k <= |script| && Exec(w, script, k).going
    ensures Perform(Exec(w, script, k).world, script[j]) == Progress(Exec(w, script, k).world, true)
  {
    hide IndexOf;
    if j < |script| - 1 {
      PutStays(w, script, k, j);
    } else {
      var before := Exec(w, script, k - 1).world;
      assert !Littered(before.files);
      IndexAgain(before.files, script[j].stage);
    }
  }

  lemma {:induction false} ResumedExec(w: World, script: seq<Effect>, k: nat, j: nat)
    requires Resumable(script) && k <= |script| && j <= |script| && Exec(w, script, |script|).going
    ensures Exec(Exec(w, script, k).world, script, j)
         == Progress(Exec(w, script, if j < k then k else j).world, true)
  {
    hide Resumable, Perform;
    StillGoing(w, script, k, |script|);
    if j > 0 {
      ResumedExec(w, script, k, j - 1);
      if j <= k {
        PerformedAgain(w, script, k, j - 1);
      } else {
        StillGoing(w, script, j, |script|);
      }
    }
  }

  lemma PrepareIsResumable(c: Command)
    requires c.Prepare?
    ensures Resumable(PrepareScript(c))
  {
  }

  lemma LockIsResumable(files: Files)
    requires BenchmarkLock in files && HasValidation(files)
    ensures Resumable(LockScript(files))
  {
  }

  /** Preparation interrupted anywhere and run again with the same inputs ends as if it had never been interrupted. */
  lemma InterruptedPrepareResumes(w: World, c: Command, k: nat)
    requires c.Prepare? && Exec(w, PrepareScript(c), |PrepareScript(c)|).going
    ensures Step(Step(w, c, k), c, |PrepareScript(c)|) == Step(w, c, |PrepareScript(c)|)
  {
    hide Exec, PrepareScript, Resumable;
    PrepareIsResumable(c);
    var script := PrepareScript(c);
    ResumedExec(w, script, Min(k, |script|), |script|);
  }

  /** What locking reads is the same in any directory that kept its artifacts. */
  lemma LockReadsKept(before: Files, after: Files)
    requires LockLoads(before) && HasValidation(before) && Keeps(before, after)
    requires BenchmarkLockSum in after ==> BenchmarkLockSum in before
    ensures LockLoads(after) && HasValidation(after) && LockScript(after) == LockScript(before)
  {
    assert forall n :: n in VALIDATION ==> Protected(n) && n in before;
  }

  lemma LockUnchanged(w: World, runtime: int, n: nat)
    requires Starts(w, FinalizeLock(true, runtime)) && n <= 2
    ensures BenchmarkLock in w.files && HasValidation(w.files)
    ensures var after := Exec(w, LockScript(w.files), n).world;
            Starts(after, FinalizeLock(true, runtime)) && LockScript(after.files) == LockScript(w.files)
  {
    hide Exec, LockLoads, HasValidation, Keeps;
    LockedExists(w.files);
    var script := LockScript(w.files);
    ScriptsAreDisciplined(w, FinalizeLock(true, runtime));
    ExecKeeps(w, script, n);
    UntouchedNames(w, script, n, BenchmarkLockSum);
    LockReadsKept(w.files, Exec(w, script, n).world.files);
  }

  lemma LockedExists(files: Files)
    requires LockLoads(files)
    ensures BenchmarkLock in files && files[BenchmarkLock].Lock?
  {
  }

  /** So does locking interrupted anywhere. */
  lemma InterruptedLockResumes(w: World, runtime: int, k: nat)
    requires Starts(w, FinalizeLock(true, runtime))
    requires Exec(w, Script(w, FinalizeLock(true, runtime)), 2).going
    ensures var lock := FinalizeLock(true, runtime); Step(Step(w, lock, k), lock, 2) == Step(w, lock, 2)
  {
    hide Exec, Starts, Resumable, LockScript, HasValidation;
    LockUnchanged(w, runtime, 0);
    LockIsResumable(w.files);
    LockHasTwo(w.files);
    LockUnchanged(w, runtime, Min(k, 2));
    ResumedExec(w, LockScript(w.files), Min(k, 2), 2);
  }

  lemma LockHasTwo(files: Files)
    requires BenchmarkLock in files && HasValidation(files)
    ensures |LockScript(files)| == 2
  {
  }

  // ---------------------------------------------------------------- completed stages verify

  ghost predicate VerifiesAt(files: Files, stage: Stage) {
    Verifies(files, true) && files[ArtifactIndex].stage == stage
  }

  lemma IndexOfMatches(files: Files, stage: Stage)
    ensures IndexMatches(files[ArtifactIndex := IndexOf(files, stage)])
    ensures files[ArtifactIndex := IndexOf(files, stage)][ArtifactIndex].stage == stage
  {
  }

  /** No write meets another content. */
  ghost predicate Fits(w: World, script: seq<Effect>) {
    forall i :: 0 <= i < |script| && script[i].Put? && !script[i].replace && script[i].name in w.files ==>
      w.files[script[i].name] == script[i].content
  }

  function PutNames(script: seq<Effect>, n: nat): set<Name>
    requires n <= |script|
  {
    set i | 0 <= i < n && script[i].Put? :: script[i].name
  }

  lemma {:induction false} FittingExec(w: World, script: seq<Effect>, n: nat)
    requires WellOrdered(script) && Fits(w, script) && n <= |script| - 1
    ensures Exec(w, script, n).going
    ensures forall name :: name in w.files && name !in PutNames(script, n) ==>
              name in Exec(w, script, n).world.files && Exec(w, script, n).world.files[name] == w.files[name]
    ensures Exec(w, script, n).world.files.Keys == w.files.Keys + PutNames(script, n)
  {
    if n > 0 {
      FittingExec(w, script, n - 1);
      var e := script[n - 1];
      if e.Put? {
        assert e.name !in PutNames(script, n - 1);
        assert PutNames(script, n) == PutNames(script, n - 1) + {e.name};
      } else {
        assert PutNames(script, n) == PutNames(script, n - 1);
      }
    }
  }

  lemma NoLitter(files: Files, script: seq<Effect>, n: nat, after: Files)
    requires WellOrdered(script) && n <= |script| && !Littered(files) && after.Keys == files.Keys + PutNames(script, n)
    ensures !Littered(after)
  {
  }

  lemma ListedNamesOnly(files: Files, stage: Stage)
    requires files.Keys <= StageArtifacts(stage)
    ensures !Littered(files)
  {
  }

  /** A script that fits runs to its end, adds its names, and leaves an index of everything. */
  lemma FittingRun(w: World, script: seq<Effect>, stage: Stage)
    requires WellOrdered(script) && Fits(w, script) && script[|script| - 1] == PutIndex(stage)
    requires !Littered(w.files)
    ensures var after := Exec(w, script, |script|);
            && after.going
            && after.world.files.Keys == w.files.Keys + PutNames(script, |script| - 1) + {ArtifactIndex}
            && IndexMatches(after.world.files)
            && after.world.files[ArtifactIndex].stage == stage
  {
    hide IndexMatches, IndexOf, Fits, Littered;
    FittingExec(w, script, |script| - 1);
    NoLitter(w.files, script, |script| - 1, Exec(w, script, |script| - 1).world.files);
    IndexOfMatches(Exec(w, script, |script| - 1).world.files, stage);
  }

  /** A linked directory with exactly the artifacts of its stage and a matching index verifies. */
  lemma StageVerifies(files: Files, stage: Stage)
    requires Linked(files) && files.Keys == StageArtifacts(stage)
    requires IndexMatches(files) && files[ArtifactIndex].stage == stage
    ensures VerifiesAt(files, stage)
  {
    hide Linked, LinkOk, IndexMatches, FinalLockMatches, CompletionMatches, ResultFilesMatch, RuntimesMatch,
      SchemasHold;
    assert BenchmarkLock in files && BenchmarkLockSum in files;
    LinkedSchemas(files);
    LinkAt(files, BenchmarkLock);
    LinkAt(files, BenchmarkLockSum);
    LocksAreLinked(files);
    if stage == Locked || stage == Tested {
      LinkAt(files, FinalTestLock);
      FinalLockIsLinked(files);
    }
    if stage == Tested {
      assert COMPLETED <= files.Keys;
      LinkAt(files, FinalTestCompletion);
      CompletionIsLinked(files);
      LinkAt(files, FinalTestResults);
      LinkAt(files, CostSensitivity);
      LinkAt(files, RegimeResults);
      LinkAt(files, BacktestResults);
      ResultsAreLinked(files);
      LinkAt(files, FinalTestAccess);
      RecordsNameRuntime(files);
    }
  }

  lemma LinkedSchemas(files: Files)
    requires Linked(files)
    ensures SchemasHold(files)
  {
  }

  lemma LocksAreLinked(files: Files)
    requires BenchmarkLock in files && BenchmarkLockSum in files
    requires LinkOk(files, BenchmarkLock, files[BenchmarkLock])
             && LinkOk(files, BenchmarkLockSum, files[BenchmarkLockSum])
    ensures files[BenchmarkLock].Lock? && files[BenchmarkLockSum] == LockSum(Sha(files[BenchmarkLock]))
  {
  }

  lemma ResultsAreLinked(files: Files)
    requires COMPLETED <= files.Keys
    requires LinkOk(files, FinalTestResults, files[FinalTestResults])
    requires LinkOk(files, CostSensitivity, files[CostSensitivity])
    requires LinkOk(files, RegimeResults, files[RegimeResults])
    requires LinkOk(files, BacktestResults, files[BacktestResults])
    ensures ResultFilesMatch(files)
  {
  }

  /** Preparing an empty directory gives one that verifies. */
  lemma PreparedVerifies(c: Command)
    requires c.Prepare?
    ensures VerifiesAt(Step(EMPTY, c, |PrepareScript(c)|).files, Prepared)
  {
    hide Exec, IndexMatches, Linked, VerifiesAt;
    var script := PrepareScript(c);
    ListedNamesOnly(EMPTY.files, Prepared);
    FittingRun(EMPTY, script, Prepared);
    PrepareNames(c);
    StartIsLinked();
    StepKeepsInv(EMPTY, c, |script|);
    StageVerifies(Step(EMPTY, c, |script|).files, Prepared);
  }

  lemma PrepareNames(c: Command)
    requires c.Prepare?
    ensures PutNames(PrepareScript(c), 6) == BASE - {ArtifactIndex}
  {
    var s := PrepareScript(c);
    assert PutNames(s, 6) == {s[0].name, s[1].name, s[2].name, s[3].name, s[4].name, s[5].name};
  }

  lemma ValidationFits(w: World, c: Command)
    requires c.RunValidation? && c.reproduces && Inv(w) && VerifiesAt(w.files, Prepared)
    requires c.runtime == w.files[BenchmarkLock].runtime
    ensures Starts(w, c)
    ensures WellOrdered(ValidationScript(c)) && Fits(w, ValidationScript(c))
  {
    hide IndexMatches, Linked;
    assert VALIDATION !! w.files.Keys;
  }

  /** Validating a prepared directory that verifies gives one that verifies. */
  lemma ValidatedVerifies(w: World, c: Command)
    requires c.RunValidation? && c.reproduces && Inv(w) && VerifiesAt(w.files, Prepared)
    requires c.runtime == w.files[BenchmarkLock].runtime
    ensures Starts(w, c)
    ensures VerifiesAt(Step(w, c, |ValidationScript(c)|).files, Validated)
  {
    hide Exec, IndexMatches, Linked, Starts, WellOrdered, Fits, Verifies, PutNames, VerifiesAt;
    var script := ValidationScript(c);
    ValidationFits(w, c);
    VerifiedKeys(w.files, Prepared);
    ListedNamesOnly(w.files, Prepared);
    FittingRun(w, script, Validated);
    ValidationNames(c);
    StepKeepsInv(w, c, |script|);
    StageVerifies(Step(w, c, |script|).files, Validated);
  }

  lemma ValidationNames(c: Command)
    requires c.RunValidation?
    ensures PutNames(ValidationScript(c), 6) == VALIDATION + {BenchmarkReport}
  {
    var s := ValidationScript(c);
    assert PutNames(s, 6) == {s[0].name, s[1].name, s[2].name, s[3].name, s[4].name, s[5].name};
  }

  lemma LockFits(w: World)
    requires BenchmarkLock in w.files && HasValidation(w.files) && FinalTestLock !in w.files
    ensures var script := LockScript(w.files);
            && WellOrdered(script) && Fits(w, script) && |script| == 2 && script[1] == PutIndex(Locked)
            && PutNames(script, 1) == {FinalTestLock}
  {
    var script := LockScript(w.files);
    assert PutNames(script, 1) == {script[0].name};
  }

  lemma LockAddsItself()
    ensures FinalTestLock !in StageArtifacts(Validated)
    ensures StageArtifacts(Validated) + {FinalTestLock} + {ArtifactIndex} == StageArtifacts(Locked)
  {
  }

  /** Locking a directory with everything up to validation, and nothing more, gives one that verifies. */
  lemma LockedVerifies(w: World, runtime: int)
    requires Inv(w) && LockLoads(w.files) && HasValidation(w.files) && runtime == w.files[BenchmarkLock].runtime
    requires w.files.Keys == StageArtifacts(Validated)
    ensures Starts(w, FinalizeLock(true, runtime))
    ensures VerifiesAt(Step(w, FinalizeLock(true, runtime), 2).files, Locked)
  {
    LockAddsItself();
    LockFits(w);
    ListedNamesOnly(w.files, Validated);
    var script, lock := LockScript(w.files), FinalizeLock(true, runtime);
    assert Starts(w, lock) && Script(w, lock) == script;
    hide Exec, IndexMatches, Inv, LockScript, StageArtifacts, Littered, WellOrdered, Fits, PutNames, VerifiesAt, Starts,
      Script, LockLoads, HasValidation;
    FittingRun(w, script, Locked);
    StepKeepsInv(w, lock, 2);
    InvIsLinked(Step(w, lock, 2));
    StageVerifies(Step(w, lock, 2).files, Locked);
  }

  lemma TestIsWellOrdered(files: Files, c: Command)
    requires c.RunFinalTest? && c.results.Results? && FinalTestLock in files
    ensures WellOrdered(TestScript(files, c))
  {
  }

  lemma LockIsAcknowledged(files: Files)
    requires FinalTestLock in files && LinkOk(files, FinalTestLock, files[FinalTestLock])
    requires BenchmarkLock in files && LinkOk(files, BenchmarkLock, files[BenchmarkLock])
    ensures files[FinalTestLock].FinalLock? && files[FinalTestLock].acknowledged && files[BenchmarkLock].Lock?
    ensures files[FinalTestLock].lock == Sha(files[BenchmarkLock])
  {
  }

  /** A test starts on every linked directory with the artifacts of the locked stage, whatever its index says. */
  lemma TestStarts(w: World, c: Command)
    requires c.RunFinalTest? && c.acknowledged && c.results.Results? && Inv(w)
    requires w.files.Keys == StageArtifacts(Locked) && LockRuntimeIs(w.files, c.runtime)
    ensures Starts(w, c) && FinalTestLock in w.files && COMPLETED !! w.files.Keys
  {
    TestAddsCompleted();
    InvIsLinked(w);
    assert FinalTestLock in w.files.Keys && BenchmarkLock in w.files.Keys;
    hide Linked, LinkOk, Inv, StageArtifacts;
    LinkAt(w.files, FinalTestLock);
    LinkAt(w.files, BenchmarkLock);
    LockIsAcknowledged(w.files);
  }

  predicate LockRuntimeIs(files: Files, runtime: int) {
    BenchmarkLock in files && files[BenchmarkLock].Lock? && files[BenchmarkLock].runtime == runtime
  }

  lemma TestFits(w: World, c: Command)
    requires c.RunFinalTest? && c.results.Results? && FinalTestLock in w.files && COMPLETED !! w.files.Keys
    ensures Fits(w, TestScript(w.files, c))
  {
    var script := TestScript(w.files, c);
    forall i | 0 <= i < |script| && script[i].Put? && !script[i].replace ensures script[i].name !in w.files {
      assert script[i].name in COMPLETED;
    }
  }

  /** Testing a directory with the artifacts of the locked stage gives one that verifies, whatever its index said. */
  lemma TestedVerifies(w: World, c: Command)
    requires c.RunFinalTest? && Starts(w, c) && Inv(w) && w.files.Keys == StageArtifacts(Locked)
    ensures VerifiesAt(Step(w, c, |TestScript(w.files, c)|).files, Tested)
  {
    hide Exec, IndexMatches, Inv, Starts, TestScript, WellOrdered, Fits, VerifiesAt, PutNames, StageArtifacts, Littered;
    TestCanStart(w, c);
    TestAddsCompleted();
    TestIsWellOrdered(w.files, c);
    TestFits(w, c);
    var script := TestScript(w.files, c);
    TestNames(w.files, c);
    ListedNamesOnly(w.files, Locked);
    FittingRun(w, script, Tested);
    StepKeepsInv(w, c, |script|);
    InvIsLinked(Step(w, c, |script|));
    StageVerifies(Step(w, c, |script|).files, Tested);
  }

  lemma TestAddsCompleted()
    ensures COMPLETED !! StageArtifacts(Locked)
    ensures StageArtifacts(Locked) + (COMPLETED + {BenchmarkReport}) + {ArtifactIndex} == StageArtifacts(Tested)
  {
  }

  lemma InvIsLinked(w: World)
    requires Inv(w)
    ensures Linked(w.files)
  {
  }

  lemma VerifiedKeys(files: Files, stage: Stage)
    requires VerifiesAt(files, stage)
    ensures files.Keys == StageArtifacts(stage)
  {
    hide IndexMatches;
  }

  lemma TestNames(files: Files, c: Command)
    requires c.RunFinalTest? && c.results.Results? && FinalTestLock in files
    ensures |TestScript(files, c)| == 9 && TestScript(files, c)[8] == PutIndex(Tested)
    ensures PutNames(TestScript(files, c), 8) == COMPLETED + {BenchmarkReport}
  {
    var s := TestScript(files, c);
    assert PutNames(s, 8) == {s[0].name, s[2].name, s[3].name, s[4].name, s[5].name, s[6].name, s[7].name};
  }

  // ---------------------------------------------------------------- a crash during validation

  /** Some validation artifact is there and some other is not. */
  ghost predicate HalfValidated(files: Files) {
    (exists n :: n in VALIDATION && n in files) && (exists n :: n in VALIDATION && n !in files)
  }

  lemma VerifiedIsWhole(files: Files, reproduces: bool)
    requires Verifies(files, reproduces)
    ensures VALIDATION !! files.Keys || VALIDATION <= files.Keys
  {
    hide IndexMatches;
  }

  lemma HalfValidatedCannotStart(w: World, c: Command)
    requires HalfValidated(w.files) && Inv(w)
    ensures Starts(w, c) ==> c.Prepare?
  {
    hide Linked, LockLoads, Verifies;
    if FinalTestLock in w.files {
      LinkAt(w.files, FinalTestLock);
    }
    if c.RunValidation? && Verifies(w.files, c.reproduces) {
      VerifiedIsWhole(w.files, c.reproduces);
    }
  }

  lemma {:induction false} UntouchedNames(w: World, script: seq<Effect>, n: nat, name: Name)
    requires n <= |script| && name != ArtifactIndex
    requires forall e :: e in script && e.Put? ==> e.name != name
    ensures name in Exec(w, script, n).world.files <==> name in w.files
  {
    if n > 0 {
      assert script[n - 1] in script;
      UntouchedNames(w, script, n - 1, name);
    }
  }

  lemma PreparationIsElsewhere(c: Command)
    requires c.Prepare?
    ensures forall e :: e in PrepareScript(c) && e.Put? ==> e.name !in VALIDATION
  {
  }

  /** No command finishes a half-written validation, and none undoes it. */
  lemma HalfValidatedStays(w: World, c: Command, lifetime: nat)
    requires HalfValidated(w.files) && Inv(w)
    ensures HalfValidated(Step(w, c, lifetime).files)
  {
    hide Exec, Starts, Inv, PrepareScript;
    HalfValidatedCannotStart(w, c);
    if Starts(w, c) {
      PreparationIsElsewhere(c);
      var script := Script(w, c);
      forall n | n in VALIDATION ensures n in Step(w, c, lifetime).files <==> n in w.files {
        UntouchedNames(w, script, Min(lifetime, |script|), n);
      }
    }
  }

  lemma HalfValidatedByAttempt(w: World, a: Attempt)
    requires HalfValidated(w.files) && Inv(w)
    ensures HalfValidated(Attempted(w, a).files)
  {
    hide Step, Tears, Inv;
    HalfValidatedStays(w, a.command, a.lifetime);
  }

  lemma {:induction false} HalfValidatedForever(attempts: seq<Attempt>, more: seq<Attempt>)
    requires HalfValidated(Run(attempts).files)
    ensures HalfValidated(Run(attempts + more).files)
    ensures FinalTestLock !in Run(attempts + more).files
  {
    hide HalfValidated, Attempted;
    if more == [] {
      assert attempts + more == attempts;
    } else {
      var front, last := more[..|more| - 1], more[|more| - 1];
      HalfValidatedForever(attempts, front);
      assert (attempts + more)[..|attempts + more| - 1] == attempts + front;
      EveryRunIsLinked(attempts + front);
      HalfValidatedByAttempt(Run(attempts + front), last);
    }
    EveryRunIsLinked(attempts + more);
    NoLockOverHalf(Run(attempts + more));
  }

  lemma NoLockOverHalf(w: World)
    requires HalfValidated(w.files) && Inv(w)
    ensures FinalTestLock !in w.files
  {
    hide Linked;
    if FinalTestLock in w.files {
      LinkAt(w.files, FinalTestLock);
    }
  }

  /** What a validation that died after `k` effects has left in a prepared directory. */
  lemma ValidationAfter(w: World, c: Command, k: nat)
    requires c.RunValidation? && c.reproduces && Inv(w) && VerifiesAt(w.files, Prepared) && k <= 6
    requires c.runtime == w.files[BenchmarkLock].runtime
    ensures var after := Step(w, c, k);
            && (k == 0 ==> after == w)
            && (1 <= k <= 4 ==> HalfValidated(after.files))
            && (k >= 5 ==> after.files.Keys == StageArtifacts(Validated))
  {
    hide Exec, IndexMatches, Linked, Starts, WellOrdered, Fits, Verifies, VerifiesAt;
    var script := ValidationScript(c);
    ValidationFits(w, c);
    VerifiedKeys(w.files, Prepared);
    FittingExec(w, script, k);
    ValidationPrefix(c, k);
    ExecNothing(w, script);
    var keys := Step(w, c, k).files.Keys;
    assert keys == BASE + PutNames(script, k);
    if 1 <= k <= 4 {
      assert ValidationResults in VALIDATION && ValidationResults in keys;
      assert FinalTestReadiness in VALIDATION && FinalTestReadiness !in keys;
    }
  }

  lemma ValidationPrefix(c: Command, k: nat)
    requires c.RunValidation? && k <= 6
    ensures var names := PutNames(ValidationScript(c), k);
            && (k >= 1 ==> ValidationResults in names)
            && (k <= 4 ==> FinalTestReadiness !in names)
            && (k >= 5 ==> VALIDATION <= names <= VALIDATION + {BenchmarkReport})
  {
    var s := ValidationScript(c);
    if k >= 1 {
      assert s[0].name in PutNames(s, k);
    }
    if k >= 5 {
      assert s[0].name in PutNames(s, k) && s[1].name in PutNames(s, k) && s[2].name in PutNames(s, k)
             && s[3].name in PutNames(s, k) && s[4].name in PutNames(s, k);
    }
  }

  /** A validation that lives longer than its script does what one that lives as long does. */
  lemma ValidationOutlived(w: World, c: Command, k: nat)
    requires c.RunValidation? && k >= 7
    ensures |ValidationScript(c)| == 7 && Step(w, c, k) == Step(w, c, 7)
  {
    hide Exec, Starts;
  }

  lemma RunSnoc(attempts: seq<Attempt>, a: Attempt)
    ensures Run(attempts + [a]) == Attempted(Run(attempts), a)
  {
    assert (attempts + [a])[..|attempts|] == attempts;
  }
}
