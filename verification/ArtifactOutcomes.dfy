/**
 What can still become of a directory.  From every directory a history of commands and deaths leaves, some commands lead
 to a verified lock exactly when it holds no temporary file, no access record and no half-written validation; some lead
 to a verified test exactly when it is tested already or can still be locked.  The outcome of every single death
 follows.
 */
module ArtifactOutcomes {
  import opened Naturals
  import opened Wrappers
  import opened ArtifactWorkflow
  import opened ArtifactSafety
  import opened ArtifactRecovery
  import opened ArtifactDamage

  /** From here on, some sequence of commands leads to a locked directory that verifies. */
  ghost predicate CanBeLocked(attempts: seq<Attempt>) {
    exists more: seq<Attempt> :: VerifiesAt(Run(attempts + more).files, Locked)
  }

  /** From here on, some sequence of commands leads to a tested directory that verifies. */
  ghost predicate CanBeTested(attempts: seq<Attempt>) {
    exists more: seq<Attempt> :: VerifiesAt(Run(attempts + more).files, Tested)
  }

  /** From here on, some sequence of commands completes the final test. */
  ghost predicate CanBeCompleted(attempts: seq<Attempt>) {
    exists more: seq<Attempt> :: FinalTestCompletion in Run(attempts + more).files
  }

  /** An attempt that lives to its end. */
  function Whole(c: Command): Attempt {
    Attempt(c, 9, None)
  }

  lemma WholeRuns(attempts: seq<Attempt>, c: Command)
    ensures Run(attempts + [Whole(c)]) == Step(Run(attempts), c, 9)
  {
    RunSnoc(attempts, Whole(c));
    AttemptIs(Run(attempts), Whole(c));
  }

  // ---------------------------------------------------------------- where a verified lock can be reached

  lemma AccessNeedsLock(files: Files)
    requires Linked(files) && FinalTestAccess in files
    ensures FinalTestLock in files && VALIDATION <= files.Keys
  {
    hide Linked;
    LinkAt(files, FinalTestAccess);
    LinkAt(files, FinalTestLock);
  }

  /** Nothing of the final test is there without its access record. */
  lemma NothingTested(files: Files)
    requires Linked(files) && FinalTestAccess !in files
    ensures COMPLETED !! files.Keys
  {
    hide Linked;
    assert FinalTestAccess in COMPLETED - {FinalTestCompletion};
    if FinalTestResults in files {
      LinkAt(files, FinalTestResults);
    }
    if CostSensitivity in files {
      LinkAt(files, CostSensitivity);
    }
    if RegimeResults in files {
      LinkAt(files, RegimeResults);
    }
    if BacktestResults in files {
      LinkAt(files, BacktestResults);
    }
    if FinalTestCompletion in files {
      LinkAt(files, FinalTestCompletion);
    }
  }

  lemma LockCanStart(w: World)
    requires Inv(w) && BASE + VALIDATION <= w.files.Keys
    ensures LockLoads(w.files) && HasValidation(w.files)
    ensures Starts(w, FinalizeLock(true, w.files[BenchmarkLock].runtime))
  {
    InvIsLinked(w);
    assert BenchmarkLock in BASE && BenchmarkLockSum in BASE && SelectedModelManifest in VALIDATION;
    hide Linked, LinkOk, Inv;
    LinkAt(w.files, BenchmarkLock);
    LinkAt(w.files, BenchmarkLockSum);
    LocksAreLinked(w.files);
    LinkAt(w.files, SelectedModelManifest);
    SelectionIsLinked(w.files);
  }

  lemma SelectionIsLinked(files: Files)
    requires SelectedModelManifest in files && LinkOk(files, SelectedModelManifest, files[SelectedModelManifest])
    ensures files[SelectedModelManifest].Selection?
  {
  }

  /** A complete validation can be locked at once. */
  lemma ValidatedLocks(w: World)
    requires Inv(w) && Staged(w.files) && VALIDATION <= w.files.Keys
    requires FinalTestAccess !in w.files && !Littered(w.files)
    ensures LockLoads(w.files) && HasValidation(w.files)
    ensures VerifiesAt(Step(w, FinalizeLock(true, w.files[BenchmarkLock].runtime), 2).files, Locked)
  {
    StagedBase(w.files);
    InvIsLinked(w);
    NothingTested(w.files);
    LockCanStart(w);
    hide Starts, Inv, LockLoads, HasValidation, Littered, Staged, Step, VerifiesAt, Verifies;
    LockVerifiesExactly(w, w.files[BenchmarkLock].runtime);
  }

  lemma StagedBase(files: Files)
    requires Staged(files) && VALIDATION <= files.Keys
    ensures BASE <= files.Keys
  {
    assert ValidationResults in VALIDATION;
  }

  function DataAt(files: Files, name: Name): int {
    if name in files && files[name].Plain? then files[name].data else 0
  }

  /** A preparation with the contents that are there, and anything where nothing is. */
  function Resumption(files: Files): Command {
    var locked := BenchmarkLock in files && files[BenchmarkLock].Lock?;
    Prepare(DataAt(files, FeedAvailability), DataAt(files, DatasetEligibility), DataAt(files, SplitManifest),
            if locked then files[BenchmarkLock].runtime else 0,
            if locked then files[BenchmarkLock].data else 0,
            if BenchmarkReport in files && files[BenchmarkReport].Report? then files[BenchmarkReport].data else 0)
  }

  /** Without validation artifacts the report is the preparation's, so the preparation can be resumed. */
  lemma ResumptionFits(w: World)
    requires Linked(w.files) && VALIDATION !! w.files.Keys
    ensures Fits(w, PrepareScript(Resumption(w.files)))
  {
    hide Linked, LinkOk;
    var files, script := w.files, PrepareScript(Resumption(w.files));
    assert ValidationResults in VALIDATION;
    forall i | 0 <= i < |script| && script[i].Put? && !script[i].replace && script[i].name in files
      ensures files[script[i].name] == script[i].content
    {
      LinkAt(files, script[i].name);
      if i == 3 {
        LockResumes(files);
      } else if i == 4 {
        SumResumes(files);
      } else {
        PlainResumes(files, i);
      }
    }
  }

  lemma PlainResumes(files: Files, i: nat)
    requires i < 6 && i != 3 && i != 4 && ValidationResults !in files
    requires var e := PrepareScript(Resumption(files))[i]; e.name in files && LinkOk(files, e.name, files[e.name])
    ensures var e := PrepareScript(Resumption(files))[i]; files[e.name] == e.content
  {
    assert ValidationResults in VALIDATION;
  }

  lemma LockResumes(files: Files)
    requires Linked(files) && BenchmarkLock in files
    ensures files[BenchmarkLock] == PrepareScript(Resumption(files))[3].content
  {
    hide Linked;
    LinkAt(files, BenchmarkLock);
    LinkAt(files, SplitManifest);
    LinkAt(files, DatasetEligibility);
  }

  lemma SumResumes(files: Files)
    requires Linked(files) && BenchmarkLockSum in files
    ensures files[BenchmarkLockSum] == PrepareScript(Resumption(files))[4].content
  {
    LinkAt(files, BenchmarkLockSum);
    SumNeedsLock(files);
    LockResumes(files);
  }

  lemma SumNeedsLock(files: Files)
    requires BenchmarkLockSum in files && LinkOk(files, BenchmarkLockSum, files[BenchmarkLockSum])
    ensures BenchmarkLock in files && files[BenchmarkLockSum] == LockSum(Sha(files[BenchmarkLock]))
  {
  }

  lemma OnlyBase(w: World)
    requires Inv(w) && VALIDATION !! w.files.Keys && !Littered(w.files)
    ensures w.files.Keys <= BASE
  {
    InvIsLinked(w);
    var files := w.files;
    assert ValidationResults in VALIDATION;
    if FinalTestLock in files {
      LinkAt(files, FinalTestLock);
    }
    if FinalTestAccess in files {
      AccessNeedsLock(files);
    }
    NothingTested(files);
    EveryName();
    NotTemporary(files);
    hide Inv, Linked, Littered;
    forall n | n in files.Keys ensures n in BASE {
      assert n in BASE + VALIDATION + {FinalTestLock} + COMPLETED || n.Temporary?;
    }
  }

  /** Preparation can be completed on every directory it alone has written to. */
  lemma PreparationCompletes(w: World)
    requires Inv(w) && VALIDATION !! w.files.Keys && !Littered(w.files)
    ensures VerifiesAt(Step(w, Resumption(w.files), 7).files, Prepared)
  {
    OnlyBase(w);
    InvIsLinked(w);
    ResumptionFits(w);
    var c := Resumption(w.files);
    var script := PrepareScript(c);
    PrepareIsResumable(c);
    PrepareNames(c);
    assert script[|script| - 1] == PutIndex(Prepared) && |script| == 7;
    hide Exec, IndexMatches, Inv, PrepareScript, Resumption, Fits, Littered, PutNames, VerifiesAt, Linked;
    FittingRun(w, script, Prepared);
    StepKeepsInv(w, c, 7);
    InvIsLinked(Step(w, c, 7));
    StageVerifies(Step(w, c, 7).files, Prepared);
  }

  /** A validation that starts on a prepared directory under its lock's runtime. */
  function AnyValidation(runtime: int): Command {
    RunValidation(0, 0, 0, 0, 0, 0, 0, runtime, true)
  }

  lemma PreparedRuntime(files: Files)
    requires VerifiesAt(files, Prepared)
    ensures BenchmarkLock in files && files[BenchmarkLock].Lock?
  {
  }

  lemma ValidatedNext(attempts: seq<Attempt>) returns (next: Attempt)
    requires VerifiesAt(Run(attempts).files, Prepared)
    ensures Run(attempts + [next]).files.Keys == StageArtifacts(Validated)
  {
    hide Run, VerifiesAt, StageArtifacts;
    var w := Run(attempts);
    PreparedRuntime(w.files);
    var c := AnyValidation(w.files[BenchmarkLock].runtime);
    EveryRunIsLinked(attempts);
    hide Inv;
    ValidatedVerifies(w, c);
    ValidationOutlived(w, c, 9);
    WholeRuns(attempts, c);
    VerifiedKeys(Run(attempts + [Whole(c)]).files, Validated);
    next := Whole(c);
  }

  lemma PreparedNext(attempts: seq<Attempt>) returns (next: Attempt)
    requires VALIDATION !! Run(attempts).files.Keys && !Littered(Run(attempts).files)
    ensures VerifiesAt(Run(attempts + [next]).files, Prepared)
  {
    hide Run, VerifiesAt, Inv, Littered;
    var w := Run(attempts);
    EveryRunIsLinked(attempts);
    PreparationCompletes(w);
    var c := Resumption(w.files);
    WholeRuns(attempts, c);
    PrepareOutlived(w, c);
    next := Whole(c);
  }

  lemma PrepareOutlived(w: World, c: Command)
    requires c.Prepare?
    ensures Step(w, c, 9) == Step(w, c, 7)
  {
    hide Exec;
  }

  lemma LockedNext(attempts: seq<Attempt>) returns (next: Attempt)
    requires VALIDATION <= Run(attempts).files.Keys
    requires FinalTestAccess !in Run(attempts).files && !Littered(Run(attempts).files)
    ensures VerifiesAt(Run(attempts + [next]).files, Locked)
  {
    hide Run, VerifiesAt, Inv, Littered, Staged, LockLoads, HasValidation;
    var w := Run(attempts);
    EveryRunIsLinked(attempts);
    EveryRunIsStaged(attempts);
    ValidatedLocks(w);
    LockedExists(w.files);
    var c := FinalizeLock(true, w.files[BenchmarkLock].runtime);
    WholeRuns(attempts, c);
    LockOutlived(w, c);
    next := Whole(c);
  }

  lemma LockOutlived(w: World, c: Command)
    requires c.FinalizeLock?
    ensures Step(w, c, 9) == Step(w, c, 2)
  {
    hide Exec, LockLoads, HasValidation;
  }

  lemma TestedNext(attempts: seq<Attempt>) returns (next: Attempt)
    requires VerifiesAt(Run(attempts).files, Locked)
    ensures VerifiesAt(Run(attempts + [next]).files, Tested)
  {
    hide Run, Starts;
    var w := Run(attempts);
    LockedRuntime(w.files);
    VerifiedKeys(w.files, Locked);
    EveryRunIsLinked(attempts);
    hide VerifiesAt, StageArtifacts, Inv;
    var c := RunFinalTest(true, w.files[BenchmarkLock].runtime, 0, Results(0, 0, 0, 0), 0, 0);
    TestStarts(w, c);
    TestNames(w.files, c);
    TestedVerifies(w, c);
    WholeRuns(attempts, c);
    next := Whole(c);
  }

  lemma LockedRuntime(files: Files)
    requires VerifiesAt(files, Locked)
    ensures BenchmarkLock in files && files[BenchmarkLock].Lock?
  {
  }

  /** No validation artifact is there, or all are. */
  lemma WholeValidation(files: Files)
    ensures !HalfValidated(files) <==> VALIDATION !! files.Keys || VALIDATION <= files.Keys
  {
    if HalfValidated(files) {
      var a, b :| a in VALIDATION && a in files && b in VALIDATION && b !in files;
    }
    if !(VALIDATION !! files.Keys) && !(VALIDATION <= files.Keys) {
      var a :| a in VALIDATION && a in files.Keys;
      var b :| b in VALIDATION && b !in files.Keys;
    }
  }

  lemma LockIsReached(attempts: seq<Attempt>)
    requires !Littered(Run(attempts).files) && FinalTestAccess !in Run(attempts).files
    requires !HalfValidated(Run(attempts).files)
    ensures CanBeLocked(attempts)
  {
    WholeValidation(Run(attempts).files);
    hide Run, VerifiesAt, Littered, HalfValidated, StageArtifacts;
    if VALIDATION <= Run(attempts).files.Keys {
      var l := LockedNext(attempts);
      assert VerifiesAt(Run(attempts + [l]).files, Locked);
    } else {
      var p := PreparedNext(attempts);
      var v := ValidatedNext(attempts + [p]);
      var validated := attempts + [p] + [v];
      ValidatedIsOpen(Run(validated).files);
      var l := LockedNext(validated);
      assert validated + [l] == attempts + [p, v, l];
      assert VerifiesAt(Run(attempts + [p, v, l]).files, Locked);
    }
  }

  lemma ValidatedIsOpen(files: Files)
    requires files.Keys == StageArtifacts(Validated)
    ensures VALIDATION <= files.Keys && FinalTestAccess !in files && !Littered(files)
  {
    ListedNamesOnly(files, Validated);
    assert FinalTestAccess !in files.Keys;
  }

  /** What a verified lock looks like from the outside. */
  lemma LockedLooks(files: Files)
    requires VerifiesAt(files, Locked)
    ensures !Littered(files) && FinalTestAccess !in files && FinalTestLock in files
  {
    VerifiedKeys(files, Locked);
    ListedNamesOnly(files, Locked);
    TestAddsCompleted();
    hide VerifiesAt, Littered;
    assert FinalTestAccess !in files.Keys && FinalTestLock in files.Keys;
  }

  /**
   Every directory that any history leaves can still become a verified lock exactly when it holds no temporary file,
   no access record, and not just a part of a validation.
   */
  lemma LockableExactly(attempts: seq<Attempt>)
    ensures CanBeLocked(attempts) <==>
            var files := Run(attempts).files;
            !Littered(files) && FinalTestAccess !in files && !HalfValidated(files)
  {
    var files := Run(attempts).files;
    hide Run, VerifiesAt, Littered, HalfValidated;
    if !Littered(files) && FinalTestAccess !in files && !HalfValidated(files) {
      LockIsReached(attempts);
    } else {
      forall more: seq<Attempt> ensures !VerifiesAt(Run(attempts + more).files, Locked) {
        if VerifiesAt(Run(attempts + more).files, Locked) {
          LockedLooks(Run(attempts + more).files);
        }
        if Littered(files) {
          LitteredForever(attempts, more);
        } else if HalfValidated(files) {
          HalfValidatedForever(attempts, more);
        } else {
          ArtifactsAreImmutable(attempts, more);
          AccessStays(Run(attempts), Run(attempts + more));
        }
      }
    }
  }

  // ---------------------------------------------------------------- where a verified test can be reached

  lemma VerifiesWithAccess(files: Files)
    requires Verifies(files, true) && FinalTestAccess in files
    ensures VerifiesAt(files, Tested)
  {
    hide IndexMatches, SchemasHold, FinalLockMatches, CompletionMatches, ResultFilesMatch, RuntimesMatch;
    assert FinalTestAccess in files.Keys;
  }

  lemma TestedLooks(files: Files)
    requires VerifiesAt(files, Tested)
    ensures !Littered(files) && FinalTestLock in files && Verifies(files, true)
  {
    VerifiedKeys(files, Tested);
    ListedNamesOnly(files, Tested);
    assert FinalTestLock in files.Keys;
  }

  /** Every directory can still become a verified test exactly when it is one, or can still become a verified lock. */
  lemma TestableExactly(attempts: seq<Attempt>)
    ensures CanBeTested(attempts) <==> VerifiesAt(Run(attempts).files, Tested) || CanBeLocked(attempts)
  {
    var files := Run(attempts).files;
    LockableExactly(attempts);
    hide Run, VerifiesAt, Littered, HalfValidated, Verifies;
    if VerifiesAt(files, Tested) {
      assert attempts + [] == attempts;
    } else if CanBeLocked(attempts) {
      var more: seq<Attempt> :| VerifiesAt(Run(attempts + more).files, Locked);
      var t := TestedNext(attempts + more);
      assert attempts + more + [t] == attempts + (more + [t]);
      assert VerifiesAt(Run(attempts + (more + [t])).files, Tested);
    } else {
      forall more: seq<Attempt> ensures !VerifiesAt(Run(attempts + more).files, Tested) {
        if VerifiesAt(Run(attempts + more).files, Tested) {
          TestedLooks(Run(attempts + more).files);
        }
        if Littered(files) {
          LitteredForever(attempts, more);
        } else if HalfValidated(files) {
          HalfValidatedForever(attempts, more);
        } else {
          if Verifies(files, true) {
            VerifiesWithAccess(files);
          }
          DamageIsPermanent(attempts, more, true);
        }
      }
    }
  }

  // ---------------------------------------------------------------- what a command leaves

  lemma NamesAreArtifacts(w: World, c: Command)
    requires Starts(w, c)
    ensures forall e :: e in Script(w, c) && e.Put? ==> !e.name.Temporary?
  {
    hide Starts;
    match c
    case Prepare(_, _, _, _, _, _) =>
      assert forall e :: e in PrepareScript(c) && e.Put? ==> !e.name.Temporary?;
    case RunValidation(_, _, _, _, _, _, _, _, _) =>
      assert forall e :: e in ValidationScript(c) && e.Put? ==> !e.name.Temporary?;
    case FinalizeLock(_, _) => assert forall e :: e in Script(w, c) && e.Put? ==> !e.name.Temporary?;
    case RunFinalTest(_, _, _, _, _, _) => assert forall e :: e in Script(w, c) && e.Put? ==> !e.name.Temporary?;
  }

  /** Only a death inside a write leaves a temporary file. */
  lemma LitterComesFromDeaths(w: World, c: Command, lifetime: nat)
    ensures Littered(Step(w, c, lifetime).files) <==> Littered(w.files)
  {
    hide Exec, Starts, Script;
    if Starts(w, c) {
      NamesAreArtifacts(w, c);
      var script := Script(w, c);
      forall n: Name | n.Temporary? ensures n in Step(w, c, lifetime).files.Keys <==> n in w.files.Keys {
        UntouchedNames(w, script, Min(lifetime, |script|), n);
      }
    }
  }

  lemma AttemptLitters(w: World, a: Attempt)
    ensures Littered(Attempted(w, a).files) <==> Littered(w.files) || Tears(w, a)
    ensures !Tears(w, a) ==> Attempted(w, a) == Step(w, a.command, a.lifetime)
  {
    LitterComesFromDeaths(w, a.command, a.lifetime);
    hide Step, Littered, Tears, Litter;
    if Tears(w, a) {
      hide Attempted;
      TearsLitters(w, a);
    }
  }

  lemma LitterIsNoArtifact(w: World, t: Leftover, n: Name)
    requires !n.Temporary?
    ensures n in Litter(w, t).files <==> n in w.files
  {
  }

  lemma AttemptNames(w: World, a: Attempt, n: Name)
    requires !n.Temporary?
    ensures n in Attempted(w, a).files <==> n in Step(w, a.command, a.lifetime).files
  {
    hide Step, Attempted, Litter;
    AttemptIs(w, a);
    if a.torn.Some? {
      LitterIsNoArtifact(Step(w, a.command, a.lifetime), a.torn.value, n);
    }
  }

  // ---------------------------------------------------------------- a death during validation

  lemma ValidationElsewhere(c: Command)
    requires c.RunValidation?
    ensures forall e :: e in ValidationScript(c) && e.Put? ==> e.name != FinalTestAccess
  {
  }

  lemma ValidationLeavesAccess(w: World, c: Command, lifetime: nat)
    requires c.RunValidation?
    ensures FinalTestAccess in Step(w, c, lifetime).files <==> FinalTestAccess in w.files
  {
    hide Exec, Starts, ValidationScript;
    if Starts(w, c) {
      ValidationElsewhere(c);
      UntouchedNames(w, ValidationScript(c), Min(lifetime, |ValidationScript(c)|), FinalTestAccess);
    }
  }

  lemma StepNames(w: World, c: Command, lifetime: nat)
    ensures w.files.Keys <= Step(w, c, lifetime).files.Keys
  {
    hide Exec, Starts, Script;
    if Starts(w, c) {
      NamesStay(w, Script(w, c), Min(lifetime, |Script(w, c)|));
    }
  }

  lemma VerifiedUnvalidated(files: Files, reproduces: bool)
    requires Verifies(files, reproduces) && !(VALIDATION <= files.Keys)
    ensures VerifiesAt(files, Prepared) && reproduces
  {
    hide IndexMatches, SchemasHold, FinalLockMatches, CompletionMatches, ResultFilesMatch, RuntimesMatch;
  }

  lemma ValidationNeeds(w: World, c: Command)
    requires c.RunValidation? && Starts(w, c)
    ensures Verifies(w.files, c.reproduces) && c.reproduces && Verifies(w.files, true)
    ensures LockRuntimeIs(w.files, c.runtime) && LockLoads(w.files)
  {
    OnlyReproduced(w.files, c.reproduces);
    hide Verifies;
  }

  lemma VerifiedIsClean(files: Files)
    requires Verifies(files, true)
    ensures !Littered(files)
  {
    hide Verifies, Littered;
    if Littered(files) {
      LitteredFails(files, true);
    }
  }

  /** How many writes of a validation leave it half-written. */
  lemma HalfWritten(w: World, c: Command, k: nat)
    requires c.RunValidation? && Starts(w, c) && Inv(w)
    ensures HalfValidated(Step(w, c, k).files) <==> !(VALIDATION <= w.files.Keys) && 1 <= k <= 4
  {
    ValidationNeeds(w, c);
    hide Starts, Inv, Step, HalfValidated, Verifies, VerifiesAt, LockLoads, StageArtifacts;
    var after := Step(w, c, k).files;
    WholeValidation(after);
    if VALIDATION <= w.files.Keys {
      StepNames(w, c, k);
    } else {
      VerifiedUnvalidated(w.files, c.reproduces);
      if k <= 6 {
        ValidationAfter(w, c, k);
        PreparedHasNoValidation(w.files);
        if k >= 5 {
          ValidatedIsOpen(after);
        }
      } else {
        ValidationOutlived(w, c, k);
        ValidatedVerifies(w, c);
        VerifiedKeys(after, Validated);
        ValidatedIsOpen(after);
      }
    }
  }

  lemma PreparedHasNoValidation(files: Files)
    requires VerifiesAt(files, Prepared)
    ensures VALIDATION !! files.Keys
  {
    VerifiedKeys(files, Prepared);
  }

  /**
   After a validation that dies, on whatever directory it started, a verified lock can still be reached exactly when
   the final test has not been started, the death was not inside a write, and the validation artifacts were complete
   before or the death came before the first or after the fifth of them.
   */
  lemma ValidationCrashOutcome(attempts: seq<Attempt>, a: Attempt)
    requires a.command.RunValidation? && Starts(Run(attempts), a.command)
    ensures CanBeLocked(attempts + [a]) <==>
            var w := Run(attempts);
            && FinalTestAccess !in w.files && !Tears(w, a)
            && (VALIDATION <= w.files.Keys || !(1 <= a.lifetime <= 4))
  {
    var w, c, k := Run(attempts), a.command, a.lifetime;
    EveryRunIsLinked(attempts);
    ValidationNeeds(w, c);
    VerifiedIsClean(w.files);
    hide Run, Starts, Inv, Step, Attempted, Tears, Littered, HalfValidated, Verifies, LockLoads, CanBeLocked;
    RunSnoc(attempts, a);
    LockableExactly(attempts + [a]);
    AttemptLitters(w, a);
    ValidationLeavesAccess(w, c, k);
    AttemptNames(w, a, FinalTestAccess);
    HalfWritten(w, c, k);
  }

  /** On a prepared directory every effect of a validation is a write. */
  lemma PreparedValidationTears(w: World, a: Attempt)
    requires a.command.RunValidation? && Starts(w, a.command) && Inv(w)
    requires VerifiesAt(w.files, Prepared) && StageRecorded(w.files)
    ensures Tears(w, a) <==> a.torn.Some? && a.lifetime <= 6
  {
    var c, k := a.command, a.lifetime;
    ValidationNeeds(w, c);
    hide Starts, Inv, Verifies, StageRecorded, LockLoads;
    if k <= 6 {
      PreparedValidationWrites(w, c, k);
    }
    ValidationOutlived(w, c, 7);
  }

  lemma PreparedReport(files: Files)
    requires VerifiesAt(files, Prepared) && StageRecorded(files)
    ensures BenchmarkReport in files && IsReportOf(files[BenchmarkReport], Prepared)
    ensures ArtifactIndex in files && files[ArtifactIndex].Index? && files[ArtifactIndex].stage == Prepared
  {
    hide SchemasHold, FinalLockMatches, CompletionMatches, ResultFilesMatch, RuntimesMatch;
    assert BenchmarkReport in files[ArtifactIndex].artifacts;
  }

  lemma PreparedValidationWrites(w: World, c: Command, k: nat)
    requires c.RunValidation? && c.reproduces && Inv(w) && VerifiesAt(w.files, Prepared) && StageRecorded(w.files)
    requires LockRuntimeIs(w.files, c.runtime) && k <= 6
    ensures |ValidationScript(c)| == 7 && DiesWriting(w, ValidationScript(c), k)
  {
    ValidationFits(w, c);
    VerifiedKeys(w.files, Prepared);
    PreparedReport(w.files);
    ListedNamesOnly(w.files, Prepared);
    PreparedHasNoValidation(w.files);
    hide Inv, VerifiesAt, StageRecorded, Exec, Fits, WellOrdered, Starts, PutNames, Littered, StageArtifacts;
    var script := ValidationScript(c);
    assert |script| == 7;
    FittingExec(w, script, k);
    var now := Exec(w, script, k).world.files;
    ValidationPrefixNames(c, k);
    if k < 5 {
      assert script[k].name !in now.Keys;
    } else if k == 5 {
      assert now[BenchmarkReport] == w.files[BenchmarkReport];
    } else {
      hide ValidationScript, IndexOf;
      assert now[ArtifactIndex] == w.files[ArtifactIndex];
      IndexStage(now, Validated);
      NoLitter(w.files, script, 6, now);
      SixthIsIndex(c);
    }
  }

  lemma SixthIsIndex(c: Command)
    requires c.RunValidation?
    ensures |ValidationScript(c)| == 7 && ValidationScript(c)[6] == PutIndex(Validated)
  {
  }

  lemma ValidationPrefixNames(c: Command, k: nat)
    requires c.RunValidation? && k <= 6
    ensures var script := ValidationScript(c);
            && |script| == 7
            && ArtifactIndex !in PutNames(script, k)
            && (k <= 5 ==> BenchmarkReport !in PutNames(script, k))
            && (k < 5 ==> script[k].Put? && script[k].name in VALIDATION && script[k].name !in PutNames(script, k))
  {
  }

  // ---------------------------------------------------------------- a death during the final test

  lemma TestKeys(w: World, c: Command)
    requires c.RunFinalTest? && Starts(w, c) && Inv(w) && Staged(w.files)
    ensures FinalTestLock in w.files && VALIDATION <= w.files.Keys && BASE <= w.files.Keys
    ensures FinalTestAccess !in w.files && COMPLETED !! w.files.Keys
    ensures !Littered(w.files) ==> w.files.Keys == StageArtifacts(Locked)
  {
    TestCanStart(w, c);
    InvIsLinked(w);
    assert FinalTestAccess !in w.files;
    hide Starts, Inv, Linked, Staged, LinkOk, StageArtifacts, Littered;
    LinkAt(w.files, FinalTestLock);
    LockNeedsValidation(w.files);
    NothingTested(w.files);
    StagedBase(w.files);
    if !Littered(w.files) {
      NotTemporary(w.files);
      assert ArtifactIndex in BASE;
      AllLocked(w.files.Keys, w.files.Keys + {FinalTestLock, ArtifactIndex});
      assert w.files.Keys + {FinalTestLock, ArtifactIndex} == w.files.Keys;
    }
  }

  lemma LockNeedsValidation(files: Files)
    requires FinalTestLock in files && LinkOk(files, FinalTestLock, files[FinalTestLock])
    ensures VALIDATION <= files.Keys
  {
  }

  lemma TestPrefix(files: Files, c: Command, k: nat)
    requires c.RunFinalTest? && c.results.Results? && FinalTestLock in files && k <= 8
    ensures var names := PutNames(TestScript(files, c), k);
            && (k >= 1 ==> FinalTestAccess in names)
            && (FinalTestCompletion in names <==> k >= 7)
  {
    var s := TestScript(files, c);
    if k >= 1 {
      assert s[0].name in PutNames(s, k);
    }
    if k >= 7 {
      assert s[6].name in PutNames(s, k);
    }
  }

  /** What a final test that performs `k` effects leaves. */
  lemma TestAfter(w: World, c: Command, k: nat)
    requires c.RunFinalTest? && Starts(w, c) && Inv(w) && Staged(w.files) && k <= 8
    ensures var after := Step(w, c, k).files;
            && (k == 0 ==> Step(w, c, k) == w)
            && (k >= 1 ==> FinalTestAccess in after)
            && (FinalTestCompletion in after <==> k >= 7)
  {
    TestKeys(w, c);
    TestCanStart(w, c);
    hide Exec, IndexMatches, Inv, Staged, Starts, TestScript, WellOrdered, Fits, PutNames, Littered, StageArtifacts;
    TestIsWellOrdered(w.files, c);
    TestFits(w, c);
    var script := TestScript(w.files, c);
    TestNames(w.files, c);
    FittingExec(w, script, k);
    TestPrefix(w.files, c, k);
    ExecNothing(w, script);
    var keys := Step(w, c, k).files.Keys;
    assert keys == w.files.Keys + PutNames(script, k);
    assert FinalTestCompletion in COMPLETED && FinalTestCompletion !in w.files.Keys;
  }

  lemma {:induction false} IndexUntouched(w: World, script: seq<Effect>, n: nat)
    requires n <= |script| && ArtifactIndex in w.files
    requires forall i :: 0 <= i < n ==> !script[i].PutIndex? && Disciplined(script[i])
    ensures ArtifactIndex in Exec(w, script, n).world.files
    ensures Exec(w, script, n).world.files[ArtifactIndex] == w.files[ArtifactIndex]
  {
    if n > 0 {
      IndexUntouched(w, script, n - 1);
    }
  }

  /** A final test that dies before its last effect leaves the index at an earlier stage. */
  lemma TestLeavesIndex(w: World, c: Command, k: nat)
    requires c.RunFinalTest? && Starts(w, c) && Inv(w) && Staged(w.files) && StageRecorded(w.files) && k <= 8
    ensures Misindexed(Step(w, c, k).files)
  {
    TestKeys(w, c);
    TestCanStart(w, c);
    EarlierIndex(w);
    ScriptsAreDisciplined(w, c);
    TestNames(w.files, c);
    var script := TestScript(w.files, c);
    assert forall i :: 0 <= i < 8 ==> !script[i].PutIndex?;
    hide Exec, Starts, Inv, Staged, StageRecorded, TestScript;
    IndexUntouched(w, script, k);
  }

  lemma EarlierIndex(w: World)
    requires Inv(w) && StageRecorded(w.files) && BASE <= w.files.Keys && FinalTestAccess !in w.files
    ensures Misindexed(w.files)
  {
    InvIsLinked(w);
    assert ArtifactIndex in BASE;
    LinkAt(w.files, ArtifactIndex);
  }

  /** A final test that lives longer than its script does what one that lives as long does. */
  lemma TestOutlived(w: World, a: Attempt)
    requires a.command.RunFinalTest? && Starts(w, a.command) && a.lifetime >= 9
    ensures !Tears(w, a) && Step(w, a.command, a.lifetime) == Step(w, a.command, 9)
    ensures FinalTestLock in w.files && a.command.results.Results? && |TestScript(w.files, a.command)| == 9
  {
    TestCanStart(w, a.command);
    TestNames(w.files, a.command);
    hide Exec, Starts, TestScript;
  }

  lemma FirstWriteTears(w: World, a: Attempt)
    requires a.command.RunFinalTest? && Starts(w, a.command) && a.lifetime == 0
    ensures Tears(w, a) <==> a.torn.Some?
    ensures Step(w, a.command, 0) == w
  {
    TestCanStart(w, a.command);
    var script := TestScript(w.files, a.command);
    assert script[0].name == FinalTestAccess && FinalTestAccess !in w.files;
    hide Starts, TestScript;
    ExecNothing(w, script);
  }

  /** A final test that was started and not finished leaves a directory that does not verify. */
  lemma StartedFails(w: World, a: Attempt)
    requires a.command.RunFinalTest? && Starts(w, a.command) && Inv(w) && Staged(w.files) && StageRecorded(w.files)
    requires 1 <= a.lifetime <= 8
    ensures FinalTestAccess in Attempted(w, a).files && !Verifies(Attempted(w, a).files, true)
  {
    var c, k := a.command, a.lifetime;
    TestAfter(w, c, k);
    TestLeavesIndex(w, c, k);
    hide Inv, Staged, StageRecorded, Starts, Step, Misindexed, Verifies, Tears, Litter;
    AttemptNames(w, a, FinalTestAccess);
    MisindexedFails(Step(w, c, k).files, true);
    if Tears(w, a) {
      TearsLitters(w, a);
      LitteredFails(Attempted(w, a).files, true);
    }
  }

  /**
   After a final test that dies, on whatever directory it started, a tested directory that verifies can still be
   reached exactly when there was no temporary file and the test lived to its end or died before, not inside, the
   write of its access record.
   */
  lemma TestCrashOutcome(attempts: seq<Attempt>, a: Attempt)
    requires a.command.RunFinalTest? && Starts(Run(attempts), a.command)
    ensures CanBeTested(attempts + [a]) <==>
            !Littered(Run(attempts).files) && (a.lifetime >= 9 || (a.lifetime == 0 && a.torn.None?))
  {
    var w, c, k, crashed := Run(attempts), a.command, a.lifetime, attempts + [a];
    EveryRunIsLinked(attempts);
    EveryRunIsStaged(attempts);
    RunSnoc(attempts, a);
    TestKeys(w, c);
    hide Run, Starts, Inv, Staged, StageRecorded, Attempted, Step, Tears, Littered, Verifies, VerifiesAt, CanBeLocked,
      CanBeTested, HalfValidated, StageArtifacts;
    AttemptLitters(w, a);
    TestableExactly(crashed);
    LockableExactly(crashed);
    if Littered(Attempted(w, a).files) {
      if VerifiesAt(Run(crashed).files, Tested) {
        TestedLooks(Run(crashed).files);
      }
    }
    if k >= 9 {
      TestOutlived(w, a);
      if !Littered(w.files) {
        TestedVerifies(w, c);
      }
    } else if k == 0 {
      FirstWriteTears(w, a);
      WholeValidation(w.files);
    } else {
      StartedFails(w, a);
      if VerifiesAt(Run(crashed).files, Tested) {
        TestedLooks(Run(crashed).files);
      }
    }
  }

  // ---------------------------------------------------------------- the completion record

  /** The final test was started and not finished. */
  ghost predicate Stranded(files: Files) {
    FinalTestAccess in files && FinalTestCompletion !in files
  }

  lemma OnlyTheTestCompletes(w: World, c: Command)
    requires Starts(w, c) && !c.RunFinalTest?
    ensures forall e :: e in Script(w, c) && e.Put? ==> e.name != FinalTestCompletion
  {
    hide Starts;
    match c
    case Prepare(_, _, _, _, _, _) =>
      assert forall e :: e in PrepareScript(c) && e.Put? ==> e.name != FinalTestCompletion;
    case RunValidation(_, _, _, _, _, _, _, _, _) =>
      assert forall e :: e in ValidationScript(c) && e.Put? ==> e.name != FinalTestCompletion;
    case FinalizeLock(_, _) => assert forall e :: e in Script(w, c) && e.Put? ==> e.name != FinalTestCompletion;
  }

  /** No command finishes a final test that another process left unfinished. */
  lemma StrandedStays(w: World, a: Attempt)
    requires Stranded(w.files)
    ensures Stranded(Attempted(w, a).files)
  {
    var c := a.command;
    AttemptKeeps(w, a);
    AccessStays(w, Attempted(w, a));
    AttemptNames(w, a, FinalTestCompletion);
    hide Exec, Script, Keeps, LockLoads, Verifies, HasValidation, Attempted;
    if Starts(w, c) {
      OnlyTheTestCompletes(w, c);
      UntouchedNames(w, Script(w, c), Min(a.lifetime, |Script(w, c)|), FinalTestCompletion);
    }
  }

  lemma {:induction false} StrandedForever(attempts: seq<Attempt>, more: seq<Attempt>)
    requires Stranded(Run(attempts).files)
    ensures Stranded(Run(attempts + more).files)
  {
    hide Stranded, Attempted;
    if more == [] {
      assert attempts + more == attempts;
    } else {
      var front, last := more[..|more| - 1], more[|more| - 1];
      StrandedForever(attempts, front);
      assert (attempts + more)[..|attempts + more| - 1] == attempts + front;
      StrandedStays(Run(attempts + front), last);
    }
  }

  /** A temporary file keeps no test from starting. */
  lemma LitteredTestStarts(w: World, t: Leftover, c: Command)
    requires c.RunFinalTest? && Starts(w, c)
    ensures Starts(Litter(w, t), c)
  {
  }

  lemma CompletionStays(w: World, c: Command)
    requires c.RunFinalTest? && Starts(w, c) && Inv(w) && Staged(w.files)
    ensures FinalTestCompletion in Step(w, c, 9).files
  {
    TestAfter(w, c, 8);
    TestCanStart(w, c);
    TestNames(w.files, c);
    var script := TestScript(w.files, c);
    hide Starts, TestScript, Inv, Staged;
    assert Exec(w, script, 9).world.files.Keys >= Exec(w, script, 8).world.files.Keys;
  }

  /** The completion record itself can still be had exactly when the test died before its access record or after it. */
  lemma CompletionRecordOutcome(attempts: seq<Attempt>, a: Attempt)
    requires a.command.RunFinalTest? && Starts(Run(attempts), a.command)
    ensures CanBeCompleted(attempts + [a]) <==> a.lifetime == 0 || a.lifetime >= 7
  {
    var w, c, k, crashed := Run(attempts), a.command, a.lifetime, attempts + [a];
    EveryRunIsLinked(attempts);
    EveryRunIsStaged(attempts);
    EveryRunIsLinked(crashed);
    EveryRunIsStaged(crashed);
    RunSnoc(attempts, a);
    AttemptNames(w, a, FinalTestAccess);
    AttemptNames(w, a, FinalTestCompletion);
    hide Run, Inv, Staged, StageRecorded, Step, Tears, Litter;
    if k <= 8 {
      TestAfter(w, c, k);
    } else {
      TestOutlived(w, a);
      CompletionStays(w, c);
    }
    if k == 0 {
      if Tears(w, a) {
        LitteredTestStarts(w, a.torn.value, c);
      }
      hide Starts;
      assert Starts(Run(crashed), c);
      CompletionStays(Run(crashed), c);
      WholeRuns(crashed, c);
      assert FinalTestCompletion in Run(crashed + [Whole(c)]).files;
    } else if k >= 7 {
      assert crashed + [] == crashed;
    } else {
      forall more: seq<Attempt> ensures FinalTestCompletion !in Run(crashed + more).files {
        StrandedForever(crashed, more);
      }
    }
  }
}
