/**
 What the four commands leave in the directory, name by name, when they run to their end, in which order they write,
 when they start, and what verification of a directory rules out.
 */
module ArtifactContents {
  import opened Naturals
  import opened Wrappers
  import opened ArtifactWorkflow
  import opened ArtifactSafety
  import opened ArtifactRecovery

  /** An index of everything else in the directory, recording this stage. */
  predicate IndexesAll(files: Files, stage: Stage) {
    && ArtifactIndex in files && files[ArtifactIndex].Index? && files[ArtifactIndex].stage == stage
    && files[ArtifactIndex].artifacts.Keys == files.Keys - {ArtifactIndex}
    && forall n <- files[ArtifactIndex].artifacts :: n in files && files[ArtifactIndex].artifacts[n] == Sha(files[n])
  }

  /** The files of `more` added to those of `before`, and an index of all of them. */
  predicate Extends(after: Files, before: Files, more: Files, stage: Stage) {
    && after.Keys == before.Keys + more.Keys + {ArtifactIndex}
    && (forall n :: n in more ==> n in after && after[n] == more[n])
    && (forall n :: n in before && n !in more && n != ArtifactIndex ==> n in after && after[n] == before[n])
    && IndexesAll(after, stage)
  }

  /** The artifact an effect may write. */
  function NameOf(e: Effect): Option<Name> {
    match e
    case Put(name, _, _) => Some(name)
    case PutIndex(_) => Some(ArtifactIndex)
    case Evaluate => None
  }

  lemma PerformedPut(w: World, e: Effect)
    requires e.Put? && Perform(w, e).going
    ensures Holds(Perform(w, e).world.files, e.name, e.content)
  {
  }

  lemma PerformedElsewhere(w: World, e: Effect, name: Name, content: Content)
    requires Holds(w.files, name, content) && NameOf(e) != Some(name)
    ensures Holds(Perform(w, e).world.files, name, content)
  {
  }

  lemma NamesDiffer(script: seq<Effect>, i: nat, j: nat)
    requires WellOrdered(script) && i < j < |script| - 1 && script[i].Put?
    ensures NameOf(script[j]) != Some(script[i].name)
  {
  }

  lemma {:induction false} PutsHold(w: World, script: seq<Effect>, n: nat, j: nat)
    requires WellOrdered(script) && Fits(w, script) && j < n <= |script| - 1 && script[j].Put?
    ensures Holds(Exec(w, script, n).world.files, script[j].name, script[j].content)
  {
    hide WellOrdered, Fits, Perform, Holds, PutNames, NameOf;
    FittingExec(w, script, n);
    FittingExec(w, script, n - 1);
    if j < n - 1 {
      PutsHold(w, script, n - 1, j);
      NamesDiffer(script, j, n - 1);
      PerformedElsewhere(Exec(w, script, n - 1).world, script[n - 1], script[j].name, script[j].content);
    } else {
      PerformedPut(Exec(w, script, n - 1).world, script[j]);
    }
  }

  /** Files with everything old and new in place, once they are indexed. */
  lemma IndexCompletes(now: Files, before: Files, more: Files, stage: Stage)
    requires now.Keys == before.Keys + more.Keys && ArtifactIndex !in more
    requires forall n :: n in more ==> Holds(now, n, more[n])
    requires forall n :: n in before && n !in more ==> Holds(now, n, before[n])
    ensures Extends(now[ArtifactIndex := IndexOf(now, stage)], before, more, stage)
  {
    hide IndexOf, IndexesAll;
    IndexedAll(now, stage);
  }

  /** Before its index, a script that fits has put everything it puts. */
  lemma FittingPuts(w: World, script: seq<Effect>, more: Files)
    requires WellOrdered(script) && Fits(w, script) && script != []
    requires more.Keys == PutNames(script, |script| - 1)
    requires forall j :: 0 <= j < |script| && script[j].Put? ==> Holds(more, script[j].name, script[j].content)
    ensures var now := Exec(w, script, |script| - 1).world.files;
            && Exec(w, script, |script| - 1).going && now.Keys == w.files.Keys + more.Keys
            && (forall n :: n in more ==> Holds(now, n, more[n]))
            && (forall n :: n in w.files && n !in more ==> Holds(now, n, w.files[n]))
  {
    hide Fits, WellOrdered, Exec;
    var n := |script| - 1;
    FittingExec(w, script, n);
    forall name | name in more ensures Holds(Exec(w, script, n).world.files, name, more[name]) {
      var j :| 0 <= j < n && script[j].Put? && script[j].name == name;
      PutsHold(w, script, n, j);
    }
  }

  /** A script that fits leaves what it puts and an index of everything. */
  lemma FittingLeaves(w: World, script: seq<Effect>, stage: Stage, more: Files)
    requires WellOrdered(script) && Fits(w, script) && script != [] && script[|script| - 1] == PutIndex(stage)
    requires !Littered(w.files) && more.Keys == PutNames(script, |script| - 1)
    requires forall j :: 0 <= j < |script| && script[j].Put? ==> Holds(more, script[j].name, script[j].content)
    ensures Exec(w, script, |script|).going
    ensures Extends(Exec(w, script, |script|).world.files, w.files, more, stage)
  {
    hide Fits, Littered, WellOrdered, Holds, IndexOf, Extends;
    LastIsIndex(script);
    var n := |script| - 1;
    FittingPuts(w, script, more);
    var now := Exec(w, script, n).world.files;
    NoLitter(w.files, script, n, now);
    IndexCompletes(now, w.files, more, stage);
  }

  lemma LastIsIndex(script: seq<Effect>)
    requires WellOrdered(script)
    ensures script != [] && script[|script| - 1].PutIndex?
    ensures forall i :: 0 <= i < |script| && script[i].Put? ==> i < |script| - 1 && script[i].name != ArtifactIndex
  {
  }

  lemma IndexedAll(files: Files, stage: Stage)
    ensures IndexesAll(files[ArtifactIndex := IndexOf(files, stage)], stage)
  {
    var after := files[ArtifactIndex := IndexOf(files, stage)];
    assert after[ArtifactIndex].artifacts.Keys == after.Keys - {ArtifactIndex};
  }

  // ---------------------------------------------------------------- the four commands, run to their end

  /** The files a preparation writes, index aside. */
  function PreparedFiles(c: Command): Files
    requires c.Prepare?
  {
    var lock := Lock(Sha(Plain(c.split)), Sha(Plain(c.eligibility)), c.runtime, c.lockData);
    map[FeedAvailability := Plain(c.feed), DatasetEligibility := Plain(c.eligibility), SplitManifest := Plain(c.split),
        BenchmarkLock := lock, BenchmarkLockSum := LockSum(Sha(lock)), BenchmarkReport := Report(Prepared, c.report)]
  }

  lemma PreparePuts(c: Command)
    requires c.Prepare?
    ensures var (script, more) := (PrepareScript(c), PreparedFiles(c));
            && WellOrdered(script) && |script| == 7 && script[6] == PutIndex(Prepared)
            && more.Keys == PutNames(script, 6)
            && forall j :: 0 <= j < |script| && script[j].Put? ==> Holds(more, script[j].name, script[j].content)
  {
    PrepareNames(c);
    hide PutNames;
    assert PreparedFiles(c).Keys == BASE - {ArtifactIndex};
  }

  /** Preparing an empty directory. */
  lemma PreparedExactly(c: Command)
    requires c.Prepare?
    ensures var after := Step(EMPTY, c, 7);
            after.evaluations == 0 && Extends(after.files, map[], PreparedFiles(c), Prepared)
  {
    var script := PrepareScript(c);
    PreparePuts(c);
    OthersDoNotEvaluate(EMPTY, c);
    assert Starts(EMPTY, c) && Script(EMPTY, c) == script;
    hide Exec, WellOrdered, PutNames, Starts, PrepareScript, PreparedFiles, Extends;
    FittingLeaves(EMPTY, script, Prepared, PreparedFiles(c));
    NoEvaluation(EMPTY, script, 7);
  }

  /** The files a validation adds or replaces, index aside. */
  function ValidatedFiles(c: Command): Files
    requires c.RunValidation?
  {
    map[ValidationResults := Plain(c.validation), ClassificationBaselines := Plain(c.baselines),
        StrategyBaselines := Plain(c.strategies),
        SelectedModelManifest := Selection(c.model, Sha(Plain(c.validation)), c.selection),
        FinalTestReadiness := Plain(c.readiness), BenchmarkReport := Report(Validated, c.report)]
  }

  lemma ValidationPuts(c: Command)
    requires c.RunValidation?
    ensures var (script, more) := (ValidationScript(c), ValidatedFiles(c));
            && more.Keys == PutNames(script, 6)
            && forall j :: 0 <= j < |script| && script[j].Put? ==> Holds(more, script[j].name, script[j].content)
  {
    ValidationNames(c);
    hide PutNames;
    assert ValidatedFiles(c).Keys == VALIDATION + {BenchmarkReport};
  }

  /** Validating a directory without validation artifacts. */
  lemma ValidatedExactly(w: World, c: Command)
    requires c.RunValidation? && Starts(w, c) && VALIDATION !! w.files.Keys && !Littered(w.files)
    ensures var after := Step(w, c, 7);
            after.evaluations == w.evaluations && Extends(after.files, w.files, ValidatedFiles(c), Validated)
  {
    var script := ValidationScript(c);
    ValidationIsFresh(w, c);
    ValidationPuts(c);
    OthersDoNotEvaluate(w, c);
    assert Script(w, c) == script;
    hide Exec, WellOrdered, PutNames, Fits, Starts, Littered, ValidationScript, ValidatedFiles, Extends;
    FittingLeaves(w, script, Validated, ValidatedFiles(c));
    NoEvaluation(w, script, 7);
  }

  lemma ValidationIsFresh(w: World, c: Command)
    requires c.RunValidation? && VALIDATION !! w.files.Keys
    ensures var script := ValidationScript(c);
            && WellOrdered(script) && Fits(w, script) && script[|script| - 1] == PutIndex(Validated) && |script| == 7
  {
    assert forall n :: n in VALIDATION ==> n !in w.files;
  }

  /** The final lock of a directory. */
  function LockOf(files: Files): Content
    requires BenchmarkLock in files && HasValidation(files)
  {
    FinalLock(Sha(files[BenchmarkLock]), Sha(files[ValidationResults]), Sha(files[ClassificationBaselines]),
              Sha(files[StrategyBaselines]), Sha(files[SelectedModelManifest]), Sha(files[FinalTestReadiness]),
              files[SelectedModelManifest].model, true)
  }

  /** Locking a directory that has no lock yet. */
  lemma LockedExactly(w: World, c: Command)
    requires c.FinalizeLock? && Starts(w, c) && FinalTestLock !in w.files && !Littered(w.files)
    ensures BenchmarkLock in w.files && HasValidation(w.files)
    ensures var after := Step(w, c, 2);
            && after.evaluations == w.evaluations
            && Extends(after.files, w.files, map[FinalTestLock := LockOf(w.files)], Locked)
  {
    var script := LockScript(w.files);
    LockFits(w);
    OthersDoNotEvaluate(w, c);
    assert Script(w, c) == script && script[0] == Put(FinalTestLock, LockOf(w.files), false);
    hide Exec, WellOrdered, PutNames, Fits, Littered, Starts, LockScript, HasValidation, Extends, LockOf;
    FittingLeaves(w, script, Locked, map[FinalTestLock := LockOf(w.files)]);
    NoEvaluation(w, script, 2);
  }

  /** The files a final test under the lock with this checksum adds or replaces, index aside. */
  function TestedFiles(lock: Hash, c: Command): Files
    requires c.RunFinalTest? && c.results.Results?
  {
    var r, access := c.results, Access(lock, c.runtime, c.access);
    map[FinalTestAccess := access, FinalTestResults := r, CostSensitivity := Plain(r.cost),
        RegimeResults := Plain(r.regime), BacktestResults := Plain(r.strategyResults),
        FinalTestCompletion := Completion(lock, Sha(access), Sha(r), Sha(Plain(r.cost)), Sha(Plain(r.regime)),
                                          Sha(Plain(r.strategyResults)), c.runtime, c.completion),
        BenchmarkReport := Report(Tested, c.report)]
  }

  lemma TestPuts(files: Files, c: Command)
    requires c.RunFinalTest? && c.results.Results? && FinalTestLock in files
    ensures var (script, more) := (TestScript(files, c), TestedFiles(Sha(files[FinalTestLock]), c));
            && |script| == 9 && script[8] == PutIndex(Tested) && more.Keys == PutNames(script, 8)
            && forall j :: 0 <= j < |script| && script[j].Put? ==> Holds(more, script[j].name, script[j].content)
  {
    TestNamesAre(files, c);
    hide PutNames;
    assert TestedFiles(Sha(files[FinalTestLock]), c).Keys == COMPLETED + {BenchmarkReport};
  }

  /** The final test on a directory that has none of its records. */
  lemma TestedExactly(w: World, c: Command)
    requires c.RunFinalTest? && Starts(w, c) && COMPLETED !! w.files.Keys && !Littered(w.files)
    ensures FinalTestLock in w.files && c.results.Results?
    ensures var after := Step(w, c, 9);
            && after.evaluations == w.evaluations + 1
            && Extends(after.files, w.files, TestedFiles(Sha(w.files[FinalTestLock]), c), Tested)
  {
    TestCanStart(w, c);
    var script := TestScript(w.files, c);
    TestFits(w, c);
    TestIsWellOrdered(w.files, c);
    TestPuts(w.files, c);
    TestEvaluations(w, c);
    assert Script(w, c) == script;
    hide Exec, WellOrdered, PutNames, Fits, Littered, Starts, TestScript, TestedFiles, Extends;
    FittingLeaves(w, script, Tested, TestedFiles(Sha(w.files[FinalTestLock]), c));
  }

  lemma TestNamesAre(files: Files, c: Command)
    requires c.RunFinalTest? && c.results.Results? && FinalTestLock in files
    ensures PutNames(TestScript(files, c), 8) == COMPLETED + {BenchmarkReport}
  {
    var s := TestScript(files, c);
    assert PutNames(s, 8)
        == {s[0].name, s[2].name, s[3].name, s[4].name, s[5].name, s[6].name, s[7].name};
  }

  lemma {:induction false} EvaluationsCounted(w: World, script: seq<Effect>, n: nat)
    requires n <= |script| && (forall i :: 0 <= i < |script| ==> (script[i].Evaluate? <==> i == 1))
    requires Exec(w, script, n).going
    ensures Exec(w, script, n).world.evaluations == w.evaluations + if n >= 2 then 1 else 0
  {
    if n > 0 {
      EvaluationsCounted(w, script, n - 1);
    }
  }

  lemma TestEvaluations(w: World, c: Command)
    requires c.RunFinalTest? && c.results.Results? && FinalTestLock in w.files
    ensures var script := TestScript(w.files, c);
            Exec(w, script, |script|).going ==> Exec(w, script, |script|).world.evaluations == w.evaluations + 1
  {
    hide Exec;
    var script := TestScript(w.files, c);
    if Exec(w, script, |script|).going {
      EvaluationsCounted(w, script, |script|);
    }
  }

  // ---------------------------------------------------------------- the order of the writes

  /** The names a command writes, in order; None is the evaluation of the final test. */
  function Order(c: Command): seq<Option<Name>> {
    match c
    case Prepare(_, _, _, _, _, _) =>
      [Some(FeedAvailability), Some(DatasetEligibility), Some(SplitManifest), Some(BenchmarkLock),
       Some(BenchmarkLockSum), Some(BenchmarkReport), Some(ArtifactIndex)]
    case RunValidation(_, _, _, _, _, _, _, _, _) =>
      [Some(ValidationResults), Some(ClassificationBaselines), Some(StrategyBaselines), Some(SelectedModelManifest),
       Some(FinalTestReadiness), Some(BenchmarkReport), Some(ArtifactIndex)]
    case FinalizeLock(_, _) => [Some(FinalTestLock), Some(ArtifactIndex)]
    case RunFinalTest(_, _, _, _, _, _) =>
      [Some(FinalTestAccess), None, Some(FinalTestResults), Some(CostSensitivity), Some(RegimeResults),
       Some(BacktestResults), Some(FinalTestCompletion), Some(BenchmarkReport), Some(ArtifactIndex)]
  }

  /** Any other artifact than the first `n` a command writes is what it was, however the command goes. */
  lemma {:induction false} OnlyNamed(w: World, script: seq<Effect>, n: nat, name: Name)
    requires n <= |script| && forall i :: 0 <= i < n ==> NameOf(script[i]) != Some(name)
    ensures name in Exec(w, script, n).world.files <==> name in w.files
    ensures name in w.files ==> Exec(w, script, n).world.files[name] == w.files[name]
  {
    if n > 0 {
      OnlyNamed(w, script, n - 1, name);
    }
  }

  /** A process that lives for `lifetime` effects has touched nothing but the first `lifetime` names of its command. */
  lemma WritesInOrder(w: World, c: Command, lifetime: nat, name: Name)
    requires forall i :: 0 <= i < lifetime && i < |Order(c)| ==> Order(c)[i] != Some(name)
    ensures name in Step(w, c, lifetime).files <==> name in w.files
    ensures name in w.files ==> Step(w, c, lifetime).files[name] == w.files[name]
  {
    if Starts(w, c) {
      OrderIs(w, c);
      hide Exec, Starts, Script, Order;
      OnlyNamed(w, Script(w, c), Min(lifetime, |Script(w, c)|), name);
    }
  }

  lemma OrderIs(w: World, c: Command)
    requires Starts(w, c)
    ensures |Script(w, c)| == |Order(c)|
    ensures forall i :: 0 <= i < |Order(c)| ==> NameOf(Script(w, c)[i]) == Order(c)[i]
  {
    match c {
      case Prepare(_, _, _, _, _, _) => {
        hide Starts;
        assert Script(w, c) == PrepareScript(c);
      }
      case RunValidation(_, _, _, _, _, _, _, _, _) => {
        assert Script(w, c) == ValidationScript(c);
        hide Starts;
      }
      case FinalizeLock(_, _) => {
        assert Script(w, c) == LockScript(w.files);
        hide Starts;
      }
      case RunFinalTest(_, _, _, _, _, _) => {
        assert Script(w, c) == TestScript(w.files, c);
        hide Starts;
      }
    }
  }

  // ---------------------------------------------------------------- when commands start

  /** Validation starts exactly on a directory that verifies, under the runtime of its lock. */
  lemma ValidationStartsExactly(w: World, c: Command)
    requires c.RunValidation?
    ensures Starts(w, c) <==> Verifies(w.files, c.reproduces) && w.files[BenchmarkLock].runtime == c.runtime
  {
    hide IndexMatches, SchemasHold, FinalLockMatches, CompletionMatches, ResultFilesMatch, RuntimesMatch;
  }

  /** On any directory a history leaves, locking starts exactly on the lock and the validation artifacts. */
  lemma LockStartsExactly(attempts: seq<Attempt>, acknowledged: bool, runtime: int)
    ensures var files := Run(attempts).files;
            Starts(Run(attempts), FinalizeLock(acknowledged, runtime))
            <==> && acknowledged && BenchmarkLock in files && VALIDATION <= files.Keys
                 && files[BenchmarkLock].Lock? && files[BenchmarkLock].runtime == runtime
  {
    hide Run, LinkOk, Linked;
    EveryRunIsLinked(attempts);
    var files := Run(attempts).files;
    if BenchmarkLock in files && VALIDATION <= files.Keys {
      LinkAt(files, BenchmarkLock);
      if BenchmarkLockSum in files {
        LinkAt(files, BenchmarkLockSum);
        LocksAreLinked(files);
      }
      LinkAt(files, SelectedModelManifest);
      SelectionIsLinked(files);
    }
  }

  lemma SelectionIsLinked(files: Files)
    requires SelectedModelManifest in files
             && LinkOk(files, SelectedModelManifest, files[SelectedModelManifest])
    ensures files[SelectedModelManifest].Selection?
  {
  }

  /** On any directory a history leaves, the final test starts exactly once it is locked and was never accessed. */
  lemma TestStartsExactly(attempts: seq<Attempt>, c: Command)
    requires c.RunFinalTest?
    ensures var files := Run(attempts).files;
            Starts(Run(attempts), c)
            <==> && c.acknowledged && c.results.Results? && FinalTestLock in files && FinalTestAccess !in files
                 && BenchmarkLock in files && files[BenchmarkLock].Lock? && files[BenchmarkLock].runtime == c.runtime
  {
    hide Run, LinkOk, Linked;
    EveryRunIsLinked(attempts);
    var files := Run(attempts).files;
    if FinalTestLock in files && BenchmarkLock in files {
      LinkAt(files, FinalTestLock);
      LinkAt(files, BenchmarkLock);
      LockIsAcknowledged(files);
    }
    if FinalTestResults in files {
      LinkAt(files, FinalTestResults);
      ResultsAfterAccess(files);
    }
  }

  lemma ResultsAfterAccess(files: Files)
    requires FinalTestResults in files && LinkOk(files, FinalTestResults, files[FinalTestResults])
    ensures FinalTestAccess in files
  {
  }

  // ---------------------------------------------------------------- what verification rules out

  /** The directories hold the same file under this name. */
  predicate Same(a: Files, b: Files, name: Name) {
    name in a && name in b && a[name] == b[name]
  }

  lemma {:induction false} LockPins(a: Files, b: Files, name: Name)
    requires FinalLockMatches(a) && FinalLockMatches(b) && Same(a, b, FinalTestLock)
    requires name in VALIDATION + {BenchmarkLock}
    ensures Same(a, b, name)
  {
  }

  lemma CompletionPins(a: Files, b: Files, name: Name)
    requires CompletionMatches(a) && CompletionMatches(b) && Same(a, b, FinalTestCompletion)
    requires name in COMPLETED + {FinalTestLock}
    ensures Same(a, b, name)
  {
  }

  /**
   The completion record of a tested directory that verifies pins everything locked and tested: any other directory
   that verifies with that record, however it came about, holds the same files.
   */
  lemma CompletionRecordPins(a: Files, b: Files, name: Name)
    requires VerifiesAt(a, Tested) && VerifiesAt(b, Tested) && Same(a, b, FinalTestCompletion)
    requires name in {
      BenchmarkLock, BenchmarkLockSum, ValidationResults, ClassificationBaselines, StrategyBaselines,
      SelectedModelManifest, FinalTestReadiness, FinalTestLock, FinalTestAccess, FinalTestResults, CostSensitivity,
      RegimeResults, BacktestResults, FinalTestCompletion}
    ensures Same(a, b, name)
  {
    hide CompletionMatches, FinalLockMatches, IndexMatches, SchemasHold, ResultFilesMatch, RuntimesMatch;
    CompletionPins(a, b, FinalTestLock);
    if name in COMPLETED {
      CompletionPins(a, b, name);
    } else if name in VALIDATION {
      LockPins(a, b, name);
    } else {
      LockPins(a, b, BenchmarkLock);
    }
  }

  /** So does the lock of a locked directory that verifies for everything it locks. */
  lemma FinalLockPins(a: Files, b: Files, name: Name)
    requires VerifiesAt(a, Locked) && VerifiesAt(b, Locked) && Same(a, b, FinalTestLock)
    requires name in {
      BenchmarkLock, BenchmarkLockSum, ValidationResults, ClassificationBaselines, StrategyBaselines,
      SelectedModelManifest, FinalTestReadiness, FinalTestLock}
    ensures Same(a, b, name)
  {
    hide FinalLockMatches, IndexMatches, SchemasHold;
    if name in VALIDATION {
      LockPins(a, b, name);
    } else {
      LockPins(a, b, BenchmarkLock);
    }
  }

  /** In a tested directory that verifies, records name the lock's runtime and results repeat their parts. */
  lemma TestedMeans(files: Files)
    requires VerifiesAt(files, Tested)
    ensures files.Keys == {
              FeedAvailability, DatasetEligibility, SplitManifest, BenchmarkLock, BenchmarkLockSum, BenchmarkReport,
              ArtifactIndex, ValidationResults, ClassificationBaselines, StrategyBaselines, SelectedModelManifest,
              FinalTestReadiness, FinalTestLock, FinalTestAccess, FinalTestResults, CostSensitivity, RegimeResults,
              BacktestResults, FinalTestCompletion}
    ensures files[BenchmarkLock].Lock? && files[FinalTestAccess].Access? && files[FinalTestCompletion].Completion?
    ensures files[FinalTestAccess].runtime == files[FinalTestCompletion].runtime == files[BenchmarkLock].runtime
    ensures files[SelectedModelManifest].Selection? && files[FinalTestLock].FinalLock?
    ensures files[FinalTestLock].model == files[SelectedModelManifest].model
    ensures files[FinalTestResults].Results?
    ensures forall n <- {FeedAvailability, DatasetEligibility, SplitManifest, ValidationResults,
                         ClassificationBaselines, StrategyBaselines, FinalTestReadiness} :: files[n].Plain?
    ensures files[CostSensitivity] == Plain(files[FinalTestResults].cost)
    ensures files[RegimeResults] == Plain(files[FinalTestResults].regime)
    ensures files[BacktestResults] == Plain(files[FinalTestResults].strategyResults)
  {
    VerifiedSchemas(files, FeedAvailability);
    VerifiedSchemas(files, DatasetEligibility);
    VerifiedSchemas(files, SplitManifest);
    VerifiedSchemas(files, ValidationResults);
    VerifiedSchemas(files, ClassificationBaselines);
    VerifiedSchemas(files, StrategyBaselines);
    VerifiedSchemas(files, FinalTestReadiness);
    hide IndexMatches, SchemasHold, CompletionMatches;
  }

  lemma VerifiedSchemas(files: Files, name: Name)
    requires Verifies(files, true) && name in files
    ensures SchemaOk(name, files[name])
  {
    hide IndexMatches, SchemaOk, FinalLockMatches, CompletionMatches, ResultFilesMatch, RuntimesMatch, StageArtifacts;
  }

  /** The artifacts of a directory that verifies at an earlier stage, and its lock's checksum file. */
  lemma EarlierStagesMean(files: Files)
    requires Verifies(files, true)
    ensures files[BenchmarkLock].Lock? && Holds(files, BenchmarkLockSum, LockSum(Sha(files[BenchmarkLock])))
    ensures files[ArtifactIndex].stage == Prepared ==>
              files.Keys == {FeedAvailability, DatasetEligibility, SplitManifest, BenchmarkLock, BenchmarkLockSum,
                             BenchmarkReport, ArtifactIndex}
    ensures files[ArtifactIndex].stage == Validated ==>
              files.Keys == {FeedAvailability, DatasetEligibility, SplitManifest, BenchmarkLock, BenchmarkLockSum,
                             BenchmarkReport, ArtifactIndex, ValidationResults, ClassificationBaselines,
                             StrategyBaselines, SelectedModelManifest, FinalTestReadiness}
    ensures files[ArtifactIndex].stage == Locked ==>
              files.Keys == {FeedAvailability, DatasetEligibility, SplitManifest, BenchmarkLock, BenchmarkLockSum,
                             BenchmarkReport, ArtifactIndex, ValidationResults, ClassificationBaselines,
                             StrategyBaselines, SelectedModelManifest, FinalTestReadiness, FinalTestLock}
  {
    hide IndexMatches, SchemasHold, FinalLockMatches;
  }

  /** Changing, removing or adding a file of a directory that verifies is noticed, if its index lists the file. */
  lemma TamperingIsNoticed(before: Files, after: Files, name: Name, reproduces: bool)
    requires Verifies(before, true) && Same(before, after, ArtifactIndex) && !Same(before, after, name)
    requires name in before[ArtifactIndex].artifacts || name !in before
    requires name in before || name in after
    ensures !Verifies(after, reproduces)
  {
    hide SchemasHold, FinalLockMatches, CompletionMatches, ResultFilesMatch, RuntimesMatch, StageArtifacts;
  }
}
