/** What every run of the staged workflow keeps, however its processes die. */
module ArtifactSafety {
  import opened Naturals
  import opened ArtifactWorkflow

  /** Content that every reader of this artifact can rely on: its links name current content. */
  ghost predicate LinkOk(files: Files, name: Name, c: Content) {
    && SchemaOk(name, c)
    && match name
    case BenchmarkLock =>
      && SplitManifest in files && c.split == Sha(files[SplitManifest])
      && DatasetEligibility in files && c.eligibility == Sha(files[DatasetEligibility])
    case BenchmarkLockSum =>
      BenchmarkLock in files && c == LockSum(Sha(files[BenchmarkLock]))
    case BenchmarkReport =>
      c.Report? && (c.of != Prepared ==> VALIDATION <= files.Keys)
    case SelectedModelManifest =>
      ValidationResults in files && c.validation == Sha(files[ValidationResults])
    case FinalTestLock =>
      && c.acknowledged
      && BenchmarkLock in files && VALIDATION <= files.Keys && files[SelectedModelManifest].Selection?
      && c.lock == Sha(files[BenchmarkLock])
      && c.validation == Sha(files[ValidationResults])
      && c.baselines == Sha(files[ClassificationBaselines])
      && c.strategies == Sha(files[StrategyBaselines])
      && c.selection == Sha(files[SelectedModelManifest])
      && c.readiness == Sha(files[FinalTestReadiness])
      && c.model == files[SelectedModelManifest].model
    case FinalTestAccess =>
      && FinalTestLock in files && c.finalLock == Sha(files[FinalTestLock])
      && BenchmarkLock in files && files[BenchmarkLock].Lock? && c.runtime == files[BenchmarkLock].runtime
    case FinalTestResults =>
      FinalTestAccess in files
    case CostSensitivity =>
      FinalTestResults in files && files[FinalTestResults].Results? && c == Plain(files[FinalTestResults].cost)
    case RegimeResults =>
      FinalTestResults in files && files[FinalTestResults].Results? && c == Plain(files[FinalTestResults].regime)
    case BacktestResults =>
      && FinalTestResults in files && files[FinalTestResults].Results?
      && c == Plain(files[FinalTestResults].strategyResults)
    case FinalTestCompletion =>
      && FinalTestLock in files && COMPLETED - {FinalTestCompletion} <= files.Keys
      && c.finalLock == Sha(files[FinalTestLock])
      && c.access == Sha(files[FinalTestAccess])
      && c.results == Sha(files[FinalTestResults])
      && c.costs == Sha(files[CostSensitivity])
      && c.regimes == Sha(files[RegimeResults])
      && c.backtest == Sha(files[BacktestResults])
      && BenchmarkLock in files && files[BenchmarkLock].Lock? && c.runtime == files[BenchmarkLock].runtime
    case _ => true
  }

  ghost predicate Linked(files: Files) {
    forall n :: n in files ==> LinkOk(files, n, files[n])
  }

  /** Links name current content, and an evaluation of the final test leaves its access record behind. */
  ghost predicate Inv(w: World) {
    && Linked(w.files)
    && w.evaluations <= 1
    && (w.evaluations == 1 ==> FinalTestAccess in w.files)
  }

  /** Only the report is ever replaced, and only the index command writes the index. */
  predicate Disciplined(e: Effect) {
    e.Put? ==> e.name != ArtifactIndex && (e.replace ==> e.name == BenchmarkReport)
  }

  lemma ScriptsAreDisciplined(w: World, c: Command)
    requires Starts(w, c)
    ensures forall e :: e in Script(w, c) ==> Disciplined(e)
  {
    hide Starts;
    match c
    case Prepare(_, _, _, _, _, _) => assert forall e :: e in PrepareScript(c) ==> Disciplined(e);
    case RunValidation(_, _, _, _, _, _, _, _, _) => assert forall e :: e in ValidationScript(c) ==> Disciplined(e);
    case FinalizeLock(_, _) => assert forall e :: e in Script(w, c) ==> Disciplined(e);
    case RunFinalTest(_, _, _, _, _, _) => assert forall e :: e in Script(w, c) ==> Disciplined(e);
  }

  /** Protected artifacts present in `a` are the same in `b`. */
  ghost predicate Keeps(a: Files, b: Files) {
    forall n :: n in a && Protected(n) ==> n in b && b[n] == a[n]
  }

  lemma {:induction false} ExecKeeps(w: World, script: seq<Effect>, n: nat)
    requires n <= |script| && forall e :: e in script ==> Disciplined(e)
    ensures Keeps(w.files, Exec(w, script, n).world.files)
  {
    if n > 0 {
      ExecKeeps(w, script, n - 1);
      assert script[n - 1] in script;
    }
  }

  lemma StepKeeps(w: World, c: Command, lifetime: nat)
    ensures Keeps(w.files, Step(w, c, lifetime).files)
  {
    hide Starts, Script, Keeps, Exec;
    if Starts(w, c) {
      ScriptsAreDisciplined(w, c);
      ExecKeeps(w, Script(w, c), Min(lifetime, |Script(w, c)|));
    } else {
      KeepsItself(w.files);
    }
  }

  /** An attempt does what its command does, and may leave a temporary file besides. */
  lemma AttemptIs(w: World, a: Attempt)
    ensures var after := Step(w, a.command, a.lifetime);
            Attempted(w, a) == after || (a.torn.Some? && Attempted(w, a) == Litter(after, a.torn.value))
    ensures a.torn.None? ==> Attempted(w, a) == Step(w, a.command, a.lifetime)
  {
    hide Step;
  }

  lemma AttemptKeeps(w: World, a: Attempt)
    ensures Keeps(w.files, Attempted(w, a).files)
  {
    hide Step, Tears;
    StepKeeps(w, a.command, a.lifetime);
  }

  lemma KeepsItself(files: Files)
    ensures Keeps(files, files)
  {
  }

  /** Every artifact but the report and the index, once present, never changes again, whatever runs or dies. */
  lemma {:induction false} ArtifactsAreImmutable(before: seq<Attempt>, after: seq<Attempt>)
    ensures Keeps(Run(before).files, Run(before + after).files)
  {
    if after == [] {
      assert before + after == before;
      KeepsItself(Run(before).files);
    } else {
      var front, last := after[..|after| - 1], after[|after| - 1];
      ArtifactsAreImmutable(before, front);
      assert (before + after)[..|before + after| - 1] == before + front;
      AttemptKeeps(Run(before + front), last);
    }
  }

  // ---------------------------------------------------------------- links

  /** What has been written so far is still there. */
  lemma {:induction false} WrittenHolds(w: World, script: seq<Effect>, n: nat, j: nat)
    requires j < n <= |script| && forall e :: e in script ==> Disciplined(e)
    requires Exec(w, script, n).going && script[j].Put? && Protected(script[j].name)
    ensures Holds(Exec(w, script, n).world.files, script[j].name, script[j].content)
  {
    assert script[n - 1] in script;
    if j < n - 1 {
      WrittenHolds(w, script, n - 1, j);
    }
  }

  lemma LinkStays(a: Files, b: Files, n: Name, c: Content)
    requires Keeps(a, b) && LinkOk(a, n, c)
    ensures LinkOk(b, n, c)
  {
  }

  lemma LinkedStays(a: Files, b: Files, name: Name)
    requires Linked(a) && Keeps(a, b) && name in b && LinkOk(a, name, b[name])
    requires forall n :: n in b && n != name ==> n in a && a[n] == b[n]
    ensures Linked(b)
  {
    hide LinkOk, Keeps;
    forall n | n in b ensures LinkOk(b, n, b[n]) {
      LinkStays(a, b, n, b[n]);
    }
  }

  /** One effect whose content is linked keeps everything linked. */
  lemma PerformKeepsLinked(w: World, e: Effect)
    requires Linked(w.files) && Disciplined(e)
    requires e.Put? ==> LinkOk(w.files, e.name, e.content)
    ensures Linked(Perform(w, e).world.files)
  {
    hide LinkOk, Linked, IndexOf;
    var after := Perform(w, e).world.files;
    match e
    case Put(name, content, replace) =>
      if after != w.files {
        LinkedStays(w.files, after, name);
      }
    case PutIndex(stage) =>
      if after != w.files {
        IndexIsFree(w.files, w.files, stage);
        LinkedStays(w.files, after, ArtifactIndex);
      }
    case Evaluate =>
  }

  lemma IndexIsFree(files: Files, from: Files, stage: Stage)
    ensures LinkOk(files, ArtifactIndex, IndexOf(from, stage))
  {
  }

  /** The first `n` writes of a script, provided each is linked by what precedes it. */
  ghost predicate LinksInOrder(w: World, script: seq<Effect>) {
    forall k :: 0 <= k < |script| && script[k].Put? && Exec(w, script, k).going ==>
      LinkOk(Exec(w, script, k).world.files, script[k].name, script[k].content)
  }

  lemma {:induction false} ExecKeepsLinked(w: World, script: seq<Effect>, n: nat)
    requires Linked(w.files) && n <= |script| && LinksInOrder(w, script)
    requires forall e :: e in script ==> Disciplined(e)
    ensures Linked(Exec(w, script, n).world.files)
  {
    hide Linked, LinkOk, Perform;
    if n > 0 {
      ExecKeepsLinked(w, script, n - 1);
      assert script[n - 1] in script;
      if Exec(w, script, n - 1).going {
        PerformKeepsLinked(Exec(w, script, n - 1).world, script[n - 1]);
      }
    }
  }

  lemma PrepareLinks(w: World, c: Command)
    requires c.Prepare?
    ensures LinksInOrder(w, PrepareScript(c))
  {
    hide Exec;
    var script := PrepareScript(c);
    ScriptsAreDisciplined(w, c);
    forall k | 0 <= k < |script| && script[k].Put? && Exec(w, script, k).going
      ensures LinkOk(Exec(w, script, k).world.files, script[k].name, script[k].content)
    {
      if k == 3 {
        WrittenHolds(w, script, k, 1);
        WrittenHolds(w, script, k, 2);
      }
      if k == 4 {
        WrittenHolds(w, script, k, 3);
      }
    }
  }

  lemma ValidationLinks(w: World, c: Command)
    requires c.RunValidation? && Starts(w, c)
    ensures LinksInOrder(w, ValidationScript(c))
  {
    hide Exec, Starts;
    var script := ValidationScript(c);
    ScriptsAreDisciplined(w, c);
    forall k | 0 <= k < |script| && script[k].Put? && Exec(w, script, k).going
      ensures LinkOk(Exec(w, script, k).world.files, script[k].name, script[k].content)
    {
      if k == 3 {
        WrittenHolds(w, script, k, 0);
      }
      if k == 5 {
        WrittenHolds(w, script, k, 0);
        WrittenHolds(w, script, k, 1);
        WrittenHolds(w, script, k, 2);
        WrittenHolds(w, script, k, 3);
        WrittenHolds(w, script, k, 4);
      }
    }
  }

  lemma LockLinks(w: World, c: Command)
    requires c.FinalizeLock? && Starts(w, c)
    ensures LinksInOrder(w, LockScript(w.files))
  {
    var script := LockScript(w.files);
    assert Exec(w, script, 0).world == w;
  }

  lemma AccessLinks(files: Files, runtime: int, data: int)
    requires FinalTestLock in files && BenchmarkLock in files
    requires files[BenchmarkLock].Lock? && files[BenchmarkLock].runtime == runtime
    ensures LinkOk(files, FinalTestAccess, Access(Sha(files[FinalTestLock]), runtime, data))
  {
  }

  lemma ResultsLink(files: Files, results: Content)
    requires results.Results?
    ensures FinalTestAccess in files ==> LinkOk(files, FinalTestResults, results)
    ensures Holds(files, FinalTestResults, results) ==>
              && LinkOk(files, CostSensitivity, Plain(results.cost))
              && LinkOk(files, RegimeResults, Plain(results.regime))
              && LinkOk(files, BacktestResults, Plain(results.strategyResults))
  {
  }

  lemma CompletionLinks(files: Files, access: Content, results: Content, runtime: int, data: int)
    requires results.Results? && FinalTestLock in files && BenchmarkLock in files
    requires files[BenchmarkLock].Lock? && files[BenchmarkLock].runtime == runtime
    requires Holds(files, FinalTestAccess, access) && Holds(files, FinalTestResults, results)
    requires Holds(files, CostSensitivity, Plain(results.cost)) && Holds(files, RegimeResults, Plain(results.regime))
    requires Holds(files, BacktestResults, Plain(results.strategyResults))
    ensures LinkOk(files, FinalTestCompletion,
                   Completion(Sha(files[FinalTestLock]), Sha(access), Sha(results), Sha(Plain(results.cost)),
                              Sha(Plain(results.regime)), Sha(Plain(results.strategyResults)), runtime, data))
  {
  }

  lemma TestLinks(w: World, c: Command)
    requires c.RunFinalTest? && Starts(w, c) && Linked(w.files)
    ensures LinksInOrder(w, TestScript(w.files, c))
  {
    hide Exec, LinkOk, Starts, Linked;
    TestCanStart(w, c);
    var script := TestScript(w.files, c);
    forall k | 0 <= k < |script| && script[k].Put? && Exec(w, script, k).going
      ensures LinkOk(Exec(w, script, k).world.files, script[k].name, script[k].content)
    {
      if k == 0 || k == 7 {
        AccessOrReportLinks(w, c, k);
      } else {
        ResultLinks(w, c, k);
      }
    }
  }

  lemma AccessOrReportLinks(w: World, c: Command, k: nat)
    requires c.RunFinalTest? && Starts(w, c) && Linked(w.files)
    requires FinalTestLock in w.files && c.results.Results? && (k == 0 || k == 7)
    ensures var script := TestScript(w.files, c);
            k < |script| && script[k].Put? && LinkOk(Exec(w, script, k).world.files, script[k].name, script[k].content)
  {
    hide Exec, Perform, LinkOk, Starts, Linked;
    TestCanStart(w, c);
    var script := TestScript(w.files, c);
    ScriptsAreDisciplined(w, c);
    var files := Exec(w, script, k).world.files;
    ExecKeeps(w, script, k);
    AccessLinks(files, c.runtime, c.access);
    LinkAt(w.files, FinalTestLock);
    LinkStays(w.files, files, FinalTestLock, w.files[FinalTestLock]);
    ReportLinks(files, c.report);
  }

  lemma ResultLinks(w: World, c: Command, k: nat)
    requires c.RunFinalTest? && Starts(w, c)
    requires FinalTestLock in w.files && c.results.Results? && 2 <= k <= 6
    requires Exec(w, TestScript(w.files, c), k).going
    ensures var script := TestScript(w.files, c);
            && script[k].Put? && LinkOk(Exec(w, script, k).world.files, script[k].name, script[k].content)
  {
    hide Exec, Perform, LinkOk, Starts;
    TestCanStart(w, c);
    var script := TestScript(w.files, c);
    ScriptsAreDisciplined(w, c);
    var files := Exec(w, script, k).world.files;
    ExecKeeps(w, script, k);
    WrittenHolds(w, script, k, 0);
    if k >= 3 {
      WrittenHolds(w, script, k, 2);
    }
    ResultsLink(files, c.results);
    if k == 6 {
      WrittenHolds(w, script, k, 3);
      WrittenHolds(w, script, k, 4);
      WrittenHolds(w, script, k, 5);
      CompletionLinks(files, script[0].content, c.results, c.runtime, c.completion);
    }
  }

  lemma TestCanStart(w: World, c: Command)
    requires c.RunFinalTest? && Starts(w, c)
    ensures FinalTestLock in w.files && c.results.Results?
    ensures BenchmarkLock in w.files && w.files[BenchmarkLock].Lock? && w.files[BenchmarkLock].runtime == c.runtime
  {
  }

  lemma ReportLinks(files: Files, report: int)
    requires FinalTestLock in files && LinkOk(files, FinalTestLock, files[FinalTestLock])
    ensures LinkOk(files, BenchmarkReport, Report(Tested, report))
  {
  }

  lemma StepKeepsLinked(w: World, c: Command, lifetime: nat)
    requires Linked(w.files)
    ensures Linked(Step(w, c, lifetime).files)
  {
    hide Linked, LinksInOrder, Exec, Starts, PrepareScript, ValidationScript, LockScript, TestScript;
    if Starts(w, c) {
      match c {
        case Prepare(_, _, _, _, _, _) => PrepareLinks(w, c);
        case RunValidation(_, _, _, _, _, _, _, _, _) => ValidationLinks(w, c);
        case FinalizeLock(_, _) => LockLinks(w, c);
        case RunFinalTest(_, _, _, _, _, _) => TestLinks(w, c);
      }
      ScriptsAreDisciplined(w, c);
      ExecKeepsLinked(w, Script(w, c), Min(lifetime, |Script(w, c)|));
    }
  }

  // ---------------------------------------------------------------- the final test is evaluated once

  lemma {:induction false} NoEvaluation(w: World, script: seq<Effect>, n: nat)
    requires n <= |script| && forall e :: e in script ==> !e.Evaluate?
    ensures Exec(w, script, n).world.evaluations == w.evaluations
  {
    if n > 0 {
      assert script[n - 1] in script;
      NoEvaluation(w, script, n - 1);
    }
  }

  lemma {:induction false} OneEvaluation(w: World, script: seq<Effect>, n: nat)
    requires 1 <= n <= |script| && script[0].Put? && script[0].name == FinalTestAccess
    requires forall i :: 0 <= i < |script| ==> (script[i].Evaluate? <==> i == 1)
    requires forall e :: e in script ==> Disciplined(e)
    ensures Exec(w, script, n).world.evaluations <= w.evaluations + 1
    ensures Exec(w, script, n).world.evaluations > w.evaluations ==> FinalTestAccess in Exec(w, script, n).world.files
    ensures n == 1 ==> Exec(w, script, n).world.evaluations == w.evaluations
    ensures n > 1 && Exec(w, script, n).going ==> FinalTestAccess in Exec(w, script, n).world.files
  {
    assert script[n - 1] in script;
    if n == 1 {
      assert Exec(w, script, 0) == Progress(w, true);
    } else {
      OneEvaluation(w, script, n - 1);
      if n == 2 && Exec(w, script, 1).going {
        WrittenHolds(w, script, 1, 0);
      }
    }
  }

  lemma StepKeepsInv(w: World, c: Command, lifetime: nat)
    requires Inv(w)
    ensures Inv(Step(w, c, lifetime))
  {
    hide Linked, Exec, PrepareScript, ValidationScript, LockScript, Keeps, Disciplined;
    StepKeepsLinked(w, c, lifetime);
    StepKeeps(w, c, lifetime);
    AccessStays(w, Step(w, c, lifetime));
    if Starts(w, c) {
      ScriptsAreDisciplined(w, c);
      var script, n := Script(w, c), Min(lifetime, |Script(w, c)|);
      if c.RunFinalTest? {
        TestEvaluatesOnce(w, c, n);
      } else {
        OthersDoNotEvaluate(w, c);
        NoEvaluation(w, script, n);
      }
    }
  }

  lemma LitterKeepsInv(w: World, t: Leftover)
    requires Inv(w)
    ensures Inv(Litter(w, t))
  {
    hide LinkOk, Linked;
    var after := Litter(w, t).files;
    TemporaryIsFree(w.files, t);
    LinkedStays(w.files, after, Temporary(t.id));
  }

  lemma TemporaryIsFree(files: Files, t: Leftover)
    ensures LinkOk(files, Temporary(t.id), Plain(t.data))
  {
  }

  lemma AttemptKeepsInv(w: World, a: Attempt)
    requires Inv(w)
    ensures Inv(Attempted(w, a))
  {
    hide Inv, Step, Attempted, Litter;
    AttemptIs(w, a);
    StepKeepsInv(w, a.command, a.lifetime);
    if a.torn.Some? {
      LitterKeepsInv(Step(w, a.command, a.lifetime), a.torn.value);
    }
  }

  lemma AccessStays(a: World, b: World)
    requires Keeps(a.files, b.files)
    ensures FinalTestAccess in a.files ==> FinalTestAccess in b.files
  {
  }

  lemma OthersDoNotEvaluate(w: World, c: Command)
    requires Starts(w, c) && !c.RunFinalTest?
    ensures forall e :: e in Script(w, c) ==> !e.Evaluate?
  {
    hide Starts;
    match c
    case Prepare(_, _, _, _, _, _) => assert forall e :: e in PrepareScript(c) ==> !e.Evaluate?;
    case RunValidation(_, _, _, _, _, _, _, _, _) => assert forall e :: e in ValidationScript(c) ==> !e.Evaluate?;
    case FinalizeLock(_, _) => assert forall e :: e in Script(w, c) ==> !e.Evaluate?;
  }

  lemma TestEvaluatesOnce(w: World, c: Command, n: nat)
    requires c.RunFinalTest? && Starts(w, c) && n <= |Script(w, c)|
    ensures var after := Exec(w, Script(w, c), n).world;
            && after.evaluations <= w.evaluations + 1
            && (after.evaluations > w.evaluations ==> FinalTestAccess in after.files)
  {
    hide Exec, Disciplined;
    ScriptsAreDisciplined(w, c);
    var script := Script(w, c);
    assert script == TestScript(w.files, c);
    if n == 0 {
      ExecNothing(w, script);
    } else {
      OneEvaluation(w, script, n);
    }
  }

  lemma ExecNothing(w: World, script: seq<Effect>)
    ensures Exec(w, script, 0) == Progress(w, true)
  {
  }

  /** Every reachable directory: links name current content, and the final test was evaluated at most once. */
  lemma {:induction false} EveryRunIsLinked(attempts: seq<Attempt>)
    ensures Inv(Run(attempts))
  {
    hide Inv, Attempted;
    if attempts == [] {
      StartIsLinked();
    } else {
      var last := attempts[|attempts| - 1];
      EveryRunIsLinked(attempts[..|attempts| - 1]);
      AttemptKeepsInv(Run(attempts[..|attempts| - 1]), last);
    }
  }

  lemma StartIsLinked()
    ensures Inv(EMPTY)
  {
  }

  lemma LinkAt(files: Files, n: Name)
    requires Linked(files) && n in files
    ensures LinkOk(files, n, files[n])
  {
  }

  lemma FinalLockIsLinked(files: Files)
    requires FinalTestLock in files && LinkOk(files, FinalTestLock, files[FinalTestLock])
    ensures FinalLockMatches(files)
  {
  }

  lemma AccessIsLinked(files: Files)
    requires FinalTestAccess in files && LinkOk(files, FinalTestAccess, files[FinalTestAccess])
    ensures AccessMatches(files)
  {
  }

  lemma CompletionIsLinked(files: Files)
    requires FinalTestCompletion in files && LinkOk(files, FinalTestCompletion, files[FinalTestCompletion])
    ensures CompletionMatches(files) && FinalTestAccess in files && FinalTestLock in files
  {
  }

  /** An audit replay's checksum comparisons never fail on a directory that any run completed. */
  lemma AuditLineageHolds(attempts: seq<Attempt>)
    ensures FinalTestCompletion in Run(attempts).files ==> AuditLineage(Run(attempts).files)
  {
    hide Run, LinkOk, Linked, FinalLockMatches, AccessMatches, CompletionMatches;
    EveryRunIsLinked(attempts);
    var files := Run(attempts).files;
    if FinalTestCompletion in files {
      LinkAt(files, FinalTestCompletion);
      CompletionIsLinked(files);
      LinkAt(files, FinalTestAccess);
      AccessIsLinked(files);
      LinkAt(files, FinalTestLock);
      FinalLockIsLinked(files);
    }
  }

  /**
   So on every directory any history leaves, an audit replay passes exactly when the test was completed, the runtime
   is the lock's, and the stored results are the ones computed anew: no checksum and no record ever stands in its way.
   */
  lemma AuditPassesExactly(attempts: seq<Attempt>, recomputed: Content, runtime: int)
    ensures var files := Run(attempts).files;
            AuditPasses(files, recomputed, runtime)
            <==> && FinalTestCompletion in files && FinalTestResults in files
                 && BenchmarkLock in files && files[BenchmarkLock].Lock? && runtime == files[BenchmarkLock].runtime
                 && recomputed == files[FinalTestResults]
  {
    hide Run, LinkOk, Linked, FinalLockMatches;
    var files := Run(attempts).files;
    AuditLineageHolds(attempts);
    EveryRunIsLinked(attempts);
    if FinalTestCompletion in files {
      assert AuditLineage(files);
      LinkAt(files, FinalTestLock);
      FinalLockIsWhole(files);
      LinkAt(files, FinalTestAccess);
      LinkAt(files, FinalTestCompletion);
      RecordsNameRuntime(files);
    }
  }

  lemma RecordsNameRuntime(files: Files)
    requires FinalTestAccess in files && LinkOk(files, FinalTestAccess, files[FinalTestAccess])
    requires FinalTestCompletion in files && LinkOk(files, FinalTestCompletion, files[FinalTestCompletion])
    ensures RuntimesMatch(files)
  {
  }

  lemma FinalLockIsWhole(files: Files)
    requires FinalTestLock in files && LinkOk(files, FinalTestLock, files[FinalTestLock])
    ensures files[FinalTestLock].FinalLock? && files[FinalTestLock].acknowledged && BenchmarkLock in files
  {
  }

  /** An audit replay that passes goes on passing under its runtime, whatever commands are run on the directory. */
  lemma AuditKeepsPassing(attempts: seq<Attempt>, more: seq<Attempt>, recomputed: Content, runtime: int)
    requires AuditPasses(Run(attempts).files, recomputed, runtime)
    ensures AuditPasses(Run(attempts + more).files, recomputed, runtime)
  {
    hide Run, AuditPasses, AuditLineage;
    AuditPassesExactly(attempts, recomputed, runtime);
    AuditPassesExactly(attempts + more, recomputed, runtime);
    ArtifactsAreImmutable(attempts, more);
  }
}
