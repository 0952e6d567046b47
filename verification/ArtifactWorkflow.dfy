/**
 The staged benchmark workflow over one artifact directory. Artifacts are written once: writing the same content
 again does nothing, writing other content is a conflict, except for the report and the index, which are replaced.
 A command is an ordered list of effects, and a process may die between any two of them or inside a write, which
 then leaves its temporary file behind.
 */
module ArtifactWorkflow {
  import opened Naturals
  import opened Wrappers

  datatype Name =
    | FeedAvailability
    | DatasetEligibility
    | SplitManifest
    | BenchmarkLock
    | BenchmarkLockSum
    | BenchmarkReport
    | ArtifactIndex
    | ValidationResults
    | ClassificationBaselines
    | StrategyBaselines
    | SelectedModelManifest
    | FinalTestReadiness
    | FinalTestLock
    | FinalTestAccess
    | FinalTestResults
    | CostSensitivity
    | RegimeResults
    | BacktestResults
    | FinalTestCompletion
    | Temporary(id: nat)

  datatype Stage = Prepared | Validated | Locked | Tested

  /** A checksum that no two contents share. */
  datatype Hash = Sha(content: Content)

  datatype Content =
    | Plain(data: int)
    | Report(of: Stage, data: int)
    | Lock(split: Hash, eligibility: Hash, runtime: int, data: int)
    | LockSum(lock: Hash)
    | Selection(model: int, validation: Hash, data: int)
    | FinalLock(lock: Hash, validation: Hash, baselines: Hash, strategies: Hash, selection: Hash, readiness: Hash,
                model: int, acknowledged: bool)
    | Access(finalLock: Hash, runtime: int, data: int)
    | Results(cost: int, regime: int, strategyResults: int, data: int)
    | Completion(finalLock: Hash, access: Hash, results: Hash, costs: Hash, regimes: Hash, backtest: Hash,
                 runtime: int, data: int)
    | Index(artifacts: map<Name, Hash>, stage: Stage)

  type Files = map<Name, Content>

  /** The directory, and how often the final test was evaluated outside an audit. */
  datatype World = World(files: Files, evaluations: nat)

  datatype Effect =
    | Put(name: Name, content: Content, replace: bool)
    | PutIndex(stage: Stage)
    | Evaluate

  const EMPTY := World(map[], 0)

  const BASE: set<Name> := {
    FeedAvailability, DatasetEligibility, SplitManifest, BenchmarkLock, BenchmarkLockSum, BenchmarkReport,
    ArtifactIndex}

  const VALIDATION: set<Name> := {
    ValidationResults, ClassificationBaselines, StrategyBaselines, SelectedModelManifest, FinalTestReadiness}

  const COMPLETED: set<Name> := {
    FinalTestAccess, FinalTestCompletion, FinalTestResults, CostSensitivity, RegimeResults, BacktestResults}

  function StageArtifacts(stage: Stage): set<Name> {
    match stage
    case Prepared => BASE
    case Validated => BASE + VALIDATION
    case Locked => BASE + VALIDATION + {FinalTestLock}
    case Tested => BASE + VALIDATION + {FinalTestLock} + COMPLETED
  }

  /** Every artifact but the report and the index. */
  predicate Protected(name: Name) {
    name != BenchmarkReport && name != ArtifactIndex && !name.Temporary?
  }

  /** Some write left its temporary file. */
  predicate Littered(files: Files) {
    exists n <- files.Keys :: n.Temporary?
  }

  function IndexOf(files: Files, stage: Stage): Content {
    Index(map n | n in files && n != ArtifactIndex :: Sha(files[n]), stage)
  }

  /** One write; none when existing content conflicts. */
  function Written(files: Files, name: Name, content: Content, replace: bool): Option<Files> {
    if name in files && files[name] == content then
      Some(files)
    else if name in files && !replace then
      None
    else
      Some(files[name := content])
  }

  /**
   Whether an effect replaces a file: equal content is left alone, and a conflict or an index that fails writes nothing.
   */
  predicate Writes(files: Files, e: Effect) {
    match e
    case Put(name, content, replace) => name in files ==> files[name] != content && replace
    case PutIndex(stage) => !Littered(files) && !Holds(files, ArtifactIndex, IndexOf(files, stage))
    case Evaluate => false
  }

  datatype Progress = Progress(world: World, going: bool)

  /** The index names the checksum of every file, and a temporary file has no artifact's name, so it stops the index. */
  function Perform(w: World, e: Effect): Progress {
    match e
    case Put(name, content, replace) =>
      var written := Written(w.files, name, content, replace);
      if written.None? then Progress(w, false) else Progress(w.(files := written.value), true)
    case PutIndex(stage) =>
      if Littered(w.files) then Progress(w, false)
      else Progress(w.(files := w.files[ArtifactIndex := IndexOf(w.files, stage)]), true)
    case Evaluate =>
      Progress(w.(evaluations := w.evaluations + 1), true)
  }

  /** The first `n` effects of a script, up to the first conflict. */
  function Exec(w: World, script: seq<Effect>, n: nat): Progress
    requires n <= |script|
  {
    if n == 0 then
      Progress(w, true)
    else
      var before := Exec(w, script, n - 1);
      if before.going then Perform(before.world, script[n - 1]) else before
  }

  // ---------------------------------------------------------------- commands

  /** `runtime` is the commit, interpreter and dependency versions the command runs under. */
  datatype Command =
    | Prepare(feed: int, eligibility: int, split: int, runtime: int, lockData: int, report: int)
    | RunValidation(validation: int, baselines: int, strategies: int, model: int, selection: int, readiness: int,
                    report: int, runtime: int, reproduces: bool)
    | FinalizeLock(acknowledged: bool, runtime: int)
    | RunFinalTest(acknowledged: bool, runtime: int, access: int, results: Content, completion: int, report: int)

  predicate Holds(files: Files, name: Name, content: Content) {
    name in files && files[name] == content
  }

  /** The lock is present, well-formed, and agrees with its checksum file if there is one. */
  predicate LockLoads(files: Files) {
    && BenchmarkLock in files && files[BenchmarkLock].Lock?
    && (BenchmarkLockSum in files ==> files[BenchmarkLockSum] == LockSum(Sha(files[BenchmarkLock])))
  }

  predicate HasValidation(files: Files) {
    VALIDATION <= files.Keys && files[SelectedModelManifest].Selection?
  }

  /** The final lock names the current contents of everything it locks. */
  predicate FinalLockMatches(files: Files) {
    && FinalTestLock in files && files[FinalTestLock].FinalLock?
    && BenchmarkLock in files && HasValidation(files)
    && var l := files[FinalTestLock];
    && l.lock == Sha(files[BenchmarkLock])
    && l.validation == Sha(files[ValidationResults])
    && l.baselines == Sha(files[ClassificationBaselines])
    && l.strategies == Sha(files[StrategyBaselines])
    && l.selection == Sha(files[SelectedModelManifest])
    && l.readiness == Sha(files[FinalTestReadiness])
    && l.model == files[SelectedModelManifest].model
  }

  predicate AccessMatches(files: Files) {
    && FinalTestAccess in files && files[FinalTestAccess].Access?
    && FinalTestLock in files
    && files[FinalTestAccess].finalLock == Sha(files[FinalTestLock])
  }

  predicate CompletionMatches(files: Files) {
    && FinalTestCompletion in files && files[FinalTestCompletion].Completion?
    && COMPLETED <= files.Keys && FinalTestLock in files
    && var c := files[FinalTestCompletion];
    && c.finalLock == Sha(files[FinalTestLock])
    && c.access == Sha(files[FinalTestAccess])
    && c.results == Sha(files[FinalTestResults])
    && c.costs == Sha(files[CostSensitivity])
    && c.regimes == Sha(files[RegimeResults])
    && c.backtest == Sha(files[BacktestResults])
  }

  /** The test's records name the runtime of the lock. */
  predicate RuntimesMatch(files: Files) {
    && BenchmarkLock in files && files[BenchmarkLock].Lock?
    && FinalTestAccess in files && files[FinalTestAccess].Access?
    && FinalTestCompletion in files && files[FinalTestCompletion].Completion?
    && files[FinalTestAccess].runtime == files[BenchmarkLock].runtime
    && files[FinalTestCompletion].runtime == files[BenchmarkLock].runtime
  }

  /** The result files repeat parts of the results. */
  predicate ResultFilesMatch(files: Files) {
    && FinalTestResults in files && files[FinalTestResults].Results?
    && var r := files[FinalTestResults];
    && Holds(files, CostSensitivity, Plain(r.cost))
    && Holds(files, RegimeResults, Plain(r.regime))
    && Holds(files, BacktestResults, Plain(r.strategyResults))
  }

  predicate IndexMatches(files: Files) {
    && ArtifactIndex in files && files[ArtifactIndex].Index?
    && forall n <- files[ArtifactIndex].artifacts :: n in files && files[ArtifactIndex].artifacts[n] == Sha(files[n])
  }

  /** What the artifact's schema accepts; the report, the lock's checksum file and temporary files have none. */
  predicate SchemaOk(name: Name, c: Content) {
    match name
    case BenchmarkLock => c.Lock?
    case ArtifactIndex => c.Index?
    case SelectedModelManifest => c.Selection?
    case FinalTestLock => c.FinalLock?
    case FinalTestAccess => c.Access?
    case FinalTestCompletion => c.Completion?
    case FinalTestResults => c.Results?
    case BenchmarkLockSum => true
    case BenchmarkReport => true
    case Temporary(_) => true
    case _ => c.Plain?
  }

  predicate SchemasHold(files: Files) {
    forall n :: n in files ==> SchemaOk(n, files[n])
  }

  /** Directory verification; `reproduces` is the outcome of every recomputation from the data. */
  predicate Verifies(files: Files, reproduces: bool) {
    && BenchmarkLock in files && files[BenchmarkLock].Lock?
    && Holds(files, BenchmarkLockSum, LockSum(Sha(files[BenchmarkLock])))
    && IndexMatches(files)
    && var stage := files[ArtifactIndex].stage;
    && files.Keys == StageArtifacts(stage)
    && SchemasHold(files)
    && (stage == Locked || stage == Tested ==> FinalLockMatches(files))
    && (stage == Tested ==> CompletionMatches(files) && ResultFilesMatch(files) && RuntimesMatch(files))
    && reproduces
  }

  /** The checksum comparisons of an audit replay. */
  predicate AuditLineage(files: Files) {
    FinalLockMatches(files) && AccessMatches(files) && CompletionMatches(files)
  }

  /**
   Whether an audit replay under `runtime` passes: `recomputed` are the results computed anew from the locked data.
   */
  predicate AuditPasses(files: Files, recomputed: Content, runtime: int) {
    && FinalTestLock in files && files[FinalTestLock].FinalLock?
    && BenchmarkLock in files && files[BenchmarkLock].Lock?
    && files[FinalTestLock].acknowledged
    && AuditLineage(files)
    && runtime == files[BenchmarkLock].runtime
    && runtime == files[FinalTestAccess].runtime
    && runtime == files[FinalTestCompletion].runtime
    && recomputed == files[FinalTestResults]
  }

  /** Whether a command gets past its checks to its first write. */
  predicate Starts(w: World, c: Command) {
    match c
    case Prepare(_, _, _, _, _, _) => true
    case RunValidation(_, _, _, _, _, _, _, runtime, reproduces) =>
      LockLoads(w.files) && Verifies(w.files, reproduces) && w.files[BenchmarkLock].runtime == runtime
    case FinalizeLock(acknowledged, runtime) =>
      && acknowledged && LockLoads(w.files) && w.files[BenchmarkLock].runtime == runtime
      && HasValidation(w.files)
    case RunFinalTest(acknowledged, runtime, _, results, _, _) =>
      && acknowledged && results.Results?
      && FinalTestLock in w.files && w.files[FinalTestLock].FinalLock?
      && BenchmarkLock in w.files && w.files[BenchmarkLock].Lock?
      && w.files[FinalTestLock].lock == Sha(w.files[BenchmarkLock])
      && w.files[BenchmarkLock].runtime == runtime
      && w.files[FinalTestLock].acknowledged
      && FinalTestResults !in w.files
      && FinalTestAccess !in w.files
  }

  function PrepareScript(c: Command): seq<Effect>
    requires c.Prepare?
  {
    var lock := Lock(Sha(Plain(c.split)), Sha(Plain(c.eligibility)), c.runtime, c.lockData);
    [Put(FeedAvailability, Plain(c.feed), false),
     Put(DatasetEligibility, Plain(c.eligibility), false),
     Put(SplitManifest, Plain(c.split), false),
     Put(BenchmarkLock, lock, false),
     Put(BenchmarkLockSum, LockSum(Sha(lock)), false),
     Put(BenchmarkReport, Report(Prepared, c.report), false),
     PutIndex(Prepared)]
  }

  function ValidationScript(c: Command): seq<Effect>
    requires c.RunValidation?
  {
    [Put(ValidationResults, Plain(c.validation), false),
     Put(ClassificationBaselines, Plain(c.baselines), false),
     Put(StrategyBaselines, Plain(c.strategies), false),
     Put(SelectedModelManifest, Selection(c.model, Sha(Plain(c.validation)), c.selection), false),
     Put(FinalTestReadiness, Plain(c.readiness), false),
     Put(BenchmarkReport, Report(Validated, c.report), true),
     PutIndex(Validated)]
  }

  function LockScript(files: Files): seq<Effect>
    requires BenchmarkLock in files && HasValidation(files)
  {
    [Put(FinalTestLock,
         FinalLock(Sha(files[BenchmarkLock]), Sha(files[ValidationResults]), Sha(files[ClassificationBaselines]),
                   Sha(files[StrategyBaselines]), Sha(files[SelectedModelManifest]), Sha(files[FinalTestReadiness]),
                   files[SelectedModelManifest].model, true),
         false),
     PutIndex(Locked)]
  }

  function TestScript(files: Files, c: Command): seq<Effect>
    requires c.RunFinalTest? && c.results.Results? && FinalTestLock in files
  {
    var lock := Sha(files[FinalTestLock]);
    var access := Access(lock, c.runtime, c.access);
    var costs, regimes, backtest := Plain(c.results.cost), Plain(c.results.regime), Plain(c.results.strategyResults);
    [Put(FinalTestAccess, access, false),
     Evaluate,
     Put(FinalTestResults, c.results, false),
     Put(CostSensitivity, costs, false),
     Put(RegimeResults, regimes, false),
     Put(BacktestResults, backtest, false),
     Put(FinalTestCompletion,
         Completion(lock, Sha(access), Sha(c.results), Sha(costs), Sha(regimes), Sha(backtest), c.runtime,
                    c.completion),
         false),
     Put(BenchmarkReport, Report(Tested, c.report), true),
     PutIndex(Tested)]
  }

  function Script(w: World, c: Command): seq<Effect>
    requires Starts(w, c)
  {
    match c
    case Prepare(_, _, _, _, _, _) => PrepareScript(c)
    case RunValidation(_, _, _, _, _, _, _, _, _) => ValidationScript(c)
    case FinalizeLock(_, _) => LockScript(w.files)
    case RunFinalTest(_, _, _, _, _, _) => TestScript(w.files, c)
  }

  /** A command run by a process that lives for `lifetime` effects. */
  function Step(w: World, c: Command, lifetime: nat): World {
    if Starts(w, c) then Exec(w, Script(w, c), Min(lifetime, |Script(w, c)|)).world else w
  }

  /** The temporary file of an unfinished write: its name is arbitrary, its content whatever was written so far. */
  datatype Leftover = Leftover(id: nat, data: int)

  function Litter(w: World, t: Leftover): World {
    w.(files := w.files[Temporary(t.id) := Plain(t.data)])
  }

  /** The effect that a process with this lifetime does not live to perform is a write. */
  predicate DiesWriting(w: World, script: seq<Effect>, lifetime: nat) {
    && lifetime < |script|
    && Exec(w, script, lifetime).going
    && Writes(Exec(w, script, lifetime).world.files, script[lifetime])
  }

  /** A command run by a process that performs `lifetime` effects and dies before the next, or, if `torn`, inside it. */
  datatype Attempt = Attempt(command: Command, lifetime: nat, torn: Option<Leftover>)

  /** The death is inside a write. */
  predicate Tears(w: World, a: Attempt) {
    a.torn.Some? && Starts(w, a.command) && DiesWriting(w, Script(w, a.command), a.lifetime)
  }

  function Attempted(w: World, a: Attempt): World {
    var after := Step(w, a.command, a.lifetime);
    if Tears(w, a) then Litter(after, a.torn.value) else after
  }

  /** Commands run one after the other on one directory, each dying when it may. */
  function Run(attempts: seq<Attempt>): World {
    if attempts == [] then
      EMPTY
    else
      Attempted(Run(attempts[..|attempts| - 1]), attempts[|attempts| - 1])
  }
}
