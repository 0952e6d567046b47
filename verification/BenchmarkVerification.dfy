/**
 Directory verification as it is written: checks that append to one list of reasons and one set of checked names.
 Every failed check is reported, nothing else is, and verification passes exactly when the workflow's own
 condition holds.
 */
module BenchmarkVerification {
  import opened Wrappers
  import opened ArtifactWorkflow

  datatype Reason =
    | LockChecksumMissing
    | LockChecksumMismatch
    | IndexInvalid
    | ArtifactsMissing(names: set<Name>)
    | ArtifactsUnexpected(names: set<Name>)
    | SchemaFailed(name: Name)
    | IndexedArtifactMissing(name: Name)
    | ChecksumMismatch(name: Name)
    | NotReproduced
    | FinalLockChecksum
    | SelectedModelMismatch
    | ResultPartMismatch(name: Name)
    | ResultPartsInvalid
    | AccessInvalid
    | CompletionChecksum
    | CompletionInvalid
    | AccessRuntime
    | CompletionRuntime

  /** Unreadable locks and missing artifacts stop the verification; everything else is collected. */
  datatype VerificationError = LockInvalid | ArtifactMissing(name: Name) | Failed(reasons: seq<Reason>)

  // ---------------------------------------------------------------- what each check looks for

  /** The declared stage; an index that fails its schema counts as the first stage and lists nothing. */
  function StageOf(files: Files): Stage {
    if ArtifactIndex in files && files[ArtifactIndex].Index? then files[ArtifactIndex].stage else Prepared
  }

  function IndexedOf(files: Files): map<Name, Hash> {
    if ArtifactIndex in files && files[ArtifactIndex].Index? then files[ArtifactIndex].artifacts else map[]
  }

  /** The artifacts with a schema. */
  function JsonArtifacts(stage: Stage): set<Name> {
    StageArtifacts(stage) - {BenchmarkLockSum, BenchmarkReport}
  }

  predicate LockReason(files: Files, r: Reason)
    requires BenchmarkLock in files
  {
    match r
    case LockChecksumMissing => BenchmarkLockSum !in files
    case LockChecksumMismatch =>
      BenchmarkLockSum in files && files[BenchmarkLockSum] != LockSum(Sha(files[BenchmarkLock]))
    case _ => false
  }

  predicate StageReason(files: Files, r: Reason) {
    match r
    case ArtifactsMissing(names) => names == StageArtifacts(StageOf(files)) - files.Keys && names != {}
    case ArtifactsUnexpected(names) => names == files.Keys - StageArtifacts(StageOf(files)) && names != {}
    case _ => false
  }

  predicate SchemaReason(files: Files, r: Reason) {
    r.SchemaFailed? && r.name in JsonArtifacts(StageOf(files)) && r.name in files && !SchemaOk(r.name, files[r.name])
  }

  predicate HashReason(files: Files, r: Reason) {
    match r
    case IndexedArtifactMissing(n) => n in IndexedOf(files) && n !in files
    case ChecksumMismatch(n) => n in IndexedOf(files) && n in files && IndexedOf(files)[n] != Sha(files[n])
    case _ => false
  }

  predicate Loaded(files: Files, name: Name) {
    name in files && SchemaOk(name, files[name])
  }

  /** The artifacts whose checksums the final lock holds. */
  predicate LockedPresent(files: Files) {
    BenchmarkLock in files && VALIDATION <= files.Keys
  }

  predicate LockedChecksumsAgree(files: Files)
    requires LockedPresent(files) && Loaded(files, FinalTestLock)
  {
    var l := files[FinalTestLock];
    && l.lock == Sha(files[BenchmarkLock])
    && l.validation == Sha(files[ValidationResults])
    && l.baselines == Sha(files[ClassificationBaselines])
    && l.strategies == Sha(files[StrategyBaselines])
    && l.selection == Sha(files[SelectedModelManifest])
    && l.readiness == Sha(files[FinalTestReadiness])
  }

  predicate FinalLockReason(files: Files, r: Reason)
    requires LockedPresent(files)
  {
    && Loaded(files, FinalTestLock) && Loaded(files, SelectedModelManifest)
    && match r
       case FinalLockChecksum => !LockedChecksumsAgree(files)
       case SelectedModelMismatch => files[FinalTestLock].model != files[SelectedModelManifest].model
       case _ => false
  }

  predicate CompletionChecksumsAgree(files: Files)
    requires COMPLETED <= files.Keys && FinalTestLock in files && Loaded(files, FinalTestCompletion)
  {
    var c := files[FinalTestCompletion];
    && c.finalLock == Sha(files[FinalTestLock])
    && c.access == Sha(files[FinalTestAccess])
    && c.results == Sha(files[FinalTestResults])
    && c.costs == Sha(files[CostSensitivity])
    && c.regimes == Sha(files[RegimeResults])
    && c.backtest == Sha(files[BacktestResults])
  }

  /** Cost, regime and backtest results repeat parts of the final results. */
  predicate PartReason(files: Files, r: Reason)
    requires COMPLETED <= files.Keys && files[FinalTestResults].Results?
  {
    var results := files[FinalTestResults];
    match r
    case ResultPartMismatch(CostSensitivity) => Sha(Plain(results.cost)) != Sha(files[CostSensitivity])
    case ResultPartMismatch(RegimeResults) => Sha(Plain(results.regime)) != Sha(files[RegimeResults])
    case ResultPartMismatch(BacktestResults) => Sha(Plain(results.strategyResults)) != Sha(files[BacktestResults])
    case ResultPartsInvalid =>
      !Loaded(files, CostSensitivity) || !Loaded(files, RegimeResults) || !Loaded(files, BacktestResults)
    case _ => false
  }

  predicate RecordReason(files: Files, r: Reason)
    requires COMPLETED <= files.Keys && FinalTestLock in files && LockSound(files)
  {
    match r
    case AccessInvalid => !Loaded(files, FinalTestAccess)
    case CompletionChecksum => Loaded(files, FinalTestCompletion) && !CompletionChecksumsAgree(files)
    case CompletionInvalid => !Loaded(files, FinalTestCompletion)
    case AccessRuntime =>
      Loaded(files, FinalTestAccess) && files[FinalTestAccess].runtime != files[BenchmarkLock].runtime
    case CompletionRuntime =>
      Loaded(files, FinalTestCompletion) && files[FinalTestCompletion].runtime != files[BenchmarkLock].runtime
    case _ => false
  }

  predicate LockSound(files: Files) {
    BenchmarkLock in files && files[BenchmarkLock].Lock?
  }

  predicate CompletedReason(files: Files, r: Reason)
    requires COMPLETED <= files.Keys && FinalTestLock in files && LockSound(files)
  {
    Loaded(files, FinalTestResults) && (PartReason(files, r) || RecordReason(files, r))
  }

  /** Nothing stops the verification early. */
  predicate Readable(files: Files) {
    && BenchmarkLock in files && files[BenchmarkLock].Lock?
    && ArtifactIndex in files
    && JsonArtifacts(StageOf(files)) <= files.Keys
  }

  lemma ReadableStages(files: Files)
    requires Readable(files)
    ensures StageOf(files) != Prepared ==> LockedPresent(files)
    ensures StageOf(files) == Locked || StageOf(files) == Tested ==> FinalTestLock in files
    ensures StageOf(files) == Tested ==> COMPLETED <= files.Keys
  {
    assert forall n :: n in VALIDATION && StageOf(files) != Prepared ==> n in JsonArtifacts(StageOf(files));
    assert forall n :: n in COMPLETED && StageOf(files) == Tested ==> n in JsonArtifacts(StageOf(files));
    assert StageOf(files) == Locked || StageOf(files) == Tested ==> FinalTestLock in JsonArtifacts(StageOf(files));
  }

  /** Everything there is to report about a readable directory. */
  predicate Found(files: Files, reproduces: bool, r: Reason)
    requires Readable(files)
  {
    ReadableStages(files);
    || LockReason(files, r)
    || (r == IndexInvalid && !files[ArtifactIndex].Index?)
    || StageReason(files, r)
    || SchemaReason(files, r)
    || HashReason(files, r)
    || (r == NotReproduced && !reproduces)
    || (StageOf(files) in {Locked, Tested} && FinalLockReason(files, r))
    || (StageOf(files) == Tested && CompletedReason(files, r))
  }

  /** The names a finished verification has looked at. */
  function CheckedNames(files: Files): set<Name> {
    {BenchmarkLock, ArtifactIndex}
    + (if BenchmarkLockSum in files then {BenchmarkLockSum} else {})
    + JsonArtifacts(StageOf(files))
    + (IndexedOf(files).Keys * files.Keys)
  }

  // ---------------------------------------------------------------- the checks

  class BenchmarkVerifier {
    const files: Files
    var reasons: seq<Reason>
    var checked: set<Name>

    constructor (files: Files)
      ensures this.files == files && reasons == [] && checked == {}
    {
      this.files := files;
      reasons, checked := [], {};
    }

    method VerifyLockChecksum()
      requires BenchmarkLock in files
      modifies this
      ensures forall r :: r in reasons <==> r in old(reasons) || LockReason(files, r)
      ensures checked == old(checked) + (if BenchmarkLockSum in files then {BenchmarkLockSum} else {})
    {
      if BenchmarkLockSum !in files {
        reasons := reasons + [LockChecksumMissing];
        return;
      }
      checked := checked + {BenchmarkLockSum};
      if files[BenchmarkLockSum] != LockSum(Sha(files[BenchmarkLock])) {
        reasons := reasons + [LockChecksumMismatch];
      }
    }

    method LoadIndex() returns (index: Option<(map<Name, Hash>, Stage)>)
      modifies this
      ensures index == if ArtifactIndex in files then Some((IndexedOf(files), StageOf(files))) else None
      ensures index.Some? ==>
                forall r :: r in reasons <==> r in old(reasons) || (r == IndexInvalid && !files[ArtifactIndex].Index?)
      ensures checked == old(checked) + {ArtifactIndex}
    {
      checked := checked + {ArtifactIndex};
      if ArtifactIndex !in files {
        return None;
      }
      if !files[ArtifactIndex].Index? {
        reasons := reasons + [IndexInvalid];
        return Some((map[], Prepared));
      }
      index := Some((files[ArtifactIndex].artifacts, files[ArtifactIndex].stage));
    }

    method VerifyStageArtifacts(stage: Stage)
      requires stage == StageOf(files)
      modifies this`reasons
      ensures forall r :: r in reasons <==> r in old(reasons) || StageReason(files, r)
    {
      var missing, unexpected := StageArtifacts(stage) - files.Keys, files.Keys - StageArtifacts(stage);
      if missing != {} {
        reasons := reasons + [ArtifactsMissing(missing)];
      }
      if unexpected != {} {
        reasons := reasons + [ArtifactsUnexpected(unexpected)];
      }
    }

    /** Loads every artifact of the stage that has a schema; a missing one stops the verification. */
    method ValidateKnownArtifacts(stage: Stage) returns (missing: Option<Name>)
      requires stage == StageOf(files)
      modifies this
      ensures missing == None <==> JsonArtifacts(stage) <= files.Keys
      ensures missing.Some? ==> missing.value in JsonArtifacts(stage) && missing.value !in files
      ensures missing == None ==> forall r :: r in reasons <==> r in old(reasons) || SchemaReason(files, r)
      ensures missing == None ==> checked == old(checked) + JsonArtifacts(stage)
    {
      hide SchemaOk, JsonArtifacts, StageOf;
      var remaining := JsonArtifacts(stage);
      while remaining != {}
        invariant remaining <= JsonArtifacts(stage)
        invariant JsonArtifacts(stage) - remaining <= files.Keys
        invariant forall r :: r in reasons <==> r in old(reasons) || (SchemaReason(files, r) && r.name !in remaining)
        invariant checked == old(checked) + (JsonArtifacts(stage) - remaining)
        decreases |remaining|
      {
        var name :| name in remaining;
        checked := checked + {name};
        if name !in files {
          return Some(name);
        }
        if !SchemaOk(name, files[name]) {
          reasons := reasons + [SchemaFailed(name)];
        }
        remaining := remaining - {name};
      }
      missing := None;
    }

    method VerifyArtifactIndexHashes(indexed: map<Name, Hash>)
      requires indexed == IndexedOf(files)
      modifies this
      ensures forall r :: r in reasons <==> r in old(reasons) || HashReason(files, r)
      ensures checked == old(checked) + (indexed.Keys * files.Keys)
    {
      hide IndexedOf, SchemaOk;
      var remaining := indexed.Keys;
      while remaining != {}
        invariant remaining <= indexed.Keys
        invariant forall r :: r in reasons <==> r in old(reasons) || (HashReason(files, r) && r.name !in remaining)
        invariant checked == old(checked) + ((indexed.Keys - remaining) * files.Keys)
        decreases |remaining|
      {
        var name :| name in remaining;
        remaining := remaining - {name};
        if name !in files {
          reasons := reasons + [IndexedArtifactMissing(name)];
        } else {
          checked := checked + {name};
          if Sha(files[name]) != indexed[name] {
            reasons := reasons + [ChecksumMismatch(name)];
          }
        }
      }
    }

    method VerifyFinalLockStage(stage: Stage)
      requires stage in {Locked, Tested} ==> LockedPresent(files)
      modifies this`reasons
      ensures forall r :: r in reasons <==>
                r in old(reasons) || (stage in {Locked, Tested} && FinalLockReason(files, r))
    {
      if stage !in {Locked, Tested} {
        return;
      }
      if !Loaded(files, FinalTestLock) || !Loaded(files, SelectedModelManifest) {
        return;
      }
      if !LockedChecksumsAgree(files) {
        reasons := reasons + [FinalLockChecksum];
      }
      if files[FinalTestLock].model != files[SelectedModelManifest].model {
        reasons := reasons + [SelectedModelMismatch];
      }
    }

    method VerifyResultParts()
      requires COMPLETED <= files.Keys && files[FinalTestResults].Results?
      modifies this`reasons
      ensures forall r :: r in reasons <==> r in old(reasons) || PartReason(files, r)
    {
      hide SchemaOk;
      var results := files[FinalTestResults];
      if Sha(Plain(results.cost)) != Sha(files[CostSensitivity]) {
        reasons := reasons + [ResultPartMismatch(CostSensitivity)];
      }
      if Sha(Plain(results.regime)) != Sha(files[RegimeResults]) {
        reasons := reasons + [ResultPartMismatch(RegimeResults)];
      }
      if Sha(Plain(results.strategyResults)) != Sha(files[BacktestResults]) {
        reasons := reasons + [ResultPartMismatch(BacktestResults)];
      }
      if !Loaded(files, CostSensitivity) || !Loaded(files, RegimeResults) || !Loaded(files, BacktestResults) {
        reasons := reasons + [ResultPartsInvalid];
      }
    }

    method VerifyRecords()
      requires COMPLETED <= files.Keys && FinalTestLock in files && LockSound(files)
      modifies this`reasons
      ensures forall r :: r in reasons <==> r in old(reasons) || RecordReason(files, r)
    {
      if !Loaded(files, FinalTestAccess) {
        reasons := reasons + [AccessInvalid];
      }
      if Loaded(files, FinalTestCompletion) {
        if !CompletionChecksumsAgree(files) {
          reasons := reasons + [CompletionChecksum];
        }
        if files[FinalTestCompletion].runtime != files[BenchmarkLock].runtime {
          reasons := reasons + [CompletionRuntime];
        }
      } else {
        reasons := reasons + [CompletionInvalid];
      }
      if Loaded(files, FinalTestAccess) && files[FinalTestAccess].runtime != files[BenchmarkLock].runtime {
        reasons := reasons + [AccessRuntime];
      }
    }

    method VerifyCompletedFinalStage(stage: Stage)
      requires stage == Tested ==> COMPLETED <= files.Keys && FinalTestLock in files && LockSound(files)
      modifies this`reasons
      ensures forall r :: r in reasons <==> r in old(reasons) || (stage == Tested && CompletedReason(files, r))
    {
      hide PartReason, RecordReason;
      if stage != Tested || !Loaded(files, FinalTestResults) {
        return;
      }
      VerifyResultParts();
      VerifyRecords();
    }

    /**
     The whole verification, on a new verifier. It passes exactly when the directory verifies; otherwise it stops
     at a missing or unreadable artifact or reports exactly what is wrong.
     */
    method VerifyBenchmarkDirectory(reproduces: bool) returns (result: Result<set<Name>, VerificationError>)
      requires reasons == [] && checked == {}
      modifies this
      ensures result.Ok? <==> Verifies(files, reproduces)
      ensures result.Ok? ==> result.value == CheckedNames(files)
      ensures Readable(files) && result.Err? ==>
                result.error.Failed? && forall r :: r in result.error.reasons <==> Found(files, reproduces, r)
      ensures !Readable(files) ==> result.Err? && !result.error.Failed?
    {
      hide Verifies, LockReason, StageReason, SchemaReason, HashReason, FinalLockReason, CompletedReason, StageOf,
        IndexedOf, JsonArtifacts, Found;
      if BenchmarkLock !in files {
        VerifiesIsReadable(files, reproduces);
        return Err(ArtifactMissing(BenchmarkLock));
      }
      if !files[BenchmarkLock].Lock? {
        VerifiesIsReadable(files, reproduces);
        return Err(LockInvalid);
      }
      checked := {BenchmarkLock};
      VerifyLockChecksum();
      var index := LoadIndex();
      if index == None {
        VerifiesIsReadable(files, reproduces);
        return Err(ArtifactMissing(ArtifactIndex));
      }
      var (indexed, stage) := index.value;
      VerifyStageArtifacts(stage);
      var missing := ValidateKnownArtifacts(stage);
      if missing.Some? {
        VerifiesIsReadable(files, reproduces);
        return Err(ArtifactMissing(missing.value));
      }
      ReadableStages(files);
      VerifyArtifactIndexHashes(indexed);
      if !reproduces {
        reasons := reasons + [NotReproduced];
      }
      VerifyFinalLockStage(stage);
      VerifyCompletedFinalStage(stage);
      ReasonsAreFound(files, reproduces, reasons);
      VerifiesIffNothingFound(files, reproduces);
      result := if reasons == [] then Ok(checked) else Err(Failed(reasons));
      if reasons != [] {
        assert reasons[0] in reasons;
      }
    }
  }

  lemma ReasonsAreFound(files: Files, reproduces: bool, reasons: seq<Reason>)
    requires Readable(files)
    requires StageOf(files) in {Locked, Tested} ==> LockedPresent(files)
    requires StageOf(files) == Tested ==> COMPLETED <= files.Keys && FinalTestLock in files && LockSound(files)
    requires forall r :: r in reasons <==>
               || LockReason(files, r) || (r == IndexInvalid && !files[ArtifactIndex].Index?)
               || StageReason(files, r) || SchemaReason(files, r) || HashReason(files, r)
               || (r == NotReproduced && !reproduces)
               || (StageOf(files) in {Locked, Tested} && FinalLockReason(files, r))
               || (StageOf(files) == Tested && CompletedReason(files, r))
    ensures forall r :: r in reasons <==> Found(files, reproduces, r)
  {
    hide LockReason, StageReason, SchemaReason, HashReason, FinalLockReason, CompletedReason, StageOf, Readable;
  }

  lemma VerifiesIsReadable(files: Files, reproduces: bool)
    ensures Verifies(files, reproduces) ==> Readable(files)
  {
    hide FinalLockMatches, CompletionMatches, ResultFilesMatch, RuntimesMatch, SchemasHold;
  }

  /** A directory verifies exactly when it is readable and there is nothing to report. */
  lemma VerifiesIffNothingFound(files: Files, reproduces: bool)
    requires Readable(files)
    ensures Verifies(files, reproduces) <==> forall r :: !Found(files, reproduces, r)
  {
    hide SchemaOk;
    if Verifies(files, reproduces) {
      forall r ensures !Found(files, reproduces, r) {
        NothingToReport(files, reproduces, r);
      }
    }
    if forall r :: !Found(files, reproduces, r) {
      hide Found, Verifies;
      UnreportedVerifies(files, reproduces);
    }
  }

  lemma NothingToReport(files: Files, reproduces: bool, r: Reason)
    requires Readable(files) && Verifies(files, reproduces)
    ensures !Found(files, reproduces, r)
  {
    hide SchemaOk;
    ReadableStages(files);
  }

  lemma UnreportedVerifies(files: Files, reproduces: bool)
    requires Readable(files) && forall r :: !Found(files, reproduces, r)
    ensures Verifies(files, reproduces)
  {
    hide Found, Verifies, Readable, SchemaReason;
    UnreportedBasics(files, reproduces);
    UnreportedSchemas(files, reproduces);
    UnreportedHashes(files, reproduces);
    UnreportedLock(files, reproduces);
    UnreportedCompletion(files, reproduces);
    UnreportedParts(files, reproduces);
    UnreportedRuntimes(files, reproduces);
    Assembled(files, reproduces);
  }

  lemma Assembled(files: Files, reproduces: bool)
    requires Readable(files) && reproduces && files[ArtifactIndex].Index?
    requires Holds(files, BenchmarkLockSum, LockSum(Sha(files[BenchmarkLock])))
    requires files.Keys == StageArtifacts(StageOf(files)) && SchemasHold(files) && IndexMatches(files)
    requires StageOf(files) in {Locked, Tested} ==> FinalLockMatches(files)
    requires StageOf(files) == Tested ==>
               CompletionMatches(files) && ResultFilesMatch(files) && RuntimesMatch(files)
    ensures Verifies(files, reproduces)
  {
    hide SchemasHold, IndexMatches, FinalLockMatches, CompletionMatches, ResultFilesMatch, RuntimesMatch;
  }

  lemma UnreportedBasics(files: Files, reproduces: bool)
    requires Readable(files) && forall r :: !Found(files, reproduces, r)
    ensures reproduces && files[ArtifactIndex].Index?
    ensures Holds(files, BenchmarkLockSum, LockSum(Sha(files[BenchmarkLock])))
    ensures files.Keys == StageArtifacts(StageOf(files))
  {
    hide SchemaOk, SchemaReason, FinalLockReason, CompletedReason, HashReason, StageArtifacts;
    var missing, unexpected := StageArtifacts(StageOf(files)) - files.Keys, files.Keys - StageArtifacts(StageOf(files));
    assert !Found(files, reproduces, NotReproduced) && !Found(files, reproduces, IndexInvalid);
    assert !Found(files, reproduces, LockChecksumMissing) && !Found(files, reproduces, LockChecksumMismatch);
    assert !Found(files, reproduces, ArtifactsMissing(missing))
           && !Found(files, reproduces, ArtifactsUnexpected(unexpected));
  }

  lemma UnreportedSchemas(files: Files, reproduces: bool)
    requires Readable(files) && forall r :: !Found(files, reproduces, r)
    requires files.Keys == StageArtifacts(StageOf(files))
    ensures SchemasHold(files)
  {
    hide LockReason, StageReason, FinalLockReason, CompletedReason, HashReason, StageArtifacts;
    forall n | n in files ensures SchemaOk(n, files[n]) {
      assert !Found(files, reproduces, SchemaFailed(n));
      assert n in StageArtifacts(StageOf(files));
    }
  }

  lemma UnreportedHashes(files: Files, reproduces: bool)
    requires Readable(files) && forall r :: !Found(files, reproduces, r)
    requires files[ArtifactIndex].Index?
    ensures IndexMatches(files)
  {
    hide SchemaOk, LockReason, StageReason, FinalLockReason, CompletedReason, SchemaReason, StageArtifacts;
    forall n | n in files[ArtifactIndex].artifacts
      ensures n in files && files[ArtifactIndex].artifacts[n] == Sha(files[n])
    {
      assert !Found(files, reproduces, IndexedArtifactMissing(n)) && !Found(files, reproduces, ChecksumMismatch(n));
    }
  }

  lemma UnreportedLock(files: Files, reproduces: bool)
    requires Readable(files) && forall r :: !Found(files, reproduces, r)
    requires SchemasHold(files)
    ensures StageOf(files) in {Locked, Tested} ==> FinalLockMatches(files)
  {
    hide LockReason, StageReason, HashReason, SchemaReason, CompletedReason, StageOf, Readable, StageArtifacts;
    ReadableStages(files);
    assert !Found(files, reproduces, FinalLockChecksum) && !Found(files, reproduces, SelectedModelMismatch);
  }

  lemma UnreportedCompletion(files: Files, reproduces: bool)
    requires Readable(files) && forall r :: !Found(files, reproduces, r)
    requires SchemasHold(files)
    ensures StageOf(files) == Tested ==> CompletionMatches(files)
  {
    hide LockReason, StageReason, HashReason, SchemaReason, FinalLockReason, PartReason, StageOf, Readable,
      StageArtifacts;
    ReadableStages(files);
    if StageOf(files) == Tested {
      assert Loaded(files, FinalTestResults) && Loaded(files, FinalTestCompletion);
      assert !Found(files, reproduces, CompletionChecksum);
    }
  }

  lemma UnreportedParts(files: Files, reproduces: bool)
    requires Readable(files) && forall r :: !Found(files, reproduces, r)
    requires SchemasHold(files)
    ensures StageOf(files) == Tested ==> ResultFilesMatch(files)
  {
    hide LockReason, StageReason, HashReason, SchemaReason, FinalLockReason, RecordReason, StageOf, Readable,
      StageArtifacts;
    ReadableStages(files);
    if StageOf(files) == Tested {
      assert Loaded(files, FinalTestResults);
      assert !Found(files, reproduces, ResultPartMismatch(CostSensitivity));
      assert !Found(files, reproduces, ResultPartMismatch(RegimeResults));
      assert !Found(files, reproduces, ResultPartMismatch(BacktestResults));
    }
  }

  lemma UnreportedRuntimes(files: Files, reproduces: bool)
    requires Readable(files) && forall r :: !Found(files, reproduces, r)
    requires SchemasHold(files)
    ensures StageOf(files) == Tested ==> RuntimesMatch(files)
  {
    ReadableStages(files);
    assert LockSound(files);
    hide LockReason, StageReason, HashReason, SchemaReason, FinalLockReason, PartReason, StageOf, Readable,
      StageArtifacts, RuntimesMatch, CompletionChecksumsAgree;
    if StageOf(files) == Tested {
      assert Loaded(files, FinalTestResults) && Loaded(files, FinalTestAccess) && Loaded(files, FinalTestCompletion);
      assert !RecordReason(files, AccessRuntime) by {
        assert !Found(files, reproduces, AccessRuntime);
      }
      assert !RecordReason(files, CompletionRuntime) by {
        assert !Found(files, reproduces, CompletionRuntime);
      }
      RuntimesUnreported(files);
    }
  }

  lemma RuntimesUnreported(files: Files)
    requires COMPLETED <= files.Keys && FinalTestLock in files && LockSound(files)
    requires Loaded(files, FinalTestAccess) && Loaded(files, FinalTestCompletion)
    requires !RecordReason(files, AccessRuntime) && !RecordReason(files, CompletionRuntime)
    ensures RuntimesMatch(files)
  {
  }

  // ---------------------------------------------------------------- one change to a directory that verifies

  /** An indexed artifact with other content is reported by name. */
  lemma ChangeIsReported(files: Files, name: Name, content: Content)
    requires Verifies(files, true) && name in files[ArtifactIndex].artifacts && name != ArtifactIndex
    requires content != files[name] && (name == BenchmarkLock ==> content.Lock?)
    ensures Readable(files[name := content]) && Found(files[name := content], true, ChecksumMismatch(name))
  {
    hide SchemasHold, FinalLockMatches, CompletionMatches, ResultFilesMatch, RuntimesMatch, StageArtifacts,
      FinalLockReason, CompletedReason;
    var after := files[name := content];
    VerifiesIsReadable(files, true);
    assert StageOf(after) == StageOf(files);
  }

  /** A name that does not belong to the stage is reported. */
  lemma AdditionIsReported(files: Files, name: Name, content: Content)
    requires Verifies(files, true) && name !in files
    ensures Readable(files[name := content]) && Found(files[name := content], true, ArtifactsUnexpected({name}))
  {
    hide SchemasHold, FinalLockMatches, CompletionMatches, ResultFilesMatch, RuntimesMatch, StageArtifacts,
      FinalLockReason, CompletedReason;
    var after := files[name := content];
    VerifiesIsReadable(files, true);
    assert StageOf(after) == StageOf(files);
    assert after.Keys - StageArtifacts(StageOf(files)) == {name};
  }

  /** A missing report or lock checksum is reported; without any other artifact the verification stops. */
  lemma RemovalIsReported(files: Files, name: Name)
    requires Verifies(files, true) && name in files && name != ArtifactIndex
    ensures Readable(files - {name}) <==> name == BenchmarkReport || name == BenchmarkLockSum
    ensures Readable(files - {name}) ==> Found(files - {name}, true, ArtifactsMissing({name}))
  {
    hide SchemasHold, FinalLockMatches, CompletionMatches, ResultFilesMatch, RuntimesMatch, FinalLockReason,
      CompletedReason, StageArtifacts;
    var after := files - {name};
    VerifiesIsReadable(files, true);
    assert StageOf(after) == StageOf(files);
    assert after.Keys == files.Keys - {name} && files.Keys == StageArtifacts(StageOf(files));
    assert files.Keys - after.Keys == {name};
    assert name in JsonArtifacts(StageOf(files)) <==> name != BenchmarkReport && name != BenchmarkLockSum;
  }

  /** The reasons about records and parts come from the checks of a completed test alone. */
  lemma FoundInRecords(files: Files, reproduces: bool, r: Reason)
    requires Readable(files) && StageOf(files) == Tested
             && (r.AccessRuntime? || r.CompletionRuntime? || r.ResultPartMismatch?)
    ensures COMPLETED <= files.Keys && FinalTestLock in files
    ensures Found(files, reproduces, r) <==> CompletedReason(files, r)
  {
    hide CompletedReason, Readable, SchemaOk, StageArtifacts;
    ReadableStages(files);
  }

  lemma RecordsMean(files: Files)
    requires COMPLETED <= files.Keys && FinalTestLock in files && LockSound(files)
    requires files[FinalTestResults].Results? && files[FinalTestAccess].Access?
             && files[FinalTestCompletion].Completion?
    ensures CompletedReason(files, AccessRuntime) <==>
            files[FinalTestAccess].runtime != files[BenchmarkLock].runtime
    ensures CompletedReason(files, CompletionRuntime) <==>
            files[FinalTestCompletion].runtime != files[BenchmarkLock].runtime
    ensures CompletedReason(files, ResultPartMismatch(CostSensitivity)) <==>
            files[CostSensitivity] != Plain(files[FinalTestResults].cost)
    ensures CompletedReason(files, ResultPartMismatch(RegimeResults)) <==>
            files[RegimeResults] != Plain(files[FinalTestResults].regime)
    ensures CompletedReason(files, ResultPartMismatch(BacktestResults)) <==>
            files[BacktestResults] != Plain(files[FinalTestResults].strategyResults)
  {
    hide CompletionChecksumsAgree;
  }

  /** What is reported about the records and parts of a completed test. */
  lemma RecordsReported(files: Files, reproduces: bool)
    requires Readable(files) && StageOf(files) == Tested && COMPLETED <= files.Keys
    requires files[FinalTestResults].Results? && files[FinalTestAccess].Access?
             && files[FinalTestCompletion].Completion?
    ensures Found(files, reproduces, AccessRuntime) <==>
            files[FinalTestAccess].runtime != files[BenchmarkLock].runtime
    ensures Found(files, reproduces, CompletionRuntime) <==>
            files[FinalTestCompletion].runtime != files[BenchmarkLock].runtime
    ensures Found(files, reproduces, ResultPartMismatch(CostSensitivity)) <==>
            files[CostSensitivity] != Plain(files[FinalTestResults].cost)
    ensures Found(files, reproduces, ResultPartMismatch(RegimeResults)) <==>
            files[RegimeResults] != Plain(files[FinalTestResults].regime)
    ensures Found(files, reproduces, ResultPartMismatch(BacktestResults)) <==>
            files[BacktestResults] != Plain(files[FinalTestResults].strategyResults)
  {
    assert LockSound(files);
    hide Found, CompletedReason, Readable, StageArtifacts;
    FoundInRecords(files, reproduces, AccessRuntime);
    FoundInRecords(files, reproduces, CompletionRuntime);
    FoundInRecords(files, reproduces, ResultPartMismatch(CostSensitivity));
    FoundInRecords(files, reproduces, ResultPartMismatch(RegimeResults));
    FoundInRecords(files, reproduces, ResultPartMismatch(BacktestResults));
    RecordsMean(files);
  }

  /** A pass has looked at every artifact, except for a report that the index does not list. */
  lemma PassChecksEverything(files: Files)
    requires Verifies(files, true)
    ensures CheckedNames(files)
         == files.Keys - (if BenchmarkReport in files[ArtifactIndex].artifacts then {} else {BenchmarkReport})
  {
    hide SchemasHold, FinalLockMatches, CompletionMatches, ResultFilesMatch, RuntimesMatch;
    assert StageOf(files) == files[ArtifactIndex].stage && IndexedOf(files) == files[ArtifactIndex].artifacts;
    assert forall n :: n in IndexedOf(files) ==> n in files;
    hide StageArtifacts;
    assert files.Keys == StageArtifacts(StageOf(files));
  }
}
