/**
 What cannot be undone.  A death inside a write leaves a temporary file,
   and the directory never verifies again; once the
 access record of the final test exists, a directory that does not verify never verifies again; and a completed
 directory goes on verifying exactly as long as everything run on it is harmless.
 */
module ArtifactDamage {
  import opened Naturals
  import opened Wrappers
  import opened ArtifactWorkflow
  import opened ArtifactSafety
  import opened ArtifactRecovery

  // ---------------------------------------------------------------- what every run keeps in place

  /** Validation only starts on a directory that has everything preparation writes. */
  ghost predicate Staged(files: Files) {
    VALIDATION !! files.Keys || BASE <= files.Keys
  }

  /**
   An index written after a report lists a report of its own stage, and one at the tested stage has an access record.
   */
  ghost predicate StageRecorded(files: Files) {
    ArtifactIndex in files && files[ArtifactIndex].Index? ==>
      var (artifacts, stage) := (files[ArtifactIndex].artifacts, files[ArtifactIndex].stage);
      && (stage != Locked ==> BenchmarkReport in artifacts && IsReportOf(artifacts[BenchmarkReport].content, stage))
      && (stage == Tested ==> FinalTestAccess in files)
  }

  predicate IsReportOf(c: Content, stage: Stage) {
    c.Report? && c.of == stage
  }

  lemma {:induction false} NamesStay(w: World, script: seq<Effect>, n: nat)
    requires n <= |script|
    ensures w.files.Keys <= Exec(w, script, n).world.files.Keys
  {
    if n > 0 {
      NamesStay(w, script, n - 1);
    }
  }

  lemma NothingValidated(w: World, script: seq<Effect>, n: nat)
    requires n <= |script| && VALIDATION !! w.files.Keys
    requires forall e :: e in script && e.Put? ==> e.name !in VALIDATION
    ensures VALIDATION !! Exec(w, script, n).world.files.Keys
  {
    hide Exec;
    forall name | name in VALIDATION ensures name !in Exec(w, script, n).world.files.Keys {
      UntouchedNames(w, script, n, name);
    }
  }

  /** Only preparation starts on a directory without validation artifacts that does not verify. */
  lemma StartedUnvalidated(w: World, c: Command)
    requires Inv(w) && Starts(w, c) && VALIDATION !! w.files.Keys
    ensures c.Prepare? || (c.RunValidation? && BASE <= w.files.Keys)
  {
    hide Linked, LockLoads, IndexMatches;
    assert ValidationResults in VALIDATION;
    if FinalTestLock in w.files {
      LinkAt(w.files, FinalTestLock);
    }
  }

  lemma StepKeepsStaged(w: World, c: Command, lifetime: nat)
    requires Inv(w) && Staged(w.files)
    ensures Staged(Step(w, c, lifetime).files)
  {
    hide Exec, Starts, Inv, PrepareScript;
    if Starts(w, c) {
      var script := Script(w, c);
      var n := Min(lifetime, |script|);
      NamesStay(w, script, n);
      if !(BASE <= w.files.Keys) {
        StartedUnvalidated(w, c);
        PreparationIsElsewhere(c);
        NothingValidated(w, script, n);
      }
    }
  }

  lemma {:induction false} EarlierEffects(w: World, script: seq<Effect>, n: nat)
    requires n < |script| && StageRecorded(w.files)
    requires forall i :: 0 <= i < |script| ==> Disciplined(script[i])
    requires forall i :: 0 <= i < |script| - 1 ==> !script[i].PutIndex?
    ensures StageRecorded(Exec(w, script, n).world.files)
  {
    if n > 0 {
      EarlierEffects(w, script, n - 1);
    }
  }

  /** The script ends with the index of its stage; before it comes the report of that stage, except when locking. */
  ghost predicate EndsAt(script: seq<Effect>, stage: Stage) {
    && |script| >= 2 && script[|script| - 1] == PutIndex(stage)
    && (forall i :: 0 <= i < |script| - 1 ==> !script[i].PutIndex?)
    && (stage != Locked ==>
          var e := script[|script| - 2]; e.Put? && e.name == BenchmarkReport && IsReportOf(e.content, stage))
    && (stage == Tested ==> script[0].Put? && script[0].name == FinalTestAccess)
  }

  lemma ScriptEnds(w: World, script: seq<Effect>, stage: Stage)
    requires EndsAt(script, stage) && StageRecorded(w.files)
    requires forall e :: e in script ==> Disciplined(e)
    ensures StageRecorded(Exec(w, script, |script|).world.files)
  {
    var n := |script| - 1;
    EarlierEffects(w, script, n);
    var before := Exec(w, script, n);
    if before.going && !Littered(before.world.files) {
      if stage != Locked {
        LastWritten(w, script, n);
      }
      if stage == Tested {
        WrittenHolds(w, script, n, 0);
      }
      StageWritten(before.world.files, stage);
    }
  }

  lemma LastWritten(w: World, script: seq<Effect>, n: nat)
    requires 0 < n <= |script| && script[n - 1].Put? && Exec(w, script, n).going
    ensures Holds(Exec(w, script, n).world.files, script[n - 1].name, script[n - 1].content)
  {
  }

  lemma StageWritten(files: Files, stage: Stage)
    requires stage != Locked ==> BenchmarkReport in files && IsReportOf(files[BenchmarkReport], stage)
    requires stage == Tested ==> FinalTestAccess in files
    ensures StageRecorded(files[ArtifactIndex := IndexOf(files, stage)])
  {
  }

  function StageOfCommand(c: Command): Stage {
    match c
    case Prepare(_, _, _, _, _, _) => Prepared
    case RunValidation(_, _, _, _, _, _, _, _, _) => Validated
    case FinalizeLock(_, _) => Locked
    case RunFinalTest(_, _, _, _, _, _) => Tested
  }

  lemma ScriptsEnd(w: World, c: Command)
    requires Starts(w, c)
    ensures EndsAt(Script(w, c), StageOfCommand(c))
  {
    hide Starts;
  }

  lemma StepKeepsRecorded(w: World, c: Command, lifetime: nat)
    requires StageRecorded(w.files)
    ensures StageRecorded(Step(w, c, lifetime).files)
  {
    hide Exec, Starts, StageRecorded, Script;
    if Starts(w, c) {
      var script := Script(w, c);
      ScriptsAreDisciplined(w, c);
      ScriptsEnd(w, c);
      if lifetime < |script| {
        EarlierEffects(w, script, lifetime);
      } else {
        ScriptEnds(w, script, StageOfCommand(c));
      }
    }
  }

  lemma LitterKeepsStages(w: World, t: Leftover)
    requires Staged(w.files) && StageRecorded(w.files)
    ensures Staged(Litter(w, t).files) && StageRecorded(Litter(w, t).files)
  {
  }

  lemma AttemptKeepsStages(w: World, a: Attempt)
    requires Inv(w) && Staged(w.files) && StageRecorded(w.files)
    ensures Staged(Attempted(w, a).files) && StageRecorded(Attempted(w, a).files)
  {
    hide Inv, Staged, StageRecorded, Step, Attempted, Litter;
    AttemptIs(w, a);
    StepKeepsStaged(w, a.command, a.lifetime);
    StepKeepsRecorded(w, a.command, a.lifetime);
    if a.torn.Some? {
      LitterKeepsStages(Step(w, a.command, a.lifetime), a.torn.value);
    }
  }

  lemma {:induction false} EveryRunIsStaged(attempts: seq<Attempt>)
    ensures Staged(Run(attempts).files) && StageRecorded(Run(attempts).files)
  {
    hide Staged, StageRecorded, Attempted;
    if attempts == [] {
      NothingStaged();
    } else {
      var front, last := attempts[..|attempts| - 1], attempts[|attempts| - 1];
      EveryRunIsStaged(front);
      EveryRunIsLinked(front);
      AttemptKeepsStages(Run(front), last);
    }
  }

  lemma NothingStaged()
    ensures Staged(EMPTY.files) && StageRecorded(EMPTY.files)
  {
  }

  // ---------------------------------------------------------------- a death inside a write

  lemma LitteredFails(files: Files, reproduces: bool)
    requires Littered(files)
    ensures !Verifies(files, reproduces)
  {
    hide IndexMatches, SchemasHold, FinalLockMatches, CompletionMatches, ResultFilesMatch, RuntimesMatch;
    forall stage: Stage ensures files.Keys != StageArtifacts(stage) {
      if files.Keys == StageArtifacts(stage) {
        ListedNamesOnly(files, stage);
      }
    }
    hide StageArtifacts, Littered;
  }

  lemma {:induction false} LitteredIndexStays(w: World, script: seq<Effect>, n: nat)
    requires n <= |script| && Littered(w.files) && forall e :: e in script ==> Disciplined(e)
    ensures Littered(Exec(w, script, n).world.files)
    ensures SameIndex(w.files, Exec(w, script, n).world.files)
  {
    if n > 0 {
      LitteredIndexStays(w, script, n - 1);
      NamesStay(w, script, n);
      assert script[n - 1] in script;
      var t :| t in w.files.Keys && t.Temporary?;
      assert t in Exec(w, script, n).world.files.Keys;
    }
  }

  ghost predicate SameIndex(a: Files, b: Files) {
    && (ArtifactIndex in a <==> ArtifactIndex in b)
    && (ArtifactIndex in a ==> b[ArtifactIndex] == a[ArtifactIndex])
  }

  lemma LitteredStays(w: World, a: Attempt)
    requires Littered(w.files)
    ensures Littered(Attempted(w, a).files) && SameIndex(w.files, Attempted(w, a).files)
  {
    hide Exec, Starts, Script, Littered, Attempted;
    var c := a.command;
    AttemptIs(w, a);
    if Starts(w, c) {
      ScriptsAreDisciplined(w, c);
      LitteredIndexStays(w, Script(w, c), Min(a.lifetime, |Script(w, c)|));
    }
    if a.torn.Some? {
      LitterIsLitter(Step(w, c, a.lifetime), a.torn.value);
    }
  }

  lemma LitterIsLitter(w: World, t: Leftover)
    ensures Littered(Litter(w, t).files) && SameIndex(w.files, Litter(w, t).files)
  {
    assert Temporary(t.id) in Litter(w, t).files.Keys;
  }

  lemma {:induction false} LitteredForever(attempts: seq<Attempt>, more: seq<Attempt>)
    requires Littered(Run(attempts).files)
    ensures Littered(Run(attempts + more).files)
    ensures SameIndex(Run(attempts).files, Run(attempts + more).files)
  {
    hide Littered, Attempted;
    if more == [] {
      assert attempts + more == attempts;
    } else {
      var front, last := more[..|more| - 1], more[|more| - 1];
      LitteredForever(attempts, front);
      assert (attempts + more)[..|attempts + more| - 1] == attempts + front;
      LitteredStays(Run(attempts + front), last);
    }
  }

  /**
   A death inside a write is final at every stage: the temporary file it leaves fails verification and stops every
   later index, and no command removes it.
   */
  lemma TornWriteIsFinal(attempts: seq<Attempt>, a: Attempt, more: seq<Attempt>, reproduces: bool)
    requires Tears(Run(attempts), a)
    ensures !Verifies(Run(attempts + [a] + more).files, reproduces)
    ensures SameIndex(Run(attempts + [a]).files, Run(attempts + [a] + more).files)
  {
    hide Run, Step, Tears, Littered, Verifies;
    RunSnoc(attempts, a);
    TearsLitters(Run(attempts), a);
    LitteredForever(attempts + [a], more);
    LitteredFails(Run(attempts + [a] + more).files, reproduces);
  }

  lemma TearsLitters(w: World, a: Attempt)
    requires Tears(w, a)
    ensures Littered(Attempted(w, a).files)
  {
    hide Step, Littered;
    LitterIsLitter(Step(w, a.command, a.lifetime), a.torn.value);
  }

  // ---------------------------------------------------------------- after the access record

  /** The final test has been started. */
  ghost predicate Begun(w: World) {
    Inv(w) && BASE <= w.files.Keys && FinalTestAccess in w.files
  }

  lemma BegunHasAll(w: World)
    requires Begun(w)
    ensures FinalTestLock in w.files && LockLoads(w.files) && HasValidation(w.files)
  {
    hide Linked, LinkOk;
    LinkAt(w.files, FinalTestAccess);
    AccessIsLinked(w.files);
    LinkAt(w.files, FinalTestLock);
    FinalLockIsLinked(w.files);
    assert BenchmarkLock in w.files.Keys && BenchmarkLockSum in w.files.Keys;
    LinkAt(w.files, BenchmarkLock);
    LinkAt(w.files, BenchmarkLockSum);
    LocksAreLinked(w.files);
  }

  /** Reachable directories with an access record are begun. */
  lemma RunsAreBegun(attempts: seq<Attempt>)
    requires FinalTestAccess in Run(attempts).files
    ensures Begun(Run(attempts))
  {
    hide Run, Linked, LinkOk;
    EveryRunIsLinked(attempts);
    EveryRunIsStaged(attempts);
    var files := Run(attempts).files;
    LinkAt(files, FinalTestAccess);
    AccessIsLinked(files);
    LinkAt(files, FinalTestLock);
    FinalLockIsLinked(files);
    assert ValidationResults in VALIDATION && ValidationResults in files.Keys;
  }

  /** The index is there and says another stage than tested. */
  ghost predicate Misindexed(files: Files) {
    ArtifactIndex in files && files[ArtifactIndex].Index? && files[ArtifactIndex].stage != Tested
  }

  lemma MisindexedFails(files: Files, reproduces: bool)
    requires FinalTestAccess in files && Misindexed(files)
    ensures !Verifies(files, reproduces)
  {
    hide IndexMatches, SchemasHold, FinalLockMatches, CompletionMatches, ResultFilesMatch, RuntimesMatch;
    assert FinalTestAccess in files.Keys && FinalTestAccess !in StageArtifacts(files[ArtifactIndex].stage);
  }

  /** Writes of names that are all there change nothing, and go on only while the contents agree. */
  lemma {:induction false} IdlePuts(w: World, script: seq<Effect>, n: nat)
    requires n <= |script|
    requires forall i :: 0 <= i < n ==> script[i].Put? && !script[i].replace && script[i].name in w.files
    ensures Exec(w, script, n)
         == Progress(w, forall i :: 0 <= i < n ==> Holds(w.files, script[i].name, script[i].content))
  {
    if n > 0 {
      IdlePuts(w, script, n - 1);
    }
  }

  predicate PrepareRepeats(files: Files, c: Command)
    requires c.Prepare?
  {
    forall i :: 0 <= i < 6 ==> Holds(files, PrepareScript(c)[i].name, PrepareScript(c)[i].content)
  }

  predicate ValidationRepeats(files: Files, c: Command)
    requires c.RunValidation?
  {
    forall i :: 0 <= i < 5 ==> Holds(files, ValidationScript(c)[i].name, ValidationScript(c)[i].content)
  }

  /** Preparing again changes nothing, or, when all its contents are there already, writes its stage into the index. */
  lemma PrepareAgain(w: World, c: Command, lifetime: nat)
    requires c.Prepare? && BASE <= w.files.Keys
    ensures var after := Step(w, c, lifetime).files;
            after == if lifetime >= 7 && PrepareRepeats(w.files, c) && !Littered(w.files)
                     then w.files[ArtifactIndex := IndexOf(w.files, Prepared)] else w.files
  {
    hide IndexOf, Littered;
    var script := PrepareScript(c);
    assert forall i :: 0 <= i < 6 ==> script[i].name in BASE;
    hide PrepareScript;
    IdlePuts(w, script, Min(lifetime, 6));
    IdlePuts(w, script, 6);
    if lifetime >= 7 {
      assert Exec(w, script, 7) == (if Exec(w, script, 6).going then Perform(w, script[6]) else Exec(w, script, 6));
    }
  }

  /** Locking again finds its lock already written and only rewrites the index. */
  lemma LockAgain(w: World, c: Command, lifetime: nat)
    requires c.FinalizeLock? && Linked(w.files) && FinalTestLock in w.files
    requires LockLoads(w.files) && HasValidation(w.files)
    ensures Step(w, c, lifetime).files
         == if c.acknowledged && LockRuntimeIs(w.files, c.runtime) && lifetime >= 2 && !Littered(w.files)
            then w.files[ArtifactIndex := IndexOf(w.files, Locked)] else w.files
    ensures Starts(w, c) <==> c.acknowledged && LockRuntimeIs(w.files, c.runtime)
    ensures Starts(w, c) ==> Exec(w, LockScript(w.files), 1) == Progress(w, true)
  {
    hide Linked, IndexOf, Littered;
    if Starts(w, c) {
      var script := LockScript(w.files);
      LinkAt(w.files, FinalTestLock);
      assert Exec(w, script, 0) == Progress(w, true);
      assert Exec(w, script, 1) == Progress(w, true);
      assert Exec(w, script, 2).world.files
          == (if Littered(w.files) then w.files else w.files[ArtifactIndex := IndexOf(w.files, Locked)]);
    }
  }

  lemma IndexWritten(files: Files, stage: Stage)
    requires stage != Tested
    ensures Misindexed(files[ArtifactIndex := IndexOf(files, stage)])
  {
  }

  /** No command but a validation that starts does anything but leave the files alone or misindex them. */
  lemma BegunStep(w: World, c: Command, lifetime: nat)
    requires Begun(w)
    requires c.RunValidation? ==> !Verifies(w.files, c.reproduces)
    ensures var after := Step(w, c, lifetime).files; after == w.files || Misindexed(after)
  {
    hide Inv, Misindexed, IndexOf, LockLoads, HasValidation, Verifies, Exec, PrepareRepeats, Littered;
    BegunHasAll(w);
    BegunIsLinked(w);
    IndexWritten(w.files, Prepared);
    IndexWritten(w.files, Locked);
    match c
    case Prepare(_, _, _, _, _, _) => PrepareAgain(w, c, lifetime);
    case RunValidation(_, _, _, _, _, _, _, _, _) =>
    case FinalizeLock(_, _) => LockAgain(w, c, lifetime);
    case RunFinalTest(_, _, _, _, _, _) =>
  }

  lemma BegunIsLinked(w: World)
    requires Begun(w)
    ensures Linked(w.files)
  {
  }

  lemma OnlyReproduced(files: Files, reproduces: bool)
    ensures Verifies(files, reproduces) ==> reproduces && Verifies(files, true)
  {
  }

  /** A started test whose directory does not verify stays that way through every command. */
  lemma DamageStays(w: World, a: Attempt)
    requires Begun(w) && !Verifies(w.files, true)
    ensures !Verifies(Attempted(w, a).files, true)
    ensures FinalTestAccess in Attempted(w, a).files
  {
    hide Begun, Verifies, Step, Keeps, Misindexed, Attempted, Litter;
    var c := a.command;
    if c.RunValidation? {
      OnlyReproduced(w.files, c.reproduces);
    }
    BegunStep(w, c, a.lifetime);
    AttemptKeeps(w, a);
    AccessStays(w, Attempted(w, a));
    StepKeeps(w, c, a.lifetime);
    AccessStays(w, Step(w, c, a.lifetime));
    AccessThere(w);
    AttemptIs(w, a);
    var after := Step(w, c, a.lifetime);
    if Misindexed(after.files) {
      MisindexedFails(after.files, true);
    }
    if a.torn.Some? {
      LitterIsLitter(after, a.torn.value);
      if Attempted(w, a) == Litter(after, a.torn.value) {
        LitteredFails(Litter(after, a.torn.value).files, true);
      }
    }
  }

  lemma AccessThere(w: World)
    requires Begun(w)
    ensures FinalTestAccess in w.files
  {
  }

  lemma {:induction false} DamageStaysForever(attempts: seq<Attempt>, more: seq<Attempt>)
    requires FinalTestAccess in Run(attempts).files && !Verifies(Run(attempts).files, true)
    ensures FinalTestAccess in Run(attempts + more).files && !Verifies(Run(attempts + more).files, true)
  {
    hide Verifies, Attempted, Begun;
    if more == [] {
      assert attempts + more == attempts;
    } else {
      var front, last := more[..|more| - 1], more[|more| - 1];
      DamageStaysForever(attempts, front);
      assert (attempts + more)[..|attempts + more| - 1] == attempts + front;
      RunsAreBegun(attempts + front);
      DamageStays(Run(attempts + front), last);
    }
  }

  /**
   Once the final test has been started, a directory that does not verify never verifies again, whatever commands
   run on it and wherever they die.
   */
  lemma DamageIsPermanent(attempts: seq<Attempt>, more: seq<Attempt>, reproduces: bool)
    requires FinalTestAccess in Run(attempts).files && !Verifies(Run(attempts).files, true)
    ensures !Verifies(Run(attempts + more).files, reproduces)
  {
    hide Verifies, Run;
    DamageStaysForever(attempts, more);
    OnlyReproduced(Run(attempts + more).files, reproduces);
  }

  // ---------------------------------------------------------------- commands on a completed directory

  /**
   The attempts that leave a completed directory verifying.  Preparing and testing again always do.  Locking again
   does only if it is refused or dies before its index; validating again only if it is refused, finds other contents,
   or dies before its report.
   */
  predicate Harmless(files: Files, a: Attempt) {
    match a.command
    case Prepare(_, _, _, _, _, _) => true
    case RunValidation(_, _, _, _, _, _, _, runtime, reproduces) =>
      || !reproduces || !LockRuntimeIs(files, runtime) || !ValidationRepeats(files, a.command)
      || a.lifetime < 5 || (a.lifetime == 5 && a.torn.None?)
    case FinalizeLock(acknowledged, runtime) =>
      || !acknowledged || !LockRuntimeIs(files, runtime)
      || a.lifetime < 1 || (a.lifetime == 1 && a.torn.None?)
    case RunFinalTest(_, _, _, _, _, _) => true
  }

  /** The parts of a completed directory that its commands look at. */
  ghost predicate Completed(w: World) {
    && Begun(w) && Linked(w.files) && Verifies(w.files, true)
    && BASE + VALIDATION <= w.files.Keys && FinalTestLock in w.files
    && LockLoads(w.files) && HasValidation(w.files) && !Littered(w.files)
    && ArtifactIndex in w.files && w.files[ArtifactIndex].Index? && w.files[ArtifactIndex].stage == Tested
    && IsReportOf(w.files[BenchmarkReport], Tested)
  }

  lemma CompletedIsBegun(w: World)
    requires Inv(w) && VerifiesAt(w.files, Tested)
    ensures Begun(w)
  {
    hide IndexMatches, Linked, SchemasHold;
    assert FinalTestAccess in w.files.Keys;
  }

  lemma ReportIsTested(files: Files)
    requires VerifiesAt(files, Tested) && StageRecorded(files)
    ensures BenchmarkReport in files && IsReportOf(files[BenchmarkReport], Tested)
  {
    hide SchemasHold, FinalLockMatches, CompletionMatches, ResultFilesMatch, RuntimesMatch;
    assert BenchmarkReport in files[ArtifactIndex].artifacts;
  }

  lemma CompletedHas(w: World)
    requires Inv(w) && VerifiesAt(w.files, Tested) && StageRecorded(w.files)
    ensures Completed(w)
  {
    CompletedIsBegun(w);
    BegunHasAll(w);
    BegunIsLinked(w);
    ReportIsTested(w.files);
    hide Inv, Begun, StageRecorded, Linked, LockLoads, HasValidation;
    VerifiedKeys(w.files, Tested);
    hide StageArtifacts, Littered, VerifiesAt, Verifies;
    ListedNamesOnly(w.files, Tested);
    VerifiedIndex(w.files, Tested);
    TestedHas();
  }

  lemma VerifiedIndex(files: Files, stage: Stage)
    requires VerifiesAt(files, stage)
    ensures ArtifactIndex in files && files[ArtifactIndex].Index? && files[ArtifactIndex].stage == stage
    ensures Verifies(files, true)
  {
    hide SchemasHold, FinalLockMatches, CompletionMatches, ResultFilesMatch, RuntimesMatch;
  }

  lemma TestedHas()
    ensures BASE + VALIDATION <= StageArtifacts(Tested)
  {
  }

  lemma PrepareNamesThere(files: Files, c: Command)
    requires c.Prepare? && BASE <= files.Keys
    ensures var script := PrepareScript(c);
            && |script| == 7 && script[5] == Put(BenchmarkReport, Report(Prepared, c.report), false)
            && forall i :: 0 <= i < 6 ==> script[i].Put? && !script[i].replace && script[i].name in files
  {
    assert forall i :: 0 <= i < 6 ==> PrepareScript(c)[i].name in BASE;
  }

  /** Preparing stops at the report of a completed test, if not before. */
  lemma PrepareConflicts(w: World, a: Attempt)
    requires a.command.Prepare? && BASE <= w.files.Keys && !IsReportOf(w.files[BenchmarkReport], Prepared)
    ensures Attempted(w, a).files == w.files
  {
    var c, k := a.command, a.lifetime;
    PrepareNamesThere(w.files, c);
    PrepareAgain(w, c, k);
    var script := PrepareScript(c);
    assert !Holds(w.files, script[5].name, script[5].content);
    hide PrepareScript;
    IdlePuts(w, script, Min(k, 6));
    IdlePuts(w, script, 6);
    assert !Exec(w, script, 6).going;
    assert !DiesWriting(w, script, k);
  }

  lemma ValidationStarts(w: World, c: Command)
    requires c.RunValidation? && LockLoads(w.files) && Verifies(w.files, true)
    ensures Starts(w, c) <==> c.reproduces && LockRuntimeIs(w.files, c.runtime)
  {
    ReproducesDecides(w.files, c.reproduces);
    hide Verifies;
  }

  lemma ValidationNamesThere(files: Files, c: Command)
    requires c.RunValidation? && BASE + VALIDATION <= files.Keys
    ensures var script := ValidationScript(c);
            && |script| == 7 && script[6] == PutIndex(Validated)
            && script[5] == Put(BenchmarkReport, Report(Validated, c.report), true)
            && BenchmarkReport in files
            && forall i :: 0 <= i < 5 ==> script[i].Put? && !script[i].replace && script[i].name in files
  {
    assert BenchmarkReport in BASE;
    assert forall i :: 0 <= i < 5 ==> ValidationScript(c)[i].name in VALIDATION;
  }

  lemma ReproducesDecides(files: Files, reproduces: bool)
    requires Verifies(files, true)
    ensures Verifies(files, reproduces) <==> reproduces
  {
    hide IndexMatches, SchemasHold, FinalLockMatches, CompletionMatches, ResultFilesMatch, RuntimesMatch;
  }

  /** A validation that repeats what is there reaches its report, and replaces it. */
  lemma ReportAndIndex(w: World, script: seq<Effect>, report: Content)
    requires |script| == 7 && script[5] == Put(BenchmarkReport, report, true) && script[6] == PutIndex(Validated)
    requires Exec(w, script, 5) == Progress(w, true) && BenchmarkReport in w.files && !Littered(w.files)
    ensures var reported := w.files[BenchmarkReport := report];
            && Exec(w, script, 6).world.files == reported
            && Exec(w, script, 7).world.files == reported[ArtifactIndex := IndexOf(reported, Validated)]
  {
    hide IndexOf;
    var reported := w.files[BenchmarkReport := report];
    assert Exec(w, script, 6) == Perform(w, script[5]);
    if w.files[BenchmarkReport] == report {
      assert reported == w.files;
    }
    assert reported.Keys == w.files.Keys;
    assert Exec(w, script, 7) == Perform(Exec(w, script, 6).world, script[6]);
  }

  /** Another report under an index that lists the report. */
  lemma ReportChanged(files: Files, report: Content)
    requires VerifiesAt(files, Tested) && StageRecorded(files)
    requires !IsReportOf(report, Tested)
    ensures !Verifies(files[BenchmarkReport := report], true)
  {
    hide SchemasHold, FinalLockMatches, CompletionMatches, ResultFilesMatch, RuntimesMatch;
    var n := BenchmarkReport;
    assert n in files[ArtifactIndex].artifacts && files[ArtifactIndex].artifacts[n] != Sha(report);
  }

  lemma HarmlessValidation(w: World, a: Attempt)
    requires a.command.RunValidation? && Inv(w) && VerifiesAt(w.files, Tested) && StageRecorded(w.files) && Completed(w)
    ensures Harmless(w.files, a) ==> Attempted(w, a).files == w.files
    ensures !Harmless(w.files, a) ==> !Verifies(Attempted(w, a).files, true)
  {
    hide Inv, LockLoads, HasValidation, IndexOf, Verifies, StageRecorded, Linked, Littered, VerifiesAt, Exec, Begun;
    var c, k := a.command, a.lifetime;
    ValidationStarts(w, c);
    ValidationNamesThere(w.files, c);
    hide Starts;
    if Starts(w, c) {
      var script := ValidationScript(c);
      assert Script(w, c) == script;
      hide ValidationScript, Script;
      if ValidationRepeats(w.files, c) {
        RepeatedValidation(w, a, script);
      } else {
        OtherValidation(w, a, script);
      }
    }
  }

  /** A validation with contents other than those there stops at one of them. */
  lemma OtherValidation(w: World, a: Attempt, script: seq<Effect>)
    requires Starts(w, a.command) && script == Script(w, a.command) && |script| == 7
    requires forall i :: 0 <= i < 5 ==> script[i].Put? && !script[i].replace && script[i].name in w.files
    requires exists i :: 0 <= i < 5 && !Holds(w.files, script[i].name, script[i].content)
    ensures Attempted(w, a).files == w.files
  {
    hide Starts, Script;
    var k := a.lifetime;
    IdlePuts(w, script, Min(k, 5));
    IdlePuts(w, script, 5);
    Halts(w, script, 5, if k <= 5 then 5 else Min(k, 7));
    assert !DiesWriting(w, script, k);
  }

  lemma {:induction false} Halts(w: World, script: seq<Effect>, n: nat, m: nat)
    requires n <= m <= |script| && !Exec(w, script, n).going
    ensures Exec(w, script, m) == Exec(w, script, n)
    decreases m
  {
    if n < m {
      Halts(w, script, n, m - 1);
    }
  }

  lemma RepeatedValidation(w: World, a: Attempt, script: seq<Effect>)
    requires a.command.RunValidation? && Starts(w, a.command) && script == Script(w, a.command) && Completed(w)
    requires VerifiesAt(w.files, Tested) && StageRecorded(w.files)
    requires |script| == 7 && script[5] == Put(BenchmarkReport, Report(Validated, a.command.report), true)
    requires script[6] == PutIndex(Validated)
    requires forall i :: 0 <= i < 5 ==> script[i].Put? && !script[i].replace && script[i].name in w.files
    requires forall i :: 0 <= i < 5 ==> Holds(w.files, script[i].name, script[i].content)
    ensures a.lifetime < 5 || (a.lifetime == 5 && a.torn.None?) ==> Attempted(w, a).files == w.files
    ensures a.lifetime > 5 || (a.lifetime == 5 && a.torn.Some?) ==> !Verifies(Attempted(w, a).files, true)
  {
    hide Starts, Script, Verifies, VerifiesAt, StageRecorded, IndexOf, Linked, Begun, LockLoads, HasValidation;
    var k, report := a.lifetime, Report(Validated, a.command.report);
    IdlePuts(w, script, Min(k, 5));
    if k < 5 {
      assert !DiesWriting(w, script, k);
    } else {
      IdlePuts(w, script, 5);
      ReportAndIndex(w, script, report);
      var after := Step(w, a.command, k);
      AttemptIs(w, a);
      if k == 5 {
        assert DiesWriting(w, script, k);
      } else {
        RepeatedFails(w, script, report, k);
      }
      if a.torn.Some? {
        LitterIsLitter(after, a.torn.value);
        LitteredFails(Litter(after, a.torn.value).files, true);
      }
    }
  }

  lemma RepeatedFails(w: World, script: seq<Effect>, report: Content, k: nat)
    requires |script| == 7 && k >= 6 && VerifiesAt(w.files, Tested) && StageRecorded(w.files)
             && !IsReportOf(report, Tested)
    requires var reported := w.files[BenchmarkReport := report];
             && Exec(w, script, 6).world.files == reported
             && Exec(w, script, 7).world.files == reported[ArtifactIndex := IndexOf(reported, Validated)]
    ensures !Verifies(Exec(w, script, Min(k, 7)).world.files, true)
  {
    hide Exec, Verifies, VerifiesAt, StageRecorded, IndexOf;
    var reported := w.files[BenchmarkReport := report];
    ReportChanged(w.files, report);
    VerifiedAtTested(w.files);
    IndexWritten(reported, Validated);
    MisindexedFails(reported[ArtifactIndex := IndexOf(reported, Validated)], true);
  }

  lemma HarmlessLock(w: World, a: Attempt)
    requires a.command.FinalizeLock? && Completed(w)
    ensures Harmless(w.files, a) ==> Attempted(w, a).files == w.files
    ensures !Harmless(w.files, a) ==> !Verifies(Attempted(w, a).files, true)
  {
    hide Inv, LockLoads, HasValidation, IndexOf, Verifies, Linked, Littered, Exec;
    var c, k := a.command, a.lifetime;
    LockAgain(w, c, k);
    hide Starts;
    if Starts(w, c) {
      var script := LockScript(w.files);
      assert Script(w, c) == script && |script| == 2 && script[1] == PutIndex(Locked);
      ExecNothing(w, script);
      var relocked := w.files[ArtifactIndex := IndexOf(w.files, Locked)];
      IndexWritten(w.files, Locked);
      MisindexedFails(relocked, true);
      IndexStage(w.files, Locked);
      if k == 0 {
        LockIsThere(w);
        assert !DiesWriting(w, script, 0);
      } else if k == 1 {
        assert DiesWriting(w, script, 1);
        if a.torn.Some? {
          LitterIsLitter(w, a.torn.value);
          LitteredFails(Litter(w, a.torn.value).files, true);
        }
      } else {
        assert !DiesWriting(w, script, k);
      }
    }
  }

  lemma IndexStage(files: Files, stage: Stage)
    ensures IndexOf(files, stage).Index? && IndexOf(files, stage).stage == stage
  {
  }

  lemma LockIsThere(w: World)
    requires Linked(w.files) && FinalTestLock in w.files && BenchmarkLock in w.files && HasValidation(w.files)
    ensures !Writes(w.files, LockScript(w.files)[0])
  {
    hide Linked;
    LinkAt(w.files, FinalTestLock);
  }

  /** A completed directory verifies after an attempt exactly when the attempt is harmless, and then is unchanged. */
  lemma HarmlessExactly(w: World, a: Attempt)
    requires Inv(w) && VerifiesAt(w.files, Tested) && StageRecorded(w.files)
    ensures Verifies(Attempted(w, a).files, true) <==> Harmless(w.files, a)
    ensures Harmless(w.files, a) ==> Attempted(w, a).files == w.files
  {
    CompletedHas(w);
    hide Inv, VerifiesAt, Verifies, StageRecorded, Step, Tears, ValidationRepeats, Linked, LockLoads, HasValidation;
    match a.command
    case Prepare(_, _, _, _, _, _) => PrepareConflicts(w, a);
    case RunValidation(_, _, _, _, _, _, _, _, _) => HarmlessValidation(w, a);
    case FinalizeLock(_, _) => HarmlessLock(w, a);
    case RunFinalTest(_, _, _, _, _, _) => TestRefused(w, a);
  }

  lemma TestRefused(w: World, a: Attempt)
    requires a.command.RunFinalTest? && FinalTestAccess in w.files
    ensures Attempted(w, a) == w
  {
  }

  /** A completed directory goes on verifying exactly when every attempt made on it is harmless. */
  lemma {:induction false} CompletedStaysVerified(attempts: seq<Attempt>, more: seq<Attempt>)
    requires VerifiesAt(Run(attempts).files, Tested)
    ensures Verifies(Run(attempts + more).files, true) <==>
            forall i :: 0 <= i < |more| ==> Harmless(Run(attempts).files, more[i])
    ensures Verifies(Run(attempts + more).files, true) ==> Run(attempts + more).files == Run(attempts).files
  {
    hide VerifiesAt, Verifies, Attempted, Harmless, Inv, StageRecorded;
    if more == [] {
      assert attempts + more == attempts;
      VerifiedAtTested(Run(attempts).files);
    } else {
      var front, last := more[..|more| - 1], more[|more| - 1];
      CompletedStaysVerified(attempts, front);
      assert (attempts + more)[..|attempts + more| - 1] == attempts + front;
      var w := Run(attempts + front);
      EveryRunIsLinked(attempts + front);
      EveryRunIsStaged(attempts + front);
      assert Run(attempts + more) == Attempted(w, last);
      if Verifies(w.files, true) {
        HarmlessExactly(w, last);
      } else {
        VerifiedAtTested(Run(attempts).files);
        DamagedByThen(attempts, front);
        DamageStays(w, last);
      }
    }
  }

  lemma VerifiedAtTested(files: Files)
    requires VerifiesAt(files, Tested)
    ensures Verifies(files, true) && FinalTestAccess in files
  {
    hide IndexMatches, SchemasHold, FinalLockMatches, CompletionMatches, ResultFilesMatch, RuntimesMatch;
    assert FinalTestAccess in files.Keys;
  }

  lemma DamagedByThen(attempts: seq<Attempt>, front: seq<Attempt>)
    requires FinalTestAccess in Run(attempts).files
    ensures Begun(Run(attempts + front))
  {
    hide Run, Keeps, Begun;
    ArtifactsAreImmutable(attempts, front);
    AccessStays(Run(attempts), Run(attempts + front));
    RunsAreBegun(attempts + front);
  }

  lemma LineageIgnoresIndex(files: Files, index: Content)
    requires AuditLineage(files)
    ensures AuditLineage(files[ArtifactIndex := index])
  {
  }

  lemma CompletedLineage(w: World)
    requires Completed(w)
    ensures AuditLineage(w.files)
  {
    hide IndexMatches, SchemasHold, Linked, LinkOk, Littered;
    LinkAt(w.files, FinalTestAccess);
    AccessIsLinked(w.files);
  }

  /** Locking once more after a completed test fails verification, while the audit's comparisons still hold. */
  lemma LockingAgainUnverifies(w: World, runtime: int, reproduces: bool)
    requires Inv(w) && VerifiesAt(w.files, Tested) && StageRecorded(w.files)
    requires LockRuntimeIs(w.files, runtime)
    ensures var lock := FinalizeLock(true, runtime);
            && Starts(w, lock)
            && !Verifies(Step(w, lock, 2).files, reproduces)
            && AuditLineage(w.files) && AuditLineage(Step(w, lock, 2).files)
  {
    CompletedHas(w);
    CompletedLineage(w);
    hide Inv, VerifiesAt, Verifies, StageRecorded, Linked, Littered, IndexOf, AuditLineage, Step, LockLoads,
      HasValidation, Begun;
    LockAgain(w, FinalizeLock(true, runtime), 2);
    hide Starts;
    LineageIgnoresIndex(w.files, IndexOf(w.files, Locked));
    IndexWritten(w.files, Locked);
    VerifiedAtTested(w.files);
    MisindexedFails(Step(w, FinalizeLock(true, runtime), 2).files, reproduces);
  }

  /** The validation that produced a directory's validation artifacts, with any report. */
  function Repeated(files: Files, report: int): Command
    requires HasValidation(files) && Loads(files)
  {
    RunValidation(files[ValidationResults].data, files[ClassificationBaselines].data, files[StrategyBaselines].data,
                  files[SelectedModelManifest].model, files[SelectedModelManifest].data, files[FinalTestReadiness].data,
                  report, files[BenchmarkLock].runtime, true)
  }

  /** The lock and the plain validation artifacts satisfy their schemas. */
  predicate Loads(files: Files) {
    && BenchmarkLock in files && files[BenchmarkLock].Lock?
    && VALIDATION <= files.Keys
    && files[ValidationResults].Plain? && files[ClassificationBaselines].Plain? && files[StrategyBaselines].Plain?
    && files[FinalTestReadiness].Plain?
  }

  /** So does validating again: every completed directory has a validation that starts on it and fails it. */
  lemma ValidatingAgainUnverifies(w: World, report: int)
    requires Inv(w) && VerifiesAt(w.files, Tested) && StageRecorded(w.files)
    ensures HasValidation(w.files) && Loads(w.files)
    ensures var c := Repeated(w.files, report);
            && Starts(w, c)
            && !Verifies(Step(w, c, 7).files, true)
  {
    CompletedHas(w);
    hide VerifiesAt, Verifies, StageRecorded, Linked, Littered, Step, Begun, Inv;
    ValidationIsPlain(w);
    hide LockLoads, HasValidation, Starts;
    var c := Repeated(w.files, report);
    ValidationStarts(w, c);
    RepeatedRepeats(w, report);
    var a := Attempt(c, 7, None);
    AttemptIs(w, a);
    hide Repeated, ValidationRepeats, Loads, Attempted;
    HarmlessExactly(w, a);
  }

  lemma ValidationIsPlain(w: World)
    requires Completed(w)
    ensures Loads(w.files)
  {
    hide Linked, Littered, Verifies, Begun, LinkOk;
    assert ValidationResults in VALIDATION && ClassificationBaselines in VALIDATION && StrategyBaselines in VALIDATION
        && FinalTestReadiness in VALIDATION;
    LinkAt(w.files, ValidationResults);
    LinkAt(w.files, ClassificationBaselines);
    LinkAt(w.files, StrategyBaselines);
    LinkAt(w.files, FinalTestReadiness);
    PlainWhenLinked(w.files, ValidationResults);
    PlainWhenLinked(w.files, ClassificationBaselines);
    PlainWhenLinked(w.files, StrategyBaselines);
    PlainWhenLinked(w.files, FinalTestReadiness);
  }

  lemma PlainWhenLinked(files: Files, n: Name)
    requires n in files && LinkOk(files, n, files[n])
    requires n.ValidationResults? || n.ClassificationBaselines? || n.StrategyBaselines? || n.FinalTestReadiness?
    ensures files[n].Plain?
  {
  }

  lemma RepeatedRepeats(w: World, report: int)
    requires Linked(w.files) && HasValidation(w.files) && Loads(w.files)
    ensures ValidationRepeats(w.files, Repeated(w.files, report))
  {
    hide Linked;
    LinkAt(w.files, SelectedModelManifest);
    var c := Repeated(w.files, report);
    forall i | 0 <= i < 5 ensures Holds(w.files, ValidationScript(c)[i].name, ValidationScript(c)[i].content) {
    }
  }

  // ---------------------------------------------------------------- locking, at any stage

  lemma NewLockKeys(w: World, runtime: int)
    requires Linked(w.files) && Starts(w, FinalizeLock(true, runtime)) && !Littered(w.files)
    ensures var after := Step(w, FinalizeLock(true, runtime), 2).files;
            && after.Keys == w.files.Keys + {FinalTestLock, ArtifactIndex}
            && IndexMatches(after) && after[ArtifactIndex].stage == Locked
  {
    hide Linked, IndexOf, IndexMatches;
    var script := LockScript(w.files);
    if FinalTestLock in w.files {
      LinkAt(w.files, FinalTestLock);
    }
    assert Exec(w, script, 0) == Progress(w, true);
    var locked := Exec(w, script, 1).world.files;
    assert Exec(w, script, 1).going && locked.Keys == w.files.Keys + {FinalTestLock};
    assert !Littered(locked);
    IndexOfMatches(locked, Locked);
  }

  /**
   Locking leads to a directory that verifies exactly when preparation is complete, no artifact of the final test is
   there, and no temporary file.
   */
  lemma LockVerifiesExactly(w: World, runtime: int)
    requires Inv(w) && Starts(w, FinalizeLock(true, runtime))
    ensures Verifies(Step(w, FinalizeLock(true, runtime), 2).files, true) <==>
            BASE - {ArtifactIndex} <= w.files.Keys && COMPLETED !! w.files.Keys && !Littered(w.files)
    ensures Verifies(Step(w, FinalizeLock(true, runtime), 2).files, true) ==>
            VerifiesAt(Step(w, FinalizeLock(true, runtime), 2).files, Locked)
  {
    hide Linked, IndexMatches, SchemasHold, Step, Starts, LinkOk, Verifies, Littered;
    var lock := FinalizeLock(true, runtime);
    var after := Step(w, lock, 2).files;
    if Littered(w.files) {
      var a := Attempt(lock, 2, None);
      AttemptIs(w, a);
      LitteredStays(w, a);
      LitteredFails(after, true);
    } else {
      NewLockKeys(w, runtime);
      StepKeepsInv(w, lock, 2);
      StartedValidated(w, runtime);
      NotTemporary(w.files);
      LockedKeys(w.files.Keys, after.Keys);
      if after.Keys == StageArtifacts(Locked) {
        StageVerifies(after, Locked);
      }
      if Verifies(after, true) {
        VerifiedKeys(after, Locked);
      }
    }
  }

  lemma StartedValidated(w: World, runtime: int)
    requires Starts(w, FinalizeLock(true, runtime))
    ensures VALIDATION <= w.files.Keys
  {
  }

  lemma NotTemporary(files: Files)
    requires !Littered(files)
    ensures forall n :: n in files.Keys ==> !n.Temporary?
  {
  }

  lemma EveryName()
    ensures forall n: Name :: n in BASE + VALIDATION + {FinalTestLock} + COMPLETED || n.Temporary?
  {
    forall n: Name ensures n in BASE + VALIDATION + {FinalTestLock} + COMPLETED || n.Temporary? {
      assert || n.FeedAvailability? || n.DatasetEligibility? || n.SplitManifest? || n.BenchmarkLock?
             || n.BenchmarkLockSum? || n.BenchmarkReport? || n.ArtifactIndex? || n.ValidationResults?
             || n.ClassificationBaselines? || n.StrategyBaselines? || n.SelectedModelManifest?
             || n.FinalTestReadiness? || n.FinalTestLock? || n.FinalTestAccess? || n.FinalTestResults?
             || n.CostSensitivity? || n.RegimeResults? || n.BacktestResults? || n.FinalTestCompletion? || n.Temporary?;
    }
  }

  lemma LockedKeys(before: set<Name>, after: set<Name>)
    requires after == before + {FinalTestLock, ArtifactIndex} && VALIDATION <= before
    requires forall n :: n in before ==> !n.Temporary?
    ensures after == StageArtifacts(Locked) <==> BASE - {ArtifactIndex} <= before && COMPLETED !! before
  {
    hide StageArtifacts;
    if BASE - {ArtifactIndex} <= before && COMPLETED !! before {
      AllLocked(before, after);
    }
    if after == StageArtifacts(Locked) {
      OnlyLocked(before, after);
    }
  }

  lemma OnlyLocked(before: set<Name>, after: set<Name>)
    requires after == before + {FinalTestLock, ArtifactIndex} && after == StageArtifacts(Locked)
    ensures BASE - {ArtifactIndex} <= before && COMPLETED !! before
  {
    TestAddsCompleted();
    forall n | n in BASE - {ArtifactIndex} ensures n in before {
      assert n in StageArtifacts(Locked) && n != FinalTestLock;
    }
  }

  lemma AllLocked(before: set<Name>, after: set<Name>)
    requires after == before + {FinalTestLock, ArtifactIndex} && VALIDATION <= before
    requires forall n :: n in before ==> !n.Temporary?
    requires BASE - {ArtifactIndex} <= before && COMPLETED !! before
    ensures after == StageArtifacts(Locked)
  {
    EveryName();
    forall n ensures n in after <==> n in StageArtifacts(Locked) {
      assert n in BASE + VALIDATION + {FinalTestLock} + COMPLETED || n.Temporary?;
    }
  }
}
