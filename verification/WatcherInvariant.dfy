/**
 What every reachable state of the watcher satisfies, whatever crashes there
 were. From it: no defensive check ever fails.
 */
module WatcherInvariant {
  import opened Wrappers
  import opened ImportOutput
  import opened FrozenMints
  import opened Selection
  import opened Watcher

  // ------------------------------------------------------------ the journal

  predicate ActiveOk(j: Journal) {
    var a := j.active;
    && (a.phase == Ready || a.phase == IncrementalLoading || a.phase == CutoverPending)
    && a.maxSlot.Some?
    && (a.inflight.Some? <==> a.phase == IncrementalLoading)
    && (a.inflight == Some(FullKind) <==> j.shared.Some?)
  }

  predicate StagingOk(j: Journal) {
    var l := j.staging;
    && l.phase != WaitingForFull
    && (Committed(l) ==> l.maxSlot.Some?)
    && l.inflight == (if l.phase == IncrementalLoading then Some(IncrementalKind) else None)
    && (l.phase != Disabled ==>
          && l.full.Some? && l.mintsPath.Some?
          && (j.active.full.Some? ==> l.full.value.slot > j.active.full.value.slot))
  }

  /** The checkpoints bind the two lanes together. */
  predicate CheckpointsOk(j: Journal) {
    && (j.shared.Some? <==> j.staging.phase == FullLoading)
    && (j.shared.Some? ==>
          && j.staging.full == Some(j.shared.value.snapshot)
          && j.active.phase == IncrementalLoading
          && j.active.maxSlot == Some(j.shared.value.resumeSlot))
    && (j.active.phase == CutoverPending <==> j.staging.phase == CutoverPending)
    && (j.cutover.Some? ==> j.active.phase == CutoverPending)
  }

  predicate JournalOk(j: Journal) { ActiveOk(j) && StagingOk(j) && CheckpointsOk(j) }

  /** A lane that is not disabled names a mint file that exists and can be read. */
  predicate LaneFileOk(l: Lane, files: map<Path, FileText>) {
    l.phase != Disabled && l.mintsPath.Some? ==> l.mintsPath.value in files && Load(files[l.mintsPath.value]).Ok?
  }

  predicate FilesOk(j: Journal, files: map<Path, FileText>) { LaneFileOk(j.active, files) && LaneFileOk(j.staging, files) }

  // ------------------------------------------------------------- the tables

  predicate AllDifferent(active: seq<Uuid>, backup: seq<Uuid>) {
    && (forall i, k :: 0 <= i < |active| && 0 <= k < |backup| ==> active[i] != backup[k])
    && (forall i, k :: 0 <= i < k < |active| ==> active[i] != active[k])
    && (forall i, k :: 0 <= i < k < |backup| ==> backup[i] != backup[k])
  }

  /** Every pair of tables is as it was at the checkpoint or exchanged, never anything else. */
  predicate PairsKnown(c: Checkpoint, active: seq<Uuid>, backup: seq<Uuid>) {
    && IsGroup(c.activeTables) && IsGroup(c.stagingTables) && IsGroup(active) && IsGroup(backup)
    && (forall i: nat :: i < GROUP_SIZE ==> c.activeTables[i] != c.stagingTables[i])
    && (forall i: nat :: i < GROUP_SIZE ==> PairOriginal(c, active, backup, i) || PairSwapped(c, active, backup, i))
  }

  predicate TablesOk(active: seq<Uuid>, backup: seq<Uuid>, cutover: Option<Checkpoint>) {
    && IsGroup(active) && IsGroup(backup) && AllDifferent(active, backup)
    && (cutover.Some? ==> PairsKnown(cutover.value, active, backup))
  }

  // ------------------------------------------------------------- the memory

  predicate ActiveKnown(j: Journal, files: map<Path, FileText>, m: Memory) {
    && j.active.maxSlot == Some(m.activeSlot)
    && j.active.mintsPath.Some? && j.active.mintsPath.value in files && Load(files[j.active.mintsPath.value]) == Ok(m.activeMints)
  }

  predicate StagingKnown(j: Journal, files: map<Path, FileText>, m: Memory) {
    j.staging.phase != Disabled ==>
      && j.staging.mintsPath.Some? && j.staging.mintsPath.value in files && m.stagingMints.Some?
      && Load(files[j.staging.mintsPath.value]) == Ok(m.stagingMints.value)
  }

  predicate NoWork(m: Memory) { m.build.None? && m.worker.None? }

  /** Background work belongs to the staging phase that started it. */
  predicate WorkOk(j: Journal, m: Memory) {
    && (m.build.Some? ==> j.staging.phase == FullMerging && j.staging.full == Some(m.build.value.snapshot))
    && (m.worker.Some? ==>
          && j.staging.phase == IncrementalLoading
          && j.staging.maxSlot == Some(m.worker.value.resume)
          && m.worker.value.archive.IncrementalArchive? && m.worker.value.archive.Fits(m.worker.value.resume))
  }

  predicate Fresh(j: Journal, files: map<Path, FileText>, snapshot: Archive, m: Memory) {
    && j.staging.phase == Disabled && j.active.phase == Ready && NoWork(m)
    && snapshot.FullArchive? && (j.active.full.Some? ==> snapshot.slot > j.active.full.value.slot)
  }

  /** In an attempt at the exchange, the pairs done are swapped and the others are as they were read. */
  predicate ExchangeOk(c: Checkpoint, active: seq<Uuid>, backup: seq<Uuid>, next: nat, activeNow: seq<Uuid>, backupNow: seq<Uuid>) {
    && PairsKnown(c, active, backup) && PairsKnown(c, activeNow, backupNow) && next <= GROUP_SIZE
    && (forall i: nat :: i < next ==> PairSwapped(c, active, backup, i))
    && (forall i: nat :: next <= i < GROUP_SIZE ==> active[i] == activeNow[i] && backup[i] == backupNow[i])
  }

  predicate Running(j: Journal, files: map<Path, FileText>, m: Memory) {
    ActiveKnown(j, files, m) && StagingKnown(j, files, m) && WorkOk(j, m)
  }

  predicate PcOk(s: Sys, j: Journal, pc: Pc, m: Memory) {
    match pc
    case Starting => NoWork(m)
    case Loaded => NoWork(m)
    case Cleared => NoWork(m)
    case Clean => NoWork(m)
    case ActiveFrozen(path, mints) =>
      NoWork(m) && j.active.maxSlot == Some(m.activeSlot) && j.active.mintsPath.None?
      && path in s.files && Load(s.files[path]) == Ok(mints)
    case ActiveLoaded => NoWork(m) && ActiveKnown(j, s.files, m)
    case JoiningBuild => Running(j, s.files, m) && (!NoWork(m) ==> j.active.phase == Ready)
    case JoiningWorker => Running(j, s.files, m) && (!NoWork(m) ==> j.active.phase == Ready)
    case Deciding => Running(j, s.files, m) && (!NoWork(m) ==> j.active.phase == Ready)
    case FreezingStaging(snapshot) => Running(j, s.files, m) && Fresh(j, s.files, snapshot, m)
    case StagingFrozen(snapshot, path, mints) =>
      Running(j, s.files, m) && Fresh(j, s.files, snapshot, m) && path in s.files && Load(s.files[path]) == Ok(mints)
    case SharedJournaled => Running(j, s.files, m) && j.shared.Some? && NoWork(m)
    case PreparingShared(_) => Running(j, s.files, m) && j.shared.Some? && NoWork(m)
    case SharedPrepared(_) => Running(j, s.files, m) && j.shared.Some? && NoWork(m)
    case FanningOut => Running(j, s.files, m) && j.shared.Some? && NoWork(m)
    case Selected(a) => Running(j, s.files, m) && a.IncrementalArchive? && j.active.phase == Ready
    case Importing(a) =>
      Running(j, s.files, m) && a.IncrementalArchive? && a.Fits(m.activeSlot) && j.active.inflight == Some(IncrementalKind)
    case CheckingCutover => Running(j, s.files, m) && j.active.phase == CutoverPending && NoWork(m)
    case Exchanging(next, activeNow, backupNow) =>
      Running(j, s.files, m) && j.active.phase == CutoverPending && NoWork(m) && j.cutover.Some?
      && ExchangeOk(j.cutover.value, s.active, s.backup, next, activeNow, backupNow)
    case Promoted =>
      j.active.phase == Ready && j.staging.phase == Disabled && NoWork(m)
      && j.active.mintsPath.Some? && j.active.mintsPath.value in s.files && Load(s.files[j.active.mintsPath.value]) == Ok(m.activeMints)
  }

  predicate ProcOk(s: Sys) {
    match s.proc
    case Down => true
    case Up(pc, m) => if s.journal.None? then pc == Starting && NoWork(m) else PcOk(s, s.journal.value, pc, m)
  }

  predicate Inv(s: Sys) {
    && TablesOk(s.active, s.backup, if s.journal.Some? then s.journal.value.cutover else None) && ProcOk(s)
    && (s.journal.Some? ==> JournalOk(s.journal.value) && FilesOk(s.journal.value, s.files))
  }

  /** A step keeps the invariant, or does not happen; it never fails a check or leaves the protocol. */
  predicate Safe(o: Outcome) {
    match o
    case To(t) => Inv(t)
    case NotEnabled => true
    case Defensive(_) => false
    case Legacy => false
  }

  // ------------------------------------------------------------------ boot

  ghost predicate At(s: Sys, j: Journal, pc: Pc, m: Memory) { Inv(s) && s.journal == Some(j) && s.proc == Up(pc, m) }

  lemma StartSafe(s: Sys, m: Memory, resume: nat)
    requires Inv(s) && s.proc == Up(Starting, m)
    ensures Safe(StartStep(s, m, resume))
  {
  }

  lemma ClearDisabledSafe(s: Sys, j: Journal, m: Memory)
    requires At(s, j, Loaded, m)
    ensures Safe(ClearDisabledStep(s, j, m))
  {
    hide TablesOk, ExchangeOk;
  }

  lemma CleanupSafe(s: Sys, j: Journal, pc: Pc, m: Memory, survivors: set<Path>)
    requires At(s, j, pc, m)
    ensures Safe(CleanupStep(s, j, pc, m, survivors))
  {
    hide TablesOk, ExchangeOk;
  }

  lemma LoadActiveSafe(s: Sys, j: Journal, m: Memory)
    requires At(s, j, Clean, m)
    ensures Safe(LoadActiveStep(s, j, m))
  {
    hide TablesOk, ExchangeOk;
  }

  lemma FreezeActiveSafe(s: Sys, j: Journal, m: Memory, path: Path, order: seq<Pubkey>)
    requires At(s, j, Clean, m) && Usable(SetOf(order))
    ensures Safe(FreezeActiveStep(s, j, m, path, order))
  {
    hide TablesOk, ExchangeOk, Load, Written, Usable;
    RoundTripIff(order);
  }

  lemma PersistActiveSafe(s: Sys, j: Journal, m: Memory, path: Path, mints: Mints)
    requires At(s, j, ActiveFrozen(path, mints), m)
    ensures Safe(PersistActiveStep(s, j, m, path, mints))
  {
    hide TablesOk, ExchangeOk;
  }

  lemma LoadStagingSafe(s: Sys, j: Journal, m: Memory)
    requires At(s, j, ActiveLoaded, m)
    ensures Safe(LoadStagingStep(s, j, m))
  {
    hide TablesOk, ExchangeOk;
  }

  // ------------------------------------------------------------------ loop

  lemma JoinBuildSafe(s: Sys, j: Journal, m: Memory)
    requires At(s, j, JoiningBuild, m)
    ensures Safe(JoinBuildStep(s, j, m))
  {
    hide TablesOk, ExchangeOk;
  }

  lemma JoinWorkerSafe(s: Sys, j: Journal, m: Memory)
    requires At(s, j, JoiningWorker, m)
    ensures Safe(JoinWorkerStep(s, j, m))
  {
    hide TablesOk, ExchangeOk;
  }

  lemma ResumeActiveSafe(s: Sys, j: Journal, m: Memory, fulls: seq<Archive>, incrementals: seq<Archive>)
    requires At(s, j, Deciding, m) && IsListing(fulls, incrementals)
    requires j.active.phase == IncrementalLoading && j.shared.None?
    ensures Safe(ResumeActive(s, j, m, incrementals))
  {
    hide TablesOk, ExchangeOk, NewestEligible;
    NewestEligibleIsBest(incrementals, m.activeSlot);
  }

  lemma DecideIncrementalSafe(s: Sys, j: Journal, m: Memory, m': Memory, fulls: seq<Archive>, incrementals: seq<Archive>)
    requires At(s, j, Deciding, m) && IsListing(fulls, incrementals) && j.active.phase == Ready && j.shared.None?
    requires Running(j, s.files, m')
    ensures Safe(DecideIncremental(s, j, m', incrementals))
  {
    hide TablesOk, ExchangeOk, NewestEligible, Quiet, Steady, Mild, Load;
    NewestEligibleIsBest(incrementals, m'.activeSlot);
    if j.staging.maxSlot.Some? {
      NewestEligibleIsBest(incrementals, j.staging.maxSlot.value);
    }
  }

  lemma DecideNewSafe(s: Sys, j: Journal, m: Memory, m': Memory, fulls: seq<Archive>, incrementals: seq<Archive>)
    requires At(s, j, Deciding, m) && IsListing(fulls, incrementals) && j.active.phase == Ready && j.shared.None?
    requires Running(j, s.files, m')
    ensures Safe(DecideNew(s, j, m', fulls, incrementals))
  {
    hide TablesOk, ExchangeOk, NewestGeneration, DecideIncremental;
    NewestGenerationIsBest(fulls, ActiveFullSlot(j));
    DecideIncrementalSafe(s, j, m, m', fulls, incrementals);
  }

  lemma DecideStagingSafe(s: Sys, j: Journal, m: Memory, fulls: seq<Archive>, incrementals: seq<Archive>)
    requires At(s, j, Deciding, m) && IsListing(fulls, incrementals) && j.active.phase == Ready && j.shared.None?
    ensures Safe(DecideStaging(s, j, m, fulls, incrementals))
  {
    hide TablesOk, ExchangeOk, NewestEligible, DecideNew;
    if j.staging.maxSlot.Some? {
      NewestEligibleIsBest(incrementals, j.staging.maxSlot.value);
    }
    if j.staging.phase == FullMerging && m.build.None? {
      DecideNewSafe(s, j, m, m.(build := Some(Build(j.staging.full.value, None))), fulls, incrementals);
    } else if j.staging.phase == IncrementalLoading && m.worker.None? {
      var a := NewestEligible(incrementals, j.staging.maxSlot.value);
      if a.Some? {
        DecideNewSafe(s, j, m, m.(worker := Some(StagingWorker(a.value, j.staging.maxSlot.value, None))), fulls, incrementals);
      }
    } else {
      DecideNewSafe(s, j, m, m, fulls, incrementals);
    }
  }

  /** A cutover or a shared load under way is taken up again. */
  lemma DecideResumeSafe(s: Sys, j: Journal, m: Memory, fulls: seq<Archive>, incrementals: seq<Archive>)
    requires At(s, j, Deciding, m) && (j.shared.Some? || j.active.phase == CutoverPending)
    ensures Safe(DecideStep(s, j, m, fulls, incrementals))
  {
    hide TablesOk, ExchangeOk, ResumeActive, DecideStaging, Quiet, Steady, Mild, Load, IsListing;
  }

  lemma DecidePhases(s: Sys, j: Journal, m: Memory)
    requires At(s, j, Deciding, m) && j.shared.None? && j.active.phase != CutoverPending
    ensures j.active.phase == IncrementalLoading || j.active.phase == Ready
  {
    hide TablesOk, ExchangeOk, ProcOk, FilesOk;
  }

  lemma DecideSafe(s: Sys, j: Journal, m: Memory, fulls: seq<Archive>, incrementals: seq<Archive>)
    requires At(s, j, Deciding, m)
    ensures Safe(DecideStep(s, j, m, fulls, incrementals))
  {
    hide Inv, ResumeActive, DecideStaging, Quiet, Steady, Mild;
    if j.shared.Some? || j.active.phase == CutoverPending {
      DecideResumeSafe(s, j, m, fulls, incrementals);
    } else {
      DecidePhases(s, j, m);
      if IsListing(fulls, incrementals) {
        if j.active.phase == IncrementalLoading {
          ResumeActiveSafe(s, j, m, fulls, incrementals);
        } else {
          DecideStagingSafe(s, j, m, fulls, incrementals);
        }
      }
    }
  }

  lemma ApplySelectedSafe(s: Sys, j: Journal, m: Memory, a: Archive)
    requires At(s, j, Selected(a), m)
    ensures Safe(ApplySelectedStep(s, j, m, a))
  {
    hide TablesOk, ExchangeOk;
  }

  lemma ImportDoneSafe(s: Sys, j: Journal, m: Memory, a: Archive)
    requires At(s, j, Importing(a), m)
    ensures Safe(ImportDoneStep(s, j, m, a))
  {
    hide TablesOk, ExchangeOk;
  }

  // ---------------------------------------------------------- shared full load

  lemma FreezeStagingSafe(s: Sys, j: Journal, m: Memory, snapshot: Archive, path: Path, order: seq<Pubkey>)
    requires At(s, j, FreezingStaging(snapshot), m) && Usable(SetOf(order))
    ensures Safe(FreezeStagingStep(s, m, snapshot, path, order))
  {
    hide TablesOk, ExchangeOk, Load, Written, Usable;
    RoundTripIff(order);
  }

  lemma PersistSharedSafe(s: Sys, j: Journal, m: Memory, snapshot: Archive, path: Path, mints: Mints)
    requires At(s, j, StagingFrozen(snapshot, path, mints), m)
    ensures Safe(PersistSharedStep(s, j, m, snapshot, path, mints))
  {
    hide PairsKnown, AllDifferent;
  }

  lemma EnterFanoutSafe(s: Sys, j: Journal, m: Memory, fulls: seq<Archive>)
    requires At(s, j, SharedPrepared(fulls), m)
    ensures Safe(EnterFanoutStep(s, j, m, fulls))
  {
    hide TablesOk, ExchangeOk, Load;
  }

  lemma SharedStepsSafe(s: Sys, j: Journal, m: Memory, fulls: seq<Archive>, ok: bool)
    requires Inv(s) && s.journal == Some(j)
    ensures s.proc == Up(PreparingShared(fulls), m) ==> Safe(PrepareSharedStep(s, m, fulls, ok))
    ensures s.proc == Up(SharedPrepared(fulls), m) ==> Safe(EnterFanoutStep(s, j, m, fulls))
    ensures s.proc == Up(FanningOut, m) ==> Safe(Go(s, JoiningBuild, m))
  {
    hide TablesOk, ExchangeOk, Running, EnterFanoutStep, JournalOk, FilesOk;
    if s.proc == Up(SharedPrepared(fulls), m) {
      EnterFanoutSafe(s, j, m, fulls);
    }
  }

  lemma RebuildDerivedSafe(s: Sys, j: Journal, m: Memory, index: nat, uuid: Uuid)
    requires At(s, j, FanningOut, m)
    ensures Safe(RebuildDerivedStep(s, m, index, uuid))
  {
  }

  lemma FanoutDoneSafe(s: Sys, j: Journal, m: Memory, spawned: bool)
    requires At(s, j, FanningOut, m)
    ensures Safe(FanoutDoneStep(s, j, m, spawned))
  {
    hide PairsKnown, AllDifferent;
  }

  // ---------------------------------------------------------------- cutover

  /** The recorded identities, or those recorded now, start an attempt at the exchange. */
  lemma CheckpointTables(active: seq<Uuid>, backup: seq<Uuid>, cutover: Option<Checkpoint>)
    requires TablesOk(active, backup, cutover)
    ensures var c := if cutover.Some? then cutover.value else Checkpoint(active, backup);
      TablesOk(active, backup, Some(c)) && ExchangeOk(c, active, backup, 0, active, backup)
  {
  }

  lemma CheckpointJournal(j: Journal, files: map<Path, FileText>, m: Memory, c: Checkpoint)
    requires JournalOk(j) && FilesOk(j, files) && Running(j, files, m) && j.active.phase == CutoverPending
    ensures var k := j.(cutover := Some(c)); JournalOk(k) && FilesOk(k, files) && Running(k, files, m)
    ensures j.staging.maxSlot.Some?
  {
    hide Load;
  }

  lemma CheckCutoverSafe(s: Sys, j: Journal, m: Memory)
    requires At(s, j, CheckingCutover, m)
    ensures Safe(CheckCutoverStep(s, j, m))
  {
    hide TablesOk, ExchangeOk, JournalOk, FilesOk, Running;
    var c := if j.cutover.Some? then j.cutover.value else Checkpoint(s.active, s.backup);
    CheckpointTables(s.active, s.backup, j.cutover);
    CheckpointJournal(j, s.files, m, c);
  }

  /** Exchanging an original pair swaps it and leaves the others alone. */
  lemma ExchangeKeeps(c: Checkpoint, active: seq<Uuid>, backup: seq<Uuid>, i: nat, activeNow: seq<Uuid>, backupNow: seq<Uuid>)
    requires TablesOk(active, backup, Some(c)) && ExchangeOk(c, active, backup, i, activeNow, backupNow)
    requires i < GROUP_SIZE && PairOriginal(c, activeNow, backupNow, i)
    ensures var active', backup' := active[i := backup[i]], backup[i := active[i]];
      TablesOk(active', backup', Some(c)) && ExchangeOk(c, active', backup', i + 1, activeNow, backupNow)
  {
    var active', backup' := active[i := backup[i]], backup[i := active[i]];
    assert PairSwapped(c, active', backup', i);
    forall k: nat | k < GROUP_SIZE && k != i
      ensures PairOriginal(c, active', backup', k) <==> PairOriginal(c, active, backup, k)
      ensures PairSwapped(c, active', backup', k) <==> PairSwapped(c, active, backup, k) {
    }
  }

  /** The error that a cutover cannot be resumed is never met. */
  lemma ExchangePairSafe(s: Sys, j: Journal, m: Memory, i: nat, activeNow: seq<Uuid>, backupNow: seq<Uuid>)
    requires At(s, j, Exchanging(i, activeNow, backupNow), m)
    ensures Safe(ExchangePairStep(s, j, m, i, activeNow, backupNow))
  {
    hide AllDifferent;
    if i < GROUP_SIZE && PairOriginal(j.cutover.value, activeNow, backupNow, i) {
      ExchangeKeeps(j.cutover.value, s.active, s.backup, i, activeNow, backupNow);
    }
  }

  lemma PromoteSafe(s: Sys, j: Journal, m: Memory, i: nat, activeNow: seq<Uuid>, backupNow: seq<Uuid>)
    requires At(s, j, Exchanging(i, activeNow, backupNow), m)
    ensures Safe(PromoteStep(s, j, m))
  {
    hide PairsKnown, AllDifferent;
  }
}
