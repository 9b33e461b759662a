/**
 The double-buffer watcher as a state machine. What survives a crash is the
 journal, the frozen mint files and the table identities; everything a process
 holds in memory is lost. One event is one step between two points at which a
 crash could be observed; persisting the journal is atomic.
 */
module Watcher {
  import opened Wrappers
  import opened ImportOutput
  import opened FrozenMints
  import opened Selection

  type Uuid = nat

  /** The tables of a group, in the order of exchange. */
  const GROUP_SIZE: nat := 6
  const HOT_STATE: nat := 3
  const HOT_INFO: nat := 4
  const BALANCES: nat := 5

  // --------------------------------------------------------------- journal

  datatype Phase = Disabled | WaitingForFull | FullLoading | FullMerging | Ready | IncrementalLoading | CutoverPending
  datatype Kind = FullKind | IncrementalKind
  datatype Lane = Lane(phase: Phase, full: Option<Archive>, maxSlot: Option<nat>, mintsPath: Option<Path>, inflight: Option<Kind>)
  datatype Checkpoint = Checkpoint(activeTables: seq<Uuid>, stagingTables: seq<Uuid>)
  datatype SharedLoad = SharedLoad(snapshot: Archive, resumeSlot: nat)
  datatype Journal = Journal(active: Lane, staging: Lane, cutover: Option<Checkpoint>, shared: Option<SharedLoad>)

  const DisabledLane := Lane(Disabled, None, None, None, None)

  function RecoveredActiveOnly(resume: nat): Journal {
    Journal(Lane(Ready, None, Some(resume), None, None), DisabledLane, None, None)
  }

  function KindOf(a: Archive): Kind { if a.FullArchive? then FullKind else IncrementalKind }

  // --------------------------------------------------------------- process

  /** Waits for the merges of a committed staging full. */
  datatype Build = Build(snapshot: Archive, finished: Option<bool>)
  /** Imports the first incremental into staging. */
  datatype StagingWorker = StagingWorker(archive: Archive, resume: nat, finished: Option<bool>)

  datatype Memory = Memory(
    activeSlot: nat, activeMints: Mints, stagingMints: Option<Mints>, build: Option<Build>, worker: Option<StagingWorker>)

  datatype Pc =
    | Starting | Loaded | Cleared | Clean | ActiveFrozen(path: Path, mints: Mints) | ActiveLoaded
    | JoiningBuild | JoiningWorker | Deciding
    | FreezingStaging(snapshot: Archive) | StagingFrozen(snapshot: Archive, path: Path, mints: Mints) | SharedJournaled
    | PreparingShared(fulls: seq<Archive>) | SharedPrepared(fulls: seq<Archive>) | FanningOut
    | Selected(archive: Archive) | Importing(archive: Archive)
    | CheckingCutover | Exchanging(next: nat, activeNow: seq<Uuid>, backupNow: seq<Uuid>) | Promoted

  datatype Proc = Down | Up(pc: Pc, memory: Memory)

  datatype Sys = Sys(journal: Option<Journal>, files: map<Path, FileText>, active: seq<Uuid>, backup: seq<Uuid>, proc: Proc)

  datatype Event =
    | Crash | Boot | Start(resume: nat) | ClearDisabled | Cleanup(survivors: set<Path>)
    | LoadActive | FreezeActive(path: Path, order: seq<Pubkey>) | PersistActive | LoadStaging
    | BuildFinishes(ok: bool) | WorkerFinishes(ok: bool) | JoinBuild | JoinWorker
    | Decide(fulls: seq<Archive>, incrementals: seq<Archive>)
    | FreezeStaging(path: Path, order: seq<Pubkey>) | PersistShared
    | PrepareShared(ok: bool) | EnterFanout | RebuildDerived(index: nat, uuid: Uuid) | FanoutDone(spawned: bool) | FanoutFails
    | ApplySelected | ImportDone
    | CheckCutover | ExchangePair | Promote

  /** A step leads on, cannot happen now, meets a check that should never fail, or leaves this protocol. */
  datatype Outcome = To(sys: Sys) | NotEnabled | Defensive(reason: string) | Legacy

  /** The step touches no file, no table and no checkpoint of a cutover, and makes no cutover pending. */
  predicate Quiet(s: Sys, j: Journal, o: Outcome) {
    s.journal == Some(j) && o.To? ==>
      && o.sys.files == s.files && o.sys.active == s.active && o.sys.backup == s.backup
      && o.sys.journal.Some? && o.sys.journal.value.cutover == j.cutover
      && (j.active.phase != CutoverPending ==> o.sys.journal.value.active.phase != CutoverPending)
  }

  /** The phases in which the journal describes the lane's tables as committed. */
  predicate Committed(l: Lane) {
    l.phase == FullMerging || l.phase == Ready || l.phase == IncrementalLoading || l.phase == CutoverPending
  }

  /** Only phases and markers change: neither lane's data is described differently. */
  predicate Steady(s: Sys, j: Journal, o: Outcome) {
    s.journal == Some(j) && o.To? && o.sys.journal.Some? ==>
      var k := o.sys.journal.value;
      && k.active.maxSlot == j.active.maxSlot && k.active.mintsPath == j.active.mintsPath
      && k.staging.maxSlot == j.staging.maxSlot && k.staging.mintsPath == j.staging.mintsPath
      && (Committed(k.staging) ==> Committed(j.staging)) && (k.staging.phase == Disabled <==> j.staging.phase == Disabled)
  }

  /** The step does not lead into a fanout, and ends no background work. */
  predicate Mild(m: Memory, o: Outcome) {
    o.To? && o.sys.proc.Up? ==>
      && !o.sys.proc.pc.StagingFrozen? && !o.sys.proc.pc.SharedPrepared? && !o.sys.proc.pc.FanningOut?
      && (o.sys.proc.memory.worker.Some? && o.sys.proc.memory.worker.value.finished.Some? ==> o.sys.proc.memory.worker == m.worker)
      && (o.sys.proc.memory.build.Some? && o.sys.proc.memory.build.value.finished.Some? ==> o.sys.proc.memory.build == m.build)
  }

  // ------------------------------------------------------------------ steps

  function Go(s: Sys, pc: Pc, m: Memory): Outcome { To(s.(proc := Up(pc, m))) }

  function Persist(s: Sys, j: Journal, pc: Pc, m: Memory): Outcome { To(s.(journal := Some(j), proc := Up(pc, m))) }

  function Exit(s: Sys): Outcome { To(s.(proc := Down)) }

  function WithoutDisabledPath(l: Lane): Lane { if l.phase == Disabled then l.(mintsPath := None) else l }

  /** Files named by a lane that is not disabled. */
  predicate Referenced(j: Journal, p: Path) {
    || (j.active.phase != Disabled && j.active.mintsPath == Some(p))
    || (j.staging.phase != Disabled && j.staging.mintsPath == Some(p))
  }

  /** Removal may fail for some of the files that nothing refers to. */
  function CleanedFiles(files: map<Path, FileText>, j: Journal, survivors: set<Path>): map<Path, FileText> {
    map p | p in files && (Referenced(j, p) || p in survivors) :: files[p]
  }

  /** The sets frozen by this step can be read back as they were. */
  predicate FreezesUsable(e: Event) {
    match e
    case FreezeActive(_, order) => Usable(SetOf(order))
    case FreezeStaging(_, order) => Usable(SetOf(order))
    case _ => true
  }

  function StartStep(s: Sys, m: Memory, resume: nat): Outcome {
    Persist(s, if s.journal.Some? then s.journal.value else RecoveredActiveOnly(resume), Loaded, m)
  }

  function ClearDisabledStep(s: Sys, j: Journal, m: Memory): (o: Outcome)
    ensures Quiet(s, j, o)
  {
    Persist(s, j.(active := WithoutDisabledPath(j.active), staging := WithoutDisabledPath(j.staging)), Cleared, m)
  }

  function CleanupStep(s: Sys, j: Journal, pc: Pc, m: Memory, survivors: set<Path>): Outcome {
    var cleaned := s.(files := CleanedFiles(s.files, j, survivors));
    match pc
    case Cleared => Go(cleaned, Clean, m)
    case SharedJournaled => Go(cleaned, JoiningBuild, m)
    case Promoted => Go(cleaned, JoiningBuild, m.(activeSlot := j.active.maxSlot.GetOr(0), stagingMints := None))
    case _ => NotEnabled
  }

  function LoadActiveStep(s: Sys, j: Journal, m: Memory): (o: Outcome)
    ensures Quiet(s, j, o) && Steady(s, j, o) && Mild(m, o)
  {
    if j.active.phase == WaitingForFull || j.active.phase == FullLoading then Legacy
    else if j.active.mintsPath.None? then NotEnabled
    else
      var p := j.active.mintsPath.value;
      if p !in s.files then Defensive("failed to open frozen hot-mint file")
      else
        match Load(s.files[p])
        case Err(reason) => Defensive(reason)
        case Ok(mints) => Go(s, ActiveLoaded, m.(activeSlot := j.active.maxSlot.GetOr(0), activeMints := mints))
  }

  /** A new file gets a name of its own; an empty set of mints is an error before anything is written. */
  function FreezeActiveStep(s: Sys, j: Journal, m: Memory, path: Path, order: seq<Pubkey>): Outcome {
    if j.active.phase == WaitingForFull || j.active.phase == FullLoading then Legacy
    else if j.active.mintsPath.Some? || path in s.files || order == [] then NotEnabled
    else
      Go(s.(files := s.files[path := Written(order)]), ActiveFrozen(path, SetOf(order)), m.(activeSlot := j.active.maxSlot.GetOr(0)))
  }

  function PersistActiveStep(s: Sys, j: Journal, m: Memory, path: Path, mints: Mints): (o: Outcome)
    ensures Quiet(s, j, o)
  {
    Persist(s, j.(active := j.active.(mintsPath := Some(path))), ActiveLoaded, m.(activeMints := mints))
  }

  function LoadStagingStep(s: Sys, j: Journal, m: Memory): (o: Outcome)
    ensures Quiet(s, j, o) && Steady(s, j, o) && Mild(m, o)
  {
    if j.staging.phase == Disabled || j.staging.mintsPath.None? then Go(s, JoiningBuild, m.(stagingMints := None))
    else
      var p := j.staging.mintsPath.value;
      if p !in s.files then Defensive("failed to open frozen hot-mint file")
      else
        match Load(s.files[p])
        case Err(reason) => Defensive(reason)
        case Ok(mints) => Go(s, JoiningBuild, m.(stagingMints := Some(mints)))
  }

  function JoinBuildStep(s: Sys, j: Journal, m: Memory): (o: Outcome)
    ensures Quiet(s, j, o) && Steady(s, j, o) && Mild(m, o)
  {
    if j.staging.phase == FullLoading && m.build.Some? then Legacy
    else if m.build.None? || m.build.value.finished.None? then Go(s, JoiningWorker, m)
    else if m.build.value.finished.value then
      if j.staging.phase != FullMerging then Defensive("staging full worker finished without a full_merging checkpoint")
      else Persist(s, j.(staging := j.staging.(phase := Ready)), JoiningWorker, m.(build := None))
    else if j.staging.phase == FullMerging then Exit(s) else Legacy
  }

  function JoinWorkerStep(s: Sys, j: Journal, m: Memory): Outcome {
    if m.worker.None? || m.worker.value.finished.None? then Go(s, Deciding, m)
    else if !m.worker.value.finished.value then Exit(s)
    else
      var staging := j.staging.(maxSlot := Some(m.worker.value.archive.slot), phase := CutoverPending, inflight := None);
      var active := j.active.(phase := CutoverPending, inflight := None);
      Persist(s, j.(active := active, staging := staging), Deciding, m.(worker := None))
  }

  /** A directory listing keeps full and incremental archives apart. */
  predicate IsListing(fulls: seq<Archive>, incrementals: seq<Archive>) {
    (forall a <- fulls :: a.FullArchive?) && (forall a <- incrementals :: a.IncrementalArchive?)
  }

  function DecideStep(s: Sys, j: Journal, m: Memory, fulls: seq<Archive>, incrementals: seq<Archive>): (o: Outcome)
    ensures Quiet(s, j, o) && Steady(s, j, o) && Mild(m, o)
  {
    if !IsListing(fulls, incrementals) then NotEnabled
    else if j.active.phase == CutoverPending && j.staging.phase == CutoverPending then
      if m.stagingMints.None? then Defensive("cutover pending without staging frozen hot-mint set") else Go(s, CheckingCutover, m)
    else if j.shared.Some? then
      if m.build.Some? || m.worker.Some? then Defensive("shared full checkpoint conflicts with a staging worker")
      else Go(s, PreparingShared(fulls), m)
    else if j.active.phase == FullMerging || j.active.phase == FullLoading then Legacy
    else if j.active.phase == IncrementalLoading then ResumeActive(s, j, m, incrementals)
    else DecideStaging(s, j, m, fulls, incrementals)
  }

  /** Restart of an interrupted active import, on whatever archive fits now. */
  function ResumeActive(s: Sys, j: Journal, m: Memory, incrementals: seq<Archive>): (o: Outcome)
    ensures Quiet(s, j, o) && Steady(s, j, o) && Mild(m, o)
  {
    if j.active.inflight.None? then Defensive("active incremental_loading without inflight snapshot")
    else if j.active.inflight.value == FullKind then Legacy
    else
      match NewestEligible(incrementals, m.activeSlot)
      case None => Persist(s, j.(active := j.active.(phase := Ready, inflight := None)), JoiningBuild, m)
      case Some(a) => BeginActive(s, j, m, a)
  }

  /** The checkpoint before an active import; an archive that adds nothing only ends the interrupted one. */
  function BeginActive(s: Sys, j: Journal, m: Memory, a: Archive): (o: Outcome)
    ensures Quiet(s, j, o) && Steady(s, j, o) && Mild(m, o)
  {
    if a.slot <= m.activeSlot then Persist(s, j.(active := j.active.(phase := Ready, inflight := None)), JoiningBuild, m)
    else Persist(s, j.(active := j.active.(phase := IncrementalLoading, inflight := Some(KindOf(a)))), Importing(a), m)
  }

  /** Restart of staging work; then, in the same iteration, new work. */
  function DecideStaging(s: Sys, j: Journal, m: Memory, fulls: seq<Archive>, incrementals: seq<Archive>): (o: Outcome)
    ensures Quiet(s, j, o) && Steady(s, j, o) && Mild(m, o)
  {
    if j.staging.phase == FullLoading then Legacy
    else if j.staging.phase == FullMerging && m.build.None? then
      if j.staging.full.None? then Defensive("staging full_merging without full snapshot")
      else DecideNew(s, j, m.(build := Some(Build(j.staging.full.value, None))), fulls, incrementals)
    else if j.staging.phase == IncrementalLoading && m.worker.None? then ResumeStaging(s, j, m, fulls, incrementals)
    else DecideNew(s, j, m, fulls, incrementals)
  }

  function ResumeStaging(s: Sys, j: Journal, m: Memory, fulls: seq<Archive>, incrementals: seq<Archive>): (o: Outcome)
    requires j.staging.phase == IncrementalLoading
    ensures Quiet(s, j, o) && Steady(s, j, o) && Mild(m, o)
  {
    if j.staging.inflight.None? then Defensive("staging incremental_loading without inflight snapshot")
    else if j.staging.maxSlot.None? then Defensive("staging incremental_loading without a committed max_slot")
    else if j.staging.inflight.value != IncrementalKind then Defensive("staging incremental_loading has a non-incremental marker")
    else
      match NewestEligible(incrementals, j.staging.maxSlot.value)
      case None => Persist(s, j.(staging := j.staging.(phase := Ready, inflight := None)), JoiningBuild, m)
      case Some(a) =>
        if m.stagingMints.None? then Defensive("staging restart requires frozen hot-mint set")
        else DecideNew(s, j, m.(worker := Some(StagingWorker(a, j.staging.maxSlot.value, None))), fulls, incrementals)
  }

  function ActiveFullSlot(j: Journal): Option<nat> { if j.active.full.Some? then Some(j.active.full.value.slot) else None }

  function DecideNew(s: Sys, j: Journal, m: Memory, fulls: seq<Archive>, incrementals: seq<Archive>): (o: Outcome)
    ensures Quiet(s, j, o) && Steady(s, j, o) && Mild(m, o)
  {
    if j.active.phase == WaitingForFull then Legacy
    else if j.staging.phase == Disabled && m.build.None? && NewestGeneration(fulls, ActiveFullSlot(j)).Some? then
      if j.active.phase != Ready then Defensive("cannot begin shared full load while active is not ready")
      else if j.active.maxSlot.None? then Defensive("ready active has no committed max_slot")
      else Go(s, FreezingStaging(NewestGeneration(fulls, ActiveFullSlot(j)).value), m)
    else DecideIncremental(s, j, m, incrementals)
  }

  /** Staging's candidate comes first; active takes the same archive if it fits. */
  function DecideIncremental(s: Sys, j: Journal, m: Memory, incrementals: seq<Archive>): (o: Outcome)
    ensures Quiet(s, j, o) && Steady(s, j, o) && Mild(m, o)
  {
    var stagingReady := m.worker.None? && j.staging.phase == Ready;
    if stagingReady && j.staging.maxSlot.None? then Defensive("ready staging without max_slot")
    else
      var forStaging := if stagingReady then NewestEligible(incrementals, j.staging.maxSlot.value) else None;
      var forActive := if j.active.phase == Ready then NewestEligible(incrementals, m.activeSlot) else None;
      if forStaging.Some? then
        if m.stagingMints.None? then Defensive("staging incremental selected without frozen hot-mint set")
        else
          Persist(s, j.(staging := j.staging.(phase := IncrementalLoading, inflight := Some(KindOf(forStaging.value)))),
                  Selected(forStaging.value), m.(worker := Some(StagingWorker(forStaging.value, j.staging.maxSlot.value, None))))
      else if forActive.Some? then Go(s, Selected(forActive.value), m)
      else Go(s, JoiningBuild, m)
  }

  function ApplySelectedStep(s: Sys, j: Journal, m: Memory, a: Archive): (o: Outcome)
    ensures Quiet(s, j, o) && Steady(s, j, o) && Mild(m, o)
  {
    if j.active.phase == Ready && a.Fits(m.activeSlot) then BeginActive(s, j, m, a) else Go(s, JoiningBuild, m)
  }

  function ImportDoneStep(s: Sys, j: Journal, m: Memory, a: Archive): (o: Outcome)
    ensures Quiet(s, j, o)
  {
    Persist(s, j.(active := j.active.(maxSlot := Some(a.slot), phase := Ready, inflight := None)), JoiningBuild, m.(activeSlot := a.slot))
  }

  function FreezeStagingStep(s: Sys, m: Memory, snapshot: Archive, path: Path, order: seq<Pubkey>): Outcome {
    if path in s.files || order == [] then NotEnabled
    else Go(s.(files := s.files[path := Written(order)]), StagingFrozen(snapshot, path, SetOf(order)), m)
  }

  /** The checkpoint that binds both lanes to one full archive. */
  function SharedJournal(j: Journal, snapshot: Archive, path: Path): Journal {
    Journal(j.active.(phase := IncrementalLoading, inflight := Some(FullKind)),
            Lane(FullLoading, Some(snapshot), None, Some(path), None),
            None, Some(SharedLoad(snapshot, j.active.maxSlot.GetOr(0))))
  }

  function PersistSharedStep(s: Sys, j: Journal, m: Memory, snapshot: Archive, path: Path, mints: Mints): Outcome {
    Persist(s, SharedJournal(j, snapshot, path), SharedJournaled, m.(stagingMints := Some(mints)))
  }

  /** Stop merges and clear `_bak`; on failure it is cleared again and the attempt is repeated later. */
  function PrepareSharedStep(s: Sys, m: Memory, fulls: seq<Archive>, ok: bool): Outcome {
    Go(s, if ok then SharedPrepared(fulls) else JoiningBuild, m)
  }

  function EnterFanoutStep(s: Sys, j: Journal, m: Memory, fulls: seq<Archive>): (o: Outcome)
    ensures Quiet(s, j, o) && Steady(s, j, o)
  {
    if j.shared.None? then Defensive("shared full completion without a shared-full checkpoint")
    else if j.shared.value.snapshot !in fulls then Exit(s)
    else if m.stagingMints.None? then Defensive("shared full checkpoint has no frozen staging hot-mint set")
    else if j.staging.phase != FullLoading || j.active.phase != IncrementalLoading then
      Defensive("shared full checkpoint has incompatible lane phases")
    else if j.active.inflight.None? then Defensive("shared full checkpoint has no active inflight archive")
    else if j.active.inflight.value != FullKind then Defensive("shared full checkpoint does not match the recorded archive")
    else if j.active.maxSlot != Some(j.shared.value.resumeSlot) then Defensive("shared full checkpoint expected another active max_slot")
    else Go(s, FanningOut, m)
  }

  /** A derived table is rebuilt in a clone and exchanged into place, so `_bak` gets a new identity there. */
  function RebuildDerivedStep(s: Sys, m: Memory, index: nat, uuid: Uuid): Outcome {
    if (index != HOT_INFO && index != BALANCES) || |s.backup| <= index || uuid in s.active || uuid in s.backup then NotEnabled
    else Go(s.(backup := s.backup[index := uuid]), FanningOut, m)
  }

  function SharedDone(j: Journal, slot: nat): Journal {
    Journal(j.active.(maxSlot := Some(slot), phase := Ready, inflight := None),
            j.staging.(maxSlot := Some(slot), phase := FullMerging, inflight := None),
            j.cutover, None)
  }

  function FanoutDoneStep(s: Sys, j: Journal, m: Memory, spawned: bool): (o: Outcome)
    ensures Quiet(s, j, o)
  {
    if j.shared.None? then Defensive("shared full completion without a shared-full checkpoint")
    else
      var snapshot := j.shared.value.snapshot;
      Persist(s, SharedDone(j, snapshot.slot), JoiningBuild,
              m.(activeSlot := snapshot.slot, build := if spawned then Some(Build(snapshot, None)) else None))
  }

  /** The identities are recorded once, before the first exchange, and read once in each attempt. */
  function CheckCutoverStep(s: Sys, j: Journal, m: Memory): Outcome {
    if j.staging.maxSlot.None? then Defensive("cutover pending without a committed staging max_slot")
    else
      var c := if j.cutover.Some? then j.cutover.value else Checkpoint(s.active, s.backup);
      Persist(s, j.(cutover := Some(c)), Exchanging(0, s.active, s.backup), m)
  }

  predicate PairSwapped(c: Checkpoint, active: seq<Uuid>, backup: seq<Uuid>, i: nat)
    requires i < |c.activeTables| && i < |c.stagingTables| && i < |active| && i < |backup|
  {
    active[i] == c.stagingTables[i] && backup[i] == c.activeTables[i]
  }

  predicate PairOriginal(c: Checkpoint, active: seq<Uuid>, backup: seq<Uuid>, i: nat)
    requires i < |c.activeTables| && i < |c.stagingTables| && i < |active| && i < |backup|
  {
    active[i] == c.activeTables[i] && backup[i] == c.stagingTables[i]
  }

  predicate IsGroup(ids: seq<Uuid>) { |ids| == GROUP_SIZE }

  function ExchangePairStep(s: Sys, j: Journal, m: Memory, i: nat, activeNow: seq<Uuid>, backupNow: seq<Uuid>): Outcome {
    if i >= GROUP_SIZE then NotEnabled
    else if j.cutover.None? then Defensive("cutover checkpoint disappeared before exchange")
    else
      var c := j.cutover.value;
      if !IsGroup(c.activeTables) || !IsGroup(c.stagingTables) then Defensive("cutover checkpoint is missing a UUID")
      else if !IsGroup(activeNow) || !IsGroup(backupNow) || !IsGroup(s.active) || !IsGroup(s.backup) then
        Defensive("a group is missing a table")
      else if PairSwapped(c, activeNow, backupNow, i) then Go(s, Exchanging(i + 1, activeNow, backupNow), m)
      else if !PairOriginal(c, activeNow, backupNow, i) then Defensive("cannot safely resume cutover")
      else Go(s.(active := s.active[i := s.backup[i]], backup := s.backup[i := s.active[i]]), Exchanging(i + 1, activeNow, backupNow), m)
  }

  /** The lanes change places; the old active is kept as a disabled generation. */
  function PromotedJournal(j: Journal): Journal {
    Journal(j.staging.(phase := Ready, inflight := None), j.active.(phase := Disabled, inflight := None, mintsPath := None), None, None)
  }

  function PromoteStep(s: Sys, j: Journal, m: Memory): Outcome {
    if m.stagingMints.None? then NotEnabled
    else Persist(s, PromotedJournal(j), Promoted, m.(activeMints := m.stagingMints.value))
  }

  /** A step of a running process with a journal. */
  function RunningStep(s: Sys, j: Journal, pc: Pc, m: Memory, e: Event): Outcome {
    match (e, pc)
    case (ClearDisabled, Loaded) => ClearDisabledStep(s, j, m)
    case (Cleanup(survivors), _) => CleanupStep(s, j, pc, m, survivors)
    case (LoadActive, Clean) => LoadActiveStep(s, j, m)
    case (FreezeActive(path, order), Clean) => FreezeActiveStep(s, j, m, path, order)
    case (PersistActive, ActiveFrozen(path, mints)) => PersistActiveStep(s, j, m, path, mints)
    case (LoadStaging, ActiveLoaded) => LoadStagingStep(s, j, m)
    case (JoinBuild, JoiningBuild) => JoinBuildStep(s, j, m)
    case (JoinWorker, JoiningWorker) => JoinWorkerStep(s, j, m)
    case (Decide(fulls, incrementals), Deciding) => DecideStep(s, j, m, fulls, incrementals)
    case (FreezeStaging(path, order), FreezingStaging(snapshot)) => FreezeStagingStep(s, m, snapshot, path, order)
    case (PersistShared, StagingFrozen(snapshot, path, mints)) => PersistSharedStep(s, j, m, snapshot, path, mints)
    case (PrepareShared(ok), PreparingShared(fulls)) => PrepareSharedStep(s, m, fulls, ok)
    case (EnterFanout, SharedPrepared(fulls)) => EnterFanoutStep(s, j, m, fulls)
    case (RebuildDerived(index, uuid), FanningOut) => RebuildDerivedStep(s, m, index, uuid)
    case (FanoutDone(spawned), FanningOut) => FanoutDoneStep(s, j, m, spawned)
    case (FanoutFails, FanningOut) => Go(s, JoiningBuild, m)
    case (ApplySelected, Selected(a)) => ApplySelectedStep(s, j, m, a)
    case (ImportDone, Importing(a)) => ImportDoneStep(s, j, m, a)
    case (CheckCutover, CheckingCutover) => CheckCutoverStep(s, j, m)
    case (ExchangePair, Exchanging(i, activeNow, backupNow)) => ExchangePairStep(s, j, m, i, activeNow, backupNow)
    case (Promote, Exchanging(i, _, _)) => if i < GROUP_SIZE then NotEnabled else PromoteStep(s, j, m)
    case _ => NotEnabled
  }

  /** A step of a running process. */
  function UpStep(s: Sys, pc: Pc, m: Memory, e: Event): Outcome {
    match e
    case Crash => Exit(s)
    case Boot => NotEnabled
    case Start(resume) => if pc == Starting then StartStep(s, m, resume) else NotEnabled
    case BuildFinishes(ok) =>
      if m.build.Some? && m.build.value.finished.None?
      then Go(s, pc, m.(build := Some(m.build.value.(finished := Some(ok))))) else NotEnabled
    case WorkerFinishes(ok) =>
      if m.worker.Some? && m.worker.value.finished.None?
      then Go(s, pc, m.(worker := Some(m.worker.value.(finished := Some(ok))))) else NotEnabled
    case _ => if s.journal.None? then NotEnabled else RunningStep(s, s.journal.value, pc, m, e)
  }

  function Next(s: Sys, e: Event): Outcome {
    if e.Crash? then Exit(s)
    else if s.proc.Up? then UpStep(s, s.proc.pc, s.proc.memory, e)
    else if e.Boot? then Go(s, Starting, Memory(0, {}, None, None, None))
    else NotEnabled
  }
}
