/**
 Whole runs of the watcher, with crashes anywhere: the invariant holds
 throughout, a cutover only moves forward, and frozen mint files stay.
 */
module WatcherRuns {
  import opened Wrappers
  import opened ImportOutput
  import opened FrozenMints
  import opened Selection
  import opened Watcher
  import opened WatcherInvariant

  lemma BootStepsSafe(s: Sys, j: Journal, pc: Pc, m: Memory, e: Event)
    requires At(s, j, pc, m) && FreezesUsable(e)
    requires e.ClearDisabled? || e.Cleanup? || e.LoadActive? || e.FreezeActive? || e.PersistActive? || e.LoadStaging?
    ensures Safe(RunningStep(s, j, pc, m, e))
  {
    hide At, Inv, ClearDisabledStep, CleanupStep, LoadActiveStep, FreezeActiveStep, PersistActiveStep, LoadStagingStep;
    match (e, pc) {
      case (ClearDisabled, Loaded) => ClearDisabledSafe(s, j, m);
      case (Cleanup(survivors), _) => CleanupSafe(s, j, pc, m, survivors);
      case (LoadActive, Clean) => LoadActiveSafe(s, j, m);
      case (FreezeActive(path, order), Clean) => FreezeActiveSafe(s, j, m, path, order);
      case (PersistActive, ActiveFrozen(path, mints)) => PersistActiveSafe(s, j, m, path, mints);
      case (LoadStaging, ActiveLoaded) => LoadStagingSafe(s, j, m);
      case _ =>
    }
  }

  lemma LoopStepsSafe(s: Sys, j: Journal, pc: Pc, m: Memory, e: Event)
    requires At(s, j, pc, m)
    requires e.JoinBuild? || e.JoinWorker? || e.Decide? || e.ApplySelected? || e.ImportDone?
    ensures Safe(RunningStep(s, j, pc, m, e))
  {
    hide At, Inv, JoinBuildStep, JoinWorkerStep, DecideStep, ApplySelectedStep, ImportDoneStep;
    match (e, pc) {
      case (JoinBuild, JoiningBuild) => JoinBuildSafe(s, j, m);
      case (JoinWorker, JoiningWorker) => JoinWorkerSafe(s, j, m);
      case (Decide(fulls, incrementals), Deciding) => DecideSafe(s, j, m, fulls, incrementals);
      case (ApplySelected, Selected(a)) => ApplySelectedSafe(s, j, m, a);
      case (ImportDone, Importing(a)) => ImportDoneSafe(s, j, m, a);
      case _ =>
    }
  }

  lemma SharedAttemptSafe(s: Sys, j: Journal, pc: Pc, m: Memory, e: Event)
    requires At(s, j, pc, m)
    requires e.PrepareShared? || e.EnterFanout? || e.FanoutFails?
    ensures Safe(RunningStep(s, j, pc, m, e))
  {
    hide Inv, PrepareSharedStep, EnterFanoutStep;
    match (e, pc) {
      case (PrepareShared(ok), PreparingShared(fulls)) => SharedStepsSafe(s, j, m, fulls, ok);
      case (EnterFanout, SharedPrepared(fulls)) => SharedStepsSafe(s, j, m, fulls, true);
      case (FanoutFails, FanningOut) => SharedStepsSafe(s, j, m, [], true);
      case _ =>
    }
  }

  lemma SharedLoadStepsSafe(s: Sys, j: Journal, pc: Pc, m: Memory, e: Event)
    requires At(s, j, pc, m) && FreezesUsable(e)
    requires e.FreezeStaging? || e.PersistShared? || e.RebuildDerived? || e.FanoutDone?
    ensures Safe(RunningStep(s, j, pc, m, e))
  {
    hide At, Inv, FreezeStagingStep, PersistSharedStep, RebuildDerivedStep, FanoutDoneStep;
    match (e, pc) {
      case (FreezeStaging(path, order), FreezingStaging(snapshot)) => FreezeStagingSafe(s, j, m, snapshot, path, order);
      case (PersistShared, StagingFrozen(snapshot, path, mints)) => PersistSharedSafe(s, j, m, snapshot, path, mints);
      case (RebuildDerived(index, uuid), FanningOut) => RebuildDerivedSafe(s, j, m, index, uuid);
      case (FanoutDone(spawned), FanningOut) => FanoutDoneSafe(s, j, m, spawned);
      case _ =>
    }
  }

  lemma CutoverStepsSafe(s: Sys, j: Journal, pc: Pc, m: Memory, e: Event)
    requires At(s, j, pc, m)
    requires e.CheckCutover? || e.ExchangePair? || e.Promote?
    ensures Safe(RunningStep(s, j, pc, m, e))
  {
    hide At, Inv, CheckCutoverStep, ExchangePairStep, PromoteStep;
    match (e, pc) {
      case (CheckCutover, CheckingCutover) => CheckCutoverSafe(s, j, m);
      case (ExchangePair, Exchanging(i, activeNow, backupNow)) => ExchangePairSafe(s, j, m, i, activeNow, backupNow);
      case (Promote, Exchanging(i, activeNow, backupNow)) => PromoteSafe(s, j, m, i, activeNow, backupNow);
      case _ =>
    }
  }

  lemma OutsideStepsSafe(s: Sys, e: Event)
    requires Inv(s) && (e.Crash? || e.Boot? || e.Start?)
    ensures Safe(Next(s, e))
  {
    hide TablesOk, JournalOk, FilesOk, StartStep, RunningStep, ExchangeOk, Running;
    if e.Start? && s.proc.Up? && s.proc.pc == Starting {
      StartSafe(s, s.proc.memory, e.resume);
    }
  }

  /** Background work may end at any time. */
  lemma WorkStepsSafe(s: Sys, e: Event)
    requires Inv(s) && (e.BuildFinishes? || e.WorkerFinishes?)
    ensures Safe(Next(s, e))
  {
    hide TablesOk, JournalOk, FilesOk, RunningStep, ExchangeOk;
    if Next(s, e).To? {
      var m, m' := s.proc.memory, Next(s, e).sys.proc.memory;
      if s.journal.Some? {
        assert WorkOk(s.journal.value, m) ==> WorkOk(s.journal.value, m');
      }
    }
  }

  /** Every step from a state that satisfies the invariant is safe. */
  lemma NextSafe(s: Sys, e: Event)
    requires Inv(s) && FreezesUsable(e)
    ensures Safe(Next(s, e))
  {
    hide Inv, RunningStep, Exit, Go, StartStep;
    if e.Crash? || e.Boot? || e.Start? {
      OutsideStepsSafe(s, e);
    } else if e.BuildFinishes? || e.WorkerFinishes? {
      WorkStepsSafe(s, e);
    } else if s.proc.Up? && s.journal.Some? {
      var j, pc, m := s.journal.value, s.proc.pc, s.proc.memory;
      assert At(s, j, pc, m);
      if e.CheckCutover? || e.ExchangePair? || e.Promote? {
        CutoverStepsSafe(s, j, pc, m, e);
      } else if e.JoinBuild? || e.JoinWorker? || e.Decide? || e.ApplySelected? || e.ImportDone? {
        LoopStepsSafe(s, j, pc, m, e);
      } else if e.ClearDisabled? || e.Cleanup? || e.LoadActive? || e.FreezeActive? || e.PersistActive? || e.LoadStaging? {
        BootStepsSafe(s, j, pc, m, e);
      } else if e.PrepareShared? || e.EnterFanout? || e.FanoutFails? {
        SharedAttemptSafe(s, j, pc, m, e);
      } else {
        SharedLoadStepsSafe(s, j, pc, m, e);
      }
    }
  }

  // -------------------------------------------------------------------- runs

  /** Events that cannot happen change nothing; a failed check stops the run. */
  function Run(s: Sys, events: seq<Event>): Outcome
    decreases |events|
  {
    if events == [] then To(s)
    else
      match Run(s, events[..|events| - 1])
      case To(t) => (match Next(t, events[|events| - 1]) case NotEnabled => To(t) case o => o)
      case o => o
  }

  /** Six tables in each group, no process, no journal. */
  predicate Initial(s: Sys) {
    s.journal.None? && s.proc.Down? && IsGroup(s.active) && IsGroup(s.backup) && AllDifferent(s.active, s.backup)
  }

  lemma InitialInv(s: Sys)
    requires Initial(s)
    ensures Inv(s)
  {
  }

  predicate RunUsable(events: seq<Event>) { forall e <- events :: FreezesUsable(e) }

  /** Over all runs, with crashes anywhere, no defensive check fails and no other protocol is entered. */
  lemma {:induction false} RunSafe(s: Sys, events: seq<Event>)
    requires Inv(s) && RunUsable(events)
    ensures Run(s, events).To? && Inv(Run(s, events).sys)
    decreases |events|
  {
    hide Inv, Next, FreezesUsable;
    if events != [] {
      assert events[|events| - 1] in events;
      RunSafe(s, events[..|events| - 1]);
      NextSafe(Run(s, events[..|events| - 1]).sys, events[|events| - 1]);
    }
  }

  /** The states a first start leads to: the journal and the tables are always consistent. */
  lemma ReachableStates(s: Sys, events: seq<Event>)
    requires Initial(s) && RunUsable(events)
    ensures Run(s, events).To?
    ensures var t := Run(s, events).sys;
      t.journal.Some? ==>
        var j := t.journal.value;
        && (j.shared.Some? ==>
              j.staging.phase == FullLoading && j.active.phase == IncrementalLoading && j.active.inflight == Some(FullKind)
              && j.active.maxSlot == Some(j.shared.value.resumeSlot))
        && (j.active.phase == CutoverPending <==> j.staging.phase == CutoverPending)
        && (j.cutover.Some? ==> PairsKnown(j.cutover.value, t.active, t.backup))
        && (forall p :: Referenced(j, p) ==> p in t.files && Load(t.files[p]).Ok?)
  {
    hide Run, Next, AllDifferent, PairsKnown, Load, RunUsable;
    InitialInv(s);
    RunSafe(s, events);
  }

  // ----------------------------------------------------------------- cutover

  /** Pairs still to be exchanged. */
  function Unswapped(c: Checkpoint, active: seq<Uuid>, backup: seq<Uuid>): set<nat>
    requires IsGroup(c.activeTables) && IsGroup(c.stagingTables) && IsGroup(active) && IsGroup(backup)
  {
    set i: nat | i < GROUP_SIZE && !PairSwapped(c, active, backup, i)
  }

  predicate HasCutover(s: Sys) { s.journal.Some? && s.journal.value.cutover.Some? }

  function CutoverOf(s: Sys): Checkpoint
    requires HasCutover(s)
  {
    s.journal.value.cutover.value
  }

  lemma CutoverIsKnown(s: Sys)
    requires Inv(s) && HasCutover(s)
    ensures PairsKnown(CutoverOf(s), s.active, s.backup)
  {
  }

  /** Steps of recovery, of the loop, and ends of imports. */
  predicate IsQuiet(e: Event) {
    e.ClearDisabled? || e.LoadActive? || e.PersistActive? || e.LoadStaging? || e.JoinBuild? || e.Decide? || e.ApplySelected?
    || e.ImportDone? || e.EnterFanout? || e.FanoutDone?
  }

  lemma QuietSteps(s: Sys, e: Event)
    requires s.journal.Some? && IsQuiet(e) && Next(s, e).To?
    ensures Quiet(s, s.journal.value, Next(s, e))
  {
    hide Quiet, Steady, Mild, ClearDisabledStep, LoadActiveStep, PersistActiveStep, LoadStagingStep, JoinBuildStep, DecideStep,
         ApplySelectedStep, ImportDoneStep, EnterFanoutStep, FanoutDoneStep;
  }

  /** A pending cutover excludes a fanout and the steps towards one. */
  lemma NoFanoutDuringCutover(s: Sys, e: Event)
    requires Inv(s) && HasCutover(s) && Next(s, e).To?
    ensures !e.PersistShared? && !e.RebuildDerived? && !e.FanoutDone?
  {
    hide TablesOk, ExchangeOk, FilesOk, ActiveKnown, StagingKnown;
    if e.PersistShared? || e.RebuildDerived? || e.FanoutDone? {
      FanoutPcs(s, e);
    }
  }

  lemma FanoutPcs(s: Sys, e: Event)
    requires Next(s, e).To? && (e.PersistShared? || e.RebuildDerived? || e.FanoutDone?)
    ensures s.proc.Up? && (s.proc.pc.StagingFrozen? || s.proc.pc.FanningOut?)
  {
  }

  /** Outside the exchange nothing touches the tables of a pending cutover or its checkpoint. */
  lemma OtherStepsKeepCutover(s: Sys, e: Event)
    requires Inv(s) && HasCutover(s) && Next(s, e).To? && !e.ExchangePair? && !e.Promote?
    ensures var t := Next(s, e).sys; HasCutover(t) && CutoverOf(t) == CutoverOf(s) && t.active == s.active && t.backup == s.backup
  {
    hide Inv, CleanedFiles;
    NoFanoutDuringCutover(s, e);
    if IsQuiet(e) {
      hide Next;
      QuietSteps(s, e);
    }
  }

  lemma ExchangeStep(s: Sys, e: Event)
    requires Inv(s) && HasCutover(s) && Next(s, e).To? && e.ExchangePair?
    ensures var t := Next(s, e).sys;
      && HasCutover(t) && CutoverOf(t) == CutoverOf(s)
      && PairsKnown(CutoverOf(s), t.active, t.backup) && PairsKnown(CutoverOf(s), s.active, s.backup)
      && Unswapped(CutoverOf(s), t.active, t.backup) <= Unswapped(CutoverOf(s), s.active, s.backup)
  {
    hide AllDifferent, FilesOk, Running;
    var c := CutoverOf(s);
    var i := s.proc.pc.next;
    var pc := s.proc.pc;
    if PairOriginal(c, pc.activeNow, pc.backupNow, i) {
      ExchangeKeeps(c, s.active, s.backup, i, pc.activeNow, pc.backupNow);
    }
  }

  lemma PromoteStepSwapped(s: Sys, e: Event)
    requires Inv(s) && HasCutover(s) && Next(s, e).To? && e.Promote?
    ensures PairsKnown(CutoverOf(s), s.active, s.backup) && Unswapped(CutoverOf(s), s.active, s.backup) == {}
    ensures var t := Next(s, e).sys;
      && t.active == s.active && t.backup == s.backup && !HasCutover(t)
      && t.journal == Some(PromotedJournal(s.journal.value))
  {
    hide AllDifferent, FilesOk, Running;
  }

  /**
   A cutover never goes back: the pairs still to be exchanged only become
   fewer, and the checkpoint is cleared only when none is left.
   */
  lemma CutoverMovesForward(s: Sys, e: Event)
    requires Inv(s) && HasCutover(s) && Next(s, e).To?
    ensures var t, c := Next(s, e).sys, CutoverOf(s);
      && PairsKnown(c, s.active, s.backup) && PairsKnown(c, t.active, t.backup)
      && Unswapped(c, t.active, t.backup) <= Unswapped(c, s.active, s.backup)
      && (HasCutover(t) ==> CutoverOf(t) == c)
      && (!HasCutover(t) ==> Unswapped(c, t.active, t.backup) == {})
  {
    hide Inv, Next, PairsKnown;
    CutoverIsKnown(s);
    if e.ExchangePair? {
      ExchangeStep(s, e);
    } else if e.Promote? {
      PromoteStepSwapped(s, e);
    } else {
      OtherStepsKeepCutover(s, e);
    }
  }

  lemma OthersTakeNoCheckpoint(s: Sys, e: Event)
    requires Inv(s) && !HasCutover(s) && Next(s, e).To? && !e.CheckCutover?
    ensures !HasCutover(Next(s, e).sys)
  {
    hide Inv, CleanedFiles;
    if IsQuiet(e) && s.journal.Some? {
      hide Next;
      QuietSteps(s, e);
    } else if e.ExchangePair? && s.journal.Some? {
      ExchangeKeepsJournal(s, e);
    }
  }

  lemma ExchangeKeepsJournal(s: Sys, e: Event)
    requires e.ExchangePair? && Next(s, e).To?
    ensures Next(s, e).sys.journal == s.journal
  {
  }

  /** A checkpoint is taken of the tables as they are, with nothing yet exchanged. */
  lemma CheckpointIsOriginal(s: Sys, e: Event)
    requires Inv(s) && !HasCutover(s) && Next(s, e).To? && HasCutover(Next(s, e).sys)
    ensures CutoverOf(Next(s, e).sys) == Checkpoint(Next(s, e).sys.active, Next(s, e).sys.backup)
  {
    hide Inv;
    if !e.CheckCutover? {
      OthersTakeNoCheckpoint(s, e);
      assert false;
    }
  }

  predicate Pending(s: Sys) { s.journal.Some? && s.journal.value.active.phase == CutoverPending }

  lemma OthersKeepNotPending(s: Sys, e: Event)
    requires Inv(s) && !Pending(s) && Next(s, e).To? && !e.JoinWorker?
    ensures !Pending(Next(s, e).sys)
  {
    hide Inv, CleanedFiles;
    if IsQuiet(e) && s.journal.Some? {
      hide Next;
      QuietSteps(s, e);
    } else if e.ExchangePair? && s.journal.Some? {
      ExchangeKeepsJournal(s, e);
    }
  }

  /** Cutover becomes pending only when the last background import has been joined and active is idle. */
  lemma PendingEnteredQuietly(s: Sys, e: Event)
    requires Inv(s) && !Pending(s) && Next(s, e).To? && Pending(Next(s, e).sys)
    ensures s.journal.Some? && s.journal.value.active.phase == Ready && s.journal.value.shared.None?
    ensures Next(s, e).sys.proc.Up? && NoWork(Next(s, e).sys.proc.memory)
  {
    hide TablesOk, ExchangeOk, FilesOk, ActiveKnown, StagingKnown;
    if !e.JoinWorker? {
      OthersKeepNotPending(s, e);
      assert false;
    }
  }

  // -------------------------------------------------------------- mint files

  predicate RefersTo(s: Sys, p: Path) { s.journal.Some? && Referenced(s.journal.value, p) }

  /** Only a clean-up removes files, and it follows the journal. */
  lemma FilesStay(s: Sys, e: Event, p: Path)
    requires Inv(s) && Next(s, e).To? && p in s.files
    ensures var t := Next(s, e).sys;
      && (p in t.files ==> t.files[p] == s.files[p])
      && (p !in t.files ==> e.Cleanup? && !RefersTo(s, p))
  {
    hide Inv, Load, Written, Referenced;
    if IsQuiet(e) && s.journal.Some? {
      hide Next;
      QuietSteps(s, e);
    } else if e.ExchangePair? {
      hide Next;
      ExchangeKeepsFiles(s, e);
    }
  }

  lemma ExchangeKeepsFiles(s: Sys, e: Event)
    requires e.ExchangePair? && Next(s, e).To?
    ensures Next(s, e).sys.files == s.files
  {
  }

  /** No step rewrites a mint file, and none removes one that the journal refers to before or after it. */
  lemma StepKeepsMintFiles(s: Sys, e: Event, p: Path)
    requires Inv(s) && FreezesUsable(e) && Next(s, e).To? && p in s.files
    ensures var t := Next(s, e).sys;
      && (p in t.files ==> t.files[p] == s.files[p])
      && (RefersTo(s, p) || RefersTo(t, p) ==> p in t.files)
  {
    hide Inv, Next, FreezesUsable, Load, RefersTo;
    FilesStay(s, e, p);
    NextSafe(s, e);
    if RefersTo(Next(s, e).sys, p) {
      ReferencesExist(Next(s, e).sys, p);
    }
  }

  lemma ReferencesExist(s: Sys, p: Path)
    requires Inv(s) && RefersTo(s, p)
    ensures p in s.files && Load(s.files[p]).Ok?
  {
    hide TablesOk, ProcOk, Load;
  }

  /** The state after the first `n` events. */
  function StateAfter(s: Sys, events: seq<Event>, n: nat): Sys
    requires Initial(s) && RunUsable(events) && n <= |events|
  {
    InitialInv(s);
    RunSafe(s, events[..n]);
    Run(s, events[..n]).sys
  }

  /**
   As long as the journal refers to a mint file, through any crashes, the file
   is there with the content it had when the reference was made.
   */
  lemma {:induction false} FrozenMintsSurvive(s: Sys, events: seq<Event>, p: Path, first: nat, last: nat)
    requires Initial(s) && RunUsable(events) && first <= last <= |events|
    requires forall n: nat :: first <= n <= last ==> RefersTo(StateAfter(s, events, n), p)
    ensures var before, after := StateAfter(s, events, first), StateAfter(s, events, last);
      p in before.files && p in after.files && after.files[p] == before.files[p] && Load(after.files[p]).Ok?
    decreases last - first
  {
    hide Next, Initial, Inv;
    ReferencedFileExists(s, events, p, last);
    if first < last {
      FrozenMintsSurvive(s, events, p, first, last - 1);
      StateAfterStep(s, events, last - 1);
      var t := StateAfter(s, events, last - 1);
      if Next(t, events[last - 1]).To? {
        StepKeepsMintFiles(t, events[last - 1], p);
      }
    }
  }

  lemma ReferencedFileExists(s: Sys, events: seq<Event>, p: Path, n: nat)
    requires Initial(s) && RunUsable(events) && n <= |events| && RefersTo(StateAfter(s, events, n), p)
    ensures var t := StateAfter(s, events, n); p in t.files && Load(t.files[p]).Ok?
  {
    hide Next, Run;
    ReachableStates(s, events[..n]);
  }

  lemma StateAfterStep(s: Sys, events: seq<Event>, n: nat)
    requires Initial(s) && RunUsable(events) && n < |events|
    ensures Inv(StateAfter(s, events, n))
    ensures var t, u := StateAfter(s, events, n), StateAfter(s, events, n + 1);
      u == if Next(t, events[n]).To? then Next(t, events[n]).sys else t
  {
    hide Next, Inv;
    InitialInv(s);
    RunSafe(s, events[..n]);
    NextSafe(StateAfter(s, events, n), events[n]);
    assert events[..n + 1][..n] == events[..n];
  }

  // ------------------------------------------------------------ unusable sets

  lemma RunStep(s: Sys, events: seq<Event>, t: Sys, e: Event)
    requires Run(s, events) == To(t) && !Next(t, e).NotEnabled?
    ensures Run(s, events + [e]) == Next(t, e)
  {
    hide Next;
    assert (events + [e])[..|events|] == events;
  }

  /** A boot up to the point where the mints of active are loaded or frozen. */
  function Recovery(resume: nat): seq<Event> { [Boot] + [Start(resume)] + [ClearDisabled] + [Cleanup({})] }

  function Recovered(s: Sys, j: Journal): Sys {
    s.(journal := Some(j), files := CleanedFiles(s.files, j, {}), proc := Up(Clean, Memory(0, {}, None, None, None)))
  }

  lemma RecoveryRuns(s: Sys, before: seq<Event>, t: Sys, resume: nat, j: Journal)
    requires Run(s, before) == To(t) && t.proc.Down? && j == (if t.journal.Some? then t.journal.value else RecoveredActiveOnly(resume))
    requires j.staging == DisabledLane && j.active.phase == Ready
    ensures Run(s, before + Recovery(resume)) == To(Recovered(t, j))
  {
    hide Run;
    var m := Memory(0, {}, None, None, None);
    var events := before + [Boot];
    RunStep(s, before, t, Boot);
    RunStep(s, events, t.(proc := Up(Starting, m)), Start(resume));
    events := events + [Start(resume)];
    RunStep(s, events, t.(journal := Some(j), proc := Up(Loaded, m)), ClearDisabled);
    events := events + [ClearDisabled];
    RunStep(s, events, t.(journal := Some(j), proc := Up(Cleared, m)), Cleanup({}));
    assert events + [Cleanup({})] == before + Recovery(resume);
  }

  /** A first start that freezes a set, and a crash. */
  function FreezeAndCrash(resume: nat, path: Path, order: seq<Pubkey>): seq<Event> {
    Recovery(resume) + [FreezeActive(path, order)] + [PersistActive] + [Crash]
  }

  function FrozenJournal(resume: nat, path: Path): Journal {
    RecoveredActiveOnly(resume).(active := RecoveredActiveOnly(resume).active.(mintsPath := Some(path)))
  }

  lemma FreezeAndPersist(s: Sys, j: Journal, m: Memory, path: Path, order: seq<Pubkey>)
    requires s.journal == Some(j) && s.proc == Up(Clean, m) && j.active.phase == Ready && j.active.mintsPath.None? && path !in s.files && order != []
    ensures Next(s, FreezeActive(path, order)).To?
    ensures Next(Next(s, FreezeActive(path, order)).sys, PersistActive).To?
    ensures var t := Next(Next(s, FreezeActive(path, order)).sys, PersistActive).sys;
      t == s.(journal := Some(j.(active := j.active.(mintsPath := Some(path)))), files := s.files[path := Written(order)], proc := t.proc) && t.proc.Up?
  {
    hide Written;
  }

  lemma FreezeAndCrashRuns(s: Sys, resume: nat, path: Path, order: seq<Pubkey>)
    requires Initial(s) && path !in s.files && order != []
    ensures Run(s, FreezeAndCrash(resume, path, order))
         == To(s.(journal := Some(FrozenJournal(resume, path)), files := map[path := Written(order)]))
  {
    hide Written, AllDifferent, Next, Recovery;
    var j := RecoveredActiveOnly(resume);
    var clean := Recovered(s, j);
    assert [] + Recovery(resume) == Recovery(resume);
    RecoveryRuns(s, [], s, resume, j);
    hide Run;
    assert CleanedFiles(s.files, j, {}) == map[];
    FreezeAndPersist(clean, j, clean.proc.memory, path, order);
    var freeze := FreezeActive(path, order);
    RunStep(s, Recovery(resume), clean, freeze);
    RunStep(s, Recovery(resume) + [freeze], Next(clean, freeze).sys, PersistActive);
    var kept := Next(Next(clean, freeze).sys, PersistActive).sys;
    CrashIs(kept);
    RunStep(s, Recovery(resume) + [freeze] + [PersistActive], kept, Crash);
  }

  lemma CrashIs(s: Sys)
    ensures Next(s, Crash) == To(s.(proc := Down))
  {
  }

  /**
   What freezing promises holds exactly for usable sets: with any other, the
   very next start fails a check or goes on with different mints.
   */
  lemma RestartKeepsMintsIff(s: Sys, resume: nat, path: Path, order: seq<Pubkey>)
    requires Initial(s) && path !in s.files && order != []
    ensures var o := Run(s, FreezeAndCrash(resume, path, order) + Recovery(resume) + [LoadActive]);
      && (o.Defensive? || (o.To? && o.sys.proc.Up? && o.sys.proc.pc == ActiveLoaded))
      && (o.To? && o.sys.proc.memory.activeMints == SetOf(order) <==> Usable(SetOf(order)))
  {
    hide Run, Load, Written, Usable, FreezeAndCrash, Recovery, AllDifferent;
    var events, j := FreezeAndCrash(resume, path, order), FrozenJournal(resume, path);
    FreezeAndCrashRuns(s, resume, path, order);
    var down := s.(journal := Some(j), files := map[path := Written(order)]);
    RecoveryRuns(s, events, down, resume, j);
    assert path in CleanedFiles(down.files, j, {});
    RunStep(s, events + Recovery(resume), Recovered(down, j), LoadActive);
    RoundTripIff(order);
  }
}
