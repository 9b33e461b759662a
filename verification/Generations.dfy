/**
 Which table and which mint set stand behind each lane, and how the steps of
 the watcher change that: exchanges move tables between the groups but never
 between the generations.
 */
module Generations {
  import opened Wrappers
  import opened FrozenMints
  import opened Selection
  import opened Watcher
  import opened WatcherInvariant
  import opened WatcherRuns

  // --------------------------------------------------- views of the two lanes

  /** The pair of tables at a place is already exchanged. */
  predicate SwappedAt(s: Sys, i: nat) {
    && HasCutover(s)
    && i < |CutoverOf(s).activeTables| && i < |CutoverOf(s).stagingTables| && i < |s.active| && i < |s.backup|
    && PairSwapped(CutoverOf(s), s.active, s.backup, i)
  }

  /** The tables of the active generation: under their own names, or already exchanged. */
  function ActiveTables(s: Sys): (ids: seq<Uuid>)
    requires IsGroup(s.active) && IsGroup(s.backup)
    ensures IsGroup(ids)
  {
    seq(GROUP_SIZE, i requires 0 <= i < GROUP_SIZE => if SwappedAt(s, i) then s.backup[i] else s.active[i])
  }

  function StagingTables(s: Sys): (ids: seq<Uuid>)
    requires IsGroup(s.active) && IsGroup(s.backup)
    ensures IsGroup(ids)
  {
    seq(GROUP_SIZE, i requires 0 <= i < GROUP_SIZE => if SwappedAt(s, i) then s.active[i] else s.backup[i])
  }

  function ActiveTable(s: Sys): Uuid
    requires IsGroup(s.active) && IsGroup(s.backup)
  {
    ActiveTables(s)[HOT_STATE]
  }

  function StagingTable(s: Sys): Uuid
    requires IsGroup(s.active) && IsGroup(s.backup)
  {
    StagingTables(s)[HOT_STATE]
  }

  /** What a restart would read for the lane. */
  function MintsOf(l: Lane, files: map<Path, FileText>): Mints {
    if l.mintsPath.Some? && l.mintsPath.value in files && Load(files[l.mintsPath.value]).Ok? then Load(files[l.mintsPath.value]).value else {}
  }

  datatype LaneView = LaneView(maxSlot: nat, mints: Mints, tables: seq<Uuid>)

  function ActiveView(s: Sys): LaneView
    requires IsGroup(s.active) && IsGroup(s.backup) && s.journal.Some?
  {
    LaneView(s.journal.value.active.maxSlot.GetOr(0), MintsOf(s.journal.value.active, s.files), ActiveTables(s))
  }

  function StagingView(s: Sys): Option<LaneView>
    requires IsGroup(s.active) && IsGroup(s.backup) && s.journal.Some?
  {
    var l := s.journal.value.staging;
    if Committed(l) then Some(LaneView(l.maxSlot.GetOr(0), MintsOf(l, s.files), StagingTables(s))) else None
  }

  /** No table belongs to both generations. */
  lemma InvHasGroups(s: Sys)
    requires Inv(s)
    ensures IsGroup(s.active) && IsGroup(s.backup)
    ensures forall i: nat, k: nat :: i < GROUP_SIZE && k < GROUP_SIZE ==> ActiveTables(s)[i] != StagingTables(s)[k]
    ensures ActiveTable(s) != StagingTable(s)
  {
    hide ProcOk, JournalOk, FilesOk, PairsKnown;
  }

  lemma SameTables(s: Sys, t: Sys)
    requires IsGroup(s.active) && IsGroup(s.backup) && t.active == s.active && t.backup == s.backup
    requires HasCutover(s) <==> HasCutover(t)
    requires HasCutover(s) ==> CutoverOf(t) == CutoverOf(s)
    ensures ActiveTables(t) == ActiveTables(s) && StagingTables(t) == StagingTables(s)
  {
    hide IsGroup, HasCutover, CutoverOf, PairSwapped;
    forall i: nat | i < GROUP_SIZE ensures SwappedAt(t, i) == SwappedAt(s, i) {
    }
  }

  predicate NoneSwapped(s: Sys) { forall i: nat :: i < GROUP_SIZE ==> !SwappedAt(s, i) }

  lemma UnswappedTables(s: Sys)
    requires IsGroup(s.active) && IsGroup(s.backup) && NoneSwapped(s)
    ensures ActiveTables(s) == s.active && StagingTables(s) == s.backup
  {
    hide SwappedAt;
  }

  /** Steps that leave the generations alone: committed staging data may only become uncommitted. */
  predicate IsPlain(e: Event) {
    !e.Start? && !e.JoinWorker? && !e.ImportDone? && !e.FanoutDone? && !e.Promote? && !e.PrepareShared? && !e.FanoutFails? && !e.WorkerFinishes?
  }

  predicate ViewsKept(s: Sys, t: Sys)
    requires IsGroup(s.active) && IsGroup(s.backup) && IsGroup(t.active) && IsGroup(t.backup)
  {
    && s.journal.Some? && t.journal.Some?
    && (s.journal.value.active.mintsPath.Some? ==> t.journal.value.active.mintsPath.Some? && ActiveView(t) == ActiveView(s))
    && (StagingView(t).Some? ==> StagingView(t) == StagingView(s))
  }

  lemma CleanupKeepsViews(s: Sys, e: Event)
    requires Inv(s) && s.journal.Some? && e.Cleanup? && Next(s, e).To?
    ensures Inv(Next(s, e).sys) && ViewsKept(s, Next(s, e).sys)
  {
    NextSafe(s, e);
    hide TablesOk, PcOk, ActiveTables, StagingTables, Load;
    InvHasGroups(s);
    SameTables(s, Next(s, e).sys);
  }

  lemma SteadyKeepsViews(s: Sys, t: Sys)
    requires Inv(s) && Inv(t) && s.journal.Some? && t.journal.Some?
    requires Quiet(s, s.journal.value, To(t)) && Steady(s, s.journal.value, To(t))
    ensures ViewsKept(s, t)
  {
    hide TablesOk, PcOk, PairsKnown, AllDifferent, ActiveTables, StagingTables, Load;
    InvHasGroups(s);
    InvHasGroups(t);
    SameTables(s, t);
  }

  /** Steps of the loop and of recovery. */
  lemma LoopKeepsViews(s: Sys, e: Event)
    requires Inv(s) && s.journal.Some? && Next(s, e).To?
    requires e.LoadActive? || e.LoadStaging? || e.JoinBuild? || e.Decide? || e.ApplySelected? || e.EnterFanout?
    ensures Inv(Next(s, e).sys) && ViewsKept(s, Next(s, e).sys)
  {
    hide Inv, LoadActiveStep, LoadStagingStep, JoinBuildStep, DecideStep, ApplySelectedStep, EnterFanoutStep, ViewsKept, Quiet, Steady;
    NextSafe(s, e);
    assert Quiet(s, s.journal.value, Next(s, e)) && Steady(s, s.journal.value, Next(s, e));
    QuietHasJournal(s, Next(s, e));
    SteadyKeepsViews(s, Next(s, e).sys);
  }

  lemma QuietHasJournal(s: Sys, o: Outcome)
    requires s.journal.Some? && Quiet(s, s.journal.value, o) && o.To?
    ensures o.sys.journal.Some?
  {
  }

  /** Steps that do not write the journal. */
  lemma SilentKeepViews(s: Sys, e: Event)
    requires Inv(s) && s.journal.Some? && FreezesUsable(e) && Next(s, e).To?
    requires e.Crash? || e.Boot? || e.FreezeActive? || e.BuildFinishes? || e.FreezeStaging?
    ensures Inv(Next(s, e).sys) && ViewsKept(s, Next(s, e).sys)
  {
    NextSafe(s, e);
    InvHasGroups(s);
    hide TablesOk, ActiveTables, StagingTables, Running, ExchangeOk, Load, Written, FreezesUsable;
    SameTables(s, Next(s, e).sys);
  }

  /** A derived table of `_bak` gets a new identity only while staging holds nothing committed. */
  lemma RebuildKeepsViews(s: Sys, e: Event)
    requires Inv(s) && s.journal.Some? && Next(s, e).To? && e.RebuildDerived?
    ensures Inv(Next(s, e).sys) && ViewsKept(s, Next(s, e).sys)
  {
    NextSafe(s, e);
    InvHasGroups(s);
    InvHasGroups(Next(s, e).sys);
    hide TablesOk, ActiveTables, StagingTables, Running, ExchangeOk, Load, FilesOk;
    assert !HasCutover(s) && !HasCutover(Next(s, e).sys);
    UnswappedTables(s);
    UnswappedTables(Next(s, e).sys);
  }

  /** Checkpoints that do not touch committed data. */
  lemma CheckpointsKeepViews(s: Sys, e: Event)
    requires Inv(s) && s.journal.Some? && Next(s, e).To? && (e.ClearDisabled? || e.PersistActive? || e.PersistShared?)
    ensures Inv(Next(s, e).sys) && ViewsKept(s, Next(s, e).sys)
  {
    NextSafe(s, e);
    InvHasGroups(s);
    hide TablesOk, ActiveTables, StagingTables, Running, FilesOk, ExchangeOk, Load;
    SameTables(s, Next(s, e).sys);
  }

  lemma CheckCutoverKeepsViews(s: Sys, e: Event)
    requires Inv(s) && s.journal.Some? && Next(s, e).To? && e.CheckCutover?
    ensures Inv(Next(s, e).sys) && ViewsKept(s, Next(s, e).sys)
  {
    NextSafe(s, e);
    InvHasGroups(s);
    hide PairsKnown, ActiveTables, StagingTables, Running, FilesOk, ExchangeOk, Load;
    var t := Next(s, e).sys;
    if HasCutover(s) {
      SameTables(s, t);
    } else {
      UnswappedTables(s);
      assert NoneSwapped(t);
      UnswappedTables(t);
    }
  }

  lemma ExchangeTables(s: Sys, t: Sys, i: nat)
    requires HasCutover(s) && HasCutover(t) && CutoverOf(t) == CutoverOf(s) && PairsKnown(CutoverOf(s), s.active, s.backup)
    requires i < GROUP_SIZE && PairOriginal(CutoverOf(s), s.active, s.backup, i)
    requires t.active == s.active[i := s.backup[i]] && t.backup == s.backup[i := s.active[i]]
    ensures ActiveTables(t) == ActiveTables(s) && StagingTables(t) == StagingTables(s)
  {
    hide HasCutover, CutoverOf;
    assert SwappedAt(t, i) && !SwappedAt(s, i);
    forall k: nat | k < GROUP_SIZE && k != i ensures SwappedAt(t, k) == SwappedAt(s, k) {
    }
  }

  /** An exchange moves tables between the groups, never between the generations. */
  lemma ExchangeKeepsViews(s: Sys, e: Event)
    requires Inv(s) && s.journal.Some? && Next(s, e).To? && e.ExchangePair?
    ensures Inv(Next(s, e).sys) && ViewsKept(s, Next(s, e).sys)
  {
    hide AllDifferent, FilesOk, Running, ActiveTables, StagingTables, Load;
    NextSafe(s, e);
    InvHasGroups(s);
    InvHasGroups(Next(s, e).sys);
    var c, pc, t := CutoverOf(s), s.proc.pc, Next(s, e).sys;
    if PairSwapped(c, pc.activeNow, pc.backupNow, pc.next) {
      SameTables(s, t);
    } else {
      ExchangeTables(s, t, pc.next);
    }
  }

  lemma PlainKeepsViews(s: Sys, e: Event)
    requires Inv(s) && s.journal.Some? && FreezesUsable(e) && Next(s, e).To? && IsPlain(e)
    ensures Inv(Next(s, e).sys) && ViewsKept(s, Next(s, e).sys)
  {
    hide Inv, Next, ViewsKept;
    if e.Cleanup? {
      CleanupKeepsViews(s, e);
    } else if e.ExchangePair? {
      ExchangeKeepsViews(s, e);
    } else if e.LoadActive? || e.LoadStaging? || e.JoinBuild? || e.Decide? || e.ApplySelected? || e.EnterFanout? {
      LoopKeepsViews(s, e);
    } else if e.ClearDisabled? || e.PersistActive? || e.PersistShared? {
      CheckpointsKeepViews(s, e);
    } else if e.CheckCutover? {
      CheckCutoverKeepsViews(s, e);
    } else if e.RebuildDerived? {
      RebuildKeepsViews(s, e);
    } else {
      SilentKeepViews(s, e);
    }
  }

  // ------------------------------------------------ the steps that matter

  /** Completed imports advance one watermark; promotion hands staging's view over. */
  lemma JoinWorkerViews(s: Sys)
    requires Inv(s) && Next(s, JoinWorker).To?
    ensures var t := Next(s, JoinWorker).sys;
      && s.journal.Some? && s.proc.Up? && Inv(t)
      && var m := s.proc.memory;
      if m.worker.Some? && m.worker.value.finished == Some(true) then
        && t.journal.Some? && ActiveView(t) == ActiveView(s) && t.journal.value.active.mintsPath == s.journal.value.active.mintsPath
        && StagingView(s).Some? && StagingView(t) == Some(StagingView(s).value.(maxSlot := m.worker.value.archive.slot))
      else ViewsKept(s, t)
  {
    hide ExchangeOk, TablesOk, ActiveKnown, StagingKnown, ActiveTables, StagingTables, Load;
    NextSafe(s, JoinWorker);
    InvHasGroups(s);
    SameTables(s, Next(s, JoinWorker).sys);
  }

  lemma ImportDoneViews(s: Sys)
    requires Inv(s) && Next(s, Event.ImportDone).To?
    ensures var t := Next(s, Event.ImportDone).sys;
      && s.journal.Some? && s.proc.Up? && s.proc.pc.Importing? && Inv(t)
      && var a := s.proc.pc.archive;
      && a.IncrementalArchive? && a.Fits(s.journal.value.active.maxSlot.GetOr(0))
      && t.journal.Some? && ActiveView(t) == ActiveView(s).(maxSlot := a.slot) && StagingView(t) == StagingView(s)
      && t.journal.value.active.mintsPath == s.journal.value.active.mintsPath
  {
    hide ExchangeOk, TablesOk, ActiveTables, StagingTables, Load;
    NextSafe(s, Event.ImportDone);
    InvHasGroups(s);
    SameTables(s, Next(s, Event.ImportDone).sys);
  }

  lemma FanoutDoneViews(s: Sys, spawned: bool)
    requires Inv(s) && Next(s, Event.FanoutDone(spawned)).To?
    ensures var t := Next(s, Event.FanoutDone(spawned)).sys;
      && s.journal.Some? && s.proc.Up? && s.proc.pc.FanningOut? && s.journal.value.shared.Some? && Inv(t)
      && var slot := s.journal.value.shared.value.snapshot.slot;
      && t.journal.Some? && ActiveView(t) == ActiveView(s).(maxSlot := slot)
      && StagingView(t) == Some(LaneView(slot, MintsOf(s.journal.value.staging, s.files), StagingTables(s)))
      && !HasCutover(s) && ActiveView(s).maxSlot == s.journal.value.shared.value.resumeSlot
      && t.journal.value.active.mintsPath == s.journal.value.active.mintsPath
  {
    hide ExchangeOk, TablesOk, Running, ActiveTables, StagingTables, Load;
    NextSafe(s, Event.FanoutDone(spawned));
    InvHasGroups(s);
    SameTables(s, Next(s, Event.FanoutDone(spawned)).sys);
  }

  /** At the end of the exchange the tables of staging have the serving names. */
  lemma ExchangedTables(s: Sys)
    requires IsGroup(s.active) && IsGroup(s.backup) && forall i: nat :: i < GROUP_SIZE ==> SwappedAt(s, i)
    ensures StagingTables(s) == s.active && ActiveTables(s) == s.backup
  {
    hide SwappedAt;
  }

  lemma ExchangeIsOver(s: Sys)
    requires Inv(s) && Next(s, Promote).To?
    ensures IsGroup(s.active) && IsGroup(s.backup) && forall i: nat :: i < GROUP_SIZE ==> SwappedAt(s, i)
  {
    hide AllDifferent, FilesOk, Running;
  }

  /** What is promoted is what staging committed: its watermark, its mints, and all six of its tables. */
  lemma PromoteViews(s: Sys)
    requires Inv(s) && Next(s, Promote).To?
    ensures var t := Next(s, Promote).sys;
      && s.journal.Some? && Inv(t) && StagingView(s).Some?
      && t.journal.Some? && ActiveView(t) == StagingView(s).value && StagingView(t).None?
      && !HasCutover(t) && t.active == StagingTables(s) && t.journal.value.active.mintsPath.Some?
  {
    hide TablesOk, ExchangeOk, ActiveTables, StagingTables, Load;
    NextSafe(s, Promote);
    ExchangeIsOver(s);
    ExchangedTables(s);
    UnswappedTables(Next(s, Promote).sys);
  }

  // --------------------------------------------------- the mints of staging

  /** The frozen set is the one that staging, while it is not disabled, is built for. */
  predicate FrozenFor(s: Sys, frozen: Mints) {
    s.journal.Some? ==>
      && (s.journal.value.staging.phase != Disabled ==> MintsOf(s.journal.value.staging, s.files) == frozen)
      && (s.proc.Up? && s.proc.pc.StagingFrozen? ==> s.proc.pc.mints == frozen)
  }

  function FrozenAfter(e: Event, frozen: Mints): Mints { if e.FreezeStaging? then SetOf(e.order) else frozen }

  /** No step gives staging another file; only a new generation does. */
  predicate SameStagingFile(s: Sys, t: Sys) {
    && s.journal.Some? && t.journal.Some?
    && (t.journal.value.staging.phase != Disabled ==>
          s.journal.value.staging.phase != Disabled && t.journal.value.staging.mintsPath == s.journal.value.staging.mintsPath)
    && (t.proc.Up? && t.proc.pc.StagingFrozen? ==> s.proc.Up? && s.proc.pc == t.proc.pc)
  }

  lemma LoopKeepsStagingFile(s: Sys, e: Event)
    requires Inv(s) && s.journal.Some? && Next(s, e).To?
    requires e.LoadActive? || e.LoadStaging? || e.JoinBuild? || e.Decide? || e.ApplySelected? || e.EnterFanout?
    ensures SameStagingFile(s, Next(s, e).sys)
  {
    hide Inv, LoadActiveStep, LoadStagingStep, JoinBuildStep, DecideStep, ApplySelectedStep;
  }

  lemma OtherStepsKeepStagingFile(s: Sys, e: Event)
    requires Inv(s) && s.journal.Some? && Next(s, e).To? && !e.PersistShared? && !e.FreezeStaging? && !e.JoinWorker? && !e.FanoutDone?
    requires !e.LoadActive? && !e.LoadStaging? && !e.JoinBuild? && !e.Decide? && !e.ApplySelected? && !e.EnterFanout?
    ensures SameStagingFile(s, Next(s, e).sys)
  {
    hide Inv, CleanedFiles, Quiet;
  }

  lemma LaneStepsKeepStagingFile(s: Sys, e: Event)
    requires Inv(s) && s.journal.Some? && Next(s, e).To? && (e.JoinWorker? || e.FanoutDone?)
    ensures SameStagingFile(s, Next(s, e).sys)
  {
    hide TablesOk, FilesOk, ExchangeOk, ActiveKnown, StagingKnown, Quiet;
  }

  lemma SameFileSameMints(s: Sys, e: Event, frozen: Mints)
    requires Inv(s) && FreezesUsable(e) && Next(s, e).To? && SameStagingFile(s, Next(s, e).sys) && FrozenFor(s, frozen)
    ensures FrozenFor(Next(s, e).sys, frozen)
  {
    hide Inv, Next, FreezesUsable, Load;
    var l := s.journal.value.staging;
    if l.phase != Disabled {
      StagingFileExists(s);
      StepKeepsMintFiles(s, e, l.mintsPath.value);
    }
  }

  lemma StagingFileExists(s: Sys)
    requires Inv(s) && s.journal.Some? && s.journal.value.staging.phase != Disabled
    ensures s.journal.value.staging.mintsPath.Some? && s.journal.value.staging.mintsPath.value in s.files
  {
    hide TablesOk, ProcOk, Load;
  }

  lemma FreezeKeepsFrozen(s: Sys, e: Event, frozen: Mints)
    requires Inv(s) && s.journal.Some? && FreezesUsable(e) && Next(s, e).To? && FrozenFor(s, frozen) && (e.FreezeStaging? || e.PersistShared?)
    ensures FrozenFor(Next(s, e).sys, FrozenAfter(e, frozen))
  {
    hide TablesOk, ExchangeOk, Running, FilesOk, Load, Written, FreezesUsable;
  }

  /** Whatever the step, staging goes on with the set frozen for it. */
  lemma StepKeepsFrozen(s: Sys, e: Event, frozen: Mints)
    requires Inv(s) && FreezesUsable(e) && Next(s, e).To? && FrozenFor(s, frozen)
    ensures FrozenFor(Next(s, e).sys, FrozenAfter(e, frozen))
  {
    if s.journal.None? {
      hide Inv, Load;
    } else {
      hide Inv, Next, FrozenFor, SameStagingFile;
      if e.FreezeStaging? || e.PersistShared? {
        FreezeKeepsFrozen(s, e, frozen);
      } else {
        if e.JoinWorker? || e.FanoutDone? {
          LaneStepsKeepStagingFile(s, e);
        } else if e.LoadActive? || e.LoadStaging? || e.JoinBuild? || e.Decide? || e.ApplySelected? || e.EnterFanout? {
          LoopKeepsStagingFile(s, e);
        } else {
          OtherStepsKeepStagingFile(s, e);
        }
        SameFileSameMints(s, e, frozen);
      }
    }
  }
}
