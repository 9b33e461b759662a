/**
 Unfinished work over whole runs: what a journal leaves undone is taken up
 again, and only its own report ends background work, so that no crash lets the
 merge wait or the first incremental be skipped.
 */
module StagingWork {
  import opened Wrappers
  import opened FrozenMints
  import opened Selection
  import opened Watcher
  import opened WatcherInvariant
  import opened WatcherRuns

  function BuildOf(s: Sys): Option<Build> { if s.proc.Up? then s.proc.memory.build else None }

  function WorkerOf(s: Sys): Option<StagingWorker> { if s.proc.Up? then s.proc.memory.worker else None }

  /** Steps whose contract says that they end no background work. */
  predicate IsMild(e: Event) { e.LoadActive? || e.LoadStaging? || e.JoinBuild? || e.Decide? || e.ApplySelected? }

  lemma MildSteps(s: Sys, e: Event)
    requires s.proc.Up? && IsMild(e) && Next(s, e).To?
    ensures Mild(s.proc.memory, Next(s, e))
  {
    hide Mild, LoadActiveStep, LoadStagingStep, JoinBuildStep, DecideStep, ApplySelectedStep;
  }

  /** Work that has ended in the new state `t` had ended before, unless this step is its report. */
  predicate EndsByReport(s: Sys, e: Event, t: Sys) {
    && (BuildOf(t).Some? && BuildOf(t).value.finished.Some? && BuildOf(t) != BuildOf(s) ==> e == BuildFinishes(BuildOf(t).value.finished.value))
    && (WorkerOf(t).Some? && WorkerOf(t).value.finished.Some? && WorkerOf(t) != WorkerOf(s) ==> e == WorkerFinishes(WorkerOf(t).value.finished.value))
  }

  lemma RunningReports(s: Sys, j: Journal, pc: Pc, m: Memory, e: Event)
    requires RunningStep(s, j, pc, m, e).To? && !IsMild(e) && s.proc == Up(pc, m)
    ensures EndsByReport(s, e, RunningStep(s, j, pc, m, e).sys)
  {
    hide CleanedFiles, Written, Quiet, Steady, Mild, SharedJournal, PromotedJournal, SharedDone, PairSwapped, PairOriginal,
         LoadActiveStep, LoadStagingStep, JoinBuildStep, DecideStep, ApplySelectedStep;
  }

  /** Only its own report ends background work. */
  lemma OnlyReportsEnd(s: Sys, e: Event)
    requires Next(s, e).To?
    ensures EndsByReport(s, e, Next(s, e).sys)
  {
    hide RunningStep;
    if s.proc.Up? && IsMild(e) {
      MildSteps(s, e);
      hide Next;
    } else if s.proc.Up? && s.journal.Some? && RunningStep(s, s.journal.value, s.proc.pc, s.proc.memory, e).To? {
      RunningReports(s, s.journal.value, s.proc.pc, s.proc.memory, e);
    }
  }

  // ----------------------------------------------------- work is taken up again

  predicate IsBestFor(a: Archive, incrementals: seq<Archive>, committed: nat) {
    a in incrementals && a.Fits(committed) && forall b <- incrementals :: b.Fits(committed) ==> Before(a, b)
  }

  predicate IsRestart(w: StagingWorker, incrementals: seq<Archive>, committed: nat) {
    w.finished.None? && w.resume == committed && IsBestFor(w.archive, incrementals, committed)
  }

  /**
   What a journal says is unfinished is what the next decision takes up, whatever the
   process remembers: a pending cutover, a shared load, staging's merge wait, and
   staging's incremental, on the best archive that fits its watermark now.
   */
  lemma UnfinishedIsTakenUp(s: Sys, fulls: seq<Archive>, incrementals: seq<Archive>)
    requires Inv(s) && s.journal.Some? && s.proc.Up? && Next(s, Decide(fulls, incrementals)).To?
    ensures var j, m, t := s.journal.value, s.proc.memory, Next(s, Decide(fulls, incrementals)).sys;
      && t.journal.Some? && t.proc.Up?
      && (j.active.phase == CutoverPending ==> t.proc.pc == CheckingCutover)
      && (j.shared.Some? ==> t.proc.pc == PreparingShared(fulls))
      && (j.active.phase == Ready && j.staging.phase == FullMerging ==>
            && j.staging.full.Some?
            && t.proc.memory.build == if m.build.Some? then m.build else Some(Build(j.staging.full.value, None)))
      && (j.active.phase == Ready && j.staging.phase == IncrementalLoading && m.worker.None? ==>
            && j.staging.maxSlot.Some?
            && if exists a <- incrementals :: a.Fits(j.staging.maxSlot.value)
               then t.proc.memory.worker.Some? && IsRestart(t.proc.memory.worker.value, incrementals, j.staging.maxSlot.value)
               else t.journal.value.staging.phase == Ready)
  {
    hide NewestEligible, NewestGeneration, TablesOk, FilesOk, ActiveKnown, Quiet, Steady, Mild, Before;
    if s.journal.value.staging.maxSlot.Some? {
      NewestEligibleIsBest(incrementals, s.journal.value.staging.maxSlot.value);
    }
  }

  /** A selected archive that fits an active lane that is ready is imported there. */
  lemma SelectedIsApplied(s: Sys)
    requires Inv(s) && s.journal.Some? && s.proc.Up? && s.proc.pc.Selected? && s.journal.value.active.maxSlot.Some?
    ensures var a, o := s.proc.pc.archive, Next(s, ApplySelected);
      && o.To? && o.sys.proc.Up? && o.sys.journal.Some?
      && (s.journal.value.active.phase == Ready && a.Fits(s.journal.value.active.maxSlot.value) ==>
            o.sys.proc.pc == Importing(a) && o.sys.journal.value.active.phase == IncrementalLoading)
  {
    hide TablesOk, FilesOk, StagingKnown, Quiet, Steady, Mild;
  }

  lemma ImportIsRecorded(s: Sys)
    requires s.journal.Some? && s.proc.Up? && s.proc.pc.Importing?
    ensures var o := Next(s, ImportDone);
      && o.To? && o.sys.journal.Some? && o.sys.proc.Up?
      && o.sys.journal.value.active.maxSlot == Some(s.proc.pc.archive.slot) && o.sys.journal.value.active.phase == Ready
      && o.sys.proc.memory.activeSlot == s.proc.pc.archive.slot && o.sys.journal.value.staging == s.journal.value.staging
  {
    hide Quiet, Mild, Steady;
  }

  // ----------------------------------------------------------- the merge wait

  /** Staging's full is committed and its merges have not been reported done. */
  predicate Merging(s: Sys) {
    && s.journal.Some? && s.journal.value.staging.phase == FullMerging
    && !(BuildOf(s).Some? && BuildOf(s).value.finished == Some(true))
  }

  lemma DecideKeepsMerging(s: Sys, j: Journal, m: Memory, fulls: seq<Archive>, incrementals: seq<Archive>)
    requires j.staging.phase == FullMerging && s.journal == Some(j)
    ensures var o := DecideStep(s, j, m, fulls, incrementals);
      o.To? ==> o.sys.journal.Some? && o.sys.journal.value.staging == j.staging
  {
    hide NewestEligible, NewestGeneration, IsListing, Quiet, Steady, Mild;
  }

  /** The steps of the loop leave staging merging until its build is done. */
  lemma LoopKeepsMerging(s: Sys, j: Journal, pc: Pc, m: Memory, e: Event)
    requires At(s, j, pc, m) && Merging(s) && RunningStep(s, j, pc, m, e).To? && IsMild(e)
    ensures var t := RunningStep(s, j, pc, m, e).sys; t.journal.Some? && t.journal.value.staging.phase == FullMerging
  {
    hide Inv, Quiet, Steady, Mild, Load, DecideStep;
    if e.Decide? {
      DecideKeepsMerging(s, j, m, e.fulls, e.incrementals);
    }
  }

  /** The remaining steps write another journal only in other phases of staging. */
  lemma OthersKeepMerging(s: Sys, j: Journal, pc: Pc, m: Memory, e: Event)
    requires At(s, j, pc, m) && Merging(s) && RunningStep(s, j, pc, m, e).To? && !IsMild(e)
    ensures var t := RunningStep(s, j, pc, m, e).sys; t.journal.Some? && t.journal.value.staging.phase == FullMerging
  {
    hide TablesOk, ExchangeOk, FilesOk, ActiveKnown, StagingKnown, CleanedFiles, Written, Quiet, Steady, Mild, Load, PairSwapped, PairOriginal,
         LoadActiveStep, LoadStagingStep, JoinBuildStep, DecideStep, ApplySelectedStep;
  }

  lemma StepKeepsPhase(s: Sys, e: Event)
    requires Inv(s) && Merging(s) && Next(s, e).To?
    ensures Next(s, e).sys.journal.Some? && Next(s, e).sys.journal.value.staging.phase == FullMerging
  {
    hide RunningStep, TablesOk, JournalOk, FilesOk, ActiveKnown, StagingKnown, ExchangeOk, WorkOk;
    if s.proc.Up? {
      var j, pc, m := s.journal.value, s.proc.pc, s.proc.memory;
      if RunningStep(s, j, pc, m, e).To? {
        if IsMild(e) { LoopKeepsMerging(s, j, pc, m, e); } else { OthersKeepMerging(s, j, pc, m, e); }
      }
    }
  }

  /** Whatever happens, crashes included, the merge wait is over only after it was reported done. */
  lemma {:induction false} MergeIsAwaited(s: Sys, events: seq<Event>)
    requires Inv(s) && Merging(s) && RunUsable(events) && BuildFinishes(true) !in events
    ensures Run(s, events).To? && Merging(Run(s, events).sys)
    decreases |events|
  {
    RunSafe(s, events);
    hide Inv, Next, FreezesUsable, Merging;
    if events != [] {
      var n := |events| - 1;
      MergeIsAwaited(s, events[..n]);
      RunSafe(s, events[..n]);
      var t := Run(s, events[..n]).sys;
      if Next(t, events[n]).To? {
        MergeStep(t, events[n]);
      }
    }
  }

  lemma MergeStep(s: Sys, e: Event)
    requires Inv(s) && Merging(s) && Next(s, e).To? && e != BuildFinishes(true)
    ensures Merging(Next(s, e).sys)
  {
    hide Inv, Next;
    StepKeepsPhase(s, e);
    OnlyReportsEnd(s, e);
  }

  // --------------------------------------------------------------- the cutover

  /** No cutover is pending and no staging import has been reported done. */
  predicate NotImported(s: Sys) {
    !Pending(s) && !(WorkerOf(s).Some? && WorkerOf(s).value.finished == Some(true))
  }

  lemma ImportStep(s: Sys, e: Event)
    requires Inv(s) && NotImported(s) && Next(s, e).To? && e != WorkerFinishes(true)
    ensures NotImported(Next(s, e).sys)
  {
    hide Inv;
    if !e.JoinWorker? {
      hide Next;
      OthersKeepNotPending(s, e);
    }
    OnlyReportsEnd(s, e);
  }

  /** Over all runs, a cutover becomes pending only after a staging import was reported done. */
  lemma {:induction false} CutoverIsEarned(s: Sys, events: seq<Event>)
    requires Inv(s) && NotImported(s) && RunUsable(events) && WorkerFinishes(true) !in events
    ensures Run(s, events).To? && NotImported(Run(s, events).sys)
    decreases |events|
  {
    RunSafe(s, events);
    hide Inv, Next, FreezesUsable, NotImported;
    if events != [] {
      var n := |events| - 1;
      CutoverIsEarned(s, events[..n]);
      RunSafe(s, events[..n]);
      var t := Run(s, events[..n]).sys;
      if Next(t, events[n]).To? {
        ImportStep(t, events[n]);
      }
    }
  }

  // ------------------------------------------------------- a disabled lane

  /** A disabled staging lane names no mint file, so that clean-up may remove what it named. */
  predicate NamesNothing(s: Sys) {
    s.journal.Some? && s.journal.value.staging.phase == Disabled ==> s.journal.value.staging.mintsPath.None?
  }

  /** Steps whose contract says that staging's path and whether it is disabled stay. */
  predicate IsSteady(e: Event) { IsMild(e) || e.EnterFanout? }

  lemma SteadySteps(s: Sys, e: Event)
    requires s.journal.Some? && IsSteady(e) && Next(s, e).To?
    ensures Steady(s, s.journal.value, Next(s, e))
  {
    hide Steady, Quiet, Mild, LoadActiveStep, LoadStagingStep, JoinBuildStep, DecideStep, ApplySelectedStep, EnterFanoutStep;
  }

  lemma OthersNameNothing(s: Sys, j: Journal, pc: Pc, m: Memory, e: Event)
    requires s.journal == Some(j) && JournalOk(j) && NamesNothing(s) && RunningStep(s, j, pc, m, e).To? && !IsSteady(e)
    ensures NamesNothing(RunningStep(s, j, pc, m, e).sys)
  {
    hide CleanedFiles, Written, Quiet, Mild, Steady, PairSwapped, PairOriginal,
         LoadActiveStep, LoadStagingStep, JoinBuildStep, DecideStep, ApplySelectedStep, EnterFanoutStep;
  }

  lemma DisabledStep(s: Sys, e: Event)
    requires Inv(s) && NamesNothing(s) && Next(s, e).To?
    ensures NamesNothing(Next(s, e).sys)
  {
    hide RunningStep, TablesOk, JournalOk, FilesOk, ProcOk;
    if IsSteady(e) && s.journal.Some? {
      SteadySteps(s, e);
      hide Next;
    } else if s.proc.Up? && s.journal.Some? && RunningStep(s, s.journal.value, s.proc.pc, s.proc.memory, e).To? {
      OthersNameNothing(s, s.journal.value, s.proc.pc, s.proc.memory, e);
    }
  }

  lemma {:induction false} DisabledNamesNothing(s: Sys, events: seq<Event>)
    requires Inv(s) && NamesNothing(s) && RunUsable(events)
    ensures Run(s, events).To? && NamesNothing(Run(s, events).sys)
    decreases |events|
  {
    RunSafe(s, events);
    hide Inv, Next, FreezesUsable, NamesNothing;
    if events != [] {
      var n := |events| - 1;
      DisabledNamesNothing(s, events[..n]);
      RunSafe(s, events[..n]);
      var t := Run(s, events[..n]).sys;
      if Next(t, events[n]).To? {
        DisabledStep(t, events[n]);
      }
    }
  }

  /** The first step of a process makes every disabled lane forget its path, and changes nothing else. */
  lemma ClearedLanes(s: Sys)
    requires s.journal.Some? && Next(s, ClearDisabled).To?
    ensures var j, t := s.journal.value, Next(s, ClearDisabled).sys;
      t.journal == Some(Journal(if j.active.phase == Disabled then j.active.(mintsPath := None) else j.active,
                                if j.staging.phase == Disabled then j.staging.(mintsPath := None) else j.staging, j.cutover, j.shared))
  {
    hide Quiet;
  }

  /** Clean-up leaves the files that an enabled lane names, and of the others only those whose removal fails. */
  lemma CleanupRemoves(s: Sys, survivors: set<Path>)
    requires s.journal.Some? && Next(s, Cleanup(survivors)).To?
    ensures var j, files := s.journal.value, Next(s, Cleanup(survivors)).sys.files;
      && (forall p :: p in files <==> p in s.files && (p in survivors || (exists l <- [j.active, j.staging] :: l.phase != Disabled && l.mintsPath == Some(p))))
      && (forall p :: p in files ==> files[p] == s.files[p])
  {
    var j := s.journal.value;
    assert [j.active, j.staging][0] == j.active && [j.active, j.staging][1] == j.staging;
  }
}
