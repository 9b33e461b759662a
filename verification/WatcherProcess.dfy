/**
 The watcher as it is written: one object whose methods assign lane fields and
 persist them. Each method performs a run of the state machine; a failed check
 or import ends the process, leaving what was persisted.
 */
module WatcherProcess {
  import opened Wrappers
  import opened ImportOutput
  import opened FrozenMints
  import opened Selection
  import opened Watcher
  import opened WatcherInvariant
  import opened WatcherRuns

  /** What the outside decides during one iteration. */
  datatype Outside = Outside(
    fulls: seq<Archive>, incrementals: seq<Archive>, mints: seq<Pubkey>, mintsPath: Path, survivors: set<Path>,
    prepareOk: bool, rebuilds: seq<(nat, Uuid)>, fanoutOk: bool, spawned: bool, importOk: bool)

  lemma TakeStep(s: Sys, events: seq<Event>, t: Sys, e: Event)
    requires Run(s, events) == To(t) && Inv(t) && FreezesUsable(e) && Next(t, e).To?
    ensures Run(s, events + [e]) == Next(t, e) && Inv(Next(t, e).sys)
  {
    hide Next, Inv;
    assert (events + [e])[..|events|] == events;
    NextSafe(t, e);
  }

  lemma NoSteps(s: Sys)
    ensures Run(s, []) == To(s)
  {
  }

  lemma {:induction false} RunConcat(s: Sys, first: seq<Event>, t: Sys, second: seq<Event>)
    requires Run(s, first) == To(t)
    ensures Run(s, first + second) == Run(t, second)
    decreases |second|
  {
    hide Next;
    if second == [] {
      assert first + second == first;
    } else {
      var n := |second| - 1;
      assert (first + second)[..|first + second| - 1] == first + second[..n];
      RunConcat(s, first, t, second[..n]);
    }
  }

  /** What one look at the journal and the directory leads to. */
  datatype Plan = DoCutover | DoShared | ResumeImport(archive: Archive) | TryImport(archive: Archive) | BeginShared(snapshot: Archive) | Again

  function PcOf(plan: Plan, fulls: seq<Archive>): Pc {
    match plan
    case DoCutover => CheckingCutover
    case DoShared => PreparingShared(fulls)
    case ResumeImport(_) => Deciding
    case TryImport(a) => Selected(a)
    case BeginShared(snapshot) => FreezingStaging(snapshot)
    case Again => JoiningBuild
  }

  class SnapshotWatcher {
    var journal: Journal
    var files: map<Path, FileText>
    var active: seq<Uuid>
    var backup: seq<Uuid>
    var activeSlot: nat
    var activeMints: Mints
    var stagingMints: Option<Mints>
    var stagingBuild: Option<Build>
    var stagingIncremental: Option<StagingWorker>

    function Mem(): Memory
      reads this
    {
      Memory(activeSlot, activeMints, stagingMints, stagingBuild, stagingIncremental)
    }

    /** The state of the machine at a point of the program. */
    function Abs(pc: Pc): Sys
      reads this
    {
      Sys(Some(journal), files, active, backup, Up(pc, Mem()))
    }

    /** What is left when the process ends here. */
    function Durable(): Sys
      reads this
    {
      Sys(Some(journal), files, active, backup, Down)
    }

    /** Remove the files no working lane refers to; some may survive. */
    method CleanupUnusedFrozenHotMints(survivors: set<Path>)
      modifies this`files
      ensures files == CleanedFiles(old(files), journal, survivors)
    {
      files := map p | p in files && (Referenced(journal, p) || p in survivors) :: files[p];
    }

    /** Without enabled mints nothing happens; a set that cannot be read back is frozen all the same. */
    method BeginSharedFullLoad(snapshot: Archive, order: seq<Pubkey>, path: Path, survivors: set<Path>)
      returns (r: Result<()>, ghost events: seq<Event>)
      requires Inv(Abs(FreezingStaging(snapshot))) && path !in files
      modifies this
      ensures r.Err? <==> order == []
      ensures r.Err? ==> events == [] && Abs(FreezingStaging(snapshot)) == old(Abs(FreezingStaging(snapshot)))
      ensures r.Ok? ==>
        && Run(old(Abs(FreezingStaging(snapshot))), events) == To(Abs(JoiningBuild))
        && (Usable(SetOf(order)) ==> Inv(Abs(JoiningBuild)))
        && journal == SharedJournal(old(journal), snapshot, path)
        && path in files && files[path] == Written(order) && stagingMints == Some(SetOf(order))
    {
      hide Run, Inv, Next, Written, Usable;
      ghost var start := Abs(FreezingStaging(snapshot));
      events := [];
      FreshStart(start, snapshot);
      NoSteps(start);
      if journal.staging.phase != Disabled {
        return Err("cannot begin shared full load while staging is not disabled"), events;
      }
      if journal.active.phase != Ready {
        return Err("cannot begin shared full load while active is not ready"), events;
      }
      if journal.active.maxSlot.None? {
        return Err("ready active has no committed max_slot"), events;
      }
      var activeResumeSlot := journal.active.maxSlot.value;
      if order == [] {
        return Err("hot_token_enabled is empty"), events;
      }
      var text := WriteMints(order);
      files := files[path := text];
      journal := Journal(journal.active.(phase := IncrementalLoading, inflight := Some(FullKind)),
                         Lane(FullLoading, Some(snapshot), None, Some(path), None),
                         None, Some(SharedLoad(snapshot, activeResumeSlot)));
      stagingMints := Some(SetOf(order));
      ghost var journaled := Abs(SharedJournaled);
      BeginRuns(start, snapshot, path, order, survivors, journaled);
      FileStaysReferenced(journaled, path);
      CleanupUnusedFrozenHotMints(survivors);
      events := [FreezeStaging(path, order)] + [PersistShared] + [Cleanup(survivors)];
      if Usable(SetOf(order)) {
        RunSafe(start, events);
      }
      return Ok(()), events;
    }

    /** Derived tables of `_bak` are rebuilt in clones and exchanged into place. */
    method RebuildDerivedTables(rebuilds: seq<(nat, Uuid)>, ghost start: Sys, ghost before: seq<Event>) returns (ghost events: seq<Event>)
      requires Inv(Abs(FanningOut)) && Run(start, before) == To(Abs(FanningOut))
      modifies this`backup
      ensures Inv(Abs(FanningOut)) && Run(start, events) == To(Abs(FanningOut))
    {
      hide Run, Inv, Next;
      events := before;
      var i := 0;
      while i < |rebuilds|
        invariant i <= |rebuilds|
        invariant Run(start, events) == To(Abs(FanningOut)) && Inv(Abs(FanningOut))
      {
        var (index, uuid) := rebuilds[i];
        if (index == HOT_INFO || index == BALANCES) && index < |backup| && uuid !in active && uuid !in backup {
          RebuildIs(Abs(FanningOut), index, uuid);
          TakeStep(start, events, Abs(FanningOut), RebuildDerived(index, uuid));
          events := events + [RebuildDerived(index, uuid)];
          backup := backup[index := uuid];
        }
        i := i + 1;
      }
    }

    /** Read the archive once for both groups, then record both lanes at once. */
    method CompleteSharedFullLoad(fulls: seq<Archive>, rebuilds: seq<(nat, Uuid)>, fanoutOk: bool, spawned: bool)
      returns (r: Result<()>, ghost events: seq<Event>, ghost pc: Pc)
      requires Inv(Abs(SharedPrepared(fulls)))
      modifies this
      ensures Run(old(Abs(SharedPrepared(fulls))), events) == To(Abs(pc)) && Inv(Abs(pc))
      // A missing archive ends the process; a failed import is repeated.
      ensures r.Err? ==> journal == old(journal) && (pc == SharedPrepared(fulls) || pc == JoiningBuild)
      ensures r.Err? && pc == SharedPrepared(fulls) ==> old(journal).shared.Some? && old(journal).shared.value.snapshot !in fulls
      ensures r.Ok? ==>
        && pc == JoiningBuild && old(journal).shared.Some?
        && journal == SharedDone(old(journal), old(journal).shared.value.snapshot.slot)
        && activeSlot == old(journal).shared.value.snapshot.slot
      ensures active == old(active)
    {
      hide Run, Inv, Next, Quiet, Steady, Mild;
      ghost var start := Abs(SharedPrepared(fulls));
      events, pc := [], SharedPrepared(fulls);
      NoSteps(start);
      SharedStart(start, fulls);
      var shared := journal.shared.value;
      if shared.snapshot !in fulls {
        return Err("cannot resume full snapshot: archive is missing"), events, pc;
      }
      if stagingMints.None? || journal.staging.phase != FullLoading || journal.active.phase != IncrementalLoading
        || journal.active.inflight != Some(FullKind) || journal.active.maxSlot != Some(shared.resumeSlot) {
        return Err("shared full checkpoint does not fit"), events, pc;
      }
      EnterFanoutIs(start, fulls);
      TakeStep(start, events, start, EnterFanout);
      r, events := LoadBothGroups(rebuilds, fanoutOk, spawned, start, events + [EnterFanout]);
      pc := JoiningBuild;
    }

    /** The import itself, and its record if it succeeds. */
    method LoadBothGroups(rebuilds: seq<(nat, Uuid)>, fanoutOk: bool, spawned: bool, ghost start: Sys, ghost before: seq<Event>)
      returns (r: Result<()>, ghost events: seq<Event>)
      requires Inv(Abs(FanningOut)) && Run(start, before) == To(Abs(FanningOut)) && journal.shared.Some?
      modifies this`journal, this`activeSlot, this`stagingBuild, this`backup
      ensures Run(start, events) == To(Abs(JoiningBuild)) && Inv(Abs(JoiningBuild))
      ensures r.Err? ==> journal == old(journal)
      ensures r.Ok? ==>
        && journal == SharedDone(old(journal), old(journal).shared.value.snapshot.slot)
        && activeSlot == old(journal).shared.value.snapshot.slot
    {
      hide Run, Inv, Next;
      events := RebuildDerivedTables(rebuilds, start, before);
      if !fanoutOk {
        FanoutFailsIs(Abs(FanningOut));
        TakeStep(start, events, Abs(FanningOut), FanoutFails);
        return Err("full snapshot fanout failed"), events + [FanoutFails];
      }
      events := RecordSharedLoad(spawned, start, events);
      return Ok(()), events;
    }

    /** Both lanes are recorded as having the archive's slot, in one step. */
    method RecordSharedLoad(spawned: bool, ghost start: Sys, ghost before: seq<Event>) returns (ghost events: seq<Event>)
      requires Inv(Abs(FanningOut)) && Run(start, before) == To(Abs(FanningOut)) && journal.shared.Some?
      modifies this`journal, this`activeSlot, this`stagingBuild
      ensures Run(start, events) == To(Abs(JoiningBuild)) && Inv(Abs(JoiningBuild))
      ensures journal == SharedDone(old(journal), old(journal).shared.value.snapshot.slot)
      ensures activeSlot == old(journal).shared.value.snapshot.slot
    {
      hide Run, Inv, Next;
      ghost var now := Abs(FanningOut);
      FanoutDoneIs(now, spawned);
      TakeStep(start, before, now, FanoutDone(spawned));
      var shared := journal.shared.value;
      var slot := shared.snapshot.slot;
      journal := Journal(journal.active.(maxSlot := Some(slot), phase := Ready, inflight := None),
                         journal.staging.(maxSlot := Some(slot), phase := FullMerging, inflight := None),
                         journal.cutover, None);
      activeSlot := slot;
      stagingBuild := if spawned then Some(Build(shared.snapshot, None)) else None;
      return before + [FanoutDone(spawned)];
    }

    /** Checkpoint, import, checkpoint. `false` means that the archive adds nothing. */
    method ApplyActiveIncremental(candidate: Archive, importOk: bool, ghost pc: Pc, ghost e: Event)
      returns (r: Result<bool>, ghost events: seq<Event>, ghost end: Pc)
      requires Inv(Abs(pc)) && FreezesUsable(e) && Next(Abs(pc), e) == BeginActive(Abs(pc), journal, Mem(), candidate)
      modifies this
      ensures Run(old(Abs(pc)), events) == To(Abs(end)) && Inv(Abs(end))
      ensures r.Ok? && !r.value ==> candidate.slot <= old(activeSlot) && end == pc && events == [] && Abs(pc) == old(Abs(pc))
      ensures r.Ok? && r.value ==>
        && end == JoiningBuild && activeSlot == candidate.slot > old(activeSlot)
        && journal == old(journal).(active := old(journal).active.(maxSlot := Some(candidate.slot), phase := Ready, inflight := None))
      ensures r.Err? ==> !importOk && end == Importing(candidate) && activeSlot == old(activeSlot)
      ensures r.Err? ==> journal.active.phase == IncrementalLoading && journal.active.maxSlot == old(journal).active.maxSlot
      ensures stagingBuild == old(stagingBuild) && stagingIncremental == old(stagingIncremental) && stagingMints == old(stagingMints)
    {
      hide Run, Inv, Next, FreezesUsable, Quiet, Steady, Mild;
      ghost var start := Abs(pc);
      events, end := [], pc;
      NoSteps(start);
      if candidate.slot <= activeSlot {
        return Ok(false), events, end;
      }
      TakeStep(start, events, start, e);
      events, end := events + [e], Importing(candidate);
      journal := journal.(active := journal.active.(phase := IncrementalLoading, inflight := Some(KindOf(candidate))));
      ghost var importing := Abs(Importing(candidate));
      if !importOk {
        return Err("active incremental import failed"), events, end;
      }
      ImportDoneIs(importing, candidate);
      ImportDoneFreezesNothing();
      TakeStep(start, events, importing, Event.ImportDone);
      events, end := events + [Event.ImportDone], JoiningBuild;
      activeSlot := candidate.slot;
      journal := journal.(active := journal.active.(maxSlot := Some(activeSlot), phase := Ready, inflight := None));
      return Ok(true), events, end;
    }

    /** Record the identities, exchange what is not yet exchanged, change the lanes over. */
    method FinishCutover(survivors: set<Path>) returns (r: Result<()>, ghost events: seq<Event>)
      requires Inv(Abs(CheckingCutover))
      modifies this
      ensures r.Ok? && Run(old(Abs(CheckingCutover)), events) == To(Abs(JoiningBuild)) && Inv(Abs(JoiningBuild))
      ensures var c := if old(journal).cutover.Some? then old(journal).cutover.value else Checkpoint(old(active), old(backup));
        active == c.stagingTables && backup == c.activeTables
      ensures journal == PromotedJournal(old(journal)) && old(stagingMints).Some? && activeMints == old(stagingMints).value
      ensures stagingMints.None? && Some(activeSlot) == journal.active.maxSlot
    {
      hide Run, Inv, Next;
      ghost var start := Abs(CheckingCutover);
      events := [];
      NoSteps(start);
      CutoverStart(start);
      if journal.staging.maxSlot.None? {
        return Err("cutover pending without a committed staging max_slot"), events;
      }
      CheckCutoverIs(start);
      TakeStep(start, events, start, CheckCutover);
      events := events + [CheckCutover];
      if journal.cutover.None? {
        journal := journal.(cutover := Some(Checkpoint(active, backup)));
      }
      var checkpoint := journal.cutover.value;
      var exchanged, swapEvents := ExchangeTableGroups(checkpoint, start, events);
      events := swapEvents;
      if exchanged.Err? {
        return exchanged, events;
      }
      events := ChangeLanesOver(survivors, old(active), old(backup), start, events);
      return Ok(()), events;
    }

    /** After the last exchange: the new mints, the new lanes, the checkpoint, the clean-up. */
    method ChangeLanesOver(survivors: set<Path>, ghost activeNow: seq<Uuid>, ghost backupNow: seq<Uuid>, ghost start: Sys, ghost before: seq<Event>)
      returns (ghost events: seq<Event>)
      requires Inv(Abs(Exchanging(GROUP_SIZE, activeNow, backupNow))) && Run(start, before) == To(Abs(Exchanging(GROUP_SIZE, activeNow, backupNow)))
      modifies this
      ensures Run(start, events) == To(Abs(JoiningBuild)) && Inv(Abs(JoiningBuild))
      ensures old(journal).cutover.Some? && active == old(journal).cutover.value.stagingTables && backup == old(journal).cutover.value.activeTables
      ensures journal == PromotedJournal(old(journal)) && old(stagingMints).Some? && activeMints == old(stagingMints).value
      ensures stagingMints.None? && Some(activeSlot) == journal.active.maxSlot
    {
      hide Run, Inv, Next, CleanedFiles;
      ghost var exchanged := Abs(Exchanging(GROUP_SIZE, activeNow, backupNow));
      AllSwapped(exchanged);
      PromoteIs(exchanged);
      TakeStep(start, before, exchanged, Promote);
      events := before + [Promote];
      activeMints := stagingMints.value;
      var oldActive, promoted := journal.active, journal.staging;
      journal := Journal(promoted.(phase := Ready, inflight := None), oldActive.(phase := Disabled, inflight := None, mintsPath := None), None, None);
      ghost var promotedState := Abs(Promoted);
      CleanupPromotedIs(promotedState, survivors);
      TakeStep(start, events, promotedState, Cleanup(survivors));
      events := events + [Cleanup(survivors)];
      CleanupUnusedFrozenHotMints(survivors);
      activeSlot := journal.active.maxSlot.GetOr(0);
      stagingMints := None;
    }

    /** The identities are read once; each pair that is still as recorded is exchanged. */
    method ExchangeTableGroups(checkpoint: Checkpoint, ghost start: Sys, ghost before: seq<Event>) returns (r: Result<()>, ghost events: seq<Event>)
      requires journal.cutover == Some(checkpoint) && Inv(Abs(Exchanging(0, active, backup)))
      requires Run(start, before) == To(Abs(Exchanging(0, active, backup)))
      modifies this`active, this`backup
      ensures r.Ok? && Run(start, events) == To(Abs(Exchanging(GROUP_SIZE, old(active), old(backup))))
      ensures Inv(Abs(Exchanging(GROUP_SIZE, old(active), old(backup))))
    {
      hide Run, Inv, Next;
      var activeNow, backupNow := active, backup;
      events := before;
      var i := 0;
      while i < GROUP_SIZE
        invariant i <= GROUP_SIZE && Inv(Abs(Exchanging(i, activeNow, backupNow)))
        invariant Run(start, events) == To(Abs(Exchanging(i, activeNow, backupNow)))
      {
        ghost var now := Abs(Exchanging(i, activeNow, backupNow));
        ExchangeStart(now);
        TakeStep(start, events, now, ExchangePair);
        events := events + [ExchangePair];
        if activeNow[i] == checkpoint.stagingTables[i] && backupNow[i] == checkpoint.activeTables[i] {
          i := i + 1;
          continue;
        }
        if activeNow[i] != checkpoint.activeTables[i] || backupNow[i] != checkpoint.stagingTables[i] {
          return Err("cannot safely resume cutover"), events;
        }
        active, backup := active[i := backup[i]], backup[i := active[i]];
        i := i + 1;
      }
      return Ok(()), events;
    }

    /** The end of the merge wait makes staging ready; its failure ends the process. */
    method JoinStagingBuild(ghost start: Sys, ghost before: seq<Event>) returns (r: Result<()>, ghost events: seq<Event>)
      requires Inv(Abs(JoiningBuild)) && Run(start, before) == To(Abs(JoiningBuild))
      modifies this`journal, this`stagingBuild
      ensures r.Ok? ==> Run(start, events) == To(Abs(JoiningWorker)) && Inv(Abs(JoiningWorker))
      ensures r.Err? ==> Run(start, events) == To(Durable())
    {
      hide Run, Inv, Next, FreezesUsable, JoinBuildStep;
      ghost var now := Abs(JoiningBuild);
      BuildStart(now);
      JoinBuildFreezesNothing();
      TakeStep(start, before, now, JoinBuild);
      events := before + [JoinBuild];
      r := JoinMergeWait();
    }

    method JoinMergeWait() returns (r: Result<()>)
      requires JoinBuildStep(Abs(JoiningBuild), journal, Mem()).To?
      modifies this`journal, this`stagingBuild
      ensures JoinBuildStep(old(Abs(JoiningBuild)), old(journal), old(Mem())) == To(if r.Ok? then Abs(JoiningWorker) else Durable())
    {
      hide Quiet, Steady, Mild;
      if stagingBuild.None? || stagingBuild.value.finished.None? {
        return Ok(());
      }
      if !stagingBuild.value.finished.value {
        return Err("MERGE convergence failed");
      }
      stagingBuild := None;
      if journal.staging.phase != FullMerging {
        return Err("staging full worker finished without a full_merging checkpoint");
      }
      journal := journal.(staging := journal.staging.(phase := Ready));
      return Ok(());
    }

    /** The end of staging's first incremental stops active and makes the cutover pending. */
    method JoinStagingIncremental(ghost start: Sys, ghost before: seq<Event>) returns (r: Result<()>, ghost events: seq<Event>)
      requires Inv(Abs(JoiningWorker)) && Run(start, before) == To(Abs(JoiningWorker))
      modifies this`journal, this`stagingIncremental
      ensures r.Ok? ==> Run(start, events) == To(Abs(Deciding)) && Inv(Abs(Deciding))
      ensures r.Err? ==> Run(start, events) == To(Durable())
    {
      hide Run, Inv, Next, Quiet, Steady, Mild;
      ghost var now := Abs(JoiningWorker);
      WorkerStart(now);
      TakeStep(start, before, now, JoinWorker);
      events := before + [JoinWorker];
      if stagingIncremental.Some? && stagingIncremental.value.finished.Some? {
        var worker := stagingIncremental.value;
        if !worker.finished.value {
          return Err("staging incremental import failed"), events;
        }
        stagingIncremental := None;
        journal := journal.(
          staging := journal.staging.(maxSlot := Some(worker.archive.slot), phase := CutoverPending, inflight := None),
          active := journal.active.(phase := CutoverPending, inflight := None));
      }
      return Ok(()), events;
    }

    /** Everything between the joins and the next piece of work. */
    method DecideNext(fulls: seq<Archive>, incrementals: seq<Archive>, ghost start: Sys, ghost before: seq<Event>)
      returns (r: Result<Plan>, ghost events: seq<Event>)
      requires Inv(Abs(Deciding)) && Run(start, before) == To(Abs(Deciding)) && IsListing(fulls, incrementals)
      modifies this
      ensures r.Ok? && Run(start, events) == To(Abs(PcOf(r.value, fulls))) && Inv(Abs(PcOf(r.value, fulls)))
      ensures r.value.ResumeImport? ==>
        && Next(Abs(Deciding), Decide(fulls, incrementals)) == BeginActive(Abs(Deciding), journal, Mem(), r.value.archive)
        && r.value.archive.slot > activeSlot
      ensures files == old(files)
    {
      hide Run, Inv, Next, NewestEligible, NewestGeneration, DecideStaging, Quiet, Steady, Mild;
      ghost var now := Abs(Deciding);
      events := before + [Decide(fulls, incrementals)];
      DecideStart(now, fulls, incrementals);
      if journal.active.phase == CutoverPending && journal.staging.phase == CutoverPending {
        if stagingMints.None? {
          return Err("cutover pending without staging frozen hot-mint set"), before;
        }
        TakeStep(start, before, now, Decide(fulls, incrementals));
        return Ok(DoCutover), events;
      }
      if journal.shared.Some? {
        if stagingBuild.Some? || stagingIncremental.Some? {
          return Err("shared full checkpoint conflicts with a staging worker"), before;
        }
        TakeStep(start, before, now, Decide(fulls, incrementals));
        return Ok(DoShared), events;
      }
      if journal.active.phase == IncrementalLoading {
        if journal.active.inflight.None? {
          return Err("active incremental_loading without inflight snapshot"), before;
        }
        var candidate := NewestEligible(incrementals, activeSlot);
        NewestEligibleIsBest(incrementals, activeSlot);
        if candidate.None? {
          TakeStep(start, before, now, Decide(fulls, incrementals));
          journal := journal.(active := journal.active.(phase := Ready, inflight := None));
          return Ok(Again), events;
        }
        return Ok(ResumeImport(candidate.value)), before;
      }
      r, events := DecideStagingWork(fulls, incrementals, start, before);
    }

    /** Restart what staging was doing; then look for a new generation and for new incrementals. */
    method DecideStagingWork(fulls: seq<Archive>, incrementals: seq<Archive>, ghost start: Sys, ghost before: seq<Event>)
      returns (r: Result<Plan>, ghost events: seq<Event>)
      requires Inv(Abs(Deciding)) && Run(start, before) == To(Abs(Deciding)) && IsListing(fulls, incrementals)
      requires journal.active.phase == Ready && journal.shared.None?
      modifies this
      ensures r.Ok? && Run(start, events) == To(Abs(PcOf(r.value, fulls))) && Inv(Abs(PcOf(r.value, fulls)))
      ensures files == old(files) && !r.value.ResumeImport?
    {
      hide Run, Inv, Next, NewestEligible, NewestGeneration, Quiet, Steady, Mild, DecideStaging;
      ghost var now := Abs(Deciding);
      events := before + [Decide(fulls, incrementals)];
      DecideStart(now, fulls, incrementals);
      assert Next(now, Decide(fulls, incrementals)) == DecideStaging(now, journal, Mem(), fulls, incrementals);
      TakeStep(start, before, now, Decide(fulls, incrementals));
      var again := RestartStagingWork(fulls, incrementals, now);
      if again.value {
        return Ok(Again), events;
      }
      if journal.staging.phase == Disabled && stagingBuild.None? {
        var generation := NewestFullGeneration(fulls, ActiveFullSlot(journal));
        if generation.Some? {
          return Ok(BeginShared(generation.value)), events;
        }
      }
      var plan := SelectIncremental(incrementals, now);
      return Ok(plan), events;
    }

    /** Start again what a crash has ended; an incremental without a fitting archive is given up. */
    method RestartStagingWork(fulls: seq<Archive>, incrementals: seq<Archive>, ghost now: Sys) returns (again: Result<bool>)
      requires now == Abs(Deciding) && journal.staging.phase != FullLoading && (journal.staging.phase != Disabled ==> stagingMints.Some?)
      requires journal.staging.phase == FullMerging ==> journal.staging.full.Some?
      requires journal.staging.phase == IncrementalLoading ==> journal.staging.inflight == Some(IncrementalKind) && journal.staging.maxSlot.Some?
      modifies this`journal, this`stagingBuild, this`stagingIncremental
      ensures again.Ok?
      ensures DecideStaging(now, old(journal), old(Mem()), fulls, incrementals)
           == if again.value then To(Abs(JoiningBuild)) else DecideNew(now, journal, Mem(), fulls, incrementals)
      ensures !again.value ==> journal == old(journal)
    {
      hide NewestEligible, Quiet, Steady, Mild, DecideNew;
      if journal.staging.phase == FullMerging && stagingBuild.None? {
        if journal.staging.full.None? {
          return Err("staging full_merging without full snapshot");
        }
        stagingBuild := Some(Build(journal.staging.full.value, None));
      }
      if journal.staging.phase == IncrementalLoading && stagingIncremental.None? {
        if journal.staging.inflight != Some(IncrementalKind) || journal.staging.maxSlot.None? {
          return Err("staging incremental_loading without a committed max_slot");
        }
        var candidate := NewestEligible(incrementals, journal.staging.maxSlot.value);
        if candidate.None? {
          journal := journal.(staging := journal.staging.(phase := Ready, inflight := None));
          return Ok(true);
        }
        if stagingMints.None? {
          return Err("staging restart requires frozen hot-mint set");
        }
        stagingIncremental := Some(StagingWorker(candidate.value, journal.staging.maxSlot.value, None));
      }
      return Ok(false);
    }

    /** Staging's candidate first; active's own only if staging has none. */
    method SelectIncremental(incrementals: seq<Archive>, ghost now: Sys) returns (plan: Plan)
      requires DecideIncremental(now, journal, Mem(), incrementals).To?
      requires now == Sys(Some(journal), files, active, backup, now.proc) && (journal.staging.phase == Ready ==> journal.staging.maxSlot.Some?)
      modifies this`journal, this`stagingIncremental
      ensures plan.TryImport? || plan.Again?
      ensures DecideIncremental(now, old(journal), old(Mem()), incrementals) == To(Abs(PcOf(plan, [])))
    {
      hide NewestEligible;
      var activeCandidate := if journal.active.phase == Ready then NewestEligible(incrementals, activeSlot) else None;
      var stagingCandidate := None;
      if stagingIncremental.None? && journal.staging.phase == Ready {
        stagingCandidate := NewestEligible(incrementals, journal.staging.maxSlot.value);
      }
      var selected := if stagingCandidate.Some? then stagingCandidate else activeCandidate;
      if selected.None? {
        return Again;
      }
      if stagingCandidate.Some? {
        var stageSlot := journal.staging.maxSlot.value;
        journal := journal.(staging := journal.staging.(phase := IncrementalLoading, inflight := Some(KindOf(selected.value))));
        stagingIncremental := Some(StagingWorker(selected.value, stageSlot, None));
      }
      return TryImport(selected.value);
    }

    /**
     One iteration of the loop. It leads back to the top of the loop, or ends
     the process with the durable state of some run of the machine.
     */
    method Iterate(o: Outside) returns (r: Result<()>, ghost events: seq<Event>)
      requires Inv(Abs(JoiningBuild)) && IsListing(o.fulls, o.incrementals) && o.mintsPath !in files
      modifies this
      ensures r.Ok? ==> Run(old(Abs(JoiningBuild)), events) == To(Abs(JoiningBuild))
      ensures r.Ok? && Usable(SetOf(o.mints)) ==> Inv(Abs(JoiningBuild))
      ensures r.Err? ==> Run(old(Abs(JoiningBuild)), events) == To(Durable())
    {
      hide Run, Inv, Next;
      ghost var start := Abs(JoiningBuild);
      events := [];
      NoSteps(start);
      var joined, joinEvents := JoinStagingBuild(start, events);
      if joined.Err? {
        return joined, joinEvents;
      }
      var imported, importEvents := JoinStagingIncremental(start, joinEvents);
      if imported.Err? {
        return imported, importEvents;
      }
      var plan, planEvents := DecideNext(o.fulls, o.incrementals, start, importEvents);
      r, events := FollowPlan(plan.value, o, start, planEvents);
    }

    method FollowPlan(plan: Plan, o: Outside, ghost start: Sys, ghost before: seq<Event>) returns (r: Result<()>, ghost events: seq<Event>)
      requires Inv(Abs(PcOf(plan, o.fulls))) && Run(start, before) == To(Abs(PcOf(plan, o.fulls)))
      requires IsListing(o.fulls, o.incrementals) && o.mintsPath !in files
      requires plan.ResumeImport? ==>
        && plan.archive.slot > activeSlot
        && Next(Abs(Deciding), Decide(o.fulls, o.incrementals)) == BeginActive(Abs(Deciding), journal, Mem(), plan.archive)
      modifies this
      ensures r.Ok? ==> Run(start, events) == To(Abs(JoiningBuild))
      ensures r.Ok? && Usable(SetOf(o.mints)) ==> Inv(Abs(JoiningBuild))
      ensures r.Err? ==> Run(start, events) == To(Durable())
    {
      hide Run, Inv, Next, BeginActive;
      ghost var now := Abs(PcOf(plan, o.fulls));
      match plan {
        case DoCutover =>
          var done, more := FinishCutover(o.survivors);
          RunConcat(start, before, now, more);
          return Ok(()), before + more;
        case DoShared =>
          PrepareSharedIs(now, o.fulls, o.prepareOk);
          TakeStep(start, before, now, PrepareShared(o.prepareOk));
          if !o.prepareOk {
            return Ok(()), before + [PrepareShared(false)];
          }
          ghost var prepared := Abs(SharedPrepared(o.fulls));
          SharedStart(prepared, o.fulls);
          if journal.shared.value.snapshot !in o.fulls {
            ExitHere(start, before + [PrepareShared(true)], prepared);
            return Err("cannot resume full snapshot: archive is missing"), before + [PrepareShared(true)] + [Crash];
          }
          var done, more, pc := CompleteSharedFullLoad(o.fulls, o.rebuilds, o.fanoutOk, o.spawned);
          RunConcat(start, before + [PrepareShared(true)], prepared, more);
          return Ok(()), before + [PrepareShared(true)] + more;
        case ResumeImport(a) =>
          var done, more, pc := ApplyActiveIncremental(a, o.importOk, Deciding, Decide(o.fulls, o.incrementals));
          RunConcat(start, before, now, more);
          r, events := EndImport(done, pc, start, before + more);
        case TryImport(a) =>
          if journal.active.phase == Ready && a.Fits(activeSlot) {
            ApplySelectedIs(now, a);
            var done, more, pc := ApplyActiveIncremental(a, o.importOk, Selected(a), ApplySelected);
            RunConcat(start, before, now, more);
            r, events := EndImport(done, pc, start, before + more);
          } else {
            ApplySelectedIs(now, a);
            TakeStep(start, before, now, ApplySelected);
            return Ok(()), before + [ApplySelected];
          }
        case BeginShared(snapshot) =>
          var done, more := BeginSharedFullLoad(snapshot, o.mints, o.mintsPath, o.survivors);
          if done.Err? {
            ExitHere(start, before, now);
            return done, before + [Crash];
          }
          RunConcat(start, before, now, more);
          return Ok(()), before + more;
        case Again =>
          return Ok(()), before;
      }
    }

    /** A failed import ends the process. */
    method EndImport(done: Result<bool>, ghost pc: Pc, ghost start: Sys, ghost before: seq<Event>) returns (r: Result<()>, ghost events: seq<Event>)
      requires Run(start, before) == To(Abs(pc)) && Inv(Abs(pc)) && (done.Ok? ==> pc == JoiningBuild)
      ensures r.Ok? <==> done.Ok?
      ensures r.Ok? ==> Run(start, events) == To(Abs(JoiningBuild)) && Inv(Abs(JoiningBuild))
      ensures r.Err? ==> Run(start, events) == To(Durable())
    {
      hide Run, Inv, Next;
      if done.Err? {
        ExitHere(start, before, Abs(pc));
        return Err(done.reason), before + [Crash];
      }
      return Ok(()), before;
    }
  }

  // -------------------------------------------- what the invariant says at points

  lemma FreshStart(s: Sys, snapshot: Archive)
    requires Inv(s) && s.journal.Some? && s.proc.Up? && s.proc.pc == FreezingStaging(snapshot)
    ensures var j := s.journal.value; j.staging.phase == Disabled && j.active.phase == Ready && j.active.maxSlot.Some?
  {
    hide TablesOk, FilesOk;
  }

  lemma FileStaysReferenced(s: Sys, path: Path)
    requires s.journal.Some? && s.journal.value.staging.phase != Disabled && s.journal.value.staging.mintsPath == Some(path)
    ensures Referenced(s.journal.value, path)
  {
  }

  lemma SharedStart(s: Sys, fulls: seq<Archive>)
    requires Inv(s) && s.journal.Some? && s.proc.Up? && s.proc.pc == SharedPrepared(fulls)
    ensures s.journal.value.shared.Some? && s.proc.memory.stagingMints.Some?
    ensures var j := s.journal.value;
      j.staging.phase == FullLoading && j.active.phase == IncrementalLoading && j.active.inflight == Some(FullKind)
      && j.active.maxSlot == Some(j.shared.value.resumeSlot)
  {
    hide TablesOk;
  }

  lemma EnterFanoutIs(s: Sys, fulls: seq<Archive>)
    requires Inv(s) && s.journal.Some? && s.proc.Up? && s.proc.pc == SharedPrepared(fulls)
    requires s.journal.value.shared.Some? && s.journal.value.shared.value.snapshot in fulls
    ensures Next(s, EnterFanout) == To(s.(proc := Up(FanningOut, s.proc.memory)))
  {
    hide Inv;
    SharedStart(s, fulls);
  }

  lemma RebuildIs(s: Sys, index: nat, uuid: Uuid)
    requires s.journal.Some? && s.proc.Up? && s.proc.pc == FanningOut
    requires (index == HOT_INFO || index == BALANCES) && index < |s.backup| && uuid !in s.active && uuid !in s.backup
    ensures Next(s, RebuildDerived(index, uuid)) == To(s.(backup := s.backup[index := uuid]))
  {
  }

  lemma FanoutFailsIs(s: Sys)
    requires s.journal.Some? && s.proc.Up? && s.proc.pc == FanningOut
    ensures Next(s, FanoutFails) == To(s.(proc := Up(JoiningBuild, s.proc.memory)))
  {
  }

  lemma FanoutDoneIs(s: Sys, spawned: bool)
    requires s.journal.Some? && s.proc.Up? && s.proc.pc == FanningOut && s.journal.value.shared.Some?
    ensures Next(s, FanoutDone(spawned)) == FanoutDoneStep(s, s.journal.value, s.proc.memory, spawned)
  {
  }

  lemma ImportDoneIs(s: Sys, a: Archive)
    requires s.journal.Some? && s.proc.Up? && s.proc.pc == Importing(a)
    ensures Next(s, Event.ImportDone) == ImportDoneStep(s, s.journal.value, s.proc.memory, a)
  {
  }

  lemma CutoverStart(s: Sys)
    requires Inv(s) && s.journal.Some? && s.proc.Up? && s.proc.pc == CheckingCutover
    ensures s.journal.value.staging.maxSlot.Some? && s.journal.value.active.phase == CutoverPending && s.journal.value.staging.phase == CutoverPending
    ensures s.proc.memory.stagingMints.Some?
  {
    hide TablesOk;
  }

  lemma CheckCutoverIs(s: Sys)
    requires s.journal.Some? && s.proc.Up? && s.proc.pc == CheckingCutover && s.journal.value.staging.maxSlot.Some?
    ensures Next(s, CheckCutover) == CheckCutoverStep(s, s.journal.value, s.proc.memory)
  {
  }

  lemma ExchangeStart(s: Sys)
    requires Inv(s) && s.journal.Some? && s.proc.Up? && s.proc.pc.Exchanging? && s.proc.pc.next < GROUP_SIZE
    ensures HasCutover(s) && Next(s, ExchangePair).To?
    ensures var c, pc := CutoverOf(s), s.proc.pc;
      && IsGroup(c.activeTables) && IsGroup(c.stagingTables) && IsGroup(pc.activeNow) && IsGroup(pc.backupNow) && IsGroup(s.active) && IsGroup(s.backup)
      && (PairSwapped(c, pc.activeNow, pc.backupNow, pc.next) || PairOriginal(c, pc.activeNow, pc.backupNow, pc.next))
    ensures var pc := s.proc.pc;
      Next(s, ExchangePair) == ExchangePairStep(s, s.journal.value, s.proc.memory, pc.next, pc.activeNow, pc.backupNow)
  {
    hide AllDifferent, FilesOk, Running;
    NextSafe(s, ExchangePair);
  }

  /** At the end of an attempt every pair is exchanged. */
  lemma AllSwapped(s: Sys)
    requires Inv(s) && s.journal.Some? && s.proc.Up? && s.proc.pc.Exchanging? && s.proc.pc.next == GROUP_SIZE
    ensures HasCutover(s) && s.active == CutoverOf(s).stagingTables && s.backup == CutoverOf(s).activeTables
    ensures s.proc.memory.stagingMints.Some? && s.journal.value.staging.maxSlot.Some?
  {
    hide AllDifferent;
    var c := CutoverOf(s);
    forall i: nat | i < GROUP_SIZE ensures s.active[i] == c.stagingTables[i] && s.backup[i] == c.activeTables[i] {
      assert PairSwapped(c, s.active, s.backup, i);
    }
  }

  lemma PromoteIs(s: Sys)
    requires s.journal.Some? && s.proc.Up? && s.proc.pc.Exchanging? && s.proc.pc.next == GROUP_SIZE && s.proc.memory.stagingMints.Some?
    ensures Next(s, Promote) == PromoteStep(s, s.journal.value, s.proc.memory)
  {
  }

  lemma CleanupPromotedIs(s: Sys, survivors: set<Path>)
    requires s.journal.Some? && s.proc.Up? && s.proc.pc == Promoted
    ensures Next(s, Cleanup(survivors)) == CleanupStep(s, s.journal.value, Promoted, s.proc.memory, survivors)
  {
  }

  lemma BuildStart(s: Sys)
    requires Inv(s) && s.journal.Some? && s.proc.Up? && s.proc.pc == JoiningBuild
    ensures Next(s, JoinBuild) == JoinBuildStep(s, s.journal.value, s.proc.memory) && Next(s, JoinBuild).To?
  {
    hide Inv, JoinBuildStep;
    JoinBuildFreezesNothing();
    NextSafe(s, JoinBuild);
    JoinBuildIsEnabled(s, s.journal.value, s.proc.memory);
  }

  lemma JoinBuildIsEnabled(s: Sys, j: Journal, m: Memory)
    ensures !JoinBuildStep(s, j, m).NotEnabled?
  {
    hide Quiet, Steady, Mild;
  }

  lemma ImportDoneFreezesNothing()
    ensures FreezesUsable(Event.ImportDone)
  {
  }

  lemma JoinBuildFreezesNothing()
    ensures FreezesUsable(JoinBuild)
  {
  }

  lemma WorkerStart(s: Sys)
    requires Inv(s) && s.journal.Some? && s.proc.Up? && s.proc.pc == JoiningWorker
    ensures Next(s, JoinWorker) == JoinWorkerStep(s, s.journal.value, s.proc.memory) && Next(s, JoinWorker).To?
  {
    hide TablesOk, FilesOk;
    NextSafe(s, JoinWorker);
  }

  /** At the decision point the phases are those of this protocol, and nothing needed is missing. */
  lemma DecideStart(s: Sys, fulls: seq<Archive>, incrementals: seq<Archive>)
    requires Inv(s) && s.journal.Some? && s.proc.Up? && s.proc.pc == Deciding && IsListing(fulls, incrementals)
    ensures Next(s, Decide(fulls, incrementals)) == DecideStep(s, s.journal.value, s.proc.memory, fulls, incrementals)
    ensures Next(s, Decide(fulls, incrementals)).To?
    ensures var j, m := s.journal.value, s.proc.memory;
      && (j.active.phase == Ready || j.active.phase == IncrementalLoading || j.active.phase == CutoverPending)
      && (j.active.phase == CutoverPending <==> j.staging.phase == CutoverPending)
      && (j.active.phase == IncrementalLoading ==> j.active.inflight.Some? && (j.shared.None? ==> j.active.inflight == Some(IncrementalKind)))
      && (j.staging.phase == FullLoading ==> j.shared.Some?)
      && (j.shared.Some? ==> NoWork(m))
      && (j.staging.phase == FullMerging ==> j.staging.full.Some?)
      && (j.staging.phase == IncrementalLoading ==> j.staging.inflight == Some(IncrementalKind) && j.staging.maxSlot.Some?)
      && (j.staging.phase == Ready ==> j.staging.maxSlot.Some?)
      && (j.staging.phase != Disabled ==> m.stagingMints.Some?)
  {
    hide Inv, DecideStep;
    NextSafe(s, Decide(fulls, incrementals));
    DecideLeadsOn(s, s.journal.value, s.proc.memory, fulls, incrementals);
    DecideFacts(s);
  }

  lemma DecideFacts(s: Sys)
    requires Inv(s) && s.journal.Some? && s.proc.Up? && s.proc.pc == Deciding
    ensures var j, m := s.journal.value, s.proc.memory;
      && (j.active.phase == Ready || j.active.phase == IncrementalLoading || j.active.phase == CutoverPending)
      && (j.active.phase == CutoverPending <==> j.staging.phase == CutoverPending)
      && (j.active.phase == IncrementalLoading ==> j.active.inflight.Some? && (j.shared.None? ==> j.active.inflight == Some(IncrementalKind)))
      && (j.staging.phase == FullLoading ==> j.shared.Some?)
      && (j.shared.Some? ==> NoWork(m))
      && (j.staging.phase == FullMerging ==> j.staging.full.Some?)
      && (j.staging.phase == IncrementalLoading ==> j.staging.inflight == Some(IncrementalKind) && j.staging.maxSlot.Some?)
      && (j.staging.phase == Ready ==> j.staging.maxSlot.Some?)
      && (j.staging.phase != Disabled ==> m.stagingMints.Some?)
  {
    hide TablesOk, FilesOk;
    var a := s.journal.value.active;
    assert a.inflight.Some? ==> a.inflight.value == FullKind || a.inflight.value == IncrementalKind;
  }

  lemma DecideLeadsOn(s: Sys, j: Journal, m: Memory, fulls: seq<Archive>, incrementals: seq<Archive>)
    requires IsListing(fulls, incrementals)
    ensures !DecideStep(s, j, m, fulls, incrementals).NotEnabled?
  {
    hide NewestEligible, NewestGeneration, Quiet, Steady, Mild;
  }

  /** Leaving the process is what a crash is. */
  lemma ExitHere(start: Sys, events: seq<Event>, s: Sys)
    requires Run(start, events) == To(s) && Inv(s)
    ensures Run(start, events + [Crash]) == To(s.(proc := Down))
  {
    hide Run, Inv;
    TakeStep(start, events, s, Crash);
  }

  lemma PrepareSharedIs(s: Sys, fulls: seq<Archive>, ok: bool)
    requires s.journal.Some? && s.proc.Up? && s.proc.pc == PreparingShared(fulls)
    ensures Next(s, PrepareShared(ok)) == To(s.(proc := Up(if ok then SharedPrepared(fulls) else JoiningBuild, s.proc.memory)))
  {
  }

  lemma ApplySelectedIs(s: Sys, a: Archive)
    requires s.journal.Some? && s.proc.Up? && s.proc.pc == Selected(a)
    ensures var j, m := s.journal.value, s.proc.memory;
      Next(s, ApplySelected) == if j.active.phase == Ready && a.Fits(m.activeSlot) then BeginActive(s, j, m, a) else Go(s, JoiningBuild, m)
  {
  }

  lemma FreezeStagingIs(s: Sys, snapshot: Archive, path: Path, order: seq<Pubkey>)
    requires s.journal.Some? && s.proc.Up? && s.proc.pc == FreezingStaging(snapshot)
    ensures Next(s, FreezeStaging(path, order)) == FreezeStagingStep(s, s.proc.memory, snapshot, path, order)
  {
  }

  lemma PersistSharedIs(s: Sys, snapshot: Archive, path: Path, mints: Mints)
    requires s.journal.Some? && s.proc.Up? && s.proc.pc == StagingFrozen(snapshot, path, mints)
    ensures Next(s, PersistShared) == PersistSharedStep(s, s.journal.value, s.proc.memory, snapshot, path, mints)
  {
  }

  /** The mint file, the checkpoint, and the removal of files nothing refers to. */
  lemma BeginRuns(s: Sys, snapshot: Archive, path: Path, order: seq<Pubkey>, survivors: set<Path>, journaled: Sys)
    requires s.journal.Some? && s.proc.Up? && s.proc.pc == FreezingStaging(snapshot) && path !in s.files && order != []
    requires journaled == s.(journal := Some(SharedJournal(s.journal.value, snapshot, path)), files := s.files[path := Written(order)],
                             proc := Up(SharedJournaled, s.proc.memory.(stagingMints := Some(SetOf(order)))))
    ensures Run(s, [FreezeStaging(path, order)] + [PersistShared] + [Cleanup(survivors)])
      == To(journaled.(files := CleanedFiles(journaled.files, journaled.journal.value, survivors), proc := Up(JoiningBuild, journaled.proc.memory)))
  {
    hide Run, Next, Written;
    var frozen := s.(files := journaled.files, proc := Up(StagingFrozen(snapshot, path, SetOf(order)), s.proc.memory));
    NoSteps(s);
    FreezeStagingIs(s, snapshot, path, order);
    RunStep(s, [], s, FreezeStaging(path, order));
    assert [] + [FreezeStaging(path, order)] == [FreezeStaging(path, order)];
    PersistSharedIs(frozen, snapshot, path, SetOf(order));
    RunStep(s, [FreezeStaging(path, order)], frozen, PersistShared);
    CleanupJournaledIs(journaled, survivors);
    RunStep(s, [FreezeStaging(path, order)] + [PersistShared], journaled, Cleanup(survivors));
  }

  lemma CleanupJournaledIs(s: Sys, survivors: set<Path>)
    requires s.journal.Some? && s.proc.Up? && s.proc.pc == SharedJournaled
    ensures Next(s, Cleanup(survivors)) == CleanupStep(s, s.journal.value, SharedJournaled, s.proc.memory, survivors)
  {
  }
}
