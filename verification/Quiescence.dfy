/**
 Against a directory that does not change, only so many imports can ever
 complete, however often they fail or the process crashes, and although the
 completion of a shared full load may take active's watermark back.
 */
module Quiescence {
  import opened Wrappers
  import opened ImportOutput
  import opened FrozenMints
  import opened Selection
  import opened Watcher
  import opened WatcherInvariant
  import opened WatcherRuns

  /** How many archives end above a slot. */
  function EndingAbove(archives: seq<Archive>, slot: int): nat {
    if archives == [] then 0 else (if archives[0].slot > slot then 1 else 0) + EndingAbove(archives[1..], slot)
  }

  lemma {:induction false} EndingAboveShrinks(archives: seq<Archive>, low: int, high: int)
    requires low <= high
    ensures EndingAbove(archives, high) <= EndingAbove(archives, low) <= |archives|
    ensures (exists a <- archives :: low < a.slot <= high) ==> EndingAbove(archives, high) < EndingAbove(archives, low)
  {
    if archives != [] {
      EndingAboveShrinks(archives[1..], low, high);
    }
  }

  /** The generation most recently begun. */
  function Generation(j: Journal): int {
    var lane := if j.staging.phase != Disabled then j.staging else j.active;
    if lane.full.Some? then lane.full.value.slot else -1
  }

  predicate SomeFits(incrementals: seq<Archive>, committed: Option<nat>) {
    committed.Some? && exists a <- incrementals :: a.Fits(committed.value)
  }

  /** How far staging is from having been promoted. */
  function StagingRank(j: Journal, incrementals: seq<Archive>): (r: nat)
    ensures r <= 5
  {
    match j.staging.phase
    case Disabled => 0
    case CutoverPending => 1
    case IncrementalLoading => 2
    case Ready => if SomeFits(incrementals, j.staging.maxSlot) then 3 else 1
    case FullMerging => 4
    case FullLoading => 5
    case WaitingForFull => 0
  }

  /** What is left to import into active, given its watermark. */
  function ActiveRank(j: Journal, incrementals: seq<Archive>): nat {
    2 * EndingAbove(incrementals, j.active.maxSlot.GetOr(0))
      + if j.active.phase == Ready && SomeFits(incrementals, j.active.maxSlot) then 1 else 0
  }

  function Unit(incrementals: seq<Archive>): nat { 2 * |incrementals| + 2 }

  /** Newer fulls weigh more than any staging phase, and a staging phase more than anything active can import. */
  function Measure(j: Journal, fulls: seq<Archive>, incrementals: seq<Archive>): nat {
    var unit := Unit(incrementals);
    (EndingAbove(fulls, Generation(j)) * 6 + StagingRank(j, incrementals)) * unit + ActiveRank(j, incrementals)
  }

  lemma ActiveRankBound(j: Journal, incrementals: seq<Archive>)
    ensures ActiveRank(j, incrementals) < Unit(incrementals)
  {
    EndingAboveShrinks(incrementals, j.active.maxSlot.GetOr(0), j.active.maxSlot.GetOr(0));
  }

  /** The measure falls if the lane part does, whatever happens to active. */
  lemma LanePartFalls(j: Journal, k: Journal, fulls: seq<Archive>, incrementals: seq<Archive>)
    requires EndingAbove(fulls, Generation(k)) * 6 + StagingRank(k, incrementals)
      < EndingAbove(fulls, Generation(j)) * 6 + StagingRank(j, incrementals)
    ensures Measure(k, fulls, incrementals) < Measure(j, fulls, incrementals)
  {
    hide EndingAbove, Generation, StagingRank, ActiveRank, Unit;
    ActiveRankBound(k, incrementals);
    Outweighs(EndingAbove(fulls, Generation(k)) * 6 + StagingRank(k, incrementals),
              EndingAbove(fulls, Generation(j)) * 6 + StagingRank(j, incrementals),
              ActiveRank(k, incrementals), ActiveRank(j, incrementals), Unit(incrementals));
  }

  lemma Outweighs(a: nat, b: nat, c: nat, d: nat, unit: nat)
    requires a < b && c < unit
    ensures a * unit + c < b * unit + d
  {
    var more := b - a - 1;
    assert b * unit == a * unit + unit + more * unit;
  }

  /** With the lanes unchanged, only active counts. */
  lemma ActivePartCounts(j: Journal, k: Journal, fulls: seq<Archive>, incrementals: seq<Archive>)
    requires Generation(k) == Generation(j) && StagingRank(k, incrementals) == StagingRank(j, incrementals)
    ensures Measure(k, fulls, incrementals) - Measure(j, fulls, incrementals) == ActiveRank(k, incrementals) - ActiveRank(j, incrementals)
  {
    hide EndingAbove, Generation, StagingRank, ActiveRank, Unit;
  }

  // ------------------------------------------------- work is on listed archives

  /** The process works on archives of this directory. */
  predicate OnDirectory(s: Sys, fulls: seq<Archive>, incrementals: seq<Archive>) {
    s.proc.Up? ==>
      && (match s.proc.pc
          case FreezingStaging(snapshot) => snapshot in fulls
          case StagingFrozen(snapshot, _, _) => snapshot in fulls
          case Selected(a) => a in incrementals
          case Importing(a) => a in incrementals
          case _ => true)
  }

  predicate SameDirectory(e: Event, fulls: seq<Archive>, incrementals: seq<Archive>) {
    e.Decide? ==> e.fulls == fulls && e.incrementals == incrementals
  }

  /** An import that is recorded as complete. */
  predicate Completes(s: Sys, e: Event) {
    Next(s, e).To? && (e.ImportDone? || e.FanoutDone?
      || (e.JoinWorker? && s.proc.Up? && s.proc.memory.worker.Some? && s.proc.memory.worker.value.finished == Some(true)))
  }

  /** A step neither raises the measure nor leaves the directory; a completion lowers it. */
  predicate Paid(s: Sys, t: Sys, fulls: seq<Archive>, incrementals: seq<Archive>, completes: bool) {
    && s.journal.Some? && t.journal.Some? && OnDirectory(t, fulls, incrementals)
    && Measure(t.journal.value, fulls, incrementals) + (if completes then 1 else 0) <= Measure(s.journal.value, fulls, incrementals)
  }

  predicate PaidOutcome(s: Sys, o: Outcome, fulls: seq<Archive>, incrementals: seq<Archive>) {
    o.To? ==> Paid(s, o.sys, fulls, incrementals, false)
  }

  lemma ResumeActivePaid(s: Sys, j: Journal, m: Memory, fulls: seq<Archive>, incrementals: seq<Archive>)
    requires s.journal == Some(j) && j.active.phase == IncrementalLoading && j.active.maxSlot == Some(m.activeSlot)
    ensures PaidOutcome(s, ResumeActive(s, j, m, incrementals), fulls, incrementals)
  {
    hide NewestEligible, EndingAbove, Measure;
    NewestEligibleIsBest(incrementals, m.activeSlot);
    var o := ResumeActive(s, j, m, incrementals);
    if o.To? {
      ActivePartCounts(j, o.sys.journal.value, fulls, incrementals);
    }
  }

  lemma DecideIncrementalPaid(s: Sys, j: Journal, m: Memory, fulls: seq<Archive>, incrementals: seq<Archive>)
    requires s.journal == Some(j)
    ensures PaidOutcome(s, DecideIncremental(s, j, m, incrementals), fulls, incrementals)
  {
    hide NewestEligible, EndingAbove, Measure;
    NewestEligibleIsBest(incrementals, m.activeSlot);
    if j.staging.maxSlot.Some? {
      NewestEligibleIsBest(incrementals, j.staging.maxSlot.value);
    }
    var o := DecideIncremental(s, j, m, incrementals);
    if o.To? && o.sys.journal != s.journal {
      LanePartFalls(j, o.sys.journal.value, fulls, incrementals);
    }
  }

  lemma DecideNewPaid(s: Sys, j: Journal, m: Memory, fulls: seq<Archive>, incrementals: seq<Archive>)
    requires s.journal == Some(j)
    ensures PaidOutcome(s, DecideNew(s, j, m, fulls, incrementals), fulls, incrementals)
  {
    hide NewestGeneration, DecideIncremental, Measure;
    NewestGenerationIsBest(fulls, ActiveFullSlot(j));
    DecideIncrementalPaid(s, j, m, fulls, incrementals);
  }

  lemma DecideStagingPaid(s: Sys, j: Journal, m: Memory, fulls: seq<Archive>, incrementals: seq<Archive>)
    requires s.journal == Some(j)
    ensures PaidOutcome(s, DecideStaging(s, j, m, fulls, incrementals), fulls, incrementals)
  {
    hide NewestEligible, DecideNew, EndingAbove, Measure;
    if j.staging.phase == FullMerging && m.build.None? && j.staging.full.Some? {
      DecideNewPaid(s, j, m.(build := Some(Build(j.staging.full.value, None))), fulls, incrementals);
    } else if j.staging.phase == IncrementalLoading && m.worker.None? && j.staging.maxSlot.Some? {
      NewestEligibleIsBest(incrementals, j.staging.maxSlot.value);
      var a := NewestEligible(incrementals, j.staging.maxSlot.value);
      if a.Some? {
        DecideNewPaid(s, j, m.(worker := Some(StagingWorker(a.value, j.staging.maxSlot.value, None))), fulls, incrementals);
      } else {
        LanePartFalls(j, j.(staging := j.staging.(phase := Ready, inflight := None)), fulls, incrementals);
      }
    } else {
      DecideNewPaid(s, j, m, fulls, incrementals);
    }
  }

  lemma DecidePaid(s: Sys, fulls: seq<Archive>, incrementals: seq<Archive>)
    requires Inv(s) && s.journal.Some? && Next(s, Decide(fulls, incrementals)).To?
    ensures Paid(s, Next(s, Decide(fulls, incrementals)).sys, fulls, incrementals, false)
  {
    hide ResumeActive, DecideStaging, Measure, TablesOk, FilesOk;
    var j, m := s.journal.value, s.proc.memory;
    if j.active.phase == IncrementalLoading {
      ResumeActivePaid(s, j, m, fulls, incrementals);
    }
    DecideStagingPaid(s, j, m, fulls, incrementals);
  }

  lemma ImportPaid(s: Sys, e: Event, fulls: seq<Archive>, incrementals: seq<Archive>)
    requires Inv(s) && s.journal.Some? && Next(s, e).To? && OnDirectory(s, fulls, incrementals) && (e.ApplySelected? || e.ImportDone?)
    ensures Paid(s, Next(s, e).sys, fulls, incrementals, Completes(s, e))
  {
    hide EndingAbove, Measure, TablesOk, FilesOk, ExchangeOk, StagingKnown, Quiet, Steady, Mild, Load;
    var j, k := s.journal.value, Next(s, e).sys.journal.value;
    EndingAboveShrinks(incrementals, j.active.maxSlot.GetOr(0), Max(j.active.maxSlot.GetOr(0), k.active.maxSlot.GetOr(0)));
    ActivePartCounts(j, k, fulls, incrementals);
  }

  lemma PersistSharedPaid(s: Sys, fulls: seq<Archive>, incrementals: seq<Archive>)
    requires Inv(s) && s.journal.Some? && Next(s, PersistShared).To? && OnDirectory(s, fulls, incrementals)
    ensures Paid(s, Next(s, PersistShared).sys, fulls, incrementals, false)
  {
    hide EndingAbove, Measure, TablesOk, FilesOk;
    var j, k := s.journal.value, Next(s, PersistShared).sys.journal.value;
    EndingAboveShrinks(fulls, Generation(j), Generation(k));
    LanePartFalls(j, k, fulls, incrementals);
  }

  /** The joins bring staging closer to promotion. */
  lemma JoinPaid(s: Sys, e: Event, fulls: seq<Archive>, incrementals: seq<Archive>)
    requires Inv(s) && s.journal.Some? && Next(s, e).To? && (e.JoinBuild? || e.JoinWorker?)
    ensures Paid(s, Next(s, e).sys, fulls, incrementals, Completes(s, e))
  {
    hide EndingAbove, Measure, TablesOk, FilesOk, ExchangeOk, ActiveKnown, StagingKnown, Quiet, Steady, Mild;
    var j, k := s.journal.value, Next(s, e).sys.journal.value;
    if k != j {
      LanePartFalls(j, k, fulls, incrementals);
    }
  }

  lemma FanoutDonePaid(s: Sys, e: Event, fulls: seq<Archive>, incrementals: seq<Archive>)
    requires Inv(s) && s.journal.Some? && Next(s, e).To? && e.FanoutDone?
    ensures Paid(s, Next(s, e).sys, fulls, incrementals, Completes(s, e))
  {
    hide EndingAbove, Measure, TablesOk, FilesOk, ExchangeOk, ActiveKnown, StagingKnown, Quiet;
    LanePartFalls(s.journal.value, Next(s, e).sys.journal.value, fulls, incrementals);
  }

  lemma PromotePaid(s: Sys, fulls: seq<Archive>, incrementals: seq<Archive>)
    requires Inv(s) && s.journal.Some? && Next(s, Promote).To?
    ensures Paid(s, Next(s, Promote).sys, fulls, incrementals, Completes(s, Promote))
  {
    hide EndingAbove, Measure, TablesOk, FilesOk, ExchangeOk, ActiveKnown, StagingKnown;
    LanePartFalls(s.journal.value, Next(s, Promote).sys.journal.value, fulls, incrementals);
  }

  predicate SameLanes(j: Journal, k: Journal) {
    && k.active.phase == j.active.phase && k.active.maxSlot == j.active.maxSlot && k.active.full == j.active.full
    && k.staging.phase == j.staging.phase && k.staging.maxSlot == j.staging.maxSlot && k.staging.full == j.staging.full
  }

  lemma SameLanesSameMeasure(j: Journal, k: Journal, fulls: seq<Archive>, incrementals: seq<Archive>)
    requires SameLanes(j, k)
    ensures Measure(k, fulls, incrementals) == Measure(j, fulls, incrementals)
  {
  }

  /** Steps of the boot and of the exchange, and crashes. */
  lemma BootStepsPaid(s: Sys, e: Event, fulls: seq<Archive>, incrementals: seq<Archive>)
    requires Inv(s) && s.journal.Some? && Next(s, e).To?
    requires e.Crash? || e.Boot? || e.Start? || e.ClearDisabled? || e.Cleanup? || e.LoadActive? || e.FreezeActive?
      || e.PersistActive? || e.LoadStaging? || e.CheckCutover?
    ensures Paid(s, Next(s, e).sys, fulls, incrementals, false)
  {
    hide Measure, Inv, CleanedFiles, Quiet, Steady, Mild, Load;
    var j, t := s.journal.value, Next(s, e).sys;
    assert t.journal.Some? && SameLanes(j, t.journal.value);
    SameLanesSameMeasure(j, t.journal.value, fulls, incrementals);
  }

  lemma ExchangePaid(s: Sys, fulls: seq<Archive>, incrementals: seq<Archive>)
    requires s.journal.Some? && Next(s, ExchangePair).To?
    ensures Paid(s, Next(s, ExchangePair).sys, fulls, incrementals, false)
  {
    hide Measure;
    assert Next(s, ExchangePair).sys.journal == s.journal;
  }

  lemma QuietStepsKeepJournal(s: Sys, e: Event, fulls: seq<Archive>, incrementals: seq<Archive>)
    requires s.journal.Some? && Next(s, e).To? && OnDirectory(s, fulls, incrementals)
    requires e.BuildFinishes? || e.WorkerFinishes? || e.FreezeStaging? || e.PrepareShared? || e.EnterFanout? || e.RebuildDerived? || e.FanoutFails?
    ensures Next(s, e).sys.journal == s.journal && OnDirectory(Next(s, e).sys, fulls, incrementals)
  {
    hide Quiet, Steady, Mild, LoadActiveStep, LoadStagingStep, JoinBuildStep, JoinWorkerStep, DecideStep, ApplySelectedStep, CleanedFiles, Written;
  }

  /** Steps towards a fanout, and the ends of background work. */
  lemma QuietStepsPaid(s: Sys, e: Event, fulls: seq<Archive>, incrementals: seq<Archive>)
    requires Inv(s) && s.journal.Some? && Next(s, e).To? && OnDirectory(s, fulls, incrementals)
    requires e.BuildFinishes? || e.WorkerFinishes? || e.FreezeStaging? || e.PrepareShared? || e.EnterFanout? || e.RebuildDerived? || e.FanoutFails?
    ensures Paid(s, Next(s, e).sys, fulls, incrementals, false)
  {
    hide Measure, Inv, Quiet, Steady, Mild;
    QuietStepsKeepJournal(s, e, fulls, incrementals);
    hide Next;
  }

  lemma StepPaid(s: Sys, e: Event, fulls: seq<Archive>, incrementals: seq<Archive>)
    requires Inv(s) && s.journal.Some? && Next(s, e).To? && OnDirectory(s, fulls, incrementals) && SameDirectory(e, fulls, incrementals)
    ensures Paid(s, Next(s, e).sys, fulls, incrementals, Completes(s, e))
  {
    hide Inv, Next, Paid, OnDirectory;
    if e.Decide? {
      DecidePaid(s, fulls, incrementals);
    } else if e.ApplySelected? || e.ImportDone? {
      ImportPaid(s, e, fulls, incrementals);
    } else if e.PersistShared? {
      PersistSharedPaid(s, fulls, incrementals);
    } else if e.JoinBuild? || e.JoinWorker? {
      JoinPaid(s, e, fulls, incrementals);
    } else if e.FanoutDone? {
      FanoutDonePaid(s, e, fulls, incrementals);
    } else if e.Promote? {
      PromotePaid(s, fulls, incrementals);
    } else if e.BuildFinishes? || e.WorkerFinishes? || e.FreezeStaging? || e.PrepareShared? || e.EnterFanout? || e.RebuildDerived? || e.FanoutFails? {
      QuietStepsPaid(s, e, fulls, incrementals);
    } else if e.ExchangePair? {
      ExchangePaid(s, fulls, incrementals);
    } else {
      BootStepsPaid(s, e, fulls, incrementals);
    }
  }

  // -------------------------------------------------------------------- runs

  /** How many imports a run completes. */
  function Completed(s: Sys, events: seq<Event>): nat
    decreases |events|
  {
    if events == [] then 0
    else
      var n := |events| - 1;
      var o := Run(s, events[..n]);
      Completed(s, events[..n]) + if o.To? && Completes(o.sys, events[n]) then 1 else 0
  }

  /**
   Quiescence: over any run in one directory, crashes and failures included,
   the completed imports and what is still to be done never exceed what was to
   be done at the start.
   */
  lemma {:induction false} ImportsAreBounded(s: Sys, events: seq<Event>, fulls: seq<Archive>, incrementals: seq<Archive>)
    requires Inv(s) && s.journal.Some? && OnDirectory(s, fulls, incrementals) && RunUsable(events)
    requires forall e <- events :: SameDirectory(e, fulls, incrementals)
    ensures Run(s, events).To?
    ensures var t := Run(s, events).sys;
      && Inv(t) && t.journal.Some? && OnDirectory(t, fulls, incrementals)
      && Completed(s, events) + Measure(t.journal.value, fulls, incrementals) <= Measure(s.journal.value, fulls, incrementals)
    decreases |events|
  {
    hide Inv, Next, Measure, OnDirectory, SameDirectory, Completes;
    RunSafe(s, events);
    if events != [] {
      var n := |events| - 1;
      ImportsAreBounded(s, events[..n], fulls, incrementals);
      var t := Run(s, events[..n]).sys;
      assert events[n] in events;
      if Next(t, events[n]).To? {
        StepPaid(t, events[n], fulls, incrementals);
      } else {
        NothingCompletes(t, events[n]);
      }
    }
  }

  lemma NothingCompletes(s: Sys, e: Event)
    requires !Next(s, e).To?
    ensures !Completes(s, e)
  {
  }

  /**
   Active's watermark goes back in two ways only: a shared full load of an
   archive that ends below the slot active had already reached, and the
   promotion of a staging generation that is behind.
   */
  lemma WatermarkGoesBack(s: Sys, e: Event)
    requires Inv(s) && s.journal.Some? && Next(s, e).To?
    ensures Next(s, e).sys.journal.Some?
    ensures var j, k := s.journal.value, Next(s, e).sys.journal.value;
      && j.active.maxSlot.Some? && k.active.maxSlot.Some?
      && (k.active.maxSlot.value < j.active.maxSlot.value ==> e.FanoutDone? || e.Promote?)
      && (e.FanoutDone? ==> j.shared.Some? && k.active.maxSlot.value == j.shared.value.snapshot.slot && j.active.maxSlot.value == j.shared.value.resumeSlot)
      && (e.Promote? ==> k.active.maxSlot == j.staging.maxSlot)
  {
    hide Next, Inv;
    if e.LoadActive? || e.LoadStaging? || e.JoinBuild? || e.Decide? || e.ApplySelected? || e.EnterFanout? {
      LoopKeepsWatermark(s, e);
    } else if e.ImportDone? {
      ImportDoneRaises(s);
    } else if e.FanoutDone? || e.Promote? || e.JoinWorker? {
      LaneStepsWatermark(s, e);
    } else {
      OtherStepsWatermark(s, e);
    }
    ActiveHasWatermark(s);
  }

  lemma ActiveHasWatermark(s: Sys)
    requires Inv(s) && s.journal.Some?
    ensures s.journal.value.active.maxSlot.Some?
  {
    hide TablesOk, ProcOk, FilesOk;
  }

  lemma LoopKeepsWatermark(s: Sys, e: Event)
    requires Inv(s) && s.journal.Some? && Next(s, e).To?
    requires e.LoadActive? || e.LoadStaging? || e.JoinBuild? || e.Decide? || e.ApplySelected? || e.EnterFanout?
    ensures Next(s, e).sys.journal.Some? && Next(s, e).sys.journal.value.active.maxSlot == s.journal.value.active.maxSlot
    ensures s.journal.value.active.maxSlot.Some?
  {
    hide Inv, Mild, LoadActiveStep, LoadStagingStep, JoinBuildStep, DecideStep, ApplySelectedStep, EnterFanoutStep;
    ActiveHasWatermark(s);
  }

  lemma LaneStepsWatermark(s: Sys, e: Event)
    requires Inv(s) && s.journal.Some? && Next(s, e).To? && (e.FanoutDone? || e.Promote? || e.JoinWorker?)
    ensures Next(s, e).sys.journal.Some?
    ensures var j, k := s.journal.value, Next(s, e).sys.journal.value;
      && k.active.maxSlot.Some?
      && (e.JoinWorker? ==> k.active.maxSlot == j.active.maxSlot)
      && (e.FanoutDone? ==> j.shared.Some? && k.active.maxSlot == Some(j.shared.value.snapshot.slot) && j.active.maxSlot == Some(j.shared.value.resumeSlot))
      && (e.Promote? ==> k.active.maxSlot == j.staging.maxSlot)
  {
    hide TablesOk, FilesOk, ExchangeOk, ActiveKnown, StagingKnown, Quiet;
  }

  lemma OtherStepsWatermark(s: Sys, e: Event)
    requires Inv(s) && s.journal.Some? && Next(s, e).To?
    requires !e.LoadActive? && !e.LoadStaging? && !e.JoinBuild? && !e.Decide? && !e.ApplySelected? && !e.EnterFanout?
      && !e.ImportDone? && !e.FanoutDone? && !e.Promote? && !e.JoinWorker?
    ensures Next(s, e).sys.journal.Some? && Next(s, e).sys.journal.value.active.maxSlot == s.journal.value.active.maxSlot
    ensures s.journal.value.active.maxSlot.Some?
  {
    hide Inv, CleanedFiles, Quiet;
    ActiveHasWatermark(s);
  }

  lemma ImportDoneRaises(s: Sys)
    requires Inv(s) && s.journal.Some? && Next(s, Event.ImportDone).To?
    ensures Next(s, Event.ImportDone).sys.journal.Some?
    ensures s.journal.value.active.maxSlot.Some? && Next(s, Event.ImportDone).sys.journal.value.active.maxSlot.Some?
    ensures Next(s, Event.ImportDone).sys.journal.value.active.maxSlot.value > s.journal.value.active.maxSlot.value
  {
    hide TablesOk, FilesOk;
  }

  // --------------------------------------------------------- decisions

  /** What is left undone when a look at the directory changes nothing: nothing. */
  lemma IdleMeansNothingToDo(s: Sys, fulls: seq<Archive>, incrementals: seq<Archive>)
    requires Inv(s) && s.journal.Some? && s.proc.Up? && Next(s, Decide(fulls, incrementals)).To?
    requires var t := Next(s, Decide(fulls, incrementals)).sys; t.journal == s.journal && t.proc.Up? && t.proc.pc == JoiningBuild
    ensures var j := s.journal.value;
      && j.active.phase == Ready && j.active.maxSlot.Some?
      && (forall a <- incrementals :: !a.Fits(j.active.maxSlot.value))
      && (j.staging.phase == Ready ==> j.staging.maxSlot.Some? && forall a <- incrementals :: !a.Fits(j.staging.maxSlot.value))
      && (j.staging.phase == Disabled ==> forall f <- fulls :: j.active.full.Some? && f.slot <= j.active.full.value.slot)
  {
    hide NewestEligible, NewestGeneration, TablesOk, FilesOk, Quiet, Steady, Mild;
    var j, m := s.journal.value, s.proc.memory;
    NewestEligibleIsBest(incrementals, m.activeSlot);
    if j.staging.maxSlot.Some? {
      NewestEligibleIsBest(incrementals, j.staging.maxSlot.value);
    }
    NewestGenerationIsBest(fulls, ActiveFullSlot(j));
  }

  /** A generation is begun on the preferred full newer than active's own, with staging disabled and active ready. */
  lemma GenerationIsBest(s: Sys, fulls: seq<Archive>, incrementals: seq<Archive>, f: Archive)
    requires Inv(s) && s.journal.Some? && s.proc.Up? && Next(s, Decide(fulls, incrementals)).To?
    requires var t := Next(s, Decide(fulls, incrementals)).sys; t.proc.Up? && t.proc.pc == FreezingStaging(f)
    ensures var j := s.journal.value;
      && j.staging.phase == Disabled && j.active.phase == Ready
      && f in fulls && (j.active.full.Some? ==> f.slot > j.active.full.value.slot)
      && (forall g <- fulls :: (j.active.full.Some? ==> g.slot > j.active.full.value.slot) ==> Before(f, g))
  {
    hide NewestEligible, NewestGeneration, TablesOk, FilesOk, Quiet, Steady, Mild, Before;
    NewestGenerationIsBest(fulls, ActiveFullSlot(s.journal.value));
  }

  /** An interrupted active import restarts on the best archive that fits the committed watermark, and is given up exactly when none does. */
  lemma ResumedIsBest(s: Sys, fulls: seq<Archive>, incrementals: seq<Archive>)
    requires Inv(s) && s.journal.Some? && s.proc.Up? && Next(s, Decide(fulls, incrementals)).To?
    requires s.journal.value.active.phase == IncrementalLoading && s.journal.value.shared.None?
    ensures var j, t := s.journal.value, Next(s, Decide(fulls, incrementals)).sys;
      && j.active.maxSlot.Some? && t.journal.Some? && t.proc.Up? && t.journal.value.active.maxSlot == j.active.maxSlot
      && (t.proc.pc.Importing? <==> SomeFits(incrementals, j.active.maxSlot))
      && (t.proc.pc.Importing? ==>
            var a := t.proc.pc.archive;
            a in incrementals && a.Fits(j.active.maxSlot.value) && forall b <- incrementals :: b.Fits(j.active.maxSlot.value) ==> Before(a, b))
      && (!t.proc.pc.Importing? ==> t.journal.value.active.phase == Ready)
  {
    hide NewestEligible, NewestGeneration, TablesOk, FilesOk, Quiet, Steady, Mild, Before;
    NewestEligibleIsBest(incrementals, s.proc.memory.activeSlot);
  }

  /** An archive selected for import is the best for staging, if staging is ready and has one, and else the best for active. */
  lemma SelectedIsBest(s: Sys, fulls: seq<Archive>, incrementals: seq<Archive>, a: Archive)
    requires Inv(s) && s.journal.Some? && s.proc.Up? && Next(s, Decide(fulls, incrementals)).To?
    requires var t := Next(s, Decide(fulls, incrementals)).sys; t.proc.Up? && t.proc.pc == Selected(a)
    ensures var j, t := s.journal.value, Next(s, Decide(fulls, incrementals)).sys;
      && a in incrementals && j.active.maxSlot.Some? && t.journal.Some?
      && var forStaging := j.staging.phase == Ready && SomeFits(incrementals, j.staging.maxSlot);
      var committed := if forStaging then j.staging.maxSlot.value else j.active.maxSlot.value;
      && a.Fits(committed) && (forall b <- incrementals :: b.Fits(committed) ==> Before(a, b))
      && (forStaging ==>
            && t.journal.value.staging.phase == IncrementalLoading
            && t.proc.memory.worker == Some(StagingWorker(a, committed, None)))
      && (!forStaging ==> t.journal == s.journal)
  {
    hide NewestEligible, NewestGeneration, TablesOk, FilesOk, Quiet, Steady, Mild, Before;
    var j, m := s.journal.value, s.proc.memory;
    NewestEligibleIsBest(incrementals, m.activeSlot);
    if j.staging.maxSlot.Some? {
      NewestEligibleIsBest(incrementals, j.staging.maxSlot.value);
    }
  }
}
