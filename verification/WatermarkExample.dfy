/** A run in which active's watermark goes back: a shared load of an archive below what active has reached. */
module WatermarkExample {
  import opened Wrappers
  import opened ImportOutput
  import opened FrozenMints
  import opened Selection
  import opened Watcher
  import opened WatcherInvariant
  import opened WatcherRuns

  /** From a first start to the decision to build a generation. */
  function UntilDecision(resume: nat, full: Archive, path: Path, order: seq<Pubkey>): seq<Event> {
    Recovery(resume) + [FreezeActive(path, order)] + [PersistActive] + [LoadStaging] + [JoinBuild] + [JoinWorker] + [Decide([full], [])]
  }

  /** From there to the fanout. */
  function UntilFanout(resume: nat, full: Archive, path: Path, order: seq<Pubkey>, other: Path, next: seq<Pubkey>): seq<Event> {
    UntilDecision(resume, full, path, order) + [FreezeStaging(other, next)] + [PersistShared] + [Cleanup({})]
      + [JoinBuild] + [JoinWorker] + [Decide([full], [])] + [PrepareShared(true)] + [EnterFanout]
  }

  lemma OnlyFull(full: Archive)
    requires full.FullArchive?
    ensures NewestGeneration([full], None) == Some(full)
  {
    hide NewestGeneration;
    NewestGenerationIsBest([full], None);
    assert full in [full];
  }

  /** One step from a known state. */
  lemma Then(s: Sys, events: seq<Event>, t: Sys, e: Event, u: Sys)
    requires Run(s, events) == To(t) && Next(t, e) == To(u)
    ensures Run(s, events + [e]) == To(u)
  {
    hide Next;
    RunStep(s, events, t, e);
  }

  lemma FreezeFollows(t: Sys, resume: nat, path: Path, order: seq<Pubkey>)
    requires t.journal == Some(RecoveredActiveOnly(resume)) && t.proc == Up(Clean, Memory(0, {}, None, None, None))
    requires order != [] && path !in t.files
    ensures var m := Memory(resume, SetOf(order), None, None, None);
      var frozen := t.(files := t.files[path := Written(order)], proc := Up(ActiveFrozen(path, SetOf(order)), m.(activeMints := {})));
      var named := frozen.(journal := Some(FrozenJournal(resume, path)), proc := Up(ActiveLoaded, m));
      Next(t, FreezeActive(path, order)) == To(frozen) && Next(frozen, PersistActive) == To(named)
      && Next(named, LoadStaging) == To(named.(proc := Up(JoiningBuild, m)))
  {
    hide Written, Quiet, Steady, Mild;
  }

  lemma JoinsFollow(t: Sys, m: Memory)
    requires t.journal.Some? && t.proc == Up(JoiningBuild, m) && m.build.None? && m.worker.None?
    ensures Next(t, JoinBuild) == To(t.(proc := Up(JoiningWorker, m)))
    ensures Next(t.(proc := Up(JoiningWorker, m)), JoinWorker) == To(t.(proc := Up(Deciding, m)))
  {
  }

  lemma GenerationFollows(t: Sys, resume: nat, path: Path, full: Archive, m: Memory)
    requires full.FullArchive? && t.journal == Some(FrozenJournal(resume, path)) && t.proc == Up(Deciding, m) && m.build.None? && m.worker.None?
    ensures Next(t, Decide([full], [])) == To(t.(proc := Up(FreezingStaging(full), m)))
  {
    hide NewestGeneration, NewestEligible;
    OnlyFull(full);
  }

  lemma DecisionRuns(s: Sys, resume: nat, full: Archive, path: Path, order: seq<Pubkey>)
    requires Initial(s) && full.FullArchive? && order != [] && path !in s.files
    ensures Run(s, UntilDecision(resume, full, path, order))
         == To(s.(journal := Some(FrozenJournal(resume, path)), files := map[path := Written(order)],
                  proc := Up(FreezingStaging(full), Memory(resume, SetOf(order), None, None, None))))
  {
    hide Written, AllDifferent, Recovery, Next;
    var t := Recovered(s, RecoveredActiveOnly(resume));
    assert [] + Recovery(resume) == Recovery(resume);
    RecoveryRuns(s, [], s, resume, RecoveredActiveOnly(resume));
    hide Run;
    assert t.files == map[];
    var events, m := Recovery(resume), Memory(resume, SetOf(order), None, None, None);
    FreezeFollows(t, resume, path, order);
    var frozen := t.(files := map[path := Written(order)], proc := Up(ActiveFrozen(path, SetOf(order)), m.(activeMints := {})));
    assert frozen.files == t.files[path := Written(order)];
    Then(s, events, t, FreezeActive(path, order), frozen);
    var named := frozen.(journal := Some(FrozenJournal(resume, path)), proc := Up(ActiveLoaded, m));
    Then(s, events + [FreezeActive(path, order)], frozen, PersistActive, named);
    Then(s, events + [FreezeActive(path, order)] + [PersistActive], named, LoadStaging, named.(proc := Up(JoiningBuild, m)));
    DecidedAfterJoins(s, events + [FreezeActive(path, order)] + [PersistActive] + [LoadStaging], named.(proc := Up(JoiningBuild, m)), m);
    GenerationFollows(named.(proc := Up(Deciding, m)), resume, path, full, m);
    Then(s, events + [FreezeActive(path, order)] + [PersistActive] + [LoadStaging] + [JoinBuild] + [JoinWorker], named.(proc := Up(Deciding, m)),
         Decide([full], []), named.(proc := Up(FreezingStaging(full), m)));
  }

  lemma DecidedAfterJoins(s: Sys, events: seq<Event>, t: Sys, m: Memory)
    requires Run(s, events) == To(t) && t.journal.Some? && t.proc == Up(JoiningBuild, m) && m.build.None? && m.worker.None?
    ensures Run(s, events + [JoinBuild] + [JoinWorker]) == To(t.(proc := Up(Deciding, m)))
  {
    hide Run, Next;
    JoinsFollow(t, m);
    Then(s, events, t, JoinBuild, t.(proc := Up(JoiningWorker, m)));
    Then(s, events + [JoinBuild], t.(proc := Up(JoiningWorker, m)), JoinWorker, t.(proc := Up(Deciding, m)));
  }

  lemma SharedFollows(t: Sys, j: Journal, full: Archive, other: Path, next: seq<Pubkey>, m: Memory)
    requires t.journal == Some(j) && other !in t.files && t.proc == Up(FreezingStaging(full), m) && next != []
    ensures var frozen := t.(files := t.files[other := Written(next)], proc := Up(StagingFrozen(full, other, SetOf(next)), m));
      var begun := frozen.(journal := Some(SharedJournal(j, full, other)), proc := Up(SharedJournaled, m.(stagingMints := Some(SetOf(next)))));
      Next(t, FreezeStaging(other, next)) == To(frozen) && Next(frozen, PersistShared) == To(begun)
  {
    hide Written, Quiet, Steady, Mild;
  }

  lemma CleanupFollows(t: Sys, j: Journal, full: Archive, path: Path, other: Path, m: Memory)
    requires t.journal == Some(SharedJournal(j, full, other)) && j.active.mintsPath == Some(path) && t.files.Keys == {path, other}
    requires t.proc == Up(SharedJournaled, m)
    ensures Next(t, Cleanup({})) == To(t.(proc := Up(JoiningBuild, m)))
  {
    hide Quiet, Steady, Mild;
    assert CleanedFiles(t.files, SharedJournal(j, full, other), {}) == t.files;
  }

  lemma PreparationFollows(t: Sys, j: Journal, full: Archive, other: Path, m: Memory)
    requires full.FullArchive? && j.active.phase == Ready
    requires t.journal == Some(SharedJournal(j, full, other)) && t.proc == Up(Deciding, m) && m.build.None? && m.worker.None?
    ensures Next(t, Decide([full], [])) == To(t.(proc := Up(PreparingShared([full]), m)))
    ensures Next(t.(proc := Up(PreparingShared([full]), m)), PrepareShared(true)) == To(t.(proc := Up(SharedPrepared([full]), m)))
  {
    hide ResumeActive, DecideStaging, Quiet, Steady, Mild;
  }

  lemma FanoutFollows(t: Sys, j: Journal, full: Archive, other: Path, m: Memory)
    requires j.active.maxSlot.Some? && t.journal == Some(SharedJournal(j, full, other)) && t.proc == Up(SharedPrepared([full]), m) && m.stagingMints.Some?
    ensures Next(t, EnterFanout) == To(t.(proc := Up(FanningOut, m)))
  {
    hide Quiet, Steady, Mild;
    assert full in [full];
  }

  lemma FanoutRuns(s: Sys, resume: nat, full: Archive, path: Path, order: seq<Pubkey>, other: Path, next: seq<Pubkey>)
    requires Initial(s) && full.FullArchive? && order != [] && next != [] && path !in s.files && other != path
    ensures var o := Run(s, UntilFanout(resume, full, path, order, other, next));
      && o.To? && o.sys.proc == Up(FanningOut, Memory(resume, SetOf(order), Some(SetOf(next)), None, None))
      && o.sys.journal == Some(SharedJournal(FrozenJournal(resume, path), full, other))
  {
    hide Written, AllDifferent, Run, Next, UntilDecision;
    DecisionRuns(s, resume, full, path, order);
    var j, m, before := FrozenJournal(resume, path), Memory(resume, SetOf(order), Some(SetOf(next)), None, None), Memory(resume, SetOf(order), None, None, None);
    var events := UntilDecision(resume, full, path, order);
    var t := Run(s, events).sys;
    SharedFollows(t, j, full, other, next, before);
    var frozen := t.(files := t.files[other := Written(next)], proc := Up(StagingFrozen(full, other, SetOf(next)), before));
    var begun := frozen.(journal := Some(SharedJournal(j, full, other)), proc := Up(SharedJournaled, m));
    CleanupFollows(begun, j, full, path, other, m);
    Then(s, events, t, FreezeStaging(other, next), frozen);
    Then(s, events + [FreezeStaging(other, next)], frozen, PersistShared, begun);
    Then(s, events + [FreezeStaging(other, next)] + [PersistShared], begun, Cleanup({}), begun.(proc := Up(JoiningBuild, m)));
    events := events + [FreezeStaging(other, next)] + [PersistShared] + [Cleanup({})];
    DecidedAfterJoins(s, events, begun.(proc := Up(JoiningBuild, m)), m);
    events := events + [JoinBuild] + [JoinWorker];
    PreparationFollows(begun.(proc := Up(Deciding, m)), j, full, other, m);
    FanoutFollows(begun.(proc := Up(SharedPrepared([full]), m)), j, full, other, m);
    Then(s, events, begun.(proc := Up(Deciding, m)), Decide([full], []), begun.(proc := Up(PreparingShared([full]), m)));
    Then(s, events + [Decide([full], [])], begun.(proc := Up(PreparingShared([full]), m)), PrepareShared(true), begun.(proc := Up(SharedPrepared([full]), m)));
    Then(s, events + [Decide([full], [])] + [PrepareShared(true)], begun.(proc := Up(SharedPrepared([full]), m)), EnterFanout, begun.(proc := Up(FanningOut, m)));
  }

  /**
   A first start on tables that already reach `resume`, with only a full archive
   in the directory: a shared load is begun whatever the slot of the archive, and
   at its completion active's watermark is that slot. With an archive below
   `resume` the watermark has gone back.
   */
  lemma WatermarkWentBack(s: Sys, resume: nat, full: Archive, path: Path, order: seq<Pubkey>, other: Path, next: seq<Pubkey>, spawned: bool)
    requires Initial(s) && full.FullArchive? && order != [] && next != [] && path !in s.files && other != path
    ensures var events := UntilFanout(resume, full, path, order, other, next);
      var loading, done := Run(s, events), Run(s, events + [Event.FanoutDone(spawned)]);
      && loading.To? && loading.sys.journal.Some? && loading.sys.journal.value.active.maxSlot == Some(resume)
      && loading.sys.journal.value.shared == Some(SharedLoad(full, resume))
      && done.To? && done.sys.journal.Some? && done.sys.journal.value.active.maxSlot == Some(full.slot)
      && done.sys.journal.value.active.phase == Ready
  {
    hide Run, UntilFanout, AllDifferent;
    var events := UntilFanout(resume, full, path, order, other, next);
    FanoutRuns(s, resume, full, path, order, other, next);
    RunStep(s, events, Run(s, events).sys, Event.FanoutDone(spawned));
  }
}
