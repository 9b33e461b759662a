/**
 The watcher together with the rows of the tables it moves around: what a
 reader of the serving group sees through resets, imports, crashes and
 exchanges, given archives that tell the truth about the ledger.
 */
module ServingData {
  import opened Wrappers
  import opened ImportOutput
  import opened FrozenMints
  import opened Accounts
  import opened Ledgers
  import opened HotState
  import opened Selection
  import opened Watcher
  import opened WatcherInvariant
  import opened WatcherRuns
  import opened Generations

  /**
   The state of the watcher, the rows of every hot-state table, and history:
   whether active was promoted since the start, whether it took a bridge since
   then, the highest slot its imports and that of staging's attempts reached,
   what the current fanout has written to staging, the set of mints read when
   staging's generation was begun, and every table truncated so far.
   */
  datatype World = World(
    sys: Sys, rows: map<Uuid, seq<TokenRow>>, known: bool, bridged: bool, horizon: nat, reach: nat, partial: seq<TokenRow>,
    frozen: Mints, truncated: seq<Uuid>)

  /** One attempt to read a full archive for both groups. */
  datatype Fanout = Fanout(stream: seq<AppendVec>, live: seq<TokenRow>, order: seq<Pubkey>)

  /**
   One step: of the watcher alone, or of an import writing rows. Clearing `_bak`
   truncates its tables one by one and may stop after any of them.
   */
  datatype Move =
    | Plain(e: Event)
    | ClearsStaging(e: Event, cleared: nat)
    | WorkerWrites(a: Attempt)
    | WorkerCompletes(a: Attempt)
    | ImportWrites(a: Attempt)
    | ImportCompletes(a: Attempt)
    | FanoutWrites(f: Fanout, toStaging: seq<TokenRow>, toActive: seq<TokenRow>)
    | FanoutCompletes(f: Fanout, toStaging: seq<TokenRow>, spawned: bool)

  predicate TablesHaveRows(w: World) {
    IsGroup(w.sys.active) && IsGroup(w.sys.backup) && w.sys.active[HOT_STATE] in w.rows && w.sys.backup[HOT_STATE] in w.rows
  }

  function ActiveRows(w: World): seq<TokenRow>
    requires TablesHaveRows(w)
  {
    w.rows[w.sys.active[HOT_STATE]]
  }

  function BackupRows(w: World): seq<TokenRow>
    requires TablesHaveRows(w)
  {
    w.rows[w.sys.backup[HOT_STATE]]
  }

  function DeltaConfig(slot: nat, mints: Mints): Config { Config(Incremental, slot, mints, true) }

  function BaselineConfig(slot: nat, mints: Mints): Config { Config(Full, slot, mints, true) }

  /** An attempt is one on this archive, and the archive tells the truth. */
  ghost predicate AttemptOn(l: Ledger, cfg: Config, t: Table, a: Attempt, archive: Archive) {
    archive.IncrementalArchive? && a.base == archive.base && a.end == archive.slot && Possible(l, cfg, t, a)
  }

  ghost predicate FanoutOn(l: Ledger, cfg: Config, resume: nat, slot: nat, f: Fanout) {
    IsFull(l, slot, f.stream) && IsImport(cfg, Above(Some(resume), f.stream), f.live, f.order)
  }

  predicate WorkerRuns(s: Sys) { s.proc.Up? && s.proc.memory.worker.Some? && s.proc.memory.worker.value.finished.None? }

  predicate AtPc(s: Sys, importing: bool) {
    s.proc.Up? && if importing then s.proc.pc.Importing? else s.proc.pc.FanningOut?
  }

  function WorkerTable(w: World): Table
    requires TablesHaveRows(w) && WorkerRuns(w.sys)
  {
    Table(BackupRows(w), w.sys.proc.memory.worker.value.resume, w.sys.proc.memory.worker.value.resume)
  }

  function ImportTable(w: World): Table
    requires TablesHaveRows(w) && w.sys.journal.Some?
  {
    Table(ActiveRows(w), ActiveView(w.sys).maxSlot, w.horizon)
  }

  ghost predicate WorkerAttempt(l: Ledger, w: World, a: Attempt) {
    && TablesHaveRows(w) && w.sys.journal.Some? && WorkerRuns(w.sys)
    && AttemptOn(l, DeltaConfig(a.end, MintsOf(w.sys.journal.value.staging, w.sys.files)), WorkerTable(w), a, w.sys.proc.memory.worker.value.archive)
  }

  ghost predicate ImportAttempt(l: Ledger, w: World, a: Attempt) {
    && TablesHaveRows(w) && w.sys.journal.Some? && AtPc(w.sys, true)
    && AttemptOn(l, DeltaConfig(a.end, ActiveView(w.sys).mints), ImportTable(w), a, w.sys.proc.pc.archive)
  }

  ghost predicate FanoutAttempt(l: Ledger, w: World, f: Fanout) {
    && TablesHaveRows(w) && w.sys.journal.Some? && AtPc(w.sys, false) && w.sys.journal.value.shared.Some?
    && var slot := w.sys.journal.value.shared.value.snapshot.slot;
    FanoutOn(l, DeltaConfig(slot, ActiveView(w.sys).mints), w.sys.journal.value.shared.value.resumeSlot, slot, f)
  }

  /** The tail's candidates; a full archive has no closes, so there are none. */
  ghost function FanoutCloses(w: World, f: Fanout): map<Pubkey, nat>
    requires TablesHaveRows(w) && w.sys.journal.Some? && w.sys.journal.value.shared.Some?
  {
    var shared := w.sys.journal.value.shared.value;
    ImportOf(DeltaConfig(shared.snapshot.slot, ActiveView(w.sys).mints), Above(Some(shared.resumeSlot), f.stream)).closes
  }

  ghost predicate Allowed(l: Ledger, w: World, mv: Move) {
    && TablesHaveRows(w)
    && match mv
       case Plain(e) =>
         && (IsPlain(e) || e.Start? || e.JoinWorker? || e.Promote? || e == WorkerFinishes(false))
         && FreezesUsable(e) && Next(w.sys, e).To?
       case ClearsStaging(e, cleared) =>
         && (e.FanoutFails? || (e.PrepareShared? && (e.ok ==> cleared == GROUP_SIZE)))
         && cleared <= GROUP_SIZE && Next(w.sys, e).To?
       case WorkerWrites(a) => WorkerAttempt(l, w, a) && a.interrupted.Some?
       case WorkerCompletes(a) => WorkerAttempt(l, w, a) && a.interrupted.None? && Next(w.sys, WorkerFinishes(true)).To?
       case ImportWrites(a) => ImportAttempt(l, w, a) && a.interrupted.Some?
       case ImportCompletes(a) => ImportAttempt(l, w, a) && a.interrupted.None? && Next(w.sys, Event.ImportDone).To?
       case FanoutWrites(f, toStaging, toActive) =>
         FanoutAttempt(l, w, f) && forall r :: r in toActive ==> r in f.live
       case FanoutCompletes(f, toStaging, spawned) =>
         && FanoutAttempt(l, w, f) && Next(w.sys, Event.FanoutDone(spawned)).To?
         && var shared := w.sys.journal.value.shared.value;
         multiset(w.partial + toStaging)
           == ImportOf(BaselineConfig(shared.snapshot.slot, MintsOf(w.sys.journal.value.staging, w.sys.files)), Above(Some(0), f.stream)).rows.tokens
  }

  function WithActive(w: World, rows: seq<TokenRow>): World
    requires TablesHaveRows(w)
  {
    w.(rows := w.rows[w.sys.active[HOT_STATE] := rows])
  }

  function WithBackup(w: World, rows: seq<TokenRow>): World
    requires TablesHaveRows(w)
  {
    w.(rows := w.rows[w.sys.backup[HOT_STATE] := rows])
  }

  ghost function After(l: Ledger, w: World, mv: Move): World
    requires Allowed(l, w, mv)
  {
    match mv
    case Plain(e) => AfterPlain(w, e)
    case ClearsStaging(e, cleared) =>
      (if cleared > HOT_STATE then WithBackup(w, []) else w)
        .(sys := Next(w.sys, e).sys, partial := [], truncated := w.truncated + w.sys.backup[..cleared])
    case WorkerWrites(a) => WithBackup(w, BackupRows(w) + a.interrupted.value).(reach := Max(w.reach, a.end))
    case WorkerCompletes(a) =>
      PossibleOrder(l, DeltaConfig(a.end, MintsOf(w.sys.journal.value.staging, w.sys.files)), WorkerTable(w), a);
      WithBackup(w, AfterAttempt(DeltaConfig(a.end, MintsOf(w.sys.journal.value.staging, w.sys.files)), WorkerTable(w), a).rows)
        .(sys := Next(w.sys, WorkerFinishes(true)).sys, reach := Max(w.reach, a.end))
    case ImportWrites(a) => WithActive(w, ActiveRows(w) + a.interrupted.value)
    case ImportCompletes(a) =>
      PossibleOrder(l, DeltaConfig(a.end, ActiveView(w.sys).mints), ImportTable(w), a);
      WithActive(w, AfterAttempt(DeltaConfig(a.end, ActiveView(w.sys).mints), ImportTable(w), a).rows)
        .(sys := Next(w.sys, Event.ImportDone).sys, horizon := Max(w.horizon, a.end))
    case FanoutWrites(f, toStaging, toActive) =>
      var v := WithActive(w, ActiveRows(w) + toActive);
      WithBackup(v, BackupRows(v) + toStaging).(partial := w.partial + toStaging)
    case FanoutCompletes(f, toStaging, spawned) =>
      var v := WithActive(w, AfterImport(ActiveRows(w), f.live, FanoutCloses(w, f), f.order));
      var slot := w.sys.journal.value.shared.value.snapshot.slot;
      WithBackup(v, BackupRows(v) + toStaging)
        .(sys := Next(w.sys, Event.FanoutDone(spawned)).sys, bridged := true, horizon := Max(w.horizon, slot), reach := slot)
  }

  /** A promotion makes the serving generation known, and the old one is not followed any more; a freeze names staging's mints. */
  function AfterPlain(w: World, e: Event): World
    requires TablesHaveRows(w) && Next(w.sys, e).To?
  {
    var moved := w.(sys := Next(w.sys, e).sys, frozen := FrozenAfter(e, w.frozen));
    if e.Promote? && moved.sys.journal.Some? && IsGroup(moved.sys.active) && IsGroup(moved.sys.backup) then
      moved.(known := true, bridged := false, horizon := ActiveView(moved.sys).maxSlot)
    else moved
  }

  // ------------------------------------------------------------ the invariant

  /** Live accounts are current; before a bridge everything is settled. */
  ghost predicate Serving(l: Ledger, v: LaneView, rows: seq<TokenRow>, horizon: nat, bridged: bool) {
    && Sound(l, v.mints, rows) && v.maxSlot <= horizon
    && LiveSettled(l, v.mints, rows, v.maxSlot, horizon)
    && (!bridged ==> Settled(l, v.mints, rows, v.maxSlot, horizon))
  }

  /** A committed staging generation is settled at its watermark, and no attempt went beyond its reach. */
  ghost predicate Building(l: Ledger, v: LaneView, rows: seq<TokenRow>, reach: nat) {
    Healthy(l, v.mints, Table(rows, v.maxSlot, v.maxSlot)) && Below(rows, reach) && v.maxSlot <= reach
  }

  ghost predicate ProcData(l: Ledger, w: World)
    requires TablesHaveRows(w)
  {
    w.sys.proc.Up? ==>
      && (w.sys.proc.pc.SharedPrepared? ==> BackupRows(w) == [] && w.partial == [])
      && (w.sys.proc.pc.FanningOut? ==> BackupRows(w) == w.partial)
      && (w.sys.proc.memory.worker.Some? && w.sys.proc.memory.worker.value.finished == Some(true) ==>
            var slot := w.sys.proc.memory.worker.value.archive.slot;
            && w.sys.journal.Some? && StagingView(w.sys).Some? && slot <= w.reach
            && Settled(l, StagingView(w.sys).value.mints, BackupRows(w), slot, slot))
  }

  ghost predicate DataInv(l: Ledger, w: World) {
    && Inv(w.sys) && TablesHaveRows(w) && ProcData(l, w)
    && (w.known ==>
          && w.sys.journal.Some? && w.sys.journal.value.active.mintsPath.Some?
          && Serving(l, ActiveView(w.sys), w.rows[ActiveTable(w.sys)], w.horizon, w.bridged))
    && (w.sys.journal.Some? && StagingView(w.sys).Some? ==>
          Building(l, StagingView(w.sys).value, w.rows[StagingTable(w.sys)], w.reach))
  }

  /** No token account was last written at slot 0, which a baseline would miss. */
  ghost predicate QuietGenesis(l: Ledger) { forall p :: (p, 0) in l ==> TokenOf(l[(p, 0)]).None? }

  // -------------------------------------------------------- rows of a lane

  lemma ServingMoreRows(l: Ledger, v: LaneView, rows: seq<TokenRow>, more: seq<TokenRow>, horizon: nat, bridged: bool)
    requires Serving(l, v, rows, horizon, bridged)
    requires forall r :: r in more ==> LedgerRow(l, v.mints, r) && r.updatedSlot > v.maxSlot
    ensures Serving(l, v, rows + more, horizon, bridged)
  {
    hide LedgerRow, SettledAt, LedgerView;
    forall p | SettledAt(l, v.mints, rows, v.maxSlot, horizon, p) ensures SettledAt(l, v.mints, rows + more, v.maxSlot, horizon, p) {
      MoreRowsStaySettled(l, v.mints, rows, more, v.maxSlot, horizon, p);
    }
  }

  lemma ServingAfterImport(l: Ledger, v: LaneView, cfg: Config, rows: seq<TokenRow>, horizon: nat, bridged: bool, a: Attempt)
    requires Lifecycle(l) && Serving(l, v, rows, horizon, bridged) && cfg == DeltaConfig(a.end, v.mints)
    requires a.interrupted.None? && Possible(l, cfg, Table(rows, v.maxSlot, horizon), a)
    ensures forall p <- a.order :: p in ImportOf(cfg, Above(Some(v.maxSlot), a.stream)).closes
    ensures Serving(l, v.(maxSlot := a.end), AfterAttempt(cfg, Table(rows, v.maxSlot, horizon), a).rows, Max(horizon, a.end), bridged)
  {
    hide Lifecycle, ImportOf, Above, IsIncremental, LiveSettled, Settled, Sound, Tombstones, AfterImport;
    var t := Table(rows, v.maxSlot, horizon);
    PossibleOrder(l, cfg, t, a);
    BridgeKeepsLive(l, cfg, t, a.end, a.stream, a.live, a.order);
    if !bridged {
      AttemptKeepsHealthy(l, cfg, t, a);
    }
  }

  lemma ServingAfterWrites(l: Ledger, v: LaneView, cfg: Config, rows: seq<TokenRow>, horizon: nat, bridged: bool, a: Attempt)
    requires Lifecycle(l) && Serving(l, v, rows, horizon, bridged) && cfg == DeltaConfig(a.end, v.mints)
    requires a.interrupted.Some? && Possible(l, cfg, Table(rows, v.maxSlot, horizon), a)
    ensures Serving(l, v, rows + a.interrupted.value, horizon, bridged)
  {
    hide Lifecycle, ImportOf, Above, IsIncremental, LiveSettled, Settled, Serving, DeliversOnly, LedgerRow;
    var closes := ImportOf(cfg, Above(Some(v.maxSlot), a.stream)).closes;
    IncrementalIsFromLedger(l, a.base, a.end, a.stream);
    ImportDeliversOnly(l, cfg, v.maxSlot, a.end, a.stream, a.live, a.order);
    ServingIsSound(l, v, rows, horizon, bridged);
    ImportSound(l, v.mints, v.maxSlot, a.end, rows, a.live, closes, a.order);
    NewRowsAbove(l, v.mints, v.maxSlot, a.end, rows, a.live, closes, a.order);
    ServingMoreRows(l, v, rows, a.interrupted.value, horizon, bridged);
  }

  lemma ServingIsSound(l: Ledger, v: LaneView, rows: seq<TokenRow>, horizon: nat, bridged: bool)
    requires Serving(l, v, rows, horizon, bridged)
    ensures Sound(l, v.mints, rows)
  {
  }

  lemma ServingAfterTail(l: Ledger, v: LaneView, rows: seq<TokenRow>, horizon: nat, bridged: bool, slot: nat, f: Fanout)
    requires Lifecycle(l) && Serving(l, v, rows, horizon, bridged)
    requires FanoutOn(l, DeltaConfig(slot, v.mints), v.maxSlot, slot, f)
    ensures forall p <- f.order :: p in ImportOf(DeltaConfig(slot, v.mints), Above(Some(v.maxSlot), f.stream)).closes
    ensures Serving(l, v.(maxSlot := slot),
      AfterImport(rows, f.live, ImportOf(DeltaConfig(slot, v.mints), Above(Some(v.maxSlot), f.stream)).closes, f.order), Max(horizon, slot), true)
  {
    hide Lifecycle, ImportOf, Above, IsFull, LiveSettled, Settled, Sound, AfterImport;
    BridgeKeepsLive(l, DeltaConfig(slot, v.mints), Table(rows, v.maxSlot, horizon), slot, f.stream, f.live, f.order);
  }

  lemma ServingDuringTail(l: Ledger, v: LaneView, rows: seq<TokenRow>, horizon: nat, bridged: bool, slot: nat, f: Fanout, more: seq<TokenRow>)
    requires Lifecycle(l) && Serving(l, v, rows, horizon, bridged)
    requires FanoutOn(l, DeltaConfig(slot, v.mints), v.maxSlot, slot, f) && forall r :: r in more ==> r in f.live
    ensures Serving(l, v, rows + more, horizon, bridged)
  {
    hide Lifecycle, ImportOf, Above, IsFull, Serving, LedgerRow;
    FullDelivers(l, DeltaConfig(slot, v.mints), v.maxSlot, slot, f.stream, f.live, f.order);
    ServingMoreRows(l, v, rows, more, horizon, bridged);
  }

  lemma BuildingAfterAttempt(l: Ledger, v: LaneView, cfg: Config, rows: seq<TokenRow>, reach: nat, a: Attempt)
    requires Lifecycle(l) && Building(l, v, rows, reach) && cfg == DeltaConfig(a.end, v.mints)
    requires Possible(l, cfg, Table(rows, v.maxSlot, v.maxSlot), a)
    ensures forall p <- a.order :: p in ImportOf(cfg, Above(Some(v.maxSlot), a.stream)).closes
    ensures var after := AfterAttempt(cfg, Table(rows, v.maxSlot, v.maxSlot), a).rows;
      && Building(l, v, after, Max(reach, a.end))
      && (a.interrupted.None? ==> Settled(l, v.mints, after, a.end, a.end))
  {
    hide Lifecycle, ImportOf, Above, IsIncremental, Settled, Sound, Tombstones, AfterImport;
    var t := Table(rows, v.maxSlot, v.maxSlot);
    PossibleOrder(l, cfg, t, a);
    AttemptKeepsHealthy(l, cfg, t, a);
    if a.interrupted.None? {
      CompletedKeepsHealthy(l, cfg, t, a);
    }
  }

  lemma BuildingFromBaseline(l: Ledger, v: LaneView, rows: seq<TokenRow>, stream: seq<AppendVec>)
    requires Lifecycle(l) && QuietGenesis(l) && IsFull(l, v.maxSlot, stream)
    requires IsBaseline(BaselineConfig(v.maxSlot, v.mints), stream, rows)
    ensures Building(l, v, rows, v.maxSlot)
  {
    hide Lifecycle, IsFull, IsBaseline, Settled, Sound, TokenOf, Latest;
    forall p | Latest(l, p, v.maxSlot) == Some(0) ensures RecordView(v.mints, l[(p, 0)], 0).None? {
      assert (p, 0) in l;
    }
    BaselineIsHealthy(l, BaselineConfig(v.maxSlot, v.mints), v.maxSlot, stream, rows);
  }

  // ---------------------------------------------------------- every move

  /** A step that ends in a fanout, or with finished work, began there or on its threshold. */
  predicate PcsFollow(s: Sys, t: Sys) {
    t.proc.Up? ==>
      && (t.proc.pc.SharedPrepared? ==> s.proc.Up? && s.proc.pc.SharedPrepared?)
      && (t.proc.pc.FanningOut? ==> s.proc.Up? && (s.proc.pc.SharedPrepared? || s.proc.pc.FanningOut?))
      && (t.proc.memory.worker.Some? && t.proc.memory.worker.value.finished.Some? ==>
            s.proc.Up? && s.proc.memory.worker == t.proc.memory.worker)
  }

  lemma LoopPcs(s: Sys, e: Event)
    requires Inv(s) && s.journal.Some? && Next(s, e).To?
    requires e.LoadActive? || e.LoadStaging? || e.JoinBuild? || e.Decide? || e.ApplySelected?
    ensures PcsFollow(s, Next(s, e).sys)
  {
    hide Inv, LoadActiveStep, LoadStagingStep, JoinBuildStep, DecideStep, ApplySelectedStep, Quiet, Steady;
  }

  lemma PlainPcs(s: Sys, e: Event)
    requires Inv(s) && s.journal.Some? && Next(s, e).To? && IsPlain(e)
    ensures PcsFollow(s, Next(s, e).sys)
  {
    hide Inv, LoadActiveStep, LoadStagingStep, JoinBuildStep, DecideStep, ApplySelectedStep, Quiet, Steady, CleanedFiles;
    if e.LoadActive? || e.LoadStaging? || e.JoinBuild? || e.Decide? || e.ApplySelected? {
      LoopPcs(s, e);
    }
  }

  /** While staging is being loaded, or holds finished work, its table is still under its own name. */
  lemma BackupIsStaging(s: Sys)
    requires Inv(s) && s.journal.Some? && !HasCutover(s)
    ensures StagingTable(s) == s.backup[HOT_STATE] && ActiveTable(s) == s.active[HOT_STATE]
  {
  }

  lemma NoCutoverDuringLoads(s: Sys)
    requires Inv(s) && s.journal.Some? && s.proc.Up?
    requires s.journal.value.shared.Some? || s.proc.memory.worker.Some? || s.proc.pc.Importing?
      || s.proc.pc.SharedPrepared? || s.proc.pc.FanningOut?
    ensures !HasCutover(s)
  {
    hide TablesOk, FilesOk, ExchangeOk, ActiveKnown, StagingKnown;
  }

  lemma PlainKeepsBackup(s: Sys, e: Event, i: nat)
    requires Inv(s) && s.journal.Some? && Next(s, e).To? && IsPlain(e) && !HasCutover(s)
    requires i < GROUP_SIZE && !(e.RebuildDerived? && e.index == i)
    ensures var t := Next(s, e).sys;
      IsGroup(t.active) && IsGroup(t.backup) && t.active[i] == s.active[i] && t.backup[i] == s.backup[i]
  {
    hide PcOk, FilesOk, JournalOk, LoadActiveStep, LoadStagingStep, JoinBuildStep, DecideStep, ApplySelectedStep, EnterFanoutStep,
         ClearDisabledStep, PersistActiveStep, Steady, CleanedFiles, PairsKnown;
  }

  lemma TablesStillHaveRows(w: World, t: Sys)
    requires Inv(w.sys) && Inv(t) && TablesHaveRows(w) && w.sys.journal.Some? && t.journal.Some?
    requires {t.active[HOT_STATE], t.backup[HOT_STATE]} == {w.sys.active[HOT_STATE], w.sys.backup[HOT_STATE]}
    ensures TablesHaveRows(w.(sys := t))
  {
    assert t.active[HOT_STATE] in {t.active[HOT_STATE], t.backup[HOT_STATE]};
    assert t.backup[HOT_STATE] in {t.active[HOT_STATE], t.backup[HOT_STATE]};
  }

  lemma LoopKeepsTables(s: Sys, e: Event)
    requires Inv(s) && s.journal.Some? && Next(s, e).To?
    requires e.ClearDisabled? || e.LoadActive? || e.PersistActive? || e.LoadStaging? || e.JoinBuild? || e.Decide? || e.ApplySelected? || e.EnterFanout?
    ensures Next(s, e).sys.active == s.active && Next(s, e).sys.backup == s.backup
  {
    hide Inv, LoadActiveStep, LoadStagingStep, JoinBuildStep, DecideStep, ApplySelectedStep, EnterFanoutStep, ClearDisabledStep, PersistActiveStep, Steady, Mild;
  }

  /** The two tables of a kind stay the two tables of that kind, unless one is rebuilt. */
  lemma SameTwoTables(s: Sys, e: Event, i: nat)
    requires Inv(s) && s.journal.Some? && Next(s, e).To? && (IsPlain(e) || e.JoinWorker? || e.Promote? || e.WorkerFinishes? || e.Start?)
    requires i < GROUP_SIZE && !(e.RebuildDerived? && e.index == i)
    ensures var t := Next(s, e).sys;
      && IsGroup(t.active) && IsGroup(t.backup)
      && {t.active[i], t.backup[i]} == {s.active[i], s.backup[i]}
  {
    hide PcOk, FilesOk, JournalOk, LoadActiveStep, LoadStagingStep, JoinBuildStep, DecideStep, ApplySelectedStep, EnterFanoutStep,
         ClearDisabledStep, PersistActiveStep, Quiet, Steady, Mild, CleanedFiles, PairsKnown, AllDifferent;
    if e.ClearDisabled? || e.LoadActive? || e.PersistActive? || e.LoadStaging? || e.JoinBuild? || e.Decide? || e.ApplySelected? || e.EnterFanout? {
      LoopKeepsTables(s, e);
    }
  }

  lemma RebuiltIsDerived(s: Sys, e: Event)
    requires Next(s, e).To? && e.RebuildDerived?
    ensures e.index == HOT_INFO || e.index == BALANCES
  {
  }

  lemma PlainKeepsData(l: Ledger, w: World, e: Event)
    requires DataInv(l, w) && w.sys.journal.Some? && FreezesUsable(e) && Next(w.sys, e).To? && IsPlain(e)
    ensures DataInv(l, w.(sys := Next(w.sys, e).sys))
  {
    hide Inv, Next, Serving, Building, Settled, ActiveTables, StagingTables;
    var s, t := w.sys, Next(w.sys, e).sys;
    PlainKeepsViews(s, e);
    PlainPcs(s, e);
    if e.RebuildDerived? {
      RebuiltIsDerived(s, e);
    }
    SameTwoTables(s, e, HOT_STATE);
    NextSafe(s, e);
    TablesStillHaveRows(w, t);
    InvHasGroups(s);
    InvHasGroups(t);
    if t.proc.Up? && (t.proc.pc.SharedPrepared? || t.proc.pc.FanningOut?) {
      NoCutoverDuringLoads(s);
      PlainKeepsBackup(s, e, HOT_STATE);
    }
    if t.proc.Up? && t.proc.memory.worker.Some? && t.proc.memory.worker.value.finished.Some? {
      NoCutoverDuringLoads(s);
      PlainKeepsBackup(s, e, HOT_STATE);
      RunningWorkerViews(t);
    }
  }

  lemma RunningWorkerViews(s: Sys)
    requires Inv(s) && s.journal.Some? && s.proc.Up? && s.proc.memory.worker.Some?
    ensures IsGroup(s.active) && IsGroup(s.backup) && !HasCutover(s)
    ensures StagingView(s).Some? && StagingView(s).value.maxSlot == s.proc.memory.worker.value.resume
    ensures StagingTable(s) == s.backup[HOT_STATE] && StagingView(s).value.mints == MintsOf(s.journal.value.staging, s.files)
    ensures !s.proc.pc.SharedPrepared? && !s.proc.pc.FanningOut?
  {
    hide AllDifferent, FilesOk, ExchangeOk, ActiveKnown, StagingKnown;
  }

  lemma StartKeepsData(l: Ledger, w: World, resume: nat)
    requires DataInv(l, w) && Next(w.sys, Start(resume)).To?
    ensures DataInv(l, w.(sys := Next(w.sys, Start(resume)).sys))
  {
    hide Serving, Building, Settled, TablesOk, ActiveTables, StagingTables;
    NextSafe(w.sys, Start(resume));
    InvHasGroups(w.sys);
    SameTables(w.sys, Next(w.sys, Start(resume)).sys);
  }

  lemma JoinWorkerKeepsData(l: Ledger, w: World)
    requires DataInv(l, w) && Next(w.sys, JoinWorker).To?
    ensures DataInv(l, w.(sys := Next(w.sys, JoinWorker).sys))
  {
    hide Inv, Next, Serving, Settled, ActiveTables, StagingTables;
    var s, t := w.sys, Next(w.sys, JoinWorker).sys;
    JoinWorkerViews(s);
    SameTwoTables(s, JoinWorker, HOT_STATE);
    TablesStillHaveRows(w, t);
    InvHasGroups(s);
    InvHasGroups(t);
    JoinWorkerMemory(s);
    if s.proc.memory.worker.Some? {
      RunningWorkerViews(s);
    }
  }

  lemma JoinWorkerMemory(s: Sys)
    requires Inv(s) && Next(s, JoinWorker).To?
    ensures s.journal.Some? && s.proc.Up? && Next(s, JoinWorker).sys.journal.Some?
    ensures var t := Next(s, JoinWorker).sys;
      t.proc.Up? ==> t.proc.pc == Deciding && (t.proc.memory.worker.Some? ==> t.proc.memory.worker == s.proc.memory.worker && t.proc.memory.worker.value.finished.None?)
  {
    hide Inv;
  }

  lemma PromoteKeepsData(l: Ledger, w: World)
    requires DataInv(l, w) && Next(w.sys, Promote).To?
    ensures DataInv(l, AfterPlain(w, Promote)) && AfterPlain(w, Promote).known
  {
    hide Inv, Next, Settled, LiveSettled, Sound, Below, ActiveTables, StagingTables;
    var s, t := w.sys, Next(w.sys, Promote).sys;
    PromoteViews(s);
    SameTwoTables(s, Promote, HOT_STATE);
    TablesStillHaveRows(w, t);
    InvHasGroups(s);
    InvHasGroups(t);
    PromoteMemory(s);
    PromotedIsServing(l, StagingView(s).value, w.rows[StagingTable(s)], w.reach);
  }

  lemma PromoteMemory(s: Sys)
    requires Inv(s) && Next(s, Promote).To?
    ensures s.proc.Up? && Next(s, Promote).sys.proc == Up(Promoted, Next(s, Promote).sys.proc.memory)
    ensures Next(s, Promote).sys.proc.memory.worker.None?
  {
    hide TablesOk, FilesOk, ExchangeOk, Running;
  }

  lemma PromotedIsServing(l: Ledger, v: LaneView, rows: seq<TokenRow>, reach: nat)
    requires Building(l, v, rows, reach)
    ensures Serving(l, v, rows, v.maxSlot, false)
  {
    hide Sound, SettledAt, LedgerView, Below;
  }

  lemma ClearsStagingKeepsData(l: Ledger, w: World, e: Event, cleared: nat)
    requires DataInv(l, w) && Allowed(l, w, ClearsStaging(e, cleared))
    ensures DataInv(l, After(l, w, ClearsStaging(e, cleared)))
  {
    hide Inv, Next, Serving, Building, Settled, ActiveTables, StagingTables;
    var s, t := w.sys, Next(w.sys, e).sys;
    NextSafe(s, e);
    ClearsStagingMemory(s, e);
    InvHasGroups(s);
    NoCutoverDuringLoads(s);
    BackupIsStaging(s);
    SameTables(s, t);
  }

  lemma ClearsStagingMemory(s: Sys, e: Event)
    requires Inv(s) && (e.PrepareShared? || e.FanoutFails?) && Next(s, e).To?
    ensures var t := Next(s, e).sys;
      && Inv(t) && s.journal.Some? && t == s.(proc := t.proc) && s.proc.Up? && t.proc.Up? && t.proc.memory.worker.None?
      && s.journal.value.shared.Some? && StagingView(t).None? && !t.proc.pc.FanningOut?
      && (t.proc.pc.SharedPrepared? ==> e.PrepareShared? && e.ok) && !HasCutover(t)
  {
    hide TablesOk, FilesOk, ExchangeOk, ActiveKnown, StagingKnown;
    NextSafe(s, e);
  }

  lemma WorkerFailsKeepsData(l: Ledger, w: World)
    requires DataInv(l, w) && Next(w.sys, WorkerFinishes(false)).To?
    ensures DataInv(l, w.(sys := Next(w.sys, WorkerFinishes(false)).sys))
  {
    hide Inv, Serving, Building, Settled, ActiveTables, StagingTables;
    NextSafe(w.sys, WorkerFinishes(false));
    InvHasGroups(w.sys);
    SameTables(w.sys, Next(w.sys, WorkerFinishes(false)).sys);
  }

  lemma WorkerWritesKeepsData(l: Ledger, w: World, a: Attempt)
    requires Lifecycle(l) && DataInv(l, w) && Allowed(l, w, WorkerWrites(a))
    ensures DataInv(l, After(l, w, WorkerWrites(a)))
  {
    hide Inv, Lifecycle, Serving, Building, Settled, Possible, AfterImport, Tombstones, ImportOf, Above, ActiveTables, StagingTables;
    InvHasGroups(w.sys);
    RunningWorkerViews(w.sys);
    var v := StagingView(w.sys).value;
    BuildingAfterAttempt(l, v, DeltaConfig(a.end, v.mints), BackupRows(w), w.reach, a);
  }

  lemma WorkerCompletesKeepsData(l: Ledger, w: World, a: Attempt)
    requires Lifecycle(l) && DataInv(l, w) && Allowed(l, w, WorkerCompletes(a))
    ensures DataInv(l, After(l, w, WorkerCompletes(a)))
  {
    hide Inv, Next, Lifecycle, Serving, Building, Settled, Possible, AfterImport, Tombstones, ImportOf, Above, ActiveTables, StagingTables;
    var s, t := w.sys, Next(w.sys, WorkerFinishes(true)).sys;
    InvHasGroups(s);
    RunningWorkerViews(s);
    WorkerFinishesMemory(s);
    InvHasGroups(t);
    RunningWorkerViews(t);
    SameTables(s, t);
    var v := StagingView(s).value;
    BuildingAfterAttempt(l, v, DeltaConfig(a.end, v.mints), BackupRows(w), w.reach, a);
  }

  lemma WorkerFinishesMemory(s: Sys)
    requires Inv(s) && Next(s, WorkerFinishes(true)).To?
    ensures var t := Next(s, WorkerFinishes(true)).sys;
      && Inv(t) && s.proc.Up? && s.proc.memory.worker.Some?
      && t == s.(proc := Up(s.proc.pc, s.proc.memory.(worker := Some(s.proc.memory.worker.value.(finished := Some(true))))))
  {
    hide Inv;
    NextSafe(s, WorkerFinishes(true));
  }

  lemma ImportWritesKeepsData(l: Ledger, w: World, a: Attempt)
    requires Lifecycle(l) && DataInv(l, w) && Allowed(l, w, ImportWrites(a))
    ensures DataInv(l, After(l, w, ImportWrites(a)))
  {
    hide Inv, Lifecycle, Serving, Building, Settled, Possible;
    InvHasGroups(w.sys);
    NoCutoverDuringLoads(w.sys);
    BackupIsStaging(w.sys);
    if w.known {
      var v := ActiveView(w.sys);
      ServingAfterWrites(l, v, DeltaConfig(a.end, v.mints), ActiveRows(w), w.horizon, w.bridged, a);
    }
  }

  lemma ImportCompletesKeepsData(l: Ledger, w: World, a: Attempt)
    requires Lifecycle(l) && DataInv(l, w) && Allowed(l, w, ImportCompletes(a))
    ensures DataInv(l, After(l, w, ImportCompletes(a)))
  {
    hide Inv, Next, Lifecycle, Serving, Building, Settled, Possible, AfterImport, Tombstones, ImportOf, Above, ActiveTables, StagingTables;
    var s, t := w.sys, Next(w.sys, Event.ImportDone).sys;
    ImportDoneViews(s);
    ImportDoneMemory(s);
    InvHasGroups(s);
    InvHasGroups(t);
    NoCutoverDuringLoads(s);
    BackupIsStaging(s);
    BackupIsStaging(t);
    if w.known {
      var v := ActiveView(s);
      ServingAfterImport(l, v, DeltaConfig(a.end, v.mints), ActiveRows(w), w.horizon, w.bridged, a);
    }
  }

  lemma ImportDoneMemory(s: Sys)
    requires Inv(s) && Next(s, Event.ImportDone).To?
    ensures var t := Next(s, Event.ImportDone).sys;
      && t.active == s.active && t.backup == s.backup && t.proc.Up? && t.proc.pc == JoiningBuild && s.proc.Up?
      && t.proc.memory.worker == s.proc.memory.worker && t.journal.Some? && !HasCutover(t)
  {
    hide TablesOk, FilesOk, ExchangeOk, Running;
  }

  lemma LoadingHasStagingEmpty(s: Sys)
    requires Inv(s) && s.journal.Some? && s.proc.Up? && s.proc.pc.FanningOut?
    ensures IsGroup(s.active) && IsGroup(s.backup) && StagingView(s).None? && s.proc.memory.worker.None? && s.journal.value.shared.Some?
    ensures ActiveView(s).maxSlot == s.journal.value.shared.value.resumeSlot
  {
    hide TablesOk, FilesOk, ExchangeOk, ActiveKnown, StagingKnown;
    InvHasGroups(s);
  }

  lemma FanoutWritesKeepsData(l: Ledger, w: World, f: Fanout, toStaging: seq<TokenRow>, toActive: seq<TokenRow>)
    requires Lifecycle(l) && DataInv(l, w) && Allowed(l, w, FanoutWrites(f, toStaging, toActive))
    ensures DataInv(l, After(l, w, FanoutWrites(f, toStaging, toActive)))
  {
    hide Lifecycle, Serving, Building, Settled, IsFull, IsImport, Inv, ActiveTables, StagingTables;
    LoadingHasStagingEmpty(w.sys);
    InvHasGroups(w.sys);
    NoCutoverDuringLoads(w.sys);
    BackupIsStaging(w.sys);
    if w.known {
      var v := ActiveView(w.sys);
      ServingDuringTail(l, v, ActiveRows(w), w.horizon, w.bridged, w.sys.journal.value.shared.value.snapshot.slot, f, toActive);
    }
  }

  lemma FanoutCompletesKeepsData(l: Ledger, w: World, f: Fanout, toStaging: seq<TokenRow>, spawned: bool)
    requires Lifecycle(l) && QuietGenesis(l) && DataInv(l, w) && Allowed(l, w, FanoutCompletes(f, toStaging, spawned))
    ensures DataInv(l, After(l, w, FanoutCompletes(f, toStaging, spawned)))
  {
    hide Inv, Next, Lifecycle, Serving, Building, Settled, IsFull, IsImport, AfterImport, Tombstones, ImportOf, Above, QuietGenesis, ActiveTables, StagingTables;
    var s, t := w.sys, Next(w.sys, Event.FanoutDone(spawned)).sys;
    var slot := s.journal.value.shared.value.snapshot.slot;
    FanoutDoneViews(s, spawned);
    FanoutDoneMemory(s, spawned);
    InvHasGroups(s);
    InvHasGroups(t);
    NoCutoverDuringLoads(s);
    BackupIsStaging(s);
    BackupIsStaging(t);
    BuildingFromBaseline(l, StagingView(t).value, w.partial + toStaging, f.stream);
    if w.known {
      ServingAfterTail(l, ActiveView(s), ActiveRows(w), w.horizon, w.bridged, slot, f);
    }
  }

  lemma FanoutDoneMemory(s: Sys, spawned: bool)
    requires Inv(s) && Next(s, Event.FanoutDone(spawned)).To?
    ensures var t := Next(s, Event.FanoutDone(spawned)).sys;
      && t.active == s.active && t.backup == s.backup && t.proc.Up? && t.proc.pc == JoiningBuild && s.proc.Up?
      && t.proc.memory.worker.None? && t.journal.Some? && !HasCutover(t)
  {
    hide TablesOk, FilesOk, ExchangeOk, Running;
  }

  /** The invariant says nothing of the frozen set. */
  lemma DataIgnoresFrozen(l: Ledger, w: World, frozen: Mints)
    requires DataInv(l, w)
    ensures DataInv(l, w.(frozen := frozen))
  {
    hide Inv, Serving, Building, Settled;
  }

  /** Every move keeps the invariant. */
  lemma MoveKeepsData(l: Ledger, w: World, mv: Move)
    requires Lifecycle(l) && QuietGenesis(l) && DataInv(l, w) && Allowed(l, w, mv)
    ensures DataInv(l, After(l, w, mv))
  {
    hide DataInv, Lifecycle, QuietGenesis, Next, WorkerAttempt, ImportAttempt, FanoutAttempt, AfterAttempt, AfterImport, ImportOf;
    match mv {
      case Plain(e) =>
        if e.Promote? {
          PromoteKeepsData(l, w);
        } else if e.JoinWorker? {
          JoinWorkerKeepsData(l, w);
        } else if e.Start? {
          StartKeepsData(l, w, e.resume);
        } else if e == WorkerFinishes(false) {
          WorkerFailsKeepsData(l, w);
        } else if w.sys.journal.Some? {
          PlainKeepsData(l, w, e);
        } else {
          NoJournalKeepsData(l, w, e);
        }
        if !e.Promote? {
          DataIgnoresFrozen(l, w.(sys := Next(w.sys, e).sys), FrozenAfter(e, w.frozen));
        }
      case ClearsStaging(e, cleared) => ClearsStagingKeepsData(l, w, e, cleared);
      case WorkerWrites(a) => WorkerWritesKeepsData(l, w, a);
      case WorkerCompletes(a) => WorkerCompletesKeepsData(l, w, a);
      case ImportWrites(a) => ImportWritesKeepsData(l, w, a);
      case ImportCompletes(a) => ImportCompletesKeepsData(l, w, a);
      case FanoutWrites(f, toStaging, toActive) => FanoutWritesKeepsData(l, w, f, toStaging, toActive);
      case FanoutCompletes(f, toStaging, spawned) => FanoutCompletesKeepsData(l, w, f, toStaging, spawned);
    }
  }

  lemma NoJournalKeepsData(l: Ledger, w: World, e: Event)
    requires DataInv(l, w) && w.sys.journal.None? && FreezesUsable(e) && Next(w.sys, e).To? && IsPlain(e)
    ensures DataInv(l, w.(sys := Next(w.sys, e).sys))
  {
    hide Serving, Building, Settled, TablesOk;
    NextSafe(w.sys, e);
  }

  // -------------------------------------------------------------------- runs

  /** Moves that can follow one another. */
  ghost predicate Runs(l: Ledger, w: World, moves: seq<Move>)
    decreases |moves|
  {
    moves == [] || (Allowed(l, w, moves[0]) && Runs(l, After(l, w, moves[0]), moves[1..]))
  }

  ghost function AfterRun(l: Ledger, w: World, moves: seq<Move>): World
    requires Runs(l, w, moves)
    decreases |moves|
  {
    if moves == [] then w else AfterRun(l, After(l, w, moves[0]), moves[1..])
  }

  /** Before the first start nothing is known of the serving tables. */
  predicate InitialWorld(w: World) { Initial(w.sys) && TablesHaveRows(w) && !w.known }

  lemma InitialData(l: Ledger, w: World)
    requires InitialWorld(w)
    ensures DataInv(l, w)
  {
    hide AllDifferent;
    InitialInv(w.sys);
  }

  /** The invariant holds over all runs, with crashes anywhere and any truthful archives. */
  lemma {:induction false} RunKeepsData(l: Ledger, w: World, moves: seq<Move>)
    requires Lifecycle(l) && QuietGenesis(l) && DataInv(l, w) && Runs(l, w, moves)
    ensures DataInv(l, AfterRun(l, w, moves))
    decreases |moves|
  {
    hide DataInv, Allowed, After, Lifecycle, QuietGenesis;
    if moves != [] {
      MoveKeepsData(l, w, moves[0]);
      RunKeepsData(l, After(l, w, moves[0]), moves[1..]);
    }
  }

  /** The steps of the watcher inside a move. */
  lemma MoveKeepsFrozen(l: Ledger, w: World, mv: Move)
    requires Inv(w.sys) && FrozenFor(w.sys, w.frozen) && Allowed(l, w, mv)
    ensures var after := After(l, w, mv); FrozenFor(after.sys, after.frozen)
  {
    hide Inv, FrozenFor, Next, WorkerAttempt, ImportAttempt, FanoutAttempt, AfterAttempt, AfterImport, ImportOf, Possible;
    match mv {
      case Plain(e) => StepKeepsFrozen(w.sys, e, w.frozen);
      case ClearsStaging(e, cleared) => StepKeepsFrozen(w.sys, e, w.frozen);
      case WorkerWrites(a) =>
      case WorkerCompletes(a) => StepKeepsFrozen(w.sys, WorkerFinishes(true), w.frozen);
      case ImportWrites(a) =>
      case ImportCompletes(a) => StepKeepsFrozen(w.sys, Event.ImportDone, w.frozen);
      case FanoutWrites(f, toStaging, toActive) =>
      case FanoutCompletes(f, toStaging, spawned) => StepKeepsFrozen(w.sys, Event.FanoutDone(spawned), w.frozen);
    }
  }

  /** Over all runs, staging is loaded with the mints that were read when its generation was begun. */
  lemma {:induction false} RunKeepsFrozen(l: Ledger, w: World, moves: seq<Move>)
    requires Lifecycle(l) && QuietGenesis(l) && DataInv(l, w) && FrozenFor(w.sys, w.frozen) && Runs(l, w, moves)
    ensures var after := AfterRun(l, w, moves); FrozenFor(after.sys, after.frozen)
    decreases |moves|
  {
    hide DataInv, FrozenFor, Allowed, After, Lifecycle, QuietGenesis;
    if moves != [] {
      MoveKeepsData(l, w, moves[0]);
      DataHasInv(l, w);
      MoveKeepsFrozen(l, w, moves[0]);
      RunKeepsFrozen(l, After(l, w, moves[0]), moves[1..]);
    }
  }

  lemma DataHasInv(l: Ledger, w: World)
    requires DataInv(l, w)
    ensures Inv(w.sys) && TablesHaveRows(w)
  {
    hide Inv;
  }

  /**
   Every promoted generation: when a cutover completes, after any run, the six
   tables now serving are those of staging, and the table of accounts is settled
   at the promoted watermark for the mints read when that generation was begun,
   before staging was first cleared for it. It reads exactly as the ledger there
   if no interrupted attempt on it reached further than what was promoted.
   */
  lemma PromotedGenerationIsExact(l: Ledger, w: World, moves: seq<Move>)
    requires Lifecycle(l) && QuietGenesis(l) && InitialWorld(w) && Runs(l, w, moves)
    requires Allowed(l, AfterRun(l, w, moves), Plain(Promote))
    ensures var before := AfterRun(l, w, moves);
      var after := After(l, before, Plain(Promote));
      && TablesHaveRows(after) && before.sys.journal.Some? && after.sys.journal.Some?
      && StagingView(before.sys) == Some(ActiveView(after.sys))
      && var v := ActiveView(after.sys);
      && v.tables == after.sys.active && v.mints == before.frozen
      && Sound(l, v.mints, ActiveRows(after)) && Settled(l, v.mints, ActiveRows(after), v.maxSlot, v.maxSlot)
      && (before.reach <= v.maxSlot ==> Exact(l, v.mints, ActiveRows(after), v.maxSlot))
  {
    hide Lifecycle, QuietGenesis, Runs, AfterRun, Serving, Settled, Sound, Exact, Below, Inv, Next, ActiveTables, StagingTables;
    var before := AfterRun(l, w, moves);
    InitialData(l, w);
    RunKeepsData(l, w, moves);
    RunKeepsFrozen(l, w, moves);
    PromoteKeepsData(l, before);
    PromoteViews(before.sys);
    InvHasGroups(before.sys);
    var v := StagingView(before.sys).value;
    var rows := before.rows[StagingTable(before.sys)];
    if before.reach <= v.maxSlot {
      SettledWithinReachIsExact(l, v, rows, before.reach);
    }
    BuildingIsSettled(l, v, rows, before.reach);
    PromotedTable(before.sys);
  }

  lemma PromotedTable(s: Sys)
    requires Inv(s) && Next(s, Promote).To?
    ensures var t := Next(s, Promote).sys;
      IsGroup(t.active) && IsGroup(t.backup) && t.journal.Some? && ActiveView(t).tables == t.active && t.active[HOT_STATE] == StagingTable(s)
  {
    hide Inv, Next, ActiveTables, StagingTables;
    PromoteViews(s);
    InvHasGroups(Next(s, Promote).sys);
  }

  lemma BuildingIsSettled(l: Ledger, v: LaneView, rows: seq<TokenRow>, reach: nat)
    requires Building(l, v, rows, reach)
    ensures Sound(l, v.mints, rows) && Settled(l, v.mints, rows, v.maxSlot, v.maxSlot)
  {
  }

  lemma SettledWithinReachIsExact(l: Ledger, v: LaneView, rows: seq<TokenRow>, reach: nat)
    requires Building(l, v, rows, reach) && reach <= v.maxSlot
    ensures Exact(l, v.mints, rows, v.maxSlot)
  {
    hide Settled, Exact, Sound;
    SettledBelowIsExact(l, v.mints, rows, v.maxSlot);
  }

  /**
   What a promoted group serves from then on, through bridges and crashes: of
   every account that is live, and whose last record is within the watermark,
   the current version, unless an attempt has already written a later one.
   */
  lemma ServingStaysCurrent(l: Ledger, w: World, moves: seq<Move>, p: Pubkey)
    requires Lifecycle(l) && QuietGenesis(l) && InitialWorld(w) && Runs(l, w, moves)
    ensures var t := AfterRun(l, w, moves);
      TablesHaveRows(t) && (t.known ==>
        && t.sys.journal.Some?
        && var v, rows := ActiveView(t.sys), t.rows[ActiveTable(t.sys)];
        && (LedgerView(l, v.mints, p, t.horizon).Some? && Latest(l, p, t.horizon).value <= v.maxSlot ==>
              HasRowAbove(rows, p, t.horizon) || View(rows, p) == LedgerView(l, v.mints, p, t.horizon))
        && (!t.bridged && (Latest(l, p, t.horizon).None? || Latest(l, p, t.horizon).value <= v.maxSlot) ==>
              HasRowAbove(rows, p, t.horizon) || View(rows, p) == LedgerView(l, v.mints, p, t.horizon)))
  {
    hide Lifecycle, QuietGenesis, Runs, AfterRun, Building, Sound, Inv, InitialWorld, View, LedgerView, HasRowAbove, Latest;
    InitialData(l, w);
    RunKeepsData(l, w, moves);
    var t := AfterRun(l, w, moves);
    if t.known {
      var v, rows := ActiveView(t.sys), t.rows[ActiveTable(t.sys)];
      assert LedgerView(l, v.mints, p, t.horizon).Some? ==> SettledAt(l, v.mints, rows, v.maxSlot, t.horizon, p);
      assert !t.bridged ==> SettledAt(l, v.mints, rows, v.maxSlot, t.horizon, p);
    }
  }

  /** Imports only append. */
  lemma OtherMovesAppend(l: Ledger, w: World, mv: Move, table: Uuid)
    requires DataInv(l, w) && Allowed(l, w, mv) && table in w.rows && !mv.ClearsStaging?
    ensures var after := After(l, w, mv); table in after.rows && w.rows[table] <= after.rows[table]
  {
    hide Inv, Next, Serving, Building, Settled, Possible, Tombstones, ImportOf, Above, ActiveView, MintsOf, FanoutOn;
    if mv.WorkerCompletes? {
      PossibleOrder(l, DeltaConfig(mv.a.end, MintsOf(w.sys.journal.value.staging, w.sys.files)), WorkerTable(w), mv.a);
    }
    if mv.ImportCompletes? {
      PossibleOrder(l, DeltaConfig(mv.a.end, ActiveView(w.sys).mints), ImportTable(w), mv.a);
    }
  }

  lemma ClearedOnlyWhileLoading(s: Sys, e: Event)
    requires Inv(s) && (e.PrepareShared? || e.FanoutFails?) && Next(s, e).To?
    ensures IsGroup(s.active) && IsGroup(s.backup) && s.journal.Some? && s.journal.value.shared.Some?
    ensures s.journal.value.staging.phase == FullLoading && StagingView(s).None?
    ensures forall id <- s.backup :: id !in ActiveTables(s)
  {
    hide FilesOk, ExchangeOk, Running, PairsKnown, ActiveTables, StagingTables;
    UnswappedTables(s);
  }

  /** The tables behind `_bak` may be cleared: the journal durably says that they are being loaded, and none is active's. */
  predicate MayBeCleared(s: Sys, table: Uuid) {
    && IsGroup(s.active) && IsGroup(s.backup) && s.journal.Some?
    && table in s.backup && table !in ActiveTables(s)
    && s.journal.value.shared.Some? && s.journal.value.staging.phase == FullLoading && StagingView(s).None?
  }

  /**
   Write-ahead safety, for all six kinds of table: only a table behind `_bak` is
   ever truncated, and only while the journal durably says that it is being
   loaded. No table that the journal describes as committed, on either lane, is
   truncated, and no hot-state table loses a row in any other way.
   */
  lemma RowsRemovedOnlyWhileLoading(l: Ledger, w: World, mv: Move)
    requires DataInv(l, w) && Allowed(l, w, mv)
    ensures var after := After(l, w, mv);
      && w.truncated <= after.truncated
      && (forall id <- after.truncated[|w.truncated|..] :: MayBeCleared(w.sys, id))
      && (forall id <- w.rows :: id in after.rows && (w.rows[id] <= after.rows[id] || id in after.truncated[|w.truncated|..]))
  {
    hide Inv, Next, Serving, Building, Settled, WorkerAttempt, ImportAttempt, FanoutAttempt, ActiveTables, StagingTables, StagingView;
    var after := After(l, w, mv);
    if mv.ClearsStaging? {
      ClearedOnlyWhileLoading(w.sys, mv.e);
      var cleared := w.sys.backup[..mv.cleared];
      assert after.truncated[|w.truncated|..] == cleared;
      if mv.cleared > HOT_STATE {
        assert cleared[HOT_STATE] == w.sys.backup[HOT_STATE];
      }
    } else {
      assert after.truncated == w.truncated;
      forall id | id in w.rows ensures id in after.rows && w.rows[id] <= after.rows[id] {
        OtherMovesAppend(l, w, mv, id);
      }
    }
  }

  /** A successful preparation leaves no table of `_bak` uncleared, and no row of the hot-state table. */
  lemma PreparedIsEmpty(l: Ledger, w: World, e: Event, cleared: nat)
    requires DataInv(l, w) && Allowed(l, w, ClearsStaging(e, cleared)) && e.PrepareShared? && e.ok
    ensures var after := After(l, w, ClearsStaging(e, cleared));
      && (forall id <- after.sys.backup :: id in after.truncated[|w.truncated|..])
      && TablesHaveRows(after) && BackupRows(after) == []
  {
    hide Inv, Serving, Building, Settled;
    ClearsStagingMemory(w.sys, e);
    var after := After(l, w, ClearsStaging(e, cleared));
    assert w.sys.backup[..cleared] == w.sys.backup;
    assert after.truncated[|w.truncated|..] == w.sys.backup;
  }
}
