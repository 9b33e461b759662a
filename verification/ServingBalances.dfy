/**
 The balance tables of both groups through the runs of the watcher. Of each pair
 it is kept from which state of the account table its stored balance was
 computed; that decides, for every reachable state and every promotion, whether
 the balance served is right.
 */
module ServingBalances {
  import opened Wrappers
  import opened ImportOutput
  import opened Accounts
  import opened Ledgers
  import opened HotState
  import opened WalletBalance
  import opened BalanceRecords
  import opened BalanceAgreement
  import opened FrozenMints
  import opened Watcher
  import opened WatcherInvariant
  import opened WatcherRuns
  import opened Generations
  import opened ServingData

  /** The world with the rows of its balance tables, and the record kept of them for each generation. */
  datatype Books = Books(world: World, balances: map<Uuid, seq<BalanceRow>>, staging: Track, serving: Track)

  /** A move of the world, the pairs it refreshes, and the rows of a table it rebuilds. */
  datatype BookMove = BookMove(mv: Move, pairs: seq<Pair>, rebuilt: seq<BalanceRow>)

  predicate HasBalances(b: Books) {
    && IsGroup(b.world.sys.active) && IsGroup(b.world.sys.backup)
    && b.world.sys.active[BALANCES] in b.balances && b.world.sys.backup[BALANCES] in b.balances
  }

  function BalancesAt(b: Books, id: Uuid): seq<BalanceRow> { if id in b.balances then b.balances[id] else [] }

  function RowsAt(w: World, id: Uuid): seq<TokenRow> { if id in w.rows then w.rows[id] else [] }

  ghost function WorkerTouched(w: World, a: Attempt): set<Pair>
    requires TablesHaveRows(w) && w.sys.journal.Some? && WorkerRuns(w.sys)
  {
    Touched(DeltaConfig(a.end, MintsOf(w.sys.journal.value.staging, w.sys.files)), w.sys.proc.memory.worker.value.resume, a.stream, BackupRows(w), a.live, a.order)
  }

  ghost function ImportTouched(w: World, a: Attempt): set<Pair>
    requires TablesHaveRows(w) && w.sys.journal.Some?
  {
    Touched(DeltaConfig(a.end, ActiveView(w.sys).mints), ActiveView(w.sys).maxSlot, a.stream, ActiveRows(w), a.live, a.order)
  }

  ghost function FanoutTouched(w: World, f: Fanout): set<Pair>
    requires TablesHaveRows(w) && w.sys.journal.Some? && w.sys.journal.value.shared.Some?
  {
    var shared := w.sys.journal.value.shared.value;
    Touched(DeltaConfig(shared.snapshot.slot, ActiveView(w.sys).mints), shared.resumeSlot, f.stream, ActiveRows(w), f.live, f.order)
  }

  /**
   A completed import has refreshed every pair it touched, an interrupted one
   some of them; a completed fanout has rebuilt staging's table from its state.
   */
  ghost predicate BookAllowed(l: Ledger, b: Books, m: BookMove) {
    && HasBalances(b) && Allowed(l, b.world, m.mv)
    && match m.mv
       case WorkerWrites(a) => forall pair <- m.pairs :: pair in WorkerTouched(b.world, a)
       case WorkerCompletes(a) => Enumerates(m.pairs, WorkerTouched(b.world, a))
       case ImportWrites(a) => forall pair <- m.pairs :: pair in ImportTouched(b.world, a)
       case ImportCompletes(a) => Enumerates(m.pairs, ImportTouched(b.world, a))
       case FanoutWrites(f, _, _) => forall pair <- m.pairs :: pair in FanoutTouched(b.world, f)
       case FanoutCompletes(f, toStaging, _) =>
         Enumerates(m.pairs, FanoutTouched(b.world, f)) && IsRebuild(m.rebuilt, b.world.partial + toStaging)
       case _ => true
  }

  function WithMore(b: Books, id: Uuid, more: seq<BalanceRow>): Books { b.(balances := b.balances[id := BalancesAt(b, id) + more]) }

  function StagingSlot(s: Sys): nat { if s.journal.Some? then s.journal.value.staging.maxSlot.GetOr(0) else 0 }

  ghost function BookAfter(l: Ledger, b: Books, m: BookMove): Books
    requires BookAllowed(l, b, m)
  {
    var s, w := b.world.sys, After(l, b.world, m.mv);
    var c := b.(world := w);
    match m.mv
    case Plain(e) =>
      if e.RebuildDerived? && e.index == BALANCES then c.(balances := b.balances[e.uuid := m.rebuilt])
      else if e.Promote? then c.(serving := b.staging)
      else c
    case ClearsStaging(_, cleared) => if cleared > BALANCES then c.(balances := b.balances[s.backup[BALANCES] := []]) else c
    case WorkerWrites(a) =>
      var state, stored := RowsAt(w, s.backup[HOT_STATE]), BalancesAt(b, s.backup[BALANCES]);
      WithMore(c, s.backup[BALANCES], RefreshRows(state, m.pairs, WorkerTouched(b.world, a), a.end))
        .(staging := Computed(b.staging, Effective(stored, m.pairs, a.end), |state|))
    case WorkerCompletes(a) =>
      var state, stored := RowsAt(w, s.backup[HOT_STATE]), BalancesAt(b, s.backup[BALANCES]);
      WithMore(c, s.backup[BALANCES], RefreshRows(state, m.pairs, WorkerTouched(b.world, a), a.end))
        .(staging := Completed(b.staging, WorkerTouched(b.world, a), Effective(stored, m.pairs, a.end), |state|))
    case ImportWrites(a) =>
      var state, stored := RowsAt(w, s.active[HOT_STATE]), BalancesAt(b, s.active[BALANCES]);
      WithMore(c, s.active[BALANCES], RefreshRows(state, m.pairs, ImportTouched(b.world, a), a.end))
        .(serving := Computed(b.serving, Effective(stored, m.pairs, a.end), |state|))
    case ImportCompletes(a) =>
      var state, stored := RowsAt(w, s.active[HOT_STATE]), BalancesAt(b, s.active[BALANCES]);
      WithMore(c, s.active[BALANCES], RefreshRows(state, m.pairs, ImportTouched(b.world, a), a.end))
        .(serving := Completed(b.serving, ImportTouched(b.world, a), Effective(stored, m.pairs, a.end), |state|))
    case FanoutWrites(f, _, _) =>
      var slot := s.journal.value.shared.value.snapshot.slot;
      var state, stored := RowsAt(w, s.active[HOT_STATE]), BalancesAt(b, s.active[BALANCES]);
      WithMore(c, s.active[BALANCES], RefreshRows(state, m.pairs, FanoutTouched(b.world, f), slot))
        .(serving := Computed(b.serving, Effective(stored, m.pairs, slot), |state|))
    case FanoutCompletes(f, toStaging, _) =>
      var slot, resume := s.journal.value.shared.value.snapshot.slot, s.journal.value.shared.value.resumeSlot;
      var state, stored := RowsAt(w, s.active[HOT_STATE]), BalancesAt(b, s.active[BALANCES]);
      var touched := FanoutTouched(b.world, f) + MissedPairs(l, ActiveRows(b.world), b.serving, resume, slot);
      var d := WithMore(c, s.active[BALANCES], RefreshRows(state, m.pairs, FanoutTouched(b.world, f), slot));
      d.(balances := d.balances[s.backup[BALANCES] := m.rebuilt], staging := Rebuilt(b.world.partial + toStaging),
         serving := Completed(b.serving, touched, Effective(stored, m.pairs, slot), |state|))
  }

  // ------------------------------------------------------------ the invariant

  ghost predicate StagingBooks(b: Books)
    requires HasBalances(b)
  {
    var s := b.world.sys;
    s.journal.Some? && StagingView(s).Some? ==>
      Tracked(BalancesAt(b, StagingTables(s)[BALANCES]), RowsAt(b.world, StagingTables(s)[HOT_STATE]), b.staging, StagingView(s).value.maxSlot)
  }

  predicate WorkerFinished(s: Sys) { s.proc.Up? && s.proc.memory.worker.Some? && s.proc.memory.worker.value.finished == Some(true) }

  /** A finished worker has followed everything up to its archive's end, although that is not recorded yet. */
  ghost predicate FinishedBooks(b: Books)
    requires HasBalances(b)
  {
    WorkerFinished(b.world.sys) ==>
      Followed(RowsAt(b.world, b.world.sys.backup[HOT_STATE]), b.staging, b.world.sys.proc.memory.worker.value.archive.slot)
  }

  ghost predicate ServingBooks(b: Books)
    requires HasBalances(b)
  {
    var s := b.world.sys;
    b.world.known ==>
      && s.journal.Some?
      && Tracked(BalancesAt(b, ActiveTables(s)[BALANCES]), RowsAt(b.world, ActiveTables(s)[HOT_STATE]), b.serving, ActiveView(s).maxSlot)
  }

  ghost predicate BooksInv(l: Ledger, b: Books) {
    DataInv(l, b.world) && HasBalances(b) && StagingBooks(b) && FinishedBooks(b) && ServingBooks(b)
  }

  // ------------------------------------------------------------ every move

  /** What the invariant of the data says of the two lanes. */
  lemma DataParts(l: Ledger, w: World)
    requires DataInv(l, w)
    ensures Inv(w.sys) && TablesHaveRows(w)
    ensures w.known ==> w.sys.journal.Some? && w.sys.journal.value.active.mintsPath.Some?
    ensures w.known ==> Sound(l, ActiveView(w.sys).mints, RowsAt(w, ActiveTables(w.sys)[HOT_STATE]))
    ensures w.sys.journal.Some? && StagingView(w.sys).Some? ==>
      && Sound(l, StagingView(w.sys).value.mints, RowsAt(w, StagingTables(w.sys)[HOT_STATE]))
      && Below(RowsAt(w, StagingTables(w.sys)[HOT_STATE]), w.reach)
    ensures AtPc(w.sys, false) ==> RowsAt(w, w.sys.backup[HOT_STATE]) == w.partial
  {
    hide Inv, Sound, LiveSettled, Settled, Below;
  }

  /** With the views of the lanes unchanged, so is what their balances say. */
  lemma BooksFollowViews(b: Books, t: Sys, frozen: Mints)
    requires HasBalances(b) && HasBalances(b.(world := b.world.(sys := t, frozen := frozen)))
    requires b.world.sys.journal.Some? && ViewsKept(b.world.sys, t) && StagingBooks(b) && ServingBooks(b)
    requires b.world.known ==> b.world.sys.journal.value.active.mintsPath.Some?
    ensures var c := b.(world := b.world.(sys := t, frozen := frozen)); StagingBooks(c) && ServingBooks(c)
  {
    hide ActiveTables, StagingTables, Tracked, Below, MintsOf;
  }

  lemma PlainBooks(l: Ledger, b: Books, m: BookMove, e: Event)
    requires Lifecycle(l) && QuietGenesis(l) && BooksInv(l, b) && BookAllowed(l, b, m) && m.mv == Plain(e)
    requires IsPlain(e) && b.world.sys.journal.Some? && !(e.RebuildDerived? && e.index == BALANCES)
    ensures BooksInv(l, BookAfter(l, b, m))
  {
    hide Inv, Next, DataInv, ActiveTables, StagingTables, Tracked, Below, Lifecycle, QuietGenesis, Sound, Building, TablesHaveRows,
         StagingBooks, ServingBooks, ViewsKept;
    var s, t := b.world.sys, Next(b.world.sys, e).sys;
    MoveKeepsData(l, b.world, m.mv);
    DataParts(l, b.world);
    PlainKeepsViews(s, e);
    PlainPcs(s, e);
    SameTwoTables(s, e, BALANCES);
    PairStays(s, t, BALANCES, b);
    BooksFollowViews(b, t, FrozenAfter(e, b.world.frozen));
    if WorkerFinished(t) {
      NoCutoverDuringLoads(s);
      PlainKeepsBackup(s, e, BALANCES);
      if e.RebuildDerived? {
        RebuiltIsDerived(s, e);
      }
      PlainKeepsBackup(s, e, HOT_STATE);
    }
  }

  lemma PairStays(s: Sys, t: Sys, i: nat, b: Books)
    requires IsGroup(s.active) && IsGroup(s.backup) && IsGroup(t.active) && IsGroup(t.backup) && i < GROUP_SIZE
    requires {t.active[i], t.backup[i]} == {s.active[i], s.backup[i]} && s.active[i] in b.balances && s.backup[i] in b.balances
    ensures t.active[i] in b.balances && t.backup[i] in b.balances
  {
    assert t.active[i] in {t.active[i], t.backup[i]} && t.backup[i] in {t.active[i], t.backup[i]};
  }

  lemma RebuildFacts(s: Sys, e: Event)
    requires Inv(s) && Next(s, e).To? && e.RebuildDerived?
    ensures var t := Next(s, e).sys;
      && s.journal.Some? && t == s.(backup := t.backup) && IsGroup(s.active) && IsGroup(s.backup) && e.index < GROUP_SIZE
      && t.backup == s.backup[e.index := e.uuid] && e.uuid !in s.active && e.uuid !in s.backup
      && !HasCutover(s) && !HasCutover(t) && StagingView(t).None? && !WorkerFinished(t)
  {
    hide FilesOk, ExchangeOk, ActiveKnown, StagingKnown, AllDifferent;
  }

  lemma RebuildBooks(l: Ledger, b: Books, m: BookMove, e: Event)
    requires Lifecycle(l) && QuietGenesis(l) && BooksInv(l, b) && BookAllowed(l, b, m) && m.mv == Plain(e)
    requires e.RebuildDerived? && e.index == BALANCES
    ensures BooksInv(l, BookAfter(l, b, m))
  {
    hide Inv, Next, DataInv, ActiveTables, StagingTables, Tracked, Below, Lifecycle, QuietGenesis, Sound, Building, TablesHaveRows;
    var s, t := b.world.sys, Next(b.world.sys, e).sys;
    MoveKeepsData(l, b.world, m.mv);
    DataParts(l, b.world);
    RebuildFacts(s, e);
    UnswappedTables(s);
    UnswappedTables(t);
    assert s.active[BALANCES] in s.active && s.active[HOT_STATE] in s.active;
  }

  lemma StartFacts(s: Sys, resume: nat)
    requires Inv(s) && Next(s, Start(resume)).To?
    ensures var t := Next(s, Start(resume)).sys;
      && IsGroup(s.active) && IsGroup(s.backup) && t.active == s.active && t.backup == s.backup && !WorkerFinished(t) && t.journal.Some?
      && (if s.journal.Some? then ViewsKept(s, t) else StagingView(t).None?)
  {
    hide FilesOk, JournalOk, ActiveTables, StagingTables, Load, AllDifferent;
    InvHasGroups(s);
    SameTables(s, Next(s, Start(resume)).sys);
  }

  lemma StartBooks(l: Ledger, b: Books, m: BookMove, e: Event)
    requires Lifecycle(l) && QuietGenesis(l) && BooksInv(l, b) && BookAllowed(l, b, m) && m.mv == Plain(e) && e.Start?
    ensures BooksInv(l, BookAfter(l, b, m))
  {
    hide Inv, Next, DataInv, ActiveTables, StagingTables, Tracked, Below, Lifecycle, QuietGenesis, Sound, Building, TablesHaveRows, ViewsKept;
    MoveKeepsData(l, b.world, m.mv);
    DataParts(l, b.world);
    StartFacts(b.world.sys, e.resume);
    if b.world.sys.journal.Some? {
      BooksFollowViews(b, Next(b.world.sys, e).sys, b.world.frozen);
    }
  }

  lemma NoJournalFacts(s: Sys, e: Event)
    requires Inv(s) && s.journal.None? && Next(s, e).To? && (IsPlain(e) || e == WorkerFinishes(false))
    ensures var t := Next(s, e).sys; t.journal.None? && t.active == s.active && t.backup == s.backup && !WorkerFinished(t)
  {
    hide TablesOk;
  }

  lemma NoJournalBooks(l: Ledger, b: Books, m: BookMove, e: Event)
    requires Lifecycle(l) && QuietGenesis(l) && BooksInv(l, b) && BookAllowed(l, b, m) && m.mv == Plain(e)
    requires b.world.sys.journal.None? && (IsPlain(e) || e == WorkerFinishes(false)) && !e.RebuildDerived?
    ensures BooksInv(l, BookAfter(l, b, m))
  {
    hide Inv, Next, DataInv, ActiveTables, StagingTables, Tracked, Below, Lifecycle, QuietGenesis, Sound, Building, TablesHaveRows;
    MoveKeepsData(l, b.world, m.mv);
    DataParts(l, b.world);
    NoJournalFacts(b.world.sys, e);
  }

  lemma WorkerFailsFacts(s: Sys)
    requires Inv(s) && s.journal.Some? && Next(s, WorkerFinishes(false)).To?
    ensures var t := Next(s, WorkerFinishes(false)).sys;
      && IsGroup(s.active) && IsGroup(s.backup) && t.active == s.active && t.backup == s.backup && !WorkerFinished(t) && ViewsKept(s, t)
  {
    hide Inv, ActiveTables, StagingTables, Load;
    InvHasGroups(s);
    SameTables(s, Next(s, WorkerFinishes(false)).sys);
  }

  lemma WorkerFailsBooks(l: Ledger, b: Books, m: BookMove)
    requires Lifecycle(l) && QuietGenesis(l) && BooksInv(l, b) && BookAllowed(l, b, m) && m.mv == Plain(WorkerFinishes(false))
    requires b.world.sys.journal.Some?
    ensures BooksInv(l, BookAfter(l, b, m))
  {
    hide Inv, Next, DataInv, ActiveTables, StagingTables, Tracked, Below, Lifecycle, QuietGenesis, Sound, Building, TablesHaveRows, ViewsKept;
    MoveKeepsData(l, b.world, m.mv);
    DataParts(l, b.world);
    WorkerFailsFacts(b.world.sys);
    BooksFollowViews(b, Next(b.world.sys, WorkerFinishes(false)).sys, b.world.frozen);
  }

  lemma JoinWorkerBooks(l: Ledger, b: Books, m: BookMove)
    requires Lifecycle(l) && QuietGenesis(l) && BooksInv(l, b) && BookAllowed(l, b, m) && m.mv == Plain(JoinWorker)
    ensures BooksInv(l, BookAfter(l, b, m))
  {
    hide Inv, Next, DataInv, ActiveTables, StagingTables, Lifecycle, QuietGenesis, TablesHaveRows, StagingBooks, ServingBooks, ViewsKept, Agrees;
    var s, t := b.world.sys, Next(b.world.sys, JoinWorker).sys;
    MoveKeepsData(l, b.world, m.mv);
    DataParts(l, b.world);
    JoinWorkerViews(s);
    JoinWorkerMemory(s);
    SameTwoTables(s, JoinWorker, BALANCES);
    PairStays(s, t, BALANCES, b);
    InvHasGroups(s);
    InvHasGroups(t);
    if WorkerFinished(s) {
      JoinedBooks(b, t);
    } else {
      BooksFollowViews(b, t, b.world.frozen);
    }
  }

  /** A finished worker joined: what it left is now what the journal describes. */
  lemma JoinedBooks(b: Books, t: Sys)
    requires Inv(b.world.sys) && HasBalances(b) && HasBalances(b.(world := b.world.(sys := t))) && WorkerFinished(b.world.sys)
    requires b.world.sys.journal.Some? && t.journal.Some? && ActiveView(t) == ActiveView(b.world.sys)
    requires StagingView(b.world.sys).Some? && StagingView(t).Some? && StagingView(t).value.tables == StagingView(b.world.sys).value.tables
    requires StagingView(t).value.maxSlot == b.world.sys.proc.memory.worker.value.archive.slot
    requires StagingBooks(b) && FinishedBooks(b) && ServingBooks(b)
    ensures var c := b.(world := b.world.(sys := t)); StagingBooks(c) && ServingBooks(c)
  {
    hide Inv, ActiveTables, StagingTables, Recorded, Followed, MintsOf;
    RunningWorkerViews(b.world.sys);
    UnswappedTables(b.world.sys);
  }

  lemma PromoteBooks(l: Ledger, b: Books, m: BookMove)
    requires Lifecycle(l) && QuietGenesis(l) && BooksInv(l, b) && BookAllowed(l, b, m) && m.mv == Plain(Promote)
    ensures BooksInv(l, BookAfter(l, b, m))
  {
    hide Inv, Next, DataInv, ActiveTables, StagingTables, Tracked, Below, Lifecycle, QuietGenesis, Sound, Building, TablesHaveRows;
    var s, t := b.world.sys, Next(b.world.sys, Promote).sys;
    MoveKeepsData(l, b.world, m.mv);
    DataParts(l, b.world);
    PromoteKeepsData(l, b.world);
    PromoteViews(s);
    PromoteMemory(s);
    SameTwoTables(s, Promote, BALANCES);
    PairStays(s, t, BALANCES, b);
    InvHasGroups(s);
    InvHasGroups(t);
  }

  lemma ClearsBooks(l: Ledger, b: Books, m: BookMove, e: Event, cleared: nat)
    requires Lifecycle(l) && QuietGenesis(l) && BooksInv(l, b) && BookAllowed(l, b, m) && m.mv == ClearsStaging(e, cleared)
    ensures BooksInv(l, BookAfter(l, b, m))
  {
    hide Inv, Next, DataInv, ActiveTables, StagingTables, Tracked, Below, Lifecycle, QuietGenesis, Sound, Building;
    var s, t := b.world.sys, Next(b.world.sys, e).sys;
    MoveKeepsData(l, b.world, m.mv);
    DataParts(l, b.world);
    ClearsStagingMemory(s, e);
    InvHasGroups(s);
    UnswappedTables(s);
    UnswappedTables(t);
  }

  // --------------------------------------------------------------- imports

  /** While a worker runs or an import is under way, the tables are under their own names, and the two lanes' are different. */
  lemma LoadingTables(s: Sys)
    requires Inv(s) && s.journal.Some? && s.proc.Up?
    requires s.journal.value.shared.Some? || s.proc.memory.worker.Some? || s.proc.pc.Importing? || s.proc.pc.FanningOut?
    ensures !HasCutover(s) && IsGroup(s.active) && IsGroup(s.backup) && ActiveTables(s) == s.active && StagingTables(s) == s.backup
    ensures s.active[HOT_STATE] != s.backup[HOT_STATE] && s.active[BALANCES] != s.backup[BALANCES]
  {
    hide Inv, ActiveTables, StagingTables;
    NoCutoverDuringLoads(s);
    InvHasGroups(s);
    UnswappedTables(s);
  }

  lemma WorkerWritesBooks(l: Ledger, b: Books, m: BookMove, a: Attempt)
    requires Lifecycle(l) && QuietGenesis(l) && BooksInv(l, b) && BookAllowed(l, b, m) && m.mv == WorkerWrites(a)
    ensures BooksInv(l, BookAfter(l, b, m))
  {
    hide Inv, DataInv, ActiveTables, StagingTables, Tracked, Below, Lifecycle, QuietGenesis, Sound, Building, Possible, WorkerTouched, RefreshRows;
    var w, s := b.world, b.world.sys;
    MoveKeepsData(l, w, m.mv);
    DataParts(l, w);
    LoadingTables(s);
    RunningWorkerViews(s);
    CutKeepsTracked(l, DeltaConfig(a.end, StagingView(s).value.mints), WorkerTable(w), a, BalancesAt(b, s.backup[BALANCES]), b.staging, m.pairs, WorkerTouched(w, a));
  }

  lemma WorkerCompletesBooks(l: Ledger, b: Books, m: BookMove, a: Attempt)
    requires Lifecycle(l) && QuietGenesis(l) && BooksInv(l, b) && BookAllowed(l, b, m) && m.mv == WorkerCompletes(a)
    ensures BooksInv(l, BookAfter(l, b, m))
  {
    hide Inv, Next, DataInv, ActiveTables, StagingTables, Recorded, Followed, Below, Lifecycle, QuietGenesis, Sound, Building, Possible, Touched,
         RefreshRows, Effective, Completed, AfterAttempt, ImportOf, Above, Enumerates;
    var w, s, t := b.world, b.world.sys, Next(b.world.sys, WorkerFinishes(true)).sys;
    MoveKeepsData(l, w, m.mv);
    DataParts(l, w);
    LoadingTables(s);
    RunningWorkerViews(s);
    WorkerFinishesMemory(s);
    InvHasGroups(s);
    SameTables(s, t);
    var cfg := DeltaConfig(a.end, StagingView(s).value.mints);
    CompletionKeepsTracked(l, cfg, WorkerTable(w), a, BalancesAt(b, s.backup[BALANCES]), b.staging, m.pairs);
    AttemptEnds(l, cfg, WorkerTable(w), a);
    FollowedBelow(AfterAttempt(cfg, WorkerTable(w), a).rows, BookAfter(l, b, m).staging, StagingView(s).value.maxSlot, a.end);
  }

  lemma ImportWritesBooks(l: Ledger, b: Books, m: BookMove, a: Attempt)
    requires Lifecycle(l) && QuietGenesis(l) && BooksInv(l, b) && BookAllowed(l, b, m) && m.mv == ImportWrites(a)
    ensures BooksInv(l, BookAfter(l, b, m))
  {
    hide Inv, DataInv, ActiveTables, StagingTables, Tracked, Below, Lifecycle, QuietGenesis, Sound, Building, Possible, ImportTouched, RefreshRows;
    var w, s := b.world, b.world.sys;
    MoveKeepsData(l, w, m.mv);
    DataParts(l, w);
    LoadingTables(s);
    if w.known {
      CutKeepsTracked(l, DeltaConfig(a.end, ActiveView(s).mints), ImportTable(w), a, BalancesAt(b, s.active[BALANCES]), b.serving, m.pairs, ImportTouched(w, a));
    }
  }

  lemma ImportCompletesBooks(l: Ledger, b: Books, m: BookMove, a: Attempt)
    requires Lifecycle(l) && QuietGenesis(l) && BooksInv(l, b) && BookAllowed(l, b, m) && m.mv == ImportCompletes(a)
    ensures BooksInv(l, BookAfter(l, b, m))
  {
    hide Inv, Next, DataInv, ActiveTables, StagingTables, Recorded, Followed, Below, Lifecycle, QuietGenesis, Sound, Building, Possible, Touched,
         RefreshRows, Effective, Completed, AfterAttempt, ImportOf, Above, Enumerates;
    var w, s, t := b.world, b.world.sys, Next(b.world.sys, Event.ImportDone).sys;
    MoveKeepsData(l, w, m.mv);
    DataParts(l, w);
    LoadingTables(s);
    ImportDoneViews(s);
    ImportDoneMemory(s);
    InvHasGroups(t);
    SameTables(s, t);
    if w.known {
      CompletionKeepsTracked(l, DeltaConfig(a.end, ActiveView(s).mints), ImportTable(w), a, BalancesAt(b, s.active[BALANCES]), b.serving, m.pairs);
    }
  }

  lemma FanningFacts(s: Sys)
    requires Inv(s) && AtPc(s, false)
    ensures s.journal.Some? && s.journal.value.shared.Some? && IsGroup(s.active) && IsGroup(s.backup) && StagingView(s).None? && !WorkerFinished(s)
    ensures ActiveView(s).maxSlot == s.journal.value.shared.value.resumeSlot
  {
    hide FilesOk, ExchangeOk, ActiveKnown, StagingKnown, AllDifferent;
  }

  lemma FanoutWritesBooks(l: Ledger, b: Books, m: BookMove, f: Fanout, toStaging: seq<TokenRow>, toActive: seq<TokenRow>)
    requires Lifecycle(l) && QuietGenesis(l) && BooksInv(l, b) && BookAllowed(l, b, m) && m.mv == FanoutWrites(f, toStaging, toActive)
    ensures BooksInv(l, BookAfter(l, b, m))
  {
    hide Inv, DataInv, ActiveTables, StagingTables, Tracked, Below, Lifecycle, QuietGenesis, Sound, Building, IsFull, IsImport, FanoutTouched, RefreshRows;
    var w, s := b.world, b.world.sys;
    MoveKeepsData(l, w, m.mv);
    DataParts(l, w);
    LoadingTables(s);
    FanningFacts(s);
    if w.known {
      var slot := s.journal.value.shared.value.snapshot.slot;
      TailCutKeepsTracked(l, DeltaConfig(slot, ActiveView(s).mints), ActiveRows(w), ActiveView(s).maxSlot, slot, f.stream, f.live, f.order, toActive,
                          BalancesAt(b, s.active[BALANCES]), b.serving, m.pairs, FanoutTouched(w, f));
    }
  }

  /** Staging starts with rebuilt balances. */
  lemma FanoutStagingBooks(l: Ledger, b: Books, m: BookMove, f: Fanout, toStaging: seq<TokenRow>, spawned: bool)
    requires Lifecycle(l) && QuietGenesis(l) && BooksInv(l, b) && BookAllowed(l, b, m) && m.mv == FanoutCompletes(f, toStaging, spawned)
    ensures var c := BookAfter(l, b, m); DataInv(l, c.world) && HasBalances(c) && StagingBooks(c) && FinishedBooks(c)
  {
    hide Inv, Next, DataInv, ActiveTables, StagingTables, Agrees, Tracked, Below, Lifecycle, QuietGenesis, Sound, Building, FanoutTouched, RefreshRows,
         AfterImport, ImportOf, Above, Enumerates, IsRebuild, FanoutOn, MissedPairs;
    var w, s, t := b.world, b.world.sys, Next(b.world.sys, Event.FanoutDone(spawned)).sys;
    var slot := s.journal.value.shared.value.snapshot.slot;
    MoveKeepsData(l, w, m.mv);
    DataParts(l, w);
    DataParts(l, After(l, w, m.mv));
    LoadingTables(s);
    FanningFacts(s);
    FanoutDoneViews(s, spawned);
    FanoutDoneMemory(s, spawned);
    SameTables(s, t);
    RebuildAgrees(m.rebuilt, w.partial + toStaging);
    AgreementIsTracked(m.rebuilt, w.partial + toStaging, slot);
  }

  /** Active goes on with the tail's pairs refreshed. */
  lemma FanoutServingBooks(l: Ledger, b: Books, m: BookMove, f: Fanout, toStaging: seq<TokenRow>, spawned: bool)
    requires Lifecycle(l) && QuietGenesis(l) && BooksInv(l, b) && BookAllowed(l, b, m) && m.mv == FanoutCompletes(f, toStaging, spawned)
    requires HasBalances(BookAfter(l, b, m))
    ensures ServingBooks(BookAfter(l, b, m))
  {
    hide Inv, Next, DataInv, ActiveTables, StagingTables, Tracked, Below, Lifecycle, QuietGenesis, Sound, Building, Touched, RefreshRows,
         AfterImport, ImportOf, Above, Enumerates, IsRebuild, IsFull, IsImport, MissedPairs, Effective, Completed;
    var w, s, t := b.world, b.world.sys, Next(b.world.sys, Event.FanoutDone(spawned)).sys;
    var slot := s.journal.value.shared.value.snapshot.slot;
    DataParts(l, w);
    LoadingTables(s);
    FanoutDoneViews(s, spawned);
    FanoutDoneMemory(s, spawned);
    SameTables(s, t);
    if w.known {
      var cfg := DeltaConfig(slot, ActiveView(s).mints);
      TailKeepsTracked(l, cfg, ActiveRows(w), ActiveView(s).maxSlot, slot, f.stream, f.live, f.order, BalancesAt(b, s.active[BALANCES]), b.serving, m.pairs);
    }
  }

  /** Every move keeps the invariant. */
  lemma MoveKeepsBooks(l: Ledger, b: Books, m: BookMove)
    requires Lifecycle(l) && QuietGenesis(l) && BooksInv(l, b) && BookAllowed(l, b, m)
    ensures BooksInv(l, BookAfter(l, b, m))
  {
    match m.mv {
      case Plain(e) => PlainMoveKeepsBooks(l, b, m, e);
      case ClearsStaging(e, cleared) => ClearsBooks(l, b, m, e, cleared);
      case WorkerWrites(a) => WorkerWritesBooks(l, b, m, a);
      case WorkerCompletes(a) => WorkerCompletesBooks(l, b, m, a);
      case ImportWrites(a) => ImportWritesBooks(l, b, m, a);
      case ImportCompletes(a) => ImportCompletesBooks(l, b, m, a);
      case FanoutWrites(f, toStaging, toActive) => FanoutWritesBooks(l, b, m, f, toStaging, toActive);
      case FanoutCompletes(f, toStaging, spawned) =>
        hide BooksInv, BookAllowed, BookAfter, StagingBooks, FinishedBooks, ServingBooks, HasBalances, Lifecycle, QuietGenesis;
        FanoutStagingBooks(l, b, m, f, toStaging, spawned);
        FanoutServingBooks(l, b, m, f, toStaging, spawned);
        FromParts(l, BookAfter(l, b, m));
    }
  }

  lemma FromParts(l: Ledger, b: Books)
    requires DataInv(l, b.world) && HasBalances(b) && StagingBooks(b) && FinishedBooks(b) && ServingBooks(b)
    ensures BooksInv(l, b)
  {
  }

  lemma PlainMoveKeepsBooks(l: Ledger, b: Books, m: BookMove, e: Event)
    requires Lifecycle(l) && QuietGenesis(l) && BooksInv(l, b) && BookAllowed(l, b, m) && m.mv == Plain(e)
    ensures BooksInv(l, BookAfter(l, b, m))
  {
    PlainIsAllowed(l, b, m, e);
    hide BooksInv, BookAllowed, BookAfter, Lifecycle, QuietGenesis;
    if e.RebuildDerived? && e.index == BALANCES {
      RebuildBooks(l, b, m, e);
    } else if e.Start? {
      StartBooks(l, b, m, e);
    } else if e.JoinWorker? {
      JoinWorkerBooks(l, b, m);
    } else if e.Promote? {
      PromoteBooks(l, b, m);
    } else if b.world.sys.journal.None? {
      NoJournalBooks(l, b, m, e);
    } else if e == WorkerFinishes(false) {
      WorkerFailsBooks(l, b, m);
    } else {
      PlainBooks(l, b, m, e);
    }
  }

  lemma PlainIsAllowed(l: Ledger, b: Books, m: BookMove, e: Event)
    requires BooksInv(l, b) && BookAllowed(l, b, m) && m.mv == Plain(e)
    ensures IsPlain(e) || e.Start? || e.JoinWorker? || e.Promote? || e == WorkerFinishes(false)
    ensures e.RebuildDerived? ==> b.world.sys.journal.Some?
  {
    hide DataInv, StagingBooks, FinishedBooks, ServingBooks, Next;
    DataParts(l, b.world);
    if e.RebuildDerived? {
      RebuildFacts(b.world.sys, e);
    }
  }

  // ------------------------------------------------------------------ runs

  ghost predicate BookRuns(l: Ledger, b: Books, moves: seq<BookMove>)
    decreases |moves|
  {
    moves == [] || (BookAllowed(l, b, moves[0]) && BookRuns(l, BookAfter(l, b, moves[0]), moves[1..]))
  }

  ghost function BooksAfter(l: Ledger, b: Books, moves: seq<BookMove>): Books
    requires BookRuns(l, b, moves)
    decreases |moves|
  {
    if moves == [] then b else BooksAfter(l, BookAfter(l, b, moves[0]), moves[1..])
  }

  /** Before the first start nothing is claimed of the serving tables. */
  predicate InitialBooks(b: Books) { InitialWorld(b.world) && HasBalances(b) }

  lemma InitialKeepsBooks(l: Ledger, b: Books)
    requires InitialBooks(b)
    ensures BooksInv(l, b)
  {
    hide DataInv;
    InitialData(l, b.world);
  }

  lemma {:induction false} RunKeepsBooks(l: Ledger, b: Books, moves: seq<BookMove>)
    requires Lifecycle(l) && QuietGenesis(l) && BooksInv(l, b) && BookRuns(l, b, moves)
    ensures BooksInv(l, BooksAfter(l, b, moves))
    decreases |moves|
  {
    hide BooksInv, BookAllowed, BookAfter, Lifecycle, QuietGenesis;
    if moves != [] {
      MoveKeepsBooks(l, b, moves[0]);
      RunKeepsBooks(l, BookAfter(l, b, moves[0]), moves[1..]);
    }
  }

  /** Of every pair: what its stored balance was computed from, and when it is right. */
  ghost predicate AllDecided(balances: seq<BalanceRow>, rows: seq<TokenRow>, t: Track) {
    Recorded(balances, rows, t) && forall pair :: Decided(balances, rows, t, pair)
  }

  /** Nothing stale: no account that counted when its pair was computed has been marked deleted since. */
  ghost predicate NoneStale(rows: seq<TokenRow>, t: Track) { forall pair :: !Stale(rows, t.At(pair), pair) }

  lemma SoundIsDecided(l: Ledger, hot: set<Pubkey>, balances: seq<BalanceRow>, rows: seq<TokenRow>, t: Track, watermark: nat)
    requires Lifecycle(l) && Sound(l, hot, rows) && Tracked(balances, rows, t, watermark)
    ensures AllDecided(balances, rows, t)
  {
    hide Lifecycle, Sound, SamePairs, Recorded, Decided;
    SoundTablesKeepPairs(l, hot, rows);
    forall pair ensures Decided(balances, rows, t, pair) {
      RecordDecides(balances, rows, t, pair);
    }
  }

  /** With no pair behind and no row above the watermark: the balances agree if and only if nothing is stale. */
  lemma CaughtUpAgreesIff(balances: seq<BalanceRow>, rows: seq<TokenRow>, t: Track, watermark: nat)
    requires Tracked(balances, rows, t, watermark) && AllDecided(balances, rows, t) && t.behind == {} && Below(rows, watermark)
    ensures Agrees(balances, rows) <==> NoneStale(rows, t)
  {
    hide Balance, ReadBalance, Stale, Changed, Followed, Recorded, Below;
    forall pair ensures ReadBalance(balances, pair) == Balance(rows, pair) <==> !Stale(rows, t.At(pair), pair) {
      CaughtUp(rows, t, watermark, pair);
      assert Decided(balances, rows, t, pair);
    }
  }

  lemma BelowMore(rows: seq<TokenRow>, low: nat, high: nat)
    requires Below(rows, low) && low <= high
    ensures Below(rows, high)
  {
  }

  /**
   What a promoted group serves: after any run, when a cutover completes, each
   stored balance is the one of the state recorded for its pair, and it is right
   if and only if no account counted there has been marked deleted since, unless
   a live version is still to be followed. When no pair is behind and no attempt
   reached further than what is promoted, that decides the whole table.
   */
  lemma PromotedBalancesAgree(l: Ledger, b: Books, moves: seq<BookMove>, promote: BookMove)
    requires Lifecycle(l) && QuietGenesis(l) && InitialBooks(b) && BookRuns(l, b, moves) && promote.mv == Plain(Promote)
    requires BookAllowed(l, BooksAfter(l, b, moves), promote)
    ensures var before := BooksAfter(l, b, moves);
      var after := BookAfter(l, before, promote);
      && HasBalances(after) && TablesHaveRows(after.world)
      && var balances, rows := BalancesAt(after, after.world.sys.active[BALANCES]), ActiveRows(after.world);
      && AllDecided(balances, rows, before.staging)
      && (before.staging.behind == {} && before.world.reach <= StagingSlot(before.world.sys) ==>
            (Agrees(balances, rows) <==> NoneStale(rows, before.staging)))
  {
    hide Lifecycle, QuietGenesis, BookRuns, BooksAfter, Inv, Next, Agrees, Below, Sound, Tracked, AllDecided, NoneStale, DataInv, ActiveTables, StagingTables;
    var before := BooksAfter(l, b, moves);
    var after := BookAfter(l, before, promote);
    InitialKeepsBooks(l, b);
    RunKeepsBooks(l, b, moves);
    MoveKeepsBooks(l, before, promote);
    DataParts(l, before.world);
    DataParts(l, after.world);
    PromotedTable(before.world.sys);
    PromoteViews(before.world.sys);
    PromoteKeepsData(l, before.world);
    var v, balances, rows := ActiveView(after.world.sys), BalancesAt(after, after.world.sys.active[BALANCES]), ActiveRows(after.world);
    SoundIsDecided(l, v.mints, balances, rows, before.staging, v.maxSlot);
    if before.staging.behind == {} && before.world.reach <= v.maxSlot {
      BelowMore(rows, before.world.reach, v.maxSlot);
      CaughtUpAgreesIff(balances, rows, before.staging, v.maxSlot);
    }
  }

  /**
   And from then on, in every reachable state, the same of the tables that are
   served. A live version that is still to be followed is above the watermark,
   unless its pair is behind; so the next completed import delivers it again.
   */
  lemma ServedBalancesAgree(l: Ledger, b: Books, moves: seq<BookMove>)
    requires Lifecycle(l) && QuietGenesis(l) && InitialBooks(b) && BookRuns(l, b, moves)
    ensures var t := BooksAfter(l, b, moves);
      && HasBalances(t)
      && (t.world.known ==>
            && t.world.sys.journal.Some?
            && var balances := BalancesAt(t, ActiveTables(t.world.sys)[BALANCES]);
            && var rows, slot := RowsAt(t.world, ActiveTables(t.world.sys)[HOT_STATE]), ActiveView(t.world.sys).maxSlot;
            && AllDecided(balances, rows, t.serving) && Followed(rows, t.serving, slot)
            && (t.serving.behind == {} && Below(rows, slot) ==> (Agrees(balances, rows) <==> NoneStale(rows, t.serving))))
  {
    hide Lifecycle, QuietGenesis, BookRuns, BooksAfter, Agrees, Recorded, Followed, AllDecided, NoneStale, DataInv, ActiveTables, Below, Sound, Inv;
    InitialKeepsBooks(l, b);
    RunKeepsBooks(l, b, moves);
    var t := BooksAfter(l, b, moves);
    DataParts(l, t.world);
    if t.world.known {
      var balances := BalancesAt(t, ActiveTables(t.world.sys)[BALANCES]);
      var rows, v := RowsAt(t.world, ActiveTables(t.world.sys)[HOT_STATE]), ActiveView(t.world.sys);
      SoundIsDecided(l, v.mints, balances, rows, t.serving, v.maxSlot);
      if t.serving.behind == {} && Below(rows, v.maxSlot) {
        CaughtUpAgreesIff(balances, rows, t.serving, v.maxSlot);
      }
    }
  }
}
