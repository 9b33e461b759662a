/**
 A shared full load that is cut off, by failures or crashes, as often as it
 likes: when it is at last completed on its checkpoint, every balance that was
 right before it began is right again.
 */
module SharedLoads {
  import opened Wrappers
  import opened ImportOutput
  import opened Accounts
  import opened Ledgers
  import opened HotState
  import opened Versions
  import opened WalletBalance
  import opened IncrementalImport
  import opened BalanceRecords
  import opened BalanceAgreement
  import opened Watcher
  import opened WatcherInvariant
  import opened Generations
  import opened ServingData
  import opened ServingBalances

  // ------------------------------------------------------------ one lane

  /** A row of the tail: the last record of its account in the archive, above the resume slot. */
  ghost predicate TailRow(l: Ledger, resume: nat, end: nat, r: TokenRow) {
    !r.isDeleted && resume < r.updatedSlot <= end && Latest(l, r.pubkey, end) == Some(r.updatedSlot)
  }

  lemma TailRowsAreLast(l: Ledger, cfg: Config, resume: nat, end: nat, stream: seq<AppendVec>, live: seq<TokenRow>, order: seq<Pubkey>, r: TokenRow)
    requires Lifecycle(l) && IsFull(l, end, stream) && IsImport(cfg, Above(Some(resume), stream), live, order) && r in live
    ensures TailRow(l, resume, end, r)
  {
    hide ImportOf, Above, Holds, TokenOf, Latest, Sensible;
    assert r in multiset(live);
    ImportTokens(cfg, Above(Some(resume), stream), r);
    var slot: nat, a :| Holds(Above(Some(resume), stream), slot, a) && r in LiveRows(cfg, a, slot);
    HoldsAbove(resume, stream, slot, a);
  }

  /** A full archive has no closes, so its tail writes no tombstone. */
  lemma TailHasNoCloses(l: Ledger, cfg: Config, resume: nat, end: nat, stream: seq<AppendVec>, p: Pubkey)
    requires IsFull(l, end, stream)
    ensures p !in ImportOf(cfg, Above(Some(resume), stream)).closes
  {
    hide ImportOf, Above, Holds, Latest;
    ImportCloses(cfg, Above(Some(resume), stream), p);
    if s: nat :| HasClose(cfg, Above(Some(resume), stream), p, s) {
      var a :| Holds(Above(Some(resume), stream), s, a) && a.pubkey == p && Closes(cfg, a);
      HoldsAbove(resume, stream, s, a);
      assert false;
    }
  }

  /**
   What holds while a shared load is under way: all that has changed since the
   balances were computed are rows of the tail, and no balance is beyond it.
   */
  ghost predicate OnlyTail(l: Ledger, balances: seq<BalanceRow>, rows: seq<TokenRow>, t: Track, resume: nat, end: nat) {
    && Recorded(balances, rows, t) && NoneStale(rows, t)
    && (forall pair :: !Ahead(balances, pair, end))
    && (forall pair, p :: ChangedLive(rows, t.At(pair), pair, p) ==> TailRow(l, resume, end, Newest(rows, p).value))
  }

  lemma NotStaleByLive(rows: seq<TokenRow>, more: seq<TokenRow>, t: Track, refreshed: set<Pair>, pair: Pair)
    requires NoneStale(rows, t) && t.At(pair) <= |rows| && forall r <- more :: !r.isDeleted
    ensures !Stale(rows + more, Computed(t, refreshed, |rows + more|).At(pair), pair)
  {
    hide Newest;
    var now, n := rows + more, Computed(t, refreshed, |rows + more|).At(pair);
    forall p ensures !DeletedSince(now, n, pair, p) {
      if pair in refreshed {
        NotDeletedYet(now, pair, p);
      } else {
        NewestWithMore(rows, more, p);
        assert now[..n] == rows[..n];
        assert !Stale(rows, n, pair);
        assert !DeletedSince(rows, n, pair, p);
        NewestWithMore(rows[..n], rows[n..], p);
        assert rows[..n] + rows[n..] == rows;
      }
    }
  }

  /** Some rows of the tail, and some of their pairs refreshed. */
  lemma CutKeepsOnlyTail(l: Ledger, balances: seq<BalanceRow>, rows: seq<TokenRow>, t: Track, resume: nat, end: nat, more: seq<TokenRow>,
      pairs: seq<Pair>, affected: set<Pair>)
    requires OnlyTail(l, balances, rows, t, resume, end) && SamePairs(rows + more)
    requires (forall r <- more :: TailRow(l, resume, end, r)) && forall pair <- pairs :: pair in affected
    ensures var now := rows + more;
      OnlyTail(l, balances + RefreshRows(now, pairs, affected, end), now, Computed(t, Effective(balances, pairs, end), |now|), resume, end)
  {
    hide SamePairs, RefreshRows, ReadBalance, Balance, Newest, Latest, Stale;
    var now, refreshed := rows + more, Effective(balances, pairs, end);
    var c, after := Computed(t, refreshed, |now|), balances + RefreshRows(now, pairs, affected, end);
    RefreshKeepsRecord(balances, rows, more, t, pairs, affected, end);
    forall pair ensures !Ahead(after, pair, end) && !Stale(now, c.At(pair), pair) {
      RefreshReads(balances, now, pairs, affected, end, pair);
      NotStaleByLive(rows, more, t, refreshed, pair);
    }
    forall pair, p | ChangedLive(now, c.At(pair), pair, p) ensures TailRow(l, resume, end, Newest(now, p).value) {
      if pair in refreshed {
        NotChangedYet(now, pair, p);
        assert false;
      } else {
        ChangedByMore(rows, more, t.At(pair), pair, p);
      }
    }
  }

  /** A changed account of the tail is delivered by the tail as a whole, so its pair is touched. */
  lemma TailIsTouched(l: Ledger, cfg: Config, rows: seq<TokenRow>, resume: nat, end: nat, stream: seq<AppendVec>, live: seq<TokenRow>, order: seq<Pubkey>, r: TokenRow)
    requires Lifecycle(l) && cfg.kind.Incremental? && Sound(l, cfg.hot, rows) && IsFull(l, end, stream) && r in rows && TailRow(l, resume, end, r)
    requires IsImport(cfg, Above(Some(resume), stream), live, order)
    requires forall q <- order :: q in ImportOf(cfg, Above(Some(resume), stream)).closes
    ensures (r.mint, r.owner) in TouchedPairs(cfg, resume, stream, rows, live, order)
  {
    hide ImportOf, Above, IsFull, Lifecycle, DeliversOnly, DeliversLive, TouchedPairs, Latest, TokenOf, IsClose, HadPair;
    FullDelivers(l, cfg, resume, end, stream, live, order);
    assert LedgerRow(l, cfg.hot, r);
    DueIsLive(l, cfg, rows, resume, end, stream, live, order, r.pubkey);
  }

  /** The whole tail makes every balance right. */
  lemma TailRestores(l: Ledger, cfg: Config, balances: seq<BalanceRow>, rows: seq<TokenRow>, t: Track, resume: nat, end: nat, stream: seq<AppendVec>,
      live: seq<TokenRow>, order: seq<Pubkey>, pairs: seq<Pair>)
    requires Lifecycle(l) && cfg.kind.Incremental? && Sound(l, cfg.hot, rows) && IsFull(l, end, stream)
    requires IsImport(cfg, Above(Some(resume), stream), live, order) && OnlyTail(l, balances, rows, t, resume, end)
    requires Enumerates(pairs, Touched(cfg, resume, stream, rows, live, order))
    ensures forall p <- order :: p in ImportOf(cfg, Above(Some(resume), stream)).closes
    ensures var now := AfterImport(rows, live, ImportOf(cfg, Above(Some(resume), stream)).closes, order);
      Agrees(balances + RefreshRows(now, pairs, Touched(cfg, resume, stream, rows, live, order), end), now)
  {
    hide Lifecycle, ImportOf, Above, IsFull, Sound, SamePairs, ReadBalance, Balance, RefreshRows, TouchedPairs, ChangedLive, Stale, Newest, Ahead, Latest;
    var closes := ImportOf(cfg, Above(Some(resume), stream)).closes;
    TailRows(l, cfg, rows, resume, end, stream, live, order);
    var affected, now := Touched(cfg, resume, stream, rows, live, order), AfterImport(rows, live, closes, order);
    NoTombstones(l, cfg, rows, resume, end, stream, live, order);
    assert now == rows + live;
    forall r | r in live ensures TailRow(l, resume, end, r) && (r.mint, r.owner) in affected {
      TailRowsAreLast(l, cfg, resume, end, stream, live, order, r);
      AddedRowsAreTouched(cfg, resume, stream, rows, live, order, r);
    }
    CutKeepsOnlyTail(l, balances, rows, t, resume, end, live, pairs, affected);
    var c, after := Computed(t, Effective(balances, pairs, end), |now|), balances + RefreshRows(now, pairs, affected, end);
    forall pair ensures ReadBalance(after, pair) == Balance(now, pair) {
      forall p ensures !ChangedLive(now, c.At(pair), pair, p) {
        TailIsFollowed(l, cfg, rows, t, resume, end, stream, live, order, pair, p, pair in Effective(balances, pairs, end));
      }
      RecordDecides(after, now, c, pair);
      assert !Stale(now, c.At(pair), pair);
    }
    AgreesPairwise(after, now);
  }

  lemma NoTombstones(l: Ledger, cfg: Config, rows: seq<TokenRow>, resume: nat, end: nat, stream: seq<AppendVec>, live: seq<TokenRow>, order: seq<Pubkey>)
    requires IsFull(l, end, stream) && IsImport(cfg, Above(Some(resume), stream), live, order)
    ensures order == []
    ensures AfterImport(rows, live, ImportOf(cfg, Above(Some(resume), stream)).closes, order) == rows + live
  {
    hide ImportOf, Above, IsFull;
    forall p ensures p !in order {
      TailHasNoCloses(l, cfg, resume, end, stream, p);
    }
    NoElements(order);
    assert rows + live + [] == rows + live;
  }

  /** No account of a pair is left changed: it would be of the tail, and its pair refreshed. */
  lemma TailIsFollowed(l: Ledger, cfg: Config, rows: seq<TokenRow>, t: Track, resume: nat, end: nat, stream: seq<AppendVec>, live: seq<TokenRow>, order: seq<Pubkey>,
      pair: Pair, p: Pubkey, refreshed: bool)
    requires Lifecycle(l) && cfg.kind.Incremental? && Sound(l, cfg.hot, rows) && IsFull(l, end, stream)
    requires IsImport(cfg, Above(Some(resume), stream), live, order) && forall q <- order :: q in ImportOf(cfg, Above(Some(resume), stream)).closes
    requires t.At(pair) <= |rows| && (ChangedLive(rows, t.At(pair), pair, p) ==> TailRow(l, resume, end, Newest(rows, p).value))
    requires forall r <- live :: (r.mint, r.owner) in TouchedPairs(cfg, resume, stream, rows, live, order)
    requires pair in TouchedPairs(cfg, resume, stream, rows, live, order) ==> refreshed
    ensures var now := rows + live; !ChangedLive(now, if refreshed then |now| else t.At(pair), pair, p)
  {
    hide Lifecycle, ImportOf, Above, IsFull, Sound, TouchedPairs, Newest, TailRow;
    var now := rows + live;
    if refreshed {
      NotChangedYet(now, pair, p);
    } else if ChangedLive(now, t.At(pair), pair, p) {
      ChangedByMore(rows, live, t.At(pair), pair, p);
      if Newest(now, p).value !in live {
        NewestIsRow(rows, p);
        TailIsTouched(l, cfg, rows, resume, end, stream, live, order, Newest(rows, p).value);
      }
      assert false;
    }
  }

  // ------------------------------------------------------------ every move

  /** The load of this checkpoint is under way, or interrupted. */
  predicate IsLoading(b: Books, shared: SharedLoad) { b.world.sys.journal.Some? && b.world.sys.journal.value.shared == Some(shared) }

  function ServedBalances(b: Books): seq<BalanceRow>
    requires HasBalances(b)
  {
    BalancesAt(b, ActiveTables(b.world.sys)[BALANCES])
  }

  function ServedRows(b: Books): seq<TokenRow>
    requires HasBalances(b)
  {
    RowsAt(b.world, ActiveTables(b.world.sys)[HOT_STATE])
  }

  ghost predicate LoadInv(l: Ledger, b: Books, shared: SharedLoad) {
    && BooksInv(l, b) && b.world.known && IsLoading(b, shared)
    && OnlyTail(l, ServedBalances(b), ServedRows(b), b.serving, shared.resumeSlot, shared.snapshot.slot)
  }

  /** While a shared checkpoint stands, no other import and no exchange is under way. */
  lemma LoadingIsQuiet(s: Sys)
    requires Inv(s) && s.journal.Some? && s.journal.value.shared.Some? && s.proc.Up?
    ensures s.proc.memory.worker.None? && !s.proc.pc.Importing? && !s.proc.pc.Exchanging?
  {
    hide TablesOk, FilesOk, ExchangeOk, ActiveKnown, StagingKnown, AllDifferent;
  }

  lemma PromoteIsExchange(s: Sys)
    requires Next(s, Promote).To?
    ensures s.proc.Up? && s.proc.pc.Exchanging?
  {
  }

  /** Steps of the watcher leave what is served as it is. */
  lemma PlainKeepsServed(l: Ledger, b: Books, m: BookMove, e: Event, shared: SharedLoad)
    requires Lifecycle(l) && QuietGenesis(l) && BooksInv(l, b) && BookAllowed(l, b, m) && m.mv == Plain(e) && b.world.known && IsLoading(b, shared)
    ensures var c := BookAfter(l, b, m);
      HasBalances(c) && c.world.known && c.serving == b.serving && ServedBalances(c) == ServedBalances(b) && ServedRows(c) == ServedRows(b)
  {
    hide DataInv, ActiveTables, StagingTables, Lifecycle, QuietGenesis, StagingBooks, FinishedBooks, ServingBooks, Inv, Next, TablesHaveRows;
    var s, t := b.world.sys, Next(b.world.sys, e).sys;
    MoveKeepsBooks(l, b, m);
    DataParts(l, b.world);
    if e.Promote? {
      PromoteIsExchange(s);
      LoadingIsQuiet(s);
      assert false;
    } else if e.Start? {
      StartFacts(s, e.resume);
    } else if e.JoinWorker? {
      JoinWorkerViews(s);
    } else if e == WorkerFinishes(false) {
      WorkerFailsFacts(s);
    } else {
      PlainKeepsViews(s, e);
      if e.RebuildDerived? && e.index == BALANCES {
        RebuildFacts(s, e);
        UnswappedTables(s);
        assert s.active[BALANCES] in s.active;
      }
    }
  }

  /** Clearing the group that is loaded does too. */
  lemma ClearKeepsServed(l: Ledger, b: Books, m: BookMove, e: Event, cleared: nat, shared: SharedLoad)
    requires Lifecycle(l) && QuietGenesis(l) && BooksInv(l, b) && BookAllowed(l, b, m) && m.mv == ClearsStaging(e, cleared)
    requires b.world.known && IsLoading(b, shared)
    ensures var c := BookAfter(l, b, m);
      HasBalances(c) && c.world.known && c.serving == b.serving && ServedBalances(c) == ServedBalances(b) && ServedRows(c) == ServedRows(b)
  {
    hide Inv, Next, DataInv, ActiveTables, StagingTables, Lifecycle, QuietGenesis, StagingBooks, FinishedBooks, ServingBooks;
    var s, t := b.world.sys, Next(b.world.sys, e).sys;
    MoveKeepsBooks(l, b, m);
    DataParts(l, b.world);
    ClearsStagingMemory(s, e);
    InvHasGroups(s);
    LoadingTables(s);
    UnswappedTables(t);
  }

  /** An attempt that writes some of the tail. */
  lemma WritesKeepOnlyTail(l: Ledger, b: Books, m: BookMove, f: Fanout, toStaging: seq<TokenRow>, toActive: seq<TokenRow>, shared: SharedLoad)
    requires Lifecycle(l) && QuietGenesis(l) && LoadInv(l, b, shared) && BookAllowed(l, b, m) && m.mv == FanoutWrites(f, toStaging, toActive)
    ensures LoadInv(l, BookAfter(l, b, m), shared)
  {
    hide Inv, DataInv, ActiveTables, StagingTables, OnlyTail, Lifecycle, QuietGenesis, Sound, IsFull, IsImport, FanoutTouched, RefreshRows, SamePairs, TailRow,
         StagingBooks, FinishedBooks, ServingBooks;
    var w, s := b.world, b.world.sys;
    var cfg := DeltaConfig(shared.snapshot.slot, ActiveView(s).mints);
    MoveKeepsBooks(l, b, m);
    DataParts(l, w);
    LoadingTables(s);
    FanningFacts(s);
    TailRows(l, cfg, ActiveRows(w), shared.resumeSlot, shared.snapshot.slot, f.stream, f.live, f.order);
    forall r | r in toActive ensures TailRow(l, shared.resumeSlot, shared.snapshot.slot, r) {
      TailRowsAreLast(l, cfg, shared.resumeSlot, shared.snapshot.slot, f.stream, f.live, f.order, r);
    }
    FewerKeepPairs(AfterImport(ActiveRows(w), f.live, FanoutCloses(w, f), f.order), ActiveRows(w), f.live, toActive);
    CutKeepsOnlyTail(l, ServedBalances(b), ActiveRows(w), b.serving, shared.resumeSlot, shared.snapshot.slot, toActive, m.pairs, FanoutTouched(w, f));
  }

  lemma FewerKeepPairs(all: seq<TokenRow>, rows: seq<TokenRow>, live: seq<TokenRow>, more: seq<TokenRow>)
    requires SamePairs(all) && rows + live <= all && forall r :: r in more ==> r in live
    ensures SamePairs(rows + more)
  {
    forall r | r in rows + more ensures r in all {
      assert r in rows + live;
    }
    SamePairsWithin(all, rows + more);
  }

  /** Every move under the checkpoint keeps what is known of the load. */
  lemma LoadMoveKeeps(l: Ledger, b: Books, m: BookMove, shared: SharedLoad)
    requires Lifecycle(l) && QuietGenesis(l) && LoadInv(l, b, shared) && BookAllowed(l, b, m) && IsLoading(BookAfter(l, b, m), shared)
    ensures LoadInv(l, BookAfter(l, b, m), shared)
  {
    MoveKeepsBooks(l, b, m);
    match m.mv {
      case Plain(e) =>
        hide BooksInv, BookAllowed, BookAfter, OnlyTail, Lifecycle, QuietGenesis, ServedBalances, ServedRows, HasBalances;
        PlainKeepsServed(l, b, m, e, shared);
      case ClearsStaging(e, cleared) =>
        hide BooksInv, BookAllowed, BookAfter, OnlyTail, Lifecycle, QuietGenesis, ServedBalances, ServedRows, HasBalances;
        ClearKeepsServed(l, b, m, e, cleared, shared);
      case FanoutWrites(f, toStaging, toActive) => WritesKeepOnlyTail(l, b, m, f, toStaging, toActive, shared);
      case _ => OthersNotWhileLoading(l, b, m, shared);
    }
  }

  lemma OthersNotWhileLoading(l: Ledger, b: Books, m: BookMove, shared: SharedLoad)
    requires BooksInv(l, b) && IsLoading(b, shared) && BookAllowed(l, b, m) && IsLoading(BookAfter(l, b, m), shared)
    ensures m.mv.Plain? || m.mv.ClearsStaging? || m.mv.FanoutWrites?
  {
    hide Inv, Next, DataInv, StagingBooks, FinishedBooks, ServingBooks, Possible, IsFull, IsImport;
    DataParts(l, b.world);
    if m.mv.FanoutCompletes? {
      hide BookAfter, BookAllowed;
      CompletionEndsLoad(l, b, m);
    } else if !m.mv.Plain? && !m.mv.ClearsStaging? && !m.mv.FanoutWrites? {
      hide BookAfter;
      LoadingIsQuiet(b.world.sys);
    }
  }

  lemma CompletionEndsLoad(l: Ledger, b: Books, m: BookMove)
    requires BooksInv(l, b) && BookAllowed(l, b, m) && m.mv.FanoutCompletes?
    ensures var j := BookAfter(l, b, m).world.sys.journal; j.Some? && j.value.shared.None?
  {
    hide Inv, Next, DataInv, StagingBooks, FinishedBooks, ServingBooks, IsFull, IsImport, ImportOf, RefreshRows, FanoutTouched, MissedPairs, Effective, Completed, AfterImport;
    DataParts(l, b.world);
    DoneClears(b.world.sys, m.mv.spawned);
  }

  lemma DoneClears(s: Sys, spawned: bool)
    requires Inv(s) && Next(s, Event.FanoutDone(spawned)).To?
    ensures var t := Next(s, Event.FanoutDone(spawned)).sys; t.journal.Some? && t.journal.value.shared.None?
  {
    hide TablesOk, FilesOk, ExchangeOk, Running;
  }

  // ------------------------------------------------------------------ runs

  /** Moves under one shared checkpoint: attempts that write and are cut off, failures, crashes, starts. */
  ghost predicate LoadRuns(l: Ledger, b: Books, moves: seq<BookMove>, shared: SharedLoad)
    decreases |moves|
  {
    moves == [] || (BookAllowed(l, b, moves[0]) && IsLoading(BookAfter(l, b, moves[0]), shared) && LoadRuns(l, BookAfter(l, b, moves[0]), moves[1..], shared))
  }

  ghost function AfterLoad(l: Ledger, b: Books, moves: seq<BookMove>, shared: SharedLoad): Books
    requires LoadRuns(l, b, moves, shared)
    decreases |moves|
  {
    if moves == [] then b else AfterLoad(l, BookAfter(l, b, moves[0]), moves[1..], shared)
  }

  lemma {:induction false} LoadKeepsOnlyTail(l: Ledger, b: Books, moves: seq<BookMove>, shared: SharedLoad)
    requires Lifecycle(l) && QuietGenesis(l) && LoadInv(l, b, shared) && LoadRuns(l, b, moves, shared)
    ensures LoadInv(l, AfterLoad(l, b, moves, shared), shared)
    decreases |moves|
  {
    hide LoadInv, BookAllowed, BookAfter, Lifecycle, QuietGenesis, IsLoading;
    if moves != [] {
      LoadInvHolds(l, b, shared);
      LoadMoveKeeps(l, b, moves[0], shared);
      LoadKeepsOnlyTail(l, BookAfter(l, b, moves[0]), moves[1..], shared);
    }
  }

  lemma LoadInvHolds(l: Ledger, b: Books, shared: SharedLoad)
    requires LoadInv(l, b, shared)
    ensures BooksInv(l, b) && b.world.known && IsLoading(b, shared)
  {
    hide BooksInv, OnlyTail;
  }

  /** When a load begins: every balance served is right, nothing is left to follow, and none is beyond the archive. */
  ghost predicate CleanStart(b: Books, slot: nat)
    requires HasBalances(b)
  {
    && Agrees(ServedBalances(b), ServedRows(b))
    && forall pair :: !Changed(ServedRows(b), b.serving.At(pair), pair) && !Ahead(ServedBalances(b), pair, slot)
  }

  /**
   A shared load that is completed after any number of interrupted attempts,
   failures and restarts leaves every served balance right if it was right
   before, and staging's balances rebuilt.
   */
  lemma RepeatedLoadRestores(l: Ledger, b: Books, moves: seq<BookMove>, last: BookMove, shared: SharedLoad)
    requires Lifecycle(l) && QuietGenesis(l) && BooksInv(l, b) && b.world.known && IsLoading(b, shared)
    requires CleanStart(b, shared.snapshot.slot) && LoadRuns(l, b, moves, shared)
    requires BookAllowed(l, AfterLoad(l, b, moves, shared), last) && last.mv.FanoutCompletes?
    ensures var after := BookAfter(l, AfterLoad(l, b, moves, shared), last);
      && HasBalances(after)
      && Agrees(ServedBalances(after), ServedRows(after))
      && Agrees(BalancesAt(after, after.world.sys.backup[BALANCES]), RowsAt(after.world, after.world.sys.backup[HOT_STATE]))
  {
    hide LoadInv, BooksInv, BookAllowed, BookAfter, Lifecycle, QuietGenesis, LoadRuns, AfterLoad, CleanStart, HasBalances, ServedBalances, ServedRows;
    CleanIsOnlyTail(l, b, shared);
    LoadKeepsOnlyTail(l, b, moves, shared);
    CompletionRestores(l, AfterLoad(l, b, moves, shared), last, shared);
  }

  lemma CleanIsOnlyTail(l: Ledger, b: Books, shared: SharedLoad)
    requires Lifecycle(l) && BooksInv(l, b) && b.world.known && IsLoading(b, shared) && CleanStart(b, shared.snapshot.slot)
    ensures LoadInv(l, b, shared)
  {
    hide DataInv, Inv, Lifecycle, ActiveTables, StagingTables, Sound, SamePairs, Stale, ReadBalance, Balance, Ahead, ChangedLive, StagingBooks, FinishedBooks, Followed, Recorded;
    DataParts(l, b.world);
    var balances, rows := ServedBalances(b), ServedRows(b);
    SoundTablesKeepPairs(l, ActiveView(b.world.sys).mints, rows);
    forall pair ensures !Stale(rows, b.serving.At(pair), pair) {
      RecordDecides(balances, rows, b.serving, pair);
    }
    forall pair, p ensures !ChangedLive(rows, b.serving.At(pair), pair, p) {
      assert !Changed(rows, b.serving.At(pair), pair);
    }
  }

  lemma CompletionRestores(l: Ledger, b: Books, m: BookMove, shared: SharedLoad)
    requires Lifecycle(l) && QuietGenesis(l) && LoadInv(l, b, shared) && BookAllowed(l, b, m) && m.mv.FanoutCompletes?
    ensures var after := BookAfter(l, b, m);
      && HasBalances(after) && Agrees(ServedBalances(after), ServedRows(after))
      && Agrees(BalancesAt(after, after.world.sys.backup[BALANCES]), RowsAt(after.world, after.world.sys.backup[HOT_STATE]))
  {
    hide Inv, Next, DataInv, ActiveTables, StagingTables, OnlyTail, Lifecycle, QuietGenesis, Sound, IsFull, IsImport, Touched, RefreshRows, Agrees, Enumerates,
         ImportOf, Above, AfterImport, StagingBooks, FinishedBooks, ServingBooks, IsRebuild, MissedPairs, Effective, Completed;
    var w, s, f := b.world, b.world.sys, m.mv.f;
    var t := Next(s, Event.FanoutDone(m.mv.spawned)).sys;
    var cfg := DeltaConfig(shared.snapshot.slot, ActiveView(s).mints);
    DataParts(l, w);
    LoadingTables(s);
    FanningFacts(s);
    FanoutDoneViews(s, m.mv.spawned);
    FanoutDoneMemory(s, m.mv.spawned);
    SameTables(s, t);
    TailRestores(l, cfg, ServedBalances(b), ActiveRows(w), b.serving, shared.resumeSlot, shared.snapshot.slot, f.stream, f.live, f.order, m.pairs);
    RebuildAgrees(m.rebuilt, w.partial + m.mv.toStaging);
  }
}
