/**
 The balances that are served, against the ledger: when the tables are exact,
 they are right for every pair if and only if no pair is stale.
 */
module ServedLedger {
  import opened ImportOutput
  import opened Ledgers
  import opened HotState
  import opened WalletBalance
  import opened BalanceRecords
  import opened LedgerBalances
  import opened Watcher
  import opened WatcherInvariant
  import opened Generations
  import opened ServingData
  import opened ServingBalances

  /** Every balance is the sum of what the ledger records for its pair. */
  ghost predicate SaysLedger(l: Ledger, hot: set<Pubkey>, balances: seq<BalanceRow>, top: nat) {
    forall pair :: ReadBalance(balances, pair) == LedgerBalance(l, hot, pair, top)
  }

  lemma SaysLedgerIff(l: Ledger, hot: set<Pubkey>, balances: seq<BalanceRow>, rows: seq<TokenRow>, top: nat)
    requires Lifecycle(l) && Exact(l, hot, rows, top)
    ensures Agrees(balances, rows) <==> SaysLedger(l, hot, balances, top)
  {
    hide Agrees, LedgerBalance, ReadBalance, Lifecycle, Exact;
    AgreesWithLedgerIff(l, hot, balances, rows, top);
  }

  lemma StagingIsBuilding(l: Ledger, w: World)
    requires DataInv(l, w) && w.sys.journal.Some? && StagingView(w.sys).Some?
    ensures Building(l, StagingView(w.sys).value, w.rows[StagingTable(w.sys)], w.reach)
  {
    hide Inv, Building, Serving, Settled;
  }

  /**
   When a cutover completes, after any run, if no pair is behind and no attempt of
   the generation reached further than what is promoted, then every balance of the
   promoted group is the sum of the amounts of the hot token accounts of its pair
   in the ledger at the promoted slot, if and only if nothing is stale.
   */
  lemma PromotedBalancesAreLedger(l: Ledger, b: Books, moves: seq<BookMove>, promote: BookMove)
    requires Lifecycle(l) && QuietGenesis(l) && InitialBooks(b) && BookRuns(l, b, moves) && promote.mv == Plain(Promote)
    requires BookAllowed(l, BooksAfter(l, b, moves), promote)
    ensures var before := BooksAfter(l, b, moves);
      var after := BookAfter(l, before, promote);
      && HasBalances(after) && TablesHaveRows(after.world) && after.world.sys.journal.Some?
      && var v := ActiveView(after.world.sys);
      (before.staging.behind == {} && before.world.reach <= StagingSlot(before.world.sys) ==>
         (SaysLedger(l, v.mints, BalancesAt(after, after.world.sys.active[BALANCES]), v.maxSlot)
          <==> NoneStale(ActiveRows(after.world), before.staging)))
  {
    hide Lifecycle, QuietGenesis, BookRuns, BooksAfter, Inv, Next, Agrees, Below, Sound, Tracked, AllDecided, NoneStale, DataInv, ActiveTables, StagingTables,
         Building, SaysLedger, StagingBooks, FinishedBooks, ServingBooks, Exact;
    var before := BooksAfter(l, b, moves);
    var after := BookAfter(l, before, promote);
    PromotedBalancesAgree(l, b, moves, promote);
    InitialKeepsBooks(l, b);
    RunKeepsBooks(l, b, moves);
    DataParts(l, before.world);
    PromoteViews(before.world.sys);
    PromotedTable(before.world.sys);
    StagingIsBuilding(l, before.world);
    var v := ActiveView(after.world.sys);
    if before.staging.behind == {} && before.world.reach <= v.maxSlot {
      SettledWithinReachIsExact(l, v, before.world.rows[StagingTable(before.world.sys)], before.world.reach);
      SaysLedgerIff(l, v.mints, BalancesAt(after, after.world.sys.active[BALANCES]), ActiveRows(after.world), v.maxSlot);
    }
  }

  lemma ServingIsExact(l: Ledger, w: World)
    requires DataInv(l, w) && w.known && !w.bridged && w.sys.journal.Some? && w.horizon <= ActiveView(w.sys).maxSlot
    requires Below(RowsAt(w, ActiveTables(w.sys)[HOT_STATE]), ActiveView(w.sys).maxSlot)
    ensures Exact(l, ActiveView(w.sys).mints, RowsAt(w, ActiveTables(w.sys)[HOT_STATE]), ActiveView(w.sys).maxSlot)
  {
    hide Inv, Building, Settled, LiveSettled, Sound, Below, SwappedAt, Exact;
    SettledBelowIsExact(l, ActiveView(w.sys).mints, RowsAt(w, ActiveTables(w.sys)[HOT_STATE]), ActiveView(w.sys).maxSlot);
  }

  /** The same of the group that is served, in every reachable state, until a shared load has bridged it. */
  lemma ServedBalancesAreLedger(l: Ledger, b: Books, moves: seq<BookMove>)
    requires Lifecycle(l) && QuietGenesis(l) && InitialBooks(b) && BookRuns(l, b, moves)
    ensures var t := BooksAfter(l, b, moves);
      && HasBalances(t)
      && (t.world.known && !t.world.bridged && t.serving.behind == {} ==>
            && t.world.sys.journal.Some?
            && var balances, rows := BalancesAt(t, ActiveTables(t.world.sys)[BALANCES]), RowsAt(t.world, ActiveTables(t.world.sys)[HOT_STATE]);
            && var v := ActiveView(t.world.sys);
            (Below(rows, v.maxSlot) && t.world.horizon <= v.maxSlot ==>
               (SaysLedger(l, v.mints, balances, v.maxSlot) <==> NoneStale(rows, t.serving))))
  {
    hide Lifecycle, QuietGenesis, BookRuns, BooksAfter, Agrees, Recorded, Followed, AllDecided, NoneStale, ActiveTables, Below, Sound, Inv,
         SaysLedger, Exact, DataInv, StagingBooks, FinishedBooks, ServingBooks;
    var t := BooksAfter(l, b, moves);
    ServedBalancesAgree(l, b, moves);
    InitialKeepsBooks(l, b);
    RunKeepsBooks(l, b, moves);
    DataParts(l, t.world);
    if t.world.known && !t.world.bridged {
      var balances, rows := BalancesAt(t, ActiveTables(t.world.sys)[BALANCES]), RowsAt(t.world, ActiveTables(t.world.sys)[HOT_STATE]);
      var v := ActiveView(t.world.sys);
      if Below(rows, v.maxSlot) && t.world.horizon <= v.maxSlot {
        ServingIsExact(l, t.world);
        SaysLedgerIff(l, v.mints, balances, rows, v.maxSlot);
      }
    }
  }
}
