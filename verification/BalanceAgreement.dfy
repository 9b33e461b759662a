/**
 When the derived balances of one table group say what its state table says,
 through imports that are cut off anywhere, repeated, or overtaken.
 */
module BalanceAgreement {
  import opened Wrappers
  import opened ImportOutput
  import opened Accounts
  import opened Ledgers
  import opened HotState
  import opened Versions
  import opened WalletBalance
  import opened IncrementalImport
  import opened BalanceRecords

  // ------------------------------------------------------ what an import touches

  /** What is due within the end of a completed import is touched by it. */
  lemma DueIsTouched(l: Ledger, cfg: Config, t: Table, a: Attempt, pair: Pair, p: Pubkey)
    requires Lifecycle(l) && cfg.kind.Incremental? && Sound(l, cfg.hot, t.rows)
    requires Possible(l, cfg, t, a) && DueAt(t.rows, t.watermark, a.end, pair, p)
    requires forall p <- a.order :: p in ImportOf(cfg, Above(Some(t.watermark), a.stream)).closes
    ensures pair in TouchedPairs(cfg, t.watermark, a.stream, t.rows, a.live, a.order)
  {
    hide ImportOf, Above, IsIncremental, Newest, Lifecycle, LedgerRow, DeliversOnly, DeliversLive, DeliversCloses, TouchedPairs, Latest;
    IncrementalIsFromLedger(l, a.base, a.end, a.stream);
    ImportDeliversOnly(l, cfg, t.watermark, a.end, a.stream, a.live, a.order);
    IncrementalDelivers(l, cfg, a.base, t.watermark, a.end, a.stream, a.live, a.order);
    NewestIsRow(t.rows, p);
    DueRecord(l, cfg.hot, t.rows, a.end, p);
    if TokenOf(l[(p, Latest(l, p, a.end).value)]).Some? {
      DueIsLive(l, cfg, t.rows, t.watermark, a.end, a.stream, a.live, a.order, p);
    } else {
      DueIsClosed(l, cfg, t.rows, t.watermark, a, p);
    }
  }

  /** The last record of a due account is a token account of the same pair, or a close above it. */
  lemma DueRecord(l: Ledger, hot: set<Pubkey>, rows: seq<TokenRow>, end: nat, p: Pubkey)
    requires Lifecycle(l) && Sound(l, hot, rows)
    requires Newest(rows, p).Some? && !Newest(rows, p).value.isDeleted && Newest(rows, p).value.updatedSlot <= end
    ensures var s, r := Latest(l, p, end), Newest(rows, p).value;
      && s.Some? && s.value >= r.updatedSlot && (p, s.value) in l
      && (match TokenOf(l[(p, s.value)])
          case Some(t) => PairOf(t) == (r.mint, r.owner) && t.mint in hot
          case None => IsClose(l[(p, s.value)]) && s.value > r.updatedSlot)
      && r.mint != "" && r.owner != ""
  {
    hide TokenOf, IsClose, Latest, Newest, HadPair, Sensible;
    NewestIsRow(rows, p);
    var r := Newest(rows, p).value;
    assert LedgerRow(l, hot, r);
    var s := Latest(l, p, end).value;
    assert (p, r.updatedSlot) in l && TokenOf(l[(p, r.updatedSlot)]).Some?;
    NamesNotEmpty(l, p, r.updatedSlot);
    assert r.updatedSlot < s ==> Follows(l[(p, r.updatedSlot)], l[(p, s)]);
  }

  lemma DueIsLive(l: Ledger, cfg: Config, rows: seq<TokenRow>, watermark: nat, end: nat, stream: seq<AppendVec>, live: seq<TokenRow>, order: seq<Pubkey>, p: Pubkey)
    requires cfg.kind.Incremental? && IsImport(cfg, Above(Some(watermark), stream), live, order)
    requires forall q <- order :: q in ImportOf(cfg, Above(Some(watermark), stream)).closes
    requires DeliversLive(l, cfg.hot, watermark, end, live)
    requires var s := Latest(l, p, end);
      s.Some? && s.value > watermark && TokenOf(l[(p, s.value)]).Some? && TokenOf(l[(p, s.value)]).value.mint in cfg.hot
    ensures PairOf(TokenOf(l[(p, Latest(l, p, end).value)]).value) in TouchedPairs(cfg, watermark, stream, rows, live, order)
  {
    hide ImportOf, Above, TokenOf, Latest, TouchedPairs, Tombstones;
    var s := Latest(l, p, end).value;
    var row := LiveRow(p, TokenOf(l[(p, s)]).value, s);
    assert row in live;
    AddedRowsAreTouched(cfg, watermark, stream, rows, live, order, row);
  }

  lemma DueIsClosed(l: Ledger, cfg: Config, rows: seq<TokenRow>, watermark: nat, a: Attempt, p: Pubkey)
    requires Lifecycle(l) && cfg.kind.Incremental? && IsImport(cfg, Above(Some(watermark), a.stream), a.live, a.order)
    requires forall q <- a.order :: q in ImportOf(cfg, Above(Some(watermark), a.stream)).closes
    requires Sound(l, cfg.hot, rows) && DeliversOnly(l, cfg.hot, watermark, a.end, a.live, ImportOf(cfg, Above(Some(watermark), a.stream)).closes)
    requires DeliversCloses(l, watermark, a.end, ImportOf(cfg, Above(Some(watermark), a.stream)).closes)
    requires var s, n := Latest(l, p, a.end), Newest(rows, p);
      && s.Some? && s.value > watermark && (p, s.value) in l && IsClose(l[(p, s.value)]) && TokenOf(l[(p, s.value)]).None?
      && n.Some? && !n.value.isDeleted && n.value.updatedSlot < s.value && n.value.mint != "" && n.value.owner != ""
    ensures (Newest(rows, p).value.mint, Newest(rows, p).value.owner) in TouchedPairs(cfg, watermark, a.stream, rows, a.live, a.order)
  {
    hide ImportOf, Above, TokenOf, Latest, TouchedPairs, Tombstones, IsClose, Newest, Lifecycle, HadPair;
    var s, r := Latest(l, p, a.end).value, Newest(rows, p).value;
    var closes := ImportOf(cfg, Above(Some(watermark), a.stream)).closes;
    NewestWithMore(rows, a.live, p);
    NewestIsRow(rows, p);
    NewestIsRow(rows + a.live, p);
    var m := Newest(rows + a.live, p).value;
    SoundWithLive(l, cfg.hot, rows, a.live, watermark, a.end, closes);
    SoundTablesKeepPairs(l, cfg.hot, rows + a.live);
    assert r in rows + a.live && m in rows + a.live;
    if m in a.live {
      WrittenRowsAreLive(cfg, Above(Some(watermark), a.stream), a.live, a.order, m);
    }
    LiveBelowClose(l, cfg.hot, m, a.end);
    var tombstone := Tombstone(p, (m.mint, m.owner), s);
    assert tombstone in TombstoneFor(rows + a.live, p, closes[p]);
    TombstonesAre(rows + a.live, closes, a.order, tombstone);
    AddedRowsAreTouched(cfg, watermark, a.stream, rows, a.live, a.order, tombstone);
  }

  lemma WrittenRowsAreLive(cfg: Config, stream: seq<AppendVec>, live: seq<TokenRow>, order: seq<Pubkey>, r: TokenRow)
    requires IsImport(cfg, stream, live, order) && r in live
    ensures !r.isDeleted
  {
    hide ImportOf, Holds, TokenOf;
    assert r in multiset(live);
    ImportTokens(cfg, stream, r);
    var slot: nat, a :| Holds(stream, slot, a) && r in LiveRows(cfg, a, slot);
  }

  /** A live row of an account that is closed is older than the close, and names a pair. */
  lemma LiveBelowClose(l: Ledger, hot: set<Pubkey>, r: TokenRow, end: nat)
    requires Lifecycle(l) && LedgerRow(l, hot, r) && !r.isDeleted && r.updatedSlot <= end
    requires Latest(l, r.pubkey, end).Some? && TokenOf(l[(r.pubkey, Latest(l, r.pubkey, end).value)]).None?
    ensures r.updatedSlot < Latest(l, r.pubkey, end).value && r.mint != "" && r.owner != ""
  {
    hide TokenOf, IsClose, Latest, HadPair, Sensible;
    assert (r.pubkey, r.updatedSlot) in l && TokenOf(l[(r.pubkey, r.updatedSlot)]).Some?;
    NamesNotEmpty(l, r.pubkey, r.updatedSlot);
  }

  lemma SoundWithLive(l: Ledger, hot: set<Pubkey>, rows: seq<TokenRow>, live: seq<TokenRow>, watermark: nat, end: nat, closes: map<Pubkey, nat>)
    requires Sound(l, hot, rows) && DeliversOnly(l, hot, watermark, end, live, closes)
    ensures Sound(l, hot, rows + live)
  {
    hide LedgerRow;
  }

  // ------------------------------------------------------------ whole attempts

  /** The pairs an import touches, given what it finds in the table. */
  ghost function Touched(cfg: Config, watermark: nat, stream: seq<AppendVec>, rows: seq<TokenRow>, live: seq<TokenRow>, order: seq<Pubkey>): set<Pair> {
    if forall p <- order :: p in ImportOf(cfg, Above(Some(watermark), stream)).closes
    then TouchedPairs(cfg, watermark, stream, rows, live, order) else {}
  }

  ghost function AttemptTouched(cfg: Config, t: Table, a: Attempt): set<Pair> { Touched(cfg, t.watermark, a.stream, t.rows, a.live, a.order) }

  lemma AttemptRows(l: Ledger, cfg: Config, t: Table, a: Attempt)
    requires Lifecycle(l) && cfg.kind.Incremental? && Sound(l, cfg.hot, t.rows) && Possible(l, cfg, t, a)
    ensures forall p <- a.order :: p in ImportOf(cfg, Above(Some(t.watermark), a.stream)).closes
    ensures Sound(l, cfg.hot, AfterAttempt(cfg, t, a).rows) && SamePairs(AfterAttempt(cfg, t, a).rows)
    ensures forall r :: r in a.live || r in Tombstones(t.rows + a.live, ImportOf(cfg, Above(Some(t.watermark), a.stream)).closes, a.order) ==>
      t.watermark < r.updatedSlot <= a.end
  {
    hide Lifecycle, ImportOf, Above, IsIncremental, DeliversOnly, LedgerRow, SamePairs, Tombstones;
    PossibleOrder(l, cfg, t, a);
    var closes := ImportOf(cfg, Above(Some(t.watermark), a.stream)).closes;
    IncrementalIsFromLedger(l, a.base, a.end, a.stream);
    ImportDeliversOnly(l, cfg, t.watermark, a.end, a.stream, a.live, a.order);
    ImportSound(l, cfg.hot, t.watermark, a.end, t.rows, a.live, closes, a.order);
    NewRowsAbove(l, cfg.hot, t.watermark, a.end, t.rows, a.live, closes, a.order);
    SoundTablesKeepPairs(l, cfg.hot, AfterAttempt(cfg, t, a).rows);
  }

  lemma AttemptEnds(l: Ledger, cfg: Config, t: Table, a: Attempt)
    requires Possible(l, cfg, t, a)
    ensures t.watermark < a.end
  {
    hide ImportOf, Above, IsIncremental, IsImport;
  }

  lemma AttemptAdds(l: Ledger, cfg: Config, t: Table, a: Attempt, more: seq<TokenRow>)
    requires cfg.kind.Incremental? && Possible(l, cfg, t, a) && forall p <- a.order :: p in ImportOf(cfg, Above(Some(t.watermark), a.stream)).closes
    requires more == a.live + Tombstones(t.rows + a.live, ImportOf(cfg, Above(Some(t.watermark), a.stream)).closes, a.order)
    ensures forall r :: r in more ==> (r.mint, r.owner) in AttemptTouched(cfg, t, a)
  {
    hide ImportOf, Above, IsIncremental, Tombstones, TouchedPairs;
    forall r | r in more ensures (r.mint, r.owner) in AttemptTouched(cfg, t, a) {
      AddedRowsAreTouched(cfg, t.watermark, a.stream, t.rows, a.live, a.order, r);
    }
  }

  /** An attempt that is cut off keeps the record, whatever it wrote and whatever it refreshed. */
  lemma CutKeepsTracked(l: Ledger, cfg: Config, t: Table, a: Attempt, balances: seq<BalanceRow>, track: Track, pairs: seq<Pair>, affected: set<Pair>)
    requires Lifecycle(l) && cfg.kind.Incremental? && Sound(l, cfg.hot, t.rows) && Possible(l, cfg, t, a) && a.interrupted.Some?
    requires Tracked(balances, t.rows, track, t.watermark) && forall pair <- pairs :: pair in affected
    ensures var now := t.rows + a.interrupted.value;
      Tracked(balances + RefreshRows(now, pairs, affected, a.end), now, Computed(track, Effective(balances, pairs, a.end), |now|), t.watermark)
  {
    hide Lifecycle, ImportOf, Above, IsIncremental, Sound, SamePairs, Tombstones, ReadBalance, Balance, RefreshRows, Effective, Computed, Followed;
    AttemptRows(l, cfg, t, a);
    RefreshKeepsRecord(balances, t.rows, a.interrupted.value, track, pairs, affected, a.end);
    CutKeepsFollowed(t.rows, a.interrupted.value, track, Effective(balances, pairs, a.end), t.watermark);
  }

  /** A completed attempt follows up to its end; the pairs whose stored balance is ahead of it are behind. */
  lemma CompletionKeepsTracked(l: Ledger, cfg: Config, t: Table, a: Attempt, balances: seq<BalanceRow>, track: Track, pairs: seq<Pair>)
    requires Lifecycle(l) && cfg.kind.Incremental? && Sound(l, cfg.hot, t.rows) && Possible(l, cfg, t, a) && a.interrupted.None?
    requires Tracked(balances, t.rows, track, t.watermark) && Enumerates(pairs, AttemptTouched(cfg, t, a))
    ensures forall p <- a.order :: p in ImportOf(cfg, Above(Some(t.watermark), a.stream)).closes
    ensures var now, affected := AfterAttempt(cfg, t, a).rows, AttemptTouched(cfg, t, a);
      Tracked(balances + RefreshRows(now, pairs, affected, a.end), now, Completed(track, affected, Effective(balances, pairs, a.end), |now|), a.end)
  {
    hide Lifecycle, ImportOf, Above, IsIncremental, Sound, SamePairs, Tombstones, ReadBalance, Balance, RefreshRows, Effective, Followed, TouchedPairs, DueAt, ChangedLive;
    AttemptRows(l, cfg, t, a);
    var affected := AttemptTouched(cfg, t, a);
    var more := a.live + Tombstones(t.rows + a.live, ImportOf(cfg, Above(Some(t.watermark), a.stream)).closes, a.order);
    assert AfterAttempt(cfg, t, a).rows == t.rows + more;
    AttemptAdds(l, cfg, t, a, more);
    forall pair, p | DueAt(t.rows, t.watermark, a.end, pair, p) ensures pair in affected {
      DueIsTouched(l, cfg, t, a, pair, p);
    }
    RefreshKeepsRecord(balances, t.rows, more, track, pairs, affected, a.end);
    CompletionKeepsFollowed(t.rows, more, track, affected, Effective(balances, pairs, a.end), t.watermark, a.end);
    SameRecord(balances + RefreshRows(t.rows + more, pairs, affected, a.end), t.rows + more, Computed(track, Effective(balances, pairs, a.end), |t.rows + more|),
               Completed(track, affected, Effective(balances, pairs, a.end), |t.rows + more|));
  }

  /** What is behind is no part of what is recorded. */
  lemma SameRecord(balances: seq<BalanceRow>, rows: seq<TokenRow>, t: Track, u: Track)
    requires Recorded(balances, rows, t) && t.base == u.base && t.last == u.last
    ensures Recorded(balances, rows, u)
  {
    hide Balance, ReadBalance;
    forall pair ensures u.At(pair) == t.At(pair) {
    }
  }

  // --------------------------------------------------- the tail of a full archive

  /** A due account that was closed by the end of a full archive, which does not say so. */
  ghost predicate MissedRow(l: Ledger, rows: seq<TokenRow>, t: Track, watermark: nat, end: nat, r: TokenRow) {
    var pair, s := (r.mint, r.owner), Latest(l, r.pubkey, end);
    && Newest(rows, r.pubkey) == Some(r) && DueAt(rows, watermark, end, pair, r.pubkey) && ChangedLive(rows, t.At(pair), pair, r.pubkey)
    && s.Some? && TokenOf(l[(r.pubkey, s.value)]).None?
  }

  ghost function MissedPairs(l: Ledger, rows: seq<TokenRow>, t: Track, watermark: nat, end: nat): set<Pair> {
    set r | r in rows && MissedRow(l, rows, t, watermark, end, r) :: (r.mint, r.owner)
  }

  lemma TailDueIsTouched(l: Ledger, cfg: Config, rows: seq<TokenRow>, t: Track, watermark: nat, end: nat, stream: seq<AppendVec>,
      live: seq<TokenRow>, order: seq<Pubkey>, pair: Pair, p: Pubkey)
    requires Lifecycle(l) && cfg.kind.Incremental? && Sound(l, cfg.hot, rows) && IsFull(l, end, stream)
    requires IsImport(cfg, Above(Some(watermark), stream), live, order)
    requires forall q <- order :: q in ImportOf(cfg, Above(Some(watermark), stream)).closes
    requires DueAt(rows, watermark, end, pair, p) && ChangedLive(rows, t.At(pair), pair, p)
    ensures pair in TouchedPairs(cfg, watermark, stream, rows, live, order) || pair in MissedPairs(l, rows, t, watermark, end)
  {
    hide ImportOf, Above, IsFull, Newest, Lifecycle, Sound, DeliversOnly, DeliversLive, TouchedPairs, Latest, TokenOf, IsClose;
    FullDelivers(l, cfg, watermark, end, stream, live, order);
    NewestIsRow(rows, p);
    DueRecord(l, cfg.hot, rows, end, p);
    if TokenOf(l[(p, Latest(l, p, end).value)]).Some? {
      DueIsLive(l, cfg, rows, watermark, end, stream, live, order, p);
    } else {
      assert MissedRow(l, rows, t, watermark, end, Newest(rows, p).value);
    }
  }

  lemma TailRows(l: Ledger, cfg: Config, rows: seq<TokenRow>, watermark: nat, end: nat, stream: seq<AppendVec>, live: seq<TokenRow>, order: seq<Pubkey>)
    requires Lifecycle(l) && cfg.kind.Incremental? && Sound(l, cfg.hot, rows) && IsFull(l, end, stream)
    requires IsImport(cfg, Above(Some(watermark), stream), live, order)
    ensures var closes := ImportOf(cfg, Above(Some(watermark), stream)).closes;
      && (forall p <- order :: p in closes)
      && SamePairs(AfterImport(rows, live, closes, order))
      && (forall r :: r in live || r in Tombstones(rows + live, closes, order) ==> watermark < r.updatedSlot <= end)
  {
    hide Lifecycle, ImportOf, Above, IsFull, DeliversOnly, LedgerRow, SamePairs, Tombstones;
    var closes := ImportOf(cfg, Above(Some(watermark), stream)).closes;
    FullDelivers(l, cfg, watermark, end, stream, live, order);
    ImportSound(l, cfg.hot, watermark, end, rows, live, closes, order);
    NewRowsAbove(l, cfg.hot, watermark, end, rows, live, closes, order);
    SoundTablesKeepPairs(l, cfg.hot, AfterImport(rows, live, closes, order));
  }

  /** Some of the tail's rows, in an attempt that does not complete. */
  lemma TailCutKeepsTracked(l: Ledger, cfg: Config, rows: seq<TokenRow>, watermark: nat, end: nat, stream: seq<AppendVec>, live: seq<TokenRow>, order: seq<Pubkey>,
      more: seq<TokenRow>, balances: seq<BalanceRow>, track: Track, pairs: seq<Pair>, affected: set<Pair>)
    requires Lifecycle(l) && cfg.kind.Incremental? && Sound(l, cfg.hot, rows) && IsFull(l, end, stream)
    requires IsImport(cfg, Above(Some(watermark), stream), live, order) && forall r :: r in more ==> r in live
    requires Tracked(balances, rows, track, watermark) && forall pair <- pairs :: pair in affected
    ensures var now := rows + more;
      Tracked(balances + RefreshRows(now, pairs, affected, end), now, Computed(track, Effective(balances, pairs, end), |now|), watermark)
  {
    hide Lifecycle, ImportOf, Above, IsFull, Sound, Tombstones, ReadBalance, Balance, RefreshRows, Effective, Computed, Followed;
    TailRows(l, cfg, rows, watermark, end, stream, live, order);
    assert SamePairs(rows + more);
    hide SamePairs;
    RefreshKeepsRecord(balances, rows, more, track, pairs, affected, end);
    CutKeepsFollowed(rows, more, track, Effective(balances, pairs, end), watermark);
  }

  /** The tail as a whole. */
  lemma TailKeepsTracked(l: Ledger, cfg: Config, rows: seq<TokenRow>, watermark: nat, end: nat, stream: seq<AppendVec>, live: seq<TokenRow>, order: seq<Pubkey>,
      balances: seq<BalanceRow>, track: Track, pairs: seq<Pair>)
    requires Lifecycle(l) && cfg.kind.Incremental? && Sound(l, cfg.hot, rows) && IsFull(l, end, stream)
    requires IsImport(cfg, Above(Some(watermark), stream), live, order)
    requires Tracked(balances, rows, track, watermark) && Enumerates(pairs, Touched(cfg, watermark, stream, rows, live, order))
    ensures forall p <- order :: p in ImportOf(cfg, Above(Some(watermark), stream)).closes
    ensures var now := AfterImport(rows, live, ImportOf(cfg, Above(Some(watermark), stream)).closes, order);
      var affected := Touched(cfg, watermark, stream, rows, live, order);
      Tracked(balances + RefreshRows(now, pairs, affected, end), now,
              Completed(track, affected + MissedPairs(l, rows, track, watermark, end), Effective(balances, pairs, end), |now|), end)
  {
    hide Lifecycle, ImportOf, Above, IsFull, Sound, SamePairs, Tombstones, ReadBalance, Balance, RefreshRows, Effective, Followed, TouchedPairs, DueAt, ChangedLive, MissedPairs;
    TailRows(l, cfg, rows, watermark, end, stream, live, order);
    var affected := Touched(cfg, watermark, stream, rows, live, order);
    var more := live + Tombstones(rows + live, ImportOf(cfg, Above(Some(watermark), stream)).closes, order);
    var now := AfterImport(rows, live, ImportOf(cfg, Above(Some(watermark), stream)).closes, order);
    assert now == rows + more;
    forall r | r in more ensures (r.mint, r.owner) in affected {
      AddedRowsAreTouched(cfg, watermark, stream, rows, live, order, r);
    }
    var touched := affected + MissedPairs(l, rows, track, watermark, end);
    forall pair, p | DueAt(rows, watermark, end, pair, p) && ChangedLive(rows, track.At(pair), pair, p) ensures pair in touched {
      TailDueIsTouched(l, cfg, rows, track, watermark, end, stream, live, order, pair, p);
    }
    RefreshKeepsRecord(balances, rows, more, track, pairs, affected, end);
    CompletionKeepsFollowed(rows, more, track, touched, Effective(balances, pairs, end), watermark, end);
    SameRecord(balances + RefreshRows(now, pairs, affected, end), now, Computed(track, Effective(balances, pairs, end), |now|),
               Completed(track, touched, Effective(balances, pairs, end), |now|));
  }

  // ------------------------------------------------- cut off, then repeated

  /**
   An attempt that had written all its rows and refreshed all it touched before
   it was cut off leaves every balance right, as one that completes does: if and
   only if no pair whose stored balance is ahead of the archive has changed.
   */
  lemma CutAfterRefreshAgreesIff(l: Ledger, cfg: Config, t: Table, a: Attempt, before: seq<BalanceRow>, pairs: seq<Pair>)
    requires Lifecycle(l) && cfg.kind.Incremental? && Sound(l, cfg.hot, t.rows) && Possible(l, cfg, t, a) && Agrees(before, t.rows)
    requires forall p <- a.order :: p in ImportOf(cfg, Above(Some(t.watermark), a.stream)).closes
    requires a.interrupted == Some(a.live + Tombstones(t.rows + a.live, ImportOf(cfg, Above(Some(t.watermark), a.stream)).closes, a.order))
    requires Enumerates(pairs, AttemptTouched(cfg, t, a))
    ensures var now, affected := t.rows + a.interrupted.value, AttemptTouched(cfg, t, a);
      Agrees(before + RefreshRows(now, pairs, affected, a.end), now) <==> AheadUnchanged(before, t.rows, now, affected, a.end)
  {
    hide Lifecycle, ImportOf, Above, IsIncremental, Sound, SamePairs, Tombstones, RefreshRows, TouchedPairs, Agrees, AheadUnchanged, Enumerates;
    AttemptRows(l, cfg, t, a);
    AttemptAdds(l, cfg, t, a, a.interrupted.value);
    RefreshAgreesIff(before, t.rows, a.interrupted.value, pairs, AttemptTouched(cfg, t, a), a.end);
  }

  /** After a repetition, a pair it did not touch is where the cut attempt left it. */
  lemma UntouchedPair(rows: seq<TokenRow>, more: seq<TokenRow>, rest: seq<TokenRow>, refreshed: bool, n: nat, pair: Pair, end: nat)
    requires SamePairs(rows + more + rest) && n == if refreshed then |rows + more| else |rows|
    requires forall r <- more :: r.updatedSlot <= end
    requires forall r <- rest :: (r.mint, r.owner) != pair
    requires forall p :: ChangedLive(rows + more + rest, n, pair, p) ==> Newest(rows + more + rest, p).value.updatedSlot > end
    ensures !Changed(rows + more + rest, n, pair)
    ensures Stale(rows + more + rest, n, pair) <==> !refreshed && Stale(rows + more, |rows|, pair)
  {
    hide Newest, SamePairs;
    var now := rows + more + rest;
    forall p ensures !ChangedLive(now, n, pair, p) {
      if ChangedLive(now, n, pair, p) {
        ChangedByMore(rows + more, rest, n, pair, p);
        if !refreshed {
          ChangedByMore(rows, more, n, pair, p);
        }
        NotChangedYet(rows, pair, p);
        NotChangedYet(rows + more, pair, p);
      }
    }
    forall p ensures DeletedSince(now, n, pair, p) <==> !refreshed && DeletedSince(rows + more, |rows|, pair, p) {
      OthersDeleteNothing(rows + more, rest, n, pair, p);
      NotDeletedYet(rows + more, pair, p);
    }
  }

  /**
   Repeating an import that was cut off, on the same archive or one that ends
   later, makes every balance right if and only if every account with a positive
   amount that the cut attempt marked deleted is of a pair that was refreshed
   before the cut or is touched by the repetition.
   */
  lemma RepetitionRestoresIff(l: Ledger, cut: Config, whole: Config, t: Table, a: Attempt, again: Attempt, before: seq<BalanceRow>,
      some: seq<Pair>, touched: set<Pair>, pairs: seq<Pair>)
    requires Lifecycle(l) && cut.kind.Incremental? && whole.kind.Incremental? && cut.hot == whole.hot && Sound(l, cut.hot, t.rows)
    requires Possible(l, cut, t, a) && a.interrupted.Some?
    requires Possible(l, whole, t.(rows := t.rows + a.interrupted.value), again) && again.interrupted.None? && a.end <= again.end
    requires Agrees(before, t.rows) && SlotsUpTo(before, a.end) && forall pair <- some :: pair in touched
    requires Enumerates(pairs, AttemptTouched(whole, t.(rows := t.rows + a.interrupted.value), again))
    ensures forall p <- again.order :: p in ImportOf(whole, Above(Some(t.watermark), again.stream)).closes
    ensures var torn := t.(rows := t.rows + a.interrupted.value);
      var now, affected := AfterAttempt(whole, torn, again).rows, AttemptTouched(whole, torn, again);
      Agrees(before + RefreshRows(torn.rows, some, touched, a.end) + RefreshRows(now, pairs, affected, again.end), now) <==>
        forall pair, p :: DeletedSince(torn.rows, |t.rows|, pair, p) ==> pair in some || pair in affected
  {
    hide Lifecycle, ImportOf, Above, IsIncremental, Sound, SamePairs, Tombstones, ReadBalance, Balance, RefreshRows, Effective, TouchedPairs,
         Agrees, ChangedLive, DeletedSince, SlotsUpTo, Possible, Recorded;
    var torn := t.(rows := t.rows + a.interrupted.value);
    var affected := AttemptTouched(whole, torn, again);
    var more := a.interrupted.value;
    AttemptRows(l, cut, t, a);
    AttemptRows(l, whole, torn, again);
    var rest := again.live + Tombstones(torn.rows + again.live, ImportOf(whole, Above(Some(t.watermark), again.stream)).closes, again.order);
    var now := AfterAttempt(whole, torn, again).rows;
    assert now == t.rows + more + rest;
    AttemptAdds(l, whole, torn, again, rest);
    var track, between := Rebuilt(t.rows), before + RefreshRows(torn.rows, some, touched, a.end);
    var first := Computed(track, Effective(before, some, a.end), |torn.rows|);
    AgreementIsTracked(before, t.rows, t.watermark);
    CutKeepsTracked(l, cut, t, a, before, track, some, touched);
    CompletionKeepsTracked(l, whole, torn, again, between, first, pairs);
    NoneIsAhead(before, some, a.end, a.end);
    RefreshSlots(before, torn.rows, some, touched, a.end);
    NoneIsAhead(between, pairs, a.end, again.end);
    var last := Completed(first, affected, Effective(between, pairs, again.end), |now|);
    var after := between + RefreshRows(now, pairs, affected, again.end);
    forall r | r in more ensures r.updatedSlot <= again.end {
      CutRows(l, cut, t, a, r);
    }
    forall pair ensures ReadBalance(after, pair) == Balance(now, pair) <==>
        pair in some || pair in affected || forall p :: !DeletedSince(torn.rows, |t.rows|, pair, p) {
      PairAfterRepetition(after, t.rows, more, rest, last, again.end, pair, pair in some, pair in affected);
    }
    AgreesPairwise(after, now);
  }

  lemma AgreesPairwise(balances: seq<BalanceRow>, rows: seq<TokenRow>)
    ensures Agrees(balances, rows) <==> forall pair :: ReadBalance(balances, pair) == Balance(rows, pair)
  {
  }

  lemma CutRows(l: Ledger, cfg: Config, t: Table, a: Attempt, r: TokenRow)
    requires Lifecycle(l) && cfg.kind.Incremental? && Sound(l, cfg.hot, t.rows) && Possible(l, cfg, t, a) && a.interrupted.Some? && r in a.interrupted.value
    ensures t.watermark < r.updatedSlot <= a.end
  {
    hide Lifecycle, ImportOf, Above, IsIncremental, Sound, Tombstones;
    AttemptRows(l, cfg, t, a);
  }

  lemma PairAfterRepetition(after: seq<BalanceRow>, rows: seq<TokenRow>, more: seq<TokenRow>, rest: seq<TokenRow>, last: Track, end: nat, pair: Pair,
      refreshed: bool, touched: bool)
    requires var now := rows + more + rest; SamePairs(now) && Tracked(after, now, last, end) && pair !in last.behind
    requires forall r <- more :: r.updatedSlot <= end
    requires last.At(pair) == if touched then |rows + more + rest| else if refreshed then |rows + more| else |rows|
    requires touched || forall r <- rest :: (r.mint, r.owner) != pair
    ensures ReadBalance(after, pair) == Balance(rows + more + rest, pair) <==>
      touched || refreshed || !Stale(rows + more, |rows|, pair)
  {
    hide ReadBalance, Balance, SamePairs, DeletedSince, ChangedLive;
    var now := rows + more + rest;
    RecordDecides(after, now, last, pair);
    if touched {
      forall p ensures !ChangedLive(now, |now|, pair, p) && !DeletedSince(now, |now|, pair, p) {
        NotChangedYet(now, pair, p);
        NotDeletedYet(now, pair, p);
      }
    } else {
      UntouchedPair(rows, more, rest, refreshed, last.At(pair), pair, end);
    }
  }
}
