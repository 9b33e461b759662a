/**
 One incremental import from end to end: parse the archive above the
 watermark, insert the live rows, append close tombstones in batches, refresh
 the balances of the touched pairs.
 */
module IncrementalImport {
  import opened Wrappers
  import opened ImportOutput
  import opened Accounts
  import opened Workers
  import opened Ledgers
  import opened HotState
  import opened Versions
  import opened WalletBalance

  function PairsOf(rows: seq<TokenRow>): (pairs: set<Pair>)
    ensures forall r :: r in rows ==> (r.mint, r.owner) in pairs
  {
    set r | r in rows :: (r.mint, r.owner)
  }

  predicate Distinct(pubkeys: seq<Pubkey>) { forall i, j :: 0 <= i < j < |pubkeys| ==> pubkeys[i] != pubkeys[j] }

  function Min(a: nat, b: nat): nat { if a < b then a else b }

  lemma TombstonesExtend(rows: seq<TokenRow>, closes: map<Pubkey, nat>, pubkeys: seq<Pubkey>, n: nat)
    requires (forall p <- pubkeys :: p in closes) && n < |pubkeys|
    ensures Tombstones(rows, closes, pubkeys[..n + 1])
      == Tombstones(rows, closes, pubkeys[..n]) + TombstoneFor(rows, pubkeys[n], closes[pubkeys[n]])
  {
    assert pubkeys[..n + 1][..n] == pubkeys[..n];
  }

  /** Tombstones already written for other candidates do not change a look-up. */
  lemma LookupUnchanged(rows: seq<TokenRow>, closes: map<Pubkey, nat>, pubkeys: seq<Pubkey>, n: nat, k: nat)
    requires (forall p <- pubkeys :: p in closes) && Distinct(pubkeys) && n <= k < |pubkeys|
    ensures Newest(rows + Tombstones(rows, closes, pubkeys[..n]), pubkeys[k]) == Newest(rows, pubkeys[k])
  {
    var written := Tombstones(rows, closes, pubkeys[..n]);
    forall r | r in written ensures r.pubkey != pubkeys[k] {
      TombstonesAre(rows, closes, pubkeys[..n], r);
    }
    NewestIgnores(rows, written, pubkeys[k]);
  }

  class HotStateTable {
    var rows: seq<TokenRow>

    /**
     Look candidates up in batches, append a delete version for each older live
     row found, and commit batch by batch.
     */
    method WriteCloseTombstones(closes: map<Pubkey, nat>, pubkeys: seq<Pubkey>)
      returns (markedDeleted: nat, affectedPairs: set<Pair>)
      requires Distinct(pubkeys) && forall p :: p in pubkeys <==> p in closes
      modifies this
      ensures rows == old(rows) + Tombstones(old(rows), closes, pubkeys)
      ensures markedDeleted == |rows| - |old(rows)|
      ensures affectedPairs == PairsOf(Tombstones(old(rows), closes, pubkeys))
    {
      hide Newest, TombstoneFor;
      markedDeleted, affectedPairs := 0, {};
      var done := 0;
      while done < |pubkeys|
        invariant done <= |pubkeys|
        invariant rows == old(rows) + Tombstones(old(rows), closes, pubkeys[..done])
        invariant markedDeleted == |rows| - |old(rows)|
        invariant affectedPairs == PairsOf(Tombstones(old(rows), closes, pubkeys[..done]))
      {
        var batchEnd := Min(done + CLOSE_TOMBSTONE_BATCH_SIZE, |pubkeys|);
        var batch, written, pairs := WriteBatch(closes, pubkeys, done, batchEnd, old(rows));
        rows := rows + batch;
        markedDeleted, affectedPairs := markedDeleted + written, affectedPairs + pairs;
        done := batchEnd;
      }
      assert pubkeys[..done] == pubkeys;
    }

    /** The delete versions of one batch, looked up in the table as it is before the batch. */
    method WriteBatch(closes: map<Pubkey, nat>, pubkeys: seq<Pubkey>, first: nat, end: nat, ghost before: seq<TokenRow>)
      returns (batch: seq<TokenRow>, written: nat, pairs: set<Pair>)
      requires Distinct(pubkeys) && (forall p <- pubkeys :: p in closes) && first <= end <= |pubkeys|
      requires rows == before + Tombstones(before, closes, pubkeys[..first])
      ensures before + Tombstones(before, closes, pubkeys[..end]) == rows + batch && written == |batch|
      ensures PairsOf(Tombstones(before, closes, pubkeys[..end]))
        == PairsOf(Tombstones(before, closes, pubkeys[..first])) + pairs
    {
      hide Newest, Tombstones;
      batch, written, pairs := [], 0, {};
      for k := first to end
        invariant Tombstones(before, closes, pubkeys[..k]) == Tombstones(before, closes, pubkeys[..first]) + batch
        invariant written == |batch| && pairs == PairsOf(batch)
      {
        var pubkey := pubkeys[k];
        var previous := Newest(rows, pubkey);
        LookupUnchanged(before, closes, pubkeys, first, k);
        TombstonesExtend(before, closes, pubkeys, k);
        if previous.None? || previous.value.isDeleted || previous.value.mint == "" || previous.value.owner == "" {
          continue;
        }
        if previous.value.updatedSlot >= closes[pubkey] {
          continue;
        }
        var pair := (previous.value.mint, previous.value.owner);
        pairs := pairs + {pair};
        batch := batch + [Tombstone(pubkey, pair, closes[pubkey])];
        written := written + 1;
      }
    }

    /** Insert the parsed rows in some order. */
    method InsertRows(tokens: multiset<TokenRow>) returns (ghost live: seq<TokenRow>)
      modifies this
      ensures multiset(live) == tokens && rows == old(rows) + live
    {
      var left := tokens;
      live := [];
      while left != multiset{}
        invariant left + multiset(live) == tokens && rows == old(rows) + live
        decreases |left|
      {
        var row :| row in left;
        left := left - multiset{row};
        rows := rows + [row];
        live := live + [row];
      }
    }
  }

  method Enumerate(closes: map<Pubkey, nat>) returns (pubkeys: seq<Pubkey>)
    ensures Distinct(pubkeys) && forall p :: p in pubkeys <==> p in closes
  {
    pubkeys := [];
    var left := closes.Keys;
    while left != {}
      invariant left <= closes.Keys && Distinct(pubkeys)
      invariant forall p :: p in pubkeys <==> p in closes.Keys - left
      decreases |left|
    {
      var p :| p in left;
      left := left - {p};
      assert forall i :: 0 <= i < |pubkeys| ==> pubkeys[i] in pubkeys;
      pubkeys := pubkeys + [p];
    }
  }

  method EnumeratePairs(affected: set<Pair>) returns (pairs: seq<Pair>)
    ensures Enumerates(pairs, affected)
  {
    pairs := [];
    var left := affected;
    while left != {}
      invariant left <= affected
      invariant forall pair :: pair in pairs <==> pair in affected - left
      decreases |left|
    {
      var pair :| pair in left;
      left := left - {pair};
      pairs := pairs + [pair];
    }
  }

  /** The whole import; its ghost results are the orders of insertion it happened to use. */
  method ImportIncremental(state: HotStateTable, balances: BalanceTable, cfg: Config, watermark: nat, stream: seq<AppendVec>)
    returns (affected: set<Pair>, ghost live: seq<TokenRow>, ghost order: seq<Pubkey>, ghost pairs: seq<Pair>)
    requires cfg.kind.Incremental?
    modifies state, balances
    ensures IsImport(cfg, Above(Some(watermark), stream), live, order)
    ensures state.rows == AfterImport(old(state.rows), live, ImportOf(cfg, Above(Some(watermark), stream)).closes, order)
    ensures affected == TouchedPairs(cfg, watermark, stream, old(state.rows), live, order) && Enumerates(pairs, affected)
    ensures balances.rows == old(balances.rows) + RefreshRows(state.rows, pairs, affected, cfg.snapshotSlot)
  {
    hide ImportOf, Above, Tombstones, PairsOf, Distinct, RefreshRows;
    var worker := new Worker(cfg);
    worker.InsertAll(Above(Some(watermark), stream));
    var o := worker.Result();
    live := state.InsertRows(o.rows.tokens);
    var pubkeys := Enumerate(o.closes);
    order := pubkeys;
    var marked, tombstonePairs := state.WriteCloseTombstones(o.closes, pubkeys);
    affected := o.pairs + tombstonePairs;
    var refreshed := EnumeratePairs(affected);
    pairs := refreshed;
    balances.RefreshIncremental(state.rows, refreshed, affected, cfg.snapshotSlot);
  }

  /** The pairs of the rows written, and of the accounts marked deleted. */
  function TouchedPairs(cfg: Config, watermark: nat, stream: seq<AppendVec>, rows: seq<TokenRow>, live: seq<TokenRow>, order: seq<Pubkey>): set<Pair>
    requires forall p <- order :: p in ImportOf(cfg, Above(Some(watermark), stream)).closes
  {
    var o := ImportOf(cfg, Above(Some(watermark), stream));
    o.pairs + PairsOf(Tombstones(rows + live, o.closes, order))
  }

  /** Every row an import adds belongs to a touched pair. */
  lemma AddedRowsAreTouched(cfg: Config, watermark: nat, stream: seq<AppendVec>, rows: seq<TokenRow>, live: seq<TokenRow>, order: seq<Pubkey>, r: TokenRow)
    requires cfg.kind.Incremental? && IsImport(cfg, Above(Some(watermark), stream), live, order)
    requires r in live + Tombstones(rows + live, ImportOf(cfg, Above(Some(watermark), stream)).closes, order)
    ensures (r.mint, r.owner) in TouchedPairs(cfg, watermark, stream, rows, live, order)
  {
    hide ImportOf, Above, Tombstones;
    var above := Above(Some(watermark), stream);
    if r in live {
      assert r in multiset(live);
      ImportTokens(cfg, above, r);
      ImportPairs(cfg, above, (r.mint, r.owner));
    }
  }

  /**
   After an uninterrupted import that started from agreement, the balances agree
   with the state table for every pair, touched or not, if and only if no pair
   whose stored balance is above the archive's slot has changed.
   */
  lemma ImportAgreesIff(l: Ledger, cfg: Config, base: nat, watermark: nat, end: nat, stream: seq<AppendVec>,
      rows: seq<TokenRow>, live: seq<TokenRow>, order: seq<Pubkey>, before: seq<BalanceRow>, pairs: seq<Pair>)
    requires Lifecycle(l) && cfg.kind.Incremental? && Sound(l, cfg.hot, rows) && IsIncremental(l, base, end, stream)
    requires IsImport(cfg, Above(Some(watermark), stream), live, order) && Agrees(before, rows)
    requires Enumerates(pairs, TouchedPairs(cfg, watermark, stream, rows, live, order))
    ensures var affected := TouchedPairs(cfg, watermark, stream, rows, live, order);
      var now := AfterImport(rows, live, ImportOf(cfg, Above(Some(watermark), stream)).closes, order);
      Agrees(before + RefreshRows(now, pairs, affected, cfg.snapshotSlot), now) <==> AheadUnchanged(before, rows, now, affected, cfg.snapshotSlot)
  {
    hide ImportOf, Above, Tombstones, RefreshRows, Lifecycle, IsIncremental, Sound, DeliversOnly, Agrees, AheadUnchanged, TouchedPairs;
    var closes := ImportOf(cfg, Above(Some(watermark), stream)).closes;
    var more := live + Tombstones(rows + live, closes, order);
    var now := AfterImport(rows, live, closes, order);
    assert now == rows + more;
    IncrementalIsFromLedger(l, base, end, stream);
    ImportDeliversOnly(l, cfg, watermark, end, stream, live, order);
    ImportSound(l, cfg.hot, watermark, end, rows, live, closes, order);
    SoundTablesKeepPairs(l, cfg.hot, now);
    forall r | r in more ensures (r.mint, r.owner) in TouchedPairs(cfg, watermark, stream, rows, live, order) {
      AddedRowsAreTouched(cfg, watermark, stream, rows, live, order, r);
    }
    RefreshAgreesIff(before, rows, more, pairs, TouchedPairs(cfg, watermark, stream, rows, live, order), cfg.snapshotSlot);
  }

  /** It does so whenever the archive does not end below the slots of the stored balances. */
  lemma HighImportRestoresBalances(l: Ledger, cfg: Config, base: nat, watermark: nat, end: nat, stream: seq<AppendVec>, top: nat,
      rows: seq<TokenRow>, live: seq<TokenRow>, order: seq<Pubkey>, before: seq<BalanceRow>, pairs: seq<Pair>)
    requires Lifecycle(l) && cfg.kind.Incremental? && Sound(l, cfg.hot, rows) && IsIncremental(l, base, end, stream)
    requires IsImport(cfg, Above(Some(watermark), stream), live, order) && Agrees(before, rows)
    requires Enumerates(pairs, TouchedPairs(cfg, watermark, stream, rows, live, order))
    requires SlotsUpTo(before, top) && top <= cfg.snapshotSlot
    ensures var affected := TouchedPairs(cfg, watermark, stream, rows, live, order);
      var now := AfterImport(rows, live, ImportOf(cfg, Above(Some(watermark), stream)).closes, order);
      Agrees(before + RefreshRows(now, pairs, affected, cfg.snapshotSlot), now)
  {
    hide ImportOf, Above, Tombstones, RefreshRows, Lifecycle, IsIncremental, Sound, Agrees, TouchedPairs, AfterImport, Ahead;
    var affected := TouchedPairs(cfg, watermark, stream, rows, live, order);
    forall pair | pair in affected ensures !Ahead(before, pair, cfg.snapshotSlot) {
      NoneAhead(before, pair, top, cfg.snapshotSlot);
    }
    ImportAgreesIff(l, cfg, base, watermark, end, stream, rows, live, order, before, pairs);
  }
}
