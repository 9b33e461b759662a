/**
 The derived balances: per (mint, owner) the sum over the newest live versions
 of the hot-state table. A full refresh recomputes all of them; an incremental
 one recomputes the touched pairs from the rows of those pairs alone.
 */
module WalletBalance {
  import opened Wrappers
  import opened ImportOutput
  import opened Ledgers
  import opened HotState
  import opened Versions

  // ------------------------------------------------ newest versions as a list

  function Without(rows: seq<TokenRow>, p: Pubkey): seq<TokenRow> {
    if rows == [] then [] else (if rows[0].pubkey == p then [] else [rows[0]]) + Without(rows[1..], p)
  }

  /** One more inserted row, on top of a FINAL read of the rows before it. */
  function Supersede(finals: seq<TokenRow>, r: TokenRow): seq<TokenRow> {
    if exists q <- finals :: q.pubkey == r.pubkey && q.updatedSlot > r.updatedSlot then finals
    else Without(finals, r.pubkey) + [r]
  }

  /** A FINAL read: of each pubkey the newest version, once. */
  function FinalRows(rows: seq<TokenRow>): seq<TokenRow>
    decreases |rows|
  {
    if rows == [] then [] else Supersede(FinalRows(rows[..|rows| - 1]), rows[|rows| - 1])
  }

  lemma {:induction false} WithoutElements(rows: seq<TokenRow>, p: Pubkey)
    ensures forall r :: r in Without(rows, p) <==> r in rows && r.pubkey != p
  {
    if rows != [] {
      WithoutElements(rows[1..], p);
    }
  }

  /** The list holds exactly what single-key reads return. */
  lemma {:induction false} FinalRowsAreNewest(rows: seq<TokenRow>, r: TokenRow)
    ensures r in FinalRows(rows) <==> Newest(rows, r.pubkey) == Some(r)
    decreases |rows|
  {
    if rows != [] {
      var before, last := rows[..|rows| - 1], rows[|rows| - 1];
      FinalRowsAreNewest(before, r);
      WithoutElements(FinalRows(before), last.pubkey);
      var q := Newest(before, last.pubkey);
      if q.Some? {
        FinalRowsAreNewest(before, q.value);
      }
      if s :| s in FinalRows(before) && s.pubkey == last.pubkey && s.updatedSlot > last.updatedSlot {
        FinalRowsAreNewest(before, s);
      }
    }
  }

  predicate OneRowEach(rows: seq<TokenRow>) {
    forall i, j :: 0 <= i < j < |rows| ==> rows[i].pubkey != rows[j].pubkey
  }

  lemma {:induction false} WithoutKeepsOneRowEach(rows: seq<TokenRow>, p: Pubkey)
    requires OneRowEach(rows)
    ensures OneRowEach(Without(rows, p))
  {
    if rows != [] {
      WithoutKeepsOneRowEach(rows[1..], p);
      WithoutElements(rows[1..], p);
      var rest := Without(rows[1..], p);
      forall j | 0 <= j < |rest| ensures rest[j].pubkey != rows[0].pubkey {
        assert rest[j] in rest;
      }
    }
  }

  lemma SupersedeKeepsOneRowEach(finals: seq<TokenRow>, r: TokenRow)
    requires OneRowEach(finals)
    ensures OneRowEach(Supersede(finals, r))
  {
    WithoutKeepsOneRowEach(finals, r.pubkey);
    var kept := Without(finals, r.pubkey);
    WithoutElements(finals, r.pubkey);
    forall j | 0 <= j < |kept| ensures kept[j].pubkey != r.pubkey {
      assert kept[j] in kept;
    }
  }

  /** A FINAL read returns each pubkey once. */
  lemma {:induction false} FinalRowsOnce(rows: seq<TokenRow>)
    ensures OneRowEach(FinalRows(rows))
    decreases |rows|
  {
    hide OneRowEach, Supersede;
    if rows != [] {
      FinalRowsOnce(rows[..|rows| - 1]);
      SupersedeKeepsOneRowEach(FinalRows(rows[..|rows| - 1]), rows[|rows| - 1]);
    } else {
      NoRowsOnce();
    }
  }

  lemma NoRowsOnce()
    ensures OneRowEach([])
  {
  }

  lemma SupersedeNew(finals: seq<TokenRow>, r: TokenRow)
    requires OneRowEach(finals + [r])
    ensures Supersede(finals, r) == finals + [r]
  {
    forall q | q in finals ensures q.pubkey != r.pubkey {
      var i :| 0 <= i < |finals| && finals[i] == q;
      assert (finals + [r])[i] == q && (finals + [r])[|finals|] == r;
    }
    WithoutAbsent(finals, r.pubkey);
  }

  lemma OneRowEachPrefix(rows: seq<TokenRow>, n: nat)
    requires OneRowEach(rows) && n <= |rows|
    ensures OneRowEach(rows[..n])
  {
  }

  /** A FINAL read returns a table without superseded versions as it is. */
  lemma {:induction false} FinalRowsOfOneRowEach(rows: seq<TokenRow>)
    requires OneRowEach(rows)
    ensures FinalRows(rows) == rows
    decreases |rows|
  {
    hide OneRowEach, Supersede;
    if rows != [] {
      var n := |rows| - 1;
      assert rows == rows[..n] + [rows[n]];
      OneRowEachPrefix(rows, n);
      FinalRowsOfOneRowEach(rows[..n]);
      SupersedeNew(rows[..n], rows[n]);
    }
  }

  // ------------------------------------------------------------- balances

  predicate Counts(r: TokenRow, pair: Pair) { (r.mint, r.owner) == pair && !r.isDeleted && r.state != 0 }

  function Sum(rows: seq<TokenRow>, pair: Pair): nat {
    if rows == [] then 0 else (if Counts(rows[0], pair) then rows[0].amount else 0) + Sum(rows[1..], pair)
  }

  /** The balance of a pair according to the hot-state table. */
  function Balance(rows: seq<TokenRow>, pair: Pair): nat { Sum(FinalRows(rows), pair) }

  /** The rows of the given pairs, in table order. */
  function OfPairs(rows: seq<TokenRow>, pairs: set<Pair>): seq<TokenRow>
    decreases |rows|
  {
    if rows == [] then []
    else
      var n := |rows| - 1;
      OfPairs(rows[..n], pairs) + if (rows[n].mint, rows[n].owner) in pairs then [rows[n]] else []
  }

  /** What the incremental refresh reads: newest versions among the rows of the touched pairs only. */
  function PairBalance(rows: seq<TokenRow>, pairs: set<Pair>, pair: Pair): nat { Balance(OfPairs(rows, pairs), pair) }

  /** All versions of a pubkey carry one pair. */
  predicate SamePairs(rows: seq<TokenRow>) {
    forall r, q :: r in rows && q in rows && r.pubkey == q.pubkey ==> (r.mint, r.owner) == (q.mint, q.owner)
  }

  lemma {:induction false} OfPairsConcat(xs: seq<TokenRow>, ys: seq<TokenRow>, pairs: set<Pair>)
    ensures OfPairs(xs + ys, pairs) == OfPairs(xs, pairs) + OfPairs(ys, pairs)
    decreases |ys|
  {
    if ys == [] {
      assert xs + ys == xs;
    } else {
      assert (xs + ys)[..|xs + ys| - 1] == xs + ys[..|ys| - 1];
      OfPairsConcat(xs, ys[..|ys| - 1], pairs);
    }
  }

  lemma {:induction false} OfPairsElements(rows: seq<TokenRow>, pairs: set<Pair>)
    ensures forall r :: r in OfPairs(rows, pairs) <==> r in rows && (r.mint, r.owner) in pairs
    decreases |rows|
  {
    if rows != [] {
      OfPairsElements(rows[..|rows| - 1], pairs);
    }
  }

  /** Leaving out one pubkey and keeping some pairs can be done in either order. */
  lemma {:induction false} WithoutOfPairs(rows: seq<TokenRow>, p: Pubkey, pairs: set<Pair>)
    ensures OfPairs(Without(rows, p), pairs) == Without(OfPairs(rows, pairs), p)
  {
    if rows != [] {
      var first, rest := [rows[0]], rows[1..];
      assert rows == first + rest;
      OfPairsConcat(first, rest, pairs);
      OfPairsOne(rows[0], pairs);
      WithoutOfPairs(rest, p, pairs);
      if rows[0].pubkey == p {
        assert Without(rows, p) == Without(rest, p);
        WithoutFront(rows[0], OfPairs(rest, pairs), p);
      } else {
        OfPairsConcat(first, Without(rest, p), pairs);
        WithoutFront(rows[0], OfPairs(rest, pairs), p);
      }
    }
  }

  lemma OfPairsOne(r: TokenRow, pairs: set<Pair>)
    ensures OfPairs([r], pairs) == if (r.mint, r.owner) in pairs then [r] else []
  {
    assert [r][..0] == [];
  }

  lemma WithoutFront(r: TokenRow, rows: seq<TokenRow>, p: Pubkey)
    ensures Without([] + rows, p) == Without(rows, p)
    ensures Without([r] + rows, p) == (if r.pubkey == p then [] else [r]) + Without(rows, p)
  {
    assert [] + rows == rows;
    assert ([r] + rows)[1..] == rows;
  }

  lemma {:induction false} WithoutAbsent(rows: seq<TokenRow>, p: Pubkey)
    requires forall r :: r in rows ==> r.pubkey != p
    ensures Without(rows, p) == rows
  {
    if rows != [] {
      WithoutAbsent(rows[1..], p);
      assert rows == [rows[0]] + rows[1..];
    }
  }

  lemma {:induction false} FinalRowsWithin(rows: seq<TokenRow>)
    ensures forall r :: r in FinalRows(rows) ==> r in rows
    decreases |rows|
  {
    if rows != [] {
      FinalRowsWithin(rows[..|rows| - 1]);
      WithoutElements(FinalRows(rows[..|rows| - 1]), rows[|rows| - 1].pubkey);
    }
  }

  lemma SupersedeOfPairs(finals: seq<TokenRow>, r: TokenRow, pairs: set<Pair>)
    requires SamePairs(finals + [r])
    ensures OfPairs(Supersede(finals, r), pairs)
      == if (r.mint, r.owner) in pairs then Supersede(OfPairs(finals, pairs), r) else OfPairs(finals, pairs)
  {
    hide OfPairs, Without;
    OfPairsElements(finals, pairs);
    OfPairsConcat(Without(finals, r.pubkey), [r], pairs);
    OfPairsOne(r, pairs);
    WithoutOfPairs(finals, r.pubkey, pairs);
    assert r in finals + [r] && forall q :: q in finals ==> q in finals + [r];
    if (r.mint, r.owner) !in pairs {
      WithoutAbsent(OfPairs(finals, pairs), r.pubkey);
      assert OfPairs(finals, pairs) + [] == OfPairs(finals, pairs);
    }
  }

  /** Selecting pairs before or after choosing newest versions is the same. */
  lemma {:induction false} FinalRowsOfPairs(rows: seq<TokenRow>, pairs: set<Pair>)
    requires SamePairs(rows)
    ensures FinalRows(OfPairs(rows, pairs)) == OfPairs(FinalRows(rows), pairs)
    decreases |rows|
  {
    hide Supersede, SamePairs;
    if rows != [] {
      var n := |rows| - 1;
      var before, last := rows[..n], rows[n];
      FinalRowsWithin(before);
      SamePairsWithin(rows, before);
      SamePairsWithin(rows, FinalRows(before) + [last]);
      FinalRowsOfPairs(before, pairs);
      SupersedeOfPairs(FinalRows(before), last, pairs);
      if (last.mint, last.owner) in pairs {
        assert (OfPairs(before, pairs) + [last])[..|OfPairs(before, pairs)|] == OfPairs(before, pairs);
      } else {
        assert OfPairs(before, pairs) + [] == OfPairs(before, pairs);
      }
    }
  }

  lemma SamePairsWithin(rows: seq<TokenRow>, some: seq<TokenRow>)
    requires SamePairs(rows) && forall r :: r in some ==> r in rows
    ensures SamePairs(some)
  {
  }

  lemma {:induction false} SumOfPairs(rows: seq<TokenRow>, pairs: set<Pair>, pair: Pair)
    requires pair in pairs
    ensures Sum(OfPairs(rows, pairs), pair) == Sum(rows, pair)
  {
    if rows != [] {
      assert rows == [rows[0]] + rows[1..];
      OfPairsConcat([rows[0]], rows[1..], pairs);
      OfPairsOne(rows[0], pairs);
      SumOfPairs(rows[1..], pairs, pair);
      if (rows[0].mint, rows[0].owner) in pairs {
        assert ([rows[0]] + OfPairs(rows[1..], pairs))[1..] == OfPairs(rows[1..], pairs);
      } else {
        assert [] + OfPairs(rows[1..], pairs) == OfPairs(rows[1..], pairs);
      }
    }
  }

  /** The pair-restricted aggregation is the aggregation over FINAL, for the pairs it selects. */
  lemma PairBalanceIsBalance(rows: seq<TokenRow>, pairs: set<Pair>, pair: Pair)
    requires SamePairs(rows) && pair in pairs
    ensures PairBalance(rows, pairs, pair) == Balance(rows, pair)
  {
    hide FinalRows, OfPairs, Sum;
    FinalRowsOfPairs(rows, pairs);
    SumOfPairs(FinalRows(rows), pairs, pair);
  }

  /** Without the lifecycle assumption this fails: a reassigned account still counts for its old pair. */
  lemma ReassignedAccountIsStale()
    ensures var first := TokenRow("p", "m", "a", 1, None, 0, 1, None, false, 1);
      var second := TokenRow("p", "m", "b", 1, None, 0, 1, None, false, 2);
      PairBalance([first, second], {("m", "a")}, ("m", "a")) == 1 && Balance([first, second], ("m", "a")) == 0
  {
    var first := TokenRow("p", "m", "a", 1, None, 0, 1, None, false, 1);
    var second := TokenRow("p", "m", "b", 1, None, 0, 1, None, false, 2);
    assert [first, second][..1] == [first] && [first][..0] == [];
    assert OfPairs([first], {("m", "a")}) == [first];
    assert OfPairs([first, second], {("m", "a")}) == [first];
    assert FinalRows([first]) == [first];
    assert Without([first], "p") == [];
    assert FinalRows([first, second]) == [second];
  }

  // --------------------------------------------------------- the balance table

  /** A pair with its amount, as of a slot. */
  type BalanceRow = Version<Pair, nat>

  function ReadBalance(rows: seq<BalanceRow>, pair: Pair): nat {
    match NewestVersion(rows, pair) { case None => 0 case Some(r) => r.value }
  }

  /** The derived table says what the hot-state table says, for every pair. */
  ghost predicate Agrees(balances: seq<BalanceRow>, rows: seq<TokenRow>) {
    forall pair :: ReadBalance(balances, pair) == Balance(rows, pair)
  }

  /** A full refresh: one row for every pair with a positive balance, and no other row. */
  ghost predicate IsRebuild(balances: seq<BalanceRow>, rows: seq<TokenRow>) {
    && (forall i :: 0 <= i < |balances| ==> balances[i].value == Balance(rows, balances[i].key) > 0)
    && (forall pair :: Balance(rows, pair) > 0 ==> exists i :: 0 <= i < |balances| && balances[i].key == pair)
  }

  /** Rebuilding agrees; a fresh baseline, which has one row of each pubkey, need not be read with FINAL for it. */
  lemma RebuildAgrees(balances: seq<BalanceRow>, rows: seq<TokenRow>)
    requires IsRebuild(balances, rows)
    ensures Agrees(balances, rows)
    ensures OneRowEach(rows) ==> forall pair :: Balance(rows, pair) == Sum(rows, pair)
  {
    hide FinalRows, Sum;
    if OneRowEach(rows) {
      FinalRowsOfOneRowEach(rows);
    }
    forall pair ensures ReadBalance(balances, pair) == Balance(rows, pair) {
      hide Balance;
      if i :| 0 <= i < |balances| && balances[i].key == pair {
        assert balances[i] in balances;
      }
    }
  }

  /** The rows an incremental refresh inserts; zeros are among them, so that they supersede older balances. */
  function RefreshRows(state: seq<TokenRow>, pairs: seq<Pair>, affected: set<Pair>, slot: nat): seq<BalanceRow>
    decreases |pairs|
  {
    if pairs == [] then []
    else
      var n := |pairs| - 1;
      RefreshRows(state, pairs[..n], affected, slot) + [Version(pairs[n], PairBalance(state, affected, pairs[n]), slot)]
  }

  class BalanceTable {
    var rows: seq<BalanceRow>

    /** Recompute the touched pairs, each at the slot of the archive. */
    method RefreshIncremental(state: seq<TokenRow>, pairs: seq<Pair>, affected: set<Pair>, snapshotSlot: nat)
      modifies this
      ensures rows == old(rows) + RefreshRows(state, pairs, affected, snapshotSlot)
    {
      hide PairBalance;
      var i := 0;
      while i < |pairs|
        invariant i <= |pairs|
        invariant rows == old(rows) + RefreshRows(state, pairs[..i], affected, snapshotSlot)
      {
        rows := rows + [Version(pairs[i], PairBalance(state, affected, pairs[i]), snapshotSlot)];
        assert pairs[..i + 1][..i] == pairs[..i];
        i := i + 1;
      }
      assert pairs[..i] == pairs;
    }
  }

  /** After a refresh a touched pair reads as recomputed, unless its stored balance has a higher slot. */
  lemma {:induction false} RefreshReads(rows: seq<BalanceRow>, state: seq<TokenRow>, pairs: seq<Pair>, affected: set<Pair>, slot: nat, pair: Pair)
    ensures var after := rows + RefreshRows(state, pairs, affected, slot);
      && (Ahead(after, pair, slot) <==> Ahead(rows, pair, slot))
      && ReadBalance(after, pair) ==
        if pair in pairs && !Ahead(rows, pair, slot) then PairBalance(state, affected, pair) else ReadBalance(rows, pair)
    decreases |pairs|
  {
    hide PairBalance, NewestVersion;
    if pairs == [] {
      assert rows + [] == rows;
    } else {
      var n := |pairs| - 1;
      RefreshReads(rows, state, pairs[..n], affected, slot, pair);
      var before := rows + RefreshRows(state, pairs[..n], affected, slot);
      var row := Version(pairs[n], PairBalance(state, affected, pairs[n]), slot);
      NewestSnoc(before, row, pair);
      assert rows + RefreshRows(state, pairs, affected, slot) == before + [row];
      assert pair in pairs <==> pair in pairs[..n] || pair == pairs[n];
    }
  }

  lemma NoElements<T(!new)>(s: seq<T>)
    ensures (forall x :: x !in s) ==> s == []
  {
    if s != [] {
      assert s[0] in s;
    }
  }

  /** Rows of other pairs do not change a balance. */
  lemma BalanceIgnores(rows: seq<TokenRow>, more: seq<TokenRow>, pair: Pair)
    requires SamePairs(rows + more) && forall r :: r in more ==> (r.mint, r.owner) != pair
    ensures Balance(rows + more, pair) == Balance(rows, pair)
  {
    hide FinalRows, Balance;
    SamePairsWithin(rows + more, rows);
    PairBalanceIsBalance(rows + more, {pair}, pair);
    PairBalanceIsBalance(rows, {pair}, pair);
    OfPairsConcat(rows, more, {pair});
    OfPairsElements(more, {pair});
    NoElements(OfPairs(more, {pair}));
    assert OfPairs(rows, {pair}) + [] == OfPairs(rows, {pair});
  }

  ghost predicate Enumerates(pairs: seq<Pair>, affected: set<Pair>) { forall pair :: pair in pairs <==> pair in affected }

  /** No pair with a stored balance above the slot changes its balance. */
  ghost predicate AheadUnchanged(before: seq<BalanceRow>, rows: seq<TokenRow>, now: seq<TokenRow>, affected: set<Pair>, slot: nat) {
    forall pair <- affected :: Ahead(before, pair, slot) ==> Balance(now, pair) == Balance(rows, pair)
  }

  /**
   Incremental refresh is a full one, exactly when it is not overtaken: if the
   balances agreed with the table before an import, then after refreshing the
   pairs of the rows it added they agree with it again, for every pair, if and
   only if no pair whose stored balance is above the archive's slot changed.
   */
  lemma RefreshAgreesIff(before: seq<BalanceRow>, rows: seq<TokenRow>, more: seq<TokenRow>, pairs: seq<Pair>, affected: set<Pair>, slot: nat)
    requires Agrees(before, rows) && SamePairs(rows + more) && Enumerates(pairs, affected)
    requires forall r :: r in more ==> (r.mint, r.owner) in affected
    ensures Agrees(before + RefreshRows(rows + more, pairs, affected, slot), rows + more)
      <==> AheadUnchanged(before, rows, rows + more, affected, slot)
  {
    hide Balance, PairBalance, ReadBalance, SamePairs, Ahead, RefreshRows;
    var after := before + RefreshRows(rows + more, pairs, affected, slot);
    forall pair
      ensures ReadBalance(after, pair) == Balance(rows + more, pair)
          <==> !(pair in affected && Ahead(before, pair, slot)) || Balance(rows + more, pair) == Balance(rows, pair) {
      RefreshReads(before, rows + more, pairs, affected, slot, pair);
      if pair in affected {
        PairBalanceIsBalance(rows + more, affected, pair);
      } else {
        BalanceIgnores(rows, more, pair);
      }
    }
  }

  /** In a table that stands for a ledger, versions keep their pair. */
  lemma SoundTablesKeepPairs(l: Ledger, hot: set<Pubkey>, rows: seq<TokenRow>)
    requires Lifecycle(l) && Sound(l, hot, rows)
    ensures SamePairs(rows)
  {
    hide TokenOf, IsClose, Sensible, LedgerRow;
    forall r, q | r in rows && q in rows && r.pubkey == q.pubkey ensures (r.mint, r.owner) == (q.mint, q.owner) {
      var s := RowHasToken(l, hot, r);
      var t := RowHasToken(l, hot, q);
      assert s < t ==> Follows(l[(r.pubkey, s)], l[(r.pubkey, t)]);
      assert t < s ==> Follows(l[(r.pubkey, t)], l[(r.pubkey, s)]);
    }
  }
}
