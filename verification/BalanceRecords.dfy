/**
 Of each pair, the state of the table its stored balance was computed from, and
 how that decides whether the balance is still right.
 */
module BalanceRecords {
  import opened Wrappers
  import opened ImportOutput
  import opened HotState
  import opened Versions
  import opened WalletBalance

  // ------------------------------------- a balance depends on newest versions

  function Weight(r: TokenRow, pair: Pair): nat { if Counts(r, pair) then r.amount else 0 }

  lemma {:induction false} SumConcat(xs: seq<TokenRow>, ys: seq<TokenRow>, pair: Pair)
    ensures Sum(xs + ys, pair) == Sum(xs, pair) + Sum(ys, pair)
  {
    if xs == [] {
      assert xs + ys == ys;
    } else {
      assert (xs + ys)[1..] == xs[1..] + ys;
      SumConcat(xs[1..], ys, pair);
    }
  }

  lemma SumWithout(ys: seq<TokenRow>, i: nat, pair: Pair)
    requires i < |ys|
    ensures Sum(ys, pair) == Weight(ys[i], pair) + Sum(ys[..i] + ys[i + 1..], pair)
  {
    var one := [ys[i]];
    assert ys == ys[..i] + (one + ys[i + 1..]);
    SumConcat(ys[..i], one + ys[i + 1..], pair);
    SumConcat(one, ys[i + 1..], pair);
    SumConcat(ys[..i], ys[i + 1..], pair);
    assert one[1..] == [];
  }

  lemma SumOne(xs: seq<TokenRow>, pair: Pair)
    requires xs != []
    ensures Sum(xs, pair) == Weight(xs[0], pair) + Sum(xs[1..], pair)
  {
  }

  lemma {:induction false} SumZero(ys: seq<TokenRow>, pair: Pair)
    ensures Sum(ys, pair) == 0 <==> forall r <- ys :: Weight(r, pair) == 0
  {
    hide Weight;
    if ys != [] {
      SumOne(ys, pair);
      SumZero(ys[1..], pair);
      assert forall r :: r in ys <==> r == ys[0] || r in ys[1..];
    }
  }

  predicate AllDistinct(rows: seq<TokenRow>) { forall i, j :: 0 <= i < j < |rows| ==> rows[i] != rows[j] }

  lemma DistinctWithout(ys: seq<TokenRow>, i: nat)
    requires AllDistinct(ys) && i < |ys|
    ensures AllDistinct(ys[..i] + ys[i + 1..])
    ensures forall r :: r in ys[..i] + ys[i + 1..] <==> r in ys && r != ys[i]
  {
    var rest := ys[..i] + ys[i + 1..];
    forall r | r in ys && r != ys[i] ensures r in rest {
      var k :| 0 <= k < |ys| && ys[k] == r;
      assert r == rest[if k < i then k else k - 1];
    }
  }

  /** A list whose weighty rows are all in another sums up to less, and to the same exactly if it has all of the other's. */
  lemma {:induction false} SumWithin(xs: seq<TokenRow>, ys: seq<TokenRow>, pair: Pair)
    requires AllDistinct(xs) && AllDistinct(ys) && forall r <- xs :: Weight(r, pair) > 0 ==> r in ys
    ensures Sum(xs, pair) <= Sum(ys, pair)
    ensures Sum(xs, pair) == Sum(ys, pair) <==> forall r <- ys :: Weight(r, pair) > 0 ==> r in xs
    decreases |xs|
  {
    hide Weight;
    if xs == [] {
      SumZero(ys, pair);
    } else if Weight(xs[0], pair) == 0 {
      SumOne(xs, pair);
      SumWithin(xs[1..], ys, pair);
      assert forall r :: r in xs <==> r == xs[0] || r in xs[1..];
    } else {
      var i :| 0 <= i < |ys| && ys[i] == xs[0];
      var rest := ys[..i] + ys[i + 1..];
      SumOne(xs, pair);
      SumWithout(ys, i, pair);
      DistinctWithout(ys, i);
      assert xs[0] !in xs[1..];
      assert forall r :: r in xs <==> r == xs[0] || r in xs[1..];
      SumWithin(xs[1..], rest, pair);
    }
  }

  lemma FinalRowsDistinct(rows: seq<TokenRow>)
    ensures AllDistinct(FinalRows(rows))
  {
    hide FinalRows;
    FinalRowsOnce(rows);
  }

  /** What counts in one table and is newest in the other too. */
  lemma BalanceWithin(now: seq<TokenRow>, rows: seq<TokenRow>, pair: Pair)
    requires forall p :: OfPair(Newest(now, p), pair) && Weight(Newest(now, p).value, pair) > 0 ==> Newest(rows, p) == Newest(now, p)
    ensures Balance(now, pair) <= Balance(rows, pair)
    ensures Balance(now, pair) == Balance(rows, pair) <==>
      forall p :: OfPair(Newest(rows, p), pair) && Weight(Newest(rows, p).value, pair) > 0 ==> Newest(now, p) == Newest(rows, p)
  {
    hide FinalRows, Newest, Sum;
    var xs, ys := FinalRows(now), FinalRows(rows);
    FinalRowsDistinct(now);
    FinalRowsDistinct(rows);
    forall r ensures (r in xs <==> Newest(now, r.pubkey) == Some(r)) && (r in ys <==> Newest(rows, r.pubkey) == Some(r)) {
      FinalRowsAreNewest(now, r);
      FinalRowsAreNewest(rows, r);
    }
    SumWithin(xs, ys, pair);
    forall p | OfPair(Newest(rows, p), pair) ensures Newest(rows, p).value in ys {
      assert Newest(rows, Newest(rows, p).value.pubkey) == Newest(rows, p);
    }
  }

  predicate OfPair(r: Option<TokenRow>, pair: Pair) { r.Some? && (r.value.mint, r.value.owner) == pair }

  /** The newest versions of the accounts of a pair are the same in both tables. */
  ghost predicate SameNewest(rows: seq<TokenRow>, now: seq<TokenRow>, pair: Pair) {
    forall p :: Newest(now, p) == Newest(rows, p) || (!OfPair(Newest(now, p), pair) && !OfPair(Newest(rows, p), pair))
  }

  /** A balance is determined by the newest versions of its accounts. */
  lemma BalanceByNewest(rows: seq<TokenRow>, now: seq<TokenRow>, pair: Pair)
    requires SameNewest(rows, now, pair)
    ensures Balance(now, pair) == Balance(rows, pair)
  {
    hide Balance, Newest, Weight;
    BalanceWithin(now, rows, pair);
  }

  /** Later versions leave a read alone or become it. */
  lemma {:induction false} NewestWithMore(rows: seq<TokenRow>, more: seq<TokenRow>, p: Pubkey)
    ensures Newest(rows + more, p) == Newest(rows, p) || (Newest(rows + more, p).Some? && Newest(rows + more, p).value in more)
    ensures Newest(rows, p).Some? ==> Newest(rows + more, p).Some? && Newest(rows, p).value.updatedSlot <= Newest(rows + more, p).value.updatedSlot
    decreases |more|
  {
    if more == [] {
      assert rows + more == rows;
    } else {
      var n := |more| - 1;
      NewestWithMore(rows, more[..n], p);
      assert (rows + more)[..|rows + more| - 1] == rows + more[..n];
      assert more == more[..n] + [more[n]];
    }
  }

  // ------------------------------------------ what became of a pair since then

  /** Since the table had `n` rows, the account of the pair has got a new live version. */
  ghost predicate ChangedLive(rows: seq<TokenRow>, n: nat, pair: Pair, p: Pubkey) {
    && n <= |rows| && OfPair(Newest(rows, p), pair) && !Newest(rows, p).value.isDeleted
    && Newest(rows[..n], p) != Newest(rows, p)
  }

  /** Since then, an account that counted with a positive amount has been marked deleted. */
  ghost predicate DeletedSince(rows: seq<TokenRow>, n: nat, pair: Pair, p: Pubkey) {
    && n <= |rows| && Newest(rows[..n], p).Some? && Weight(Newest(rows[..n], p).value, pair) > 0
    && Newest(rows, p).Some? && Newest(rows, p).value.isDeleted
  }

  ghost predicate Changed(rows: seq<TokenRow>, n: nat, pair: Pair) { exists p :: ChangedLive(rows, n, pair, p) }

  ghost predicate Stale(rows: seq<TokenRow>, n: nat, pair: Pair) { exists p :: DeletedSince(rows, n, pair, p) }

  /**
   When no account of a pair has got a new live version since its balance was
   computed, the balance is still right if and only if none that counted then
   with a positive amount has been marked deleted.
   */
  lemma ComputedIsRightIff(rows: seq<TokenRow>, n: nat, pair: Pair)
    requires SamePairs(rows) && n <= |rows| && !Changed(rows, n, pair)
    ensures Balance(rows[..n], pair) == Balance(rows, pair) <==> !Stale(rows, n, pair)
  {
    hide Balance, Newest;
    var earlier := rows[..n];
    forall p ensures Newest(rows, p) == Newest(earlier, p) || (OfPair(Newest(rows, p), pair) ==> Newest(rows, p).value.isDeleted)
      ensures Newest(earlier, p).Some? ==> Newest(rows, p).Some? && (OfPair(Newest(earlier, p), pair) ==> OfPair(Newest(rows, p), pair)) {
      assert !ChangedLive(rows, n, pair, p);
      assert rows == earlier + rows[n..];
      NewestWithMore(earlier, rows[n..], p);
      if Newest(earlier, p).Some? {
        assert Newest(earlier, p).value in rows && Newest(rows, p).value in rows;
      }
    }
    BalanceWithin(rows, earlier, pair);
    forall p ensures DeletedSince(rows, n, pair, p) <==>
        OfPair(Newest(earlier, p), pair) && Weight(Newest(earlier, p).value, pair) > 0 && Newest(rows, p) != Newest(earlier, p) {
    }
  }

  // ------------------------------------------------------------- the record

  /**
   Of each pair, how long the state table was when the stored balance of the
   pair was computed from it (`base` for a pair not computed since), and the
   pairs that a completed import left on an older computation.
   */
  datatype Track = Track(base: nat, last: map<Pair, nat>, behind: set<Pair>) {
    function At(pair: Pair): nat { if pair in last then last[pair] else base }
  }

  function Rebuilt(rows: seq<TokenRow>): Track { Track(|rows|, map[], {}) }

  /** The pairs whose inserted balances will be read: no stored one is ahead of the slot. */
  function Effective(balances: seq<BalanceRow>, pairs: seq<Pair>, slot: nat): set<Pair> {
    set pair | pair in pairs && !Ahead(balances, pair, slot)
  }

  function Computed(t: Track, refreshed: set<Pair>, n: nat): Track {
    Track(t.base, t.last + map pair | pair in refreshed :: n, t.behind - refreshed)
  }

  /** After a completed import: what it touched, or should have, and did not bring up to date is behind. */
  function Completed(t: Track, touched: set<Pair>, refreshed: set<Pair>, n: nat): Track {
    Computed(t.(behind := t.behind + touched), refreshed, n)
  }

  /** Every stored balance is the one computed from the state recorded for its pair. */
  ghost predicate Recorded(balances: seq<BalanceRow>, rows: seq<TokenRow>, t: Track) {
    forall pair :: t.At(pair) <= |rows| && ReadBalance(balances, pair) == Balance(rows[..t.At(pair)], pair)
  }

  /** A later live version of an account of a pair that is not behind is above the watermark: it will be delivered again. */
  ghost predicate Followed(rows: seq<TokenRow>, t: Track, watermark: nat) {
    forall pair, p :: pair !in t.behind && ChangedLive(rows, t.At(pair), pair, p) ==> Newest(rows, p).value.updatedSlot > watermark
  }

  ghost predicate Tracked(balances: seq<BalanceRow>, rows: seq<TokenRow>, t: Track, watermark: nat) {
    Recorded(balances, rows, t) && Followed(rows, t, watermark)
  }

  /** What the record says of a pair: unless a live version is still to be followed, right exactly if it is not stale. */
  ghost predicate Decided(balances: seq<BalanceRow>, rows: seq<TokenRow>, t: Track, pair: Pair) {
    && t.At(pair) <= |rows|
    && (!Changed(rows, t.At(pair), pair) ==> (ReadBalance(balances, pair) == Balance(rows, pair) <==> !Stale(rows, t.At(pair), pair)))
  }

  lemma RecordDecides(balances: seq<BalanceRow>, rows: seq<TokenRow>, t: Track, pair: Pair)
    requires SamePairs(rows) && Recorded(balances, rows, t)
    ensures Decided(balances, rows, t, pair)
  {
    hide SamePairs, Changed, Stale, Balance, ReadBalance;
    if !Changed(rows, t.At(pair), pair) {
      ComputedIsRightIff(rows, t.At(pair), pair);
    }
  }

  /** With no pair behind and no row above the watermark, nothing is still to be followed. */
  lemma CaughtUp(rows: seq<TokenRow>, t: Track, watermark: nat, pair: Pair)
    requires Followed(rows, t, watermark) && pair !in t.behind && Below(rows, watermark)
    ensures !Changed(rows, t.At(pair), pair)
  {
    hide Newest;
    if p :| ChangedLive(rows, t.At(pair), pair, p) {
      NewestIsRow(rows, p);
      assert false;
    }
  }

  lemma NewestIsRow(rows: seq<TokenRow>, p: Pubkey)
    ensures Newest(rows, p).Some? ==> Newest(rows, p).value in rows && Newest(rows, p).value.pubkey == p
  {
  }

  lemma FollowedBelow(rows: seq<TokenRow>, t: Track, low: nat, high: nat)
    requires Followed(rows, t, high) && low <= high
    ensures Followed(rows, t, low)
  {
    hide ChangedLive, Newest;
  }

  /** A balance table that agrees starts a record. */
  lemma AgreementIsTracked(balances: seq<BalanceRow>, rows: seq<TokenRow>, watermark: nat)
    requires Agrees(balances, rows)
    ensures Tracked(balances, rows, Rebuilt(rows), watermark)
  {
    hide Balance, ReadBalance;
    assert rows[..|rows|] == rows;
  }

  // ------------------------------------------------------ refreshing some pairs

  /** Whatever pairs are refreshed, the balances stay the recorded computations. */
  lemma RefreshKeepsRecord(balances: seq<BalanceRow>, rows: seq<TokenRow>, more: seq<TokenRow>, t: Track, pairs: seq<Pair>, affected: set<Pair>, slot: nat)
    requires Recorded(balances, rows, t) && SamePairs(rows + more) && forall pair <- pairs :: pair in affected
    ensures var now := rows + more;
      Recorded(balances + RefreshRows(now, pairs, affected, slot), now, Computed(t, Effective(balances, pairs, slot), |now|))
  {
    hide Balance, PairBalance, ReadBalance, SamePairs, Ahead, RefreshRows;
    var now := rows + more;
    var after, c := balances + RefreshRows(now, pairs, affected, slot), Computed(t, Effective(balances, pairs, slot), |now|);
    forall pair ensures c.At(pair) <= |now| && ReadBalance(after, pair) == Balance(now[..c.At(pair)], pair) {
      RefreshReads(balances, now, pairs, affected, slot, pair);
      if pair in Effective(balances, pairs, slot) {
        PairBalanceIsBalance(now, affected, pair);
        assert now[..|now|] == now;
      } else {
        assert now[..t.At(pair)] == rows[..t.At(pair)];
      }
    }
  }

  /** A live change since the computation: made since then by the new rows, or known before. */
  lemma ChangedByMore(rows: seq<TokenRow>, more: seq<TokenRow>, n: nat, pair: Pair, p: Pubkey)
    requires n <= |rows| && ChangedLive(rows + more, n, pair, p)
    ensures Newest(rows + more, p).value in more || (Newest(rows + more, p) == Newest(rows, p) && ChangedLive(rows, n, pair, p))
  {
    hide Newest;
    NewestWithMore(rows, more, p);
    assert (rows + more)[..n] == rows[..n];
  }

  lemma NotChangedYet(rows: seq<TokenRow>, pair: Pair, p: Pubkey)
    ensures !ChangedLive(rows, |rows|, pair, p)
  {
    assert rows[..|rows|] == rows;
  }

  /** Rows above the watermark, of which any pairs have been followed: an import cut off anywhere. */
  lemma CutKeepsFollowed(rows: seq<TokenRow>, more: seq<TokenRow>, t: Track, refreshed: set<Pair>, watermark: nat)
    requires Followed(rows, t, watermark) && forall pair :: t.At(pair) <= |rows|
    requires forall r <- more :: r.updatedSlot > watermark
    ensures Followed(rows + more, Computed(t, refreshed, |rows + more|), watermark)
  {
    hide Newest;
    var now, c := rows + more, Computed(t, refreshed, |rows + more|);
    forall pair, p | pair !in c.behind && ChangedLive(now, c.At(pair), pair, p) ensures Newest(now, p).value.updatedSlot > watermark {
      if pair in refreshed {
        NotChangedYet(now, pair, p);
        assert false;
      } else {
        ChangedByMore(rows, more, t.At(pair), pair, p);
      }
    }
  }

  /** A live account that has changed above the watermark and within `end`. */
  ghost predicate DueAt(rows: seq<TokenRow>, watermark: nat, end: nat, pair: Pair, p: Pubkey) {
    var n := Newest(rows, p);
    OfPair(n, pair) && !n.value.isDeleted && watermark < n.value.updatedSlot <= end
  }

  /** A completed import that touches all that was due, and all it adds. */
  lemma CompletionKeepsFollowed(rows: seq<TokenRow>, more: seq<TokenRow>, t: Track, touched: set<Pair>, refreshed: set<Pair>, watermark: nat, end: nat)
    requires Followed(rows, t, watermark) && forall pair :: t.At(pair) <= |rows|
    requires forall r <- more :: (r.mint, r.owner) in touched
    requires forall pair, p :: DueAt(rows, watermark, end, pair, p) && ChangedLive(rows, t.At(pair), pair, p) ==> pair in touched
    ensures Followed(rows + more, Completed(t, touched, refreshed, |rows + more|), end)
  {
    hide Newest;
    var now, c := rows + more, Completed(t, touched, refreshed, |rows + more|);
    forall pair, p | pair !in c.behind && ChangedLive(now, c.At(pair), pair, p) ensures Newest(now, p).value.updatedSlot > end {
      if pair in refreshed {
        NotChangedYet(now, pair, p);
        assert false;
      } else {
        ChangedByMore(rows, more, t.At(pair), pair, p);
        assert Newest(now, p).value !in more;
        assert !DueAt(rows, watermark, end, pair, p);
      }
    }
  }

  lemma {:induction false} RefreshSlots(balances: seq<BalanceRow>, state: seq<TokenRow>, pairs: seq<Pair>, affected: set<Pair>, slot: nat)
    requires SlotsUpTo(balances, slot)
    ensures SlotsUpTo(balances + RefreshRows(state, pairs, affected, slot), slot)
    decreases |pairs|
  {
    hide PairBalance;
    if pairs == [] {
      assert balances + [] == balances;
    } else {
      var n := |pairs| - 1;
      RefreshSlots(balances, state, pairs[..n], affected, slot);
      var before := balances + RefreshRows(state, pairs[..n], affected, slot);
      assert balances + RefreshRows(state, pairs, affected, slot) == before + [Version(pairs[n], PairBalance(state, affected, pairs[n]), slot)];
    }
  }

  lemma NoneIsAhead(balances: seq<BalanceRow>, pairs: seq<Pair>, top: nat, slot: nat)
    requires SlotsUpTo(balances, top) && top <= slot
    ensures forall pair :: pair in Effective(balances, pairs, slot) <==> pair in pairs
  {
    hide SlotsUpTo, Ahead;
    forall pair ensures !Ahead(balances, pair, slot) {
      NoneAhead(balances, pair, top, slot);
    }
  }

  lemma NotDeletedYet(rows: seq<TokenRow>, pair: Pair, p: Pubkey)
    ensures !DeletedSince(rows, |rows|, pair, p)
  {
    assert rows[..|rows|] == rows;
  }

  /** Rows of other pairs delete nothing of this one. */
  lemma OthersDeleteNothing(rows: seq<TokenRow>, more: seq<TokenRow>, n: nat, pair: Pair, p: Pubkey)
    requires SamePairs(rows + more) && n <= |rows| && forall r <- more :: (r.mint, r.owner) != pair
    ensures DeletedSince(rows + more, n, pair, p) <==> DeletedSince(rows, n, pair, p)
  {
    hide Newest;
    NewestWithMore(rows, more, p);
    assert (rows + more)[..n] == rows[..n];
    NewestIsRow(rows[..n], p);
    NewestIsRow(rows, p);
    if Newest(rows[..n], p).Some? && Newest(rows + more, p) != Newest(rows, p) {
      assert Newest(rows[..n], p).value in rows + more && Newest(rows + more, p).value in rows + more;
    }
  }
}
