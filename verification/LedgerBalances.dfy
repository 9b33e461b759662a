/**
 What the tables say of the ledger: the columns of an account read from an exact
 table, and a balance as the sum of the amounts the ledger records.
 */
module LedgerBalances {
  import opened Wrappers
  import opened ImportOutput
  import opened Accounts
  import opened Ledgers
  import opened HotState
  import opened WalletBalance
  import opened BalanceRecords

  // ---------------------------------------------------------- one account

  /** The token account that the last record of `p` at `top` holds, if its mint is hot. */
  function LastHolding(l: Ledger, hot: set<Pubkey>, p: Pubkey, top: nat): Option<TokenState> {
    match Latest(l, p, top)
    case None => None
    case Some(s) =>
      match TokenOf(l[(p, s)])
      case None => None
      case Some(t) => if t.mint in hot then Some(t) else None
  }

  /** An exact table shows an account if its last holding is not empty, with the columns of that holding and its slot. */
  lemma ExactShows(l: Ledger, hot: set<Pubkey>, rows: seq<TokenRow>, top: nat, p: Pubkey)
    requires Lifecycle(l) && Exact(l, hot, rows, top)
    ensures var shown, held := View(rows, p), LastHolding(l, hot, p, top);
      && (shown.Some? <==> held.Some? && held.value.amount > 0)
      && (shown.Some? ==> TokenColumns(shown.value, p, held.value, Latest(l, p, top).value))
  {
    hide TokenOf, Latest, Newest, Sensible;
  }

  // ------------------------------------------------------------- balances

  /** What an account holds for a pair, frozen or not. */
  function Held(l: Ledger, hot: set<Pubkey>, pair: Pair, top: nat, p: Pubkey): nat {
    match LastHolding(l, hot, p, top)
    case None => 0
    case Some(t) => if (t.mint, t.owner) == pair then t.amount else 0
  }

  /** The sum over some pubkeys. */
  ghost function HeldBy(l: Ledger, hot: set<Pubkey>, pair: Pair, top: nat, ps: set<Pubkey>): nat {
    if ps == {} then 0
    else
      var p :| p in ps;
      Held(l, hot, pair, top, p) + HeldBy(l, hot, pair, top, ps - {p})
  }

  /** The balance of a pair in the ledger at a slot: the sum over all pubkeys it has a record of. */
  ghost function LedgerBalance(l: Ledger, hot: set<Pubkey>, pair: Pair, top: nat): nat {
    HeldBy(l, hot, pair, top, set k | k in l :: k.0)
  }

  /** The sum does not depend on the order. */
  lemma {:induction false} HeldByAny(l: Ledger, hot: set<Pubkey>, pair: Pair, top: nat, ps: set<Pubkey>, p: Pubkey)
    requires p in ps
    ensures HeldBy(l, hot, pair, top, ps) == Held(l, hot, pair, top, p) + HeldBy(l, hot, pair, top, ps - {p})
    decreases ps
  {
    hide Held;
    var q :| q in ps && HeldBy(l, hot, pair, top, ps) == Held(l, hot, pair, top, q) + HeldBy(l, hot, pair, top, ps - {q});
    if q != p {
      HeldByAny(l, hot, pair, top, ps - {q}, p);
      HeldByAny(l, hot, pair, top, ps - {p}, q);
      assert ps - {q} - {p} == ps - {p} - {q};
    }
  }

  lemma {:induction false} NothingHeld(l: Ledger, hot: set<Pubkey>, pair: Pair, top: nat, ps: set<Pubkey>)
    requires forall p <- ps :: Held(l, hot, pair, top, p) == 0
    ensures HeldBy(l, hot, pair, top, ps) == 0
    decreases ps
  {
    hide Held;
    if ps != {} {
      var p :| p in ps;
      HeldByAny(l, hot, pair, top, ps, p);
      NothingHeld(l, hot, pair, top, ps - {p});
    }
  }

  /** Rows that weigh what their accounts hold, one of each account that holds something, add up to what is held. */
  lemma {:induction false} WeightsAddUp(l: Ledger, hot: set<Pubkey>, pair: Pair, top: nat, rows: seq<TokenRow>, ps: set<Pubkey>)
    requires OneRowEach(rows)
    requires forall r <- rows :: Weight(r, pair) == Held(l, hot, pair, top, r.pubkey) && (Weight(r, pair) > 0 ==> r.pubkey in ps)
    requires forall p <- ps :: Held(l, hot, pair, top, p) > 0 ==> exists r <- rows :: r.pubkey == p
    ensures Sum(rows, pair) == HeldBy(l, hot, pair, top, ps)
    decreases |rows|
  {
    hide Weight, Held;
    if rows == [] {
      NothingHeld(l, hot, pair, top, ps);
    } else {
      var r, rest := rows[0], rows[1..];
      assert forall q :: q in rows <==> q == r || q in rest;
      forall q | q in rest ensures q.pubkey != r.pubkey {
        var i :| 0 <= i < |rest| && rest[i] == q;
        assert rows[i + 1] == q;
      }
      assert OneRowEach(rest);
      SumOne(rows, pair);
      if r.pubkey in ps {
        HeldByAny(l, hot, pair, top, ps, r.pubkey);
      } else {
        assert ps - {r.pubkey} == ps;
      }
      WeightsAddUp(l, hot, pair, top, rest, ps - {r.pubkey});
    }
  }

  /** In an exact table the newest version of an account weighs what the ledger says it holds. */
  lemma NewestWeighs(l: Ledger, hot: set<Pubkey>, rows: seq<TokenRow>, top: nat, pair: Pair, p: Pubkey)
    requires Lifecycle(l) && Exact(l, hot, rows, top)
    ensures (if Newest(rows, p).Some? then Weight(Newest(rows, p).value, pair) else 0) == Held(l, hot, pair, top, p)
    ensures Held(l, hot, pair, top, p) > 0 ==> exists k <- l :: k.0 == p
  {
    hide TokenOf, Latest, Newest;
    ExactShows(l, hot, rows, top, p);
    var held := LastHolding(l, hot, p, top);
    if held.Some? {
      var k := (p, Latest(l, p, top).value);
      assert k in l && Sensible(l[k]);
    }
  }

  /**
   What a balance is: in a table that is exact for a ledger, the balance of a pair
   is the sum of the amounts of all accounts whose last record is a token account
   of that pair with a hot mint, frozen ones included.
   */
  lemma BalanceIsLedgerBalance(l: Ledger, hot: set<Pubkey>, rows: seq<TokenRow>, top: nat, pair: Pair)
    requires Lifecycle(l) && Exact(l, hot, rows, top)
    ensures Balance(rows, pair) == LedgerBalance(l, hot, pair, top)
  {
    hide FinalRows, Sum, Weight, Held, Newest, Exact, Lifecycle;
    var finals, ps := FinalRows(rows), set k | k in l :: k.0;
    FinalRowsOnce(rows);
    forall r | r in finals ensures Weight(r, pair) == Held(l, hot, pair, top, r.pubkey) && (Weight(r, pair) > 0 ==> r.pubkey in ps) {
      FinalRowsAreNewest(rows, r);
      NewestWeighs(l, hot, rows, top, pair, r.pubkey);
    }
    forall p | p in ps && Held(l, hot, pair, top, p) > 0 ensures exists r <- finals :: r.pubkey == p {
      NewestWeighs(l, hot, rows, top, pair, p);
      NewestIsRow(rows, p);
      FinalRowsAreNewest(rows, Newest(rows, p).value);
    }
    WeightsAddUp(l, hot, pair, top, finals, ps);
  }

  /** So a balance table agrees with an exact table if and only if it says what the ledger says, for every pair. */
  lemma AgreesWithLedgerIff(l: Ledger, hot: set<Pubkey>, balances: seq<BalanceRow>, rows: seq<TokenRow>, top: nat)
    requires Lifecycle(l) && Exact(l, hot, rows, top)
    ensures Agrees(balances, rows) <==> forall pair :: ReadBalance(balances, pair) == LedgerBalance(l, hot, pair, top)
  {
    hide Balance, ReadBalance, LedgerBalance, Lifecycle, Exact;
    forall pair ensures Balance(rows, pair) == LedgerBalance(l, hot, pair, top) {
      BalanceIsLedgerBalance(l, hot, rows, top, pair);
    }
  }

  /** Both aggregations compute it: the full rebuild, and the incremental one for any touched pair. */
  lemma AggregationsAreLedgerBalances(l: Ledger, hot: set<Pubkey>, rows: seq<TokenRow>, top: nat, affected: set<Pair>, pair: Pair, rebuilt: seq<BalanceRow>)
    requires Lifecycle(l) && Sound(l, hot, rows) && Exact(l, hot, rows, top)
    ensures pair in affected ==> PairBalance(rows, affected, pair) == LedgerBalance(l, hot, pair, top)
    ensures IsRebuild(rebuilt, rows) ==> ReadBalance(rebuilt, pair) == LedgerBalance(l, hot, pair, top)
  {
    hide Balance, PairBalance, ReadBalance, LedgerBalance, Lifecycle, Exact, Sound, SamePairs, IsRebuild;
    BalanceIsLedgerBalance(l, hot, rows, top, pair);
    SoundTablesKeepPairs(l, hot, rows);
    if pair in affected {
      PairBalanceIsBalance(rows, affected, pair);
    }
    if IsRebuild(rebuilt, rows) {
      RebuildAgrees(rebuilt, rows);
    }
  }
}
