/**
 Two short histories on concrete ledgers and archives after which a balance is
 wrong: an import that is cut off and repeated, and one that is overtaken.
 */
module BalanceExamples {
  import opened Wrappers
  import opened ImportOutput
  import opened Accounts
  import opened Ledgers
  import opened ImportedRows
  import opened HotState
  import opened Versions
  import opened WalletBalance
  import opened IncrementalImport
  import opened BalanceRecords
  import opened BalanceAgreement

  const HOT: set<Pubkey> := {"m"}
  const PAIR: Pair := ("m", "o")

  function Holding(p: Pubkey, amount: nat): Account {
    Account(p, SPL_TOKEN_ID, 1, SPL_ACCOUNT_LEN, false, Decoded(Some(TokenState("m", "o", amount, None, 0, 1, None)), None, NoBase, None, None, None))
  }

  /** The record a closed account leaves. */
  function Gone(p: Pubkey): Account { Account(p, DEFAULT_PUBKEY, 0, 0, false, Decoded(None, None, NoBase, None, None, None)) }

  /** A storage file with one account. */
  function FileOf(slot: nat, a: Account): AppendVec { AppendVec(slot, 304, [a]) }

  function HoldingRow(p: Pubkey, amount: nat, slot: nat): TokenRow { TokenRow(p, "m", "o", amount, None, 0, 1, None, false, slot) }

  function DeltaOf(slot: nat): Config { Config(Incremental, slot, HOT, true) }

  lemma AccountFacts(p: Pubkey, amount: nat, slot: nat, end: nat)
    ensures TokenOf(Holding(p, amount)) == Some(TokenState("m", "o", amount, None, 0, 1, None)) && !IsClose(Holding(p, amount)) && Sensible(Holding(p, amount))
    ensures TokenOf(Gone(p)).None? && IsClose(Gone(p)) && Sensible(Gone(p))
    ensures LiveRows(DeltaOf(end), Holding(p, amount), slot) == [HoldingRow(p, amount, slot)] && LiveRows(DeltaOf(end), Gone(p), slot) == []
  {
    assert SPL_TOKEN_ID != TOKEN_2022_ID by { ProgramsDiffer(); }
    assert DEFAULT_PUBKEY[0] == '1' && SPL_TOKEN_ID[0] == 'T' && TOKEN_2022_ID[0] == 'T';
  }

  lemma FileRowsOf(cfg: Config, slot: nat, a: Account)
    ensures FileRows(cfg, [a], slot) == LiveRows(cfg, a, slot)
  {
    assert [a][..0] == [];
  }

  lemma HoldsOne(slot: nat, b: Account)
    ensures forall s: nat, a :: Holds([FileOf(slot, b)], s, a) <==> s == slot && a == b
  {
    assert FileOf(slot, b) in [FileOf(slot, b)] && b in FileOf(slot, b).accounts;
  }

  lemma HoldsTwo(slot: nat, b: Account, top: nat, c: Account)
    ensures forall s: nat, a :: Holds([FileOf(slot, b), FileOf(top, c)], s, a) <==> (s == slot && a == b) || (s == top && a == c)
  {
    var files := [FileOf(slot, b), FileOf(top, c)];
    assert files[0] in files && files[1] in files && b in FileOf(slot, b).accounts && c in FileOf(top, c).accounts;
  }

  lemma OneFileRows(cfg: Config, slot: nat, a: Account)
    ensures RowsOf(cfg, [FileOf(slot, a)]) == LiveRows(cfg, a, slot)
  {
    hide LiveRows;
    FileRowsOf(cfg, slot, a);
    assert [FileOf(slot, a)][..0] == [];
  }

  /** What an import of one holding hands over. */
  lemma ImportOfHolding(end: nat, p: Pubkey, amount: nat, slot: nat)
    ensures var o := ImportOf(DeltaOf(end), [FileOf(slot, Holding(p, amount))]);
      o.rows.tokens == multiset{HoldingRow(p, amount, slot)} && o.pairs == {PAIR} && o.closes == map[]
  {
    hide ImportOf, RowsOf, LiveRows, TokenOf, IsClose, Holding, Gone;
    var cfg, stream := DeltaOf(end), [FileOf(slot, Holding(p, amount))];
    AccountFacts(p, amount, slot, end);
    OneFileRows(cfg, slot, Holding(p, amount));
    ImportRows(cfg, stream);
    ImportPairsOf(cfg, stream);
    HoldsOne(slot, Holding(p, amount));
    forall q ensures q !in ImportOf(cfg, stream).closes {
      ImportCloses(cfg, stream, q);
    }
  }

  /** What an import of one close hands over. */
  lemma ImportOfClose(end: nat, p: Pubkey, slot: nat)
    ensures var o := ImportOf(DeltaOf(end), [FileOf(slot, Gone(p))]);
      o.rows.tokens == multiset{} && o.pairs == {} && o.closes == map[p := slot]
  {
    hide ImportOf, RowsOf, LiveRows, TokenOf, IsClose, Holding;
    var cfg, stream := DeltaOf(end), [FileOf(slot, Gone(p))];
    AccountFacts(p, 0, slot, end);
    OneFileRows(cfg, slot, Gone(p));
    ImportRows(cfg, stream);
    ImportPairsOf(cfg, stream);
    HoldsOne(slot, Gone(p));
    assert HasClose(cfg, stream, p, slot);
    ImportCloses(cfg, stream, p);
    forall q ensures q in ImportOf(cfg, stream).closes <==> q == p {
      ImportCloses(cfg, stream, q);
    }
  }

  lemma ImportOfBoth(cfg: Config, xs: seq<AppendVec>, ys: seq<AppendVec>)
    ensures ImportOf(cfg, xs + ys) == Merge(ImportOf(cfg, xs), ImportOf(cfg, ys))
  {
    hide Merge, Total, StreamEffects;
    StreamEffectsConcat(cfg, xs, ys);
    TotalConcat(StreamEffects(cfg, xs), StreamEffects(cfg, ys));
  }

  lemma AllAbove(minimum: nat, stream: seq<AppendVec>)
    requires forall f <- stream :: f.slot > minimum
    ensures Above(Some(minimum), stream) == stream
  {
    if stream != [] {
      AllAbove(minimum, stream[1..]);
    }
  }

  // ------------------------------------------------------------------- torn

  const TORN_LEDGER: Ledger := map[("p", 100) := Holding("p", 5), ("p", 150) := Gone("p")]
  const TORN_ARCHIVE: seq<AppendVec> := [FileOf(150, Gone("p"))]
  const TORN_ROWS: seq<TokenRow> := [HoldingRow("p", 5, 100)]
  const TORN_BALANCES: seq<BalanceRow> := [Version(PAIR, 5, 100)]

  lemma TornLedger()
    ensures Lifecycle(TORN_LEDGER) && IsIncremental(TORN_LEDGER, 100, 150, TORN_ARCHIVE)
    ensures Sound(TORN_LEDGER, HOT, TORN_ROWS) && Sound(TORN_LEDGER, HOT, TORN_ROWS + [Tombstone("p", PAIR, 150)])
  {
    hide TokenOf, IsClose;
    AccountFacts("p", 5, 100, 150);
    HoldsOne(150, Gone("p"));
    forall p | Latest(TORN_LEDGER, p, 150).Some? && Latest(TORN_LEDGER, p, 150).value > 100
      ensures p == "p" && Latest(TORN_LEDGER, p, 150).value == 150 {
    }
    assert HadPair(TORN_LEDGER, HOT, "p", 150, PAIR) by { assert ("p", 100) in TORN_LEDGER; }
  }

  /** The attempt that wrote its tombstone and was cut off before the refresh. */
  const TORN_ATTEMPT := Attempt(100, 150, TORN_ARCHIVE, [], ["p"], Some([Tombstone("p", PAIR, 150)]))

  lemma TornReads()
    ensures Newest(TORN_ROWS, "p") == Some(HoldingRow("p", 5, 100))
    ensures Newest(TORN_ROWS + [Tombstone("p", PAIR, 150)], "p") == Some(Tombstone("p", PAIR, 150))
  {
    var deleted := Tombstone("p", PAIR, 150);
    assert TORN_ROWS[..0] == [] && (TORN_ROWS + [deleted])[..1] == TORN_ROWS;
  }

  lemma TornTombstones(closes: map<Pubkey, nat>)
    requires closes == map["p" := 150]
    ensures Tombstones(TORN_ROWS, closes, ["p"]) == [Tombstone("p", PAIR, 150)]
    ensures Tombstones(TORN_ROWS + [Tombstone("p", PAIR, 150)], closes, ["p"]) == []
  {
    hide Newest;
    TornReads();
    assert ["p"][..0] == [];
  }

  lemma TornAttempts()
    ensures var t := Table(TORN_ROWS, 100, 100);
      var torn := t.(rows := TORN_ROWS + [Tombstone("p", PAIR, 150)]);
      && Possible(TORN_LEDGER, DeltaOf(150), t, TORN_ATTEMPT) && AttemptTouched(DeltaOf(150), t, TORN_ATTEMPT) == {PAIR}
      && Possible(TORN_LEDGER, DeltaOf(150), torn, TORN_ATTEMPT.(interrupted := None))
      && AttemptTouched(DeltaOf(150), torn, TORN_ATTEMPT.(interrupted := None)) == {}
      && (forall q <- TORN_ATTEMPT.order :: q in ImportOf(DeltaOf(150), Above(Some(100), TORN_ARCHIVE)).closes)
      && AfterAttempt(DeltaOf(150), torn, TORN_ATTEMPT.(interrupted := None)).rows == torn.rows
  {
    hide ImportOf, Above, IsIncremental, Tombstones;
    var rows := TORN_ROWS + [Tombstone("p", PAIR, 150)];
    TornLedger();
    AllAbove(100, TORN_ARCHIVE);
    ImportOfClose(150, "p", 150);
    TornTombstones(ImportOf(DeltaOf(150), Above(Some(100), TORN_ARCHIVE)).closes);
    assert TORN_ROWS + [] == TORN_ROWS && rows + [] == rows;
    assert PairsOf([Tombstone("p", PAIR, 150)]) == {PAIR} && PairsOf([]) == {};
  }

  lemma TornBalances()
    ensures Agrees(TORN_BALANCES, TORN_ROWS) && ReadBalance(TORN_BALANCES, PAIR) == 5
  {
    hide FinalRows, NewestVersion;
    FinalRowsOfOneRowEach(TORN_ROWS);
    assert TORN_ROWS[1..] == [];
    forall pair ensures ReadBalance(TORN_BALANCES, pair) == if pair == PAIR then 5 else 0 {
      NewestSnoc([], Version(PAIR, 5, 100), pair);
      assert [] + [Version(PAIR, 5, 100)] == TORN_BALANCES;
    }
    forall pair ensures Balance(TORN_ROWS, pair) == if pair == PAIR then 5 else 0 {
      assert Counts(HoldingRow("p", 5, 100), pair) <==> pair == PAIR;
      assert Sum(TORN_ROWS, pair) == (if pair == PAIR then 5 else 0) + Sum(TORN_ROWS[1..], pair);
    }
  }

  /**
   A torn import. `p` holds 5 at slot 100 and is closed at 150. An attempt on
   the archive from 100 to 150 is cut off after the tombstone and before the
   refresh; its repetition finds `p` deleted already, touches no pair, and leaves
   the balance at 5 while the state says 0.
   */
  lemma TornImport()
    ensures var t := Table(TORN_ROWS, 100, 100);
      var torn, again := t.(rows := TORN_ROWS + [Tombstone("p", PAIR, 150)]), TORN_ATTEMPT.(interrupted := None);
      && Lifecycle(TORN_LEDGER) && Sound(TORN_LEDGER, HOT, TORN_ROWS) && Agrees(TORN_BALANCES, TORN_ROWS)
      && Possible(TORN_LEDGER, DeltaOf(150), t, TORN_ATTEMPT) && Possible(TORN_LEDGER, DeltaOf(150), torn, again)
      && AttemptTouched(DeltaOf(150), t, TORN_ATTEMPT) == {PAIR} && AttemptTouched(DeltaOf(150), torn, again) == {}
      && DeletedSince(torn.rows, |TORN_ROWS|, PAIR, "p")
      && (forall q <- again.order :: q in ImportOf(DeltaOf(150), Above(Some(100), TORN_ARCHIVE)).closes)
      && var now := AfterAttempt(DeltaOf(150), torn, again).rows;
      && RefreshRows(now, [], {}, 150) == [] && ReadBalance(TORN_BALANCES, PAIR) == 5 && Balance(now, PAIR) == 0
  {
    hide ImportOf, Above, IsIncremental, Possible, Newest, Agrees, Balance, ReadBalance, AfterAttempt, AttemptTouched, Lifecycle, Sound;
    var t := Table(TORN_ROWS, 100, 100);
    var torn, again := t.(rows := TORN_ROWS + [Tombstone("p", PAIR, 150)]), TORN_ATTEMPT.(interrupted := None);
    TornLedger();
    TornAttempts();
    TornBalances();
    TornReads();
    assert torn.rows[..1] == TORN_ROWS;
    ClosedBalance();
  }

  lemma ClosedBalance()
    ensures Balance(TORN_ROWS + [Tombstone("p", PAIR, 150)], PAIR) == 0
  {
    hide Newest;
    var rows, deleted := TORN_ROWS + [Tombstone("p", PAIR, 150)], Tombstone("p", PAIR, 150);
    assert rows[..1] == TORN_ROWS && TORN_ROWS[..0] == [];
    assert FinalRows(TORN_ROWS) == TORN_ROWS;
    assert Without(TORN_ROWS, "p") == [];
    assert FinalRows(rows) == [deleted];
    assert [deleted][1..] == [] && Sum([deleted], PAIR) == 0;
  }

  // -------------------------------------------------------------- overtaken

  const OVERTAKEN_LEDGER: Ledger := map[("q", 120) := Holding("q", 5), ("p", 170) := Holding("p", 2), ("p", 190) := Gone("p")]
  const HIGH_ARCHIVE: seq<AppendVec> := [FileOf(120, Holding("q", 5)), FileOf(190, Gone("p"))]
  const FULL_ARCHIVE: seq<AppendVec> := [FileOf(120, Holding("q", 5))]
  const HIGH_BALANCES: seq<BalanceRow> := [Version(PAIR, 5, 200)]
  const LOW_ARCHIVE: seq<AppendVec> := [FileOf(170, Holding("p", 2))]

  lemma OvertakenLedger()
    ensures Lifecycle(OVERTAKEN_LEDGER)
  {
    hide TokenOf, IsClose;
    AccountFacts("q", 5, 120, 200);
    AccountFacts("p", 2, 170, 200);
  }

  lemma HighIsIncremental()
    ensures IsIncremental(OVERTAKEN_LEDGER, 100, 200, HIGH_ARCHIVE)
  {
    hide Latest, Holding, Gone, Holds;
    AccountKeys("q", 5);
    AccountKeys("p", 2);
    HoldsTwo(120, Holding("q", 5), 190, Gone("p"));
  }

  lemma LowIsIncremental()
    ensures IsIncremental(OVERTAKEN_LEDGER, 150, 180, LOW_ARCHIVE)
  {
    hide Latest, Holding, Gone, Holds;
    AccountKeys("q", 5);
    AccountKeys("p", 2);
    HoldsOne(170, Holding("p", 2));
  }

  lemma FullIsFull()
    ensures IsFull(OVERTAKEN_LEDGER, 150, FULL_ARCHIVE)
  {
    hide Latest, Holding, Gone, Holds;
    AccountKeys("q", 5);
    AccountKeys("p", 2);
    HoldsOne(120, Holding("q", 5));
  }

  lemma AccountKeys(p: Pubkey, amount: nat)
    ensures Holding(p, amount).pubkey == p && Gone(p).pubkey == p && Holding(p, amount).lamports > 0
  {
  }

  /** The first archive: `q` is found, and `p` only as closed. */
  const FIRST := Attempt(100, 200, HIGH_ARCHIVE, [HoldingRow("q", 5, 120)], ["p"], None)

  lemma FirstImport()
    ensures var t := Table([], 100, 100);
      && Possible(OVERTAKEN_LEDGER, DeltaOf(200), t, FIRST) && AttemptTouched(DeltaOf(200), t, FIRST) == {PAIR}
      && (forall q <- FIRST.order :: q in ImportOf(DeltaOf(200), Above(Some(100), HIGH_ARCHIVE)).closes)
      && AfterAttempt(DeltaOf(200), t, FIRST) == Table([HoldingRow("q", 5, 120)], 200, 200)
  {
    hide ImportOf, Above, IsIncremental, Newest, Lifecycle;
    var q, p := [FileOf(120, Holding("q", 5))], [FileOf(190, Gone("p"))];
    HighIsIncremental();
    AllAbove(100, HIGH_ARCHIVE);
    ImportOfHolding(200, "q", 5, 120);
    ImportOfClose(200, "p", 190);
    ImportOfBoth(DeltaOf(200), q, p);
    assert q + p == HIGH_ARCHIVE;
    var live := [HoldingRow("q", 5, 120)];
    var o := ImportOf(DeltaOf(200), Above(Some(100), HIGH_ARCHIVE));
    MergedParts(ImportOf(DeltaOf(200), q), ImportOf(DeltaOf(200), p));
    assert multiset(live) == multiset{live[0]} && o.rows.tokens == multiset{live[0]} + multiset{};
    assert [] + live == live && ["p"][..0] == [];
    assert Tombstones(live, o.closes, ["p"]) == [] by { NewestIsRow(live, "p"); }
    assert live + [] == live && PairsOf([]) == {};
  }

  lemma MergedParts(a: Output, b: Output)
    requires a.closes == map[]
    ensures var o := Merge(a, b); o.rows.tokens == a.rows.tokens + b.rows.tokens && o.pairs == a.pairs + b.pairs && o.closes == b.closes
  {
    hide MergePatches;
  }

  /** The later archive that ends lower: `p`, live at 170. */
  const SECOND := Attempt(150, 180, LOW_ARCHIVE, [HoldingRow("p", 2, 170)], [], None)

  lemma SecondImport()
    ensures var t := Table([HoldingRow("q", 5, 120)], 150, 200);
      && Possible(OVERTAKEN_LEDGER, DeltaOf(180), t, SECOND) && AttemptTouched(DeltaOf(180), t, SECOND) == {PAIR}
      && AfterAttempt(DeltaOf(180), t, SECOND).rows == [HoldingRow("q", 5, 120)] + [HoldingRow("p", 2, 170)]
  {
    hide ImportOf, Above, IsIncremental, Newest, Lifecycle;
    LowIsIncremental();
    AllAbove(150, LOW_ARCHIVE);
    ImportOfHolding(180, "p", 2, 170);
    assert multiset(SECOND.live) == multiset{HoldingRow("p", 2, 170)};
    var rows := [HoldingRow("q", 5, 120)] + [HoldingRow("p", 2, 170)];
    assert rows + [] == rows && PairsOf([]) == {};
  }

  /** The tail of the full archive above 200 is empty: it only takes the watermark back. */
  lemma EmptyTail()
    ensures IsImport(DeltaOf(150), Above(Some(200), FULL_ARCHIVE), [], [])
  {
    assert FULL_ARCHIVE[1..] == [];
    assert Above(Some(200), FULL_ARCHIVE) == [];
  }

  lemma HighBalances()
    ensures Agrees(HIGH_BALANCES, [HoldingRow("q", 5, 120)]) && Ahead(HIGH_BALANCES, PAIR, 180)
    ensures PairBalance([HoldingRow("q", 5, 120)], {PAIR}, PAIR) == 5 == ReadBalance(HIGH_BALANCES, PAIR)
  {
    hide FinalRows, NewestVersion, OfPairs;
    var rows := [HoldingRow("q", 5, 120)];
    FinalRowsOfOneRowEach(rows);
    assert rows[1..] == [] && [] + [Version(PAIR, 5, 200)] == HIGH_BALANCES;
    NewestSnoc([], Version(PAIR, 5, 200), PAIR);
    forall pair ensures ReadBalance(HIGH_BALANCES, pair) == if pair == PAIR then 5 else 0 {
      NewestSnoc([], Version(PAIR, 5, 200), pair);
    }
    forall pair ensures Balance(rows, pair) == if pair == PAIR then 5 else 0 {
      assert Counts(rows[0], pair) <==> pair == PAIR;
      assert Sum(rows, pair) == (if pair == PAIR then 5 else 0) + Sum(rows[1..], pair);
    }
    PairBalanceIsBalance(rows, {PAIR}, PAIR);
  }

  lemma OneRefresh(state: seq<TokenRow>, slot: nat)
    ensures RefreshRows(state, [PAIR], {PAIR}, slot) == [Version(PAIR, PairBalance(state, {PAIR}, PAIR), slot)]
  {
    hide PairBalance;
    assert [PAIR][..0] == [];
  }

  lemma BothBalance()
    ensures Balance([HoldingRow("q", 5, 120)] + [HoldingRow("p", 2, 170)], PAIR) == 7
  {
    hide FinalRows;
    var now := [HoldingRow("q", 5, 120)] + [HoldingRow("p", 2, 170)];
    assert OneRowEach(now);
    FinalRowsOfOneRowEach(now);
    assert now[1..] == [HoldingRow("p", 2, 170)] && [HoldingRow("p", 2, 170)][1..] == [];
    assert Sum(now[1..], PAIR) == 2;
  }

  /**
   An overtaken import. At watermark 100 an archive ending at 200 finds `q` and,
   of `p`, which was live at 170, only the close at 190. A shared full load of
   an archive at 150 adds nothing and takes the watermark back, and an archive
   from 150 to 180 then delivers `p`. The state says 7, as it did at 180; the
   balance stays 5, because the stored one has slot 200.
   */
  lemma OvertakenRefresh()
    ensures var t := Table([], 100, 100);
      var high := Table([HoldingRow("q", 5, 120)], 200, 200);
      var back := high.(watermark := 150);
      && Lifecycle(OVERTAKEN_LEDGER) && Possible(OVERTAKEN_LEDGER, DeltaOf(200), t, FIRST)
      && (forall q <- FIRST.order :: q in ImportOf(DeltaOf(200), Above(Some(100), HIGH_ARCHIVE)).closes)
      && AfterAttempt(DeltaOf(200), t, FIRST) == high && AttemptTouched(DeltaOf(200), t, FIRST) == {PAIR}
      && var stored := RefreshRows(high.rows, [PAIR], {PAIR}, 200);
      && Agrees(stored, high.rows)
      && IsFull(OVERTAKEN_LEDGER, 150, FULL_ARCHIVE) && IsImport(DeltaOf(150), Above(Some(200), FULL_ARCHIVE), [], [])
      && Possible(OVERTAKEN_LEDGER, DeltaOf(180), back, SECOND) && AttemptTouched(DeltaOf(180), back, SECOND) == {PAIR}
      && var now := AfterAttempt(DeltaOf(180), back, SECOND).rows;
      && Balance(now, PAIR) == 7 && ReadBalance(stored + RefreshRows(now, [PAIR], {PAIR}, 180), PAIR) == 5
  {
    hide ImportOf, Above, IsIncremental, IsFull, IsImport, Possible, Newest, Agrees, Balance, PairBalance, ReadBalance, Ahead, AfterAttempt, AttemptTouched, Lifecycle;
    OvertakenLedger();
    FullIsFull();
    FirstImport();
    SecondImport();
    EmptyTail();
    HighBalances();
    BothBalance();
    var high, now := [HoldingRow("q", 5, 120)], [HoldingRow("q", 5, 120)] + [HoldingRow("p", 2, 170)];
    var stored := RefreshRows(high, [PAIR], {PAIR}, 200);
    OneRefresh(high, 200);
    assert stored == HIGH_BALANCES;
    RefreshReads(stored, now, [PAIR], {PAIR}, 180, PAIR);
  }
}
