/**
 The hot-state table: a bag of versioned token-account rows in which the
 highest slot of a pubkey wins, and the proof that imports, however often
 interrupted, bring it to what the ledger says.
 */
module HotState {
  import opened Wrappers
  import opened ImportOutput
  import opened Accounts
  import opened Ledgers
  import opened Versions

  const CLOSE_TOMBSTONE_BATCH_SIZE: nat := 100_000

  /** The version a FINAL read keeps: the highest slot, the last inserted of equals. */
  function Newest(rows: seq<TokenRow>, p: Pubkey): (r: Option<TokenRow>)
    ensures r.Some? ==> r.value in rows && r.value.pubkey == p
    ensures forall q :: q in rows && q.pubkey == p ==> r.Some? && q.updatedSlot <= r.value.updatedSlot
  {
    NewestOf(rows, (row: TokenRow) => row.pubkey, (row: TokenRow) => row.updatedSlot, p)
  }

  /** A live account with a positive balance, as read from the table. */
  function View(rows: seq<TokenRow>, p: Pubkey): Option<TokenRow> {
    match Newest(rows, p)
    case None => None
    case Some(r) => if !r.isDeleted && r.amount > 0 then Some(r) else None
  }

  /** The row one ledger record stands for when it is a hot account with a positive balance. */
  function RecordView(hot: set<Pubkey>, a: Account, slot: nat): Option<TokenRow> {
    match TokenOf(a)
    case Some(t) => if t.mint in hot && t.amount > 0 then Some(LiveRow(a.pubkey, t, slot)) else None
    case None => None
  }

  /** The same account, as the ledger has it at slot `top`. */
  function LedgerView(l: Ledger, hot: set<Pubkey>, p: Pubkey, top: nat): Option<TokenRow> {
    match Latest(l, p, top)
    case None => None
    case Some(s) => RecordView(hot, l[(p, s)], s)
  }

  function Tombstone(p: Pubkey, pair: Pair, slot: nat): TokenRow {
    TokenRow(p, pair.0, pair.1, 0, None, 0, 0, None, true, slot)
  }

  // ------------------------------------------------------------- soundness

  ghost predicate HadPair(l: Ledger, hot: set<Pubkey>, p: Pubkey, before: nat, pair: Pair) {
    exists s: nat :: s < before && (p, s) in l && TokenOf(l[(p, s)]).Some? && PairOf(TokenOf(l[(p, s)]).value) == pair && pair.0 in hot
  }

  /** A row that stands for a ledger record. */
  ghost predicate LedgerRow(l: Ledger, hot: set<Pubkey>, r: TokenRow) {
    && (r.pubkey, r.updatedSlot) in l
    && var a := l[(r.pubkey, r.updatedSlot)];
    match TokenOf(a)
    case Some(t) => t.mint in hot && r == LiveRow(r.pubkey, t, r.updatedSlot)
    case None => IsClose(a) && HadPair(l, hot, r.pubkey, r.updatedSlot, (r.mint, r.owner))
                 && r == Tombstone(r.pubkey, (r.mint, r.owner), r.updatedSlot)
  }

  ghost predicate Sound(l: Ledger, hot: set<Pubkey>, rows: seq<TokenRow>) {
    forall r :: r in rows ==> LedgerRow(l, hot, r)
  }

  ghost predicate HasRowAbove(rows: seq<TokenRow>, p: Pubkey, slot: nat) {
    exists r :: r in rows && r.pubkey == p && r.updatedSlot > slot
  }

  /**
   Unless its last record at `horizon` is above `watermark`, or an attempt that
   went beyond the horizon left a row of it, an account reads as the ledger has it.
   */
  ghost predicate SettledAt(l: Ledger, hot: set<Pubkey>, rows: seq<TokenRow>, watermark: nat, horizon: nat, p: Pubkey) {
    var s := Latest(l, p, horizon);
    s.None? || s.value <= watermark ==> HasRowAbove(rows, p, horizon) || View(rows, p) == LedgerView(l, hot, p, horizon)
  }

  ghost predicate Settled(l: Ledger, hot: set<Pubkey>, rows: seq<TokenRow>, watermark: nat, horizon: nat) {
    forall p :: SettledAt(l, hot, rows, watermark, horizon, p)
  }

  /** Every account reads as the ledger has it at `top`. */
  ghost predicate Exact(l: Ledger, hot: set<Pubkey>, rows: seq<TokenRow>, top: nat) {
    forall p :: View(rows, p) == LedgerView(l, hot, p, top)
  }

  /** No attempt wrote a row above `slot`. */
  predicate Below(rows: seq<TokenRow>, slot: nat) { forall r :: r in rows ==> r.updatedSlot <= slot }

  lemma SettledBelowIsExact(l: Ledger, hot: set<Pubkey>, rows: seq<TokenRow>, top: nat)
    requires Settled(l, hot, rows, top, top) && Below(rows, top)
    ensures Exact(l, hot, rows, top)
  {
    forall p ensures View(rows, p) == LedgerView(l, hot, p, top) {
      assert SettledAt(l, hot, rows, top, top, p);
    }
  }

  /** At one slot there is only one row a pubkey can have. */
  lemma OneRowPerSlot(l: Ledger, hot: set<Pubkey>, r: TokenRow, q: TokenRow)
    requires Lifecycle(l) && LedgerRow(l, hot, r) && LedgerRow(l, hot, q)
    requires r.pubkey == q.pubkey && r.updatedSlot == q.updatedSlot
    ensures r == q
  {
    hide TokenOf, IsClose;
    var p, top := r.pubkey, r.updatedSlot;
    if TokenOf(l[(p, top)]).None? {
      SamePair(l, hot, p, top, (r.mint, r.owner), (q.mint, q.owner));
    }
  }

  lemma SamePair(l: Ledger, hot: set<Pubkey>, p: Pubkey, before: nat, one: Pair, two: Pair)
    requires Lifecycle(l) && HadPair(l, hot, p, before, one) && HadPair(l, hot, p, before, two)
    ensures one == two
  {
    hide TokenOf, IsClose, Sensible;
    var s: nat :| s < before && (p, s) in l && TokenOf(l[(p, s)]).Some? && PairOf(TokenOf(l[(p, s)]).value) == one;
    var t: nat :| t < before && (p, t) in l && TokenOf(l[(p, t)]).Some? && PairOf(TokenOf(l[(p, t)]).value) == two;
    assert s < t ==> Follows(l[(p, s)], l[(p, t)]);
    assert t < s ==> Follows(l[(p, t)], l[(p, s)]);
  }

  /** The token account behind a row: at the row's slot or before it. */
  lemma RowHasToken(l: Ledger, hot: set<Pubkey>, r: TokenRow) returns (s: nat)
    requires LedgerRow(l, hot, r)
    ensures s <= r.updatedSlot && (r.pubkey, s) in l && TokenOf(l[(r.pubkey, s)]).Some?
    ensures PairOf(TokenOf(l[(r.pubkey, s)]).value) == (r.mint, r.owner) && r.mint in hot
  {
    hide TokenOf, IsClose;
    s := r.updatedSlot;
    if TokenOf(l[(r.pubkey, s)]).None? {
      s :| s < r.updatedSlot && (r.pubkey, s) in l && TokenOf(l[(r.pubkey, s)]).Some?
        && PairOf(TokenOf(l[(r.pubkey, s)]).value) == (r.mint, r.owner) && r.mint in hot;
    }
  }

  // ------------------------------------------------------------ tombstones

  /** The delete version for one candidate, if the table holds an older live row of it. */
  function TombstoneFor(rows: seq<TokenRow>, p: Pubkey, slot: nat): seq<TokenRow> {
    match Newest(rows, p)
    case None => []
    case Some(previous) =>
      if previous.isDeleted || previous.mint == "" || previous.owner == "" || previous.updatedSlot >= slot then []
      else [Tombstone(p, (previous.mint, previous.owner), slot)]
  }

  function Tombstones(rows: seq<TokenRow>, closes: map<Pubkey, nat>, order: seq<Pubkey>): seq<TokenRow>
    requires forall p <- order :: p in closes
    decreases |order|
  {
    if order == [] then []
    else
      var p := order[|order| - 1];
      Tombstones(rows, closes, order[..|order| - 1]) + TombstoneFor(rows, p, closes[p])
  }

  lemma {:induction false} TombstonesAre(rows: seq<TokenRow>, closes: map<Pubkey, nat>, order: seq<Pubkey>, r: TokenRow)
    requires forall p <- order :: p in closes
    ensures r in Tombstones(rows, closes, order) <==> r.pubkey in order && r in TombstoneFor(rows, r.pubkey, closes[r.pubkey])
    decreases |order|
  {
    if order != [] {
      var n := |order| - 1;
      TombstonesAre(rows, closes, order[..n], r);
      assert order == order[..n] + [order[n]];
    }
  }

  /**
   Delete versions, column by column: of a candidate whose newest version is live,
   names a pair and is older than the close, with that pair and nothing else of it.
   */
  lemma TombstoneRows(rows: seq<TokenRow>, closes: map<Pubkey, nat>, order: seq<Pubkey>, r: TokenRow)
    requires forall p <- order :: p in closes
    ensures r in Tombstones(rows, closes, order) <==>
      && r.pubkey in order && Newest(rows, r.pubkey).Some?
      && var previous := Newest(rows, r.pubkey).value;
      && !previous.isDeleted && previous.mint != "" && previous.owner != "" && previous.updatedSlot < closes[r.pubkey]
      && r.mint == previous.mint && r.owner == previous.owner && r.isDeleted && r.updatedSlot == closes[r.pubkey]
      && r.amount == 0 && r.delegate == None && r.delegatedAmount == 0 && r.state == 0 && r.closeAuthority == None
  {
    hide Newest;
    TombstonesAre(rows, closes, order, r);
  }

  /** Rows of other pubkeys do not matter to a read. */
  lemma {:induction false} NewestIgnores(rows: seq<TokenRow>, more: seq<TokenRow>, p: Pubkey)
    requires forall r :: r in more ==> r.pubkey != p
    ensures Newest(rows + more, p) == Newest(rows, p)
    decreases |more|
  {
    if more == [] {
      assert rows + more == rows;
    } else {
      var n := |more| - 1;
      assert (rows + more)[..|rows + more| - 1] == rows + more[..n];
      NewestIgnores(rows, more[..n], p);
    }
  }

  // --------------------------------------------------- one pubkey's import

  /** What a completed incremental import leaves behind. */
  function AfterImport(rows: seq<TokenRow>, live: seq<TokenRow>, closes: map<Pubkey, nat>, order: seq<Pubkey>): seq<TokenRow>
    requires forall p <- order :: p in closes
  {
    rows + live + Tombstones(rows + live, closes, order)
  }

  /** `live` is the import's rows in some order of insertion and `order` some order of its candidates. */
  ghost predicate IsImport(cfg: Config, stream: seq<AppendVec>, live: seq<TokenRow>, order: seq<Pubkey>) {
    var o := ImportOf(cfg, stream);
    && multiset(live) == o.rows.tokens
    && (forall p :: p in order <==> p in o.closes)
  }

  /** Nothing but ledger rows above the watermark, and candidates only for closes among them. */
  ghost predicate DeliversOnly(l: Ledger, hot: set<Pubkey>, watermark: nat, end: nat, live: seq<TokenRow>, closes: map<Pubkey, nat>) {
    && (forall r :: r in live ==> LedgerRow(l, hot, r) && watermark < r.updatedSlot <= end)
    && (forall p :: p in closes ==>
          && watermark < closes[p] <= end && (p, closes[p]) in l
          && IsClose(l[(p, closes[p])]) && TokenOf(l[(p, closes[p])]).None?)
  }

  /** Every hot token account whose last record is above the watermark. */
  ghost predicate DeliversLive(l: Ledger, hot: set<Pubkey>, watermark: nat, end: nat, live: seq<TokenRow>) {
    forall p :: var s := Latest(l, p, end);
      s.Some? && s.value > watermark && TokenOf(l[(p, s.value)]).Some? && TokenOf(l[(p, s.value)]).value.mint in hot ==>
        LiveRow(p, TokenOf(l[(p, s.value)]).value, s.value) in live
  }

  /** Every account whose last record above the watermark is a close. */
  ghost predicate DeliversCloses(l: Ledger, watermark: nat, end: nat, closes: map<Pubkey, nat>) {
    forall p :: var s := Latest(l, p, end);
      s.Some? && s.value > watermark && IsClose(l[(p, s.value)]) ==> p in closes && closes[p] == s.value
  }

  lemma CloseIsNoToken(l: Ledger, k: (Pubkey, nat))
    requires Lifecycle(l) && k in l && IsClose(l[k])
    ensures TokenOf(l[k]).None?
  {
    assert Sensible(l[k]);
  }

  /** What reading an archive above a watermark delivers, full or incremental. */
  lemma ImportDeliversOnly(l: Ledger, cfg: Config, watermark: nat, end: nat, stream: seq<AppendVec>, live: seq<TokenRow>, order: seq<Pubkey>)
    requires Lifecycle(l) && FromLedger(l, end, stream)
    requires IsImport(cfg, Above(Some(watermark), stream), live, order)
    ensures DeliversOnly(l, cfg.hot, watermark, end, live, ImportOf(cfg, Above(Some(watermark), stream)).closes)
  {
    hide ImportOf, Above, Holds, IsClose, TokenOf, Latest, Sensible;
    var above := Above(Some(watermark), stream);
    forall r | r in live ensures LedgerRow(l, cfg.hot, r) && watermark < r.updatedSlot <= end {
      assert r in multiset(live);
      ImportTokens(cfg, above, r);
      var slot: nat, a :| Holds(above, slot, a) && r in LiveRows(cfg, a, slot);
      HoldsAbove(watermark, stream, slot, a);
    }
    var closes := ImportOf(cfg, above).closes;
    forall p | p in closes ensures watermark < closes[p] <= end && (p, closes[p]) in l
          && IsClose(l[(p, closes[p])]) && TokenOf(l[(p, closes[p])]).None? {
      ImportCloses(cfg, above, p);
      var a :| Holds(above, closes[p], a) && a.pubkey == p && Closes(cfg, a);
      HoldsAbove(watermark, stream, closes[p], a);
      CloseIsNoToken(l, (p, closes[p]));
    }
  }

  /** A hot record the archive holds above the watermark is written. */
  lemma ImportDeliversRecord(l: Ledger, cfg: Config, watermark: nat, stream: seq<AppendVec>, live: seq<TokenRow>, order: seq<Pubkey>, a: Account, slot: nat)
    requires IsImport(cfg, Above(Some(watermark), stream), live, order)
    requires Holds(stream, slot, a) && slot > watermark && LiveRows(cfg, a, slot) != []
    ensures LiveRows(cfg, a, slot)[0] in live
  {
    hide ImportOf, Above, Holds, TokenOf;
    var above := Above(Some(watermark), stream);
    var row := LiveRows(cfg, a, slot)[0];
    HoldsAbove(watermark, stream, slot, a);
    assert HasLiveRow(cfg, above, row);
    ImportTokens(cfg, above, row);
    assert row in multiset(live);
  }

  lemma IncrementalDelivers(l: Ledger, cfg: Config, base: nat, watermark: nat, end: nat, stream: seq<AppendVec>, live: seq<TokenRow>, order: seq<Pubkey>)
    requires Lifecycle(l) && cfg.kind.Incremental? && IsIncremental(l, base, end, stream) && base <= watermark
    requires IsImport(cfg, Above(Some(watermark), stream), live, order)
    ensures DeliversLive(l, cfg.hot, watermark, end, live)
    ensures DeliversCloses(l, watermark, end, ImportOf(cfg, Above(Some(watermark), stream)).closes)
  {
    hide ImportOf, Above, Holds, IsClose, TokenOf, Latest, Sensible, DeliversOnly;
    var above := Above(Some(watermark), stream);
    var closes := ImportOf(cfg, above).closes;
    forall p | var s := Latest(l, p, end);
        s.Some? && s.value > watermark && TokenOf(l[(p, s.value)]).Some? && TokenOf(l[(p, s.value)]).value.mint in cfg.hot
      ensures LiveRow(p, TokenOf(l[(p, Latest(l, p, end).value)]).value, Latest(l, p, end).value) in live {
      var s := Latest(l, p, end).value;
      ImportDeliversRecord(l, cfg, watermark, stream, live, order, l[(p, s)], s);
    }
    forall p | var s := Latest(l, p, end); s.Some? && s.value > watermark && IsClose(l[(p, s.value)])
      ensures p in closes && closes[p] == Latest(l, p, end).value {
      var s := Latest(l, p, end).value;
      HoldsAbove(watermark, stream, s, l[(p, s)]);
      assert HasClose(cfg, above, p, s);
      ImportCloses(cfg, above, p);
      var a :| Holds(above, closes[p], a) && a.pubkey == p && Closes(cfg, a);
      HoldsAbove(watermark, stream, closes[p], a);
    }
  }

  /** All rows of a pubkey at or below its last record, and its read is the row of that record if there is one. */
  lemma ViewAtLatest(l: Ledger, hot: set<Pubkey>, rows: seq<TokenRow>, p: Pubkey, horizon: nat, r: TokenRow)
    requires Lifecycle(l) && Sound(l, hot, rows) && !HasRowAbove(rows, p, horizon)
    requires r in rows && r.pubkey == p && Latest(l, p, horizon) == Some(r.updatedSlot)
    ensures Newest(rows, p) == Some(r) && View(rows, p) == LedgerView(l, hot, p, horizon)
  {
    hide TokenOf, IsClose, HadPair;
    assert l[(p, r.updatedSlot)].pubkey == p;
    hide Lifecycle;
    var n := Newest(rows, p).value;
    assert LedgerRow(l, hot, n) && LedgerRow(l, hot, r);
    OneRowPerSlot(l, hot, n, r);
  }

  /** A pubkey whose last record holds no hot token account and is no close has no rows at all. */
  lemma NoRowsUnlessHot(l: Ledger, hot: set<Pubkey>, rows: seq<TokenRow>, p: Pubkey, horizon: nat, r: TokenRow)
    requires Lifecycle(l) && Sound(l, hot, rows) && !HasRowAbove(rows, p, horizon)
    requires r in rows && r.pubkey == p
    ensures Latest(l, p, horizon).Some? && r.updatedSlot <= Latest(l, p, horizon).value
    ensures var a := l[(p, Latest(l, p, horizon).value)];
      if TokenOf(a).Some? then TokenOf(a).value.mint in hot else IsClose(a)
  {
    hide TokenOf, IsClose, HadPair, Sensible, Latest;
    var s := RowHasToken(l, hot, r);
    var top := Latest(l, p, horizon).value;
    assert s < top ==> Follows(l[(p, s)], l[(p, top)]);
  }

  /** The tombstones a pubkey gets: its own or none. */
  lemma RowsAfterImport(rows: seq<TokenRow>, live: seq<TokenRow>, closes: map<Pubkey, nat>, order: seq<Pubkey>, r: TokenRow)
    requires forall p :: p in order <==> p in closes
    ensures r in AfterImport(rows, live, closes, order) <==>
      r in rows || r in live || (r.pubkey in closes && r in TombstoneFor(rows + live, r.pubkey, closes[r.pubkey]))
  {
    hide TombstoneFor;
    TombstonesAre(rows + live, closes, order, r);
  }

  /** Importing keeps every row standing for a ledger record. */
  lemma ImportSound(l: Ledger, hot: set<Pubkey>, watermark: nat, end: nat, rows: seq<TokenRow>, live: seq<TokenRow>, closes: map<Pubkey, nat>, order: seq<Pubkey>)
    requires Lifecycle(l) && Sound(l, hot, rows) && DeliversOnly(l, hot, watermark, end, live, closes)
    requires forall p :: p in order <==> p in closes
    ensures Sound(l, hot, AfterImport(rows, live, closes, order))
    ensures forall r :: r in AfterImport(rows, live, closes, order) ==> r in rows || watermark < r.updatedSlot <= end
  {
    hide AfterImport, TokenOf, IsClose, Lifecycle, LedgerRow, TombstoneFor;
    forall r | r in AfterImport(rows, live, closes, order)
      ensures LedgerRow(l, hot, r) && (r in rows || watermark < r.updatedSlot <= end) {
      RowsAfterImport(rows, live, closes, order, r);
      if r !in rows && r !in live {
        TombstoneSound(l, hot, rows + live, r.pubkey, closes[r.pubkey], r);
      }
    }
  }

  lemma TombstoneSound(l: Ledger, hot: set<Pubkey>, rows: seq<TokenRow>, p: Pubkey, slot: nat, r: TokenRow)
    requires Sound(l, hot, rows) && (p, slot) in l && IsClose(l[(p, slot)]) && TokenOf(l[(p, slot)]).None?
    requires r in TombstoneFor(rows, p, slot)
    ensures LedgerRow(l, hot, r) && r.updatedSlot == slot
  {
    hide TokenOf, IsClose;
    var previous := Newest(rows, p).value;
    assert LedgerRow(l, hot, previous);
    var s := RowHasToken(l, hot, previous);
    assert HadPair(l, hot, p, slot, (previous.mint, previous.owner));
  }

  // ------------------------------------------------ one pubkey's import

  /** Nothing recorded above the watermark: the import does not touch the pubkey. */
  lemma UntouchedAt(l: Ledger, hot: set<Pubkey>, rows: seq<TokenRow>, watermark: nat, horizon: nat, end: nat,
      live: seq<TokenRow>, closes: map<Pubkey, nat>, order: seq<Pubkey>, p: Pubkey)
    requires watermark <= horizon && DeliversOnly(l, hot, watermark, end, live, closes)
    requires forall q :: q in order <==> q in closes
    requires SettledAt(l, hot, rows, watermark, horizon, p) && Sound(l, hot, rows)
    requires var s := Latest(l, p, Max(horizon, end)); s.None? || s.value <= watermark
    ensures SettledAt(l, hot, AfterImport(rows, live, closes, order), end, Max(horizon, end), p)
  {
    hide TokenOf, IsClose, Latest, TombstoneFor;
    var top := Max(horizon, end);
    LatestAgain(l, p, horizon, top);
    forall r | r in live + Tombstones(rows + live, closes, order) ensures r.pubkey != p {
      hide LedgerRow;
      TombstonesAre(rows + live, closes, order, r);
      assert r in live ==> LedgerRow(l, hot, r);
      LedgerRowIsRecord(l, hot, r);
    }
    assert AfterImport(rows, live, closes, order) == rows + (live + Tombstones(rows + live, closes, order));
    NewestIgnores(rows, live + Tombstones(rows + live, closes, order), p);
    if HasRowAbove(rows, p, horizon) {
      var r :| r in rows && r.pubkey == p && r.updatedSlot > horizon;
      assert r in AfterImport(rows, live, closes, order);
      assert LedgerRow(l, hot, r);
    }
  }

  lemma LedgerRowIsRecord(l: Ledger, hot: set<Pubkey>, r: TokenRow)
    ensures LedgerRow(l, hot, r) ==> (r.pubkey, r.updatedSlot) in l
  {
  }

  /** The last record is a close above the watermark: afterwards no live row is newest. */
  lemma ClosedAt(l: Ledger, hot: set<Pubkey>, rows: seq<TokenRow>, end: nat, top: nat,
      live: seq<TokenRow>, closes: map<Pubkey, nat>, order: seq<Pubkey>, p: Pubkey)
    requires (forall q :: q in order <==> q in closes) && Lifecycle(l) && Sound(l, hot, AfterImport(rows, live, closes, order))
    requires !HasRowAbove(AfterImport(rows, live, closes, order), p, top)
    requires p in closes && Latest(l, p, top) == Some(closes[p]) && IsClose(l[(p, closes[p])])
    ensures View(AfterImport(rows, live, closes, order), p) == LedgerView(l, hot, p, top)
  {
    hide AfterImport, TokenOf, IsClose, HadPair, Sensible, Tombstones, Latest;
    var after, s := AfterImport(rows, live, closes, order), closes[p];
    CloseIsNoToken(l, (p, s));
    if View(after, p).Some? {
      var n := Newest(after, p).value;
      assert LedgerRow(l, hot, n);
      RowsAfterImport(rows, live, closes, order, n);
      assert n in rows + live && n.updatedSlot < s;
      var m := Newest(rows + live, p).value;
      RowsAfterImport(rows, live, closes, order, m);
      assert LedgerRow(l, hot, m);
      OneRowPerSlot(l, hot, n, m);
      var t := RowHasToken(l, hot, n);
      assert Sensible(l[(p, t)]) by { assert (p, t) in l; }
      NamesNotEmpty(l, p, t);
      var r := Tombstone(p, (m.mint, m.owner), s);
      assert r in TombstoneFor(rows + live, p, s);
      RowsAfterImport(rows, live, closes, order, r);
      assert false;
    }
  }

  lemma NamesNotEmpty(l: Ledger, p: Pubkey, t: nat)
    requires Lifecycle(l) && (p, t) in l && TokenOf(l[(p, t)]).Some?
    ensures TokenOf(l[(p, t)]).value.mint != "" && TokenOf(l[(p, t)]).value.owner != ""
  {
    hide TokenOf;
    assert Sensible(l[(p, t)]);
  }

  /** The last record holds a hot token account above the watermark: afterwards its row is the one read. */
  lemma HotAt(l: Ledger, hot: set<Pubkey>, rows: seq<TokenRow>, watermark: nat, end: nat, top: nat,
      live: seq<TokenRow>, closes: map<Pubkey, nat>, order: seq<Pubkey>, p: Pubkey)
    requires (forall q :: q in order <==> q in closes) && Lifecycle(l) && Sound(l, hot, AfterImport(rows, live, closes, order))
    requires end <= top && !HasRowAbove(AfterImport(rows, live, closes, order), p, top)
    requires DeliversLive(l, hot, watermark, end, live)
    requires var s := Latest(l, p, top);
      s.Some? && watermark < s.value <= end && TokenOf(l[(p, s.value)]).Some? && TokenOf(l[(p, s.value)]).value.mint in hot
    ensures View(AfterImport(rows, live, closes, order), p) == LedgerView(l, hot, p, top)
  {
    hide AfterImport, TokenOf, IsClose, Lifecycle, Latest, LedgerRow, TombstoneFor;
    LatestAgain(l, p, end, top);
    var s := Latest(l, p, top).value;
    var r := LiveRow(p, TokenOf(l[(p, s)]).value, s);
    RowsAfterImport(rows, live, closes, order, r);
    ViewAtLatest(l, hot, AfterImport(rows, live, closes, order), p, top, r);
  }

  /** The last record is neither: then the pubkey has no rows, and no row is right. */
  lemma NeitherAt(l: Ledger, hot: set<Pubkey>, rows: seq<TokenRow>, top: nat, p: Pubkey)
    requires Lifecycle(l) && Sound(l, hot, rows) && !HasRowAbove(rows, p, top)
    requires var s := Latest(l, p, top);
      s.Some? && if TokenOf(l[(p, s.value)]).Some? then TokenOf(l[(p, s.value)]).value.mint !in hot else !IsClose(l[(p, s.value)])
    ensures View(rows, p) == LedgerView(l, hot, p, top)
  {
    hide TokenOf, IsClose, Lifecycle, Latest, Sound;
    if View(rows, p).Some? {
      NoRowsUnlessHot(l, hot, rows, p, top, Newest(rows, p).value);
      assert false;
    }
  }

  /** An incremental import settles every pubkey up to its end slot. */
  lemma ImportSettlesAt(l: Ledger, hot: set<Pubkey>, rows: seq<TokenRow>, watermark: nat, horizon: nat, end: nat,
      live: seq<TokenRow>, closes: map<Pubkey, nat>, order: seq<Pubkey>, p: Pubkey)
    requires Lifecycle(l) && Sound(l, hot, rows) && watermark <= horizon
    requires DeliversOnly(l, hot, watermark, end, live, closes)
    requires DeliversLive(l, hot, watermark, end, live) && DeliversCloses(l, watermark, end, closes)
    requires (forall q :: q in order <==> q in closes) && SettledAt(l, hot, rows, watermark, horizon, p)
    ensures SettledAt(l, hot, AfterImport(rows, live, closes, order), end, Max(horizon, end), p)
  {
    hide AfterImport, TokenOf, IsClose, Lifecycle, Latest, LedgerRow, TombstoneFor, View, LedgerView, DeliversOnly, Sound;
    var top, after := Max(horizon, end), AfterImport(rows, live, closes, order);
    var s := Latest(l, p, top);
    if s.None? || s.value <= watermark {
      UntouchedAt(l, hot, rows, watermark, horizon, end, live, closes, order, p);
    } else if s.value <= end && !HasRowAbove(after, p, top) {
      ImportSound(l, hot, watermark, end, rows, live, closes, order);
      LatestAgain(l, p, end, top);
      var a := l[(p, s.value)];
      if TokenOf(a).Some? && TokenOf(a).value.mint in hot {
        HotAt(l, hot, rows, watermark, end, top, live, closes, order, p);
      } else if TokenOf(a).None? && IsClose(a) {
        ClosedAt(l, hot, rows, end, top, live, closes, order, p);
      } else {
        NeitherAt(l, hot, after, top, p);
      }
    }
  }

  // ------------------------------------------------------ whole attempts

  datatype Table = Table(rows: seq<TokenRow>, watermark: nat, horizon: nat)

  /**
   One attempt to import an incremental archive: its rows and candidates in the
   order they were handled, and what an interrupted attempt had written so far.
   */
  datatype Attempt = Attempt(
    base: nat, end: nat, stream: seq<AppendVec>, live: seq<TokenRow>, order: seq<Pubkey>, interrupted: Option<seq<TokenRow>>)

  /** The archive fits the watermark, and nothing is written that the import would not write. */
  ghost predicate Possible(l: Ledger, cfg: Config, t: Table, a: Attempt) {
    var above := Above(Some(t.watermark), a.stream);
    && a.base <= t.watermark < a.end
    && IsIncremental(l, a.base, a.end, a.stream)
    && IsImport(cfg, above, a.live, a.order)
    && (a.interrupted.Some? ==> forall r :: r in a.interrupted.value ==>
          r in a.live || r in Tombstones(t.rows + a.live, ImportOf(cfg, above).closes, a.order))
  }

  function AfterAttempt(cfg: Config, t: Table, a: Attempt): Table
    requires forall p <- a.order :: p in ImportOf(cfg, Above(Some(t.watermark), a.stream)).closes
  {
    if a.interrupted.Some? then t.(rows := t.rows + a.interrupted.value)
    else
      Table(AfterImport(t.rows, a.live, ImportOf(cfg, Above(Some(t.watermark), a.stream)).closes, a.order),
            a.end, Max(t.horizon, a.end))
  }

  ghost predicate Healthy(l: Ledger, hot: set<Pubkey>, t: Table) {
    t.watermark <= t.horizon && Sound(l, hot, t.rows) && Settled(l, hot, t.rows, t.watermark, t.horizon)
  }

  /** Rows of ledger records above the watermark disturb nothing that was settled. */
  lemma MoreRowsStaySettled(l: Ledger, hot: set<Pubkey>, rows: seq<TokenRow>, more: seq<TokenRow>, watermark: nat, horizon: nat, p: Pubkey)
    requires Sound(l, hot, rows + more) && SettledAt(l, hot, rows, watermark, horizon, p)
    requires forall r :: r in more ==> r.updatedSlot > watermark
    ensures SettledAt(l, hot, rows + more, watermark, horizon, p)
  {
    hide TokenOf, IsClose, Latest, LedgerView;
    var s := Latest(l, p, horizon);
    if (s.None? || s.value <= watermark) && !HasRowAbove(rows + more, p, horizon) {
      forall r | r in more ensures r.pubkey != p {
        assert r in rows + more;
        assert LedgerRow(l, hot, r);
      }
      NewestIgnores(rows, more, p);
      assert forall r :: r in rows ==> r in rows + more;
    }
  }

  /** Completed or interrupted, an attempt keeps the table healthy and writes no row beyond its end. */
  lemma AttemptKeepsHealthy(l: Ledger, cfg: Config, t: Table, a: Attempt)
    requires Lifecycle(l) && cfg.kind.Incremental? && Healthy(l, cfg.hot, t) && Possible(l, cfg, t, a)
    ensures var after := AfterAttempt(cfg, t, a);
      Healthy(l, cfg.hot, after) && forall r :: r in after.rows ==> r in t.rows || r.updatedSlot <= a.end
  {
    hide AfterImport, Lifecycle, ImportOf, Above, IsIncremental, DeliversOnly, DeliversLive, DeliversCloses, LedgerRow, SettledAt, Latest;
    var above := Above(Some(t.watermark), a.stream);
    var closes := ImportOf(cfg, above).closes;
    IncrementalIsFromLedger(l, a.base, a.end, a.stream);
    ImportDeliversOnly(l, cfg, t.watermark, a.end, a.stream, a.live, a.order);
    IncrementalDelivers(l, cfg, a.base, t.watermark, a.end, a.stream, a.live, a.order);
    ImportSound(l, cfg.hot, t.watermark, a.end, t.rows, a.live, closes, a.order);
    if a.interrupted.None? {
      forall p ensures SettledAt(l, cfg.hot, AfterImport(t.rows, a.live, closes, a.order), a.end, Max(t.horizon, a.end), p) {
        ImportSettlesAt(l, cfg.hot, t.rows, t.watermark, t.horizon, a.end, a.live, closes, a.order, p);
      }
    } else {
      InterruptedKeepsHealthy(l, cfg, t, a);
    }
  }

  lemma IncrementalIsFromLedger(l: Ledger, base: nat, end: nat, stream: seq<AppendVec>)
    requires IsIncremental(l, base, end, stream)
    ensures FromLedger(l, end, stream)
  {
    hide FromLedger;
  }

  lemma InterruptedKeepsHealthy(l: Ledger, cfg: Config, t: Table, a: Attempt)
    requires Lifecycle(l) && cfg.kind.Incremental? && Healthy(l, cfg.hot, t) && Possible(l, cfg, t, a) && a.interrupted.Some?
    ensures var rows := t.rows + a.interrupted.value;
      && Healthy(l, cfg.hot, t.(rows := rows)) && forall r :: r in rows ==> r in t.rows || r.updatedSlot <= a.end
  {
    hide Tombstones, Lifecycle, ImportOf, Above, IsIncremental, DeliversOnly, LedgerRow, SettledAt, Latest;
    var closes := ImportOf(cfg, Above(Some(t.watermark), a.stream)).closes;
    var full := AfterImport(t.rows, a.live, closes, a.order);
    IncrementalIsFromLedger(l, a.base, a.end, a.stream);
    ImportDeliversOnly(l, cfg, t.watermark, a.end, a.stream, a.live, a.order);
    ImportSound(l, cfg.hot, t.watermark, a.end, t.rows, a.live, closes, a.order);
    var more := a.interrupted.value;
    NewRowsAbove(l, cfg.hot, t.watermark, a.end, t.rows, a.live, closes, a.order);
    forall p ensures SettledAt(l, cfg.hot, t.rows + more, t.watermark, t.horizon, p) {
      MoreRowsStaySettled(l, cfg.hot, t.rows, more, t.watermark, t.horizon, p);
    }
  }

  /** A finished import that is not yet recorded leaves what was settled settled. */
  lemma CompletedKeepsHealthy(l: Ledger, cfg: Config, t: Table, a: Attempt)
    requires Lifecycle(l) && cfg.kind.Incremental? && Healthy(l, cfg.hot, t) && Possible(l, cfg, t, a) && a.interrupted.None?
    ensures Healthy(l, cfg.hot, t.(rows := AfterAttempt(cfg, t, a).rows))
  {
    hide Tombstones, Lifecycle, ImportOf, Above, IsIncremental, DeliversOnly, LedgerRow, SettledAt, Latest;
    var closes := ImportOf(cfg, Above(Some(t.watermark), a.stream)).closes;
    var more := a.live + Tombstones(t.rows + a.live, closes, a.order);
    var full := AfterImport(t.rows, a.live, closes, a.order);
    assert full == t.rows + more;
    IncrementalIsFromLedger(l, a.base, a.end, a.stream);
    ImportDeliversOnly(l, cfg, t.watermark, a.end, a.stream, a.live, a.order);
    ImportSound(l, cfg.hot, t.watermark, a.end, t.rows, a.live, closes, a.order);
    NewRowsAbove(l, cfg.hot, t.watermark, a.end, t.rows, a.live, closes, a.order);
    forall p ensures SettledAt(l, cfg.hot, full, t.watermark, t.horizon, p) {
      MoreRowsStaySettled(l, cfg.hot, t.rows, more, t.watermark, t.horizon, p);
    }
  }

  lemma NewRowsAbove(l: Ledger, hot: set<Pubkey>, watermark: nat, end: nat, rows: seq<TokenRow>, live: seq<TokenRow>, closes: map<Pubkey, nat>, order: seq<Pubkey>)
    requires DeliversOnly(l, hot, watermark, end, live, closes) && forall p :: p in order <==> p in closes
    ensures forall r :: r in live || r in Tombstones(rows + live, closes, order) ==> watermark < r.updatedSlot <= end
  {
    hide LedgerRow, IsClose, TokenOf;
    forall r | r in Tombstones(rows + live, closes, order) ensures watermark < r.updatedSlot <= end {
      TombstonesAre(rows + live, closes, order, r);
    }
  }

  // -------------------------------------------------------- whole histories

  /** Every attempt is possible in the table the earlier ones left. */
  ghost predicate History(l: Ledger, cfg: Config, t: Table, attempts: seq<Attempt>)
    decreases |attempts|
  {
    attempts == [] || (Possible(l, cfg, t, attempts[0]) && History(l, cfg, AfterAttempt(cfg, t, attempts[0]), attempts[1..]))
  }

  ghost function AfterHistory(l: Ledger, cfg: Config, t: Table, attempts: seq<Attempt>): Table
    requires History(l, cfg, t, attempts)
    decreases |attempts|
  {
    if attempts == [] then t else AfterHistory(l, cfg, AfterAttempt(cfg, t, attempts[0]), attempts[1..])
  }

  /** No attempt, finished or not, reads an archive that ends beyond `top`. */
  predicate EndBy(attempts: seq<Attempt>, top: nat) { forall a <- attempts :: a.end <= top }

  /**
   Any number of attempts on any fitting archives, interrupted anywhere, keep
   the table healthy; once the watermark has caught up with everything ever
   attempted the table reads exactly as the ledger.
   */
  lemma {:induction false} ReplayConverges(l: Ledger, cfg: Config, t: Table, attempts: seq<Attempt>)
    requires Lifecycle(l) && cfg.kind.Incremental? && Healthy(l, cfg.hot, t) && History(l, cfg, t, attempts)
    ensures var after := AfterHistory(l, cfg, t, attempts);
      && Healthy(l, cfg.hot, after)
      && (Below(t.rows, after.watermark) && t.horizon <= after.watermark && EndBy(attempts, after.watermark) ==>
            Exact(l, cfg.hot, after.rows, after.watermark))
    decreases |attempts|
  {
    hide Lifecycle, Healthy, Possible, AfterAttempt, Exact;
    if attempts == [] {
      if Below(t.rows, t.watermark) && t.horizon <= t.watermark {
        HealthyIsExact(l, cfg.hot, t);
      }
    } else {
      PossibleOrder(l, cfg, t, attempts[0]);
      var next := AfterAttempt(cfg, t, attempts[0]);
      AttemptKeepsHealthy(l, cfg, t, attempts[0]);
      ReplayConverges(l, cfg, next, attempts[1..]);
      var top := AfterHistory(l, cfg, t, attempts).watermark;
      if t.horizon <= top && attempts[0].end <= top {
        AttemptHorizon(cfg, t, attempts[0], top);
      }
    }
  }

  lemma PossibleOrder(l: Ledger, cfg: Config, t: Table, a: Attempt)
    requires Possible(l, cfg, t, a)
    ensures forall p <- a.order :: p in ImportOf(cfg, Above(Some(t.watermark), a.stream)).closes
  {
    hide ImportOf, Above, IsIncremental;
  }

  lemma HealthyIsExact(l: Ledger, hot: set<Pubkey>, t: Table)
    requires Healthy(l, hot, t) && Below(t.rows, t.watermark) && t.horizon <= t.watermark
    ensures Exact(l, hot, t.rows, t.watermark)
  {
    hide Settled, Exact, Sound;
    SettledBelowIsExact(l, hot, t.rows, t.watermark);
  }

  lemma AttemptHorizon(cfg: Config, t: Table, a: Attempt, top: nat)
    requires forall p <- a.order :: p in ImportOf(cfg, Above(Some(t.watermark), a.stream)).closes
    requires t.horizon <= top && a.end <= top
    ensures AfterAttempt(cfg, t, a).horizon <= top
  {
    hide ImportOf, Above, AfterImport;
  }

  // ------------------------------------------------------ full baselines

  /** `rows` is what a full import of the archive writes into an empty table; the reader passes over slot 0. */
  ghost predicate IsBaseline(cfg: Config, stream: seq<AppendVec>, rows: seq<TokenRow>) {
    multiset(rows) == ImportOf(cfg, Above(Some(0), stream)).rows.tokens
  }

  /** The rows of a baseline are the last records of their accounts. */
  lemma BaselineRow(l: Ledger, cfg: Config, end: nat, stream: seq<AppendVec>, rows: seq<TokenRow>, r: TokenRow)
    requires cfg.kind.Full? && IsFull(l, end, stream) && IsBaseline(cfg, stream, rows)
    requires r in rows
    ensures r.updatedSlot > 0 && Latest(l, r.pubkey, end) == Some(r.updatedSlot)
    ensures Some(r) == RecordView(cfg.hot, l[(r.pubkey, r.updatedSlot)], r.updatedSlot) && LedgerRow(l, cfg.hot, r)
  {
    hide ImportOf, Above, Holds, TokenOf, Latest, IsClose, HadPair;
    assert r in multiset(rows);
    ImportTokens(cfg, Above(Some(0), stream), r);
    var slot: nat, a :| Holds(Above(Some(0), stream), slot, a) && r in LiveRows(cfg, a, slot);
    HoldsAbove(0, stream, slot, a);
  }

  lemma BaselineHas(l: Ledger, cfg: Config, end: nat, stream: seq<AppendVec>, rows: seq<TokenRow>, p: Pubkey)
    requires Lifecycle(l) && cfg.kind.Full? && IsFull(l, end, stream) && IsBaseline(cfg, stream, rows)
    requires LedgerView(l, cfg.hot, p, end).Some? && Latest(l, p, end).value > 0
    ensures LedgerView(l, cfg.hot, p, end).value in rows && LedgerView(l, cfg.hot, p, end).value.pubkey == p
  {
    hide ImportOf, Above, TokenOf, Latest, IsClose;
    var s := Latest(l, p, end).value;
    var a := l[(p, s)];
    assert Sensible(a);
    HoldsAbove(0, stream, s, a);
    var row := LedgerView(l, cfg.hot, p, end).value;
    assert row in LiveRows(cfg, a, s);
    assert HasLiveRow(cfg, Above(Some(0), stream), row) by { hide Holds; }
    ImportTokens(cfg, Above(Some(0), stream), row);
    assert row in multiset(rows);
  }

  /**
   A baseline is exact exactly when no hot account with a positive balance was
   last written at slot 0, which the reader's watermark filter drops.
   */
  lemma BaselineExactIff(l: Ledger, cfg: Config, end: nat, stream: seq<AppendVec>, rows: seq<TokenRow>)
    requires Lifecycle(l) && cfg.kind.Full? && IsFull(l, end, stream) && IsBaseline(cfg, stream, rows)
    ensures Sound(l, cfg.hot, rows) && Below(rows, end)
    ensures Exact(l, cfg.hot, rows, end) <==>
      forall p :: Latest(l, p, end) == Some(0) ==> RecordView(cfg.hot, l[(p, 0)], 0).None?
  {
    hide IsFull, IsBaseline, Latest, Lifecycle, LedgerRow, RecordView;
    forall r | r in rows ensures LedgerRow(l, cfg.hot, r) && r.updatedSlot <= end {
      BaselineRow(l, cfg, end, stream, rows, r);
    }
    forall p ensures if Latest(l, p, end) == Some(0) then View(rows, p).None? else View(rows, p) == LedgerView(l, cfg.hot, p, end) {
      BaselineAt(l, cfg, end, stream, rows, p);
    }
  }

  lemma BaselineAt(l: Ledger, cfg: Config, end: nat, stream: seq<AppendVec>, rows: seq<TokenRow>, p: Pubkey)
    requires Lifecycle(l) && cfg.kind.Full? && IsFull(l, end, stream) && IsBaseline(cfg, stream, rows)
    ensures if Latest(l, p, end) == Some(0) then View(rows, p).None? else View(rows, p) == LedgerView(l, cfg.hot, p, end)
  {
    hide IsFull, IsBaseline, Latest, Lifecycle, TokenOf, LedgerRow;
    if Newest(rows, p).Some? {
      BaselineRow(l, cfg, end, stream, rows, Newest(rows, p).value);
    } else if LedgerView(l, cfg.hot, p, end).Some? && Latest(l, p, end).value > 0 {
      BaselineHas(l, cfg, end, stream, rows, p);
    }
  }

  /** An exact baseline starts a healthy table. */
  lemma BaselineIsHealthy(l: Ledger, cfg: Config, end: nat, stream: seq<AppendVec>, rows: seq<TokenRow>)
    requires Lifecycle(l) && cfg.kind.Full? && IsFull(l, end, stream) && IsBaseline(cfg, stream, rows)
    requires forall p :: Latest(l, p, end) == Some(0) ==> RecordView(cfg.hot, l[(p, 0)], 0).None?
    ensures Healthy(l, cfg.hot, Table(rows, end, end)) && Below(rows, end)
  {
    hide IsFull, IsBaseline, Latest, Lifecycle, Sound, View, LedgerView, RecordView;
    BaselineExactIff(l, cfg, end, stream, rows);
  }

  /** The slot-0 account that a baseline misses. */
  lemma BaselineMissesSlotZero(hot: set<Pubkey>, rows: seq<TokenRow>)
    requires "m" in hot
    ensures var t := TokenState("m", "o", 1, None, 0, 1, None);
      var a := Account("p", SPL_TOKEN_ID, 1, SPL_ACCOUNT_LEN, false, Decoded(Some(t), None, NoBase, None, None, None));
      var l: Ledger := map[("p", 0) := a];
      var stream := [AppendVec(0, 304, [a])];
      && Lifecycle(l) && IsFull(l, 0, stream)
      && (IsBaseline(Config(Full, 0, hot, true), stream, rows) ==> !Exact(l, hot, rows, 0))
  {
    hide IsBaseline, Exact;
    var t := TokenState("m", "o", 1, None, 0, 1, None);
    var a := Account("p", SPL_TOKEN_ID, 1, SPL_ACCOUNT_LEN, false, Decoded(Some(t), None, NoBase, None, None, None));
    var l: Ledger := map[("p", 0) := a];
    var stream := [AppendVec(0, 304, [a])];
    assert a in [a] && stream[0] in stream;
    assert Latest(l, "p", 0) == Some(0) && Holds(stream, 0, a);
    assert RecordView(hot, a, 0).Some?;
    if IsBaseline(Config(Full, 0, hot, true), stream, rows) {
      BaselineExactIff(l, Config(Full, 0, hot, true), 0, stream, rows);
    }
  }

  // ------------------------------------------------ the bridge on active

  /** Accounts that are live at `horizon` read as the ledger has them; closed ones may linger. */
  ghost predicate LiveSettled(l: Ledger, hot: set<Pubkey>, rows: seq<TokenRow>, watermark: nat, horizon: nat) {
    forall p :: LedgerView(l, hot, p, horizon).Some? ==> SettledAt(l, hot, rows, watermark, horizon, p)
  }

  /** A full archive delivers every hot account whose last record is above the watermark. */
  lemma FullDelivers(l: Ledger, cfg: Config, watermark: nat, end: nat, stream: seq<AppendVec>, live: seq<TokenRow>, order: seq<Pubkey>)
    requires Lifecycle(l) && cfg.kind.Incremental? && IsFull(l, end, stream)
    requires IsImport(cfg, Above(Some(watermark), stream), live, order)
    ensures DeliversOnly(l, cfg.hot, watermark, end, live, ImportOf(cfg, Above(Some(watermark), stream)).closes)
    ensures DeliversLive(l, cfg.hot, watermark, end, live)
  {
    hide ImportOf, Above, Holds, IsClose, TokenOf, Latest, DeliversOnly;
    ImportDeliversOnly(l, cfg, watermark, end, stream, live, order);
    forall p | var s := Latest(l, p, end);
        s.Some? && s.value > watermark && TokenOf(l[(p, s.value)]).Some? && TokenOf(l[(p, s.value)]).value.mint in cfg.hot
      ensures LiveRow(p, TokenOf(l[(p, Latest(l, p, end).value)]).value, Latest(l, p, end).value) in live {
      var s := Latest(l, p, end).value;
      assert Sensible(l[(p, s)]);
      ImportDeliversRecord(l, cfg, watermark, stream, live, order, l[(p, s)], s);
    }
  }

  lemma LiveSettlesAt(l: Ledger, hot: set<Pubkey>, rows: seq<TokenRow>, watermark: nat, horizon: nat, end: nat,
      live: seq<TokenRow>, closes: map<Pubkey, nat>, order: seq<Pubkey>, p: Pubkey)
    requires Lifecycle(l) && Sound(l, hot, rows) && watermark <= horizon
    requires DeliversOnly(l, hot, watermark, end, live, closes) && DeliversLive(l, hot, watermark, end, live)
    requires (forall q :: q in order <==> q in closes) && LiveSettled(l, hot, rows, watermark, horizon)
    requires LedgerView(l, hot, p, Max(horizon, end)).Some?
    ensures SettledAt(l, hot, AfterImport(rows, live, closes, order), end, Max(horizon, end), p)
  {
    hide AfterImport, TokenOf, IsClose, Lifecycle, Latest, LedgerRow, TombstoneFor, View, DeliversOnly, Sound;
    var top, after := Max(horizon, end), AfterImport(rows, live, closes, order);
    var s := Latest(l, p, top);
    if s.value <= watermark {
      LatestAgain(l, p, horizon, top);
      UntouchedAt(l, hot, rows, watermark, horizon, end, live, closes, order, p);
    } else if s.value <= end && !HasRowAbove(after, p, top) {
      ImportSound(l, hot, watermark, end, rows, live, closes, order);
      HotAt(l, hot, rows, watermark, end, top, live, closes, order, p);
    }
  }

  /**
   The tail of a full archive, applied to active above its resume slot, keeps
   every live account current, and so does any later incremental import.
   */
  lemma BridgeKeepsLive(l: Ledger, cfg: Config, t: Table, end: nat, stream: seq<AppendVec>, live: seq<TokenRow>, order: seq<Pubkey>)
    requires Lifecycle(l) && cfg.kind.Incremental?
    requires IsFull(l, end, stream) || (exists base: nat :: base <= t.watermark && IsIncremental(l, base, end, stream))
    requires t.watermark <= t.horizon && Sound(l, cfg.hot, t.rows) && LiveSettled(l, cfg.hot, t.rows, t.watermark, t.horizon)
    requires IsImport(cfg, Above(Some(t.watermark), stream), live, order)
    ensures var after := AfterImport(t.rows, live, ImportOf(cfg, Above(Some(t.watermark), stream)).closes, order);
      Sound(l, cfg.hot, after) && LiveSettled(l, cfg.hot, after, end, Max(t.horizon, end))
  {
    hide AfterImport, Lifecycle, ImportOf, Above, IsIncremental, IsFull, DeliversOnly, DeliversLive, DeliversCloses, LedgerRow, SettledAt, Latest, LedgerView;
    var closes := ImportOf(cfg, Above(Some(t.watermark), stream)).closes;
    if IsFull(l, end, stream) {
      FullDelivers(l, cfg, t.watermark, end, stream, live, order);
    } else {
      var base: nat :| base <= t.watermark && IsIncremental(l, base, end, stream);
      IncrementalIsFromLedger(l, base, end, stream);
      ImportDeliversOnly(l, cfg, t.watermark, end, stream, live, order);
      IncrementalDelivers(l, cfg, base, t.watermark, end, stream, live, order);
    }
    ImportSound(l, cfg.hot, t.watermark, end, t.rows, live, closes, order);
    forall p | LedgerView(l, cfg.hot, p, Max(t.horizon, end)).Some?
      ensures SettledAt(l, cfg.hot, AfterImport(t.rows, live, closes, order), end, Max(t.horizon, end), p) {
      LiveSettlesAt(l, cfg.hot, t.rows, t.watermark, t.horizon, end, live, closes, order, p);
    }
  }
}
