/**
 Imports of archives in which storage files cannot be read. Such a file is
 passed over and the import succeeds, so the watermark moves over what it held;
 what the table then says is decided by the records nobody read.
 */
module UnreadableFiles {
  import opened Wrappers
  import opened Sequences
  import opened ImportOutput
  import opened Accounts
  import opened Ledgers
  import opened HotState
  import opened BalanceRecords
  import opened BalanceExamples

  // ------------------------------------------------------- what is not read

  function StorageFile(e: ArchiveEntry): Option<AppendVec> { if e.File? then Some(e.file) else None }

  /** All storage files of an archive, readable or not. */
  function AllFiles(entries: seq<ArchiveEntry>): seq<AppendVec> {
    if entries == [] then [] else AsSeq(StorageFile(entries[0])) + AllFiles(entries[1..])
  }

  ghost predicate InUnreadable(entries: seq<ArchiveEntry>, slot: nat, a: Account) {
    exists e <- entries :: e.File? && !e.readable && e.file.slot == slot && a in e.file.accounts
  }

  lemma {:induction false} FilesAre(entries: seq<ArchiveEntry>, f: AppendVec)
    ensures f in AllFiles(entries) <==> File(f, true) in entries || File(f, false) in entries
    ensures f in ReadableFiles(entries) <==> File(f, true) in entries
  {
    if entries != [] {
      FilesAre(entries[1..], f);
      assert forall e :: e in entries <==> e == entries[0] || e in entries[1..];
    }
  }

  /** A record of the archive is read or in a file that cannot be. */
  lemma HeldOrUnreadable(entries: seq<ArchiveEntry>, slot: nat, a: Account)
    ensures Holds(AllFiles(entries), slot, a) <==> Holds(ReadableFiles(entries), slot, a) || InUnreadable(entries, slot, a)
  {
    if Holds(AllFiles(entries), slot, a) {
      var f :| f in AllFiles(entries) && f.slot == slot && a in f.accounts;
      FilesAre(entries, f);
      assert File(f, false) in entries ==> InUnreadable(entries, slot, a);
    }
    if Holds(ReadableFiles(entries), slot, a) {
      var f :| f in ReadableFiles(entries) && f.slot == slot && a in f.accounts;
      FilesAre(entries, f);
    }
    if e :| e in entries && e.File? && !e.readable && e.file.slot == slot && a in e.file.accounts {
      assert e == File(e.file, false);
      FilesAre(entries, e.file);
    }
  }

  // -------------------------------------------------------- one account

  ghost predicate HasRowFrom(rows: seq<TokenRow>, p: Pubkey, slot: nat) {
    exists r :: r in rows && r.pubkey == p && r.updatedSlot >= slot
  }

  /** The last record of an account is above the watermark, was not read, and is not in the table from an earlier attempt. */
  ghost predicate Hole(l: Ledger, rows: seq<TokenRow>, watermark: nat, end: nat, top: nat, read: seq<AppendVec>, p: Pubkey) {
    var s := Latest(l, p, top);
    s.Some? && watermark < s.value <= end && !Holds(read, s.value, l[(p, s.value)]) && !HasRowFrom(rows, p, s.value)
  }

  /** The table does not show the account, and should not. */
  ghost predicate Unseen(l: Ledger, hot: set<Pubkey>, rows: seq<TokenRow>, top: nat, p: Pubkey) {
    View(rows, p).None? && LedgerView(l, hot, p, top).None?
  }

  /** Every row an import adds stands for a record that was read. */
  lemma AddedRowsWereRead(l: Ledger, cfg: Config, watermark: nat, end: nat, read: seq<AppendVec>, rows: seq<TokenRow>,
      live: seq<TokenRow>, order: seq<Pubkey>, r: TokenRow)
    requires Lifecycle(l) && cfg.kind.Incremental? && FromLedger(l, end, read) && IsImport(cfg, Above(Some(watermark), read), live, order)
    requires r in AfterImport(rows, live, ImportOf(cfg, Above(Some(watermark), read)).closes, order) && r !in rows
    ensures (r.pubkey, r.updatedSlot) in l && Holds(read, r.updatedSlot, l[(r.pubkey, r.updatedSlot)]) && watermark < r.updatedSlot <= end
  {
    hide ImportOf, Above, Holds, IsClose, TokenOf, Sensible, AfterImport;
    var above := Above(Some(watermark), read);
    var closes := ImportOf(cfg, above).closes;
    RowsAfterImport(rows, live, closes, order, r);
    if r in live {
      assert r in multiset(live);
      ImportTokens(cfg, above, r);
      var slot: nat, a :| Holds(above, slot, a) && r in LiveRows(cfg, a, slot);
      HoldsAbove(watermark, read, slot, a);
    } else {
      ImportCloses(cfg, above, r.pubkey);
      var a :| Holds(above, closes[r.pubkey], a) && a.pubkey == r.pubkey && Closes(cfg, a);
      HoldsAbove(watermark, read, closes[r.pubkey], a);
    }
  }

  /** A last record that is read is settled, whatever else is not. */
  lemma HeldSettles(l: Ledger, cfg: Config, watermark: nat, end: nat, top: nat, read: seq<AppendVec>, rows: seq<TokenRow>,
      live: seq<TokenRow>, order: seq<Pubkey>, p: Pubkey)
    requires Lifecycle(l) && cfg.kind.Incremental? && FromLedger(l, end, read) && IsImport(cfg, Above(Some(watermark), read), live, order)
    requires var after := AfterImport(rows, live, ImportOf(cfg, Above(Some(watermark), read)).closes, order);
      Sound(l, cfg.hot, after) && !HasRowAbove(after, p, top)
    requires var s := Latest(l, p, top); s.Some? && watermark < s.value <= end <= top && Holds(read, s.value, l[(p, s.value)])
    ensures View(AfterImport(rows, live, ImportOf(cfg, Above(Some(watermark), read)).closes, order), p) == LedgerView(l, cfg.hot, p, top)
  {
    hide ImportOf, Above, Holds, IsClose, TokenOf, Latest, Sensible, AfterImport, Sound, HasRowAbove;
    var s, closes := Latest(l, p, top).value, ImportOf(cfg, Above(Some(watermark), read)).closes;
    var a := l[(p, s)];
    if TokenOf(a).Some? && TokenOf(a).value.mint in cfg.hot {
      ImportDeliversRecord(l, cfg, watermark, read, live, order, a, s);
      var r := LiveRow(p, TokenOf(a).value, s);
      RowsAfterImport(rows, live, closes, order, r);
      ViewAtLatest(l, cfg.hot, AfterImport(rows, live, closes, order), p, top, r);
    } else if TokenOf(a).None? && IsClose(a) {
      HeldCloseIsCandidate(l, cfg, watermark, end, top, read, p);
      ClosedAt(l, cfg.hot, rows, end, top, live, closes, order, p);
    } else {
      NeitherAt(l, cfg.hot, AfterImport(rows, live, closes, order), top, p);
    }
  }

  lemma HeldCloseIsCandidate(l: Ledger, cfg: Config, watermark: nat, end: nat, top: nat, read: seq<AppendVec>, p: Pubkey)
    requires Lifecycle(l) && cfg.kind.Incremental? && FromLedger(l, end, read) && end <= top
    requires var s := Latest(l, p, top); s.Some? && s.value > watermark && Holds(read, s.value, l[(p, s.value)]) && IsClose(l[(p, s.value)])
    ensures var closes := ImportOf(cfg, Above(Some(watermark), read)).closes; p in closes && closes[p] == Latest(l, p, top).value
  {
    hide ImportOf, Above, Holds, IsClose, TokenOf, Latest, Sensible;
    var above, s := Above(Some(watermark), read), Latest(l, p, top).value;
    HoldsAbove(watermark, read, s, l[(p, s)]);
    assert HasClose(cfg, above, p, s);
    ImportCloses(cfg, above, p);
    var closes := ImportOf(cfg, above).closes;
    var a :| Holds(above, closes[p], a) && a.pubkey == p && Closes(cfg, a);
    HoldsAbove(watermark, read, closes[p], a);
  }

  /** An account is settled after the import unless its last record is a hole that shows. */
  lemma AccountSettlesIff(l: Ledger, cfg: Config, t: Table, end: nat, read: seq<AppendVec>, live: seq<TokenRow>, order: seq<Pubkey>, p: Pubkey)
    requires Lifecycle(l) && cfg.kind.Incremental? && Sound(l, cfg.hot, t.rows) && t.watermark <= t.horizon
    requires SettledAt(l, cfg.hot, t.rows, t.watermark, t.horizon, p)
    requires FromLedger(l, end, read) && IsImport(cfg, Above(Some(t.watermark), read), live, order)
    ensures var after, top := AfterImport(t.rows, live, ImportOf(cfg, Above(Some(t.watermark), read)).closes, order), Max(t.horizon, end);
      SettledAt(l, cfg.hot, after, end, top, p) <==> (Hole(l, t.rows, t.watermark, end, top, read, p) ==> Unseen(l, cfg.hot, after, top, p))
  {
    hide ImportOf, Above, Holds, IsClose, TokenOf, Latest, AfterImport, Lifecycle, LedgerRow, View, LedgerView, FromLedger, DeliversOnly;
    var closes, top := ImportOf(cfg, Above(Some(t.watermark), read)).closes, Max(t.horizon, end);
    var after, s := AfterImport(t.rows, live, closes, order), Latest(l, p, top);
    ImportDeliversOnly(l, cfg, t.watermark, end, read, live, order);
    ImportSound(l, cfg.hot, t.watermark, end, t.rows, live, closes, order);
    if s.None? || s.value <= t.watermark {
      UntouchedAt(l, cfg.hot, t.rows, t.watermark, t.horizon, end, live, closes, order, p);
    } else if s.value <= end {
      forall r ensures r in t.rows ==> r in after {
        RowsAfterImport(t.rows, live, closes, order, r);
      }
      if HasRowAbove(after, p, top) {
        assert HasRowFrom(t.rows, p, s.value);
      } else if Holds(read, s.value, l[(p, s.value)]) {
        HeldSettles(l, cfg, t.watermark, end, top, read, t.rows, live, order, p);
      } else if HasRowFrom(t.rows, p, s.value) {
        var r :| r in t.rows && r.pubkey == p && r.updatedSlot >= s.value;
        StoredRowIsLast(l, cfg.hot, r, top);
        ViewAtLatest(l, cfg.hot, after, p, top, r);
      } else {
        HoleIsWrongIfSeen(l, cfg, t.watermark, end, top, read, t.rows, live, order, p);
      }
    }
  }

  lemma StoredRowIsLast(l: Ledger, hot: set<Pubkey>, r: TokenRow, top: nat)
    requires LedgerRow(l, hot, r) && r.updatedSlot <= top && Latest(l, r.pubkey, top).Some? && r.updatedSlot >= Latest(l, r.pubkey, top).value
    ensures Latest(l, r.pubkey, top) == Some(r.updatedSlot)
  {
    hide TokenOf, IsClose, HadPair;
  }

  /** Nothing in the table stands for the last record, so the read is right only if both are nothing. */
  lemma HoleIsWrongIfSeen(l: Ledger, cfg: Config, watermark: nat, end: nat, top: nat, read: seq<AppendVec>, rows: seq<TokenRow>,
      live: seq<TokenRow>, order: seq<Pubkey>, p: Pubkey)
    requires Lifecycle(l) && cfg.kind.Incremental? && FromLedger(l, end, read) && IsImport(cfg, Above(Some(watermark), read), live, order)
    requires Hole(l, rows, watermark, end, top, read, p)
    ensures var after := AfterImport(rows, live, ImportOf(cfg, Above(Some(watermark), read)).closes, order);
      View(after, p) == LedgerView(l, cfg.hot, p, top) <==> Unseen(l, cfg.hot, after, top, p)
  {
    hide ImportOf, Above, Holds, IsClose, TokenOf, Latest, AfterImport, FromLedger, Newest;
    var after := AfterImport(rows, live, ImportOf(cfg, Above(Some(watermark), read)).closes, order);
    if View(after, p) == LedgerView(l, cfg.hot, p, top) && View(after, p).Some? {
      var r := View(after, p).value;
      ViewIsRow(after, p);
      if r !in rows {
        AddedRowsWereRead(l, cfg, watermark, end, read, rows, live, order, r);
      }
      assert false;
    }
  }

  lemma ViewIsRow(rows: seq<TokenRow>, p: Pubkey)
    ensures View(rows, p).Some? ==> View(rows, p).value in rows && View(rows, p).value.pubkey == p
  {
  }

  // ------------------------------------------------------- whole imports

  /**
   An import of an archive of which some files cannot be read leaves the table
   healthy at the archive's end if and only if the table neither shows nor should
   show any account whose last record was not read.
   */
  lemma ImportSettlesIff(l: Ledger, cfg: Config, t: Table, end: nat, entries: seq<ArchiveEntry>, live: seq<TokenRow>, order: seq<Pubkey>)
    requires Lifecycle(l) && cfg.kind.Incremental? && Healthy(l, cfg.hot, t) && FromLedger(l, end, ReadableFiles(entries))
    requires IsImport(cfg, Readable(Items(Some(t.watermark), entries)), live, order)
    ensures var closes, top := ImportOf(cfg, Readable(Items(Some(t.watermark), entries))).closes, Max(t.horizon, end);
      && (forall q <- order :: q in closes)
      && var after := AfterImport(t.rows, live, closes, order);
      Healthy(l, cfg.hot, Table(after, end, top)) <==>
        forall p :: Hole(l, t.rows, t.watermark, end, top, ReadableFiles(entries), p) ==> Unseen(l, cfg.hot, after, top, p)
  {
    hide ImportOf, Above, FromLedger, DeliversOnly, Lifecycle, LedgerRow, SettledAt, AfterImport, Hole, Unseen, Items;
    var read := ReadableFiles(entries);
    ItemsAreAbove(Some(t.watermark), entries);
    var closes, top := ImportOf(cfg, Above(Some(t.watermark), read)).closes, Max(t.horizon, end);
    ImportDeliversOnly(l, cfg, t.watermark, end, read, live, order);
    ImportSound(l, cfg.hot, t.watermark, end, t.rows, live, closes, order);
    forall p ensures SettledAt(l, cfg.hot, AfterImport(t.rows, live, closes, order), end, top, p)
        <==> (Hole(l, t.rows, t.watermark, end, top, read, p) ==> Unseen(l, cfg.hot, AfterImport(t.rows, live, closes, order), top, p)) {
      AccountSettlesIff(l, cfg, t, end, read, live, order, p);
    }
  }

  /** Of a truthful archive without broken entries, a hole lies in a file that could not be read. */
  lemma HoleIsUnreadable(l: Ledger, rows: seq<TokenRow>, base: nat, watermark: nat, end: nat, top: nat, entries: seq<ArchiveEntry>, p: Pubkey)
    requires IsIncremental(l, base, end, AllFiles(entries)) && base <= watermark && end <= top
    requires Hole(l, rows, watermark, end, top, ReadableFiles(entries), p)
    ensures var s := Latest(l, p, top).value; InUnreadable(entries, s, l[(p, s)])
  {
    hide Holds, Latest, FromLedger;
    var s := Latest(l, p, top).value;
    LatestAgain(l, p, end, top);
    HeldOrUnreadable(entries, s, l[(p, s)]);
  }

  /** What was missed is not delivered by any later import: the account stays as it is until it changes again. */
  lemma HoleStays(l: Ledger, cfg: Config, watermark: nat, end: nat, read: seq<AppendVec>, rows: seq<TokenRow>, live: seq<TokenRow>, order: seq<Pubkey>, p: Pubkey)
    requires Lifecycle(l) && cfg.kind.Incremental? && FromLedger(l, end, read) && IsImport(cfg, Above(Some(watermark), read), live, order)
    requires Latest(l, p, end).None? || Latest(l, p, end).value <= watermark
    ensures View(AfterImport(rows, live, ImportOf(cfg, Above(Some(watermark), read)).closes, order), p) == View(rows, p)
  {
    hide ImportOf, Above, FromLedger, Latest, Tombstones;
    var closes := ImportOf(cfg, Above(Some(watermark), read)).closes;
    var more := live + Tombstones(rows + live, closes, order);
    assert AfterImport(rows, live, closes, order) == rows + more;
    forall r | r in more ensures r.pubkey != p {
      AddedIsAbove(l, cfg, watermark, end, read, rows, live, order, r);
    }
    NewestIgnores(rows, more, p);
  }

  lemma AddedIsAbove(l: Ledger, cfg: Config, watermark: nat, end: nat, read: seq<AppendVec>, rows: seq<TokenRow>, live: seq<TokenRow>, order: seq<Pubkey>, r: TokenRow)
    requires Lifecycle(l) && cfg.kind.Incremental? && FromLedger(l, end, read) && IsImport(cfg, Above(Some(watermark), read), live, order)
    requires r in live + Tombstones(rows + live, ImportOf(cfg, Above(Some(watermark), read)).closes, order)
    ensures (r.pubkey, r.updatedSlot) in l && watermark < r.updatedSlot <= end
  {
    hide ImportOf, Above, FromLedger, Tombstones, Lifecycle, IsClose, TokenOf;
    var closes := ImportOf(cfg, Above(Some(watermark), read)).closes;
    ImportDeliversOnly(l, cfg, watermark, end, read, live, order);
    if r !in live {
      TombstonesAre(rows + live, closes, order, r);
      assert r.updatedSlot == closes[r.pubkey];
    }
  }

  // ------------------------------------------------------------- baselines

  /** Part of what a full archive holds. */
  ghost predicate PartOfFull(l: Ledger, end: nat, read: seq<AppendVec>) {
    && FromLedger(l, end, read)
    && (forall slot: nat, a :: Holds(read, slot, a) ==> Latest(l, a.pubkey, end) == Some(slot) && a.lamports > 0)
  }

  lemma ReadablePart(l: Ledger, end: nat, entries: seq<ArchiveEntry>)
    requires IsFull(l, end, AllFiles(entries))
    ensures PartOfFull(l, end, ReadableFiles(entries))
  {
    hide Holds, Latest;
    forall slot: nat, a | Holds(ReadableFiles(entries), slot, a) ensures Holds(AllFiles(entries), slot, a) {
      HeldOrUnreadable(entries, slot, a);
    }
  }

  lemma BaselineReadRow(l: Ledger, cfg: Config, end: nat, read: seq<AppendVec>, rows: seq<TokenRow>, r: TokenRow)
    requires cfg.kind.Full? && PartOfFull(l, end, read) && IsBaseline(cfg, read, rows) && r in rows
    ensures r.updatedSlot > 0 && Latest(l, r.pubkey, end) == Some(r.updatedSlot) && Holds(read, r.updatedSlot, l[(r.pubkey, r.updatedSlot)])
    ensures Some(r) == RecordView(cfg.hot, l[(r.pubkey, r.updatedSlot)], r.updatedSlot) && LedgerRow(l, cfg.hot, r)
  {
    hide ImportOf, Above, Holds, TokenOf, Latest, IsClose, HadPair;
    assert r in multiset(rows);
    ImportTokens(cfg, Above(Some(0), read), r);
    var slot: nat, a :| Holds(Above(Some(0), read), slot, a) && r in LiveRows(cfg, a, slot);
    HoldsAbove(0, read, slot, a);
  }

  lemma BaselineReadHas(l: Ledger, cfg: Config, end: nat, read: seq<AppendVec>, rows: seq<TokenRow>, p: Pubkey)
    requires Lifecycle(l) && cfg.kind.Full? && IsBaseline(cfg, read, rows) && LedgerView(l, cfg.hot, p, end).Some?
    requires var s := Latest(l, p, end).value; s > 0 && Holds(read, s, l[(p, s)])
    ensures LedgerView(l, cfg.hot, p, end).value in rows && LedgerView(l, cfg.hot, p, end).value.pubkey == p
  {
    hide ImportOf, Above, TokenOf, Latest, IsClose, Holds;
    var s := Latest(l, p, end).value;
    var a := l[(p, s)];
    HoldsAbove(0, read, s, a);
    var row := LedgerView(l, cfg.hot, p, end).value;
    assert row in LiveRows(cfg, a, s);
    assert HasLiveRow(cfg, Above(Some(0), read), row);
    ImportTokens(cfg, Above(Some(0), read), row);
    assert row in multiset(rows);
  }

  ghost predicate LastIsRead(l: Ledger, end: nat, read: seq<AppendVec>, p: Pubkey) {
    var s := Latest(l, p, end);
    s.Some? && s.value > 0 && Holds(read, s.value, l[(p, s.value)])
  }

  /** What a baseline shows of an account: its last record if that was read and is above slot 0, and otherwise nothing. */
  lemma BaselineReadAt(l: Ledger, cfg: Config, end: nat, read: seq<AppendVec>, rows: seq<TokenRow>, p: Pubkey)
    requires Lifecycle(l) && cfg.kind.Full? && PartOfFull(l, end, read) && IsBaseline(cfg, read, rows)
    ensures View(rows, p) == if LastIsRead(l, end, read, p) then LedgerView(l, cfg.hot, p, end) else None
  {
    hide PartOfFull, IsBaseline, Latest, Lifecycle, TokenOf, LedgerRow, Holds;
    if Newest(rows, p).Some? {
      BaselineReadRow(l, cfg, end, read, rows, Newest(rows, p).value);
    } else if LedgerView(l, cfg.hot, p, end).Some? && LastIsRead(l, end, read, p) {
      BaselineReadHas(l, cfg, end, read, rows, p);
    }
  }

  /** A baseline is exact if and only if the last record of every positive hot account was read, above slot 0. */
  lemma BaselineReadIff(l: Ledger, cfg: Config, end: nat, entries: seq<ArchiveEntry>, rows: seq<TokenRow>)
    requires Lifecycle(l) && cfg.kind.Full? && IsFull(l, end, AllFiles(entries))
    requires multiset(rows) == ImportOf(cfg, Readable(Items(Some(0), entries))).rows.tokens
    ensures Sound(l, cfg.hot, rows) && Below(rows, end)
    ensures Exact(l, cfg.hot, rows, end) <==>
      forall p :: LedgerView(l, cfg.hot, p, end).Some? ==> LastIsRead(l, end, ReadableFiles(entries), p)
  {
    hide IsFull, ImportOf, Above, Latest, Lifecycle, LedgerRow, RecordView, PartOfFull, LastIsRead, View, LedgerView, Items;
    var read := ReadableFiles(entries);
    ItemsAreAbove(Some(0), entries);
    ReadablePart(l, end, entries);
    forall r | r in rows ensures LedgerRow(l, cfg.hot, r) && r.updatedSlot <= end {
      BaselineReadRow(l, cfg, end, read, rows, r);
    }
    forall p ensures View(rows, p) == if LastIsRead(l, end, read, p) then LedgerView(l, cfg.hot, p, end) else None {
      BaselineReadAt(l, cfg, end, read, rows, p);
    }
  }

  /** And one that was not read lies in a file that could not be. */
  lemma PositiveIsHeld(l: Ledger, hot: set<Pubkey>, end: nat, entries: seq<ArchiveEntry>, p: Pubkey)
    requires Lifecycle(l) && IsFull(l, end, AllFiles(entries)) && LedgerView(l, hot, p, end).Some?
    ensures var s := Latest(l, p, end);
      s.Some? && (Holds(ReadableFiles(entries), s.value, l[(p, s.value)]) || InUnreadable(entries, s.value, l[(p, s.value)]))
  {
    hide Holds, Latest, TokenOf, InUnreadable;
    var s := Latest(l, p, end).value;
    assert Sensible(l[(p, s)]);
    HeldOrUnreadable(entries, s, l[(p, s)]);
  }

  // --------------------------------------------------------------- a hole

  /**
   `p` holds 5 at slot 100 and is closed at 150, in a file that cannot be read.
   The import of the archive from 100 to 150 delivers nothing and succeeds; the
   table still shows `p` at the watermark 150.
   */
  lemma MissedClose()
    ensures var entries := [File(FileOf(150, Gone("p")), false)];
      && Lifecycle(TORN_LEDGER) && IsIncremental(TORN_LEDGER, 100, 150, AllFiles(entries))
      && Healthy(TORN_LEDGER, HOT, Table(TORN_ROWS, 100, 100))
      && IsImport(DeltaOf(150), Readable(Items(Some(100), entries)), [], [])
      && AfterImport(TORN_ROWS, [], map[], []) == TORN_ROWS && !Healthy(TORN_LEDGER, HOT, Table(TORN_ROWS, 150, 150))
  {
    hide IsIncremental, Lifecycle, Sound, Holding, Gone;
    var entries := [File(FileOf(150, Gone("p")), false)];
    TornLedger();
    assert entries[1..] == [];
    assert AllFiles(entries) == TORN_ARCHIVE && Readable(Items(Some(100), entries)) == [];
    assert TORN_ROWS + [] + [] == TORN_ROWS;
    TornViews();
    assert !SettledAt(TORN_LEDGER, HOT, TORN_ROWS, 150, 150, "p");
  }

  lemma TornViews()
    ensures Settled(TORN_LEDGER, HOT, TORN_ROWS, 100, 100)
    ensures View(TORN_ROWS, "p").Some? && LedgerView(TORN_LEDGER, HOT, "p", 150).None? && !HasRowAbove(TORN_ROWS, "p", 150)
  {
    hide TokenOf, IsClose, Newest;
    AccountFacts("p", 5, 100, 150);
    TornReads();
    forall p ensures View(TORN_ROWS, p) == LedgerView(TORN_LEDGER, HOT, p, 100) {
      if p != "p" {
        NewestIsRow(TORN_ROWS, p);
      }
    }
  }
}
