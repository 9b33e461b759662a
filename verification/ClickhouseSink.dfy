/**
 The row sink of one worker: four open inserts, one a table, closed when they
 are large, when they are old, when the queue runs dry, and at the end. Rows
 are conserved and the open inserts stay bounded.
 */
module ClickhouseSinks {
  import opened Wrappers
  import opened ImportOutput
  import opened MetadataRows
  import opened Channels
  import opened SinkRows

  const MAX_BATCH_ROWS: nat := 1_000_000
  const MAX_BATCH_BYTES: nat := 268_435_456
  const BATCH_LIMIT_CHECK_INTERVAL: nat := 1_024
  const FLUSH_CHECK_INTERVAL: nat := 1_024
  const MAX_OPEN_INSERT_AGE: nat := 5

  /** One past the largest `u16`. */
  const U16_LIMIT: nat := 0x1_0000

  function ByteCount(sizes: seq<nat>): nat {
    if sizes == [] then 0 else ByteCount(sizes[..|sizes| - 1]) + sizes[|sizes| - 1]
  }

  lemma ByteCountSnoc(sizes: seq<nat>, bytes: nat)
    ensures ByteCount(sizes + [bytes]) == ByteCount(sizes) + bytes
  {
    assert (sizes + [bytes])[..|sizes|] == sizes;
  }

  /**
   One table's open insert with its counter and its timestamp. `server` is
   whether the server accepts a finalization during the call. `times` and `sizes`
   say of each pending row when it was written and how many bytes it takes.
   */
  class TableStream<T(!new)> {
    var pending: seq<T>
    var pendingBytes: nat
    var rowsSinceCommitCheck: nat
    var openedAt: Option<nat>
    ghost var written: seq<T>
    ghost var committed: seq<T>
    ghost var peak: nat
    ghost var times: seq<nat>
    ghost var sizes: seq<nat>

    /** Nothing is lost or repeated, the open insert is bounded, and its timestamp is the time of its first row. */
    ghost predicate Valid()
      reads this
    {
      && Conserved()
      && rowsSinceCommitCheck < BATCH_LIMIT_CHECK_INTERVAL
      && |pending| <= MAX_BATCH_ROWS - 1 + rowsSinceCommitCheck
      && openedAt == (if pending == [] then None else Some(times[0]))
    }

    ghost predicate Conserved()
      reads this
    {
      && written == committed + pending
      && |pending| <= peak <= MAX_BATCH_ROWS - 1 + BATCH_LIMIT_CHECK_INTERVAL
      && |times| == |sizes| == |pending| && pendingBytes == ByteCount(sizes)
    }

    constructor ()
      ensures Valid() && written == [] && committed == []
    {
      pending, pendingBytes, rowsSinceCommitCheck, openedAt := [], 0, 0, None;
      written, committed, peak, times, sizes := [], [], 0, [], [];
    }

    /** `force_commit_with_gate`, also the core of `end_with_gate`. */
    method ForceCommit(server: bool) returns (r: Result<()>)
      requires Conserved()
      modifies this
      ensures Conserved() && written == old(written) && peak == old(peak)
      ensures rowsSinceCommitCheck == old(rowsSinceCommitCheck) && openedAt == old(openedAt) && old(committed) <= committed
      ensures r.Ok? <==> server || old(pending) == []
      ensures if r.Ok? then pending == [] && committed == written else pending == old(pending) && committed == old(committed)
      ensures r.Err? ==> times == old(times) && sizes == old(sizes)
    {
      if pending == [] {
        return Ok(());
      }
      if !server {
        return Err("INSERT finalization failed");
      }
      committed := committed + pending;
      pending, pendingBytes, times, sizes := [], 0, [], [];
      return Ok(());
    }

    /** Every 1,024th row, an insert of a million rows or of 256 MiB is finished. */
    method CheckBatchLimit(server: bool) returns (r: Result<()>)
      requires Conserved() && rowsSinceCommitCheck < BATCH_LIMIT_CHECK_INTERVAL
      requires |pending| <= MAX_BATCH_ROWS + rowsSinceCommitCheck
      modifies this
      ensures Conserved() && written == old(written) && openedAt == old(openedAt) && old(committed) <= committed
      ensures r.Err? ==> !server && pending == old(pending) && committed == old(committed)
      ensures r.Ok? ==> rowsSinceCommitCheck < BATCH_LIMIT_CHECK_INTERVAL && |pending| <= MAX_BATCH_ROWS - 1 + rowsSinceCommitCheck
      ensures r.Ok? ==> rowsSinceCommitCheck == if old(rowsSinceCommitCheck) == 1_023 then 0 else old(rowsSinceCommitCheck) + 1
      ensures r.Ok? && old(rowsSinceCommitCheck == 1_023 && (|pending| >= 1_000_000 || ByteCount(sizes) >= 268_435_456)) ==> pending == []
      ensures old(rowsSinceCommitCheck < 1_023 || (|pending| < 1_000_000 && ByteCount(sizes) < 268_435_456)) ==> Keeps(old(pending), old(times), old(sizes))
    {
      assert rowsSinceCommitCheck + 1 < U16_LIMIT;
      rowsSinceCommitCheck := rowsSinceCommitCheck + 1;
      if rowsSinceCommitCheck == BATCH_LIMIT_CHECK_INTERVAL {
        if |pending| >= MAX_BATCH_ROWS || pendingBytes >= MAX_BATCH_BYTES {
          var _ :- ForceCommit(server);
        }
        rowsSinceCommitCheck := 0;
      }
      return Ok(());
    }

    ghost predicate Keeps(rows: seq<T>, at: seq<nat>, bytes: seq<nat>)
      reads this
    {
      pending == rows && times == at && sizes == bytes
    }

    method ClearIfEmpty()
      requires Conserved()
      modifies this`openedAt
      ensures openedAt == if pending == [] then None else old(openedAt)
    {
      if pending == [] {
        openedAt := None;
      }
    }

    /** The insert may fail before it takes the row, or after it when the batch is full. */
    method Write(row: T, bytes: nat, now: nat, taken: bool, server: bool) returns (r: Result<()>)
      requires Valid()
      modifies this
      ensures Conserved() && written == (if taken then old(written) + [row] else old(written)) && old(committed) <= committed
      ensures r.Ok? ==> taken && Valid()
      ensures r.Err? ==> !taken || !server
      ensures r.Ok? && old(rowsSinceCommitCheck == 1_023 && (|pending| >= 999_999 || ByteCount(sizes) + bytes >= 268_435_456)) ==> pending == []
      ensures r.Ok? && old(rowsSinceCommitCheck < 1_023 || (|pending| < 999_999 && ByteCount(sizes) + bytes < 268_435_456)) ==>
                Keeps(old(pending) + [row], old(times) + [now], old(sizes) + [bytes])
    {
      hide ByteCount;
      if pending == [] {
        openedAt := Some(now);
      }
      if !taken {
        return Err("INSERT write failed");
      }
      pending, pendingBytes := pending + [row], pendingBytes + bytes;
      written, times, sizes := written + [row], times + [now], sizes + [bytes];
      ByteCountSnoc(old(sizes), bytes);
      peak := if peak < |pending| then |pending| else peak;
      var _ :- CheckBatchLimit(server);
      ClearIfEmpty();
      return Ok(());
    }

    /** The first row of the open insert, if any, is not five seconds old. */
    ghost predicate Young(now: nat)
      reads this
    {
      times == [] || now - times[0] < 5
    }

    /** An insert is finished exactly when its first row is five seconds old. */
    method ForceAged(now: nat, server: bool) returns (r: Result<()>)
      requires Valid()
      modifies this
      ensures Conserved() && written == old(written) && old(committed) <= committed
      ensures r.Ok? ==> Valid()
      ensures r.Ok? ==> Young(now)
      ensures r.Ok? && !old(Young(now)) ==> pending == []
      ensures old(Young(now)) ==> r.Ok? && Keeps(old(pending), old(times), old(sizes)) && committed == old(committed)
      ensures r.Err? ==> !server
    {
      if pending == [] {
        openedAt := None;
        return Ok(());
      }
      if openedAt.Some? && now - openedAt.value >= MAX_OPEN_INSERT_AGE {
        var _ :- ForceCommit(server);
        openedAt := None;
      }
      return Ok(());
    }
  }

  /** Rows by table, in order. */
  datatype Tables = Tables(accounts: seq<AccountRow>, tokens: seq<TokenRow>, mints: seq<MintRow>, metadata: seq<MetadataRow>)

  predicate Prefixes(a: Tables, b: Tables) {
    a.accounts <= b.accounts && a.tokens <= b.tokens && a.mints <= b.mints && a.metadata <= b.metadata
  }

  function AccountBag(row: AccountRow): multiset<SinkRow> { multiset{ToAccounts(row)} }
  function TokenBag(row: TokenRow): multiset<SinkRow> { multiset{ToTokens(row)} }
  function MintBag(row: MintRow): multiset<SinkRow> { multiset{ToMints(row)} }
  function MetadataBag(row: MetadataRow): multiset<SinkRow> { multiset{ToMetadata(row)} }

  function Bag(t: Tables): multiset<SinkRow> {
    RowsOf(AccountBag, t.accounts) + RowsOf(TokenBag, t.tokens) + RowsOf(MintBag, t.mints) + RowsOf(MetadataBag, t.metadata)
  }

  lemma Grown(a: Tables, b: Tables)
    requires a.accounts <= b.accounts && a.tokens <= b.tokens && a.mints <= b.mints && a.metadata <= b.metadata
    ensures Prefixes(a, b)
  {
  }

  /** The sink as a channel worker sees it. */
  function LogOf(written: Tables, committed: Tables): RowLog<SinkRow> { RowLog(Bag(written) - Bag(committed), Bag(committed)) }

  lemma BagPrefix<R>(bag: R -> multiset<SinkRow>, a: seq<R>, b: seq<R>)
    requires a <= b
    ensures RowsOf(bag, a) <= RowsOf(bag, b)
  {
    assert b == a + b[|a|..];
    RowsOfConcat(bag, a, b[|a|..]);
  }

  lemma BagPrefixes(a: Tables, b: Tables)
    requires Prefixes(a, b)
    ensures Bag(a) <= Bag(b)
  {
    hide RowsOf;
    BagPrefix(AccountBag, a.accounts, b.accounts);
    BagPrefix(TokenBag, a.tokens, b.tokens);
    BagPrefix(MintBag, a.mints, b.mints);
    BagPrefix(MetadataBag, a.metadata, b.metadata);
  }

  /** Bags alone: what was written and committed before and after. */
  lemma BagsAreRowLog<R>(w: multiset<R>, c: multiset<R>, w': multiset<R>, c': multiset<R>, rows: multiset<R>)
    requires c <= w && c' <= w' && c <= c' && w' == w + rows
    ensures RowLog(w' - c', c') == RowLog(w - c, c).Write(rows).Commit(c' - c)
  {
    var log := RowLog(w - c, c).Write(rows).Commit(c' - c);
    assert log.pending == w' - c';
    assert log.committed == c';
  }

  /** Nothing written, or everything committed. */
  lemma BagsAreCommit<R>(w: multiset<R>, c: multiset<R>, c': multiset<R>)
    requires c <= w && c' <= w && c <= c'
    ensures RowLog(w - c', c') == RowLog(w - c, c).Commit(c' - c)
    ensures c' == w ==> RowLog(w - c', c') == RowLog(w - c, c).Commit(w - c)
  {
    var log := RowLog(w - c, c).Commit(c' - c);
    assert log.pending == w - c';
    assert log.committed == c';
  }

  /**
   Whatever a sink does is what a worker of the channel may do: it writes rows and
   commits some of those pending; a flush that leaves nothing open commits all.
   */
  lemma SinkIsRowLog(w: Tables, c: Tables, w': Tables, c': Tables, rows: multiset<SinkRow>)
    requires Prefixes(c, w) && Prefixes(c', w') && Prefixes(c, c') && Bag(w') == Bag(w) + rows
    ensures LogOf(w', c') == LogOf(w, c).Write(rows).Commit(Bag(c') - Bag(c))
    ensures rows == multiset{} ==> LogOf(w', c') == LogOf(w, c).Commit(Bag(c') - Bag(c))
    ensures c' == w' == w ==> LogOf(w', c') == LogOf(w, c).Commit(LogOf(w, c).pending)
  {
    hide Bag, Prefixes;
    BagPrefixes(c, w);
    BagPrefixes(c', w');
    BagPrefixes(c, c');
    BagsAreRowLog(Bag(w), Bag(c), Bag(w'), Bag(c'), rows);
    if rows == multiset{} {
      assert Bag(w') == Bag(w);
      BagsAreCommit(Bag(w), Bag(c), Bag(c'));
    }
    if c' == w' == w {
      BagsAreCommit(Bag(w), Bag(c), Bag(c'));
    }
  }

  lemma BagSnoc<R>(bag: R -> multiset<SinkRow>, rows: seq<R>, row: R)
    ensures RowsOf(bag, rows + [row]) == RowsOf(bag, rows) + bag(row)
  {
    RowsOfConcat(bag, rows, [row]);
    RowsOfOne(bag, row);
  }

  lemma AccountAdded(w: Tables, row: AccountRow)
    ensures Bag(w.(accounts := w.accounts + [row])) == Bag(w) + AccountBag(row)
  {
    hide RowsOf, AccountBag;
    BagSnoc(AccountBag, w.accounts, row);
  }

  lemma TokenAdded(w: Tables, row: TokenRow)
    ensures Bag(w.(tokens := w.tokens + [row])) == Bag(w) + TokenBag(row)
  {
    hide RowsOf, TokenBag;
    BagSnoc(TokenBag, w.tokens, row);
  }

  lemma MintAdded(w: Tables, row: MintRow)
    ensures Bag(w.(mints := w.mints + [row])) == Bag(w) + MintBag(row)
  {
    hide RowsOf, MintBag;
    BagSnoc(MintBag, w.mints, row);
  }

  lemma MetadataAdded(w: Tables, row: MetadataRow)
    ensures Bag(w.(metadata := w.metadata + [row])) == Bag(w) + MetadataBag(row)
  {
    hide RowsOf, MetadataBag;
    BagSnoc(MetadataBag, w.metadata, row);
  }

  class ClickhouseSink {
    const account: TableStream<AccountRow>
    const tokenAccount: TableStream<TokenRow>
    const tokenMint: TableStream<MintRow>
    const tokenMetadata: TableStream<MetadataRow>
    var flushCheckCounter: nat

    ghost predicate Conserved()
      reads account, tokenAccount, tokenMint, tokenMetadata
    {
      account.Conserved() && tokenAccount.Conserved() && tokenMint.Conserved() && tokenMetadata.Conserved()
    }

    ghost predicate Valid()
      reads this, account, tokenAccount, tokenMint, tokenMetadata
    {
      flushCheckCounter < FLUSH_CHECK_INTERVAL && StreamsValid()
    }

    ghost predicate StreamsValid()
      reads account, tokenAccount, tokenMint, tokenMetadata
    {
      account.Valid() && tokenAccount.Valid() && tokenMint.Valid() && tokenMetadata.Valid()
    }

    /** Everything handed to the sink so far, in order, by table. */
    ghost function Written(): Tables
      reads account, tokenAccount, tokenMint, tokenMetadata
    {
      Tables(account.written, tokenAccount.written, tokenMint.written, tokenMetadata.written)
    }

    /** Everything the server has accepted so far, in order, by table. */
    ghost function Committed(): Tables
      reads account, tokenAccount, tokenMint, tokenMetadata
    {
      Tables(account.committed, tokenAccount.committed, tokenMint.committed, tokenMetadata.committed)
    }

    lemma CommittedFirst()
      requires Conserved()
      ensures Prefixes(Committed(), Written())
    {
    }

    constructor ()
      ensures Valid() && Written() == Tables([], [], [], [])
      ensures fresh(account) && fresh(tokenAccount) && fresh(tokenMint) && fresh(tokenMetadata)
    {
      account := new TableStream();
      tokenAccount := new TableStream();
      tokenMint := new TableStream();
      tokenMetadata := new TableStream();
      flushCheckCounter := 0;
    }

    method ClearOpenTimestampIfEmpty()
      requires Conserved()
      modifies account`openedAt, tokenAccount`openedAt, tokenMint`openedAt, tokenMetadata`openedAt
      ensures Conserved() && (old(Valid()) ==> Valid())
    {
      account.ClearIfEmpty();
      tokenAccount.ClearIfEmpty();
      tokenMint.ClearIfEmpty();
      tokenMetadata.ClearIfEmpty();
    }

    method WriteAccount(row: AccountRow, bytes: nat, now: nat, taken: bool, server: bool) returns (r: Result<()>)
      requires Valid()
      modifies account, tokenAccount, tokenMint, tokenMetadata
      ensures Conserved() && (r.Ok? ==> taken && Valid()) && (r.Err? ==> !taken || !server)
      ensures Written() == if taken then old(Written()).(accounts := old(account.written) + [row]) else old(Written())
      ensures Log() == old(Log()).Write(if taken then AccountBag(row) else multiset{}).Commit(Bag(Committed()) - Bag(old(Committed())))
    {
      hide Bag, LogOf, Prefixes, ByteCount, AccountBag;
      ghost var w, c := Written(), Committed();
      CommittedFirst();
      r := account.Write(row, bytes, now, taken, server);
      if r.Ok? {
        ClearOpenTimestampIfEmpty();
      }
      CommittedFirst();
      Grown(c, Committed());
      AccountAdded(w, row);
      SinkIsRowLog(w, c, Written(), Committed(), if taken then AccountBag(row) else multiset{});
    }

    method WriteTokenAccount(row: TokenRow, bytes: nat, now: nat, taken: bool, server: bool) returns (r: Result<()>)
      requires Valid()
      modifies account, tokenAccount, tokenMint, tokenMetadata
      ensures Conserved() && (r.Ok? ==> taken && Valid()) && (r.Err? ==> !taken || !server)
      ensures Written() == if taken then old(Written()).(tokens := old(tokenAccount.written) + [row]) else old(Written())
      ensures Log() == old(Log()).Write(if taken then TokenBag(row) else multiset{}).Commit(Bag(Committed()) - Bag(old(Committed())))
    {
      hide Bag, LogOf, Prefixes, ByteCount, TokenBag;
      ghost var w, c := Written(), Committed();
      CommittedFirst();
      r := tokenAccount.Write(row, bytes, now, taken, server);
      if r.Ok? {
        ClearOpenTimestampIfEmpty();
      }
      CommittedFirst();
      Grown(c, Committed());
      TokenAdded(w, row);
      SinkIsRowLog(w, c, Written(), Committed(), if taken then TokenBag(row) else multiset{});
    }

    method WriteTokenMint(row: MintRow, bytes: nat, now: nat, taken: bool, server: bool) returns (r: Result<()>)
      requires Valid()
      modifies account, tokenAccount, tokenMint, tokenMetadata
      ensures Conserved() && (r.Ok? ==> taken && Valid()) && (r.Err? ==> !taken || !server)
      ensures Written() == if taken then old(Written()).(mints := old(tokenMint.written) + [row]) else old(Written())
      ensures Log() == old(Log()).Write(if taken then MintBag(row) else multiset{}).Commit(Bag(Committed()) - Bag(old(Committed())))
    {
      hide Bag, LogOf, Prefixes, ByteCount, MintBag;
      ghost var w, c := Written(), Committed();
      CommittedFirst();
      r := tokenMint.Write(row, bytes, now, taken, server);
      if r.Ok? {
        ClearOpenTimestampIfEmpty();
      }
      CommittedFirst();
      Grown(c, Committed());
      MintAdded(w, row);
      SinkIsRowLog(w, c, Written(), Committed(), if taken then MintBag(row) else multiset{});
    }

    method WriteTokenMetadata(row: MetadataRow, bytes: nat, now: nat, taken: bool, server: bool) returns (r: Result<()>)
      requires Valid()
      modifies account, tokenAccount, tokenMint, tokenMetadata
      ensures Conserved() && (r.Ok? ==> taken && Valid()) && (r.Err? ==> !taken || !server)
      ensures Written() == if taken then old(Written()).(metadata := old(tokenMetadata.written) + [row]) else old(Written())
      ensures Log() == old(Log()).Write(if taken then MetadataBag(row) else multiset{}).Commit(Bag(Committed()) - Bag(old(Committed())))
    {
      hide Bag, LogOf, Prefixes, ByteCount, MetadataBag;
      ghost var w, c := Written(), Committed();
      CommittedFirst();
      r := tokenMetadata.Write(row, bytes, now, taken, server);
      if r.Ok? {
        ClearOpenTimestampIfEmpty();
      }
      CommittedFirst();
      Grown(c, Committed());
      MetadataAdded(w, row);
      SinkIsRowLog(w, c, Written(), Committed(), if taken then MetadataBag(row) else multiset{});
    }

    ghost predicate Young(now: nat)
      reads account, tokenAccount, tokenMint, tokenMetadata
    {
      account.Young(now) && tokenAccount.Young(now) && tokenMint.Young(now) && tokenMetadata.Young(now)
    }

    method ForceAgedAccounts(now: nat, server: bool) returns (r: Result<()>)
      requires account.Valid() && tokenAccount.Valid()
      modifies account, tokenAccount
      ensures account.Conserved() && tokenAccount.Conserved() && (r.Err? ==> !server)
      ensures r.Ok? ==> account.Valid() && tokenAccount.Valid() && account.Young(now) && tokenAccount.Young(now)
      ensures old(account.Young(now) && tokenAccount.Young(now)) ==>
                r.Ok? && account.committed == old(account.committed) && tokenAccount.committed == old(tokenAccount.committed)
      ensures account.written == old(account.written) && old(account.committed) <= account.committed
      ensures tokenAccount.written == old(tokenAccount.written) && old(tokenAccount.committed) <= tokenAccount.committed
    {
      hide ByteCount;
      r := account.ForceAged(now, server);
      if r.Ok? {
        r := tokenAccount.ForceAged(now, server);
      }
    }

    method ForceAgedMints(now: nat, server: bool) returns (r: Result<()>)
      requires tokenMint.Valid() && tokenMetadata.Valid()
      modifies tokenMint, tokenMetadata
      ensures tokenMint.Conserved() && tokenMetadata.Conserved() && (r.Err? ==> !server)
      ensures r.Ok? ==> tokenMint.Valid() && tokenMetadata.Valid() && tokenMint.Young(now) && tokenMetadata.Young(now)
      ensures old(tokenMint.Young(now) && tokenMetadata.Young(now)) ==>
                r.Ok? && tokenMint.committed == old(tokenMint.committed) && tokenMetadata.committed == old(tokenMetadata.committed)
      ensures tokenMint.written == old(tokenMint.written) && old(tokenMint.committed) <= tokenMint.committed
      ensures tokenMetadata.written == old(tokenMetadata.written) && old(tokenMetadata.committed) <= tokenMetadata.committed
    {
      hide ByteCount;
      r := tokenMint.ForceAged(now, server);
      if r.Ok? {
        r := tokenMetadata.ForceAged(now, server);
      }
    }

    method ForceAgedEach(now: nat, server: bool) returns (r: Result<()>)
      requires StreamsValid()
      modifies account, tokenAccount, tokenMint, tokenMetadata
      ensures Conserved() && (r.Ok? ==> StreamsValid() && Young(now)) && (r.Err? ==> !server)
      ensures old(Young(now)) ==> r.Ok? && Committed() == old(Committed())
      ensures Written() == old(Written()) && Prefixes(old(Committed()), Committed())
    {
      hide Prefixes, ByteCount;
      ghost var c := Committed();
      r := ForceAgedAccounts(now, server);
      if r.Ok? {
        r := ForceAgedMints(now, server);
      }
      Grown(c, Committed());
    }

    method CountFlush(now: nat, server: bool) returns (r: Result<()>)
      requires Valid()
      modifies this, account, tokenAccount, tokenMint, tokenMetadata
      ensures Conserved() && (r.Ok? ==> Valid()) && (r.Err? ==> !server)
      ensures r.Ok? && old(flushCheckCounter) == 1_023 ==> Young(now)
      ensures old(flushCheckCounter) < 1_023 || old(Young(now)) ==> r.Ok? && Committed() == old(Committed())
      ensures flushCheckCounter == if old(flushCheckCounter) == 1_023 then 0 else old(flushCheckCounter) + 1
      ensures Written() == old(Written()) && Prefixes(old(Committed()), Committed())
    {
      hide ByteCount;
      assert flushCheckCounter + 1 < U16_LIMIT;
      flushCheckCounter := flushCheckCounter + 1;
      if flushCheckCounter == FLUSH_CHECK_INTERVAL {
        flushCheckCounter := 0;
        r := ForceAgedEach(now, server);
      } else {
        r := Ok(());
      }
    }

    /** Every 1,024th call closes the inserts that have been open too long. */
    method MaybeForceCommit(now: nat, server: bool) returns (r: Result<()>)
      requires Valid()
      modifies this, account, tokenAccount, tokenMint, tokenMetadata
      ensures Conserved() && (r.Ok? ==> Valid()) && (r.Err? ==> !server)
      ensures r.Ok? && old(flushCheckCounter) == 1_023 ==> Young(now)
      ensures old(flushCheckCounter) < 1_023 || old(Young(now)) ==> r.Ok? && Committed() == old(Committed())
      ensures flushCheckCounter == if old(flushCheckCounter) == 1_023 then 0 else old(flushCheckCounter) + 1
      ensures Written() == old(Written()) && Log() == old(Log()).Commit(Bag(Committed()) - Bag(old(Committed())))
    {
      hide Bag, LogOf, Prefixes, ByteCount;
      CommittedFirst();
      r := CountFlush(now, server);
      CommittedFirst();
      SinkIsRowLog(old(Written()), old(Committed()), Written(), Committed(), multiset{});
    }

    predicate HasPendingRows()
      reads account, tokenAccount, tokenMint, tokenMetadata
    {
      |account.pending| > 0 || |tokenAccount.pending| > 0 || |tokenMint.pending| > 0 || |tokenMetadata.pending| > 0
    }

    /** Finish one table at a time. */
    method CommitEach(server: bool) returns (r: Result<()>)
      requires Conserved()
      modifies account, tokenAccount, tokenMint, tokenMetadata
      ensures Conserved() && (r.Ok? ==> !HasPendingRows() && Committed() == Written()) && (r.Err? ==> !server)
      ensures Written() == old(Written()) && Prefixes(old(Committed()), Committed())
      ensures old(Counters()) == Counters()
    {
      hide Prefixes, ByteCount;
      ghost var c := Committed();
      r := account.ForceCommit(server);
      if r.Ok? {
        r := tokenAccount.ForceCommit(server);
      }
      if r.Ok? {
        r := tokenMint.ForceCommit(server);
      }
      if r.Ok? {
        r := tokenMetadata.ForceCommit(server);
      }
      Grown(c, Committed());
    }

    /** The rows written, pending or committed. */
    ghost function Log(): RowLog<SinkRow>
      reads account, tokenAccount, tokenMint, tokenMetadata
    {
      LogOf(Written(), Committed())
    }

    ghost function Counters(): (nat, nat, nat, nat)
      reads account, tokenAccount, tokenMint, tokenMetadata
    {
      (account.rowsSinceCommitCheck, tokenAccount.rowsSinceCommitCheck, tokenMint.rowsSinceCommitCheck, tokenMetadata.rowsSinceCommitCheck)
    }

    method ClearTimestamps()
      modifies account`openedAt, tokenAccount`openedAt, tokenMint`openedAt, tokenMetadata`openedAt
      ensures account.openedAt.None? && tokenAccount.openedAt.None? && tokenMint.openedAt.None? && tokenMetadata.openedAt.None?
    {
      account.openedAt := None;
      tokenAccount.openedAt := None;
      tokenMint.openedAt := None;
      tokenMetadata.openedAt := None;
    }

    /** The flush of an idle worker: on success everything written is committed. */
    method ForceCommitAll(server: bool) returns (r: Result<()>)
      requires Valid()
      modifies account, tokenAccount, tokenMint, tokenMetadata
      ensures Conserved() && (r.Ok? ==> Valid() && Committed() == Written()) && (r.Err? ==> !server)
      ensures Written() == old(Written()) && Log() == old(Log()).Commit(Bag(Committed()) - Bag(old(Committed())))
      ensures r.Ok? ==> Log() == old(Log()).Commit(old(Log()).pending)
    {
      hide Bag, LogOf, ByteCount;
      CommittedFirst();
      r := Ok(());
      if HasPendingRows() {
        r := CommitEach(server);
        if r.Ok? {
          ClearTimestamps();
        }
      } else {
        NothingPending();
      }
      CommittedFirst();
      SinkIsRowLog(old(Written()), old(Committed()), Written(), Committed(), multiset{});
    }

    lemma NothingPending()
      requires Conserved() && !HasPendingRows()
      ensures Committed() == Written()
    {
      assert account.committed + [] == account.committed;
      assert tokenAccount.committed + [] == tokenAccount.committed;
      assert tokenMint.committed + [] == tokenMint.committed;
      assert tokenMetadata.committed + [] == tokenMetadata.committed;
    }

    /** The final flush: on success everything ever written is committed, once and in order. */
    method End(server: bool) returns (r: Result<()>)
      requires Valid()
      modifies account, tokenAccount, tokenMint, tokenMetadata
      ensures Conserved() && (r.Ok? ==> Committed() == Written()) && (r.Err? ==> !server)
      ensures Written() == old(Written()) && Log() == old(Log()).Commit(Bag(Committed()) - Bag(old(Committed())))
      ensures r.Ok? ==> Log() == old(Log()).Commit(old(Log()).pending)
    {
      hide Bag, LogOf, ByteCount;
      CommittedFirst();
      r := CommitEach(server);
      CommittedFirst();
      SinkIsRowLog(old(Written()), old(Committed()), Written(), Committed(), multiset{});
    }
  }
}
