/** The live rows an import writes: those of its stream, each as often as the stream has it. */
module ImportedRows {
  import opened Wrappers
  import opened ImportOutput
  import opened Accounts
  import opened Ledgers

  function Front(e: Effect): seq<TokenRow> { if e.WriteToken? then [e.token] else [] }

  /** The token rows among effects, in order. */
  function Written(es: seq<Effect>): seq<TokenRow> {
    if es == [] then [] else Front(es[0]) + Written(es[1..])
  }

  lemma {:induction false} WrittenConcat(xs: seq<Effect>, ys: seq<Effect>)
    ensures Written(xs + ys) == Written(xs) + Written(ys)
  {
    hide Front;
    if xs == [] {
      assert xs + ys == ys;
      assert [] + Written(ys) == Written(ys);
    } else {
      var rest := xs[1..] + ys;
      assert (xs + ys)[1..] == rest && (xs + ys)[0] == xs[0];
      WrittenConcat(xs[1..], ys);
      assert Written(xs + ys) == Front(xs[0]) + (Written(xs[1..]) + Written(ys));
    }
  }

  lemma FrontTokens(e: Effect, o: Output)
    ensures Merge(Single(e), o).rows.tokens == multiset(Front(e)) + o.rows.tokens
  {
    hide JoinMaps, MergePatches;
  }

  lemma {:induction false} WrittenTotal(es: seq<Effect>)
    ensures Total(es).rows.tokens == multiset(Written(es))
  {
    if es != [] {
      hide Merge, Single, Front;
      FrontTokens(es[0], Total(es[1..]));
      WrittenTotal(es[1..]);
    }
  }

  lemma NothingWritten(es: seq<Effect>)
    requires forall e <- es :: !e.WriteToken?
    ensures Written(es) == []
  {
    if es != [] {
      NothingWritten(es[1..]);
    }
  }

  lemma TokenWritten(cfg: Config, a: Account, slot: nat, t: TokenState)
    requires TokenOf(a) == Some(t)
    ensures Written(TokenEffects(cfg, a, slot, t)) == LiveRows(cfg, a, slot)
  {
    var row := WriteToken(LiveRow(a.pubkey, t, slot));
    if cfg.kind.Incremental? {
      WrittenConcat([AffectedPair((t.mint, t.owner))], [row]);
    }
    assert [row][1..] == [];
  }

  function Before(cfg: Config, a: Account, slot: nat, c: Counter): seq<Effect> { BaseEffects(cfg, a) + EmptyEffects(cfg, a, slot) + CountEffects(cfg, c) }

  function Afterwards(cfg: Config, a: Account, slot: nat, c: Counter): seq<Effect> { CountEffects(cfg, c) + MetaplexEffects(cfg, a, slot) }

  lemma SplShape(cfg: Config, a: Account, slot: nat, t: TokenState)
    requires a.owner == SPL_TOKEN_ID && TokenOf(a) == Some(t)
    ensures AccountEffects(cfg, a, slot) == Before(cfg, a, slot, SplOwnerSeen) + TokenEffects(cfg, a, slot, t) + Afterwards(cfg, a, slot, SplParsed)
  {
    hide BaseEffects, EmptyEffects, CountEffects, TokenEffects, MetaplexEffects, Token2022Effects;
    assert SPL_TOKEN_ID != TOKEN_2022_ID by { ProgramsDiffer(); }
    assert ProgramEffects(cfg, a, slot) == CountEffects(cfg, SplOwnerSeen) + (TokenEffects(cfg, a, slot, t) + CountEffects(cfg, SplParsed));
  }

  lemma Token2022Shape(cfg: Config, a: Account, slot: nat, t: TokenState)
    requires a.owner == TOKEN_2022_ID && TokenOf(a) == Some(t)
    ensures AccountEffects(cfg, a, slot) == Before(cfg, a, slot, Token2022OwnerSeen) + TokenEffects(cfg, a, slot, t) + Afterwards(cfg, a, slot, Token2022Parsed)
  {
    hide BaseEffects, EmptyEffects, CountEffects, TokenEffects, MetaplexEffects, SplEffects;
    assert SPL_TOKEN_ID != TOKEN_2022_ID by { ProgramsDiffer(); }
    assert ProgramEffects(cfg, a, slot) == CountEffects(cfg, Token2022OwnerSeen) + (TokenEffects(cfg, a, slot, t) + CountEffects(cfg, Token2022Parsed));
  }

  lemma AroundWritesNothing(cfg: Config, a: Account, slot: nat, c: Counter)
    ensures Written(Before(cfg, a, slot, c)) == [] == Written(Afterwards(cfg, a, slot, c))
  {
    hide Written;
    NothingWritten(Before(cfg, a, slot, c));
    NothingWritten(Afterwards(cfg, a, slot, c));
  }

  lemma WrittenBetween(before: seq<Effect>, es: seq<Effect>, after: seq<Effect>)
    requires Written(before) == [] == Written(after)
    ensures Written(before + es + after) == Written(es)
  {
    hide Written;
    WrittenConcat(before + es, after);
    WrittenConcat(before, es);
  }

  /** An account writes its live row, once, and no other. */
  lemma AccountWritten(cfg: Config, a: Account, slot: nat)
    ensures Written(AccountEffects(cfg, a, slot)) == LiveRows(cfg, a, slot)
  {
    hide Written, AccountEffects, TokenEffects, LiveRows, Before, Afterwards;
    if TokenOf(a).None? {
      NoTokenWritten(cfg, a, slot);
    } else if a.owner == SPL_TOKEN_ID {
      SplShape(cfg, a, slot, TokenOf(a).value);
      AroundWritesNothing(cfg, a, slot, SplOwnerSeen);
      AroundWritesNothing(cfg, a, slot, SplParsed);
      TokenWritten(cfg, a, slot, TokenOf(a).value);
      WrittenBetween(Before(cfg, a, slot, SplOwnerSeen), TokenEffects(cfg, a, slot, TokenOf(a).value), Afterwards(cfg, a, slot, SplParsed));
    } else {
      Token2022Shape(cfg, a, slot, TokenOf(a).value);
      AroundWritesNothing(cfg, a, slot, Token2022OwnerSeen);
      AroundWritesNothing(cfg, a, slot, Token2022Parsed);
      TokenWritten(cfg, a, slot, TokenOf(a).value);
      WrittenBetween(Before(cfg, a, slot, Token2022OwnerSeen), TokenEffects(cfg, a, slot, TokenOf(a).value), Afterwards(cfg, a, slot, Token2022Parsed));
    }
  }

  lemma CountWritesNothing(cfg: Config, c: Counter)
    ensures forall e <- CountEffects(cfg, c) :: !e.WriteToken?
  {
  }

  lemma NoTokenWritten(cfg: Config, a: Account, slot: nat)
    requires TokenOf(a).None?
    ensures Written(AccountEffects(cfg, a, slot)) == [] == LiveRows(cfg, a, slot)
  {
    hide AccountEffects, TokenOf;
    AccountPart(cfg, a, slot);
    NothingWritten(AccountEffects(cfg, a, slot));
  }

  /** The live rows of a stream, in order. */
  function RowsOf(cfg: Config, stream: seq<AppendVec>): seq<TokenRow>
    decreases |stream|
  {
    if stream == [] then [] else RowsOf(cfg, stream[..|stream| - 1]) + FileRows(cfg, stream[|stream| - 1].accounts, stream[|stream| - 1].slot)
  }

  function FileRows(cfg: Config, accounts: seq<Account>, slot: nat): seq<TokenRow>
    decreases |accounts|
  {
    if accounts == [] then [] else FileRows(cfg, accounts[..|accounts| - 1], slot) + LiveRows(cfg, accounts[|accounts| - 1], slot)
  }

  lemma {:induction false} FileWritten(cfg: Config, accounts: seq<Account>, slot: nat)
    ensures Written(AccountsEffects(cfg, accounts, slot)) == FileRows(cfg, accounts, slot)
    decreases |accounts|
  {
    hide AccountEffects, LiveRows;
    if accounts != [] {
      var n := |accounts| - 1;
      FileWritten(cfg, accounts[..n], slot);
      AccountWritten(cfg, accounts[n], slot);
      WrittenConcat(AccountsEffects(cfg, accounts[..n], slot), AccountEffects(cfg, accounts[n], slot));
    }
  }

  lemma StorageFileWritten(cfg: Config, av: AppendVec)
    ensures Written(AppendVecEffects(cfg, av)) == FileRows(cfg, av.accounts, av.slot)
  {
    hide AccountsEffects, FileRows, CountEffects;
    var first, last := CountEffects(cfg, AppendVecs), if av.accounts == [] then CountEffects(cfg, AppendVecsWithoutAccounts) else [];
    FileWritten(cfg, av.accounts, av.slot);
    CountWritesNothing(cfg, AppendVecs);
    CountWritesNothing(cfg, AppendVecsWithoutAccounts);
    NothingWritten(first);
    NothingWritten(last);
    WrittenConcat(first + AccountsEffects(cfg, av.accounts, av.slot), last);
    WrittenConcat(first, AccountsEffects(cfg, av.accounts, av.slot));
  }

  lemma {:induction false} StreamWritten(cfg: Config, stream: seq<AppendVec>)
    ensures Written(StreamEffects(cfg, stream)) == RowsOf(cfg, stream)
    decreases |stream|
  {
    hide AppendVecEffects, FileRows;
    if stream != [] {
      var n := |stream| - 1;
      StreamWritten(cfg, stream[..n]);
      StorageFileWritten(cfg, stream[n]);
      WrittenConcat(StreamEffects(cfg, stream[..n]), AppendVecEffects(cfg, stream[n]));
    }
  }

  /** An import writes the live rows of its stream, each as often as the stream has it. */
  lemma ImportRows(cfg: Config, stream: seq<AppendVec>)
    ensures ImportOf(cfg, stream).rows.tokens == multiset(RowsOf(cfg, stream))
  {
    hide Total, StreamEffects, RowsOf, Written;
    StreamWritten(cfg, stream);
    WrittenTotal(StreamEffects(cfg, stream));
  }

  /** And an incremental one remembers the pairs of these. */
  lemma ImportPairsOf(cfg: Config, stream: seq<AppendVec>)
    requires cfg.kind.Incremental?
    ensures ImportOf(cfg, stream).pairs == set row | row in RowsOf(cfg, stream) :: (row.mint, row.owner)
  {
    hide ImportOf, RowsOf;
    var pairs := set row | row in RowsOf(cfg, stream) :: (row.mint, row.owner);
    ImportRows(cfg, stream);
    forall row ensures row in RowsOf(cfg, stream) <==> HasLiveRow(cfg, stream, row) {
      ImportTokens(cfg, stream, row);
      assert row in multiset(RowsOf(cfg, stream)) <==> row in RowsOf(cfg, stream);
    }
    forall pair ensures pair in ImportOf(cfg, stream).pairs <==> pair in pairs {
      ImportPairs(cfg, stream, pair);
    }
  }

  // -------------------------------------------------------- the columns

  /** A recognised token account: of either program, by its name, its size and what the unpackers made of it. */
  lemma TokenAccounts(a: Account, t: TokenState)
    ensures TokenOf(a) == Some(t) <==>
      || (a.owner == "TokenkegQfeZyiNwAJbNbGKPFXCWuBvf9Ss623VQ5DA" && a.dataLen == 165 && a.decoded.splAccount == Some(t))
      || (a.owner == "TokenzQdBNbLqP5VEhdkAS6EPFLC1PHnBqCXEpPxuEb" && a.decoded.base == BaseAccount(t))
  {
    assert SPL_TOKEN_ID != TOKEN_2022_ID by { ProgramsDiffer(); }
  }

  /** The token rows of an import: one for each hot token account, column by column; a full import leaves out empty ones. */
  lemma TokenRows(cfg: Config, stream: seq<AppendVec>, r: TokenRow)
    ensures r in ImportOf(cfg, stream).rows.tokens <==>
      exists slot: nat, a :: Holds(stream, slot, a) && TokenOf(a).Some? && var t := TokenOf(a).value;
        t.mint in cfg.hot && (cfg.kind.Full? ==> t.amount > 0) && TokenColumns(r, a.pubkey, t, slot)
  {
    hide ImportOf, Holds, TokenOf;
    ImportTokens(cfg, stream, r);
    if slot: nat, a :| Holds(stream, slot, a) && r in LiveRows(cfg, a, slot) {
      assert TokenColumns(r, a.pubkey, TokenOf(a).value, slot);
    }
    if slot: nat, a :| Holds(stream, slot, a) && TokenOf(a).Some? && var t := TokenOf(a).value;
        t.mint in cfg.hot && (cfg.kind.Full? ==> t.amount > 0) && TokenColumns(r, a.pubkey, t, slot) {
      assert r in LiveRows(cfg, a, slot);
      assert HasLiveRow(cfg, stream, r);
    }
  }

  /** A mint account of either program. */
  predicate IsMint(a: Account, m: MintState) {
    || (a.owner == "TokenkegQfeZyiNwAJbNbGKPFXCWuBvf9Ss623VQ5DA" && a.dataLen == 82 && a.decoded.splMint == Some(m))
    || (a.owner == "TokenzQdBNbLqP5VEhdkAS6EPFLC1PHnBqCXEpPxuEb" && a.decoded.base == BaseMint(m))
  }

  lemma FrontRows(e: Effect, o: Output)
    ensures forall row :: row in Merge(Single(e), o).rows.mints <==> e == Effect.WriteMint(row) || row in o.rows.mints
    ensures forall row :: row in Merge(Single(e), o).rows.accounts <==> e == Effect.WriteAccount(row) || row in o.rows.accounts
  {
    hide JoinMaps, MergePatches;
  }

  lemma {:induction false} TotalRows(es: seq<Effect>)
    ensures forall row :: row in Total(es).rows.mints <==> Effect.WriteMint(row) in es
    ensures forall row :: row in Total(es).rows.accounts <==> Effect.WriteAccount(row) in es
  {
    if es != [] {
      hide Merge, Single;
      FrontRows(es[0], Total(es[1..]));
      TotalRows(es[1..]);
      forall row ensures Effect.WriteMint(row) in es <==> Effect.WriteMint(row) == es[0] || Effect.WriteMint(row) in es[1..] {
        InFront(es, Effect.WriteMint(row));
      }
      forall row ensures Effect.WriteAccount(row) in es <==> Effect.WriteAccount(row) == es[0] || Effect.WriteAccount(row) in es[1..] {
        InFront(es, Effect.WriteAccount(row));
      }
    }
  }

  lemma MintPart(cfg: Config, mint: Pubkey, m: MintState, row: MintRow)
    ensures Effect.WriteMint(row) in MintEffects(cfg, mint, m) <==> mint in cfg.hot && MintColumns(row, mint, m, cfg.snapshotSlot)
  {
  }

  lemma OtherRows(cfg: Config, a: Account, slot: nat, e: Effect)
    requires e.WriteMint? || e.WriteAccount?
    ensures forall c :: e !in CountEffects(cfg, c)
    ensures forall t :: e !in TokenEffects(cfg, a, slot, t)
    ensures forall m, source :: e !in FieldsEffects(cfg, m, slot, source, a.pubkey)
    ensures e !in CloseEffects(cfg, a, slot) && e !in ExtensionEffects(cfg, a, slot) && e !in MetaplexEffects(cfg, a, slot)
  {
  }

  lemma SplMints(cfg: Config, a: Account, slot: nat, e: Effect)
    requires e.WriteMint? || e.WriteAccount?
    ensures e in SplEffects(cfg, a, slot) <==>
      a.dataLen == 82 && a.decoded.splMint.Some? && e in MintEffects(cfg, a.pubkey, a.decoded.splMint.value)
  {
    hide CountEffects, TokenEffects, MintEffects, CloseEffects;
    OtherRows(cfg, a, slot, e);
  }

  lemma Token2022Mints(cfg: Config, a: Account, slot: nat, e: Effect)
    requires e.WriteMint? || e.WriteAccount?
    ensures e in Token2022Effects(cfg, a, slot) <==> a.decoded.base.BaseMint? && e in MintEffects(cfg, a.pubkey, a.decoded.base.mint)
  {
    hide CountEffects, TokenEffects, MintEffects, CloseEffects, ExtensionEffects, FieldsEffects;
    OtherRows(cfg, a, slot, e);
  }

  lemma AccountMints(cfg: Config, a: Account, slot: nat, e: Effect)
    requires e.WriteMint? || e.WriteAccount?
    ensures e in AccountEffects(cfg, a, slot) <==>
      || e in BaseEffects(cfg, a)
      || (a.owner == SPL_TOKEN_ID && e in SplEffects(cfg, a, slot))
      || (a.owner == TOKEN_2022_ID && e in Token2022Effects(cfg, a, slot))
  {
    hide CountEffects, BaseEffects, SplEffects, Token2022Effects, MetaplexEffects, CloseEffects;
    OtherRows(cfg, a, slot, e);
    assert SPL_TOKEN_ID != TOKEN_2022_ID by { ProgramsDiffer(); }
  }

  lemma MintWritten(cfg: Config, a: Account, slot: nat, row: MintRow)
    ensures Effect.WriteMint(row) in AccountEffects(cfg, a, slot) <==>
      exists m :: IsMint(a, m) && a.pubkey in cfg.hot && MintColumns(row, a.pubkey, m, cfg.snapshotSlot)
  {
    hide AccountEffects, SplEffects, Token2022Effects, MintEffects;
    var e := Effect.WriteMint(row);
    AccountMints(cfg, a, slot, e);
    SplMints(cfg, a, slot, e);
    Token2022Mints(cfg, a, slot, e);
    assert SPL_TOKEN_ID != TOKEN_2022_ID by { ProgramsDiffer(); }
    if a.decoded.splMint.Some? {
      MintPart(cfg, a.pubkey, a.decoded.splMint.value, row);
    }
    if a.decoded.base.BaseMint? {
      MintPart(cfg, a.pubkey, a.decoded.base.mint, row);
    }
    if e in AccountEffects(cfg, a, slot) {
      assert IsMint(a, if a.owner == SPL_TOKEN_ID then a.decoded.splMint.value else a.decoded.base.mint);
    }
  }

  lemma AccountRowWritten(cfg: Config, a: Account, slot: nat, row: AccountRow)
    ensures Effect.WriteAccount(row) in AccountEffects(cfg, a, slot) <==> AccountColumns(row, a, cfg.snapshotSlot)
  {
    hide AccountEffects, SplEffects, Token2022Effects;
    var e := Effect.WriteAccount(row);
    AccountMints(cfg, a, slot, e);
    SplMints(cfg, a, slot, e);
    Token2022Mints(cfg, a, slot, e);
  }

  /** The mint rows of an import: of each hot mint account, column by column, as of the archive's slot. */
  lemma MintRows(cfg: Config, stream: seq<AppendVec>, row: MintRow)
    ensures row in ImportOf(cfg, stream).rows.mints <==>
      exists slot: nat, a, m :: Holds(stream, slot, a) && IsMint(a, m) && a.pubkey in cfg.hot && MintColumns(row, a.pubkey, m, cfg.snapshotSlot)
  {
    hide Total, StreamEffects, AccountEffects, Holds, IsMint, MintColumns;
    var es, e := StreamEffects(cfg, stream), Effect.WriteMint(row);
    TotalRows(es);
    if e in es {
      var slot, a := StreamLocate(cfg, stream, e);
      MintWritten(cfg, a, slot, row);
    }
    if slot: nat, a, m :| Holds(stream, slot, a) && IsMint(a, m) && a.pubkey in cfg.hot && MintColumns(row, a.pubkey, m, cfg.snapshotSlot) {
      MintWritten(cfg, a, slot, row);
      StreamInclude(cfg, stream, slot, a, e);
    }
  }

  /** The account rows: of every account. */
  lemma AccountRows(cfg: Config, stream: seq<AppendVec>, row: AccountRow)
    ensures row in ImportOf(cfg, stream).rows.accounts <==> exists slot: nat, a :: Holds(stream, slot, a) && AccountColumns(row, a, cfg.snapshotSlot)
  {
    hide Total, StreamEffects, AccountEffects, Holds, AccountColumns;
    var es, e := StreamEffects(cfg, stream), Effect.WriteAccount(row);
    TotalRows(es);
    if e in es {
      var slot, a := StreamLocate(cfg, stream, e);
      AccountRowWritten(cfg, a, slot, row);
    }
    if slot: nat, a :| Holds(stream, slot, a) && AccountColumns(row, a, cfg.snapshotSlot) {
      AccountRowWritten(cfg, a, slot, row);
      StreamInclude(cfg, stream, slot, a, e);
    }
  }

  /** A record without lamports is taken as a close: an empty account, or a token account that does not unpack. */
  predicate IsClosing(a: Account) {
    && a.lamports == 0
    && (|| (a.dataLen == 0 && a.owner == "11111111111111111111111111111111" && !a.executable)
        || (a.owner == "TokenkegQfeZyiNwAJbNbGKPFXCWuBvf9Ss623VQ5DA" && a.dataLen == 165 && a.decoded.splAccount.None?)
        || (a.owner == "TokenzQdBNbLqP5VEhdkAS6EPFLC1PHnBqCXEpPxuEb" && a.decoded.base.NoBase? && a.decoded.standalone.None?))
  }

  /** The candidates of an incremental import: the pubkeys with such a record, each with the highest slot of one; of a full one, none. */
  lemma CloseCandidates(cfg: Config, stream: seq<AppendVec>, p: Pubkey)
    ensures var closes := ImportOf(cfg, stream).closes;
      && (p in closes <==> cfg.kind.Incremental? && exists slot: nat, a :: Holds(stream, slot, a) && a.pubkey == p && IsClosing(a))
      && (p in closes ==>
            && (exists a :: Holds(stream, closes[p], a) && a.pubkey == p && IsClosing(a))
            && forall slot: nat, a :: Holds(stream, slot, a) && a.pubkey == p && IsClosing(a) ==> slot <= closes[p])
  {
    hide ImportOf, Holds, IsClose, IsClosing;
    ImportCloses(cfg, stream, p);
    forall a ensures IsClose(a) <==> IsClosing(a) {
      CloseMeans(a);
    }
    var closes := ImportOf(cfg, stream).closes;
    if p in closes {
      var a :| Holds(stream, closes[p], a) && a.pubkey == p && Closes(cfg, a);
    }
    forall slot: nat, a | cfg.kind.Incremental? && Holds(stream, slot, a) && a.pubkey == p && IsClosing(a) ensures p in closes && slot <= closes[p] {
      assert HasClose(cfg, stream, p, slot);
    }
  }

  lemma CloseMeans(a: Account)
    ensures IsClose(a) <==> IsClosing(a)
  {
  }
}
