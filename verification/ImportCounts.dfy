/**
 The statistics of an import: each counter holds the number of accounts of one
 kind, so that no account of a token program goes uncounted.
 */
module ImportCounts {
  import opened Wrappers
  import opened MetadataPatches
  import opened ImportOutput
  import opened Accounts
  import opened Ledgers

  /** How often a counter is raised by effects. */
  function Raised(es: seq<Effect>, c: Counter): nat { multiset(es)[Count(c)] }

  lemma RaisedConcat(xs: seq<Effect>, ys: seq<Effect>, c: Counter)
    ensures Raised(xs + ys, c) == Raised(xs, c) + Raised(ys, c)
  {
    assert multiset(xs + ys) == multiset(xs) + multiset(ys);
  }

  lemma RaisedOne(e: Effect, c: Counter)
    ensures Raised([e], c) == if e == Count(c) then 1 else 0
  {
  }

  lemma FrontCounts(e: Effect, o: Output, c: Counter)
    ensures Merge(Single(e), o).counts[c] == o.counts[c] + if e == Count(c) then 1 else 0
  {
    hide JoinMaps, MergePatches, MergeRows;
  }

  lemma NothingCounted(c: Counter)
    ensures Total([]).counts[c] == 0 == Raised([], c)
  {
  }

  lemma {:induction false} TotalCounts(es: seq<Effect>, c: Counter)
    ensures Total(es).counts[c] == Raised(es, c)
  {
    hide Merge, Single, Raised;
    if es == [] {
      NothingCounted(c);
    } else {
      FrontCounts(es[0], Total(es[1..]), c);
      TotalCounts(es[1..], c);
      RaisedOne(es[0], c);
      RaisedConcat([es[0]], es[1..], c);
      assert es == [es[0]] + es[1..];
    }
  }

  // ------------------------------------------------------------ one account

  /** What each counter counts, by program, size and what the unpackers made of the account. */
  predicate IsCounted(cfg: Config, c: Counter, a: Account) {
    var spl, token2022 := a.owner == "TokenkegQfeZyiNwAJbNbGKPFXCWuBvf9Ss623VQ5DA", a.owner == "TokenzQdBNbLqP5VEhdkAS6EPFLC1PHnBqCXEpPxuEb";
    match c
    case SplOwnerSeen => spl
    case SplParsed => spl && ((a.dataLen == 165 && a.decoded.splAccount.Some?) || (a.dataLen == 82 && a.decoded.splMint.Some?))
    case SplUnpackFailed => spl && ((a.dataLen == 165 && a.decoded.splAccount.None?) || (a.dataLen == 82 && a.decoded.splMint.None?))
    case SplUnexpectedSize => spl && a.dataLen != 165 && a.dataLen != 82
    case Token2022OwnerSeen => token2022
    case Token2022Parsed => token2022 && !(a.decoded.base.NoBase? && a.decoded.standalone.None?)
    case Token2022UnpackFailed => token2022 && a.decoded.base.NoBase? && a.decoded.standalone.None?
    case ZeroBalanceOmitted => cfg.kind.Full? && TokenOf(a).Some? && TokenOf(a).value.mint in cfg.hot && TokenOf(a).value.amount == 0
    case AppendVecs => false
    case AppendVecsWithoutAccounts => false
  }

  function One(b: bool): nat { if b then 1 else 0 }

  lemma CountRaises(cfg: Config, counted: Counter, c: Counter)
    requires cfg.counted
    ensures Raised(CountEffects(cfg, counted), c) == One(c == counted)
  {
  }

  lemma RaisesNothing(es: seq<Effect>, c: Counter)
    requires forall e <- es :: !e.Count?
    ensures Raised(es, c) == 0
  {
    assert Count(c) !in es;
    assert Count(c) !in multiset(es);
  }

  /** Rows, patches and close candidates raise no counter. */
  lemma OthersRaiseNothing(cfg: Config, a: Account, slot: nat, c: Counter)
    ensures Raised(BaseEffects(cfg, a), c) == 0 == Raised(EmptyEffects(cfg, a, slot), c)
    ensures Raised(MetaplexEffects(cfg, a, slot), c) == 0 == Raised(ExtensionEffects(cfg, a, slot), c)
    ensures Raised(CloseEffects(cfg, a, slot), c) == 0
    ensures forall m :: Raised(MintEffects(cfg, a.pubkey, m), c) == 0
    ensures forall m, source :: Raised(FieldsEffects(cfg, m, slot, source, a.pubkey), c) == 0
  {
    hide Raised;
    RaisesNothing(BaseEffects(cfg, a), c);
    RaisesNothing(EmptyEffects(cfg, a, slot), c);
    RaisesNothing(MetaplexEffects(cfg, a, slot), c);
    RaisesNothing(ExtensionEffects(cfg, a, slot), c);
    RaisesNothing(CloseEffects(cfg, a, slot), c);
    forall m ensures Raised(MintEffects(cfg, a.pubkey, m), c) == 0 { RaisesNothing(MintEffects(cfg, a.pubkey, m), c); }
    forall m, source ensures Raised(FieldsEffects(cfg, m, slot, source, a.pubkey), c) == 0 {
      RaisesNothing(FieldsEffects(cfg, m, slot, source, a.pubkey), c);
    }
  }

  lemma TokenRaises(cfg: Config, a: Account, slot: nat, t: TokenState, c: Counter)
    requires cfg.counted && TokenOf(a) == Some(t)
    ensures Raised(TokenEffects(cfg, a, slot, t), c) == One(c == ZeroBalanceOmitted && IsCounted(cfg, c, a))
  {
    if t.mint in cfg.hot && cfg.kind.WritesLiveAmount(t.amount) {
      RaisesNothing(TokenEffects(cfg, a, slot, t), c);
    }
  }

  lemma SplRaises(cfg: Config, a: Account, slot: nat, c: Counter)
    requires cfg.counted && a.owner == SPL_TOKEN_ID
    ensures Raised(SplEffects(cfg, a, slot), c) == One(c != SplOwnerSeen && IsCounted(cfg, c, a))
  {
    hide Raised, CountEffects, TokenEffects, MintEffects, CloseEffects;
    assert SPL_TOKEN_ID != TOKEN_2022_ID by { ProgramsDiffer(); }
    OthersRaiseNothing(cfg, a, slot, c);
    forall counted ensures Raised(CountEffects(cfg, counted), c) == One(c == counted) { CountRaises(cfg, counted, c); }
    if a.dataLen == SPL_ACCOUNT_LEN {
      if a.decoded.splAccount.Some? {
        var t := a.decoded.splAccount.value;
        TokenRaises(cfg, a, slot, t, c);
        RaisedConcat(TokenEffects(cfg, a, slot, t), CountEffects(cfg, SplParsed), c);
      } else {
        RaisedConcat(CountEffects(cfg, SplUnpackFailed), CloseEffects(cfg, a, slot), c);
      }
    } else if a.dataLen == SPL_MINT_LEN && a.decoded.splMint.Some? {
      RaisedConcat(MintEffects(cfg, a.pubkey, a.decoded.splMint.value), CountEffects(cfg, SplParsed), c);
    }
  }

  lemma Token2022Raises(cfg: Config, a: Account, slot: nat, c: Counter)
    requires cfg.counted && a.owner == TOKEN_2022_ID
    ensures Raised(Token2022Effects(cfg, a, slot), c) == One(c != Token2022OwnerSeen && IsCounted(cfg, c, a))
  {
    hide Raised, CountEffects, TokenEffects, MintEffects, CloseEffects, ExtensionEffects, FieldsEffects;
    assert SPL_TOKEN_ID != TOKEN_2022_ID by { ProgramsDiffer(); }
    OthersRaiseNothing(cfg, a, slot, c);
    CountRaises(cfg, Token2022Parsed, c);
    CountRaises(cfg, Token2022UnpackFailed, c);
    match a.decoded.base {
      case BaseAccount(t) =>
        TokenRaises(cfg, a, slot, t, c);
        RaisedConcat(TokenEffects(cfg, a, slot, t), CountEffects(cfg, Token2022Parsed), c);
      case BaseMint(m) =>
        var mint, extensions := MintEffects(cfg, a.pubkey, m), ExtensionEffects(cfg, a, slot);
        RaisedConcat(mint, extensions, c);
        RaisedConcat(mint + extensions, CountEffects(cfg, Token2022Parsed), c);
      case NoBase =>
        if a.decoded.standalone.Some? {
          RaisedConcat(FieldsEffects(cfg, a.decoded.standalone.value, slot, Source.Token2022Standalone, a.pubkey), CountEffects(cfg, Token2022Parsed), c);
        } else {
          RaisedConcat(CountEffects(cfg, Token2022UnpackFailed), CloseEffects(cfg, a, slot), c);
        }
    }
  }

  lemma ProgramRaises(cfg: Config, a: Account, slot: nat, c: Counter)
    requires cfg.counted
    ensures Raised(ProgramEffects(cfg, a, slot), c) == One(IsCounted(cfg, c, a))
  {
    hide Raised, CountEffects, SplEffects, Token2022Effects;
    assert SPL_TOKEN_ID != TOKEN_2022_ID by { ProgramsDiffer(); }
    if a.owner == SPL_TOKEN_ID {
      SplRaises(cfg, a, slot, c);
      CountRaises(cfg, SplOwnerSeen, c);
      RaisedConcat(CountEffects(cfg, SplOwnerSeen), SplEffects(cfg, a, slot), c);
    } else if a.owner == TOKEN_2022_ID {
      Token2022Raises(cfg, a, slot, c);
      CountRaises(cfg, Token2022OwnerSeen, c);
      RaisedConcat(CountEffects(cfg, Token2022OwnerSeen), Token2022Effects(cfg, a, slot), c);
    } else {
      RaisesNothing([], c);
    }
  }

  lemma AccountRaises(cfg: Config, a: Account, slot: nat, c: Counter)
    requires cfg.counted
    ensures Raised(AccountEffects(cfg, a, slot), c) == One(IsCounted(cfg, c, a))
  {
    hide Raised, BaseEffects, EmptyEffects, ProgramEffects, MetaplexEffects, IsCounted;
    var base, empty, program, metaplex :=
      BaseEffects(cfg, a), EmptyEffects(cfg, a, slot), ProgramEffects(cfg, a, slot), MetaplexEffects(cfg, a, slot);
    OthersRaiseNothing(cfg, a, slot, c);
    ProgramRaises(cfg, a, slot, c);
    RaisedConcat(base, empty, c);
    RaisedConcat(base + empty, program, c);
    RaisedConcat(base + empty + program, metaplex, c);
  }

  // ---------------------------------------------------------------- streams

  /** The number of accounts a counter counts in a file. */
  function Tally(cfg: Config, c: Counter, accounts: seq<Account>): nat
    decreases |accounts|
  {
    if accounts == [] then 0 else Tally(cfg, c, accounts[..|accounts| - 1]) + One(IsCounted(cfg, c, accounts[|accounts| - 1]))
  }

  /** And in a stream; two counters count the files themselves. */
  function StreamTally(cfg: Config, c: Counter, stream: seq<AppendVec>): nat
    decreases |stream|
  {
    if stream == [] then 0
    else
      var av := stream[|stream| - 1];
      StreamTally(cfg, c, stream[..|stream| - 1]) + Tally(cfg, c, av.accounts)
        + One(c == AppendVecs || (c == AppendVecsWithoutAccounts && av.accounts == []))
  }

  lemma {:induction false} AccountsRaise(cfg: Config, accounts: seq<Account>, slot: nat, c: Counter)
    requires cfg.counted
    ensures Raised(AccountsEffects(cfg, accounts, slot), c) == Tally(cfg, c, accounts)
    decreases |accounts|
  {
    hide AccountEffects, IsCounted;
    if accounts != [] {
      hide Raised;
      var n := |accounts| - 1;
      AccountsRaise(cfg, accounts[..n], slot, c);
      AccountRaises(cfg, accounts[n], slot, c);
      RaisedConcat(AccountsEffects(cfg, accounts[..n], slot), AccountEffects(cfg, accounts[n], slot), c);
    }
  }

  lemma FileRaises(cfg: Config, av: AppendVec, c: Counter)
    requires cfg.counted
    ensures Raised(AppendVecEffects(cfg, av), c)
         == Tally(cfg, c, av.accounts) + One(c == AppendVecs || (c == AppendVecsWithoutAccounts && av.accounts == []))
  {
    hide Raised, AccountsEffects, CountEffects, Tally;
    var first, last := CountEffects(cfg, AppendVecs), if av.accounts == [] then CountEffects(cfg, AppendVecsWithoutAccounts) else [];
    CountRaises(cfg, AppendVecs, c);
    CountRaises(cfg, AppendVecsWithoutAccounts, c);
    RaisesNothing([], c);
    AccountsRaise(cfg, av.accounts, av.slot, c);
    RaisedConcat(first, AccountsEffects(cfg, av.accounts, av.slot), c);
    RaisedConcat(first + AccountsEffects(cfg, av.accounts, av.slot), last, c);
  }

  lemma {:induction false} StreamRaises(cfg: Config, stream: seq<AppendVec>, c: Counter)
    requires cfg.counted
    ensures Raised(StreamEffects(cfg, stream), c) == StreamTally(cfg, c, stream)
    decreases |stream|
  {
    hide AppendVecEffects, Tally;
    if stream != [] {
      hide Raised;
      var n := |stream| - 1;
      StreamRaises(cfg, stream[..n], c);
      FileRaises(cfg, stream[n], c);
      RaisedConcat(StreamEffects(cfg, stream[..n]), AppendVecEffects(cfg, stream[n]), c);
    }
  }

  /** The counts of an import are the numbers of the accounts and files they are said to count. */
  lemma ImportCounted(cfg: Config, stream: seq<AppendVec>, c: Counter)
    requires cfg.counted
    ensures ImportOf(cfg, stream).counts[c] == StreamTally(cfg, c, stream)
  {
    hide Total, StreamEffects, StreamTally;
    StreamRaises(cfg, stream, c);
    TotalCounts(StreamEffects(cfg, stream), c);
  }

  lemma {:induction false} TallyBalances(cfg: Config, accounts: seq<Account>)
    ensures Tally(cfg, SplOwnerSeen, accounts)
         == Tally(cfg, SplParsed, accounts) + Tally(cfg, SplUnpackFailed, accounts) + Tally(cfg, SplUnexpectedSize, accounts)
    ensures Tally(cfg, Token2022OwnerSeen, accounts) == Tally(cfg, Token2022Parsed, accounts) + Tally(cfg, Token2022UnpackFailed, accounts)
    ensures Tally(cfg, AppendVecs, accounts) == 0
    decreases |accounts|
  {
    if accounts != [] {
      TallyBalances(cfg, accounts[..|accounts| - 1]);
    }
  }

  lemma {:induction false} StreamBalances(cfg: Config, stream: seq<AppendVec>)
    ensures StreamTally(cfg, SplOwnerSeen, stream)
         == StreamTally(cfg, SplParsed, stream) + StreamTally(cfg, SplUnpackFailed, stream) + StreamTally(cfg, SplUnexpectedSize, stream)
    ensures StreamTally(cfg, Token2022OwnerSeen, stream) == StreamTally(cfg, Token2022Parsed, stream) + StreamTally(cfg, Token2022UnpackFailed, stream)
    ensures StreamTally(cfg, AppendVecs, stream) == |stream|
    decreases |stream|
  {
    hide Tally;
    if stream != [] {
      TallyBalances(cfg, stream[|stream| - 1].accounts);
      StreamBalances(cfg, stream[..|stream| - 1]);
    }
  }

  /** Every account of a token program is counted as parsed or as one of the failures, and every file is counted. */
  lemma CountsBalance(cfg: Config, stream: seq<AppendVec>)
    requires cfg.counted
    ensures var n := ImportOf(cfg, stream).counts;
      && n[SplOwnerSeen] == n[SplParsed] + n[SplUnpackFailed] + n[SplUnexpectedSize]
      && n[Token2022OwnerSeen] == n[Token2022Parsed] + n[Token2022UnpackFailed]
      && n[AppendVecs] == |stream|
  {
    hide ImportOf, StreamTally;
    forall c ensures ImportOf(cfg, stream).counts[c] == StreamTally(cfg, c, stream) { ImportCounted(cfg, stream, c); }
    StreamBalances(cfg, stream);
  }
}
