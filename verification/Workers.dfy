/**
 The two account processors: the worker that fills one group, and the fanout
 worker that reads a full archive once for both groups. Each keeps a ghost
 log of what it did; its fields are the total of that log.
 */
module Workers {
  import opened Order
  import opened MetadataPatches
  import opened ImportOutput
  import opened Accounts

  /** The rows and patches produced for one group. */
  class GroupSink {
    var accounts: multiset<AccountRow>
    var tokens: multiset<TokenRow>
    var mints: multiset<MintRow>
    var fields: map<Pubkey, VersionedFields>
    var extensions: map<Pubkey, VersionedExtensions>

    constructor ()
      ensures Contents() == (NoRows, NoPatches)
    {
      accounts, tokens, mints := multiset{}, multiset{}, multiset{};
      fields, extensions := map[], map[];
    }

    function Contents(): (Rows, Patches)
      reads this
    {
      (Rows(accounts, tokens, mints), Patches(fields, extensions))
    }

    method WriteAccount(row: AccountRow)
      modifies this
      ensures Contents() == Updated(old(Contents()), Effect.WriteAccount(row))
    {
      accounts := accounts + multiset{row};
    }

    method WriteToken(row: TokenRow)
      modifies this
      ensures Contents() == Updated(old(Contents()), Effect.WriteToken(row))
    {
      tokens := tokens + multiset{row};
    }

    method WriteMint(row: MintRow)
      modifies this
      ensures Contents() == Updated(old(Contents()), Effect.WriteMint(row))
    {
      mints := mints + multiset{row};
    }

    method RecordMetadataFields(mint: Pubkey, candidate: VersionedFields)
      modifies this
      ensures Contents() == Updated(old(Contents()), RecordFields(mint, candidate))
      // The candidate is kept if there is none yet or it comes after the one there: the slot decides, then the source.
      ensures fields == if mint !in old(fields) || CandidateBefore(old(fields)[mint], candidate) then old(fields)[mint := candidate] else old(fields)
    {
      hide CandidateBefore, Compare, VersionedFieldsKey;
      if mint in fields {
        GreaterIsLater(fields[mint], candidate);
      }
      if mint !in fields || Compare(VersionedFieldsKey(candidate), VersionedFieldsKey(fields[mint])) == Greater {
        fields := fields[mint := candidate];
      }
    }

    method RecordTokenExtensions(mint: Pubkey, candidate: VersionedExtensions)
      modifies this
      ensures Contents() == Updated(old(Contents()), RecordExtensions(mint, candidate))
      ensures extensions == if mint !in old(extensions) || ExtensionsBefore(old(extensions)[mint], candidate) then old(extensions)[mint := candidate] else old(extensions)
    {
      hide ExtensionsBefore, Compare, VersionedExtensionsKey;
      if mint in extensions {
        GreaterExtensionsIsLater(extensions[mint], candidate);
      }
      if mint !in extensions || Compare(VersionedExtensionsKey(candidate), VersionedExtensionsKey(extensions[mint])) == Greater {
        extensions := extensions[mint := candidate];
      }
    }
  }

  /** The rows and patches of a group after one effect. */
  function Updated(c: (Rows, Patches), e: Effect): (Rows, Patches) {
    var o := Apply(Output(c.0, c.1, map[], {}, multiset{}), e);
    (o.rows, o.patches)
  }

  /** Fills one group from one archive. */
  class Worker {
    const cfg: Config
    const sink: GroupSink
    var closedTokenAccounts: map<Pubkey, nat>
    var affectedPairs: set<Pair>
    var counts: multiset<Counter>
    ghost var log: seq<Effect>

    ghost predicate Valid()
      reads this, sink
    {
      Result() == Total(log)
    }

    function Result(): Output
      reads this, sink
    {
      Output(sink.Contents().0, sink.Contents().1, closedTokenAccounts, affectedPairs, counts)
    }

    constructor (cfg: Config)
      ensures Valid() && log == [] && this.cfg == cfg && fresh(sink)
    {
      this.cfg := cfg;
      sink := new GroupSink();
      closedTokenAccounts, affectedPairs, counts, log := map[], {}, multiset{}, [];
    }

    ghost method Log(e: Effect)
      requires Result() == Apply(Total(log), e)
      modifies this`log
      ensures Valid() && log == old(log) + [e]
    {
      TotalSnoc(log, e);
      log := log + [e];
    }

    method Increment(c: Counter)
      requires Valid()
      modifies this
      ensures Valid() && log == old(log) + CountEffects(cfg, c)
    {
      hide Total, Compare, VersionedFieldsKey, VersionedExtensionsKey;
      if cfg.counted {
        counts := counts + multiset{c};
        Log(Count(c));
      }
    }

    method RecordCloseCandidate(a: Account, slot: nat)
      requires Valid()
      modifies this
      ensures Valid() && log == old(log) + CloseEffects(cfg, a, slot)
    {
      hide Total, Compare, VersionedFieldsKey, VersionedExtensionsKey;
      if cfg.kind.CollectCloseTombstones() && IsCloseTombstoneCandidate(a.lamports) {
        if a.pubkey !in closedTokenAccounts || slot > closedTokenAccounts[a.pubkey] {
          closedTokenAccounts := closedTokenAccounts[a.pubkey := slot];
        }
        Log(CloseCandidate(a.pubkey, slot));
      }
    }

    method RememberAffectedPair(pair: Pair)
      requires Valid()
      modifies this
      ensures Valid() && log == old(log) + if cfg.kind.Incremental? then [AffectedPair(pair)] else []
    {
      hide Total, Compare, VersionedFieldsKey, VersionedExtensionsKey;
      if cfg.kind.Incremental? {
        affectedPairs := affectedPairs + {pair};
        Log(AffectedPair(pair));
      }
    }

    method WriteHotTokenAccountRow(a: Account, slot: nat, t: TokenState)
      requires Valid() && t.mint in cfg.hot
      modifies this, sink
      ensures Valid() && log == old(log) + TokenEffects(cfg, a, slot, t)
      ensures forall e <- log[|old(log)|..] :: e.WriteToken? ==> TokenColumns(e.token, a.pubkey, t, slot)
    {
      hide Total, Compare, VersionedFieldsKey, VersionedExtensionsKey;
      if !cfg.kind.WritesLiveAmount(t.amount) {
        Increment(ZeroBalanceOmitted);
        return;
      }
      RememberAffectedPair((t.mint, t.owner));
      var row := TokenRow(a.pubkey, t.mint, t.owner, t.amount, t.delegate, t.delegatedAmount, t.state, t.closeAuthority, false, slot);
      sink.WriteToken(row);
      Log(Effect.WriteToken(row));
    }

    method WriteTokenMint(mint: Pubkey, m: MintState)
      requires Valid()
      modifies this, sink
      ensures Valid() && log == old(log) + MintEffects(cfg, mint, m)
      ensures forall e <- log[|old(log)|..] :: e.WriteMint? ==> MintColumns(e.mintRow, mint, m, cfg.snapshotSlot)
    {
      hide Total, Compare, VersionedFieldsKey, VersionedExtensionsKey;
      if mint in cfg.hot {
        var row := MintRow(mint, m.mintAuthority, m.supply, m.decimals, m.isInitialized, m.freezeAuthority, cfg.snapshotSlot);
        sink.WriteMint(row);
        Log(Effect.WriteMint(row));
      }
    }

    method RecordMetadata(m: NamedMetadata, slot: nat, source: Source, account: Pubkey)
      requires Valid()
      modifies this, sink
      ensures Valid() && log == old(log) + FieldsEffects(cfg, m, slot, source, account)
    {
      hide Total, Compare, VersionedFieldsKey, VersionedExtensionsKey;
      if m.mint in cfg.hot {
        var v := VersionedFields(slot, source, account, m.fields);
        sink.RecordMetadataFields(m.mint, v);
        Log(RecordFields(m.mint, v));
      }
    }

    method InsertSplToken(a: Account, slot: nat)
      requires Valid()
      modifies this, sink
      ensures Valid() && log == old(log) + SplEffects(cfg, a, slot)
    {
      hide Total, Compare, VersionedFieldsKey, VersionedExtensionsKey, MintEffects;
      if a.dataLen == SPL_ACCOUNT_LEN {
        match a.decoded.splAccount {
          case Some(t) =>
            if t.mint in cfg.hot {
              WriteHotTokenAccountRow(a, slot, t);
            }
            Increment(SplParsed);
          case None =>
            Increment(SplUnpackFailed);
            RecordCloseCandidate(a, slot);
        }
      } else if a.dataLen == SPL_MINT_LEN {
        match a.decoded.splMint {
          case Some(m) =>
            WriteTokenMint(a.pubkey, m);
            Increment(SplParsed);
          case None =>
            Increment(SplUnpackFailed);
        }
      } else {
        Increment(SplUnexpectedSize);
      }
    }

    method InsertMintExtensions(a: Account, slot: nat)
      requires Valid()
      modifies this, sink
      ensures Valid() && log == old(log) + ExtensionEffects(cfg, a, slot)
    {
      hide Total, Compare, VersionedFieldsKey, VersionedExtensionsKey, FieldsEffects;
      if a.pubkey in cfg.hot && a.decoded.extensions.Some? {
        var x := a.decoded.extensions.value;
        sink.RecordTokenExtensions(a.pubkey, VersionedExtensions(slot, x.json));
        Log(RecordExtensions(a.pubkey, VersionedExtensions(slot, x.json)));
        if x.tokenMetadata.Some? && x.tokenMetadata.value.mint == a.pubkey {
          RecordMetadata(x.tokenMetadata.value, slot, Token2022Embedded, a.pubkey);
        }
      }
    }

    method InsertToken2022(a: Account, slot: nat)
      requires Valid()
      modifies this, sink
      ensures Valid() && log == old(log) + Token2022Effects(cfg, a, slot)
    {
      hide Total, Apply, MintEffects, FieldsEffects, ExtensionEffects, CountEffects, CloseEffects;
      match a.decoded.base {
        case BaseAccount(t) =>
          if t.mint in cfg.hot {
            WriteHotTokenAccountRow(a, slot, t);
          }
          Increment(Token2022Parsed);
        case BaseMint(m) =>
          WriteTokenMint(a.pubkey, m);
          InsertMintExtensions(a, slot);
          Increment(Token2022Parsed);
        case NoBase =>
          match a.decoded.standalone {
            case Some(m) =>
              RecordMetadata(m, slot, Token2022Standalone, a.pubkey);
              Increment(Token2022Parsed);
            case None =>
              Increment(Token2022UnpackFailed);
              RecordCloseCandidate(a, slot);
          }
      }
    }

    method InsertByProgram(a: Account, slot: nat)
      requires Valid()
      modifies this, sink
      ensures Valid() && log == old(log) + ProgramEffects(cfg, a, slot)
    {
      hide Total, Apply, SplEffects, Token2022Effects, CountEffects;
      if a.owner == SPL_TOKEN_ID {
        Increment(SplOwnerSeen);
        InsertSplToken(a, slot);
      } else if a.owner == TOKEN_2022_ID {
        Increment(Token2022OwnerSeen);
        InsertToken2022(a, slot);
      }
    }

    method InsertAccountRow(a: Account)
      requires Valid()
      modifies this, sink
      ensures Valid() && log == old(log) + BaseEffects(cfg, a)
      ensures forall e <- log[|old(log)|..] :: e.WriteAccount? ==> AccountColumns(e.account, a, cfg.snapshotSlot)
    {
      hide Total, Compare, VersionedFieldsKey, VersionedExtensionsKey;
      var row := AccountRow(a.pubkey, a.owner, a.lamports, a.dataLen, a.executable, cfg.snapshotSlot);
      sink.WriteAccount(row);
      Log(Effect.WriteAccount(row));
    }

    method InsertMetaplex(a: Account, slot: nat)
      requires Valid()
      modifies this, sink
      ensures Valid() && log == old(log) + MetaplexEffects(cfg, a, slot)
    {
      hide Total, Apply, FieldsEffects;
      if a.owner == METAPLEX_ID && a.decoded.metaplex.Some? {
        RecordMetadata(a.decoded.metaplex.value, slot, Metaplex, a.pubkey);
      }
    }

    method InsertAccount(a: Account, slot: nat)
      requires Valid()
      modifies this, sink
      ensures Valid() && log == old(log) + AccountEffects(cfg, a, slot)
    {
      hide Total, Apply, BaseEffects, ProgramEffects, MetaplexEffects, CloseEffects, IsCanonicalEmpty;
      InsertAccountRow(a);
      ghost var empties: seq<Effect> := EmptyEffects(cfg, a, slot);
      assert !cfg.kind.CollectCloseTombstones() ==> empties == [] by { NoClosesUncollected(cfg, a, slot); }
      if cfg.kind.CollectCloseTombstones() && IsCanonicalEmpty(a) {
        RecordCloseCandidate(a, slot);
      }
      InsertByProgram(a, slot);
      InsertMetaplex(a, slot);
    }

    method OnAppendVec(av: AppendVec) returns (parsedAccounts: nat)
      requires Valid()
      modifies this, sink
      ensures Valid() && log == old(log) + AccountsEffects(cfg, av.accounts, av.slot)
      ensures parsedAccounts == |av.accounts|
    {
      hide Total, Compare, VersionedFieldsKey, VersionedExtensionsKey, AccountEffects;
      parsedAccounts := 0;
      assert av.accounts[..0] == [];
      while parsedAccounts < |av.accounts|
        invariant parsedAccounts <= |av.accounts|
        invariant Valid() && log == old(log) + AccountsEffects(cfg, av.accounts[..parsedAccounts], av.slot)
      {
        InsertAccount(av.accounts[parsedAccounts], av.slot);
        assert av.accounts[..parsedAccounts + 1][..parsedAccounts] == av.accounts[..parsedAccounts];
        parsedAccounts := parsedAccounts + 1;
      }
      assert av.accounts[..parsedAccounts] == av.accounts;
    }

    /** The sequential import loop, up to the metadata and tombstone passes. */
    method InsertAll(stream: seq<AppendVec>)
      requires Valid() && log == []
      modifies this, sink
      ensures Result() == ImportOf(cfg, stream)
    {
      hide Total, Compare, VersionedFieldsKey, VersionedExtensionsKey, AccountsEffects;
      var i := 0;
      assert stream[..0] == [];
      while i < |stream|
        invariant i <= |stream|
        invariant Valid() && log == StreamEffects(cfg, stream[..i])
      {
        Increment(AppendVecs);
        var parsed := OnAppendVec(stream[i]);
        if parsed == 0 {
          Increment(AppendVecsWithoutAccounts);
        }
        assert stream[..i + 1][..i] == stream[..i];
        i := i + 1;
      }
      assert stream[..i] == stream;
    }
  }

  lemma NoClosesUncollected(cfg: Config, a: Account, slot: nat)
    ensures !cfg.kind.CollectCloseTombstones() ==> EmptyEffects(cfg, a, slot) == []
  {
  }
}
