/**
 One pass over a full archive feeding two groups. Staging takes every
 AppendVec as a full import; active takes those above its watermark as an
 incremental import. The result is that of two independent imports.
 */
module Fanout {
  import opened Wrappers
  import opened Order
  import opened MetadataPatches
  import opened ImportOutput
  import opened Accounts
  import opened Workers

  lemma TokenEffectsColumns(cfg: Config, a: Account, slot: nat, t: TokenState)
    ensures forall e <- TokenEffects(cfg, a, slot, t) :: e.WriteToken? ==> TokenColumns(e.token, a.pubkey, t, slot)
  {
  }

  class FullFanoutWorker {
    const stagingCfg: Config
    const activeCfg: Config
    const activeResumeSlot: nat
    const staging: GroupSink
    const active: GroupSink
    var closedTokenAccounts: map<Pubkey, nat>
    var affectedPairs: set<Pair>
    var counts: multiset<Counter>
    ghost var stagingLog: seq<Effect>
    ghost var activeLog: seq<Effect>

    /** Statistics are kept once; they are those of the staging import. */
    function StagingResult(): Output
      reads this, staging
    {
      Output(staging.Contents().0, staging.Contents().1, map[], {}, counts)
    }

    /** Close candidates and touched pairs belong to the active import. */
    function ActiveResult(): Output
      reads this, active
    {
      Output(active.Contents().0, active.Contents().1, closedTokenAccounts, affectedPairs, multiset{})
    }

    ghost predicate Valid()
      reads this, staging, active
    {
      && staging != active
      && stagingCfg.kind == Full && stagingCfg.counted
      && activeCfg.kind == Incremental && !activeCfg.counted
      && stagingCfg.snapshotSlot == activeCfg.snapshotSlot
      && StagingResult() == Total(stagingLog)
      && ActiveResult() == Total(activeLog)
    }

    constructor (snapshotSlot: nat, activeResumeSlot: nat, activeHot: set<Pubkey>, stagingHot: set<Pubkey>)
      ensures Valid() && stagingLog == [] && activeLog == []
      ensures stagingCfg == Config(Full, snapshotSlot, stagingHot, true)
      ensures activeCfg == Config(Incremental, snapshotSlot, activeHot, false)
      ensures this.activeResumeSlot == activeResumeSlot && fresh(staging) && fresh(active)
    {
      stagingCfg := Config(Full, snapshotSlot, stagingHot, true);
      activeCfg := Config(Incremental, snapshotSlot, activeHot, false);
      this.activeResumeSlot := activeResumeSlot;
      staging := new GroupSink();
      active := new GroupSink();
      closedTokenAccounts, affectedPairs, counts := map[], {}, multiset{};
      stagingLog, activeLog := [], [];
    }

    ghost method LogStaging(e: Effect)
      requires StagingResult() == Apply(Total(stagingLog), e)
      modifies this`stagingLog
      ensures StagingResult() == Total(stagingLog) && stagingLog == old(stagingLog) + [e]
    {
      TotalSnoc(stagingLog, e);
      stagingLog := stagingLog + [e];
    }

    ghost method LogActive(e: Effect)
      requires ActiveResult() == Apply(Total(activeLog), e)
      modifies this`activeLog
      ensures ActiveResult() == Total(activeLog) && activeLog == old(activeLog) + [e]
    {
      TotalSnoc(activeLog, e);
      activeLog := activeLog + [e];
    }

    method Increment(c: Counter)
      requires Valid()
      modifies this
      ensures Valid() && activeLog == old(activeLog)
      ensures stagingLog == old(stagingLog) + CountEffects(stagingCfg, c)
    {
      hide Total;
      counts := counts + multiset{c};
      LogStaging(Count(c));
    }

    method RecordActiveCloseCandidate(a: Account, slot: nat)
      requires Valid()
      modifies this
      ensures Valid() && stagingLog == old(stagingLog)
      ensures activeLog == old(activeLog) + CloseEffects(activeCfg, a, slot)
    {
      hide Total;
      if IsCloseTombstoneCandidate(a.lamports) {
        if a.pubkey !in closedTokenAccounts || slot > closedTokenAccounts[a.pubkey] {
          closedTokenAccounts := closedTokenAccounts[a.pubkey := slot];
        }
        LogActive(CloseCandidate(a.pubkey, slot));
      }
    }

    method WriteStagingToken(row: TokenRow)
      requires Valid()
      modifies this`stagingLog, staging
      ensures Valid() && stagingLog == old(stagingLog) + [Effect.WriteToken(row)]
    {
      hide Total;
      staging.WriteToken(row);
      LogStaging(Effect.WriteToken(row));
    }

    method WriteActiveToken(row: TokenRow)
      requires Valid()
      modifies this`activeLog, active
      ensures Valid() && activeLog == old(activeLog) + [Effect.WriteToken(row)]
    {
      hide Total;
      active.WriteToken(row);
      LogActive(Effect.WriteToken(row));
    }

    method RememberActivePair(pair: Pair)
      requires Valid()
      modifies this`affectedPairs, this`activeLog
      ensures Valid() && activeLog == old(activeLog) + [AffectedPair(pair)]
    {
      hide Total;
      affectedPairs := affectedPairs + {pair};
      LogActive(AffectedPair(pair));
    }

    method WriteTokenAccountRow(a: Account, slot: nat, tail: bool, t: TokenState)
      requires Valid()
      modifies this, staging, active
      ensures Valid()
      ensures stagingLog == old(stagingLog) + TokenEffects(stagingCfg, a, slot, t)
      ensures activeLog == old(activeLog) + if tail then TokenEffects(activeCfg, a, slot, t) else []
      ensures forall i :: |old(stagingLog)| <= i < |stagingLog| && stagingLog[i].WriteToken? ==> TokenColumns(stagingLog[i].token, a.pubkey, t, slot)
      ensures forall i :: |old(activeLog)| <= i < |activeLog| && activeLog[i].WriteToken? ==> TokenColumns(activeLog[i].token, a.pubkey, t, slot)
    {
      TokenEffectsColumns(stagingCfg, a, slot, t);
      TokenEffectsColumns(activeCfg, a, slot, t);
      hide Total, Apply, TokenColumns;
      var writeStaging := t.mint in stagingCfg.hot;
      var writeActive := tail && t.mint in activeCfg.hot;
      if writeStaging && !SnapshotKind.Full.WritesLiveAmount(t.amount) {
        writeStaging := false;
        Increment(ZeroBalanceOmitted);
      }
      if !writeStaging && !writeActive {
        return;
      }
      if writeActive {
        RememberActivePair((t.mint, t.owner));
      }
      var row := TokenRow(a.pubkey, t.mint, t.owner, t.amount, t.delegate, t.delegatedAmount, t.state, t.closeAuthority, false, slot);
      if writeStaging {
        WriteStagingToken(row);
      }
      if writeActive {
        WriteActiveToken(row);
      }
    }

    method WriteTokenMintRow(tail: bool, mint: Pubkey, m: MintState)
      requires Valid()
      modifies this, staging, active
      ensures Valid()
      ensures stagingLog == old(stagingLog) + MintEffects(stagingCfg, mint, m)
      ensures activeLog == old(activeLog) + if tail then MintEffects(activeCfg, mint, m) else []
      ensures forall e <- stagingLog[|old(stagingLog)|..] :: e.WriteMint? ==> MintColumns(e.mintRow, mint, m, stagingCfg.snapshotSlot)
      ensures forall e <- activeLog[|old(activeLog)|..] :: e.WriteMint? ==> MintColumns(e.mintRow, mint, m, activeCfg.snapshotSlot)
    {
      hide Total;
      var writeStaging := mint in stagingCfg.hot;
      var writeActive := tail && mint in activeCfg.hot;
      if !writeStaging && !writeActive {
        return;
      }
      var row := MintRow(mint, m.mintAuthority, m.supply, m.decimals, m.isInitialized, m.freezeAuthority, stagingCfg.snapshotSlot);
      if writeStaging {
        staging.WriteMint(row);
        LogStaging(Effect.WriteMint(row));
      }
      if writeActive {
        active.WriteMint(row);
        LogActive(Effect.WriteMint(row));
      }
    }

    method RecordMetadata(m: NamedMetadata, slot: nat, source: Source, account: Pubkey, tail: bool)
      requires Valid()
      modifies this, staging, active
      ensures Valid()
      ensures stagingLog == old(stagingLog) + FieldsEffects(stagingCfg, m, slot, source, account)
      ensures activeLog == old(activeLog) + if tail then FieldsEffects(activeCfg, m, slot, source, account) else []
    {
      hide Total, Compare, VersionedFieldsKey;
      var writeStaging := m.mint in stagingCfg.hot;
      var writeActive := tail && m.mint in activeCfg.hot;
      if !writeStaging && !writeActive {
        return;
      }
      var candidate := VersionedFields(slot, source, account, m.fields);
      if writeStaging {
        staging.RecordMetadataFields(m.mint, candidate);
        LogStaging(RecordFields(m.mint, candidate));
      }
      if writeActive {
        active.RecordMetadataFields(m.mint, candidate);
        LogActive(RecordFields(m.mint, candidate));
      }
    }

    method RecordMintExtensions(a: Account, slot: nat, tail: bool)
      requires Valid()
      modifies this, staging, active
      ensures Valid()
      ensures stagingLog == old(stagingLog) + ExtensionEffects(stagingCfg, a, slot)
      ensures activeLog == old(activeLog) + if tail then ExtensionEffects(activeCfg, a, slot) else []
    {
      hide Total, Compare, VersionedExtensionsKey;
      var writeStaging := a.pubkey in stagingCfg.hot;
      var writeActive := tail && a.pubkey in activeCfg.hot;
      if (writeStaging || writeActive) && a.decoded.extensions.Some? {
        var x := a.decoded.extensions.value;
        var patch := VersionedExtensions(slot, x.json);
        if writeStaging {
          staging.RecordTokenExtensions(a.pubkey, patch);
          LogStaging(RecordExtensions(a.pubkey, patch));
        }
        if writeActive {
          active.RecordTokenExtensions(a.pubkey, patch);
          LogActive(RecordExtensions(a.pubkey, patch));
        }
        if x.tokenMetadata.Some? && x.tokenMetadata.value.mint == a.pubkey {
          RecordMetadata(x.tokenMetadata.value, slot, Token2022Embedded, a.pubkey, tail);
        }
      }
    }

    method InsertSplToken(a: Account, slot: nat, tail: bool)
      requires Valid()
      modifies this, staging, active
      ensures Valid()
      ensures stagingLog == old(stagingLog) + SplEffects(stagingCfg, a, slot)
      ensures activeLog == old(activeLog) + if tail then SplEffects(activeCfg, a, slot) else []
    {
      hide Total, Apply, TokenEffects, MintEffects;
      if a.dataLen == SPL_ACCOUNT_LEN {
        match a.decoded.splAccount {
          case Some(t) =>
            WriteTokenAccountRow(a, slot, tail, t);
            Increment(SplParsed);
          case None =>
            Increment(SplUnpackFailed);
            if tail {
              RecordActiveCloseCandidate(a, slot);
            }
        }
      } else if a.dataLen == SPL_MINT_LEN {
        match a.decoded.splMint {
          case Some(m) =>
            WriteTokenMintRow(tail, a.pubkey, m);
            Increment(SplParsed);
          case None =>
            Increment(SplUnpackFailed);
        }
      } else {
        Increment(SplUnexpectedSize);
      }
    }

    method InsertToken2022(a: Account, slot: nat, tail: bool)
      requires Valid()
      modifies this, staging, active
      ensures Valid()
      ensures stagingLog == old(stagingLog) + Token2022Effects(stagingCfg, a, slot)
      ensures activeLog == old(activeLog) + if tail then Token2022Effects(activeCfg, a, slot) else []
    {
      hide Total, Apply, TokenEffects, MintEffects, ExtensionEffects, FieldsEffects;
      match a.decoded.base {
        case BaseAccount(t) =>
          WriteTokenAccountRow(a, slot, tail, t);
          Increment(Token2022Parsed);
        case BaseMint(m) =>
          WriteTokenMintRow(tail, a.pubkey, m);
          RecordMintExtensions(a, slot, tail);
          Increment(Token2022Parsed);
        case NoBase =>
          match a.decoded.standalone {
            case Some(m) =>
              RecordMetadata(m, slot, Token2022Standalone, a.pubkey, tail);
              Increment(Token2022Parsed);
            case None =>
              Increment(Token2022UnpackFailed);
              if tail {
                RecordActiveCloseCandidate(a, slot);
              }
          }
      }
    }

    method InsertByProgram(a: Account, slot: nat, tail: bool)
      requires Valid()
      modifies this, staging, active
      ensures Valid()
      ensures stagingLog == old(stagingLog) + ProgramEffects(stagingCfg, a, slot)
      ensures activeLog == old(activeLog) + if tail then ProgramEffects(activeCfg, a, slot) else []
    {
      hide Total, Apply, SplEffects, Token2022Effects, SPL_TOKEN_ID, TOKEN_2022_ID;
      if a.owner == SPL_TOKEN_ID {
        Increment(SplOwnerSeen);
        InsertSplToken(a, slot, tail);
      } else if a.owner == TOKEN_2022_ID {
        Increment(Token2022OwnerSeen);
        InsertToken2022(a, slot, tail);
      }
    }

    method WriteStagingAccount(row: AccountRow)
      requires Valid()
      modifies this`stagingLog, staging
      ensures Valid() && stagingLog == old(stagingLog) + [Effect.WriteAccount(row)]
    {
      hide Total;
      staging.WriteAccount(row);
      LogStaging(Effect.WriteAccount(row));
    }

    method WriteActiveAccount(row: AccountRow)
      requires Valid()
      modifies this`activeLog, active
      ensures Valid() && activeLog == old(activeLog) + [Effect.WriteAccount(row)]
    {
      hide Total;
      active.WriteAccount(row);
      LogActive(Effect.WriteAccount(row));
    }

    method InsertAccountRow(a: Account, slot: nat, tail: bool)
      requires Valid()
      modifies this, staging, active
      ensures Valid()
      ensures stagingLog == old(stagingLog) + BaseEffects(stagingCfg, a) + EmptyEffects(stagingCfg, a, slot)
      ensures activeLog == old(activeLog) + if tail then BaseEffects(activeCfg, a) + EmptyEffects(activeCfg, a, slot) else []
    {
      hide Total, Apply, CloseEffects, IsCanonicalEmpty, DEFAULT_PUBKEY;
      NoClosesUncollected(stagingCfg, a, slot);
      var row := AccountRow(a.pubkey, a.owner, a.lamports, a.dataLen, a.executable, stagingCfg.snapshotSlot);
      WriteStagingAccount(row);
      if tail {
        WriteActiveAccount(row);
      }
      if tail && IsCanonicalEmpty(a) {
        RecordActiveCloseCandidate(a, slot);
      }
    }

    method InsertMetaplex(a: Account, slot: nat, tail: bool)
      requires Valid()
      modifies this, staging, active
      ensures Valid()
      ensures stagingLog == old(stagingLog) + MetaplexEffects(stagingCfg, a, slot)
      ensures activeLog == old(activeLog) + if tail then MetaplexEffects(activeCfg, a, slot) else []
    {
      hide Total, Apply, FieldsEffects;
      if a.owner == METAPLEX_ID && a.decoded.metaplex.Some? {
        RecordMetadata(a.decoded.metaplex.value, slot, Metaplex, a.pubkey, tail);
      }
    }

    method InsertAccount(a: Account, slot: nat, tail: bool)
      requires Valid()
      modifies this, staging, active
      ensures Valid()
      ensures stagingLog == old(stagingLog) + AccountEffects(stagingCfg, a, slot)
      ensures activeLog == old(activeLog) + if tail then AccountEffects(activeCfg, a, slot) else []
    {
      hide Total, Apply, BaseEffects, EmptyEffects, ProgramEffects, MetaplexEffects;
      InsertAccountRow(a, slot, tail);
      InsertByProgram(a, slot, tail);
      InsertMetaplex(a, slot, tail);
    }

    method InsertAccounts(av: AppendVec, tail: bool) returns (parsed: nat)
      requires Valid()
      modifies this, staging, active
      ensures Valid() && parsed == |av.accounts|
      ensures stagingLog == old(stagingLog) + AccountsEffects(stagingCfg, av.accounts, av.slot)
      ensures activeLog == old(activeLog) + if tail then AccountsEffects(activeCfg, av.accounts, av.slot) else []
    {
      hide Total, Apply, AccountEffects, Valid;
      parsed := 0;
      assert av.accounts[..0] == [];
      while parsed < |av.accounts|
        invariant parsed <= |av.accounts|
        invariant Valid()
        invariant stagingLog == old(stagingLog) + AccountsEffects(stagingCfg, av.accounts[..parsed], av.slot)
        invariant activeLog == old(activeLog) + if tail then AccountsEffects(activeCfg, av.accounts[..parsed], av.slot) else []
      {
        InsertAccount(av.accounts[parsed], av.slot, tail);
        assert av.accounts[..parsed + 1][..parsed] == av.accounts[..parsed];
        parsed := parsed + 1;
      }
      assert av.accounts[..parsed] == av.accounts;
    }

    method OnAppendVec(av: AppendVec)
      requires Valid()
      modifies this, staging, active
      ensures Valid()
      ensures stagingLog == old(stagingLog) + FanoutEffects(stagingCfg, av)
      ensures activeLog == old(activeLog) + if av.slot > activeResumeSlot then AppendVecEffects(activeCfg, av) else []
    {
      hide Total, Apply, AccountsEffects;
      var tail := av.slot > activeResumeSlot;
      Increment(AppendVecs);
      var parsed := InsertAccounts(av, tail);
      if av.len > 0 && parsed == 0 {
        Increment(AppendVecsWithoutAccounts);
      }
    }

    /** The whole pass. */
    method ImportAll(stream: seq<AppendVec>)
      requires Valid() && stagingLog == [] && activeLog == []
      modifies this, staging, active
      ensures StagingResult() == Total(FanoutStream(stagingCfg, stream))
      ensures ActiveResult() == ImportOf(activeCfg, Above(Some(activeResumeSlot), stream))
    {
      hide Total, Apply, AppendVecEffects, FanoutEffects, Above;
      AboveNothing(Some(activeResumeSlot));
      var i := 0;
      assert stream[..0] == [];
      while i < |stream|
        invariant i <= |stream|
        invariant Valid()
        invariant stagingLog == FanoutStream(stagingCfg, stream[..i])
        invariant activeLog == StreamEffects(activeCfg, Above(Some(activeResumeSlot), stream[..i]))
      {
        OnAppendVec(stream[i]);
        assert stream[..i + 1] == stream[..i] + [stream[i]];
        AboveExtended(Some(activeResumeSlot), stream[..i], stream[i]);
        if stream[i].slot > activeResumeSlot {
          StreamEffectsSnoc(activeCfg, Above(Some(activeResumeSlot), stream[..i]), stream[i]);
        } else {
          assert Above(Some(activeResumeSlot), stream[..i + 1]) == Above(Some(activeResumeSlot), stream[..i]);
        }
        i := i + 1;
      }
      assert stream[..i] == stream;
    }
  }

  lemma AboveNothing(minimum: Option<nat>)
    ensures Above(minimum, []) == []
  {
  }

  lemma StreamEffectsSnoc(cfg: Config, stream: seq<AppendVec>, av: AppendVec)
    ensures StreamEffects(cfg, stream + [av]) == StreamEffects(cfg, stream) + AppendVecEffects(cfg, av)
  {
    assert (stream + [av])[..|stream|] == stream;
  }

  /** The fanout counts a file without accounts only when the file is not empty. */
  function FanoutEffects(cfg: Config, av: AppendVec): seq<Effect> {
    CountEffects(cfg, AppendVecs) + AccountsEffects(cfg, av.accounts, av.slot)
      + (if av.len > 0 && av.accounts == [] then CountEffects(cfg, AppendVecsWithoutAccounts) else [])
  }

  function FanoutStream(cfg: Config, stream: seq<AppendVec>): seq<Effect>
    decreases |stream|
  {
    if stream == [] then []
    else FanoutStream(cfg, stream[..|stream| - 1]) + FanoutEffects(cfg, stream[|stream| - 1])
  }

  // ---------------------------------------------- against a full import

  /** One statistic per empty file of a stream. */
  function EmptyFileCounts(stream: seq<AppendVec>): seq<Effect>
    decreases |stream|
  {
    if stream == [] then []
    else
      var n := |stream| - 1;
      EmptyFileCounts(stream[..n]) + if stream[n].len == 0 && stream[n].accounts == [] then [Count(AppendVecsWithoutAccounts)] else []
  }

  lemma {:induction false} FullImportCountsEmptyFiles(cfg: Config, stream: seq<AppendVec>)
    requires cfg.counted
    ensures ImportOf(cfg, stream) == Merge(Total(FanoutStream(cfg, stream)), Total(EmptyFileCounts(stream)))
    decreases |stream|
  {
    hide Total, Merge, AccountsEffects;
    if stream == [] {
      EmptyTotal();
      MergeMonoid(Empty, Empty, Empty);
    } else {
      var n := |stream| - 1;
      var av := stream[n];
      FullImportCountsEmptyFiles(cfg, stream[..n]);
      var fan, full := FanoutStream(cfg, stream[..n]), StreamEffects(cfg, stream[..n]);
      var extra: seq<Effect> := if av.len == 0 && av.accounts == [] then [Count(AppendVecsWithoutAccounts)] else [];
      assert AppendVecEffects(cfg, av) == FanoutEffects(cfg, av) + extra;
      TotalConcat(full, AppendVecEffects(cfg, av));
      TotalConcat(FanoutEffects(cfg, av), extra);
      TotalConcat(fan, FanoutEffects(cfg, av));
      TotalConcat(EmptyFileCounts(stream[..n]), extra);
      Interchange(Total(fan), Total(EmptyFileCounts(stream[..n])), Total(FanoutEffects(cfg, av)), Total(extra));
    }
  }

  lemma EmptyTotal()
    ensures Total([]) == Empty
  {
  }

  lemma Interchange(a: Output, b: Output, c: Output, d: Output)
    ensures Merge(Merge(a, b), Merge(c, d)) == Merge(Merge(a, c), Merge(b, d))
  {
    hide Merge;
    MergeMonoid(a, b, Merge(c, d));
    MergeMonoid(b, c, d);
    MergeMonoid(c, b, d);
    MergeMonoid(a, c, Merge(b, d));
  }

  lemma {:induction false} EmptyFileCountsTotal(stream: seq<AppendVec>)
    ensures var o := Total(EmptyFileCounts(stream));
      o == Empty.(counts := o.counts) && |o.counts| == |EmptyFileCounts(stream)|
    decreases |stream|
  {
    hide Total, Merge;
    EmptyTotal();
    if stream != [] {
      var n := |stream| - 1;
      EmptyFileCountsTotal(stream[..n]);
      if stream[n].len == 0 && stream[n].accounts == [] {
        TotalSnoc(EmptyFileCounts(stream[..n]), Count(AppendVecsWithoutAccounts));
      } else {
        assert EmptyFileCounts(stream) == EmptyFileCounts(stream[..n]);
      }
    }
  }

  /**
   Staging gets what a standalone full import would give it: always the same
   rows, patches, candidates and pairs, and the same statistics exactly when
   the stream has no empty file, which only the standalone import counts.
   */
  lemma StagingEqualsFullImport(cfg: Config, stream: seq<AppendVec>)
    requires cfg.counted
    ensures var fan, full := Total(FanoutStream(cfg, stream)), ImportOf(cfg, stream);
      && fan == full.(counts := fan.counts)
      && (fan == full <==> forall av <- stream :: !(av.len == 0 && av.accounts == []))
  {
    hide Total;
    FullImportCountsEmptyFiles(cfg, stream);
    EmptyFileCountsTotal(stream);
    UnitParts(Total(FanoutStream(cfg, stream)));
    var fan, empties := Total(FanoutStream(cfg, stream)), Total(EmptyFileCounts(stream));
    assert |fan.counts + empties.counts| == |fan.counts| + |empties.counts|;
    EmptyFileCountsNone(stream);
    if EmptyFileCounts(stream) == [] {
      assert |empties.counts| == 0;
      assert empties.counts == multiset{};
    }
  }

  lemma {:induction false} EmptyFileCountsNone(stream: seq<AppendVec>)
    ensures EmptyFileCounts(stream) == [] <==> forall av <- stream :: !(av.len == 0 && av.accounts == [])
    decreases |stream|
  {
    if stream != [] {
      EmptyFileCountsNone(stream[..|stream| - 1]);
      assert stream == stream[..|stream| - 1] + [stream[|stream| - 1]];
    }
  }

  // --------------------------------------- against an incremental import

  /** Drop the statistics. */
  function Strip(es: seq<Effect>): seq<Effect>
    decreases |es|
  {
    if es == [] then [] else (if es[0].Count? then [] else [es[0]]) + Strip(es[1..])
  }

  lemma {:induction false} StripConcat(xs: seq<Effect>, ys: seq<Effect>)
    ensures Strip(xs + ys) == Strip(xs) + Strip(ys)
    decreases |xs|
  {
    if xs == [] {
      assert xs + ys == ys;
    } else {
      assert (xs + ys)[1..] == xs[1..] + ys;
      StripConcat(xs[1..], ys);
    }
  }

  function Uncounted(o: Output): Output { o.(counts := multiset{}) }

  lemma {:induction false} StripTotal(es: seq<Effect>)
    ensures Total(Strip(es)) == Uncounted(Total(es))
    decreases |es|
  {
    hide Compare, VersionedFieldsKey, VersionedExtensionsKey, Apply;
    if es == [] {
    } else {
      var n := |es| - 1;
      assert es == es[..n] + [es[n]];
      StripConcat(es[..n], [es[n]]);
      StripTotal(es[..n]);
      TotalSnoc(es[..n], es[n]);
      StripOne(es[n]);
      if es[n].Count? {
        ApplyCount(Total(es[..n]), es[n]);
        assert Strip(es) == Strip(es[..n]);
      } else {
        TotalSnoc(Strip(es[..n]), es[n]);
        ApplyUncounted(Total(es[..n]), es[n]);
      }
    }
  }

  lemma StripOne(e: Effect)
    ensures Strip([e]) == if e.Count? then [] else [e]
  {
    assert [e][1..] == [];
  }

  lemma ApplyCount(o: Output, e: Effect)
    requires e.Count?
    ensures Uncounted(Apply(o, e)) == Uncounted(o)
  {
  }

  lemma ApplyUncounted(o: Output, e: Effect)
    requires !e.Count?
    ensures Uncounted(Apply(o, e)) == Apply(Uncounted(o), e)
  {
    hide Compare, VersionedFieldsKey, VersionedExtensionsKey;
  }

  /** Not counting is stripping, for the pieces a statistic can be in. */
  lemma UncountedPieces(cfg: Config, a: Account, slot: nat)
    requires cfg.counted
    ensures var u := cfg.(counted := false);
      && SplEffects(u, a, slot) == Strip(SplEffects(cfg, a, slot))
      && Token2022Effects(u, a, slot) == Strip(Token2022Effects(cfg, a, slot))
  {
    hide Strip, FieldsEffects, MintEffects, CloseEffects, ExtensionEffects;
    var u := cfg.(counted := false);
    StripPure(cfg, a, slot);
    if a.decoded.splAccount.Some? {
      var t := a.decoded.splAccount.value;
      StripToken(cfg, a, slot, t);
      StripConcat(TokenEffects(cfg, a, slot, t), [Count(SplParsed)]);
    }
    if a.decoded.splMint.Some? {
      StripConcat(MintEffects(cfg, a.pubkey, a.decoded.splMint.value), [Count(SplParsed)]);
    }
    StripConcat([Count(SplUnpackFailed)], CloseEffects(cfg, a, slot));
    StripConcat([Count(Token2022UnpackFailed)], CloseEffects(cfg, a, slot));
    StripOne(Count(SplParsed));
    StripOne(Count(SplUnpackFailed));
    StripOne(Count(SplUnexpectedSize));
    StripOne(Count(Token2022Parsed));
    StripOne(Count(Token2022UnpackFailed));
    match a.decoded.base {
      case BaseAccount(t) =>
        StripToken(cfg, a, slot, t);
        StripConcat(TokenEffects(cfg, a, slot, t), [Count(Token2022Parsed)]);
      case BaseMint(m) =>
        StripConcat(MintEffects(cfg, a.pubkey, m) + ExtensionEffects(cfg, a, slot), [Count(Token2022Parsed)]);
        StripConcat(MintEffects(cfg, a.pubkey, m), ExtensionEffects(cfg, a, slot));
      case NoBase =>
        if a.decoded.standalone.Some? {
          StripConcat(FieldsEffects(cfg, a.decoded.standalone.value, slot, Token2022Standalone, a.pubkey), [Count(Token2022Parsed)]);
        }
    }
  }

  lemma StripToken(cfg: Config, a: Account, slot: nat, t: TokenState)
    requires cfg.counted
    ensures TokenEffects(cfg.(counted := false), a, slot, t) == Strip(TokenEffects(cfg, a, slot, t))
  {
    StripOne(Count(ZeroBalanceOmitted));
    StripOne(Effect.WriteToken(LiveRow(a.pubkey, t, slot)));
    StripOne(AffectedPair((t.mint, t.owner)));
    StripConcat([AffectedPair((t.mint, t.owner))], [Effect.WriteToken(LiveRow(a.pubkey, t, slot))]);
    assert [] + [Effect.WriteToken(LiveRow(a.pubkey, t, slot))] == [Effect.WriteToken(LiveRow(a.pubkey, t, slot))];
  }

  /** These pieces hold no statistic and do not depend on counting. */
  lemma StripPure(cfg: Config, a: Account, slot: nat)
    ensures var u := cfg.(counted := false);
      && CloseEffects(u, a, slot) == Strip(CloseEffects(cfg, a, slot))
      && ExtensionEffects(u, a, slot) == Strip(ExtensionEffects(cfg, a, slot))
      && (forall mint, m :: MintEffects(u, mint, m) == Strip(MintEffects(cfg, mint, m)))
      && (forall m, source, account :: FieldsEffects(u, m, slot, source, account) == Strip(FieldsEffects(cfg, m, slot, source, account)))
  {
    if a.decoded.extensions.Some? {
      var x := a.decoded.extensions.value;
      StripConcat([RecordExtensions(a.pubkey, VersionedExtensions(slot, x.json))], EmbeddedEffects(cfg, a, slot, x));
    }
  }

  lemma UncountedAccount(cfg: Config, a: Account, slot: nat)
    requires cfg.counted
    ensures AccountEffects(cfg.(counted := false), a, slot) == Strip(AccountEffects(cfg, a, slot))
  {
    hide Strip, SplEffects, Token2022Effects, FieldsEffects, CloseEffects, IsCanonicalEmpty;
    var u := cfg.(counted := false);
    UncountedPieces(cfg, a, slot);
    StripPure(cfg, a, slot);
    EmptyTotalStrip();
    StripOne(BaseEffects(cfg, a)[0]);
    StripOne(Count(SplOwnerSeen));
    StripOne(Count(Token2022OwnerSeen));
    StripConcat([Count(SplOwnerSeen)], SplEffects(cfg, a, slot));
    StripConcat([Count(Token2022OwnerSeen)], Token2022Effects(cfg, a, slot));
    assert ProgramEffects(u, a, slot) == Strip(ProgramEffects(cfg, a, slot));
    assert EmptyEffects(u, a, slot) == Strip(EmptyEffects(cfg, a, slot));
    var meta := MetaplexEffects(cfg, a, slot);
    StripConcat(BaseEffects(cfg, a) + EmptyEffects(cfg, a, slot) + ProgramEffects(cfg, a, slot), meta);
    StripConcat(BaseEffects(cfg, a) + EmptyEffects(cfg, a, slot), ProgramEffects(cfg, a, slot));
    StripConcat(BaseEffects(cfg, a), EmptyEffects(cfg, a, slot));
  }

  lemma EmptyTotalStrip()
    ensures Strip([]) == []
  {
  }

  lemma {:induction false} UncountedAccounts(cfg: Config, accounts: seq<Account>, slot: nat)
    requires cfg.counted
    ensures AccountsEffects(cfg.(counted := false), accounts, slot) == Strip(AccountsEffects(cfg, accounts, slot))
    decreases |accounts|
  {
    hide AccountEffects;
    if accounts != [] {
      var n := |accounts| - 1;
      UncountedAccounts(cfg, accounts[..n], slot);
      UncountedAccount(cfg, accounts[n], slot);
      StripConcat(AccountsEffects(cfg, accounts[..n], slot), AccountEffects(cfg, accounts[n], slot));
    }
  }

  lemma {:induction false} UncountedStream(cfg: Config, stream: seq<AppendVec>)
    requires cfg.counted
    ensures StreamEffects(cfg.(counted := false), stream) == Strip(StreamEffects(cfg, stream))
    decreases |stream|
  {
    hide AccountsEffects, Strip;
    EmptyTotalStrip();
    if stream != [] {
      var n := |stream| - 1;
      var av := stream[n];
      UncountedStream(cfg, stream[..n]);
      UncountedAccounts(cfg, av.accounts, av.slot);
      StripOne(Count(AppendVecs));
      StripOne(Count(AppendVecsWithoutAccounts));
      var last := if av.accounts == [] then CountEffects(cfg, AppendVecsWithoutAccounts) else [];
      StripConcat(StreamEffects(cfg, stream[..n]), AppendVecEffects(cfg, av));
      StripConcat(CountEffects(cfg, AppendVecs) + AccountsEffects(cfg, av.accounts, av.slot), last);
      StripConcat(CountEffects(cfg, AppendVecs), AccountsEffects(cfg, av.accounts, av.slot));
    }
  }

  /**
   Active gets what a standalone incremental import of the AppendVecs above
   the watermark would give it, statistics aside.
   */
  lemma ActiveEqualsIncrementalImport(cfg: Config, stream: seq<AppendVec>)
    requires cfg.counted
    ensures ImportOf(cfg.(counted := false), stream) == Uncounted(ImportOf(cfg, stream))
  {
    hide Total, Strip, StreamEffects;
    UncountedStream(cfg, stream);
    StripTotal(StreamEffects(cfg, stream));
  }
}
