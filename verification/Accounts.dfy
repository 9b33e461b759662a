/**
 What one account of an archive means for a table group. The layout decoders
 (token programs, Metaplex) are abstract: an account carries their outcomes.
 */
module Accounts {
  import opened Wrappers
  import opened Order
  import opened Sequences
  import opened MetadataPatches
  import opened ImportOutput

  const DEFAULT_PUBKEY: Pubkey := "11111111111111111111111111111111"
  const SPL_TOKEN_ID: Pubkey := "TokenkegQfeZyiNwAJbNbGKPFXCWuBvf9Ss623VQ5DA"
  const TOKEN_2022_ID: Pubkey := "TokenzQdBNbLqP5VEhdkAS6EPFLC1PHnBqCXEpPxuEb"
  const METAPLEX_ID: Pubkey := "metaqbxxUerdq28cj1RbAWkYQm3ybzjb6a8bt518x1s"

  /** Sizes of the two fixed SPL layouts. */
  const SPL_ACCOUNT_LEN: nat := 165
  const SPL_MINT_LEN: nat := 82

  datatype TokenState = TokenState(
    mint: Pubkey, owner: Pubkey, amount: nat, delegate: Option<Pubkey>, delegatedAmount: nat, state: nat,
    closeAuthority: Option<Pubkey>)

  datatype MintState = MintState(
    mintAuthority: Option<Pubkey>, supply: nat, decimals: nat, isInitialized: bool, freezeAuthority: Option<Pubkey>)

  /** Metadata together with the mint it names. */
  datatype NamedMetadata = NamedMetadata(mint: Pubkey, fields: Fields)

  datatype MintExtensions = MintExtensions(json: Text, tokenMetadata: Option<NamedMetadata>)

  datatype Token2022Base = BaseAccount(token: TokenState) | BaseMint(mint: MintState) | NoBase

  /** Outcomes of the layout decoders on the account's data. */
  datatype Decoded = Decoded(
    splAccount: Option<TokenState>, splMint: Option<MintState>, base: Token2022Base,
    extensions: Option<MintExtensions>, standalone: Option<NamedMetadata>, metaplex: Option<NamedMetadata>)

  datatype Account = Account(
    pubkey: Pubkey, owner: Pubkey, lamports: nat, dataLen: nat, executable: bool, decoded: Decoded)

  datatype SnapshotKind = Full | Incremental {
    predicate CollectCloseTombstones() { Incremental? }
    /** A fresh baseline needs no zero balances; a delta needs them to supersede older ones. */
    predicate WritesLiveAmount(amount: nat) { amount > 0 || Incremental? }
  }

  /** One import into one group. Statistics are kept once even when two groups are fed. */
  datatype Config = Config(kind: SnapshotKind, snapshotSlot: nat, hot: set<Pubkey>, counted: bool)

  predicate IsCloseTombstoneCandidate(lamports: nat) { lamports == 0 }

  predicate IsCanonicalEmpty(a: Account) {
    a.dataLen == 0 && a.lamports == 0 && a.owner == DEFAULT_PUBKEY && !a.executable
  }

  // --------------------------------------------------------------- effects

  function CountEffects(cfg: Config, c: Counter): seq<Effect> { if cfg.counted then [Count(c)] else [] }

  function CloseEffects(cfg: Config, a: Account, slot: nat): seq<Effect> {
    if cfg.kind.CollectCloseTombstones() && IsCloseTombstoneCandidate(a.lamports) then [CloseCandidate(a.pubkey, slot)] else []
  }

  function LiveRow(pubkey: Pubkey, t: TokenState, slot: nat): TokenRow {
    TokenRow(pubkey, t.mint, t.owner, t.amount, t.delegate, t.delegatedAmount, t.state, t.closeAuthority, false, slot)
  }

  // The columns of the rows, each with what it is taken from.

  predicate TokenColumns(r: TokenRow, pubkey: Pubkey, t: TokenState, slot: nat) {
    && r.pubkey == pubkey && r.mint == t.mint && r.owner == t.owner && r.amount == t.amount
    && r.delegate == t.delegate && r.delegatedAmount == t.delegatedAmount && r.state == t.state && r.closeAuthority == t.closeAuthority
    && !r.isDeleted && r.updatedSlot == slot
  }

  predicate MintColumns(r: MintRow, mint: Pubkey, m: MintState, snapshotSlot: nat) {
    && r.mint == mint && r.mintAuthority == m.mintAuthority && r.supply == m.supply && r.decimals == m.decimals
    && r.isInitialized == m.isInitialized && r.freezeAuthority == m.freezeAuthority && r.updatedSlot == snapshotSlot
  }

  predicate AccountColumns(r: AccountRow, a: Account, snapshotSlot: nat) {
    && r.pubkey == a.pubkey && r.owner == a.owner && r.lamports == a.lamports && r.dataLen == a.dataLen
    && r.executable == a.executable && r.updatedSlot == snapshotSlot
  }

  function TokenEffects(cfg: Config, a: Account, slot: nat, t: TokenState): seq<Effect> {
    if t.mint !in cfg.hot then []
    else if !cfg.kind.WritesLiveAmount(t.amount) then CountEffects(cfg, ZeroBalanceOmitted)
    else (if cfg.kind.Incremental? then [AffectedPair((t.mint, t.owner))] else []) + [WriteToken(LiveRow(a.pubkey, t, slot))]
  }

  function MintEffects(cfg: Config, mint: Pubkey, m: MintState): seq<Effect> {
    if mint !in cfg.hot then []
    else [WriteMint(MintRow(mint, m.mintAuthority, m.supply, m.decimals, m.isInitialized, m.freezeAuthority, cfg.snapshotSlot))]
  }

  function SplEffects(cfg: Config, a: Account, slot: nat): seq<Effect> {
    if a.dataLen == SPL_ACCOUNT_LEN then
      match a.decoded.splAccount
      case Some(t) => TokenEffects(cfg, a, slot, t) + CountEffects(cfg, SplParsed)
      case None => CountEffects(cfg, SplUnpackFailed) + CloseEffects(cfg, a, slot)
    else if a.dataLen == SPL_MINT_LEN then
      match a.decoded.splMint
      case Some(m) => MintEffects(cfg, a.pubkey, m) + CountEffects(cfg, SplParsed)
      case None => CountEffects(cfg, SplUnpackFailed)
    else CountEffects(cfg, SplUnexpectedSize)
  }

  function FieldsEffects(cfg: Config, m: NamedMetadata, slot: nat, source: Source, account: Pubkey): seq<Effect> {
    if m.mint !in cfg.hot then [] else [RecordFields(m.mint, VersionedFields(slot, source, account, m.fields))]
  }

  /** Embedded metadata counts only when it names the mint it sits in. */
  function EmbeddedEffects(cfg: Config, a: Account, slot: nat, x: MintExtensions): seq<Effect> {
    if x.tokenMetadata.None? || x.tokenMetadata.value.mint != a.pubkey then []
    else FieldsEffects(cfg, x.tokenMetadata.value, slot, Token2022Embedded, a.pubkey)
  }

  function ExtensionEffects(cfg: Config, a: Account, slot: nat): seq<Effect> {
    if a.pubkey !in cfg.hot || a.decoded.extensions.None? then []
    else
      var x := a.decoded.extensions.value;
      [RecordExtensions(a.pubkey, VersionedExtensions(slot, x.json))] + EmbeddedEffects(cfg, a, slot, x)
  }

  function Token2022Effects(cfg: Config, a: Account, slot: nat): seq<Effect> {
    match a.decoded.base
    case BaseAccount(t) => TokenEffects(cfg, a, slot, t) + CountEffects(cfg, Token2022Parsed)
    case BaseMint(m) => MintEffects(cfg, a.pubkey, m) + ExtensionEffects(cfg, a, slot) + CountEffects(cfg, Token2022Parsed)
    case NoBase =>
      match a.decoded.standalone
      case Some(m) => FieldsEffects(cfg, m, slot, Token2022Standalone, a.pubkey) + CountEffects(cfg, Token2022Parsed)
      case None => CountEffects(cfg, Token2022UnpackFailed) + CloseEffects(cfg, a, slot)
  }

  function MetaplexEffects(cfg: Config, a: Account, slot: nat): seq<Effect> {
    if a.owner != METAPLEX_ID || a.decoded.metaplex.None? then []
    else FieldsEffects(cfg, a.decoded.metaplex.value, slot, Metaplex, a.pubkey)
  }

  function BaseEffects(cfg: Config, a: Account): seq<Effect> {
    [WriteAccount(AccountRow(a.pubkey, a.owner, a.lamports, a.dataLen, a.executable, cfg.snapshotSlot))]
  }

  function EmptyEffects(cfg: Config, a: Account, slot: nat): seq<Effect> {
    if IsCanonicalEmpty(a) then CloseEffects(cfg, a, slot) else []
  }

  function ProgramEffects(cfg: Config, a: Account, slot: nat): seq<Effect> {
    if a.owner == SPL_TOKEN_ID then CountEffects(cfg, SplOwnerSeen) + SplEffects(cfg, a, slot)
    else if a.owner == TOKEN_2022_ID then CountEffects(cfg, Token2022OwnerSeen) + Token2022Effects(cfg, a, slot)
    else []
  }

  /** Everything one account does to one group, in the order it is done. */
  function AccountEffects(cfg: Config, a: Account, slot: nat): seq<Effect> {
    BaseEffects(cfg, a) + EmptyEffects(cfg, a, slot) + ProgramEffects(cfg, a, slot)
      + MetaplexEffects(cfg, a, slot)
  }

  // --------------------------------------------------------------- streams

  /** A storage file as the importer sees it: its slot, its length and its accounts. */
  datatype AppendVec = AppendVec(slot: nat, len: nat, accounts: seq<Account>)

  function AccountsEffects(cfg: Config, accounts: seq<Account>, slot: nat): seq<Effect>
    decreases |accounts|
  {
    if accounts == [] then []
    else AccountsEffects(cfg, accounts[..|accounts| - 1], slot) + AccountEffects(cfg, accounts[|accounts| - 1], slot)
  }

  function AppendVecEffects(cfg: Config, av: AppendVec): seq<Effect> {
    CountEffects(cfg, AppendVecs) + AccountsEffects(cfg, av.accounts, av.slot)
      + (if av.accounts == [] then CountEffects(cfg, AppendVecsWithoutAccounts) else [])
  }

  function StreamEffects(cfg: Config, stream: seq<AppendVec>): seq<Effect>
    decreases |stream|
  {
    if stream == [] then []
    else StreamEffects(cfg, stream[..|stream| - 1]) + AppendVecEffects(cfg, stream[|stream| - 1])
  }

  /** The output of a sequential import of a stream. */
  function ImportOf(cfg: Config, stream: seq<AppendVec>): Output { Total(StreamEffects(cfg, stream)) }

  lemma {:induction false} StreamEffectsConcat(cfg: Config, xs: seq<AppendVec>, ys: seq<AppendVec>)
    ensures StreamEffects(cfg, xs + ys) == StreamEffects(cfg, xs) + StreamEffects(cfg, ys)
    decreases |ys|
  {
    hide AppendVecEffects;
    if ys == [] {
      assert xs + ys == xs;
    } else {
      var n := |ys| - 1;
      StreamEffectsConcat(cfg, xs, ys[..n]);
      assert (xs + ys)[..|xs + ys| - 1] == xs + ys[..n];
    }
  }

  // --------------------------------------------------- the watermark filter

  predicate ShouldProcess(minimum: Option<nat>, slot: nat) { minimum.None? || slot > minimum.value }

  function IfAbove(minimum: Option<nat>, av: AppendVec): seq<AppendVec> {
    if ShouldProcess(minimum, av.slot) then [av] else []
  }

  /** The part of a stream above a watermark. */
  function Above(minimum: Option<nat>, stream: seq<AppendVec>): seq<AppendVec>
    decreases |stream|
  {
    if stream == [] then [] else IfAbove(minimum, stream[0]) + Above(minimum, stream[1..])
  }

  lemma {:induction false} AboveElements(minimum: Option<nat>, stream: seq<AppendVec>)
    ensures forall av :: av in Above(minimum, stream) <==> av in stream && (minimum.None? || av.slot > minimum.value)
    decreases |stream|
  {
    if stream != [] {
      AboveElements(minimum, stream[1..]);
      assert stream == [stream[0]] + stream[1..];
    }
  }

  lemma {:induction false} AboveExtended(minimum: Option<nat>, stream: seq<AppendVec>, av: AppendVec)
    ensures Above(minimum, stream + [av]) == Above(minimum, stream) + IfAbove(minimum, av)
    decreases |stream|
  {
    hide IfAbove;
    if stream == [] {
      assert [av][1..] == [];
    } else {
      AboveExtended(minimum, stream[1..], av);
      assert (stream + [av])[1..] == stream[1..] + [av];
    }
  }

  // -------------------------------------------------- the archive's entries

  /** An entry that cannot be read, one with another name, or a storage file that can or cannot be read. */
  datatype ArchiveEntry = Broken | Other | File(file: AppendVec, readable: bool)

  /** What the iterator yields for one entry; `None` is an error. The slot is tested before the file is read. */
  function ItemsOf(minimum: Option<nat>, e: ArchiveEntry): seq<Option<AppendVec>> {
    match e
    case Broken => [None]
    case Other => []
    case File(file, readable) =>
      if !ShouldProcess(minimum, file.slot) then [] else if readable then [Some(file)] else [None]
  }

  function Items(minimum: Option<nat>, entries: seq<ArchiveEntry>): seq<Option<AppendVec>> {
    if entries == [] then [] else ItemsOf(minimum, entries[0]) + Items(minimum, entries[1..])
  }

  function ReadableFile(e: ArchiveEntry): Option<AppendVec> { if e.File? && e.readable then Some(e.file) else None }

  /** The storage files that can be read. */
  function ReadableFiles(entries: seq<ArchiveEntry>): seq<AppendVec> {
    if entries == [] then [] else AsSeq(ReadableFile(entries[0])) + ReadableFiles(entries[1..])
  }

  lemma OneItem(minimum: Option<nat>, e: ArchiveEntry, files: seq<AppendVec>)
    ensures Above(minimum, AsSeq(ReadableFile(e)) + files) == Readable(ItemsOf(minimum, e)) + Above(minimum, files)
  {
    var front := AsSeq(ReadableFile(e));
    assert ItemsOf(minimum, e) == [] || ItemsOf(minimum, e)[1..] == [];
    if front == [] {
      assert front + files == files;
    } else {
      assert (front + files)[1..] == files;
    }
  }

  /** The readable items are the readable files above the watermark, in archive order. */
  lemma {:induction false} ItemsAreAbove(minimum: Option<nat>, entries: seq<ArchiveEntry>)
    ensures Readable(Items(minimum, entries)) == Above(minimum, ReadableFiles(entries))
  {
    hide ItemsOf, ReadableFile;
    if entries != [] {
      ItemsAreAbove(minimum, entries[1..]);
      ReadableConcat(ItemsOf(minimum, entries[0]), Items(minimum, entries[1..]));
      OneItem(minimum, entries[0], ReadableFiles(entries[1..]));
    }
  }

  /** Errors come from broken entries and from files above the watermark that cannot be read, and from nothing else. */
  lemma {:induction false} ErrorsAre(minimum: Option<nat>, entries: seq<ArchiveEntry>)
    ensures None in Items(minimum, entries) <==>
      exists e <- entries :: e.Broken? || (e.File? && !e.readable && (minimum.None? || e.file.slot > minimum.value))
  {
    if entries != [] {
      ErrorsAre(minimum, entries[1..]);
      assert entries == [entries[0]] + entries[1..];
      assert entries[0] in entries;
    }
  }

  /** Other files are passed over, old slots are skipped unread, the rest is read; an error does not end the iteration. */
  class ArchiveIterator {
    const minimum: Option<nat>
    var entries: seq<ArchiveEntry>

    constructor (minimum: Option<nat>, entries: seq<ArchiveEntry>)
      ensures this.minimum == minimum && this.entries == entries
    {
      this.minimum, this.entries := minimum, entries;
    }

    /** The items still to be yielded. */
    ghost function Remaining(): seq<Option<AppendVec>>
      reads this
    {
      Items(minimum, entries)
    }

    method Next() returns (r: Option<Result<AppendVec>>)
      modifies this
      ensures r.None? <==> old(Remaining()) == []
      ensures r.None? ==> Remaining() == []
      ensures r.Some? ==>
        && Remaining() == old(Remaining())[1..]
        && (match old(Remaining())[0] case Some(file) => r.value == Ok(file) case None => r.value.Err?)
    {
      while entries != []
        invariant Items(minimum, entries) == old(Remaining())
        decreases |entries|
      {
        var entry := entries[0];
        assert Items(minimum, entries) == ItemsOf(minimum, entry) + Items(minimum, entries[1..]);
        entries := entries[1..];
        match entry {
          case Broken =>
            assert ([None] + Items(minimum, entries))[1..] == Items(minimum, entries);
            return Some(Err("cannot read archive entry"));
          case Other =>
            assert [] + Items(minimum, entries) == Items(minimum, entries);
          case File(file, readable) =>
            if ShouldProcess(minimum, file.slot) {
              assert (ItemsOf(minimum, entry) + Items(minimum, entries))[1..] == Items(minimum, entries);
              return Some(if readable then Ok(file) else Err("cannot read storage file"));
            }
            assert [] + Items(minimum, entries) == Items(minimum, entries);
        }
      }
      return None;
    }
  }
}
