/**
 Rows on their way to the tables of one group, tagged with their table, so that
 what a worker wrote and what the server accepted can be compared as bags.
 */
module SinkRows {
  import opened ImportOutput
  import opened MetadataRows
  import opened Accounts
  import opened Channels

  datatype SinkRow =
    | ToAccounts(account: AccountRow) | ToTokens(token: TokenRow) | ToMints(mint: MintRow) | ToMetadata(metadata: MetadataRow)

  /** The row an effect writes, if it writes one. */
  function EffectRows(e: Effect): multiset<SinkRow> {
    match e
    case WriteAccount(row) => multiset{ToAccounts(row)}
    case WriteToken(row) => multiset{ToTokens(row)}
    case WriteMint(row) => multiset{ToMints(row)}
    case _ => multiset{}
  }

  /** The bag holds the rows of an import, each as often. */
  ghost predicate Holds(bag: multiset<SinkRow>, rows: Rows) {
    && (forall r :: bag[ToAccounts(r)] == rows.accounts[r])
    && (forall r :: bag[ToTokens(r)] == rows.tokens[r])
    && (forall r :: bag[ToMints(r)] == rows.mints[r])
    && (forall r :: bag[ToMetadata(r)] == 0)
  }

  lemma HoldsOne(e: Effect)
    ensures Holds(EffectRows(e), Single(e).rows)
  {
  }

  lemma HoldsNone()
    ensures Holds(multiset{}, NoRows)
  {
  }

  lemma HoldsBoth(b: multiset<SinkRow>, r: Rows, c: multiset<SinkRow>, q: Rows)
    requires Holds(b, r) && Holds(c, q)
    ensures Holds(b + c, MergeRows(r, q))
  {
  }

  lemma {:induction false} EffectsHold(es: seq<Effect>)
    ensures Holds(RowsOf(EffectRows, es), Total(es).rows)
  {
    hide MergePatches, MergeRows, JoinMaps, Holds, Single, EffectRows;
    HoldsNone();
    if es != [] {
      EffectsHold(es[1..]);
      HoldsOne(es[0]);
      HoldsBoth(EffectRows(es[0]), Single(es[0]).rows, RowsOf(EffectRows, es[1..]), Total(es[1..]).rows);
    }
  }

  /** What a worker writes for one file. */
  function FileRows(cfg: Config): AppendVec -> multiset<SinkRow> {
    (av: AppendVec) => RowsOf(EffectRows, AppendVecEffects(cfg, av))
  }

  lemma {:induction false} StreamRows(cfg: Config, stream: seq<AppendVec>)
    ensures RowsOf(FileRows(cfg), stream) == RowsOf(EffectRows, StreamEffects(cfg, stream))
    decreases |stream|
  {
    hide AppendVecEffects, EffectRows;
    if stream != [] {
      StreamRows(cfg, stream[1..]);
      assert stream == [stream[0]] + stream[1..];
      StreamEffectsConcat(cfg, [stream[0]], stream[1..]);
      assert [stream[0]][..0] == [];
      assert StreamEffects(cfg, [stream[0]]) == AppendVecEffects(cfg, stream[0]);
      RowsOfConcat(EffectRows, AppendVecEffects(cfg, stream[0]), StreamEffects(cfg, stream[1..]));
    }
  }

  /** The rows of all files are the rows of the import. */
  lemma FilesHold(cfg: Config, stream: seq<AppendVec>)
    ensures Holds(RowsOf(FileRows(cfg), stream), ImportOf(cfg, stream).rows)
  {
    hide Holds, RowsOf, FileRows, Total, StreamEffects;
    StreamRows(cfg, stream);
    EffectsHold(StreamEffects(cfg, stream));
  }
}
