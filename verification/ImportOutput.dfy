/**
 What parsing accounts produces: rows for the tables of one group, metadata
 patches, close candidates, touched (mint, owner) pairs and statistics.
 Outputs form a commutative monoid under `Merge`, which is what makes the
 division of an archive among workers invisible.
 */
module ImportOutput {
  import opened Wrappers
  import opened Order
  import opened MetadataPatches
  import opened Sequences

  /** Keys are handled in their base58 text, as in the stored rows. */
  type Pubkey = Text
  type Pair = (Pubkey, Pubkey)

  datatype AccountRow = AccountRow(pubkey: Pubkey, owner: Pubkey, lamports: nat, dataLen: nat, executable: bool, updatedSlot: nat)

  datatype TokenRow = TokenRow(
    pubkey: Pubkey, mint: Pubkey, owner: Pubkey, amount: nat, delegate: Option<Pubkey>, delegatedAmount: nat,
    state: nat, closeAuthority: Option<Pubkey>, isDeleted: bool, updatedSlot: nat)

  datatype MintRow = MintRow(
    mint: Pubkey, mintAuthority: Option<Pubkey>, supply: nat, decimals: nat, isInitialized: bool,
    freezeAuthority: Option<Pubkey>, updatedSlot: nat)

  datatype Counter =
    | SplOwnerSeen | SplParsed | SplUnexpectedSize | SplUnpackFailed
    | Token2022OwnerSeen | Token2022Parsed | Token2022UnpackFailed
    | ZeroBalanceOmitted | AppendVecs | AppendVecsWithoutAccounts

  datatype Effect =
    | WriteAccount(account: AccountRow)
    | WriteToken(token: TokenRow)
    | WriteMint(mintRow: MintRow)
    | RecordFields(mint: Pubkey, fields: VersionedFields)
    | RecordExtensions(mint: Pubkey, extensions: VersionedExtensions)
    | CloseCandidate(pubkey: Pubkey, slot: nat)
    | AffectedPair(pair: Pair)
    | Count(counter: Counter)

  /** Rows handed to one sink. */
  datatype Rows = Rows(accounts: multiset<AccountRow>, tokens: multiset<TokenRow>, mints: multiset<MintRow>)
  datatype Patches = Patches(fields: map<Pubkey, VersionedFields>, extensions: map<Pubkey, VersionedExtensions>)
  datatype Output = Output(
    rows: Rows, patches: Patches, closes: map<Pubkey, nat>, pairs: set<Pair>, counts: multiset<Counter>)

  const NoRows := Rows(multiset{}, multiset{}, multiset{})
  const NoPatches := Patches(map[], map[])
  const Empty := Output(NoRows, NoPatches, map[], {}, multiset{})

  function Max(a: nat, b: nat): nat { if b > a then b else a }

  // ------------------------------------------------------------------ maps

  ghost predicate IsJoin<V(!new)>(j: (V, V) -> V) {
    && (forall a, b :: j(a, b) == j(b, a))
    && (forall a, b, c :: j(j(a, b), c) == j(a, j(b, c)))
    && (forall a :: j(a, a) == a)
  }

  function JoinMaps<V>(j: (V, V) -> V, a: map<Pubkey, V>, b: map<Pubkey, V>): (m: map<Pubkey, V>)
    ensures m.Keys == a.Keys + b.Keys
  {
    map k | k in a.Keys + b.Keys :: if k !in b then a[k] else if k !in a then b[k] else j(a[k], b[k])
  }

  lemma JoinMapsIsJoin<V(!new)>(j: (V, V) -> V, a: map<Pubkey, V>, b: map<Pubkey, V>, c: map<Pubkey, V>)
    requires IsJoin(j)
    ensures JoinMaps(j, a, b) == JoinMaps(j, b, a)
    ensures JoinMaps(j, JoinMaps(j, a, b), c) == JoinMaps(j, a, JoinMaps(j, b, c))
    ensures JoinMaps(j, a, a) == a
    ensures JoinMaps(j, a, map[]) == a
  {
    var l, r := JoinMaps(j, JoinMaps(j, a, b), c), JoinMaps(j, a, JoinMaps(j, b, c));
    assert l.Keys == r.Keys;
    assert forall k | k in l :: l[k] == r[k];
  }

  lemma JoinsAreJoins()
    ensures IsJoin(GreaterFields) && IsJoin(GreaterExtensions) && IsJoin(Max)
  {
    forall a, b ensures GreaterFields(a, b) == GreaterFields(b, a) { GreaterFieldsJoin(a, b, a); }
    forall a, b, c ensures GreaterFields(GreaterFields(a, b), c) == GreaterFields(a, GreaterFields(b, c)) { GreaterFieldsJoin(a, b, c); }
    forall a ensures GreaterFields(a, a) == a { GreaterFieldsJoin(a, a, a); }
    forall a, b ensures GreaterExtensions(a, b) == GreaterExtensions(b, a) { GreaterExtensionsJoin(a, b, a); }
    forall a, b, c ensures GreaterExtensions(GreaterExtensions(a, b), c) == GreaterExtensions(a, GreaterExtensions(b, c)) { GreaterExtensionsJoin(a, b, c); }
    forall a ensures GreaterExtensions(a, a) == a { GreaterExtensionsJoin(a, a, a); }
  }

  // -------------------------------------------------------------- the monoid

  function MergePatches(a: Patches, b: Patches): Patches {
    Patches(JoinMaps(GreaterFields, a.fields, b.fields), JoinMaps(GreaterExtensions, a.extensions, b.extensions))
  }

  function MergeRows(a: Rows, b: Rows): Rows {
    Rows(a.accounts + b.accounts, a.tokens + b.tokens, a.mints + b.mints)
  }

  function Merge(a: Output, b: Output): Output {
    Output(MergeRows(a.rows, b.rows), MergePatches(a.patches, b.patches),
           JoinMaps(Max, a.closes, b.closes), a.pairs + b.pairs, a.counts + b.counts)
  }

  lemma MergeRowsMonoid(a: Rows, b: Rows, c: Rows)
    ensures MergeRows(a, b) == MergeRows(b, a)
    ensures MergeRows(MergeRows(a, b), c) == MergeRows(a, MergeRows(b, c))
    ensures MergeRows(a, NoRows) == a
  {
  }

  lemma MergePatchesMonoid(a: Patches, b: Patches, c: Patches)
    ensures MergePatches(a, b) == MergePatches(b, a)
    ensures MergePatches(MergePatches(a, b), c) == MergePatches(a, MergePatches(b, c))
    ensures MergePatches(a, NoPatches) == a
  {
    hide JoinMaps, IsJoin, GreaterFields, GreaterExtensions;
    JoinsAreJoins();
    JoinMapsIsJoin(GreaterFields, a.fields, b.fields, c.fields);
    JoinMapsIsJoin(GreaterExtensions, a.extensions, b.extensions, c.extensions);
  }

  lemma MergeMonoid(a: Output, b: Output, c: Output)
    ensures Merge(a, b) == Merge(b, a)
    ensures Merge(Merge(a, b), c) == Merge(a, Merge(b, c))
    ensures Merge(a, Empty) == a
  {
    hide JoinMaps, IsJoin, MergeRows, MergePatches, Max;
    JoinsAreJoins();
    MergeRowsMonoid(a.rows, b.rows, c.rows);
    MergePatchesMonoid(a.patches, b.patches, c.patches);
    JoinMapsIsJoin(Max, a.closes, b.closes, c.closes);
  }

  /** The output of one effect on its own. */
  function Single(e: Effect): Output {
    match e
    case WriteAccount(row) => Empty.(rows := NoRows.(accounts := multiset{row}))
    case WriteToken(row) => Empty.(rows := NoRows.(tokens := multiset{row}))
    case WriteMint(row) => Empty.(rows := NoRows.(mints := multiset{row}))
    case RecordFields(mint, v) => Empty.(patches := NoPatches.(fields := map[mint := v]))
    case RecordExtensions(mint, v) => Empty.(patches := NoPatches.(extensions := map[mint := v]))
    case CloseCandidate(pubkey, slot) => Empty.(closes := map[pubkey := slot])
    case AffectedPair(pair) => Empty.(pairs := {pair})
    case Count(counter) => Empty.(counts := multiset{counter})
  }

  /** The output of effects performed one after the other. */
  function Total(es: seq<Effect>): Output
    decreases |es|
  {
    if es == [] then Empty else Merge(Single(es[0]), Total(es[1..]))
  }

  lemma {:induction false} TotalConcat(xs: seq<Effect>, ys: seq<Effect>)
    ensures Total(xs + ys) == Merge(Total(xs), Total(ys))
    decreases |xs|
  {
    hide Merge, Single;
    if xs == [] {
      assert xs + ys == ys;
      MergeMonoid(Total(ys), Empty, Empty);
      MergeMonoid(Empty, Total(ys), Empty);
    } else {
      assert xs + ys == [xs[0]] + (xs[1..] + ys);
      TotalConcat(xs[1..], ys);
      MergeMonoid(Single(xs[0]), Total(xs[1..]), Total(ys));
    }
  }

  lemma TotalOne(e: Effect)
    ensures Total([e]) == Single(e)
  {
    hide Merge, Single;
    MergeMonoid(Single(e), Empty, Empty);
    assert [e][1..] == [];
  }

  lemma TotalMoveToFront(before: seq<Effect>, e: Effect, after: seq<Effect>)
    ensures Total(before + [e] + after) == Merge(Single(e), Total(before + after))
  {
    hide Merge, Single, Total;
    TotalConcat(before + [e], after);
    TotalConcat(before, [e]);
    TotalOne(e);
    TotalConcat(before, after);
    MergeMonoid(Total(before), Single(e), Empty);
    MergeMonoid(Single(e), Total(before), Total(after));
  }

  /** Any reordering of the same effects has the same output. */
  lemma {:induction false} TotalPermutation(xs: seq<Effect>, ys: seq<Effect>)
    requires multiset(xs) == multiset(ys)
    ensures Total(xs) == Total(ys)
    decreases |xs|
  {
    hide Merge, Single;
    hide Total;
    if xs == [] {
      OnlyEmpty(ys);
    } else {
      var i := FindFirst(xs, ys);
      var before, after := ys[..i], ys[i + 1..];
      assert xs == [] + [xs[0]] + xs[1..] && [] + xs[1..] == xs[1..];
      TotalMoveToFront([], xs[0], xs[1..]);
      TotalPermutation(xs[1..], before + after);
      TotalMoveToFront(before, xs[0], after);
    }
  }

  // -------------------------------------------------- one effect in place

  function RecordedFields(fields: map<Pubkey, VersionedFields>, mint: Pubkey, candidate: VersionedFields): map<Pubkey, VersionedFields> {
    if mint !in fields || Compare(VersionedFieldsKey(candidate), VersionedFieldsKey(fields[mint])) == Greater
    then fields[mint := candidate] else fields
  }

  function RecordedExtensions(extensions: map<Pubkey, VersionedExtensions>, mint: Pubkey, candidate: VersionedExtensions): map<Pubkey, VersionedExtensions> {
    if mint !in extensions || Compare(VersionedExtensionsKey(candidate), VersionedExtensionsKey(extensions[mint])) == Greater
    then extensions[mint := candidate] else extensions
  }

  function RememberedClose(closes: map<Pubkey, nat>, pubkey: Pubkey, slot: nat): map<Pubkey, nat> {
    if pubkey !in closes || slot > closes[pubkey] then closes[pubkey := slot] else closes
  }

  /** The in-place update an effect stands for. */
  function Apply(o: Output, e: Effect): Output {
    match e
    case WriteAccount(row) => o.(rows := o.rows.(accounts := o.rows.accounts + multiset{row}))
    case WriteToken(row) => o.(rows := o.rows.(tokens := o.rows.tokens + multiset{row}))
    case WriteMint(row) => o.(rows := o.rows.(mints := o.rows.mints + multiset{row}))
    case RecordFields(mint, v) => o.(patches := o.patches.(fields := RecordedFields(o.patches.fields, mint, v)))
    case RecordExtensions(mint, v) => o.(patches := o.patches.(extensions := RecordedExtensions(o.patches.extensions, mint, v)))
    case CloseCandidate(pubkey, slot) => o.(closes := RememberedClose(o.closes, pubkey, slot))
    case AffectedPair(pair) => o.(pairs := o.pairs + {pair})
    case Count(counter) => o.(counts := o.counts + multiset{counter})
  }

  lemma UnitParts(o: Output)
    ensures MergeRows(o.rows, NoRows) == o.rows && MergePatches(o.patches, NoPatches) == o.patches
    ensures JoinMaps(GreaterFields, o.patches.fields, map[]) == o.patches.fields
    ensures JoinMaps(GreaterExtensions, o.patches.extensions, map[]) == o.patches.extensions
    ensures JoinMaps(Max, o.closes, map[]) == o.closes && o.pairs + {} == o.pairs && o.counts + multiset{} == o.counts
  {
    MergeMonoid(o, Empty, Empty);
  }

  /** Updating in place is merging in the effect's own output. */
  lemma ApplyIsMerge(o: Output, e: Effect)
    ensures Apply(o, e) == Merge(o, Single(e))
  {
    hide Compare, VersionedFieldsKey, VersionedExtensionsKey;
    UnitParts(o);
    match e {
      case RecordFields(mint, v) =>
        assert RecordedFields(o.patches.fields, mint, v) == JoinMaps(GreaterFields, o.patches.fields, map[mint := v]);
      case RecordExtensions(mint, v) =>
        assert RecordedExtensions(o.patches.extensions, mint, v) == JoinMaps(GreaterExtensions, o.patches.extensions, map[mint := v]);
      case CloseCandidate(pubkey, slot) =>
        assert RememberedClose(o.closes, pubkey, slot) == JoinMaps(Max, o.closes, Single(e).closes);
      case _ =>
    }
  }

  lemma TotalSnoc(log: seq<Effect>, e: Effect)
    ensures Total(log + [e]) == Apply(Total(log), e)
  {
    hide Merge, Single, Total, Apply;
    TotalConcat(log, [e]);
    TotalOne(e);
    ApplyIsMerge(Total(log), e);
  }
}
