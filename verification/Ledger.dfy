/**
 The chain as a ledger of account records, what an archive holds of it, and
 what an import of an archive hands to the hot-state table.
 */
module Ledgers {
  import opened Wrappers
  import opened ImportOutput
  import opened Accounts

  /** At most one record per pubkey and slot. */
  type Ledger = map<(Pubkey, nat), Account>

  /** The token account an account record holds, if the importer recognises one. */
  function TokenOf(a: Account): Option<TokenState> {
    if a.owner == SPL_TOKEN_ID && a.dataLen == SPL_ACCOUNT_LEN then a.decoded.splAccount
    else if a.owner == TOKEN_2022_ID && a.decoded.base.BaseAccount? then Some(a.decoded.base.token)
    else None
  }

  /** The records taken as evidence that a token account was closed. */
  predicate IsClose(a: Account) {
    && IsCloseTombstoneCandidate(a.lamports)
    && (IsCanonicalEmpty(a)
        || (a.owner == SPL_TOKEN_ID && a.dataLen == SPL_ACCOUNT_LEN && a.decoded.splAccount.None?)
        || (a.owner == TOKEN_2022_ID && a.decoded.base.NoBase? && a.decoded.standalone.None?))
  }

  function PairOf(t: TokenState): Pair { (t.mint, t.owner) }

  /** The slot of the last record of `p` at or below `top`. */
  function Latest(l: Ledger, p: Pubkey, top: nat): (s: Option<nat>)
    ensures s.Some? ==> s.value <= top && (p, s.value) in l
    ensures forall t: nat :: t <= top && (p, t) in l ==> s.Some? && t <= s.value
  {
    if (p, top) in l then Some(top) else if top == 0 then None else Latest(l, p, top - 1)
  }

  lemma LatestAgain(l: Ledger, p: Pubkey, low: nat, high: nat)
    requires low <= high
    requires Latest(l, p, high).None? || Latest(l, p, high).value <= low
    ensures Latest(l, p, low) == Latest(l, p, high)
  {
  }

  /** What is assumed of a token account after it first appears. */
  predicate Follows(before: Account, after: Account) {
    TokenOf(before).Some? ==>
      if TokenOf(after).Some? then PairOf(TokenOf(before).value) == PairOf(TokenOf(after).value) else IsClose(after)
  }

  /** A recognised token account has a mint and an owner, is initialised, and is paid for. */
  predicate Sensible(a: Account) {
    TokenOf(a).Some? ==>
      var t := TokenOf(a).value;
      t.mint != "" && t.owner != "" && t.state != 0 && a.lamports > 0
  }

  /** Records carry their own key, and all versions of a token account keep its pair until it is closed. */
  ghost predicate Lifecycle(l: Ledger) {
    && (forall k :: k in l ==> l[k].pubkey == k.0 && Sensible(l[k]))
    && (forall p, s: nat, t: nat :: (p, s) in l && (p, t) in l && s < t ==> Follows(l[(p, s)], l[(p, t)]))
  }

  ghost predicate Holds(stream: seq<AppendVec>, slot: nat, a: Account) {
    exists av :: av in stream && av.slot == slot && a in av.accounts
  }

  /** Every record of the stream is a ledger record at or below `end`. */
  ghost predicate FromLedger(l: Ledger, end: nat, stream: seq<AppendVec>) {
    forall slot: nat, a :: Holds(stream, slot, a) ==> slot <= end && (a.pubkey, slot) in l && l[(a.pubkey, slot)] == a
  }

  /** An incremental archive has the last record of everything changed after its base; it may have older ones. */
  ghost predicate IsIncremental(l: Ledger, base: nat, end: nat, stream: seq<AppendVec>) {
    && FromLedger(l, end, stream)
    && (forall p :: var s := Latest(l, p, end); s.Some? && s.value > base ==> Holds(stream, s.value, l[(p, s.value)]))
  }

  /** A full archive has exactly the last records that are not deletions. */
  ghost predicate IsFull(l: Ledger, end: nat, stream: seq<AppendVec>) {
    && FromLedger(l, end, stream)
    && (forall slot: nat, a :: Holds(stream, slot, a) ==> Latest(l, a.pubkey, end) == Some(slot) && a.lamports > 0)
    && (forall p :: var s := Latest(l, p, end); s.Some? && l[(p, s.value)].lamports > 0 ==> Holds(stream, s.value, l[(p, s.value)]))
  }

  lemma HoldsAbove(minimum: nat, stream: seq<AppendVec>, slot: nat, a: Account)
    ensures Holds(Above(Some(minimum), stream), slot, a) <==> Holds(stream, slot, a) && slot > minimum
  {
    AboveElements(Some(minimum), stream);
  }

  // --------------------------------------------- what an import writes

  /** The live rows an account gives rise to: at most one. */
  function LiveRows(cfg: Config, a: Account, slot: nat): seq<TokenRow> {
    match TokenOf(a)
    case None => []
    case Some(t) => if t.mint in cfg.hot && cfg.kind.WritesLiveAmount(t.amount) then [LiveRow(a.pubkey, t, slot)] else []
  }

  predicate Closes(cfg: Config, a: Account) { cfg.kind.Incremental? && IsClose(a) }

  /** What an effect of one account may be: its live row, the pair of that row, its close, or nothing of the three. */
  predicate EffectOf(cfg: Config, a: Account, slot: nat, e: Effect) {
    match e
    case WriteToken(row) => row in LiveRows(cfg, a, slot)
    case CloseCandidate(p, s) => Closes(cfg, a) && p == a.pubkey && s == slot
    case AffectedPair(pair) => cfg.kind.Incremental? && exists row <- LiveRows(cfg, a, slot) :: pair == (row.mint, row.owner)
    case _ => true
  }

  predicate EffectsOf(cfg: Config, a: Account, slot: nat, es: seq<Effect>) {
    forall e :: e in es ==> EffectOf(cfg, a, slot, e)
  }

  /** The live row is written and, by an incremental import, its pair remembered. */
  predicate Wrote(cfg: Config, a: Account, slot: nat, es: seq<Effect>) {
    forall row :: row in LiveRows(cfg, a, slot) ==>
      Effect.WriteToken(row) in es && (cfg.kind.Incremental? ==> AffectedPair((row.mint, row.owner)) in es)
  }

  predicate Closed(cfg: Config, a: Account, slot: nat, es: seq<Effect>) {
    Closes(cfg, a) ==> CloseCandidate(a.pubkey, slot) in es
  }

  lemma TokenPart(cfg: Config, a: Account, slot: nat, t: TokenState)
    requires TokenOf(a) == Some(t)
    ensures EffectsOf(cfg, a, slot, TokenEffects(cfg, a, slot, t)) && Wrote(cfg, a, slot, TokenEffects(cfg, a, slot, t))
  {
    var row := LiveRow(a.pubkey, t, slot);
    if LiveRows(cfg, a, slot) != [] {
      assert LiveRows(cfg, a, slot) == [row] && row in [row];
    }
  }

  /** Rows, patches and statistics of the other tables. */
  lemma OtherParts(cfg: Config, a: Account, slot: nat)
    ensures EffectsOf(cfg, a, slot, BaseEffects(cfg, a))
    ensures EffectsOf(cfg, a, slot, MetaplexEffects(cfg, a, slot)) && EffectsOf(cfg, a, slot, ExtensionEffects(cfg, a, slot))
    ensures forall mint, m :: EffectsOf(cfg, a, slot, MintEffects(cfg, mint, m))
    ensures forall m, source, account :: EffectsOf(cfg, a, slot, FieldsEffects(cfg, m, slot, source, account))
    ensures forall c :: EffectsOf(cfg, a, slot, CountEffects(cfg, c))
  {
    hide LiveRows, Closes;
  }

  lemma ClosePart(cfg: Config, a: Account, slot: nat)
    ensures IsClose(a) ==> EffectsOf(cfg, a, slot, CloseEffects(cfg, a, slot)) && Closed(cfg, a, slot, CloseEffects(cfg, a, slot))
    ensures !IsCloseTombstoneCandidate(a.lamports) ==> CloseEffects(cfg, a, slot) == []
  {
    hide LiveRows;
  }

  lemma NoTokenNoRow(cfg: Config, a: Account, slot: nat, es: seq<Effect>)
    requires TokenOf(a).None?
    ensures Wrote(cfg, a, slot, es)
  {
  }

  lemma SplPart(cfg: Config, a: Account, slot: nat)
    requires a.owner == SPL_TOKEN_ID
    ensures var es := SplEffects(cfg, a, slot);
      EffectsOf(cfg, a, slot, es) && Wrote(cfg, a, slot, es) && (!IsCanonicalEmpty(a) ==> Closed(cfg, a, slot, es))
  {
    hide EffectOf, TokenEffects, MintEffects, CountEffects, CloseEffects, LiveRows;
    OtherParts(cfg, a, slot);
    ClosePart(cfg, a, slot);
    assert SPL_TOKEN_ID != TOKEN_2022_ID by { ProgramsDiffer(); }
    if TokenOf(a).Some? {
      TokenPart(cfg, a, slot, TokenOf(a).value);
    } else {
      NoTokenNoRow(cfg, a, slot, SplEffects(cfg, a, slot));
    }
  }

  lemma Token2022Part(cfg: Config, a: Account, slot: nat)
    requires a.owner == TOKEN_2022_ID
    ensures var es := Token2022Effects(cfg, a, slot);
      EffectsOf(cfg, a, slot, es) && Wrote(cfg, a, slot, es) && (!IsCanonicalEmpty(a) ==> Closed(cfg, a, slot, es))
  {
    hide EffectOf, TokenEffects, MintEffects, CountEffects, CloseEffects, ExtensionEffects, FieldsEffects, LiveRows;
    OtherParts(cfg, a, slot);
    ClosePart(cfg, a, slot);
    assert SPL_TOKEN_ID != TOKEN_2022_ID by { ProgramsDiffer(); }
    if TokenOf(a).Some? {
      TokenPart(cfg, a, slot, TokenOf(a).value);
    } else {
      NoTokenNoRow(cfg, a, slot, Token2022Effects(cfg, a, slot));
    }
  }

  lemma ProgramsDiffer()
    ensures SPL_TOKEN_ID != TOKEN_2022_ID
  {
    assert SPL_TOKEN_ID[7] != TOKEN_2022_ID[7];
  }

  lemma AccountPart(cfg: Config, a: Account, slot: nat)
    ensures var es := AccountEffects(cfg, a, slot);
      EffectsOf(cfg, a, slot, es) && Wrote(cfg, a, slot, es) && Closed(cfg, a, slot, es)
  {
    hide EffectOf, BaseEffects, SplEffects, Token2022Effects, MetaplexEffects, CloseEffects, CountEffects, LiveRows, IsCanonicalEmpty, TokenOf, IsClose;
    OtherParts(cfg, a, slot);
    ClosePart(cfg, a, slot);
    CanonicalEmptyIsClose(a);
    if a.owner == SPL_TOKEN_ID {
      SplPart(cfg, a, slot);
    } else if a.owner == TOKEN_2022_ID {
      Token2022Part(cfg, a, slot);
    } else {
      NoProgram(a);
      NoTokenNoRow(cfg, a, slot, AccountEffects(cfg, a, slot));
    }
  }

  lemma CanonicalEmptyIsClose(a: Account)
    ensures IsCanonicalEmpty(a) ==> IsClose(a)
  {
  }

  lemma NoProgram(a: Account)
    requires a.owner != SPL_TOKEN_ID && a.owner != TOKEN_2022_ID
    ensures TokenOf(a).None? && (IsClose(a) ==> IsCanonicalEmpty(a))
  {
  }

  // ------------------------------------------------- effects of a stream

  lemma {:induction false} AccountsLocate(cfg: Config, accounts: seq<Account>, slot: nat, e: Effect) returns (a: Account)
    requires e in AccountsEffects(cfg, accounts, slot)
    ensures a in accounts && e in AccountEffects(cfg, a, slot)
    decreases |accounts|
  {
    hide AccountEffects;
    a := accounts[|accounts| - 1];
    if e !in AccountEffects(cfg, a, slot) {
      a := AccountsLocate(cfg, accounts[..|accounts| - 1], slot, e);
    }
  }

  lemma {:induction false} AccountsInclude(cfg: Config, accounts: seq<Account>, slot: nat, a: Account, e: Effect)
    requires a in accounts && e in AccountEffects(cfg, a, slot)
    ensures e in AccountsEffects(cfg, accounts, slot)
    decreases |accounts|
  {
    hide AccountEffects;
    var n := |accounts| - 1;
    if a != accounts[n] {
      AccountsInclude(cfg, accounts[..n], slot, a, e);
    }
  }

  /** Every effect that is not a statistic comes from an account of the stream. */
  lemma {:induction false} StreamLocate(cfg: Config, stream: seq<AppendVec>, e: Effect) returns (slot: nat, a: Account)
    requires e in StreamEffects(cfg, stream) && !e.Count?
    ensures Holds(stream, slot, a) && e in AccountEffects(cfg, a, slot)
    decreases |stream|
  {
    hide AccountEffects, AccountsEffects;
    var n := |stream| - 1;
    if e in AppendVecEffects(cfg, stream[n]) {
      slot := stream[n].slot;
      a := AccountsLocate(cfg, stream[n].accounts, slot, e);
      assert stream[n] in stream;
    } else {
      slot, a := StreamLocate(cfg, stream[..n], e);
    }
  }

  lemma {:induction false} StreamInclude(cfg: Config, stream: seq<AppendVec>, slot: nat, a: Account, e: Effect)
    requires Holds(stream, slot, a) && e in AccountEffects(cfg, a, slot)
    ensures e in StreamEffects(cfg, stream)
    decreases |stream|
  {
    hide AccountEffects, AccountsEffects;
    var av :| av in stream && av.slot == slot && a in av.accounts;
    var n := |stream| - 1;
    if av == stream[n] {
      AccountsInclude(cfg, av.accounts, slot, a, e);
    } else {
      assert av in stream[..n];
      StreamInclude(cfg, stream[..n], slot, a, e);
    }
  }

  // ----------------------------------------------------- output of effects

  /** One effect put in front of an output, for the parts that matter here. */
  lemma MergedFront(e: Effect, o: Output)
    ensures forall row :: row in Merge(Single(e), o).rows.tokens <==> e == Effect.WriteToken(row) || row in o.rows.tokens
    ensures forall pair :: pair in Merge(Single(e), o).pairs <==> e == AffectedPair(pair) || pair in o.pairs
  {
    hide JoinMaps, MergePatches;
  }

  lemma MergedFrontClose(e: Effect, o: Output, p: Pubkey)
    ensures var closes := Merge(Single(e), o).closes;
      if e.CloseCandidate? && e.pubkey == p then p in closes && closes[p] == if p in o.closes then Max(e.slot, o.closes[p]) else e.slot
      else (p in closes <==> p in o.closes) && (p in closes ==> closes[p] == o.closes[p])
  {
    hide MergePatches, MergeRows;
  }

  lemma InFront<T>(xs: seq<T>, x: T)
    requires xs != []
    ensures x in xs <==> x == xs[0] || x in xs[1..]
  {
  }

  lemma {:induction false} TotalTokens(es: seq<Effect>, row: TokenRow)
    ensures row in Total(es).rows.tokens <==> Effect.WriteToken(row) in es
  {
    if es != [] {
      hide Merge, Single;
      MergedFront(es[0], Total(es[1..]));
      InFront(es, Effect.WriteToken(row));
      TotalTokens(es[1..], row);
    }
  }

  lemma {:induction false} TotalPairs(es: seq<Effect>, pair: Pair)
    ensures pair in Total(es).pairs <==> AffectedPair(pair) in es
  {
    if es != [] {
      hide Merge, Single;
      MergedFront(es[0], Total(es[1..]));
      InFront(es, AffectedPair(pair));
      TotalPairs(es[1..], pair);
    }
  }

  predicate IsHighestClose(es: seq<Effect>, p: Pubkey, closes: map<Pubkey, nat>) {
    && (forall e :: e in es && e.CloseCandidate? && e.pubkey == p ==> p in closes && e.slot <= closes[p])
    && (p in closes ==> CloseCandidate(p, closes[p]) in es)
  }

  /** The slot kept for a close candidate is the highest one seen. */
  lemma {:induction false} TotalCloses(es: seq<Effect>, p: Pubkey)
    ensures IsHighestClose(es, p, Total(es).closes)
  {
    if es != [] {
      hide Merge, Single;
      MergedFrontClose(es[0], Total(es[1..]), p);
      TotalCloses(es[1..], p);
      var closes := Total(es).closes;
      forall e | e in es && e.CloseCandidate? && e.pubkey == p ensures p in closes && e.slot <= closes[p] {
        InFront(es, e);
      }
      if p in closes {
        InFront(es, CloseCandidate(p, closes[p]));
      }
    }
  }

  // ------------------------------------------------- output of an import

  /** The live rows of a stream. */
  ghost predicate HasLiveRow(cfg: Config, stream: seq<AppendVec>, row: TokenRow) {
    exists slot: nat, a :: Holds(stream, slot, a) && row in LiveRows(cfg, a, slot)
  }

  ghost predicate HasClose(cfg: Config, stream: seq<AppendVec>, p: Pubkey, slot: nat) {
    exists a :: Holds(stream, slot, a) && a.pubkey == p && Closes(cfg, a)
  }

  lemma ImportTokens(cfg: Config, stream: seq<AppendVec>, row: TokenRow)
    ensures row in ImportOf(cfg, stream).rows.tokens <==> HasLiveRow(cfg, stream, row)
  {
    hide Total, StreamEffects, AccountEffects, LiveRows, Closes, Holds;
    var es := StreamEffects(cfg, stream);
    TotalTokens(es, row);
    if Effect.WriteToken(row) in es {
      var slot, a := StreamLocate(cfg, stream, Effect.WriteToken(row));
      AccountPart(cfg, a, slot);
      assert EffectOf(cfg, a, slot, Effect.WriteToken(row));
    }
    if HasLiveRow(cfg, stream, row) {
      var slot: nat, a :| Holds(stream, slot, a) && row in LiveRows(cfg, a, slot);
      AccountPart(cfg, a, slot);
      StreamInclude(cfg, stream, slot, a, Effect.WriteToken(row));
    }
  }

  /** An incremental import remembers exactly the pairs of the live rows it writes. */
  lemma ImportPairs(cfg: Config, stream: seq<AppendVec>, pair: Pair)
    requires cfg.kind.Incremental?
    ensures pair in ImportOf(cfg, stream).pairs <==> exists row :: HasLiveRow(cfg, stream, row) && pair == (row.mint, row.owner)
  {
    hide Total, StreamEffects, AccountEffects, LiveRows, Closes, Holds;
    var es := StreamEffects(cfg, stream);
    TotalPairs(es, pair);
    if AffectedPair(pair) in es {
      var slot, a := StreamLocate(cfg, stream, AffectedPair(pair));
      AccountPart(cfg, a, slot);
      assert EffectOf(cfg, a, slot, AffectedPair(pair));
      var row :| row in LiveRows(cfg, a, slot) && pair == (row.mint, row.owner);
      assert HasLiveRow(cfg, stream, row);
    }
    if row :| HasLiveRow(cfg, stream, row) && pair == (row.mint, row.owner) {
      var slot: nat, a :| Holds(stream, slot, a) && row in LiveRows(cfg, a, slot);
      AccountPart(cfg, a, slot);
      StreamInclude(cfg, stream, slot, a, AffectedPair(pair));
    }
  }

  /** The candidates are the closed pubkeys, each with the highest slot at which it was seen closed. */
  lemma ImportCloses(cfg: Config, stream: seq<AppendVec>, p: Pubkey)
    ensures var closes := ImportOf(cfg, stream).closes;
      && (forall s: nat :: HasClose(cfg, stream, p, s) ==> p in closes && s <= closes[p])
      && (p in closes ==> HasClose(cfg, stream, p, closes[p]))
  {
    hide Total, StreamEffects, AccountEffects, LiveRows, Closes, Holds;
    var es := StreamEffects(cfg, stream);
    TotalCloses(es, p);
    var closes := ImportOf(cfg, stream).closes;
    if p in closes {
      var e := CloseCandidate(p, closes[p]);
      var slot, a := StreamLocate(cfg, stream, e);
      AccountPart(cfg, a, slot);
      assert EffectOf(cfg, a, slot, e);
    }
    forall s: nat | HasClose(cfg, stream, p, s) ensures CloseCandidate(p, s) in es {
      var a :| Holds(stream, s, a) && a.pubkey == p && Closes(cfg, a);
      AccountPart(cfg, a, s);
      StreamInclude(cfg, stream, s, a, CloseCandidate(p, s));
    }
  }
}
