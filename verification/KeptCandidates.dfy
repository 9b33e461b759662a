/**
 Which metadata an import keeps of each mint: of all candidates its accounts
 offer, the one of the highest slot, and of these the one of the latest source.
 */
module KeptCandidates {
  import opened Wrappers
  import opened Order
  import opened MetadataPatches
  import opened ImportOutput
  import opened Accounts
  import opened Ledgers

  // ------------------------------------------------ what an account offers

  /** Metaplex metadata, stand-alone Token-2022 metadata, or metadata embedded in the mint it names. */
  predicate OffersFields(cfg: Config, a: Account, slot: nat, mint: Pubkey, v: VersionedFields) {
    && mint in cfg.hot && v.accountSlot == slot && v.sourceAccount == a.pubkey
    && match v.source
       case Metaplex =>
         a.owner == "metaqbxxUerdq28cj1RbAWkYQm3ybzjb6a8bt518x1s" && a.decoded.metaplex == Some(NamedMetadata(mint, v.fields))
       case Token2022Standalone =>
         a.owner == "TokenzQdBNbLqP5VEhdkAS6EPFLC1PHnBqCXEpPxuEb" && a.decoded.base.NoBase? && a.decoded.standalone == Some(NamedMetadata(mint, v.fields))
       case Token2022Embedded =>
         && a.owner == "TokenzQdBNbLqP5VEhdkAS6EPFLC1PHnBqCXEpPxuEb" && a.decoded.base.BaseMint? && mint == a.pubkey && a.decoded.extensions.Some?
         && a.decoded.extensions.value.tokenMetadata == Some(NamedMetadata(mint, v.fields))
  }

  predicate OffersExtensions(cfg: Config, a: Account, slot: nat, mint: Pubkey, v: VersionedExtensions) {
    && mint in cfg.hot && mint == a.pubkey && a.owner == "TokenzQdBNbLqP5VEhdkAS6EPFLC1PHnBqCXEpPxuEb" && a.decoded.base.BaseMint?
    && a.decoded.extensions.Some? && v == VersionedExtensions(slot, a.decoded.extensions.value.json)
  }

  predicate IsPatch(e: Effect) { e.RecordFields? || e.RecordExtensions? }

  lemma FieldsPatch(cfg: Config, m: NamedMetadata, slot: nat, source: Source, account: Pubkey, e: Effect)
    ensures e in FieldsEffects(cfg, m, slot, source, account) <==>
      m.mint in cfg.hot && e == RecordFields(m.mint, VersionedFields(slot, source, account, m.fields))
  {
  }

  lemma ExtensionPatch(cfg: Config, a: Account, slot: nat, e: Effect)
    ensures e in ExtensionEffects(cfg, a, slot) <==>
      && a.pubkey in cfg.hot && a.decoded.extensions.Some?
      && (e == RecordExtensions(a.pubkey, VersionedExtensions(slot, a.decoded.extensions.value.json)) || e in EmbeddedEffects(cfg, a, slot, a.decoded.extensions.value))
  {
    hide EmbeddedEffects;
  }

  lemma PatchesNothing(cfg: Config, a: Account, slot: nat, e: Effect)
    requires IsPatch(e)
    ensures forall c :: e !in CountEffects(cfg, c)
    ensures forall t :: e !in TokenEffects(cfg, a, slot, t)
    ensures forall m :: e !in MintEffects(cfg, a.pubkey, m)
    ensures e !in CloseEffects(cfg, a, slot)
  {
  }

  lemma SplPatches(cfg: Config, a: Account, slot: nat, e: Effect)
    requires IsPatch(e)
    ensures e !in SplEffects(cfg, a, slot)
  {
    hide CountEffects, TokenEffects, MintEffects, CloseEffects;
    PatchesNothing(cfg, a, slot, e);
  }

  lemma Token2022Patches(cfg: Config, a: Account, slot: nat, e: Effect)
    requires IsPatch(e)
    ensures e in Token2022Effects(cfg, a, slot) <==>
      || (a.decoded.base.BaseMint? && e in ExtensionEffects(cfg, a, slot))
      || (a.decoded.base.NoBase? && a.decoded.standalone.Some? && e in FieldsEffects(cfg, a.decoded.standalone.value, slot, Token2022Standalone, a.pubkey))
  {
    hide CountEffects, TokenEffects, MintEffects, CloseEffects, ExtensionEffects, FieldsEffects;
    PatchesNothing(cfg, a, slot, e);
  }

  lemma AccountPatches(cfg: Config, a: Account, slot: nat, e: Effect)
    requires IsPatch(e)
    ensures e in AccountEffects(cfg, a, slot) <==>
      (a.owner == TOKEN_2022_ID && e in Token2022Effects(cfg, a, slot)) || e in MetaplexEffects(cfg, a, slot)
  {
    hide CountEffects, SplEffects, Token2022Effects, MetaplexEffects, CloseEffects;
    PatchesNothing(cfg, a, slot, e);
    SplPatches(cfg, a, slot, e);
    assert SPL_TOKEN_ID != TOKEN_2022_ID by { ProgramsDiffer(); }
  }

  lemma MetaplexIsOther()
    ensures METAPLEX_ID != TOKEN_2022_ID
  {
    assert METAPLEX_ID[0] == 'm' && TOKEN_2022_ID[0] == 'T';
  }

  /** An account records exactly what it offers. */
  lemma AccountRecordsFields(cfg: Config, a: Account, slot: nat, mint: Pubkey, v: VersionedFields)
    ensures RecordFields(mint, v) in AccountEffects(cfg, a, slot) <==> OffersFields(cfg, a, slot, mint, v)
  {
    hide AccountEffects, Token2022Effects, ExtensionEffects, FieldsEffects;
    var e := RecordFields(mint, v);
    AccountPatches(cfg, a, slot, e);
    Token2022Patches(cfg, a, slot, e);
    ExtensionPatch(cfg, a, slot, e);
    MetaplexIsOther();
    if a.decoded.metaplex.Some? {
      FieldsPatch(cfg, a.decoded.metaplex.value, slot, Metaplex, a.pubkey, e);
    }
    if a.decoded.standalone.Some? {
      FieldsPatch(cfg, a.decoded.standalone.value, slot, Token2022Standalone, a.pubkey, e);
    }
    if a.decoded.extensions.Some? && a.decoded.extensions.value.tokenMetadata.Some? {
      FieldsPatch(cfg, a.decoded.extensions.value.tokenMetadata.value, slot, Token2022Embedded, a.pubkey, e);
    }
  }

  lemma AccountRecordsExtensions(cfg: Config, a: Account, slot: nat, mint: Pubkey, v: VersionedExtensions)
    ensures RecordExtensions(mint, v) in AccountEffects(cfg, a, slot) <==> OffersExtensions(cfg, a, slot, mint, v)
  {
    hide AccountEffects, Token2022Effects, ExtensionEffects;
    var e := RecordExtensions(mint, v);
    AccountPatches(cfg, a, slot, e);
    Token2022Patches(cfg, a, slot, e);
    ExtensionPatch(cfg, a, slot, e);
  }

  // ------------------------------------------------ what a stream keeps

  ghost predicate StreamOffersFields(cfg: Config, stream: seq<AppendVec>, mint: Pubkey, v: VersionedFields) {
    exists slot: nat, a :: Holds(stream, slot, a) && OffersFields(cfg, a, slot, mint, v)
  }

  ghost predicate StreamOffersExtensions(cfg: Config, stream: seq<AppendVec>, mint: Pubkey, v: VersionedExtensions) {
    exists slot: nat, a :: Holds(stream, slot, a) && OffersExtensions(cfg, a, slot, mint, v)
  }

  /** The candidate kept for a mint is one of those recorded, and none recorded comes after it. */
  predicate IsLatestFields(es: seq<Effect>, mint: Pubkey, fields: map<Pubkey, VersionedFields>) {
    && (forall e :: e in es && e.RecordFields? && e.mint == mint ==> mint in fields && !CandidateBefore(fields[mint], e.fields))
    && (mint in fields ==> RecordFields(mint, fields[mint]) in es)
  }

  predicate IsLatestExtensions(es: seq<Effect>, mint: Pubkey, extensions: map<Pubkey, VersionedExtensions>) {
    && (forall e :: e in es && e.RecordExtensions? && e.mint == mint ==> mint in extensions && !ExtensionsBefore(extensions[mint], e.extensions))
    && (mint in extensions ==> RecordExtensions(mint, extensions[mint]) in es)
  }

  lemma FrontFields(e: Effect, o: Output, mint: Pubkey)
    ensures var fields := Merge(Single(e), o).patches.fields;
      if e.RecordFields? && e.mint == mint then
        mint in fields && fields[mint] == if mint in o.patches.fields then GreaterFields(e.fields, o.patches.fields[mint]) else e.fields
      else (mint in fields <==> mint in o.patches.fields) && (mint in fields ==> fields[mint] == o.patches.fields[mint])
  {
    hide GreaterFields, GreaterExtensions, MergeRows;
  }

  lemma FrontExtensions(e: Effect, o: Output, mint: Pubkey)
    ensures var extensions := Merge(Single(e), o).patches.extensions;
      if e.RecordExtensions? && e.mint == mint then
        mint in extensions && extensions[mint] == if mint in o.patches.extensions then GreaterExtensions(e.extensions, o.patches.extensions[mint]) else e.extensions
      else (mint in extensions <==> mint in o.patches.extensions) && (mint in extensions ==> extensions[mint] == o.patches.extensions[mint])
  {
    hide GreaterFields, GreaterExtensions, MergeRows;
  }

  /** The greater of two candidates is before neither, and before nothing the second is not before. */
  lemma GreaterIsLatest(v: VersionedFields, w: VersionedFields, u: VersionedFields)
    requires u == v || !CandidateBefore(w, u)
    ensures !CandidateBefore(GreaterFields(v, w), u)
  {
    hide CandidateBefore, GreaterFields;
    GreaterIsLater(v, w);
    CandidateNotBeforeItself(v, w);
    if u != v && !CandidateBefore(v, w) {
      NotBeforeTransitive(v, w, u);
    }
  }

  lemma GreaterExtensionsIsLatest(v: VersionedExtensions, w: VersionedExtensions, u: VersionedExtensions)
    requires u == v || !ExtensionsBefore(w, u)
    ensures !ExtensionsBefore(GreaterExtensions(v, w), u)
  {
    hide ExtensionsBefore, GreaterExtensions;
    GreaterExtensionsIsLater(v, w);
    ExtensionsNotBeforeItself(v, w);
    if u != v && !ExtensionsBefore(v, w) {
      ExtensionsNotBeforeTransitive(v, w, u);
    }
  }

  lemma {:induction false} TotalFields(es: seq<Effect>, mint: Pubkey)
    ensures IsLatestFields(es, mint, Total(es).patches.fields)
  {
    if es != [] {
      hide Merge, Single, CandidateBefore, GreaterFields;
      TotalFields(es[1..], mint);
      FrontFields(es[0], Total(es[1..]), mint);
      var before, fields := Total(es[1..]).patches.fields, Total(es).patches.fields;
      forall e | e in es && e.RecordFields? && e.mint == mint ensures mint in fields && !CandidateBefore(fields[mint], e.fields) {
        InFront(es, e);
        CandidateNotBeforeItself(e.fields, e.fields);
        if es[0].RecordFields? && es[0].mint == mint && mint in before {
          GreaterIsLatest(es[0].fields, before[mint], e.fields);
        }
      }
      if mint in fields {
        InFront(es, RecordFields(mint, fields[mint]));
        if es[0].RecordFields? && es[0].mint == mint && mint in before {
          GreaterIsLater(es[0].fields, before[mint]);
        }
      }
    }
  }

  lemma {:induction false} TotalExtensions(es: seq<Effect>, mint: Pubkey)
    ensures IsLatestExtensions(es, mint, Total(es).patches.extensions)
  {
    if es != [] {
      hide Merge, Single, ExtensionsBefore, GreaterExtensions;
      TotalExtensions(es[1..], mint);
      FrontExtensions(es[0], Total(es[1..]), mint);
      var before, extensions := Total(es[1..]).patches.extensions, Total(es).patches.extensions;
      forall e | e in es && e.RecordExtensions? && e.mint == mint ensures mint in extensions && !ExtensionsBefore(extensions[mint], e.extensions) {
        InFront(es, e);
        ExtensionsNotBeforeItself(e.extensions, e.extensions);
        if es[0].RecordExtensions? && es[0].mint == mint && mint in before {
          GreaterExtensionsIsLatest(es[0].extensions, before[mint], e.extensions);
        }
      }
      if mint in extensions {
        InFront(es, RecordExtensions(mint, extensions[mint]));
        if es[0].RecordExtensions? && es[0].mint == mint && mint in before {
          GreaterExtensionsIsLater(es[0].extensions, before[mint]);
        }
      }
    }
  }

  /**
   The fields an import keeps for a mint: there are some exactly if an account of
   the stream offers some. They were offered; nothing offered has a higher slot;
   of what was offered at that slot nothing has a later source; and of that the
   rest decides, in the order of the declaration.
   */
  lemma FieldsKept(cfg: Config, stream: seq<AppendVec>, mint: Pubkey)
    ensures var kept := ImportOf(cfg, stream).patches.fields;
      && (mint in kept <==> exists v :: StreamOffersFields(cfg, stream, mint, v))
      && (mint in kept ==>
            && StreamOffersFields(cfg, stream, mint, kept[mint])
            && forall v :: StreamOffersFields(cfg, stream, mint, v) ==>
                 && v.accountSlot <= kept[mint].accountSlot
                 && (v.accountSlot == kept[mint].accountSlot ==> !SourceBefore(kept[mint].source, v.source))
                 && !CandidateBefore(kept[mint], v))
  {
    hide Total, StreamEffects, AccountEffects, OffersFields, OffersExtensions, Holds, SourceBefore, TextBefore, FieldsBefore;
    var es := StreamEffects(cfg, stream);
    TotalFields(es, mint);
    forall v ensures RecordFields(mint, v) in es <==> StreamOffersFields(cfg, stream, mint, v) {
      if RecordFields(mint, v) in es {
        var slot, a := StreamLocate(cfg, stream, RecordFields(mint, v));
        AccountRecordsFields(cfg, a, slot, mint, v);
      }
      if slot: nat, a :| Holds(stream, slot, a) && OffersFields(cfg, a, slot, mint, v) {
        AccountRecordsFields(cfg, a, slot, mint, v);
        StreamInclude(cfg, stream, slot, a, RecordFields(mint, v));
      }
    }
  }

  /** And the extensions: those of the highest slot, and of these the text that comes last. */
  lemma ExtensionsKept(cfg: Config, stream: seq<AppendVec>, mint: Pubkey)
    ensures var kept := ImportOf(cfg, stream).patches.extensions;
      && (mint in kept <==> exists v :: StreamOffersExtensions(cfg, stream, mint, v))
      && (mint in kept ==>
            && StreamOffersExtensions(cfg, stream, mint, kept[mint])
            && forall v :: StreamOffersExtensions(cfg, stream, mint, v) ==>
                 v.accountSlot <= kept[mint].accountSlot && (v.accountSlot == kept[mint].accountSlot ==> !TextBefore(kept[mint].json, v.json)))
  {
    hide Total, StreamEffects, AccountEffects, OffersFields, OffersExtensions, Holds, TextBefore;
    var es := StreamEffects(cfg, stream);
    TotalExtensions(es, mint);
    forall v ensures RecordExtensions(mint, v) in es <==> StreamOffersExtensions(cfg, stream, mint, v) {
      if RecordExtensions(mint, v) in es {
        var slot, a := StreamLocate(cfg, stream, RecordExtensions(mint, v));
        AccountRecordsExtensions(cfg, a, slot, mint, v);
      }
      if slot: nat, a :| Holds(stream, slot, a) && OffersExtensions(cfg, a, slot, mint, v) {
        AccountRecordsExtensions(cfg, a, slot, mint, v);
        StreamInclude(cfg, stream, slot, a, RecordExtensions(mint, v));
      }
    }
  }
}
