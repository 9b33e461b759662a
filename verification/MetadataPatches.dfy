/**
 Metadata collected while one archive is read: for each mint at most one
 candidate for its fields and one for its extensions, the greatest seen.
 */
module MetadataPatches {
  import opened Wrappers
  import opened Order

  datatype Source = Metaplex | Token2022Standalone | Token2022Embedded

  datatype Fields = Fields(
    name: Text, symbol: Text, uri: Text, updateAuthority: Text, isMutable: bool,
    tokenStandard: Option<nat>, sellerFeeBasisPoints: nat, creators: seq<Text>)

  datatype VersionedFields = VersionedFields(accountSlot: nat, source: Source, sourceAccount: Text, fields: Fields)
  datatype VersionedExtensions = VersionedExtensions(accountSlot: nat, json: Text)

  function SourceRank(s: Source): nat { match s case Metaplex => 0 case Token2022Standalone => 1 case Token2022Embedded => 2 }

  function FieldsKey(f: Fields): Key {
    Cons(TextKey(f.name), Cons(TextKey(f.symbol), Cons(TextKey(f.uri), Cons(TextKey(f.updateAuthority),
      Cons(BoolKey(f.isMutable), Cons(OptionKey(f.tokenStandard), Cons(Num(f.sellerFeeBasisPoints), TextsKey(f.creators))))))))
  }

  function VersionedFieldsKey(v: VersionedFields): Key {
    Cons(Num(v.accountSlot), Cons(Num(SourceRank(v.source)), Cons(TextKey(v.sourceAccount), FieldsKey(v.fields))))
  }

  function VersionedExtensionsKey(v: VersionedExtensions): Key { Cons(Num(v.accountSlot), TextKey(v.json)) }

  /** The derived order is total on candidates: equal keys are equal candidates. */
  lemma FieldsOrderTotal(a: VersionedFields, b: VersionedFields)
    ensures Compare(VersionedFieldsKey(a), VersionedFieldsKey(b)) == Equal <==> a == b
    ensures Compare(VersionedFieldsKey(b), VersionedFieldsKey(a)) == Compare(VersionedFieldsKey(a), VersionedFieldsKey(b)).Reverse()
  {
    hide Compare, TextKey, TextsKey;
    CompareEqual(VersionedFieldsKey(a), VersionedFieldsKey(b));
    CompareReverse(VersionedFieldsKey(a), VersionedFieldsKey(b));
    if VersionedFieldsKey(a) == VersionedFieldsKey(b) {
      var f, g := a.fields, b.fields;
      TextKeyInjective(a.sourceAccount, b.sourceAccount);
      TextKeyInjective(f.name, g.name);
      TextKeyInjective(f.symbol, g.symbol);
      TextKeyInjective(f.uri, g.uri);
      TextKeyInjective(f.updateAuthority, g.updateAuthority);
      TextsKeyInjective(f.creators, g.creators);
    }
  }

  lemma ExtensionsOrderTotal(a: VersionedExtensions, b: VersionedExtensions)
    ensures Compare(VersionedExtensionsKey(a), VersionedExtensionsKey(b)) == Equal <==> a == b
    ensures Compare(VersionedExtensionsKey(b), VersionedExtensionsKey(a)) == Compare(VersionedExtensionsKey(a), VersionedExtensionsKey(b)).Reverse()
  {
    hide Compare, TextKey;
    CompareEqual(VersionedExtensionsKey(a), VersionedExtensionsKey(b));
    CompareReverse(VersionedExtensionsKey(a), VersionedExtensionsKey(b));
    if VersionedExtensionsKey(a) == VersionedExtensionsKey(b) {
      TextKeyInjective(a.json, b.json);
    }
  }

  // ------------------------------------------------- what the order means

  predicate SourceBefore(a: Source, b: Source) { (a.Metaplex? && !b.Metaplex?) || (a.Token2022Standalone? && b.Token2022Embedded?) }

  /** The fields one after the other, in the order of their declaration. */
  predicate FieldsBefore(f: Fields, g: Fields) {
    || TextBefore(f.name, g.name)
    || (f.name == g.name
        && (TextBefore(f.symbol, g.symbol)
            || (f.symbol == g.symbol
                && (TextBefore(f.uri, g.uri)
                    || (f.uri == g.uri
                        && (TextBefore(f.updateAuthority, g.updateAuthority)
                            || (f.updateAuthority == g.updateAuthority && RestBefore(f, g))))))))
  }

  predicate RestBefore(f: Fields, g: Fields) {
    || (!f.isMutable && g.isMutable)
    || (f.isMutable == g.isMutable
        && (OptionBefore(f.tokenStandard, g.tokenStandard)
            || (f.tokenStandard == g.tokenStandard
                && (f.sellerFeeBasisPoints < g.sellerFeeBasisPoints
                    || (f.sellerFeeBasisPoints == g.sellerFeeBasisPoints && TextsBefore(f.creators, g.creators))))))
  }

  /** The slot decides first, then the source, then the account it was read from, then the fields. */
  predicate CandidateBefore(v: VersionedFields, w: VersionedFields) {
    || v.accountSlot < w.accountSlot
    || (v.accountSlot == w.accountSlot
        && (SourceBefore(v.source, w.source)
            || (v.source == w.source
                && (TextBefore(v.sourceAccount, w.sourceAccount)
                    || (v.sourceAccount == w.sourceAccount && FieldsBefore(v.fields, w.fields))))))
  }

  predicate ExtensionsBefore(v: VersionedExtensions, w: VersionedExtensions) {
    v.accountSlot < w.accountSlot || (v.accountSlot == w.accountSlot && TextBefore(v.json, w.json))
  }

  /** A text in front of the rest of a key. */
  lemma TextPartOrder(a: Text, t: Key, b: Text, t': Key)
    ensures Compare(Cons(TextKey(a), t), Cons(TextKey(b), t')) == Less <==> TextBefore(a, b) || (a == b && Compare(t, t') == Less)
  {
    hide TextBefore, TextKey, Compare;
    TextOrder(a, b);
    PartsOrder(TextKey(a), t, TextKey(b), t');
    if TextKey(a) == TextKey(b) {
      TextKeyInjective(a, b);
    }
  }

  function RestKey(f: Fields): Key {
    Cons(BoolKey(f.isMutable), Cons(OptionKey(f.tokenStandard), Cons(Num(f.sellerFeeBasisPoints), TextsKey(f.creators))))
  }

  lemma RestOrder(f: Fields, g: Fields)
    ensures Compare(RestKey(f), RestKey(g)) == Less <==> RestBefore(f, g)
  {
    hide TextsBefore, TextsKey, Compare, OptionKey;
    TextsOrder(f.creators, g.creators);
    OptionOrder(f.tokenStandard, g.tokenStandard);
    NumberOrder(f.sellerFeeBasisPoints, g.sellerFeeBasisPoints);
    NumberOrder(if f.isMutable then 1 else 0, if g.isMutable then 1 else 0);
    OptionKeyInjective(f.tokenStandard, g.tokenStandard);
    var (x, y, z) := (TextsKey(f.creators), Num(f.sellerFeeBasisPoints), OptionKey(f.tokenStandard));
    var (x', y', z') := (TextsKey(g.creators), Num(g.sellerFeeBasisPoints), OptionKey(g.tokenStandard));
    PartsOrder(y, x, y', x');
    PartsOrder(z, Cons(y, x), z', Cons(y', x'));
    PartsOrder(BoolKey(f.isMutable), Cons(z, Cons(y, x)), BoolKey(g.isMutable), Cons(z', Cons(y', x')));
  }

  lemma OptionKeyInjective(a: Option<nat>, b: Option<nat>)
    ensures OptionKey(a) == OptionKey(b) <==> a == b
  {
  }

  lemma FieldsOrder(f: Fields, g: Fields)
    ensures Compare(FieldsKey(f), FieldsKey(g)) == Less <==> FieldsBefore(f, g)
  {
    hide TextBefore, TextKey, Compare, RestBefore, RestKey;
    FieldsKeyParts(f);
    FieldsKeyParts(g);
    RestOrder(f, g);
    var (u, u') := (Cons(TextKey(f.updateAuthority), RestKey(f)), Cons(TextKey(g.updateAuthority), RestKey(g)));
    var (v, v') := (Cons(TextKey(f.uri), u), Cons(TextKey(g.uri), u'));
    TextPartOrder(f.updateAuthority, RestKey(f), g.updateAuthority, RestKey(g));
    TextPartOrder(f.uri, u, g.uri, u');
    TextPartOrder(f.symbol, v, g.symbol, v');
    TextPartOrder(f.name, Cons(TextKey(f.symbol), v), g.name, Cons(TextKey(g.symbol), v'));
  }

  lemma FieldsKeyParts(f: Fields)
    ensures FieldsKey(f) == Cons(TextKey(f.name), Cons(TextKey(f.symbol), Cons(TextKey(f.uri), Cons(TextKey(f.updateAuthority), RestKey(f)))))
  {
  }

  /** The derived order on field candidates, spelled out. */
  lemma CandidateOrder(v: VersionedFields, w: VersionedFields)
    ensures Compare(VersionedFieldsKey(v), VersionedFieldsKey(w)) == Less <==> CandidateBefore(v, w)
  {
    hide TextBefore, TextKey, Compare, FieldsBefore, FieldsKey;
    FieldsOrder(v.fields, w.fields);
    NumberOrder(v.accountSlot, w.accountSlot);
    NumberOrder(SourceRank(v.source), SourceRank(w.source));
    var (x, x') := (Cons(TextKey(v.sourceAccount), FieldsKey(v.fields)), Cons(TextKey(w.sourceAccount), FieldsKey(w.fields)));
    TextPartOrder(v.sourceAccount, FieldsKey(v.fields), w.sourceAccount, FieldsKey(w.fields));
    PartsOrder(Num(SourceRank(v.source)), x, Num(SourceRank(w.source)), x');
    PartsOrder(Num(v.accountSlot), Cons(Num(SourceRank(v.source)), x), Num(w.accountSlot), Cons(Num(SourceRank(w.source)), x'));
  }

  lemma ExtensionsOrder(v: VersionedExtensions, w: VersionedExtensions)
    ensures Compare(VersionedExtensionsKey(v), VersionedExtensionsKey(w)) == Less <==> ExtensionsBefore(v, w)
  {
    hide TextBefore, TextKey, Compare;
    NumberOrder(v.accountSlot, w.accountSlot);
    TextOrder(v.json, w.json);
    PartsOrder(Num(v.accountSlot), TextKey(v.json), Num(w.accountSlot), TextKey(w.json));
  }

  function GreaterFields(a: VersionedFields, b: VersionedFields): VersionedFields {
    if Compare(VersionedFieldsKey(b), VersionedFieldsKey(a)) == Greater then b else a
  }

  function GreaterExtensions(a: VersionedExtensions, b: VersionedExtensions): VersionedExtensions {
    if Compare(VersionedExtensionsKey(b), VersionedExtensionsKey(a)) == Greater then b else a
  }

  /** Of two candidates the later one in that order is kept. */
  lemma GreaterIsLater(v: VersionedFields, w: VersionedFields)
    ensures GreaterFields(v, w) == if CandidateBefore(v, w) then w else v
    ensures Compare(VersionedFieldsKey(w), VersionedFieldsKey(v)) == Greater <==> CandidateBefore(v, w)
  {
    hide Compare, VersionedFieldsKey, CandidateBefore;
    CandidateOrder(v, w);
    FieldsOrderTotal(v, w);
  }

  lemma GreaterExtensionsIsLater(v: VersionedExtensions, w: VersionedExtensions)
    ensures GreaterExtensions(v, w) == if ExtensionsBefore(v, w) then w else v
    ensures Compare(VersionedExtensionsKey(w), VersionedExtensionsKey(v)) == Greater <==> ExtensionsBefore(v, w)
  {
    hide Compare, VersionedExtensionsKey, ExtensionsBefore;
    ExtensionsOrder(v, w);
    ExtensionsOrderTotal(v, w);
  }

  /** What is not before something not before a third is not before that either. */
  lemma NotBeforeTransitive(u: VersionedFields, v: VersionedFields, w: VersionedFields)
    requires !CandidateBefore(u, v) && !CandidateBefore(v, w)
    ensures !CandidateBefore(u, w)
  {
    hide Compare, VersionedFieldsKey, CandidateBefore;
    CandidateOrder(u, v);
    CandidateOrder(v, w);
    CandidateOrder(u, w);
    FieldsOrderTotal(u, v);
    FieldsOrderTotal(v, w);
    FieldsOrderTotal(u, w);
    CompareTransitive(VersionedFieldsKey(w), VersionedFieldsKey(v), VersionedFieldsKey(u));
  }

  lemma ExtensionsNotBeforeTransitive(u: VersionedExtensions, v: VersionedExtensions, w: VersionedExtensions)
    requires !ExtensionsBefore(u, v) && !ExtensionsBefore(v, w)
    ensures !ExtensionsBefore(u, w)
  {
    hide Compare, VersionedExtensionsKey, ExtensionsBefore;
    ExtensionsOrder(u, v);
    ExtensionsOrder(v, w);
    ExtensionsOrder(u, w);
    ExtensionsOrderTotal(u, v);
    ExtensionsOrderTotal(v, w);
    ExtensionsOrderTotal(u, w);
    CompareTransitive(VersionedExtensionsKey(w), VersionedExtensionsKey(v), VersionedExtensionsKey(u));
  }

  /** No candidate is before itself, nor two before each other. */
  lemma CandidateNotBeforeItself(v: VersionedFields, w: VersionedFields)
    ensures !CandidateBefore(v, v) && !(CandidateBefore(v, w) && CandidateBefore(w, v))
  {
    hide Compare, VersionedFieldsKey, CandidateBefore;
    CandidateOrder(v, v);
    CandidateOrder(v, w);
    CandidateOrder(w, v);
    FieldsOrderTotal(v, v);
    FieldsOrderTotal(v, w);
  }

  lemma ExtensionsNotBeforeItself(v: VersionedExtensions, w: VersionedExtensions)
    ensures !ExtensionsBefore(v, v) && !(ExtensionsBefore(v, w) && ExtensionsBefore(w, v))
  {
    hide Compare, VersionedExtensionsKey, ExtensionsBefore;
    ExtensionsOrder(v, v);
    ExtensionsOrder(v, w);
    ExtensionsOrder(w, v);
    ExtensionsOrderTotal(v, v);
    ExtensionsOrderTotal(v, w);
  }

  /** Taking the greater candidate is a join: neither order nor grouping nor repetition matters. */
  lemma GreaterFieldsJoin(a: VersionedFields, b: VersionedFields, c: VersionedFields)
    ensures GreaterFields(a, b) == GreaterFields(b, a)
    ensures GreaterFields(GreaterFields(a, b), c) == GreaterFields(a, GreaterFields(b, c))
    ensures GreaterFields(a, a) == a
  {
    hide Compare, VersionedFieldsKey;
    FieldsOrderTotal(a, a);
    FieldsOrderTotal(a, b);
    FieldsOrderTotal(b, c);
    FieldsOrderTotal(a, c);
    var (k, l, m) := (VersionedFieldsKey(a), VersionedFieldsKey(b), VersionedFieldsKey(c));
    TransitiveEveryWay(k, l, m);
  }

  lemma GreaterExtensionsJoin(a: VersionedExtensions, b: VersionedExtensions, c: VersionedExtensions)
    ensures GreaterExtensions(a, b) == GreaterExtensions(b, a)
    ensures GreaterExtensions(GreaterExtensions(a, b), c) == GreaterExtensions(a, GreaterExtensions(b, c))
    ensures GreaterExtensions(a, a) == a
  {
    hide Compare, VersionedExtensionsKey;
    ExtensionsOrderTotal(a, a);
    ExtensionsOrderTotal(a, b);
    ExtensionsOrderTotal(b, c);
    ExtensionsOrderTotal(a, c);
    TransitiveEveryWay(VersionedExtensionsKey(a), VersionedExtensionsKey(b), VersionedExtensionsKey(c));
  }

  lemma TransitiveEveryWay(k: Key, l: Key, m: Key)
    ensures Compare(k, l) != Greater && Compare(l, m) != Greater ==> Compare(k, m) != Greater
    ensures Compare(m, l) != Greater && Compare(l, k) != Greater ==> Compare(m, k) != Greater
    ensures Compare(l, k) != Greater && Compare(k, m) != Greater ==> Compare(l, m) != Greater
    ensures Compare(m, k) != Greater && Compare(k, l) != Greater ==> Compare(m, l) != Greater
    ensures Compare(k, m) != Greater && Compare(m, l) != Greater ==> Compare(k, l) != Greater
    ensures Compare(l, m) != Greater && Compare(m, k) != Greater ==> Compare(l, k) != Greater
  {
    hide Compare;
    if Compare(k, l) != Greater && Compare(l, m) != Greater { CompareTransitive(k, l, m); }
    if Compare(m, l) != Greater && Compare(l, k) != Greater { CompareTransitive(m, l, k); }
    if Compare(l, k) != Greater && Compare(k, m) != Greater { CompareTransitive(l, k, m); }
    if Compare(m, k) != Greater && Compare(k, l) != Greater { CompareTransitive(m, k, l); }
    if Compare(k, m) != Greater && Compare(m, l) != Greater { CompareTransitive(k, m, l); }
    if Compare(l, m) != Greater && Compare(m, k) != Greater { CompareTransitive(l, m, k); }
  }
}
