/**
 The type-length-value area behind a Token-2022 mint: a scan that keeps the
 first occurrence of each supported extension type, in physical order.
 The JSON text is represented by the list of extension values it lists.
 */
module Token2022Extensions {
  import opened Wrappers
  import opened Bytes
  import opened Token2022Metadata

  /** Common 165-byte account prefix plus the one-byte account type. */
  const TLV_START: nat := 166

  const TRANSFER_FEE_CONFIG: nat := 1
  const MINT_CLOSE_AUTHORITY: nat := 3
  const DEFAULT_ACCOUNT_STATE: nat := 6
  const NON_TRANSFERABLE: nat := 9
  const PERMANENT_DELEGATE: nat := 12
  const TRANSFER_HOOK: nat := 14
  const METADATA_POINTER: nat := 18
  const TOKEN_METADATA: nat := 19

  const SUPPORTED: set<nat> := {
    TRANSFER_FEE_CONFIG, MINT_CLOSE_AUTHORITY, DEFAULT_ACCOUNT_STATE, NON_TRANSFERABLE,
    PERMANENT_DELEGATE, TRANSFER_HOOK, METADATA_POINTER, TOKEN_METADATA}

  type Key = seq<Byte>

  datatype AccountState = Uninitialized | Initialized | Frozen

  datatype Extension =
    | TransferFeeConfig(authority: Option<Key>, newerBasisPoints: nat, newerMaximumFee: nat,
                        olderEpoch: nat, olderBasisPoints: nat, olderMaximumFee: nat)
    | DefaultAccountState(state: AccountState)
    | NonTransferable
    | TransferHook(authority: Option<Key>, programId: Option<Key>)
    | PermanentDelegate(delegate: Option<Key>)
    | MintCloseAuthority(closeAuthority: Option<Key>)
    | MetadataPointer(authority: Option<Key>)
    | TokenMetadata(metadata: Metadata)

  datatype Entry = Entry(ty: nat, value: seq<Byte>)
  datatype Warning = Warning(ty: nat, reason: string)
  datatype Parsed = Parsed(extensions: seq<Extension>, tokenMetadata: Option<Metadata>, warnings: seq<Warning>)

  // ----------------------------------------------------- one extension value

  function ExactLen(value: seq<Byte>, expected: nat): (r: Result<seq<Byte>>)
    ensures r.Ok? <==> |value| == expected
    ensures r.Ok? ==> r.value == value
  {
    if |value| == expected then Ok(value) else Err("invalid Token-2022 extension length")
  }

  function UIntAt(value: seq<Byte>, offset: nat, size: nat): nat
    requires offset + size <= |value|
  {
    FromLe(value[offset..offset + size])
  }

  function KeyAt(value: seq<Byte>, offset: nat): Option<Key>
    requires offset + PUBKEY_SIZE <= |value|
  {
    Authority(value[offset..offset + PUBKEY_SIZE])
  }

  function ParseExtension(utf8: Utf8, ty: nat, value: seq<Byte>): (r: Result<(Extension, Option<Metadata>)>)
    ensures ty !in SUPPORTED ==> r.Err?
    ensures r.Ok? ==> (r.value.1.Some? <==> ty == TOKEN_METADATA)
    ensures r.Ok? && r.value.1.Some? ==> r.value.0 == TokenMetadata(r.value.1.value)
  {
    if ty == TRANSFER_FEE_CONFIG then
      var v :- ExactLen(value, 108);
      Ok((TransferFeeConfig(KeyAt(v, 0), UIntAt(v, 106, 2), UIntAt(v, 98, 8),
                            UIntAt(v, 72, 8), UIntAt(v, 88, 2), UIntAt(v, 80, 8)), None))
    else if ty == DEFAULT_ACCOUNT_STATE then
      var v :- ExactLen(value, 1);
      if v[0] == 0 then Ok((DefaultAccountState(Uninitialized), None))
      else if v[0] == 1 then Ok((DefaultAccountState(Initialized), None))
      else if v[0] == 2 then Ok((DefaultAccountState(Frozen), None))
      else Err("invalid Token-2022 default account state")
    else if ty == NON_TRANSFERABLE then
      var _ :- ExactLen(value, 0);
      Ok((NonTransferable, None))
    else if ty == TRANSFER_HOOK then
      var v :- ExactLen(value, 64);
      Ok((TransferHook(KeyAt(v, 0), KeyAt(v, 32)), None))
    else if ty == PERMANENT_DELEGATE then
      var v :- ExactLen(value, 32);
      Ok((PermanentDelegate(KeyAt(v, 0)), None))
    else if ty == MINT_CLOSE_AUTHORITY then
      var v :- ExactLen(value, 32);
      Ok((MintCloseAuthority(KeyAt(v, 0)), None))
    else if ty == METADATA_POINTER then
      var v :- ExactLen(value, 64);
      Ok((MetadataPointer(KeyAt(v, 0)), None))
    else if ty == TOKEN_METADATA then
      var metadata :- Parse(utf8, value);
      Ok((TokenMetadata(metadata), Some(metadata)))
    else
      Err("unsupported Token-2022 extension")
  }

  /** The eight types that are kept, and of each the values that decode. */
  lemma AcceptedIff(utf8: Utf8, ty: nat, value: seq<Byte>)
    ensures ty in SUPPORTED <==> ty == 1 || ty == 3 || ty == 6 || ty == 9 || ty == 12 || ty == 14 || ty == 18 || ty == 19
    ensures ParseExtension(utf8, ty, value).Ok? <==>
      || (ty == 1 && |value| == 108)
      || ((ty == 3 || ty == 12) && |value| == 32)
      || ((ty == 14 || ty == 18) && |value| == 64)
      || (ty == 6 && (value == [0] || value == [1] || value == [2]))
      || (ty == 9 && value == [])
      || (ty == 19 && Parse(utf8, value).Ok?)
  {
    hide Parse;
    if |value| == 1 {
      assert value == [value[0]];
    }
  }

  /** The three default states by their bytes, the mark without a value, and the metadata. */
  lemma PlainExtensions(utf8: Utf8, value: seq<Byte>)
    ensures ParseExtension(utf8, 6, [0]) == Ok((DefaultAccountState(Uninitialized), None))
    ensures ParseExtension(utf8, 6, [1]) == Ok((DefaultAccountState(Initialized), None))
    ensures ParseExtension(utf8, 6, [2]) == Ok((DefaultAccountState(Frozen), None))
    ensures ParseExtension(utf8, 9, []) == Ok((NonTransferable, None))
    ensures Parse(utf8, value).Ok? ==>
      ParseExtension(utf8, 19, value) == Ok((TokenMetadata(Parse(utf8, value).value), Some(Parse(utf8, value).value)))
  {
    hide Parse;
  }

  // --------------------------------------------------- layouts of the values

  /** A key that is present is 32 bytes and not all zero. */
  predicate CanonicalKey(k: Option<Key>) { k.Some? ==> |k.value| == PUBKEY_SIZE && k.value != Zeros(PUBKEY_SIZE) }

  function EncodeKey(k: Option<Key>): (bs: seq<Byte>)
    requires CanonicalKey(k)
    ensures |bs| == PUBKEY_SIZE && Authority(bs) == k
  {
    k.GetOr(Zeros(PUBKEY_SIZE))
  }

  /** What the fee configuration holds beside the fields that are kept. */
  datatype FeeRest = FeeRest(withdrawAuthority: seq<Byte>, withheld: nat, newerEpoch: nat)

  /** The fee configuration in the order of its layout: keys, amount withheld, older fee, newer fee. */
  function EncodeTransferFee(e: Extension, rest: FeeRest): (bs: seq<Byte>)
    requires e.TransferFeeConfig? && CanonicalKey(e.authority) && |rest.withdrawAuthority| == PUBKEY_SIZE
    ensures |bs| == 108 && bs[0..32] == EncodeKey(e.authority)
    ensures bs[72..80] == ToLe(e.olderEpoch, 8) && bs[80..88] == ToLe(e.olderMaximumFee, 8) && bs[88..90] == ToLe(e.olderBasisPoints, 2)
    ensures bs[98..106] == ToLe(e.newerMaximumFee, 8) && bs[106..108] == ToLe(e.newerBasisPoints, 2)
  {
    EncodeKey(e.authority) + rest.withdrawAuthority + ToLe(rest.withheld, 8)
      + (ToLe(e.olderEpoch, 8) + ToLe(e.olderMaximumFee, 8) + ToLe(e.olderBasisPoints, 2))
      + (ToLe(rest.newerEpoch, 8) + ToLe(e.newerMaximumFee, 8) + ToLe(e.newerBasisPoints, 2))
  }

  predicate FeeFits(e: Extension)
    requires e.TransferFeeConfig?
  {
    && e.olderEpoch < Pow256(8) && e.olderMaximumFee < Pow256(8) && e.olderBasisPoints < Pow256(2)
    && e.newerMaximumFee < Pow256(8) && e.newerBasisPoints < Pow256(2)
  }

  /** Each kept field of a fee configuration is read from its own place. */
  lemma TransferFeeRoundTrip(utf8: Utf8, e: Extension, rest: FeeRest)
    requires e.TransferFeeConfig? && CanonicalKey(e.authority) && FeeFits(e) && |rest.withdrawAuthority| == PUBKEY_SIZE
    ensures ParseExtension(utf8, 1, EncodeTransferFee(e, rest)) == Ok((e, None))
  {
    hide ToLe, FromLe, Pow256, Authority, EncodeKey, Parse;
    var v := EncodeTransferFee(e, rest);
    LeRoundTrip(e.olderEpoch, 8);
    LeRoundTrip(e.olderMaximumFee, 8);
    LeRoundTrip(e.olderBasisPoints, 2);
    LeRoundTrip(e.newerMaximumFee, 8);
    LeRoundTrip(e.newerBasisPoints, 2);
  }

  /** The extensions made of keys are read back, each key from its own place. */
  lemma KeysRoundTrip(utf8: Utf8, first: Option<Key>, second: Option<Key>)
    requires CanonicalKey(first) && CanonicalKey(second)
    ensures ParseExtension(utf8, 14, EncodeKey(first) + EncodeKey(second)) == Ok((TransferHook(first, second), None))
    ensures ParseExtension(utf8, 18, EncodeKey(first) + EncodeKey(second)) == Ok((MetadataPointer(first), None))
    ensures ParseExtension(utf8, 12, EncodeKey(first)) == Ok((PermanentDelegate(first), None))
    ensures ParseExtension(utf8, 3, EncodeKey(first)) == Ok((MintCloseAuthority(first), None))
  {
    hide FromLe, Authority, EncodeKey, Parse;
    var both := EncodeKey(first) + EncodeKey(second);
    assert both[0..32] == EncodeKey(first) && both[32..64] == EncodeKey(second);
    assert EncodeKey(first)[0..32] == EncodeKey(first);
  }

  // ------------------------------------------------------ declarative meaning

  /** Entry `i` is the first one of a supported type. */
  predicate FirstSupported(es: seq<Entry>, i: nat)
    requires i < |es|
  {
    es[i].ty in SUPPORTED && forall j :: 0 <= j < i ==> es[j].ty != es[i].ty
  }

  predicate Seen(es: seq<Entry>, ty: nat) { exists e <- es :: e.ty == ty }

  /** The effect of one entry on what has been kept so far. */
  function Keep(utf8: Utf8, m: Parsed, e: Entry): Parsed {
    match ParseExtension(utf8, e.ty, e.value)
    case Ok((extension, metadata)) =>
      Parsed(m.extensions + [extension], if metadata.Some? then metadata else m.tokenMetadata, m.warnings)
    case Err(reason) => m.(warnings := m.warnings + [Warning(e.ty, reason)])
  }

  /** What a list of entries means: a failed first occurrence still shadows later ones. */
  function Meaning(utf8: Utf8, es: seq<Entry>): (m: Parsed)
    decreases |es|
  {
    if es == [] then Parsed([], None, [])
    else
      var m := Meaning(utf8, es[..|es| - 1]);
      if FirstSupported(es, |es| - 1) then Keep(utf8, m, es[|es| - 1]) else m
  }

  lemma FirstSupportedPrefix(es: seq<Entry>, i: nat)
    requires i + 1 < |es|
    ensures FirstSupported(es[..|es| - 1], i) <==> FirstSupported(es, i)
  {
  }

  /** The indices of the first occurrences, in physical order. */
  function FirstIndices(es: seq<Entry>): (ix: seq<nat>)
    ensures forall a :: 0 <= a < |ix| ==> ix[a] < |es| && FirstSupported(es, ix[a])
    ensures forall a, b :: 0 <= a < b < |ix| ==> ix[a] < ix[b]
    ensures forall i: nat :: i < |es| && FirstSupported(es, i) ==> i in ix
    decreases |es|
  {
    if es == [] then []
    else
      var n := |es| - 1;
      var ix := FirstIndices(es[..n]);
      assert forall i: nat | i < n :: FirstSupported(es[..n], i) <==> FirstSupported(es, i) by {
        forall i: nat | i < n ensures FirstSupported(es[..n], i) <==> FirstSupported(es, i) { FirstSupportedPrefix(es, i); }
      }
      if FirstSupported(es, n) then ix + [n] else ix
  }

  /** The decodings that succeed among the entries at `ix`. */
  function Decodings(utf8: Utf8, es: seq<Entry>, ix: seq<nat>): seq<Extension>
    requires forall k :: 0 <= k < |ix| ==> ix[k] < |es|
  {
    if ix == [] then []
    else
      var n := |ix| - 1;
      var rest := Decodings(utf8, es, ix[..n]);
      match ParseExtension(utf8, es[ix[n]].ty, es[ix[n]].value)
      case Ok((extension, _)) => rest + [extension]
      case Err(_) => rest
  }

  /** The warnings of those that fail. */
  function Failures(utf8: Utf8, es: seq<Entry>, ix: seq<nat>): seq<Warning>
    requires forall k :: 0 <= k < |ix| ==> ix[k] < |es|
  {
    if ix == [] then []
    else
      var n := |ix| - 1;
      var rest := Failures(utf8, es, ix[..n]);
      match ParseExtension(utf8, es[ix[n]].ty, es[ix[n]].value)
      case Ok(_) => rest
      case Err(reason) => rest + [Warning(es[ix[n]].ty, reason)]
  }

  /** The decoding of the first metadata entry, if there is one and it decodes. */
  function FirstMetadata(utf8: Utf8, es: seq<Entry>): Option<Metadata> {
    if es == [] then None
    else if es[0].ty == TOKEN_METADATA then
      match Parse(utf8, es[0].value)
      case Ok(metadata) => Some(metadata)
      case Err(_) => None
    else FirstMetadata(utf8, es[1..])
  }

  lemma {:induction false} FirstMetadataSnoc(utf8: Utf8, es: seq<Entry>, e: Entry)
    ensures FirstMetadata(utf8, es + [e]) == if Seen(es, TOKEN_METADATA) then FirstMetadata(utf8, es) else FirstMetadata(utf8, [e])
  {
    hide Parse;
    if es == [] {
      assert es + [e] == [e];
    } else {
      assert (es + [e])[1..] == es[1..] + [e] && es == [es[0]] + es[1..];
      FirstMetadataSnoc(utf8, es[1..], e);
    }
  }

  lemma {:induction false} DecodingsOfExtended(utf8: Utf8, es: seq<Entry>, e: Entry, ix: seq<nat>)
    requires forall k :: 0 <= k < |ix| ==> ix[k] < |es|
    ensures Decodings(utf8, es + [e], ix) == Decodings(utf8, es, ix) && Failures(utf8, es + [e], ix) == Failures(utf8, es, ix)
  {
    hide ParseExtension;
    if ix != [] {
      DecodingsOfExtended(utf8, es, e, ix[..|ix| - 1]);
    }
  }

  /**
   What is kept are the decodings of the first occurrences, in physical order; the
   warnings are exactly those of the first occurrences that fail, in the same
   order; and the metadata kept is that of the first metadata entry, so that a
   later one never replaces it, not even when the first fails.
   */
  lemma {:induction false} MeaningIsFirstOccurrences(utf8: Utf8, es: seq<Entry>)
    ensures var m := Meaning(utf8, es);
      && m.extensions == Decodings(utf8, es, FirstIndices(es))
      && m.warnings == Failures(utf8, es, FirstIndices(es))
      && m.tokenMetadata == FirstMetadata(utf8, es)
    decreases |es|
  {
    hide ParseExtension, FirstSupported, FirstIndices, Decodings, Failures, FirstMetadata;
    FirstIndicesStep(es);
    DecodingsNone(utf8, es);
    NoMetadata(utf8, []);
    if es != [] {
      var n := |es| - 1;
      MeaningIsFirstOccurrences(utf8, es[..n]);
      var ix := FirstIndices(es[..n]);
      assert es == es[..n] + [es[n]];
      DecodingsOfExtended(utf8, es[..n], es[n], ix);
      DecodingsSnoc(utf8, es, ix, n);
      FirstMetadataSnoc(utf8, es[..n], es[n]);
      KeptMetadata(utf8, es[..n], es[n], Meaning(utf8, es[..n]));
    }
  }

  /** One more entry changes the metadata kept only if it is the first of its type. */
  lemma {:induction false} KeptMetadata(utf8: Utf8, es: seq<Entry>, e: Entry, m: Parsed)
    requires m.tokenMetadata == FirstMetadata(utf8, es)
    ensures (if FirstSupported(es + [e], |es|) then Keep(utf8, m, e) else m).tokenMetadata
         == if Seen(es, TOKEN_METADATA) then FirstMetadata(utf8, es) else FirstMetadata(utf8, [e])
  {
    hide Parse;
    if !Seen(es, TOKEN_METADATA) {
      NoMetadata(utf8, es);
    }
    assert (es + [e])[|es|] == e && forall j :: 0 <= j < |es| ==> (es + [e])[j] == es[j];
    assert [e][1..] == [];
    MetadataOnly(utf8, e);
  }

  lemma {:induction false} NoMetadata(utf8: Utf8, es: seq<Entry>)
    requires !Seen(es, TOKEN_METADATA)
    ensures FirstMetadata(utf8, es) == None
  {
    if es != [] {
      NoMetadata(utf8, es[1..]);
    }
  }

  /** Only a metadata entry yields metadata. */
  lemma MetadataOnly(utf8: Utf8, e: Entry)
    ensures var r := ParseExtension(utf8, e.ty, e.value);
      if e.ty != TOKEN_METADATA then r.Ok? ==> r.value.1.None?
      else match Parse(utf8, e.value) { case Ok(metadata) => r.Ok? && r.value.1 == Some(metadata) case Err(_) => r.Err? }
  {
    hide Parse;
  }

  lemma FirstIndicesStep(es: seq<Entry>)
    ensures FirstIndices(es) ==
      if es == [] then []
      else if FirstSupported(es, |es| - 1) then FirstIndices(es[..|es| - 1]) + [|es| - 1]
      else FirstIndices(es[..|es| - 1])
  {
    hide FirstSupported;
  }

  lemma DecodingsNone(utf8: Utf8, es: seq<Entry>)
    ensures Decodings(utf8, es, []) == [] && Failures(utf8, es, []) == []
  {
  }

  lemma DecodingsSnoc(utf8: Utf8, es: seq<Entry>, ix: seq<nat>, i: nat)
    requires (forall k :: 0 <= k < |ix| ==> ix[k] < |es|) && i < |es|
    ensures Decodings(utf8, es, ix + [i]) == Decodings(utf8, es, ix) +
      match ParseExtension(utf8, es[i].ty, es[i].value) { case Ok((extension, _)) => [extension] case Err(_) => [] }
    ensures Failures(utf8, es, ix + [i]) == Failures(utf8, es, ix) +
      match ParseExtension(utf8, es[i].ty, es[i].value) { case Ok(_) => [] case Err(reason) => [Warning(es[i].ty, reason)] }
  {
    hide ParseExtension;
    assert (ix + [i])[..|ix|] == ix;
  }

  // ----------------------------------------------------------- physical layout

  predicate Encodable(e: Entry) { 0 < e.ty < Pow256(2) && |e.value| < Pow256(2) }

  predicate AllEncodable(es: seq<Entry>) { forall e <- es :: Encodable(e) }

  function EncodeEntry(e: Entry): (bs: seq<Byte>)
    ensures |bs| == 4 + |e.value|
  {
    ToLe(e.ty, 2) + ToLe(|e.value|, 2) + e.value
  }

  function EncodeEntries(es: seq<Entry>): seq<Byte> {
    if es == [] then [] else EncodeEntry(es[0]) + EncodeEntries(es[1..])
  }

  /** An area may end with its last value, or with a whole header whose type is zero. */
  predicate IsEnd(tail: seq<Byte>) {
    tail == [] || (|tail| >= 4 && FromLe(tail[..2]) == 0)
  }

  /** The entries found from `offset`, or why the area is not well formed. */
  function Split(data: seq<Byte>, offset: nat): (r: Result<seq<Entry>>)
    requires offset <= |data|
    decreases |data| - offset
  {
    if offset == |data| then Ok([])
    else if offset + 4 > |data| then Err("truncated Token-2022 extension header")
    else
      var ty := FromLe(data[offset..offset + 2]);
      if ty == 0 then Ok([])
      else
        var len := FromLe(data[offset + 2..offset + 4]);
        if offset + 4 + len > |data| then Err("truncated Token-2022 extension value")
        else
          var rest :- Split(data, offset + 4 + len);
          Ok([Entry(ty, data[offset + 4..offset + 4 + len])] + rest)
  }

  lemma SplitStep(data: seq<Byte>, offset: nat, e: Entry)
    requires Encodable(e) && At(data, offset, EncodeEntry(e))
    ensures Split(data, offset) ==
      match Split(data, offset + 4 + |e.value|) { case Ok(rest) => Ok([e] + rest) case Err(why) => Err(why) }
  {
    AtConcat(data, offset, ToLe(e.ty, 2) + ToLe(|e.value|, 2), e.value);
    AtConcat(data, offset, ToLe(e.ty, 2), ToLe(|e.value|, 2));
    LeRoundTrip(e.ty, 2);
    LeRoundTrip(|e.value|, 2);
  }

  lemma SplitEnd(data: seq<Byte>, offset: nat)
    requires offset <= |data| && IsEnd(data[offset..])
    ensures Split(data, offset) == Ok([])
  {
    hide FromLe;
    if offset < |data| {
      assert data[offset..offset + 2] == data[offset..][..2];
    }
  }

  /** Every well-formed area is accepted, and splits into the entries it was made of. */
  lemma {:induction false} SplitEncoded(data: seq<Byte>, offset: nat, es: seq<Entry>, tail: seq<Byte>)
    requires AllEncodable(es) && IsEnd(tail)
    requires offset <= |data| && data[offset..] == EncodeEntries(es) + tail
    ensures Split(data, offset) == Ok(es)
    decreases |es|
  {
    hide Split, FromLe, ToLe, Pow256, IsEnd, EncodeEntry, Encodable;
    if es == [] {
      assert data[offset..] == tail;
      SplitEnd(data, offset);
    } else {
      var e, rest := es[0], es[1..];
      var more := EncodeEntries(rest) + tail;
      assert data[offset..] == EncodeEntry(e) + more;
      var next := offset + |EncodeEntry(e)|;
      assert At(data, offset, EncodeEntry(e)) && data[next..] == more by {
        SplitSlice(data, offset, EncodeEntry(e), more);
      }
      SplitEncoded(data, next, rest, tail);
      SplitStep(data, offset, e);
      assert es == [e] + rest;
    }
  }

  lemma SplitSlice(data: seq<Byte>, offset: nat, piece: seq<Byte>, more: seq<Byte>)
    requires offset <= |data| && data[offset..] == piece + more
    ensures offset + |piece| <= |data| && At(data, offset, piece) && data[offset + |piece|..] == more
  {
    assert data[offset..][..|piece|] == piece;
    assert data[offset..][|piece|..] == more;
    assert data[offset..offset + |piece|] == data[offset..][..|piece|];
    assert data[offset + |piece|..] == data[offset..][|piece|..];
  }

  /** The first entry of an accepted area is written at its start, and the rest follows it. */
  lemma SplitFirst(data: seq<Byte>, offset: nat) returns (next: nat)
    requires offset <= |data| && Split(data, offset).Ok? && Split(data, offset).value != []
    ensures var es := Split(data, offset).value;
      && offset < next <= |data| && Split(data, next) == Ok(es[1..]) && Encodable(es[0])
      && data[offset..] == EncodeEntry(es[0]) + data[next..]
  {
    hide FromLe, ToLe, Pow256;
    var header, length := data[offset..offset + 2], data[offset + 2..offset + 4];
    next := offset + 4 + FromLe(length);
    LeInverse(header);
    LeInverse(length);
    assert data[offset..] == header + length + data[offset + 4..next] + data[next..];
  }

  lemma SplitNothing(data: seq<Byte>, offset: nat)
    requires offset <= |data| && Split(data, offset) == Ok([])
    ensures IsEnd(data[offset..])
  {
    hide FromLe;
    if offset < |data| {
      assert data[offset..offset + 2] == data[offset..][..2];
    }
  }

  /** Every accepted area is well formed. */
  lemma {:induction false} SplitSound(data: seq<Byte>, offset: nat) returns (tail: seq<Byte>)
    requires offset <= |data| && Split(data, offset).Ok?
    ensures AllEncodable(Split(data, offset).value) && IsEnd(tail)
    ensures data[offset..] == EncodeEntries(Split(data, offset).value) + tail
    decreases |data| - offset
  {
    hide FromLe, EncodeEntry, Encodable;
    var es := Split(data, offset).value;
    if es == [] {
      tail := data[offset..];
      SplitNothing(data, offset);
    } else {
      hide Split, IsEnd;
      var next := SplitFirst(data, offset);
      tail := SplitSound(data, next);
      assert es == [es[0]] + es[1..];
    }
  }

  // ------------------------------------------------------------------ the scan

  /** The declarative outcome for a whole mint account. */
  function ScanResult(utf8: Utf8, data: seq<Byte>): Result<Parsed> {
    if |data| <= TLV_START then Ok(Parsed([], None, []))
    else
      var es :- Split(data, TLV_START);
      Ok(Meaning(utf8, es))
  }

  lemma MeaningOfExtended(utf8: Utf8, es: seq<Entry>, e: Entry)
    ensures Meaning(utf8, es + [e]) ==
      if e.ty in SUPPORTED && !Seen(es, e.ty) then Keep(utf8, Meaning(utf8, es), e) else Meaning(utf8, es)
  {
    hide ParseExtension;
    var all := es + [e];
    assert all[..|es|] == es && all[|es|] == e;
    assert FirstSupported(all, |es|) <==> e.ty in SUPPORTED && !Seen(es, e.ty);
  }

  lemma SplitPrepend(done: seq<Entry>, e: Entry, rest: Result<seq<Entry>>)
    ensures (match (match rest { case Ok(r) => Ok([e] + r) case Err(why) => Err(why) })
             { case Ok(r) => Ok(done + r) case Err(why) => Result<seq<Entry>>.Err(why) })
         == (match rest { case Ok(r) => Ok(done + [e] + r) case Err(why) => Err(why) })
  {
    if rest.Ok? {
      assert done + ([e] + rest.value) == done + [e] + rest.value;
    }
  }

  /** Put the entries already read in front of an outcome. */
  function After(done: seq<Entry>, rest: Result<seq<Entry>>): Result<seq<Entry>> {
    match rest { case Ok(r) => Ok(done + r) case Err(why) => Err(why) }
  }

  /** `parse_token_2022_mint_extensions`: the loop with its set of types already seen. */
  method ParseToken2022MintExtensions(utf8: Utf8, data: seq<Byte>) returns (r: Result<Parsed>)
    ensures r == ScanResult(utf8, data)
  {
    hide ParseExtension, Split, Meaning, FromLe;
    if |data| <= TLV_START {
      return Ok(Parsed([], None, []));
    }
    var offset := TLV_START;
    var seen: set<nat> := {};
    var parsed := Parsed([], None, []);
    ghost var done: seq<Entry> := [];
    assert Meaning(utf8, done) == parsed by { MeaningOfNothing(utf8); }
    AfterNothing(Split(data, offset));
    while offset < |data|
      invariant TLV_START <= offset <= |data|
      invariant After(done, Split(data, offset)) == Split(data, TLV_START)
      invariant parsed == Meaning(utf8, done)
      invariant forall ty: nat :: ty in seen <==> ty in SUPPORTED && Seen(done, ty)
    {
      SplitUnfold(data, offset);
      var headerEnd := offset + 4;
      if headerEnd > |data| {
        return Err("truncated Token-2022 extension header");
      }
      var ty := FromLe(data[offset..offset + 2]);
      if ty == 0 {
        break;
      }
      var valueEnd := headerEnd + FromLe(data[offset + 2..headerEnd]);
      if valueEnd > |data| {
        return Err("truncated Token-2022 extension value");
      }
      var value := data[headerEnd..valueEnd];
      ghost var entry := Entry(ty, value);
      MeaningOfExtended(utf8, done, entry);
      if ty in SUPPORTED && ty !in seen {
        seen := seen + {ty};
        match ParseExtension(utf8, ty, value) {
          case Ok((extension, metadata)) =>
            parsed := parsed.(extensions := parsed.extensions + [extension]);
            if metadata.Some? {
              parsed := parsed.(tokenMetadata := metadata);
            }
          case Err(reason) =>
            parsed := parsed.(warnings := parsed.warnings + [Warning(ty, reason)]);
        }
      }
      SplitPrepend(done, entry, Split(data, valueEnd));
      done := done + [entry];
      offset := valueEnd;
    }
    if offset == |data| {
      SplitUnfold(data, offset);
    }
    assert done + [] == done;
    return Ok(parsed);
  }

  lemma AfterNothing(rest: Result<seq<Entry>>)
    ensures After([], rest) == rest
  {
    if rest.Ok? {
      assert [] + rest.value == rest.value;
    }
  }

  lemma MeaningOfNothing(utf8: Utf8)
    ensures Meaning(utf8, []) == Parsed([], None, [])
  {
  }

  lemma SplitUnfold(data: seq<Byte>, offset: nat)
    requires offset <= |data|
    ensures Split(data, offset) ==
      if offset == |data| then Ok([])
      else if offset + 4 > |data| then Err("truncated Token-2022 extension header")
      else
        var ty := FromLe(data[offset..offset + 2]);
        var len := FromLe(data[offset + 2..offset + 4]);
        if ty == 0 then Ok([])
        else if offset + 4 + len > |data| then Err("truncated Token-2022 extension value")
        else match Split(data, offset + 4 + len) {
          case Ok(rest) => Ok([Entry(ty, data[offset + 4..offset + 4 + len])] + rest)
          case Err(why) => Err(why)
        }
  {
  }

  /** The scan succeeds exactly on well-formed areas, and then returns their meaning. */
  lemma ScanAcceptsExactlyWellFormed(utf8: Utf8, data: seq<Byte>)
    requires |data| > 166
    ensures ScanResult(utf8, data).Ok? <==>
      exists es, tail :: AllEncodable(es) && IsEnd(tail) && data[166..] == EncodeEntries(es) + tail
    ensures forall es, tail :: AllEncodable(es) && IsEnd(tail) && data[166..] == EncodeEntries(es) + tail ==>
      ScanResult(utf8, data) == Ok(Meaning(utf8, es))
  {
    hide Split, Meaning;
    if Split(data, TLV_START).Ok? {
      var tail := SplitSound(data, TLV_START);
    }
    forall es, tail | AllEncodable(es) && IsEnd(tail) && data[TLV_START..] == EncodeEntries(es) + tail
      ensures Split(data, TLV_START) == Ok(es)
    {
      SplitEncoded(data, TLV_START, es, tail);
    }
  }
}
