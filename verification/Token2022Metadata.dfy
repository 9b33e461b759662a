/**
 The length-prefixed Token-2022 metadata value: two public keys, three
 strings, then a counted list of key-value string pairs that is read and
 dropped. UTF-8 validity is left uninterpreted: a predicate on byte strings.
 */
module Token2022Metadata {
  import opened Wrappers
  import opened Bytes

  type Utf8 = seq<Byte> -> bool

  const PUBKEY_SIZE: nat := 32

  datatype Metadata = Metadata(
    updateAuthority: Option<seq<Byte>>,
    mint: seq<Byte>,
    name: seq<Byte>,
    symbol: seq<Byte>,
    uri: seq<Byte>)

  // ------------------------------------------------ one read at an offset

  function ExactAt(data: seq<Byte>, offset: nat, len: nat): (r: Result<(seq<Byte>, nat)>)
    ensures r.Ok? <==> offset + len <= |data|
    ensures r.Ok? ==> r.value == (data[offset..offset + len], offset + len)
  {
    if offset + len <= |data| then Ok((data[offset..offset + len], offset + len))
    else Err("truncated Token-2022 metadata")
  }

  function U32At(data: seq<Byte>, offset: nat): (r: Result<(nat, nat)>)
    ensures r.Ok? ==> r.value.1 == offset + 4 <= |data|
  {
    var (bytes, next) :- ExactAt(data, offset, 4);
    Ok((FromLe(bytes), next))
  }

  function StringAt(utf8: Utf8, data: seq<Byte>, offset: nat): (r: Result<(seq<Byte>, nat)>)
    ensures r.Ok? ==> offset + 4 <= r.value.1 <= |data|
  {
    var (len, start) :- U32At(data, offset);
    var (bytes, next) :- ExactAt(data, start, len);
    if utf8(bytes) then Ok((bytes, next)) else Err("Token-2022 metadata contains invalid UTF-8")
  }

  /** Skip `n` key-value pairs. */
  function PairsAt(utf8: Utf8, data: seq<Byte>, offset: nat, n: nat): (r: Result<nat>)
    // A pair is at least two length words, so a successful skip pays eight bytes for each:
    // whatever the length guard refuses, the loop would have refused as well.
    ensures r.Ok? ==> offset + 8 * n <= r.value && (offset <= |data| ==> r.value <= |data|)
    decreases n
  {
    if n == 0 then Ok(offset)
    else
      var (_, next) :- StringAt(utf8, data, offset);
      var (_, next) :- StringAt(utf8, data, next);
      PairsAt(utf8, data, next, n - 1)
  }

  function Authority(key: seq<Byte>): Option<seq<Byte>> {
    if key == Zeros(PUBKEY_SIZE) then None else Some(key)
  }

  /** The counted list of additional pairs, with the guard on its count. */
  function AdditionalAt(utf8: Utf8, data: seq<Byte>, offset: nat): (r: Result<nat>)
    ensures r.Ok? ==> r.value <= |data|
  {
    var (pairs, start) :- U32At(data, offset);
    if pairs > (|data| - start) / 8 then Err("invalid Token-2022 additional metadata length")
    else PairsAt(utf8, data, start, pairs)
  }

  /** The parsed value and the offset at which parsing stopped. */
  function ParseFrom(utf8: Utf8, data: seq<Byte>): (r: Result<(Metadata, nat)>)
    ensures r.Ok? ==> r.value.1 <= |data|
  {
    var (authority, o1) :- ExactAt(data, 0, PUBKEY_SIZE);
    var (mint, o2) :- ExactAt(data, o1, PUBKEY_SIZE);
    var (name, o3) :- StringAt(utf8, data, o2);
    var (symbol, o4) :- StringAt(utf8, data, o3);
    var (uri, o5) :- StringAt(utf8, data, o4);
    var end :- AdditionalAt(utf8, data, o5);
    Ok((Metadata(Authority(authority), mint, name, symbol, uri), end))
  }

  function Parse(utf8: Utf8, data: seq<Byte>): Result<Metadata> {
    var (metadata, _) :- ParseFrom(utf8, data);
    Ok(metadata)
  }

  // ------------------------------------------------------------ the reader

  class Token2022MetadataReader {
    const utf8: Utf8
    const data: seq<Byte>
    var offset: nat

    constructor (utf8: Utf8, data: seq<Byte>)
      ensures this.utf8 == utf8 && this.data == data && offset == 0
    {
      this.utf8, this.data, this.offset := utf8, data, 0;
    }

    method ReadExact(len: nat) returns (r: Result<seq<Byte>>)
      modifies this
      ensures match ExactAt(data, old(offset), len)
        case Ok((value, next)) => r == Ok(value) && offset == next
        case Err(e) => r == Err(e) && offset == old(offset)
    {
      var end := offset + len;
      if end > |data| {
        return Err("truncated Token-2022 metadata");
      }
      var value := data[offset..end];
      offset := end;
      return Ok(value);
    }

    method ReadU32() returns (r: Result<nat>)
      modifies this
      ensures match U32At(data, old(offset))
        case Ok((value, next)) => r == Ok(value) && offset == next
        case Err(e) => r == Err(e)
    {
      var bytes :- ReadExact(4);
      return Ok(FromLe(bytes));
    }

    method ReadString() returns (r: Result<seq<Byte>>)
      modifies this
      ensures match StringAt(utf8, data, old(offset))
        case Ok((value, next)) => r == Ok(value) && offset == next
        case Err(e) => r == Err(e)
    {
      var len :- ReadU32();
      var bytes :- ReadExact(len);
      if !utf8(bytes) {
        return Err("Token-2022 metadata contains invalid UTF-8");
      }
      return Ok(bytes);
    }

    /** The loop over the additional key-value pairs. */
    method SkipPairs(pairs: nat) returns (r: Result<()>)
      modifies this
      ensures match PairsAt(utf8, data, old(offset), pairs)
        case Ok(next) => r == Ok(()) && offset == next
        case Err(e) => r == Err(e)
    {
      hide StringAt;
      for i := 0 to pairs
        invariant PairsAt(utf8, data, old(offset), pairs) == PairsAt(utf8, data, offset, pairs - i)
      {
        var _ :- ReadString();
        var _ :- ReadString();
      }
      return Ok(());
    }

    method SkipAdditionalMetadata() returns (r: Result<()>)
      modifies this
      ensures match AdditionalAt(utf8, data, old(offset))
        case Ok(next) => r == Ok(()) && offset == next
        case Err(e) => r == Err(e)
    {
      hide PairsAt;
      var pairs :- ReadU32();
      if pairs > (|data| - offset) / 8 {
        return Err("invalid Token-2022 additional metadata length");
      }
      var _ :- SkipPairs(pairs);
      return Ok(());
    }
  }

  method ParseToken2022MetadataValue(utf8: Utf8, data: seq<Byte>) returns (r: Result<Metadata>)
    ensures r == Parse(utf8, data)
  {
    hide ExactAt, StringAt, AdditionalAt, Authority;
    var reader := new Token2022MetadataReader(utf8, data);
    var authority :- reader.ReadExact(PUBKEY_SIZE);
    var mint :- reader.ReadExact(PUBKEY_SIZE);
    var name :- reader.ReadString();
    var symbol :- reader.ReadString();
    var uri :- reader.ReadString();
    var _ :- reader.SkipAdditionalMetadata();
    return Ok(Metadata(Authority(authority), mint, name, symbol, uri));
  }

  // -------------------------------------------------------------- encoding

  predicate EncodableString(utf8: Utf8, s: seq<Byte>) { |s| < Pow256(4) && utf8(s) }

  predicate EncodablePairs(utf8: Utf8, pairs: seq<(seq<Byte>, seq<Byte>)>) {
    forall p <- pairs :: EncodableString(utf8, p.0) && EncodableString(utf8, p.1)
  }

  /** Values with one encoding: an all-zero authority is written for `None` only. */
  predicate Canonical(utf8: Utf8, m: Metadata) {
    && (m.updateAuthority.Some? ==> |m.updateAuthority.value| == PUBKEY_SIZE && m.updateAuthority.value != Zeros(PUBKEY_SIZE))
    && |m.mint| == PUBKEY_SIZE
    && EncodableString(utf8, m.name) && EncodableString(utf8, m.symbol) && EncodableString(utf8, m.uri)
  }

  function EncodeString(s: seq<Byte>): (bs: seq<Byte>)
    ensures |bs| == 4 + |s|
  {
    ToLe(|s|, 4) + s
  }

  function EncodePairs(pairs: seq<(seq<Byte>, seq<Byte>)>): (bs: seq<Byte>)
    ensures |bs| >= 8 * |pairs|
  {
    if pairs == [] then [] else EncodeString(pairs[0].0) + EncodeString(pairs[0].1) + EncodePairs(pairs[1..])
  }

  function EncodeKeys(m: Metadata): seq<Byte> { m.updateAuthority.GetOr(Zeros(PUBKEY_SIZE)) + m.mint }

  function Encode(m: Metadata, pairs: seq<(seq<Byte>, seq<Byte>)>): seq<Byte> {
    EncodeKeys(m) + EncodeString(m.name) + EncodeString(m.symbol) + EncodeString(m.uri) + ToLe(|pairs|, 4) + EncodePairs(pairs)
  }

  /** `part` is found in `data` at `offset`. */
  predicate At(data: seq<Byte>, offset: nat, part: seq<Byte>) {
    offset + |part| <= |data| && data[offset..offset + |part|] == part
  }

  lemma AtConcat(data: seq<Byte>, offset: nat, a: seq<Byte>, b: seq<Byte>)
    requires At(data, offset, a + b)
    ensures At(data, offset, a) && At(data, offset + |a|, b)
  {
    var whole := data[offset..offset + |a + b|];
    assert data[offset..offset + |a|] == whole[..|a|] == a;
    assert data[offset + |a|..offset + |a| + |b|] == whole[|a|..] == b;
  }

  lemma U32AtEncoded(data: seq<Byte>, offset: nat, n: nat)
    requires n < Pow256(4) && At(data, offset, ToLe(n, 4))
    ensures U32At(data, offset) == Ok((n, offset + 4))
  {
    LeRoundTrip(n, 4);
  }

  lemma StringAtEncoded(utf8: Utf8, data: seq<Byte>, offset: nat, s: seq<Byte>)
    requires EncodableString(utf8, s) && At(data, offset, EncodeString(s))
    ensures StringAt(utf8, data, offset) == Ok((s, offset + |EncodeString(s)|))
  {
    AtConcat(data, offset, ToLe(|s|, 4), s);
    U32AtEncoded(data, offset, |s|);
  }

  lemma {:induction false} SkipEncodedPairs(utf8: Utf8, data: seq<Byte>, offset: nat, pairs: seq<(seq<Byte>, seq<Byte>)>)
    requires EncodablePairs(utf8, pairs) && At(data, offset, EncodePairs(pairs))
    ensures PairsAt(utf8, data, offset, |pairs|) == Ok(offset + |EncodePairs(pairs)|)
    decreases |pairs|
  {
    hide StringAt, EncodeString;
    if pairs != [] {
      var (k, v) := pairs[0];
      AtConcat(data, offset, EncodeString(k) + EncodeString(v), EncodePairs(pairs[1..]));
      AtConcat(data, offset, EncodeString(k), EncodeString(v));
      StringAtEncoded(utf8, data, offset, k);
      StringAtEncoded(utf8, data, offset + |EncodeString(k)|, v);
      SkipEncodedPairs(utf8, data, offset + |EncodeString(k)| + |EncodeString(v)|, pairs[1..]);
    }
  }

  lemma AdditionalAtEncoded(utf8: Utf8, data: seq<Byte>, offset: nat, pairs: seq<(seq<Byte>, seq<Byte>)>)
    requires EncodablePairs(utf8, pairs) && |pairs| < Pow256(4)
    requires At(data, offset, ToLe(|pairs|, 4)) && At(data, offset + 4, EncodePairs(pairs))
    ensures AdditionalAt(utf8, data, offset) == Ok(offset + 4 + |EncodePairs(pairs)|)
  {
    hide U32At, PairsAt, EncodePairs, EncodablePairs, ToLe, Pow256;
    U32AtEncoded(data, offset, |pairs|);
    SkipEncodedPairs(utf8, data, offset + 4, pairs);
  }

  /** Parsing a buffer that holds the six fields and the pairs one after the other. */
  lemma ParseFields(utf8: Utf8, data: seq<Byte>, m: Metadata, pairs: seq<(seq<Byte>, seq<Byte>)>)
    requires Canonical(utf8, m) && EncodablePairs(utf8, pairs) && |pairs| < Pow256(4)
    requires At(data, 0, EncodeKeys(m))
    requires var o3 := |EncodeKeys(m)|;
      var o4 := o3 + |EncodeString(m.name)|;
      var o5 := o4 + |EncodeString(m.symbol)|;
      var o6 := o5 + |EncodeString(m.uri)|;
      && At(data, o3, EncodeString(m.name)) && At(data, o4, EncodeString(m.symbol)) && At(data, o5, EncodeString(m.uri))
      && At(data, o6, ToLe(|pairs|, 4)) && At(data, o6 + 4, EncodePairs(pairs))
    ensures ParseFrom(utf8, data) == Ok((m, |Encode(m, pairs)|))
  {
    hide StringAt, AdditionalAt, Pow256, FromLe, ToLe, EncodablePairs, EncodableString, EncodeString, EncodePairs;
    AtConcat(data, 0, m.updateAuthority.GetOr(Zeros(PUBKEY_SIZE)), m.mint);
    var o3 := |EncodeKeys(m)|;
    var o4 := o3 + |EncodeString(m.name)|;
    var o5 := o4 + |EncodeString(m.symbol)|;
    var o6 := o5 + |EncodeString(m.uri)|;
    StringAtEncoded(utf8, data, o3, m.name);
    StringAtEncoded(utf8, data, o4, m.symbol);
    StringAtEncoded(utf8, data, o5, m.uri);
    AdditionalAtEncoded(utf8, data, o6, pairs);
  }

  /** The length guard accepts every encoding, and parsing stops exactly at its end. */
  lemma ParseEncodedFrom(utf8: Utf8, m: Metadata, pairs: seq<(seq<Byte>, seq<Byte>)>, tail: seq<Byte>)
    requires Canonical(utf8, m) && EncodablePairs(utf8, pairs) && |pairs| < Pow256(4)
    ensures ParseFrom(utf8, Encode(m, pairs) + tail) == Ok((m, |Encode(m, pairs)|))
  {
    hide ParseFrom, EncodeString, EncodePairs, ToLe, Canonical;
    var data := Encode(m, pairs) + tail;
    var keys, name, symbol, uri, count, rest :=
      EncodeKeys(m), EncodeString(m.name), EncodeString(m.symbol), EncodeString(m.uri), ToLe(|pairs|, 4), EncodePairs(pairs);
    assert At(data, 0, keys + name + symbol + uri + count + rest);
    AtConcat(data, 0, keys + name + symbol + uri + count, rest);
    AtConcat(data, 0, keys + name + symbol + uri, count);
    AtConcat(data, 0, keys + name + symbol, uri);
    AtConcat(data, 0, keys + name, symbol);
    AtConcat(data, 0, keys, name);
    ParseFields(utf8, data, m, pairs);
  }

  /** Round trip with any tail: what was written is what is read. */
  lemma ParseEncoded(utf8: Utf8, m: Metadata, pairs: seq<(seq<Byte>, seq<Byte>)>, tail: seq<Byte>)
    requires Canonical(utf8, m) && EncodablePairs(utf8, pairs) && |pairs| < Pow256(4)
    ensures Parse(utf8, Encode(m, pairs) + tail) == Ok(m)
  {
    hide ParseFrom, Encode;
    ParseEncodedFrom(utf8, m, pairs, tail);
  }

  // ----------------------------------------------------- prefixes and guard

  lemma StringAtOfPrefix(utf8: Utf8, data: seq<Byte>, k: nat, offset: nat)
    requires k <= |data|
    ensures var r := StringAt(utf8, data[..k], offset);
      r.Ok? ==> StringAt(utf8, data, offset) == r && r.value.1 <= k
  {
    var r := U32At(data[..k], offset);
    if r.Ok? {
      assert data[..k][offset..offset + 4] == data[offset..offset + 4];
      var (len, start) := r.value;
      if start + len <= k {
        assert data[..k][start..start + len] == data[start..start + len];
      }
    }
  }

  lemma {:induction false} SkipPairsOfPrefix(utf8: Utf8, data: seq<Byte>, k: nat, offset: nat, n: nat)
    requires offset <= k <= |data|
    ensures var r := PairsAt(utf8, data[..k], offset, n);
      r.Ok? ==> PairsAt(utf8, data, offset, n) == r && r.value <= k
    decreases n
  {
    hide StringAt;
    if n > 0 {
      StringAtOfPrefix(utf8, data, k, offset);
      var r := StringAt(utf8, data[..k], offset);
      if r.Ok? {
        StringAtOfPrefix(utf8, data, k, r.value.1);
        var r' := StringAt(utf8, data[..k], r.value.1);
        if r'.Ok? {
          SkipPairsOfPrefix(utf8, data, k, r'.value.1, n - 1);
        }
      }
    }
  }

  lemma AdditionalOfPrefix(utf8: Utf8, data: seq<Byte>, k: nat, offset: nat)
    requires k <= |data|
    ensures var r := AdditionalAt(utf8, data[..k], offset);
      r.Ok? ==> AdditionalAt(utf8, data, offset) == r
  {
    hide PairsAt, FromLe;
    var cut := data[..k];
    if AdditionalAt(utf8, cut, offset).Ok? {
      assert cut[offset..offset + 4] == data[offset..offset + 4];
      var (pairs, start) := U32At(cut, offset).value;
      SkipPairsOfPrefix(utf8, data, k, start, pairs);
    }
  }

  /** A value accepted on a prefix is the value accepted on the whole. */
  lemma ParseOfPrefix(utf8: Utf8, data: seq<Byte>, k: nat)
    requires k <= |data|
    ensures var r := ParseFrom(utf8, data[..k]);
      r.Ok? ==> ParseFrom(utf8, data) == r
  {
    hide StringAt, AdditionalAt, Authority;
    var cut := data[..k];
    var r := ParseFrom(utf8, cut);
    if r.Ok? {
      assert cut[0..32] == data[0..32] && cut[32..64] == data[32..64];
      StringAtOfPrefix(utf8, data, k, 64);
      var o3 := StringAt(utf8, cut, 64).value.1;
      StringAtOfPrefix(utf8, data, k, o3);
      var o4 := StringAt(utf8, cut, o3).value.1;
      StringAtOfPrefix(utf8, data, k, o4);
      var o5 := StringAt(utf8, cut, o4).value.1;
      AdditionalOfPrefix(utf8, data, k, o5);
    }
  }

  /** Prefix code: no strict prefix of an encoding is accepted. */
  lemma StrictPrefixRejected(utf8: Utf8, m: Metadata, pairs: seq<(seq<Byte>, seq<Byte>)>, k: nat)
    requires Canonical(utf8, m) && EncodablePairs(utf8, pairs) && |pairs| < Pow256(4)
    requires k < |Encode(m, pairs)|
    ensures Parse(utf8, Encode(m, pairs)[..k]).Err?
  {
    hide ParseFrom, Encode;
    ParseEncodedFrom(utf8, m, pairs, []);
    assert Encode(m, pairs) + [] == Encode(m, pairs);
    ParseOfPrefix(utf8, Encode(m, pairs), k);
  }
}
