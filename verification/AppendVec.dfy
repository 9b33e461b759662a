/**
 The AccountsDb storage file: a buffer of account records, each a 48-byte
 `StoredMeta`, a 56-byte `AccountMeta`, a 32-byte hash and the account data,
 every piece starting on an 8-byte boundary.
 */
module AppendVecs {
  import opened Wrappers
  import opened Bytes

  const ALIGN_BOUNDARY_OFFSET: nat := 8
  const STORED_META_SIZE: nat := 48
  const ACCOUNT_META_SIZE: nat := 56
  const HASH_SIZE: nat := 32
  const HEADER_SIZE: nat := STORED_META_SIZE + ACCOUNT_META_SIZE + HASH_SIZE

  /** One past the largest `usize`. */
  const USIZE_LIMIT: nat := 0x1_0000_0000_0000_0000

  datatype StoredMeta = StoredMeta(writeVersion: nat, dataLen: nat, pubkey: seq<Byte>)
  datatype AccountMeta = AccountMeta(lamports: nat, rentEpoch: nat, owner: seq<Byte>, executable: bool)

  /** The content of one account, without its position in a buffer. */
  datatype Account = Account(meta: StoredMeta, accountMeta: AccountMeta, hash: seq<Byte>, data: seq<Byte>)

  /** What the storage hands out: the account and where it was found. */
  datatype StoredAccountMeta = StoredAccountMeta(account: Account, offset: nat, storedSize: nat)

  /** `mmap` may be longer than the part in use, whose length is `currentLen`. */
  datatype AppendVec = AppendVec(mmap: seq<Byte>, currentLen: nat) {
    predicate Valid() { currentLen <= |mmap| < USIZE_LIMIT - ALIGN_BOUNDARY_OFFSET }
    function Len(): nat { currentLen }
  }

  function U64Align(addr: nat): (r: nat)
    ensures addr <= r < addr + 8
    ensures r % 8 == 0
  {
    (addr + (ALIGN_BOUNDARY_OFFSET - 1)) / ALIGN_BOUNDARY_OFFSET * ALIGN_BOUNDARY_OFFSET
  }

  /** `usize` addition that wraps, with the overflow flag. */
  function OverflowingAdd(a: nat, b: nat): (nat, bool) {
    ((a + b) % USIZE_LIMIT, a + b >= USIZE_LIMIT)
  }

  function GetSlice(av: AppendVec, offset: nat, size: nat): (r: Option<(seq<Byte>, nat)>)
    requires av.Valid() && offset < USIZE_LIMIT && size < USIZE_LIMIT
    // The wrapped sum never admits a slice that the true sum would refuse.
    ensures r.Some? <==> offset + size <= av.Len()
    ensures r.Some? ==> |r.value.0| == size && offset + size <= r.value.1 < offset + size + 8
    ensures r.Some? ==> r.value.1 % 8 == 0
  {
    var (next, overflow) := OverflowingAdd(offset, size);
    if overflow || next > av.Len() then None
    else Some((av.mmap[offset..next], U64Align(next)))
  }

  function DecodeStoredMeta(bs: seq<Byte>): (m: StoredMeta)
    requires |bs| == STORED_META_SIZE
    ensures m.dataLen < USIZE_LIMIT
  {
    assert Pow256(8) == USIZE_LIMIT;
    StoredMeta(FromLe(bs[0..8]), FromLe(bs[8..16]), bs[16..48])
  }

  function DecodeAccountMeta(bs: seq<Byte>): AccountMeta
    requires |bs| == ACCOUNT_META_SIZE
  {
    AccountMeta(FromLe(bs[0..8]), FromLe(bs[8..16]), bs[16..48], bs[48] != 0)
  }

  /** The account at `offset` and the offset of its successor. */
  function GetAccount(av: AppendVec, offset: nat): (r: Option<(StoredAccountMeta, nat)>)
    requires av.Valid() && offset < USIZE_LIMIT
    ensures r.Some? ==> offset + 136 <= r.value.1 <= av.Len() + 8
    ensures r.Some? ==> r.value.1 % 8 == 0
    ensures r.Some? ==> r.value.0.offset == offset && offset + r.value.0.storedSize == r.value.1
    ensures r.Some? ==> offset + 136 + |r.value.0.account.data| <= av.Len()
  {
    match GetSlice(av, offset, STORED_META_SIZE)
    case None => None
    case Some((metaBytes, next0)) =>
      match GetSlice(av, next0, ACCOUNT_META_SIZE)
      case None => None
      case Some((accountBytes, next1)) =>
        match GetSlice(av, next1, HASH_SIZE)
        case None => None
        case Some((hash, next2)) =>
          var meta := DecodeStoredMeta(metaBytes);
          match GetSlice(av, next2, meta.dataLen)
          case None => None
          case Some((data, next3)) =>
            Some((StoredAccountMeta(Account(meta, DecodeAccountMeta(accountBytes), hash, data), offset, next3 - offset), next3))
  }

  /** Every account reachable from `offset`, in storage order. */
  function Walk(av: AppendVec, offset: nat): (accounts: seq<StoredAccountMeta>)
    requires av.Valid() && offset < USIZE_LIMIT
    decreases av.Len() + ALIGN_BOUNDARY_OFFSET - offset
  {
    match GetAccount(av, offset)
    case None => []
    case Some((account, next)) => [account] + Walk(av, next)
  }

  // ---------------------------------------------------------------- encoding

  /** An account whose fields fit the on-disk widths. */
  predicate Encodable(a: Account) {
    && a.meta.writeVersion < Pow256(8)
    && a.meta.dataLen == |a.data| < Pow256(8)
    && |a.meta.pubkey| == 32
    && a.accountMeta.lamports < Pow256(8)
    && a.accountMeta.rentEpoch < Pow256(8)
    && |a.accountMeta.owner| == 32
    && |a.hash| == HASH_SIZE
  }

  function Padding(n: nat): seq<Byte> { Zeros(U64Align(n) - n) }

  function EncodeStoredMeta(m: StoredMeta): (bs: seq<Byte>)
    requires |m.pubkey| == 32
    ensures |bs| == STORED_META_SIZE
  {
    ToLe(m.writeVersion, 8) + ToLe(m.dataLen, 8) + m.pubkey
  }

  function EncodeAccountMeta(m: AccountMeta): (bs: seq<Byte>)
    requires |m.owner| == 32
    ensures |bs| == ACCOUNT_META_SIZE
  {
    ToLe(m.lamports, 8) + ToLe(m.rentEpoch, 8) + m.owner + [if m.executable then 1 else 0] + Zeros(7)
  }

  function EncodeHeader(a: Account): (bs: seq<Byte>)
    requires Encodable(a)
    ensures |bs| == HEADER_SIZE
  {
    EncodeStoredMeta(a.meta) + EncodeAccountMeta(a.accountMeta) + a.hash
  }

  function EncodeAccount(a: Account): (bs: seq<Byte>)
    requires Encodable(a)
    ensures |bs| == U64Align(136 + |a.data|) && |bs| % 8 == 0
  {
    EncodeHeader(a) + a.data + Padding(HEADER_SIZE + |a.data|)
  }

  function Encode(accounts: seq<Account>): (bs: seq<Byte>)
    requires forall a <- accounts :: Encodable(a)
    ensures |bs| % 8 == 0
  {
    if accounts == [] then [] else EncodeAccount(accounts[0]) + Encode(accounts[1..])
  }

  function Contents(accounts: seq<StoredAccountMeta>): (r: seq<Account>)
    ensures |r| == |accounts|
  {
    seq(|accounts|, i requires 0 <= i < |accounts| => accounts[i].account)
  }

  lemma StoredMetaRoundTrip(m: StoredMeta)
    requires m.writeVersion < Pow256(8) && m.dataLen < Pow256(8) && |m.pubkey| == 32
    ensures DecodeStoredMeta(EncodeStoredMeta(m)) == m
  {
    hide FromLe, ToLe, Pow256, Zeros;
    var bs := EncodeStoredMeta(m);
    LeRoundTrip(m.writeVersion, 8);
    LeRoundTrip(m.dataLen, 8);
    assert bs[0..8] == ToLe(m.writeVersion, 8);
    assert bs[8..16] == ToLe(m.dataLen, 8);
    assert bs[16..48] == m.pubkey;
  }

  lemma AccountMetaRoundTrip(m: AccountMeta)
    requires m.lamports < Pow256(8) && m.rentEpoch < Pow256(8) && |m.owner| == 32
    ensures DecodeAccountMeta(EncodeAccountMeta(m)) == m
  {
    hide FromLe, ToLe, Pow256, Zeros;
    var bs := EncodeAccountMeta(m);
    LeRoundTrip(m.lamports, 8);
    LeRoundTrip(m.rentEpoch, 8);
    assert bs[0..8] == ToLe(m.lamports, 8);
    assert bs[8..16] == ToLe(m.rentEpoch, 8);
    assert bs[16..48] == m.owner;
  }

  /** Alignment is relative to any aligned base. */
  lemma AlignFromBase(base: nat, n: nat)
    requires base % ALIGN_BOUNDARY_OFFSET == 0
    ensures U64Align(base + n) == base + U64Align(n)
  {
  }

  lemma HeaderRoundTrip(a: Account)
    requires Encodable(a)
    ensures var header := EncodeHeader(a);
      && DecodeStoredMeta(header[0..48]) == a.meta
      && DecodeAccountMeta(header[48..104]) == a.accountMeta
      && header[104..136] == a.hash
  {
    StoredMetaRoundTrip(a.meta);
    AccountMetaRoundTrip(a.accountMeta);
    var header := EncodeHeader(a);
    assert header[0..48] == EncodeStoredMeta(a.meta);
    assert header[48..104] == EncodeAccountMeta(a.accountMeta);
  }

  lemma SubSlice<T>(s: seq<T>, base: nat, len: nat, lo: nat, hi: nat)
    requires lo <= hi <= len && base + len <= |s|
    ensures s[base + lo..base + hi] == s[base..base + len][lo..hi]
  {
    var piece := s[base..base + len];
    var x, y := s[base + lo..base + hi], piece[lo..hi];
    forall i | 0 <= i < |x| ensures x[i] == y[i] {
      assert x[i] == s[base + lo + i] == piece[lo + i];
    }
    assert x == y;
  }

  lemma SliceAt(av: AppendVec, offset: nat, size: nat)
    requires av.Valid() && offset + size <= av.Len()
    ensures GetSlice(av, offset, size) == Some((av.mmap[offset..offset + size], U64Align(offset + size)))
  {
    hide U64Align;
  }

  /** One record, wherever it stands in the buffer, decodes to itself and leads to its successor. */
  lemma RecordRoundTrip(av: AppendVec, offset: nat, a: Account)
    requires av.Valid() && Encodable(a)
    requires offset % ALIGN_BOUNDARY_OFFSET == 0
    requires offset + HEADER_SIZE + |a.data| <= av.Len()
    requires av.mmap[offset..offset + HEADER_SIZE] == EncodeHeader(a)
    requires av.mmap[offset + HEADER_SIZE..offset + HEADER_SIZE + |a.data|] == a.data
    ensures var r := GetAccount(av, offset);
      r.Some? && r.value.0.account == a && r.value.1 == offset + U64Align(HEADER_SIZE + |a.data|)
  {
    hide FromLe, ToLe, Pow256, U64Align, DecodeStoredMeta, DecodeAccountMeta, EncodeHeader, GetSlice;
    HeaderRoundTrip(a);
    SliceAt(av, offset, 48);
    SliceAt(av, offset + 48, 56);
    SliceAt(av, offset + 104, 32);
    SliceAt(av, offset + 136, |a.data|);
    SubSlice(av.mmap, offset, HEADER_SIZE, 0, 48);
    SubSlice(av.mmap, offset, HEADER_SIZE, 48, 104);
    SubSlice(av.mmap, offset, HEADER_SIZE, 104, 136);
    AlignFromBase(offset, 48);
    AlignFromBase(offset, 104);
    AlignFromBase(offset, 136);
    AlignFromBase(offset, HEADER_SIZE + |a.data|);
    assert GetSlice(av, offset, 48) == Some((EncodeHeader(a)[0..48], offset + 48));
    assert GetSlice(av, offset + 48, 56) == Some((EncodeHeader(a)[48..104], offset + 104));
    assert GetSlice(av, offset + 104, 32) == Some((EncodeHeader(a)[104..136], offset + 136));
  }

  /** Walking an encoded list from where it starts returns exactly that list. */
  lemma {:induction false} WalkEncoded(before: seq<Byte>, accounts: seq<Account>)
    requires forall a <- accounts :: Encodable(a)
    requires |before| % ALIGN_BOUNDARY_OFFSET == 0
    requires |before + Encode(accounts)| < USIZE_LIMIT - ALIGN_BOUNDARY_OFFSET
    ensures var bytes := before + Encode(accounts);
      Contents(Walk(AppendVec(bytes, |bytes|), |before|)) == accounts
    decreases |accounts|
  {
    hide GetAccount, EncodeHeader, Encodable, U64Align;
    var bytes := before + Encode(accounts);
    var av := AppendVec(bytes, |bytes|);
    if accounts == [] {
    } else {
      var a, rest := accounts[0], accounts[1..];
      var before' := before + EncodeAccount(a);
      assert bytes == before' + Encode(rest);
      assert bytes[|before|..|before| + HEADER_SIZE] == EncodeHeader(a);
      assert bytes[|before| + HEADER_SIZE..|before| + HEADER_SIZE + |a.data|] == a.data;
      RecordRoundTrip(av, |before|, a);
      WalkEncoded(before', rest);
      assert accounts == [a] + rest;
    }
  }

  /** Round trip: the walk over the encoding of any account list returns that list. */
  lemma EncodeWalkRoundTrip(accounts: seq<Account>)
    requires forall a <- accounts :: Encodable(a)
    requires |Encode(accounts)| < USIZE_LIMIT - ALIGN_BOUNDARY_OFFSET
    ensures Contents(Walk(AppendVec(Encode(accounts), |Encode(accounts)|), 0)) == accounts
  {
    WalkEncoded([], accounts);
    assert [] + Encode(accounts) == Encode(accounts);
  }

  // ---------------------------------------------------- arbitrary buffers

  /** The least multiple of 8 not below a number. */
  predicate IsNextMultipleOf8(n: nat, r: nat) { r % 8 == 0 && n <= r && forall q: nat :: n <= q < r ==> q % 8 != 0 }

  lemma AlignIsNextMultiple(n: nat)
    ensures IsNextMultipleOf8(n, U64Align(n))
  {
    hide U64Align;
  }

  /** The account at an aligned offset ends at the next multiple of 8 behind its header and its data. */
  lemma AccountEnds(av: AppendVec, offset: nat)
    requires av.Valid() && offset < USIZE_LIMIT && offset % 8 == 0 && GetAccount(av, offset).Some?
    ensures var (account, next) := GetAccount(av, offset).value;
      next == offset + account.storedSize && IsNextMultipleOf8(offset + 136 + |account.account.data|, next)
  {
    hide U64Align, DecodeStoredMeta, DecodeAccountMeta, GetSlice, IsNextMultipleOf8;
    SliceAt(av, offset, 48);
    AlignFromBase(offset, 48);
    SliceAt(av, offset + 48, 56);
    AlignFromBase(offset, 104);
    SliceAt(av, offset + 104, 32);
    AlignFromBase(offset, 136);
    var size := |GetAccount(av, offset).value.0.account.data|;
    SliceAt(av, offset + 136, size);
    AlignIsNextMultiple(offset + 136 + size);
  }

  /** The four pieces of an account, each behind the one before it. */
  lemma AccountPieces(av: AppendVec, offset: nat)
    requires av.Valid() && offset < USIZE_LIMIT && offset % 8 == 0 && GetAccount(av, offset).Some?
    ensures offset + 136 <= av.Len()
    ensures var a := GetAccount(av, offset).value.0.account;
      && a.meta == DecodeStoredMeta(av.mmap[offset..offset + 48]) && a.accountMeta == DecodeAccountMeta(av.mmap[offset + 48..offset + 104])
      && a.hash == av.mmap[offset + 104..offset + 136]
      && offset + 136 + a.meta.dataLen <= av.Len() && a.data == av.mmap[offset + 136..offset + 136 + a.meta.dataLen]
  {
    hide U64Align, DecodeStoredMeta, DecodeAccountMeta, GetSlice;
    SliceAt(av, offset, 48);
    AlignFromBase(offset, 48);
    SliceAt(av, offset + 48, 56);
    AlignFromBase(offset, 104);
    SliceAt(av, offset + 104, 32);
    AlignFromBase(offset, 136);
    SliceAt(av, offset + 136, GetAccount(av, offset).value.0.account.meta.dataLen);
  }

  /** Where its fields stand, byte by byte. */
  lemma AccountLayout(av: AppendVec, offset: nat)
    requires av.Valid() && offset < USIZE_LIMIT && offset % 8 == 0 && GetAccount(av, offset).Some?
    ensures offset + 136 <= av.Len()
    ensures var a := GetAccount(av, offset).value.0.account;
      && a.meta.writeVersion == FromLe(av.mmap[offset..offset + 8]) && a.meta.dataLen == FromLe(av.mmap[offset + 8..offset + 16])
      && a.meta.pubkey == av.mmap[offset + 16..offset + 48]
      && a.accountMeta.lamports == FromLe(av.mmap[offset + 48..offset + 56]) && a.accountMeta.rentEpoch == FromLe(av.mmap[offset + 56..offset + 64])
      && a.accountMeta.owner == av.mmap[offset + 64..offset + 96] && (a.accountMeta.executable <==> av.mmap[offset + 96] != 0)
      && a.hash == av.mmap[offset + 104..offset + 136]
      && offset + 136 + a.meta.dataLen <= av.Len() && a.data == av.mmap[offset + 136..offset + 136 + a.meta.dataLen]
  {
    hide GetAccount, FromLe;
    AccountPieces(av, offset);
    PieceOf(av.mmap, offset, 48, 0, 8);
    PieceOf(av.mmap, offset, 48, 8, 16);
    PieceOf(av.mmap, offset, 48, 16, 48);
    PieceOf(av.mmap, offset + 48, 56, 0, 8);
    PieceOf(av.mmap, offset + 48, 56, 8, 16);
    PieceOf(av.mmap, offset + 48, 56, 16, 48);
  }

  lemma PieceOf<T>(s: seq<T>, base: nat, len: nat, lo: nat, hi: nat)
    requires lo <= hi <= len && base + len <= |s|
    ensures s[base..base + len][lo..hi] == s[base + lo..base + hi]
  {
    SubSlice(s, base, len, lo, hi);
  }

  /**
   On any bytes: every account starts at a multiple of 8, the first where the walk
   begins, each other one at the least multiple of 8 behind the header of 136 bytes
   and the data of the one before it; and all of them are within the used length.
   */
  lemma {:induction false} WalkShape(av: AppendVec, offset: nat)
    requires av.Valid() && offset < USIZE_LIMIT && offset % 8 == 0
    ensures var w := Walk(av, offset);
      && (forall i :: 0 <= i < |w| ==> w[i].offset % 8 == 0)
      && (forall i :: 0 <= i < |w| ==> w[i].offset + 136 + |w[i].account.data| <= av.Len())
      && (forall i :: 0 < i < |w| ==> w[i].offset == w[i - 1].offset + w[i - 1].storedSize)
      && (forall i :: 0 < i < |w| ==> IsNextMultipleOf8(w[i - 1].offset + 136 + |w[i - 1].account.data|, w[i].offset))
      && (w != [] ==> w[0].offset == offset)
      && (w != [] ==> offset + 136 * |w| <= av.Len())
    decreases av.Len() + ALIGN_BOUNDARY_OFFSET - offset
  {
    hide GetAccount, IsNextMultipleOf8;
    match GetAccount(av, offset) {
      case None =>
      case Some((account, next)) =>
        AccountEnds(av, offset);
        WalkShape(av, next);
        var w, rest := Walk(av, offset), Walk(av, next);
        assert w == [account] + rest;
        forall i | 0 < i < |w| ensures IsNextMultipleOf8(w[i - 1].offset + 136 + |w[i - 1].account.data|, w[i].offset) {
          assert w[i] == rest[i - 1];
          assert i > 1 ==> w[i - 1] == rest[i - 2];
        }
    }
  }

  /** An account read from a shorter buffer is read from the longer one too. */
  lemma CutAccount(av: AppendVec, k: nat, offset: nat)
    requires av.Valid() && k <= av.Len() && offset < USIZE_LIMIT
    ensures GetAccount(av.(currentLen := k), offset).Some? ==> GetAccount(av, offset) == GetAccount(av.(currentLen := k), offset)
  {
    hide U64Align, DecodeAccountMeta;
  }

  /** Truncating the used length yields a prefix of the accounts. */
  lemma {:induction false} CutIsPrefix(av: AppendVec, k: nat, offset: nat)
    requires av.Valid() && k <= av.Len() && offset < USIZE_LIMIT
    ensures Walk(av.(currentLen := k), offset) <= Walk(av, offset)
    decreases av.Len() + ALIGN_BOUNDARY_OFFSET - offset
  {
    hide GetAccount;
    CutAccount(av, k, offset);
    match GetAccount(av.(currentLen := k), offset) {
      case None =>
      case Some((account, next)) => CutIsPrefix(av, k, next);
    }
  }

  // --------------------------------------------------- the two iterators

  function Offsets(accounts: seq<StoredAccountMeta>): (r: seq<nat>)
    ensures |r| == |accounts|
  {
    seq(|accounts|, i requires 0 <= i < |accounts| => accounts[i].offset)
  }

  /** The offset scan behind `append_vec_iter`. */
  method AppendVecIter(av: AppendVec) returns (offsets: seq<nat>)
    requires av.Valid()
    ensures offsets == Offsets(Walk(av, 0))
  {
    hide GetAccount;
    offsets := [];
    var offset := 0;
    while true
      invariant offset < USIZE_LIMIT
      invariant offsets + Offsets(Walk(av, offset)) == Offsets(Walk(av, 0))
      decreases av.Len() + ALIGN_BOUNDARY_OFFSET - offset
    {
      match GetAccount(av, offset) {
        case None => break;
        case Some((account, next)) =>
          assert Walk(av, offset) == [account] + Walk(av, next);
          assert Offsets([account] + Walk(av, next)) == [offset] + Offsets(Walk(av, next));
          offsets := offsets + [offset];
          offset := next;
      }
    }
    assert Offsets(Walk(av, offset)) == [];
  }

  /** `StoredAccountMetaHandle::access`: the second parse of a remembered offset. */
  function Access(av: AppendVec, offset: nat): Option<StoredAccountMeta>
    requires av.Valid() && offset < USIZE_LIMIT
  {
    match GetAccount(av, offset)
    case None => None
    case Some((account, _)) => Some(account)
  }

  /** The streaming iterator: a cursor over the buffer. */
  class AppendVecAccounts {
    const av: AppendVec
    var offset: nat

    ghost predicate Valid()
      reads this
    {
      av.Valid() && offset < USIZE_LIMIT
    }

    /** What is still to be yielded. */
    ghost function Remaining(): seq<StoredAccountMeta>
      requires Valid()
      reads this
    {
      Walk(av, offset)
    }

    constructor (av: AppendVec)
      requires av.Valid()
      ensures Valid() && this.av == av && Remaining() == Walk(av, 0)
    {
      this.av := av;
      this.offset := 0;
    }

    method Next() returns (r: Option<StoredAccountMeta>)
      requires Valid()
      modifies this
      ensures Valid()
      ensures r == if old(Remaining()) == [] then None else Some(old(Remaining())[0])
      ensures Remaining() == if old(Remaining()) == [] then [] else old(Remaining())[1..]
    {
      match GetAccount(av, offset) {
        case None => r := None;
        case Some((account, nextOffset)) =>
          offset := nextOffset;
          r := Some(account);
      }
    }
  }

  /** Draining the streaming iterator gives the walk, in order. */
  method Stream(av: AppendVec) returns (accounts: seq<StoredAccountMeta>)
    requires av.Valid()
    ensures accounts == Walk(av, 0)
  {
    hide Walk;
    var it := new AppendVecAccounts(av);
    accounts := [];
    ghost var left := Walk(av, 0);
    while true
      invariant it.Valid() && left == it.Remaining()
      invariant accounts + left == Walk(av, 0)
      decreases |left|
    {
      var next := it.Next();
      match next {
        case None => break;
        case Some(account) =>
          accounts := accounts + [account];
          left := left[1..];
      }
    }
  }

  /** Both iterators agree: every handle of the offset scan still opens, on the streamed account. */
  lemma {:induction false} HandlesOpenOnStream(av: AppendVec, offset: nat)
    requires av.Valid() && offset < USIZE_LIMIT
    ensures forall i :: 0 <= i < |Walk(av, offset)| ==>
      Walk(av, offset)[i].offset < USIZE_LIMIT && Access(av, Walk(av, offset)[i].offset) == Some(Walk(av, offset)[i])
    decreases av.Len() + ALIGN_BOUNDARY_OFFSET - offset
  {
    hide GetAccount;
    match GetAccount(av, offset) {
      case None =>
      case Some((account, next)) => HandlesOpenOnStream(av, next);
    }
  }
}
