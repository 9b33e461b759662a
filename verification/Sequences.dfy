/** Counting and reordering sequences. */
module Sequences {
  import opened Wrappers

  function AsSeq<T>(o: Option<T>): seq<T> { if o.Some? then [o.value] else [] }

  /** The readable entries. */
  function Readable<T>(entries: seq<Option<T>>): seq<T> {
    if entries == [] then [] else AsSeq(entries[0]) + Readable(entries[1..])
  }

  lemma {:induction false} ReadableConcat<T>(xs: seq<Option<T>>, ys: seq<Option<T>>)
    ensures Readable(xs + ys) == Readable(xs) + Readable(ys)
  {
    if xs == [] {
      assert xs + ys == ys;
    } else {
      assert (xs + ys)[1..] == xs[1..] + ys;
      ReadableConcat(xs[1..], ys);
    }
  }

  /** How often `x` occurs in `s`. */
  function Times<T(==)>(s: seq<T>, x: T): nat {
    if s == [] then 0 else (if s[0] == x then 1 else 0) + Times(s[1..], x)
  }

  lemma {:induction false} TimesConcat<T>(s: seq<T>, t: seq<T>, x: T)
    ensures Times(s + t, x) == Times(s, x) + Times(t, x)
  {
    if s == [] {
      assert s + t == t;
    } else {
      assert (s + t)[1..] == s[1..] + t;
      TimesConcat(s[1..], t, x);
    }
  }

  lemma {:induction false} TimesIsMultiplicity<T>(s: seq<T>, x: T)
    ensures Times(s, x) == multiset(s)[x]
  {
    if s != [] {
      TimesIsMultiplicity(s[1..], x);
      assert s == [s[0]] + s[1..];
    }
  }

  /** A longer sequence, or a reordering, holds the first element somewhere; without it the same is true of the rests. */
  lemma FindFirst<T>(xs: seq<T>, ys: seq<T>) returns (i: nat)
    requires multiset(xs) <= multiset(ys) && xs != []
    ensures i < |ys| && ys == ys[..i] + [xs[0]] + ys[i + 1..]
    ensures multiset(xs[1..]) <= multiset(ys[..i] + ys[i + 1..])
    ensures multiset(xs) == multiset(ys) ==> multiset(xs[1..]) == multiset(ys[..i] + ys[i + 1..])
  {
    assert xs[0] in multiset(xs);
    assert xs[0] in multiset(ys);
    i :| 0 <= i < |ys| && ys[i] == xs[0];
    assert ys == ys[..i] + [xs[0]] + ys[i + 1..];
    assert xs == [xs[0]] + xs[1..];
    assert multiset(xs[1..]) == multiset(xs) - multiset{xs[0]};
    assert multiset(ys[..i] + ys[i + 1..]) == multiset(ys) - multiset{xs[0]};
  }

  lemma OnlyEmpty<T>(ys: seq<T>)
    requires multiset(ys) == multiset{}
    ensures ys == []
  {
    assert |multiset(ys)| == |ys|;
  }

  function Flatten<T>(ws: seq<seq<T>>): seq<T> {
    if ws == [] then [] else ws[0] + Flatten(ws[1..])
  }
}
