/**
 The order Rust derives for a struct: fields compared one after the other,
 sequences and strings lexicographically, `None` before `Some`. A value is
 ordered through its key, a tree of numbers.
 */
module Order {
  import opened Wrappers

  datatype Key = Num(n: nat) | Nil | Cons(head: Key, tail: Key)

  datatype Ordering = Less | Equal | Greater {
    function Then(next: Ordering): Ordering { if Equal? then next else this }
    function Reverse(): Ordering { match this case Less => Greater case Equal => Equal case Greater => Less }
  }

  function CompareNat(a: nat, b: nat): Ordering {
    if a < b then Less else if a == b then Equal else Greater
  }

  function Rank(k: Key): nat { if k.Num? then 0 else if k.Nil? then 1 else 2 }

  function Compare(a: Key, b: Key): Ordering {
    match (a, b)
    case (Num(x), Num(y)) => CompareNat(x, y)
    case (Cons(h, t), Cons(h', t')) => Compare(h, h').Then(Compare(t, t'))
    case _ => CompareNat(Rank(a), Rank(b))
  }

  /** Only equal keys compare equal. */
  lemma {:induction false} CompareEqual(a: Key, b: Key)
    ensures Compare(a, b) == Equal <==> a == b
  {
    if a.Cons? && b.Cons? {
      CompareEqual(a.head, b.head);
      CompareEqual(a.tail, b.tail);
    }
  }

  lemma {:induction false} CompareReverse(a: Key, b: Key)
    ensures Compare(b, a) == Compare(a, b).Reverse()
  {
    if a.Cons? && b.Cons? {
      CompareReverse(a.head, b.head);
      CompareReverse(a.tail, b.tail);
    }
  }

  lemma {:induction false} CompareTransitive(a: Key, b: Key, c: Key)
    requires Compare(a, b) != Greater && Compare(b, c) != Greater
    ensures Compare(a, c) != Greater
    ensures Compare(a, b) == Less || Compare(b, c) == Less ==> Compare(a, c) == Less
  {
    CompareEqual(a, b);
    CompareEqual(b, c);
    if a.Cons? && b.Cons? && c.Cons? {
      CompareEqual(a.head, b.head);
      CompareEqual(b.head, c.head);
      CompareTransitive(a.head, b.head, c.head);
      if a.head == b.head == c.head {
        CompareTransitive(a.tail, b.tail, c.tail);
      }
    }
  }

  // ------------------------------------------------------------------ keys

  type Text = string

  function TextKey(s: Text): Key
    decreases |s|
  {
    if s == [] then Nil else Cons(Num(s[0] as nat), TextKey(s[1..]))
  }

  function TextsKey(s: seq<Text>): Key
    decreases |s|
  {
    if s == [] then Nil else Cons(TextKey(s[0]), TextsKey(s[1..]))
  }

  function BoolKey(b: bool): Key { Num(if b then 1 else 0) }

  function OptionKey(o: Option<nat>): Key { if o.None? then Nil else Cons(Num(o.value), Nil) }

  lemma {:induction false} TextKeyInjective(a: Text, b: Text)
    requires TextKey(a) == TextKey(b)
    ensures a == b
    decreases |a|
  {
    if a != [] {
      TextKeyInjective(a[1..], b[1..]);
      assert a == [a[0]] + a[1..] && b == [b[0]] + b[1..];
    }
  }

  lemma {:induction false} TextsKeyInjective(a: seq<Text>, b: seq<Text>)
    requires TextsKey(a) == TextsKey(b)
    ensures a == b
    decreases |a|
  {
    if a != [] {
      TextKeyInjective(a[0], b[0]);
      TextsKeyInjective(a[1..], b[1..]);
      assert a == [a[0]] + a[1..] && b == [b[0]] + b[1..];
    }
  }

  // ------------------------------------------------- what the order means

  predicate SameUpTo<T(==)>(a: seq<T>, b: seq<T>, k: nat)
    requires k <= |a| && k <= |b|
  {
    forall i :: 0 <= i < k ==> a[i] == b[i]
  }

  /** At the first character in which they differ `a` has the smaller one, or it ends there. */
  predicate TextBefore(a: Text, b: Text) {
    a < b || exists k: nat :: k < |a| && k < |b| && SameUpTo(a, b, k) && a[k] < b[k]
  }

  /** The same for lists of texts. */
  predicate TextsBefore(a: seq<Text>, b: seq<Text>) {
    a < b || exists k: nat :: k < |a| && k < |b| && SameUpTo(a, b, k) && TextBefore(a[k], b[k])
  }

  predicate OptionBefore(a: Option<nat>, b: Option<nat>) { b.Some? && (a.None? || a.value < b.value) }

  lemma NumberOrder(a: nat, b: nat)
    ensures Compare(Num(a), Num(b)) == Less <==> a < b
    ensures Compare(Num(a), Num(b)) == Equal <==> a == b
  {
  }

  /** Parts are compared one after the other. */
  lemma PartsOrder(h: Key, t: Key, h': Key, t': Key)
    ensures Compare(Cons(h, t), Cons(h', t')) == Less <==> Compare(h, h') == Less || (h == h' && Compare(t, t') == Less)
  {
    CompareEqual(h, h');
  }

  lemma SameStep<T>(a: seq<T>, b: seq<T>, k: nat)
    requires k < |a| && k < |b|
    ensures SameUpTo(a, b, k + 1) <==> a[0] == b[0] && SameUpTo(a[1..], b[1..], k)
  {
    if a[0] == b[0] && SameUpTo(a[1..], b[1..], k) {
      forall i | 0 <= i < k + 1 ensures a[i] == b[i] {
        if i > 0 {
          assert a[i] == a[1..][i - 1] && b[i] == b[1..][i - 1];
        }
      }
    }
  }

  lemma PrefixStep<T>(a: seq<T>, b: seq<T>)
    requires a != [] && b != []
    ensures a < b <==> a[0] == b[0] && a[1..] < b[1..]
  {
    assert a == [a[0]] + a[1..] && b == [b[0]] + b[1..];
  }

  lemma TextBeforeStep(a: Text, b: Text)
    requires a != [] && b != []
    ensures TextBefore(a, b) <==> a[0] < b[0] || (a[0] == b[0] && TextBefore(a[1..], b[1..]))
  {
    hide SameUpTo;
    var s, t := a[1..], b[1..];
    PrefixStep(a, b);
    NothingBefore(a, b);
    if k: nat :| k < |a| && k < |b| && SameUpTo(a, b, k) && a[k] < b[k] {
      if k > 0 {
        SameStep(a, b, k - 1);
        assert s[k - 1] < t[k - 1];
      }
    }
    if k: nat :| k < |s| && k < |t| && SameUpTo(s, t, k) && s[k] < t[k] {
      SameStep(a, b, k);
      assert a[0] == b[0] ==> SameUpTo(a, b, k + 1) && a[k + 1] == s[k] && b[k + 1] == t[k];
    }
  }

  lemma NothingBefore<T>(a: seq<T>, b: seq<T>)
    requires a != [] && b != []
    ensures SameUpTo(a, b, 0)
  {
  }

  lemma {:induction false} TextOrder(a: Text, b: Text)
    ensures Compare(TextKey(a), TextKey(b)) == Less <==> TextBefore(a, b)
    decreases |a|
  {
    hide TextBefore;
    if a == [] || b == [] {
      NoTextBefore(a, b);
    } else {
      TextBeforeStep(a, b);
      TextOrder(a[1..], b[1..]);
      PartsOrder(Num(a[0] as nat), TextKey(a[1..]), Num(b[0] as nat), TextKey(b[1..]));
    }
  }

  lemma NoTextBefore(a: Text, b: Text)
    requires a == [] || b == []
    ensures TextBefore(a, b) <==> b != [] && a == []
  {
  }

  lemma TextsBeforeStep(a: seq<Text>, b: seq<Text>)
    requires a != [] && b != []
    ensures TextsBefore(a, b) <==> TextBefore(a[0], b[0]) || (a[0] == b[0] && TextsBefore(a[1..], b[1..]))
  {
    hide SameUpTo, TextBefore;
    var s, t := a[1..], b[1..];
    PrefixStep(a, b);
    NothingBefore(a, b);
    if k: nat :| k < |a| && k < |b| && SameUpTo(a, b, k) && TextBefore(a[k], b[k]) {
      if k > 0 {
        SameStep(a, b, k - 1);
        assert TextBefore(s[k - 1], t[k - 1]);
      }
    }
    if k: nat :| k < |s| && k < |t| && SameUpTo(s, t, k) && TextBefore(s[k], t[k]) {
      SameStep(a, b, k);
      assert a[0] == b[0] ==> SameUpTo(a, b, k + 1) && a[k + 1] == s[k] && b[k + 1] == t[k];
    }
  }

  lemma {:induction false} TextsOrder(a: seq<Text>, b: seq<Text>)
    ensures Compare(TextsKey(a), TextsKey(b)) == Less <==> TextsBefore(a, b)
    decreases |a|
  {
    hide TextsBefore, TextBefore;
    if a == [] || b == [] {
      NoTextsBefore(a, b);
    } else {
      TextsBeforeStep(a, b);
      TextOrder(a[0], b[0]);
      if TextKey(a[0]) == TextKey(b[0]) {
        TextKeyInjective(a[0], b[0]);
      }
      TextsOrder(a[1..], b[1..]);
      PartsOrder(TextKey(a[0]), TextsKey(a[1..]), TextKey(b[0]), TextsKey(b[1..]));
    }
  }

  lemma NoTextsBefore(a: seq<Text>, b: seq<Text>)
    requires a == [] || b == []
    ensures TextsBefore(a, b) <==> b != [] && a == []
  {
  }

  lemma OptionOrder(a: Option<nat>, b: Option<nat>)
    ensures Compare(OptionKey(a), OptionKey(b)) == Less <==> OptionBefore(a, b)
  {
  }
}
