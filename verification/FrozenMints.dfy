/**
 The file of a frozen mint set: one name a line. Writing ends every name with
 a line feed; reading splits at line feeds, drops one carriage return before
 each, and refuses an empty line and an empty file.
 */
module FrozenMints {
  import opened Wrappers
  import opened ImportOutput

  type Mints = set<Pubkey>
  type FileText = seq<char>

  function SetOf(order: seq<Pubkey>): (mints: Mints) { set m | m in order }

  /** The names in the order in which the set happens to be walked. */
  function Written(order: seq<Pubkey>): FileText {
    if order == [] then [] else order[0] + ['\n'] + Written(order[1..])
  }

  function LineEnd(text: FileText): (k: nat)
    ensures k <= |text| && '\n' !in text[..k] && (k < |text| ==> text[k] == '\n')
  {
    if text == [] || text[0] == '\n' then 0
    else
      var k := LineEnd(text[1..]);
      assert text[..k + 1] == [text[0]] + text[1..][..k];
      k + 1
  }

  function WithoutReturn(line: FileText): FileText {
    if line != [] && line[|line| - 1] == '\r' then line[..|line| - 1] else line
  }

  /** The lines as a buffered reader yields them. */
  function Lines(text: FileText): seq<FileText>
    decreases |text|
  {
    if text == [] then []
    else
      var k := LineEnd(text);
      if k == |text| then [text] else [WithoutReturn(text[..k])] + Lines(text[k + 1..])
  }

  function Load(text: FileText): Result<Mints> {
    var lines := Lines(text);
    if [] in lines then Err("frozen hot-mint file contains an empty mint")
    else if lines == [] then Err("frozen hot-mint file is empty")
    else Ok(SetOf(lines))
  }

  // ------------------------------------------------------- the two loops

  /** `persist_frozen_hot_mints`, up to the bytes handed to the file. */
  method WriteMints(order: seq<Pubkey>) returns (text: FileText)
    ensures text == Written(order)
  {
    text := [];
    var i := 0;
    while i < |order|
      invariant i <= |order| && text + Written(order[i..]) == Written(order)
    {
      assert order[i..][1..] == order[i + 1..];
      text := text + order[i] + ['\n'];
      i := i + 1;
    }
    assert text + [] == text;
  }

  /** `load_frozen_hot_mints`, from the lines of the file. */
  method LoadMints(text: FileText) returns (r: Result<Mints>)
    ensures r == Load(text)
  {
    var lines := Lines(text);
    var mints: Mints := {};
    var i := 0;
    while i < |lines|
      invariant i <= |lines| && mints == SetOf(lines[..i]) && [] !in lines[..i]
      invariant mints == {} <==> i == 0
    {
      if lines[i] == [] {
        return Err("frozen hot-mint file contains an empty mint");
      }
      mints := mints + {lines[i]};
      assert lines[..i + 1] == lines[..i] + [lines[i]];
      i := i + 1;
    }
    assert lines[..i] == lines;
    if mints == {} {
      return Err("frozen hot-mint file is empty");
    }
    return Ok(mints);
  }

  // ---------------------------------------------------- when they agree

  /** A name that is one line: not empty, without a line feed, and not ending in a carriage return. */
  predicate IsLine(m: Pubkey) { m != [] && '\n' !in m && m[|m| - 1] != '\r' }

  predicate Usable(mints: Mints) { mints != {} && forall m <- mints :: IsLine(m) }

  function Stripped(order: seq<Pubkey>): seq<Pubkey> {
    if order == [] then [] else [WithoutReturn(order[0])] + Stripped(order[1..])
  }

  lemma {:induction false} LineEndOfName(m: Pubkey, rest: FileText)
    requires '\n' !in m
    ensures LineEnd(m + ['\n'] + rest) == |m|
  {
    var text := m + ['\n'] + rest;
    var k := LineEnd(text);
    assert text[|m|] == '\n' && forall i: nat :: i < |m| ==> text[i] == m[i];
    assert forall i: nat :: i < k ==> text[i] == text[..k][i];
  }

  /** Names without line feeds come back as lines, each without one trailing carriage return. */
  lemma {:induction false} LinesOfWritten(order: seq<Pubkey>)
    requires forall m <- order :: '\n' !in m
    ensures Lines(Written(order)) == Stripped(order)
  {
    if order != [] {
      var m, rest := order[0], Written(order[1..]);
      var text := Written(order);
      LineEndOfName(m, rest);
      assert text[..|m|] == m && text[|m| + 1..] == rest;
      LinesOfWritten(order[1..]);
    }
  }

  lemma {:induction false} LinesHaveNoFeed(text: FileText)
    ensures forall line <- Lines(text) :: '\n' !in line
    decreases |text|
  {
    if text != [] && LineEnd(text) < |text| {
      LinesHaveNoFeed(text[LineEnd(text) + 1..]);
    }
  }

  lemma {:induction false} StrippedElements(order: seq<Pubkey>, x: Pubkey)
    ensures x in Stripped(order) <==> exists m <- order :: WithoutReturn(m) == x
  {
    if order != [] {
      StrippedElements(order[1..], x);
      assert order == [order[0]] + order[1..];
    }
  }

  function Longest(order: seq<Pubkey>): (n: nat)
    ensures forall m <- order :: |m| <= n
  {
    if order == [] then 0
    else
      var n := Longest(order[1..]);
      assert forall m <- order :: m == order[0] || m in order[1..];
      if |order[0]| > n then |order[0]| else n
  }

  /** If stripping changes nothing, no name ends in a carriage return: a longer one would have to be there. */
  lemma {:induction false} NoReturns(order: seq<Pubkey>, m: Pubkey)
    requires forall x <- order :: x in Stripped(order)
    requires m in order && m != [] && m[|m| - 1] == '\r'
    ensures false
    decreases Longest(order) - |m|
  {
    StrippedElements(order, m);
    var longer :| longer in order && WithoutReturn(longer) == m;
    assert longer != [] && longer[|longer| - 1] == '\r';
    NoReturns(order, longer);
  }

  lemma {:induction false} StrippedLines(order: seq<Pubkey>)
    requires forall m <- order :: IsLine(m)
    ensures Stripped(order) == order
  {
    if order != [] {
      assert order[0] in order && order == [order[0]] + order[1..];
      StrippedLines(order[1..]);
    }
  }

  /** A set is read back as it was written exactly when it is not empty and each of its names is one line. */
  lemma RoundTripIff(order: seq<Pubkey>)
    ensures Load(Written(order)) == Ok(SetOf(order)) <==> Usable(SetOf(order))
  {
    var lines := Lines(Written(order));
    if Usable(SetOf(order)) {
      assert forall m <- order :: m in SetOf(order);
      LinesOfWritten(order);
      StrippedLines(order);
      assert [] !in order;
      assert order != [];
    }
    if Load(Written(order)) == Ok(SetOf(order)) {
      LinesHaveNoFeed(Written(order));
      forall m | m in order ensures m in lines && '\n' !in m {
        assert m in SetOf(order) && m in SetOf(lines);
      }
      LinesOfWritten(order);
      forall m | m in SetOf(order) ensures IsLine(m) {
        if m[|m| - 1] == '\r' {
          NoReturns(order, m);
        }
      }
      assert lines[0] in SetOf(lines);
    }
  }

  /** A file of one name. */
  lemma LoadOfOne(m: Pubkey)
    requires '\n' !in m
    ensures Load(Written([m])) == if WithoutReturn(m) == [] then Err("frozen hot-mint file contains an empty mint") else Ok({WithoutReturn(m)})
  {
    LinesOfWritten([m]);
    assert Lines(Written([m])) == [WithoutReturn(m)];
    assert [WithoutReturn(m)][0] == WithoutReturn(m);
    assert SetOf([WithoutReturn(m)]) == {WithoutReturn(m)};
  }

  /** A line feed inside a name ends a line. */
  lemma FeedEndsLine()
    ensures Load(Written([['a', '\n']])).Err?
  {
    var text := ['a', '\n', '\n'];
    assert Written([['a', '\n']]) == text;
    assert ['a'] + ['\n'] + ['\n'] == text;
    LineEndOfName(['a'], ['\n']);
    LineEndOfName([], []);
    assert text[2..] == [] + ['\n'] + [];
    assert Lines(text)[1] == [];
  }

  /** Sets that are not empty and contain no empty name, and yet cannot be read or come back changed; and the empty name. */
  lemma UnusableSets()
    ensures Load(Written([[]])).Err?
    ensures Load(Written([['\r']])).Err?
    ensures Load(Written([['a', '\n']])).Err?
    ensures Load(Written([['a', '\r']])) == Ok({['a']})
  {
    hide Load, Written;
    LoadOfOne([]);
    LoadOfOne(['\r']);
    LoadOfOne(['a', '\r']);
    FeedEndsLine();
    assert ['a', '\r'][..1] == ['a'];
  }
}
