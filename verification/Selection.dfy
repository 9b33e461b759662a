/**
 The choice of the next archive: those that fit a watermark, the furthest
 first, with the path as a tie-breaker.
 */
module Selection {
  import opened Wrappers
  import opened Order

  type Path = Text

  datatype Archive = FullArchive(path: Path, slot: nat) | IncrementalArchive(path: Path, base: nat, slot: nat) {
    /** It continues from what is committed, and goes beyond it. */
    predicate Fits(committed: nat) {
      match this
      case FullArchive(_, slot) => slot > committed
      case IncrementalArchive(_, base, slot) => base <= committed && slot > committed
    }
  }

  /** The order of preference: higher slots first, then smaller paths. */
  predicate Before(a: Archive, b: Archive) {
    a.slot > b.slot || (a.slot == b.slot && Compare(TextKey(a.path), TextKey(b.path)) != Greater)
  }

  lemma BeforeIsOrder(a: Archive, b: Archive, c: Archive)
    ensures Before(a, a) && (Before(a, b) || Before(b, a))
    ensures Before(a, b) && Before(b, c) ==> Before(a, c)
    ensures Before(a, b) && Before(b, a) ==> a.slot == b.slot && a.path == b.path
  {
    hide Compare, TextKey;
    var x, y, z := TextKey(a.path), TextKey(b.path), TextKey(c.path);
    CompareEqual(x, x);
    CompareEqual(x, y);
    CompareReverse(x, y);
    if Compare(x, y) != Greater && Compare(y, z) != Greater {
      CompareTransitive(x, y, z);
    }
    CompareEqual(x, z);
    CompareEqual(y, z);
    if x == y {
      TextKeyInjective(a.path, b.path);
    }
  }

  function Fitting(archives: seq<Archive>, committed: nat): (r: seq<Archive>)
    ensures forall a :: a in r <==> a in archives && a.Fits(committed)
  {
    if archives == [] then []
    else (if archives[0].Fits(committed) then [archives[0]] else []) + Fitting(archives[1..], committed)
  }

  function Insert(a: Archive, sorted: seq<Archive>): (r: seq<Archive>)
    ensures multiset(r) == multiset(sorted) + multiset{a}
  {
    if sorted == [] || Before(a, sorted[0]) then [a] + sorted
    else
      assert sorted == [sorted[0]] + sorted[1..];
      [sorted[0]] + Insert(a, sorted[1..])
  }

  function Sort(archives: seq<Archive>): (r: seq<Archive>)
    ensures multiset(r) == multiset(archives)
  {
    if archives == [] then []
    else
      assert archives == [archives[0]] + archives[1..];
      Insert(archives[0], Sort(archives[1..]))
  }

  predicate IsSorted(archives: seq<Archive>) {
    forall i, j :: 0 <= i < j < |archives| ==> Before(archives[i], archives[j])
  }

  lemma {:induction false} InsertKeepsSorted(a: Archive, sorted: seq<Archive>)
    requires IsSorted(sorted)
    ensures IsSorted(Insert(a, sorted))
  {
    hide Before;
    if sorted != [] && !Before(a, sorted[0]) {
      BeforeIsOrder(a, sorted[0], a);
      InsertKeepsSorted(a, sorted[1..]);
      var rest := Insert(a, sorted[1..]);
      forall j | 0 <= j < |rest| ensures Before(sorted[0], rest[j]) {
        assert rest[j] in multiset(rest);
        assert rest[j] == a || rest[j] in multiset(sorted[1..]);
      }
    } else if sorted != [] {
      forall j | 0 <= j < |sorted| ensures Before(a, sorted[j]) {
        BeforeIsOrder(a, sorted[0], sorted[j]);
      }
    }
  }

  lemma {:induction false} SortSorts(archives: seq<Archive>)
    ensures IsSorted(Sort(archives))
  {
    if archives != [] {
      SortSorts(archives[1..]);
      InsertKeepsSorted(archives[0], Sort(archives[1..]));
    }
  }

  /** The head of a sorted list is its best element. */
  lemma SortedHead(archives: seq<Archive>)
    ensures Sort(archives) == [] <==> archives == []
    ensures archives != [] ==> Sort(archives)[0] in archives && forall a :: a in archives ==> Before(Sort(archives)[0], a)
  {
    hide Before;
    SortSorts(archives);
    var sorted := Sort(archives);
    forall a ensures a in sorted <==> a in archives {
      assert a in multiset(sorted) <==> a in multiset(archives);
    }
    if sorted != [] {
      assert sorted[0] in sorted;
      forall a | a in archives ensures Before(sorted[0], a) {
        assert a in sorted;
        BeforeIsOrder(a, a, a);
      }
    }
    if archives != [] {
      assert archives[0] in sorted;
    }
  }

  /** `eligible_candidates` and `eligible_full_candidates`. */
  function EligibleCandidates(archives: seq<Archive>, committed: nat): seq<Archive> { Sort(Fitting(archives, committed)) }

  /** `newest_eligible_incremental`, and the head every caller takes. */
  function NewestEligible(archives: seq<Archive>, committed: nat): Option<Archive> {
    var candidates := EligibleCandidates(archives, committed);
    if candidates == [] then None else Some(candidates[0])
  }

  /** The choice is the best fitting archive of the directory, and none exactly when none fits. */
  lemma NewestEligibleIsBest(archives: seq<Archive>, committed: nat)
    ensures var c := NewestEligible(archives, committed);
      && (c.None? <==> forall a :: a in archives ==> !a.Fits(committed))
      && (c.Some? ==>
            && c.value in archives && c.value.Fits(committed)
            && forall a :: a in archives && a.Fits(committed) ==> Before(c.value, a))
  {
    hide Before, Sort;
    SortedHead(Fitting(archives, committed));
    if Fitting(archives, committed) != [] {
      assert Fitting(archives, committed)[0] in Fitting(archives, committed);
    }
  }

  /** `newest_full_generation`: the maximum by a scan that keeps the last of equals. */
  method NewestFullGeneration(fulls: seq<Archive>, activeFullSlot: Option<nat>) returns (r: Option<Archive>)
    requires forall a :: a in fulls ==> a.FullArchive?
    ensures r == NewestGeneration(fulls, activeFullSlot)
    ensures r.Some? <==> exists a <- fulls :: activeFullSlot.Some? ==> activeFullSlot.value < a.slot
    ensures r.Some? ==> r.value in fulls && forall a <- fulls :: a.slot <= r.value.slot
  {
    hide Before;
    r := None;
    for i := 0 to |fulls|
      invariant r.None? ==> forall k :: 0 <= k < i ==> !Newer(fulls[k], activeFullSlot)
      invariant r.Some? ==>
        && r.value in fulls && Newer(r.value, activeFullSlot)
        && forall k :: 0 <= k < i && Newer(fulls[k], activeFullSlot) ==> Before(r.value, fulls[k])
    {
      BeforeIsOrder(fulls[i], fulls[i], fulls[i]);
      if Newer(fulls[i], activeFullSlot) && (r.None? || Before(fulls[i], r.value)) {
        forall k | r.Some? && 0 <= k < i && Newer(fulls[k], activeFullSlot) ensures Before(fulls[i], fulls[k]) {
          BeforeIsOrder(fulls[i], r.value, fulls[k]);
        }
        r := Some(fulls[i]);
      } else if r.Some? {
        BeforeIsOrder(r.value, fulls[i], r.value);
      }
    }
    BestGenerationIsUnique(fulls, activeFullSlot, r);
    GenerationChoice(fulls, activeFullSlot);
  }

  predicate Newer(a: Archive, activeFullSlot: Option<nat>) { activeFullSlot.None? || a.slot > activeFullSlot.value }

  function NewerThan(archives: seq<Archive>, activeFullSlot: Option<nat>): (r: seq<Archive>)
    ensures forall a :: a in r <==> a in archives && Newer(a, activeFullSlot)
  {
    if archives == [] then []
    else (if Newer(archives[0], activeFullSlot) then [archives[0]] else []) + NewerThan(archives[1..], activeFullSlot)
  }

  /** The generation to build next: the preferred one among the newer fulls. */
  function NewestGeneration(fulls: seq<Archive>, activeFullSlot: Option<nat>): (r: Option<Archive>) {
    var newer := Sort(NewerThan(fulls, activeFullSlot));
    if newer == [] then None else Some(newer[0])
  }

  lemma NewestGenerationIsBest(fulls: seq<Archive>, activeFullSlot: Option<nat>)
    ensures var c := NewestGeneration(fulls, activeFullSlot);
      && (c.None? <==> forall a :: a in fulls ==> !Newer(a, activeFullSlot))
      && (c.Some? ==>
            && c.value in fulls && Newer(c.value, activeFullSlot)
            && forall a :: a in fulls && Newer(a, activeFullSlot) ==> Before(c.value, a))
  {
    hide Before, Sort;
    SortedHead(NewerThan(fulls, activeFullSlot));
    if NewerThan(fulls, activeFullSlot) != [] {
      assert NewerThan(fulls, activeFullSlot)[0] in NewerThan(fulls, activeFullSlot);
    }
  }

  lemma BestGenerationIsUnique(fulls: seq<Archive>, activeFullSlot: Option<nat>, r: Option<Archive>)
    requires forall a :: a in fulls ==> a.FullArchive?
    requires r.None? ==> forall k :: 0 <= k < |fulls| ==> !Newer(fulls[k], activeFullSlot)
    requires r.Some? ==>
      && r.value in fulls && Newer(r.value, activeFullSlot)
      && forall k :: 0 <= k < |fulls| && Newer(fulls[k], activeFullSlot) ==> Before(r.value, fulls[k])
    ensures r == NewestGeneration(fulls, activeFullSlot)
  {
    hide Before, NewestGeneration, Newer;
    NewestGenerationIsBest(fulls, activeFullSlot);
    var c := NewestGeneration(fulls, activeFullSlot);
    if r.Some? && c.Some? {
      BeforeIsOrder(r.value, c.value, c.value);
    }
  }

  // -------------------------------------------- the choices, over slots alone

  lemma FitsMeans(a: Archive, committed: nat)
    ensures a.Fits(committed) <==> (a.IncrementalArchive? ==> a.base <= committed) && committed < a.slot
  {
  }

  /** The furthest comes first; of two that end at one slot, not the one whose path is after the other's. */
  lemma BeforeMeans(a: Archive, b: Archive)
    ensures Before(a, b) <==> a.slot > b.slot || (a.slot == b.slot && !TextBefore(b.path, a.path))
  {
    hide TextBefore, Compare, TextKey;
    TextOrder(b.path, a.path);
    CompareReverse(TextKey(a.path), TextKey(b.path));
  }

  /**
   The next incremental: there is one exactly if some archive of the directory
   starts at or below the watermark and ends above it. It is such an archive, none
   such ends higher, and of those ending at its slot none has a path before its own.
   */
  lemma IncrementalChoice(incrementals: seq<Archive>, watermark: nat)
    requires forall a <- incrementals :: a.IncrementalArchive?
    ensures var c := NewestEligible(incrementals, watermark);
      && (c.Some? <==> exists a <- incrementals :: a.base <= watermark < a.slot)
      && (c.Some? ==>
            && c.value in incrementals && c.value.base <= watermark < c.value.slot
            && forall a <- incrementals :: a.base <= watermark < a.slot ==>
                 a.slot <= c.value.slot && (a.slot == c.value.slot ==> !TextBefore(a.path, c.value.path)))
  {
    hide Before, TextBefore, NewestEligible;
    var c := NewestEligible(incrementals, watermark);
    NewestEligibleIsBest(incrementals, watermark);
    forall a | a in incrementals ensures a.Fits(watermark) <==> a.base <= watermark < a.slot {
      FitsMeans(a, watermark);
    }
    if c.Some? {
      forall a | a in incrementals && a.Fits(watermark) ensures a.slot <= c.value.slot && (a.slot == c.value.slot ==> !TextBefore(a.path, c.value.path)) {
        BeforeMeans(c.value, a);
      }
    }
  }

  /** And the next generation, for which only the end of active's full counts. */
  lemma GenerationChoice(fulls: seq<Archive>, activeFullSlot: Option<nat>)
    ensures var c := NewestGeneration(fulls, activeFullSlot);
      && (c.Some? <==> exists a <- fulls :: activeFullSlot.Some? ==> activeFullSlot.value < a.slot)
      && (c.Some? ==>
            && c.value in fulls && (activeFullSlot.Some? ==> activeFullSlot.value < c.value.slot)
            && forall a <- fulls :: a.slot <= c.value.slot && (a.slot == c.value.slot ==> !TextBefore(a.path, c.value.path)))
  {
    hide Before, TextBefore, NewestGeneration;
    var c := NewestGeneration(fulls, activeFullSlot);
    NewestGenerationIsBest(fulls, activeFullSlot);
    if c.Some? {
      forall a | a in fulls ensures a.slot <= c.value.slot && (a.slot == c.value.slot ==> !TextBefore(a.path, c.value.path)) {
        if Newer(a, activeFullSlot) {
          BeforeMeans(c.value, a);
        }
      }
    }
  }

  /** All candidates in the order in which they would be tried. */
  lemma CandidatesInOrder(archives: seq<Archive>, committed: nat)
    ensures var r := EligibleCandidates(archives, committed);
      && (forall a :: a in r <==> a in archives && (a.IncrementalArchive? ==> a.base <= committed) && committed < a.slot)
      && (forall i, j :: 0 <= i < j < |r| ==>
            r[i].slot > r[j].slot || (r[i].slot == r[j].slot && !TextBefore(r[j].path, r[i].path)))
  {
    hide Before, TextBefore, Sort;
    var fitting, r := Fitting(archives, committed), EligibleCandidates(archives, committed);
    SortSorts(fitting);
    forall a ensures a in r <==> a in fitting {
      assert a in multiset(r) <==> a in multiset(fitting);
    }
    forall i, j | 0 <= i < j < |r| ensures r[i].slot > r[j].slot || (r[i].slot == r[j].slot && !TextBefore(r[j].path, r[i].path)) {
      BeforeMeans(r[i], r[j]);
    }
  }
}
