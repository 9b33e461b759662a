/** Replacing tables: of the rows with one key, a FINAL read returns the one with the highest slot. */
module Versions {
  import opened Wrappers

  /** The row a FINAL read returns for a key; of equal slots the last inserted. */
  function NewestOf<R, K(==)>(rows: seq<R>, keyOf: R -> K, slotOf: R -> nat, key: K): (r: Option<R>)
    ensures r.Some? ==> r.value in rows && keyOf(r.value) == key
    ensures forall row :: row in rows && keyOf(row) == key ==> r.Some? && slotOf(row) <= slotOf(r.value)
    decreases |rows|
  {
    if rows == [] then None
    else
      var rest, last := NewestOf(rows[..|rows| - 1], keyOf, slotOf, key), rows[|rows| - 1];
      if keyOf(last) == key && (rest.None? || slotOf(rest.value) <= slotOf(last)) then Some(last) else rest
  }

  datatype Version<K, V> = Version(key: K, value: V, slot: nat)

  function NewestVersion<K(==), V>(rows: seq<Version<K, V>>, key: K): (r: Option<Version<K, V>>)
    ensures r.Some? ==> r.value in rows && r.value.key == key
    ensures forall v :: v in rows && v.key == key ==> r.Some? && v.slot <= r.value.slot
  {
    NewestOf(rows, (v: Version<K, V>) => v.key, (v: Version<K, V>) => v.slot, key)
  }

  /** A stored row of the key has a higher slot: a row inserted at `slot` would not be read. */
  predicate Ahead<K(==), V>(rows: seq<Version<K, V>>, key: K, slot: nat) {
    NewestVersion(rows, key).Some? && NewestVersion(rows, key).value.slot > slot
  }

  /** An inserted row is read under its key unless a stored one is ahead of it, and changes no other read. */
  lemma NewestSnoc<K, V>(rows: seq<Version<K, V>>, row: Version<K, V>, key: K)
    ensures NewestVersion(rows + [row], key) == if row.key == key && !Ahead(rows, key, row.slot) then Some(row) else NewestVersion(rows, key)
  {
    assert (rows + [row])[..|rows|] == rows;
  }

  predicate SlotsUpTo<K, V>(rows: seq<Version<K, V>>, slot: nat) { forall i :: 0 <= i < |rows| ==> rows[i].slot <= slot }

  lemma NoneAhead<K, V>(rows: seq<Version<K, V>>, key: K, top: nat, slot: nat)
    requires SlotsUpTo(rows, top) && top <= slot
    ensures !Ahead(rows, key, slot)
  {
  }
}
