/**
 The metadata table. A row carries two components, fields and extensions; an
 archive may patch either, and the component it leaves alone is copied from
 the row already stored. So the two behave as independent registers.
 */
module MetadataRows {
  import opened Wrappers
  import opened Order
  import opened MetadataPatches
  import opened ImportOutput
  import opened Versions

  const HOT_TOKEN_INFO_BATCH_SIZE: nat := 10_000

  datatype Components = Components(fields: Fields, extensions: Text)
  type MetadataRow = Version<Pubkey, Components>

  const DefaultFields := Fields("", "", "", "", false, None, 0, [])
  const NoExtensions: Text := "[]"

  function Lookup<V>(m: map<Pubkey, V>, k: Pubkey): Option<V> { if k in m then Some(m[k]) else None }

  function MergeMetadataPatch(mint: Pubkey, fields: Option<VersionedFields>, extensions: Option<VersionedExtensions>,
      previous: Option<MetadataRow>, snapshotSlot: nat): MetadataRow
  {
    var f := if fields.Some? then fields.value.fields else if previous.Some? then previous.value.value.fields else DefaultFields;
    var x := if extensions.Some? then extensions.value.json else if previous.Some? then previous.value.value.extensions else NoExtensions;
    Version(mint, Components(f, x), snapshotSlot)
  }

  function Mints(p: Patches): set<Pubkey> { p.fields.Keys + p.extensions.Keys }

  /** The row written for one mint, given the rows stored before the pass. */
  function Merged(rows: seq<MetadataRow>, p: Patches, preserveExisting: bool, mint: Pubkey, slot: nat): MetadataRow {
    MergeMetadataPatch(mint, Lookup(p.fields, mint), Lookup(p.extensions, mint),
                       if preserveExisting then NewestVersion(rows, mint) else None, slot)
  }

  class MetadataTable {
    var rows: seq<MetadataRow>

    /** All look-ups, batch by batch, before the first write. */
    method LoadExisting(mints: seq<Pubkey>) returns (existing: map<Pubkey, MetadataRow>)
      ensures forall mint :: mint in existing <==> mint in mints && NewestVersion(rows, mint).Some?
      ensures forall mint :: mint in existing ==> Some(existing[mint]) == NewestVersion(rows, mint)
    {
      hide NewestVersion;
      existing := map[];
      var done := 0;
      while done < |mints|
        invariant done <= |mints|
        invariant forall mint :: mint in existing <==> mint in mints[..done] && NewestVersion(rows, mint).Some?
        invariant forall mint :: mint in existing ==> Some(existing[mint]) == NewestVersion(rows, mint)
      {
        var end := if done + HOT_TOKEN_INFO_BATCH_SIZE < |mints| then done + HOT_TOKEN_INFO_BATCH_SIZE else |mints|;
        var batch := map mint | mint in mints[done..end] && NewestVersion(rows, mint).Some? :: NewestVersion(rows, mint).value;
        existing := existing + batch;
        assert mints[..end] == mints[..done] + mints[done..end];
        done := end;
      }
      assert mints[..done] == mints;
    }

    /** One row for each patched mint; it is read unless the stored row has a higher slot. */
    method WriteMergedPatches(p: Patches, mints: seq<Pubkey>, preserveExisting: bool, slot: nat)
      requires forall mint :: mint in mints <==> mint in Mints(p)
      modifies this
      ensures |rows| == |old(rows)| + |mints| && old(rows) <= rows
      ensures forall mint ::
        NewestVersion(rows, mint) ==
          if mint in Mints(p) && !Ahead(old(rows), mint, slot) then Some(Merged(old(rows), p, preserveExisting, mint, slot))
          else NewestVersion(old(rows), mint)
    {
      hide NewestVersion, MergeMetadataPatch, Mints;
      var existing: map<Pubkey, MetadataRow> := map[];
      if preserveExisting {
        existing := LoadExisting(mints);
      }
      var i := 0;
      while i < |mints|
        invariant i <= |mints| && |rows| == |old(rows)| + i && old(rows) <= rows
        invariant forall mint ::
          NewestVersion(rows, mint) ==
            if mint in mints[..i] && !Ahead(old(rows), mint, slot) then Some(Merged(old(rows), p, preserveExisting, mint, slot))
            else NewestVersion(old(rows), mint)
      {
        var mint := mints[i];
        var row := MergeMetadataPatch(mint, Lookup(p.fields, mint), Lookup(p.extensions, mint), Lookup(existing, mint), slot);
        assert row == Merged(old(rows), p, preserveExisting, mint, slot);
        MergedKey(old(rows), p, preserveExisting, mint, slot);
        forall m ensures NewestVersion(rows + [row], m) == if m == mint && !Ahead(old(rows), m, slot) then Some(row) else NewestVersion(rows, m) {
          NewestSnoc(rows, row, m);
        }
        rows := rows + [row];
        assert mints[..i + 1] == mints[..i] + [mint];
        i := i + 1;
      }
      assert mints[..i] == mints;
    }
  }

  lemma MergedKey(rows: seq<MetadataRow>, p: Patches, preserveExisting: bool, mint: Pubkey, slot: nat)
    ensures var row := Merged(rows, p, preserveExisting, mint, slot); row.key == mint && row.slot == slot
  {
  }

  /**
   The columns of a written row: what the patch says, and else what is stored;
   a full import, and a mint never stored, has the defaults instead.
   */
  lemma MergedColumns(rows: seq<MetadataRow>, p: Patches, preserveExisting: bool, mint: Pubkey, slot: nat)
    ensures var row := Merged(rows, p, preserveExisting, mint, slot);
      var stored := NewestVersion(rows, mint);
      && row.key == mint && row.slot == slot
      && (mint in p.fields ==> row.value.fields == p.fields[mint].fields)
      && (mint in p.extensions ==> row.value.extensions == p.extensions[mint].json)
      && (preserveExisting && stored.Some? ==>
            && (mint !in p.fields ==> row.value.fields == stored.value.value.fields)
            && (mint !in p.extensions ==> row.value.extensions == stored.value.value.extensions))
      && (!preserveExisting || stored.None? ==>
            && (mint !in p.fields ==> row.value.fields == Fields("", "", "", "", false, None, 0, []))
            && (mint !in p.extensions ==> row.value.extensions == "[]"))
  {
    hide NewestVersion;
  }

  // ------------------------------------------------- runs of incrementals

  /** A table as its FINAL read: one row at most for each mint. */
  type Contents = map<Pubkey, MetadataRow>

  /** A pass at a slot below that of a stored row leaves that mint as it is. */
  predicate Takes(c: Contents, p: Patches, slot: nat, mint: Pubkey) { mint in Mints(p) && (mint in c ==> c[mint].slot <= slot) }

  /** One incremental pass over the stored rows, as `WriteMergedPatches` leaves them. */
  function AfterPass(c: Contents, p: Patches, slot: nat): (r: Contents)
  {
    map mint | mint in c.Keys + Mints(p) ::
      if Takes(c, p, slot, mint) then MergeMetadataPatch(mint, Lookup(p.fields, mint), Lookup(p.extensions, mint), Lookup(c, mint), slot)
      else c[mint]
  }

  function AfterPasses(c: Contents, passes: seq<(Patches, nat)>): Contents
    decreases |passes|
  {
    if passes == [] then c
    else AfterPass(AfterPasses(c, passes[..|passes| - 1]), passes[|passes| - 1].0, passes[|passes| - 1].1)
  }

  ghost predicate Reads(rows: seq<MetadataRow>, c: Contents) {
    forall mint :: NewestVersion(rows, mint) == Lookup(c, mint)
  }

  /** What the method leaves in the table is what the pass says. */
  lemma PassIsMethod(before: seq<MetadataRow>, after: seq<MetadataRow>, c: Contents, p: Patches, slot: nat)
    requires Reads(before, c)
    requires forall mint ::
      NewestVersion(after, mint) ==
        if mint in Mints(p) && !Ahead(before, mint, slot) then Some(Merged(before, p, true, mint, slot)) else NewestVersion(before, mint)
    ensures Reads(after, AfterPass(c, p, slot))
  {
    hide NewestVersion, Mints, MergeMetadataPatch;
    forall mint ensures NewestVersion(after, mint) == Lookup(AfterPass(c, p, slot), mint) {
      assert Ahead(before, mint, slot) <==> mint in c && c[mint].slot > slot;
    }
  }

  // ------------------------------------------------ by the passes alone

  /** The highest slot at which the mint was ever written: that of the row that is read. */
  function TopSlot(initial: Option<nat>, passes: seq<(Patches, nat)>, mint: Pubkey): (slot: Option<nat>)
    ensures initial.Some? ==> slot.Some? && slot.value >= initial.value
    decreases |passes|
  {
    if passes == [] then initial
    else
      var n := |passes| - 1;
      var top := TopSlot(initial, passes[..n], mint);
      if mint in Mints(passes[n].0) then Some(Max(top.GetOr(0), passes[n].1)) else top
  }

  /** The pass is not below anything that wrote this mint before. */
  predicate Effective(initial: Option<nat>, earlier: seq<(Patches, nat)>, slot: nat, mint: Pubkey) {
    TopSlot(initial, earlier, mint).GetOr(0) <= slot
  }

  /** The last effective archive that patched the fields of a mint, if any did. */
  function LastFields(initial: Option<nat>, passes: seq<(Patches, nat)>, mint: Pubkey): Option<Fields>
    decreases |passes|
  {
    if passes == [] then None
    else
      var n := |passes| - 1;
      var p := passes[n].0;
      if mint in p.fields && Effective(initial, passes[..n], passes[n].1, mint) then Some(p.fields[mint].fields)
      else LastFields(initial, passes[..n], mint)
  }

  function LastExtensions(initial: Option<nat>, passes: seq<(Patches, nat)>, mint: Pubkey): Option<Text>
    decreases |passes|
  {
    if passes == [] then None
    else
      var n := |passes| - 1;
      var p := passes[n].0;
      if mint in p.extensions && Effective(initial, passes[..n], passes[n].1, mint) then Some(p.extensions[mint].json)
      else LastExtensions(initial, passes[..n], mint)
  }

  function Stored<T>(last: Option<T>, initial: Option<T>, otherwise: T): T {
    if last.Some? then last.value else initial.GetOr(otherwise)
  }

  function SlotIn(c: Contents, mint: Pubkey): Option<nat> { if mint in c then Some(c[mint].slot) else None }

  /**
   Two independent registers, whatever the slots of the passes: after any run of
   incrementals the stored fields are those of the last effective archive that
   patched the fields, the stored extensions those of the last effective archive
   that patched the extensions, and the row is at the highest slot so far.
   */
  lemma {:induction false} IndependentRegisters(c: Contents, passes: seq<(Patches, nat)>, mint: Pubkey)
    ensures var r := AfterPasses(c, passes);
      var initial := SlotIn(c, mint);
      var fields, extensions := LastFields(initial, passes, mint), LastExtensions(initial, passes, mint);
      && SlotIn(r, mint) == TopSlot(initial, passes, mint)
      && (mint in r ==>
            && r[mint].value.fields == Stored(fields, if mint in c then Some(c[mint].value.fields) else None, DefaultFields)
            && r[mint].value.extensions == Stored(extensions, if mint in c then Some(c[mint].value.extensions) else None, NoExtensions))
      && (mint !in r ==> fields.None? && extensions.None?)
    decreases |passes|
  {
    hide DefaultFields, NoExtensions;
    if passes != [] {
      var n := |passes| - 1;
      IndependentRegisters(c, passes[..n], mint);
      assert Takes(AfterPasses(c, passes[..n]), passes[n].0, passes[n].1, mint)
          <==> mint in Mints(passes[n].0) && Effective(SlotIn(c, mint), passes[..n], passes[n].1, mint);
    }
  }

  /** Slots of a run that does not go back; an interrupted pass is repeated at its own slot. */
  predicate Rising(initial: Option<nat>, passes: seq<(Patches, nat)>) {
    forall i :: 0 <= i < |passes| ==> initial.GetOr(0) <= passes[i].1 && forall j :: i < j < |passes| ==> passes[i].1 <= passes[j].1
  }

  /** The archive that last patched the fields of a mint, at whatever slot. */
  function LatestFields(passes: seq<(Patches, nat)>, mint: Pubkey): Option<Fields>
    decreases |passes|
  {
    if passes == [] then None
    else
      var p := passes[|passes| - 1].0;
      if mint in p.fields then Some(p.fields[mint].fields) else LatestFields(passes[..|passes| - 1], mint)
  }

  function LatestExtensions(passes: seq<(Patches, nat)>, mint: Pubkey): Option<Text>
    decreases |passes|
  {
    if passes == [] then None
    else
      var p := passes[|passes| - 1].0;
      if mint in p.extensions then Some(p.extensions[mint].json) else LatestExtensions(passes[..|passes| - 1], mint)
  }

  lemma {:induction false} RisingBounds(initial: Option<nat>, passes: seq<(Patches, nat)>, mint: Pubkey, slot: nat)
    requires initial.GetOr(0) <= slot && forall i :: 0 <= i < |passes| ==> passes[i].1 <= slot
    ensures TopSlot(initial, passes, mint).GetOr(0) <= slot
    decreases |passes|
  {
    if passes != [] {
      RisingBounds(initial, passes[..|passes| - 1], mint, slot);
    }
  }

  /** In a run that does not go back every pass is effective: the latest patch is what is stored. */
  lemma {:induction false} RisingTakesLatest(initial: Option<nat>, passes: seq<(Patches, nat)>, mint: Pubkey)
    requires Rising(initial, passes)
    ensures LastFields(initial, passes, mint) == LatestFields(passes, mint)
    ensures LastExtensions(initial, passes, mint) == LatestExtensions(passes, mint)
    decreases |passes|
  {
    hide TopSlot;
    if passes != [] {
      var n := |passes| - 1;
      RisingTakesLatest(initial, passes[..n], mint);
      RisingBounds(initial, passes[..n], mint, passes[n].1);
    }
  }

  /** The table after a run of incremental passes, at any slots, reads as the run says. */
  method RunIncrementals(table: MetadataTable, ghost c: Contents, passes: seq<(Patches, nat)>)
    requires Reads(table.rows, c)
    modifies table
    ensures Reads(table.rows, AfterPasses(c, passes))
  {
    hide Reads, Mints, NewestVersion, Merged, AfterPass, Ahead;
    var i := 0;
    assert passes[..0] == [];
    while i < |passes|
      invariant i <= |passes|
      invariant Reads(table.rows, AfterPasses(c, passes[..i]))
    {
      var (p, slot) := passes[i];
      ghost var before := table.rows;
      var mints := EnumerateMints(p);
      table.WriteMergedPatches(p, mints, true, slot);
      PassIsMethod(before, table.rows, AfterPasses(c, passes[..i]), p, slot);
      assert passes[..i + 1][..i] == passes[..i];
      i := i + 1;
    }
    assert passes[..i] == passes;
  }

  method EnumerateMints(p: Patches) returns (mints: seq<Pubkey>)
    ensures forall mint :: mint in mints <==> mint in Mints(p)
  {
    mints := [];
    var left := Mints(p);
    while left != {}
      invariant left <= Mints(p)
      invariant forall mint :: mint in mints <==> mint in Mints(p) - left
      decreases |left|
    {
      var mint :| mint in left;
      left := left - {mint};
      mints := mints + [mint];
    }
  }
}
